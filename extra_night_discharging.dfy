/** extra_night_discharging.py: at 21, 22 and 23 o'clock, discharge for the
    rest of the hour when the battery holds more than 1% and the current
    price is at least 50 above the mean of the two cheapest of tomorrow's
    hours 0-5. */
module ExtraNightDischarging {
  import opened Prices
  import opened Ranking
  import opened Actuator

  /** `price_threshold_offset`. */
  const ThresholdOffset: real := 50.0

  /** `sum(sorted(tomorrow_prices[:6])[:2]) / 2`. */
  function NightReference(prices: seq<Option<real>>): real
    requires |prices| >= 6
  {
    Sum(PricesOf(Best(Window(prices, 0, 6), Cheapest, 2))) / 2.0
  }

  /** The reference is the mean of the cheapest pair of hours 0-5: it is met
      by two different hours and no two different hours average less. */
  lemma NightReferenceCheapestPair(prices: seq<Option<real>>)
    requires |prices| >= 6 && KnownBetween(prices, 0, 6)
    ensures forall i, j :: 0 <= i < 6 && 0 <= j < 6 && i != j ==>
      NightReference(prices) <= (prices[i].value + prices[j].value) / 2.0
    ensures exists i, j :: (0 <= i < 6 && 0 <= j < 6 && i != j &&
      NightReference(prices) == (prices[i].value + prices[j].value) / 2.0)
  {
    var es := Window(prices, 0, 6);
    var r := Rank(es, Cheapest);
    assert Ranked(r, Cheapest) && forall e :: e in r <==> e in es by {
      KnownEntriesIncreasing(prices[0..6], 0);
      RankEnumerated(es, Cheapest);
      RankMembers(es, Cheapest);
    }
    assert |es| == 6 && forall i :: 0 <= i < 6 ==> es[i] == Entry(i, prices[i].value) by {
      WindowFull(prices, 0, 6);
    }
    assert NightReference(prices) == (r[0].price + r[1].price) / 2.0 by {
      assert Best(es, Cheapest, 2) == [r[0], r[1]];
      PairSum(r[0], r[1]);
    }
    forall i, j | 0 <= i < 6 && 0 <= j < 6 && i != j
      ensures r[0].price + r[1].price <= prices[i].value + prices[j].value
    {
      assert es[i] in r && es[j] in r;
      CheapestPairBelow(r, es[i], es[j]);
    }
    assert r[0] in es && r[1] in es;
    var i :| 0 <= i < 6 && es[i] == r[0];
    var j :| 0 <= j < 6 && es[j] == r[1];
    assert i != j by {
      assert Precedes(r[0], r[1], Cheapest);
    }
  }

  lemma PairSum(a: Entry, b: Entry)
    ensures Sum(PricesOf([a, b])) == a.price + b.price
  {
    var ps := PricesOf([a, b]);
    assert ps == [a.price, b.price];
    assert ps[..1] == [a.price];
    assert Sum(ps) == Sum([a.price]) + b.price;
    assert [a.price][..0] == [];
    assert Sum([a.price]) == Sum([]) + a.price;
  }

  /** In a list ranked cheapest first, the first two prices sum to no more
      than the prices of any two different entries. */
  lemma CheapestPairBelow(r: seq<Entry>, x: Entry, y: Entry)
    requires Ranked(r, Cheapest) && x in r && y in r && x != y
    ensures |r| >= 2 && r[0].price + r[1].price <= x.price + y.price
  {
    var a :| 0 <= a < |r| && r[a] == x;
    var b :| 0 <= b < |r| && r[b] == y;
    var lo, hi := if a < b then a else b, if a < b then b else a;
    assert r[0].price <= r[lo].price by {
      if lo > 0 {
        assert Precedes(r[0], r[lo], Cheapest);
      }
    }
    assert r[1].price <= r[hi].price by {
      if hi > 1 {
        assert Precedes(r[1], r[hi], Cheapest);
      }
    }
  }

  /** What `check_conditions` ends in. */
  datatype NightCheck =
    | Unreadable
    | TooFewPrices
    | Discharge(difference: real)
    | LowBattery(level: real)
    | SmallDifference(difference: real)

  /** What the code reads without raising: `sorted` needs the first six of
      tomorrow's prices to be present. */
  predicate Runnable(currentPrice: Reading, battery: Reading, prices: seq<Option<real>>)
  {
    AsFloat(currentPrice).Some? && AsFloat(battery).Some? && |prices| >= 6 ==> KnownBetween(prices, 0, 6)
  }

  /** `check_conditions`, lines 20-60: an unparsable price or battery level
      ends the check first, too few prices next; then discharge starts iff
      the battery is above 1% and the difference reaches the offset, and a
      low battery is the reason given before a small difference. */
  function Check(currentPrice: Reading, battery: Reading, prices: seq<Option<real>>): (c: NightCheck)
    requires Runnable(currentPrice, battery, prices)
    ensures c.Unreadable? <==> AsFloat(currentPrice).None? || AsFloat(battery).None?
    ensures c.TooFewPrices? <==> AsFloat(currentPrice).Some? && AsFloat(battery).Some? && |prices| < 6
    ensures c.Discharge? <==> (AsFloat(currentPrice).Some? && AsFloat(battery).Some? && |prices| >= 6
      && AsFloat(battery).value > 1.0 && AsFloat(currentPrice).value - NightReference(prices) >= ThresholdOffset)
    ensures c.LowBattery? <==> (AsFloat(currentPrice).Some? && AsFloat(battery).Some? && |prices| >= 6
      && AsFloat(battery).value <= 1.0)
    ensures c.Discharge? || c.SmallDifference? ==> c.difference == AsFloat(currentPrice).value - NightReference(prices)
  {
    match (AsFloat(currentPrice), AsFloat(battery))
    case (Some(price), Some(level)) =>
      if |prices| < 6 then TooFewPrices
      else
        var difference := price - NightReference(prices);
        if level > 1.0 && difference >= ThresholdOffset then Discharge(difference)
        else if level <= 1.0 then LowBattery(level)
        else SmallDifference(difference)
    case _ => Unreadable
  }

  /** `calculate_end_of_hour`: the next top of the hour, `now` counted in seconds. */
  function EndOfHour(now: nat): (t: nat)
    ensures now < t <= now + 3600
    ensures t % 3600 == 0
  {
    (now / 3600) * 3600 + 3600
  }

  /** The end of the hour is the first top of an hour after `now`. */
  lemma EndOfHourFirst(now: nat, t: nat)
    requires now < t && t % 3600 == 0
    ensures EndOfHour(now) <= t
  {
    var q := t / 3600;
    assert t == q * 3600;
  }

  /** `start_discharging`: EMS Self-consumption after 8 s, then command Stop 2 s later. */
  function StartDischargingWrites(): seq<TimedWrite>
  {
    [TimedWrite(8, Ems(SelfConsumption)), TimedWrite(10, Cmd(StopDefault))]
  }

  /** `stop_discharging`: EMS Forced now, then command Stop 2 s later. */
  function StopDischargingWrites(): seq<TimedWrite>
  {
    [TimedWrite(0, Ems(ForcedMode)), TimedWrite(2, Cmd(StopDefault))]
  }

  /** The inverter writes of a check, and the time of the stop it schedules
      (None: none). */
  function CheckWrites(c: NightCheck): seq<TimedWrite>
  {
    if c.Discharge? then StartDischargingWrites() else []
  }

  function StopTime(c: NightCheck, now: nat): Option<nat>
  {
    if c.Discharge? then Some(EndOfHour(now)) else None
  }

  /** Only a started discharge writes or schedules anything; its stop comes
      at the next top of the hour. */
  lemma CheckActions(currentPrice: Reading, battery: Reading, prices: seq<Option<real>>, now: nat)
    requires Runnable(currentPrice, battery, prices)
    ensures var c := Check(currentPrice, battery, prices);
      (CheckWrites(c) != [] <==> c.Discharge?) && (StopTime(c, now).Some? <==> c.Discharge?)
    ensures var c := Check(currentPrice, battery, prices);
      StopTime(c, now).Some? ==> now < StopTime(c, now).value <= now + 3600 && StopTime(c, now).value % 3600 == 0
  {
  }

  /** Both chains are in time order. The start touches nothing for eight
      seconds, then sets Self-consumption and two seconds later command
      Stop; the stop sets Forced mode at once and command Stop two seconds
      later. */
  lemma DischargeChains(d: Device)
    ensures Chronological(StartDischargingWrites()) && Chronological(StopDischargingWrites())
    ensures forall t :: t < 8 ==> StateAt(d, StartDischargingWrites(), t) == d
    ensures forall t :: 8 <= t < 10 ==> StateAt(d, StartDischargingWrites(), t) == d.(ems := SelfConsumption)
    ensures forall t :: t < 2 ==> StateAt(d, StopDischargingWrites(), t) == d.(ems := ForcedMode)
    ensures StateAt(d, StartDischargingWrites(), 10) == Perform(d, StartDischargingWrites())
    ensures StateAt(d, StopDischargingWrites(), 2) == Perform(d, StopDischargingWrites())
    ensures Perform(d, StartDischargingWrites()) == Device(SelfConsumption, StopDefault, d.maxChargePower)
    ensures Perform(d, StopDischargingWrites()) == Device(ForcedMode, StopDefault, d.maxChargePower)
  {
    var s := StartDischargingWrites();
    var e := StopDischargingWrites();
    PerformPair(d, s[0], s[1], SelfConsumption, StopDefault);
    PerformPair(d, e[0], e[1], ForcedMode, StopDefault);
    forall t: nat
      ensures StateAt(d, s, t) == if t < s[0].at then d else if t < s[1].at then Apply(d, s[0].write) else Perform(d, s)
      ensures StateAt(d, e, t) == if t < e[0].at then d else if t < e[1].at then Apply(d, e[0].write) else Perform(d, e)
    {
      StateAtPair(d, s[0], s[1], t);
      StateAtPair(d, e[0], e[1], t);
    }
  }
}
