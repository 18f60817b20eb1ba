/** smart_night_charging.py: the nightly choice of three, four or five of the
    cheapest hours 0-6 of tomorrow, the day-versus-night gate in front of it,
    the charge power, the triggers it registers and the start/stop callbacks.
    The hours chosen last are the one piece of state the script keeps. */
module NightCharging {
  import opened Prices
  import opened Ranking
  import opened HourRuns
  import opened RangeText
  import opened Actuator
  import opened ChargeSchedule

  // ----- Ranking the night (lines 33-60) -----

  /** `[(i, price) for i, price in enumerate(prices[:7]) if price is not None]`. */
  function NightEntries(prices: seq<Option<real>>): seq<Entry>
    requires |prices| >= 7
  {
    Window(prices, 0, 7)
  }

  /** `cheapest_k`: the first k night entries once sorted by price. */
  function CheapestK(prices: seq<Option<real>>, k: nat): seq<Entry>
    requires |prices| >= 7
  {
    Best(NightEntries(prices), Cheapest, k)
  }

  /** `mean_k`; Python divides by the number of entries actually kept. */
  function MeanK(prices: seq<Option<real>>, k: nat): real
    requires |prices| >= 7 && NightEntries(prices) != [] && k > 0
  {
    Mean(PricesOf(CheapestK(prices, k)))
  }

  /** `sensor.chosen_k_hours`: the mean as state, the hours in price order as attribute. */
  datatype Mock = Mock(mean: real, hours: seq<nat>)

  /** The hours of a mock sensor all lie in 0-6 and have a known price. */
  predicate KnownNightHours(prices: seq<Option<real>>, hs: seq<nat>)
  {
    forall j :: 0 <= j < |hs| ==> hs[j] < 7 && hs[j] < |prices| && prices[hs[j]].Some?
  }

  /** The hours come in price order, ties by hour (so no hour twice). */
  predicate InPriceOrder(prices: seq<Option<real>>, hs: seq<nat>)
    requires KnownNightHours(prices, hs)
  {
    forall j, l :: 0 <= j < l < |hs| ==>
      prices[hs[j]].value < prices[hs[l]].value
      || (prices[hs[j]].value == prices[hs[l]].value && hs[j] < hs[l])
  }

  /** Each hour is cheaper than every known night hour left out, or as cheap and earlier. */
  predicate CheaperThanRest(prices: seq<Option<real>>, hs: seq<nat>)
    requires |prices| >= 7 && KnownNightHours(prices, hs)
  {
    forall j, h :: 0 <= j < |hs| && 0 <= h < 7 && prices[h].Some? && h !in hs ==>
      prices[hs[j]].value < prices[h].value
      || (prices[hs[j]].value == prices[h].value && hs[j] < h)
  }

  /** The prices of those hours, in their order. */
  function PricesAt(prices: seq<Option<real>>, hs: seq<nat>): (ps: seq<real>)
    requires KnownNightHours(prices, hs)
    ensures |ps| == |hs|
  {
    seq(|hs|, j requires 0 <= j < |hs| => prices[hs[j]].value)
  }

  /** What the mock sensor for the k cheapest holds: min(k, known) night
      hours with a known price, in price order, each cheaper than every
      known night hour left out or as cheap and earlier; and as state the
      mean of their prices. */
  predicate MockFor(prices: seq<Option<real>>, k: nat, m: Mock)
    requires |prices| >= 7 && NightEntries(prices) != [] && k > 0
  {
    var known := |NightEntries(prices)|;
    && |m.hours| == (if k <= known then k else known)
    && KnownNightHours(prices, m.hours)
    && InPriceOrder(prices, m.hours)
    && CheaperThanRest(prices, m.hours)
    && m.mean == Mean(PricesAt(prices, m.hours))
  }

  lemma CheapestKnown(prices: seq<Option<real>>, k: nat)
    requires |prices| >= 7
    ensures KnownNightHours(prices, Hours(CheapestK(prices, k)))
    ensures forall j :: 0 <= j < |CheapestK(prices, k)| ==>
      CheapestK(prices, k)[j].hour < 7 && prices[CheapestK(prices, k)[j].hour] == Some(CheapestK(prices, k)[j].price)
  {
    var c := CheapestK(prices, k);
    CheapestBeatsRest(prices, k);
    forall j | 0 <= j < |c| ensures c[j].hour < 7 && prices[c[j].hour] == Some(c[j].price) {
      assert c[j] in c;
    }
  }

  lemma CheapestOrdered(prices: seq<Option<real>>, k: nat)
    requires |prices| >= 7
    ensures KnownNightHours(prices, Hours(CheapestK(prices, k)))
    ensures InPriceOrder(prices, Hours(CheapestK(prices, k)))
  {
    CheapestKnown(prices, k);
    CheapestInPriceOrder(prices, k);
  }

  /** A known night hour whose hour is not chosen is a night entry left out. */
  lemma LeftOutEntry(prices: seq<Option<real>>, k: nat, h: nat)
    requires |prices| >= 7 && h < 7 && prices[h].Some? && h !in Hours(CheapestK(prices, k))
    ensures Entry(h, prices[h].value) in NightEntries(prices)
    ensures Entry(h, prices[h].value) !in CheapestK(prices, k)
  {
    var c := CheapestK(prices, k);
    var g := Entry(h, prices[h].value);
    KnownEntriesComplete(prices[0..7], 0, h);
    forall i | 0 <= i < |c| ensures c[i] != g {
      assert Hours(c)[i] in Hours(c);
    }
  }

  lemma CheapestBelowRest(prices: seq<Option<real>>, k: nat)
    requires |prices| >= 7
    ensures KnownNightHours(prices, Hours(CheapestK(prices, k)))
    ensures CheaperThanRest(prices, Hours(CheapestK(prices, k)))
  {
    var c := CheapestK(prices, k);
    var hs := Hours(c);
    CheapestKnown(prices, k);
    CheapestBeatsRest(prices, k);
    forall j, h | 0 <= j < |hs| && 0 <= h < 7 && prices[h].Some? && h !in hs
      ensures prices[hs[j]].value < prices[h].value || (prices[hs[j]].value == prices[h].value && hs[j] < h)
    {
      LeftOutEntry(prices, k, h);
      assert c[j] in c;
      assert prices[hs[j]].value == c[j].price;
    }
  }

  lemma CheapestMean(prices: seq<Option<real>>, k: nat)
    requires |prices| >= 7 && NightEntries(prices) != [] && k > 0
    ensures KnownNightHours(prices, Hours(CheapestK(prices, k)))
    ensures MeanK(prices, k) == Mean(PricesAt(prices, Hours(CheapestK(prices, k))))
  {
    CheapestKnown(prices, k);
    assert PricesAt(prices, Hours(CheapestK(prices, k))) == PricesOf(CheapestK(prices, k));
  }

  /** The sensor `chosen_k_hours` writes for k is `MockFor` k. */
  lemma MockSensor(prices: seq<Option<real>>, k: nat)
    requires |prices| >= 7 && NightEntries(prices) != [] && k > 0
    ensures MockFor(prices, k, Mock(MeanK(prices, k), Hours(CheapestK(prices, k))))
  {
    CheapestOrdered(prices, k);
    CheapestBelowRest(prices, k);
    CheapestMean(prices, k);
  }

  /** The three mock sensors, for k = 3, 4 and 5. */
  function Mocks(prices: seq<Option<real>>): (ms: seq<Mock>)
    requires |prices| >= 7 && NightEntries(prices) != []
    ensures |ms| == 3
    ensures MockFor(prices, 3, ms[0]) && MockFor(prices, 4, ms[1]) && MockFor(prices, 5, ms[2])
  {
    MockSensor(prices, 3);
    MockSensor(prices, 4);
    MockSensor(prices, 5);
    [Mock(MeanK(prices, 3), Hours(CheapestK(prices, 3))),
     Mock(MeanK(prices, 4), Hours(CheapestK(prices, 4))),
     Mock(MeanK(prices, 5), Hours(CheapestK(prices, 5)))]
  }

  /** The k cheapest are night entries with their own prices, each cheaper
      than every night entry left out, or as cheap and earlier. */
  lemma CheapestBeatsRest(prices: seq<Option<real>>, k: nat)
    requires |prices| >= 7
    ensures forall e :: e in CheapestK(prices, k) ==> e.hour < 7 && prices[e.hour] == Some(e.price)
    ensures forall e, g :: e in CheapestK(prices, k) && g in NightEntries(prices) && g !in CheapestK(prices, k) ==>
      e.price < g.price || (e.price == g.price && e.hour < g.hour)
  {
    var es := NightEntries(prices);
    KnownEntriesIncreasing(prices[..7], 0);
    assert prices[0..7] == prices[..7];
    BestMembers(es, Cheapest, k);
    BestBeatsRest(es, Cheapest, k);
    forall e | e in CheapestK(prices, k) ensures e.hour < 7 && prices[e.hour] == Some(e.price) {
      assert e in es;
      assert prices[0..7][e.hour] == prices[e.hour];
    }
    forall e, g | e in CheapestK(prices, k) && g in es && g !in CheapestK(prices, k)
      ensures e.price < g.price || (e.price == g.price && e.hour < g.hour)
    {
      assert Precedes(e, g, Cheapest);
    }
  }

  /** The k cheapest sorted by hour: ascending, as many as there are
      night prices up to k, and exactly the hours of the k cheapest. */
  lemma SortedCheapest(prices: seq<Option<real>>, k: nat)
    requires |prices| >= 7
    ensures |SortedHours(CheapestK(prices, k))| == (if k <= |NightEntries(prices)| then k else |NightEntries(prices)|)
    ensures Increasing(SortedHours(CheapestK(prices, k)))
    ensures forall h: nat :: h in SortedHours(CheapestK(prices, k)) <==>
      h < 7 && prices[h].Some? && Entry(h, prices[h].value) in CheapestK(prices, k)
  {
    var chosen := CheapestK(prices, k);
    var hours := SortedHours(chosen);
    KnownEntriesIncreasing(prices[0..7], 0);
    BestDistinctHours(NightEntries(prices), Cheapest, k);
    SortedHoursSpec(chosen);
    CheapestBeatsRest(prices, k);
    forall h: nat ensures h in hours <==> h < 7 && prices[h].Some? && Entry(h, prices[h].value) in chosen {
      if h in hours {
        var e :| e in chosen && e.hour == h;
      }
    }
  }

  /** The mock hour lists are in price order: each hour's price is below the
      next one's, or equal with the earlier hour first. */
  lemma CheapestInPriceOrder(prices: seq<Option<real>>, k: nat)
    requires |prices| >= 7
    ensures var c := CheapestK(prices, k);
      forall i, j :: 0 <= i < j < |c| ==> c[i].price < c[j].price || (c[i].price == c[j].price && c[i].hour < c[j].hour)
  {
    var es := NightEntries(prices);
    KnownEntriesIncreasing(prices[0..7], 0);
    RankEnumerated(es, Cheapest);
    var r := Rank(es, Cheapest);
    var c := CheapestK(prices, k);
    forall i, j | 0 <= i < j < |c| ensures c[i].price < c[j].price || (c[i].price == c[j].price && c[i].hour < c[j].hour) {
      assert c[i] == r[i] && c[j] == r[j];
      assert Precedes(r[i], r[j], Cheapest);
    }
  }

  /** Taking more of the cheapest never lowers the mean: mean_3 <= mean_4 <= mean_5. */
  lemma MeansOrdered(prices: seq<Option<real>>)
    requires |prices| >= 7 && NightEntries(prices) != []
    ensures MeanK(prices, 3) <= MeanK(prices, 4) <= MeanK(prices, 5)
  {
    KnownEntriesIncreasing(prices[0..7], 0);
    CheapestMeanGrows(NightEntries(prices), 3);
    CheapestMeanGrows(NightEntries(prices), 4);
  }

  // ----- The day side (lines 62-67) -----

  /** `sorted(prices[7:], reverse=True)[:7]`, as entries. Sorting the bare
      prices gives the same values in the same order. */
  function DayTop(prices: seq<Option<real>>): seq<Entry>
    requires |prices| >= 7
  {
    Best(Window(prices, 7, |prices|), Dearest, 7)
  }

  /** `sum(expensive_7_day) / 7`. */
  function DayTopMean(prices: seq<Option<real>>): real
    requires |prices| >= 7
  {
    Sum(PricesOf(DayTop(prices))) / 7.0
  }

  /** With at least seven day prices, none missing, the top seven are seven
      day hours with their own prices, each at least as dear as every day
      hour left out. */
  lemma DayTopProperties(prices: seq<Option<real>>)
    requires |prices| >= 14 && KnownBetween(prices, 7, |prices|)
    ensures |DayTop(prices)| == 7
    ensures forall e :: e in DayTop(prices) ==> 7 <= e.hour < |prices| && prices[e.hour] == Some(e.price)
    ensures forall e, h: nat :: e in DayTop(prices) && 7 <= h < |prices| && Entry(h, prices[h].value) !in DayTop(prices) ==>
      prices[h].value <= e.price
  {
    var top := DayTop(prices);
    WindowBest(prices, 7, |prices|, Dearest, 7);
    forall e, h: nat | e in top && 7 <= h < |prices| && Entry(h, prices[h].value) !in top
      ensures prices[h].value <= e.price
    {
      assert Precedes(e, Entry(h, prices[h].value), Dearest);
    }
  }

  // ----- The selection rule (lines 97-119) -----

  /** Five hours when mean_5 - mean_3 <= 10, else four when mean_4 - mean_3
      <= 5, else three. */
  function RuleSize(m3: real, m4: real, m5: real): (k: nat)
    ensures 3 <= k <= 5
    ensures k == 5 <==> m5 - m3 <= 10.0
    ensures k == 4 <==> m5 - m3 > 10.0 && m4 - m3 <= 5.0
  {
    if m5 - m3 <= 10.0 then 5 else if m4 - m3 <= 5.0 then 4 else 3
  }

  /** `set_max_charging_power`: the watts for a count of selected hours. */
  function MaxChargingPower(count: nat): nat
  {
    if count == 3 then 6200 else if count == 4 then 4700 else if count == 5 then 3800 else 4000
  }

  // ----- The update (lines 20-156) -----

  /** What one update ends in. Fewer than seven prices leave every output
      alone; fewer than seven day prices give "unknown"; a difference below
      40 gives "Price difference too low"; the validation at line 110 would
      give Rejected; otherwise the hours are charged in. */
  datatype NightOutcome =
    | TooFewPrices
    | Unknown
    | TooLow(difference: real)
    | Rejected(difference: real)
    | Charge(difference: real, hours: seq<nat>, mean: real)

  /** What the code reads without raising: a night price to divide by, and
      no missing day price for `sorted` to compare. */
  predicate Runnable(prices: seq<Option<real>>)
  {
    |prices| >= 7 ==> NightEntries(prices) != [] && (|prices| >= 14 ==> KnownBetween(prices, 7, |prices|))
  }

  function Decide(prices: seq<Option<real>>): (o: NightOutcome)
    requires Runnable(prices)
    ensures o == TooFewPrices <==> |prices| < 7
    ensures o == Unknown <==> 7 <= |prices| < 14
    ensures |prices| >= 14 ==> (o.difference == DayTopMean(prices) - MeanK(prices, 3)
      && (o.TooLow? <==> o.difference < 40.0))
  {
    if |prices| < 7 then TooFewPrices
    else if |prices| < 14 then Unknown
    else
      var difference := DayTopMean(prices) - MeanK(prices, 3);
      if difference < 40.0 then TooLow(difference)
      else Selection(prices, difference)
  }

  /** Lines 97-119: the size the rule picks, the validation, and the hours sorted. */
  function Selection(prices: seq<Option<real>>, difference: real): (o: NightOutcome)
    requires |prices| >= 7 && NightEntries(prices) != []
    ensures (o.Rejected? || o.Charge?) && o.difference == difference
  {
    var k := RuleSize(MeanK(prices, 3), MeanK(prices, 4), MeanK(prices, 5));
    var chosen := CheapestK(prices, k);
    if chosen == [] || (exists e :: e in chosen && e.hour > 23) then Rejected(difference)
    else Charge(difference, SortedHours(chosen), MeanK(prices, k))
  }

  /** The validation never rejects: at least one night hour is kept and every
      kept hour lies in 0..6. */
  lemma NeverRejected(prices: seq<Option<real>>)
    requires Runnable(prices)
    ensures !Decide(prices).Rejected?
  {
    if |prices| >= 14 {
      var k := RuleSize(MeanK(prices, 3), MeanK(prices, 4), MeanK(prices, 5));
      CheapestBeatsRest(prices, k);
    }
  }

  /** The charged hours: the prefix the rule picks, sorted by hour, with its
      mean, after a day-versus-night difference of at least 40. */
  lemma ChargeProperties(prices: seq<Option<real>>, difference: real, hours: seq<nat>, mean: real)
    requires Runnable(prices)
    requires Decide(prices) == Charge(difference, hours, mean)
    ensures |prices| >= 14 && NightEntries(prices) != []
    ensures difference == DayTopMean(prices) - MeanK(prices, 3) && difference >= 40.0
    ensures var k := RuleSize(MeanK(prices, 3), MeanK(prices, 4), MeanK(prices, 5));
      && mean == MeanK(prices, k)
      && |hours| == (if k <= |NightEntries(prices)| then k else |NightEntries(prices)|)
      && Increasing(hours)
      && forall h: nat :: h in hours <==> h < 7 && prices[h].Some? && Entry(h, prices[h].value) in CheapestK(prices, k)
  {
    var k := RuleSize(MeanK(prices, 3), MeanK(prices, 4), MeanK(prices, 5));
    SortedCheapest(prices, k);
  }

  /** Every charged hour lies in 0..6, so no stop trigger reaches hour 24. */
  lemma ChargeHoursAtNight(prices: seq<Option<real>>)
    requires Runnable(prices) && Decide(prices).Charge?
    ensures |Decide(prices).hours| > 0
    ensures forall h :: h in Decide(prices).hours ==> h < 7
  {
    var o := Decide(prices);
    ChargeProperties(prices, o.difference, o.hours, o.mean);
  }

  /** The power written: 6200, 4700 or 3800 W for the three, four or five
      hours the rule picks, as long as there are that many night prices;
      with fewer the count falls through to the 4000 W branch unless it
      happens to be three or four. */
  lemma ChargePower(prices: seq<Option<real>>)
    requires Runnable(prices) && Decide(prices).Charge?
    ensures var k := RuleSize(MeanK(prices, 3), MeanK(prices, 4), MeanK(prices, 5));
      k <= |NightEntries(prices)| ==>
        MaxChargingPower(|Decide(prices).hours|) == (if k == 3 then 6200 else if k == 4 then 4700 else 3800)
  {
    var o := Decide(prices);
    ChargeProperties(prices, o.difference, o.hours, o.mean);
  }

  // ----- What the update publishes -----

  /** `sensor.selected_charging_hours` after the update (None: not written). */
  function SelectedHoursState(o: NightOutcome, meanText: string): Option<string>
  {
    match o
    case TooFewPrices => None
    case Unknown => Some("unknown")
    case TooLow(_) => Some("Price difference too low")
    case Rejected(_) => None
    case Charge(_, hours, _) => Some(StateText(NightRangeText(hours), meanText))
  }

  /** `sensor.night_charging_day_prices_comparison` after the update. */
  function ComparisonState(o: NightOutcome): Option<Reading>
  {
    match o
    case TooFewPrices => None
    case Unknown => Some(Word("unknown"))
    case TooLow(d) => Some(Number(d))
    case Rejected(d) => Some(Number(d))
    case Charge(d, _, _) => Some(Number(d))
  }

  /** `sensor.selected_charging_hours_prices` after the update. */
  function PricesState(o: NightOutcome, meanText: string): Option<string>
  {
    if o.Charge? then Some(meanText) else None
  }

  /** `stop_charging`: command Stop at once. */
  function StopChargingWrites(): seq<TimedWrite>
  {
    [TimedWrite(0, Cmd(StopDefault))]
  }

  /** `start_charging` once the hour is selected: EMS Forced after two
      seconds, Forced charge after four. */
  function ChargeChain(): seq<TimedWrite>
  {
    [TimedWrite(2, Ems(ForcedMode)), TimedWrite(4, Cmd(ForcedCharge))]
  }

  /** The inverter writes of an update. */
  function UpdateWrites(o: NightOutcome): seq<TimedWrite>
  {
    match o
    case TooLow(_) => StopChargingWrites()
    case Rejected(_) => StopChargingWrites()
    case Charge(_, hours, _) => [TimedWrite(0, MaxChargePower(MaxChargingPower(|hours|)))]
    case _ => []
  }

  /** The triggers an update registers. */
  function UpdateTriggers(o: NightOutcome): seq<Trigger>
  {
    if o.Charge? then GuardedCharging(o.hours) else []
  }

  /** Fewer than seven prices: no output is written. */
  lemma ShortListOutputs(prices: seq<Option<real>>, meanText: string)
    requires |prices| < 7
    ensures SelectedHoursState(Decide(prices), meanText) == None
    ensures ComparisonState(Decide(prices)) == None
    ensures PricesState(Decide(prices), meanText) == None
    ensures UpdateWrites(Decide(prices)) == [] && UpdateTriggers(Decide(prices)) == []
  {
  }

  /** Seven to thirteen prices: both outputs read "unknown" and nothing is
      written or scheduled. */
  lemma NoDayOutputs(prices: seq<Option<real>>, meanText: string)
    requires Runnable(prices) && 7 <= |prices| < 14
    ensures SelectedHoursState(Decide(prices), meanText) == Some("unknown")
    ensures ComparisonState(Decide(prices)) == Some(Word("unknown"))
    ensures UpdateWrites(Decide(prices)) == [] && UpdateTriggers(Decide(prices)) == []
  {
  }

  /** With the day side present the comparison is published, and the
      update stops at the gate iff the difference is below 40. */
  lemma DayGateOutputs(prices: seq<Option<real>>)
    requires Runnable(prices) && |prices| >= 14
    ensures ComparisonState(Decide(prices)) == Some(Number(DayTopMean(prices) - MeanK(prices, 3)))
    ensures DayTopMean(prices) - MeanK(prices, 3) < 40.0 <==> Decide(prices).TooLow?
  {
    var o := Decide(prices);
    assert o.TooLow? || o.Rejected? || o.Charge?;
    assert ComparisonState(o) == Some(Number(o.difference));
  }

  /** Below 40 the state reads "Price difference too low", Stop is written
      and nothing is scheduled. */
  lemma TooLowOutputs(o: NightOutcome, meanText: string)
    requires o.TooLow?
    ensures SelectedHoursState(o, meanText) == Some("Price difference too low")
    ensures UpdateWrites(o) == StopChargingWrites()
    ensures UpdateTriggers(o) == []
  {
  }

  // ----- The scheduler (lines 207-271) -----

  /** `schedule_sequential_charging` with its `scheduled_hours` guard. Hour
      23 has no next hour on the same date, so the hours stop at 22. */
  method ScheduleSequentialCharging(hours: seq<nat>) returns (triggers: seq<Trigger>)
    requires |hours| > 0
    requires forall h :: h in hours ==> h <= 22
    ensures triggers == GuardedCharging(hours)
  {
    var ranges, singles := SplitRuns(hours);
    var t, scheduled := ScheduleRanges(ranges);
    triggers := ScheduleLone(singles, t, scheduled);
  }

  /** The loop over `sequential_ranges`. */
  method ScheduleRanges(ranges: seq<seq<nat>>) returns (triggers: seq<Trigger>, scheduled: set<nat>)
    requires forall i :: 0 <= i < |ranges| ==> |ranges[i]| > 0
    ensures Pass(triggers, scheduled) == GuardRanges(ranges, Pass([], {}))
  {
    scheduled := {};
    triggers := [];
    var i := 0;
    while i < |ranges|
      invariant 0 <= i <= |ranges|
      invariant Pass(triggers, scheduled) == GuardRanges(ranges[..i], Pass([], {}))
    {
      var r := ranges[i];
      assert ranges[..i + 1][..i] == ranges[..i];
      var start := r[0];
      var stop := r[|r| - 1] + 1;
      assert stop == Last(r) + 1;
      if start !in scheduled {
        triggers := triggers + [Trigger(Tomorrow, start, Begin)];
        scheduled := scheduled + {start};
      }
      if stop !in scheduled {
        triggers := triggers + [Trigger(Tomorrow, stop, End)];
        scheduled := scheduled + {stop};
      }
      i := i + 1;
    }
    assert ranges[..|ranges|] == ranges;
  }

  /** The loop over `non_sequential_hours`, continuing from the triggers and
      the set the first loop left. */
  method ScheduleLone(singles: seq<nat>, triggers0: seq<Trigger>, scheduled0: set<nat>) returns (triggers: seq<Trigger>)
    ensures triggers == GuardLone(singles, Pass(triggers0, scheduled0)).triggers
  {
    triggers := triggers0;
    var scheduled := scheduled0;
    var j := 0;
    while j < |singles|
      invariant 0 <= j <= |singles|
      invariant Pass(triggers, scheduled) == GuardLone(singles[..j], Pass(triggers0, scheduled0))
    {
      var h := singles[j];
      assert singles[..j + 1][..j] == singles[..j];
      if h !in scheduled {
        triggers := triggers + [Trigger(Tomorrow, h, Begin), Trigger(Tomorrow, h + 1, End)];
        scheduled := scheduled + {h, h + 1};
      }
      j := j + 1;
    }
    assert singles[..|singles|] == singles;
  }

  /** Every start trigger of a charge fires the charge chain, and no stop
      trigger falls on a charged hour. */
  lemma TriggersMatchCallbacks(hours: seq<nat>)
    requires Increasing(hours)
    ensures forall t :: t in GuardedCharging(hours) ==>
      t.day == Tomorrow && (t.action == Begin ==> t.hour in hours) && (t.action == End ==> t.hour !in hours)
    ensures forall i :: 0 <= i < |Runs(hours)| ==> Trigger(Tomorrow, Runs(hours)[i][0], Begin) in GuardedCharging(hours)
  {
    GuardNeverDrops(hours);
    PlannedChargingSpec(hours);
  }

  /** The charge chain is in time order and leaves the inverter in Forced
      mode with Forced charge; the stop leaves the EMS mode as it was. */
  lemma ChargeChains(d: Device)
    ensures Chronological(ChargeChain())
    ensures Perform(d, ChargeChain()) == Device(ForcedMode, ForcedCharge, d.maxChargePower)
    ensures Perform(d, StopChargingWrites()) == d.(command := StopDefault)
  {
    var c := ChargeChain();
    PerformPair(d, c[0], c[1], ForcedMode, ForcedCharge);
    assert StopChargingWrites()[..0] == [];
  }

  /** The script object: `selected_hours` survives between the update and
      the callbacks it schedules. */
  class SmartNightCharging {
    var selectedHours: seq<nat>

    constructor ()
      ensures selectedHours == []
    {
      selectedHours := [];
    }

    /** `update_charging_hours`: the outcome (which fixes the published
        states), the inverter writes and the triggers it registers; the
        selected hours are replaced only when hours are charged. */
    method UpdateChargingHours(prices: seq<Option<real>>)
      returns (outcome: NightOutcome, writes: seq<TimedWrite>, triggers: seq<Trigger>)
      requires Runnable(prices)
      modifies this
      ensures outcome == Decide(prices)
      ensures writes == UpdateWrites(outcome)
      ensures triggers == UpdateTriggers(outcome)
      ensures selectedHours == if outcome.Charge? then outcome.hours else old(selectedHours)
    {
      outcome := Decide(prices);
      writes := UpdateWrites(outcome);
      triggers := [];
      if outcome.Charge? {
        ChargeHoursAtNight(prices);
        selectedHours := outcome.hours;
        triggers := ScheduleSequentialCharging(outcome.hours);
      }
    }

    /** `start_charging` at `hour`: the charge chain when the hour is
        selected, nothing otherwise. */
    method StartCharging(hour: nat) returns (writes: seq<TimedWrite>)
      ensures hour in selectedHours ==> writes == ChargeChain()
      ensures hour !in selectedHours ==> writes == []
    {
      if hour in selectedHours {
        writes := ChargeChain();
      } else {
        writes := [];
      }
    }
  }
}
