/** smart_day_discharging.py: the daily choice of up to seven expensive
    hours to discharge the battery in, the midday gate in front of it, the
    triggers it registers, and the start/stop callbacks. */
module DayDischarging {
  import opened Prices
  import opened Ranking
  import opened HourRuns
  import opened RangeText
  import opened Actuator

  // ----- Reading the price list -----

  /** `min(es, key=price)`: Python keeps the first of several equal minima,
      so the result is the lowest price and no earlier entry has it. */
  function FirstMinIndex(es: seq<Entry>): (k: nat)
    requires |es| > 0
    ensures k < |es|
    ensures forall i :: 0 <= i < |es| ==> es[k].price <= es[i].price
    ensures forall i :: 0 <= i < k ==> es[k].price < es[i].price
  {
    if |es| == 1 then 0
    else
      var k := FirstMinIndex(es[..|es| - 1]);
      if es[|es| - 1].price < es[k].price then |es| - 1 else k
  }

  /** `sorted(es, key=price, reverse=True)[2]`. */
  function ThirdDearest(es: seq<Entry>): Entry
    requires |es| >= 3
  {
    Rank(es, Dearest)[2]
  }

  /** The third-dearest entry is an entry of the list, it is not one of the
      two dearest, those two cost at least as much, and every other entry
      costs at most as much. */
  lemma ThirdDearestBounds(es: seq<Entry>)
    requires |es| >= 3 && HoursIncreasing(es)
    ensures ThirdDearest(es) in es && ThirdDearest(es) !in Best(es, Dearest, 2)
    ensures forall x :: x in Best(es, Dearest, 2) ==> x in es && ThirdDearest(es).price <= x.price
    ensures forall e :: e in es && e !in Best(es, Dearest, 2) ==> e.price <= ThirdDearest(es).price
  {
    var r := Rank(es, Dearest);
    var top := Best(es, Dearest, 2);
    assert top == [r[0], r[1]];
    RankEnumerated(es, Dearest);
    RankMembers(es, Dearest);
    RankDistinctHours(es, Dearest);
    assert r[2] in r;
    assert Precedes(r[0], r[2], Dearest) && Precedes(r[1], r[2], Dearest);
    forall e | e in es && e !in top ensures e.price <= r[2].price {
      assert e in r;
      var j :| 0 <= j < |r| && r[j] == e;
      if j > 2 {
        assert Precedes(r[2], r[j], Dearest);
      }
    }
  }

  // ----- The midday gate (lines 33-108) -----

  /** How the gate ends: one of the "Error" returns, "Dynamic discharging"
      (both differences above 40), or on to the selection. */
  datatype Gate = Unreadable | Expensive | Open

  /** The cheapest midday hour: the first minimum over hours 10 to 16. */
  function CheapestMidday(prices: seq<Option<real>>): (c: Entry)
    requires |prices| == 24 && Window(prices, 10, 17) != []
    ensures 10 <= c.hour < 17
  {
    var mid := Window(prices, 10, 17);
    var c := mid[FirstMinIndex(mid)];
    assert c in mid;
    c
  }

  function MiddayGate(prices: seq<Option<real>>): Gate
    requires |prices| == 24
  {
    if Window(prices, 10, 17) == [] then Unreadable
    else
      var c := CheapestMidday(prices);
      var morning := Window(prices, 6, c.hour);
      var evening := Window(prices, c.hour + 1, 23);
      if |morning| < 3 || |evening| < 3 then Unreadable
      else if ThirdDearest(morning).price - c.price <= 40.0 || ThirdDearest(evening).price - c.price <= 40.0 then Open
      else Expensive
  }

  /** The cheapest midday hour is the first minimum of hours 10 to 16: no
      midday hour is cheaper, and every earlier midday hour is dearer. */
  lemma CheapestMiddayFirst(prices: seq<Option<real>>)
    requires |prices| == 24 && KnownBetween(prices, 10, 17)
    ensures Window(prices, 10, 17) != []
    ensures prices[CheapestMidday(prices).hour] == Some(CheapestMidday(prices).price)
    ensures forall h :: 10 <= h < 17 ==> CheapestMidday(prices).price <= prices[h].value
    ensures forall h :: 10 <= h < CheapestMidday(prices).hour ==> CheapestMidday(prices).price < prices[h].value
  {
    WindowFull(prices, 10, 17);
    var mid := Window(prices, 10, 17);
    var k := FirstMinIndex(mid);
    assert CheapestMidday(prices) == mid[k] == Entry(10 + k, prices[10 + k].value);
    forall h | 10 <= h < 17 ensures mid[k].price <= prices[h].value {
      assert mid[h - 10].price == prices[h].value;
    }
    forall h | 10 <= h < mid[k].hour ensures mid[k].price < prices[h].value {
      assert mid[h - 10].price == prices[h].value;
    }
  }

  /** With a full day of prices, the morning before the cheapest midday hour
      has at least 4 entries and the evening after it at least 6, so none of
      the gate's "Error" returns can happen. */
  lemma GateNeverUnreadable(prices: seq<Option<real>>)
    requires |prices| == 24 && KnownBetween(prices, 6, 23)
    ensures Window(prices, 10, 17) != []
    ensures |Window(prices, 6, CheapestMidday(prices).hour)| >= 4
    ensures |Window(prices, CheapestMidday(prices).hour + 1, 23)| >= 6
    ensures MiddayGate(prices) != Unreadable
  {
    WindowFull(prices, 10, 17);
    var c := CheapestMidday(prices).hour;
    WindowFull(prices, 6, c);
    WindowFull(prices, c + 1, 23);
  }

  // ----- The reference price (lines 116-121) -----

  /** `float(x or 0)`: a missing or empty state reads as 0; text that
      `float()` rejects raises (None here). */
  function FloatOrZero(r: Reading): Option<real>
  {
    match r
    case Absent => Some(0.0)
    case Number(v) => Some(v)
    case Word(t) => if t == "" then Some(0.0) else None
  }

  /** Both reads that the reference may need succeed. */
  predicate ReferenceReadable(meanSensor: Reading, mockSensor: Reading)
  {
    FloatOrZero(meanSensor).Some? && (FloatOrZero(meanSensor).value == 0.0 ==> FloatOrZero(mockSensor).Some?)
  }

  /** The mean price of the last charge, or `sensor.mock_chosen_3_hours` when
      that is 0 or not set. */
  function Reference(meanSensor: Reading, mockSensor: Reading): (ref: real)
    requires ReferenceReadable(meanSensor, mockSensor)
    ensures meanSensor.Number? && meanSensor.value != 0.0 ==> ref == meanSensor.value
    ensures meanSensor.Absent? || meanSensor == Word("") || meanSensor == Number(0.0) ==>
      ref == (if mockSensor.Number? then mockSensor.value else 0.0)
  {
    var v := FloatOrZero(meanSensor).value;
    if v == 0.0 then FloatOrZero(mockSensor).value else v
  }

  // ----- The selection (lines 112-149) -----

  /** `[(i + start, p) for i, p in enumerate(ps) if p is not None and p >= ref + 40]`. */
  function Qualifiers(ps: seq<Option<real>>, start: nat, ref: real): (q: seq<Entry>)
    ensures |q| <= |ps|
    ensures forall e :: e in q ==>
      start <= e.hour < start + |ps| && ps[e.hour - start] == Some(e.price) && e.price >= ref + 40.0
  {
    if ps == [] then []
    else
      var q := Qualifiers(ps[..|ps| - 1], start, ref);
      var p := ps[|ps| - 1];
      if p.Some? && p.value >= ref + 40.0 then q + [Entry(start + |ps| - 1, p.value)] else q
  }

  /** Every present price at least 40 above the reference qualifies. */
  lemma {:induction false} QualifiersComplete(ps: seq<Option<real>>, start: nat, ref: real, i: nat)
    requires i < |ps| && ps[i].Some? && ps[i].value >= ref + 40.0
    ensures Entry(start + i, ps[i].value) in Qualifiers(ps, start, ref)
  {
    if i < |ps| - 1 {
      var init := ps[..|ps| - 1];
      assert init[i] == ps[i];
      QualifiersComplete(init, start, ref, i);
    }
  }

  /** The qualifiers come in hour order. */
  lemma {:induction false} QualifiersIncreasing(ps: seq<Option<real>>, start: nat, ref: real)
    ensures HoursIncreasing(Qualifiers(ps, start, ref))
  {
    if ps != [] {
      QualifiersIncreasing(ps[..|ps| - 1], start, ref);
    }
  }

  /** The loop at lines 126-129. */
  method SelectQualifying(filtered: seq<Option<real>>, ref: real) returns (selected: seq<Entry>)
    ensures selected == Qualifiers(filtered, 6, ref)
  {
    selected := [];
    var i := 0;
    while i < |filtered|
      invariant 0 <= i <= |filtered|
      invariant selected == Qualifiers(filtered[..i], 6, ref)
    {
      assert filtered[..i + 1][..i] == filtered[..i];
      var price := filtered[i];
      if price.Some? && price.value >= ref + 40.0 {
        selected := selected + [Entry(i + 6, price.value)];
      }
      i := i + 1;
    }
    assert filtered[..|filtered|] == filtered;
  }

  /** The qualifiers among hours 6 to 22. */
  function DayQualifiers(prices: seq<Option<real>>, ref: real): seq<Entry>
    requires |prices| == 24
  {
    Qualifiers(prices[6..23], 6, ref)
  }

  /** `selected_hours.sort(key=price, reverse=True)` then `[:7]`. */
  function Kept(prices: seq<Option<real>>, ref: real): seq<Entry>
    requires |prices| == 24
  {
    Best(DayQualifiers(prices, ref), Dearest, 7)
  }

  // ----- The outcome of `update_discharging_hours` -----

  /** NoData: not exactly 24 prices. GateError: one of the gate's "Error"
      returns. Dynamic: "Dynamic discharging". ReferenceRaised: `float()`
      rejects a reference sensor's state, and the update raises after its
      two "unknown" writes. NoSuitable: "No suitable hours found". Selected:
      the sorted hours and the mean of their prices. */
  datatype DayOutcome = NoData | GateError | Dynamic | ReferenceRaised | NoSuitable | Selected(hours: seq<nat>, mean: real)

  /** What the code reads without raising a `TypeError`: the gate's slices
      of a full day hold no missing price. */
  predicate Runnable(prices: seq<Option<real>>, meanSensor: Reading, mockSensor: Reading)
  {
    |prices| == 24 ==> KnownBetween(prices, 6, 23)
  }

  function Decide(prices: seq<Option<real>>, meanSensor: Reading, mockSensor: Reading): (o: DayOutcome)
    requires Runnable(prices, meanSensor, mockSensor)
    ensures o == NoData <==> |prices| != 24
  {
    if |prices| != 24 then NoData
    else
      match MiddayGate(prices)
      case Unreadable => GateError
      case Expensive => Dynamic
      case Open =>
        if ReferenceReadable(meanSensor, mockSensor) then Chosen(prices, Reference(meanSensor, mockSensor))
        else ReferenceRaised
  }

  /** The outcome once the gate has opened, for a given reference price. */
  function Chosen(prices: seq<Option<real>>, ref: real): (o: DayOutcome)
    requires |prices| == 24
    ensures o.NoSuitable? || o.Selected?
  {
    var kept := Kept(prices, ref);
    if kept == [] then NoSuitable else Selected(SortedHours(kept), Mean(PricesOf(kept)))
  }

  /** `sensor.selected_discharging_hours` after the update; `meanText` stands
      for the mean rendered with two decimals. */
  function SelectedHoursState(o: DayOutcome, meanText: string): string
  {
    match o
    case NoData => "unknown"
    case GateError => "unknown"
    case Dynamic => "Dynamic discharging"
    case ReferenceRaised => "unknown"
    case NoSuitable => "No suitable hours found"
    case Selected(hours, _) => StateText(DayRangeText(hours), meanText)
  }

  /** `sensor.selected_discharging_hours_prices` after the update. */
  function PricesState(o: DayOutcome, meanText: string): string
  {
    match o
    case NoData => "unknown"
    case GateError => "unknown"
    case Dynamic => "unknown"
    case ReferenceRaised => "unknown"
    case NoSuitable => "No suitable hours found"
    case Selected(_, _) => meanText
  }

  /** A full day of readable prices never ends in a gate error. */
  lemma DecideNeverGateError(prices: seq<Option<real>>, meanSensor: Reading, mockSensor: Reading)
    requires Runnable(prices, meanSensor, mockSensor)
    ensures Decide(prices, meanSensor, mockSensor) != GateError
  {
    if |prices| == 24 {
      GateNeverUnreadable(prices);
    }
  }

  /** A full day ends in "Dynamic discharging" exactly when the third
      dearest hour before the cheapest midday hour and the third dearest
      after it both cost more than 40 above that hour. That outcome publishes
      "Dynamic discharging", leaves the prices sensor "unknown" and schedules
      nothing; otherwise the selection runs against the reference price. */
  lemma DynamicGate(prices: seq<Option<real>>, meanSensor: Reading, mockSensor: Reading, meanText: string)
    requires |prices| == 24 && Runnable(prices, meanSensor, mockSensor)
    ensures Window(prices, 10, 17) != []
    ensures var c := CheapestMidday(prices);
      |Window(prices, 6, c.hour)| >= 3 && |Window(prices, c.hour + 1, 23)| >= 3
      && (Decide(prices, meanSensor, mockSensor) == Dynamic <==>
            ThirdDearest(Window(prices, 6, c.hour)).price - c.price > 40.0
            && ThirdDearest(Window(prices, c.hour + 1, 23)).price - c.price > 40.0)
    ensures Decide(prices, meanSensor, mockSensor) == Dynamic ==>
      SelectedHoursState(Dynamic, meanText) == "Dynamic discharging"
      && PricesState(Dynamic, meanText) == "unknown" && ScheduledFor(Dynamic) == []
    ensures Decide(prices, meanSensor, mockSensor) != Dynamic ==>
      Decide(prices, meanSensor, mockSensor) ==
        if ReferenceReadable(meanSensor, mockSensor) then Chosen(prices, Reference(meanSensor, mockSensor))
        else ReferenceRaised
  {
    GateNeverUnreadable(prices);
  }

  /** Past the gate, the update raises exactly when `float(x or 0)` rejects
      the mean sensor, or rejects `sensor.mock_chosen_3_hours` once the mean
      reads 0; it then leaves both outputs at "unknown" and schedules
      nothing. */
  lemma ReferenceRaisedWhen(prices: seq<Option<real>>, meanSensor: Reading, mockSensor: Reading, meanText: string)
    requires |prices| == 24 && Runnable(prices, meanSensor, mockSensor)
    ensures Decide(prices, meanSensor, mockSensor) == ReferenceRaised <==>
      MiddayGate(prices) == Open
      && (FloatOrZero(meanSensor).None? || (FloatOrZero(meanSensor) == Some(0.0) && FloatOrZero(mockSensor).None?))
    ensures Decide(prices, meanSensor, mockSensor) == ReferenceRaised ==>
      SelectedHoursState(ReferenceRaised, meanText) == "unknown"
      && PricesState(ReferenceRaised, meanText) == "unknown" && ScheduledFor(ReferenceRaised) == []
  {
    var o := Decide(prices, meanSensor, mockSensor);
    match MiddayGate(prices)
    case Unreadable => assert o == GateError;
    case Expensive => assert o == Dynamic;
    case Open =>
      if ReferenceReadable(meanSensor, mockSensor) {
        assert o == Chosen(prices, Reference(meanSensor, mockSensor));
      } else {
        assert o == ReferenceRaised;
      }
  }

  /** The kept entries: qualifiers of hours 6 to 22, at most seven, no two
      of one hour, and each dearer than every qualifier left out (or as
      dear and earlier). Fewer than seven means none was left out. */
  lemma KeptProperties(prices: seq<Option<real>>, ref: real)
    requires |prices| == 24
    ensures DistinctHours(Kept(prices, ref))
    ensures |Kept(prices, ref)| <= 7
    ensures forall e :: e in Kept(prices, ref) ==>
      6 <= e.hour <= 22 && prices[e.hour] == Some(e.price) && e.price >= ref + 40.0
    ensures forall e, g :: e in Kept(prices, ref) && g in DayQualifiers(prices, ref) && g !in Kept(prices, ref) ==>
      g.price < e.price || (g.price == e.price && e.hour < g.hour)
    ensures |Kept(prices, ref)| < 7 ==> forall g :: g in DayQualifiers(prices, ref) ==> g in Kept(prices, ref)
  {
    var q := DayQualifiers(prices, ref);
    var kept := Kept(prices, ref);
    QualifiersIncreasing(prices[6..23], 6, ref);
    BestDistinctHours(q, Dearest, 7);
    BestMembers(q, Dearest, 7);
    BestBeatsRest(q, Dearest, 7);
    forall e | e in kept ensures 6 <= e.hour <= 22 && prices[e.hour] == Some(e.price) && e.price >= ref + 40.0 {
      assert e in q;
      assert prices[6..23][e.hour - 6] == prices[e.hour];
    }
    forall e, g | e in kept && g in q && g !in kept ensures g.price < e.price || (g.price == e.price && e.hour < g.hour) {
      assert Precedes(e, g, Dearest);
    }
    if |kept| < 7 {
      RankMembers(q, Dearest);
      assert kept == Rank(q, Dearest);
    }
  }

  /** Hour g of 6..22 has a present price at least 40 above the reference. */
  predicate Qualifies(prices: seq<Option<real>>, ref: real, g: nat)
    requires |prices| == 24
  {
    6 <= g <= 22 && prices[g].Some? && prices[g].value >= ref + 40.0
  }

  lemma QualifyingEntry(prices: seq<Option<real>>, ref: real, g: nat)
    requires |prices| == 24 && Qualifies(prices, ref, g)
    ensures Entry(g, prices[g].value) in DayQualifiers(prices, ref)
  {
    assert prices[6..23][g - 6] == prices[g];
    QualifiersComplete(prices[6..23], 6, ref, g - 6);
  }

  /** The hours of the kept entries, as the update reports them. */
  lemma KeptHours(prices: seq<Option<real>>, ref: real)
    requires |prices| == 24
    ensures var hs := SortedHours(Kept(prices, ref));
      && |hs| <= 7
      && Increasing(hs)
      && (forall h :: h in hs ==> Qualifies(prices, ref, h))
      && (forall h, g: nat :: h in hs && Qualifies(prices, ref, h) && Qualifies(prices, ref, g) && g !in hs ==>
            prices[g].value < prices[h].value || (prices[g].value == prices[h].value && h < g))
      && (|hs| < 7 ==> forall g: nat :: Qualifies(prices, ref, g) ==> g in hs)
  {
    var kept := Kept(prices, ref);
    var hs := SortedHours(kept);
    KeptProperties(prices, ref);
    SortedHoursSpec(kept);
    forall h | h in hs ensures Qualifies(prices, ref, h) {
      var e :| e in kept && e.hour == h;
    }
    forall h, g: nat | h in hs && Qualifies(prices, ref, h) && Qualifies(prices, ref, g) && g !in hs
      ensures prices[g].value < prices[h].value || (prices[g].value == prices[h].value && h < g)
    {
      var e :| e in kept && e.hour == h;
      QualifyingEntry(prices, ref, g);
      assert Entry(g, prices[g].value) !in kept;
    }
    if |hs| < 7 {
      forall g: nat | Qualifies(prices, ref, g) ensures g in hs {
        QualifyingEntry(prices, ref, g);
        assert Entry(g, prices[g].value) in kept;
      }
    }
  }

  /** The mean of the kept prices is at least the reference plus 40. */
  lemma KeptMean(prices: seq<Option<real>>, ref: real)
    requires |prices| == 24 && Kept(prices, ref) != []
    ensures ref + 40.0 <= Mean(PricesOf(Kept(prices, ref)))
  {
    var kept := Kept(prices, ref);
    KeptProperties(prices, ref);
    var ps := PricesOf(kept);
    forall i | 0 <= i < |ps| ensures ref + 40.0 <= ps[i] {
      assert kept[i] in kept;
    }
    MeanAtLeast(ps, ref + 40.0);
  }

  /** The selected hours of a full day: one to seven hours, strictly
      increasing, each in 6..22 with a present price at least 40 above the
      reference; an hour that qualifies but is not selected is cheaper than
      every selected hour, or as cheap and later; when fewer than seven are
      selected, every qualifying hour is; and the reported mean is at least
      the reference plus 40. */
  lemma SelectedHoursProperties(prices: seq<Option<real>>, meanSensor: Reading, mockSensor: Reading,
                                hours: seq<nat>, mean: real)
    requires Runnable(prices, meanSensor, mockSensor)
    requires Decide(prices, meanSensor, mockSensor) == Selected(hours, mean)
    ensures |prices| == 24 && ReferenceReadable(meanSensor, mockSensor)
    ensures 0 < |hours| <= 7 && Increasing(hours)
    ensures forall h :: h in hours ==> Qualifies(prices, Reference(meanSensor, mockSensor), h)
    ensures var ref := Reference(meanSensor, mockSensor);
      forall h, g: nat :: h in hours && Qualifies(prices, ref, h) && Qualifies(prices, ref, g) && g !in hours ==>
        prices[g].value < prices[h].value || (prices[g].value == prices[h].value && h < g)
    ensures |hours| < 7 ==> forall g: nat :: Qualifies(prices, Reference(meanSensor, mockSensor), g) ==> g in hours
    ensures Reference(meanSensor, mockSensor) + 40.0 <= mean
  {
    var ref := Reference(meanSensor, mockSensor);
    var kept := Kept(prices, ref);
    assert Chosen(prices, ref) == Selected(hours, mean);
    assert hours == SortedHours(kept) && mean == Mean(PricesOf(kept));
    KeptHours(prices, ref);
    KeptMean(prices, ref);
  }

  // ----- Scheduling (lines 200-221) -----

  /** For each run, a start trigger at its first hour and a stop trigger at
      `(last + 1) % 24`, both on today's date. */
  function DischargeTriggers(rs: seq<seq<nat>>): (ts: seq<Trigger>)
    requires forall i :: 0 <= i < |rs| ==> |rs[i]| > 0
    ensures |ts| == 2 * |rs|
  {
    if rs == [] then []
    else
      var r := rs[|rs| - 1];
      DischargeTriggers(rs[..|rs| - 1]) + [Trigger(Today, r[0], Begin), Trigger(Today, (Last(r) + 1) % 24, End)]
  }

  lemma {:induction false} DischargeTriggersAt(rs: seq<seq<nat>>, i: nat)
    requires forall i :: 0 <= i < |rs| ==> |rs[i]| > 0
    requires i < |rs|
    ensures DischargeTriggers(rs)[2 * i] == Trigger(Today, rs[i][0], Begin)
    ensures DischargeTriggers(rs)[2 * i + 1] == Trigger(Today, (Last(rs[i]) + 1) % 24, End)
  {
    var init := rs[..|rs| - 1];
    if i < |rs| - 1 {
      assert init[i] == rs[i];
      DischargeTriggersAt(init, i);
    }
  }

  /** `schedule_discharging`. */
  method ScheduleDischarging(hours: seq<nat>) returns (triggers: seq<Trigger>)
    requires |hours| > 0
    ensures triggers == DischargeTriggers(Runs(hours))
  {
    var ranges := GroupSequentialHours(hours);
    triggers := [];
    var i := 0;
    while i < |ranges|
      invariant 0 <= i <= |ranges|
      invariant triggers == DischargeTriggers(ranges[..i])
    {
      var r := ranges[i];
      assert ranges[..i + 1][..i] == ranges[..i];
      assert r[|r| - 1] == Last(r);
      triggers := triggers + [Trigger(Today, r[0], Begin), Trigger(Today, (r[|r| - 1] + 1) % 24, End)];
      i := i + 1;
    }
    assert ranges[..|ranges|] == ranges;
  }

  /** For runs ending by hour 22 the `% 24` never wraps. */
  lemma TriggersNoWrap(rs: seq<seq<nat>>)
    requires forall i :: 0 <= i < |rs| ==> |rs[i]| > 0 && Last(rs[i]) <= 22
    ensures forall i :: 0 <= i < |rs| ==>
      DischargeTriggers(rs)[2 * i] == Trigger(Today, rs[i][0], Begin) &&
      DischargeTriggers(rs)[2 * i + 1] == Trigger(Today, Last(rs[i]) + 1, End)
  {
    forall i | 0 <= i < |rs|
      ensures DischargeTriggers(rs)[2 * i] == Trigger(Today, rs[i][0], Begin)
      ensures DischargeTriggers(rs)[2 * i + 1] == Trigger(Today, Last(rs[i]) + 1, End)
    {
      DischargeTriggersAt(rs, i);
    }
  }

  /** For separated runs ending by hour 22 the triggers come in strictly
      increasing hour order: each start before its stop, each stop before the
      next start. */
  lemma SeparatedTriggers(rs: seq<seq<nat>>)
    requires WellSeparated(rs)
    requires forall i :: 0 <= i < |rs| ==> Last(rs[i]) <= 22
    ensures forall k :: 0 <= k < |DischargeTriggers(rs)| - 1 ==>
      DischargeTriggers(rs)[k].hour < DischargeTriggers(rs)[k + 1].hour
  {
    var ts := DischargeTriggers(rs);
    TriggersNoWrap(rs);
    forall k | 0 <= k < |ts| - 1 ensures ts[k].hour < ts[k + 1].hour {
      var i := k / 2;
      if k % 2 == 1 {
        assert k == 2 * i + 1 && k + 1 == 2 * (i + 1);
        assert Apart(rs[i], rs[i + 1]);
      } else {
        assert k == 2 * i;
        ConsecutiveSpan(rs[i]);
      }
    }
  }

  /** Run i starts at its first hour, which is one of `hours`, and stops at
      its last hour plus one, which is not; and the triggers come in strictly
      increasing hour order. */
  predicate PlannedDischarge(rs: seq<seq<nat>>, hours: seq<nat>)
    requires forall i :: 0 <= i < |rs| ==> |rs[i]| > 0
  {
    var ts := DischargeTriggers(rs);
    && (forall i :: 0 <= i < |rs| ==>
          && ts[2 * i] == Trigger(Today, rs[i][0], Begin) && rs[i][0] in hours
          && ts[2 * i + 1] == Trigger(Today, Last(rs[i]) + 1, End) && Last(rs[i]) + 1 !in hours)
    && (forall k :: 0 <= k < |ts| - 1 ==> ts[k].hour < ts[k + 1].hour)
  }

  lemma SeparatedPlan(rs: seq<seq<nat>>, hours: seq<nat>)
    requires WellSeparated(rs) && Flatten(rs) == hours
    requires forall h :: h in hours ==> h <= 22
    ensures PlannedDischarge(rs, hours)
  {
    forall i | 0 <= i < |rs|
      ensures rs[i][0] in hours && Last(rs[i]) + 1 !in hours && Last(rs[i]) <= 22
    {
      FlattenMember(rs, i, 0);
      FlattenMember(rs, i, |rs[i]| - 1);
      RunEndAbsent(rs, i);
    }
    TriggersNoWrap(rs);
    SeparatedTriggers(rs);
  }

  /** For increasing hours up to 22 the `% 24` never wraps: each run starts
      at a selected hour and stops at the hour after it, which is not
      selected, and the triggers come in strictly increasing hour order. */
  lemma DischargePlan(hours: seq<nat>)
    requires |hours| > 0 && Increasing(hours)
    requires forall h :: h in hours ==> h <= 22
    ensures PlannedDischarge(Runs(hours), hours)
  {
    assert PlannedDischarge(Runs(hours), hours) by {
      RunsSeparated(hours);
      RunsPartition(hours);
      SeparatedPlan(Runs(hours), hours);
    }
  }

  // ----- The update as written (lines 20-165) -----

  /** What `schedule_discharging` registers after an update. */
  function ScheduledFor(o: DayOutcome): seq<Trigger>
  {
    if o.Selected? && |o.hours| > 0 then DischargeTriggers(Runs(o.hours)) else []
  }

  /** `update_discharging_hours`: the outcome (which fixes the two published
      states) and the triggers it registers. */
  method UpdateDischargingHours(prices: seq<Option<real>>, meanSensor: Reading, mockSensor: Reading)
    returns (outcome: DayOutcome, triggers: seq<Trigger>)
    requires Runnable(prices, meanSensor, mockSensor)
    ensures outcome == Decide(prices, meanSensor, mockSensor)
    ensures triggers == ScheduledFor(outcome)
  {
    if |prices| != 24 {
      outcome, triggers := NoData, [];
      assert ScheduledFor(outcome) == [];
      return;
    }
    var gate := MiddayGate(prices);
    if gate == Open && ReferenceReadable(meanSensor, mockSensor) {
      outcome, triggers := SelectDischargingHours(prices, Reference(meanSensor, mockSensor));
      return;
    }
    outcome := if gate == Unreadable then GateError else if gate == Expensive then Dynamic else ReferenceRaised;
    triggers := [];
    assert ScheduledFor(outcome) == [];
  }

  /** Lines 112-165: select, publish and schedule, for a given reference. */
  method SelectDischargingHours(prices: seq<Option<real>>, reference: real)
    returns (outcome: DayOutcome, triggers: seq<Trigger>)
    requires |prices| == 24
    ensures outcome == Chosen(prices, reference)
    ensures triggers == ScheduledFor(outcome)
  {
    var selected := SelectQualifying(prices[6..23], reference);
    selected := Best(selected, Dearest, 7);
    if selected == [] {
      return NoSuitable, [];
    }
    var indices := SortedHours(selected);
    outcome := Selected(indices, Mean(PricesOf(selected)));
    triggers := ScheduleDischarging(indices);
  }

  // ----- The callbacks (lines 226-268) -----

  /** `start_discharging` once the guard passes: command Stop now, EMS
      Self-consumption two seconds later. */
  function StartDischargingWrites(): seq<TimedWrite>
  {
    [TimedWrite(0, Cmd(StopDefault)), TimedWrite(2, Ems(SelfConsumption))]
  }

  /** `stop_discharging`: command Stop now, EMS Forced two seconds later. */
  function StopDischargingWrites(): seq<TimedWrite>
  {
    [TimedWrite(0, Cmd(StopDefault)), TimedWrite(2, Ems(ForcedMode))]
  }

  /** Both chains are in time order and stop the battery at once, the EMS
      mode following two seconds later: start leaves the inverter in
      Self-consumption with command Stop, stop leaves it in Forced mode with
      command Stop. */
  lemma DischargeChains(d: Device)
    ensures Chronological(StartDischargingWrites()) && Chronological(StopDischargingWrites())
    ensures forall t :: t < 2 ==> StateAt(d, StartDischargingWrites(), t) == d.(command := StopDefault)
    ensures forall t :: t < 2 ==> StateAt(d, StopDischargingWrites(), t) == d.(command := StopDefault)
    ensures StateAt(d, StartDischargingWrites(), 2) == Perform(d, StartDischargingWrites())
    ensures StateAt(d, StopDischargingWrites(), 2) == Perform(d, StopDischargingWrites())
    ensures Perform(d, StartDischargingWrites()) == Device(SelfConsumption, StopDefault, d.maxChargePower)
    ensures Perform(d, StopDischargingWrites()) == Device(ForcedMode, StopDefault, d.maxChargePower)
  {
    var s := StartDischargingWrites();
    var e := StopDischargingWrites();
    PerformPair(d, s[0], s[1], SelfConsumption, StopDefault);
    PerformPair(d, e[0], e[1], ForcedMode, StopDefault);
    forall t: nat
      ensures StateAt(d, s, t) == if t < s[0].at then d else if t < s[1].at then Apply(d, s[0].write) else Perform(d, s)
      ensures StateAt(d, e, t) == if t < e[0].at then d else if t < e[1].at then Apply(d, e[0].write) else Perform(d, e)
    {
      StateAtPair(d, s[0], s[1], t);
      StateAtPair(d, e[0], e[1], t);
    }
  }

  /** The state text parses (`int(h.split(':')[0])` for every comma piece). */
  predicate Parsable(state: Option<string>)
  {
    state.Some? && state.value != "" ==> ParseStartHours(state.value).Some?
  }

  /** `start_discharging` at `hour`: nothing without a state; nothing when
      `int()` rejects a piece of it (the callback raises before any write);
      nothing when `hour` is not among the parsed hours; the start chain
      otherwise. */
  function StartDischarging(state: Option<string>, hour: nat): seq<TimedWrite>
  {
    if state.None? || state.value == "" then []
    else
      match ParseStartHours(state.value)
      case None => []
      case Some(hs) => if hour in hs then StartDischargingWrites() else []
  }

  /** The other states the update publishes do not parse: a start trigger
      left over from an earlier day would make `start_discharging` raise on
      them, writing nothing. */
  lemma OtherStatesRaise(o: DayOutcome, meanText: string, hour: nat)
    requires !o.Selected?
    ensures !Parsable(Some(SelectedHoursState(o, meanText)))
    ensures StartDischarging(Some(SelectedHoursState(o, meanText)), hour) == []
  {
    match o
    case NoData => WordDoesNotParse("unknown");
    case GateError => WordDoesNotParse("unknown");
    case ReferenceRaised => WordDoesNotParse("unknown");
    case Dynamic => WordDoesNotParse("Dynamic discharging");
    case NoSuitable => WordDoesNotParse("No suitable hours found");
  }

  /** Round trip: the state the update publishes for selected hours parses,
      and the start guard passes exactly at the first hour of a run, so it
      passes at every start trigger `schedule_discharging` registers. */
  lemma StartGuardAcceptsRunStarts(hours: seq<nat>, mean: real, meanText: string, hour: nat)
    requires |hours| > 0 && ',' !in meanText
    ensures var state := Some(SelectedHoursState(Selected(hours, mean), meanText));
      && Parsable(state)
      && (StartDischarging(state, hour) == StartDischargingWrites() <==> hour in Starts(Runs(hours)))
      && (StartDischarging(state, hour) == [] <==> hour !in Starts(Runs(hours)))
  {
    var text := StateText(DayRangeText(hours), meanText);
    SelectedStateText(hours, mean, meanText);
    assert |text| > 0 by {
      assert text == DayRangeText(hours) + (" | Mean: " + meanText);
    }
    DayStateRoundTrip(hours, meanText);
    StartGuardParsed(text, Starts(Runs(hours)), hour);
  }

  lemma SelectedStateText(hours: seq<nat>, mean: real, meanText: string)
    ensures SelectedHoursState(Selected(hours, mean), meanText) == StateText(DayRangeText(hours), meanText)
  {
  }

  /** The guard on a state that parses to `hs`. */
  lemma StartGuardParsed(text: string, hs: seq<int>, hour: nat)
    requires text != "" && ParseStartHours(text) == Some(hs)
    ensures Parsable(Some(text))
    ensures StartDischarging(Some(text), hour) == if hour in hs then StartDischargingWrites() else []
  {
  }

  /** Every start trigger of a selection fires the start chain. */
  lemma StartTriggersFire(hours: seq<nat>, mean: real, meanText: string, i: nat)
    requires |hours| > 0 && ',' !in meanText
    requires i < |Runs(hours)|
    ensures Parsable(Some(SelectedHoursState(Selected(hours, mean), meanText)))
    ensures DischargeTriggers(Runs(hours))[2 * i].action == Begin
    ensures StartDischarging(Some(SelectedHoursState(Selected(hours, mean), meanText)),
                             DischargeTriggers(Runs(hours))[2 * i].hour) == StartDischargingWrites()
  {
    var rs := Runs(hours);
    DischargeTriggersAt(rs, i);
    StartGuardAcceptsRunStarts(hours, mean, meanText, rs[i][0]);
    assert Starts(rs)[i] == rs[i][0];
  }
}
