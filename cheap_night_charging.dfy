/** smart_cheap_night_charging.py: charge in the five cheapest hours 0-6 of
    tomorrow, provided the battery is below 90% and those five hours average
    below 10. Unlike smart_night_charging.py there is no day-versus-night
    gate, the hour count is always five, the state lists every hour on its
    own and the scheduler keeps no `scheduled_hours` set. */
module CheapNightCharging {
  import opened Prices
  import opened Ranking
  import opened HourRuns
  import opened RangeText
  import opened Actuator
  import opened ChargeSchedule
  import NightCharging

  /** Lines 47-52: `float(battery_state)`, or 100 when `float` raises
      ValueError. A missing state makes `float(None)` raise TypeError, which
      is not caught, so callers exclude it. */
  function BatteryLevel(battery: Reading): (level: real)
    requires !battery.Absent?
    ensures AsFloat(battery).Some? ==> level == AsFloat(battery).value
    ensures AsFloat(battery).None? ==> level == 100.0
  {
    if battery.Number? then battery.value else 100.0
  }

  /** An unreadable battery state counts as full, so it never lets charging through. */
  lemma UnreadableBatteryBlocks(battery: Reading)
    requires battery.Word?
    ensures !(BatteryLevel(battery) < 90.0)
  {
  }

  /** What one update ends in. */
  datatype CheapOutcome =
    | NotEnoughData
    | BatteryHigh
    | PriceHigh
    | Charge(hours: seq<nat>, mean: real)

  /** What the code reads without raising: with seven prices or more, a
      night price to divide `mean_5` by (it is computed before the battery
      is read) and a battery state that is not None. */
  predicate Runnable(prices: seq<Option<real>>, battery: Reading)
  {
    |prices| >= 7 ==> NightCharging.NightEntries(prices) != [] && !battery.Absent?
  }

  /** `update_charging_hours`, lines 23-107: the battery gate comes first,
      then the price gate on the mean of the five cheapest night hours. */
  function Decide(prices: seq<Option<real>>, battery: Reading): (o: CheapOutcome)
    requires Runnable(prices, battery)
    ensures o == NotEnoughData <==> |prices| < 7
    ensures o == BatteryHigh <==> |prices| >= 7 && BatteryLevel(battery) >= 90.0
    ensures o == PriceHigh <==> |prices| >= 7 && BatteryLevel(battery) < 90.0 && NightCharging.MeanK(prices, 5) >= 10.0
  {
    if |prices| < 7 then NotEnoughData
    else
      var mean5 := NightCharging.MeanK(prices, 5);
      if BatteryLevel(battery) < 90.0 then
        if mean5 < 10.0 then Charge(SortedHours(NightCharging.CheapestK(prices, 5)), mean5) else PriceHigh
      else BatteryHigh
  }

  /** The charged hours: the hours of the five cheapest known night prices
      (fewer when fewer are known), ascending, each at least as cheap as
      every night hour left out, after both gates let the update through. */
  lemma ChargeProperties(prices: seq<Option<real>>, battery: Reading, hours: seq<nat>, mean: real)
    requires Runnable(prices, battery)
    requires Decide(prices, battery) == Charge(hours, mean)
    ensures |prices| >= 7 && NightCharging.NightEntries(prices) != []
    ensures BatteryLevel(battery) < 90.0 && mean == NightCharging.MeanK(prices, 5) && mean < 10.0
    ensures |hours| == (if 5 <= |NightCharging.NightEntries(prices)| then 5 else |NightCharging.NightEntries(prices)|)
    ensures Increasing(hours)
    ensures forall h: nat :: h in hours <==> h < 7 && prices[h].Some? && Entry(h, prices[h].value) in NightCharging.CheapestK(prices, 5)
  {
    NightCharging.SortedCheapest(prices, 5);
  }

  /** Every charged hour is a night hour, and there is at least one. */
  lemma ChargeHoursAtNight(prices: seq<Option<real>>, battery: Reading)
    requires Runnable(prices, battery) && Decide(prices, battery).Charge?
    ensures |Decide(prices, battery).hours| > 0
    ensures forall h :: h in Decide(prices, battery).hours ==> h < 7
  {
    var o := Decide(prices, battery);
    ChargeProperties(prices, battery, o.hours, o.mean);
  }

  /** `set_max_charging_power`: 3800 W for five hours, 4000 W otherwise. */
  function CheapMaxChargingPower(count: nat): (watts: nat)
    ensures count == 5 <==> watts == 3800
    ensures count != 5 <==> watts == 4000
  {
    if count == 5 then 3800 else 4000
  }

  // ----- What the update publishes -----

  /** `sensor.selected_charging_hours0` after the update. */
  function SelectedHoursState(o: CheapOutcome, meanText: string): string
  {
    match o
    case NotEnoughData => "unknown"
    case BatteryHigh => "Battery above 90%"
    case PriceHigh => "Price too high"
    case Charge(hours, _) => StateText(CheapHoursText(hours), meanText)
  }

  /** `sensor.selected_charging_hours_prices` after the update (None: not written). */
  function PricesState(o: CheapOutcome, meanText: string): Option<string>
  {
    if o.Charge? then Some(meanText) else None
  }

  /** The inverter writes of an update: the power, set with a literal 5. */
  function UpdateWrites(o: CheapOutcome): seq<TimedWrite>
  {
    if o.Charge? then [TimedWrite(0, MaxChargePower(CheapMaxChargingPower(5)))] else []
  }

  /** The triggers an update registers. */
  function UpdateTriggers(o: CheapOutcome): seq<Trigger>
  {
    if o.Charge? then PlannedCharging(o.hours) else []
  }

  /** The power is 3800 W whenever hours are charged, also when fewer than
      five night prices are known; no other outcome writes to the
      inverter, not even a stop. */
  lemma UpdateWritesPower(o: CheapOutcome)
    ensures o.Charge? ==> UpdateWrites(o) == [TimedWrite(0, MaxChargePower(3800))]
    ensures !o.Charge? ==> UpdateWrites(o) == [] && UpdateTriggers(o) == []
  {
  }

  /** The published hour list reads back as exactly the charged hours. */
  lemma SelectedStateLists(prices: seq<Option<real>>, battery: Reading, meanText: string)
    requires Runnable(prices, battery) && Decide(prices, battery).Charge?
    requires ',' !in meanText
    ensures ParseStartHours(SelectedHoursState(Decide(prices, battery), meanText)) == Some(Decide(prices, battery).hours)
  {
    ChargeHoursAtNight(prices, battery);
    CheapStateRoundTrip(Decide(prices, battery).hours, meanText);
  }

  /** Each start trigger of a charge falls on a charged hour, so
      `start_charging` passes its check; each stop falls on an hour that is
      not charged; and every run of charged hours gets a start. */
  lemma TriggersMatchCallbacks(prices: seq<Option<real>>, battery: Reading)
    requires Runnable(prices, battery) && Decide(prices, battery).Charge?
    ensures var o := Decide(prices, battery);
      forall t :: t in UpdateTriggers(o) ==>
        t.day == Tomorrow && (t.action == Begin ==> t.hour in o.hours) && (t.action == End ==> t.hour !in o.hours)
    ensures var hours := Decide(prices, battery).hours;
      forall i :: 0 <= i < |Runs(hours)| ==> Trigger(Tomorrow, Runs(hours)[i][0], Begin) in UpdateTriggers(Decide(prices, battery))
  {
    var o := Decide(prices, battery);
    ChargeProperties(prices, battery, o.hours, o.mean);
    PlannedChargingSpec(o.hours);
  }

  // ----- The scheduler (lines 125-179) -----

  /** `schedule_sequential_charging` without a guard: every longer run gets
      its start and stop, then every isolated hour. */
  method ScheduleSequentialCharging(hours: seq<nat>) returns (triggers: seq<Trigger>)
    requires |hours| > 0
    ensures triggers == PlannedCharging(hours)
  {
    var ranges, singles := SplitRuns(hours);
    var head := ScheduleRanges(ranges);
    var tail := ScheduleLone(singles);
    triggers := head + tail;
  }

  /** The loop over `sequential_ranges`. */
  method ScheduleRanges(ranges: seq<seq<nat>>) returns (triggers: seq<Trigger>)
    requires forall i :: 0 <= i < |ranges| ==> |ranges[i]| > 0
    ensures triggers == RangeTriggers(ranges)
  {
    triggers := [];
    var i := 0;
    while i < |ranges|
      invariant 0 <= i <= |ranges|
      invariant triggers == RangeTriggers(ranges[..i])
    {
      var r := ranges[i];
      assert ranges[..i + 1][..i] == ranges[..i];
      assert r[|r| - 1] == Last(r);
      triggers := triggers + [Trigger(Tomorrow, r[0], Begin), Trigger(Tomorrow, r[|r| - 1] + 1, End)];
      i := i + 1;
    }
    assert ranges[..|ranges|] == ranges;
  }

  /** The loop over `non_sequential_hours`. */
  method ScheduleLone(singles: seq<nat>) returns (triggers: seq<Trigger>)
    ensures triggers == LoneTriggers(singles)
  {
    triggers := [];
    var j := 0;
    while j < |singles|
      invariant 0 <= j <= |singles|
      invariant triggers == LoneTriggers(singles[..j])
    {
      var h := singles[j];
      assert singles[..j + 1][..j] == singles[..j];
      triggers := triggers + [Trigger(Tomorrow, h, Begin), Trigger(Tomorrow, h + 1, End)];
      j := j + 1;
    }
    assert singles[..|singles|] == singles;
  }

  /** The script object: `selected_hours` survives between the update and
      the callbacks it schedules. */
  class SmartCheapNightCharging {
    var selectedHours: seq<nat>

    constructor ()
      ensures selectedHours == []
    {
      selectedHours := [];
    }

    /** `update_charging_hours`: the outcome (which fixes the published
        states), the inverter writes and the triggers it registers; the
        selected hours are replaced only when hours are charged. */
    method UpdateChargingHours(prices: seq<Option<real>>, battery: Reading)
      returns (outcome: CheapOutcome, writes: seq<TimedWrite>, triggers: seq<Trigger>)
      requires Runnable(prices, battery)
      modifies this
      ensures outcome == Decide(prices, battery)
      ensures writes == UpdateWrites(outcome)
      ensures triggers == UpdateTriggers(outcome)
      ensures selectedHours == if outcome.Charge? then outcome.hours else old(selectedHours)
    {
      outcome := Decide(prices, battery);
      writes := UpdateWrites(outcome);
      triggers := [];
      if outcome.Charge? {
        ChargeHoursAtNight(prices, battery);
        selectedHours := outcome.hours;
        triggers := ScheduleSequentialCharging(outcome.hours);
      }
    }

    /** `start_charging` at `hour`: the charge chain when the hour is
        selected, nothing otherwise. */
    method StartCharging(hour: nat) returns (writes: seq<TimedWrite>)
      ensures hour in selectedHours ==> writes == NightCharging.ChargeChain()
      ensures hour !in selectedHours ==> writes == []
    {
      if hour in selectedHours {
        writes := NightCharging.ChargeChain();
      } else {
        writes := [];
      }
    }
  }
}
