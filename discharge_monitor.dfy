/** battery_discharge_monitor.py: from 14 to 23 o'clock, stop any discharge
    when the current price is less than 40 above what tomorrow night's
    charging will cost. As written, the stop path raises before it writes
    anything (see `MonitorEffectAsWritten`); `MonitorEffect` is the
    behaviour the script evidently means. */
module DischargeMonitor {
  import opened Prices
  import opened Actuator

  /** The threshold of line 55. */
  const MinDifference: real := 40.0

  /** Lines 35-39: `mock_selected_charging_hours_prices`, or
      `mock_chosen_3_hours` when the first is None, "unavailable" or "unknown". */
  function ReferenceReading(selectedPrices: Reading, chosen3: Reading): Reading
  {
    match selectedPrices
    case Absent => chosen3
    case Word(text) => if text == "unavailable" || text == "unknown" then chosen3 else selectedPrices
    case Number(_) => selectedPrices
  }

  /** The fallback is taken only for the three placeholder states; any other
      text is kept, and then fails to parse. */
  lemma ReferenceFallback(selectedPrices: Reading, chosen3: Reading)
    ensures selectedPrices.Number? ==> ReferenceReading(selectedPrices, chosen3) == selectedPrices
    ensures selectedPrices.Word? && selectedPrices.text != "unavailable" && selectedPrices.text != "unknown" ==>
      AsFloat(ReferenceReading(selectedPrices, chosen3)).None?
    ensures selectedPrices.Absent? || selectedPrices == Word("unavailable") || selectedPrices == Word("unknown") ==>
      ReferenceReading(selectedPrices, chosen3) == chosen3
  {
  }

  /** What `check_battery_discharge` decides. */
  datatype MonitorCheck =
    | BadPrice
    | BadReference
    | Keep(difference: real)
    | StopDischarge(difference: real)

  /** What the code reads without raising: `float(None)` raises TypeError,
      which is not caught, for the price and for the reference. */
  predicate Runnable(price: Reading, selectedPrices: Reading, chosen3: Reading)
  {
    !price.Absent? && (AsFloat(price).Some? ==> !ReferenceReading(selectedPrices, chosen3).Absent?)
  }

  /** Lines 25-55: an unparsable price ends the check, then an unparsable
      reference; the stop path is taken iff the difference is below 40. */
  function Check(price: Reading, selectedPrices: Reading, chosen3: Reading): (c: MonitorCheck)
    requires Runnable(price, selectedPrices, chosen3)
    ensures c.BadPrice? <==> AsFloat(price).None?
    ensures c.BadReference? <==> AsFloat(price).Some? && AsFloat(ReferenceReading(selectedPrices, chosen3)).None?
    ensures c.Keep? || c.StopDischarge? ==>
      c.difference == AsFloat(price).value - AsFloat(ReferenceReading(selectedPrices, chosen3)).value
    ensures c.StopDischarge? <==> (c.Keep? || c.StopDischarge?) && c.difference < MinDifference
  {
    match (AsFloat(price), AsFloat(ReferenceReading(selectedPrices, chosen3)))
    case (None, _) => BadPrice
    case (Some(_), None) => BadReference
    case (Some(p), Some(r)) => if p - r < MinDifference then StopDischarge(p - r) else Keep(p - r)
  }

  /** What a check leaves behind: a state written to the output sensor, the
      inverter writes, and whether the callback ended in an exception. */
  datatype Effect = Effect(state: Option<string>, writes: seq<TimedWrite>, raised: bool)

  /** `stop_discharging` as its body reads: command Stop now, EMS Forced
      after 10 s. */
  function StopDischargingWrites(): seq<TimedWrite>
  {
    [TimedWrite(0, Cmd(StopDefault)), TimedWrite(10, Ems(ForcedMode))]
  }

  /** The code as written: line 57 reads `self.output_selected_hours`, which
      the class never sets, so the stop path raises AttributeError before the
      state is written or `stop_discharging` is reached (which line 58 would
      call without its `kwargs` argument besides). */
  function MonitorEffectAsWritten(c: MonitorCheck): Effect
  {
    if c.StopDischarge? then Effect(None, [], true) else Effect(None, [], false)
  }

  /** As written the monitor never writes to the inverter, and a difference
      below 40 ends in an exception: a current price of 50 against a night
      reference of 20 shows it. */
  lemma MonitorNeverStops(price: Reading, selectedPrices: Reading, chosen3: Reading)
    requires Runnable(price, selectedPrices, chosen3)
    ensures MonitorEffectAsWritten(Check(price, selectedPrices, chosen3)).writes == []
    ensures MonitorEffectAsWritten(Check(Number(50.0), Number(20.0), Absent))
      == Effect(None, [], true)
  {
  }

  /** The evident intent: publish "Price difference too low" and run
      `stop_discharging`. */
  function MonitorEffect(c: MonitorCheck): Effect
  {
    if c.StopDischarge? then Effect(Some("Price difference too low"), StopDischargingWrites(), false)
    else Effect(None, [], false)
  }

  /** With the stop path repaired, the inverter is written iff the
      difference is below 40; the battery then stops at once, the EMS mode
      follows to Forced after 10 s, and the two writes are in time order. */
  lemma MonitorStops(price: Reading, selectedPrices: Reading, chosen3: Reading, d: Device)
    requires Runnable(price, selectedPrices, chosen3)
    ensures var p, r := AsFloat(price), AsFloat(ReferenceReading(selectedPrices, chosen3));
      MonitorEffect(Check(price, selectedPrices, chosen3)).writes != [] <==>
        (p.Some? && r.Some? && p.value - r.value < MinDifference)
    ensures var c := Check(price, selectedPrices, chosen3);
      c.StopDischarge? ==> (Chronological(MonitorEffect(c).writes)
        && Perform(d, MonitorEffect(c).writes) == Device(ForcedMode, StopDefault, d.maxChargePower))
    ensures var c := Check(price, selectedPrices, chosen3);
      c.StopDischarge? ==> forall t :: t < 10 ==> StateAt(d, MonitorEffect(c).writes, t) == d.(command := StopDefault)
    ensures !MonitorEffect(Check(price, selectedPrices, chosen3)).raised
  {
    var s := StopDischargingWrites();
    PerformPair(d, s[0], s[1], ForcedMode, StopDefault);
    forall t: nat | t < s[1].at
      ensures StateAt(d, s, t) == Apply(d, s[0].write)
    {
      StateAtPair(d, s[0], s[1], t);
    }
  }
}
