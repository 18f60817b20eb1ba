/** smart_night_charging_sensors.py: the ranking and the 5/4/3 rule of
    smart_night_charging.py, published on mock sensors only. It keeps no
    state, registers no trigger and, as written, writes nothing to the
    inverter. It differs from smart_night_charging.py in three ways: the
    day side is computed for every list of seven prices or more, its top
    seven are always divided by seven, and the selected hours are not
    validated before they are published. */
module NightSensors {
  import opened Prices
  import opened Ranking
  import opened HourRuns
  import opened RangeText
  import NightCharging

  /** What one update ends in. */
  datatype SensorOutcome =
    | NotEnoughData
    | TooLow(difference: real)
    | Selected(difference: real, hours: seq<nat>, mean: real)

  /** What the code reads without raising: a night price to divide by, and
      no missing day price for `sorted` and `sum`. */
  predicate Runnable(prices: seq<Option<real>>)
  {
    |prices| >= 7 ==> NightCharging.NightEntries(prices) != [] && KnownBetween(prices, 7, |prices|)
  }

  /** The day-versus-night difference of lines 65-71. */
  function Difference(prices: seq<Option<real>>): real
    requires |prices| >= 7 && NightCharging.NightEntries(prices) != []
  {
    NightCharging.DayTopMean(prices) - NightCharging.MeanK(prices, 3)
  }

  /** `update_charging_hours`, lines 27-144. */
  function Decide(prices: seq<Option<real>>): (o: SensorOutcome)
    requires Runnable(prices)
    ensures o == NotEnoughData <==> |prices| < 7
    ensures o.TooLow? <==> |prices| >= 7 && Difference(prices) < 40.0
    ensures !o.NotEnoughData? ==> o.difference == Difference(prices)
  {
    if |prices| < 7 then NotEnoughData
    else
      var difference := Difference(prices);
      if difference < 40.0 then TooLow(difference)
      else
        var k := NightCharging.RuleSize(NightCharging.MeanK(prices, 3), NightCharging.MeanK(prices, 4), NightCharging.MeanK(prices, 5));
        Selected(difference, SortedHours(NightCharging.CheapestK(prices, k)), NightCharging.MeanK(prices, k))
  }

  /** The published hours: the prefix of three, four or five the rule picks,
      sorted by hour, with its mean, after a difference of at least 40. */
  lemma SelectedProperties(prices: seq<Option<real>>, difference: real, hours: seq<nat>, mean: real)
    requires Runnable(prices)
    requires Decide(prices) == Selected(difference, hours, mean)
    ensures |prices| >= 7 && NightCharging.NightEntries(prices) != []
    ensures difference == Difference(prices) && difference >= 40.0
    ensures var k := NightCharging.RuleSize(NightCharging.MeanK(prices, 3), NightCharging.MeanK(prices, 4), NightCharging.MeanK(prices, 5));
      && mean == NightCharging.MeanK(prices, k)
      && |hours| == (if k <= |NightCharging.NightEntries(prices)| then k else |NightCharging.NightEntries(prices)|)
      && Increasing(hours)
      && forall h: nat :: h in hours <==> h < 7 && prices[h].Some? && Entry(h, prices[h].value) in NightCharging.CheapestK(prices, k)
  {
    var k := NightCharging.RuleSize(NightCharging.MeanK(prices, 3), NightCharging.MeanK(prices, 4), NightCharging.MeanK(prices, 5));
    NightCharging.SortedCheapest(prices, k);
  }

  /** With at most seven day prices the top seven are all of them, and their
      sum is still divided by seven: the mean is the day total over seven. */
  lemma ShortDayMean(prices: seq<Option<real>>)
    requires 7 <= |prices| <= 14 && KnownBetween(prices, 7, |prices|)
    ensures NightCharging.DayTopMean(prices) == Sum(PricesOf(Window(prices, 7, |prices|))) / 7.0
  {
    var es := Window(prices, 7, |prices|);
    WindowFull(prices, 7, |prices|);
    assert NightCharging.DayTop(prices) == Rank(es, Dearest);
    SumPricesPermutation(Rank(es, Dearest), es);
  }

  /** With only the seven night prices the day mean is zero, so the
      difference is minus the mean of the three cheapest. */
  lemma NoDayPrices(prices: seq<Option<real>>)
    requires |prices| == 7 && NightCharging.NightEntries(prices) != []
    ensures Difference(prices) == -NightCharging.MeanK(prices, 3)
  {
    assert Window(prices, 7, 7) == [];
  }

  // ----- What the update publishes -----

  /** The `sensor.mock_chosen_k_hours` sensors, for k = 3, 4 and 5 (None: not written). */
  function MockStates(prices: seq<Option<real>>): Option<seq<NightCharging.Mock>>
    requires Runnable(prices)
  {
    if |prices| < 7 then None else Some(NightCharging.Mocks(prices))
  }

  /** `sensor.mock_night_charging_day_prices_comparison`. */
  function ComparisonState(o: SensorOutcome): Reading
  {
    if o.NotEnoughData? then Word("unknown") else Number(o.difference)
  }

  /** `sensor.mock_selected_charging_hours`. */
  function SelectedHoursState(o: SensorOutcome, meanText: string): string
  {
    match o
    case NotEnoughData => "unknown"
    case TooLow(_) => "Price difference too low"
    case Selected(_, hours, _) => StateText(NightRangeText(hours), meanText)
  }

  /** `sensor.mock_selected_charging_hours_prices` (None: not written). */
  function PricesState(o: SensorOutcome, meanText: string): Option<string>
  {
    if o.Selected? then Some(meanText) else None
  }

  /** Fewer than seven prices: "unknown" on both outputs and no mock sensor;
      otherwise the three mock sensors hold the 3, 4 and 5 cheapest night
      hours in price order and their means, whatever the gate decides. */
  lemma MockOutputs(prices: seq<Option<real>>)
    requires Runnable(prices)
    ensures |prices| < 7 <==> MockStates(prices) == None
    ensures |prices| < 7 ==> ComparisonState(Decide(prices)) == Word("unknown")
    ensures |prices| < 7 ==> SelectedHoursState(Decide(prices), "") == "unknown" && PricesState(Decide(prices), "") == None
    ensures |prices| >= 7 ==> ComparisonState(Decide(prices)) == Number(Difference(prices))
    ensures MockStates(prices).Some? ==> (|MockStates(prices).value| == 3
      && NightCharging.MockFor(prices, 3, MockStates(prices).value[0])
      && NightCharging.MockFor(prices, 4, MockStates(prices).value[1])
      && NightCharging.MockFor(prices, 5, MockStates(prices).value[2]))
  {
  }

  /** The hours of a mock sensor are not sorted by hour: they follow the
      prices, cheapest first, ties by hour. */
  lemma MockHoursInPriceOrder(prices: seq<Option<real>>, k: nat)
    requires |prices| >= 7 && 3 <= k <= 5
    ensures var c := NightCharging.CheapestK(prices, k);
      forall i, j :: 0 <= i < j < |c| ==>
        c[i].hour < 7 && c[j].hour < 7 && prices[c[i].hour] == Some(c[i].price) && prices[c[j].hour] == Some(c[j].price)
        && (c[i].price < c[j].price || (c[i].price == c[j].price && c[i].hour < c[j].hour))
  {
    var c := NightCharging.CheapestK(prices, k);
    NightCharging.CheapestBeatsRest(prices, k);
    NightCharging.CheapestInPriceOrder(prices, k);
    forall i, j | 0 <= i < j < |c|
      ensures c[i].hour < 7 && c[j].hour < 7 && prices[c[i].hour] == Some(c[i].price) && prices[c[j].hour] == Some(c[j].price)
    {
      assert c[i] in c && c[j] in c;
    }
  }

  /** Splitting the published hour state at ',' and ':' gives the first hour
      of every run of selected hours. */
  lemma SelectedStateRoundTrip(prices: seq<Option<real>>, meanText: string)
    requires Runnable(prices) && Decide(prices).Selected?
    requires ',' !in meanText
    ensures ParseStartHours(SelectedHoursState(Decide(prices), meanText)) == Some(Starts(Runs(Decide(prices).hours)))
  {
    var o := Decide(prices);
    SelectedProperties(prices, o.difference, o.hours, o.mean);
    NightStateRoundTrip(o.hours, meanText);
  }
}
