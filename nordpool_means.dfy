/** The three Nordpool mean sensors:
    nordpool_mean_low_vs_high_price_tomorrow.py and its twin
    nordpool_mean_low_vs_high_price_today.py (the mean of the seven dearest
    hours of a day against the mean of the three cheapest of its hours 0-5),
    and nordpool_mean_high_today_vs_low_tomorrow.py (the five dearest of
    today's hours 14-23 against the five cheapest of tomorrow's hours 0-5). */
module NordpoolMeans {
  import opened Prices
  import opened Ranking

  // ----- Low versus high, for today or for tomorrow -----

  /** `sorted(prices[:6])[:3]`. */
  function BottomThree(prices: seq<Option<real>>): (b: seq<Entry>)
    requires |prices| >= 6
    ensures KnownBetween(prices, 0, 6) ==> |b| == 3
  {
    WindowLength(prices, 0, 6);
    Best(Window(prices, 0, 6), Cheapest, 3)
  }

  /** `sorted(prices, reverse=True)[:7]`. */
  function TopSeven(prices: seq<Option<real>>): (t: seq<Entry>)
    ensures KnownBetween(prices, 0, |prices|) ==> |t| == if |prices| < 7 then |prices| else 7
  {
    WindowLength(prices, 0, |prices|);
    Best(Window(prices, 0, |prices|), Dearest, 7)
  }

  /** What one calculation publishes: "unknown" with the raw list, or the
      difference with both means and both price lists. */
  datatype LowHigh =
    | NotEnoughPrices(prices: seq<Option<real>>)
    | LowHighDifference(difference: real, meanBottom3: real, meanTop7: real, bottom3: seq<real>, top7: seq<real>)

  /** What the code reads without raising: `sorted` and `sum` need every
      price of the list once the calculation runs. */
  predicate Runnable(prices: seq<Option<real>>)
  {
    |prices| >= 6 ==> KnownBetween(prices, 0, |prices|)
  }

  /** `calculate_mean_difference` of both low-versus-high scripts: fewer
      than six prices publish "unknown"; otherwise three prices of the first
      six and the dearest seven of the day (all of them when the day has
      fewer), each mean over its own count. */
  function LowVsHigh(prices: seq<Option<real>>): (s: LowHigh)
    requires Runnable(prices)
    ensures s.NotEnoughPrices? <==> |prices| < 6
    ensures s.NotEnoughPrices? ==> s.prices == prices
    ensures s.LowHighDifference? ==> (|s.bottom3| == 3 && |s.top7| == (if |prices| < 7 then |prices| else 7)
      && s.difference == s.meanTop7 - s.meanBottom3)
  {
    if |prices| < 6 then NotEnoughPrices(prices)
    else
      var bottom := PricesOf(BottomThree(prices));
      var top := PricesOf(TopSeven(prices));
      LowHighDifference(Mean(top) - Mean(bottom), Mean(bottom), Mean(top), bottom, top)
  }

  /** The state of the output sensor; the tomorrow script's unit suffix is
      formatting and not part of the model. */
  function LowHighState(s: LowHigh): Reading
  {
    if s.NotEnoughPrices? then Word("unknown") else Number(s.difference)
  }

  /** The bottom three are three of hours 0-5 with their own prices, each
      at most every price of hours 0-5 left out. */
  lemma BottomThreeCheapest(prices: seq<Option<real>>)
    requires |prices| >= 6 && KnownBetween(prices, 0, 6)
    ensures |BottomThree(prices)| == 3
    ensures forall e :: e in BottomThree(prices) ==> e.hour < 6 && prices[e.hour] == Some(e.price)
    ensures forall e, h: nat :: (e in BottomThree(prices) && h < 6 && Entry(h, prices[h].value) !in BottomThree(prices)) ==>
      e.price <= prices[h].value
  {
    WindowBest(prices, 0, 6, Cheapest, 3);
  }

  /** The top seven are min(7, n) hours of the day with their own prices,
      each at least every price left out. */
  lemma TopSevenDearest(prices: seq<Option<real>>)
    requires KnownBetween(prices, 0, |prices|)
    ensures |TopSeven(prices)| == if |prices| < 7 then |prices| else 7
    ensures forall e :: e in TopSeven(prices) ==> e.hour < |prices| && prices[e.hour] == Some(e.price)
    ensures forall e, h: nat :: (e in TopSeven(prices) && h < |prices| && Entry(h, prices[h].value) !in TopSeven(prices)) ==>
      prices[h].value <= e.price
  {
    WindowBest(prices, 0, |prices|, Dearest, 7);
  }

  /** The published lists are the prices of the bottom three and the top
      seven, each mean over its own count. */
  lemma LowVsHighLists(prices: seq<Option<real>>)
    requires Runnable(prices) && |prices| >= 6
    ensures var s := LowVsHigh(prices);
      s.bottom3 == PricesOf(BottomThree(prices)) && s.top7 == PricesOf(TopSeven(prices))
      && s.meanBottom3 == Sum(s.bottom3) / 3.0 && s.meanTop7 == Sum(s.top7) / (|s.top7| as real)
  {
    var b := PricesOf(BottomThree(prices));
    assert KnownBetween(prices, 0, 6);
    assert |b| == 3;
    assert Mean(b) == Sum(b) / 3.0;
  }

  /** The bottom mean is at most every price of hours 0-5 left out. */
  lemma BottomMeanBelowRest(prices: seq<Option<real>>, h: nat)
    requires Runnable(prices) && |prices| >= 6
    requires h < 6 && Entry(h, prices[h].value) !in BottomThree(prices)
    ensures LowVsHigh(prices).meanBottom3 <= prices[h].value
  {
    var b := BottomThree(prices);
    var ps := PricesOf(b);
    BottomThreeCheapest(prices);
    forall i | 0 <= i < |ps| ensures ps[i] <= prices[h].value {
      assert b[i] in b;
    }
    MeanAtMost(ps, prices[h].value);
  }

  /** The top mean is at least every price of the day left out. */
  lemma TopMeanAboveRest(prices: seq<Option<real>>, h: nat)
    requires Runnable(prices) && |prices| >= 6
    requires h < |prices| && Entry(h, prices[h].value) !in TopSeven(prices)
    ensures prices[h].value <= LowVsHigh(prices).meanTop7
  {
    var t := TopSeven(prices);
    var ps := PricesOf(t);
    TopSevenDearest(prices);
    forall i | 0 <= i < |ps| ensures prices[h].value <= ps[i] {
      assert t[i] in t;
    }
    MeanAtLeast(ps, prices[h].value);
  }

  /** The difference can be negative: six hours at p and a seventh at a
      lower q put q among the top seven, whose mean (6p + q) / 7 is below
      the bottom mean p (100 and 0 give -100/7). */
  lemma LowVsHighCanBeNegative(prices: seq<Option<real>>, p: real, q: real)
    requires |prices| == 7 && q < p
    requires forall i :: 0 <= i < 6 ==> prices[i] == Some(p)
    requires prices[6] == Some(q)
    ensures Runnable(prices)
    ensures LowVsHigh(prices).difference == (q - p) / 7.0 < 0.0
  {
    var b := PricesOf(BottomThree(prices));
    assert |b| == 3;
    assert Mean(b) == p by {
      BottomThreeCheapest(prices);
      forall i | 0 <= i < |b| ensures b[i] == p {
        assert BottomThree(prices)[i] in BottomThree(prices);
      }
      MeanAtLeast(b, p);
      MeanAtMost(b, p);
    }
    var t := PricesOf(TopSeven(prices));
    TopSevenOfAll(prices, p, q);
    assert |t| == 7;
    assert Mean(t) == Sum(t) / 7.0;
    LowVsHighLists(prices);
  }

  /** With seven prices the top seven are all of them. */
  lemma TopSevenOfAll(prices: seq<Option<real>>, p: real, q: real)
    requires |prices| == 7
    requires forall i :: 0 <= i < 6 ==> prices[i] == Some(p)
    requires prices[6] == Some(q)
    ensures Sum(PricesOf(TopSeven(prices))) == 6.0 * p + q
  {
    var es := Window(prices, 0, 7);
    assert TopSeven(prices) == Rank(es, Dearest) by {
      WindowLength(prices, 0, 7);
    }
    SumPricesPermutation(Rank(es, Dearest), es);
    WindowSum(prices, p, q);
  }

  lemma WindowSum(prices: seq<Option<real>>, p: real, q: real)
    requires |prices| == 7
    requires forall i :: 0 <= i < 6 ==> prices[i] == Some(p)
    requires prices[6] == Some(q)
    ensures Sum(PricesOf(Window(prices, 0, 7))) == 6.0 * p + q
  {
    var es := Window(prices, 0, 7);
    WindowFull(prices, 0, 7);
    var ps := PricesOf(es);
    var six := ps[..6];
    assert |six| == 6;
    forall i | 0 <= i < 6 ensures six[i] == p {
      assert six[i] == es[i].price;
    }
    assert ps == six + [ps[6]];
    SumSnoc(six, q);
    SumAtMost(six, p);
    SumAtLeast(six, p);
  }

  // ----- High today versus low tomorrow -----

  /** `sorted(today_prices[14:24], reverse=True)[:5]`. */
  function TodayTopFive(today: seq<Option<real>>): (t: seq<Entry>)
    requires |today| >= 24
    ensures KnownBetween(today, 14, 24) ==> |t| == 5
  {
    WindowLength(today, 14, 24);
    Best(Window(today, 14, 24), Dearest, 5)
  }

  /** `sorted(tomorrow_prices[:6])[:5]`. */
  function TomorrowBottomFive(tomorrow: seq<Option<real>>): (b: seq<Entry>)
    requires |tomorrow| >= 6
    ensures KnownBetween(tomorrow, 0, 6) ==> |b| == 5
  {
    WindowLength(tomorrow, 0, 6);
    Best(Window(tomorrow, 0, 6), Cheapest, 5)
  }

  /** What the output sensor holds: a calculated difference with its means
      and lists, "unknown" with both raw lists, or the midnight reset
      ("unknown", null means, empty lists). */
  datatype HighLow =
    | Calculated(difference: real, meanTodayTop5: real, meanTomorrowBottom5: real, todayTop5: seq<real>, tomorrowBottom5: seq<real>)
    | NotEnoughData(todayPrices: seq<Option<real>>, tomorrowPrices: seq<Option<real>>)
    | Cleared

  /** What the calculation reads without raising: the two slices it sorts
      hold no missing price. */
  predicate HighLowRunnable(today: seq<Option<real>>, tomorrow: seq<Option<real>>)
  {
    |today| >= 24 && |tomorrow| >= 6 ==> KnownBetween(today, 14, 24) && KnownBetween(tomorrow, 0, 6)
  }

  /** `calculate_mean_difference`: at least 24 prices today and 6 tomorrow,
      or "unknown"; five prices on each side, each mean over five. */
  function HighTodayVsLowTomorrow(today: seq<Option<real>>, tomorrow: seq<Option<real>>): (s: HighLow)
    requires HighLowRunnable(today, tomorrow)
    ensures !s.Cleared?
    ensures s.NotEnoughData? <==> |today| < 24 || |tomorrow| < 6
    ensures s.NotEnoughData? ==> s.todayPrices == today && s.tomorrowPrices == tomorrow
    ensures s.Calculated? ==> (|s.todayTop5| == 5 && |s.tomorrowBottom5| == 5
      && s.difference == s.meanTodayTop5 - s.meanTomorrowBottom5)
  {
    if |today| < 24 || |tomorrow| < 6 then NotEnoughData(today, tomorrow)
    else
      var top := PricesOf(TodayTopFive(today));
      var bottom := PricesOf(TomorrowBottomFive(tomorrow));
      Calculated(Mean(top) - Mean(bottom), Mean(top), Mean(bottom), top, bottom)
  }

  /** `reset_sensor`. */
  function ResetSensor(): HighLow
  {
    Cleared
  }

  /** The state and the attributes of the output sensor; None is a null or
      absent attribute. */
  function HighLowState(s: HighLow): Reading
  {
    if s.Calculated? then Number(s.difference) else Word("unknown")
  }

  function HighLowError(s: HighLow): Option<string>
  {
    match s
    case Calculated(_, _, _, _, _) => None
    case NotEnoughData(_, _) => Some("Not enough data for calculation")
    case Cleared => Some("Sensor reset at midnight")
  }

  function HighLowMeans(s: HighLow): (Option<real>, Option<real>)
  {
    if s.Calculated? then (Some(s.meanTodayTop5), Some(s.meanTomorrowBottom5)) else (None, None)
  }

  function HighLowLists(s: HighLow): (seq<real>, seq<real>)
  {
    if s.Calculated? then (s.todayTop5, s.tomorrowBottom5) else ([], [])
  }

  /** The reset publishes "unknown" with null means and empty lists; a
      calculation publishes a number iff it had enough prices, and "unknown"
      with its own error otherwise, so the two "unknown" states are told
      apart by their error only. */
  lemma ResetAndCalculation(today: seq<Option<real>>, tomorrow: seq<Option<real>>)
    requires HighLowRunnable(today, tomorrow)
    ensures var r := ResetSensor();
      HighLowState(r) == Word("unknown") && HighLowError(r) == Some("Sensor reset at midnight")
      && HighLowMeans(r) == (None, None) && HighLowLists(r) == ([], [])
    ensures var s := HighTodayVsLowTomorrow(today, tomorrow);
      HighLowState(s).Number? <==> |today| >= 24 && |tomorrow| >= 6
    ensures var s := HighTodayVsLowTomorrow(today, tomorrow);
      HighLowState(s) == Word("unknown") ==> (HighLowError(s) == Some("Not enough data for calculation")
        && HighLowError(s) != HighLowError(ResetSensor()))
  {
  }

  /** The published lists are the prices of the two selections, each mean
      over five. */
  lemma HighLowPublished(today: seq<Option<real>>, tomorrow: seq<Option<real>>)
    requires HighLowRunnable(today, tomorrow) && |today| >= 24 && |tomorrow| >= 6
    ensures var s := HighTodayVsLowTomorrow(today, tomorrow);
      s.todayTop5 == PricesOf(TodayTopFive(today)) && s.tomorrowBottom5 == PricesOf(TomorrowBottomFive(tomorrow))
      && s.meanTodayTop5 == Sum(s.todayTop5) / 5.0 && s.meanTomorrowBottom5 == Sum(s.tomorrowBottom5) / 5.0
  {
    var t := PricesOf(TodayTopFive(today));
    var b := PricesOf(TomorrowBottomFive(tomorrow));
    assert |t| == 5 && |b| == 5;
    assert Mean(t) == Sum(t) / 5.0 && Mean(b) == Sum(b) / 5.0;
  }

  /** The five of today are five of hours 14-23 with their own prices, each
      at least every hour of 14-23 left out. */
  lemma TodayTopFiveDearest(today: seq<Option<real>>)
    requires |today| >= 24 && KnownBetween(today, 14, 24)
    ensures forall e :: e in TodayTopFive(today) ==> 14 <= e.hour < 24 && today[e.hour] == Some(e.price)
    ensures forall e, h: nat :: (e in TodayTopFive(today) && 14 <= h < 24 && Entry(h, today[h].value) !in TodayTopFive(today)) ==>
      today[h].value <= e.price
  {
    WindowBest(today, 14, 24, Dearest, 5);
  }

  /** The five of tomorrow are five of hours 0-5 with their own prices, each
      at most every hour of 0-5 left out. */
  lemma TomorrowBottomFiveCheapest(tomorrow: seq<Option<real>>)
    requires |tomorrow| >= 6 && KnownBetween(tomorrow, 0, 6)
    ensures forall e :: e in TomorrowBottomFive(tomorrow) ==> e.hour < 6 && tomorrow[e.hour] == Some(e.price)
    ensures forall e, h: nat :: (e in TomorrowBottomFive(tomorrow) && h < 6 && Entry(h, tomorrow[h].value) !in TomorrowBottomFive(tomorrow)) ==>
      e.price <= tomorrow[h].value
  {
    WindowBest(tomorrow, 0, 6, Cheapest, 5);
  }

  /** The hours 0-5 of tomorrow ranked cheapest first: the bottom five are
      its first five, and its sixth is one of the six hours. */
  lemma TomorrowRanked(tomorrow: seq<Option<real>>)
    requires |tomorrow| >= 6 && KnownBetween(tomorrow, 0, 6)
    ensures var r := Rank(Window(tomorrow, 0, 6), Cheapest);
      |r| == 6 && Ranked(r, Cheapest) && DistinctHours(r)
      && TomorrowBottomFive(tomorrow) == r[..5]
      && (forall i :: 0 <= i < 6 ==> Entry(i, tomorrow[i].value) in r)
      && (forall e :: e in r ==> e.hour < 6 && e == Entry(e.hour, tomorrow[e.hour].value))
  {
    var es := Window(tomorrow, 0, 6);
    var r := Rank(es, Cheapest);
    WindowFull(tomorrow, 0, 6);
    assert Ranked(r, Cheapest) && DistinctHours(r) by {
      KnownEntriesIncreasing(tomorrow[0..6], 0);
      RankEnumerated(es, Cheapest);
      RankDistinctHours(es, Cheapest);
    }
    RankMembers(es, Cheapest);
    forall i | 0 <= i < 6 ensures Entry(i, tomorrow[i].value) in r {
      assert es[i] in es;
    }
    forall e | e in r ensures e.hour < 6 && e == Entry(e.hour, tomorrow[e.hour].value) {
      var i :| 0 <= i < 6 && es[i] == e;
    }
    assert TomorrowBottomFive(tomorrow) == r[..5];
  }

  /** One of tomorrow's hours 0-5 is left out of the bottom five, and it is
      a dearest one of the six. */
  lemma TomorrowLeavesOutDearest(tomorrow: seq<Option<real>>)
    requires |tomorrow| >= 6 && KnownBetween(tomorrow, 0, 6)
    ensures exists h: nat :: (h < 6 && Entry(h, tomorrow[h].value) !in TomorrowBottomFive(tomorrow)
      && (forall i :: 0 <= i < 6 ==> tomorrow[i].value <= tomorrow[h].value))
  {
    var r := Rank(Window(tomorrow, 0, 6), Cheapest);
    var b := TomorrowBottomFive(tomorrow);
    TomorrowRanked(tomorrow);
    assert r[5] in r;
    var h := r[5].hour;
    assert Entry(h, tomorrow[h].value) !in b by {
      forall i | 0 <= i < 5 ensures b[i] != r[5] {
        assert r[i].hour != r[5].hour;
      }
    }
    forall i | 0 <= i < 6 ensures tomorrow[i].value <= tomorrow[h].value {
      var j :| 0 <= j < 6 && r[j] == Entry(i, tomorrow[i].value);
      if j < 5 {
        assert Precedes(r[j], r[5], Cheapest);
      }
    }
  }

  /** Only one hour is left out: every other hour of 0-5 is among the
      bottom five. */
  lemma TomorrowLeavesOutOne(tomorrow: seq<Option<real>>, h: nat, g: nat)
    requires |tomorrow| >= 6 && KnownBetween(tomorrow, 0, 6)
    requires h < 6 && g < 6 && h != g && Entry(h, tomorrow[h].value) !in TomorrowBottomFive(tomorrow)
    ensures Entry(g, tomorrow[g].value) in TomorrowBottomFive(tomorrow)
  {
    var r := Rank(Window(tomorrow, 0, 6), Cheapest);
    var b := TomorrowBottomFive(tomorrow);
    TomorrowRanked(tomorrow);
    assert forall i :: 0 <= i < 5 ==> r[i] in b by {
      forall i | 0 <= i < 5 ensures r[i] in b {
        assert b[i] == r[i];
      }
    }
    var j :| 0 <= j < 6 && r[j] == Entry(h, tomorrow[h].value);
    var k :| 0 <= k < 6 && r[k] == Entry(g, tomorrow[g].value);
  }
}
