/** Grouping an ascending list of hours into maximal runs of consecutive
    hours (`group_sequential_hours` in smart_day_discharging.py, and the same
    loop inside the night-charging formatters and schedulers). */
module HourRuns {

  function Last(s: seq<nat>): nat
    requires |s| > 0
  {
    s[|s| - 1]
  }

  /** Each hour is the previous one plus one, i.e. the first hour plus its position. */
  predicate Consecutive(r: seq<nat>)
  {
    forall j :: 0 <= j < |r| ==> r[j] == r[0] + j
  }

  predicate Increasing(hs: seq<nat>)
  {
    forall i, j :: 0 <= i < j < |hs| ==> hs[i] < hs[j]
  }

  function Flatten(rs: seq<seq<nat>>): seq<nat>
  {
    if rs == [] then [] else Flatten(rs[..|rs| - 1]) + rs[|rs| - 1]
  }

  /** The runs of `hs`, built left to right as the Python loop does: an hour
      that is the previous hour plus one joins the current run, any other hour
      starts a new run. */
  function Runs(hs: seq<nat>): (rs: seq<seq<nat>>)
    ensures |rs| == 0 <==> |hs| == 0
    ensures |rs| <= |hs|
    ensures forall i :: 0 <= i < |rs| ==> |rs[i]| > 0
    ensures |hs| > 0 ==> |rs[|rs| - 1]| > 0 && Last(rs[|rs| - 1]) == Last(hs)
  {
    if |hs| == 0 then []
    else if |hs| == 1 then [[hs[0]]]
    else
      var rs := Runs(hs[..|hs| - 1]);
      if Last(hs) == hs[|hs| - 2] + 1 then rs[..|rs| - 1] + [rs[|rs| - 1] + [Last(hs)]]
      else rs + [[Last(hs)]]
  }

  /** One step of `Runs`: the runs after one more hour. */
  lemma RunsSnoc(hs: seq<nat>, x: nat)
    ensures Runs(hs + [x]) ==
      if hs == [] then [[x]]
      else if x == Last(hs) + 1 then Runs(hs)[..|Runs(hs)| - 1] + [Runs(hs)[|Runs(hs)| - 1] + [x]]
      else Runs(hs) + [[x]]
  {
    var s := hs + [x];
    assert s[..|s| - 1] == hs;
    if hs != [] {
      assert s[|s| - 2] == Last(hs);
    }
  }

  /** Two runs with at least one missing hour between them. */
  predicate Apart(r: seq<nat>, q: seq<nat>)
    requires |r| > 0 && |q| > 0
  {
    Last(r) + 1 < q[0]
  }

  /** What the runs of an increasing list look like: non-empty, consecutive
      inside, and each run ends at least two hours before the next one starts. */
  predicate WellSeparated(rs: seq<seq<nat>>)
  {
    && (forall i :: 0 <= i < |rs| ==> |rs[i]| > 0 && Consecutive(rs[i]))
    && (forall i, j :: 0 <= i < j < |rs| ==> Apart(rs[i], rs[j]))
  }

  lemma {:induction false} FlattenAppend(rs: seq<seq<nat>>, r: seq<nat>)
    ensures Flatten(rs + [r]) == Flatten(rs) + r
  {
    assert (rs + [r])[..|rs|] == rs;
  }

  /** Non-empty consecutive runs, and no run starts right after the previous one ends. */
  predicate Shaped(rs: seq<seq<nat>>)
  {
    && (forall i :: 0 <= i < |rs| ==> |rs[i]| > 0 && Consecutive(rs[i]))
    && (forall i, j :: 0 <= i < |rs| && 0 <= j < |rs| && j == i + 1 ==> rs[j][0] != Last(rs[i]) + 1)
  }

  /** The step of `Runs` that extends the current run keeps the shape. */
  lemma {:induction false} ExtendStep(rs: seq<seq<nat>>, x: nat)
    requires |rs| > 0 && Shaped(rs) && x == Last(rs[|rs| - 1]) + 1
    ensures Shaped(rs[..|rs| - 1] + [rs[|rs| - 1] + [x]])
  {
    var cur := rs[|rs| - 1];
    var out := rs[..|rs| - 1] + [cur + [x]];
    assert Consecutive(cur + [x]);
    forall i | 0 <= i < |out| ensures |out[i]| > 0 && Consecutive(out[i]) {
      if i < |out| - 1 {
        assert out[i] == rs[i];
      }
    }
    forall i, j | 0 <= i < |out| && 0 <= j < |out| && j == i + 1 ensures out[j][0] != Last(out[i]) + 1 {
      assert out[i] == rs[i];
      if j < |out| - 1 {
        assert out[j] == rs[j];
      } else {
        assert out[j][0] == rs[j][0];
      }
    }
  }

  /** The step of `Runs` that extends the current run adds one hour to the flattening. */
  lemma {:induction false} ExtendFlatten(rs: seq<seq<nat>>, x: nat)
    requires |rs| > 0
    ensures Flatten(rs[..|rs| - 1] + [rs[|rs| - 1] + [x]]) == Flatten(rs) + [x]
  {
    var front := rs[..|rs| - 1];
    var cur := rs[|rs| - 1];
    assert rs == front + [cur];
    FlattenAppend(front, cur);
    FlattenAppend(front, cur + [x]);
  }

  /** The step of `Runs` that starts a new run. */
  lemma {:induction false} NewRunStep(rs: seq<seq<nat>>, x: nat)
    requires Shaped(rs) && (|rs| > 0 ==> x != Last(rs[|rs| - 1]) + 1)
    ensures Shaped(rs + [[x]])
    ensures Flatten(rs + [[x]]) == Flatten(rs) + [x]
  {
    FlattenAppend(rs, [x]);
    var out := rs + [[x]];
    forall i | 0 <= i < |out| ensures |out[i]| > 0 && Consecutive(out[i]) {
      if i < |rs| {
        assert out[i] == rs[i];
      }
    }
    forall i, j | 0 <= i < |out| && 0 <= j < |out| && j == i + 1 ensures out[j][0] != Last(out[i]) + 1 {
      assert out[i] == rs[i];
      if j < |rs| {
        assert out[j] == rs[j];
      }
    }
  }

  /** The runs (of any list) concatenate back to the list, each is consecutive,
      and an hour that starts a run is never the previous run's last hour plus one. */
  lemma {:induction false} RunsPartition(hs: seq<nat>)
    ensures Flatten(Runs(hs)) == hs
    ensures Shaped(Runs(hs))
  {
    if hs != [] {
      var init := hs[..|hs| - 1];
      var x := Last(hs);
      assert hs == init + [x];
      RunsPartition(init);
      RunsSnoc(init, x);
      var rs := Runs(init);
      if init == [] {
        NewRunStep([], x);
      } else if x == Last(init) + 1 {
        ExtendStep(rs, x);
        ExtendFlatten(rs, x);
      } else {
        NewRunStep(rs, x);
      }
    }
  }

  /** A consecutive run spans exactly its length. */
  lemma ConsecutiveSpan(r: seq<nat>)
    requires |r| > 0 && Consecutive(r)
    ensures Last(r) == r[0] + |r| - 1
  {
  }

  /** A run that starts two or more hours after every earlier run ends keeps the runs separated. */
  lemma {:induction false} AppendSeparated(rs: seq<seq<nat>>, r: seq<nat>)
    requires WellSeparated(rs) && |r| > 0 && Consecutive(r)
    requires forall i :: 0 <= i < |rs| ==> Last(rs[i]) + 1 < r[0]
    ensures WellSeparated(rs + [r])
  {
    var out := rs + [r];
    forall i | 0 <= i < |out| ensures |out[i]| > 0 && Consecutive(out[i]) {
      if i < |rs| {
        assert out[i] == rs[i];
      }
    }
    forall i, j | 0 <= i < j < |out| ensures Apart(out[i], out[j]) {
      assert out[i] == rs[i];
      if j < |rs| {
        assert out[j] == rs[j];
      }
    }
  }

  /** It is enough that the new run starts two or more hours after the last run ends. */
  lemma AppendAfterLast(rs: seq<seq<nat>>, r: seq<nat>)
    requires |rs| > 0 && WellSeparated(rs) && |r| > 0 && Consecutive(r)
    requires Last(rs[|rs| - 1]) + 1 < r[0]
    ensures WellSeparated(rs + [r])
  {
    var n := |rs|;
    forall i | 0 <= i < n ensures Last(rs[i]) + 1 < r[0] {
      if i < n - 1 {
        assert Apart(rs[i], rs[n - 1]);
        ConsecutiveSpan(rs[n - 1]);
      }
    }
    AppendSeparated(rs, r);
  }

  lemma ShapedPrefix(rs: seq<seq<nat>>)
    requires |rs| > 0 && Shaped(rs)
    ensures Shaped(rs[..|rs| - 1])
  {
    var init := rs[..|rs| - 1];
    forall i, j | 0 <= i < |init| && 0 <= j < |init| && j == i + 1 ensures init[j][0] != Last(init[i]) + 1 {
      assert init[i] == rs[i] && init[j] == rs[j];
    }
  }

  /** A strictly increasing concatenation: both parts increase, and the first ends below the second. */
  lemma IncreasingSplit(a: seq<nat>, b: seq<nat>)
    requires Increasing(a + b)
    ensures Increasing(a)
    ensures |a| > 0 && |b| > 0 ==> Last(a) < b[0]
  {
    assert forall i :: 0 <= i < |a| ==> (a + b)[i] == a[i];
    if |a| > 0 && |b| > 0 {
      assert (a + b)[|a| - 1] == Last(a) && (a + b)[|a|] == b[0];
    }
  }

  /** The flattening of non-empty runs ends with the last run's last hour. */
  lemma FlattenLast(rs: seq<seq<nat>>)
    requires |rs| > 0 && |rs[|rs| - 1]| > 0
    ensures |Flatten(rs)| > 0 && Last(Flatten(rs)) == Last(rs[|rs| - 1])
  {
    var init := rs[..|rs| - 1];
    assert rs == init + [rs[|rs| - 1]];
    FlattenAppend(init, rs[|rs| - 1]);
  }

  /** Shaped runs whose hours increase are well separated. */
  lemma {:induction false} ShapedSeparated(rs: seq<seq<nat>>)
    requires Shaped(rs) && Increasing(Flatten(rs))
    ensures WellSeparated(rs)
  {
    if rs != [] {
      var init := rs[..|rs| - 1];
      var r := rs[|rs| - 1];
      assert rs == init + [r];
      assert Increasing(Flatten(init) + r) by {
        FlattenAppend(init, r);
      }
      assert WellSeparated(init) by {
        IncreasingSplit(Flatten(init), r);
        ShapedPrefix(rs);
        ShapedSeparated(init);
      }
      assert init != [] ==> r[0] != Last(init[|init| - 1]) + 1 by {
        if init != [] {
          assert rs[|rs| - 1][0] != Last(rs[|rs| - 2]) + 1;
          assert init[|init| - 1] == rs[|rs| - 2];
        }
      }
      SeparatedSnoc(init, r);
    }
  }

  /** A new run that does not continue the last one keeps increasing runs separated. */
  lemma SeparatedSnoc(init: seq<seq<nat>>, r: seq<nat>)
    requires WellSeparated(init) && |r| > 0 && Consecutive(r)
    requires init != [] ==> r[0] != Last(init[|init| - 1]) + 1
    requires Increasing(Flatten(init) + r)
    ensures WellSeparated(init + [r])
  {
    IncreasingSplit(Flatten(init), r);
    if init == [] {
      AppendSeparated(init, r);
    } else {
      FlattenLast(init);
      AppendAfterLast(init, r);
    }
  }

  /** Every run's hours are hours of the list. */
  lemma {:induction false} RunHoursFromList(hs: seq<nat>, i: nat, k: nat)
    requires i < |Runs(hs)| && k < |Runs(hs)[i]|
    ensures Runs(hs)[i][k] in hs
  {
    RunsPartition(hs);
    FlattenMember(Runs(hs), i, k);
  }

  lemma {:induction false} FlattenMember(rs: seq<seq<nat>>, i: nat, k: nat)
    requires i < |rs| && k < |rs[i]|
    ensures rs[i][k] in Flatten(rs)
  {
    var front := rs[..|rs| - 1];
    if i < |rs| - 1 {
      assert front[i] == rs[i];
      FlattenMember(front, i, k);
    }
  }

  /** The runs of a strictly increasing list are well separated: between two
      runs at least one hour is missing. */
  lemma RunsSeparated(hs: seq<nat>)
    requires Increasing(hs)
    ensures WellSeparated(Runs(hs))
  {
    RunsPartition(hs);
    ShapedSeparated(Runs(hs));
  }

  lemma WellSeparatedPrefix(rs: seq<seq<nat>>)
    requires |rs| > 0 && WellSeparated(rs)
    ensures WellSeparated(rs[..|rs| - 1])
  {
    var init := rs[..|rs| - 1];
    assert forall i :: 0 <= i < |init| ==> init[i] == rs[i];
  }

  /** No hour of well-separated runs lies beyond the end of the last run. */
  lemma {:induction false} FlattenAtMostLast(rs: seq<seq<nat>>)
    requires |rs| > 0 && WellSeparated(rs)
    ensures forall x :: x in Flatten(rs) ==> x <= Last(rs[|rs| - 1])
  {
    var n := |rs|;
    var init := rs[..n - 1];
    var r := rs[n - 1];
    assert rs == init + [r];
    FlattenAppend(init, r);
    if init != [] {
      WellSeparatedPrefix(rs);
      FlattenAtMostLast(init);
      assert init[n - 2] == rs[n - 2];
      assert Apart(rs[n - 2], r);
    }
    forall x | x in Flatten(rs) ensures x <= Last(r) {
      if x in r {
        var k :| 0 <= k < |r| && r[k] == x;
      }
    }
  }

  /** The hour after a run is not an hour of any run. */
  lemma {:induction false} RunEndAbsent(rs: seq<seq<nat>>, i: nat)
    requires WellSeparated(rs) && i < |rs|
    ensures Last(rs[i]) + 1 !in Flatten(rs)
  {
    var n := |rs|;
    var init := rs[..n - 1];
    var r := rs[n - 1];
    var y := Last(rs[i]) + 1;
    assert rs == init + [r];
    FlattenAppend(init, r);
    if i == n - 1 {
      if init != [] {
        WellSeparatedPrefix(rs);
        FlattenAtMostLast(init);
        assert init[n - 2] == rs[n - 2];
        assert Apart(rs[n - 2], r);
      }
    } else {
      WellSeparatedPrefix(rs);
      assert init[i] == rs[i];
      RunEndAbsent(init, i);
      assert Apart(rs[i], r);
    }
    assert y !in r by {
      forall k | 0 <= k < |r| ensures r[k] != y {
      }
    }
  }

  /** In an increasing list, the hour after each run is not in the list: a
      stop at that hour never cuts into a selected hour. */
  lemma RunEndNotListed(hs: seq<nat>, i: nat)
    requires Increasing(hs) && i < |Runs(hs)|
    ensures Last(Runs(hs)[i]) + 1 !in hs
  {
    var rs := Runs(hs);
    var y := Last(rs[i]) + 1;
    assert y !in hs by {
    RunsPartition(hs);
    ShapedRunEndAbsent(Runs(hs), i);
    }
  }

  lemma ShapedRunEndAbsent(rs: seq<seq<nat>>, i: nat)
    requires Shaped(rs) && Increasing(Flatten(rs)) && i < |rs|
    ensures Last(rs[i]) + 1 !in Flatten(rs)
  {
    ShapedSeparated(rs);
    RunEndAbsent(rs, i);
  }

  /** Re-grouping the hours of the runs gives the same runs. */
  lemma {:induction false} RunsIdempotent(hs: seq<nat>)
    ensures Runs(Flatten(Runs(hs))) == Runs(hs)
  {
    RunsPartition(hs);
  }

  /** The first hour of every run, in run order. */
  function Starts(rs: seq<seq<nat>>): (ss: seq<nat>)
    requires forall i :: 0 <= i < |rs| ==> |rs[i]| > 0
    ensures |ss| == |rs|
  {
    seq(|rs|, i requires 0 <= i < |rs| => rs[i][0])
  }

  /** One iteration of the grouping loop: with `ranges + [current]` the runs
      of the first `i` hours, hour `i` either extends `current` or closes it
      and opens a new run. */
  lemma RunsStep(hours: seq<nat>, i: nat, ranges: seq<seq<nat>>, current: seq<nat>)
    requires 1 <= i < |hours|
    requires ranges + [current] == Runs(hours[..i])
    ensures hours[i] == hours[i - 1] + 1 ==> ranges + [current + [hours[i]]] == Runs(hours[..i + 1])
    ensures hours[i] != hours[i - 1] + 1 ==> (ranges + [current]) + [[hours[i]]] == Runs(hours[..i + 1])
  {
    var rs := ranges + [current];
    assert hours[..i + 1] == hours[..i] + [hours[i]];
    assert Last(hours[..i]) == hours[i - 1];
    RunsSnoc(hours[..i], hours[i]);
    assert rs[..|rs| - 1] == ranges && rs[|rs| - 1] == current;
  }

  /** `group_sequential_hours`: the Python loop over `selected_hours[1:]`. */
  method GroupSequentialHours(hours: seq<nat>) returns (ranges: seq<seq<nat>>)
    requires |hours| > 0
    ensures ranges == Runs(hours)
    ensures Flatten(ranges) == hours
  {
    ranges := [];
    var current := [hours[0]];
    var i := 1;
    assert hours[..1] == [hours[0]];
    while i < |hours|
      invariant 1 <= i <= |hours|
      invariant ranges + [current] == Runs(hours[..i])
    {
      RunsStep(hours, i, ranges, current);
      if hours[i] == hours[i - 1] + 1 {
        current := current + [hours[i]];
      } else {
        ranges := ranges + [current];
        current := [hours[i]];
      }
      i := i + 1;
    }
    ranges := ranges + [current];
    assert hours[..|hours|] == hours;
    RunsPartition(hours);
  }
}
