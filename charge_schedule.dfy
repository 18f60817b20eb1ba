/** `schedule_sequential_charging` of the two night-charging scripts. The
    selected hours are split into runs; runs of more than one hour
    (`sequential_ranges`) get a start at their first hour and a stop one hour
    after their last, and one-hour runs (`non_sequential_hours`) get a start at
    the hour and a stop one hour later. All triggers are for tomorrow.
    smart_night_charging.py also keeps a `scheduled_hours` set and skips a
    trigger whose hour is already in it. */
module ChargeSchedule {
  import opened HourRuns
  import opened Actuator

  /** The runs of more than one hour, in order: `sequential_ranges`. */
  function Ranges(rs: seq<seq<nat>>): (ms: seq<seq<nat>>)
    ensures forall i :: 0 <= i < |ms| ==> |ms[i]| > 1
  {
    if rs == [] then []
    else Ranges(rs[..|rs| - 1]) + (if |rs[|rs| - 1]| > 1 then [rs[|rs| - 1]] else [])
  }

  /** The hours of the one-hour runs, in order: `non_sequential_hours`. */
  function Lone(rs: seq<seq<nat>>): seq<nat>
  {
    if rs == [] then []
    else
      var r := rs[|rs| - 1];
      Lone(rs[..|rs| - 1]) + (if |r| == 1 then [r[0]] else [])
  }

  /** `sequential_ranges` holds runs of the list, each longer than one hour. */
  lemma {:induction false} RangesMembers(rs: seq<seq<nat>>)
    ensures forall r :: r in Ranges(rs) ==> r in rs && |r| > 1
  {
    if rs != [] {
      RangesMembers(rs[..|rs| - 1]);
    }
  }

  /** `non_sequential_hours` holds the hours of one-hour runs of the list. */
  lemma {:induction false} LoneMembers(rs: seq<seq<nat>>)
    ensures forall h :: h in Lone(rs) ==> [h] in rs
  {
    if rs != [] {
      var r := rs[|rs| - 1];
      LoneMembers(rs[..|rs| - 1]);
      if |r| == 1 {
        assert r == [r[0]];
      }
    }
  }

  /** Start at the first hour and stop one hour after the last, for each run. */
  function RangeTriggers(ms: seq<seq<nat>>): (ts: seq<Trigger>)
    requires forall i :: 0 <= i < |ms| ==> |ms[i]| > 0
    ensures |ts| == 2 * |ms|
  {
    if ms == [] then []
    else
      var r := ms[|ms| - 1];
      RangeTriggers(ms[..|ms| - 1]) + [Trigger(Tomorrow, r[0], Begin), Trigger(Tomorrow, Last(r) + 1, End)]
  }

  /** Start at the hour and stop one hour later, for each isolated hour. */
  function LoneTriggers(ss: seq<nat>): (ts: seq<Trigger>)
    ensures |ts| == 2 * |ss|
  {
    if ss == [] then []
    else
      var h := ss[|ss| - 1];
      LoneTriggers(ss[..|ss| - 1]) + [Trigger(Tomorrow, h, Begin), Trigger(Tomorrow, h + 1, End)]
  }

  /** Every trigger either script means to register for `hours`: the
      longer runs first, then the isolated hours. */
  function PlannedCharging(hours: seq<nat>): seq<Trigger>
  {
    var rs := Runs(hours);
    RangeTriggers(Ranges(rs)) + LoneTriggers(Lone(rs))
  }

  // ----- The guarded scheduler of smart_night_charging.py -----

  /** The triggers registered so far and the `scheduled_hours` set. */
  datatype Pass = Pass(triggers: seq<Trigger>, scheduled: set<nat>)

  /** The loop over `sequential_ranges`: the start and the stop of a run are
      each skipped when their hour was scheduled before. */
  function GuardRanges(ms: seq<seq<nat>>, p: Pass): Pass
    requires forall i :: 0 <= i < |ms| ==> |ms[i]| > 0
  {
    if ms == [] then p
    else
      var r := ms[|ms| - 1];
      var q := GuardRanges(ms[..|ms| - 1], p);
      var s := r[0];
      var e := Last(r) + 1;
      var q1 := if s in q.scheduled then q else Pass(q.triggers + [Trigger(Tomorrow, s, Begin)], q.scheduled + {s});
      if e in q1.scheduled then q1 else Pass(q1.triggers + [Trigger(Tomorrow, e, End)], q1.scheduled + {e})
  }

  /** The loop over `non_sequential_hours`: an hour already scheduled is
      skipped together with its stop. */
  function GuardLone(ss: seq<nat>, p: Pass): Pass
  {
    if ss == [] then p
    else
      var h := ss[|ss| - 1];
      var q := GuardLone(ss[..|ss| - 1], p);
      if h in q.scheduled then q
      else Pass(q.triggers + [Trigger(Tomorrow, h, Begin), Trigger(Tomorrow, h + 1, End)], q.scheduled + {h, h + 1})
  }

  /** What the guarded scheduler registers for `hours`. */
  function GuardedCharging(hours: seq<nat>): seq<Trigger>
  {
    var rs := Runs(hours);
    GuardLone(Lone(rs), GuardRanges(Ranges(rs), Pass([], {}))).triggers
  }

  // ----- The splitting loop -----

  lemma RangesSnoc(rs: seq<seq<nat>>, r: seq<nat>)
    requires |r| > 0
    ensures Ranges(rs + [r]) == Ranges(rs) + (if |r| > 1 then [r] else [])
    ensures Lone(rs + [r]) == Lone(rs) + (if |r| > 1 then [] else [r[0]])
  {
    assert (rs + [r])[..|rs + [r]| - 1] == rs;
  }

  /** A finished run goes to `sequential_ranges` when it is longer than one
      hour, and its hour to `non_sequential_hours` otherwise. */
  method FileRun(ranges: seq<seq<nat>>, singles: seq<nat>, run: seq<nat>)
    returns (ranges': seq<seq<nat>>, singles': seq<nat>)
    requires |run| > 0
    ensures ranges' == ranges + (if |run| > 1 then [run] else [])
    ensures singles' == singles + (if |run| > 1 then [] else [run[0]])
  {
    if |run| > 1 {
      ranges', singles' := ranges + [run], singles;
    } else {
      ranges', singles' := ranges, singles + [run[0]];
    }
  }

  /** The splitting loop of `schedule_sequential_charging`: one pass over the
      hours that files every finished run under `sequential_ranges` or
      `non_sequential_hours`. */
  method SplitRuns(hours: seq<nat>) returns (ranges: seq<seq<nat>>, singles: seq<nat>)
    requires |hours| > 0
    ensures ranges == Ranges(Runs(hours))
    ensures singles == Lone(Runs(hours))
  {
    ranges := [];
    singles := [];
    ghost var done: seq<seq<nat>> := [];
    var temp := [hours[0]];
    var i := 1;
    assert hours[..1] == [hours[0]];
    while i < |hours|
      invariant 1 <= i <= |hours|
      invariant done + [temp] == Runs(hours[..i])
      invariant ranges == Ranges(done) && singles == Lone(done)
    {
      if hours[i] == hours[i - 1] + 1 {
        assert done + [temp + [hours[i]]] == Runs(hours[..i + 1]) by {
          RunsStep(hours, i, done, temp);
        }
        temp := temp + [hours[i]];
      } else {
        assert (done + [temp]) + [[hours[i]]] == Runs(hours[..i + 1]) by {
          RunsStep(hours, i, done, temp);
        }
        RangesSnoc(done, temp);
        ranges, singles := FileRun(ranges, singles, temp);
        done := done + [temp];
        temp := [hours[i]];
      }
      i := i + 1;
    }
    RangesSnoc(done, temp);
    ranges, singles := FileRun(ranges, singles, temp);
    assert hours[..|hours|] == hours;
  }

  // ----- The guard never drops a trigger -----

  /** The start and stop hours of a list of runs. */
  function RunBounds(ms: seq<seq<nat>>): (b: set<nat>)
    requires forall i :: 0 <= i < |ms| ==> |ms[i]| > 0
    ensures forall i :: 0 <= i < |ms| ==> ms[i][0] in b && Last(ms[i]) + 1 in b
  {
    if ms == [] then {}
    else
      var r := ms[|ms| - 1];
      RunBounds(ms[..|ms| - 1]) + {r[0], Last(r) + 1}
  }

  /** The start and stop hours of a list of isolated hours. */
  function LoneBounds(ss: seq<nat>): (b: set<nat>)
    ensures forall i :: 0 <= i < |ss| ==> ss[i] in b && ss[i] + 1 in b
  {
    if ss == [] then {}
    else
      var h := ss[|ss| - 1];
      LoneBounds(ss[..|ss| - 1]) + {h, h + 1}
  }

  /** Runs that start and end below `x` have all their bounds below `x`. */
  lemma {:induction false} BoundsBelow(ms: seq<seq<nat>>, x: nat)
    requires forall i :: 0 <= i < |ms| ==> |ms[i]| > 0 && ms[i][0] < x && Last(ms[i]) + 1 < x
    ensures forall y :: y in RunBounds(ms) ==> y < x
  {
    if ms != [] {
      BoundsBelow(ms[..|ms| - 1], x);
    }
  }

  /** An hour that is no start and no stop of any run is not a bound. */
  lemma {:induction false} BoundsAvoid(ms: seq<seq<nat>>, h: nat)
    requires forall i :: 0 <= i < |ms| ==> |ms[i]| > 0 && h != ms[i][0] && h != Last(ms[i]) + 1
    ensures h !in RunBounds(ms)
  {
    if ms != [] {
      BoundsAvoid(ms[..|ms| - 1], h);
    }
  }

  lemma {:induction false} LoneBoundsBelow(ss: seq<nat>, x: nat)
    requires forall i :: 0 <= i < |ss| ==> ss[i] + 1 < x
    ensures forall y :: y in LoneBounds(ss) ==> y < x
  {
    if ss != [] {
      LoneBoundsBelow(ss[..|ss| - 1], x);
    }
  }

  /** With the runs well separated and none of their bounds scheduled yet,
      the guarded loop registers every start and every stop. */
  lemma {:induction false} GuardRangesNoDrop(ms: seq<seq<nat>>, p: Pass)
    requires WellSeparated(ms)
    requires forall i :: 0 <= i < |ms| ==> ms[i][0] !in p.scheduled && Last(ms[i]) + 1 !in p.scheduled
    ensures GuardRanges(ms, p).triggers == p.triggers + RangeTriggers(ms)
    ensures GuardRanges(ms, p).scheduled == p.scheduled + RunBounds(ms)
  {
    if ms != [] {
      var init := ms[..|ms| - 1];
      var r := ms[|ms| - 1];
      WellSeparatedPrefix(ms);
      GuardRangesNoDrop(init, p);
      forall i | 0 <= i < |init| ensures init[i][0] < r[0] && Last(init[i]) + 1 < r[0] {
        assert Apart(ms[i], ms[|ms| - 1]);
        ConsecutiveSpan(init[i]);
      }
      BoundsBelow(init, r[0]);
      ConsecutiveSpan(r);
      var q := GuardRanges(init, p);
      assert r[0] !in q.scheduled;
      assert Last(r) + 1 !in q.scheduled + {r[0]};
    }
  }

  /** Isolated hours at least two apart, none scheduled yet, are all registered. */
  lemma {:induction false} GuardLoneNoDrop(ss: seq<nat>, p: Pass)
    requires forall i, j :: 0 <= i < j < |ss| ==> ss[i] + 1 < ss[j]
    requires forall i :: 0 <= i < |ss| ==> ss[i] !in p.scheduled
    ensures GuardLone(ss, p).triggers == p.triggers + LoneTriggers(ss)
    ensures GuardLone(ss, p).scheduled == p.scheduled + LoneBounds(ss)
  {
    if ss != [] {
      var init := ss[..|ss| - 1];
      var h := ss[|ss| - 1];
      GuardLoneNoDrop(init, p);
      forall i | 0 <= i < |init| ensures init[i] + 1 < h {
        assert ss[i] + 1 < ss[|ss| - 1];
      }
      LoneBoundsBelow(init, h);
      assert h !in GuardLone(init, p).scheduled;
    }
  }

  /** Two different runs of a well-separated list lie apart, one way or the other. */
  lemma SeparatedMembers(rs: seq<seq<nat>>, q: seq<nat>, r: seq<nat>)
    requires WellSeparated(rs) && q in rs && r in rs && q != r
    ensures |q| > 0 && |r| > 0 && Consecutive(q) && Consecutive(r)
    ensures Apart(q, r) || Apart(r, q)
  {
    var i :| 0 <= i < |rs| && rs[i] == q;
    var j :| 0 <= j < |rs| && rs[j] == r;
    assert i != j;
  }

  /** The longer runs of a well-separated list are well separated. */
  lemma {:induction false} RangesSeparated(rs: seq<seq<nat>>)
    requires WellSeparated(rs)
    ensures WellSeparated(Ranges(rs))
  {
    if rs != [] {
      var init := rs[..|rs| - 1];
      var r := rs[|rs| - 1];
      WellSeparatedPrefix(rs);
      RangesSeparated(init);
      RangesMembers(init);
      var ms := Ranges(init);
      if |r| > 1 {
        forall i | 0 <= i < |ms| ensures Last(ms[i]) + 1 < r[0] {
          assert ms[i] in init;
          var k :| 0 <= k < |init| && init[k] == ms[i];
          assert Apart(rs[k], rs[|rs| - 1]);
        }
        AppendSeparated(ms, r);
      }
    }
  }

  /** The isolated hours of a well-separated list are at least two apart. */
  lemma {:induction false} LoneSpread(rs: seq<seq<nat>>)
    requires WellSeparated(rs)
    ensures forall i, j :: 0 <= i < j < |Lone(rs)| ==> Lone(rs)[i] + 1 < Lone(rs)[j]
  {
    if rs != [] {
      var init := rs[..|rs| - 1];
      var r := rs[|rs| - 1];
      WellSeparatedPrefix(rs);
      LoneSpread(init);
      LoneMembers(init);
      var ss := Lone(init);
      var all := Lone(rs);
      assert all == ss + (if |r| > 1 then [] else [r[0]]);
      forall i, j | 0 <= i < j < |all| ensures all[i] + 1 < all[j] {
        if j == |ss| {
          assert [ss[i]] in init;
          var k :| 0 <= k < |init| && init[k] == [ss[i]];
          assert Apart(rs[k], rs[|rs| - 1]);
        } else {
          assert all[i] == ss[i] && all[j] == ss[j];
        }
      }
    }
  }

  /** No isolated hour is the start or the stop hour of a longer run. */
  lemma LoneOutsideRanges(rs: seq<seq<nat>>)
    requires WellSeparated(rs)
    ensures forall h :: h in Lone(rs) ==> h !in RunBounds(Ranges(rs))
  {
    var ms := Ranges(rs);
    RangesMembers(rs);
    LoneMembers(rs);
    forall h | h in Lone(rs) ensures h !in RunBounds(ms) {
      forall i | 0 <= i < |ms| ensures h != ms[i][0] && h != Last(ms[i]) + 1 {
        assert ms[i] in ms;
        SeparatedMembers(rs, [h], ms[i]);
        ConsecutiveSpan(ms[i]);
      }
      BoundsAvoid(ms, h);
    }
  }

  /** The guard on the runs themselves: nothing is dropped for well-separated runs. */
  lemma GuardKeepsRuns(rs: seq<seq<nat>>)
    requires WellSeparated(rs)
    ensures GuardLone(Lone(rs), GuardRanges(Ranges(rs), Pass([], {}))).triggers
      == RangeTriggers(Ranges(rs)) + LoneTriggers(Lone(rs))
  {
    var ms := Ranges(rs);
    var ss := Lone(rs);
    var p := GuardRanges(ms, Pass([], {}));
    assert p.triggers == RangeTriggers(ms) && p.scheduled == RunBounds(ms) by {
      RangesSeparated(rs);
      GuardRangesNoDrop(ms, Pass([], {}));
      assert [] + RangeTriggers(ms) == RangeTriggers(ms);
      assert {} + RunBounds(ms) == RunBounds(ms);
    }
    assert forall i :: 0 <= i < |ss| ==> ss[i] !in p.scheduled by {
      LoneOutsideRanges(rs);
      forall i | 0 <= i < |ss| ensures ss[i] !in p.scheduled {
        assert ss[i] in Lone(rs);
      }
    }
    assert forall i, j :: 0 <= i < j < |ss| ==> ss[i] + 1 < ss[j] by {
      LoneSpread(rs);
    }
    GuardLoneNoDrop(ss, p);
  }

  /** The `scheduled_hours` set never suppresses a trigger: for ascending
      hours the guarded scheduler registers exactly the planned triggers. */
  lemma GuardNeverDrops(hours: seq<nat>)
    requires Increasing(hours)
    ensures GuardedCharging(hours) == PlannedCharging(hours)
  {
    RunsSeparated(hours);
    GuardKeepsRuns(Runs(hours));
  }

  // ----- What the plan holds -----

  /** A trigger for tomorrow whose start is at a listed hour and whose stop
      is at an unlisted one. */
  predicate Fits(t: Trigger, hours: seq<nat>)
  {
    t.day == Tomorrow && (t.action == Begin ==> t.hour in hours) && (t.action == End ==> t.hour !in hours)
  }

  /** Runs that start at a listed hour and stop at an unlisted one. */
  predicate Bounded(rs: seq<seq<nat>>, hours: seq<nat>)
  {
    forall i :: 0 <= i < |rs| ==> |rs[i]| > 0 && rs[i][0] in hours && Last(rs[i]) + 1 !in hours
  }

  lemma RangeTriggersSnoc(ms: seq<seq<nat>>, r: seq<nat>)
    requires forall i :: 0 <= i < |ms| ==> |ms[i]| > 0
    requires |r| > 0
    ensures RangeTriggers(ms + [r]) == RangeTriggers(ms) + [Trigger(Tomorrow, r[0], Begin), Trigger(Tomorrow, Last(r) + 1, End)]
  {
    assert (ms + [r])[..|ms|] == ms;
  }

  lemma LoneTriggersSnoc(ss: seq<nat>, h: nat)
    ensures LoneTriggers(ss + [h]) == LoneTriggers(ss) + [Trigger(Tomorrow, h, Begin), Trigger(Tomorrow, h + 1, End)]
  {
    assert (ss + [h])[..|ss|] == ss;
  }

  /** A run longer than one hour adds its two triggers to the longer-run triggers. */
  lemma PlanSnocRange(rs: seq<seq<nat>>, r: seq<nat>)
    requires |r| > 1
    ensures RangeTriggers(Ranges(rs + [r])) == RangeTriggers(Ranges(rs)) + [Trigger(Tomorrow, r[0], Begin), Trigger(Tomorrow, Last(r) + 1, End)]
    ensures Lone(rs + [r]) == Lone(rs)
  {
    RangesSnoc(rs, r);
    RangeTriggersSnoc(Ranges(rs), r);
  }

  /** A one-hour run adds its two triggers to the isolated-hour triggers. */
  lemma PlanSnocLone(rs: seq<seq<nat>>, r: seq<nat>)
    requires |r| == 1
    ensures Ranges(rs + [r]) == Ranges(rs)
    ensures LoneTriggers(Lone(rs + [r])) == LoneTriggers(Lone(rs)) + [Trigger(Tomorrow, r[0], Begin), Trigger(Tomorrow, Last(r) + 1, End)]
  {
    RangesSnoc(rs, r);
    LoneTriggersSnoc(Lone(rs), r[0]);
  }

  /** Every planned trigger of bounded runs fits, and every run start is planned. */
  lemma {:induction false} PlannedRuns(rs: seq<seq<nat>>, hours: seq<nat>)
    requires Bounded(rs, hours)
    ensures forall t :: t in RangeTriggers(Ranges(rs)) + LoneTriggers(Lone(rs)) ==> Fits(t, hours)
    ensures forall i :: 0 <= i < |rs| ==> Trigger(Tomorrow, rs[i][0], Begin) in RangeTriggers(Ranges(rs)) + LoneTriggers(Lone(rs))
  {
    if rs != [] {
      var init := rs[..|rs| - 1];
      var r := rs[|rs| - 1];
      assert rs == init + [r];
      assert Bounded(init, hours);
      PlannedRuns(init, hours);
      var a := RangeTriggers(Ranges(init));
      var b := LoneTriggers(Lone(init));
      var pair := [Trigger(Tomorrow, r[0], Begin), Trigger(Tomorrow, Last(r) + 1, End)];
      assert Fits(pair[0], hours) && Fits(pair[1], hours);
      if |r| > 1 {
        PlanSnocRange(init, r);
        PlanExtended(init, r, a + pair + b, a, b, pair, hours);
      } else {
        PlanSnocLone(init, r);
        PlanExtended(init, r, a + b + pair, a, b, pair, hours);
      }
    }
  }

  /** The induction step of `PlannedRuns`, with the new pair of triggers
      placed anywhere around the old ones. */
  lemma PlanExtended(init: seq<seq<nat>>, r: seq<nat>, all: seq<Trigger>, a: seq<Trigger>, b: seq<Trigger>,
                     pair: seq<Trigger>, hours: seq<nat>)
    requires Bounded(init, hours)
    requires |r| > 0 && |pair| == 2 && pair[0] == Trigger(Tomorrow, r[0], Begin)
    requires Fits(pair[0], hours) && Fits(pair[1], hours)
    requires all == a + pair + b || all == a + b + pair
    requires forall t :: t in a + b ==> Fits(t, hours)
    requires forall i :: 0 <= i < |init| ==> Trigger(Tomorrow, init[i][0], Begin) in a + b
    ensures forall t :: t in all ==> Fits(t, hours)
    ensures forall i :: 0 <= i < |init + [r]| ==> Trigger(Tomorrow, (init + [r])[i][0], Begin) in all
  {
    forall t | t in all ensures Fits(t, hours) {
      if t !in pair {
        assert t in a || t in b;
      }
    }
    var rs := init + [r];
    forall i | 0 <= i < |rs| ensures Trigger(Tomorrow, rs[i][0], Begin) in all {
      if i < |init| {
        assert rs[i] == init[i];
        var t := Trigger(Tomorrow, init[i][0], Begin);
        assert t in a || t in b;
      } else {
        assert pair[0] in pair;
      }
    }
  }

  /** Every run is either a longer run or an isolated hour. */
  lemma {:induction false} RunsClassified(rs: seq<seq<nat>>)
    requires forall i :: 0 <= i < |rs| ==> |rs[i]| > 0
    ensures |Ranges(rs)| + |Lone(rs)| == |rs|
  {
    if rs != [] {
      RunsClassified(rs[..|rs| - 1]);
      RangesSnoc(rs[..|rs| - 1], rs[|rs| - 1]);
      assert rs == rs[..|rs| - 1] + [rs[|rs| - 1]];
    }
  }

  /** Each run of an ascending list starts at a listed hour and stops at an unlisted one. */
  lemma RunBoundsListed(hours: seq<nat>)
    requires Increasing(hours)
    ensures Bounded(Runs(hours), hours)
  {
    var rs := Runs(hours);
    forall i | 0 <= i < |rs| ensures |rs[i]| > 0 && rs[i][0] in hours && Last(rs[i]) + 1 !in hours {
      assert rs[i][0] in hours by {
        RunHoursFromList(hours, i, 0);
      }
      assert Last(rs[i]) + 1 !in hours by {
        RunEndNotListed(hours, i);
      }
    }
  }

  /** The plan for an ascending list: two triggers per run, all for tomorrow;
      a start at the first hour of every run; every start at a selected hour
      and every stop at an hour that is not selected. */
  lemma PlannedChargingSpec(hours: seq<nat>)
    requires Increasing(hours)
    ensures |PlannedCharging(hours)| == 2 * |Runs(hours)|
    ensures forall t :: t in PlannedCharging(hours) ==>
      t.day == Tomorrow && (t.action == Begin ==> t.hour in hours) && (t.action == End ==> t.hour !in hours)
    ensures forall i :: 0 <= i < |Runs(hours)| ==> Trigger(Tomorrow, Runs(hours)[i][0], Begin) in PlannedCharging(hours)
  {
    RunsClassified(Runs(hours));
    RunBoundsListed(hours);
    PlannedRuns(Runs(hours), hours);
  }
}
