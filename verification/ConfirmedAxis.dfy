/** One axis of the docking controller: motion starts only after repeated agreement, and stops at once. */
module ConfirmedAxis {
  import opened Basics

  /** `dockingStopTolerance`: the whole hysteresis band lies inside the completion tolerance. */
  function StopTolerance(tolerance: real, hysteresis: real): (stop: real)
    ensures tolerance > 0.0 && hysteresis >= 0.0 ==> 0.0 < stop <= tolerance
  {
    Max(tolerance - hysteresis, tolerance * 0.5)
  }

  datatype Thresholds = Thresholds(tolerance: real, hysteresis: real, confirmations: nat) {
    predicate Valid() {
      tolerance > 0.0 && hysteresis >= 0.0 && confirmations >= 1
    }

    function Stop(): real {
      StopTolerance(tolerance, hysteresis)
    }
  }

  /** A direction is -1, 0 or 1. */
  type Direction = d: int | -1 <= d <= 1

  datatype AxisState = AxisState(active: Direction, pending: Direction, count: nat)

  const IDLE := AxisState(0, 0, 0)

  /** The direction an error asks for. */
  function Requested(error: real, t: Thresholds): Direction {
    if Abs(error) <= t.Stop() then 0 else if error > 0.0 then 1 else -1
  }

  function Step(s: AxisState, error: real, t: Thresholds): AxisState {
    var requested := Requested(error, t);
    if requested == 0 then IDLE
    else if requested == s.active then s
    else if Abs(error) <= t.tolerance then IDLE
    else
      var count := if requested == s.pending then s.count + 1 else 1;
      AxisState(if count >= t.confirmations then requested else 0, requested, count)
  }

  /** `ConfirmedAxis`, updated in place. */
  class Axis {
    var active: Direction
    var pending: Direction
    var count: nat

    constructor ()
      ensures State() == IDLE
    {
      active, pending, count := 0, 0, 0;
    }

    ghost function State(): AxisState
      reads this
    {
      AxisState(active, pending, count)
    }

    method Update(error: real, t: Thresholds) returns (direction: Direction)
      modifies this
      ensures State() == Step(old(State()), error, t)
      ensures direction == active
    {
      var magnitude := Abs(error);
      var requested: Direction :=
        if magnitude <= StopTolerance(t.tolerance, t.hysteresis) then 0 else if error > 0.0 then 1 else -1;
      if requested == 0 {
        active, pending, count := 0, 0, 0;
      } else if requested != active {
        // Stop before reversing.
        active := 0;
        if magnitude <= t.tolerance {
          pending, count := 0, 0;
        } else {
          count := if requested == pending then count + 1 else 1;
          pending := requested;
          if count >= t.confirmations {
            active := requested;
          }
        }
      }
      direction := active;
    }
  }

  // ---------- What the axis remembers of its history ----------

  function Run(errors: seq<real>, t: Thresholds): AxisState {
    if errors == [] then IDLE
    else Step(Run(errors[..|errors| - 1], t), errors[|errors| - 1], t)
  }

  function Along(d: Direction, error: real): real {
    if d == 1 then error else if d == -1 then -error else 0.0
  }

  /** Errors `from .. to` all ask for more than `bound` in direction `d`. */
  ghost predicate Beyond(errors: seq<real>, from: nat, to: nat, d: Direction, bound: real)
    requires from <= to <= |errors|
  {
    forall i | from <= i < to :: Along(d, errors[i]) > bound
  }

  /** Motion in direction `d` was confirmed at `k` and not given up since. */
  ghost predicate ConfirmedAt(errors: seq<real>, k: nat, d: Direction, t: Thresholds) {
    && k + t.confirmations <= |errors|
    && Beyond(errors, k, k + t.confirmations, d, t.tolerance)
    && Beyond(errors, k + t.confirmations, |errors|, d, t.Stop())
  }

  /** The history says to move in direction `d`. */
  ghost predicate Confirmed(errors: seq<real>, d: Direction, t: Thresholds) {
    exists k: nat :: ConfirmedAt(errors, k, d, t)
  }

  /** How many of the latest errors in a row ask for motion in direction `d`. */
  function Streak(errors: seq<real>, d: Direction, t: Thresholds): (n: nat)
    ensures n <= |errors| && Beyond(errors, |errors| - n, |errors|, d, t.tolerance)
  {
    if errors == [] || Along(d, errors[|errors| - 1]) <= t.tolerance then 0
    else Streak(errors[..|errors| - 1], d, t) + 1
  }

  lemma {:induction false} StreakIsLongest(errors: seq<real>, d: Direction, t: Thresholds, k: nat)
    requires k <= |errors| && Beyond(errors, k, |errors|, d, t.tolerance)
    ensures Streak(errors, d, t) >= |errors| - k
  {
    if k < |errors| {
      var before := errors[..|errors| - 1];
      assert Along(d, errors[|errors| - 1]) > t.tolerance;
      assert forall i | k <= i < |before| :: before[i] == errors[i];
      StreakIsLongest(before, d, t, k);
    }
  }

  /** Confirmation after one more error: either it was confirmed and this error keeps it, or this error completes
      the run that confirms it. */
  lemma ConfirmedStep(before: seq<real>, e: real, d: Direction, t: Thresholds)
    requires t.Valid() && d != 0
    ensures Confirmed(before + [e], d, t)
            <==> (Confirmed(before, d, t) && Along(d, e) > t.Stop())
                 || Streak(before + [e], d, t) >= t.confirmations
  {
    var errors := before + [e];
    if Confirmed(errors, d, t) {
      var k: nat :| ConfirmedAt(errors, k, d, t);
      if k + t.confirmations == |errors| {
        StreakIsLongest(errors, d, t, k);
      } else {
        assert forall i | 0 <= i < |before| :: before[i] == errors[i];
        assert ConfirmedAt(before, k, d, t);
        assert errors[|before|] == e;
      }
    }
    if Confirmed(before, d, t) && Along(d, e) > t.Stop() {
      var k: nat :| ConfirmedAt(before, k, d, t);
      assert ConfirmedAt(errors, k, d, t);
    }
    if Streak(errors, d, t) >= t.confirmations {
      assert ConfirmedAt(errors, |errors| - Streak(errors, d, t), d, t) by {
        var k := |errors| - Streak(errors, d, t);
        assert Beyond(errors, k, |errors|, d, t.tolerance);
      }
    }
  }

  /** What the three fields mean: the confirmed direction, and otherwise the length of the run being counted. */
  ghost predicate Remembers(s: AxisState, errors: seq<real>, t: Thresholds) {
    && (s.active == 1 <==> Confirmed(errors, 1, t))
    && (s.active == -1 <==> Confirmed(errors, -1, t))
    && (if s.active == 0 then
          && (s.pending == 0 <==> s.count == 0)
          && s.count < t.confirmations
          && Streak(errors, 1, t) == (if s.pending == 1 then s.count else 0)
          && Streak(errors, -1, t) == (if s.pending == -1 then s.count else 0)
        else
          && s.pending == s.active
          && s.count >= t.confirmations
          && errors != []
          && Along(s.active, errors[|errors| - 1]) > t.Stop())
  }

  lemma {:induction false} RunRemembers(errors: seq<real>, t: Thresholds)
    requires t.Valid()
    ensures Remembers(Run(errors, t), errors, t)
  {
    if errors == [] {
      assert !Confirmed(errors, 1, t) && !Confirmed(errors, -1, t);
    } else {
      var before, e := errors[..|errors| - 1], errors[|errors| - 1];
      assert errors == before + [e];
      RunRemembers(before, t);
      hide Remembers, Step;
      RemembersStep(Run(before, t), before, e, t);
    }
  }

  lemma StreakStep(before: seq<real>, e: real, d: Direction, t: Thresholds)
    ensures Streak(before + [e], d, t) == if Along(d, e) > t.tolerance then Streak(before, d, t) + 1 else 0
    ensures t.Valid() && Streak(before, d, t) > 0 ==> Along(d, before[|before| - 1]) > t.tolerance
  {
    assert (before + [e])[..|before|] == before;
  }

  lemma RemembersStep(s: AxisState, before: seq<real>, e: real, t: Thresholds)
    requires t.Valid() && Remembers(s, before, t)
    ensures Remembers(Step(s, e, t), before + [e], t)
  {
    ConfirmedStep(before, e, 1, t);
    ConfirmedStep(before, e, -1, t);
    StreakStep(before, e, 1, t);
    StreakStep(before, e, -1, t);
    hide Confirmed, Streak;
  }

  /** The axis moves in direction `d` exactly when its history ends in the required number of errors beyond the
      tolerance followed only by errors beyond the stop tolerance. */
  lemma ActiveIffConfirmed(errors: seq<real>, t: Thresholds, d: Direction)
    requires t.Valid() && d != 0
    ensures Run(errors, t).active == d <==> Confirmed(errors, d, t)
  {
    RunRemembers(errors, t);
  }

  /** From motion one way the next update moves the other way exactly when a single error is confirmation enough. */
  lemma ReversalIffSingleConfirmation(errors: seq<real>, e: real, t: Thresholds)
    requires t.Valid() && Run(errors, t).active != 0
    ensures Run(errors + [e], t).active == -Run(errors, t).active
            <==> t.confirmations == 1 && Along(-Run(errors, t).active, e) > t.tolerance
  {
    RunRemembers(errors, t);
    assert (errors + [e])[..|errors + [e]| - 1] == errors;
  }

  /** An axis that needs two confirmations always stands still somewhere between opposite motions. */
  lemma {:induction false} StopsBeforeReversing(errors: seq<real>, t: Thresholds, i: nat, j: nat)
    requires t.Valid() && t.confirmations >= 2 && i < j <= |errors|
    requires Run(errors[..i], t).active != 0
    requires Run(errors[..j], t).active == -Run(errors[..i], t).active
    ensures exists m :: i < m < j && Run(errors[..m], t).active == 0
    decreases j
  {
    var before := Run(errors[..j - 1], t).active;
    assert errors[..j] == errors[..j - 1] + [errors[j - 1]];
    if before == -Run(errors[..i], t).active {
      StopsBeforeReversing(errors, t, i, j - 1);
    } else if before != 0 {
      ReversalIffSingleConfirmation(errors[..j - 1], errors[j - 1], t);
    }
  }

  /** With one confirmation a single update turns the axis round. */
  lemma SingleConfirmationReversesAtOnce()
    ensures var t := Thresholds(1.0, 0.5, 1);
            Run([2.0], t).active == 1 && Run([2.0, -2.0], t).active == -1
  {
    var t := Thresholds(1.0, 0.5, 1);
    assert Run([], t) == IDLE;
    assert [2.0][..0] == [] && [2.0, -2.0][..1] == [2.0];
    assert Run([2.0], t) == Step(IDLE, 2.0, t);
    assert Run([2.0, -2.0], t) == Step(Run([2.0], t), -2.0, t);
  }
}
