/** `TagPoseSettling`: when the robot counts as having come to rest at its target. */
module TagSettling {
  import opened Basics
  import opened Trigonometry
  import opened HolonomicFineAlign

  datatype Dwell = Dwell(tr: Trig, duration: real, positionSpread: real, angularSpread: real)

  datatype SettleState = SettleState(active: bool, started: Time, sequence: nat, anchor: PlanarError)

  const RESTLESS := SettleState(false, 0.0, 0, PlanarError(0.0, 0.0, 0.0))

  predicate Near(d: Dwell, anchor: PlanarError, observed: PlanarError) {
    && d.tr.hypot(observed.x - anchor.x, observed.y - anchor.y) <= d.positionSpread
    && Abs(d.tr.WrapAngle(observed.yaw - anchor.yaw)) <= d.angularSpread
  }

  /** One call: whether the robot is stopped at the goal, when, and the latest numbered observation. */
  datatype Look = Look(valid: bool, now: Time, sequence: nat, observed: PlanarError)

  function Begin(look: Look): SettleState {
    SettleState(true, look.now, look.sequence, look.observed)
  }

  function Step(d: Dwell, s: SettleState, look: Look): (SettleState, bool) {
    if !look.valid then (s.(active := false), false)
    else if !s.active then (Begin(look), false)
    else if look.sequence <= s.sequence then (s, false)
    else if !Near(d, s.anchor, look.observed) then (Begin(look), false)
    else (s.(sequence := look.sequence), look.now - s.started >= d.duration)
  }

  class Settling {
    var active: bool
    var started: Time
    var sequence: nat
    var anchor: PlanarError

    constructor ()
      ensures State() == RESTLESS
    {
      active, started, sequence, anchor := false, 0.0, 0, PlanarError(0.0, 0.0, 0.0);
    }

    ghost function State(): SettleState
      reads this
    {
      SettleState(active, started, sequence, anchor)
    }

    method Start(look: Look)
      modifies this
      ensures State() == Begin(look)
    {
      active, started, sequence, anchor := true, look.now, look.sequence, look.observed;
    }

    method Update(d: Dwell, look: Look) returns (settled: bool)
      modifies this
      ensures (State(), settled) == Step(d, old(State()), look)
    {
      if !look.valid {
        active := false;
        return false;
      }
      if !active {
        Start(look);
        return false;
      }
      if look.sequence <= sequence {
        return false;
      }
      sequence := look.sequence;
      if d.tr.hypot(look.observed.x - anchor.x, look.observed.y - anchor.y) > d.positionSpread
         || Abs(d.tr.WrapAngle(look.observed.yaw - anchor.yaw)) > d.angularSpread {
        Start(look);
        return false;
      }
      return look.now - started >= d.duration;
    }
  }

  // ---------- The dwell over a history ----------

  function Run(d: Dwell, h: seq<Look>): SettleState {
    if h == [] then RESTLESS else Step(d, Run(d, h[..|h| - 1]), h[|h| - 1]).0
  }

  /** The answer to the last call of a history. */
  function Answer(d: Dwell, h: seq<Look>): bool
    requires h != []
  {
    Step(d, Run(d, h[..|h| - 1]), h[|h| - 1]).1
  }

  /** The observation at `i` is newer than every one from `j` on before it. */
  ghost predicate Newest(h: seq<Look>, j: nat, i: nat)
    requires i < |h|
  {
    forall k | j <= k < i :: h[k].sequence < h[i].sequence
  }

  /** From `j` on the robot was stopped at the goal, and every new observation lay near the one at `j`. */
  ghost predicate AtRestSince(d: Dwell, h: seq<Look>, j: nat) {
    && j < |h|
    && (forall i | j <= i < |h| :: h[i].valid)
    && (forall i | j < i < |h| && Newest(h, j, i) :: Near(d, h[j].observed, h[i].observed))
  }

  /** A rest that lasted the full duration and ends in a new observation. */
  ghost predicate Settled(d: Dwell, h: seq<Look>, j: nat) {
    && AtRestSince(d, h, j) && j < |h| - 1
    && Newest(h, j, |h| - 1)
    && h[|h| - 1].now - h[j].now >= d.duration
  }

  /** The state's anchor is the start of the rest, and its sequence number the newest seen since. */
  ghost predicate Anchored(d: Dwell, h: seq<Look>, s: SettleState, j: nat) {
    && AtRestSince(d, h, j)
    && s.started == h[j].now && s.anchor == h[j].observed
    && (forall i | j <= i < |h| :: h[i].sequence <= s.sequence)
    && (exists i :: j <= i < |h| && h[i].sequence == s.sequence)
  }

  /** A call is new exactly when its observation is beyond the newest seen. */
  lemma NewestIffBeyond(d: Dwell, h: seq<Look>, s: SettleState, look: Look, j: nat)
    requires Anchored(d, h, s, j)
    ensures look.sequence > s.sequence <==> Newest(h + [look], j, |h|)
  {
    hide AtRestSince;
    var h' := h + [look];
    var i :| j <= i < |h| && h[i].sequence == s.sequence;
    assert h'[i].sequence == s.sequence;
    assert forall k | 0 <= k < |h| :: h'[k] == h[k];
  }

  lemma RestExtends(d: Dwell, h: seq<Look>, look: Look, j: nat)
    requires AtRestSince(d, h, j) && look.valid
    requires Newest(h + [look], j, |h|) ==> Near(d, h[j].observed, look.observed)
    ensures AtRestSince(d, h + [look], j)
  {
    hide Near;
    var h' := h + [look];
    assert forall k | 0 <= k < |h| :: h'[k] == h[k];
    forall i | j < i < |h| ensures Newest(h', j, i) <==> Newest(h, j, i) {
    }
  }

  lemma AnchoredStep(d: Dwell, h: seq<Look>, s: SettleState, look: Look, j: nat)
    requires Anchored(d, h, s, j) && s.active && look.valid
    ensures look.sequence > s.sequence <==> Newest(h + [look], j, |h|)
    ensures var next := Step(d, s, look).0;
            if look.sequence > s.sequence && !Near(d, s.anchor, look.observed) then Anchored(d, h + [look], next, |h|)
            else Anchored(d, h + [look], next, j)
  {
    var h' := h + [look];
    NewestIffBeyond(d, h, s, look, j);
    if look.sequence > s.sequence && !Near(d, s.anchor, look.observed) {
      assert h'[|h|].sequence == look.sequence;
      assert AtRestSince(d, h', |h|);
      hide Near, Newest, AtRestSince;
    } else {
      RestExtends(d, h, look, j);
      hide Near, Newest, AtRestSince;
      var i :| j <= i < |h| && h[i].sequence == s.sequence;
      assert h'[i].sequence == s.sequence && h'[|h|].sequence == look.sequence;
    }
  }

  /** The last call of a history begins a rest: the robot was not at rest before, or a new observation lay too far from
      the one the rest so far began with. */
  ghost predicate Begins(d: Dwell, h: seq<Look>)
    decreases |h|, 1
  {
    && h != [] && h[|h| - 1].valid
    && (|h| == 1 || !h[|h| - 2].valid || exists i: nat :: BreaksOff(d, h, i))
  }

  ghost predicate BreaksOff(d: Dwell, h: seq<Look>, i: nat)
    decreases |h|, 0
  {
    && i < |h| - 1 && BeganAt(d, h[..|h| - 1], i) && AtRestSince(d, h[..|h| - 1], i)
    && Newest(h, i, |h| - 1) && !Near(d, h[i].observed, h[|h| - 1].observed)
  }

  ghost predicate BeganAt(d: Dwell, h: seq<Look>, i: nat)
    decreases |h|, 2
  {
    i < |h| && Begins(d, h[..i + 1])
  }

  lemma BeganBefore(d: Dwell, h: seq<Look>, i: nat)
    requires h != [] && i < |h| - 1
    ensures BeganAt(d, h[..|h| - 1], i) <==> BeganAt(d, h, i)
  {
    assert h[..|h| - 1][..i + 1] == h[..i + 1];
  }

  /** An active state is anchored where its rest began. */
  lemma {:induction false} RunAnchored(d: Dwell, h: seq<Look>)
    ensures var s := Run(d, h); s.active ==> exists j: nat :: Anchored(d, h, s, j) && BeganAt(d, h, j)
    ensures h != [] ==> (Run(d, h).active <==> h[|h| - 1].valid)
  {
    if h != [] {
      var before, look := h[..|h| - 1], h[|h| - 1];
      RunAnchored(d, before);
      assert h == before + [look];
      if look.valid {
        ActiveStep(d, before, look);
      }
    }
  }

  lemma ActiveStep(d: Dwell, before: seq<Look>, look: Look)
    requires look.valid
    requires Run(d, before).active ==> exists j: nat :: Anchored(d, before, Run(d, before), j) && BeganAt(d, before, j)
    requires before != [] ==> (Run(d, before).active <==> before[|before| - 1].valid)
    ensures var s := Run(d, before + [look]);
            s.active && exists j: nat :: Anchored(d, before + [look], s, j) && BeganAt(d, before + [look], j)
  {
    hide Near;
    var h, s := before + [look], Run(d, before);
    assert h[..|h| - 1] == before && h[..|h|] == h;
    var next := Step(d, s, look).0;
    if s.active {
      var j: nat :| Anchored(d, before, s, j) && BeganAt(d, before, j);
      BeganBefore(d, h, j);
      AnchoredStep(d, before, s, look, j);
      assert s.anchor == h[j].observed;
      if look.sequence > s.sequence && !Near(d, s.anchor, look.observed) {
        assert BreaksOff(d, h, j);
        assert BeganAt(d, h, |before|);
      }
    } else {
      assert h[|before|].sequence == look.sequence;
      assert Anchored(d, h, next, |before|);
      assert BeganAt(d, h, |before|);
    }
  }

  /** A robot reported settled was at rest for the full duration, up to an observation newer than the first. */
  lemma SettledIsSound(d: Dwell, h: seq<Look>)
    requires h != [] && Answer(d, h)
    ensures exists j: nat :: Settled(d, h, j) && BeganAt(d, h, j)
  {
    hide Newest, AtRestSince, BeganAt;
    var before, look := h[..|h| - 1], h[|h| - 1];
    RunAnchored(d, before);
    var s := Run(d, before);
    var j: nat :| Anchored(d, before, s, j) && BeganAt(d, before, j);
    assert h == before + [look];
    BeganBefore(d, h, j);
    AnchoredStep(d, before, s, look, j);
    assert Settled(d, h, j);
  }

  /** A rest was one before its last call. */
  lemma RestBefore(d: Dwell, h: seq<Look>, j: nat)
    requires AtRestSince(d, h, j) && j < |h| - 1
    ensures AtRestSince(d, h[..|h| - 1], j) && h[|h| - 1].valid
    ensures Newest(h, j, |h| - 1) ==> Near(d, h[j].observed, h[|h| - 1].observed)
  {
    hide Near;
    var before := h[..|h| - 1];
    assert forall i | 0 <= i < |before| :: before[i] == h[i];
    forall i | j < i < |before| ensures Newest(h, j, i) <==> Newest(before, j, i) {
    }
  }

  lemma RestGoesOn(d: Dwell, h: seq<Look>, s: SettleState, j: nat)
    requires h != [] && AtRestSince(d, h, j) && j < |h| - 1 && s.active && Anchored(d, h[..|h| - 1], s, j)
    ensures var next := Step(d, s, h[|h| - 1]).0; next.active && Anchored(d, h, next, j)
  {
    hide Near, Newest, AtRestSince;
    var before, look := h[..|h| - 1], h[|h| - 1];
    RestBefore(d, h, j);
    assert h == before + [look] && s.anchor == h[j].observed;
    hide Anchored, Step;
    ValidStaysActive(d, s, look);
    AnchoredStep(d, before, s, look, j);
  }

  lemma ValidStaysActive(d: Dwell, s: SettleState, look: Look)
    requires s.active && look.valid
    ensures Step(d, s, look).0.active
  {
  }

  /** A rest counts from the call it began with. */
  lemma {:induction false} RestIsRemembered(d: Dwell, h: seq<Look>, j: nat)
    requires AtRestSince(d, h, j) && BeganAt(d, h, j)
    ensures Run(d, h).active && Anchored(d, h, Run(d, h), j)
    decreases |h|, 1
  {
    hide Near, Newest, Anchored, Step;
    if j == |h| - 1 {
      assert h[..j + 1] == h;
      RestBegins(d, h);
    } else {
      RestBefore(d, h, j);
      BeganBefore(d, h, j);
      hide AtRestSince, BeganAt;
      RestIsRemembered(d, h[..|h| - 1], j);
      RestGoesOn(d, h, Run(d, h[..|h| - 1]), j);
    }
  }

  lemma RestBegins(d: Dwell, h: seq<Look>)
    requires Begins(d, h) && AtRestSince(d, h, |h| - 1)
    ensures Run(d, h).active && Anchored(d, h, Run(d, h), |h| - 1)
    decreases |h|, 0
  {
    hide Near;
    var before, look := h[..|h| - 1], h[|h| - 1];
    RunAnchored(d, before);
    assert h == before + [look];
    assert h[|h| - 1].sequence == look.sequence;
    if before != [] && before[|before| - 1].valid {
      var i: nat :| BreaksOff(d, h, i);
      RestIsRemembered(d, before, i);
      AnchoredStep(d, before, Run(d, before), look, i);
    }
  }

  /** The dwell says settled exactly when a rest that has lasted the full duration ends in a new observation, counted
      from the call the rest began with. */
  lemma SettledIff(d: Dwell, h: seq<Look>)
    requires h != []
    ensures Answer(d, h) <==> exists j: nat :: Settled(d, h, j) && BeganAt(d, h, j)
  {
    if Answer(d, h) { SettledIsSound(d, h); }
    if exists j: nat :: Settled(d, h, j) && BeganAt(d, h, j) {
      var j: nat :| Settled(d, h, j) && BeganAt(d, h, j);
      RestIsReported(d, h, j);
    }
  }

  lemma RestIsReported(d: Dwell, h: seq<Look>, j: nat)
    requires Settled(d, h, j) && BeganAt(d, h, j)
    ensures Answer(d, h)
  {
    var before, look := h[..|h| - 1], h[|h| - 1];
    assert h == before + [look];
    RestBefore(d, h, j);
    BeganBefore(d, h, j);
    hide BeganAt, AtRestSince, Newest;
    RestIsRemembered(d, before, j);
    AnchoredStep(d, before, Run(d, before), look, j);
    assert Run(d, before).anchor == h[j].observed && Run(d, before).started == h[j].now;
    hide Anchored, Near;
  }

  /** A rest that began after an invalid call, or with the first one, is reported at the first new observation after
      the full duration. */
  lemma SettledIsReported(d: Dwell, h: seq<Look>, j: nat)
    requires Settled(d, h, j) && (j == 0 || !h[j - 1].valid)
    ensures Answer(d, h)
  {
    assert h[..j + 1][j] == h[j] && (j > 0 ==> h[..j + 1][j - 1] == h[j - 1]);
    assert BeganAt(d, h, j);
    SettledIff(d, h);
  }

  // ---------- Docking success ----------

  /** One pass of a control loop: the filtered and the raw error, the command sent, and when. */
  datatype Pass = Pass(error: Reading, raw: Reading, command: Velocity, now: Time, sequence: nat, observed: PlanarError)

  predicate StoppedAtGoal(config: Config, p: Pass) {
    AtGoal(p.error, config) && AtGoal(p.raw, config) && p.command == STOPPED
  }

  function Looks(config: Config, passes: seq<Pass>): seq<Look> {
    seq(|passes|, i requires 0 <= i < |passes| =>
      var p := passes[i]; Look(StoppedAtGoal(config, p), p.now, p.sequence, p.observed))
  }

  /** An action that reports success rests on two distinct observations a settling duration apart, with both errors
      inside the goal and a zero command in every pass from the first to the second. */
  lemma SuccessRestsOnTwoObservations(d: Dwell, config: Config, passes: seq<Pass>)
    requires passes != [] && Answer(d, Looks(config, passes))
    ensures exists j: nat :: RestedSince(d, config, passes, j)
  {
    hide Settled, RestedSince, BeganAt, Answer;
    SettledIsSound(d, Looks(config, passes));
    var j: nat :| Settled(d, Looks(config, passes), j);
    RestIsPasses(d, config, passes, j);
  }

  lemma RestIsPasses(d: Dwell, config: Config, passes: seq<Pass>, j: nat)
    requires Settled(d, Looks(config, passes), j)
    ensures RestedSince(d, config, passes, j)
  {
    hide StoppedAtGoal;
    var h := Looks(config, passes);
    forall i | 0 <= i < |passes| ensures h[i].valid == StoppedAtGoal(config, passes[i]) {
    }
    assert Newest(h, j, |h| - 1);
  }

  ghost predicate RestedSince(d: Dwell, config: Config, passes: seq<Pass>, j: nat) {
    && j < |passes| - 1
    && (forall i | j <= i < |passes| :: StoppedAtGoal(config, passes[i]))
    && passes[j].sequence < passes[|passes| - 1].sequence
    && passes[|passes| - 1].now - passes[j].now >= d.duration
    && var from, to := passes[j].observed, passes[|passes| - 1].observed;
       && d.tr.hypot(to.x - from.x, to.y - from.y) <= d.positionSpread
       && -d.angularSpread <= d.tr.WrapAngle(to.yaw - from.yaw) <= d.angularSpread
  }
}
