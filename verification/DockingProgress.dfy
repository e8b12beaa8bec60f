/** A constant error that is not at the goal makes the controller move within one observation more than the number
    of confirmations, exactly when the yaw tolerance lies inside the yaw gate's hysteresis. */
module DockingProgress {
  import opened Basics
  import opened Trigonometry
  import opened ConfirmedAxis
  import opened HolonomicFineAlign
  import opened DockingMotion
  import opened MotionBounds

  ghost predicate Moves(out: Option<Velocity>) {
    out.Some? && (Translating(out.value) || out.value.yaw != 0.0)
  }

  /** One update of a run in which the error never changes. */
  datatype Tick = Tick(dt: real, isNew: bool)

  function Constant(e: PlanarError, tick: Tick): Input {
    Input(AsReading(e), tick.dt, tick.isNew)
  }

  ghost predicate TicksMonotone(p: Setup, ticks: seq<Tick>) {
    forall i | 0 <= i < |ticks| :: TurnLimit(p, ticks[i].dt) >= 0.0
  }

  /** How many of the updates carry a new observation. */
  function Observations(ticks: seq<Tick>): nat {
    if ticks == [] then 0 else (if ticks[0].isNew then 1 else 0) + Observations(ticks[1..])
  }

  /** Some update of the run commands motion. */
  ghost predicate SomeMove(p: Setup, s: MotionState, e: PlanarError, ticks: seq<Tick>)
    requires TicksMonotone(p, ticks)
    decreases |ticks|
  {
    ticks != [] &&
    var (next, out) := Update(p, s, Constant(e, ticks[0]));
    Moves(out) || SomeMove(p, next, e, ticks[1..])
  }

  /** The error is outside the goal, and not behind a robot that may not reverse. */
  ghost predicate Correctable(p: Setup, e: PlanarError) {
    && !AtGoal(AsReading(e), p.config)
    && (p.config.allowReverseX || e.x >= -p.config.xTolerance)
  }

  /** The condition on the configuration: an accepted yaw error also opens the yaw gate. */
  predicate GateCoversTolerance(p: Setup) {
    p.config.yawTolerance < p.config.translationYawStop - p.motion.yawHysteresis
  }

  /** An accepted yaw error inside the gate's hysteresis: nothing turns it away, and it never opens the gate. */
  predicate Blocked(p: Setup, e: PlanarError) {
    p.config.translationYawStop - p.motion.yawHysteresis <= Abs(e.yaw) <= p.config.yawTolerance
  }

  function Sign(x: real): Direction {
    if x > 0.0 then 1 else -1
  }

  function AtLeastOne(n: int): nat {
    if n < 1 then 1 else n
  }

  /** Observations an axis still needs before it moves in direction `d`, at least one. */
  function AxisNeed(s: AxisState, d: Direction, n: nat): nat {
    if s.active == d then 1 else if s.pending == d then AtLeastOne(n - s.count) else AtLeastOne(n)
  }

  lemma AxisAdvances(s: AxisState, e: real, t: Thresholds)
    requires t.Valid() && Abs(e) > t.tolerance
    ensures var d := Sign(e); var n := t.confirmations;
            && AxisNeed(s, d, n) <= n
            && (if AxisNeed(s, d, n) == 1 then Step(s, e, t).active == d
                else AxisNeed(Step(s, e, t), d, n) <= AxisNeed(s, d, n) - 1)
            && AxisNeed(Step(s, e, t), d, n) <= AxisNeed(s, d, n)
  {
  }

  function GateNeed(s: MotionState, n: nat): nat {
    if s.enabled then 1 else AtLeastOne(n - s.confirmations)
  }

  /** The axis that must become active: yaw when yaw is out of tolerance, otherwise one of the two positions. */
  datatype Want = Yaw | Forward | Lateral

  function Wanted(p: Setup, e: PlanarError): Want {
    if Abs(e.yaw) > p.config.yawTolerance then Yaw
    else if Abs(e.x) > p.config.xTolerance then Forward
    else Lateral
  }

  /** Observations before the wanted axis is active and, for a position, the yaw gate open. */
  function StartNeed(p: Setup, s: MotionState, e: PlanarError): nat {
    var n := p.motion.confirmationSamples;
    match Wanted(p, e)
    case Yaw => AxisNeed(s.yaw, Sign(e.yaw), n)
    case Forward => var a, g := AxisNeed(s.x, Sign(e.x), n), GateNeed(s, n); if a < g then g else a
    case Lateral => var a, g := AxisNeed(s.y, Sign(e.y), n), GateNeed(s, n); if a < g then g else a
  }

  /** An upper bound on the observations left before motion, the direction machinery included. */
  function Need(p: Setup, s: MotionState, e: PlanarError): nat {
    var n, start := p.motion.confirmationSamples, StartNeed(p, s, e);
    if Wanted(p, e) == Yaw then start
    else if s.reconfirmations > 0 then
      var wait := AtLeastOne(n - s.reconfirmations + 1); if start < wait then wait else start
    else if s.heading.Some? then n + 1
    else start
  }

  /** The wanted axis is active, and the gate open if a position is wanted. */
  ghost predicate Started(p: Setup, s: MotionState, e: PlanarError) {
    match Wanted(p, e)
    case Yaw => s.yaw.active == Sign(e.yaw)
    case Forward => s.x.active == Sign(e.x) && s.enabled
    case Lateral => s.y.active == Sign(e.y) && s.enabled
  }

  lemma NeedBounded(p: Setup, s: MotionState, e: PlanarError)
    requires p.Valid()
    ensures StartNeed(p, s, e) <= p.motion.confirmationSamples
    ensures Need(p, s, e) <= p.motion.confirmationSamples + 1
  {
  }

  lemma ObservationAdvances(p: Setup, s: MotionState, e: PlanarError)
    requires p.Valid() && Correctable(p, e) && !Blocked(p, e)
    ensures var next := Observe(p, s, e);
            && (if StartNeed(p, s, e) == 1 then Started(p, next, e)
                else StartNeed(p, next, e) <= StartNeed(p, s, e) - 1)
            && StartNeed(p, next, e) <= StartNeed(p, s, e)
            && next.heading == s.heading && next.reconfirmations == s.reconfirmations
  {
    match Wanted(p, e)
    case Yaw => AxisAdvances(s.yaw, e.yaw, p.AxisYaw());
    case Forward => AxisAdvances(s.x, e.x, p.AxisX());
    case Lateral => AxisAdvances(s.y, e.y, p.AxisY());
  }

  /** Once started, the controller asks for motion. */
  lemma StartedDesires(p: Setup, s: MotionState, e: PlanarError)
    requires p.Valid() && Correctable(p, e) && !Blocked(p, e) && Started(p, s, e)
    ensures Desired(p, s, e).Some?
    ensures if Wanted(p, e) == Yaw then Desired(p, s, e).value.yaw != 0.0
            else Translating(Desired(p, s, e).value)
  {
    hide Desired;
    DesiredBounds(p, s, e);
  }

  /** A heading limiter with nothing to wait for passes motion on. */
  lemma SteerMoves(p: Setup, s: MotionState, v: Velocity, limit: real, isNew: bool)
    requires p.Valid() && limit >= 0.0 && Coherent(p, s) && Translating(v)
    ensures var (next, out) := Steer(p, s, v, limit, isNew);
            && (Translating(out)
                || (next.heading.None? && next.reconfirmations > 0
                    && (s.reconfirmations == 0 ==> s.heading.Some? && next.reconfirmations == 1)
                    && (s.reconfirmations > 0 ==>
                          next.reconfirmations == s.reconfirmations + (if isNew then 1 else 0)
                          && next.reconfirmations <= p.motion.confirmationSamples)))
  {
    hide Toward;
    assert p.tr.HypotAt(v.x, v.y);
    SteerBounds(p, s, v, limit, isNew);
  }

  lemma SteerStill(p: Setup, s: MotionState, v: Velocity, limit: real, isNew: bool)
    requires p.Valid() && limit >= 0.0 && !Translating(v)
    ensures Steer(p, s, v, limit, isNew) == (s.(heading := None, reconfirmations := 0), v)
  {
    assert p.tr.HypotAt(v.x, v.y);
  }

  /** An update that commands no motion has used up one of the observations that were needed. */
  lemma UpdateAdvances(p: Setup, s: MotionState, e: PlanarError, tick: Tick)
    requires p.Valid() && Correctable(p, e) && !Blocked(p, e) && Coherent(p, s)
    requires TurnLimit(p, tick.dt) >= 0.0
    requires !Moves(Update(p, s, Constant(e, tick)).1)
    ensures var next := Update(p, s, Constant(e, tick)).0;
            && Coherent(p, next)
            && Need(p, next, e) <= Need(p, s, e)
            && (tick.isNew ==> Need(p, next, e) <= Need(p, s, e) - 1)
  {
    hide Steer, Desired, TurnLimit;
    UpdateBounds(p, s, Constant(e, tick));
    var observed := if tick.isNew then Observe(p, s, e) else s;
    if tick.isNew { ObservationAdvances(p, s, e); }
    if Started(p, observed, e) { StartedDesires(p, observed, e); }
    DesiredBounds(p, observed, e);
    var v := Desired(p, observed, e).value;
    var limit := TurnLimit(p, tick.dt);
    SteerBounds(p, observed, v, limit, tick.isNew);
    if Translating(v) {
      SteerMoves(p, observed, v, limit, tick.isNew);
    } else {
      SteerStill(p, observed, v, limit, tick.isNew);
    }
    var next := Steer(p, observed, v, limit, tick.isNew).0;
    SteerKeepsAxes(p, observed, v, limit, tick.isNew);
    assert StartNeed(p, next, e) == StartNeed(p, observed, e);
    NeedBounded(p, next, e);
  }

  lemma SteerKeepsAxes(p: Setup, s: MotionState, v: Velocity, limit: real, isNew: bool)
    requires limit >= 0.0
    ensures var next := Steer(p, s, v, limit, isNew).0;
            next == s.(heading := next.heading, reconfirmations := next.reconfirmations)
  {
  }

  lemma NeedPositive(p: Setup, s: MotionState, e: PlanarError)
    ensures Need(p, s, e) >= 1
  {
  }

  lemma {:induction false} NeedIsEnough(p: Setup, s: MotionState, e: PlanarError, ticks: seq<Tick>)
    requires p.Valid() && Correctable(p, e) && !Blocked(p, e) && Coherent(p, s) && TicksMonotone(p, ticks)
    requires Observations(ticks) >= Need(p, s, e)
    ensures SomeMove(p, s, e, ticks)
    decreases |ticks|
  {
    NeedPositive(p, s, e);
    if ticks != [] && !Moves(Update(p, s, Constant(e, ticks[0])).1) {
      UpdateAdvances(p, s, e, ticks[0]);
      NeedIsEnough(p, Update(p, s, Constant(e, ticks[0])).0, e, ticks[1..]);
    }
  }

  /** Bounded progress: whatever the controller saw before, a constant correctable error whose yaw does not block it
      makes it move before more than one observation beyond the confirmations has passed. */
  lemma BoundedProgress(p: Setup, history: seq<Input>, e: PlanarError, ticks: seq<Tick>)
    requires p.Valid() && Monotone(p, history) && TicksMonotone(p, ticks)
    requires Correctable(p, e) && !Blocked(p, e)
    requires Observations(ticks) > p.motion.confirmationSamples
    ensures SomeMove(p, After(p, history), e, ticks)
  {
    RunCoherent(p, history);
    NeedBounded(p, After(p, history), e);
    NeedIsEnough(p, After(p, history), e, ticks);
  }

  // ---------- The condition is needed ----------

  /** With an accepted yaw error inside the gate's hysteresis the gate never opens and yaw never turns. */
  lemma {:induction false} StuckForever(p: Setup, s: MotionState, e: PlanarError, ticks: seq<Tick>)
    requires p.Valid() && TicksMonotone(p, ticks)
    requires Blocked(p, e)
    requires !s.enabled && s.yaw.active == 0
    ensures !SomeMove(p, s, e, ticks)
    decreases |ticks|
  {
    if ticks != [] {
      hide Steer, Desired, TurnLimit;
      var tick := ticks[0];
      var observed := if tick.isNew then Observe(p, s, e) else s;
      DesiredBounds(p, observed, e);
      SteerStill(p, observed, Desired(p, observed, e).value, TurnLimit(p, tick.dt), tick.isNew);
      StuckForever(p, Update(p, s, Constant(e, tick)).0, e, ticks[1..]);
    }
  }

  /** Every reachable controller shown the constant error `e` moves in time. */
  ghost predicate Progresses(p: Setup, e: PlanarError) {
    forall history, ticks ::
      Monotone(p, history) && TicksMonotone(p, ticks) && Observations(ticks) > p.motion.confirmationSamples
      ==> SomeMove(p, After(p, history), e, ticks)
  }

  ghost predicate AlwaysProgresses(p: Setup) {
    forall e | Correctable(p, e) :: Progresses(p, e)
  }

  lemma {:induction false} TicksExist(n: nat) returns (ticks: seq<Tick>)
    ensures Observations(ticks) == n && forall i | 0 <= i < |ticks| :: ticks[i].dt == 0.0
  {
    if n == 0 {
      ticks := [];
    } else {
      var rest := TicksExist(n - 1);
      ticks := [Tick(0.0, true)] + rest;
      assert ticks[1..] == rest;
    }
  }

  /** The controller makes progress on a correctable error exactly when its yaw does not block it. */
  lemma ProgressIffNotBlocked(p: Setup, e: PlanarError)
    requires p.Valid() && Correctable(p, e)
    ensures Progresses(p, e) <==> !Blocked(p, e)
  {
    if Blocked(p, e) {
      var ticks := TicksExist(p.motion.confirmationSamples + 1);
      assert TicksMonotone(p, ticks);
      StuckForever(p, INITIAL, e, ticks);
      assert Monotone(p, []) && After(p, []) == INITIAL;
    } else {
      forall history, ticks | Monotone(p, history) && TicksMonotone(p, ticks)
                              && Observations(ticks) > p.motion.confirmationSamples
        ensures SomeMove(p, After(p, history), e, ticks)
      {
        BoundedProgress(p, history, e, ticks);
      }
    }
  }

  /** The controller always makes progress exactly when the configuration's yaw tolerance opens the yaw gate. */
  lemma ProgressIffGateCoversTolerance(p: Setup)
    requires p.Valid()
    ensures AlwaysProgresses(p) <==> GateCoversTolerance(p)
  {
    if GateCoversTolerance(p) {
      forall e | Correctable(p, e) ensures Progresses(p, e) {
        ProgressIffNotBlocked(p, e);
      }
    } else {
      var e := PlanarError(p.config.xTolerance + 1.0, 0.0, p.config.yawTolerance);
      assert Correctable(p, e) && Blocked(p, e);
      ProgressIffNotBlocked(p, e);
    }
  }
}
