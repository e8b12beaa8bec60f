/** `RelativeTagTracker`: which tag observations count, and the filtered pose they give. */
module TagTracking {
  import opened Basics
  import opened Trigonometry
  import opened HolonomicFineAlign
  import opened PlanarGeometry

  datatype Config = Config(
    acquisitionSamples: nat,
    timeout: real,
    filterTimeConstant: real,
    positionSlack: real,
    angularSlack: real,
    translationRate: real,
    angularRate: real)
  {
    predicate Valid() {
      acquisitionSamples >= 1 && timeout > 0.0 && filterTimeConstant >= 0.0
    }
  }

  datatype TrackState = TrackState(
    filtered: Option<PlanarError>,
    previousRaw: Option<PlanarError>,
    stamp: Time,
    count: nat)

  const UNTRACKED := TrackState(None, None, 0.0, 0)

  predicate IsReady(c: Config, s: TrackState) {
    s.filtered.Some? && s.count >= c.acquisitionSamples
  }

  function Travel(rate: real, dt: real): real {
    rate * dt
  }

  /** Where a stationary target lies after a motion by `(dx, dy)` and a turn by `angle`. */
  function SeenAfter(tr: Trig, e: PlanarError, dx: real, dy: real, angle: real): PlanarError {
    var x, y := e.x - dx, e.y - dy;
    PlanarError(tr.cos(angle) * x + tr.sin(angle) * y, -tr.sin(angle) * x + tr.cos(angle) * y,
                tr.WrapAngle(e.yaw - angle))
  }

  /** `predictRelativeError`. */
  function Predict(tr: Trig, e: PlanarError, command: Velocity, dt: real): PlanarError {
    SeenAfter(tr, e, Travel(command.x, dt), Travel(command.y, dt), Travel(command.yaw, dt))
  }

  /** Whether `raw` is too far from the previous raw pose for the time that passed. */
  predicate Jumped(tr: Trig, c: Config, previous: PlanarError, raw: PlanarError, dt: real) {
    var distance := tr.hypot(previous.x, previous.y);
    || tr.hypot(raw.x - previous.x, raw.y - previous.y)
       > c.positionSlack + (c.translationRate + c.angularRate * distance) * dt
    || Abs(tr.WrapAngle(raw.yaw - previous.yaw)) > c.angularSlack + c.angularRate * dt
  }

  function Weight(c: Config, dt: real): real
    requires c.Valid() && dt > 0.0
  {
    if c.filterTimeConstant == 0.0 then 1.0 else dt / (c.filterTimeConstant + dt)
  }

  function Part(weight: real, difference: real): real {
    weight * difference
  }

  function Blend(tr: Trig, predicted: PlanarError, raw: PlanarError, weight: real): PlanarError {
    PlanarError(predicted.x + Part(weight, raw.x - predicted.x), predicted.y + Part(weight, raw.y - predicted.y),
                tr.WrapAngle(predicted.yaw + Part(weight, tr.WrapAngle(raw.yaw - predicted.yaw))))
  }

  function Counted(c: Config, count: nat): nat {
    if count + 1 <= c.acquisitionSamples then count + 1 else c.acquisitionSamples
  }

  predicate Coherent(s: TrackState) {
    s.filtered.Some? <==> s.previousRaw.Some?
  }

  /** What the tracker keeps when an observation stamped `stamp` arrives: nothing after too long a gap. */
  function Kept(c: Config, s: TrackState, stamp: Time): TrackState {
    if s.previousRaw.Some? && stamp - s.stamp > c.timeout then s.(filtered := None, previousRaw := None, count := 0)
    else s
  }

  /** `observe`; the second component says whether the observation was accepted. */
  function Observe(tr: Trig, c: Config, s: TrackState, reading: Reading, stamp: Time, command: Velocity)
    : (TrackState, bool)
    requires c.Valid() && Coherent(s)
  {
    if !reading.IsFinite() || (s.previousRaw.Some? && stamp <= s.stamp) then (s, false)
    else
      var raw := reading.Error();
      var kept := Kept(c, s, stamp);
      match kept.previousRaw
      case None => (TrackState(Some(raw), Some(raw), stamp, Counted(c, kept.count)), true)
      case Some(previous) =>
        var dt := stamp - kept.stamp;
        if Jumped(tr, c, previous, raw, dt) then (kept, false)
        else
          var filtered := Blend(tr, Predict(tr, kept.filtered.value, command, dt), raw, Weight(c, dt));
          (TrackState(Some(filtered), Some(raw), stamp, Counted(c, kept.count)), true)
  }

  class Tracker {
    const tr: Trig
    const c: Config
    var filtered: Option<PlanarError>
    var previousRaw: Option<PlanarError>
    var stamp: Time
    var count: nat

    constructor (tr: Trig, c: Config)
      ensures this.tr == tr && this.c == c && State() == UNTRACKED
    {
      this.tr := tr;
      this.c := c;
      filtered, previousRaw, stamp, count := None, None, 0.0, 0;
    }

    ghost function State(): TrackState
      reads this
    {
      TrackState(filtered, previousRaw, stamp, count)
    }

    method Reset()
      modifies this
      ensures State() == old(State()).(filtered := None, previousRaw := None, count := 0)
    {
      filtered, previousRaw, count := None, None, 0;
    }

    method OnObservation(reading: Reading, at: Time, command: Velocity) returns (accepted: bool)
      requires c.Valid() && Coherent(State())
      modifies this
      ensures Coherent(State())
      ensures (State(), accepted) == Observe(tr, c, old(State()), reading, at, command)
    {
      if !reading.IsFinite() || (previousRaw.Some? && at <= stamp) {
        return false;
      }
      if previousRaw.Some? && at - stamp > c.timeout {
        Reset();
      }
      var raw := reading.Error();
      if previousRaw.Some? {
        var dt := at - stamp;
        if Jumped(tr, c, previousRaw.value, raw, dt) {
          // The reference stays where it was.
          return false;
        }
        var predicted := Predict(tr, filtered.value, command, dt);
        filtered := Some(Blend(tr, predicted, raw, Weight(c, dt)));
      } else {
        filtered := Some(raw);
      }
      previousRaw := Some(raw);
      stamp := at;
      count := if count + 1 <= c.acquisitionSamples then count + 1 else c.acquisitionSamples;
      return true;
    }

    method Ready() returns (ready: bool)
      ensures ready == IsReady(c, State())
    {
      ready := filtered.Some? && count >= c.acquisitionSamples;
    }
  }

  // ---------- The evidence behind a tracker ----------

  datatype Sample = Sample(raw: PlanarError, stamp: Time)

  /** Two samples the tracker accepts one after the other: a short gap and no jump. */
  ghost predicate Follows(tr: Trig, c: Config, a: Sample, b: Sample) {
    && 0.0 < b.stamp - a.stamp <= c.timeout
    && !Jumped(tr, c, a.raw, b.raw, b.stamp - a.stamp)
  }

  ghost predicate Chained(tr: Trig, c: Config, chain: seq<Sample>) {
    forall i | 0 <= i < |chain| - 1 :: Follows(tr, c, chain[i], chain[i + 1])
  }

  /** The samples accepted since the tracker last forgot everything. */
  function Extend(tr: Trig, c: Config, s: TrackState, chain: seq<Sample>, reading: Reading, stamp: Time,
                  command: Velocity): seq<Sample>
    requires c.Valid() && Coherent(s)
  {
    if !Observe(tr, c, s, reading, stamp, command).1 then chain
    else (if Kept(c, s, stamp).previousRaw.None? then [] else chain) + [Sample(reading.Error(), stamp)]
  }

  /** The tracker rests on its chain: it is ready exactly when the chain is long enough. */
  ghost predicate RestsOn(tr: Trig, c: Config, s: TrackState, chain: seq<Sample>) {
    && Coherent(s)
    && Chained(tr, c, chain)
    && s.count == (if |chain| <= c.acquisitionSamples then |chain| else c.acquisitionSamples)
    && (s.previousRaw.Some? <==> chain != [])
    && (chain != [] ==> var last := chain[|chain| - 1]; s.previousRaw == Some(last.raw) && s.stamp == last.stamp)
  }

  lemma ObserveKeepsChain(tr: Trig, c: Config, s: TrackState, chain: seq<Sample>, reading: Reading, stamp: Time,
                          command: Velocity)
    requires c.Valid() && RestsOn(tr, c, s, chain)
    ensures RestsOn(tr, c, Observe(tr, c, s, reading, stamp, command).0,
                    Extend(tr, c, s, chain, reading, stamp, command))
    ensures !Observe(tr, c, s, reading, stamp, command).1 ==> Observe(tr, c, s, reading, stamp, command).0 == s
  {
    hide Jumped, Blend, Predict, Weight;
  }

  /** An accepted observation becomes the reference and the last of the chain, which it extends or restarts. */
  lemma AcceptedIsReference(tr: Trig, c: Config, s: TrackState, chain: seq<Sample>, reading: Reading, stamp: Time,
                            command: Velocity)
    requires c.Valid() && Coherent(s) && Observe(tr, c, s, reading, stamp, command).1
    ensures var next := Observe(tr, c, s, reading, stamp, command).0;
            && reading.IsFinite() && Coherent(next) && next.filtered.Some?
            && next.previousRaw == Some(reading.Error()) && next.stamp == stamp
    ensures var extended := Extend(tr, c, s, chain, reading, stamp, command);
            || extended == chain + [Sample(reading.Error(), stamp)]
            || extended == [Sample(reading.Error(), stamp)]
  {
    hide Jumped, Blend, Predict, Weight;
  }

  /** A tracker is ready exactly when it rests on the required number of consecutive samples. */
  lemma ReadyIffEnoughSamples(tr: Trig, c: Config, s: TrackState, chain: seq<Sample>)
    requires c.Valid() && RestsOn(tr, c, s, chain)
    ensures IsReady(c, s) <==> |chain| >= c.acquisitionSamples
  {
  }

  // ---------- The prediction ----------

  lemma Opposite(tr: Trig, a: real)
    requires tr.Laws()
    ensures tr.cos(-a) == tr.cos(a) && tr.sin(-a) == -tr.sin(a)
  {
    assert tr.AdditionAt(a, -a) && tr.CircleAt(a);
    assert a + -a == 0.0;
    SolveOpposite(tr.cos(a), tr.sin(a), tr.cos(-a), tr.sin(-a));
  }

  lemma SolveOpposite(c: real, s: real, u: real, v: real)
    requires c * c + s * s == 1.0 && c * u - s * v == 1.0 && s * u + c * v == 0.0
    ensures u == c && v == -s
  {
    assert c * (c * u - s * v) + s * (s * u + c * v) == (c * c + s * s) * u;
    assert c * (s * u + c * v) - s * (c * u - s * v) == (c * c + s * s) * v;
  }

  function Displaced(tr: Trig, dx: real, dy: real, angle: real): Pose {
    Pose(dx, dy, tr.cos(angle), tr.sin(angle))
  }

  /** The motion a command makes in `dt`, to first order in the translation. */
  function Motion(tr: Trig, command: Velocity, dt: real): Pose {
    Displaced(tr, Travel(command.x, dt), Travel(command.y, dt), Travel(command.yaw, dt))
  }

  lemma RelativeHeading(tr: Trig, yaw: real, angle: real)
    requires tr.Laws()
    ensures tr.cos(tr.WrapAngle(yaw - angle)) == tr.cos(angle) * tr.cos(yaw) - (-tr.sin(angle)) * tr.sin(yaw)
    ensures tr.sin(tr.WrapAngle(yaw - angle)) == (-tr.sin(angle)) * tr.cos(yaw) + tr.cos(angle) * tr.sin(yaw)
  {
    tr.WrapKeepsDirection(yaw - angle);
    assert yaw - angle == yaw + -angle;
    assert tr.AdditionAt(yaw, -angle);
    Opposite(tr, angle);
    RelativeTurn(tr.cos(yaw), tr.sin(yaw), tr.cos(-angle), tr.sin(-angle), tr.cos(angle), -tr.sin(angle));
  }

  /** The prediction is rigid: it is where a stationary target lies after the robot has made that motion. */
  lemma PredictionIsRigid(tr: Trig, e: PlanarError, command: Velocity, dt: real)
    requires tr.Laws()
    ensures PoseOf(tr, Predict(tr, e, command, dt)) == Compose(Inverse(Motion(tr, command, dt)), PoseOf(tr, e))
  {
    hide Travel, SeenAfter, Displaced, Compose, Inverse, PoseOf;
    SeenAfterIsRigid(tr, e, Travel(command.x, dt), Travel(command.y, dt), Travel(command.yaw, dt));
  }

  lemma SeenAfterIsRigid(tr: Trig, e: PlanarError, dx: real, dy: real, angle: real)
    requires tr.Laws()
    ensures PoseOf(tr, SeenAfter(tr, e, dx, dy, angle)) == Compose(Inverse(Displaced(tr, dx, dy, angle)), PoseOf(tr, e))
  {
    hide Trig.Laws;
    RelativeHeading(tr, e.yaw, angle);
    var l := PoseOf(tr, SeenAfter(tr, e, dx, dy, angle));
    var r := Compose(Inverse(Displaced(tr, dx, dy, angle)), PoseOf(tr, e));
    assert l.c == r.c && l.s == r.s;
    Relative(tr.cos(angle), tr.sin(angle), dx, dy, e.x, e.y);
    assert l.x == r.x && l.y == r.y;
  }

  lemma RelativeTurn(cy: real, sy: real, cm: real, sm: real, c: real, s: real)
    requires cm == c && sm == s
    ensures cy * cm - sy * sm == c * cy - s * sy
    ensures sy * cm + cy * sm == s * cy + c * sy
  {
  }

  lemma Relative(c: real, s: real, mx: real, my: real, x: real, y: real)
    ensures c * (x - mx) + s * (y - my) == (-c * mx - s * my) + c * x - (-s) * y
    ensures -s * (x - mx) + c * (y - my) == (s * mx - c * my) + (-s) * x + c * y
  {
  }

  /** An observation that agrees with the prediction leaves the filter at the prediction, whatever the weight. */
  lemma AgreementIsFixed(tr: Trig, predicted: PlanarError, weight: real)
    requires tr.Laws() && -tr.pi < predicted.yaw <= tr.pi
    ensures Blend(tr, predicted, predicted, weight) == predicted
  {
    assert tr.PrincipalAt(0.0) && tr.PrincipalAt(predicted.yaw);
    assert predicted.yaw - predicted.yaw == 0.0;
    assert tr.WrapAngle(0.0) == 0.0;
  }

  /** The filtered position lies between the prediction and the observation: nearer the observation than the
      prediction was. */
  lemma BlendApproaches(tr: Trig, c: Config, predicted: PlanarError, raw: PlanarError, dt: real)
    requires c.Valid() && dt > 0.0
    ensures var f := Blend(tr, predicted, raw, Weight(c, dt));
            Abs(f.x - raw.x) <= Abs(predicted.x - raw.x) && Abs(f.y - raw.y) <= Abs(predicted.y - raw.y)
    ensures c.filterTimeConstant == 0.0 ==>
              var f := Blend(tr, predicted, raw, Weight(c, dt)); f.x == raw.x && f.y == raw.y
  {
    WeightIsFraction(c, dt);
    Contract(Weight(c, dt), predicted.x, raw.x);
    Contract(Weight(c, dt), predicted.y, raw.y);
  }

  lemma WeightIsFraction(c: Config, dt: real)
    requires c.Valid() && dt > 0.0
    ensures 0.0 < Weight(c, dt) <= 1.0
  {
    if c.filterTimeConstant > 0.0 {
      Fraction(dt, c.filterTimeConstant + dt);
    }
  }

  lemma Contract(weight: real, from: real, to: real)
    requires 0.0 < weight <= 1.0
    ensures Abs(from + weight * (to - from) - to) <= Abs(from - to)
  {
    var d := Abs(from - to);
    Interpolation(d, 1.0 - weight);
    if from >= to {
      assert from + weight * (to - from) - to == d * (1.0 - weight);
    } else {
      assert from + weight * (to - from) - to == -(d * (1.0 - weight));
    }
  }

  // ---------- The filtered heading ----------

  /** Two angles of one direction. */
  ghost predicate SameTurn(tr: Trig, a: real, b: real) {
    tr.cos(a) == tr.cos(b) && tr.sin(a) == tr.sin(b)
  }

  lemma SameSum(tr: Trig, a: real, b: real, u: real, v: real)
    requires tr.Laws() && SameTurn(tr, a, b) && SameTurn(tr, u, v)
    ensures SameTurn(tr, a + u, b + v)
  {
    assert tr.AdditionAt(a, u) && tr.AdditionAt(b, v);
  }

  lemma SameOpposite(tr: Trig, a: real, b: real)
    requires tr.Laws() && SameTurn(tr, a, b)
    ensures SameTurn(tr, -a, -b)
  {
    Opposite(tr, a);
    Opposite(tr, b);
  }

  /** What is left of the yaw difference after a step of weight `w` along it. */
  lemma TurnLeft(tr: Trig, predicted: real, raw: real, weight: real, turn: real, part: real, f: real)
    requires tr.Laws() && 0.0 < weight <= 1.0
    requires turn == tr.WrapAngle(raw - predicted) && part == Part(weight, turn) && f == tr.WrapAngle(predicted + part)
    ensures var was, left := tr.WrapAngle(predicted - raw), tr.WrapAngle(f - raw);
            && (Abs(was) < tr.pi ==> left == (1.0 - weight) * was)
            && (Abs(was) == tr.pi ==> left == (weight - 1.0) * was)
            && Abs(was) <= tr.pi
  {
    tr.WrapKeepsDirection(raw - predicted);
    PartOfTurn(tr.pi, turn, weight);
    TurnLeftIs(tr, predicted, raw, turn, part, f);
    if turn == tr.pi { tr.WrapOfMinusPi(); } else { assert tr.PrincipalAt(-turn); }
    assert tr.PrincipalAt(part - turn);
  }

  lemma TurnLeftIs(tr: Trig, predicted: real, raw: real, turn: real, part: real, f: real)
    requires tr.Laws()
    requires turn == tr.WrapAngle(raw - predicted) && f == tr.WrapAngle(predicted + part)
    ensures tr.WrapAngle(f - raw) == tr.WrapAngle(part - turn) && tr.WrapAngle(predicted - raw) == tr.WrapAngle(-turn)
  {
    tr.WrapKeepsDirection(raw - predicted);
    tr.WrapKeepsDirection(predicted + part);
    SameOpposite(tr, turn, raw - predicted);
    assert -(raw - predicted) == predicted - raw;
    SameSum(tr, f, predicted + part, -raw, -raw);
    assert f + -raw == f - raw && predicted + part + -raw == part + (predicted - raw);
    SameSum(tr, part, part, predicted - raw, -turn);
    assert part + -turn == part - turn;
  }

  lemma PartOfTurn(pi: real, turn: real, weight: real)
    requires pi > 0.0 && -pi < turn <= pi && 0.0 < weight <= 1.0
    ensures -pi < weight * turn - turn <= pi
    ensures weight * turn - turn == (1.0 - weight) * -turn == (weight - 1.0) * turn
  {
    var less := 1.0 - weight;
    assert weight * turn - turn == less * -turn;
    if turn >= 0.0 {
      Share(less, turn);
    } else {
      Share(less, -turn);
    }
  }

  lemma Share(part: real, whole: real)
    requires 0.0 <= part < 1.0 && whole >= 0.0
    ensures 0.0 <= part * whole <= whole && (whole > 0.0 ==> part * whole < whole)
  {
    if whole > 0.0 {
      assert (1.0 - part) * whole > 0.0;
      assert part * whole >= 0.0;
    }
  }

  lemma WeightLeft(c: Config, dt: real, was: real, left: real)
    requires c.Valid() && dt > 0.0 && left == (1.0 - Weight(c, dt)) * was
    ensures (c.filterTimeConstant + dt) * left == c.filterTimeConstant * was
  {
    var tau, w := c.filterTimeConstant, Weight(c, dt);
    var sum, rest := tau + dt, 1.0 - w;
    if tau == 0.0 {
      assert rest == 0.0 && left == 0.0;
    } else {
      assert w * sum == dt;
      assert sum * rest == tau;
      TakeOut(sum, rest, was, tau);
    }
  }

  lemma TakeOut(sum: real, rest: real, was: real, tau: real)
    requires sum * rest == tau
    ensures sum * (rest * was) == tau * was
  {
    assert sum * (rest * was) == (sum * rest) * was;
  }

  /** The filtered pose divides the difference between prediction and observation as the time constant and the time step
      say: what is left of it, over what it was, is the time constant over the sum of the two. */
  ghost predicate Divides(tr: Trig, c: Config, dt: real, predicted: PlanarError, raw: PlanarError, f: PlanarError) {
    var tau, was, left := c.filterTimeConstant, tr.WrapAngle(predicted.yaw - raw.yaw), tr.WrapAngle(f.yaw - raw.yaw);
    && (tau + dt) * (f.x - raw.x) == tau * (predicted.x - raw.x)
    && (tau + dt) * (f.y - raw.y) == tau * (predicted.y - raw.y)
    && (Abs(was) < tr.pi ==> (tau + dt) * left == tau * was)
    && Abs(left) <= Abs(was)
    && (tau == 0.0 ==> f.x == raw.x && f.y == raw.y && SameTurn(tr, f.yaw, raw.yaw))
  }

  lemma BlendDivides(tr: Trig, c: Config, predicted: PlanarError, raw: PlanarError, dt: real)
    requires tr.Laws() && c.Valid() && dt > 0.0
    ensures Divides(tr, c, dt, predicted, raw, Blend(tr, predicted, raw, Weight(c, dt)))
  {
    hide Weight, Trig.Laws;
    var f, w := Blend(tr, predicted, raw, Weight(c, dt)), Weight(c, dt);
    var turn := tr.WrapAngle(raw.yaw - predicted.yaw);
    var part := Part(w, turn);
    assert f.yaw == tr.WrapAngle(predicted.yaw + part);
    if c.filterTimeConstant == 0.0 {
      AllTheWay(tr, predicted.yaw, raw.yaw, turn, part);
      WholeWeight(c, dt, turn, part);
    }
    PositionDivides(c, predicted.x, raw.x, dt, f.x);
    PositionDivides(c, predicted.y, raw.y, dt, f.y);
    hide Blend;
    YawDivides(tr, c, predicted.yaw, raw.yaw, dt, turn, part, f.yaw);
  }

  lemma WholeWeight(c: Config, dt: real, turn: real, part: real)
    requires c.Valid() && c.filterTimeConstant == 0.0 && dt > 0.0 && part == Part(Weight(c, dt), turn)
    ensures part == turn
  {
  }

  lemma PositionDivides(c: Config, predicted: real, raw: real, dt: real, f: real)
    requires c.Valid() && dt > 0.0 && f == predicted + Part(Weight(c, dt), raw - predicted)
    ensures (c.filterTimeConstant + dt) * (f - raw) == c.filterTimeConstant * (predicted - raw)
    ensures c.filterTimeConstant == 0.0 ==> f == raw
  {
    if c.filterTimeConstant == 0.0 { assert Weight(c, dt) == 1.0 && f == raw; }
    StepLeft(predicted, raw, Weight(c, dt));
    hide Weight;
    WeightLeft(c, dt, predicted - raw, f - raw);
  }

  lemma YawDivides(tr: Trig, c: Config, predicted: real, raw: real, dt: real, turn: real, part: real, f: real)
    requires tr.Laws() && c.Valid() && dt > 0.0
    requires turn == tr.WrapAngle(raw - predicted) && part == Part(Weight(c, dt), turn)
    requires f == tr.WrapAngle(predicted + part)
    ensures var was, left := tr.WrapAngle(predicted - raw), tr.WrapAngle(f - raw);
            && (Abs(was) < tr.pi ==> (c.filterTimeConstant + dt) * left == c.filterTimeConstant * was)
            && Abs(left) <= Abs(was)
  {
    var w, was, left := Weight(c, dt), tr.WrapAngle(predicted - raw), tr.WrapAngle(f - raw);
    WeightIsFraction(c, dt);
    hide Weight, Trig.WrapAngle, Trig.Laws;
    TurnLeft(tr, predicted, raw, w, turn, part, f);
    if Abs(was) < tr.pi { WeightLeft(c, dt, was, left); }
    ShareOfAbs(w, was, left);
  }

  lemma StepLeft(from: real, to: real, w: real)
    ensures from + w * (to - from) - to == (1.0 - w) * (from - to)
  {
  }

  lemma ShareOfAbs(weight: real, was: real, left: real)
    requires 0.0 < weight <= 1.0 && (left == (1.0 - weight) * was || left == (weight - 1.0) * was)
    ensures Abs(left) <= Abs(was)
  {
    var part := 1.0 - weight;
    Share(part, Abs(was));
    assert Abs(part * was) == part * Abs(was);
    assert (weight - 1.0) * was == -(part * was);
  }

  lemma AllTheWay(tr: Trig, predicted: real, raw: real, turn: real, part: real)
    requires tr.Laws() && turn == tr.WrapAngle(raw - predicted)
    ensures part == turn ==> SameTurn(tr, tr.WrapAngle(predicted + part), raw)
  {
    tr.WrapKeepsDirection(raw - predicted);
    SameSum(tr, predicted, predicted, turn, raw - predicted);
    assert predicted + (raw - predicted) == raw;
    tr.WrapKeepsDirection(predicted + turn);
  }

  // ---------- What an observation makes of the tracker ----------

  /** When an observation counts: it is finite and newer than the reference, and it begins afresh, there being none or
      one too long ago, or lies within the distance and the turn that the time since allows. */
  lemma AcceptedIff(tr: Trig, c: Config, s: TrackState, reading: Reading, stamp: Time, command: Velocity)
    requires c.Valid() && Coherent(s)
    ensures Observe(tr, c, s, reading, stamp, command).1 <==>
              && reading.IsFinite() && (s.previousRaw.Some? ==> stamp > s.stamp)
              && (s.previousRaw.None? || stamp - s.stamp > c.timeout
                  || (var last, dt := s.previousRaw.value, stamp - s.stamp;
                      && tr.hypot(reading.x.v - last.x, reading.y.v - last.y)
                         <= c.positionSlack + (c.translationRate + c.angularRate * tr.hypot(last.x, last.y)) * dt
                      && -(c.angularSlack + c.angularRate * dt) <= tr.WrapAngle(reading.yaw.v - last.yaw)
                         <= c.angularSlack + c.angularRate * dt))
  {
    hide Blend, Predict, Weight;
  }

  /** An accepted observation is the reference from then on, and the filtered pose is the observation itself when it
      begins afresh, and otherwise divides it from where a stationary target would be seen after the commanded
      motion. */
  lemma FilteredIs(tr: Trig, c: Config, s: TrackState, reading: Reading, stamp: Time, command: Velocity)
    requires tr.Laws() && c.Valid() && Coherent(s) && Observe(tr, c, s, reading, stamp, command).1
    ensures var next, raw := Observe(tr, c, s, reading, stamp, command).0, reading.Error();
            && next.filtered.Some? && next.previousRaw == Some(raw) && next.stamp == stamp
            && (s.previousRaw.None? || stamp - s.stamp > c.timeout ==> next.filtered.value == raw)
            && (s.previousRaw.Some? && stamp - s.stamp <= c.timeout ==>
                 var dt := stamp - s.stamp;
                 exists predicted ::
                   && PoseOf(tr, predicted)
                      == Compose(Inverse(Motion(tr, command, dt)), PoseOf(tr, s.filtered.value))
                   && Divides(tr, c, dt, predicted, raw, next.filtered.value))
  {
    hide Jumped, Blend, Predict, Weight, Divides, Motion, PoseOf, Compose, Inverse, Trig.Laws;
    if s.previousRaw.Some? && stamp - s.stamp <= c.timeout {
      var dt := stamp - s.stamp;
      var predicted := Predict(tr, s.filtered.value, command, dt);
      PredictionIsRigid(tr, s.filtered.value, command, dt);
      BlendDivides(tr, c, predicted, reading.Error(), dt);
    }
  }

  // ---------- A target seen exactly ----------

  datatype Sighting = Sighting(seen: PlanarError, stamp: Time, command: Velocity)

  function AsReading(e: PlanarError): Reading {
    Reading(Finite(e.x), Finite(e.y), Finite(e.yaw))
  }

  /** The tracker after a sequence of sightings. */
  function Track(tr: Trig, c: Config, sightings: seq<Sighting>): (s: TrackState)
    requires c.Valid()
    ensures Coherent(s)
  {
    if sightings == [] then UNTRACKED
    else
      var last := sightings[|sightings| - 1];
      Observe(tr, c, Track(tr, c, sightings[..|sightings| - 1]), AsReading(last.seen), last.stamp, last.command).0
  }

  /** The robot stood at `robots` when it saw the target, and got from each place to the next by carrying out the
      command for the time between. */
  ghost predicate SeenExactly(tr: Trig, target: Pose, robots: seq<Pose>, sightings: seq<Sighting>) {
    && |robots| == |sightings| && target.Rigid()
    && (forall k | 0 <= k < |robots| ::
      robots[k].Rigid() && sightings[k].seen == ErrorBetween(tr, robots[k], target))
    && (forall k | 0 < k < |robots| ::
      robots[k] == Compose(robots[k - 1],
                           Motion(tr, sightings[k].command, sightings[k].stamp - sightings[k - 1].stamp)))
  }

  /** Every sighting was accepted. */
  ghost predicate AllAccepted(tr: Trig, c: Config, sightings: seq<Sighting>)
    requires c.Valid()
  {
    forall k | 0 <= k < |sightings| ::
      Observe(tr, c, Track(tr, c, sightings[..k]), AsReading(sightings[k].seen), sightings[k].stamp,
              sightings[k].command).1
  }

  lemma ErrorOfPose(tr: Trig, base: Pose, target: Pose)
    requires tr.Laws() && base.Rigid() && target.Rigid()
    ensures PoseOf(tr, ErrorBetween(tr, base, target)) == Compose(Inverse(base), target)
  {
    var d := Compose(Inverse(base), target);
    RigidClosed(base, base);
    RigidClosed(Inverse(base), target);
    ErrorRoundTrip(tr, d);
    SeenFromRest(tr, d);
    hide Compose, Inverse, PoseOf;
  }

  lemma ErrorIsDetermined(tr: Trig, base: Pose, target: Pose, e: PlanarError)
    requires tr.Laws() && -tr.pi < e.yaw <= tr.pi && PoseOf(tr, e) == Compose(Inverse(base), target)
    ensures ErrorBetween(tr, base, target) == e
  {
    hide Compose, Inverse;
    assert tr.PrincipalAt(e.yaw);
  }

  /** Where the tracker expects a target it saw exactly is where it is seen exactly after the motion. */
  lemma PredictedExactly(tr: Trig, target: Pose, robot: Pose, next: Pose, command: Velocity, dt: real)
    requires tr.Laws() && target.Rigid() && robot.Rigid() && next == Compose(robot, Motion(tr, command, dt))
    ensures Predict(tr, ErrorBetween(tr, robot, target), command, dt) == ErrorBetween(tr, next, target)
  {
    var m, e := Motion(tr, command, dt), ErrorBetween(tr, robot, target);
    assert m.Rigid() by { assert tr.CircleAt(Travel(command.yaw, dt)); }
    ErrorOfPose(tr, robot, target);
    PredictionIsRigid(tr, e, command, dt);
    InverseOfProduct(robot, m);
    Associative(Inverse(m), Inverse(robot), target);
    tr.WrapKeepsDirection(e.yaw - Travel(command.yaw, dt));
    var predicted := Predict(tr, e, command, dt);
    assert -tr.pi < predicted.yaw <= tr.pi;
    hide Compose, Inverse, PoseOf, Motion, Predict, ErrorBetween, Trig.Laws;
    ErrorIsDetermined(tr, next, target, predicted);
  }

  lemma ErrorIsPrincipal(tr: Trig, base: Pose, target: Pose)
    requires tr.Laws()
    ensures -tr.pi < ErrorBetween(tr, base, target).yaw <= tr.pi
  {
    var d := Compose(Inverse(base), target);
    tr.WrapKeepsDirection(tr.atan2(d.s, d.c));
  }

  /** A tracker that stands at the observation it last accepted stands at the next one it accepts, if that is the one it
      expects. */
  lemma ExactStep(tr: Trig, c: Config, s: TrackState, now: Sighting)
    requires tr.Laws() && c.Valid() && Coherent(s) && -tr.pi < now.seen.yaw <= tr.pi
    requires Observe(tr, c, s, AsReading(now.seen), now.stamp, now.command).1
    requires s.filtered == s.previousRaw
    requires s.filtered.Some? ==> Predict(tr, s.filtered.value, now.command, now.stamp - s.stamp) == now.seen
    ensures Observe(tr, c, s, AsReading(now.seen), now.stamp, now.command).0
            == TrackState(Some(now.seen), Some(now.seen), now.stamp, Counted(c, Kept(c, s, now.stamp).count))
  {
    hide Trig.Laws, Jumped, Weight, Predict, Blend, Counted;
    if s.filtered.Some? {
      var dt := now.stamp - s.stamp;
      if dt > 0.0 { AgreementIsFixed(tr, now.seen, Weight(c, dt)); }
    }
    assert AsReading(now.seen).Error() == now.seen;
  }

  /** A stationary target that is seen exactly by a robot that carries out its commands leaves the filtered pose at the
      true one, whatever the filter's time constant. */
  lemma {:induction false} ExactSightingsAreKept(tr: Trig, c: Config, target: Pose, robots: seq<Pose>,
                                                 sightings: seq<Sighting>)
    requires tr.Laws() && c.Valid() && sightings != []
    requires SeenExactly(tr, target, robots, sightings) && AllAccepted(tr, c, sightings)
    ensures var s, last := Track(tr, c, sightings), |sightings| - 1;
            && s.filtered == Some(ErrorBetween(tr, robots[last], target))
            && s.previousRaw == s.filtered && s.stamp == sightings[last].stamp
  {
    hide Trig.Laws, ErrorBetween, Motion, Compose, Predict, Observe, Coherent, AsReading, Kept, Counted;
    var last := |sightings| - 1;
    var before, now := sightings[..last], sightings[last];
    var s := Track(tr, c, before);
    assert Observe(tr, c, s, AsReading(now.seen), now.stamp, now.command).1;
    ErrorIsPrincipal(tr, robots[last], target);
    if last > 0 {
      ExactBefore(tr, c, target, robots, sightings);
      ExactSightingsAreKept(tr, c, target, robots[..last], before);
      PredictedExactly(tr, target, robots[last - 1], robots[last], now.command, now.stamp - before[last - 1].stamp);
    }
    ExactStep(tr, c, s, now);
  }

  lemma ExactBefore(tr: Trig, c: Config, target: Pose, robots: seq<Pose>, sightings: seq<Sighting>)
    requires c.Valid() && sightings != []
    requires SeenExactly(tr, target, robots, sightings) && AllAccepted(tr, c, sightings)
    ensures var last := |sightings| - 1;
            SeenExactly(tr, target, robots[..last], sightings[..last]) && AllAccepted(tr, c, sightings[..last])
  {
    hide ErrorBetween, Motion, Compose, Observe, Track;
    var last := |sightings| - 1;
    forall k | 0 <= k < last
      ensures sightings[..last][..k] == sightings[..k] && sightings[..last][k] == sightings[k]
    {
    }
  }
}
