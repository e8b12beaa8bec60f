/** Where the docking controller drives: which observations start it, at what it points, and how its heading turns. */
module MotionDirection {
  import opened Basics
  import opened Trigonometry
  import opened HolonomicFineAlign
  import opened DockingMotion
  import opened MotionBounds
  import Axes = ConfirmedAxis

  // ---------- What the observations so far add up to ----------

  /** The errors of the new, finite observations. */
  function Observed(inputs: seq<Input>): seq<PlanarError> {
    if inputs == [] then []
    else
      var last := inputs[|inputs| - 1];
      Observed(inputs[..|inputs| - 1])
      + (if last.isNew && last.reading.IsFinite() then [last.reading.Error()] else [])
  }

  /** What an axis sees: nothing behind, for a robot that may not reverse. */
  function Forwards(p: Setup, errors: seq<PlanarError>): seq<real> {
    seq(|errors|, i requires 0 <= i < |errors| =>
      if errors[i].x < 0.0 && !p.config.allowReverseX then 0.0 else errors[i].x)
  }

  function Sideways(errors: seq<PlanarError>): seq<real> {
    seq(|errors|, i requires 0 <= i < |errors| => errors[i].y)
  }

  function Yaws(errors: seq<PlanarError>): seq<real> {
    seq(|errors|, i requires 0 <= i < |errors| => errors[i].yaw)
  }

  ghost predicate AxesFollow(p: Setup, s: MotionState, errors: seq<PlanarError>) {
    && s.x == Axes.Run(Forwards(p, errors), p.AxisX())
    && s.y == Axes.Run(Sideways(errors), p.AxisY())
    && s.yaw == Axes.Run(Yaws(errors), p.AxisYaw())
  }

  /** The observations that open the yaw gate begin at `k`: as many as confirmation takes below the stop angle by the
      hysteresis, and none at the stop angle since. */
  ghost predicate OpenedAt(p: Setup, yaws: seq<real>, k: nat) {
    && k + p.motion.confirmationSamples <= |yaws|
    && (forall i | k <= i < k + p.motion.confirmationSamples ::
      Abs(yaws[i]) < p.config.translationYawStop - p.motion.yawHysteresis)
    && (forall i | k + p.motion.confirmationSamples <= i < |yaws| :: Abs(yaws[i]) < p.config.translationYawStop)
  }

  ghost predicate Opened(p: Setup, yaws: seq<real>) {
    exists k: nat :: OpenedAt(p, yaws, k)
  }

  /** How many of the latest yaw errors in a row are small enough to open the gate. */
  function SmallInARow(p: Setup, yaws: seq<real>): (n: nat)
    ensures n <= |yaws|
    ensures forall i | |yaws| - n <= i < |yaws| :: Abs(yaws[i]) < p.config.translationYawStop - p.motion.yawHysteresis
  {
    if yaws == [] || Abs(yaws[|yaws| - 1]) >= p.config.translationYawStop - p.motion.yawHysteresis then 0
    else SmallInARow(p, yaws[..|yaws| - 1]) + 1
  }

  lemma {:induction false} SmallIsLongest(p: Setup, yaws: seq<real>, k: nat)
    requires k <= |yaws|
    requires forall i | k <= i < |yaws| :: Abs(yaws[i]) < p.config.translationYawStop - p.motion.yawHysteresis
    ensures SmallInARow(p, yaws) >= |yaws| - k
  {
    if k < |yaws| {
      assert forall i | k <= i < |yaws| - 1 :: yaws[..|yaws| - 1][i] == yaws[i];
      SmallIsLongest(p, yaws[..|yaws| - 1], k);
    }
  }

  ghost predicate GateFollows(p: Setup, s: MotionState, yaws: seq<real>) {
    && (s.enabled <==> Opened(p, yaws))
    && (!s.enabled ==> s.confirmations == SmallInARow(p, yaws))
  }

  lemma OpenedBefore(p: Setup, yaws: seq<real>, y: real, k: nat)
    requires k + p.motion.confirmationSamples <= |yaws|
    ensures OpenedAt(p, yaws + [y], k) <==> OpenedAt(p, yaws, k) && Abs(y) < p.config.translationYawStop
  {
    assert forall i | 0 <= i < |yaws| :: (yaws + [y])[i] == yaws[i];
    assert (yaws + [y])[|yaws|] == y;
  }

  lemma OpenedNow(p: Setup, yaws: seq<real>, k: nat)
    requires k + p.motion.confirmationSamples == |yaws|
    ensures OpenedAt(p, yaws, k) <==> SmallInARow(p, yaws) >= p.motion.confirmationSamples
  {
    if OpenedAt(p, yaws, k) { SmallIsLongest(p, yaws, k); }
  }

  lemma OpenedStep(p: Setup, yaws: seq<real>, y: real)
    requires p.Valid()
    ensures Opened(p, yaws + [y]) <==>
              || (Opened(p, yaws) && Abs(y) < p.config.translationYawStop)
              || SmallInARow(p, yaws + [y]) >= p.motion.confirmationSamples
  {
    var more, n := yaws + [y], p.motion.confirmationSamples;
    if Opened(p, yaws) && Abs(y) < p.config.translationYawStop {
      var k: nat :| OpenedAt(p, yaws, k);
      OpenedBefore(p, yaws, y, k);
    }
    if SmallInARow(p, more) >= n {
      OpenedNow(p, more, |more| - n);
    }
    if Opened(p, more) {
      var k: nat :| OpenedAt(p, more, k);
      if k + n == |more| {
        OpenedNow(p, more, k);
      } else {
        OpenedBefore(p, yaws, y, k);
      }
    }
  }

  lemma GateStep(p: Setup, s: MotionState, yaws: seq<real>, y: real)
    requires p.Valid() && GateFollows(p, s, yaws)
    ensures GateFollows(p, Gate(p, s, y), yaws + [y])
  {
    OpenedStep(p, yaws, y);
    assert (yaws + [y])[..|yaws|] == yaws;
    hide Opened;
  }

  lemma RunAppends(errors: seq<real>, e: real, t: Axes.Thresholds)
    ensures Axes.Run(errors + [e], t) == Axes.Step(Axes.Run(errors, t), e, t)
  {
    assert (errors + [e])[..|errors|] == errors;
  }

  lemma ErrorsAppend(p: Setup, errors: seq<PlanarError>, e: PlanarError)
    ensures Forwards(p, errors + [e])
            == Forwards(p, errors) + [if e.x < 0.0 && !p.config.allowReverseX then 0.0 else e.x]
    ensures Sideways(errors + [e]) == Sideways(errors) + [e.y]
    ensures Yaws(errors + [e]) == Yaws(errors) + [e.yaw]
  {
  }

  lemma AxesStep(p: Setup, s: MotionState, errors: seq<PlanarError>, e: PlanarError)
    requires AxesFollow(p, s, errors)
    ensures AxesFollow(p, Observe(p, s, e), errors + [e])
  {
    var forward := if e.x < 0.0 && !p.config.allowReverseX then 0.0 else e.x;
    hide Axes.Run, Axes.Step, Forwards, Sideways, Yaws;
    ErrorsAppend(p, errors, e);
    RunAppends(Forwards(p, errors), forward, p.AxisX());
    RunAppends(Sideways(errors), e.y, p.AxisY());
    RunAppends(Yaws(errors), e.yaw, p.AxisYaw());
  }

  lemma ObserveFollows(p: Setup, s: MotionState, errors: seq<PlanarError>, e: PlanarError)
    requires p.Valid() && AxesFollow(p, s, errors) && GateFollows(p, s, Yaws(errors))
    ensures AxesFollow(p, Observe(p, s, e), errors + [e])
    ensures GateFollows(p, Observe(p, s, e), Yaws(errors + [e]))
  {
    AxesStep(p, s, errors, e);
    ErrorsAppend(p, errors, e);
    hide Axes.Run, Axes.Step, GateFollows, Forwards, Sideways, Yaws, AxesFollow;
    var forward := if p.config.allowReverseX then e.x else Max(0.0, e.x);
    var stepped := s.(x := Axes.Step(s.x, forward, p.AxisX()), y := Axes.Step(s.y, e.y, p.AxisY()),
                      yaw := Axes.Step(s.yaw, e.yaw, p.AxisYaw()));
    SameGate(p, s, stepped, Yaws(errors));
    GateStep(p, stepped, Yaws(errors), e.yaw);
  }

  lemma SameGate(p: Setup, s: MotionState, t: MotionState, yaws: seq<real>)
    requires GateFollows(p, s, yaws) && t.enabled == s.enabled && t.confirmations == s.confirmations
    ensures GateFollows(p, t, yaws)
  {
  }

  /** An update leaves axes and gate to the observation alone. */
  lemma UpdateObserves(p: Setup, s: MotionState, input: Input)
    requires TurnLimit(p, input.dt) >= 0.0
    ensures var next := Update(p, s, input).0;
            var seen := if input.isNew && input.reading.IsFinite() then Observe(p, s, input.reading.Error()) else s;
            && next.x == seen.x && next.y == seen.y && next.yaw == seen.yaw
            && next.enabled == seen.enabled && next.confirmations == seen.confirmations
  {
    hide Desired, Observe, TurnLimit;
  }

  lemma NothingObserved(p: Setup)
    requires p.Valid()
    ensures AxesFollow(p, INITIAL, []) && GateFollows(p, INITIAL, Yaws([])) && !Opened(p, Yaws([]))
  {
    assert Forwards(p, []) == [] && Sideways([]) == [] && Yaws([]) == [];
  }

  /** Whatever it was shown, each axis has seen the errors of the new observations in order, and the yaw gate is open
      exactly when enough of them in a row were small enough and none since was at the stop angle. */
  lemma {:induction false} RunFollows(p: Setup, inputs: seq<Input>)
    requires p.Valid() && Monotone(p, inputs)
    ensures AxesFollow(p, After(p, inputs), Observed(inputs))
    ensures After(p, inputs).enabled <==> Opened(p, Yaws(Observed(inputs)))
    ensures GateFollows(p, After(p, inputs), Yaws(Observed(inputs)))
  {
    hide Observe, Update, Axes.Run, Opened, Forwards, Sideways, Yaws, TurnLimit;
    if inputs == [] {
      NothingObserved(p);
    } else {
      var before, last := inputs[..|inputs| - 1], inputs[|inputs| - 1];
      RunFollows(p, before);
      var s := After(p, before);
      UpdateObserves(p, s, last);
      if last.isNew && last.reading.IsFinite() {
        ObserveFollows(p, s, Observed(before), last.reading.Error());
        s := Observe(p, s, last.reading.Error());
      } else {
        assert Observed(inputs) == Observed(before);
      }
      SameGate(p, s, After(p, inputs), Yaws(Observed(inputs)));
    }
  }

  // ---------- At what it points ----------

  /** The position error the controller works down: each component only if its axis is in motion, and only beyond the
      axis's stop tolerance; behind only when reversing is allowed. */
  ghost predicate WorksDown(p: Setup, s: MotionState, e: PlanarError, dx: real, dy: real) {
    var stopX, stopY := p.AxisX().Stop(), p.AxisY().Stop();
    && dx == (if s.x.active != 0 && (e.x > stopX || (e.x < -stopX && p.config.allowReverseX)) then e.x else 0.0)
    && dy == (if s.y.active != 0 && (e.y > stopY || e.y < -stopY) then e.y else 0.0)
  }

  lemma DesiredIs(p: Setup, s: MotionState, e: PlanarError)
    requires p.Valid()
    ensures Desired(p, s, e).Some? && Command(p.tr, AsReading(Selected(s, e)), p.Moving()).Some?
    ensures var v, c := Desired(p, s, e).value, Command(p.tr, AsReading(Selected(s, e)), p.Moving()).value;
            && (s.enabled ==> v.x == c.x && v.y == c.y) && (!s.enabled ==> v.x == 0.0 && v.y == 0.0)
            && (s.yaw.active != 0 ==> v.yaw == c.yaw) && (s.yaw.active == 0 ==> v.yaw == 0.0)
  {
    MovingValid(p);
    hide SpeedCeiling, Speed, Rescaled, TurnRate;
  }

  lemma SelectedLies(p: Setup, s: MotionState, e: PlanarError, dx: real, dy: real)
    requires p.Valid() && WorksDown(p, s, e, dx, dy)
    ensures p.Moving().Valid() && LiesAt(Selected(s, e), p.Moving(), dx, dy)
  {
    MovingValid(p);
  }

  lemma SameDirection(v: Velocity, c: Velocity, dx: real, dy: real)
    requires PointsAt(c, dx, dy) && v.x == c.x && v.y == c.y
    ensures PointsAt(v, dx, dy)
  {
    var k :| IsMultiple(c, k, dx, dy);
    assert IsMultiple(v, k, dx, dy);
  }

  lemma NothingToPointAt(c: Velocity, dx: real, dy: real)
    ensures PointsAt(c, dx, dy) && dx == 0.0 && dy == 0.0 ==> c.x == 0.0 && c.y == 0.0
  {
  }

  /** An update without a refusal is what the limiter makes of the desired velocity. */
  lemma UpdateIs(p: Setup, s: MotionState, input: Input)
    requires p.Valid() && TurnLimit(p, input.dt) >= 0.0 && input.reading.IsFinite()
    ensures var e := input.reading.Error();
            var observed := if input.isNew then Observe(p, s, e) else s;
            && Desired(p, observed, e).Some?
            && var (next, v) := Steer(p, observed, Desired(p, observed, e).value, TurnLimit(p, input.dt), input.isNew);
               Update(p, s, input) == (next, Some(v))
  {
    var e := input.reading.Error();
    DesiredIs(p, if input.isNew then Observe(p, s, e) else s, e);
    hide Steer, Desired, Observe, TurnLimit, Command;
  }

  /** Before the limiter the velocity points at that error, with the gate open and the heading error below the stop. */
  lemma DesiredPoints(p: Setup, s: MotionState, e: PlanarError, dx: real, dy: real)
    requires p.Valid() && WorksDown(p, s, e, dx, dy)
    ensures Desired(p, s, e).Some?
    ensures var v := Desired(p, s, e).value;
            if s.enabled && Abs(e.yaw) < p.config.translationYawStop && (dx != 0.0 || dy != 0.0) then
              PointsAt(v, dx, dy)
            else v.x == 0.0 && v.y == 0.0
  {
    hide Command, Desired, LiesAt, WorksDown, PointsAt;
    DesiredIs(p, s, e);
    SelectedLies(p, s, e, dx, dy);
    var c := Command(p.tr, AsReading(Selected(s, e)), p.Moving()).value;
    CommandPoints(p.tr, AsReading(Selected(s, e)), p.Moving(), dx, dy);
    if PointsAt(c, dx, dy) && s.enabled {
      SameDirection(Desired(p, s, e).value, c, dx, dy);
    }
    NothingToPointAt(c, dx, dy);
  }

  lemma MultipleLength(tr: Trig, v: Velocity, k: real, dx: real, dy: real)
    requires tr.Laws() && IsMultiple(v, k, dx, dy)
    ensures tr.hypot(v.x, v.y) == k * tr.hypot(dx, dy)
  {
    assert tr.HypotAt(dx, dy);
    var h := tr.hypot(dx, dy);
    ScaledSquares(k, dx, dy, h);
    tr.HypotIs(v.x, v.y, k * h);
  }

  lemma ScaledSquares(k: real, dx: real, dy: real, h: real)
    requires k > 0.0 && h >= 0.0 && h * h == dx * dx + dy * dy
    ensures (k * dx) * (k * dx) + (k * dy) * (k * dy) == (k * h) * (k * h) && k * h >= 0.0
  {
    assert (k * dx) * (k * dx) + (k * dy) * (k * dy) == (k * k) * (dx * dx + dy * dy);
    assert (k * h) * (k * h) == (k * k) * (h * h);
  }

  lemma CancelScale(k: real, h: real, a: real, b: real, d: real)
    requires k > 0.0 && h > 0.0 && (k * h) * a == k * d && h * b == d
    ensures a == b
  {
    var m := k * h;
    assert m > 0.0;
    assert m * b == k * (h * b);
    assert (a - b) * m == 0.0;
  }

  lemma SamePolar(tr: Trig, v: Velocity, k: real, dx: real, dy: real)
    requires tr.Laws() && IsMultiple(v, k, dx, dy) && (dx != 0.0 || dy != 0.0)
    ensures tr.cos(tr.atan2(v.y, v.x)) == tr.cos(tr.atan2(dy, dx))
    ensures tr.sin(tr.atan2(v.y, v.x)) == tr.sin(tr.atan2(dy, dx))
  {
    var a, b, h := tr.atan2(v.y, v.x), tr.atan2(dy, dx), tr.hypot(dx, dy);
    MultipleLength(tr, v, k, dx, dy);
    assert tr.HypotAt(dx, dy);
    assert tr.PolarAt(v.x, v.y);
    assert tr.PolarAt(dx, dy);
    hide Trig.Laws;
    CancelScale(k, h, tr.cos(a), tr.cos(b), dx);
    CancelScale(k, h, tr.sin(a), tr.sin(b), dy);
  }

  /** A velocity that points at an error has its bearing. */
  lemma SameBearing(tr: Trig, v: Velocity, dx: real, dy: real)
    requires tr.Laws() && PointsAt(v, dx, dy) && (dx != 0.0 || dy != 0.0)
    ensures tr.atan2(v.y, v.x) == tr.atan2(dy, dx)
  {
    var k :| IsMultiple(v, k, dx, dy);
    SamePolar(tr, v, k, dx, dy);
    assert tr.PolarAt(v.x, v.y) && tr.PolarAt(dx, dy);
    assert tr.PrincipalAt(tr.atan2(v.y, v.x)) && tr.PrincipalAt(tr.atan2(dy, dx));
    hide Trig.Laws, IsMultiple;
  }

  // ---------- How the heading turns ----------

  /** From one heading to another, toward a bearing `delta` away but no further than `limit`. */
  ghost predicate TurnsBy(from: real, to: real, delta: real, limit: real) {
    && (-limit <= delta <= limit ==> to == from + delta)
    && (delta > limit ==> to == from + limit)
    && (delta < -limit ==> to == from - limit)
  }

  /** A heading turned all the way to a bearing is that bearing. */
  lemma TurnedAllTheWay(tr: Trig, from: real, bearing: real)
    requires tr.Laws()
    ensures var to := from + tr.WrapAngle(bearing - from);
            tr.cos(to) == tr.cos(bearing) && tr.sin(to) == tr.sin(bearing)
  {
    var turn, w := bearing - from, tr.WrapAngle(bearing - from);
    tr.WrapKeepsDirection(turn);
    assert tr.AdditionAt(from, w) && tr.AdditionAt(from, turn);
    assert from + turn == bearing;
  }

  /** What the limiter does with a velocity that translates: it waits out a reconfirmation, sets out along a first
      heading at once, stops before a turn beyond a right angle, and otherwise turns its heading toward the velocity's
      as far as the limit lets it. */
  lemma SteerTurns(p: Setup, s: MotionState, v: Velocity, limit: real, isNew: bool)
    requires p.Valid() && limit >= 0.0 && Coherent(p, s) && Translating(v)
    ensures var (next, out) := Steer(p, s, v, limit, isNew);
            var bearing := p.tr.atan2(v.y, v.x);
            var still := out.x == 0.0 && out.y == 0.0 && next.heading.None?;
            if s.reconfirmations > 0 && (!isNew || s.reconfirmations < p.motion.confirmationSamples) then
              still && next.reconfirmations == s.reconfirmations + (if isNew then 1 else 0)
            else if s.heading.None? then
              out == v && next.heading == Some(bearing) && next.reconfirmations == 0
            else
              var delta := p.tr.WrapAngle(bearing - s.heading.value);
              if delta > QUARTER_TURN || delta < -QUARTER_TURN then still && next.reconfirmations == 1
              else
                && next.heading.Some? && next.reconfirmations == 0
                && TurnsBy(s.heading.value, next.heading.value, delta, limit)
                && PointsAlong(p.tr, out, next.heading.value)
                && p.tr.hypot(out.x, out.y) == p.tr.hypot(v.x, v.y)
                && (-limit <= delta <= limit ==> out == v)
  {
    var tr := p.tr;
    var speed, bearing := tr.hypot(v.x, v.y), tr.atan2(v.y, v.x);
    assert tr.HypotAt(v.x, v.y) && tr.PolarAt(v.x, v.y);
    if s.heading.Some? {
      TurnedAllTheWay(tr, s.heading.value, bearing);
      var next := Steer(p, s, v, limit, isNew).0;
      if next.heading.Some? {
        TowardSpeed(tr, speed, next.heading.value, v.yaw);
      }
    }
    hide PointsAlong;
  }

  /** What an update makes of a finite error, `(dx, dy)` being what it works down. */
  ghost predicate Drives(p: Setup, s: MotionState, observed: MotionState, input: Input, dx: real, dy: real,
                         next: MotionState, v: Velocity)
    requires input.reading.IsFinite()
  {
    var still := v.x == 0.0 && v.y == 0.0 && next.heading.None?;
    var limit, bearing := TurnLimit(p, input.dt), p.tr.atan2(dy, dx);
    if !observed.enabled || Abs(input.reading.yaw.v) >= p.config.translationYawStop || (dx == 0.0 && dy == 0.0) then
      still && next.reconfirmations == 0
    else if s.reconfirmations > 0 && (!input.isNew || s.reconfirmations < p.motion.confirmationSamples) then
      still && next.reconfirmations == s.reconfirmations + (if input.isNew then 1 else 0)
    else if s.heading.None? then
      PointsAt(v, dx, dy) && next.heading == Some(bearing) && next.reconfirmations == 0
    else
      var delta := p.tr.WrapAngle(bearing - s.heading.value);
      if delta > QUARTER_TURN || delta < -QUARTER_TURN then still && next.reconfirmations == 1
      else
        && next.heading.Some? && next.reconfirmations == 0
        && TurnsBy(s.heading.value, next.heading.value, delta, limit)
        && Translating(v) && PointsAlong(p.tr, v, next.heading.value)
        && (-limit <= delta <= limit ==> PointsAt(v, dx, dy))
  }

  /** An update drives at the error it works down: directly when it has no heading to keep, and otherwise turning its
      heading toward that error; it stands still exactly when there is nothing to work down, the gate is shut, a
      reconfirmation is under way, or the turn would be beyond a right angle. */
  lemma UpdateDrives(p: Setup, s: MotionState, input: Input, dx: real, dy: real)
    requires p.Valid() && TurnLimit(p, input.dt) >= 0.0 && input.reading.IsFinite() && Coherent(p, s)
    requires var e := input.reading.Error();
             WorksDown(p, if input.isNew then Observe(p, s, e) else s, e, dx, dy)
    ensures Update(p, s, input).1.Some?
    ensures var e := input.reading.Error();
            Drives(p, s, if input.isNew then Observe(p, s, e) else s, input, dx, dy, Update(p, s, input).0,
                   Update(p, s, input).1.value)
  {
    var e := input.reading.Error();
    var observed := if input.isNew then Observe(p, s, e) else s;
    hide Observe, Desired, Update, Steer, TurnLimit, WorksDown, PointsAlong, TurnsBy, PointsAt, Setup.Valid, Drives;
    ObserveKeepsHeading(p, s, e);
    UpdateIs(p, s, input);
    DesiredPoints(p, observed, e, dx, dy);
    var v := Desired(p, observed, e).value;
    if observed.enabled && Abs(e.yaw) < p.config.translationYawStop && (dx != 0.0 || dy != 0.0) {
      DrivesOn(p, s, observed, input, dx, dy, v);
    } else {
      DrivesNowhere(p, s, observed, input, dx, dy, v);
    }
  }

  lemma DrivesNowhere(p: Setup, s: MotionState, observed: MotionState, input: Input, dx: real, dy: real, v: Velocity)
    requires p.Valid() && TurnLimit(p, input.dt) >= 0.0 && input.reading.IsFinite()
    requires !observed.enabled || Abs(input.reading.yaw.v) >= p.config.translationYawStop || (dx == 0.0 && dy == 0.0)
    requires v.x == 0.0 && v.y == 0.0
    ensures var (next, out) := Steer(p, observed, v, TurnLimit(p, input.dt), input.isNew);
            Drives(p, s, observed, input, dx, dy, next, out)
  {
    hide TurnLimit, PointsAt, TurnsBy, PointsAlong, Setup.Valid;
    SteerStands(p, observed, v, TurnLimit(p, input.dt), input.isNew);
    hide Steer;
  }

  lemma DrivesOn(p: Setup, s: MotionState, observed: MotionState, input: Input, dx: real, dy: real, v: Velocity)
    requires p.Valid() && TurnLimit(p, input.dt) >= 0.0 && input.reading.IsFinite() && Coherent(p, observed)
    requires observed.heading == s.heading && observed.reconfirmations == s.reconfirmations
    requires observed.enabled && Abs(input.reading.yaw.v) < p.config.translationYawStop
    requires PointsAt(v, dx, dy) && (dx != 0.0 || dy != 0.0)
    ensures var (next, out) := Steer(p, observed, v, TurnLimit(p, input.dt), input.isNew);
            Drives(p, s, observed, input, dx, dy, next, out)
  {
    hide TurnLimit, PointsAt, TurnsBy, PointsAlong, Setup.Valid, Steer, Coherent;
    SetupLaws(p);
    PointingTranslates(v, dx, dy);
    SteerTurns(p, observed, v, TurnLimit(p, input.dt), input.isNew);
    SameBearing(p.tr, v, dx, dy);
    SteerBounds(p, observed, v, TurnLimit(p, input.dt), input.isNew);
  }

  lemma SetupLaws(p: Setup)
    requires p.Valid()
    ensures p.tr.Laws()
  {
  }

  lemma PointingTranslates(v: Velocity, dx: real, dy: real)
    requires PointsAt(v, dx, dy) && (dx != 0.0 || dy != 0.0)
    ensures Translating(v)
  {
    var k :| IsMultiple(v, k, dx, dy);
    ProductSign(k, dx);
    ProductSign(k, dy);
  }

  lemma ObserveKeepsHeading(p: Setup, s: MotionState, e: PlanarError)
    ensures Observe(p, s, e).heading == s.heading && Observe(p, s, e).reconfirmations == s.reconfirmations
  {
  }

  lemma SteerStands(p: Setup, s: MotionState, v: Velocity, limit: real, isNew: bool)
    requires p.Valid() && limit >= 0.0
    ensures !Translating(v) ==> Steer(p, s, v, limit, isNew) == (s.(heading := None, reconfirmations := 0), v)
  {
    assert p.tr.HypotAt(v.x, v.y);
  }

  // ---------- How fast ----------

  /** The speed is the proportional law's for the error worked down, and the turn that for the yaw error, down to the
      yaw axis's stop tolerance while that axis is in motion. */
  lemma UpdateSpeed(p: Setup, s: MotionState, input: Input, dx: real, dy: real)
    requires p.Valid() && TurnLimit(p, input.dt) >= 0.0 && input.reading.IsFinite() && Coherent(p, s)
    requires var e := input.reading.Error();
             WorksDown(p, if input.isNew then Observe(p, s, e) else s, e, dx, dy)
    requires Update(p, s, input).1.Some? && Translating(Update(p, s, input).1.value)
    ensures var v := Update(p, s, input).1.value;
            SpeedFits(p.config, p.tr.hypot(dx, dy), input.reading.yaw.v, p.tr.hypot(v.x, v.y))
  {
    var e := input.reading.Error();
    var observed := if input.isNew then Observe(p, s, e) else s;
    hide Observe, Desired, Update, Steer, TurnLimit, WorksDown, LiesAt, Command, PointsAt, SpeedFits, TurnFits;
    ObserveKeepsHeading(p, s, e);
    UpdateIs(p, s, input);
    DesiredIs(p, observed, e);
    DesiredPoints(p, observed, e, dx, dy);
    SteerBounds(p, observed, Desired(p, observed, e).value, TurnLimit(p, input.dt), input.isNew);
    SelectedLies(p, observed, e, dx, dy);
    SpeedLaw(p.tr, AsReading(Selected(observed, e)), p.Moving(), dx, dy);
    var c := Command(p.tr, AsReading(Selected(observed, e)), p.Moving()).value;
    MovingSpeedFits(p, p.tr.hypot(dx, dy), e.yaw, p.tr.hypot(c.x, c.y));
  }

  /** The configuration the laws are asked with differs only in its tolerances. */
  lemma MovingSpeedFits(p: Setup, distance: real, yaw: real, speed: real)
    requires p.Valid() && SpeedFits(p.Moving(), distance, yaw, speed)
    ensures SpeedFits(p.config, distance, yaw, speed)
  {
  }

  lemma MovingTurnFits(p: Setup, yaw: real, turn: real)
    requires p.Valid() && TurnFits(p.Moving(), p.Moving().yawTolerance, yaw, turn)
    ensures TurnFits(p.config, p.AxisYaw().Stop(), yaw, turn)
  {
  }

  lemma UpdateTurns(p: Setup, s: MotionState, input: Input)
    requires p.Valid() && TurnLimit(p, input.dt) >= 0.0 && input.reading.IsFinite()
    ensures Update(p, s, input).1.Some?
    ensures var observed := if input.isNew then Observe(p, s, input.reading.Error()) else s;
            var turn := Update(p, s, input).1.value.yaw;
            if observed.yaw.active == 0 then turn == 0.0
            else TurnFits(p.config, p.AxisYaw().Stop(), input.reading.yaw.v, turn)
  {
    var e := input.reading.Error();
    var observed := if input.isNew then Observe(p, s, e) else s;
    hide Observe, Desired, Update, Steer, TurnLimit, Command, SpeedFits, TurnFits;
    UpdateIs(p, s, input);
    DesiredIs(p, observed, e);
    MovingValid(p);
    TurnLaw(p.tr, AsReading(Selected(observed, e)), p.Moving());
    MovingTurnFits(p, e.yaw, Command(p.tr, AsReading(Selected(observed, e)), p.Moving()).value.yaw);
    SteerKeepsYaw(p, observed, Desired(p, observed, e).value, TurnLimit(p, input.dt), input.isNew);
  }

  lemma SteerKeepsYaw(p: Setup, s: MotionState, v: Velocity, limit: real, isNew: bool)
    requires limit >= 0.0
    ensures Steer(p, s, v, limit, isNew).1.yaw == v.yaw
  {
  }
}
