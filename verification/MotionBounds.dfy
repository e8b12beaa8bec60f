/** What every command of the docking controller satisfies, whatever it was shown before. */
module MotionBounds {
  import opened Basics
  import opened Trigonometry
  import opened ConfirmedAxis
  import opened HolonomicFineAlign
  import opened DockingMotion

  ghost predicate Translating(v: Velocity) {
    v.x != 0.0 || v.y != 0.0
  }

  /** The translation of `v` points along `heading`. */
  ghost predicate PointsAlong(tr: Trig, v: Velocity, heading: real) {
    && v.x == tr.hypot(v.x, v.y) * tr.cos(heading)
    && v.y == tr.hypot(v.x, v.y) * tr.sin(heading)
  }

  /** `v` points along `a`, `w` along `b`, and the two headings are at most `limit` apart. */
  ghost predicate TurnsBetween(tr: Trig, v: Velocity, a: real, w: Velocity, b: real, limit: real) {
    PointsAlong(tr, v, a) && PointsAlong(tr, w, b) && Abs(b - a) <= limit
  }

  ghost predicate HeadingsWithin(tr: Trig, v: Velocity, w: Velocity, limit: real) {
    exists a, b :: TurnsBetween(tr, v, a, w, b, limit)
  }

  lemma MovingValid(p: Setup)
    requires p.Valid()
    ensures p.Moving().Valid()
  {
  }

  /** Before the limiter: the speed ranges and the reasons to move. */
  lemma DesiredBounds(p: Setup, s: MotionState, e: PlanarError)
    requires p.Valid()
    ensures Desired(p, s, e).Some?
    ensures var v := Desired(p, s, e).value;
            && var speed := p.tr.hypot(v.x, v.y);
               speed == 0.0 || p.config.translationSpeedMin <= speed <= p.config.translationSpeedMax
    ensures var v := Desired(p, s, e).value;
            && (Translating(v) <==> s.enabled && Translates(Selected(s, e), p.Moving()))
            && (Translating(v) ==> Abs(e.yaw) < p.config.translationYawStop)
            && (p.config.allowReverseX || v.x >= 0.0)
            && (v.yaw != 0.0 ==> p.config.angularSpeedMin <= Abs(v.yaw) <= p.config.angularSpeedMax)
            && (v.yaw != 0.0 <==> s.yaw.active != 0 && Turns(e, p.Moving()))
  {
    hide SpeedCeiling, Speed, Rescaled;
    MovingValid(p);
    var reading := AsReading(Selected(s, e));
    TranslationBounds(p.tr, reading, p.Moving());
    TurnBounds(p.tr, reading, p.Moving());
    if !p.config.allowReverseX { NeverBacksUp(p.tr, reading, p.Moving()); }
    var c := Command(p.tr, reading, p.Moving()).value;
    assert p.tr.HypotAt(c.x, c.y) && p.tr.HypotAt(0.0, 0.0);
  }

  lemma TowardSpeed(tr: Trig, speed: real, heading: real, yaw: real)
    requires tr.Laws() && speed > 0.0
    ensures var v := Toward(tr, speed, heading, yaw);
            tr.hypot(v.x, v.y) == speed && PointsAlong(tr, v, heading) && Translating(v) && v.yaw == yaw
  {
    var v := Toward(tr, speed, heading, yaw);
    tr.HypotOfPolar(v.x, v.y, speed, heading);
    assert tr.HypotAt(v.x, v.y);
  }

  /** The limiter either stops the translation or keeps its speed; a kept heading is the one remembered, and it
      turned no further than the limit allows. */
  lemma SteerBounds(p: Setup, s: MotionState, v: Velocity, limit: real, isNew: bool)
    requires p.Valid() && limit >= 0.0 && Coherent(p, s)
    ensures Coherent(p, Steer(p, s, v, limit, isNew).0)
    ensures var (next, out) := Steer(p, s, v, limit, isNew);
            && out.yaw == v.yaw
            && (Translating(out) ==> p.tr.hypot(out.x, out.y) == p.tr.hypot(v.x, v.y))
            && (Translating(out) ==> Translating(v))
            && (next.heading.Some? <==> Translating(out))
            && (next.heading.Some? ==> PointsAlong(p.tr, out, next.heading.value))
            && (next.heading.Some? && s.heading.Some? ==>
                  Abs(next.heading.value - s.heading.value) <= limit)
  {
    hide Toward;
    assert p.tr.HypotAt(v.x, v.y);
    var next := Steer(p, s, v, limit, isNew).0;
    if next.heading.Some? {
      TowardSpeed(p.tr, p.tr.hypot(v.x, v.y), next.heading.value, v.yaw);
    }
  }

  /** A controller waiting to reconfirm its direction remembers no heading. */
  ghost predicate Coherent(p: Setup, s: MotionState) {
    s.reconfirmations > 0 ==> s.heading.None? && s.reconfirmations <= p.motion.confirmationSamples
  }

  /** One update. */
  lemma UpdateBounds(p: Setup, s: MotionState, input: Input)
    requires p.Valid() && TurnLimit(p, input.dt) >= 0.0 && input.reading.IsFinite() && Coherent(p, s)
    ensures Update(p, s, input).1.Some? && Coherent(p, Update(p, s, input).0)
    ensures var v := Update(p, s, input).1.value;
            && var speed := p.tr.hypot(v.x, v.y);
               speed == 0.0 || p.config.translationSpeedMin <= speed <= p.config.translationSpeedMax
    ensures var v := Update(p, s, input).1.value;
            && (v.yaw == 0.0 || p.config.angularSpeedMin <= Abs(v.yaw) <= p.config.angularSpeedMax)
            && (Translating(v) ==> Abs(input.reading.yaw.v) < p.config.translationYawStop)
    ensures var (next, out) := Update(p, s, input);
            && (next.heading.Some? <==> Translating(out.value))
            && (next.heading.Some? ==> PointsAlong(p.tr, out.value, next.heading.value))
            && (next.heading.Some? && s.heading.Some? ==>
                  Abs(next.heading.value - s.heading.value) <= TurnLimit(p, input.dt))
  {
    hide SpeedCeiling, Speed, Rescaled, Steer, Desired, TurnLimit;
    var e := input.reading.Error();
    var observed := if input.isNew then Observe(p, s, e) else s;
    DesiredBounds(p, observed, e);
    var v := Desired(p, observed, e).value;
    SteerBounds(p, observed, v, TurnLimit(p, input.dt), input.isNew);
    var out := Update(p, s, input).1.value;
    assert p.tr.HypotAt(out.x, out.y) && p.tr.HypotAt(0.0, 0.0);
  }

  // ---------- Runs ----------

  /** The caller's clock never runs backwards. */
  ghost predicate Monotone(p: Setup, inputs: seq<Input>) {
    forall i | 0 <= i < |inputs| :: TurnLimit(p, inputs[i].dt) >= 0.0
  }

  /** The controller after a run of updates. */
  ghost function After(p: Setup, inputs: seq<Input>): MotionState
    requires Monotone(p, inputs)
  {
    if inputs == [] then INITIAL
    else Update(p, After(p, inputs[..|inputs| - 1]), inputs[|inputs| - 1]).0
  }

  /** The command the `k`-th update returned. */
  ghost function CommandAt(p: Setup, inputs: seq<Input>, k: nat): Option<Velocity>
    requires Monotone(p, inputs) && k < |inputs|
  {
    Update(p, After(p, inputs[..k]), inputs[k]).1
  }

  lemma {:induction false} RunCoherent(p: Setup, inputs: seq<Input>)
    requires p.Valid() && Monotone(p, inputs)
    ensures Coherent(p, After(p, inputs))
  {
    if inputs != [] {
      var before, last := inputs[..|inputs| - 1], inputs[|inputs| - 1];
      RunCoherent(p, before);
      if last.reading.IsFinite() {
        UpdateBounds(p, After(p, before), last);
      }
    }
  }

  /** Every command of every run keeps to the speed ranges, and translates only while the robot faces the target. */
  lemma RunBounds(p: Setup, inputs: seq<Input>, k: nat)
    requires p.Valid() && Monotone(p, inputs) && k < |inputs|
    ensures CommandAt(p, inputs, k).Some? <==> inputs[k].reading.IsFinite()
    ensures CommandAt(p, inputs, k).Some? ==>
              var v := CommandAt(p, inputs, k).value;
              && var speed := p.tr.hypot(v.x, v.y);
              && (speed == 0.0 || p.config.translationSpeedMin <= speed <= p.config.translationSpeedMax)
              && (v.yaw == 0.0 || p.config.angularSpeedMin <= Abs(v.yaw) <= p.config.angularSpeedMax)
              && (Translating(v) ==> Abs(inputs[k].reading.yaw.v) < p.config.translationYawStop)
  {
    RunCoherent(p, inputs[..k]);
    if inputs[k].reading.IsFinite() {
      UpdateBounds(p, After(p, inputs[..k]), inputs[k]);
    }
  }

  /** Two translating commands in a row differ in heading by no more than the direction rate allows. */
  lemma HeadingRate(p: Setup, inputs: seq<Input>, k: nat)
    requires p.Valid() && Monotone(p, inputs) && k + 1 < |inputs|
    requires CommandAt(p, inputs, k).Some? && CommandAt(p, inputs, k + 1).Some?
    requires Translating(CommandAt(p, inputs, k).value) && Translating(CommandAt(p, inputs, k + 1).value)
    ensures HeadingsWithin(p.tr, CommandAt(p, inputs, k).value, CommandAt(p, inputs, k + 1).value,
                           TurnLimit(p, inputs[k + 1].dt))
  {
    RunCoherent(p, inputs[..k]);
    RunBounds(p, inputs, k);
    RunBounds(p, inputs, k + 1);
    var s := After(p, inputs[..k]);
    UpdateBounds(p, s, inputs[k]);
    assert inputs[..k + 1][..k] == inputs[..k];
    var next := After(p, inputs[..k + 1]);
    assert next == Update(p, s, inputs[k]).0;
    UpdateBounds(p, next, inputs[k + 1]);
    var last := Update(p, next, inputs[k + 1]).0;
    assert TurnsBetween(p.tr, CommandAt(p, inputs, k).value, next.heading.value,
                        CommandAt(p, inputs, k + 1).value, last.heading.value, TurnLimit(p, inputs[k + 1].dt));
  }

  // ---------- A robot that may not reverse ----------

  ghost predicate FacesForward(p: Setup, s: MotionState) {
    s.heading.Some? ==> -p.tr.pi / 2.0 <= s.heading.value <= p.tr.pi / 2.0
  }

  /** Between two forward headings the limiter stays forward: the shorter way round never leads behind. */
  lemma SteerForward(p: Setup, s: MotionState, v: Velocity, limit: real, isNew: bool)
    requires p.Valid() && limit >= 0.0 && FacesForward(p, s) && v.x >= 0.0
    ensures FacesForward(p, Steer(p, s, v, limit, isNew).0)
    ensures Steer(p, s, v, limit, isNew).1.x >= 0.0
  {
    var direction := p.tr.atan2(v.y, v.x);
    assert p.tr.PolarAt(v.x, v.y) && p.tr.HypotAt(v.x, v.y);
    if s.heading.Some? {
      var turn := direction - s.heading.value;
      assert -p.tr.pi <= turn <= p.tr.pi;
      assert p.tr.PrincipalAt(turn);
      p.tr.WrapOfMinusPi();
      assert Abs(p.tr.WrapAngle(turn)) <= QUARTER_TURN ==> p.tr.WrapAngle(turn) == turn;
    }
    var next := Steer(p, s, v, limit, isNew).0;
    if next.heading.Some? {
      assert p.tr.PrincipalAt(next.heading.value);
      ProductNonnegative(p.tr.hypot(v.x, v.y), p.tr.cos(next.heading.value));
    }
  }

  lemma ProductNonnegative(a: real, b: real)
    requires a >= 0.0 && b >= 0.0
    ensures a * b >= 0.0
  {
  }

  lemma {:induction false} RunFacesForward(p: Setup, inputs: seq<Input>)
    requires p.Valid() && Monotone(p, inputs) && !p.config.allowReverseX
    ensures FacesForward(p, After(p, inputs))
  {
    if inputs != [] {
      RunFacesForward(p, inputs[..|inputs| - 1]);
      UpdateForward(p, After(p, inputs[..|inputs| - 1]), inputs[|inputs| - 1]);
    }
  }

  lemma UpdateForward(p: Setup, s: MotionState, input: Input)
    requires p.Valid() && TurnLimit(p, input.dt) >= 0.0 && !p.config.allowReverseX && FacesForward(p, s)
    ensures FacesForward(p, Update(p, s, input).0)
    ensures Update(p, s, input).1.Some? ==> Update(p, s, input).1.value.x >= 0.0
  {
    hide Steer, Desired, TurnLimit;
    if input.reading.IsFinite() {
      var e := input.reading.Error();
      var observed := if input.isNew then Observe(p, s, e) else s;
      DesiredBounds(p, observed, e);
      SteerForward(p, observed, Desired(p, observed, e).value, TurnLimit(p, input.dt), input.isNew);
    }
  }

  /** With reversing disallowed no command of any run moves backward. */
  lemma NeverReverses(p: Setup, inputs: seq<Input>, k: nat)
    requires p.Valid() && Monotone(p, inputs) && k < |inputs| && !p.config.allowReverseX
    ensures CommandAt(p, inputs, k).Some? ==> CommandAt(p, inputs, k).value.x >= 0.0
  {
    RunFacesForward(p, inputs[..k]);
    UpdateForward(p, After(p, inputs[..k]), inputs[k]);
  }
}
