/** The proportional controller of holonomic_fine_align.hpp. */
module HolonomicFineAlign {
  import opened Basics
  import opened Trigonometry

  /** Position of the target in the robot frame. */
  datatype PlanarError = PlanarError(x: real, y: real, yaw: real)

  /** A measured error, any component of which may have failed to be a number. */
  datatype Reading = Reading(x: Num, y: Num, yaw: Num) {
    predicate IsFinite() {
      x.Finite? && y.Finite? && yaw.Finite?
    }

    function Error(): PlanarError
      requires IsFinite()
    {
      PlanarError(x.v, y.v, yaw.v)
    }
  }

  datatype Config = Config(
    translationGain: real,
    yawGain: real,
    translationSpeedMin: real,
    translationSpeedMax: real,
    angularSpeedMin: real,
    angularSpeedMax: real,
    translationYawStop: real,
    xTolerance: real,
    yTolerance: real,
    yawTolerance: real,
    allowReverseX: bool)
  {
    predicate Valid() {
      && translationGain > 0.0
      && yawGain > 0.0
      && translationSpeedMin > 0.0
      && translationSpeedMax >= translationSpeedMin
      && angularSpeedMin > 0.0
      && angularSpeedMax >= angularSpeedMin
      && translationYawStop > 0.0
      && xTolerance > 0.0
      && yTolerance > 0.0
      && yawTolerance > 0.0
    }
  }

  predicate AtGoal(reading: Reading, config: Config) {
    && reading.IsFinite()
    && Abs(reading.x.v) <= config.xTolerance
    && Abs(reading.y.v) <= config.yTolerance
    && Abs(reading.yaw.v) <= config.yawTolerance
  }

  /** The forward component to correct: nothing inside the tolerance, nothing behind unless reversing is allowed. */
  function ForwardTarget(e: PlanarError, config: Config): real {
    var x := if Abs(e.x) > config.xTolerance then e.x else 0.0;
    if config.allowReverseX then x else Max(0.0, x)
  }

  function LateralTarget(e: PlanarError, config: Config): real {
    if Abs(e.y) > config.yTolerance then e.y else 0.0
  }

  /** The speed ceiling falls linearly to the minimum speed as the heading error reaches the stop angle. */
  function SpeedCeiling(e: PlanarError, config: Config): real
    requires config.Valid()
  {
    config.translationSpeedMin +
    (config.translationSpeedMax - config.translationSpeedMin) * (1.0 - Abs(e.yaw) / config.translationYawStop)
  }

  /** Whether the command translates, and whether it turns. */
  predicate Translates(e: PlanarError, config: Config) {
    (ForwardTarget(e, config) != 0.0 || LateralTarget(e, config) != 0.0) && Abs(e.yaw) < config.translationYawStop
  }

  predicate Turns(e: PlanarError, config: Config) {
    Abs(e.yaw) > config.yawTolerance
  }

  function TurnRate(e: PlanarError, config: Config): real
    requires config.Valid()
  {
    if Turns(e, config) then
      var rate := Clamp(config.yawGain * Abs(e.yaw), config.angularSpeedMin, config.angularSpeedMax);
      if e.yaw < 0.0 then -rate else rate
    else 0.0
  }

  lemma CeilingInRange(e: PlanarError, config: Config)
    requires config.Valid() && Abs(e.yaw) < config.translationYawStop
    ensures config.translationSpeedMin <= SpeedCeiling(e, config) <= config.translationSpeedMax
  {
    Fraction(Abs(e.yaw), config.translationYawStop);
    Interpolation(config.translationSpeedMax - config.translationSpeedMin,
                  1.0 - Abs(e.yaw) / config.translationYawStop);
  }

  lemma Fraction(a: real, b: real)
    requires 0.0 <= a < b
    ensures 0.0 <= a / b < 1.0
  {
    assert a / b * b == a;
  }

  lemma Interpolation(span: real, weight: real)
    requires span >= 0.0 && 0.0 <= weight <= 1.0
    ensures 0.0 <= span * weight <= span
  {
  }

  /** The chosen speed: proportional to the distance, within the minimum and the ceiling. */
  function Speed(tr: Trig, e: PlanarError, config: Config): (speed: real)
    requires config.Valid() && Abs(e.yaw) < config.translationYawStop
    ensures config.translationSpeedMin <= speed <= config.translationSpeedMax
  {
    CeilingInRange(e, config);
    Clamp(config.translationGain * tr.hypot(ForwardTarget(e, config), LateralTarget(e, config)),
          config.translationSpeedMin, SpeedCeiling(e, config))
  }

  /** `holonomicFineAlignCommand`. */
  function Command(tr: Trig, reading: Reading, config: Config): Option<Velocity> {
    if !config.Valid() || !reading.IsFinite() then None
    else
      var e := reading.Error();
      var dx, dy := ForwardTarget(e, config), LateralTarget(e, config);
      var distance := tr.hypot(dx, dy);
      var turn := TurnRate(e, config);
      if distance > 0.0 && Abs(e.yaw) < config.translationYawStop then
        var speed := Speed(tr, e, config);
        Some(Velocity(Rescaled(speed, dx, distance), Rescaled(speed, dy, distance), turn))
      else Some(Velocity(0.0, 0.0, turn))
  }

  /** The command keeps inside its speed range and moves exactly when a position error asks for it. */
  lemma TranslationBounds(tr: Trig, reading: Reading, config: Config)
    requires tr.Laws() && config.Valid() && reading.IsFinite()
    ensures Command(tr, reading, config).Some?
    ensures var e := reading.Error(); var c := Command(tr, reading, config).value;
            && (Translates(e, config) ==>
                  config.translationSpeedMin <= tr.hypot(c.x, c.y) <= config.translationSpeedMax)
            && (!Translates(e, config) ==> c.x == 0.0 && c.y == 0.0)
  {
    hide SpeedCeiling, Speed, TurnRate, Rescaled;
    var e := reading.Error();
    var dx, dy := ForwardTarget(e, config), LateralTarget(e, config);
    assert tr.HypotAt(dx, dy);
    if Translates(e, config) {
      tr.HypotOfScaled(Speed(tr, e, config), dx, dy);
    }
  }

  /** A robot that may not reverse is never told to. */
  lemma NeverBacksUp(tr: Trig, reading: Reading, config: Config)
    requires tr.Laws() && config.Valid() && reading.IsFinite() && !config.allowReverseX
    ensures Command(tr, reading, config).value.x >= 0.0
  {
    var e := reading.Error();
    var dx, dy := ForwardTarget(e, config), LateralTarget(e, config);
    if tr.hypot(dx, dy) > 0.0 && Abs(e.yaw) < config.translationYawStop {
      QuotientSign(Speed(tr, e, config), dx, tr.hypot(dx, dy));
    }
  }

  ghost predicate IsMultiple(v: Velocity, k: real, dx: real, dy: real) {
    k > 0.0 && v.x == k * dx && v.y == k * dy
  }

  /** The velocity is a positive multiple of `(dx, dy)`. */
  ghost predicate PointsAt(v: Velocity, dx: real, dy: real) {
    exists k :: IsMultiple(v, k, dx, dy)
  }

  /** How far ahead and to the side the target is, each counted only beyond its tolerance, and behind only when
      reversing is allowed. */
  ghost predicate LiesAt(e: PlanarError, config: Config, dx: real, dy: real) {
    && dx == (if e.x > config.xTolerance || (config.allowReverseX && e.x < -config.xTolerance) then e.x else 0.0)
    && dy == (if e.y > config.yTolerance || e.y < -config.yTolerance then e.y else 0.0)
  }

  lemma MultiplesAreParallel(v: Velocity, k: real, dx: real, dy: real)
    requires IsMultiple(v, k, dx, dy)
    ensures v.x * dy == v.y * dx
    ensures (v.x > 0.0 <==> dx > 0.0) && (v.x < 0.0 <==> dx < 0.0)
    ensures (v.y > 0.0 <==> dy > 0.0) && (v.y < 0.0 <==> dy < 0.0)
  {
    ProductSign(k, dx);
    ProductSign(k, dy);
    assert (k * dx) * dy == (k * dy) * dx;
  }

  lemma RescaledIsMultiple(speed: real, dx: real, dy: real, h: real, yaw: real)
    requires speed > 0.0 && h > 0.0
    ensures IsMultiple(Velocity(Rescaled(speed, dx, h), Rescaled(speed, dy, h), yaw), speed / h, dx, dy)
  {
  }

  lemma ProductSign(k: real, a: real)
    requires k > 0.0
    ensures k * a > 0.0 <==> a > 0.0
    ensures k * a < 0.0 <==> a < 0.0
  {
  }

  /** A command that translates points at the target: to the side, ahead or back exactly as the target lies beyond its
      tolerance there, in proportion. */
  lemma CommandPoints(tr: Trig, reading: Reading, config: Config, dx: real, dy: real)
    requires tr.Laws() && config.Valid() && reading.IsFinite()
    requires LiesAt(reading.Error(), config, dx, dy)
    ensures var e, c := reading.Error(), Command(tr, reading, config).value;
            if Abs(e.yaw) < config.translationYawStop then
              && ((dx != 0.0 || dy != 0.0) ==> PointsAt(c, dx, dy))
              && (c.y > 0.0 <==> e.y > config.yTolerance) && (c.y < 0.0 <==> e.y < -config.yTolerance)
              && (c.x > 0.0 <==> e.x > config.xTolerance)
              && (c.x < 0.0 <==> e.x < -config.xTolerance && config.allowReverseX)
              && (Abs(e.x) > config.xTolerance && Abs(e.y) > config.yTolerance && c.x != 0.0 ==>
                   c.x * e.y == c.y * e.x)
            else c.x == 0.0 && c.y == 0.0
  {
    hide SpeedCeiling, Speed, TurnRate, Rescaled;
    var e := reading.Error();
    assert dx == ForwardTarget(e, config) && dy == LateralTarget(e, config);
    assert tr.HypotAt(dx, dy);
    if Translates(e, config) {
      var c, k := Command(tr, reading, config).value, Speed(tr, e, config) / tr.hypot(dx, dy);
      RescaledIsMultiple(Speed(tr, e, config), dx, dy, tr.hypot(dx, dy), TurnRate(e, config));
      MultiplesAreParallel(c, k, dx, dy);
    }
  }

  /** The speed is proportional to the distance, from the minimum speed up to a ceiling that falls linearly to the
      minimum as the heading error reaches the stop angle. */
  ghost predicate SpeedFits(config: Config, distance: real, yaw: real, speed: real)
    requires config.translationYawStop > 0.0
  {
    var asked, share := config.translationGain * distance, Abs(yaw) / config.translationYawStop;
    var ceiling := share * config.translationSpeedMin + (1.0 - share) * config.translationSpeedMax;
    && (asked <= config.translationSpeedMin ==> speed == config.translationSpeedMin)
    && (config.translationSpeedMin <= asked <= ceiling ==> speed == asked)
    && (ceiling <= asked ==> speed == ceiling)
  }

  /** A translating command keeps to that speed. */
  lemma SpeedLaw(tr: Trig, reading: Reading, config: Config, dx: real, dy: real)
    requires tr.Laws() && config.Valid() && reading.IsFinite()
    requires LiesAt(reading.Error(), config, dx, dy) && (dx != 0.0 || dy != 0.0)
    requires Abs(reading.yaw.v) < config.translationYawStop
    ensures var c := Command(tr, reading, config).value;
            SpeedFits(config, tr.hypot(dx, dy), reading.yaw.v, tr.hypot(c.x, c.y))
  {
    var e := reading.Error();
    assert dx == ForwardTarget(e, config) && dy == LateralTarget(e, config);
    CommandSpeed(tr, reading, config);
    CeilingInRange(e, config);
    CeilingIsMixture(config.translationSpeedMin, config.translationSpeedMax, Abs(e.yaw) / config.translationYawStop);
    hide Command, ForwardTarget, LateralTarget;
  }

  lemma CommandSpeed(tr: Trig, reading: Reading, config: Config)
    requires tr.Laws() && config.Valid() && reading.IsFinite() && Translates(reading.Error(), config)
    ensures var c := Command(tr, reading, config).value; tr.hypot(c.x, c.y) == Speed(tr, reading.Error(), config)
  {
    hide Rescaled, SpeedCeiling, Speed, TurnRate;
    var e := reading.Error();
    assert tr.HypotAt(ForwardTarget(e, config), LateralTarget(e, config));
    tr.HypotOfScaled(Speed(tr, e, config), ForwardTarget(e, config), LateralTarget(e, config));
  }

  lemma CeilingIsMixture(low: real, high: real, share: real)
    ensures low + (high - low) * (1.0 - share) == share * low + (1.0 - share) * high
  {
  }

  /** The turn is proportional to the heading error, within its range, in the direction of the error, and none inside
      the tolerance. */
  ghost predicate TurnFits(config: Config, tolerance: real, yaw: real, turn: real) {
    var asked := config.yawGain * yaw;
    && (-tolerance <= yaw <= tolerance ==> turn == 0.0)
    && (yaw > tolerance ==>
      && (asked <= config.angularSpeedMin ==> turn == config.angularSpeedMin)
      && (config.angularSpeedMin <= asked <= config.angularSpeedMax ==> turn == asked)
      && (config.angularSpeedMax <= asked ==> turn == config.angularSpeedMax))
    && (yaw < -tolerance ==>
      && (-config.angularSpeedMin <= asked ==> turn == -config.angularSpeedMin)
      && (-config.angularSpeedMax <= asked <= -config.angularSpeedMin ==> turn == asked)
      && (asked <= -config.angularSpeedMax ==> turn == -config.angularSpeedMax))
  }

  lemma TurnLaw(tr: Trig, reading: Reading, config: Config)
    requires config.Valid() && reading.IsFinite()
    ensures TurnFits(config, config.yawTolerance, reading.yaw.v, Command(tr, reading, config).value.yaw)
  {
    CommandTurns(tr, reading, config);
    hide Command;
    RateFits(config, reading.Error(), config.yawGain * reading.yaw.v);
  }

  lemma CommandTurns(tr: Trig, reading: Reading, config: Config)
    requires config.Valid() && reading.IsFinite()
    ensures Command(tr, reading, config).value.yaw == TurnRate(reading.Error(), config)
  {
    hide TurnRate, Speed, SpeedCeiling, Rescaled;
  }

  lemma RateFits(config: Config, e: PlanarError, asked: real)
    requires config.Valid() && asked == config.yawGain * e.yaw
    ensures TurnFits(config, config.yawTolerance, e.yaw, TurnRate(e, config))
  {
    if e.yaw < 0.0 {
      Opposed(config.yawGain, e.yaw);
    }
  }

  lemma Opposed(k: real, a: real)
    ensures k * -a == -(k * a)
  {
  }

  /** The turn is toward the target, within its range, and absent inside the tolerance. */
  lemma TurnBounds(tr: Trig, reading: Reading, config: Config)
    requires config.Valid() && reading.IsFinite()
    ensures var e := reading.Error(); var c := Command(tr, reading, config).value;
            && (Turns(e, config) ==> config.angularSpeedMin <= Abs(c.yaw) <= config.angularSpeedMax
                                     && (c.yaw > 0.0 <==> e.yaw > 0.0))
            && (!Turns(e, config) ==> c.yaw == 0.0)
  {
  }

  lemma QuotientSign(a: real, b: real, c: real)
    requires a >= 0.0 && b >= 0.0 && c > 0.0
    ensures a * b / c >= 0.0
  {
    assert a * b >= 0.0;
  }

  /** Exactly at the goal the command is to stand still, and only there, as long as the robot faces the
      target and the target is not behind a robot that may not reverse. */
  lemma StillExactlyAtGoal(tr: Trig, reading: Reading, config: Config)
    requires tr.Laws() && config.Valid() && reading.IsFinite()
    requires Abs(reading.yaw.v) < config.translationYawStop
    requires !config.allowReverseX ==> reading.x.v >= -config.xTolerance
    ensures Command(tr, reading, config) == Some(STOPPED) <==> AtGoal(reading, config)
  {
    TranslationBounds(tr, reading, config);
    TurnBounds(tr, reading, config);
    assert tr.HypotAt(0.0, 0.0);
  }
}
