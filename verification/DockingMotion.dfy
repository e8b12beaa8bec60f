/** `DockingMotionController`: confirmed axes, a yaw gate on translation, and a heading-rate limiter. */
module DockingMotion {
  import opened Basics
  import opened Trigonometry
  import opened ConfirmedAxis
  import opened HolonomicFineAlign

  datatype MotionConfig = MotionConfig(
    positionHysteresis: real,
    yawHysteresis: real,
    confirmationSamples: nat,
    directionRate: real)

  /** Everything fixed at construction. */
  datatype Setup = Setup(tr: Trig, config: Config, motion: MotionConfig) {
    /** What the server checks before it builds a controller. */
    ghost predicate Valid() {
      && tr.Laws()
      && config.Valid()
      && motion.positionHysteresis >= 0.0
      && 0.0 <= motion.yawHysteresis < config.translationYawStop
      && motion.confirmationSamples >= 1
      && motion.directionRate > 0.0
    }

    function AxisX(): Thresholds {
      Thresholds(config.xTolerance, motion.positionHysteresis, motion.confirmationSamples)
    }

    function AxisY(): Thresholds {
      Thresholds(config.yTolerance, motion.positionHysteresis, motion.confirmationSamples)
    }

    function AxisYaw(): Thresholds {
      Thresholds(config.yawTolerance, motion.yawHysteresis, motion.confirmationSamples)
    }

    /** While moving, errors are worked down to the stop tolerances. */
    function Moving(): Config {
      config.(xTolerance := AxisX().Stop(), yTolerance := AxisY().Stop(), yawTolerance := AxisYaw().Stop())
    }
  }

  datatype MotionState = MotionState(
    x: AxisState,
    y: AxisState,
    yaw: AxisState,
    enabled: bool,
    confirmations: nat,
    reconfirmations: nat,
    heading: Option<real>)

  const INITIAL := MotionState(IDLE, IDLE, IDLE, false, 0, 0, None)

  /** A turn of the commanded heading beyond this needs a stop first. */
  const QUARTER_TURN := 1.5707963268

  /** The yaw gate: translation stops at the stop angle and resumes only after confirmation below the hysteresis. */
  function Gate(p: Setup, s: MotionState, yaw: real): MotionState {
    if Abs(yaw) >= p.config.translationYawStop then s.(enabled := false, confirmations := 0)
    else if s.enabled then s
    else if Abs(yaw) < p.config.translationYawStop - p.motion.yawHysteresis then
      s.(enabled := s.confirmations + 1 >= p.motion.confirmationSamples, confirmations := s.confirmations + 1)
    else s.(confirmations := 0)
  }

  /** What a new observation changes: the three axes and the yaw gate. */
  function Observe(p: Setup, s: MotionState, e: PlanarError): MotionState {
    var forward := if p.config.allowReverseX then e.x else Max(0.0, e.x);
    Gate(p, s.(x := Step(s.x, forward, p.AxisX()), y := Step(s.y, e.y, p.AxisY()),
               yaw := Step(s.yaw, e.yaw, p.AxisYaw())), e.yaw)
  }

  /** The error handed to the proportional controller: only the axes in motion count. */
  function Selected(s: MotionState, e: PlanarError): PlanarError {
    PlanarError(if s.x.active != 0 then e.x else 0.0, if s.y.active != 0 then e.y else 0.0, e.yaw)
  }

  function AsReading(e: PlanarError): Reading {
    Reading(Finite(e.x), Finite(e.y), Finite(e.yaw))
  }

  /** The command before the heading limiter. */
  function Desired(p: Setup, s: MotionState, e: PlanarError): Option<Velocity> {
    match Command(p.tr, AsReading(Selected(s, e)), p.Moving())
    case None => None
    case Some(v) =>
      Some(Velocity(if s.enabled then v.x else 0.0, if s.enabled then v.y else 0.0,
                    if s.yaw.active != 0 then v.yaw else 0.0))
  }

  /** A translation along a heading. */
  function Toward(tr: Trig, speed: real, heading: real, yaw: real): Velocity {
    Velocity(speed * tr.cos(heading), speed * tr.sin(heading), yaw)
  }

  /** The heading limiter; `limit` is how far the heading may turn in this update. */
  function Steer(p: Setup, s: MotionState, v: Velocity, limit: real, isNew: bool): (MotionState, Velocity)
    requires limit >= 0.0
  {
    var speed := p.tr.hypot(v.x, v.y);
    var stopped := Velocity(0.0, 0.0, v.yaw);
    if speed <= 0.0 then (s.(heading := None, reconfirmations := 0), v)
    else if s.reconfirmations > 0 && (!isNew || s.reconfirmations + 1 <= p.motion.confirmationSamples) then
      (if isNew then s.(reconfirmations := s.reconfirmations + 1) else s, stopped)
    else
      var direction := p.tr.atan2(v.y, v.x);
      match s.heading
      case None =>
        (s.(reconfirmations := 0, heading := Some(direction)), Toward(p.tr, speed, direction, v.yaw))
      case Some(previous) =>
        var delta := p.tr.WrapAngle(direction - previous);
        if Abs(delta) > QUARTER_TURN then (s.(reconfirmations := 1, heading := None), stopped)
        else
          var next := previous + Clamp(delta, -limit, limit);
          (s.(reconfirmations := 0, heading := Some(next)), Toward(p.tr, speed, next, v.yaw))
  }

  datatype Input = Input(reading: Reading, dt: real, isNew: bool)

  function TurnLimit(p: Setup, dt: real): real {
    p.motion.directionRate * dt
  }

  /** `DockingMotionController::update`. The caller's clock is monotone, so the limiter's bounds are ordered. */
  function Update(p: Setup, s: MotionState, input: Input): (MotionState, Option<Velocity>)
    requires TurnLimit(p, input.dt) >= 0.0
  {
    if !input.reading.IsFinite() then (s, None)
    else
      var e := input.reading.Error();
      var observed := if input.isNew then Observe(p, s, e) else s;
      match Desired(p, observed, e)
      case None => (observed, None)
      case Some(v) =>
        var (next, command) := Steer(p, observed, v, TurnLimit(p, input.dt), input.isNew);
        (next, Some(command))
  }

  /** The controller object. */
  class Controller {
    const p: Setup
    const x: Axis
    const y: Axis
    const yaw: Axis
    var xActive: Direction
    var yActive: Direction
    var yawActive: Direction
    var enabled: bool
    var confirmations: nat
    var reconfirmations: nat
    var heading: Option<real>

    constructor (p: Setup)
      ensures Valid() && fresh(x) && fresh(y) && fresh(yaw)
      ensures this.p == p && State() == INITIAL
    {
      this.p := p;
      x := new Axis();
      y := new Axis();
      yaw := new Axis();
      xActive, yActive, yawActive := 0, 0, 0;
      enabled, confirmations, reconfirmations, heading := false, 0, 0, None;
    }

    ghost predicate Valid()
      reads this, x, y, yaw
    {
      && x != y && y != yaw && x != yaw
      && xActive == x.active && yActive == y.active && yawActive == yaw.active
    }

    ghost function State(): MotionState
      reads this, x, y, yaw
    {
      MotionState(x.State(), y.State(), yaw.State(), enabled, confirmations, reconfirmations, heading)
    }

    method UpdateGate(e: PlanarError)
      requires Valid()
      modifies this`enabled, this`confirmations
      ensures Valid()
      ensures State() == Gate(p, old(State()), e.yaw)
    {
      if Abs(e.yaw) >= p.config.translationYawStop {
        enabled, confirmations := false, 0;
      } else if !enabled {
        if Abs(e.yaw) < p.config.translationYawStop - p.motion.yawHysteresis {
          confirmations := confirmations + 1;
          enabled := confirmations >= p.motion.confirmationSamples;
        } else {
          confirmations := 0;
        }
      }
    }

    method Limit(v: Velocity, limit: real, isNew: bool) returns (command: Velocity)
      requires Valid() && limit >= 0.0
      modifies this`reconfirmations, this`heading
      ensures Valid()
      ensures (State(), command) == Steer(p, old(State()), v, limit, isNew)
    {
      command := v;
      var speed := p.tr.hypot(v.x, v.y);
      if speed > 0.0 {
        if reconfirmations > 0 {
          if isNew {
            reconfirmations := reconfirmations + 1;
          }
          if !isNew || reconfirmations <= p.motion.confirmationSamples {
            command := Velocity(0.0, 0.0, v.yaw);
            return;
          }
          reconfirmations := 0;
        }
        var direction := p.tr.atan2(v.y, v.x);
        if heading.Some? {
          // Stop before a large turn.
          var delta := p.tr.WrapAngle(direction - heading.value);
          if Abs(delta) > QUARTER_TURN {
            heading := None;
            reconfirmations := 1;
            command := Velocity(0.0, 0.0, v.yaw);
            return;
          }
          direction := heading.value + Clamp(delta, -limit, limit);
        }
        heading := Some(direction);
        command := Toward(p.tr, speed, direction, v.yaw);
      } else {
        heading, reconfirmations := None, 0;
      }
    }

    method UpdateController(reading: Reading, dt: real, isNew: bool) returns (command: Option<Velocity>)
      requires Valid() && TurnLimit(p, dt) >= 0.0
      modifies this, x, y, yaw
      ensures Valid()
      ensures (State(), command) == Update(p, old(State()), Input(reading, dt, isNew))
    {
      if !reading.IsFinite() {
        return None;
      }
      var e := reading.Error();
      if isNew {
        xActive := x.Update(if p.config.allowReverseX then e.x else Max(0.0, e.x), p.AxisX());
        yActive := y.Update(e.y, p.AxisY());
        yawActive := yaw.Update(e.yaw, p.AxisYaw());
        UpdateGate(e);
        assert State() == Observe(p, old(State()), e);
      }
      var selected := PlanarError(if xActive != 0 then e.x else 0.0, if yActive != 0 then e.y else 0.0, e.yaw);
      var asked := Command(p.tr, AsReading(selected), p.Moving());
      if asked.None? {
        return None;
      }
      var v := asked.value;
      if yawActive == 0 {
        v := v.(yaw := 0.0);
      }
      if !enabled {
        v := v.(x := 0.0, y := 0.0);
      }
      var limited := Limit(v, TurnLimit(p, dt), isNew);
      command := Some(limited);
    }
  }
}
