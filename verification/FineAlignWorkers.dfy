/** The worker threads of the fine-align server: every path through an operation, as the accesses it makes to the
    shared command. What a thread reads from the rest of the system is given to it. */
module FineAlignWorkers {
  import opened Basics
  import opened HolonomicFineAlign
  import Motion = DockingMotion
  import Bounds = MotionBounds
  import Settling = TagSettling
  import Server = FineAlignServer

  datatype Access = Raise | Set(velocity: Velocity) | StopAll | LetGo

  datatype Code =
    | Success
    | Canceled
    | NavigationActive
    | CollisionStopped
    | TimedOut
    | NoStableTag
    | InvalidState
    | OutsideCapture
    | SafetyAbort
    | InvalidGoal
    | InvalidProfile

  // ---------- The protocol ----------

  /** Where an access takes an operation, if the server's steps allow it there. Raising the flag again after a stop
      begins a further attempt. */
  function Advance(maximum: nat, goal: Server.Goal, phase: Server.Phase, a: Access): Option<Server.Phase> {
    match a
    case Raise =>
      if phase.Working? && !goal.Rotate? then Some(Server.Working(phase.attempt, true))
      else if phase.Stopped? && goal.Dock? && phase.attempt < maximum then Some(Server.Working(phase.attempt + 1, true))
      else None
    case Set(v) =>
      if phase.Working? && Server.Allows(goal, phase.activated, v) then Some(Server.Working(phase.attempt, true))
      else None
    case StopAll => if phase.Working? || phase.Stopped? then Some(Server.Stopped(phase.attempt)) else None
    case LetGo => if phase.Stopped? then Some(Server.Done) else None
  }

  function Follow(maximum: nat, goal: Server.Goal, phase: Server.Phase, trace: seq<Access>): Option<Server.Phase>
    decreases |trace|
  {
    if trace == [] then Some(phase)
    else
      match Advance(maximum, goal, phase, trace[0])
      case None => None
      case Some(next) => Follow(maximum, goal, next, trace[1..])
  }

  const ACCEPTED := Server.Working(1, false)

  /** The accesses keep to the protocol and end with the robot let go, after a stop. */
  ghost predicate Completes(maximum: nat, goal: Server.Goal, trace: seq<Access>) {
    Follow(maximum, goal, ACCEPTED, trace) == Some(Server.Done)
  }

  lemma {:induction false} FollowOn(maximum: nat, goal: Server.Goal, phase: Server.Phase, trace: seq<Access>,
                                    more: seq<Access>)
    requires Follow(maximum, goal, phase, trace).Some?
    ensures Follow(maximum, goal, phase, trace + more)
            == Follow(maximum, goal, Follow(maximum, goal, phase, trace).value, more)
    decreases |trace|
  {
    if trace == [] {
      assert trace + more == more;
    } else {
      FollowOn(maximum, goal, Advance(maximum, goal, phase, trace[0]).value, trace[1..], more);
      assert (trace + more)[1..] == trace[1..] + more;
    }
  }

  /** The steps of the server that make up an access. */
  function StepsOf(op: nat, phase: Server.Phase, a: Access, now: Time): seq<Server.Step> {
    match a
    case Raise => if phase.Stopped? then [Server.Retry(op), Server.Activate(op)] else [Server.Activate(op)]
    case Set(v) => [Server.Command(op, v, now)]
    case StopAll => [Server.Stop(op), Server.Step.ClearCommands(op), Server.PublishStop(op)]
    case LetGo => [Server.Release(op)]
  }

  ghost predicate Stands(w: Server.World, op: nat, goal: Server.Goal, phase: Server.Phase) {
    op < |w.operations| && w.operations[op] == Server.Operation(goal, phase)
  }

  lemma RaiseIsEnabled(c: Server.Config, w: Server.World, op: nat, goal: Server.Goal, phase: Server.Phase)
    requires Stands(w, op, goal, phase) && w.mutex.Free? && Advance(c.maximumAttempts, goal, phase, Raise).Some?
    ensures var after := Server.Run(c, w, StepsOf(op, phase, Raise, w.clock));
            Stands(after, op, goal, Advance(c.maximumAttempts, goal, phase, Raise).value) && after.mutex.Free?
  {
    hide Server.Allows, Server.HolderMay;
    var h := StepsOf(op, phase, Raise, w.clock);
    RunOne(c, w, h[..1]);
    if |h| == 2 { RunOne(c, w, h); }
    assert h[..|h|] == h;
  }

  lemma StopIsEnabled(c: Server.Config, w: Server.World, op: nat, goal: Server.Goal, phase: Server.Phase)
    requires Stands(w, op, goal, phase) && w.mutex.Free? && (phase.Working? || phase.Stopped?)
    ensures var after := Server.Run(c, w, StepsOf(op, phase, StopAll, w.clock));
            Stands(after, op, goal, Server.Stopped(phase.attempt)) && after.mutex.Free?
  {
    hide Server.Allows, Server.HolderMay;
    var h := StepsOf(op, phase, StopAll, w.clock);
    RunOne(c, w, h[..1]);
    RunOne(c, w, h[..2]);
    RunOne(c, w, h);
    assert h[..2][..1] == h[..1] && h[..3] == h;
  }

  /** Each access a thread makes by the protocol is one the server's step relation lets it make. */
  lemma AccessIsEnabled(c: Server.Config, w: Server.World, op: nat, goal: Server.Goal, phase: Server.Phase, a: Access)
    requires Stands(w, op, goal, phase) && w.mutex.Free? && Advance(c.maximumAttempts, goal, phase, a).Some?
    ensures var after := Server.Run(c, w, StepsOf(op, phase, a, w.clock));
            Stands(after, op, goal, Advance(c.maximumAttempts, goal, phase, a).value) && after.mutex.Free?
  {
    hide Server.HolderMay;
    match a
    case Raise => RaiseIsEnabled(c, w, op, goal, phase);
    case StopAll => StopIsEnabled(c, w, op, goal, phase);
    case Set(_) => RunOne(c, w, StepsOf(op, phase, a, w.clock));
    case LetGo => RunOne(c, w, StepsOf(op, phase, a, w.clock));
  }

  lemma RunOne(c: Server.Config, w: Server.World, h: seq<Server.Step>)
    requires h != []
    ensures Server.Run(c, w, h) == Server.Next(c, Server.Run(c, w, h[..|h| - 1]), h[|h| - 1])
  {
  }

  // ---------- Interleaving ----------

  /** Where a step of its own thread takes an operation, if it may come there at all. */
  function StepTo(maximum: nat, goal: Server.Goal, phase: Server.Phase, s: Server.Step): Option<Server.Phase> {
    match s
    case Activate(_) => if phase.Working? && !goal.Rotate? then Some(phase.(activated := true)) else None
    case Command(_, v, _) =>
      if phase.Working? && Server.Allows(goal, phase.activated, v) then Some(phase.(activated := true)) else None
    case Stop(_) => if phase.Working? || phase.Stopped? then Some(Server.StopOf(phase)) else None
    case ClearCommands(_) =>
      if phase.Stopping? || phase.Restopping? then Some(Server.Cleared(phase.attempt)) else None
    case PublishStop(_) => if phase.Cleared? then Some(Server.Stopped(phase.attempt)) else None
    case Retry(_) =>
      if phase.Stopped? && goal.Dock? && phase.attempt < maximum then Some(Server.Working(phase.attempt + 1, false))
      else None
    case Release(_) => if phase.Stopped? then Some(Server.Done) else None
    case _ => None
  }

  predicate OfThread(s: Server.Step, op: nat) {
    && (s.Activate? || s.Command? || s.Stop? || s.ClearCommands? || s.PublishStop? || s.Retry? || s.Release?)
    && s.op == op
  }

  /** A thread enters its critical sections when the mutex is free, with a clock reading it has already taken. */
  predicate Ready(w: Server.World, s: Server.Step) {
    && (s.Command? ==> w.mutex.Free? && s.at <= w.clock)
    && (s.ClearCommands? ==> w.mutex.Free?)
  }

  lemma OthersLeave(c: Server.Config, w: Server.World, s: Server.Step, op: nat, goal: Server.Goal, phase: Server.Phase)
    requires Stands(w, op, goal, phase) && !OfThread(s, op)
    ensures Stands(Server.Next(c, w, s), op, goal, phase)
  {
    hide Server.Allows, Server.YoungEnough;
  }

  lemma OwnStepMoves(c: Server.Config, w: Server.World, s: Server.Step, op: nat, goal: Server.Goal, phase: Server.Phase)
    requires Stands(w, op, goal, phase) && OfThread(s, op) && Ready(w, s)
    requires StepTo(c.maximumAttempts, goal, phase, s).Some?
    ensures Server.WorkerMay(c, w, s)
    ensures Stands(Server.Next(c, w, s), op, goal, StepTo(c.maximumAttempts, goal, phase, s).value)
  {
    hide Server.Allows;
  }

  function FollowSteps(maximum: nat, goal: Server.Goal, phase: Server.Phase, steps: seq<Server.Step>)
    : Option<Server.Phase>
  {
    if steps == [] then Some(phase)
    else
      match FollowSteps(maximum, goal, phase, steps[..|steps| - 1])
      case None => None
      case Some(next) => StepTo(maximum, goal, next, steps[|steps| - 1])
  }

  /** The steps of one thread in a run. */
  function OwnSteps(h: seq<Server.Step>, op: nat): seq<Server.Step> {
    if h == [] then []
    else OwnSteps(h[..|h| - 1], op) + (if OfThread(h[|h| - 1], op) then [h[|h| - 1]] else [])
  }

  /** In the run the thread waits for the mutex wherever it needs it. */
  ghost predicate WaitsItsTurn(c: Server.Config, w: Server.World, h: seq<Server.Step>, op: nat) {
    forall i | 0 <= i < |h| && OfThread(h[i], op) :: Ready(Server.Run(c, w, h[..i]), h[i])
  }

  /** Every step of the thread is one the server's step relation lets it make where the run stands. */
  ghost predicate AllTaken(c: Server.Config, w: Server.World, h: seq<Server.Step>, op: nat) {
    forall i | 0 <= i < |h| && OfThread(h[i], op) :: Server.WorkerMay(c, Server.Run(c, w, h[..i]), h[i])
  }

  lemma {:induction false} InterleavedSteps(c: Server.Config, w: Server.World, h: seq<Server.Step>, op: nat,
                                            goal: Server.Goal, phase: Server.Phase)
    requires Stands(w, op, goal, phase) && WaitsItsTurn(c, w, h, op)
    requires FollowSteps(c.maximumAttempts, goal, phase, OwnSteps(h, op)).Some?
    ensures AllTaken(c, w, h, op)
    ensures Stands(Server.Run(c, w, h), op, goal,
                   FollowSteps(c.maximumAttempts, goal, phase, OwnSteps(h, op)).value)
  {
    if h != [] {
      hide Stands, StepTo, OfThread, Ready, Server.Next, Server.WorkerMay, WaitsItsTurn, AllTaken;
      var before, s := h[..|h| - 1], h[|h| - 1];
      WaitedBefore(c, w, h, op);
      if OfThread(s, op) {
        assert OwnSteps(h, op)[..|OwnSteps(h, op)| - 1] == OwnSteps(before, op);
      } else {
        assert OwnSteps(h, op) == OwnSteps(before, op);
      }
      InterleavedSteps(c, w, before, op, goal, phase);
      var here := FollowSteps(c.maximumAttempts, goal, phase, OwnSteps(before, op)).value;
      if OfThread(s, op) {
        OwnStepMoves(c, Server.Run(c, w, before), s, op, goal, here);
      } else {
        OthersLeave(c, Server.Run(c, w, before), s, op, goal, here);
      }
      TakenAfter(c, w, h, op);
    }
  }

  lemma WaitedBefore(c: Server.Config, w: Server.World, h: seq<Server.Step>, op: nat)
    requires WaitsItsTurn(c, w, h, op) && h != []
    ensures WaitsItsTurn(c, w, h[..|h| - 1], op)
    ensures OfThread(h[|h| - 1], op) ==> Ready(Server.Run(c, w, h[..|h| - 1]), h[|h| - 1])
  {
    hide OfThread, Ready, Server.Run;
    var before := h[..|h| - 1];
    assert forall i | 0 <= i < |before| :: before[i] == h[i] && before[..i] == h[..i];
  }

  lemma TakenAfter(c: Server.Config, w: Server.World, h: seq<Server.Step>, op: nat)
    requires h != [] && AllTaken(c, w, h[..|h| - 1], op)
    requires OfThread(h[|h| - 1], op) ==> Server.WorkerMay(c, Server.Run(c, w, h[..|h| - 1]), h[|h| - 1])
    ensures AllTaken(c, w, h, op)
  {
    hide OfThread, Server.Run, Server.WorkerMay;
    var before := h[..|h| - 1];
    assert forall i | 0 <= i < |before| :: before[i] == h[i] && before[..i] == h[..i];
  }

  /** The steps of a trace that keeps to the protocol, but for the times of its commands. */
  function StepsAlong(maximum: nat, op: nat, goal: Server.Goal, phase: Server.Phase, trace: seq<Access>)
    : seq<Server.Step>
    requires Follow(maximum, goal, phase, trace).Some?
    decreases |trace|
  {
    if trace == [] then []
    else
      StepsOf(op, phase, trace[0], 0.0)
      + StepsAlong(maximum, op, goal, Advance(maximum, goal, phase, trace[0]).value, trace[1..])
  }

  function Timeless(steps: seq<Server.Step>): seq<Server.Step> {
    seq(|steps|, i requires 0 <= i < |steps| =>
      if steps[i].Command? then steps[i].(at := 0.0) else steps[i])
  }

  lemma {:induction false} FollowTimeless(maximum: nat, goal: Server.Goal, phase: Server.Phase, steps: seq<Server.Step>)
    ensures FollowSteps(maximum, goal, phase, Timeless(steps)) == FollowSteps(maximum, goal, phase, steps)
  {
    if steps != [] {
      FollowTimeless(maximum, goal, phase, steps[..|steps| - 1]);
      assert Timeless(steps)[..|steps| - 1] == Timeless(steps[..|steps| - 1]);
    }
  }

  lemma {:induction false} FollowStepsOn(maximum: nat, goal: Server.Goal, phase: Server.Phase, steps: seq<Server.Step>,
                                         more: seq<Server.Step>)
    ensures FollowSteps(maximum, goal, phase, steps + more) ==
            match FollowSteps(maximum, goal, phase, steps)
            case None => None
            case Some(next) => FollowSteps(maximum, goal, next, more)
  {
    hide StepTo;
    if more == [] {
      assert steps + more == steps;
    } else {
      FollowStepsOn(maximum, goal, phase, steps, more[..|more| - 1]);
      assert (steps + more)[..|steps + more| - 1] == steps + more[..|more| - 1];
    }
  }

  lemma AccessSteps(maximum: nat, op: nat, goal: Server.Goal, phase: Server.Phase, a: Access)
    requires Advance(maximum, goal, phase, a).Some?
    ensures FollowSteps(maximum, goal, phase, StepsOf(op, phase, a, 0.0)) == Advance(maximum, goal, phase, a)
  {
    hide Server.Allows;
    var steps := StepsOf(op, phase, a, 0.0);
    assert FollowSteps(maximum, goal, phase, steps[..1]) == StepTo(maximum, goal, phase, steps[0]);
    if a.StopAll? {
      assert steps[..2][..1] == steps[..1];
      assert FollowSteps(maximum, goal, phase, steps[..2]) == Some(Server.Cleared(phase.attempt));
    }
  }

  lemma {:induction false} TraceSteps(maximum: nat, op: nat, goal: Server.Goal, phase: Server.Phase, trace: seq<Access>)
    requires Follow(maximum, goal, phase, trace).Some?
    ensures FollowSteps(maximum, goal, phase, StepsAlong(maximum, op, goal, phase, trace))
            == Follow(maximum, goal, phase, trace)
    decreases |trace|
  {
    if trace != [] {
      hide Advance, StepsOf;
      var next := Advance(maximum, goal, phase, trace[0]).value;
      AccessSteps(maximum, op, goal, phase, trace[0]);
      TraceSteps(maximum, op, goal, next, trace[1..]);
      FollowStepsOn(maximum, goal, phase, StepsOf(op, phase, trace[0], 0.0),
                    StepsAlong(maximum, op, goal, next, trace[1..]));
    }
  }

  /** However a thread that keeps to the protocol is interleaved with everything else, and wherever the run is cut off,
      each of its steps is one the server lets it make; and once all are made the operation stands where the protocol
      says. */
  lemma TraceIsARun(c: Server.Config, w: Server.World, h: seq<Server.Step>, op: nat, goal: Server.Goal,
                    phase: Server.Phase, trace: seq<Access>)
    requires Stands(w, op, goal, phase) && Follow(c.maximumAttempts, goal, phase, trace).Some?
    requires WaitsItsTurn(c, w, h, op)
    requires Timeless(OwnSteps(h, op)) <= StepsAlong(c.maximumAttempts, op, goal, phase, trace)
    ensures AllTaken(c, w, h, op)
    ensures Timeless(OwnSteps(h, op)) == StepsAlong(c.maximumAttempts, op, goal, phase, trace) ==>
              Stands(Server.Run(c, w, h), op, goal, Follow(c.maximumAttempts, goal, phase, trace).value)
  {
    hide Advance, StepTo, StepsOf, Stands, Server.Run;
    var all, own := StepsAlong(c.maximumAttempts, op, goal, phase, trace), OwnSteps(h, op);
    TraceSteps(c.maximumAttempts, op, goal, phase, trace);
    assert all == Timeless(own) + all[|own|..];
    FollowStepsOn(c.maximumAttempts, goal, phase, Timeless(own), all[|own|..]);
    FollowTimeless(c.maximumAttempts, goal, phase, own);
    InterleavedSteps(c, w, h, op, goal, phase);
  }

  lemma StopsAndLetsGo(maximum: nat, goal: Server.Goal, trace: seq<Access>)
    requires Follow(maximum, goal, ACCEPTED, trace).Some?
    requires var phase := Follow(maximum, goal, ACCEPTED, trace).value; phase.Working? || phase.Stopped?
    ensures Completes(maximum, goal, trace + [StopAll, LetGo])
  {
    FollowOn(maximum, goal, ACCEPTED, trace, [StopAll, LetGo]);
    assert [StopAll, LetGo][1..] == [LetGo];
  }

  // ---------- Rotation in place ----------

  datatype RotateLimits = RotateLimits(maxSpeed: real, maxDuration: real)

  /** What one pass of a worker's loop reads. */
  datatype Tick = Tick(
    ok: bool,
    now: Time,
    canceling: bool,
    navigating: bool,
    collided: bool,
    stateValid: bool)

  predicate RotationAllowed(limits: RotateLimits, speed: Num, duration: Num) {
    && speed.Finite? && speed.v != 0.0 && Abs(speed.v) <= limits.maxSpeed
    && duration.Finite? && 0.0 < duration.v <= limits.maxDuration
  }

  /** Why a pass of the rotation's loop ends the action, if it does; `start` is the time of the first command. */
  function RotationEnds(t: Tick, start: Option<Time>, duration: real): Option<Code> {
    if !t.ok then Some(SafetyAbort)
    else if t.canceling then Some(Canceled)
    else if t.navigating then Some(NavigationActive)
    else if !t.stateValid then Some(InvalidState)
    else if t.collided then Some(CollisionStopped)
    else if start.Some? && t.now - start.value >= duration then Some(Success)
    else None
  }

  /** Each code of a pass of the rotation's loop, in what the pass reads: a shutdown comes first, then a cancellation,
      navigation, the robot's state, a collision stop, and last the end of the duration since the first command. */
  lemma RotationCodes(t: Tick, start: Option<Time>, duration: real)
    ensures var ends := RotationEnds(t, start, duration);
            && (ends == Some(SafetyAbort) <==> !t.ok)
            && (ends == Some(Canceled) <==> t.ok && t.canceling)
            && (ends == Some(NavigationActive) <==> t.ok && !t.canceling && t.navigating)
            && (ends == Some(InvalidState) <==> t.ok && !t.canceling && !t.navigating && !t.stateValid)
            && (ends == Some(CollisionStopped) <==>
                 t.ok && !t.canceling && !t.navigating && t.stateValid && t.collided)
            && (ends == Some(Success) <==>
                 && t.ok && !t.canceling && !t.navigating && t.stateValid && !t.collided
                 && start.Some? && t.now >= start.value + duration)
            && (ends == None <==>
                 && t.ok && !t.canceling && !t.navigating && t.stateValid && !t.collided
                 && (start.None? || t.now < start.value + duration))
  {
  }

  function RotateGoal(speed: Num): Server.Goal {
    Server.Rotate(if speed.Finite? then speed.v else 0.0)
  }

  /** Running out of ticks stands for a shutdown, which the loop's condition sees first. */
  method ExecuteRotate(limits: RotateLimits, speed: Num, duration: Num, ticks: seq<Tick>)
    returns (trace: seq<Access>, code: Code)
    ensures Completes(1, RotateGoal(speed), trace) && |trace| >= 2
    ensures code != InvalidGoal <==>
              && speed.Finite? && (0.0 < speed.v <= limits.maxSpeed || -limits.maxSpeed <= speed.v < 0.0)
              && duration.Finite? && 0.0 < duration.v <= limits.maxDuration
    ensures code == InvalidGoal ==> trace == [StopAll, LetGo]
    ensures code != InvalidGoal ==>
              var n := |trace| - 2;
              && n <= |ticks|
              && (forall i | 0 <= i < n :: trace[i] == Set(Velocity(0.0, 0.0, speed.v)))
              && (forall i | 0 <= i < n ::
                RotationEnds(ticks[i], if i == 0 then None else Some(ticks[0].now), duration.v) == None)
              && Some(code) == if n == |ticks| then Some(SafetyAbort)
                               else RotationEnds(ticks[n], if n == 0 then None else Some(ticks[0].now), duration.v)
  {
    trace := [];
    if !RotationAllowed(limits, speed, duration) {
      StopsAndLetsGo(1, RotateGoal(speed), []);
      return [] + [StopAll, LetGo], InvalidGoal;
    }
    var goal, command := RotateGoal(speed), Velocity(0.0, 0.0, speed.v);
    var start: Option<Time> := None;
    code := SafetyAbort;
    for k := 0 to |ticks|
      invariant |trace| == k && (forall i | 0 <= i < k :: trace[i] == Set(command))
      invariant start == if k == 0 then None else Some(ticks[0].now)
      invariant forall i | 0 <= i < k ::
                  RotationEnds(ticks[i], if i == 0 then None else Some(ticks[0].now), duration.v) == None
      invariant code == SafetyAbort
      invariant Follow(1, goal, ACCEPTED, trace) == Some(Server.Working(1, k > 0))
    {
      var ends := RotationEnds(ticks[k], start, duration.v);
      if ends.Some? {
        code := ends.value;
        break;
      }
      if start.None? {
        start := Some(ticks[k].now);
      }
      FollowOn(1, goal, ACCEPTED, trace, [Set(command)]);
      trace := trace + [Set(command)];
    }
    StopsAndLetsGo(1, goal, trace);
    trace := trace + [StopAll, LetGo];
  }

  // ---------- Timed undocking ----------

  datatype Reverse = Reverse(speed: real, duration: real)

  /** Why a pass of the timed reverse's loop ends the action, if it does. Nothing has elapsed until a command has been
      given; when both deadlines have passed the earlier one decides, and equal ones are a success. */
  function ReverseEnds(t: Tick, commanded: bool, start: Time, r: Reverse, timeout: real): Option<Code> {
    var elapsed := if commanded then t.now - start else 0.0;
    if !t.ok then Some(SafetyAbort)
    else if t.canceling then Some(Canceled)
    else if t.navigating then Some(NavigationActive)
    else if t.collided then Some(CollisionStopped)
    else if !t.stateValid then Some(InvalidState)
    else if timeout < r.duration && elapsed >= timeout then Some(TimedOut)
    else if elapsed >= r.duration then Some(Success)
    else None
  }

  /** Each code of a pass of the timed reverse's loop, in what the pass reads; `elapsed` counts from the start once a
      command has been given. */
  lemma ReverseCodes(t: Tick, commanded: bool, start: Time, r: Reverse, timeout: real)
    requires r.duration > 0.0 && timeout > 0.0
    ensures var ends := ReverseEnds(t, commanded, start, r, timeout);
            var free := t.ok && !t.canceling && !t.navigating && !t.collided && t.stateValid;
            && (ends == Some(SafetyAbort) <==> !t.ok)
            && (ends == Some(Canceled) <==> t.ok && t.canceling)
            && (ends == Some(NavigationActive) <==> t.ok && !t.canceling && t.navigating)
            && (ends == Some(CollisionStopped) <==> t.ok && !t.canceling && !t.navigating && t.collided)
            && (ends == Some(InvalidState) <==>
                 t.ok && !t.canceling && !t.navigating && !t.collided && !t.stateValid)
            && (ends == Some(TimedOut) <==> free && commanded && timeout < r.duration && t.now >= start + timeout)
            && (ends == Some(Success) <==> free && commanded && r.duration <= timeout && t.now >= start + r.duration)
            && (ends == None <==> free && (!commanded || (t.now < start + r.duration && t.now < start + timeout)))
  {
  }

  /** The `n` passes before the last all went on and reversed; the last one, or a shutdown, gave the code. */
  ghost predicate Reversed(trace: seq<Access>, n: nat, ticks: seq<Tick>, start: Time, r: Reverse, timeout: real,
                           code: Code)
  {
    && n <= |ticks| && |trace| == n + 3 && trace[0] == Raise
    && (forall i | 1 <= i <= n :: trace[i] == Set(Velocity(-r.speed, 0.0, 0.0)))
    && (forall i | 0 <= i < n :: ReverseEnds(ticks[i], i > 0, start, r, timeout) == None)
    && Some(code) == if n == |ticks| then Some(SafetyAbort) else ReverseEnds(ticks[n], n > 0, start, r, timeout)
  }

  method ExecuteTimedUndock(start: Time, r: Reverse, timeout: real, ticks: seq<Tick>)
    returns (trace: seq<Access>, code: Code)
    requires r.duration > 0.0 && timeout > 0.0
    ensures Completes(1, Server.TimedUndock(r.speed), trace)
    ensures |trace| >= 3 && Reversed(trace, |trace| - 3, ticks, start, r, timeout, code)
  {
    var goal, command := Server.TimedUndock(r.speed), Velocity(-r.speed, 0.0, 0.0);
    trace := [Raise];
    code := SafetyAbort;
    assert trace[1..] == [];
    for k := 0 to |ticks|
      invariant |trace| == k + 1 && trace[0] == Raise
      invariant forall i | 1 <= i <= k :: trace[i] == Set(command)
      invariant forall i | 0 <= i < k :: ReverseEnds(ticks[i], i > 0, start, r, timeout) == None
      invariant code == SafetyAbort
      invariant Follow(1, goal, ACCEPTED, trace) == Some(Server.Working(1, true))
    {
      var ends := ReverseEnds(ticks[k], k > 0, start, r, timeout);
      if ends.Some? {
        code := ends.value;
        break;
      }
      FollowOn(1, goal, ACCEPTED, trace, [Set(command)]);
      trace := trace + [Set(command)];
    }
    StopsAndLetsGo(1, goal, trace);
    trace := trace + [StopAll, LetGo];
  }

  /** A timed reverse succeeds exactly when it has commanded, nothing interrupts it, and the whole duration has passed
      with no earlier timeout; every command after the first is given before the duration is over. */
  lemma ReverseSuccessTakesTheDuration(trace: seq<Access>, n: nat, ticks: seq<Tick>, start: Time, r: Reverse,
                                       timeout: real, code: Code)
    requires r.duration > 0.0 && timeout > 0.0 && Reversed(trace, n, ticks, start, r, timeout, code)
    ensures code == Success <==>
              && 0 < n < |ticks|
              && var t := ticks[n];
              && t.ok && !t.canceling && !t.navigating && !t.collided && t.stateValid
              && t.now - start >= r.duration && timeout >= r.duration
    ensures forall i | 0 < i < n :: ticks[i].now - start < r.duration
  {
    assert forall i | 0 < i < n :: ReverseEnds(ticks[i], i > 0, start, r, timeout) == None;
  }

  // ---------- Closed-loop alignment ----------

  /** A stable measurement as a control pass uses it: the error it works down, the raw error, the observation the dwell
      compares, and whether both errors lie in the capture envelope. */
  datatype Measured = Measured(
    error: Reading,
    raw: Reading,
    observed: PlanarError,
    sequence: nat,
    inside: bool)

  datatype Glance = Glance(tick: Tick, measured: Option<Measured>, controlAt: Time)

  /** Why a pass of a control loop ends before it commands anything, if it does. The docking loop also checks the
      capture envelope, and only a reading beyond its deadline ends it. */
  function Interrupted(docking: bool, g: Glance, deadline: Time): Option<Code> {
    var t := g.tick;
    if !t.ok then Some(SafetyAbort)
    else if t.canceling then Some(Canceled)
    else if t.navigating then Some(NavigationActive)
    else if t.collided then Some(CollisionStopped)
    else if if docking then t.now > deadline else t.now >= deadline then Some(TimedOut)
    else if g.measured.None? then Some(NoStableTag)
    else if !t.stateValid then Some(InvalidState)
    else if docking && !g.measured.value.inside then Some(OutsideCapture)
    else None
  }

  datatype Task = Task(docking: bool, setup: Motion.Setup, dwell: Settling.Dwell)

  function GoalOf(task: Task): Server.Goal {
    if task.docking then Server.Dock else Server.TagUndock
  }

  /** What a pass reads of the measurement, if there is one. */
  function ErrorOf(g: Glance): Reading {
    if g.measured.Some? then g.measured.value.error else Reading(NotFinite, NotFinite, NotFinite)
  }

  function SequenceOf(g: Glance): nat {
    if g.measured.Some? then g.measured.value.sequence else 0
  }

  /** What the `k`-th pass hands to the motion controller: the error, the time since the pass before, and whether the
      measurement is another one than then. */
  function InputOf(start: Time, glances: seq<Glance>, k: nat): Motion.Input
    requires k < |glances|
  {
    var g := glances[k];
    Motion.Input(ErrorOf(g), g.controlAt - (if k == 0 then start else glances[k - 1].controlAt),
                 SequenceOf(g) != (if k == 0 then 0 else SequenceOf(glances[k - 1])))
  }

  /** A pass is about what the glance saw. */
  predicate Reads(pass: Settling.Pass, g: Glance) {
    && g.measured.Some?
    && var m := g.measured.value;
       && pass.error == m.error && pass.raw == m.raw && pass.observed == m.observed && pass.sequence == m.sequence
       && pass.now == g.controlAt
  }

  ghost predicate Steady(glances: seq<Glance>, start: Time) {
    && (forall i | 0 <= i < |glances| :: start <= glances[i].controlAt)
    && (forall i, j | 0 <= i < j < |glances| :: glances[i].controlAt <= glances[j].controlAt)
  }

  /** The commands of the passes are the motion controller's, one for each, from the errors of the passes. */
  ghost predicate Driven(setup: Motion.Setup, passes: seq<Settling.Pass>, inputs: seq<Motion.Input>) {
    && |inputs| == |passes| && Bounds.Monotone(setup, inputs)
    && forall k | 0 <= k < |passes| ::
      inputs[k].reading == passes[k].error && Bounds.CommandAt(setup, inputs, k) == Some(passes[k].command)
  }

  /** The accesses of a control loop: the flag, then the command of each pass. */
  ghost predicate Commands(accesses: seq<Access>, passes: seq<Settling.Pass>) {
    && |accesses| == |passes| + 1 && accesses[0] == Raise
    && forall k | 0 <= k < |passes| :: accesses[1..][k] == Set(passes[k].command)
  }

  lemma CommandsExtend(accesses: seq<Access>, passes: seq<Settling.Pass>, pass: Settling.Pass)
    requires Commands(accesses, passes)
    ensures Commands(accesses + [Set(pass.command)], passes + [pass])
  {
    assert (accesses + [Set(pass.command)])[1..] == accesses[1..] + [Set(pass.command)];
  }

  lemma DrivenExtends(setup: Motion.Setup, passes: seq<Settling.Pass>, inputs: seq<Motion.Input>,
                      pass: Settling.Pass, input: Motion.Input)
    requires Driven(setup, passes, inputs) && Motion.TurnLimit(setup, input.dt) >= 0.0
    requires input.reading == pass.error
    requires Motion.Update(setup, Bounds.After(setup, inputs), input).1 == Some(pass.command)
    ensures Driven(setup, passes + [pass], inputs + [input])
    ensures Bounds.Monotone(setup, inputs + [input])
    ensures Bounds.After(setup, inputs + [input]) == Motion.Update(setup, Bounds.After(setup, inputs), input).0
  {
    hide Motion.Update;
    var more := inputs + [input];
    assert Bounds.Monotone(setup, more) && more[..|inputs|] == inputs;
    forall k | 0 <= k < |more|
      ensures more[k].reading == (passes + [pass])[k].error
      ensures Bounds.CommandAt(setup, more, k) == Some((passes + [pass])[k].command)
    {
      if k < |inputs| {
        assert more[..k] == inputs[..k];
        assert Bounds.CommandAt(setup, inputs, k) == Some(passes[k].command);
      }
    }
  }

  function LookOf(config: Config, pass: Settling.Pass): Settling.Look {
    Settling.Look(Settling.StoppedAtGoal(config, pass), pass.now, pass.sequence, pass.observed)
  }

  /** What the dwell has answered so far. */
  function Rested(task: Task, passes: seq<Settling.Pass>): bool {
    passes != [] && Settling.Answer(task.dwell, Settling.Looks(task.setup.config, passes))
  }

  function Dwelling(task: Task, passes: seq<Settling.Pass>): Settling.SettleState {
    Settling.Run(task.dwell, Settling.Looks(task.setup.config, passes))
  }

  lemma DwellingExtends(task: Task, passes: seq<Settling.Pass>, pass: Settling.Pass)
    ensures (Dwelling(task, passes + [pass]), Rested(task, passes + [pass]))
            == Settling.Step(task.dwell, Dwelling(task, passes), LookOf(task.setup.config, pass))
  {
    var more := Settling.Looks(task.setup.config, passes + [pass]);
    assert more[..|passes|] == Settling.Looks(task.setup.config, passes);
    hide Settling.Step;
  }

  /** The passes the loop made: nothing interrupted them, each is about its own glance and commands what the motion
      controller answered, and none but the last may have settled. */
  ghost predicate Passed(task: Task, start: Time, deadline: Time, glances: seq<Glance>, passes: seq<Settling.Pass>,
                         inputs: seq<Motion.Input>)
  {
    && |passes| <= |glances| && Driven(task.setup, passes, inputs)
    && (forall k | 0 <= k < |passes| ::
      && Interrupted(task.docking, glances[k], deadline).None?
      && Reads(passes[k], glances[k]) && inputs[k] == InputOf(start, glances, k))
    && (forall k | 0 < k < |passes| :: !Rested(task, passes[..k]))
  }

  /** Why there is no further pass: settled, out of glances, interrupted, or an error the controller refuses. */
  ghost predicate Ended(task: Task, deadline: Time, glances: seq<Glance>, passes: seq<Settling.Pass>) {
    || Rested(task, passes)
    || |passes| >= |glances|
    || Interrupted(task.docking, glances[|passes|], deadline).Some?
    || !ErrorOf(glances[|passes|]).IsFinite()
  }

  /** The code that goes with it. */
  function EndOf(task: Task, deadline: Time, glances: seq<Glance>, passes: seq<Settling.Pass>): Code {
    if Rested(task, passes) then Success
    else if |passes| >= |glances| then SafetyAbort
    else
      match Interrupted(task.docking, glances[|passes|], deadline)
      case Some(code) => code
      case None => SafetyAbort
  }

  /** What an attempt did: its accesses to the shared command, its result, and its control passes. */
  datatype Ran = Ran(accesses: seq<Access>, code: Code, passes: seq<Settling.Pass>, inputs: seq<Motion.Input>)

  ghost predicate LoopRan(task: Task, start: Time, deadline: Time, glances: seq<Glance>, r: Ran) {
    && Commands(r.accesses, r.passes) && Passed(task, start, deadline, glances, r.passes, r.inputs)
    && Ended(task, deadline, glances, r.passes) && r.code == EndOf(task, deadline, glances, r.passes)
  }

  lemma PassedExtends(task: Task, start: Time, deadline: Time, glances: seq<Glance>, passes: seq<Settling.Pass>,
                      inputs: seq<Motion.Input>, pass: Settling.Pass, input: Motion.Input)
    requires Passed(task, start, deadline, glances, passes, inputs) && |passes| < |glances| && !Rested(task, passes)
    requires Driven(task.setup, passes + [pass], inputs + [input])
    requires var g := glances[|passes|];
             && Interrupted(task.docking, g, deadline).None? && Reads(pass, g)
             && input == InputOf(start, glances, |passes|)
    ensures Passed(task, start, deadline, glances, passes + [pass], inputs + [input])
  {
    hide Driven, Rested, Reads, Interrupted, InputOf;
    assert |inputs| == |passes| by { DrivenLengths(task.setup, passes, inputs); }
    var more := passes + [pass];
    forall k | 0 < k < |more| ensures !Rested(task, more[..k]) {
      if k < |passes| { assert more[..k] == passes[..k]; } else { assert more[..k] == passes; }
    }
  }

  lemma DrivenLengths(setup: Motion.Setup, passes: seq<Settling.Pass>, inputs: seq<Motion.Input>)
    requires Driven(setup, passes, inputs)
    ensures |inputs| == |passes| && Bounds.Monotone(setup, inputs)
  {
  }

  /** The controller refuses nothing but an error that is not finite. */
  lemma RefusesOnlyNotFinite(setup: Motion.Setup, inputs: seq<Motion.Input>, input: Motion.Input)
    requires setup.Valid() && Bounds.Monotone(setup, inputs) && Motion.TurnLimit(setup, input.dt) >= 0.0
    ensures Motion.Update(setup, Bounds.After(setup, inputs), input).1.Some? <==> input.reading.IsFinite()
  {
    Bounds.RunCoherent(setup, inputs);
    if input.reading.IsFinite() { Bounds.UpdateBounds(setup, Bounds.After(setup, inputs), input); }
  }

  /** The loop shared by docking attempts and tag-relative undocking. Running out of glances stands for a shutdown. */
  method Control(task: Task, start: Time, deadline: Time, glances: seq<Glance>) returns (r: Ran)
    requires task.setup.Valid() && Steady(glances, start)
    ensures LoopRan(task, start, deadline, glances, r)
  {
    hide Commands, Driven, Passed, Rested, Dwelling, Settling.Step, Settling.StoppedAtGoal, Motion.Update, Bounds.After;
    hide Motion.Setup.Valid, Interrupted;
    NothingYet(task, start, deadline, glances);
    var controller := new Motion.Controller(task.setup);
    var settling := new Settling.Settling();
    var previous, checked: nat := start, 0;
    var accesses, passes, inputs := [Raise], [], [];
    for k := 0 to |glances|
      invariant |passes| == k && Commands(accesses, passes) && Driven(task.setup, passes, inputs)
      invariant Passed(task, start, deadline, glances, passes, inputs)
      invariant controller.Valid() && fresh(controller) && fresh(controller.x) && fresh(controller.y)
      invariant fresh(controller.yaw) && fresh(settling) && controller.p == task.setup
      invariant Bounds.Monotone(task.setup, inputs)
      invariant controller.State() == Bounds.After(task.setup, inputs)
      invariant settling.State() == Dwelling(task, passes) && !Rested(task, passes)
      invariant previous == if k == 0 then start else glances[k - 1].controlAt
      invariant checked == if k == 0 then 0 else SequenceOf(glances[k - 1])
    {
      var g := glances[k];
      var ends := Interrupted(task.docking, g, deadline);
      if ends.Some? {
        return Ran(accesses, ends.value, passes, inputs);
      }
      MeasuredUnlessInterrupted(task.docking, g, deadline);
      var m := g.measured.value;
      var input := Motion.Input(m.error, g.controlAt - previous, m.sequence != checked);
      TurnLimitIsPositive(task.setup, input.dt);
      RefusesOnlyNotFinite(task.setup, inputs, input);
      previous, checked := g.controlAt, m.sequence;
      var command := controller.UpdateController(input.reading, input.dt, input.isNew);
      if command.None? {
        return Ran(accesses, SafetyAbort, passes, inputs);
      }
      var pass := Settling.Pass(m.error, m.raw, command.value, g.controlAt, m.sequence, m.observed);
      DrivenExtends(task.setup, passes, inputs, pass, input);
      PassedExtends(task, start, deadline, glances, passes, inputs, pass, input);
      DwellingExtends(task, passes, pass);
      CommandsExtend(accesses, passes, pass);
      var completed := settling.Update(task.dwell, LookOf(task.setup.config, pass));
      accesses, passes, inputs := accesses + [Set(command.value)], passes + [pass], inputs + [input];
      if completed {
        return Ran(accesses, Success, passes, inputs);
      }
    }
    return Ran(accesses, SafetyAbort, passes, inputs);
  }

  lemma NothingYet(task: Task, start: Time, deadline: Time, glances: seq<Glance>)
    ensures Commands([Raise], []) && Driven(task.setup, [], []) && Passed(task, start, deadline, glances, [], [])
    ensures Bounds.Monotone(task.setup, []) && Bounds.After(task.setup, []) == Motion.INITIAL
    ensures Dwelling(task, []) == Settling.RESTLESS && !Rested(task, [])
  {
  }

  lemma MeasuredUnlessInterrupted(docking: bool, g: Glance, deadline: Time)
    requires Interrupted(docking, g, deadline).None?
    ensures g.measured.Some?
  {
  }

  lemma TurnLimitIsPositive(setup: Motion.Setup, dt: real)
    requires setup.Valid() && dt >= 0.0
    ensures Motion.TurnLimit(setup, dt) >= 0.0
  {
  }

  /** Two accounts of the loop over the same glances agree on the passes both have. */
  lemma SamePasses(task: Task, start: Time, deadline: Time, glances: seq<Glance>, p: seq<Settling.Pass>,
                   i: seq<Motion.Input>, q: seq<Settling.Pass>, j: seq<Motion.Input>)
    requires Passed(task, start, deadline, glances, p, i) && Passed(task, start, deadline, glances, q, j)
    requires |p| <= |q|
    ensures q[..|p|] == p && j[..|p|] == i
  {
    hide Interrupted, InputOf, Rested, Bounds.After, Motion.Update;
    forall k | 0 <= k < |p| ensures q[k] == p[k] && j[k] == i[k] {
      assert i[k] == j[k] == InputOf(start, glances, k);
      assert forall n | 0 <= n < k :: i[n] == j[n] by {
        forall n | 0 <= n < k ensures i[n] == j[n] {
          assert i[n] == InputOf(start, glances, n);
        }
      }
      assert i[..k] == j[..k];
      assert Reads(p[k], glances[k]) && Reads(q[k], glances[k]);
      assert Bounds.CommandAt(task.setup, i, k) == Some(p[k].command);
      assert Bounds.CommandAt(task.setup, j, k) == Some(q[k].command);
    }
  }

  /** What the loop does is determined by what it reads. */
  lemma LoopIsDetermined(task: Task, start: Time, deadline: Time, glances: seq<Glance>, r: Ran, t: Ran)
    requires task.setup.Valid()
    requires LoopRan(task, start, deadline, glances, r) && LoopRan(task, start, deadline, glances, t)
    ensures r == t
  {
    hide Motion.Setup.Valid, Interrupted, Rested, Bounds.CommandAt;
    if |r.passes| <= |t.passes| {
      LoopStopsThere(task, start, deadline, glances, r, t);
    } else {
      LoopStopsThere(task, start, deadline, glances, t, r);
    }
    CommandsDetermined(r.accesses, t.accesses, r.passes);
  }

  lemma CommandsDetermined(a: seq<Access>, b: seq<Access>, passes: seq<Settling.Pass>)
    requires Commands(a, passes) && Commands(b, passes)
    ensures a == b
  {
    assert a == [Raise] + a[1..] && b == [Raise] + b[1..];
    assert forall k | 0 <= k < |passes| :: a[1..][k] == b[1..][k];
    assert a[1..] == b[1..];
  }

  lemma LoopStopsThere(task: Task, start: Time, deadline: Time, glances: seq<Glance>, r: Ran, t: Ran)
    requires task.setup.Valid()
    requires LoopRan(task, start, deadline, glances, r) && LoopRan(task, start, deadline, glances, t)
    requires |r.passes| <= |t.passes|
    ensures r.passes == t.passes && r.inputs == t.inputs
  {
    assert Rested(task, r.passes) ==> r.passes != [];
    hide Commands, EndOf, Rested, Interrupted, InputOf, Motion.Setup.Valid, Bounds.CommandAt, Reads, ErrorOf;
    SamePasses(task, start, deadline, glances, r.passes, r.inputs, t.passes, t.inputs);
    if |r.passes| < |t.passes| {
      PassWasAllowed(task, start, deadline, glances, t.passes, t.inputs, |r.passes|);
    }
  }

  /** Where a pass was made nothing had ended the loop. */
  lemma PassWasAllowed(task: Task, start: Time, deadline: Time, glances: seq<Glance>, passes: seq<Settling.Pass>,
                       inputs: seq<Motion.Input>, n: nat)
    requires task.setup.Valid() && Passed(task, start, deadline, glances, passes, inputs) && n < |passes|
    ensures Interrupted(task.docking, glances[n], deadline).None? && ErrorOf(glances[n]).IsFinite()
    ensures n > 0 ==> !Rested(task, passes[..n])
  {
    hide Interrupted, InputOf, Rested, Motion.Setup.Valid, Bounds.CommandAt;
    assert inputs[n].reading == passes[n].error && Reads(passes[n], glances[n]);
    Bounds.RunBounds(task.setup, inputs, n);
  }

  // ---------- What the loop goes by ----------

  /** Every pass was made with the robot free to move, in time, and on a measurement in the envelope; the controller
      was told the time and the newness since the pass before. */
  lemma PassesAreFree(task: Task, start: Time, deadline: Time, glances: seq<Glance>, r: Ran, k: nat)
    requires LoopRan(task, start, deadline, glances, r) && k < |r.passes|
    ensures k < |glances| && k < |r.inputs|
    ensures var t := glances[k].tick;
            && t.ok && !t.canceling && !t.navigating && !t.collided && t.stateValid
            && (if task.docking then t.now <= deadline else t.now < deadline)
    ensures glances[k].measured.Some? && (task.docking ==> glances[k].measured.value.inside)
    ensures var m, pass := glances[k].measured.value, r.passes[k];
            && pass.error == m.error && pass.raw == m.raw && pass.observed == m.observed
            && pass.sequence == m.sequence && pass.now == glances[k].controlAt
    ensures r.inputs[k].reading == glances[k].measured.value.error
    ensures k == 0 ==>
              r.inputs[k].dt == glances[0].controlAt - start
              && (r.inputs[k].isNew <==> glances[0].measured.value.sequence != 0)
    ensures k > 0 ==>
              && r.inputs[k].dt == glances[k].controlAt - glances[k - 1].controlAt
              && glances[k - 1].measured.Some?
              && (r.inputs[k].isNew <==>
                   glances[k].measured.value.sequence != glances[k - 1].measured.value.sequence)
  {
    hide Commands, Ended, EndOf, Rested, Bounds.CommandAt, Bounds.Monotone;
    assert Reads(r.passes[k], glances[k]) && r.inputs[k] == InputOf(start, glances, k);
    if k > 0 { assert Reads(r.passes[k - 1], glances[k - 1]); }
  }

  /** The first glance no pass was made for, if the loop has not settled. */
  function Halted(task: Task, glances: seq<Glance>, r: Ran): Option<Glance> {
    if !Rested(task, r.passes) && |r.passes| < |glances| then Some(glances[|r.passes|]) else None
  }

  /** Each code of the loop in what that glance shows: a shutdown comes first, then a cancellation, navigation, a
      collision stop, the deadline, the lack of a measurement, the robot's state, and for a docking the envelope; what
      is left is an error that is no number. */
  lemma LoopCodes(task: Task, start: Time, deadline: Time, glances: seq<Glance>, r: Ran)
    requires LoopRan(task, start, deadline, glances, r)
    ensures r.code == Success <==> Rested(task, r.passes)
    ensures var halted := Halted(task, glances, r);
            if halted.None? then r.code == Success || (r.code == SafetyAbort && |r.passes| == |glances|)
            else
              var t, m := halted.value.tick, halted.value.measured;
              var free := t.ok && !t.canceling && !t.navigating && !t.collided;
              var late := t.now > deadline || (t.now == deadline && !task.docking);
              && (r.code == Canceled <==> t.ok && t.canceling)
              && (r.code == NavigationActive <==> t.ok && !t.canceling && t.navigating)
              && (r.code == CollisionStopped <==> t.ok && !t.canceling && !t.navigating && t.collided)
              && (r.code == TimedOut <==> free && late)
              && (r.code == NoStableTag <==> free && !late && m.None?)
              && (r.code == InvalidState <==> free && !late && m.Some? && !t.stateValid)
              && (r.code == OutsideCapture <==>
                   free && !late && m.Some? && t.stateValid && task.docking && !m.value.inside)
              && (r.code == SafetyAbort <==>
                   || !t.ok
                   || (free && !late && m.Some? && t.stateValid && (task.docking ==> m.value.inside)
                       && !m.value.error.IsFinite()))
  {
    hide Commands, Driven, Rested, Reads, InputOf;
  }

  /** A collision stop ends the loop before it commands anything more: all its commands come from passes before. */
  lemma CollisionEndsLoop(task: Task, start: Time, deadline: Time, glances: seq<Glance>, r: Ran, k: nat)
    requires LoopRan(task, start, deadline, glances, r) && k < |glances| && glances[k].tick.collided
    ensures |r.passes| <= k && |r.accesses| <= k + 1
  {
    if k < |r.passes| {
      PassesAreFree(task, start, deadline, glances, r, k);
      assert false;
    }
    hide Driven, Passed, Ended, EndOf;
  }

  // ---------- Docking with retries ----------

  /** What waiting for a measurement sees in one pass. */
  datatype Sighting = Sighting(sequence: nat, stateValid: bool, inside: bool)

  datatype Wait = Wait(tick: Tick, seen: Option<Sighting>)

  /** A pass of the wait sees time up, a cancellation, navigation or a shutdown. */
  predicate WaitEnds(w: Wait, deadline: Time) {
    !w.tick.ok || w.tick.now >= deadline || w.tick.canceling || w.tick.navigating
  }

  predicate Finds(w: Wait, minimum: nat) {
    w.seen.Some? && w.seen.value.sequence > minimum
  }

  /** The first measurement beyond `minimum` before anything ends the wait. */
  function WaitFor(waits: seq<Wait>, deadline: Time, minimum: nat): (seen: Option<Sighting>)
    ensures seen.Some? ==> seen.value.sequence > minimum
    decreases |waits|
  {
    if waits == [] || WaitEnds(waits[0], deadline) then None
    else if Finds(waits[0], minimum) then waits[0].seen
    else WaitFor(waits[1..], deadline, minimum)
  }

  /** Pass `n` finds a measurement; up to it no pass sees a shutdown, the deadline, a cancellation or navigation, and
      none before it finds one. */
  predicate FirstFound(waits: seq<Wait>, deadline: Time, minimum: nat, n: int) {
    && 0 <= n < |waits|
    && (forall i | 0 <= i <= n ::
      var t := waits[i].tick; t.ok && t.now < deadline && !t.canceling && !t.navigating)
    && (forall i | 0 <= i < n :: waits[i].seen.Some? ==> waits[i].seen.value.sequence <= minimum)
    && waits[n].seen.Some? && waits[n].seen.value.sequence > minimum
  }

  method WaitForMeasurement(waits: seq<Wait>, deadline: Time, minimum: nat) returns (seen: Option<Sighting>)
    ensures seen == WaitFor(waits, deadline, minimum)
    ensures seen.Some? <==> exists n :: FirstFound(waits, deadline, minimum, n)
    ensures forall n | FirstFound(waits, deadline, minimum, n) :: seen == waits[n].seen
  {
    assert waits[0..] == waits;
    for k := 0 to |waits|
      invariant WaitFor(waits[k..], deadline, minimum) == WaitFor(waits, deadline, minimum)
      invariant forall i | 0 <= i < k :: !WaitEnds(waits[i], deadline) && !Finds(waits[i], minimum)
    {
      assert waits[k..][0] == waits[k] && waits[k..][1..] == waits[k + 1..];
      if WaitEnds(waits[k], deadline) {
        return None;
      }
      if Finds(waits[k], minimum) {
        assert FirstFound(waits, deadline, minimum, k);
        return waits[k].seen;
      }
    }
    return None;
  }

  /** How the wait before a retry went. */
  datatype Delay = Waited | CutShort(navigating: bool)

  /** What one attempt of a docking reads; `after` once the wait for a measurement is over, `latest` the newest
      measurement's number once the attempt has failed. */
  datatype Attempt = Attempt(
    delay: Delay,
    waits: seq<Wait>,
    waitDeadline: Time,
    after: Tick,
    start: Time,
    deadline: Time,
    glances: seq<Glance>,
    cancelingAfter: bool,
    latest: nat)

  /** Why an attempt ends before it moves, if it does. */
  function AttemptFails(a: Attempt, minimum: nat): Option<Code> {
    match WaitFor(a.waits, a.waitDeadline, minimum)
    case None =>
      Some(if a.after.canceling then Canceled else if a.after.navigating then NavigationActive
           else if !a.after.ok then SafetyAbort else NoStableTag)
    case Some(seen) =>
      if !seen.stateValid then Some(InvalidState) else if !seen.inside then Some(OutsideCapture) else None
  }

  /** Each code with which an attempt ends before it moves, in what the attempt reads. */
  lemma AttemptCodes(a: Attempt, minimum: nat)
    ensures var fails, seen := AttemptFails(a, minimum), WaitFor(a.waits, a.waitDeadline, minimum);
            && (fails == Some(Canceled) <==> seen.None? && a.after.canceling)
            && (fails == Some(NavigationActive) <==> seen.None? && !a.after.canceling && a.after.navigating)
            && (fails == Some(SafetyAbort) <==>
                 seen.None? && !a.after.canceling && !a.after.navigating && !a.after.ok)
            && (fails == Some(NoStableTag) <==>
                 seen.None? && !a.after.canceling && !a.after.navigating && a.after.ok)
            && (fails == Some(InvalidState) <==> seen.Some? && !seen.value.stateValid)
            && (fails == Some(OutsideCapture) <==> seen.Some? && seen.value.stateValid && !seen.value.inside)
            && (fails == None <==> seen.Some? && seen.value.stateValid && seen.value.inside)
  {
    hide WaitFor;
  }

  /** A retry waits for a measurement newer than any there was when the attempt before it failed. */
  function MinimumOf(attempts: seq<Attempt>, i: nat): nat
    requires i < |attempts|
  {
    if i == 0 then 0 else attempts[i - 1].latest
  }

  /** A canceled attempt reports the same code as a timeout. */
  predicate Retryable(code: Code) {
    code == NoStableTag || code == OutsideCapture || code == TimedOut || code == Canceled
  }

  /** A command within the configured speed and turn ranges. */
  predicate InRange(setup: Motion.Setup, v: Velocity) {
    var speed, config := setup.tr.hypot(v.x, v.y), setup.config;
    && (speed == 0.0 || config.translationSpeedMin <= speed <= config.translationSpeedMax)
    && (v.yaw == 0.0 || config.angularSpeedMin <= Abs(v.yaw) <= config.angularSpeedMax)
  }

  predicate AllInRange(setup: Motion.Setup, trace: seq<Access>) {
    forall a <- trace :: a.Set? ==> InRange(setup, a.velocity)
  }

  lemma CommandsInRange(setup: Motion.Setup, accesses: seq<Access>, passes: seq<Settling.Pass>,
                        inputs: seq<Motion.Input>)
    requires setup.Valid() && Commands(accesses, passes) && Driven(setup, passes, inputs)
    ensures AllInRange(setup, accesses)
  {
    hide Motion.Setup.Valid, InRange;
    forall k | 0 <= k < |passes| ensures InRange(setup, passes[k].command) {
      CommandInRange(setup, inputs, k);
    }
    forall a <- accesses ensures a.Set? ==> InRange(setup, a.velocity) {
      var i :| 0 <= i < |accesses| && accesses[i] == a;
      if i > 0 { assert accesses[1..][i - 1] == a; }
    }
  }

  lemma CommandInRange(setup: Motion.Setup, inputs: seq<Motion.Input>, k: nat)
    requires setup.Valid() && Bounds.Monotone(setup, inputs) && k < |inputs|
    requires Bounds.CommandAt(setup, inputs, k).Some?
    ensures InRange(setup, Bounds.CommandAt(setup, inputs, k).value)
  {
    hide Motion.Setup.Valid, Bounds.CommandAt;
    Bounds.RunBounds(setup, inputs, k);
  }

  /** An attempt that finds no measurement to begin with, or only checks, touches nothing; otherwise it is the loop. */
  ghost predicate AttemptRan(task: Task, executing: bool, a: Attempt, minimum: nat, r: Ran) {
    match AttemptFails(a, minimum)
    case Some(code) => r == Ran([], code, [], [])
    case None =>
      if executing then LoopRan(task, a.start, a.deadline, a.glances, r) else r == Ran([], Success, [], [])
  }

  /** `runAttempt`. */
  method RunAttempt(task: Task, executing: bool, a: Attempt, minimum: nat) returns (r: Ran)
    requires task.setup.Valid() && Steady(a.glances, a.start)
    ensures AttemptRan(task, executing, a, minimum, r)
  {
    hide Motion.Setup.Valid, LoopRan, Steady;
    var seen := WaitForMeasurement(a.waits, a.waitDeadline, minimum);
    if seen.None? {
      var code := NoStableTag;
      if a.after.canceling {
        code := Canceled;
      } else if a.after.navigating {
        code := NavigationActive;
      } else if !a.after.ok {
        code := SafetyAbort;
      }
      return Ran([], code, [], []);
    }
    if !seen.value.stateValid {
      return Ran([], InvalidState, [], []);
    }
    if !seen.value.inside {
      return Ran([], OutsideCapture, [], []);
    }
    if !executing {
      return Ran([], Success, [], []);
    }
    r := Control(task, a.start, a.deadline, a.glances);
  }

  /** A success of the loop rests on two distinct observations. */
  lemma LoopSuccessRests(task: Task, start: Time, deadline: Time, glances: seq<Glance>, r: Ran)
    requires LoopRan(task, start, deadline, glances, r) && r.code == Success
    ensures RestedFor(task, r.passes)
  {
    InterruptionIsFailure(task, deadline, glances, r.passes);
    Settling.SuccessRestsOnTwoObservations(task.dwell, task.setup.config, r.passes);
  }

  lemma InterruptionIsFailure(task: Task, deadline: Time, glances: seq<Glance>, passes: seq<Settling.Pass>)
    ensures EndOf(task, deadline, glances, passes) == Success <==> Rested(task, passes)
  {
    hide Rested;
  }

  /** An attempt's accesses are within range, fit where the operation stands, and leave it working. */
  lemma {:induction false} AttemptFollows(maximum: nat, goal: Server.Goal, phase: Server.Phase, accesses: seq<Access>,
                                          passes: seq<Settling.Pass>)
    requires goal.Dock? || goal.TagUndock?
    requires phase == ACCEPTED || (goal.Dock? && phase.Stopped? && phase.attempt < maximum)
    requires Commands(accesses, passes)
    ensures accesses != []
    ensures var n := if phase.Working? then phase.attempt else phase.attempt + 1;
            Follow(maximum, goal, phase, accesses) == Some(Server.Working(n, true))
    decreases |accesses|
  {
    if passes != [] {
      var last := |passes| - 1;
      assert accesses[1..][last] == Set(passes[last].command);
      assert Commands(accesses[..last + 1], passes[..last]);
      AttemptFollows(maximum, goal, phase, accesses[..last + 1], passes[..last]);
      FollowOn(maximum, goal, phase, accesses[..last + 1], [Set(passes[last].command)]);
      assert accesses == accesses[..last + 1] + [Set(passes[last].command)];
    } else {
      assert accesses == [Raise] && accesses[1..] == [];
    }
  }

  /** Whether a failed attempt leaves room for another. */
  predicate Continues(a: Attempt, r: Ran) {
    r.code != Success && r.code != Canceled && !a.cancelingAfter && Retryable(r.code)
  }

  /** `r` is the attempt numbered `i`, made after a wait that was not cut short if it is a retry. */
  ghost predicate AttemptAt(task: Task, executing: bool, attempts: seq<Attempt>, i: nat, r: Ran)
    requires i < |attempts|
  {
    && AttemptRan(task, executing, attempts[i], MinimumOf(attempts, i), r)
    && (i > 0 ==> attempts[i].delay.Waited?)
  }

  /** The attempts made, all but the last to be retried; and why no further one was made. */
  ghost predicate DockRan(task: Task, executing: bool, attempts: seq<Attempt>, runs: seq<Ran>) {
    && 1 <= |runs| <= |attempts|
    && (forall i | 0 <= i < |runs| :: AttemptAt(task, executing, attempts, i, runs[i]))
    && (forall i | 0 <= i < |runs| - 1 :: Continues(attempts[i], runs[i]))
    && (!Continues(attempts[|runs| - 1], runs[|runs| - 1])
        || |runs| == |attempts| || attempts[|runs|].delay.CutShort?)
  }

  function DockCode(attempts: seq<Attempt>, runs: seq<Ran>): Code
    requires 1 <= |runs| <= |attempts|
  {
    var last := |runs| - 1;
    if Continues(attempts[last], runs[last]) && |runs| < |attempts| && attempts[|runs|].delay.CutShort? then
      if attempts[|runs|].delay.navigating then NavigationActive else TimedOut
    else runs[last].code
  }

  /** The accesses of the attempts, each failure followed by a stop. */
  function Joined(runs: seq<Ran>): seq<Access> {
    if runs == [] then []
    else
      var r := runs[|runs| - 1];
      Joined(runs[..|runs| - 1]) + r.accesses + (if r.code == Success then [] else [StopAll])
  }

  /** The last attempt's passes end in a rest of the full duration over two distinct observations. */
  ghost predicate RestedAtEnd(task: Task, runs: seq<Ran>) {
    runs != [] && RestedFor(task, runs[|runs| - 1].passes)
  }

  ghost predicate RestedFor(task: Task, passes: seq<Settling.Pass>) {
    exists j: nat :: Settling.RestedSince(task.dwell, task.setup.config, passes, j)
  }

  lemma AttemptInRange(task: Task, executing: bool, a: Attempt, minimum: nat, r: Ran)
    requires task.setup.Valid() && AttemptRan(task, executing, a, minimum, r)
    ensures AllInRange(task.setup, r.accesses) && (r.accesses == [] || Commands(r.accesses, r.passes))
    ensures r.accesses != [] ==> executing
    ensures r.code == Success && executing ==> RestedFor(task, r.passes)
  {
    hide Motion.Setup.Valid, Commands, Driven, InRange, Ended, EndOf, RestedFor;
    if AttemptFails(a, minimum).None? && executing {
      CommandsInRange(task.setup, r.accesses, r.passes, r.inputs);
      if r.code == Success { LoopSuccessRests(task, a.start, a.deadline, a.glances, r); }
    } else {
      FailureIsNoSuccess(a, minimum);
    }
  }

  lemma FailureIsNoSuccess(a: Attempt, minimum: nat)
    ensures AttemptFails(a, minimum) != Some(Success)
  {
  }

  lemma InRangeTogether(setup: Motion.Setup, a: seq<Access>, b: seq<Access>)
    requires AllInRange(setup, a) && AllInRange(setup, b)
    ensures AllInRange(setup, a + b) && AllInRange(setup, a + b + [StopAll]) && AllInRange(setup, a + [StopAll, LetGo])
  {
  }

  /** Nothing but stopping and letting go. */
  predicate TouchesNothing(trace: seq<Access>) {
    forall a <- trace :: a == StopAll || a == LetGo
  }

  /** The attempts so far have failed in a way that leaves room for another. */
  ghost predicate Failing(task: Task, executing: bool, attempts: seq<Attempt>, runs: seq<Ran>) {
    && |runs| <= |attempts|
    && forall i | 0 <= i < |runs| ::
      AttemptAt(task, executing, attempts, i, runs[i]) && Continues(attempts[i], runs[i])
  }

  lemma OneMoreFails(task: Task, executing: bool, attempts: seq<Attempt>, runs: seq<Ran>, r: Ran)
    requires Failing(task, executing, attempts, runs) && |runs| < |attempts|
    requires AttemptAt(task, executing, attempts, |runs|, r) && Continues(attempts[|runs|], r)
    ensures Failing(task, executing, attempts, runs + [r])
  {
    hide AttemptAt, Continues;
  }

  lemma OneMoreEnds(task: Task, executing: bool, attempts: seq<Attempt>, runs: seq<Ran>, r: Ran)
    requires Failing(task, executing, attempts, runs) && |runs| < |attempts|
    requires AttemptAt(task, executing, attempts, |runs|, r)
    requires !Continues(attempts[|runs|], r) || |runs| + 1 == |attempts|
    ensures DockRan(task, executing, attempts, runs + [r]) && DockCode(attempts, runs + [r]) == r.code
  {
    hide AttemptAt, Continues;
  }

  lemma AttemptIsDetermined(task: Task, executing: bool, a: Attempt, minimum: nat, r: Ran, t: Ran)
    requires task.setup.Valid()
    requires AttemptRan(task, executing, a, minimum, r) && AttemptRan(task, executing, a, minimum, t)
    ensures r == t
  {
    hide LoopRan, Motion.Setup.Valid;
    if AttemptFails(a, minimum).None? && executing {
      LoopIsDetermined(task, a.start, a.deadline, a.glances, r, t);
    }
  }

  /** Which failures are followed by a further attempt, and what each attempt waits for: a missing tag, a robot outside
      the envelope, or a deadline, but no cancellation; and a measurement newer than at the failure. */
  lemma RetriesFollowFailures(task: Task, executing: bool, attempts: seq<Attempt>, runs: seq<Ran>, i: nat)
    requires DockRan(task, executing, attempts, runs) && i + 1 < |runs|
    ensures runs[i].code == NoStableTag || runs[i].code == OutsideCapture || runs[i].code == TimedOut
    ensures !attempts[i].cancelingAfter && attempts[i + 1].delay.Waited?
    ensures AttemptRan(task, executing, attempts[i + 1], attempts[i].latest, runs[i + 1])
  {
    hide AttemptRan;
    assert AttemptAt(task, executing, attempts, i + 1, runs[i + 1]);
  }

  /** No further attempt is made after the last because it succeeded, was canceled or failed for good, because there is
      none left, or because the wait before the next was cut short; that decides the code. */
  ghost predicate EndsFor(attempts: seq<Attempt>, runs: seq<Ran>) {
    && 1 <= |runs| <= |attempts|
    && var n, code := |runs|, runs[|runs| - 1].code;
       var retryable := (code == NoStableTag || code == OutsideCapture || code == TimedOut)
                        && !attempts[n - 1].cancelingAfter;
       && (retryable && n < |attempts| ==> attempts[n].delay.CutShort?)
       && DockCode(attempts, runs) ==
          if retryable && n < |attempts| then if attempts[n].delay.navigating then NavigationActive else TimedOut
          else code
  }

  lemma DockEnds(task: Task, executing: bool, attempts: seq<Attempt>, runs: seq<Ran>)
    requires DockRan(task, executing, attempts, runs)
    ensures EndsFor(attempts, runs)
  {
    hide AttemptRan;
  }

  /** What a docking does is determined by what its attempts read. */
  lemma DockIsDetermined(task: Task, executing: bool, attempts: seq<Attempt>, runs: seq<Ran>, others: seq<Ran>)
    requires task.setup.Valid()
    requires DockRan(task, executing, attempts, runs) && DockRan(task, executing, attempts, others)
    ensures runs == others
  {
    hide Motion.Setup.Valid, AttemptRan, Continues;
    var n := if |runs| < |others| then |runs| else |others|;
    forall i | 0 <= i < n ensures runs[i] == others[i] {
      assert AttemptAt(task, executing, attempts, i, runs[i]) && AttemptAt(task, executing, attempts, i, others[i]);
      AttemptIsDetermined(task, executing, attempts[i], MinimumOf(attempts, i), runs[i], others[i]);
    }
    assert n < |runs| ==> AttemptAt(task, executing, attempts, n, runs[n]);
    assert n < |others| ==> AttemptAt(task, executing, attempts, n, others[n]);
  }

  /** `execute`. There is one entry of `attempts` for each attempt the goal allows. */
  method ExecuteDock(task: Task, executing: bool, profileFound: bool, navigating: bool, attempts: seq<Attempt>)
    returns (trace: seq<Access>, code: Code, runs: seq<Ran>)
    requires task.docking && task.setup.Valid() && attempts != [] && (!executing ==> |attempts| == 1)
    requires forall a <- attempts :: Steady(a.glances, a.start)
    ensures trace == Joined(runs) + [StopAll, LetGo]
    ensures if profileFound && !navigating then
              DockRan(task, executing, attempts, runs) && code == DockCode(attempts, runs)
            else runs == [] && code == if profileFound then NavigationActive else InvalidProfile
    ensures Completes(|attempts|, GoalOf(task), trace) && AllInRange(task.setup, trace)
    ensures code == Success && executing ==> RestedAtEnd(task, runs)
    ensures !executing ==> TouchesNothing(trace)
  {
    hide Motion.Setup.Valid, Commands, AllInRange, Steady, Advance, AttemptRan, RestedFor, Joined, DockRan, DockCode;
    hide Failing, MinimumOf, Follow;
    runs := [];
    JoinedNone();
    NoAttemptYet(task, executing, attempts);
    if !profileFound || navigating {
      StopsAndLetsGo(|attempts|, GoalOf(task), []);
      InRangeTogether(task.setup, [], []);
      trace := [] + [StopAll, LetGo];
      code := if !profileFound then InvalidProfile else NavigationActive;
      return;
    }
    var goal := GoalOf(task);
    trace := [];
    ghost var phase := ACCEPTED;
    var minimum: nat := 0;
    while true
      invariant |runs| < |attempts| && minimum == MinimumOf(attempts, |runs|)
      invariant Failing(task, executing, attempts, runs)
      invariant AllInRange(task.setup, trace) && trace == Joined(runs) && (!executing ==> TouchesNothing(trace))
      invariant Follow(|attempts|, goal, ACCEPTED, trace) == Some(phase)
      invariant if runs == [] then phase == ACCEPTED else phase.Stopped? && phase.attempt <= |runs|
      decreases |attempts| - |runs|
    {
      var a := attempts[|runs|];
      if runs != [] && a.delay.CutShort? {
        CutShortEnds(task, executing, attempts, runs);
        StopsAndLetsGo(|attempts|, goal, trace);
        InRangeTogether(task.setup, trace, []);
        trace := trace + [StopAll, LetGo];
        code := if a.delay.navigating then NavigationActive else TimedOut;
        return;
      }
      var r := RunAttempt(task, executing, a, minimum);
      AttemptInRange(task, executing, a, minimum, r);
      phase := AttemptAdvances(|attempts|, goal, phase, trace, r);
      InRangeTogether(task.setup, trace, r.accesses);
      JoinedExtends(runs, r);
      ghost var before := runs;
      runs, trace, code := runs + [r], trace + r.accesses, r.code;
      if code == Success {
        OneMoreEnds(task, executing, attempts, before, r);
        StopsAndLetsGo(|attempts|, goal, trace);
        InRangeTogether(task.setup, trace, []);
        trace := trace + [StopAll, LetGo];
        return;
      }
      StopFollows(|attempts|, goal, trace, phase);
      phase := Server.Stopped(phase.attempt);
      trace := trace + [StopAll];
      if code == Canceled || a.cancelingAfter || !Retryable(code) || |runs| == |attempts| {
        // The failure paths stop once more.
        OneMoreEnds(task, executing, attempts, before, r);
        StopsAndLetsGo(|attempts|, goal, trace);
        InRangeTogether(task.setup, trace, []);
        trace := trace + [StopAll, LetGo];
        return;
      }
      OneMoreFails(task, executing, attempts, before, r);
      MinimumAfter(attempts, |before|);
      minimum := a.latest;
    }
  }

  lemma JoinedExtends(runs: seq<Ran>, r: Ran)
    ensures Joined(runs + [r]) == Joined(runs) + r.accesses + (if r.code == Success then [] else [StopAll])
  {
    assert (runs + [r])[..|runs|] == runs;
  }

  lemma JoinedNone()
    ensures Joined([]) == []
  {
  }

  lemma NoAttemptYet(task: Task, executing: bool, attempts: seq<Attempt>)
    requires attempts != []
    ensures AllInRange(task.setup, []) && Failing(task, executing, attempts, []) && MinimumOf(attempts, 0) == 0
    ensures Follow(|attempts|, GoalOf(task), ACCEPTED, []) == Some(ACCEPTED)
  {
  }

  lemma MinimumAfter(attempts: seq<Attempt>, i: nat)
    requires i + 1 < |attempts|
    ensures MinimumOf(attempts, i + 1) == attempts[i].latest
  {
  }

  lemma CutShortEnds(task: Task, executing: bool, attempts: seq<Attempt>, runs: seq<Ran>)
    requires runs != [] && Failing(task, executing, attempts, runs) && |runs| < |attempts|
    requires attempts[|runs|].delay.CutShort?
    ensures DockRan(task, executing, attempts, runs)
    ensures DockCode(attempts, runs) == if attempts[|runs|].delay.navigating then NavigationActive else TimedOut
  {
    hide AttemptAt, Continues;
  }

  /** Where an attempt leaves the operation. */
  lemma AttemptAdvances(maximum: nat, goal: Server.Goal, phase: Server.Phase, trace: seq<Access>, r: Ran)
    returns (next: Server.Phase)
    requires Follow(maximum, goal, ACCEPTED, trace) == Some(phase) && goal.Dock?
    requires phase == ACCEPTED || (phase.Stopped? && phase.attempt < maximum)
    requires r.accesses == [] || Commands(r.accesses, r.passes)
    ensures Follow(maximum, goal, ACCEPTED, trace + r.accesses) == Some(next)
    ensures (next.Working? || next.Stopped?) && next.attempt <= phase.attempt + (if phase.Stopped? then 1 else 0)
  {
    next := phase;
    FollowOn(maximum, goal, ACCEPTED, trace, r.accesses);
    if r.accesses != [] {
      AttemptFollows(maximum, goal, phase, r.accesses, r.passes);
      next := Follow(maximum, goal, phase, r.accesses).value;
    }
  }

  lemma StopFollows(maximum: nat, goal: Server.Goal, trace: seq<Access>, phase: Server.Phase)
    requires Follow(maximum, goal, ACCEPTED, trace) == Some(phase) && (phase.Working? || phase.Stopped?)
    ensures Follow(maximum, goal, ACCEPTED, trace + [StopAll]) == Some(Server.Stopped(phase.attempt))
  {
    FollowOn(maximum, goal, ACCEPTED, trace, [StopAll]);
    assert [StopAll][1..] == [];
  }

  // ---------- Tag-relative undocking ----------

  datatype Search = Search(tick: Tick, found: bool)

  /** A pass of the search for a first measurement: go on, stop with a code, or begin the control loop. */
  datatype Progress = Searching | Found | Failed(code: Code)

  function SearchStep(s: Search, deadline: Time): Progress {
    var t := s.tick;
    if !t.ok then Failed(SafetyAbort)
    else if s.found then Found
    else if t.canceling then Failed(Canceled)
    else if t.navigating then Failed(NavigationActive)
    else if !t.stateValid then Failed(InvalidState)
    else if t.collided then Failed(CollisionStopped)
    else if t.now >= deadline then Failed(NoStableTag)
    else Searching
  }

  /** Each outcome of a pass of the search, in what the pass reads: a shutdown comes first, then a measurement, a
      cancellation, navigation, the robot's state, a collision stop, and the deadline. */
  lemma SearchCodes(s: Search, deadline: Time)
    ensures var t, progress := s.tick, SearchStep(s, deadline);
            && (progress == Failed(SafetyAbort) <==> !t.ok)
            && (progress == Found <==> t.ok && s.found)
            && (progress == Failed(Canceled) <==> t.ok && !s.found && t.canceling)
            && (progress == Failed(NavigationActive) <==> t.ok && !s.found && !t.canceling && t.navigating)
            && (progress == Failed(InvalidState) <==>
                 t.ok && !s.found && !t.canceling && !t.navigating && !t.stateValid)
            && (progress == Failed(CollisionStopped) <==>
                 t.ok && !s.found && !t.canceling && !t.navigating && t.stateValid && t.collided)
            && (progress == Failed(NoStableTag) <==>
                 t.ok && !s.found && !t.canceling && !t.navigating && t.stateValid && !t.collided && t.now >= deadline)
            && (progress == Searching <==>
                 t.ok && !s.found && !t.canceling && !t.navigating && t.stateValid && !t.collided && t.now < deadline)
  {
  }

  /** The first pass that does not go on decides; running out of passes stands for a shutdown. */
  function SearchEnds(searches: seq<Search>, deadline: Time): (progress: Progress)
    ensures !progress.Searching? && progress != Failed(Success)
    decreases |searches|
  {
    if searches == [] then Failed(SafetyAbort)
    else
      var progress := SearchStep(searches[0], deadline);
      if progress.Searching? then SearchEnds(searches[1..], deadline) else progress
  }

  method Acquire(searches: seq<Search>, deadline: Time) returns (progress: Progress)
    ensures progress == SearchEnds(searches, deadline)
    ensures progress.Found? <==>
              exists n | 0 <= n < |searches| ::
                && SearchStep(searches[n], deadline) == Found
                && forall i | 0 <= i < n :: SearchStep(searches[i], deadline) == Searching
  {
    assert searches[0..] == searches;
    for n := 0 to |searches|
      invariant forall i | 0 <= i < n :: SearchStep(searches[i], deadline) == Searching
      invariant SearchEnds(searches[n..], deadline) == SearchEnds(searches, deadline)
    {
      assert searches[n..][0] == searches[n] && searches[n..][1..] == searches[n + 1..];
      progress := SearchStep(searches[n], deadline);
      if !progress.Searching? {
        return;
      }
    }
    progress := Failed(SafetyAbort);
  }

  /** What an undocking reads before it moves. */
  datatype Checks = Checks(profileFound: bool, navigating: bool, stateValid: bool)

  /** Why an undocking ends before it moves, if it does. */
  function UndockFails(c: Checks, searches: seq<Search>, deadline: Time): (code: Option<Code>)
    ensures code != Some(Success)
  {
    if !c.profileFound then Some(InvalidProfile)
    else if c.navigating then Some(NavigationActive)
    else if !c.stateValid then Some(InvalidState)
    else
      var progress := SearchEnds(searches, deadline);
      if progress.Failed? then Some(progress.code) else None
  }

  /** Each code with which an undocking ends before it moves: the profile comes first, then navigation, the robot's
      state, and the search for a measurement. */
  lemma UndockCodes(c: Checks, searches: seq<Search>, deadline: Time)
    ensures var fails, progress := UndockFails(c, searches, deadline), SearchEnds(searches, deadline);
            if c.profileFound && !c.navigating && c.stateValid then
              fails == if progress.Found? then None else Some(progress.code)
            else
              && (fails == Some(InvalidProfile) <==> !c.profileFound)
              && (fails == Some(NavigationActive) <==> c.profileFound && c.navigating)
              && (fails == Some(InvalidState) <==> c.profileFound && !c.navigating && !c.stateValid)
              && fails.Some?
  {
  }

  /** `executeUndock` for a tag-relative profile. A failure is reported as a cancellation if the goal is canceling by
      then. */
  method ExecuteTagUndock(task: Task, checks: Checks, searches: seq<Search>, searchDeadline: Time, start: Time,
                          deadline: Time, glances: seq<Glance>, cancelingAfter: bool)
    returns (trace: seq<Access>, code: Code, r: Ran)
    requires !task.docking && task.setup.Valid() && Steady(glances, start)
    ensures var fails := UndockFails(checks, searches, searchDeadline);
            if fails.Some? then r == Ran([], fails.value, [], []) else LoopRan(task, start, deadline, glances, r)
    ensures trace == r.accesses + [StopAll, LetGo]
    ensures code == if r.code != Success && cancelingAfter then Canceled else r.code
    ensures Completes(1, GoalOf(task), trace) && AllInRange(task.setup, trace)
    ensures code == Success ==> RestedFor(task, r.passes)
  {
    hide Motion.Setup.Valid, Commands, Passed, Driven, Ended, EndOf, InRange, Steady, Advance, RestedFor;
    var fails: Option<Code> := None;
    if !checks.profileFound {
      fails := Some(InvalidProfile);
    } else if checks.navigating {
      fails := Some(NavigationActive);
    } else if !checks.stateValid {
      fails := Some(InvalidState);
    } else {
      var progress := Acquire(searches, searchDeadline);
      if progress.Failed? {
        fails := Some(progress.code);
      }
    }
    if fails.Some? {
      r := Ran([], fails.value, [], []);
    } else {
      r := Control(task, start, deadline, glances);
      LoopInRange(task, start, deadline, glances, r);
      AttemptFollows(1, GoalOf(task), ACCEPTED, r.accesses, r.passes);
      if r.code == Success { LoopSuccessRests(task, start, deadline, glances, r); }
    }
    code := r.code;
    if code != Success && cancelingAfter {
      code := Canceled;
    }
    StopsAndLetsGo(1, GoalOf(task), r.accesses);
    trace := r.accesses + [StopAll, LetGo];
  }

  lemma LoopInRange(task: Task, start: Time, deadline: Time, glances: seq<Glance>, r: Ran)
    requires task.setup.Valid() && LoopRan(task, start, deadline, glances, r)
    ensures AllInRange(task.setup, r.accesses)
  {
    hide Motion.Setup.Valid, Commands, Driven, Ended, EndOf, AllInRange;
    CommandsInRange(task.setup, r.accesses, r.passes, r.inputs);
  }
}
