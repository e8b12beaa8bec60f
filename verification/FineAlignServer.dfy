/** The fine-align server's command path: competing operations, the navigation callbacks and the multiplexer, which
    interleave at every lock and every access to an atomic flag. */
module FineAlignServer {
  import opened Basics
  import Gate = NavigationCommandGate

  /** `forever` says whether any age is within a timeout that is not a finite number. */
  datatype Config = Config(monitorRaw: bool, timeout: Num, forever: bool, maximumAttempts: nat)

  datatype Goal = Dock | TagUndock | TimedUndock(speed: real) | Rotate(speed: real)

  /** Where the thread of an operation stands; some paths stop an attempt a second time. */
  datatype Phase =
    | Working(attempt: nat, activated: bool)
    | Stopping(attempt: nat)
    | Restopping(attempt: nat)
    | Cleared(attempt: nat)
    | Stopped(attempt: nat)
    | Done

  datatype Operation = Operation(goal: Goal, phase: Phase)

  /** Who holds the command mutex, and what it has read so far. */
  datatype Holder =
    | Free
    | NavigationLocked(raw: bool, twist: Twist)
    | NavigationLoaded(raw: bool, twist: Twist, busy: bool)
    | MuxLocked(at: Time)
    | MuxLoaded(at: Time, busy: bool)
    | MuxChecked(at: Time, navigating: set<nat>)
    | MuxDecided(at: Time, aligning: bool)

  datatype Source = Nobody | Alignment(operation: nat, attempt: nat) | Navigation

  datatype Publication = Publication(twist: Twist, source: Source)

  /** An event the navigation gate took in, with the releases before its callback took the mutex and read the flag. */
  datatype Admitted = Admitted(event: Gate.Event, lockedAfter: nat, loadedAfter: nat)

  /** What has happened: who set the alignment command; how many operations have let go, now and when the navigation
      callback in progress took the mutex and read the flag; what the gate took in since the last let go; and what was
      published. The program itself keeps none of this. */
  datatype Log = Log(
    author: Source,
    releases: nat,
    lockedAfter: nat,
    loadedAfter: nat,
    admitted: seq<Admitted>,
    published: seq<Publication>)

  const NOTHING := Log(Nobody, 0, 0, 0, [], [])

  /** `muxAt` is the clock reading the multiplexer's callback has taken before it gets the mutex. */
  datatype World = World(
    clock: Time,
    operationActive: bool,
    alignmentActive: bool,
    navigating: set<nat>,
    command: Twist,
    commandAt: Option<Time>,
    gate: Gate.GateState,
    muxAt: Option<Time>,
    mutex: Holder,
    operations: seq<Operation>,
    log: Log)

  function Start(clock: Time): World {
    World(clock, false, false, {}, ZERO_TWIST, None, Gate.CLEARED, None, Free, [], NOTHING)
  }

  datatype Step =
    | Advance(to: Time)
    | NavigationStatus(index: nat, active: bool)
    | Request(goal: Goal)
    | Activate(op: nat)
    | Command(op: nat, velocity: Velocity, at: Time)
    | Stop(op: nat)
    | ClearCommands(op: nat)
    | PublishStop(op: nat)
    | Retry(op: nat)
    | Release(op: nat)
    | NavigationLock(raw: bool, twist: Twist)
    | NavigationLoad
    | NavigationFinish
    | MuxRead
    | MuxLock
    | MuxLoadOperation
    | MuxLoadNavigation
    | MuxLoadAlignment
    | MuxPublish

  // ---------- Operations ----------

  predicate Allows(goal: Goal, activated: bool, v: Velocity) {
    match goal
    case Dock => activated
    case TagUndock => activated
    case TimedUndock(speed) => activated && v == Velocity(-speed, 0.0, 0.0)
    case Rotate(speed) => v == Velocity(0.0, 0.0, speed)
  }

  predicate WorkerMay(c: Config, w: World, s: Step) {
    match s
    case Activate(op) =>
      op < |w.operations| && w.operations[op].phase.Working? && !w.operations[op].goal.Rotate?
    case Command(op, velocity, at) =>
      && op < |w.operations| && w.operations[op].phase.Working? && w.mutex.Free? && at <= w.clock
      && Allows(w.operations[op].goal, w.operations[op].phase.activated, velocity)
    case Stop(op) => op < |w.operations| && (w.operations[op].phase.Working? || w.operations[op].phase.Stopped?)
    case ClearCommands(op) =>
      && op < |w.operations| && (w.operations[op].phase.Stopping? || w.operations[op].phase.Restopping?)
      && w.mutex.Free?
    case PublishStop(op) => op < |w.operations| && w.operations[op].phase.Cleared?
    case Retry(op) =>
      && op < |w.operations| && w.operations[op].phase.Stopped? && w.operations[op].goal.Dock?
      && w.operations[op].phase.attempt < c.maximumAttempts
    case Release(op) => op < |w.operations| && w.operations[op].phase.Stopped?
    case _ => false
  }

  function StopOf(phase: Phase): Phase
    requires !phase.Done?
  {
    if phase.Working? then Stopping(phase.attempt) else Restopping(phase.attempt)
  }

  function WithPhase(operations: seq<Operation>, op: nat, phase: Phase): seq<Operation>
    requires op < |operations|
  {
    operations[op := operations[op].(phase := phase)]
  }

  function Admit(log: Log, event: Gate.Event, lockedAfter: nat, loadedAfter: nat): Log {
    log.(admitted := log.admitted + [Admitted(event, lockedAfter, loadedAfter)])
  }

  function Publish(log: Log, twist: Twist, source: Source): Log {
    log.(published := log.published + [Publication(twist, source)])
  }

  /** A step of the thread of an operation. */
  function Work(c: Config, w: World, s: Step): World
    requires WorkerMay(c, w, s)
  {
    var op := s.op;
    var phase := w.operations[op].phase;
    match s
    case Activate(_) =>
      w.(alignmentActive := true, operations := WithPhase(w.operations, op, phase.(activated := true)))
    case Command(_, velocity, at) =>
      // A rotation raises the flag here, inside the critical section.
      w.(command := velocity.ToTwist(), commandAt := Some(at),
         alignmentActive := w.alignmentActive || w.operations[op].goal.Rotate?,
         operations := WithPhase(w.operations, op, phase.(activated := true)),
         log := w.log.(author := Alignment(op, phase.attempt)))
    case Stop(_) =>
      w.(alignmentActive := false, operations := WithPhase(w.operations, op, StopOf(phase)))
    case ClearCommands(_) =>
      w.(command := ZERO_TWIST, commandAt := None, gate := Gate.CLEARED,
         operations := WithPhase(w.operations, op, Cleared(phase.attempt)),
         log := Admit(w.log, Gate.Reset(w.clock), w.log.releases, w.log.releases))
    case PublishStop(_) =>
      w.(operations := WithPhase(w.operations, op, Stopped(phase.attempt)), log := Publish(w.log, ZERO_TWIST, Nobody))
    case Retry(_) => w.(operations := WithPhase(w.operations, op, Working(phase.attempt + 1, false)))
    case Release(_) =>
      w.(operationActive := false, operations := WithPhase(w.operations, op, Done),
         log := w.log.(releases := w.log.releases + 1, admitted := []))
  }

  // ---------- Navigation callbacks and the multiplexer ----------

  predicate YoungEnough(c: Config, age: real) {
    if c.timeout.Finite? then age <= c.timeout.v else c.forever
  }

  predicate MuxHolding(m: Holder) {
    m.MuxLocked? || m.MuxLoaded? || m.MuxChecked? || m.MuxDecided?
  }

  predicate HolderMay(c: Config, w: World, s: Step) {
    match s
    case NavigationLock(raw, _) => w.mutex.Free? && (raw ==> c.monitorRaw)
    case NavigationLoad => w.mutex.NavigationLocked?
    case NavigationFinish => w.mutex.NavigationLoaded?
    case MuxRead => w.muxAt.None? && !MuxHolding(w.mutex)
    case MuxLock => w.mutex.Free? && w.muxAt.Some?
    case MuxLoadOperation => w.mutex.MuxLocked?
    case MuxLoadNavigation => w.mutex.MuxLoaded? && w.mutex.busy
    case MuxLoadAlignment => w.mutex.MuxChecked? && w.mutex.navigating == {}
    case MuxPublish =>
      || (w.mutex.MuxLoaded? && !w.mutex.busy)
      || (w.mutex.MuxChecked? && w.mutex.navigating != {})
      || w.mutex.MuxDecided?
    case _ => false
  }

  function Finish(c: Config, w: World): World
    requires w.mutex.NavigationLoaded?
  {
    var m := w.mutex;
    if m.busy then w.(mutex := Free)
    else
      var event := if m.raw then Gate.Raw(w.clock, m.twist) else Gate.Smoothed(w.clock, m.twist);
      w.(gate := Gate.Apply(c.monitorRaw, w.gate, event, c.timeout), mutex := Free,
         log := Admit(w.log, event, w.log.lockedAfter, w.log.loadedAfter))
  }

  /** What the multiplexer is about to publish. */
  function Selected(c: Config, w: World): Publication
    requires HolderMay(c, w, MuxPublish)
  {
    match w.mutex
    case MuxLoaded(at, _) => Publication(Gate.CommandAt(c.monitorRaw, w.gate, at, c.timeout).1, Navigation)
    case MuxDecided(at, aligning) =>
      if aligning && w.commandAt.Some? && YoungEnough(c, at - w.commandAt.value) then
        Publication(w.command, w.log.author)
      else Publication(ZERO_TWIST, Nobody)
    case _ => Publication(ZERO_TWIST, Nobody)
  }

  function PublishSelected(c: Config, w: World): World
    requires HolderMay(c, w, MuxPublish)
  {
    var p := Selected(c, w);
    var done := w.(mutex := Free, log := Publish(w.log, p.twist, p.source));
    match w.mutex
    case MuxLoaded(at, _) =>
      done.(gate := Gate.CommandAt(c.monitorRaw, w.gate, at, c.timeout).0,
            log := Admit(done.log, Gate.Poll(at), w.log.releases, w.log.releases))
    case _ => done
  }

  /** A step of a navigation callback or of the multiplexer's. */
  function Hold(c: Config, w: World, s: Step): World
    requires HolderMay(c, w, s)
  {
    match s
    case NavigationLock(raw, twist) =>
      w.(mutex := NavigationLocked(raw, twist), log := w.log.(lockedAfter := w.log.releases))
    case NavigationLoad =>
      w.(mutex := NavigationLoaded(w.mutex.raw, w.mutex.twist, w.operationActive),
         log := w.log.(loadedAfter := w.log.releases))
    case NavigationFinish => Finish(c, w)
    case MuxRead => w.(muxAt := Some(w.clock))
    case MuxLock => w.(mutex := MuxLocked(w.muxAt.value), muxAt := None)
    case MuxLoadOperation => w.(mutex := MuxLoaded(w.mutex.at, w.operationActive))
    case MuxLoadNavigation => w.(mutex := MuxChecked(w.mutex.at, w.navigating))
    case MuxLoadAlignment => w.(mutex := MuxDecided(w.mutex.at, w.alignmentActive))
    case MuxPublish => PublishSelected(c, w)
  }

  /** Accepting a goal compares and swaps the flag; losers are turned away. */
  function Accept(w: World, goal: Goal): World {
    if w.operationActive then w
    else w.(operationActive := true, operations := w.operations + [Operation(goal, Working(1, false))])
  }

  /** One step; a step that cannot be taken where the system stands changes nothing. */
  function Next(c: Config, w: World, s: Step): World {
    if s.Advance? then if s.to >= w.clock then w.(clock := s.to) else w
    else if s.NavigationStatus? then
      w.(navigating := if s.active then w.navigating + {s.index} else w.navigating - {s.index})
    else if s.Request? then Accept(w, s.goal)
    else if WorkerMay(c, w, s) then Work(c, w, s)
    else if HolderMay(c, w, s) then Hold(c, w, s)
    else w
  }

  function Run(c: Config, w: World, h: seq<Step>): World {
    if h == [] then w else Next(c, Run(c, w, h[..|h| - 1]), h[|h| - 1])
  }

  // ---------- The invariant ----------

  /** At most one operation is alive, the last accepted, and it is exactly what the flag says. */
  ghost predicate OneAlive(w: World) {
    && (forall i | 0 <= i < |w.operations| - 1 :: w.operations[i].phase == Done)
    && (w.operationActive <==> w.operations != [] && w.operations[|w.operations| - 1].phase != Done)
    && w.log.releases == (if w.operationActive then |w.operations| - 1 else |w.operations|)
  }

  function Current(w: World): Phase {
    if w.operations == [] then Done else w.operations[|w.operations| - 1].phase
  }

  /** The alignment flag and command belong to the operation that is alive. */
  ghost predicate AlignmentOwned(w: World) {
    && (w.alignmentActive <==> Current(w).Working? && Current(w).activated)
    && (w.commandAt.None? ==> w.command == ZERO_TWIST)
    && (w.commandAt.Some? ==>
      && (Current(w).Working? || Current(w).Stopping?)
      && w.log.author == Alignment(|w.operations| - 1, Current(w).attempt)
      && Fits(w.operations[|w.operations| - 1].goal, w.command))
  }

  /** What an operation may command: a docking or tag-relative undocking any planar velocity, the others their own. */
  predicate Fits(goal: Goal, twist: Twist) {
    match goal
    case TimedUndock(speed) => twist == Velocity(-speed, 0.0, 0.0).ToTwist()
    case Rotate(speed) => twist == Velocity(0.0, 0.0, speed).ToTwist()
    case _ =>
      && twist.lx.Finite? && twist.ly.Finite? && twist.az.Finite?
      && twist == Velocity(twist.lx.v, twist.ly.v, twist.az.v).ToTwist()
  }

  function Events(admitted: seq<Admitted>): seq<Gate.Event> {
    seq(|admitted|, i requires 0 <= i < |admitted| => admitted[i].event)
  }

  /** The gate holds exactly what it took in since the last operation let go. */
  ghost predicate GateOwned(c: Config, w: World) {
    && w.gate == Gate.Run(c.monitorRaw, Events(w.log.admitted), c.timeout)
    && (Current(w).Cleared? || Current(w).Stopped? ==> w.gate == Gate.CLEARED)
    && (forall a <- w.log.admitted :: a.loadedAfter == w.log.releases && (a.event.Raw? ==> c.monitorRaw))
  }

  /** A callback that found the robot free has read so since the last release, and no operation can end meanwhile; only
      the first thing the gate takes in after a release can come from a callback that held the mutex before it. */
  ghost predicate MutexOwned(c: Config, w: World) {
    && w.log.lockedAfter <= w.log.releases
    && (w.mutex.NavigationLocked? || w.mutex.NavigationLoaded? ==>
      && (w.mutex.raw ==> c.monitorRaw)
      && (w.log.lockedAfter < w.log.releases ==> w.log.admitted == []))
    && (w.mutex.NavigationLoaded? && !w.mutex.busy ==>
      w.log.loadedAfter == w.log.releases && !Current(w).Cleared? && !Current(w).Stopped?)
    && (forall i | 0 < i < |w.log.admitted| :: w.log.admitted[i].lockedAfter == w.log.releases)
  }

  ghost predicate Sound(c: Config, w: World) {
    OneAlive(w) && AlignmentOwned(w) && GateOwned(c, w) && MutexOwned(c, w)
  }

  lemma WorkKeepsAlive(c: Config, w: World, s: Step)
    requires OneAlive(w) && WorkerMay(c, w, s)
    ensures OneAlive(Work(c, w, s)) && s.op == |w.operations| - 1 && w.operationActive
  {
    hide Allows;
  }

  lemma WorkKeepsAlignment(c: Config, w: World, s: Step)
    requires OneAlive(w) && AlignmentOwned(w) && WorkerMay(c, w, s)
    ensures AlignmentOwned(Work(c, w, s))
  {
    WorkKeepsAlive(c, w, s);
    hide OneAlive;
  }

  /** Only clearing and letting go touch the gate or what it took in. */
  lemma WorkLeavesGate(c: Config, w: World, s: Step)
    requires OneAlive(w) && WorkerMay(c, w, s) && !s.ClearCommands? && !s.Release?
    ensures var next := Work(c, w, s);
            && next.gate == w.gate && next.log.admitted == w.log.admitted && next.log.releases == w.log.releases
            && (Current(next).Cleared? || Current(next).Stopped? ==> Current(w).Cleared?)
  {
    WorkKeepsAlive(c, w, s);
    hide OneAlive, Allows;
  }

  lemma ClearKeepsGate(c: Config, w: World, s: Step)
    requires OneAlive(w) && GateOwned(c, w) && WorkerMay(c, w, s) && s.ClearCommands?
    ensures GateOwned(c, Work(c, w, s))
  {
    EventsGrow(c, w.log.admitted, Admitted(Gate.Reset(w.clock), w.log.releases, w.log.releases));
    hide OneAlive, Events, Gate.Run;
  }

  lemma WorkKeepsGate(c: Config, w: World, s: Step)
    requires OneAlive(w) && GateOwned(c, w) && WorkerMay(c, w, s)
    ensures GateOwned(c, Work(c, w, s))
  {
    assert Events([]) == [] && Gate.Run(c.monitorRaw, [], c.timeout) == Gate.CLEARED;
    hide Events, Gate.Run;
    if s.ClearCommands? {
      ClearKeepsGate(c, w, s);
    } else if s.Release? {
      WorkKeepsAlive(c, w, s);
      hide OneAlive;
    } else {
      WorkLeavesGate(c, w, s);
      hide OneAlive, WorkerMay, Work;
    }
  }

  lemma WorkKeepsMutex(c: Config, w: World, s: Step)
    requires OneAlive(w) && MutexOwned(c, w) && WorkerMay(c, w, s)
    ensures MutexOwned(c, Work(c, w, s))
  {
    WorkKeepsAlive(c, w, s);
    hide OneAlive, Allows, Fits;
  }

  lemma WorkKeeps(c: Config, w: World, s: Step)
    requires Sound(c, w) && WorkerMay(c, w, s)
    ensures Sound(c, Work(c, w, s))
  {
    hide OneAlive, AlignmentOwned, GateOwned, MutexOwned, Work;
    WorkKeepsAlive(c, w, s);
    WorkKeepsAlignment(c, w, s);
    WorkKeepsGate(c, w, s);
    WorkKeepsMutex(c, w, s);
  }

  lemma EventsGrow(c: Config, admitted: seq<Admitted>, a: Admitted)
    ensures Events(admitted + [a]) == Events(admitted) + [a.event]
    ensures Gate.Run(c.monitorRaw, Events(admitted + [a]), c.timeout)
            == Gate.Apply(c.monitorRaw, Gate.Run(c.monitorRaw, Events(admitted), c.timeout), a.event, c.timeout)
  {
    assert Events(admitted + [a])[..|admitted|] == Events(admitted);
  }

  /** What the operations and their command are made of stays as it is. */
  lemma HoldLeaves(c: Config, w: World, s: Step)
    requires HolderMay(c, w, s)
    ensures var next := Hold(c, w, s);
            && next.clock == w.clock && next.operations == w.operations && next.operationActive == w.operationActive
            && next.alignmentActive == w.alignmentActive && next.command == w.command && next.commandAt == w.commandAt
            && next.log.author == w.log.author && next.log.releases == w.log.releases
  {
    hide Gate.Apply, Gate.CommandAt, Selected;
  }

  lemma HoldKeepsOperations(c: Config, w: World, s: Step)
    requires OneAlive(w) && AlignmentOwned(w) && HolderMay(c, w, s)
    ensures OneAlive(Hold(c, w, s)) && AlignmentOwned(Hold(c, w, s))
  {
    HoldLeaves(c, w, s);
    hide Fits, Hold, HolderMay;
  }

  lemma HoldKeepsMutex(c: Config, w: World, s: Step)
    requires OneAlive(w) && MutexOwned(c, w) && HolderMay(c, w, s)
    ensures MutexOwned(c, Hold(c, w, s))
  {
    hide Gate.Apply, Gate.CommandAt, YoungEnough;
  }

  lemma HoldKeeps(c: Config, w: World, s: Step)
    requires Sound(c, w) && HolderMay(c, w, s)
    ensures Sound(c, Hold(c, w, s))
  {
    hide OneAlive, AlignmentOwned, GateOwned, MutexOwned, Hold;
    HoldKeepsOperations(c, w, s);
    HoldKeepsGate(c, w, s);
    HoldKeepsMutex(c, w, s);
  }

  lemma FinishKeepsGate(c: Config, w: World)
    requires GateOwned(c, w) && MutexOwned(c, w) && w.mutex.NavigationLoaded?
    ensures GateOwned(c, Finish(c, w))
  {
    hide Gate.Apply, Gate.Run;
    var next := Finish(c, w);
    if !w.mutex.busy {
      EventsGrow(c, w.log.admitted, next.log.admitted[|w.log.admitted|]);
    }
  }

  lemma PublishKeepsGate(c: Config, w: World)
    requires GateOwned(c, w) && HolderMay(c, w, MuxPublish)
    ensures GateOwned(c, PublishSelected(c, w))
  {
    hide Gate.Run;
    var next := PublishSelected(c, w);
    if w.mutex.MuxLoaded? {
      EventsGrow(c, w.log.admitted, next.log.admitted[|w.log.admitted|]);
    }
  }

  lemma HoldKeepsGate(c: Config, w: World, s: Step)
    requires GateOwned(c, w) && MutexOwned(c, w) && HolderMay(c, w, s)
    ensures GateOwned(c, Hold(c, w, s))
  {
    hide Finish, PublishSelected, MutexOwned, Events, Gate.Run;
    if s.NavigationFinish? {
      FinishKeepsGate(c, w);
    } else if s.MuxPublish? {
      PublishKeepsGate(c, w);
    }
  }

  lemma NextKeeps(c: Config, w: World, s: Step)
    requires Sound(c, w)
    ensures Sound(c, Next(c, w, s))
  {
    hide Work, Hold, Fits, Allows, Events;
    if WorkerMay(c, w, s) {
      WorkKeeps(c, w, s);
    } else if HolderMay(c, w, s) {
      HoldKeeps(c, w, s);
    }
  }

  /** Whatever the interleaving: at most one operation is alive; with none alive the alignment command is inactive and
      empty; and the gate is what it took in since the last operation let go. */
  lemma {:induction false} RunKeeps(c: Config, w: World, h: seq<Step>)
    requires Sound(c, w)
    ensures Sound(c, Run(c, w, h))
  {
    if h != [] {
      RunKeeps(c, w, h[..|h| - 1]);
      NextKeeps(c, Run(c, w, h[..|h| - 1]), h[|h| - 1]);
    }
  }

  lemma Reachable(c: Config, clock: Time, h: seq<Step>) returns (w: World)
    ensures w == Run(c, Start(clock), h) && Sound(c, w)
  {
    w := Run(c, Start(clock), h);
    RunKeeps(c, Start(clock), h);
  }

  // ---------- Who moves the robot ----------

  /** An idle robot has no alignment command, and the gate is empty whenever an operation lets go. */
  lemma NothingIsLeftBehind(c: Config, clock: Time, h: seq<Step>, op: nat)
    ensures var w := Run(c, Start(clock), h);
            && (!w.operationActive ==> !w.alignmentActive && w.command == ZERO_TWIST && w.commandAt.None?)
            && (WorkerMay(c, w, Release(op)) ==>
              && op == |w.operations| - 1 && w.operationActive
              && Work(c, w, Release(op)).gate == Gate.CLEARED && !Work(c, w, Release(op)).operationActive)
  {
    hide Run, Fits, Events, Allows, MutexOwned;
    var w := Reachable(c, clock, h);
  }

  /** A published alignment command is the one set by the single operation alive, in its current attempt, and it is no
      older than the timeout at the clock reading the multiplexer took before it had the mutex, so that it exceeds the
      timeout by no more than the time since then. */
  lemma AlignmentProvenance(c: Config, clock: Time, h: seq<Step>)
    requires HolderMay(c, Run(c, Start(clock), h), MuxPublish)
    requires Selected(c, Run(c, Start(clock), h)).source != Navigation
    requires Selected(c, Run(c, Start(clock), h)).twist != ZERO_TWIST
    ensures var w := Run(c, Start(clock), h);
            var p := Selected(c, w);
            && w.operationActive && (Current(w).Working? || Current(w).Stopping?)
            && p == Publication(w.command, Alignment(|w.operations| - 1, Current(w).attempt))
            && Fits(w.operations[|w.operations| - 1].goal, p.twist)
            && w.mutex.MuxDecided? && w.mutex.aligning && w.commandAt.Some?
            && (c.timeout.Finite? ==> w.mutex.at - w.commandAt.value <= c.timeout.v)
            && (c.timeout.Finite? ==> w.clock - w.commandAt.value <= c.timeout.v + (w.clock - w.mutex.at))
  {
    hide Run, Events, GateOwned, MutexOwned;
    var w := Reachable(c, clock, h);
  }

  // ---------- How old an alignment command is when it is published ----------

  /** If the multiplexer has come to publish within `d` of its clock reading, an alignment command that moves the robot
      is no older than `limit` by then. */
  ghost predicate AgeKept(c: Config, w: World, d: real, limit: real) {
    w.mutex.MuxDecided? && Selected(c, w).twist != ZERO_TWIST && w.clock - w.mutex.at <= d ==>
      w.clock - w.commandAt.value <= limit
  }

  /** What the configured timeout and the delay add up to keeps to the limit, or no command passes the age check in
      that time. */
  predicate AddsUp(c: Config, d: real, limit: real) {
    if c.timeout.Finite? then c.timeout.v + d <= limit || c.timeout.v + d < 0.0 else !c.forever
  }

  predicate NotFromFuture(w: World) {
    w.commandAt.Some? ==> w.commandAt.value <= w.clock
  }

  lemma WorkNotFromFuture(c: Config, w: World, s: Step)
    requires NotFromFuture(w) && WorkerMay(c, w, s)
    ensures NotFromFuture(Work(c, w, s))
  {
    hide Allows, WithPhase, Admit, Publish, StopOf;
  }

  lemma {:induction false} CommandNotFromFuture(c: Config, clock: Time, h: seq<Step>)
    ensures NotFromFuture(Run(c, Start(clock), h))
  {
    if h != [] {
      hide WorkerMay, HolderMay, Work, Hold;
      var before, s := Run(c, Start(clock), h[..|h| - 1]), h[|h| - 1];
      CommandNotFromFuture(c, clock, h[..|h| - 1]);
      if WorkerMay(c, before, s) {
        WorkNotFromFuture(c, before, s);
      } else if HolderMay(c, before, s) {
        HoldLeaves(c, before, s);
      }
    }
  }

  lemma Then(c: Config, w: World, h: seq<Step>, s: Step)
    ensures Run(c, w, h + [s]) == Next(c, Run(c, w, h), s)
  {
    assert (h + [s])[..|h|] == h;
  }

  /** Some velocity a docking may command. */
  const FORWARD := Velocity(1.0, 0.0, 0.0)

  /** A docking has commanded once, at `at`. */
  function Driving(clock: Time, at: Time, muxAt: Option<Time>, mutex: Holder): World {
    World(clock, true, true, {}, FORWARD.ToTwist(), Some(at), Gate.CLEARED, muxAt, mutex,
          [Operation(Dock, Working(1, true))], NOTHING.(author := Alignment(0, 1)))
  }

  /** A docking that has raised the flag. */
  lemma Raised(c: Config) returns (h: seq<Step>)
    ensures Run(c, Start(0.0), h)
            == Start(0.0).(operationActive := true, alignmentActive := true,
                           operations := [Operation(Dock, Working(1, true))])
  {
    h := [Request(Dock), Activate(0)];
    Then(c, Start(0.0), [], Request(Dock));
    Then(c, Start(0.0), [Request(Dock)], Activate(0));
    assert [] + [Request(Dock)] == [Request(Dock)] && h == [Request(Dock)] + [Activate(0)];
  }

  /** The command is set first, and read at the age `t`. */
  lemma ReadAfterCommand(c: Config, t: real, d: real) returns (h: seq<Step>)
    requires t >= 0.0 && d >= 0.0
    ensures Run(c, Start(0.0), h) == Driving(t + d, 0.0, Some(t), Free)
  {
    hide Run;
    h := Raised(c);
    Then(c, Start(0.0), h, Command(0, FORWARD, 0.0));
    h := h + [Command(0, FORWARD, 0.0)];
    assert Run(c, Start(0.0), h) == Driving(0.0, 0.0, None, Free);
    Then(c, Start(0.0), h, Advance(t));
    h := h + [Advance(t)];
    Then(c, Start(0.0), h, MuxRead);
    h := h + [MuxRead];
    assert Run(c, Start(0.0), h) == Driving(t, 0.0, Some(t), Free);
    Then(c, Start(0.0), h, Advance(t + d));
    h := h + [Advance(t + d)];
  }

  /** The clock is read first, and the command set only then. */
  lemma ReadBeforeCommand(c: Config, t: real, d: real) returns (h: seq<Step>)
    requires t < 0.0 <= t + d
    ensures Run(c, Start(0.0), h) == Driving(d, -t, Some(0.0), Free)
  {
    hide Run;
    h := Raised(c);
    ghost var raised := Run(c, Start(0.0), h);
    Then(c, Start(0.0), h, MuxRead);
    h := h + [MuxRead];
    assert Run(c, Start(0.0), h) == raised.(muxAt := Some(0.0));
    Then(c, Start(0.0), h, Advance(-t));
    h := h + [Advance(-t)];
    assert Run(c, Start(0.0), h) == raised.(muxAt := Some(0.0), clock := -t);
    Then(c, Start(0.0), h, Command(0, FORWARD, -t));
    h := h + [Command(0, FORWARD, -t)];
    assert Run(c, Start(0.0), h) == Driving(-t, -t, Some(0.0), Free);
    Then(c, Start(0.0), h, Advance(d));
    h := h + [Advance(d)];
  }

  lemma MuxDecides(c: Config, h: seq<Step>, clock: Time, at: Time, read: Time) returns (longer: seq<Step>)
    requires Run(c, Start(0.0), h) == Driving(clock, at, Some(read), Free)
    ensures Run(c, Start(0.0), longer) == Driving(clock, at, None, MuxDecided(read, true))
  {
    hide Run;
    Then(c, Start(0.0), h, MuxLock);
    longer := h + [MuxLock];
    assert Run(c, Start(0.0), longer) == Driving(clock, at, None, MuxLocked(read));
    Then(c, Start(0.0), longer, MuxLoadOperation);
    longer := longer + [MuxLoadOperation];
    assert Run(c, Start(0.0), longer) == Driving(clock, at, None, MuxLoaded(read, true));
    Then(c, Start(0.0), longer, MuxLoadNavigation);
    longer := longer + [MuxLoadNavigation];
    assert Run(c, Start(0.0), longer) == Driving(clock, at, None, MuxChecked(read, {}));
    Then(c, Start(0.0), longer, MuxLoadAlignment);
    longer := longer + [MuxLoadAlignment];
  }

  /** A run that publishes a command of age `t + d` when `d` has passed since the clock reading. */
  lemma AgeIsReached(c: Config, t: real, d: real) returns (h: seq<Step>)
    requires YoungEnough(c, t) && d >= 0.0 && t + d >= 0.0
    ensures var w := Run(c, Start(0.0), h);
            && w.mutex.MuxDecided? && Selected(c, w).twist == FORWARD.ToTwist() && w.clock - w.mutex.at == d
            && w.clock - w.commandAt.value == t + d
  {
    hide Run;
    if t >= 0.0 {
      h := ReadAfterCommand(c, t, d);
      h := MuxDecides(c, h, t + d, 0.0, t);
    } else {
      h := ReadBeforeCommand(c, t, d);
      h := MuxDecides(c, h, d, -t, 0.0);
    }
  }

  /** The age limit at the moment of publication: in every run, a command published within `d` of the multiplexer's
      clock reading is no older than `limit` exactly when the timeout and `d` together keep to the limit. */
  lemma AgeAtPublicationIff(c: Config, d: real, limit: real)
    requires d >= 0.0
    ensures (forall clock, h :: AgeKept(c, Run(c, Start(clock), h), d, limit)) <==> AddsUp(c, d, limit)
  {
    if AddsUp(c, d, limit) {
      forall clock, h ensures AgeKept(c, Run(c, Start(clock), h), d, limit) {
        hide Run;
        CommandNotFromFuture(c, clock, h);
      }
    } else {
      hide Run;
      var t := if c.timeout.Finite? then c.timeout.v else Max(limit, 0.0) + 1.0;
      var h := AgeIsReached(c, t, d);
      assert !AgeKept(c, Run(c, Start(0.0), h), d, limit);
    }
  }

  /** The configured timeout is exceeded at a publication that comes any time at all after the clock reading. */
  lemma TimeoutIsExceeded(c: Config, d: real) returns (h: seq<Step>)
    requires c.timeout.Finite? && c.timeout.v >= 0.0 && d > 0.0
    ensures var w := Run(c, Start(0.0), h);
            && w.mutex.MuxDecided? && Selected(c, w).twist != ZERO_TWIST && w.clock - w.mutex.at == d
            && w.clock - w.commandAt.value > c.timeout.v
  {
    h := AgeIsReached(c, c.timeout.v, d);
  }

  /** The multiplexer, which read the clock at `at`, holds the mutex. */
  predicate MuxHolds(w: World, at: Time) {
    match w.mutex
    case MuxLoaded(t, _) => t == at
    case MuxChecked(t, _) => t == at
    case MuxDecided(t, _) => t == at
    case _ => false
  }

  /** When step `n` of the run was taken navigation was quiet, and the multiplexer has held the mutex since. */
  ghost predicate QuietSince(c: Config, w: World, h: seq<Step>, n: nat, at: Time) {
    && n < |h|
    && Run(c, w, h[..n]).navigating == {}
    && forall i | n <= i <= |h| :: MuxHolds(Run(c, w, h[..i]), at)
  }

  lemma QuietLonger(c: Config, w: World, h: seq<Step>, n: nat, at: Time)
    requires h != [] && QuietSince(c, w, h[..|h| - 1], n, at) && MuxHolds(Run(c, w, h), at)
    ensures QuietSince(c, w, h, n, at)
  {
    forall i | n <= i <= |h| ensures MuxHolds(Run(c, w, h[..i]), at) {
      if i < |h| { assert h[..|h| - 1][..i] == h[..i]; } else { assert h[..i] == h; }
    }
    assert h[..|h| - 1][..n] == h[..n];
  }

  lemma CheckComesFrom(c: Config, w: World, s: Step)
    requires var m := Next(c, w, s).mutex; m.MuxChecked? && m.navigating == {}
    ensures var m := Next(c, w, s).mutex;
            w.mutex == m || (s == MuxLoadNavigation && w.navigating == {} && w.mutex == MuxLoaded(m.at, true))
  {
  }

  lemma DecisionComesFrom(c: Config, w: World, s: Step)
    requires var m := Next(c, w, s).mutex; m.MuxDecided? && m.aligning
    ensures var m := Next(c, w, s).mutex;
            w.mutex == m || (s == MuxLoadAlignment && w.mutex == MuxChecked(m.at, {}) && w.alignmentActive)
  {
  }

  lemma {:induction false} CheckRestsOnReading(c: Config, w: World, h: seq<Step>) returns (n: nat)
    requires w.mutex.Free?
    requires Run(c, w, h).mutex.MuxChecked? && Run(c, w, h).mutex.navigating == {}
    ensures QuietSince(c, w, h, n, Run(c, w, h).mutex.at)
  {
    hide Next;
    var before, at := Run(c, w, h[..|h| - 1]), Run(c, w, h).mutex.at;
    CheckComesFrom(c, before, h[|h| - 1]);
    if before.mutex.MuxChecked? {
      n := CheckRestsOnReading(c, w, h[..|h| - 1]);
      QuietLonger(c, w, h, n, at);
    } else {
      n := |h| - 1;
      assert h[..|h|] == h;
    }
  }

  /** A decision to publish the alignment command rests on two readings made under the same hold of the mutex:
      navigation was quiet, and later the alignment was active. */
  lemma {:induction false} DecisionRestsOnReadings(c: Config, w: World, h: seq<Step>) returns (n: nat, m: nat)
    requires w.mutex.Free?
    requires Run(c, w, h).mutex.MuxDecided? && Run(c, w, h).mutex.aligning
    ensures QuietSince(c, w, h, n, Run(c, w, h).mutex.at)
    ensures n < m < |h| && Run(c, w, h[..m]).alignmentActive
  {
    hide Next, QuietSince;
    var before, at := Run(c, w, h[..|h| - 1]), Run(c, w, h).mutex.at;
    DecisionComesFrom(c, before, h[|h| - 1]);
    if before.mutex.MuxDecided? {
      n, m := DecisionRestsOnReadings(c, w, h[..|h| - 1]);
      assert h[..|h| - 1][..m] == h[..m];
    } else {
      n := CheckRestsOnReading(c, w, h[..|h| - 1]);
      m := |h| - 1;
      QuietStarts(c, w, h[..|h| - 1], n, at);
    }
    QuietLonger(c, w, h, n, at);
  }

  lemma QuietStarts(c: Config, w: World, h: seq<Step>, n: nat, at: Time)
    requires QuietSince(c, w, h, n, at)
    ensures n < |h|
  {
  }

  // ---------- Nothing after the stop ----------

  /** Operation `op` has gone through the critical section that ends its attempt `attempt`. */
  predicate Past(w: World, op: nat, attempt: nat) {
    op < |w.operations| &&
    match w.operations[op].phase
    case Done => true
    case Cleared(a) => a >= attempt
    case Stopped(a) => a >= attempt
    case Stopping(a) => a > attempt
    case Restopping(a) => a >= attempt
    case Working(a, _) => a > attempt
  }

  lemma PastWorks(c: Config, w: World, s: Step, op: nat, attempt: nat)
    requires WorkerMay(c, w, s) && Past(w, op, attempt)
    ensures Past(Work(c, w, s), op, attempt)
    ensures var published := Work(c, w, s).log.published;
            published == w.log.published || published == w.log.published + [Publication(ZERO_TWIST, Nobody)]
  {
    hide Allows;
  }

  lemma PastStays(c: Config, w: World, s: Step, op: nat, attempt: nat)
    requires Sound(c, w) && Past(w, op, attempt)
    ensures Past(Next(c, w, s), op, attempt)
    ensures w.log.published <= Next(c, w, s).log.published
    ensures forall p <- Next(c, w, s).log.published[|w.log.published|..] :: p.source != Alignment(op, attempt)
  {
    if WorkerMay(c, w, s) {
      PastWorks(c, w, s, op, attempt);
      hide Work, Past;
    } else if HolderMay(c, w, s) && s.MuxPublish? {
      AuthorIsNotPast(c, w, op, attempt);
      hide Past, Sound;
    } else {
      hide Sound;
    }
  }

  lemma AuthorIsNotPast(c: Config, w: World, op: nat, attempt: nat)
    requires Sound(c, w) && Past(w, op, attempt) && HolderMay(c, w, MuxPublish)
    ensures Selected(c, w).source != Alignment(op, attempt)
  {
    hide Fits, GateOwned, MutexOwned;
  }

  /** Once an attempt's stop has cleared the commands, none of that attempt's commands is ever published again. */
  lemma {:induction false} NothingAfterStop(c: Config, w: World, h: seq<Step>, op: nat, attempt: nat)
    requires Sound(c, w) && Past(w, op, attempt)
    ensures Past(Run(c, w, h), op, attempt) && w.log.published <= Run(c, w, h).log.published
    ensures forall p <- Run(c, w, h).log.published[|w.log.published|..] :: p.source != Alignment(op, attempt)
  {
    if h != [] {
      var before := Run(c, w, h[..|h| - 1]);
      NothingAfterStop(c, w, h[..|h| - 1], op, attempt);
      RunKeeps(c, w, h[..|h| - 1]);
      PastStays(c, before, h[|h| - 1], op, attempt);
      var all := Run(c, w, h).log.published;
      forall p <- all[|w.log.published|..] ensures p.source != Alignment(op, attempt) {
        assert p in before.log.published[|w.log.published|..] || p in all[|before.log.published|..];
      }
    }
  }

  // ---------- Handover ----------

  /** The command the gate answers is the latest smoothed one it took in since the last release, at `i`. */
  ghost predicate CommandComesFrom(admitted: seq<Admitted>, i: nat, twist: Twist) {
    && i < |admitted| && admitted[i].event.Smoothed? && admitted[i].event.twist == twist
    && forall k | i < k < |admitted| :: !admitted[k].event.Smoothed?
  }

  /** What the gate took in since the last operation let go entitles `twist` to move the robot at `at`. */
  ghost predicate Entitled(c: Config, w: World, at: Time, twist: Twist) {
    var taken := Gate.WithoutPolls(Events(w.log.admitted));
    && c.timeout.Finite? && c.timeout.v > 0.0
    && if c.monitorRaw then Gate.Live(taken, at, c.timeout.v, twist)
       else exists k: nat :: Gate.HeldAt(taken, k, twist) && at - taken[k].at <= c.timeout.v
  }

  /** A navigation command that moves the robot is entitled to by what the gate took in since the last operation let go,
      all of it from callbacks that found the robot free after that. With the raw stream monitored the command's own
      callback also took the mutex after that. */
  lemma HandoverWithoutReplay(c: Config, clock: Time, h: seq<Step>)
    requires HolderMay(c, Run(c, Start(clock), h), MuxPublish)
    requires Selected(c, Run(c, Start(clock), h)).source == Navigation
    requires Selected(c, Run(c, Start(clock), h)).twist != ZERO_TWIST
    ensures var w := Run(c, Start(clock), h);
            && w.mutex.MuxLoaded? && Entitled(c, w, w.mutex.at, Selected(c, w).twist)
            && (forall a <- w.log.admitted :: a.loadedAfter == w.log.releases)
            && exists i: nat ::
                 && CommandComesFrom(w.log.admitted, i, Selected(c, w).twist)
                 && (c.monitorRaw ==> w.log.admitted[i].lockedAfter == w.log.releases)
  {
    hide Fits, Run;
    var w := Reachable(c, clock, h);
    var events, twist := Events(w.log.admitted), Selected(c, w).twist;
    if c.monitorRaw {
      Gate.AnswersAreLive(events, w.mutex.at, c.timeout, twist);
    } else {
      Gate.UnmonitoredAnswersAreHeld(events, w.mutex.at, c.timeout, twist);
    }
    Gate.CommandHasItsEvent(c.monitorRaw, events, c.timeout);
    var i: nat :| Gate.HeldSince(events, i, w.gate) && (c.monitorRaw ==> i > 0);
    assert forall k | 0 <= k < |events| :: events[k] == w.log.admitted[k].event;
    assert CommandComesFrom(w.log.admitted, i, twist);
  }

  // ---------- Callbacks that do not overlap ----------

  /** The navigation callbacks and the multiplexer's share a callback group in which no two run at a time: none starts
      between the multiplexer's reading of the clock and its publication, and that reading is not taken while one is
      under way. Worker threads still move at any time. */
  predicate Apart(w: World, s: Step) {
    && (s.NavigationLock? ==> w.muxAt.None?)
    && (s.MuxRead? ==> !w.mutex.NavigationLocked? && !w.mutex.NavigationLoaded?)
  }

  ghost predicate CallbacksApart(c: Config, w: World, h: seq<Step>) {
    forall i | 0 <= i < |h| :: Apart(Run(c, w, h[..i]), h[i])
  }

  /** The times of what the gate took in, resets by worker threads aside, are in order and none is after `now`. */
  ghost predicate TakenInOrder(events: seq<Gate.Event>, now: Time) {
    && (forall i | 0 <= i < |events| && !events[i].Reset? :: events[i].at <= now)
    && (forall i, j | 0 <= i < j < |events| && !events[i].Reset? && !events[j].Reset? :: events[i].at <= events[j].at)
  }

  function MuxTime(w: World): Option<Time> {
    match w.mutex
    case MuxLocked(at) => Some(at)
    case MuxLoaded(at, _) => Some(at)
    case MuxChecked(at, _) => Some(at)
    case MuxDecided(at, _) => Some(at)
    case _ => w.muxAt
  }

  ghost predicate InTime(w: World) {
    && TakenInOrder(Events(w.log.admitted), w.clock)
    && (MuxTime(w).Some? ==> MuxTime(w).value <= w.clock && TakenInOrder(Events(w.log.admitted), MuxTime(w).value))
    && (w.muxAt.Some? ==> !MuxHolding(w.mutex) && !w.mutex.NavigationLocked? && !w.mutex.NavigationLoaded?)
  }

  /** No worker resets the gate while nobody holds the robot, nor while a callback that found it so holds the mutex. */
  ghost predicate NoReset(w: World) {
    !w.operationActive || (w.mutex.MuxLoaded? && !w.mutex.busy) || (w.mutex.NavigationLoaded? && !w.mutex.busy) ==>
      forall a <- w.log.admitted :: !a.event.Reset?
  }

  lemma TakenExtends(events: seq<Gate.Event>, now: Time, e: Gate.Event, later: Time)
    requires TakenInOrder(events, now) && now <= later && (e.Reset? || now <= e.at <= later)
    ensures TakenInOrder(events + [e], later)
  {
  }

  lemma TakenLater(events: seq<Gate.Event>, now: Time, later: Time)
    requires TakenInOrder(events, now) && now <= later
    ensures TakenInOrder(events, later)
  {
  }

  lemma WorkInTime(c: Config, w: World, s: Step)
    requires InTime(w) && WorkerMay(c, w, s)
    ensures InTime(Work(c, w, s))
  {
    var reset := Gate.Reset(w.clock);
    EventsGrow(c, w.log.admitted, Admitted(reset, w.log.releases, w.log.releases));
    TakenExtends(Events(w.log.admitted), w.clock, reset, w.clock);
    if MuxTime(w).Some? { TakenExtends(Events(w.log.admitted), MuxTime(w).value, reset, MuxTime(w).value); }
    assert Events([]) == [];
    hide Allows, Events, Gate.Run, Gate.Apply;
  }

  lemma WorkNoReset(c: Config, w: World, s: Step)
    requires OneAlive(w) && MutexOwned(c, w) && NoReset(w) && WorkerMay(c, w, s)
    ensures NoReset(Work(c, w, s))
  {
    WorkKeepsAlive(c, w, s);
    hide OneAlive, Allows;
  }

  /** A callback that ends takes its event in at the clock, later than everything before. */
  lemma FinishInTime(c: Config, w: World)
    requires InTime(w) && NoReset(w) && w.mutex.NavigationLoaded?
    ensures InTime(Finish(c, w)) && NoReset(Finish(c, w))
  {
    var next := Finish(c, w);
    if !w.mutex.busy {
      var taken := next.log.admitted[|w.log.admitted|];
      EventsGrow(c, w.log.admitted, taken);
      TakenExtends(Events(w.log.admitted), w.clock, taken.event, w.clock);
    }
    hide Events, Gate.Run, Gate.Apply;
  }

  /** A poll is taken in at the multiplexer's reading. */
  lemma PublishInTime(c: Config, w: World)
    requires InTime(w) && NoReset(w) && HolderMay(c, w, MuxPublish)
    ensures InTime(PublishSelected(c, w)) && NoReset(PublishSelected(c, w))
  {
    var next := PublishSelected(c, w);
    if w.mutex.MuxLoaded? {
      var taken := next.log.admitted[|w.log.admitted|];
      EventsGrow(c, w.log.admitted, taken);
      TakenExtends(Events(w.log.admitted), w.mutex.at, taken.event, w.clock);
    }
    hide Events, Gate.Run, Gate.Apply, Gate.CommandAt, YoungEnough;
  }

  lemma HoldInTime(c: Config, w: World, s: Step)
    requires InTime(w) && NoReset(w) && HolderMay(c, w, s) && Apart(w, s)
    ensures InTime(Hold(c, w, s)) && NoReset(Hold(c, w, s))
  {
    hide Finish, PublishSelected, Events, TakenInOrder;
    if s.NavigationFinish? {
      FinishInTime(c, w);
    } else if s.MuxPublish? {
      PublishInTime(c, w);
    }
  }

  lemma NextInTime(c: Config, w: World, s: Step)
    requires Sound(c, w) && InTime(w) && NoReset(w) && Apart(w, s)
    ensures InTime(Next(c, w, s)) && NoReset(Next(c, w, s))
  {
    hide Work, Hold, OneAlive, AlignmentOwned, GateOwned, MutexOwned, TakenInOrder, Events;
    if s.Advance? && s.to >= w.clock {
      TakenLater(Events(w.log.admitted), w.clock, s.to);
    } else if WorkerMay(c, w, s) {
      WorkInTime(c, w, s);
      WorkNoReset(c, w, s);
    } else if HolderMay(c, w, s) {
      HoldInTime(c, w, s);
    }
  }

  lemma {:induction false} RunInTime(c: Config, clock: Time, h: seq<Step>)
    requires CallbacksApart(c, Start(clock), h)
    ensures InTime(Run(c, Start(clock), h)) && NoReset(Run(c, Start(clock), h))
  {
    if h != [] {
      var before := h[..|h| - 1];
      assert forall i | 0 <= i < |before| :: before[i] == h[i] && before[..i] == h[..i];
      RunInTime(c, clock, before);
      RunKeeps(c, Start(clock), before);
      hide Next, Sound, InTime, NoReset;
      NextInTime(c, Run(c, Start(clock), before), h[|h| - 1]);
    }
  }

  /** When no navigation callback overlaps the multiplexer's, the multiplexer publishes a navigation command that moves
      the robot if and only if what the gate took in since the last operation let go entitles it. */
  lemma NavigationMovesIffEntitled(c: Config, clock: Time, h: seq<Step>, twist: Twist)
    requires CallbacksApart(c, Start(clock), h) && twist != ZERO_TWIST
    requires var w := Run(c, Start(clock), h); w.mutex.MuxLoaded? && !w.mutex.busy
    ensures var w := Run(c, Start(clock), h);
            HolderMay(c, w, MuxPublish) && Selected(c, w).source == Navigation
            && (Selected(c, w).twist == twist <==> Entitled(c, w, w.mutex.at, twist))
  {
    hide Fits, AlignmentOwned, Run;
    var w := Reachable(c, clock, h);
    RunInTime(c, clock, h);
    var events := Events(w.log.admitted);
    assert forall i | 0 <= i < |events| :: w.log.admitted[i] in w.log.admitted && events[i] == w.log.admitted[i].event;
    assert Gate.Ordered(events, w.mutex.at);
    if !c.timeout.Finite? || c.timeout.v <= 0.0 {
      Gate.BadTimeoutShutsGate(c.monitorRaw, w.gate, w.mutex.at, c.timeout);
    } else if c.monitorRaw {
      Gate.GateIsItsHistory(events, w.mutex.at, c.timeout, twist);
    } else {
      Gate.UnmonitoredGateIsItsHistory(events, w.mutex.at, c.timeout, twist);
    }
  }

  // ---------- The mutex at a release ----------

  /** Every event the gate has taken in came from a callback that took the mutex after the last release. */
  ghost predicate AllLockedAfter(w: World) {
    forall a <- w.log.admitted :: a.lockedAfter == w.log.releases
  }

  /** While no further operation lets go. */
  ghost predicate SameTenure(c: Config, w: World, h: seq<Step>) {
    Run(c, w, h).log.releases == w.log.releases
  }

  /** That the callbacks also took the mutex after the release is not true of every run: it holds, whatever follows,
      exactly when at the moment of the release no callback held the mutex without having read the flag. */
  lemma LocksFollowReleaseIff(c: Config, w: World, op: nat)
    requires Sound(c, w) && WorkerMay(c, w, Release(op))
    ensures (forall h: seq<Step> | SameTenure(c, Work(c, w, Release(op)), h) ::
              AllLockedAfter(Run(c, Work(c, w, Release(op)), h)))
            <==> !w.mutex.NavigationLocked?
  {
    var released := Work(c, w, Release(op));
    WorkKeeps(c, w, Release(op));
    if w.mutex.NavigationLocked? {
      CallbackSlipsIn(c, w, op);
    } else {
      ReleasedIsClean(c, w, op);
      forall h: seq<Step> | SameTenure(c, released, h) ensures AllLockedAfter(Run(c, released, h)) {
        LocksFollow(c, released, h);
      }
    }
  }

  lemma ReleasedIsClean(c: Config, w: World, op: nat)
    requires Sound(c, w) && WorkerMay(c, w, Release(op)) && !w.mutex.NavigationLocked?
    ensures Clean(Work(c, w, Release(op)))
  {
    hide Fits, AlignmentOwned;
  }

  const SLIP_IN := [NavigationLoad, NavigationFinish]

  lemma CallbackSlipsIn(c: Config, w: World, op: nat)
    requires Sound(c, w) && WorkerMay(c, w, Release(op)) && w.mutex.NavigationLocked?
    ensures var released := Work(c, w, Release(op));
            SameTenure(c, released, SLIP_IN) && !AllLockedAfter(Run(c, released, SLIP_IN))
  {
    hide Fits, AlignmentOwned, GateOwned, Gate.Apply;
    var released := Work(c, w, Release(op));
    assert SLIP_IN[..1] == [NavigationLoad] && SLIP_IN[..1][..0] == [];
    var loaded := Next(c, released, NavigationLoad);
    assert Run(c, released, SLIP_IN[..1]) == loaded;
    var finished := Next(c, loaded, NavigationFinish);
    assert Run(c, released, SLIP_IN) == finished;
    assert finished.log.admitted[0] in finished.log.admitted;
  }

  /** No event taken in, or about to be, comes from before the last release. */
  ghost predicate Clean(w: World) {
    && AllLockedAfter(w)
    && (w.mutex.NavigationLocked? ==> w.log.lockedAfter == w.log.releases)
    && (w.mutex.NavigationLoaded? && !w.mutex.busy ==> w.log.lockedAfter == w.log.releases)
  }

  lemma CleanWork(c: Config, w: World, s: Step)
    requires Clean(w) && WorkerMay(c, w, s) && Work(c, w, s).log.releases == w.log.releases
    ensures Clean(Work(c, w, s))
  {
    hide Allows;
  }

  lemma CleanHold(c: Config, w: World, s: Step)
    requires MutexOwned(c, w) && Clean(w) && HolderMay(c, w, s)
    ensures Clean(Hold(c, w, s))
  {
    hide Gate.Apply, Gate.CommandAt, YoungEnough;
  }

  lemma CleanStep(c: Config, w: World, s: Step)
    requires Sound(c, w) && Clean(w) && Next(c, w, s).log.releases == w.log.releases
    ensures Clean(Next(c, w, s))
  {
    hide Work, Hold, OneAlive, AlignmentOwned, GateOwned, MutexOwned;
    if WorkerMay(c, w, s) {
      CleanWork(c, w, s);
    } else if HolderMay(c, w, s) {
      CleanHold(c, w, s);
    }
  }

  lemma ReleasesGrow(c: Config, w: World, s: Step)
    ensures w.log.releases <= Next(c, w, s).log.releases
  {
  }

  lemma {:induction false} LocksFollow(c: Config, w: World, h: seq<Step>)
    requires Sound(c, w) && Clean(w)
    ensures w.log.releases <= Run(c, w, h).log.releases
    ensures SameTenure(c, w, h) ==> Clean(Run(c, w, h))
  {
    if h != [] {
      var before := Run(c, w, h[..|h| - 1]);
      LocksFollow(c, w, h[..|h| - 1]);
      RunKeeps(c, w, h[..|h| - 1]);
      ReleasesGrow(c, before, h[|h| - 1]);
      hide Next, Sound, Clean;
      if SameTenure(c, w, h) { CleanStep(c, before, h[|h| - 1]); }
    }
  }

  // ---------- The server ----------

  /** The shared fields, and the sections of code between two accesses that another thread can come between. */
  class Server {
    const c: Config
    const gate: Gate.Gate
    var clock: Time
    var operationActive: bool
    var alignmentActive: bool
    var navigating: set<nat>
    var command: Twist
    var commandAt: Option<Time>
    var muxAt: Option<Time>
    var mutex: Holder
    var operations: seq<Operation>
    ghost var log: Log

    constructor (c: Config, clock: Time)
      ensures this.c == c && fresh(gate) && Valid() && Now() == Start(clock)
    {
      this.c := c;
      gate := new Gate.Gate(c.monitorRaw);
      this.clock := clock;
      operationActive, alignmentActive, navigating := false, false, {};
      command, commandAt, muxAt := ZERO_TWIST, None, None;
      mutex, operations, log := Free, [], NOTHING;
    }

    ghost predicate Valid() {
      gate.monitorRaw == c.monitorRaw
    }

    ghost function Now(): World
      reads this, gate
    {
      World(
        clock, operationActive, alignmentActive, navigating, command, commandAt, gate.State(), muxAt, mutex, operations,
        log)
    }

    method AcceptGoal(goal: Goal) returns (accepted: bool)
      modifies this
      ensures accepted == !old(operationActive)
      ensures Now() == Next(c, old(Now()), Request(goal))
    {
      accepted := !operationActive;
      if accepted {
        operationActive := true;
        operations := operations + [Operation(goal, Working(1, false))];
      }
    }

    method ReportNavigation(index: nat, active: bool)
      modifies this
      ensures Now() == Next(c, old(Now()), NavigationStatus(index, active))
    {
      if active {
        navigating := navigating + {index};
      } else {
        navigating := navigating - {index};
      }
    }

    method MoveTo(op: nat, phase: Phase)
      requires op < |operations|
      modifies this`operations
      ensures operations == WithPhase(old(operations), op, phase)
    {
      operations := operations[op := Operation(operations[op].goal, phase)];
    }

    method StartAlignment(op: nat)
      requires WorkerMay(c, Now(), Activate(op))
      modifies this
      ensures Now() == Next(c, old(Now()), Activate(op))
    {
      alignmentActive := true;
      MoveTo(op, Working(operations[op].phase.attempt, true));
    }

    method SetCommand(op: nat, velocity: Velocity, at: Time)
      requires WorkerMay(c, Now(), Command(op, velocity, at))
      modifies this
      ensures Now() == Next(c, old(Now()), Command(op, velocity, at))
    {
      command := velocity.ToTwist();
      commandAt := Some(at);
      if operations[op].goal.Rotate? {
        alignmentActive := true;
      }
      log := log.(author := Alignment(op, operations[op].phase.attempt));
      MoveTo(op, Working(operations[op].phase.attempt, true));
    }

    method BeginStop(op: nat)
      requires WorkerMay(c, Now(), Stop(op))
      modifies this
      ensures Now() == Next(c, old(Now()), Stop(op))
    {
      alignmentActive := false;
      MoveTo(op, StopOf(operations[op].phase));
    }

    method Clear(op: nat)
      requires WorkerMay(c, Now(), Step.ClearCommands(op))
      modifies this, gate
      ensures Now() == Next(c, old(Now()), Step.ClearCommands(op))
    {
      command := ZERO_TWIST;
      commandAt := None;
      gate.Clear();
      log := Admit(log, Gate.Reset(clock), log.releases, log.releases);
      MoveTo(op, Cleared(operations[op].phase.attempt));
    }

    method PublishZero(op: nat) returns (twist: Twist)
      requires WorkerMay(c, Now(), PublishStop(op))
      modifies this
      ensures twist == ZERO_TWIST && Now() == Next(c, old(Now()), PublishStop(op))
    {
      twist := ZERO_TWIST;
      log := Publish(log, twist, Nobody);
      MoveTo(op, Stopped(operations[op].phase.attempt));
    }

    method TryAgain(op: nat)
      requires WorkerMay(c, Now(), Retry(op))
      modifies this
      ensures Now() == Next(c, old(Now()), Retry(op))
    {
      MoveTo(op, Working(operations[op].phase.attempt + 1, false));
    }

    method LetGo(op: nat)
      requires WorkerMay(c, Now(), Release(op))
      modifies this
      ensures Now() == Next(c, old(Now()), Release(op))
    {
      MoveTo(op, Done);
      log := log.(releases := log.releases + 1, admitted := []);
      operationActive := false;
    }

    method LockForNavigation(raw: bool, twist: Twist)
      requires HolderMay(c, Now(), NavigationLock(raw, twist))
      modifies this
      ensures Now() == Next(c, old(Now()), NavigationLock(raw, twist))
    {
      mutex := NavigationLocked(raw, twist);
      log := log.(lockedAfter := log.releases);
    }

    method LoadForNavigation()
      requires HolderMay(c, Now(), NavigationLoad)
      modifies this
      ensures Now() == Next(c, old(Now()), NavigationLoad)
    {
      mutex := NavigationLoaded(mutex.raw, mutex.twist, operationActive);
      log := log.(loadedAfter := log.releases);
    }

    /** The end of both navigation callbacks. */
    method UpdateGate()
      requires Valid() && HolderMay(c, Now(), NavigationFinish)
      modifies this, gate
      ensures Now() == Next(c, old(Now()), NavigationFinish)
    {
      if !mutex.busy {
        ghost var event := if mutex.raw then Gate.Raw(clock, mutex.twist) else Gate.Smoothed(clock, mutex.twist);
        log := Admit(log, event, log.lockedAfter, log.loadedAfter);
        if mutex.raw {
          gate.ReceiveRaw(mutex.twist, clock, c.timeout);
        } else {
          gate.Receive(mutex.twist, clock, c.timeout);
        }
      }
      mutex := Free;
    }

    method ReadForMux()
      requires HolderMay(c, Now(), MuxRead)
      modifies this`muxAt
      ensures Now() == Next(c, old(Now()), MuxRead)
    {
      muxAt := Some(clock);
    }

    method LockForMux()
      requires HolderMay(c, Now(), MuxLock)
      modifies this`mutex, this`muxAt
      ensures Now() == Next(c, old(Now()), MuxLock)
    {
      mutex := MuxLocked(muxAt.value);
      muxAt := None;
    }

    /** The multiplexer's next read of an atomic flag. */
    method LoadForMux(s: Step)
      requires s == MuxLoadOperation || s == MuxLoadNavigation || s == MuxLoadAlignment
      requires HolderMay(c, Now(), s)
      modifies this`mutex
      ensures Now() == Next(c, old(Now()), s)
    {
      if mutex.MuxLocked? {
        mutex := MuxLoaded(mutex.at, operationActive);
      } else if mutex.MuxLoaded? {
        mutex := MuxChecked(mutex.at, navigating);
      } else {
        mutex := MuxDecided(mutex.at, alignmentActive);
      }
    }

    method PublishSelectedCommand() returns (twist: Twist)
      requires Valid() && HolderMay(c, Now(), MuxPublish)
      modifies this, gate
      ensures twist == Selected(c, old(Now())).twist && Now() == Next(c, old(Now()), MuxPublish)
    {
      twist := ZERO_TWIST;
      ghost var source := Nobody;
      if mutex.MuxDecided? {
        if mutex.aligning && commandAt.Some? && YoungEnough(c, mutex.at - commandAt.value) {
          twist := command;
          source := log.author;
        }
      } else if mutex.MuxLoaded? {
        log := Admit(log, Gate.Poll(mutex.at), log.releases, log.releases);
        twist := gate.Poll(mutex.at, c.timeout);
        source := Navigation;
      }
      mutex := Free;
      log := Publish(log, twist, source);
    }
  }
}
