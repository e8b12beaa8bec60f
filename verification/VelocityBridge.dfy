/** The last stage before the robot: clamps, a command watchdog, and a localization lease. */
module VelocityBridge {
  import opened Basics

  // ---------- The watchdog ----------

  datatype Watchdog = Watchdog(command: Option<Velocity>, receivedAt: Option<Time>)

  const EMPTY := Watchdog(None, None)

  /** A number kept within its limits: itself inside them, and otherwise the limit it is beyond. */
  predicate KeptWithin(asked: real, low: real, high: real, kept: real) {
    && (low <= asked <= high ==> kept == asked)
    && (asked < low ==> kept == low)
    && (asked > high ==> kept == high)
  }

  /** What the robot is given for a message: each supported axis its own component within its limits. */
  predicate Renders(twist: Twist, v: Velocity) {
    && twist.HasFiniteComponents()
    && KeptWithin(twist.lx.v, -0.5, 1.0, v.x)
    && KeptWithin(twist.ly.v, -1.0, 1.0, v.y)
    && KeptWithin(twist.az.v, -1.0, 1.0, v.yaw)
  }

  /** `navigationVelocityCommand`: the supported axes within their limits, the others dropped. */
  function NavigationVelocity(twist: Twist): (v: Option<Velocity>)
    ensures v.Some? <==> twist.HasFiniteComponents()
    ensures v.Some? ==> -0.5 <= v.value.x <= 1.0 && -1.0 <= v.value.y <= 1.0 && -1.0 <= v.value.yaw <= 1.0
    ensures v.Some? ==> Renders(twist, v.value)
  {
    if !twist.HasFiniteComponents() then None
    else Some(Velocity(Clamp(twist.lx.v, -0.5, 1.0), Clamp(twist.ly.v, -1.0, 1.0), Clamp(twist.az.v, -1.0, 1.0)))
  }

  function Feed(twist: Twist, now: Time): Watchdog {
    match NavigationVelocity(twist)
    case None => EMPTY
    case Some(v) => Watchdog(Some(v), Some(now))
  }

  function Watched(w: Watchdog, now: Time, timeout: real): Velocity {
    if timeout <= 0.0 || w.command.None? || w.receivedAt.None? || now - w.receivedAt.value > timeout then STOPPED
    else w.command.value
  }

  // ---------- The lease ----------

  datatype Lease = Lease(ready: bool, received: Option<Time>)

  predicate Holds(lease: Lease, now: Time, timeout: real) {
    lease.ready && lease.received.Some? && now >= lease.received.value && now - lease.received.value <= timeout
  }

  // ---------- The bridge ----------

  datatype Config = Config(requireLocalization: bool, readinessTimeout: real, commandTimeout: real) {
    predicate Valid() {
      readinessTimeout > 0.0 && commandTimeout > 0.0
    }
  }

  datatype BridgeState = BridgeState(watchdog: Watchdog, lease: Lease)

  const INITIAL := BridgeState(EMPTY, Lease(false, None))

  /** `Lost` is an invalidation upstream; the bridge hears of it only through the next heartbeat. */
  datatype Event =
    | Lost
    | Heartbeat(ready: bool, at: Time)
    | Commanded(twist: Twist, at: Time)
    | Sent(at: Time)

  function Guarded(c: Config, s: BridgeState, now: Time): BridgeState {
    if c.requireLocalization && !Holds(s.lease, now, c.readinessTimeout) then s.(watchdog := EMPTY) else s
  }

  function Step(c: Config, s: BridgeState, e: Event): BridgeState {
    match e
    case Lost => s
    case Heartbeat(ready, at) =>
      if !c.requireLocalization then s
      else BridgeState(if !Holds(s.lease, at, c.readinessTimeout) || !ready then EMPTY else s.watchdog,
                       Lease(ready, Some(at)))
    case Commanded(twist, at) =>
      if c.requireLocalization && !Holds(s.lease, at, c.readinessTimeout) then s.(watchdog := EMPTY)
      else s.(watchdog := Feed(twist, at))
    case Sent(at) => Guarded(c, s, at)
  }

  /** What a send at `now` puts on the wire. */
  function Output(c: Config, s: BridgeState, now: Time): Velocity {
    Watched(Guarded(c, s, now).watchdog, now, c.commandTimeout)
  }

  class Bridge {
    const c: Config
    var command: Option<Velocity>
    var receivedAt: Option<Time>
    var ready: bool
    var heardAt: Option<Time>

    constructor (c: Config)
      ensures this.c == c && State() == INITIAL
    {
      this.c := c;
      command, receivedAt, ready, heardAt := None, None, false, None;
    }

    ghost function State(): BridgeState
      reads this
    {
      BridgeState(Watchdog(command, receivedAt), Lease(ready, heardAt))
    }

    method ClearWatchdog()
      modifies this`command, this`receivedAt
      ensures State() == old(State()).(watchdog := EMPTY)
    {
      command, receivedAt := None, None;
    }

    method OnReadiness(isReady: bool, now: Time)
      requires c.requireLocalization
      modifies this
      ensures State() == Step(c, old(State()), Heartbeat(isReady, now))
    {
      if !Holds(Lease(ready, heardAt), now, c.readinessTimeout) || !isReady {
        ClearWatchdog();
      }
      ready := isReady;
      heardAt := Some(now);
    }

    method OnCommand(twist: Twist, now: Time)
      modifies this
      ensures State() == Step(c, old(State()), Commanded(twist, now))
    {
      if c.requireLocalization && !Holds(Lease(ready, heardAt), now, c.readinessTimeout) {
        ClearWatchdog();
        return;
      }
      var v := NavigationVelocity(twist);
      if v.None? {
        ClearWatchdog();
      } else {
        command := v;
        receivedAt := Some(now);
      }
    }

    method OnTimer(now: Time) returns (v: Velocity)
      modifies this
      ensures State() == Step(c, old(State()), Sent(now))
      ensures v == Output(c, old(State()), now)
    {
      if c.requireLocalization && !Holds(Lease(ready, heardAt), now, c.readinessTimeout) {
        ClearWatchdog();
      }
      v := Watched(Watchdog(command, receivedAt), now, c.commandTimeout);
    }
  }

  // ---------- Histories ----------

  function Run(c: Config, h: seq<Event>): BridgeState {
    if h == [] then INITIAL else Step(c, Run(c, h[..|h| - 1]), h[|h| - 1])
  }

  predicate Timed(e: Event) {
    !e.Lost?
  }

  ghost predicate InOrder(h: seq<Event>) {
    forall i, j | 0 <= i < j < |h| && Timed(h[i]) && Timed(h[j]) :: h[i].at <= h[j].at
  }

  ghost predicate Ordered(h: seq<Event>, now: Time) {
    InOrder(h) && forall i | 0 <= i < |h| && Timed(h[i]) :: h[i].at <= now
  }

  /** Another heartbeat follows the one at `a` within the timeout. */
  ghost predicate Followed(h: seq<Event>, a: nat, timeout: real)
    requires a < |h| && h[a].Heartbeat?
  {
    exists b :: a < b < |h| && h[b].Heartbeat? && h[b].at - h[a].at <= timeout
  }

  ghost predicate LastBeat(h: seq<Event>, l: nat) {
    l < |h| && h[l].Heartbeat? && forall i | l < i < |h| :: !h[i].Heartbeat?
  }

  /** From the heartbeat at `i` to the last one, at `l`, every heartbeat says ready and follows in time. */
  ghost predicate Continuous(h: seq<Event>, i: nat, l: nat, timeout: real) {
    && i <= l && LastBeat(h, l) && h[i].Heartbeat?
    && (forall a | i <= a < |h| && h[a].Heartbeat? :: h[a].ready)
    && (forall a | i <= a < l && h[a].Heartbeat? :: Followed(h, a, timeout))
  }

  /** The command at `j` is the latest, it is usable, and it came after the heartbeat at `i`. */
  ghost predicate LatestCommand(h: seq<Event>, i: nat, j: nat) {
    && i < j < |h| && h[j].Commanded? && h[j].twist.HasFiniteComponents()
    && forall k | j < k < |h| :: !h[k].Commanded?
  }

  ghost predicate AuthorisedBy(c: Config, h: seq<Event>, i: nat, l: nat, j: nat, now: Time, v: Velocity) {
    && Continuous(h, i, l, c.readinessTimeout) && LatestCommand(h, i, j)
    && now - h[l].at <= c.readinessTimeout && now - h[j].at <= c.commandTimeout
    && Renders(h[j].twist, v)
  }

  /** The robot may move with `v`. */
  ghost predicate Authorised(c: Config, h: seq<Event>, now: Time, v: Velocity) {
    exists i: nat, l: nat, j: nat :: AuthorisedBy(c, h, i, l, j, now, v)
  }

  /** A message within its limits is rendered as it is, and no two velocities render one message. */
  lemma RenderedOnce(twist: Twist, v: Velocity, w: Velocity)
    requires Renders(twist, v) && Renders(twist, w)
    ensures v == w && NavigationVelocity(twist) == Some(v)
    ensures -0.5 <= twist.lx.v <= 1.0 && -1.0 <= twist.ly.v <= 1.0 && -1.0 <= twist.az.v <= 1.0 ==>
              v == Velocity(twist.lx.v, twist.ly.v, twist.az.v)
  {
  }

  // From the state to the history.

  ghost predicate Carries(c: Config, h: seq<Event>, s: BridgeState, i: nat, l: nat, j: nat) {
    && Continuous(h, i, l, c.readinessTimeout) && LatestCommand(h, i, j)
    && s.watchdog == Feed(h[j].twist, h[j].at)
  }

  ghost predicate Explains(c: Config, h: seq<Event>, s: BridgeState) {
    && (s.watchdog.command.Some? <==> s.watchdog.receivedAt.Some?)
    && (s.lease.received.Some? ==> exists l: nat :: LastBeat(h, l) && s.lease == Lease(h[l].ready, Some(h[l].at)))
    && (s.lease.received.None? ==> !s.lease.ready)
    && (s.watchdog != EMPTY ==> exists i: nat, l: nat, j: nat :: Carries(c, h, s, i, l, j))
  }

  lemma ContinuousExtends(h: seq<Event>, e: Event, i: nat, l: nat, timeout: real)
    requires Continuous(h, i, l, timeout)
    requires e.Heartbeat? ==> e.ready && e.at - h[l].at <= timeout
    ensures Continuous(h + [e], i, if e.Heartbeat? then |h| else l, timeout)
  {
    var h' := h + [e];
    assert forall k | 0 <= k < |h| :: h'[k] == h[k];
    forall a | i <= a < (if e.Heartbeat? then |h| else l) && h'[a].Heartbeat? ensures Followed(h', a, timeout) {
      if a < l {
        var b :| a < b < |h| && h[b].Heartbeat? && h[b].at - h[a].at <= timeout;
        assert h'[b].Heartbeat?;
      } else {
        assert h'[|h|].Heartbeat?;
      }
    }
  }

  lemma BeatExplained(c: Config, h: seq<Event>, s: BridgeState, e: Event)
    requires c.Valid() && c.requireLocalization && Explains(c, h, s)
    ensures var lease := Step(c, s, e).lease;
            && (lease.received.Some? ==>
                 exists l: nat :: LastBeat(h + [e], l) && lease == Lease((h + [e])[l].ready, Some((h + [e])[l].at)))
            && (lease.received.None? ==> !lease.ready)
  {
    hide Continuous, Carries;
    if e.Heartbeat? {
      assert LastBeat(h + [e], |h|);
    } else if s.lease.received.Some? {
      var l: nat :| LastBeat(h, l) && s.lease == Lease(h[l].ready, Some(h[l].at));
      assert LastBeat(h + [e], l);
    }
  }

  lemma ExplainsStep(c: Config, h: seq<Event>, s: BridgeState, e: Event)
    requires c.Valid() && c.requireLocalization && Explains(c, h, s)
    ensures Explains(c, h + [e], Step(c, s, e))
  {
    var next, h' := Step(c, s, e), h + [e];
    BeatExplained(c, h, s, e);
    if next.watchdog != EMPTY {
      if e.Commanded? {
        var l: nat :| LastBeat(h, l) && s.lease == Lease(h[l].ready, Some(h[l].at));
        assert Continuous(h, l, l, c.readinessTimeout);
        ContinuousExtends(h, e, l, l, c.readinessTimeout);
        hide Continuous, LastBeat;
        assert Carries(c, h', next, l, l, |h|);
      } else {
        var i: nat, l: nat, j: nat :| Carries(c, h, s, i, l, j);
        ContinuousExtends(h, e, i, l, c.readinessTimeout);
        hide Continuous;
        assert Carries(c, h', next, i, if e.Heartbeat? then |h| else l, j);
      }
    }
  }

  lemma {:induction false} RunExplains(c: Config, h: seq<Event>)
    requires c.Valid() && c.requireLocalization
    ensures Explains(c, h, Run(c, h))
  {
    if h != [] {
      RunExplains(c, h[..|h| - 1]);
      ExplainsStep(c, h[..|h| - 1], Run(c, h[..|h| - 1]), h[|h| - 1]);
      assert h == h[..|h| - 1] + [h[|h| - 1]];
    }
  }

  /** Whatever moves the robot was authorised. */
  lemma MotionIsAuthorised(c: Config, h: seq<Event>, now: Time)
    requires c.Valid() && c.requireLocalization && Ordered(h, now)
    ensures Output(c, Run(c, h), now) != STOPPED ==> Authorised(c, h, now, Output(c, Run(c, h), now))
  {
    var s := Run(c, h);
    RunExplains(c, h);
    if Output(c, s, now) != STOPPED {
      var i: nat, l: nat, j: nat :| Carries(c, h, s, i, l, j);
      hide Continuous, Renders;
      assert AuthorisedBy(c, h, i, l, j, now, Output(c, s, now));
    }
  }

  // From the history to the state.

  /** Every timed event after the last heartbeat is within its lease. */
  ghost predicate Leased(h: seq<Event>, l: nat, timeout: real)
    requires l < |h| && h[l].Heartbeat?
  {
    forall i | l < i < |h| && Timed(h[i]) :: h[i].at - h[l].at <= timeout
  }

  lemma {:induction false} FindLastBeat(h: seq<Event>, i: nat) returns (l: nat)
    requires i < |h| && h[i].Heartbeat?
    ensures i <= l && LastBeat(h, l)
    decreases |h|
  {
    if h[|h| - 1].Heartbeat? {
      l := |h| - 1;
    } else {
      l := FindLastBeat(h[..|h| - 1], i);
    }
  }

  lemma ContinuousBefore(h: seq<Event>, i: nat, l: nat, timeout: real) returns (l': nat)
    requires InOrder(h) && Continuous(h, i, l, timeout) && Leased(h, l, timeout) && i < |h| - 1
    ensures Continuous(h[..|h| - 1], i, l', timeout) && Leased(h[..|h| - 1], l', timeout)
    ensures Timed(h[|h| - 1]) ==> 0.0 <= h[|h| - 1].at - h[l'].at <= timeout
    ensures if h[|h| - 1].Heartbeat? then l == |h| - 1 && h[l].ready else l' == l
  {
    var before := h[..|h| - 1];
    l' := FindLastBeat(before, i);
    if l == |h| - 1 {
      assert Followed(h, l', timeout);
      assert h[l].at - h[l'].at <= timeout;
    } else {
      assert before[l].Heartbeat?;
      assert l' == l;
    }
    assert Leased(before, l', timeout);
    forall a | i <= a < l' && before[a].Heartbeat? ensures Followed(before, a, timeout) {
      assert Followed(h, a, timeout);
      var b :| a < b < |h| && h[b].Heartbeat? && h[b].at - h[a].at <= timeout;
      var b' := if b <= l' then b else l';
      assert before[b'].Heartbeat? && before[b'].at - before[a].at <= timeout;
    }
  }

  lemma LeaseStep(c: Config, s: BridgeState, e: Event, at: Time)
    requires c.Valid() && c.requireLocalization && s.lease == Lease(true, Some(at))
    requires Timed(e) ==> 0.0 <= e.at - at <= c.readinessTimeout
    requires e.Heartbeat? ==> e.ready
    ensures Step(c, s, e).lease == if e.Heartbeat? then Lease(true, Some(e.at)) else s.lease
  {
  }

  lemma {:induction false} ContinuousKeepsLease(c: Config, h: seq<Event>, i: nat, l: nat)
    requires c.Valid() && c.requireLocalization && InOrder(h)
    requires Continuous(h, i, l, c.readinessTimeout) && Leased(h, l, c.readinessTimeout)
    ensures Run(c, h).lease == Lease(true, Some(h[l].at))
    decreases |h|
  {
    var last := |h| - 1;
    if i < last {
      var l' := ContinuousBefore(h, i, l, c.readinessTimeout);
      ContinuousKeepsLease(c, h[..last], i, l');
      hide Step, Continuous, Leased, InOrder;
      LeaseStep(c, Run(c, h[..last]), h[last], h[l'].at);
    }
  }

  lemma {:induction false} ContinuousKeepsCommand(c: Config, h: seq<Event>, i: nat, l: nat, j: nat)
    requires c.Valid() && c.requireLocalization && InOrder(h)
    requires Continuous(h, i, l, c.readinessTimeout) && Leased(h, l, c.readinessTimeout) && LatestCommand(h, i, j)
    ensures Run(c, h).watchdog == Feed(h[j].twist, h[j].at)
    decreases |h|
  {
    hide Step, Continuous, Leased, InOrder, Feed;
    var last := |h| - 1;
    var l' := ContinuousBefore(h, i, l, c.readinessTimeout);
    BeginningInOrder(h);
    ContinuousKeepsLease(c, h[..last], i, l');
    ReadyThroughout(h, i, l, c.readinessTimeout);
    ReadyThroughout(h[..last], i, l', c.readinessTimeout);
    CommandStep(c, Run(c, h[..last]), h[last], h[l'].at);
    if j < last {
      ContinuousKeepsCommand(c, h[..last], i, l', j);
    }
  }

  lemma BeginningInOrder(h: seq<Event>)
    requires h != [] && InOrder(h)
    ensures InOrder(h[..|h| - 1])
  {
  }

  lemma ReadyThroughout(h: seq<Event>, i: nat, l: nat, timeout: real)
    requires Continuous(h, i, l, timeout)
    ensures i <= l < |h| && h[l].Heartbeat?
    ensures forall a | i <= a < |h| && h[a].Heartbeat? :: h[a].ready
  {
  }

  lemma CommandStep(c: Config, s: BridgeState, e: Event, at: Time)
    requires c.Valid() && c.requireLocalization && s.lease == Lease(true, Some(at))
    requires Timed(e) ==> 0.0 <= e.at - at <= c.readinessTimeout
    requires e.Heartbeat? ==> e.ready
    ensures Step(c, s, e).watchdog == if e.Commanded? then Feed(e.twist, e.at) else s.watchdog
  {
    hide Feed;
  }

  /** In localization mode a send moves the robot with `v` exactly when the history authorises `v`: a usable command,
      recent and never superseded, received within an unbroken stream of ready heartbeats that reaches to now. */
  lemma MotionIffAuthorised(c: Config, h: seq<Event>, now: Time, v: Velocity)
    requires c.Valid() && c.requireLocalization && Ordered(h, now) && v != STOPPED
    ensures Output(c, Run(c, h), now) == v <==> Authorised(c, h, now, v)
  {
    MotionIsAuthorised(c, h, now);
    if Authorised(c, h, now, v) {
      var i: nat, l: nat, j: nat :| AuthorisedBy(c, h, i, l, j, now, v);
      ContinuousKeepsLease(c, h, i, l);
      ContinuousKeepsCommand(c, h, i, l, j);
      RenderedOnce(h[j].twist, v, v);
    }
  }

  /** With localization required a command within the limits, received within an unbroken stream of ready heartbeats
      that reaches to now, and neither superseded nor too old, is exactly what the robot is sent. */
  lemma MessageWithinLimitsIsSent(c: Config, h: seq<Event>, i: nat, l: nat, j: nat, now: Time)
    requires c.Valid() && c.requireLocalization && Ordered(h, now)
    requires Continuous(h, i, l, c.readinessTimeout) && LatestCommand(h, i, j)
    requires now - h[l].at <= c.readinessTimeout && now - h[j].at <= c.commandTimeout
    requires var m := h[j].twist; -0.5 <= m.lx.v <= 1.0 && -1.0 <= m.ly.v <= 1.0 && -1.0 <= m.az.v <= 1.0
    ensures Output(c, Run(c, h), now) == Velocity(h[j].twist.lx.v, h[j].twist.ly.v, h[j].twist.az.v)
  {
    ContinuousKeepsLease(c, h, i, l);
    ContinuousKeepsCommand(c, h, i, l, j);
    hide Continuous;
  }

  // ---------- Without localization ----------

  /** The command at `j` is the latest, usable or not. */
  ghost predicate LastCommand(h: seq<Event>, j: nat) {
    j < |h| && h[j].Commanded? && forall k | j < k < |h| :: !h[k].Commanded?
  }

  lemma {:induction false} UnguardedRun(c: Config, h: seq<Event>)
    requires !c.requireLocalization
    ensures (forall i | 0 <= i < |h| :: !h[i].Commanded?) ==> Run(c, h).watchdog == EMPTY
    ensures forall j: nat | LastCommand(h, j) :: Run(c, h).watchdog == Feed(h[j].twist, h[j].at)
  {
    if h != [] {
      var before, e := h[..|h| - 1], h[|h| - 1];
      UnguardedRun(c, before);
      hide Feed;
      forall j: nat | LastCommand(h, j) ensures Run(c, h).watchdog == Feed(h[j].twist, h[j].at) {
        if j < |h| - 1 { assert LastCommand(before, j); }
      }
      assert (forall i | 0 <= i < |h| :: !h[i].Commanded?) ==> forall i | 0 <= i < |before| :: !before[i].Commanded?;
    }
  }

  lemma {:induction false} FindLastCommand(h: seq<Event>, i: nat) returns (j: nat)
    requires i < |h| && h[i].Commanded?
    ensures LastCommand(h, j)
    decreases |h|
  {
    if h[|h| - 1].Commanded? {
      j := |h| - 1;
    } else {
      j := FindLastCommand(h[..|h| - 1], i);
    }
  }

  /** Without localization a send moves the robot with `v` exactly when the latest command is usable, recent, and
      renders as `v`. */
  lemma UnguardedMotionIff(c: Config, h: seq<Event>, now: Time, v: Velocity)
    requires c.Valid() && !c.requireLocalization && v != STOPPED
    ensures Output(c, Run(c, h), now) == v <==>
              exists j: nat :: LastCommand(h, j) && now - h[j].at <= c.commandTimeout && Renders(h[j].twist, v)
  {
    UnguardedRun(c, h);
    if Output(c, Run(c, h), now) == v {
      var i: nat :| i < |h| && h[i].Commanded?;
      var j := FindLastCommand(h, i);
    }
    if exists j: nat :: LastCommand(h, j) && now - h[j].at <= c.commandTimeout && Renders(h[j].twist, v) {
      var j: nat :| LastCommand(h, j) && now - h[j].at <= c.commandTimeout && Renders(h[j].twist, v);
      RenderedOnce(h[j].twist, v, v);
    }
  }

  /** Every output of every run keeps to the axis limits, localization required or not. */
  lemma {:induction false} OutputsAreClamped(c: Config, h: seq<Event>, now: Time)
    ensures var v := Output(c, Run(c, h), now);
            -0.5 <= v.x <= 1.0 && -1.0 <= v.y <= 1.0 && -1.0 <= v.yaw <= 1.0
    ensures var w := Run(c, h).watchdog.command;
            w.Some? ==> -0.5 <= w.value.x <= 1.0 && -1.0 <= w.value.y <= 1.0 && -1.0 <= w.value.yaw <= 1.0
  {
    if h != [] {
      OutputsAreClamped(c, h[..|h| - 1], now);
    }
  }
}
