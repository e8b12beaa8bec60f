/** The gate that asks for Nav2's startup once localization has held. */
module StartupGate {
  import opened Basics

  datatype HoldState = HoldState(lastReceived: Option<Time>, ready: bool, since: Option<Time>)

  const UNHEARD := HoldState(None, false, None)

  datatype HoldConfig = HoldConfig(hold: real, heartbeatTimeout: real) {
    predicate Valid() {
      hold > 0.0 && heartbeatTimeout > 0.0
    }
  }

  predicate Late(s: HoldState, now: Time, timeout: real) {
    s.lastReceived.Some? && now - s.lastReceived.value > timeout
  }

  function Receive(c: HoldConfig, s: HoldState, ready: bool, now: Time): HoldState {
    HoldState(Some(now), ready, if !ready || Late(s, now, c.heartbeatTimeout) then None else s.since)
  }

  function Observe(c: HoldConfig, s: HoldState, tfValid: bool, now: Time): (HoldState, bool) {
    if !s.ready || s.lastReceived.None? || Late(s, now, c.heartbeatTimeout) || !tfValid then (s.(since := None), false)
    else
      var since := if s.since.None? then now else s.since.value;
      (s.(since := Some(since)), now - since >= c.hold)
  }

  /** `ReadinessHold`. */
  class ReadinessHold {
    const c: HoldConfig
    var lastReceived: Option<Time>
    var ready: bool
    var since: Option<Time>

    constructor (c: HoldConfig)
      ensures this.c == c && State() == UNHEARD
    {
      this.c := c;
      lastReceived, ready, since := None, false, None;
    }

    ghost function State(): HoldState
      reads this
    {
      HoldState(lastReceived, ready, since)
    }

    method OnReady(isReady: bool, now: Time)
      modifies this
      ensures State() == Receive(c, old(State()), isReady, now)
    {
      if !isReady || (lastReceived.Some? && now - lastReceived.value > c.heartbeatTimeout) {
        since := None;
      }
      ready := isReady;
      lastReceived := Some(now);
    }

    method OnObserve(tfValid: bool, now: Time) returns (qualified: bool)
      modifies this
      ensures (State(), qualified) == Observe(c, old(State()), tfValid, now)
    {
      if !ready || lastReceived.None? || now - lastReceived.value > c.heartbeatTimeout || !tfValid {
        since := None;
        return false;
      }
      if since.None? {
        since := Some(now);
      }
      return now - since.value >= c.hold;
    }
  }

  // ---------- The hold over a history ----------

  datatype Event = Beat(ready: bool, at: Time) | Look(tfValid: bool, at: Time)

  function Step(c: HoldConfig, s: HoldState, e: Event): HoldState {
    match e
    case Beat(ready, at) => Receive(c, s, ready, at)
    case Look(tfValid, at) => Observe(c, s, tfValid, at).0
  }

  function Run(c: HoldConfig, h: seq<Event>): HoldState {
    if h == [] then UNHEARD else Step(c, Run(c, h[..|h| - 1]), h[|h| - 1])
  }

  ghost predicate InOrder(h: seq<Event>) {
    forall i, j | 0 <= i < j < |h| :: h[i].at <= h[j].at
  }

  /** A heartbeat within the timeout before position `i`, with no other in between. */
  ghost predicate HeardBefore(h: seq<Event>, i: nat, timeout: real)
    requires i < |h|
  {
    exists b :: BeatBefore(h, b, i, timeout)
  }

  ghost predicate BeatBefore(h: seq<Event>, b: int, i: nat, timeout: real)
    requires i < |h|
  {
    && 0 <= b < i && h[b].Beat? && h[i].at - h[b].at <= timeout
    && forall k | b < k < i :: !h[k].Beat?
  }

  /** Nothing went wrong from the look at `j` on: every transform check passed, every heartbeat, from the one that
      look relied on, said ready, and each event found a heartbeat within the timeout before it. */
  ghost predicate Healthy(c: HoldConfig, h: seq<Event>, j: nat) {
    && j < |h| && h[j].Look?
    && (forall i | j <= i < |h| :: HeardBefore(h, i, c.heartbeatTimeout))
    && (forall i | j <= i < |h| && h[i].Look? :: h[i].tfValid)
    && (forall i | j < i < |h| && h[i].Beat? :: h[i].ready)
    && (forall b | BeatBefore(h, b, j, c.heartbeatTimeout) :: h[b].ready)
  }

  ghost predicate LastBeat(h: seq<Event>, s: HoldState) {
    && (s.lastReceived.None? ==> (forall i | 0 <= i < |h| :: h[i].Look?) && !s.ready)
    && (s.lastReceived.Some? ==>
          exists b :: LastBeatAt(h, b) && s.lastReceived.value == h[b].at && s.ready == h[b].ready)
  }

  ghost predicate LastBeatAt(h: seq<Event>, b: int) {
    0 <= b < |h| && h[b].Beat? && forall k | b < k < |h| :: !h[k].Beat?
  }

  /** `since` is the time of the earliest look from which everything has been healthy. */
  ghost predicate Since(c: HoldConfig, h: seq<Event>, s: HoldState) {
    && (s.since.Some? ==> s.ready && exists j: nat :: j < |h| && Healthy(c, h, j) && h[j].at == s.since.value)
    && (forall j: nat | j < |h| && Healthy(c, h, j) :: s.since.Some? && s.since.value <= h[j].at)
  }

  predicate Good(e: Event) {
    if e.Look? then e.tfValid else e.ready
  }

  lemma HealthyBefore(c: HoldConfig, h: seq<Event>, e: Event, j: nat)
    requires j < |h|
    ensures Healthy(c, h + [e], j) ==> Healthy(c, h, j)
    ensures Healthy(c, h, j) && HeardBefore(h + [e], |h|, c.heartbeatTimeout) && Good(e) ==> Healthy(c, h + [e], j)
  {
    var h' := h + [e];
    assert forall i | 0 <= i < |h| :: h'[i] == h[i];
    forall i: nat | i < |h|
      ensures HeardBefore(h, i, c.heartbeatTimeout) <==> HeardBefore(h', i, c.heartbeatTimeout)
    {
      forall b: int ensures BeatBefore(h, b, i, c.heartbeatTimeout) <==> BeatBefore(h', b, i, c.heartbeatTimeout) {
      }
    }
    forall b: int ensures BeatBefore(h, b, j, c.heartbeatTimeout) <==> BeatBefore(h', b, j, c.heartbeatTimeout) {
    }
  }

  lemma LastBeatStep(c: HoldConfig, h: seq<Event>, s: HoldState, e: Event)
    requires LastBeat(h, s)
    ensures LastBeat(h + [e], Step(c, s, e))
    ensures HeardBefore(h + [e], |h|, c.heartbeatTimeout)
            <==> s.lastReceived.Some? && !Late(s, e.at, c.heartbeatTimeout)
    ensures forall b | BeatBefore(h + [e], b, |h|, c.heartbeatTimeout) :: (h + [e])[b].ready == s.ready
  {
    var h' := h + [e];
    assert forall i | 0 <= i < |h| :: h'[i] == h[i];
    if e.Beat? { assert LastBeatAt(h', |h|); }
    if s.lastReceived.Some? {
      var b :| LastBeatAt(h, b) && s.lastReceived.value == h[b].at && s.ready == h[b].ready;
      if e.Look? { assert LastBeatAt(h', b); }
      if !Late(s, e.at, c.heartbeatTimeout) { assert BeatBefore(h', b, |h|, c.heartbeatTimeout); }
    }
  }

  lemma SinceStep(c: HoldConfig, h: seq<Event>, s: HoldState, e: Event)
    requires LastBeat(h, s) && Since(c, h, s) && InOrder(h + [e])
    ensures Since(c, h + [e], Step(c, s, e))
  {
    var h', next := h + [e], Step(c, s, e);
    LastBeatStep(c, h, s, e);
    forall j: nat | j < |h|
      ensures Healthy(c, h', j) ==> Healthy(c, h, j)
      ensures Healthy(c, h, j) && HeardBefore(h', |h|, c.heartbeatTimeout) && Good(e) ==> Healthy(c, h', j)
    {
      HealthyBefore(c, h, e, j);
    }
    forall j: nat | Healthy(c, h', j) ensures next.since.Some? && next.since.value <= h'[j].at {
      assert HeardBefore(h', |h|, c.heartbeatTimeout);
      if j == |h| {
        var b :| BeatBefore(h', b, |h|, c.heartbeatTimeout);
        if s.since.Some? {
          var i: nat :| i < |h| && Healthy(c, h, i) && h[i].at == s.since.value;
          assert h'[i].at <= h'[|h|].at;
        }
      }
    }
    if next.since.Some? {
      if s.since.Some? {
        var i: nat :| i < |h| && Healthy(c, h, i) && h[i].at == s.since.value;
        assert HeardBefore(h', |h|, c.heartbeatTimeout) && Good(e);
        assert Healthy(c, h', i) && h'[i].at == s.since.value;
      } else {
        assert Healthy(c, h', |h|) && h'[|h|].at == next.since.value;
      }
    }
  }

  lemma {:induction false} RunSince(c: HoldConfig, h: seq<Event>)
    requires InOrder(h)
    ensures LastBeat(h, Run(c, h)) && Since(c, h, Run(c, h))
  {
    if h != [] {
      RunSince(c, h[..|h| - 1]);
      LastBeatStep(c, h[..|h| - 1], Run(c, h[..|h| - 1]), h[|h| - 1]);
      SinceStep(c, h[..|h| - 1], Run(c, h[..|h| - 1]), h[|h| - 1]);
      assert h == h[..|h| - 1] + [h[|h| - 1]];
    }
  }

  /** A healthy stretch of at least the hold time, from the look at `j` to the last event. */
  ghost predicate HeldFrom(c: HoldConfig, h: seq<Event>, j: nat) {
    j < |h| && Healthy(c, h, j) && h[|h| - 1].at - h[j].at >= c.hold
  }

  /** A look qualifies exactly when some look at least the hold time ago began a healthy stretch that reaches to it. */
  lemma QualifiesIffHeld(c: HoldConfig, h: seq<Event>, tfValid: bool, now: Time)
    requires c.Valid() && InOrder(h + [Look(tfValid, now)])
    ensures Observe(c, Run(c, h), tfValid, now).1 <==> exists j: nat :: HeldFrom(c, h + [Look(tfValid, now)], j)
  {
    hide Healthy;
    var e := Look(tfValid, now);
    var h' := h + [e];
    assert h'[..|h'| - 1] == h;
    RunSince(c, h');
    var next := Run(c, h');
    assert next == Step(c, Run(c, h), e);
    if Observe(c, Run(c, h), tfValid, now).1 {
      var j: nat :| j < |h'| && Healthy(c, h', j) && h'[j].at == next.since.value;
      assert HeldFrom(c, h', j);
    }
  }

  // ---------- Asking once ----------

  /** What a tick finds: the transforms, the manager's service, what calling it does, and the pending answer. */
  datatype Surroundings = Surroundings(tfFresh: bool, serviceReady: bool, callRaises: bool, answer: Option<bool>)

  datatype GateState = GateState(hold: HoldState, pending: bool, finished: bool, failed: bool, requests: nat)

  const WAITING := GateState(UNHEARD, false, false, false, 0)

  function Tick(c: HoldConfig, s: GateState, at: Time, w: Surroundings): GateState {
    if s.finished then s
    else if s.pending then
      (if w.answer.None? then s else s.(finished := true, failed := s.failed || !w.answer.value))
    else
      var (hold, qualified) := Observe(c, s.hold, w.tfFresh, at);
      if !qualified || !w.serviceReady then s.(hold := hold)
      else if w.callRaises then s.(hold := hold, finished := true, failed := true, requests := s.requests + 1)
      else s.(hold := hold, pending := true, requests := s.requests + 1)
  }

  /** `Nav2LocalizationStartupGate`. */
  class Gate {
    const hold: ReadinessHold
    var pending: bool
    var finished: bool
    var failed: bool
    ghost var requests: nat

    constructor (c: HoldConfig)
      ensures fresh(hold) && hold.c == c && State() == WAITING
    {
      hold := new ReadinessHold(c);
      pending, finished, failed, requests := false, false, false, 0;
    }

    ghost function State(): GateState
      reads this, hold
    {
      GateState(hold.State(), pending, finished, failed, requests)
    }

    method OnTimer(at: Time, w: Surroundings)
      modifies this, hold
      ensures State() == Tick(hold.c, old(State()), at, w)
    {
      if finished {
        return;
      }
      if pending {
        if w.answer.Some? {
          if !w.answer.value {
            failed := true;
          }
          finished := true;
        }
        return;
      }
      var qualified := hold.OnObserve(w.tfFresh, at);
      if !qualified || !w.serviceReady {
        return;
      }
      // Never resubmit: a request may have taken effect in part before it fails.
      requests := requests + 1;
      if w.callRaises {
        failed, finished := true, true;
      } else {
        pending := true;
      }
    }
  }

  datatype Moment = Heard(ready: bool, at: Time) | Ticked(at: Time, w: Surroundings)

  function After(c: HoldConfig, run: seq<Moment>): GateState {
    if run == [] then WAITING
    else
      var s := After(c, run[..|run| - 1]);
      match run[|run| - 1]
      case Heard(ready, at) => s.(hold := Receive(c, s.hold, ready, at))
      case Ticked(at, w) => Tick(c, s, at, w)
  }

  /** What the hold sees of a run before any request. */
  function Seen(run: seq<Moment>): seq<Event> {
    if run == [] then []
    else Seen(run[..|run| - 1])
         + [match run[|run| - 1] case Heard(ready, at) => Beat(ready, at) case Ticked(at, w) => Look(w.tfFresh, at)]
  }

  lemma {:induction false} HoldSeesAll(c: HoldConfig, run: seq<Moment>)
    ensures |Seen(run)| == |run| && forall i | 0 <= i < |run| :: Seen(run)[i].at == run[i].at
    ensures After(c, run).requests <= 1
    ensures After(c, run).requests == 1 <==> After(c, run).pending || After(c, run).finished
    ensures After(c, run).requests == 0 ==> After(c, run).hold == Run(c, Seen(run))
  {
    if run != [] {
      HoldSeesAll(c, run[..|run| - 1]);
      assert Seen(run)[..|run| - 1] == Seen(run[..|run| - 1]);
    }
  }

  /** No run asks for startup more than once. */
  lemma AtMostOneRequest(c: HoldConfig, run: seq<Moment>)
    ensures After(c, run).requests <= 1
  {
    HoldSeesAll(c, run);
  }

  /** The request goes out only at the end of a healthy stretch of the full hold time, with the service there. */
  lemma RequestOnlyAfterHold(c: HoldConfig, run: seq<Moment>, at: Time, w: Surroundings)
    requires c.Valid() && forall i, j | 0 <= i < j < |run| :: run[i].at <= run[j].at
    requires forall i | 0 <= i < |run| :: run[i].at <= at
    requires After(c, run + [Ticked(at, w)]).requests > After(c, run).requests
    ensures w.serviceReady && exists j: nat :: HeldFrom(c, Seen(run) + [Look(w.tfFresh, at)], j)
  {
    HoldSeesAll(c, run);
    assert (run + [Ticked(at, w)])[..|run + [Ticked(at, w)]| - 1] == run;
    assert After(c, run + [Ticked(at, w)]) == Tick(c, After(c, run), at, w);
    assert InOrder(Seen(run) + [Look(w.tfFresh, at)]);
    QualifiesIffHeld(c, Seen(run), w.tfFresh, at);
  }

  /** A tick asks for startup exactly when nothing has been asked yet, the service is there, and the tick ends a healthy
      stretch of the full hold time. */
  lemma RequestIffHeld(c: HoldConfig, run: seq<Moment>, at: Time, w: Surroundings)
    requires c.Valid() && forall i, j | 0 <= i < j < |run| :: run[i].at <= run[j].at
    requires forall i | 0 <= i < |run| :: run[i].at <= at
    ensures After(c, run + [Ticked(at, w)]).requests > After(c, run).requests <==>
              && After(c, run).requests == 0 && w.serviceReady
              && exists j: nat :: HeldFrom(c, Seen(run) + [Look(w.tfFresh, at)], j)
  {
    HoldSeesAll(c, run);
    assert (run + [Ticked(at, w)])[..|run + [Ticked(at, w)]| - 1] == run;
    assert After(c, run + [Ticked(at, w)]) == Tick(c, After(c, run), at, w);
    assert InOrder(Seen(run) + [Look(w.tfFresh, at)]);
    QualifiesIffHeld(c, Seen(run), w.tfFresh, at);
    hide HeldFrom, Run, Seen, After;
  }

  /** What the ticks after the request are worth: the gate finishes when the answer is there, or at once if the call
      raised, and it fails exactly when the call raised or the answer is no. */
  lemma OutcomeIs(c: HoldConfig, run: seq<Moment>, at: Time, w: Surroundings)
    ensures var s, next := After(c, run), After(c, run + [Ticked(at, w)]);
            var asks := next.requests > s.requests;
            && (asks ==> next.pending == !w.callRaises && next.finished == w.callRaises && next.failed == w.callRaises)
            && (!asks && s.pending && !s.finished ==>
                 && next.pending
                 && next.finished == w.answer.Some?
                 && next.failed == (w.answer.Some? && !w.answer.value))
            && (!asks && !(s.pending && !s.finished) ==>
                 next.pending == s.pending && next.finished == s.finished && next.failed == s.failed)
  {
    NotFailedBefore(c, run);
    assert (run + [Ticked(at, w)])[..|run|] == run;
  }

  lemma {:induction false} NotFailedBefore(c: HoldConfig, run: seq<Moment>)
    ensures !After(c, run).finished ==> !After(c, run).failed
  {
    if run != [] {
      NotFailedBefore(c, run[..|run| - 1]);
      hide Observe, Receive;
    }
  }
}
