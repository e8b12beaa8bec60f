/** The cache that decides whether navigation's smoothed command may still move the robot. */
module NavigationCommandGate {
  import opened Basics

  datatype GateState = GateState(command: Twist, receivedAt: Option<Time>, rawReceivedAt: Option<Time>)

  const CLEARED := GateState(ZERO_TWIST, None, None)

  predicate Fresh(received: Option<Time>, now: Time, timeout: Num) {
    && timeout.Finite? && timeout.v > 0.0
    && received.Some? && now >= received.value && now - received.value <= timeout.v
  }

  function UpdateRaw(s: GateState, command: Twist, now: Time, timeout: Num): GateState {
    if !command.HasFiniteComponents() || command == ZERO_TWIST then CLEARED
    else (if Fresh(s.rawReceivedAt, now, timeout) then s else CLEARED).(rawReceivedAt := Some(now))
  }

  function Update(monitorRaw: bool, s: GateState, command: Twist, now: Time, timeout: Num): GateState {
    if !command.HasFiniteComponents() || (monitorRaw && !Fresh(s.rawReceivedAt, now, timeout)) then CLEARED
    else s.(command := command, receivedAt := Some(now))
  }

  function CommandAt(monitorRaw: bool, s: GateState, now: Time, timeout: Num): (GateState, Twist) {
    if monitorRaw && !Fresh(s.rawReceivedAt, now, timeout) then (CLEARED, ZERO_TWIST)
    else if !Fresh(s.receivedAt, now, timeout) then (s.(command := ZERO_TWIST, receivedAt := None), ZERO_TWIST)
    else (s, s.command)
  }

  /** `NavigationCommandGate`, updated in place. */
  class Gate {
    const monitorRaw: bool
    var command: Twist
    var receivedAt: Option<Time>
    var rawReceivedAt: Option<Time>

    constructor (monitorRaw: bool)
      ensures this.monitorRaw == monitorRaw && State() == CLEARED
    {
      this.monitorRaw := monitorRaw;
      command, receivedAt, rawReceivedAt := ZERO_TWIST, None, None;
    }

    ghost function State(): GateState
      reads this
    {
      GateState(command, receivedAt, rawReceivedAt)
    }

    method Clear()
      modifies this
      ensures State() == CLEARED
    {
      command, receivedAt, rawReceivedAt := ZERO_TWIST, None, None;
    }

    method ReceiveRaw(twist: Twist, now: Time, timeout: Num)
      modifies this
      ensures State() == UpdateRaw(old(State()), twist, now, timeout)
    {
      if !twist.HasFiniteComponents() || twist == ZERO_TWIST {
        Clear();
        return;
      }
      if !Fresh(rawReceivedAt, now, timeout) {
        Clear();
      }
      rawReceivedAt := Some(now);
    }

    method Receive(twist: Twist, now: Time, timeout: Num)
      modifies this
      ensures State() == Update(monitorRaw, old(State()), twist, now, timeout)
    {
      if !twist.HasFiniteComponents() || (monitorRaw && !Fresh(rawReceivedAt, now, timeout)) {
        Clear();
        return;
      }
      command := twist;
      receivedAt := Some(now);
    }

    method Poll(now: Time, timeout: Num) returns (twist: Twist)
      modifies this
      ensures (State(), twist) == CommandAt(monitorRaw, old(State()), now, timeout)
    {
      if monitorRaw && !Fresh(rawReceivedAt, now, timeout) {
        Clear();
        return ZERO_TWIST;
      }
      if !Fresh(receivedAt, now, timeout) {
        command := ZERO_TWIST;
        receivedAt := None;
        return ZERO_TWIST;
      }
      return command;
    }
  }

  // ---------- Histories ----------

  datatype Event =
    | Raw(at: Time, twist: Twist)
    | Smoothed(at: Time, twist: Twist)
    | Poll(at: Time)
    | Reset(at: Time)

  /** A raw command that keeps the lease alive. */
  predicate KeepsAlive(e: Event) {
    e.Raw? && e.twist.HasFiniteComponents() && e.twist != ZERO_TWIST
  }

  /** An event that empties the gate by what it is, whenever it comes. */
  predicate Clears(e: Event) {
    e.Reset? || (e.Raw? && !KeepsAlive(e)) || (e.Smoothed? && !e.twist.HasFiniteComponents())
  }

  function Apply(monitorRaw: bool, s: GateState, e: Event, timeout: Num): GateState {
    match e
    case Raw(at, twist) => UpdateRaw(s, twist, at, timeout)
    case Smoothed(at, twist) => Update(monitorRaw, s, twist, at, timeout)
    case Poll(at) => CommandAt(monitorRaw, s, at, timeout).0
    case Reset(_) => CLEARED
  }

  function Run(monitorRaw: bool, h: seq<Event>, timeout: Num): GateState {
    if h == [] then CLEARED
    else Apply(monitorRaw, Run(monitorRaw, h[..|h| - 1], timeout), h[|h| - 1], timeout)
  }

  /** The events come in clock order, none after `now`. */
  ghost predicate Ordered(h: seq<Event>, now: Time) {
    && InOrder(h)
    && (forall i | 0 <= i < |h| :: h[i].at <= now)
  }

  ghost predicate InOrder(h: seq<Event>) {
    forall i, j | 0 <= i < j < |h| :: h[i].at <= h[j].at
  }

  function WithoutPolls(h: seq<Event>): seq<Event> {
    if h == [] then []
    else
      var rest := WithoutPolls(h[..|h| - 1]);
      if h[|h| - 1].Poll? then rest else rest + [h[|h| - 1]]
  }

  lemma {:induction false} WithoutPollsOrdered(h: seq<Event>, now: Time)
    requires Ordered(h, now)
    ensures Ordered(WithoutPolls(h), now)
    ensures forall i | 0 <= i < |WithoutPolls(h)| :: WithoutPolls(h)[i] in h && !WithoutPolls(h)[i].Poll?
  {
    if h != [] {
      WithoutPollsOrdered(h[..|h| - 1], h[|h| - 1].at);
    }
  }

  // ---------- Polling is harmless ----------

  /** `polled` behaves like `quiet` at every time from `now` on: they differ only in what has expired already, or is a
      command to stand still. */
  ghost predicate Agree(monitorRaw: bool, polled: GateState, quiet: GateState, now: Time, timeout: Num) {
    || polled == quiet
    || (monitorRaw && polled == CLEARED && !FreshLater(quiet.rawReceivedAt, now, timeout))
    || (polled == quiet.(command := ZERO_TWIST, receivedAt := None) && !CouldMove(monitorRaw, quiet, now, timeout))
  }

  /** Whether something received could still be fresh at `now` or later. */
  predicate FreshLater(received: Option<Time>, now: Time, timeout: Num) {
    timeout.Finite? && timeout.v > 0.0 && received.Some? && now - received.value <= timeout.v
  }

  /** Whether the command held could still move the robot at `now` or later. */
  predicate CouldMove(monitorRaw: bool, s: GateState, now: Time, timeout: Num) {
    && s.command != ZERO_TWIST && FreshLater(s.receivedAt, now, timeout)
    && (monitorRaw ==> FreshLater(s.rawReceivedAt, now, timeout))
  }

  ghost predicate ReceivedBy(s: GateState, now: Time) {
    && (s.rawReceivedAt.Some? ==> s.rawReceivedAt.value <= now)
    && (s.receivedAt.Some? ==> s.receivedAt.value <= now)
  }

  lemma AgreeStep(monitorRaw: bool, polled: GateState, quiet: GateState, e: Event, now: Time, timeout: Num)
    requires Agree(monitorRaw, polled, quiet, now, timeout) && now <= e.at && ReceivedBy(quiet, now)
    ensures Agree(monitorRaw, Apply(monitorRaw, polled, e, timeout),
                  if e.Poll? then quiet else Apply(monitorRaw, quiet, e, timeout), e.at, timeout)
    ensures Agree(monitorRaw, Apply(monitorRaw, polled, e, timeout), Apply(monitorRaw, quiet, e, timeout), e.at,
                  timeout)
  {
  }

  lemma {:induction false} RunTimes(monitorRaw: bool, h: seq<Event>, timeout: Num, now: Time)
    requires Ordered(h, now)
    ensures ReceivedBy(Run(monitorRaw, h, timeout), now)
  {
    if h != [] {
      RunTimes(monitorRaw, h[..|h| - 1], timeout, h[|h| - 1].at);
    }
  }

  lemma {:induction false} RunAgrees(monitorRaw: bool, h: seq<Event>, timeout: Num, now: Time)
    requires Ordered(h, now)
    ensures Agree(monitorRaw, Run(monitorRaw, h, timeout), Run(monitorRaw, WithoutPolls(h), timeout), now, timeout)
  {
    if h != [] {
      var before, last := h[..|h| - 1], h[|h| - 1];
      RunAgrees(monitorRaw, before, timeout, last.at);
      WithoutPollsOrdered(before, last.at);
      RunTimes(monitorRaw, WithoutPolls(before), timeout, last.at);
      AgreeStep(monitorRaw, Run(monitorRaw, before, timeout), Run(monitorRaw, WithoutPolls(before), timeout),
                last, last.at, timeout);
      assert !last.Poll? ==> WithoutPolls(h)[..|WithoutPolls(h)| - 1] == WithoutPolls(before);
    }
  }

  /** As long as the clock readings come in order, extra polls never change what a later poll answers. */
  lemma PollsNeverMatter(monitorRaw: bool, h: seq<Event>, now: Time, timeout: Num)
    requires Ordered(h, now)
    ensures CommandAt(monitorRaw, Run(monitorRaw, h, timeout), now, timeout).1
            == CommandAt(monitorRaw, Run(monitorRaw, WithoutPolls(h), timeout), now, timeout).1
  {
    RunAgrees(monitorRaw, h, timeout, now);
    WithoutPollsOrdered(h, now);
    RunTimes(monitorRaw, WithoutPolls(h), timeout, now);
  }

  function RunFrom(monitorRaw: bool, s: GateState, h: seq<Event>, timeout: Num): GateState {
    if h == [] then s
    else Apply(monitorRaw, RunFrom(monitorRaw, s, h[..|h| - 1], timeout), h[|h| - 1], timeout)
  }

  /** The events come in clock order, from `from` to `now`. */
  ghost predicate Between(h: seq<Event>, from: Time, now: Time) {
    Ordered(h, now) && from <= now && forall i | 0 <= i < |h| :: from <= h[i].at
  }

  lemma {:induction false} AgreeFrom(monitorRaw: bool, polled: GateState, quiet: GateState, h: seq<Event>, from: Time,
                                     now: Time, timeout: Num)
    requires Agree(monitorRaw, polled, quiet, from, timeout) && ReceivedBy(quiet, from) && Between(h, from, now)
    ensures ReceivedBy(RunFrom(monitorRaw, quiet, h, timeout), now)
    ensures Agree(monitorRaw, RunFrom(monitorRaw, polled, h, timeout), RunFrom(monitorRaw, quiet, h, timeout), now,
                  timeout)
  {
    if h != [] {
      hide Apply, Agree;
      var before, e := h[..|h| - 1], h[|h| - 1];
      AgreeFrom(monitorRaw, polled, quiet, before, from, e.at, timeout);
      AgreeStep(monitorRaw, RunFrom(monitorRaw, polled, before, timeout), RunFrom(monitorRaw, quiet, before, timeout),
                e, e.at, timeout);
      StepTimes(monitorRaw, RunFrom(monitorRaw, quiet, before, timeout), e, timeout);
      AgreeLater(monitorRaw, RunFrom(monitorRaw, polled, h, timeout), RunFrom(monitorRaw, quiet, h, timeout),
                 e.at, now, timeout);
    } else {
      AgreeLater(monitorRaw, polled, quiet, from, now, timeout);
    }
  }

  lemma StepTimes(monitorRaw: bool, s: GateState, e: Event, timeout: Num)
    requires ReceivedBy(s, e.at)
    ensures ReceivedBy(Apply(monitorRaw, s, e, timeout), e.at)
  {
  }

  lemma AgreeLater(monitorRaw: bool, polled: GateState, quiet: GateState, before: Time, now: Time, timeout: Num)
    requires Agree(monitorRaw, polled, quiet, before, timeout) && before <= now
    ensures Agree(monitorRaw, polled, quiet, now, timeout)
  {
  }

  /** A poll whose clock reading is `t` changes no answer to any later poll, whatever ordered events come between. */
  ghost predicate Harmless(monitorRaw: bool, s: GateState, t: Time, now: Time, timeout: Num) {
    forall h, u | Between(h, now, u) ::
      SameAnswer(monitorRaw, CommandAt(monitorRaw, s, t, timeout).0, s, h, u, timeout)
  }

  ghost predicate SameAnswer(monitorRaw: bool, a: GateState, b: GateState, h: seq<Event>, u: Time, timeout: Num) {
    CommandAt(monitorRaw, RunFrom(monitorRaw, a, h, timeout), u, timeout).1
    == CommandAt(monitorRaw, RunFrom(monitorRaw, b, h, timeout), u, timeout).1
  }

  /** The clock reading comes before a receipt that still counts: one that keeps the raw lease alive, or the one of a
      command that could still move the robot. */
  predicate TooEarly(monitorRaw: bool, s: GateState, t: Time, now: Time, timeout: Num) {
    || (monitorRaw && FreshLater(s.rawReceivedAt, now, timeout) && t < s.rawReceivedAt.value)
    || (CouldMove(monitorRaw, s, now, timeout) && t < s.receivedAt.value)
  }

  /** Once its receipts lie behind, a poll of the gate with a clock reading in the past is harmless exactly when that
      reading is not too early. */
  lemma PollIsHarmlessIff(monitorRaw: bool, s: GateState, t: Time, now: Time, timeout: Num)
    requires ReceivedBy(s, now) && t <= now
    ensures Harmless(monitorRaw, s, t, now, timeout) <==> !TooEarly(monitorRaw, s, t, now, timeout)
  {
    var polled := CommandAt(monitorRaw, s, t, timeout).0;
    if TooEarly(monitorRaw, s, t, now, timeout) {
      if CouldMove(monitorRaw, s, now, timeout) {
        assert Between([], now, now) && !SameAnswer(monitorRaw, polled, s, [], now, timeout);
      } else {
        var e := Smoothed(now, UNIT);
        assert [e][..0] == [];
        assert RunFrom(monitorRaw, polled, [e], timeout) == Apply(monitorRaw, polled, e, timeout);
        assert RunFrom(monitorRaw, s, [e], timeout) == Apply(monitorRaw, s, e, timeout);
        assert Between([e], now, now) && !SameAnswer(monitorRaw, polled, s, [e], now, timeout);
      }
    } else {
      assert Agree(monitorRaw, polled, s, now, timeout);
      forall h, u | Between(h, now, u) ensures SameAnswer(monitorRaw, polled, s, h, u, timeout) {
        AgreeFrom(monitorRaw, polled, s, h, now, u, timeout);
      }
    }
  }

  /** Some command that moves the robot. */
  const UNIT := ZERO_TWIST.(lx := Finite(1.0))

  /** Over ordered clock readings every poll is harmless. */
  lemma OrderedPollsAreHarmless(monitorRaw: bool, h: seq<Event>, now: Time, timeout: Num)
    requires Ordered(h, now)
    ensures Harmless(monitorRaw, Run(monitorRaw, h, timeout), now, now, timeout)
  {
    RunTimes(monitorRaw, h, timeout, now);
    PollIsHarmlessIff(monitorRaw, Run(monitorRaw, h, timeout), now, now, timeout);
  }

  // ---------- The specification over both streams ----------

  /** Some later raw command follows the one at `a` within the timeout. */
  ghost predicate Followed(h: seq<Event>, a: nat, timeout: real)
    requires a < |h|
  {
    exists b :: a < b < |h| && h[b].Raw? && h[b].at - h[a].at <= timeout
  }

  /** From the raw command at `j` on nothing clears, and raw commands follow each other in time up to the last, `l`. */
  ghost predicate Unbroken(h: seq<Event>, j: nat, l: nat, timeout: real) {
    && j <= l < |h|
    && KeepsAlive(h[j]) && h[j].Raw?
    && h[l].Raw?
    && (forall i | l < i < |h| :: !h[i].Raw?)
    && (forall i | j < i < |h| :: !Clears(h[i]))
    && (forall a | j <= a < l && h[a].Raw? :: Followed(h, a, timeout))
  }

  /** The latest smoothed command, at `k`, came after `j` and carries `c`. */
  ghost predicate LatestSmoothed(h: seq<Event>, j: nat, k: nat, c: Twist) {
    && j < k < |h|
    && h[k].Smoothed? && h[k].twist == c
    && forall i | k < i < |h| :: !h[i].Smoothed?
  }

  ghost predicate LiveAt(h: seq<Event>, j: nat, l: nat, k: nat, now: Time, timeout: real, c: Twist) {
    && Unbroken(h, j, l, timeout)
    && LatestSmoothed(h, j, k, c)
    && now - h[l].at <= timeout
    && now - h[k].at <= timeout
  }

  /** Navigation may move the robot with `c`: it is the latest smoothed command, recent enough, admitted after a raw
      command from which an unbroken stream of raw commands leads up to now. */
  ghost predicate Live(h: seq<Event>, now: Time, timeout: real, c: Twist) {
    exists j: nat, l: nat, k: nat :: LiveAt(h, j, l, k, now, timeout, c)
  }

  ghost predicate PollFree(h: seq<Event>) {
    forall i | 0 <= i < |h| :: !h[i].Poll?
  }

  // From the state to the history.

  ghost predicate Explains(h: seq<Event>, s: GateState, timeout: real) {
    && (s.rawReceivedAt.None? ==> s == CLEARED)
    && (s.receivedAt.None? ==> s.command == ZERO_TWIST)
    && (s.rawReceivedAt.Some? ==>
         exists j: nat, l: nat :: Unbroken(h, j, l, timeout) && h[l].at == s.rawReceivedAt.value)
    && (s.receivedAt.Some? ==> exists j: nat, l: nat, k: nat :: Holding(h, j, l, k, s, timeout))
  }

  ghost predicate Holding(h: seq<Event>, j: nat, l: nat, k: nat, s: GateState, timeout: real) {
    && Unbroken(h, j, l, timeout) && LatestSmoothed(h, j, k, s.command)
    && s.rawReceivedAt == Some(h[l].at) && s.receivedAt == Some(h[k].at)
  }

  lemma UnbrokenExtends(h: seq<Event>, e: Event, j: nat, l: nat, timeout: real)
    requires Unbroken(h, j, l, timeout) && !Clears(e)
    requires e.Raw? ==> e.at - h[l].at <= timeout
    ensures Unbroken(h + [e], j, if e.Raw? then |h| else l, timeout)
  {
    var h' := h + [e];
    assert forall i | 0 <= i < |h| :: h'[i] == h[i];
    forall a | j <= a < (if e.Raw? then |h| else l) && h'[a].Raw? ensures Followed(h', a, timeout) {
      if a < l {
        var b :| a < b < |h| && h[b].Raw? && h[b].at - h[a].at <= timeout;
        assert h'[b].Raw?;
      } else {
        assert h'[|h|].Raw?;
      }
    }
  }

  lemma ExplainsStep(h: seq<Event>, s: GateState, e: Event, timeout: Num)
    requires timeout.Finite? && timeout.v > 0.0 && Explains(h, s, timeout.v) && !e.Poll?
    ensures Explains(h + [e], Apply(true, s, e, timeout), timeout.v)
  {
    var next, h' := Apply(true, s, e, timeout), h + [e];
    if next == CLEARED {
    } else if e.Raw? && next.receivedAt.None? && !Fresh(s.rawReceivedAt, e.at, timeout) {
      assert Unbroken(h', |h|, |h|, timeout.v);
    } else {
      var j: nat, l: nat :| Unbroken(h, j, l, timeout.v) && h[l].at == s.rawReceivedAt.value;
      UnbrokenExtends(h, e, j, l, timeout.v);
      if e.Smoothed? {
        assert Holding(h', j, l, |h|, next, timeout.v);
      } else if s.receivedAt.Some? {
        var j: nat, l: nat, k: nat :| Holding(h, j, l, k, s, timeout.v);
        UnbrokenExtends(h, e, j, l, timeout.v);
        assert Holding(h', j, |h|, k, next, timeout.v);
      }
    }
  }

  lemma {:induction false} RunExplains(h: seq<Event>, timeout: Num)
    requires timeout.Finite? && timeout.v > 0.0 && PollFree(h)
    ensures Explains(h, Run(true, h, timeout), timeout.v)
  {
    if h != [] {
      RunExplains(h[..|h| - 1], timeout);
      ExplainsStep(h[..|h| - 1], Run(true, h[..|h| - 1], timeout), h[|h| - 1], timeout);
      assert h == h[..|h| - 1] + [h[|h| - 1]];
    }
  }

  lemma {:induction false} PollsExplained(h: seq<Event>, timeout: Num)
    requires timeout.Finite? && timeout.v > 0.0
    ensures Explains(WithoutPolls(h), Run(true, h, timeout), timeout.v)
  {
    if h != [] {
      PollsExplained(h[..|h| - 1], timeout);
      if !h[|h| - 1].Poll? {
        ExplainsStep(WithoutPolls(h[..|h| - 1]), Run(true, h[..|h| - 1], timeout), h[|h| - 1], timeout);
      }
    }
  }

  /** Whatever order the clock readings come in, a moving command that a poll answers is live in the two streams. */
  lemma AnswersAreLive(h: seq<Event>, now: Time, timeout: Num, c: Twist)
    requires c != ZERO_TWIST && CommandAt(true, Run(true, h, timeout), now, timeout).1 == c
    ensures timeout.Finite? && timeout.v > 0.0 && Live(WithoutPolls(h), now, timeout.v, c)
  {
    PollsExplained(h, timeout);
    var s := Run(true, h, timeout);
    var j: nat, l: nat, k: nat :| Holding(WithoutPolls(h), j, l, k, s, timeout.v);
    assert LiveAt(WithoutPolls(h), j, l, k, now, timeout.v, c);
  }

  // From the history to the state.

  lemma {:induction false} LastRaw(h: seq<Event>, j: nat) returns (l: nat)
    requires j < |h| && h[j].Raw?
    ensures j <= l < |h| && h[l].Raw? && forall i | l < i < |h| :: !h[i].Raw?
    decreases |h|
  {
    if h[|h| - 1].Raw? {
      l := |h| - 1;
    } else {
      l := LastRaw(h[..|h| - 1], j);
    }
  }

  /** Everything after the last raw command is within its lease. */
  ghost predicate Leased(h: seq<Event>, l: nat, timeout: real)
    requires l < |h|
  {
    forall i | l < i < |h| :: h[i].at - h[l].at <= timeout
  }

  /** An unbroken stream was unbroken one event earlier. */
  lemma UnbrokenBefore(h: seq<Event>, j: nat, l: nat, timeout: real) returns (l': nat)
    requires InOrder(h) && Unbroken(h, j, l, timeout) && j < |h| - 1
    requires Leased(h, l, timeout)
    ensures Unbroken(h[..|h| - 1], j, l', timeout) && Leased(h[..|h| - 1], l', timeout)
    ensures h[|h| - 1].at - h[l'].at <= timeout
    ensures l < |h| - 1 ==> l' == l
  {
    hide Clears, KeepsAlive;
    var before := h[..|h| - 1];
    l' := LastRaw(before, j);
    if l == |h| - 1 {
      assert Followed(h, l', timeout);
      assert h[l].at - h[l'].at <= timeout;
    } else {
      assert before[l].Raw?;
      assert l' == l;
    }
    assert Leased(before, l', timeout);
    hide Followed;
    forall a | j <= a < l' && before[a].Raw? ensures Followed(before, a, timeout) {
      assert Followed(h, a, timeout);
      FollowedBefore(h, a, l', timeout);
    }
  }

  /** A raw command followed in time is followed without the last event, too, if a raw command still comes after it. */
  lemma FollowedBefore(h: seq<Event>, a: nat, l: nat, timeout: real)
    requires InOrder(h) && a < l < |h| - 1 && h[l].Raw? && Followed(h, a, timeout)
    ensures Followed(h[..|h| - 1], a, timeout)
  {
    var before := h[..|h| - 1];
    var b :| a < b < |h| && h[b].Raw? && h[b].at - h[a].at <= timeout;
    var b' := if b < |before| then b else l;
    assert before[b'].Raw? && before[b'].at - before[a].at <= timeout;
  }

  lemma {:induction false} UnbrokenKeepsRaw(h: seq<Event>, j: nat, l: nat, timeout: Num)
    requires timeout.Finite? && timeout.v > 0.0 && PollFree(h) && InOrder(h)
    requires Unbroken(h, j, l, timeout.v) && Leased(h, l, timeout.v)
    ensures Run(true, h, timeout).rawReceivedAt == Some(h[l].at)
    decreases |h|
  {
    var last := |h| - 1;
    if j < last {
      var l' := UnbrokenBefore(h, j, l, timeout.v);
      UnbrokenKeepsRaw(h[..last], j, l', timeout);
      assert !Clears(h[last]) && h[last].at - h[l'].at <= timeout.v && h[last].at >= h[l'].at;
      assert !h[last].Poll? && (h[last].Raw? ==> l == last) && (!h[last].Raw? ==> l == l');
      hide Unbroken, Leased, InOrder, PollFree;
    }
  }

  lemma {:induction false} UnbrokenKeepsCommand(h: seq<Event>, j: nat, l: nat, k: nat, c: Twist, timeout: Num)
    requires timeout.Finite? && timeout.v > 0.0 && PollFree(h) && InOrder(h)
    requires Unbroken(h, j, l, timeout.v) && Leased(h, l, timeout.v) && LatestSmoothed(h, j, k, c)
    ensures Run(true, h, timeout).receivedAt == Some(h[k].at) && Run(true, h, timeout).command == c
    decreases |h|
  {
    var last := |h| - 1;
    var l' := UnbrokenBefore(h, j, l, timeout.v);
    UnbrokenKeepsRaw(h[..last], j, l', timeout);
    assert !Clears(h[last]) && h[last].at - h[l'].at <= timeout.v && h[last].at >= h[l'].at;
    if k < last {
      UnbrokenKeepsCommand(h[..last], j, l', k, c, timeout);
    }
    assert h[last] == h[k] || !h[last].Smoothed?;
    assert !h[last].Poll?;
    hide Unbroken, Leased, LatestSmoothed, InOrder, PollFree;
  }

  /** The gate is its history: with the raw stream monitored, a poll answers a moving command exactly when the two
      streams, polls left out, say so. */
  lemma GateIsItsHistory(h: seq<Event>, now: Time, timeout: Num, c: Twist)
    requires Ordered(h, now) && timeout.Finite? && timeout.v > 0.0 && c != ZERO_TWIST
    ensures CommandAt(true, Run(true, h, timeout), now, timeout).1 == c
            <==> Live(WithoutPolls(h), now, timeout.v, c)
  {
    if CommandAt(true, Run(true, h, timeout), now, timeout).1 == c {
      AnswersAreLive(h, now, timeout, c);
    }
    if Live(WithoutPolls(h), now, timeout.v, c) {
      PollsNeverMatter(true, h, now, timeout);
      WithoutPollsOrdered(h, now);
      LiveIsAnswered(WithoutPolls(h), now, timeout, c);
    }
  }

  lemma LiveIsAnswered(q: seq<Event>, now: Time, timeout: Num, c: Twist)
    requires Ordered(q, now) && PollFree(q) && timeout.Finite? && timeout.v > 0.0 && Live(q, now, timeout.v, c)
    ensures CommandAt(true, Run(true, q, timeout), now, timeout).1 == c
  {
    var j: nat, l: nat, k: nat :| LiveAt(q, j, l, k, now, timeout.v, c);
    UnbrokenKeepsRaw(q, j, l, timeout);
    UnbrokenKeepsCommand(q, j, l, k, c, timeout);
  }

  // ---------- Without a raw stream ----------

  ghost predicate HeldAt(h: seq<Event>, k: nat, c: Twist) {
    && k < |h| && h[k].Smoothed? && h[k].twist == c && c.HasFiniteComponents()
    && forall i | k < i < |h| :: h[i].Poll?
  }

  lemma {:induction false} UnmonitoredState(h: seq<Event>, timeout: Num)
    requires (forall i | 0 <= i < |h| :: !h[i].Raw?) && PollFree(h)
    ensures var s := Run(false, h, timeout);
            && (s.receivedAt.Some? ==> exists k: nat :: HeldAt(h, k, s.command) && s.receivedAt.value == h[k].at)
            && (s.receivedAt.None? ==> s.command == ZERO_TWIST)
    ensures forall k: nat, c | HeldAt(h, k, c) ::
              Run(false, h, timeout).receivedAt == Some(h[k].at) && Run(false, h, timeout).command == c
  {
    if h != [] {
      UnmonitoredState(h[..|h| - 1], timeout);
      var s := Run(false, h, timeout);
      if h[|h| - 1].Smoothed? && s.receivedAt.Some? {
        assert HeldAt(h, |h| - 1, s.command);
      }
    }
  }

  /** With no raw stream to monitor, a poll answers exactly the last event that was not a poll, if that was a finite
      smoothed command recent enough. */
  lemma {:induction false} UnmonitoredGateIsItsHistory(h: seq<Event>, now: Time, timeout: Num, c: Twist)
    requires Ordered(h, now) && timeout.Finite? && timeout.v > 0.0 && c != ZERO_TWIST
    requires forall i | 0 <= i < |h| :: !h[i].Raw?
    ensures CommandAt(false, Run(false, h, timeout), now, timeout).1 == c
            <==> exists k: nat :: HeldAt(WithoutPolls(h), k, c) && now - WithoutPolls(h)[k].at <= timeout.v
  {
    PollsNeverMatter(false, h, now, timeout);
    WithoutPollsOrdered(h, now);
    UnmonitoredState(WithoutPolls(h), timeout);
  }

  ghost predicate HoldsLatest(q: seq<Event>, s: GateState) {
    && (s.receivedAt.Some? ==> exists k: nat :: HeldAt(q, k, s.command) && s.receivedAt.value == q[k].at)
    && (s.receivedAt.None? ==> s.command == ZERO_TWIST)
  }

  lemma HoldsLatestStep(q: seq<Event>, s: GateState, e: Event, timeout: Num)
    requires HoldsLatest(q, s) && !e.Raw?
    ensures HoldsLatest(if e.Poll? then q else q + [e], Apply(false, s, e, timeout))
  {
    var next := Apply(false, s, e, timeout);
    if e.Smoothed? && next.receivedAt.Some? {
      assert HeldAt(q + [e], |q|, next.command);
    }
  }

  lemma {:induction false} UnmonitoredExplained(h: seq<Event>, timeout: Num)
    requires forall i | 0 <= i < |h| :: !h[i].Raw?
    ensures HoldsLatest(WithoutPolls(h), Run(false, h, timeout))
  {
    if h != [] {
      UnmonitoredExplained(h[..|h| - 1], timeout);
      HoldsLatestStep(WithoutPolls(h[..|h| - 1]), Run(false, h[..|h| - 1], timeout), h[|h| - 1], timeout);
    }
  }

  /** The same, whatever order the clock readings come in. */
  lemma UnmonitoredAnswersAreHeld(h: seq<Event>, now: Time, timeout: Num, c: Twist)
    requires forall i | 0 <= i < |h| :: !h[i].Raw?
    requires c != ZERO_TWIST && CommandAt(false, Run(false, h, timeout), now, timeout).1 == c
    ensures timeout.Finite? && timeout.v > 0.0
    ensures exists k: nat :: HeldAt(WithoutPolls(h), k, c) && now - WithoutPolls(h)[k].at <= timeout.v
  {
    UnmonitoredExplained(h, timeout);
  }

  // ---------- The event behind a command ----------

  /** The latest smoothed command of the history, at `i`, is the one held. */
  ghost predicate HeldSince(h: seq<Event>, i: nat, s: GateState) {
    && i < |h| && h[i].Smoothed? && s.command == h[i].twist && s.receivedAt == Some(h[i].at)
    && forall k | i < k < |h| :: !h[k].Smoothed?
  }

  /** Whatever the gate holds is the latest smoothed command of its history, and with the raw stream monitored that is
      not the first event. */
  lemma {:induction false} CommandHasItsEvent(monitorRaw: bool, h: seq<Event>, timeout: Num)
    ensures var s := Run(monitorRaw, h, timeout);
            && (s.receivedAt.None? ==> s.command == ZERO_TWIST)
            && (s.receivedAt.Some? ==> exists i: nat :: HeldSince(h, i, s) && (monitorRaw ==> i > 0))
  {
    if h != [] {
      var before, e := h[..|h| - 1], h[|h| - 1];
      CommandHasItsEvent(monitorRaw, before, timeout);
      var was, s := Run(monitorRaw, before, timeout), Run(monitorRaw, h, timeout);
      if s.receivedAt.Some? {
        if e.Smoothed? {
          assert HeldSince(h, |h| - 1, s) && (monitorRaw ==> before != []);
        } else {
          var i: nat :| HeldSince(before, i, was) && (monitorRaw ==> i > 0);
          assert HeldSince(h, i, s);
        }
      }
    }
  }

  /** A timeout that is not a positive number shuts the gate. */
  lemma BadTimeoutShutsGate(monitorRaw: bool, s: GateState, now: Time, timeout: Num)
    requires !timeout.Finite? || timeout.v <= 0.0
    ensures CommandAt(monitorRaw, s, now, timeout).1 == ZERO_TWIST
  {
  }
}
