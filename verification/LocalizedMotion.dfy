/** The Odin adapter and the velocity bridge run together, each readiness message delivered at once and in order. */
module LocalizedMotion {
  import opened Basics
  import O = OdinAdapter
  import E = OdinEpochs
  import B = VelocityBridge

  datatype Action =
    | Adapt(event: O.Event, clock: O.Clock)
    | Command(twist: Twist, at: Time)
    | Send(at: Time)

  /** The adapter, its own run, the bridge, and everything that reached the bridge in order. */
  datatype System = System(moments: seq<E.Moment>, adapter: O.World, bridge: B.BridgeState, heard: seq<B.Event>)

  const BEGINNING := System([], O.BEGINNING, B.INITIAL, [])

  function Delivered(signal: O.Signal): B.Event {
    match signal
    case Lost => B.Lost
    case Said(ready, at) => B.Heartbeat(ready, at)
  }

  /** The bridge takes in one message. */
  function Hear(bc: B.Config, s: System, signal: O.Signal): System {
    s.(bridge := B.Step(bc, s.bridge, Delivered(signal)), heard := s.heard + [Delivered(signal)])
  }

  function Deliver(c: B.Config, s: System, signals: seq<O.Signal>): System
    decreases |signals|
  {
    if signals == [] then s else Deliver(c, Hear(c, s, signals[0]), signals[1..])
  }

  /** The messages a step of the adapter added. */
  function New(before: seq<O.Signal>, after: seq<O.Signal>): seq<O.Signal> {
    if |before| <= |after| then after[|before|..] else []
  }

  function Step(oc: O.Config, bc: B.Config, s: System, a: Action): System {
    match a
    case Adapt(event, clock) =>
      var w := O.Step(oc, s.adapter, event, clock);
      Deliver(bc, s.(moments := s.moments + [E.Moment(event, clock)], adapter := w),
              New(s.adapter.h.signals, w.h.signals))
    case Command(twist, at) =>
      s.(bridge := B.Step(bc, s.bridge, B.Commanded(twist, at)), heard := s.heard + [B.Commanded(twist, at)])
    case Send(at) =>
      s.(bridge := B.Step(bc, s.bridge, B.Sent(at)), heard := s.heard + [B.Sent(at)])
  }

  function Run(oc: O.Config, bc: B.Config, actions: seq<Action>): System {
    if actions == [] then BEGINNING
    else Step(oc, bc, Run(oc, bc, actions[..|actions| - 1]), actions[|actions| - 1])
  }

  function SteadyTime(a: Action): Time {
    match a
    case Adapt(_, clock) => clock.steady
    case Command(_, at) => at
    case Send(at) => at
  }

  ghost predicate InOrder(actions: seq<Action>) {
    && (forall i, j | 0 <= i < j < |actions| :: SteadyTime(actions[i]) <= SteadyTime(actions[j]))
    && (forall i, j | 0 <= i < j < |actions| && actions[i].Adapt? && actions[j].Adapt? ::
          actions[i].clock.ros <= actions[j].clock.ros)
  }

  // ---------- The bridge hears exactly what the adapter says ----------

  /** The part of what the bridge heard that came from the adapter. */
  function Signals(heard: seq<B.Event>): seq<O.Signal> {
    if heard == [] then []
    else
      var rest, e := Signals(heard[..|heard| - 1]), heard[|heard| - 1];
      match e
      case Lost => rest + [O.Lost]
      case Heartbeat(ready, at) => rest + [O.Said(ready, at)]
      case Commanded(_, _) => rest
      case Sent(_) => rest
  }

  ghost predicate Coupled(bc: B.Config, s: System, signals: seq<O.Signal>) {
    s.bridge == B.Run(bc, s.heard) && Signals(s.heard) == signals
  }

  lemma HearCouples(bc: B.Config, s: System, said: seq<O.Signal>, signal: O.Signal)
    requires Coupled(bc, s, said)
    ensures Coupled(bc, Hear(bc, s, signal), said + [signal])
  {
    hide B.Step;
    var e := Delivered(signal);
    assert (s.heard + [e])[..|s.heard|] == s.heard;
  }

  lemma {:induction false} DeliverCouples(bc: B.Config, s: System, said: seq<O.Signal>, signals: seq<O.Signal>)
    requires Coupled(bc, s, said)
    ensures Coupled(bc, Deliver(bc, s, signals), said + signals)
    ensures Deliver(bc, s, signals).moments == s.moments && Deliver(bc, s, signals).adapter == s.adapter
    decreases |signals|
  {
    hide Coupled, B.Step;
    if signals == [] {
      assert said + signals == said;
    } else {
      assert said + signals == said + [signals[0]] + signals[1..];
      HearCouples(bc, s, said, signals[0]);
      DeliverCouples(bc, Hear(bc, s, signals[0]), said + [signals[0]], signals[1..]);
    }
  }

  /** Signals are only ever added, and messages carry the time of the step. */
  ghost predicate Grew(before: seq<O.Signal>, after: seq<O.Signal>, at: Time) {
    before <= after && forall i | |before| <= i < |after| && after[i].Said? :: after[i].at == at
  }

  lemma ReportGrows(oc: O.Config, before: seq<O.Signal>, w: O.World, clock: O.Clock)
    requires Grew(before, w.h.signals, clock.steady)
    ensures Grew(before, O.Report(oc, w, clock).h.signals, clock.steady)
  {
  }

  lemma InvalidateGrows(before: seq<O.Signal>, w: O.World, reason: O.Reason, clock: O.Clock)
    requires Grew(before, w.h.signals, clock.steady)
    ensures Grew(before, O.Invalidate(w, reason, clock.ros).h.signals, clock.steady)
    ensures Grew(before, O.Say(O.Invalidate(w, reason, clock.ros), reason, clock).h.signals, clock.steady)
  {
  }

  lemma ProcessGrows(oc: O.Config, w: O.World, tf: O.RobotTf, clock: O.Clock)
    ensures Grew(w.h.signals, O.Process(oc, w, tf, clock).h.signals, clock.steady)
  {
    hide O.Report, O.Say, O.Invalidate, O.Newest, O.DropExpired, O.Jumps;
    var before, swept := w.h.signals, O.Sweep(oc, w, clock);
    InvalidateGrows(before, w, O.LocalOdometryNotAdvancing, clock);
    assert Grew(before, swept.h.signals, clock.steady);
    ReportGrows(oc, before, swept, clock);
    InvalidateGrows(before, swept, O.LocalOdometryDiscontinuity, clock);
    InvalidateGrows(before, swept, O.InvalidTransformedLocalPose, clock);
    ReportGrows(oc, before, O.Invalidate(swept, O.InvalidTransformedLocalPose, clock.ros), clock);
    var index := if tf.connected then O.Newest(tf, swept.s.pending, |swept.s.pending|) else 0;
    if index > 0 && tf.mount(swept.s.pending[index - 1]).Based? {
      ReportGrows(oc, before, O.Accept(swept, index, tf.mount(swept.s.pending[index - 1]).pose, clock), clock);
    }
  }

  lemma SignalsGrow(oc: O.Config, w: O.World, event: O.Event, clock: O.Clock)
    ensures var before, after := w.h.signals, O.Step(oc, w, event, clock).h.signals;
            && before + New(before, after) == after
            && forall i | 0 <= i < |New(before, after)| && New(before, after)[i].Said? ::
                 New(before, after)[i].at == clock.steady
  {
    var before, after := w.h.signals, O.Step(oc, w, event, clock).h.signals;
    assert Grew(before, after, clock.steady) by {
      if event.Tick? { ProcessGrows(oc, w, event.tf, clock); }
    }
  }

  /** Nothing the adapter says is lost on the way, and nothing else passes for it. */
  ghost predicate InStep(oc: O.Config, bc: B.Config, s: System) {
    Coupled(bc, s, s.adapter.h.signals) && s.adapter == E.RunOf(oc, s.moments)
  }

  lemma AdaptCouples(oc: O.Config, bc: B.Config, s: System, event: O.Event, clock: O.Clock)
    requires InStep(oc, bc, s)
    ensures InStep(oc, bc, Step(oc, bc, s, Adapt(event, clock)))
  {
    SignalsGrow(oc, s.adapter, event, clock);
    var w := O.Step(oc, s.adapter, event, clock);
    var stepped := s.(moments := s.moments + [E.Moment(event, clock)], adapter := w);
    assert stepped.moments[..|stepped.moments| - 1] == s.moments;
    hide O.Step, B.Step, B.Run, Signals;
    DeliverCouples(bc, stepped, s.adapter.h.signals, New(s.adapter.h.signals, w.h.signals));
  }

  /** A command or a send is not one of the adapter's messages. */
  lemma HeardCouples(oc: O.Config, bc: B.Config, s: System, e: B.Event)
    requires InStep(oc, bc, s) && (e.Commanded? || e.Sent?)
    ensures InStep(oc, bc, s.(bridge := B.Step(bc, s.bridge, e), heard := s.heard + [e]))
  {
    hide B.Step;
    assert (s.heard + [e])[..|s.heard + [e]| - 1] == s.heard;
  }

  lemma {:induction false} RunCouples(oc: O.Config, bc: B.Config, actions: seq<Action>)
    ensures InStep(oc, bc, Run(oc, bc, actions))
  {
    if actions != [] {
      var before, a := actions[..|actions| - 1], actions[|actions| - 1];
      RunCouples(oc, bc, before);
      hide InStep, B.Step;
      var s := Run(oc, bc, before);
      match a
      case Adapt(event, clock) => AdaptCouples(oc, bc, s, event, clock);
      case Command(twist, at) => HeardCouples(oc, bc, s, B.Commanded(twist, at));
      case Send(at) => HeardCouples(oc, bc, s, B.Sent(at));
    }
  }

  // ---------- Clocks ----------

  lemma {:induction false} DeliverOrdered(bc: B.Config, s: System, signals: seq<O.Signal>, now: Time)
    requires B.Ordered(s.heard, now)
    requires forall i | 0 <= i < |signals| && signals[i].Said? :: signals[i].at == now
    ensures B.Ordered(Deliver(bc, s, signals).heard, now)
    decreases |signals|
  {
    if signals != [] {
      DeliverOrdered(bc, Hear(bc, s, signals[0]), signals[1..], now);
    }
  }

  lemma {:induction false} RunOrdered(oc: O.Config, bc: B.Config, actions: seq<Action>, ros: Time, now: Time)
    requires InOrder(actions)
    requires forall k | 0 <= k < |actions| ::
               SteadyTime(actions[k]) <= now && (actions[k].Adapt? ==> actions[k].clock.ros <= ros)
    ensures var s := Run(oc, bc, actions);
            && B.Ordered(s.heard, now) && E.Ordered(s.moments)
            && forall m <- s.moments :: m.clock.ros <= ros && m.clock.steady <= now
  {
    if actions != [] {
      var before, a := actions[..|actions| - 1], actions[|actions| - 1];
      RunOrdered(oc, bc, before, if a.Adapt? then a.clock.ros else ros, SteadyTime(a));
      hide O.Step, B.Step, Deliver;
      var s := Run(oc, bc, before);
      if a.Adapt? {
        assert actions == before + [a];
        AdaptOrdered(oc, bc, before, a.event, a.clock);
      }
    }
  }

  lemma AdaptOrdered(oc: O.Config, bc: B.Config, before: seq<Action>, event: O.Event, clock: O.Clock)
    requires var s := Run(oc, bc, before);
             && B.Ordered(s.heard, clock.steady) && E.Ordered(s.moments)
             && forall m <- s.moments :: m.clock.ros <= clock.ros && m.clock.steady <= clock.steady
    ensures var s := Run(oc, bc, before + [Adapt(event, clock)]);
            && B.Ordered(s.heard, clock.steady) && E.Ordered(s.moments)
            && forall m <- s.moments :: m.clock.ros <= clock.ros && m.clock.steady <= clock.steady
  {
    hide O.Step, B.Step;
    var s := Run(oc, bc, before);
    assert (before + [Adapt(event, clock)])[..|before|] == before;
    SignalsGrow(oc, s.adapter, event, clock);
    RunCouples(oc, bc, before);
    var w := O.Step(oc, s.adapter, event, clock);
    var stepped := s.(moments := s.moments + [E.Moment(event, clock)], adapter := w);
    var added := New(s.adapter.h.signals, w.h.signals);
    DeliverOrdered(bc, stepped, added, clock.steady);
    DeliverCouples(bc, stepped, s.adapter.h.signals, added);
    assert E.Ordered(stepped.moments) by {
      assert forall i | 0 <= i < |s.moments| :: stepped.moments[i] in s.moments;
    }
  }

  /** A bound on the adapter's clock. */
  function LatestRos(actions: seq<Action>): (ros: Time)
    ensures forall k | 0 <= k < |actions| && actions[k].Adapt? :: actions[k].clock.ros <= ros
  {
    if actions == [] then 0.0
    else
      var before, a := LatestRos(actions[..|actions| - 1]), actions[|actions| - 1];
      if a.Adapt? then Max(before, a.clock.ros) else before
  }

  // ---------- After a loss ----------

  /** A loss is heard of first as a denial. */
  ghost predicate LossHeardAsDenial(heard: seq<B.Event>) {
    forall m, n | 0 <= m < n < |heard| && heard[m].Lost? && FirstBeatAfter(heard, m, n) :: !heard[n].ready
  }

  ghost predicate FirstBeatAfter(heard: seq<B.Event>, m: int, n: int)
    requires 0 <= m < n < |heard|
  {
    heard[n].Heartbeat? && forall i | m < i < n :: !heard[i].Heartbeat?
  }

  lemma {:induction false} LastSignalLost(heard: seq<B.Event>, m: nat)
    requires m < |heard| && heard[m].Lost? && forall i | m < i < |heard| :: !heard[i].Heartbeat?
    ensures Signals(heard) != [] && E.Last(Signals(heard)).Lost?
    decreases |heard|
  {
    if m < |heard| - 1 {
      LastSignalLost(heard[..|heard| - 1], m);
    }
  }

  lemma {:induction false} DenialsCarryOver(heard: seq<B.Event>)
    requires E.LossesAreHeard(Signals(heard))
    ensures LossHeardAsDenial(heard)
  {
    if heard != [] {
      var before, x := heard[..|heard| - 1], heard[|heard| - 1];
      var all, rest := Signals(heard), Signals(before);
      assert rest <= all;
      forall i | 0 <= i < |rest| - 1 && rest[i].Lost? && rest[i + 1].Said? ensures !rest[i + 1].ready {
        assert all[i] == rest[i] && all[i + 1] == rest[i + 1];
      }
      DenialsCarryOver(before);
      forall m, n | 0 <= m < n < |heard| && heard[m].Lost? && FirstBeatAfter(heard, m, n) ensures !heard[n].ready {
        if n < |heard| - 1 {
          assert FirstBeatAfter(before, m, n);
        } else {
          LastSignalLost(before, m);
          assert all[|rest| - 1] == rest[|rest| - 1] && all[|rest|] == O.Said(x.ready, x.at);
        }
      }
    }
  }

  /** Whatever moves the robot came after every loss the bridge has heard about: for each of them, the first message
      after it denied readiness, a later message claimed it again, and the command arrived later still. */
  ghost predicate Recovered(bc: B.Config, heard: seq<B.Event>, now: Time, v: Velocity) {
    exists i: nat, l: nat, j: nat ::
      B.AuthorisedBy(bc, heard, i, l, j, now, v)
      && forall m, n | 0 <= m < n < |heard| && heard[m].Lost? && FirstBeatAfter(heard, m, n) ::
           !heard[n].ready && n < i < j && heard[i].ready
  }

  lemma MotionOnlyAfterRecovery(oc: O.Config, bc: B.Config, actions: seq<Action>, now: Time)
    requires oc.Valid() && bc.Valid() && bc.requireLocalization
    requires InOrder(actions) && forall k | 0 <= k < |actions| :: SteadyTime(actions[k]) <= now
    ensures var s := Run(oc, bc, actions); var v := B.Output(bc, s.bridge, now);
            v != STOPPED ==> Recovered(bc, s.heard, now, v)
  {
    var s := Run(oc, bc, actions);
    RunCouples(oc, bc, actions);
    RunOrdered(oc, bc, actions, LatestRos(actions), now);
    E.FirstStatusAfterLossIsNotReady(oc, s.moments);
    DenialsCarryOver(s.heard);
    B.MotionIsAuthorised(bc, s.heard, now);
    var v := B.Output(bc, s.bridge, now);
    if v != STOPPED {
      var i: nat, l: nat, j: nat :| B.AuthorisedBy(bc, s.heard, i, l, j, now, v);
      forall m, n | 0 <= m < n < |s.heard| && s.heard[m].Lost? && FirstBeatAfter(s.heard, m, n)
        ensures !s.heard[n].ready && n < i < j && s.heard[i].ready
      {
      }
    }
  }

  /** With localization required the composed system moves the robot with `v` exactly when a command authorises `v` that
      came after the recovery from every loss heard of. */
  lemma MotionIffRecovered(oc: O.Config, bc: B.Config, actions: seq<Action>, now: Time, v: Velocity)
    requires oc.Valid() && bc.Valid() && bc.requireLocalization && v != STOPPED
    requires InOrder(actions) && forall k | 0 <= k < |actions| :: SteadyTime(actions[k]) <= now
    ensures var s := Run(oc, bc, actions);
            B.Output(bc, s.bridge, now) == v <==> Recovered(bc, s.heard, now, v)
  {
    var s := Run(oc, bc, actions);
    RunCouples(oc, bc, actions);
    RunOrdered(oc, bc, actions, LatestRos(actions), now);
    MotionOnlyAfterRecovery(oc, bc, actions, now);
    B.MotionIffAuthorised(bc, s.heard, now, v);
    hide Run, B.Run, B.AuthorisedBy, B.Output;
  }
}
