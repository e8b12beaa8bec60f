/** The Odin localization adapter: what it remembers, what it publishes, and when it calls itself ready. */
module OdinAdapter {
  import opened Basics

  /** A pose is used only through the distance and angle to another one. */
  type PoseId = int

  /** `distance` and `angle` say how far two poses are apart. */
  datatype Config = Config(
    localTimeout: real,
    correctionTimeout: real,
    futureTolerance: real,
    maxStep: real,
    maxAngle: real,
    capacity: nat,
    aligned: bool,
    distance: (PoseId, PoseId) -> real,
    angle: (PoseId, PoseId) -> real)
  {
    predicate Valid() {
      && localTimeout > 0.0 && correctionTimeout > 0.0 && futureTolerance > 0.0
      && maxStep > 0.0 && maxAngle > 0.0 && capacity >= 1
    }
  }

  /** One reading of the node's two clocks. */
  datatype Clock = Clock(ros: Time, steady: Time)

  datatype Sample = Sample(stamp: Time, received: Time, pose: PoseId)

  datatype Reason =
    | Ready
    | WaitingForLocalOdometry
    | LocalTimeRegression
    | InvalidLocalInput
    | LocalOdometryNotAdvancing
    | LocalOdometryDiscontinuity
    | InvalidTransformedLocalPose
    | WaitingForTimestampedRobotTf
    | MapAlignmentUnconfirmed
    | WaitingForFreshRelocalization
    | WaitingForVelocityBaseline

  datatype AdapterState = AdapterState(
    pending: seq<Sample>,
    reason: Reason,
    previousStamp: Option<Time>,
    previousPose: PoseId,
    localAcceptedAt: Option<Time>,
    differentiated: bool,
    correction: PoseId,
    correctionStamp: Option<Time>,
    correctionReceivedAt: Option<Time>,
    publishedCorrectionStamp: Option<Time>,
    lastLocalStamp: Option<Time>,
    lastCorrectionStamp: Option<Time>,
    recoveryAfter: Option<Time>)

  const START := AdapterState([], WaitingForLocalOdometry, None, 0, None, false, 0, None, None, None, None, None, None)

  // ---------- What the robot's transform tree answers ----------

  datatype Lookup = Missing | Unusable | Based(pose: PoseId)

  datatype RobotTf = RobotTf(
    connected: bool,
    latest: Option<Time>,
    covers: Time -> bool,
    mount: Sample -> Lookup)

  // ---------- What happened, for stating what a run does ----------

  datatype Signal = Lost | Said(ready: bool, at: Time)

  datatype Accepted = Accepted(stamp: Time, at: Time, pose: PoseId)

  /** What bears on whether there is a correction: one was accepted, a malformed one came, local input was lost. */
  datatype Note = Took(stamp: Time, at: Time) | Malformed | LostLocal

  datatype History = History(
    boundaries: seq<Time>,     // when local input was invalidated
    corrections: seq<Time>,    // stamps of the corrections accepted
    notes: seq<Note>,          // corrections accepted, malformed ones and invalidations in order
    mapToOdom: seq<Time>,      // stamps of the map transforms published
    epoch: seq<Accepted>,      // local samples accepted since the last invalidation
    odometry: seq<Time>,       // stamps of the odometry published since the last time regression
    signals: seq<Signal>)      // invalidations and readiness messages in order

  const NOTHING := History([], [], [], [], [], [], [])

  datatype World = World(s: AdapterState, h: History)

  const BEGINNING := World(START, NOTHING)

  // ---------- Steps ----------

  predicate Fresh(c: Config, stamp: Time, timeout: real, now: Time) {
    now - stamp >= -c.futureTolerance && now - stamp <= timeout
  }

  predicate After(mark: Option<Time>, stamp: Time) {
    mark.None? || stamp > mark.value
  }

  function Later(mark: Option<Time>, stamp: Time): Option<Time> {
    if After(mark, stamp) then Some(stamp) else mark
  }

  function Invalidate(w: World, reason: Reason, now: Time): World {
    World(
      w.s.(recoveryAfter := Later(w.s.recoveryAfter, now), pending := [], previousStamp := None,
           localAcceptedAt := None, correctionStamp := None, correctionReceivedAt := None,
           differentiated := false, reason := reason),
      w.h.(boundaries := w.h.boundaries + [now], notes := w.h.notes + [LostLocal], epoch := [],
           signals := w.h.signals + [Lost]))
  }

  /** One transform of a native correction message: `stamp` is absent when it is not a time, `pose` when it is not a
      rigid motion. */
  datatype CorrectionPacket = CorrectionPacket(expectedFrames: bool, stamp: Option<Time>, pose: Option<PoseId>)

  function Take(w: World, pose: PoseId, stamp: Time, at: Time): World {
    World(
      w.s.(correction := pose, correctionStamp := Some(stamp), correctionReceivedAt := Some(at)),
      w.h.(corrections := w.h.corrections + [stamp], notes := w.h.notes + [Took(stamp, at)]))
  }

  function Spoil(w: World): World {
    World(w.s.(correctionStamp := None), w.h.(notes := w.h.notes + [Malformed]))
  }

  function ReceiveCorrection(c: Config, w: World, packet: CorrectionPacket, clock: Clock): World {
    if !packet.expectedFrames then w
    else if packet.stamp.None? then Spoil(w)
    else
      var stamp := packet.stamp.value;
      if !Fresh(c, stamp, c.correctionTimeout, clock.ros) || !After(w.s.lastCorrectionStamp, stamp) then w
      else if packet.pose.None? then Spoil(w)
      else
        var seen := w.(s := w.s.(lastCorrectionStamp := Some(stamp)));
        if !After(w.s.recoveryAfter, stamp) then seen
        else Take(seen, packet.pose.value, stamp, clock.steady)
  }

  datatype OdometryPacket = OdometryPacket(expectedFrames: bool, stamp: Option<Time>, pose: Option<PoseId>)

  function Bounded(pending: seq<Sample>, capacity: nat): seq<Sample> {
    if |pending| > capacity then pending[|pending| - capacity..] else pending
  }

  function ReceiveOdometry(c: Config, w: World, packet: OdometryPacket, clock: Clock): World {
    if packet.stamp.None? || !Fresh(c, packet.stamp.value, c.localTimeout, clock.ros)
       || !packet.expectedFrames || packet.pose.None?
    then Invalidate(w, InvalidLocalInput, clock.ros)
    else
      var stamp := packet.stamp.value;
      if w.s.lastLocalStamp == Some(stamp) then w
      else
        var seen := w.(s := w.s.(lastLocalStamp := Some(stamp)));
        if !After(w.s.lastLocalStamp, stamp) then
          var lost := Invalidate(seen, LocalTimeRegression, clock.ros);
          lost.(h := lost.h.(odometry := []))
        else
          seen.(s := seen.s.(
            pending := Bounded(seen.s.pending + [Sample(stamp, clock.steady, packet.pose.value)], c.capacity)))
  }

  predicate Expired(c: Config, p: Sample, clock: Clock) {
    !Fresh(c, p.stamp, c.localTimeout, clock.ros) || clock.steady - p.received > c.localTimeout
  }

  function DropExpired(c: Config, pending: seq<Sample>, clock: Clock): seq<Sample> {
    if pending != [] && Expired(c, pending[0], clock) then DropExpired(c, pending[1..], clock) else pending
  }

  /** The baseline has gone stale. */
  predicate Stalled(c: Config, s: AdapterState, clock: Clock) {
    && s.previousStamp.Some?
    && (!Fresh(c, s.previousStamp.value, c.localTimeout, clock.ros)
        || s.localAcceptedAt.None? || clock.steady - s.localAcceptedAt.value > c.localTimeout)
  }

  predicate Usable(tf: RobotTf, p: Sample) {
    (tf.latest.None? || p.stamp <= tf.latest.value) && tf.covers(p.stamp) && tf.mount(p) != Missing
  }

  /** One more than the index of the newest usable sample among the first `n`; 0 when there is none. */
  function Newest(tf: RobotTf, pending: seq<Sample>, n: nat): (index: nat)
    requires n <= |pending|
    ensures index <= n
    ensures index > 0 ==> Usable(tf, pending[index - 1])
    ensures forall i | index <= i < n :: !Usable(tf, pending[i])
  {
    if n == 0 || Usable(tf, pending[n - 1]) then n else Newest(tf, pending, n - 1)
  }

  function Say(w: World, reason: Reason, clock: Clock): World {
    w.(h := w.h.(signals := w.h.signals + [Said(reason == Ready, clock.steady)]))
  }

  function Accept(w: World, index: nat, pose: PoseId, clock: Clock): World
    requires 0 < index <= |w.s.pending|
  {
    var stamp := w.s.pending[index - 1].stamp;
    World(
      w.s.(differentiated := w.s.previousStamp.Some?, previousPose := pose, previousStamp := Some(stamp),
           localAcceptedAt := Some(clock.steady), pending := w.s.pending[index..]),
      w.h.(epoch := w.h.epoch + [Accepted(stamp, clock.steady, pose)], odometry := w.h.odometry + [stamp]))
  }

  predicate Jumps(c: Config, s: AdapterState, stamp: Time, pose: PoseId) {
    && s.previousStamp.Some?
    && (stamp - s.previousStamp.value <= 0.0 || stamp - s.previousStamp.value > c.localTimeout
        || c.distance(s.previousPose, pose) > c.maxStep || c.angle(s.previousPose, pose) > c.maxAngle)
  }

  /** The housekeeping that opens a timer tick. */
  function Sweep(c: Config, w: World, clock: Clock): World {
    var checked := if Stalled(c, w.s, clock) then Invalidate(w, LocalOdometryNotAdvancing, clock.ros) else w;
    checked.(s := checked.s.(pending := DropExpired(c, checked.s.pending, clock)))
  }

  predicate CorrectionUsable(c: Config, s: AdapterState, clock: Clock) {
    && s.correctionStamp.Some? && Fresh(c, s.correctionStamp.value, c.correctionTimeout, clock.ros)
    && s.correctionReceivedAt.Some? && clock.steady - s.correctionReceivedAt.value <= c.correctionTimeout
  }

  /** The readiness message that closes a timer tick, and the map transform that goes with readiness. */
  function Report(c: Config, w: World, clock: Clock): World {
    var s := w.s;
    if s.previousStamp.None? then
      Say(w, if s.pending == [] then s.reason else WaitingForTimestampedRobotTf, clock)
    else if !c.aligned then Say(w, MapAlignmentUnconfirmed, clock)
    else if !CorrectionUsable(c, s, clock) then Say(w, WaitingForFreshRelocalization, clock)
    else if !s.differentiated then Say(w, WaitingForVelocityBaseline, clock)
    else if s.publishedCorrectionStamp != s.correctionStamp then
      Say(World(s.(publishedCorrectionStamp := s.correctionStamp),
                w.h.(mapToOdom := w.h.mapToOdom + [s.correctionStamp.value])), Ready, clock)
    else Say(w, Ready, clock)
  }

  /** `process`. */
  function Process(c: Config, w: World, tf: RobotTf, clock: Clock): World {
    var swept := Sweep(c, w, clock);
    var index := if tf.connected then Newest(tf, swept.s.pending, |swept.s.pending|) else 0;
    if index == 0 then Report(c, swept, clock)
    else
      var candidate := swept.s.pending[index - 1];
      match tf.mount(candidate)
      case Missing => Report(c, swept, clock)
      case Unusable => Report(c, Invalidate(swept, InvalidTransformedLocalPose, clock.ros), clock)
      case Based(pose) =>
        if Jumps(c, swept.s, candidate.stamp, pose) then
          Say(Invalidate(swept, LocalOdometryDiscontinuity, clock.ros), LocalOdometryDiscontinuity, clock)
        else Report(c, Accept(swept, index, pose, clock), clock)
  }

  datatype Event =
    | CorrectionIn(correction: CorrectionPacket)
    | OdometryIn(odometry: OdometryPacket)
    | Tick(tf: RobotTf)

  function Step(c: Config, w: World, e: Event, clock: Clock): World {
    match e
    case CorrectionIn(packet) => ReceiveCorrection(c, w, packet, clock)
    case OdometryIn(packet) => ReceiveOdometry(c, w, packet, clock)
    case Tick(tf) => Process(c, w, tf, clock)
  }

  // ---------- The node ----------

  class Adapter {
    const c: Config
    var pending: seq<Sample>
    var reason: Reason
    var previousStamp: Option<Time>
    var previousPose: PoseId
    var localAcceptedAt: Option<Time>
    var differentiated: bool
    var correction: PoseId
    var correctionStamp: Option<Time>
    var correctionReceivedAt: Option<Time>
    var publishedCorrectionStamp: Option<Time>
    var lastLocalStamp: Option<Time>
    var lastCorrectionStamp: Option<Time>
    var recoveryAfter: Option<Time>
    ghost var history: History

    constructor (c: Config)
      ensures this.c == c && Now() == BEGINNING
    {
      this.c := c;
      pending, reason, differentiated := [], WaitingForLocalOdometry, false;
      previousStamp, previousPose, localAcceptedAt := None, 0, None;
      correction, correctionStamp, correctionReceivedAt, publishedCorrectionStamp := 0, None, None, None;
      lastLocalStamp, lastCorrectionStamp, recoveryAfter := None, None, None;
      history := NOTHING;
    }

    ghost function Now(): World
      reads this
    {
      World(
        AdapterState(pending, reason, previousStamp, previousPose, localAcceptedAt, differentiated, correction,
                     correctionStamp, correctionReceivedAt, publishedCorrectionStamp, lastLocalStamp,
                     lastCorrectionStamp, recoveryAfter),
        history)
    }

    method ForgetLocal(why: Reason)
      modifies this`pending, this`reason, this`differentiated, this`previousStamp, this`localAcceptedAt,
               this`correctionStamp, this`correctionReceivedAt
      ensures pending == [] && reason == why && !differentiated && previousStamp == None && localAcceptedAt == None
      ensures correctionStamp == None && correctionReceivedAt == None
    {
      pending, reason, differentiated := [], why, false;
      previousStamp, localAcceptedAt, correctionStamp, correctionReceivedAt := None, None, None, None;
    }

    method InvalidateLocal(why: Reason, boundary: Time)
      modifies this
      ensures Now() == Invalidate(old(Now()), why, boundary)
    {
      // The watermarks stay: an old correction must not become acceptable again.
      if recoveryAfter.None? || boundary > recoveryAfter.value {
        recoveryAfter := Some(boundary);
      }
      history := history.(boundaries := history.boundaries + [boundary], notes := history.notes + [LostLocal],
                          epoch := [], signals := history.signals + [Lost]);
      ForgetLocal(why);
    }

    method OnCorrection(packet: CorrectionPacket, clock: Clock)
      modifies this
      ensures Now() == ReceiveCorrection(c, old(Now()), packet, clock)
    {
      if !packet.expectedFrames {
        return;
      }
      if packet.stamp.None? {
        correctionStamp := None;
        history := history.(notes := history.notes + [Malformed]);
        return;
      }
      var stamp := packet.stamp.value;
      if !Fresh(c, stamp, c.correctionTimeout, clock.ros)
         || (lastCorrectionStamp.Some? && stamp <= lastCorrectionStamp.value) {
        return;
      }
      if packet.pose.None? {
        correctionStamp := None;
        history := history.(notes := history.notes + [Malformed]);
        return;
      }
      lastCorrectionStamp := Some(stamp);
      if recoveryAfter.Some? && stamp <= recoveryAfter.value {
        return;
      }
      correction := packet.pose.value;
      correctionStamp := Some(stamp);
      correctionReceivedAt := Some(clock.steady);
      history := history.(corrections := history.corrections + [stamp],
                          notes := history.notes + [Took(stamp, clock.steady)]);
    }

    method OnOdometry(packet: OdometryPacket, clock: Clock)
      modifies this
      ensures Now() == ReceiveOdometry(c, old(Now()), packet, clock)
    {
      if packet.stamp.None? || !Fresh(c, packet.stamp.value, c.localTimeout, clock.ros)
         || !packet.expectedFrames || packet.pose.None? {
        InvalidateLocal(InvalidLocalInput, clock.ros);
        return;
      }
      var stamp := packet.stamp.value;
      if lastLocalStamp.Some? && stamp == lastLocalStamp.value {
        return;
      }
      if lastLocalStamp.Some? && stamp < lastLocalStamp.value {
        lastLocalStamp := Some(stamp);
        InvalidateLocal(LocalTimeRegression, clock.ros);
        history := history.(odometry := []);
        return;
      }
      lastLocalStamp := Some(stamp);
      pending := pending + [Sample(stamp, clock.steady, packet.pose.value)];
      ghost var queued := pending;
      while |pending| > c.capacity
        invariant |pending| <= |queued| && pending == queued[|queued| - |pending|..]
        invariant |queued| > c.capacity ==> |pending| >= c.capacity
        invariant |queued| <= c.capacity ==> pending == queued
        invariant Now() == old(Now()).(s := old(Now()).s.(lastLocalStamp := Some(stamp), pending := pending))
      {
        pending := pending[1..];
      }
    }

    method ExpirePending(clock: Clock)
      modifies this`pending
      ensures pending == DropExpired(c, old(pending), clock)
    {
      while pending != [] && Expired(c, pending[0], clock)
        invariant DropExpired(c, pending, clock) == DropExpired(c, old(pending), clock)
        decreases |pending|
      {
        pending := pending[1..];
      }
    }

    method FindNewest(tf: RobotTf) returns (index: nat)
      ensures index == if tf.connected then Newest(tf, pending, |pending|) else 0
    {
      index := 0;
      if !tf.connected {
        return;
      }
      index := |pending|;
      while index > 0 && !Usable(tf, pending[index - 1])
        invariant index <= |pending|
        invariant Newest(tf, pending, index) == Newest(tf, pending, |pending|)
      {
        index := index - 1;
      }
    }

    method Publish(why: Reason, clock: Clock)
      modifies this`history
      ensures Now() == Say(old(Now()), why, clock)
    {
      history := history.(signals := history.signals + [Said(why == Ready, clock.steady)]);
    }

    method PublishStatus(clock: Clock)
      modifies this`history, this`publishedCorrectionStamp
      ensures Now() == Report(c, old(Now()), clock)
    {
      if previousStamp.None? {
        Publish(if pending == [] then reason else WaitingForTimestampedRobotTf, clock);
      } else if !c.aligned {
        Publish(MapAlignmentUnconfirmed, clock);
      } else if correctionStamp.None? || !Fresh(c, correctionStamp.value, c.correctionTimeout, clock.ros)
                || correctionReceivedAt.None?
                || clock.steady - correctionReceivedAt.value > c.correctionTimeout {
        Publish(WaitingForFreshRelocalization, clock);
      } else if !differentiated {
        Publish(WaitingForVelocityBaseline, clock);
      } else {
        if publishedCorrectionStamp.None? || publishedCorrectionStamp.value != correctionStamp.value {
          history := history.(mapToOdom := history.mapToOdom + [correctionStamp.value]);
          publishedCorrectionStamp := correctionStamp;
        }
        Publish(Ready, clock);
      }
    }

    method SweepPending(clock: Clock)
      modifies this
      ensures Now() == Sweep(c, old(Now()), clock)
    {
      if previousStamp.Some?
         && (!Fresh(c, previousStamp.value, c.localTimeout, clock.ros)
             || localAcceptedAt.None? || clock.steady - localAcceptedAt.value > c.localTimeout) {
        InvalidateLocal(LocalOdometryNotAdvancing, clock.ros);
      }
      ExpirePending(clock);
    }

    method AcceptSample(index: nat, pose: PoseId, clock: Clock)
      requires 0 < index <= |pending|
      modifies this
      ensures Now() == Accept(old(Now()), index, pose, clock)
    {
      var stamp := pending[index - 1].stamp;
      differentiated := previousStamp.Some?;
      previousPose := pose;
      previousStamp := Some(stamp);
      localAcceptedAt := Some(clock.steady);
      pending := pending[index..];
      history := history.(epoch := history.epoch + [Accepted(stamp, clock.steady, pose)],
                          odometry := history.odometry + [stamp]);
    }

    method OnTick(tf: RobotTf, clock: Clock)
      modifies this
      ensures Now() == Process(c, old(Now()), tf, clock)
    {
      hide DropExpired, Sweep, Accept, Report, Invalidate, Say;
      SweepPending(clock);
      var index := FindNewest(tf);
      if index > 0 {
        var candidate := pending[index - 1];
        var mount := tf.mount(candidate);
        if mount.Unusable? {
          InvalidateLocal(InvalidTransformedLocalPose, clock.ros);
        } else {
          if previousStamp.Some? {
            var dt := candidate.stamp - previousStamp.value;
            if dt <= 0.0 || dt > c.localTimeout || c.distance(previousPose, mount.pose) > c.maxStep
               || c.angle(previousPose, mount.pose) > c.maxAngle {
              InvalidateLocal(LocalOdometryDiscontinuity, clock.ros);
              Publish(LocalOdometryDiscontinuity, clock);
              return;
            }
          }
          AcceptSample(index, mount.pose, clock);
        }
      }
      PublishStatus(clock);
    }
  }
}
