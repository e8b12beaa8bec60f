/** What every run of the Odin adapter keeps: ordered queues, increasing stamps, and readiness only after fresh
    evidence from the current epoch. */
module OdinEpochs {
  import opened Basics
  import opened OdinAdapter

  datatype Moment = Moment(event: Event, clock: Clock)

  ghost predicate Ordered(run: seq<Moment>) {
    forall i, j | 0 <= i < j < |run| ::
      run[i].clock.ros <= run[j].clock.ros && run[i].clock.steady <= run[j].clock.steady
  }

  ghost function RunOf(c: Config, run: seq<Moment>): World {
    if run == [] then BEGINNING
    else Step(c, RunOf(c, run[..|run| - 1]), run[|run| - 1].event, run[|run| - 1].clock)
  }

  ghost predicate Increasing(s: seq<Time>) {
    forall i, j | 0 <= i < j < |s| :: s[i] < s[j]
  }

  function Last<T>(s: seq<T>): T
    requires s != []
  {
    s[|s| - 1]
  }

  // ---------- The pending queue ----------

  ghost predicate QueueOrdered(pending: seq<Sample>) {
    && (forall i, j | 0 <= i < j < |pending| :: pending[i].stamp < pending[j].stamp)
    && (forall i, j | 0 <= i < j < |pending| :: pending[i].received <= pending[j].received)
  }

  /** Stamps in the queue increase, lie beyond everything published since the last time regression, and end at or
      before the newest stamp seen; the queue is bounded and holds nothing from the future. */
  ghost predicate QueueInv(c: Config, w: World, clock: Clock) {
    QueueShape(c, w, clock) && |w.s.pending| <= c.capacity
  }

  ghost predicate QueueShape(c: Config, w: World, clock: Clock) {
    && QueueOrdered(w.s.pending)
    && (forall p <- w.s.pending :: p.stamp <= clock.ros + c.futureTolerance && p.received <= clock.steady)
    && (forall p <- w.s.pending :: w.s.lastLocalStamp.Some? && p.stamp <= w.s.lastLocalStamp.value)
    && Increasing(w.h.odometry)
    && (w.h.odometry != [] ==>
          && w.s.lastLocalStamp.Some? && Last(w.h.odometry) <= w.s.lastLocalStamp.value
          && forall p <- w.s.pending :: p.stamp > Last(w.h.odometry))
    && (w.s.previousStamp.Some? ==> w.h.odometry != [] && w.s.previousStamp.value == Last(w.h.odometry))
  }

  lemma {:induction false} DropExpiredIsSuffix(c: Config, pending: seq<Sample>, clock: Clock) returns (k: nat)
    ensures k <= |pending| && DropExpired(c, pending, clock) == pending[k..]
    ensures forall i | 0 <= i < k :: Expired(c, pending[i], clock)
    ensures k < |pending| ==> !Expired(c, pending[k], clock)
  {
    if pending != [] && Expired(c, pending[0], clock) {
      var rest := DropExpiredIsSuffix(c, pending[1..], clock);
      k := rest + 1;
      assert pending[1..][rest..] == pending[k..];
      forall i | 0 <= i < k ensures Expired(c, pending[i], clock) {
        if i > 0 { assert pending[i] == pending[1..][i - 1]; }
      }
    } else {
      k := 0;
    }
  }

  /** A stamp is no older than the timeout and not from the future, up to the tolerance. */
  predicate Recent(c: Config, stamp: Time, timeout: real, now: Time) {
    now - timeout <= stamp <= now + c.futureTolerance
  }

  /** A queued sample still counts by its stamp and by its arrival. */
  predicate Lives(c: Config, p: Sample, clock: Clock) {
    Recent(c, p.stamp, c.localTimeout, clock.ros) && clock.steady <= p.received + c.localTimeout
  }

  /** The samples of a queue that still count, wherever they stand. */
  function Unexpired(c: Config, pending: seq<Sample>, clock: Clock): seq<Sample> {
    if pending == [] then []
    else (if Lives(c, pending[0], clock) then [pending[0]] else []) + Unexpired(c, pending[1..], clock)
  }

  lemma {:induction false} AllUnexpired(c: Config, pending: seq<Sample>, clock: Clock)
    requires forall p <- pending :: Lives(c, p, clock)
    ensures Unexpired(c, pending, clock) == pending
  {
    if pending != [] {
      AllUnexpired(c, pending[1..], clock);
    }
  }

  /** Dropping expired samples from the front only is the same as removing every expired sample. */
  lemma {:induction false} FrontExpiryIsFilter(c: Config, pending: seq<Sample>, clock: Clock)
    requires QueueOrdered(pending)
    requires forall p <- pending :: p.stamp <= clock.ros + c.futureTolerance
    ensures DropExpired(c, pending, clock) == Unexpired(c, pending, clock)
  {
    if pending != [] {
      if Expired(c, pending[0], clock) {
        FrontExpiryIsFilter(c, pending[1..], clock);
      } else {
        forall p <- pending ensures Lives(c, p, clock) {
          var i :| 0 <= i < |pending| && pending[i] == p;
          assert i > 0 ==> pending[0].stamp < pending[i].stamp && pending[0].received <= pending[i].received;
        }
        AllUnexpired(c, pending, clock);
      }
    }
  }

  lemma SuffixKeepsQueue(c: Config, w: World, clock: Clock, k: nat)
    requires QueueShape(c, w, clock) && k <= |w.s.pending|
    ensures QueueShape(c, w.(s := w.s.(pending := w.s.pending[k..])), clock)
  {
  }

  lemma SweepKeepsQueue(c: Config, w: World, clock: Clock)
    requires QueueInv(c, w, clock)
    ensures QueueInv(c, Sweep(c, w, clock), clock)
  {
    var checked := if Stalled(c, w.s, clock) then Invalidate(w, LocalOdometryNotAdvancing, clock.ros) else w;
    var k := DropExpiredIsSuffix(c, checked.s.pending, clock);
    SuffixKeepsQueue(c, checked, clock, k);
  }

  lemma AcceptKeepsQueue(c: Config, w: World, index: nat, pose: PoseId, clock: Clock)
    requires QueueInv(c, w, clock) && 0 < index <= |w.s.pending|
    ensures QueueInv(c, Accept(w, index, pose, clock), clock)
  {
    var stamp := w.s.pending[index - 1].stamp;
    assert w.s.pending[index - 1] in w.s.pending;
    SuffixKeepsQueue(c, w, clock, index);
    RestIsLater(w.s.pending, index);
    IncreasingExtends(w.h.odometry, stamp);
    hide Increasing, QueueOrdered;
  }

  lemma RestIsLater(pending: seq<Sample>, index: nat)
    requires QueueOrdered(pending) && 0 < index <= |pending|
    ensures forall p <- pending[index..] :: p.stamp > pending[index - 1].stamp
  {
  }

  lemma ReportKeepsQueue(c: Config, w: World, clock: Clock)
    requires QueueInv(c, w, clock)
    ensures QueueInv(c, Report(c, w, clock), clock)
  {
  }

  lemma EnqueueKeepsShape(c: Config, w: World, p: Sample, clock: Clock)
    requires QueueShape(c, w, clock) && After(w.s.lastLocalStamp, p.stamp)
    requires p.stamp <= clock.ros + c.futureTolerance && p.received == clock.steady
    ensures QueueShape(c, w.(s := w.s.(lastLocalStamp := Some(p.stamp), pending := w.s.pending + [p])), clock)
  {
    var queued := w.s.pending + [p];
    forall i, j | 0 <= i < j < |queued|
      ensures queued[i].stamp < queued[j].stamp && queued[i].received <= queued[j].received
    {
      if j == |w.s.pending| { assert w.s.pending[i] in w.s.pending; }
    }
  }

  /** A loss empties the queue; a time regression also starts the odometry stamps afresh. */
  lemma LossKeepsQueue(c: Config, w: World, reason: Reason, clock: Clock, stamp: Time)
    requires QueueInv(c, w, clock)
    ensures QueueInv(c, Invalidate(w, reason, clock.ros), clock)
    ensures var lost := Invalidate(w.(s := w.s.(lastLocalStamp := Some(stamp))), reason, clock.ros);
            QueueInv(c, lost.(h := lost.h.(odometry := [])), clock)
  {
  }

  lemma EnqueueKeepsQueue(c: Config, w: World, p: Sample, clock: Clock)
    requires QueueInv(c, w, clock) && After(w.s.lastLocalStamp, p.stamp)
    requires p.stamp <= clock.ros + c.futureTolerance && p.received == clock.steady
    ensures var pending := Bounded(w.s.pending + [p], c.capacity);
            QueueInv(c, w.(s := w.s.(lastLocalStamp := Some(p.stamp), pending := pending)), clock)
  {
    hide QueueShape;
    EnqueueKeepsShape(c, w, p, clock);
    var queued := w.(s := w.s.(lastLocalStamp := Some(p.stamp), pending := w.s.pending + [p]));
    if |queued.s.pending| > c.capacity {
      SuffixKeepsQueue(c, queued, clock, |queued.s.pending| - c.capacity);
    }
  }

  lemma OdometryKeepsQueue(c: Config, w: World, packet: OdometryPacket, clock: Clock)
    requires c.Valid() && QueueInv(c, w, clock)
    ensures QueueInv(c, ReceiveOdometry(c, w, packet, clock), clock)
  {
    hide QueueInv, Invalidate, Bounded;
    LossKeepsQueue(c, w, InvalidLocalInput, clock, 0.0);
    if packet.stamp.Some? && packet.pose.Some? && Fresh(c, packet.stamp.value, c.localTimeout, clock.ros) {
      if After(w.s.lastLocalStamp, packet.stamp.value) {
        EnqueueKeepsQueue(c, w, Sample(packet.stamp.value, clock.steady, packet.pose.value), clock);
      } else {
        LossKeepsQueue(c, w, LocalTimeRegression, clock, packet.stamp.value);
      }
    }
  }

  lemma CorrectionKeepsQueue(c: Config, w: World, packet: CorrectionPacket, clock: Clock)
    requires QueueInv(c, w, clock)
    ensures QueueInv(c, ReceiveCorrection(c, w, packet, clock), clock)
  {
    hide Fresh;
  }

  lemma LaterKeepsQueue(c: Config, w: World, before: Clock, clock: Clock)
    requires QueueInv(c, w, before) && before.ros <= clock.ros && before.steady <= clock.steady
    ensures QueueInv(c, w, clock)
  {
  }

  lemma ProcessKeepsQueue(c: Config, w: World, tf: RobotTf, clock: Clock)
    requires QueueInv(c, w, clock)
    ensures QueueInv(c, Process(c, w, tf, clock), clock)
  {
    hide Report, Sweep, Accept, Jumps;
    var swept := Sweep(c, w, clock);
    SweepKeepsQueue(c, w, clock);
    ReportKeepsQueue(c, swept, clock);
    ReportKeepsQueue(c, Invalidate(swept, InvalidTransformedLocalPose, clock.ros), clock);
    var index := if tf.connected then Newest(tf, swept.s.pending, |swept.s.pending|) else 0;
    if index > 0 {
      var mount := tf.mount(swept.s.pending[index - 1]);
      if mount.Based? {
        AcceptKeepsQueue(c, swept, index, mount.pose, clock);
        ReportKeepsQueue(c, Accept(swept, index, mount.pose, clock), clock);
      }
    }
  }

  /** The queue invariant holds throughout every run. */
  lemma {:induction false} QueueHolds(c: Config, run: seq<Moment>)
    requires c.Valid() && Ordered(run) && run != []
    ensures QueueInv(c, RunOf(c, run), Last(run).clock)
  {
    var before, m := run[..|run| - 1], Last(run);
    var w := RunOf(c, before);
    if before == [] {
      assert QueueInv(c, w, m.clock);
    } else {
      QueueHolds(c, before);
      LaterKeepsQueue(c, w, Last(before).clock, m.clock);
    }
    hide QueueInv, ReceiveCorrection, ReceiveOdometry, Process;
    match m.event
    case CorrectionIn(packet) => CorrectionKeepsQueue(c, w, packet, m.clock);
    case OdometryIn(packet) => OdometryKeepsQueue(c, w, packet, m.clock);
    case Tick(tf) => ProcessKeepsQueue(c, w, tf, m.clock);
  }

  lemma QueueBefore(c: Config, before: seq<Moment>, m: Moment)
    requires c.Valid() && Ordered(before + [m])
    ensures QueueInv(c, RunOf(c, before), m.clock)
  {
    if before != [] {
      var all := before + [m];
      assert all[|before| - 1] == Last(before) && all[|before|] == m;
      assert Ordered(before) by { assert forall i | 0 <= i < |before| :: all[i] == before[i]; }
      QueueHolds(c, before);
      LaterKeepsQueue(c, RunOf(c, before), Last(before).clock, m.clock);
    }
  }

  /** Odometry stamps strictly increase between time regressions, so the branch for a time step of zero or less is
      never taken: a sample waiting in the queue is newer than the baseline. */
  lemma TimeStepIsPositive(c: Config, run: seq<Moment>, p: Sample)
    requires c.Valid() && Ordered(run)
    requires var s := RunOf(c, run).s; p in s.pending && s.previousStamp.Some?
    ensures p.stamp - RunOf(c, run).s.previousStamp.value > 0.0
    ensures Increasing(RunOf(c, run).h.odometry)
  {
    QueueHolds(c, run);
  }

  // ---------- Stamps and evidence ----------

  /** There is a correction exactly when the last thing that bore on it was its acceptance. */
  ghost predicate NoteInv(w: World) {
    && (w.s.correctionStamp.Some? <==> w.h.notes != [] && Last(w.h.notes).Took?)
    && (w.s.correctionStamp.Some? ==>
          && w.s.correctionReceivedAt.Some?
          && Last(w.h.notes) == Took(w.s.correctionStamp.value, w.s.correctionReceivedAt.value))
  }

  ghost predicate CorrectionInv(w: World) {
    && (forall b <- w.h.boundaries :: w.s.recoveryAfter.Some? && b <= w.s.recoveryAfter.value)
    && Increasing(w.h.corrections)
    && (w.h.corrections != [] ==>
          w.s.lastCorrectionStamp.Some? && Last(w.h.corrections) <= w.s.lastCorrectionStamp.value)
    && (w.s.correctionStamp.Some? ==>
          && w.h.corrections != [] && w.s.correctionStamp.value == Last(w.h.corrections)
          && w.s.correctionReceivedAt.Some?
          && forall b <- w.h.boundaries :: b < w.s.correctionStamp.value)
    && NoteInv(w)
    && Increasing(w.h.mapToOdom)
    && (w.s.publishedCorrectionStamp.None? <==> w.h.mapToOdom == [])
    && (w.h.mapToOdom != [] ==>
          && w.s.publishedCorrectionStamp.value == Last(w.h.mapToOdom)
          && w.h.corrections != [] && Last(w.h.mapToOdom) <= Last(w.h.corrections))
  }

  ghost predicate EpochInv(w: World) {
    && (w.s.previousStamp.None? ==> w.h.epoch == [] && !w.s.differentiated)
    && (w.s.previousStamp.Some? ==>
          && w.h.epoch != [] && w.s.localAcceptedAt.Some?
          && Last(w.h.epoch) == Accepted(w.s.previousStamp.value, w.s.localAcceptedAt.value, w.s.previousPose)
          && (w.s.differentiated <==> |w.h.epoch| >= 2))
  }

  ghost predicate SignalInv(w: World) {
    && w.s.reason != Ready
    && (w.h.signals != [] && Last(w.h.signals).Lost? ==> w.s.previousStamp.None?)
    && LossesAreHeard(w.h.signals)
  }

  /** After a loss the next thing said is never that the adapter is ready. */
  ghost predicate LossesAreHeard(signals: seq<Signal>) {
    forall i | 0 <= i < |signals| - 1 :: signals[i].Lost? && signals[i + 1].Said? ==> !signals[i + 1].ready
  }

  ghost predicate Inv(w: World) {
    CorrectionInv(w) && EpochInv(w) && SignalInv(w)
  }

  lemma IncreasingExtends(s: seq<Time>, x: Time)
    requires Increasing(s) && (s != [] ==> Last(s) < x)
    ensures Increasing(s + [x])
  {
    forall i, j | 0 <= i < j < |s + [x]| ensures (s + [x])[i] < (s + [x])[j] {
      if j == |s| { assert i < |s| - 1 ==> s[i] < Last(s); }
    }
  }

  lemma HeardExtends(signals: seq<Signal>, x: Signal)
    requires LossesAreHeard(signals)
    requires signals != [] && Last(signals).Lost? && x.Said? ==> !x.ready
    ensures LossesAreHeard(signals + [x])
  {
    var extended := signals + [x];
    forall i | 0 <= i < |extended| - 1 && extended[i].Lost? && extended[i + 1].Said? ensures !extended[i + 1].ready {
      assert i + 1 < |signals| ==> extended[i + 1] == signals[i + 1];
    }
  }

  lemma InvalidateKeeps(w: World, reason: Reason, now: Time)
    requires Inv(w) && reason != Ready
    ensures Inv(Invalidate(w, reason, now)) && Unsettled(Invalidate(w, reason, now))
    ensures Invalidate(w, reason, now).h.epoch == []
  {
    HeardExtends(w.h.signals, Lost);
  }

  lemma SpoilKeeps(w: World)
    requires Inv(w)
    ensures Inv(Spoil(w))
  {
    hide Increasing, LossesAreHeard;
  }

  lemma SeenKeeps(w: World, stamp: Time)
    requires Inv(w) && After(w.s.lastCorrectionStamp, stamp)
    ensures Inv(w.(s := w.s.(lastCorrectionStamp := Some(stamp))))
  {
    hide Increasing, LossesAreHeard;
  }

  lemma TakeKeeps(w: World, pose: PoseId, stamp: Time, at: Time)
    requires Inv(w) && w.s.lastCorrectionStamp == Some(stamp) && After(w.s.recoveryAfter, stamp)
    requires w.h.corrections != [] ==> Last(w.h.corrections) < stamp
    ensures Inv(Take(w, pose, stamp, at))
  {
    IncreasingExtends(w.h.corrections, stamp);
    hide Increasing, LossesAreHeard;
  }

  lemma CorrectionKeeps(c: Config, w: World, packet: CorrectionPacket, clock: Clock)
    requires Inv(w)
    ensures Inv(ReceiveCorrection(c, w, packet, clock))
  {
    SpoilKeeps(w);
    if packet.stamp.Some? && After(w.s.lastCorrectionStamp, packet.stamp.value) {
      var stamp := packet.stamp.value;
      var seen := w.(s := w.s.(lastCorrectionStamp := Some(stamp)));
      SeenKeeps(w, stamp);
      assert w.h.corrections != [] ==> Last(w.h.corrections) < stamp;
      if packet.pose.Some? && After(w.s.recoveryAfter, stamp) {
        TakeKeeps(seen, packet.pose.value, stamp, clock.steady);
      }
    }
    hide Inv, Fresh, Take, Spoil;
  }

  lemma OdometryKeeps(c: Config, w: World, packet: OdometryPacket, clock: Clock)
    requires Inv(w)
    ensures Inv(ReceiveOdometry(c, w, packet, clock))
  {
    InvalidateKeeps(w, InvalidLocalInput, clock.ros);
    if packet.stamp.Some? {
      InvalidateKeeps(w.(s := w.s.(lastLocalStamp := Some(packet.stamp.value))), LocalTimeRegression, clock.ros);
    }
  }

  /** What readiness at `clock` rests on. */
  ghost predicate Evidence(c: Config, h: History, clock: Clock) {
    && c.aligned
    && h.notes != [] && Last(h.notes).Took?
    && Recent(c, Last(h.notes).stamp, c.correctionTimeout, clock.ros)
    && clock.steady - Last(h.notes).at <= c.correctionTimeout
    && |h.epoch| >= 2
    && Recent(c, Last(h.epoch).stamp, c.localTimeout, clock.ros)
    && clock.steady - Last(h.epoch).at <= c.localTimeout
  }

  /** The baseline is one this tick may still speak for. */
  ghost predicate Timely(c: Config, w: World, clock: Clock) {
    w.h.epoch != [] ==>
      Fresh(c, Last(w.h.epoch).stamp, c.localTimeout, clock.ros) && clock.steady - Last(w.h.epoch).at <= c.localTimeout
  }

  /** A loss that nothing has been said about is followed by at most one accepted sample. */
  ghost predicate Unsettled(w: World) {
    w.h.signals != [] && Last(w.h.signals).Lost? ==> !w.s.differentiated
  }

  /** What holds when the closing message of a tick is due. */
  ghost predicate Reportable(c: Config, w: World, clock: Clock) {
    && CorrectionInv(w) && EpochInv(w) && w.s.reason != Ready
    && LossesAreHeard(w.h.signals) && Unsettled(w) && Timely(c, w, clock)
  }

  /** What holds when it has been sent: readiness was claimed exactly on evidence. */
  ghost predicate Concluded(c: Config, w: World, clock: Clock) {
    && Inv(w)
    && w.h.signals != [] && Last(w.h.signals).Said?
    && (Last(w.h.signals).ready <==> Evidence(c, w.h, clock))
  }

  predicate ReadyNow(c: Config, s: AdapterState, clock: Clock) {
    s.previousStamp.Some? && c.aligned && CorrectionUsable(c, s, clock) && s.differentiated
  }

  /** What a report says, and what it publishes. */
  lemma ReportSays(c: Config, w: World, clock: Clock)
    requires w.s.reason != Ready
    ensures var after, ready := Report(c, w, clock), ReadyNow(c, w.s, clock);
            && var publishes := ready && w.s.publishedCorrectionStamp != w.s.correctionStamp;
            && after.s == (if publishes then w.s.(publishedCorrectionStamp := w.s.correctionStamp) else w.s)
            && after.h == w.h.(signals := w.h.signals + [Said(ready, clock.steady)],
                               mapToOdom := if publishes then w.h.mapToOdom + [w.s.correctionStamp.value]
                                            else w.h.mapToOdom)
  {
  }

  lemma ReadyIsEvidence(c: Config, w: World, clock: Clock)
    requires NoteInv(w) && EpochInv(w) && Timely(c, w, clock)
    ensures ReadyNow(c, w.s, clock) <==> Evidence(c, w.h, clock)
  {
  }

  lemma NotReadyWithoutBaseline(c: Config, w: World, clock: Clock)
    ensures ReadyNow(c, w.s, clock) ==> w.s.previousStamp.Some? && w.s.differentiated && w.s.correctionStamp.Some?
  {
  }

  lemma SameEvidence(c: Config, h: History, next: History, clock: Clock)
    requires next.notes == h.notes && next.epoch == h.epoch
    ensures Evidence(c, h, clock) <==> Evidence(c, next, clock)
  {
  }

  lemma PublishedKeeps(w: World, next: World)
    requires CorrectionInv(w) && w.s.correctionStamp.Some? && w.s.publishedCorrectionStamp != w.s.correctionStamp
    requires next.s == w.s.(publishedCorrectionStamp := w.s.correctionStamp)
    requires next.h == w.h.(signals := next.h.signals, mapToOdom := w.h.mapToOdom + [w.s.correctionStamp.value])
    ensures CorrectionInv(next)
  {
    IncreasingExtends(w.h.mapToOdom, w.s.correctionStamp.value);
    hide Increasing;
  }

  lemma ReportKeeps(c: Config, w: World, clock: Clock)
    requires Reportable(c, w, clock)
    ensures Concluded(c, Report(c, w, clock), clock)
  {
    hide Report, Increasing, CorrectionUsable, Fresh, LossesAreHeard, ReadyNow, Evidence, Timely;
    var next, said := Report(c, w, clock), Said(ReadyNow(c, w.s, clock), clock.steady);
    assert NoteInv(w);
    ReportSays(c, w, clock);
    ReadyIsEvidence(c, w, clock);
    NotReadyWithoutBaseline(c, w, clock);
    HeardExtends(w.h.signals, said);
    if said.ready && w.s.publishedCorrectionStamp != w.s.correctionStamp {
      PublishedKeeps(w, next);
    }
    SameEvidence(c, w.h, next.h, clock);
  }

  lemma AcceptKeeps(c: Config, w: World, index: nat, pose: PoseId, clock: Clock)
    requires Inv(w) && 0 < index <= |w.s.pending|
    requires !Expired(c, w.s.pending[index - 1], clock) && c.Valid()
    ensures Reportable(c, Accept(w, index, pose, clock), clock)
  {
  }

  lemma SweepKeeps(c: Config, w: World, clock: Clock)
    requires Inv(w)
    ensures Inv(Sweep(c, w, clock)) && Reportable(c, Sweep(c, w, clock), clock)
  {
    if Stalled(c, w.s, clock) { InvalidateKeeps(w, LocalOdometryNotAdvancing, clock.ros); }
  }

  lemma ProcessKeeps(c: Config, w: World, tf: RobotTf, clock: Clock)
    requires c.Valid() && Inv(w) && QueueInv(c, w, clock)
    ensures Concluded(c, Process(c, w, tf, clock), clock)
  {
    hide Report, Accept, Jumps, Sweep, Say, Invalidate, Inv, Reportable, Concluded, QueueInv, Expired, Usable;
    var swept := Sweep(c, w, clock);
    SweepKeeps(c, w, clock);
    ReportKeeps(c, swept, clock);
    var index := if tf.connected then Newest(tf, swept.s.pending, |swept.s.pending|) else 0;
    if index > 0 {
      var candidate := swept.s.pending[index - 1];
      match tf.mount(candidate)
      case Missing =>
      case Unusable =>
        LossIsReportable(c, swept, InvalidTransformedLocalPose, clock);
        ReportKeeps(c, Invalidate(swept, InvalidTransformedLocalPose, clock.ros), clock);
      case Based(pose) =>
        LossIsReportable(c, swept, LocalOdometryDiscontinuity, clock);
        SayKeeps(c, Invalidate(swept, LocalOdometryDiscontinuity, clock.ros), LocalOdometryDiscontinuity, clock);
        SurvivorsAreFresh(c, w, clock, index - 1);
        AcceptKeeps(c, swept, index, pose, clock);
        ReportKeeps(c, Accept(swept, index, pose, clock), clock);
    }
  }

  lemma LossIsReportable(c: Config, w: World, reason: Reason, clock: Clock)
    requires Inv(w) && reason != Ready
    ensures Inv(Invalidate(w, reason, clock.ros)) && Reportable(c, Invalidate(w, reason, clock.ros), clock)
    ensures Invalidate(w, reason, clock.ros).h.epoch == []
  {
    InvalidateKeeps(w, reason, clock.ros);
  }

  lemma SayKeeps(c: Config, w: World, reason: Reason, clock: Clock)
    requires Inv(w) && reason != Ready && w.h.epoch == []
    ensures Concluded(c, Say(w, reason, clock), clock)
  {
    HeardExtends(w.h.signals, Said(false, clock.steady));
  }

  /** Everything left in a swept queue is unexpired. */
  lemma SurvivorsAreFresh(c: Config, w: World, clock: Clock, i: nat)
    requires QueueInv(c, w, clock) && i < |Sweep(c, w, clock).s.pending|
    ensures !Expired(c, Sweep(c, w, clock).s.pending[i], clock)
  {
    var checked := if Stalled(c, w.s, clock) then Invalidate(w, LocalOdometryNotAdvancing, clock.ros) else w;
    FrontExpiryIsFilter(c, checked.s.pending, clock);
    UnexpiredAreUnexpired(c, checked.s.pending, clock);
    assert Sweep(c, w, clock).s.pending[i] in Unexpired(c, checked.s.pending, clock);
  }

  lemma {:induction false} UnexpiredAreUnexpired(c: Config, pending: seq<Sample>, clock: Clock)
    ensures forall p <- Unexpired(c, pending, clock) :: p in pending && !Expired(c, p, clock)
  {
    if pending != [] {
      UnexpiredAreUnexpired(c, pending[1..], clock);
    }
  }

  lemma {:induction false} InvHolds(c: Config, run: seq<Moment>)
    requires c.Valid() && Ordered(run)
    ensures Inv(RunOf(c, run))
  {
    if run != [] {
      var before, m := run[..|run| - 1], Last(run);
      InvHolds(c, before);
      match m.event
      case CorrectionIn(packet) => CorrectionKeeps(c, RunOf(c, before), packet, m.clock);
      case OdometryIn(packet) => OdometryKeeps(c, RunOf(c, before), packet, m.clock);
      case Tick(tf) =>
        QueueBefore(c, before, m);
        ProcessKeeps(c, RunOf(c, before), tf, m.clock);
    }
  }

  // ---------- The theorems ----------

  /** A tick says ready exactly when alignment is confirmed; the last thing that bore on the correction was the
      acceptance of one, still fresh by its stamp and by its receipt; and two local samples were accepted since the last
      invalidation, the latest of them still fresh. */
  lemma ReadyIffEvidence(c: Config, run: seq<Moment>)
    requires c.Valid() && Ordered(run) && run != [] && Last(run).event.Tick?
    ensures RunOf(c, run).h.signals != [] && Last(RunOf(c, run).h.signals).Said?
    ensures Last(RunOf(c, run).h.signals).ready <==> Evidence(c, RunOf(c, run).h, Last(run).clock)
  {
    hide Process, Evidence, Inv, QueueInv, Increasing;
    var before, m := run[..|run| - 1], Last(run);
    assert run == before + [m];
    InvHolds(c, before);
    QueueBefore(c, before, m);
    ProcessKeeps(c, RunOf(c, before), m.event.tf, m.clock);
  }

  /** Epoch safety: the correction readiness rests on is the latest accepted and stamped after every invalidation so
      far. */
  lemma ReadyRestsOnEvidence(c: Config, run: seq<Moment>)
    requires c.Valid() && Ordered(run) && run != [] && Last(run).event.Tick?
    ensures RunOf(c, run).h.signals != [] && Last(RunOf(c, run).h.signals).Said?
    ensures var h := RunOf(c, run).h;
            Last(h.signals).ready ==>
              && Evidence(c, h, Last(run).clock)
              && h.corrections != [] && Last(h.notes).stamp == Last(h.corrections)
              && forall b <- h.boundaries :: b < Last(h.corrections)
  {
    ReadyIffEvidence(c, run);
    InvHolds(c, run);
    hide RunOf, Increasing, EpochInv, SignalInv;
  }

  /** Accepted corrections and published map transforms carry strictly increasing stamps over the whole run. */
  lemma StampsIncrease(c: Config, run: seq<Moment>)
    requires c.Valid() && Ordered(run)
    ensures Increasing(RunOf(c, run).h.corrections) && Increasing(RunOf(c, run).h.mapToOdom)
  {
    InvHolds(c, run);
  }

  /** The first readiness message after any invalidation denies readiness. */
  lemma FirstStatusAfterLossIsNotReady(c: Config, run: seq<Moment>)
    requires c.Valid() && Ordered(run)
    ensures LossesAreHeard(RunOf(c, run).h.signals)
  {
    InvHolds(c, run);
  }
}
