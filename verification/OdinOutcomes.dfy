/** What each message and each tick of the Odin adapter leads to, in terms of what was received before. */
module OdinOutcomes {
  import opened Basics
  import opened OdinAdapter
  import opened OdinEpochs

  function With(run: seq<Moment>, event: Event, clock: Clock): seq<Moment> {
    run + [Moment(event, clock)]
  }

  lemma RunWith(c: Config, run: seq<Moment>, event: Event, clock: Clock)
    ensures RunOf(c, With(run, event, clock)) == Step(c, RunOf(c, run), event, clock)
  {
    assert With(run, event, clock)[..|run|] == run;
  }

  // ---------- An epoch is continuous ----------

  /** A sample follows an accepted one closely: in time, in distance and in angle. */
  ghost predicate Close(c: Config, a: Accepted, stamp: Time, pose: PoseId) {
    && a.stamp < stamp <= a.stamp + c.localTimeout
    && c.distance(a.pose, pose) <= c.maxStep && c.angle(a.pose, pose) <= c.maxAngle
  }

  ghost predicate Continuous(c: Config, epoch: seq<Accepted>) {
    forall i | 0 <= i < |epoch| - 1 :: Close(c, epoch[i], epoch[i + 1].stamp, epoch[i + 1].pose)
  }

  lemma JumpIff(c: Config, w: World, stamp: Time, pose: PoseId)
    requires EpochInv(w)
    ensures Jumps(c, w.s, stamp, pose) <==> w.h.epoch != [] && !Close(c, Last(w.h.epoch), stamp, pose)
  {
  }

  lemma AcceptContinues(c: Config, w: World, index: nat, pose: PoseId, clock: Clock)
    requires EpochInv(w) && Continuous(c, w.h.epoch) && 0 < index <= |w.s.pending|
    requires !Jumps(c, w.s, w.s.pending[index - 1].stamp, pose)
    ensures Continuous(c, Accept(w, index, pose, clock).h.epoch)
  {
    JumpIff(c, w, w.s.pending[index - 1].stamp, pose);
    hide Close, Jumps;
  }

  lemma ReportLeavesEpoch(c: Config, w: World, clock: Clock)
    ensures Report(c, w, clock).h.epoch == w.h.epoch
  {
  }

  lemma ProcessContinues(c: Config, w: World, tf: RobotTf, clock: Clock)
    requires Inv(w) && Continuous(c, w.h.epoch)
    ensures Continuous(c, Process(c, w, tf, clock).h.epoch)
  {
    var swept := Sweep(c, w, clock);
    SweepKeeps(c, w, clock);
    assert EpochInv(swept) && Continuous(c, swept.h.epoch);
    hide Continuous, Report, Jumps, EpochInv, Usable, DropExpired, Stalled, Inv, Sweep, Accept;
    ReportLeavesEpoch(c, swept, clock);
    ReportLeavesEpoch(c, Invalidate(swept, InvalidTransformedLocalPose, clock.ros), clock);
    var index := if tf.connected then Newest(tf, swept.s.pending, |swept.s.pending|) else 0;
    NothingIsContinuous(c);
    if index > 0 {
      var mount := tf.mount(swept.s.pending[index - 1]);
      if mount.Based? {
        ReportLeavesEpoch(c, Accept(swept, index, mount.pose, clock), clock);
        if !Jumps(c, swept.s, swept.s.pending[index - 1].stamp, mount.pose) {
          AcceptContinues(c, swept, index, mount.pose, clock);
        }
      }
    }
  }

  lemma NothingIsContinuous(c: Config)
    ensures Continuous(c, [])
  {
  }

  /** Within an epoch every accepted sample lies close to the one before it. */
  lemma {:induction false} EpochIsContinuous(c: Config, run: seq<Moment>)
    requires c.Valid() && Ordered(run)
    ensures Continuous(c, RunOf(c, run).h.epoch)
  {
    if run != [] {
      var before, m := run[..|run| - 1], Last(run);
      EpochIsContinuous(c, before);
      InvHolds(c, before);
      hide Continuous, Process, Inv, Fresh;
      NothingIsContinuous(c);
      if m.event.Tick? { ProcessContinues(c, RunOf(c, before), m.event.tf, m.clock); }
    }
  }

  // ---------- Ticks ----------

  /** The robot's transforms reach the sample. */
  ghost predicate Reached(tf: RobotTf, p: Sample) {
    && tf.connected && (tf.latest.Some? ==> p.stamp <= tf.latest.value) && tf.covers(p.stamp)
    && !tf.mount(p).Missing?
  }

  /** The newest sample of a queue that the robot's transforms reach. */
  ghost predicate IsNewestReached(tf: RobotTf, queue: seq<Sample>, k: nat) {
    k < |queue| && Reached(tf, queue[k]) && forall i | k < i < |queue| :: !Reached(tf, queue[i])
  }

  /** The last accepted sample of the epoch, if there is one, is recent by its stamp and by its acceptance. */
  ghost predicate BaselineHolds(c: Config, h: History, clock: Clock) {
    h.epoch != [] ==>
      && Recent(c, Last(h.epoch).stamp, c.localTimeout, clock.ros)
      && clock.steady <= Last(h.epoch).at + c.localTimeout
  }

  /** A tick and the runs it is about. */
  ghost predicate TickAfter(c: Config, run: seq<Moment>, tf: RobotTf, clock: Clock) {
    c.Valid() && Ordered(With(run, Tick(tf), clock))
  }

  lemma StalledIff(c: Config, w: World, clock: Clock)
    requires EpochInv(w)
    ensures Stalled(c, w.s, clock) <==> !BaselineHolds(c, w.h, clock)
  {
  }

  /** What a tick that finds its baseline in place starts from. */
  lemma TickStarts(c: Config, run: seq<Moment>, tf: RobotTf, clock: Clock)
    requires TickAfter(c, run, tf, clock) && BaselineHolds(c, RunOf(c, run).h, clock)
    ensures var w := RunOf(c, run);
            && Inv(w) && Sweep(c, w, clock) == w.(s := w.s.(pending := Unexpired(c, w.s.pending, clock)))
  {
    var w := RunOf(c, run);
    assert Ordered(run) by {
      assert forall i | 0 <= i < |run| :: With(run, Tick(tf), clock)[i] == run[i];
    }
    InvHolds(c, run);
    QueueBefore(c, run, Moment(Tick(tf), clock));
    FrontExpiryIsFilter(c, w.s.pending, clock);
    StalledIff(c, w, clock);
    hide RunOf, Stalled, Unexpired, DropExpired, CorrectionInv, SignalInv, EpochInv;
  }

  lemma NewestIs(tf: RobotTf, queue: seq<Sample>, k: nat)
    requires IsNewestReached(tf, queue, k)
    ensures tf.connected && Newest(tf, queue, |queue|) == k + 1
  {
  }

  /** The tick of a baseline that holds, by what it finds in reach. */
  lemma TickIs(c: Config, run: seq<Moment>, tf: RobotTf, clock: Clock, k: nat)
    requires TickAfter(c, run, tf, clock) && BaselineHolds(c, RunOf(c, run).h, clock)
    requires IsNewestReached(tf, Unexpired(c, RunOf(c, run).s.pending, clock), k)
    ensures var w, next := RunOf(c, run), RunOf(c, With(run, Tick(tf), clock));
            var swept := w.(s := w.s.(pending := Unexpired(c, w.s.pending, clock)));
            var sample := swept.s.pending[k];
            && Inv(swept) && tf.mount(sample) != Missing
            && (tf.mount(sample).Unusable? ==>
                 next == Report(c, Invalidate(swept, InvalidTransformedLocalPose, clock.ros), clock))
            && (tf.mount(sample).Based? ==>
                 var pose := tf.mount(sample).pose;
                 if w.h.epoch != [] && !Close(c, Last(w.h.epoch), sample.stamp, pose) then
                   next == Say(Invalidate(swept, LocalOdometryDiscontinuity, clock.ros), LocalOdometryDiscontinuity,
                               clock)
                 else next == Report(c, Accept(swept, k + 1, pose, clock), clock))
  {
    hide RunOf, Report, Jumps, Close, Sweep, Unexpired, Newest, Invalidate, Say, Accept, BaselineHolds, TickAfter;
    hide CorrectionInv, SignalInv, EpochInv;
    var w, queue := RunOf(c, run), Unexpired(c, RunOf(c, run).s.pending, clock);
    TickStarts(c, run, tf, clock);
    NewestIs(tf, queue, k);
    var swept := w.(s := w.s.(pending := queue));
    SameInv(w, swept);
    if tf.mount(queue[k]).Based? { JumpIff(c, swept, queue[k].stamp, tf.mount(queue[k]).pose); }
    RunWith(c, run, Tick(tf), clock);
  }

  lemma SameInv(w: World, next: World)
    requires Inv(w) && next == w.(s := w.s.(pending := next.s.pending))
    ensures Inv(next)
  {
    hide Increasing, LossesAreHeard;
  }

  /** What a report adds to the history. */
  ghost predicate Reported(before: History, after: History, clock: Clock) {
    && |after.signals| == |before.signals| + 1 && before.signals <= after.signals
    && Last(after.signals).Said? && Last(after.signals).at == clock.steady
    && after.(signals := before.signals, mapToOdom := before.mapToOdom) == before
  }

  lemma ReportReports(c: Config, w: World, clock: Clock)
    requires w.s.reason != Ready
    ensures var after := Report(c, w, clock);
            Reported(w.h, after.h, clock) && after.s.(publishedCorrectionStamp := w.s.publishedCorrectionStamp) == w.s
  {
    ReportSays(c, w, clock);
    hide Report, ReadyNow;
  }

  lemma ReportDenies(c: Config, w: World, clock: Clock)
    requires w.s.reason != Ready && w.s.previousStamp.None?
    ensures var after := Report(c, w, clock);
            after.s == w.s && after.h == w.h.(signals := w.h.signals + [Said(false, clock.steady)])
  {
  }

  /** A tick takes the newest sample in reach that still counts, if it is close to the one before, and keeps every newer
      one for later transforms. */
  lemma TickTakesNewestUsable(c: Config, run: seq<Moment>, tf: RobotTf, clock: Clock, k: nat)
    requires TickAfter(c, run, tf, clock) && BaselineHolds(c, RunOf(c, run).h, clock)
    requires var w := RunOf(c, run);
             var queue := Unexpired(c, w.s.pending, clock);
             && IsNewestReached(tf, queue, k) && tf.mount(queue[k]).Based?
             && (w.h.epoch != [] ==> Close(c, Last(w.h.epoch), queue[k].stamp, tf.mount(queue[k]).pose))
    ensures var w, next := RunOf(c, run), RunOf(c, With(run, Tick(tf), clock));
            var queue := Unexpired(c, w.s.pending, clock);
            var sample := queue[k];
            && next.s.pending == queue[k + 1..]
            && Reported(w.h.(epoch := w.h.epoch + [Accepted(sample.stamp, clock.steady, tf.mount(sample).pose)],
                             odometry := w.h.odometry + [sample.stamp]), next.h, clock)
  {
    hide RunOf, Report, Unexpired, Close, BaselineHolds, TickAfter, Inv, Reported, LostAt, Reached;
    var w := RunOf(c, run);
    TickIs(c, run, tf, clock, k);
    var swept := w.(s := w.s.(pending := Unexpired(c, w.s.pending, clock)));
    InvReason(swept);
    ReportReports(c, Accept(swept, k + 1, tf.mount(swept.s.pending[k]).pose, clock), clock);
  }

  /** A loss is heard of as such and then as a denial; nothing is published, and the epoch is over. */
  ghost predicate LostAt(before: History, after: History, clock: Clock) {
    after == before.(boundaries := before.boundaries + [clock.ros], notes := before.notes + [LostLocal], epoch := [],
                     signals := before.signals + [Lost, Said(false, clock.steady)])
  }

  lemma TwoMore(signals: seq<Signal>, a: Signal, b: Signal)
    ensures signals + [a] + [b] == signals + [a, b]
  {
  }

  lemma LossIs(c: Config, w: World, reason: Reason, clock: Clock)
    requires reason != Ready
    ensures var lost := Invalidate(w, reason, clock.ros);
            && LostAt(w.h, Report(c, lost, clock).h, clock) && Report(c, lost, clock).s.pending == []
            && LostAt(w.h, Say(lost, reason, clock).h, clock) && Say(lost, reason, clock).s.pending == []
  {
    ReportDenies(c, Invalidate(w, reason, clock.ros), clock);
    TwoMore(w.h.signals, Lost, Said(false, clock.steady));
    hide Report;
  }

  /** A jump is refused: if the newest sample in reach lies too far from the last accepted one, in distance, in angle or
      in time, the tick loses the epoch instead of publishing it. */
  lemma JumpIsRefused(c: Config, run: seq<Moment>, tf: RobotTf, clock: Clock, k: nat)
    requires TickAfter(c, run, tf, clock) && BaselineHolds(c, RunOf(c, run).h, clock)
    requires var w := RunOf(c, run);
             var queue := Unexpired(c, w.s.pending, clock);
             && w.h.epoch != [] && IsNewestReached(tf, queue, k) && tf.mount(queue[k]).Based?
             && var last, pose := Last(w.h.epoch), tf.mount(queue[k]).pose;
             (c.distance(last.pose, pose) > c.maxStep || c.angle(last.pose, pose) > c.maxAngle
              || queue[k].stamp > last.stamp + c.localTimeout)
    ensures var next := RunOf(c, With(run, Tick(tf), clock));
            LostAt(RunOf(c, run).h, next.h, clock) && next.s.pending == []
  {
    hide RunOf, Report, Unexpired, BaselineHolds, TickAfter, Inv, Reported, LostAt, Reached;
    hide Invalidate, Say;
    var w := RunOf(c, run);
    TickIs(c, run, tf, clock, k);
    LossIs(c, w.(s := w.s.(pending := Unexpired(c, w.s.pending, clock))), LocalOdometryDiscontinuity, clock);
  }

  /** So is a sample whose transform is of no use. */
  lemma UnusableMountIsLost(c: Config, run: seq<Moment>, tf: RobotTf, clock: Clock, k: nat)
    requires TickAfter(c, run, tf, clock) && BaselineHolds(c, RunOf(c, run).h, clock)
    requires var queue := Unexpired(c, RunOf(c, run).s.pending, clock);
             IsNewestReached(tf, queue, k) && tf.mount(queue[k]).Unusable?
    ensures var next := RunOf(c, With(run, Tick(tf), clock));
            LostAt(RunOf(c, run).h, next.h, clock) && next.s.pending == []
  {
    hide RunOf, Report, Unexpired, Close, BaselineHolds, TickAfter, Inv, Reported, LostAt, Reached;
    hide Invalidate, Say;
    var w := RunOf(c, run);
    TickIs(c, run, tf, clock, k);
    LossIs(c, w.(s := w.s.(pending := Unexpired(c, w.s.pending, clock))), InvalidTransformedLocalPose, clock);
  }

  lemma NoneReached(tf: RobotTf, queue: seq<Sample>)
    requires forall p <- queue :: !Reached(tf, p)
    ensures tf.connected ==> Newest(tf, queue, |queue|) == 0
  {
    var index := Newest(tf, queue, |queue|);
    if index > 0 { assert queue[index - 1] in queue; }
  }

  lemma InvReason(w: World)
    requires Inv(w)
    ensures w.s.reason != Ready
  {
  }

  /** With nothing in reach a tick only reports, and keeps every sample that still counts. */
  lemma NothingInReach(c: Config, run: seq<Moment>, tf: RobotTf, clock: Clock)
    requires TickAfter(c, run, tf, clock) && BaselineHolds(c, RunOf(c, run).h, clock)
    requires forall p <- Unexpired(c, RunOf(c, run).s.pending, clock) :: !Reached(tf, p)
    ensures var w, next := RunOf(c, run), RunOf(c, With(run, Tick(tf), clock));
            next.s.pending == Unexpired(c, w.s.pending, clock) && Reported(w.h, next.h, clock)
  {
    hide RunOf, Report, Unexpired, Close, BaselineHolds, TickAfter, Inv, Reported, LostAt, Reached;
    hide Sweep;
    var w, queue := RunOf(c, run), Unexpired(c, RunOf(c, run).s.pending, clock);
    TickStarts(c, run, tf, clock);
    NoneReached(tf, queue);
    InvReason(w);
    ReportReports(c, w.(s := w.s.(pending := queue)), clock);
    RunWith(c, run, Tick(tf), clock);
  }

  /** A baseline that no longer holds is lost, and every waiting sample with it. */
  lemma StaleBaselineIsLost(c: Config, run: seq<Moment>, tf: RobotTf, clock: Clock)
    requires TickAfter(c, run, tf, clock) && !BaselineHolds(c, RunOf(c, run).h, clock)
    ensures var next := RunOf(c, With(run, Tick(tf), clock));
            LostAt(RunOf(c, run).h, next.h, clock) && next.s.pending == []
  {
    var w := RunOf(c, run);
    assert Ordered(run) by {
      assert forall i | 0 <= i < |run| :: With(run, Tick(tf), clock)[i] == run[i];
    }
    InvHolds(c, run);
    StalledIff(c, w, clock);
    LossIs(c, w, LocalOdometryNotAdvancing, clock);
    RunWith(c, run, Tick(tf), clock);
    var lost := Invalidate(w, LocalOdometryNotAdvancing, clock.ros);
    assert lost.s.pending == [] && Sweep(c, w, clock) == lost;
    assert tf.connected ==> Newest(tf, [], 0) == 0;
    hide RunOf, Report, Jumps, Sweep, Newest, CorrectionInv, EpochInv, LostAt, Invalidate, Stalled, BaselineHolds;
  }

  // ---------- Corrections ----------

  /** A correction between the expected frames, well formed and recent when it came. */
  predicate GoodCorrection(c: Config, m: Moment) {
    && m.event.CorrectionIn?
    && var p := m.event.correction;
       && p.expectedFrames && p.stamp.Some? && p.pose.Some?
       && Recent(c, p.stamp.value, c.correctionTimeout, m.clock.ros)
  }

  /** The stamp is beyond that of every good correction so far. */
  ghost predicate NewestYet(c: Config, run: seq<Moment>, stamp: Time) {
    forall m <- run :: GoodCorrection(c, m) ==> m.event.correction.stamp.value < stamp
  }

  lemma {:induction false} WatermarkIs(c: Config, run: seq<Moment>, stamp: Time)
    ensures After(RunOf(c, run).s.lastCorrectionStamp, stamp) <==> NewestYet(c, run, stamp)
  {
    if run != [] {
      var before, m := run[..|run| - 1], Last(run);
      WatermarkIs(c, before, stamp);
      assert run == before + [m];
      assert NewestYet(c, run, stamp) <==>
             NewestYet(c, before, stamp) && (GoodCorrection(c, m) ==> m.event.correction.stamp.value < stamp);
      WatermarkStep(c, RunOf(c, before), m, stamp);
      hide GoodCorrection, Step, NewestYet;
    }
  }

  lemma WatermarkStep(c: Config, w: World, m: Moment, stamp: Time)
    ensures After(Step(c, w, m.event, m.clock).s.lastCorrectionStamp, stamp)
            <==> After(w.s.lastCorrectionStamp, stamp)
                 && (GoodCorrection(c, m) ==> m.event.correction.stamp.value < stamp)
  {
    if m.event.Tick? { ProcessKeepsWatermark(c, w, m.event.tf, m.clock); }
    hide Process;
  }

  lemma ProcessKeepsWatermark(c: Config, w: World, tf: RobotTf, clock: Clock)
    ensures Process(c, w, tf, clock).s.lastCorrectionStamp == w.s.lastCorrectionStamp
    ensures Process(c, w, tf, clock).s.lastLocalStamp == w.s.lastLocalStamp
  {
    hide DropExpired, Jumps, Usable, Stalled, CorrectionUsable;
  }

  /** The recovery mark is the latest invalidation. */
  ghost predicate RecoveryMarks(w: World) {
    && (w.s.recoveryAfter.None? ==> w.h.boundaries == [])
    && (w.s.recoveryAfter.Some? ==> w.s.recoveryAfter.value in w.h.boundaries)
    && forall b <- w.h.boundaries :: w.s.recoveryAfter.Some? && b <= w.s.recoveryAfter.value
  }

  lemma InvalidateMarks(w: World, reason: Reason, now: Time)
    requires RecoveryMarks(w)
    ensures RecoveryMarks(Invalidate(w, reason, now))
  {
    assert forall b :: b in w.h.boundaries + [now] <==> b in w.h.boundaries || b == now;
  }

  lemma SameMarks(w: World, next: World)
    requires RecoveryMarks(w) && next.s.recoveryAfter == w.s.recoveryAfter && next.h.boundaries == w.h.boundaries
    ensures RecoveryMarks(next)
  {
  }

  lemma ReportKeepsMarks(c: Config, w: World, clock: Clock)
    requires RecoveryMarks(w)
    ensures RecoveryMarks(Report(c, w, clock))
  {
    SameMarks(w, Report(c, w, clock));
    hide RecoveryMarks;
  }

  lemma ProcessMarks(c: Config, w: World, tf: RobotTf, clock: Clock)
    requires RecoveryMarks(w)
    ensures RecoveryMarks(Process(c, w, tf, clock))
  {
    hide RecoveryMarks, Report, Jumps, Usable, DropExpired, Stalled;
    var swept := Sweep(c, w, clock);
    InvalidateMarks(w, LocalOdometryNotAdvancing, clock.ros);
    SameMarks(if Stalled(c, w.s, clock) then Invalidate(w, LocalOdometryNotAdvancing, clock.ros) else w, swept);
    hide Sweep;
    InvalidateMarks(swept, InvalidTransformedLocalPose, clock.ros);
    InvalidateMarks(swept, LocalOdometryDiscontinuity, clock.ros);
    var jumped := Invalidate(swept, LocalOdometryDiscontinuity, clock.ros);
    SameMarks(jumped, Say(jumped, LocalOdometryDiscontinuity, clock));
    ReportKeepsMarks(c, swept, clock);
    ReportKeepsMarks(c, Invalidate(swept, InvalidTransformedLocalPose, clock.ros), clock);
    hide Invalidate;
    var index := if tf.connected then Newest(tf, swept.s.pending, |swept.s.pending|) else 0;
    if index > 0 && tf.mount(swept.s.pending[index - 1]).Based? {
      var accepted := Accept(swept, index, tf.mount(swept.s.pending[index - 1]).pose, clock);
      SameMarks(swept, accepted);
      ReportKeepsMarks(c, accepted, clock);
    }
  }

  lemma OdometryMarks(c: Config, w: World, packet: OdometryPacket, clock: Clock)
    requires RecoveryMarks(w)
    ensures RecoveryMarks(ReceiveOdometry(c, w, packet, clock))
  {
    InvalidateMarks(w, InvalidLocalInput, clock.ros);
    if packet.stamp.Some? {
      var seen := w.(s := w.s.(lastLocalStamp := Some(packet.stamp.value)));
      SameMarks(w, seen);
      InvalidateMarks(seen, LocalTimeRegression, clock.ros);
    }
    hide Fresh, Bounded;
  }

  lemma {:induction false} MarksHold(c: Config, run: seq<Moment>)
    ensures RecoveryMarks(RunOf(c, run))
  {
    if run != [] {
      var before, m := run[..|run| - 1], Last(run);
      MarksHold(c, before);
      var w := RunOf(c, before);
      hide RecoveryMarks, Process, ReceiveOdometry, Fresh;
      match m.event
      case CorrectionIn(packet) => SameMarks(w, ReceiveCorrection(c, w, packet, m.clock));
      case OdometryIn(packet) => OdometryMarks(c, w, packet, m.clock);
      case Tick(tf) => ProcessMarks(c, w, tf, m.clock);
    }
  }

  /** A correction is taken exactly when it is good, newer than every good one before, and stamped after every
      invalidation so far; a malformed one spoils the correction there was, if it would have been looked at. Nothing
      else changes. */
  lemma CorrectionOutcome(c: Config, run: seq<Moment>, packet: CorrectionPacket, clock: Clock)
    ensures var w, next := RunOf(c, run), RunOf(c, With(run, CorrectionIn(packet), clock));
            var looked := packet.stamp.Some? ==>
              Recent(c, packet.stamp.value, c.correctionTimeout, clock.ros)
              && NewestYet(c, run, packet.stamp.value);
            var whole := packet.stamp.Some? && packet.pose.Some?;
            var after := whole && forall b <- w.h.boundaries :: b < packet.stamp.value;
            next.h ==
            if !packet.expectedFrames || !looked || (whole && !after) then w.h
            else if !whole then w.h.(notes := w.h.notes + [Malformed])
            else w.h.(corrections := w.h.corrections + [packet.stamp.value],
                      notes := w.h.notes + [Took(packet.stamp.value, clock.steady)])
    ensures RunOf(c, With(run, CorrectionIn(packet), clock)).h.corrections != RunOf(c, run).h.corrections ==>
              packet.pose == Some(RunOf(c, With(run, CorrectionIn(packet), clock)).s.correction)
  {
    RunWith(c, run, CorrectionIn(packet), clock);
    MarksHold(c, run);
    if packet.stamp.Some? {
      WatermarkIs(c, run, packet.stamp.value);
    }
    hide RunOf, NewestYet;
  }

  // ---------- Odometry ----------

  /** An odometry message between the expected frames, well formed and recent when it came. */
  predicate GoodOdometry(c: Config, m: Moment) {
    && m.event.OdometryIn?
    && var p := m.event.odometry;
       && p.expectedFrames && p.stamp.Some? && p.pose.Some?
       && Recent(c, p.stamp.value, c.localTimeout, m.clock.ros)
  }

  /** The stamp of the last good odometry message. */
  function LastGood(c: Config, run: seq<Moment>): Option<Time> {
    if run == [] then None
    else if GoodOdometry(c, run[|run| - 1]) then run[|run| - 1].event.odometry.stamp
    else LastGood(c, run[..|run| - 1])
  }

  lemma {:induction false} LocalMarkIs(c: Config, run: seq<Moment>)
    ensures RunOf(c, run).s.lastLocalStamp == LastGood(c, run)
  {
    if run != [] {
      var before, m := run[..|run| - 1], Last(run);
      LocalMarkIs(c, before);
      var w := RunOf(c, before);
      if m.event.Tick? { ProcessKeepsWatermark(c, w, m.event.tf, m.clock); }
      hide Process, Bounded;
    }
  }

  /** An odometry message that is not good loses the epoch, and so does one stamped before the last good one; one with
      the same stamp changes nothing; a newer one joins the queue, whose oldest samples make room. */
  lemma OdometryOutcome(c: Config, run: seq<Moment>, packet: OdometryPacket, clock: Clock)
    ensures var w, next := RunOf(c, run), RunOf(c, With(run, OdometryIn(packet), clock));
            var last := LastGood(c, run);
            var lost := w.h.(boundaries := w.h.boundaries + [clock.ros], notes := w.h.notes + [LostLocal], epoch := [],
                             signals := w.h.signals + [Lost]);
            if !GoodOdometry(c, Moment(OdometryIn(packet), clock)) then
              next.h == lost && next.s.pending == []
            else if last.Some? && packet.stamp.value < last.value then
              next.h == lost.(odometry := []) && next.s.pending == []
            else
              && next.h == w.h
              && var all := w.s.pending + (if last == packet.stamp then []
                                           else [Sample(packet.stamp.value, clock.steady, packet.pose.value)]);
                 if last == packet.stamp || |all| <= c.capacity then next.s.pending == all
                 else next.s.pending == all[|all| - c.capacity..]
  {
    RunWith(c, run, OdometryIn(packet), clock);
    LocalMarkIs(c, run);
    hide RunOf, LastGood;
  }
}
