/** The fine-align server's path from tag detections to a stable docking target: activating a profile, and turning a
    pending detection into an observation across several locks. */
module DetectionPipeline {
  import opened Basics
  import opened Trigonometry
  import opened HolonomicFineAlign
  import opened PlanarGeometry
  import Tracking = TagTracking

  datatype Profile = Profile(
    name: string,
    tagId: int,
    tagFrame: string,
    offsets: Offsets,
    topic: string,
    timedReverse: bool,
    forBox: bool)

  datatype Box = Box(stamp: Time, defaultProfile: string, profiles: seq<string>, tagFrame: string)

  /** `instanceTag` is the tag number a box instance name encodes, if it encodes one. */
  datatype Env = Env(
    tr: Trig,
    tracking: Tracking.Config,
    minimumMargin: real,
    maximumAge: real,
    trackingTimeout: real,
    profiles: map<string, Profile>,
    defaultProfile: string,
    instanceTag: string -> Option<int>)
  {
    predicate Valid() {
      tracking.Valid() && maximumAge > 0.0 && trackingTimeout > 0.0
    }

    function AgeLimit(): real {
      Min(trackingTimeout, maximumAge)
    }
  }

  datatype Detection = Detection(id: int, margin: Num)

  datatype Message = Message(stamp: Time, detections: seq<Detection>)

  /** What one pass takes along of the activation it started under. */
  datatype View = View(profile: Profile, generation: nat, activatedAt: Time)

  /** What the transform tree answers for the tag. */
  datatype Sight = NoTransform | NotNumbers | At(tag: Tag)

  /** How far the pass in progress has come, between two locks. */
  datatype Job =
    | NoJob
    | Viewed(view: View)
    | Timely(view: View, stamp: Time)
    | Current(view: View, stamp: Time)
    | Measured(view: View, stamp: Time, sight: Sight)
    | Failed(view: View, stamp: Time)

  datatype Evidence = Evidence(profile: Profile, tag: Tag, stamp: Time)

  /** The profile last activated, and since then: the observations the tracker admitted, and those of them it has not
      forgotten. The program keeps none of this. */
  datatype Trace = Trace(own: Profile, evidence: seq<Evidence>, chain: seq<Tracking.Sample>)

  /** A stamp of zero means none. */
  datatype World = World(
    profile: Profile,
    instance: string,
    generation: nat,
    activatedAt: Time,
    pending: Option<Message>,
    boxes: map<string, Box>,
    tracker: Tracking.TrackState,
    stable: Option<Pose>,
    rawError: PlanarError,
    lastStamp: Time,
    stableStamp: Time,
    sequence: nat,
    lastDocked: string,
    lastTarget: Option<Profile>,
    lastInstance: string,
    job: Job,
    trace: Trace)

  const NO_ERROR := PlanarError(0.0, 0.0, 0.0)

  function Start(profile: Profile): World {
    World(profile, "", 0, 0.0, None, map[], Tracking.UNTRACKED, None, NO_ERROR, 0.0, 0.0, 0, "", None, "", NoJob,
          Trace(profile, [], []))
  }

  // ---------- Activating a profile ----------

  function Resolve(env: Env, requested: string, lastDocked: string): Option<Profile> {
    var name := if requested != "" then requested else if lastDocked == "" then env.defaultProfile else lastDocked;
    if name in env.profiles then Some(env.profiles[name]) else None
  }

  function Bind(env: Env, p: Profile, instance: string, tagFrame: string): Option<Profile> {
    match env.instanceTag(instance)
    case Some(id) => if p.forBox && tagFrame != "" then Some(p.(tagId := id, tagFrame := tagFrame)) else None
    case None => None
  }

  /** A refused request may already have replaced the active profile. */
  datatype Selection = Refused | Overwritten(profile: Profile) | Chosen(profile: Profile, instance: string)

  function SelectBox(env: Env, w: World, requested: string, instance: string, now: Time): Option<string> {
    if instance !in w.boxes then None
    else
      var box := w.boxes[instance];
      var age := now - box.stamp;
      var selection := if requested == "" then box.defaultProfile else requested;
      if age < 0.0 || age > env.maximumAge || selection == "" || selection !in box.profiles then None
      else Some(selection)
  }

  function Select(env: Env, w: World, requested: string, undocking: bool, instance: string, now: Time): Selection {
    var boxed := !undocking && instance != "";
    var selection := if boxed then SelectBox(env, w, requested, instance, now) else Some(requested);
    if selection.None? then Refused
    else
      match Resolve(env, selection.value, if undocking then w.lastDocked else "")
      case None => Refused
      case Some(p) =>
        if !p.forBox then if instance != "" then Overwritten(p) else Chosen(p, "")
        else if !undocking then
          if !boxed || w.boxes[instance].tagFrame == "" then Overwritten(p)
          else
            match Bind(env, p, instance, w.boxes[instance].tagFrame)
            case None => Overwritten(p)
            case Some(bound) => Chosen(bound, instance)
        else if w.lastTarget.Some? && w.lastTarget.value.name == p.name then Chosen(w.lastTarget.value, w.lastInstance)
        else if !p.timedReverse then Overwritten(p)
        else Chosen(p, "")
  }

  function Activate(env: Env, w: World, requested: string, undocking: bool, instance: string, now: Time): World {
    match Select(env, w, requested, undocking, instance, now)
    case Refused => w
    case Overwritten(p) => w.(profile := p, instance := "")
    case Chosen(p, of) => Restart(w, p, of, now)
  }

  function Restart(w: World, p: Profile, instance: string, now: Time): World {
    w.(profile := p, instance := instance, generation := w.generation + 1, activatedAt := now, pending := None,
       tracker := Forget(w.tracker), stable := None, rawError := NO_ERROR, lastStamp := 0.0, stableStamp := 0.0,
       trace := Trace(p, [], []))
  }

  lemma RestartAfterChoice(w: World, chosen: World, now: Time)
    requires chosen == w.(profile := chosen.profile, instance := chosen.instance)
    ensures Restart(chosen, chosen.profile, chosen.instance, now) == Restart(w, chosen.profile, chosen.instance, now)
  {
  }

  function Forget(t: Tracking.TrackState): Tracking.TrackState {
    t.(filtered := None, previousRaw := None, count := 0)
  }

  // ---------- One pass over the pending detection ----------

  predicate Shows(env: Env, message: Message, tagId: int) {
    exists d <- message.detections :: d.id == tagId && d.margin.Finite? && d.margin.v >= env.minimumMargin
  }

  function Fetch(env: Env, w: World, now: Time): World
    requires w.job.Viewed?
  {
    var view := w.job.view;
    if w.pending.None? then w.(job := NoJob)
    else
      var stamp := w.pending.value.stamp;
      if !Shows(env, w.pending.value, view.profile.tagId) || stamp == 0.0 || stamp < view.activatedAt
         || now - stamp < 0.0 || now - stamp > env.AgeLimit()
      then w.(job := NoJob)
      else w.(job := Timely(view, stamp))
  }

  /** Another activation, or a later observation, has come in between. */
  predicate Outdated(w: World, view: View, stamp: Time) {
    view.generation != w.generation || (w.lastStamp != 0.0 && stamp <= w.lastStamp)
  }

  function Precheck(w: World): World
    requires w.job.Timely?
  {
    w.(job := if Outdated(w, w.job.view, w.job.stamp) then NoJob else Current(w.job.view, w.job.stamp))
  }

  function Look(env: Env, w: World, sight: Sight): World
    requires w.job.Current?
  {
    var view, stamp := w.job.view, w.job.stamp;
    if sight.NoTransform? then w.(job := NoJob)
    else if sight.At? && TableDockPose(env.tr, sight.tag, view.profile.offsets).None? then
      w.(job := Failed(view, stamp))
    else w.(job := Measured(view, stamp, sight))
  }

  /** The docking pose of a profile relative to the robot, from the tag as the robot sees it. */
  function RawOf(env: Env, profile: Profile, tag: Tag): PlanarError
    requires TableDockPose(env.tr, tag, profile.offsets).Some?
  {
    ErrorBetween(env.tr, IDENTITY, TableDockPose(env.tr, tag, profile.offsets).value)
  }

  function ReadingOf(env: Env, profile: Profile, sight: Sight): Reading {
    if sight.At? && TableDockPose(env.tr, sight.tag, profile.offsets).Some? then
      var raw := RawOf(env, profile, sight.tag);
      Reading(Finite(raw.x), Finite(raw.y), Finite(raw.yaw))
    else Reading(NotFinite, NotFinite, NotFinite)
  }

  function Commit(env: Env, w: World, command: Velocity): World
    requires env.Valid() && w.job.Measured? && Tracking.Coherent(w.tracker)
  {
    var view, stamp, sight := w.job.view, w.job.stamp, w.job.sight;
    var reading := ReadingOf(env, view.profile, sight);
    var idle := w.(job := NoJob);
    if Outdated(w, view, stamp) then idle
    else
      var (tracker, accepted) := Tracking.Observe(env.tr, env.tracking, w.tracker, reading, stamp, command);
      if !accepted then idle.(lastStamp := stamp, tracker := tracker)
      else
        var chain := Tracking.Extend(env.tr, env.tracking, w.tracker, w.trace.chain, reading, stamp, command);
        var seen := idle.(lastStamp := stamp, tracker := tracker,
                          trace := Trace(w.trace.own, w.trace.evidence + [EvidenceOf(w.job)], chain));
        Settle(env, seen, reading, stamp)
  }

  /** What an admitted observation makes of the stable target. */
  function Settle(env: Env, w: World, reading: Reading, stamp: Time): World
    requires reading.IsFinite()
  {
    if !Tracking.IsReady(env.tracking, w.tracker) then w.(stable := None)
    else
      w.(stable := Some(PoseOf(env.tr, w.tracker.filtered.value)), rawError := reading.Error(), stableStamp := stamp,
         sequence := w.sequence + 1)
  }

  function EvidenceOf(job: Job): Evidence
    requires job.Measured?
  {
    Evidence(job.view.profile, if job.sight.At? then job.sight.tag else Tag(0.0, 0.0, 0.0, 0.0, 0.0, 0.0), job.stamp)
  }

  function Recover(w: World): World
    requires w.job.Failed?
  {
    if w.job.view.generation != w.generation then w.(job := NoJob)
    else
      w.(tracker := Forget(w.tracker), stable := None, lastStamp := w.job.stamp, job := NoJob,
         trace := w.trace.(chain := []))
  }

  datatype Step =
    | Activation(requested: string, undocking: bool, instance: string, now: Time)
    | Docked(profileName: string, target: Profile, instance: string)
    | BoxSeen(instance: string, box: Box)
    | Detections(topic: string, message: Message)
    | TakeView
    | FetchMessage(now: Time)
    | CheckView
    | LookUp(sight: Sight)
    | Observe(command: Velocity)
    | GiveUp

  /** A step of the pass in progress that only reads. */
  function Read(env: Env, w: World, s: Step): World
    requires s.TakeView? || s.FetchMessage? || s.CheckView? || s.LookUp?
  {
    match s
    case TakeView => if w.job.NoJob? then w.(job := Viewed(View(w.profile, w.generation, w.activatedAt))) else w
    case FetchMessage(now) => if w.job.Viewed? then Fetch(env, w, now) else w
    case CheckView => if w.job.Timely? then Precheck(w) else w
    case LookUp(sight) => if w.job.Current? then Look(env, w, sight) else w
  }

  /** What arrives from outside. */
  function Arrive(w: World, s: Step): World
    requires s.Docked? || s.BoxSeen? || s.Detections?
  {
    match s
    case Docked(name, target, instance) => w.(lastDocked := name, lastTarget := Some(target), lastInstance := instance)
    case BoxSeen(instance, box) => w.(boxes := w.boxes[instance := box])
    case Detections(topic, message) => if topic == w.profile.topic then w.(pending := Some(message)) else w
  }

  /** One step; a step that cannot be taken where the pass stands changes nothing. */
  function Next(env: Env, w: World, s: Step): World
    requires env.Valid() && Tracking.Coherent(w.tracker)
  {
    match s
    case Activation(requested, undocking, instance, now) => Activate(env, w, requested, undocking, instance, now)
    case Docked(_, _, _) => Arrive(w, s)
    case BoxSeen(_, _) => Arrive(w, s)
    case Detections(_, _) => Arrive(w, s)
    case TakeView => Read(env, w, s)
    case FetchMessage(_) => Read(env, w, s)
    case CheckView => Read(env, w, s)
    case LookUp(_) => Read(env, w, s)
    case Observe(command) => if w.job.Measured? then Commit(env, w, command) else w
    case GiveUp => if w.job.Failed? then Recover(w) else w
  }

  // ---------- What a request and a message come to ----------

  /** A docking at a box names one that was seen recently and offers the profile asked for, or its default. */
  ghost predicate BoxOffers(env: Env, w: World, requested: string, instance: string, now: Time) {
    && instance in w.boxes
    && var box := w.boxes[instance];
       && box.stamp <= now <= box.stamp + env.maximumAge
       && NameAtBox(box, requested) != "" && NameAtBox(box, requested) in box.profiles
  }

  function NameAtBox(box: Box, requested: string): string {
    if requested != "" then requested else box.defaultProfile
  }

  /** The profile's name a request comes to: the one asked for, at a box its default, after a docking the docked one,
      and else the server's default. */
  function NameFor(env: Env, w: World, requested: string, undocking: bool, instance: string): string {
    if requested != "" then requested
    else if !undocking && instance != "" && instance in w.boxes then w.boxes[instance].defaultProfile
    else if undocking && w.lastDocked != "" then w.lastDocked
    else env.defaultProfile
  }

  /** Each outcome of a request. It is refused outright when the box does not offer the profile or there is no such
      profile. A profile that is not for boxes is chosen unless an instance is named. One for boxes is chosen for a
      docking bound to the tag the named instance encodes, and for an undocking as it was docked with, or as it is if
      it only reverses. What is left is refused after it has become the active profile. */
  lemma SelectionIs(env: Env, w: World, requested: string, undocking: bool, instance: string, now: Time)
    ensures var selection := Select(env, w, requested, undocking, instance, now);
            var name := NameFor(env, w, requested, undocking, instance);
            if (!undocking && instance != "" && !BoxOffers(env, w, requested, instance, now))
               || name !in env.profiles then selection == Refused
            else
              var p, id := env.profiles[name], env.instanceTag(instance);
              if !p.forBox then selection == if instance == "" then Chosen(p, "") else Overwritten(p)
              else if !undocking then
                if instance != "" && w.boxes[instance].tagFrame != "" && id.Some? then
                  selection == Chosen(p.(tagId := id.value, tagFrame := w.boxes[instance].tagFrame), instance)
                else selection == Overwritten(p)
              else if w.lastTarget.Some? && w.lastTarget.value.name == p.name then
                selection == Chosen(w.lastTarget.value, w.lastInstance)
              else selection == if p.timedReverse then Chosen(p, "") else Overwritten(p)
  {
  }

  /** A pass goes on with the pending message exactly when it shows the profile's tag well enough, is stamped since the
      activation, and is neither from the future nor older than either age limit. */
  lemma FetchIff(env: Env, w: World, now: Time)
    requires w.job.Viewed?
    ensures var view, next := w.job.view, Fetch(env, w, now);
            && (next.job == NoJob || next.job == Timely(view, w.pending.value.stamp))
            && next == w.(job := next.job)
            && (next.job != NoJob <==>
                 && w.pending.Some?
                 && var message := w.pending.value;
                    && (exists d <- message.detections ::
                      d.id == view.profile.tagId && d.margin.Finite? && env.minimumMargin <= d.margin.v)
                    && message.stamp != 0.0 && view.activatedAt <= message.stamp <= now
                    && now <= message.stamp + env.trackingTimeout && now <= message.stamp + env.maximumAge)
  {
  }

  // ---------- Evidence ----------

  ghost predicate TrackerRests(env: Env, w: World) {
    && Tracking.RestsOn(env.tr, env.tracking, w.tracker, w.trace.chain)
    && (w.stable.Some? <==> Tracking.IsReady(env.tracking, w.tracker))
    && (w.stable.Some? ==>
      && w.tracker.previousRaw.Some?
      && w.stable == Some(PoseOf(env.tr, w.tracker.filtered.value))
      && w.stableStamp == w.tracker.stamp && w.rawError == w.tracker.previousRaw.value)
  }

  ghost predicate Counts(env: Env, e: Evidence) {
    TableDockPose(env.tr, e.tag, e.profile.offsets).Some?
  }

  function SampleOf(env: Env, e: Evidence): Tracking.Sample
    requires Counts(env, e)
  {
    Tracking.Sample(RawOf(env, e.profile, e.tag), e.stamp)
  }

  /** The admitted observations: computed from a tag and a profile, stamped in increasing order from the activation on;
      the tracker's chain is the end of them. */
  ghost predicate EvidenceOrdered(env: Env, w: World) {
    var evidence, chain := w.trace.evidence, w.trace.chain;
    && (forall e <- evidence :: w.activatedAt <= e.stamp && e.stamp != 0.0)
    && (forall i, j | 0 <= i < j < |evidence| :: evidence[i].stamp < evidence[j].stamp)
    && (evidence != [] ==> w.lastStamp != 0.0)
    && (forall e <- evidence :: e.stamp <= w.lastStamp)
    && ChainEnds(env, evidence, chain)
  }

  /** The chain is the end of the evidence. */
  ghost predicate ChainEnds(env: Env, evidence: seq<Evidence>, chain: seq<Tracking.Sample>) {
    && |chain| <= |evidence|
    && (forall e <- evidence :: Counts(env, e))
    && forall i | 0 <= i < |chain| :: chain[i] == SampleOf(env, evidence[|evidence| - |chain| + i])
  }

  ghost predicate JobSound(env: Env, w: World) {
    w.job.NoJob? ||
    (var view := w.job.view;
     && view.generation <= w.generation
     && (view.generation == w.generation ==> view.activatedAt == w.activatedAt)
     && (!w.job.Viewed? ==> view.activatedAt <= w.job.stamp && w.job.stamp != 0.0)
     && (!w.job.Viewed? && !w.job.Timely? && view.generation == w.generation ==> !Outdated(w, view, w.job.stamp))
     && (w.job.Measured? && w.job.sight.At? ==>
       TableDockPose(env.tr, w.job.sight.tag, view.profile.offsets).Some?))
  }

  ghost predicate Sound(env: Env, w: World) {
    TrackerRests(env, w) && EvidenceOrdered(env, w) && JobSound(env, w)
  }

  lemma RestartSound(env: Env, w: World, p: Profile, instance: string, now: Time)
    requires env.Valid() && Sound(env, w)
    ensures Sound(env, Restart(w, p, instance, now))
  {
    hide TableDockPose, PoseOf;
  }

  lemma ActivateKeeps(env: Env, w: World, requested: string, undocking: bool, instance: string, now: Time)
    requires env.Valid() && Sound(env, w)
    ensures Sound(env, Activate(env, w, requested, undocking, instance, now))
  {
    hide Select, Restart, TableDockPose, Tracking.RestsOn;
    var selection := Select(env, w, requested, undocking, instance, now);
    if selection.Chosen? {
      RestartSound(env, w, selection.profile, selection.instance, now);
    }
  }

  /** An admitted observation that the tracker rests on makes a target exactly when it is ready. */
  lemma SettleRests(env: Env, w: World, reading: Reading, stamp: Time)
    requires reading.IsFinite() && Tracking.RestsOn(env.tr, env.tracking, w.tracker, w.trace.chain)
    requires w.tracker.filtered.Some? && w.tracker.previousRaw == Some(reading.Error()) && w.tracker.stamp == stamp
    ensures TrackerRests(env, Settle(env, w, reading, stamp))
  {
    hide Tracking.RestsOn, Tracking.IsReady, PoseOf;
  }

  lemma CommitKeepsTracker(env: Env, w: World, command: Velocity)
    requires env.Valid() && Sound(env, w) && w.job.Measured?
    ensures TrackerRests(env, Commit(env, w, command))
  {
    SoundIsCoherent(env, w);
    assert TrackerRests(env, w) && Tracking.RestsOn(env.tr, env.tracking, w.tracker, w.trace.chain);
    hide Sound, JobSound, EvidenceOrdered, ReadingOf, TableDockPose, PoseOf, EvidenceOf, Settle;
    hide Tracking.Observe, Tracking.Extend, Tracking.RestsOn, Tracking.Coherent, Tracking.IsReady;
    var view, stamp := w.job.view, w.job.stamp;
    var reading := ReadingOf(env, view.profile, w.job.sight);
    Tracking.ObserveKeepsChain(env.tr, env.tracking, w.tracker, w.trace.chain, reading, stamp, command);
    var (tracker, accepted) := Tracking.Observe(env.tr, env.tracking, w.tracker, reading, stamp, command);
    if accepted && !Outdated(w, view, stamp) {
      Tracking.AcceptedIsReference(env.tr, env.tracking, w.tracker, w.trace.chain, reading, stamp, command);
      var chain := Tracking.Extend(env.tr, env.tracking, w.tracker, w.trace.chain, reading, stamp, command);
      SettleRests(env, w.(job := NoJob, lastStamp := stamp, tracker := tracker,
                          trace := Trace(w.trace.own, w.trace.evidence + [EvidenceOf(w.job)], chain)), reading, stamp);
    }
  }

  lemma CommitTrace(env: Env, w: World, command: Velocity)
    requires env.Valid() && w.job.Measured? && Tracking.Coherent(w.tracker)
    ensures var next := Commit(env, w, command);
            var reading := ReadingOf(env, w.job.view.profile, w.job.sight);
            && next.profile == w.profile && next.generation == w.generation && next.activatedAt == w.activatedAt
            && next.job == NoJob
            && (Outdated(w, w.job.view, w.job.stamp) ==> next.lastStamp == w.lastStamp && next.trace == w.trace)
            && (!Outdated(w, w.job.view, w.job.stamp) ==>
              && next.lastStamp == w.job.stamp
              && next.trace ==
                 if Tracking.Observe(env.tr, env.tracking, w.tracker, reading, w.job.stamp, command).1 then
                   Trace(w.trace.own, w.trace.evidence + [EvidenceOf(w.job)],
                         Tracking.Extend(env.tr, env.tracking, w.tracker, w.trace.chain, reading, w.job.stamp, command))
                 else w.trace)
  {
    hide Tracking.Observe, Tracking.Extend, ReadingOf, EvidenceOf, PoseOf;
  }

  lemma EvidenceStays(env: Env, w: World, next: World)
    requires EvidenceOrdered(env, w) && next.trace == w.trace && next.activatedAt == w.activatedAt
    requires next.lastStamp == w.lastStamp
             || (next.lastStamp != 0.0 && (w.lastStamp == 0.0 || next.lastStamp > w.lastStamp))
    ensures EvidenceOrdered(env, next)
  {
    hide SampleOf, Counts;
  }

  lemma CommitKeepsEvidence(env: Env, w: World, command: Velocity)
    requires env.Valid() && Sound(env, w) && w.job.Measured?
    ensures EvidenceOrdered(env, Commit(env, w, command))
  {
    assert Tracking.Coherent(w.tracker);
    hide Tracking.Observe, Tracking.Extend, Tracking.RestsOn, Tracking.Coherent, TableDockPose, PoseOf, ReadingOf;
    hide EvidenceOf, SampleOf, Counts, Commit, TrackerRests, EvidenceOrdered;
    CommitTrace(env, w, command);
    var reading := ReadingOf(env, w.job.view.profile, w.job.sight);
    if !Outdated(w, w.job.view, w.job.stamp)
       && Tracking.Observe(env.tr, env.tracking, w.tracker, reading, w.job.stamp, command).1 {
      Tracking.AcceptedIsReference(env.tr, env.tracking, w.tracker, w.trace.chain, reading, w.job.stamp, command);
      ReadingIsRaw(env, w.job);
      EvidenceGrows(env, w, Commit(env, w, command));
    } else {
      EvidenceStays(env, w, Commit(env, w, command));
    }
  }

  lemma ReadingIsRaw(env: Env, job: Job)
    requires job.Measured? && ReadingOf(env, job.view.profile, job.sight).IsFinite()
    ensures Counts(env, EvidenceOf(job))
    ensures SampleOf(env, EvidenceOf(job))
            == Tracking.Sample(ReadingOf(env, job.view.profile, job.sight).Error(), job.stamp)
  {
    hide TableDockPose, ErrorBetween;
  }

  lemma ChainGrows(env: Env, evidence: seq<Evidence>, chain: seq<Tracking.Sample>, e: Evidence)
    requires ChainEnds(env, evidence, chain) && Counts(env, e)
    ensures ChainEnds(env, evidence + [e], chain + [SampleOf(env, e)])
    ensures ChainEnds(env, evidence + [e], [SampleOf(env, e)])
  {
    hide SampleOf, Counts;
  }

  lemma EvidenceGrows(env: Env, w: World, next: World)
    requires EvidenceOrdered(env, w) && w.job.Measured? && Counts(env, EvidenceOf(w.job))
    requires next.trace.evidence == w.trace.evidence + [EvidenceOf(w.job)]
    requires var sample := SampleOf(env, EvidenceOf(w.job));
             next.trace.chain == w.trace.chain + [sample] || next.trace.chain == [sample]
    requires next.lastStamp == w.job.stamp && next.activatedAt == w.activatedAt
    requires w.activatedAt <= w.job.stamp && w.job.stamp != 0.0
    requires w.lastStamp != 0.0 ==> w.lastStamp < w.job.stamp
    ensures EvidenceOrdered(env, next)
  {
    hide SampleOf, Counts;
    ChainGrows(env, w.trace.evidence, w.trace.chain, EvidenceOf(w.job));
    hide ChainEnds;
    var old_, new_ := w.trace.evidence, next.trace.evidence;
    assert forall i | 0 <= i < |old_| :: old_[i] in old_ && new_[i] == old_[i];
  }

  lemma CommitKeeps(env: Env, w: World, command: Velocity)
    requires env.Valid() && Sound(env, w) && w.job.Measured?
    ensures Sound(env, Commit(env, w, command))
  {
    CommitKeepsTracker(env, w, command);
    CommitKeepsEvidence(env, w, command);
    hide TrackerRests, EvidenceOrdered, ReadingOf, EvidenceOf;
  }

  /** A step that leaves the tracker and its trace alone. */
  lemma Untouched(env: Env, w: World, next: World)
    requires TrackerRests(env, w) && EvidenceOrdered(env, w)
    requires next.tracker == w.tracker && next.stable == w.stable && next.stableStamp == w.stableStamp
    requires next.rawError == w.rawError && next.trace == w.trace
    requires next.lastStamp == w.lastStamp && next.activatedAt == w.activatedAt
    ensures TrackerRests(env, next) && EvidenceOrdered(env, next)
  {
    hide Tracking.RestsOn, TableDockPose, PoseOf, SampleOf, Counts;
  }

  lemma RecoverKeeps(env: Env, w: World)
    requires env.Valid() && Sound(env, w) && w.job.Failed?
    ensures Sound(env, Recover(w))
  {
    hide TableDockPose, PoseOf, SampleOf, Counts, Tracking.Jumped;
  }

  lemma ReadKeeps(env: Env, w: World, s: Step)
    requires Sound(env, w) && (s.TakeView? || s.FetchMessage? || s.CheckView? || s.LookUp?)
    ensures Sound(env, Read(env, w, s))
  {
    hide TrackerRests, EvidenceOrdered, Shows, TableDockPose;
    Untouched(env, w, Read(env, w, s));
  }

  lemma ArriveKeeps(env: Env, w: World, s: Step)
    requires Sound(env, w) && (s.Docked? || s.BoxSeen? || s.Detections?)
    ensures Sound(env, Arrive(w, s))
  {
    hide TrackerRests, EvidenceOrdered, TableDockPose;
    Untouched(env, w, Arrive(w, s));
  }

  lemma SoundIsCoherent(env: Env, w: World)
    requires Sound(env, w)
    ensures Tracking.Coherent(w.tracker)
  {
  }

  lemma NextKeeps(env: Env, w: World, s: Step)
    requires env.Valid() && Sound(env, w)
    ensures Sound(env, Next(env, w, s))
  {
    hide Activate, Commit, Recover, Read, Arrive, Sound, Tracking.Coherent;
    SoundIsCoherent(env, w);
    match s
    case Activation(requested, undocking, instance, now) => ActivateKeeps(env, w, requested, undocking, instance, now);
    case Observe(command) => if w.job.Measured? { CommitKeeps(env, w, command); }
    case GiveUp => if w.job.Failed? { RecoverKeeps(env, w); }
    case Docked(_, _, _) => ArriveKeeps(env, w, s);
    case BoxSeen(_, _) => ArriveKeeps(env, w, s);
    case Detections(_, _) => ArriveKeeps(env, w, s);
    case TakeView => ReadKeeps(env, w, s);
    case FetchMessage(_) => ReadKeeps(env, w, s);
    case CheckView => ReadKeeps(env, w, s);
    case LookUp(_) => ReadKeeps(env, w, s);
  }

  ghost function Run(env: Env, w: World, h: seq<Step>): (r: World)
    requires env.Valid() && Sound(env, w)
    ensures Sound(env, r)
  {
    if h == [] then w
    else
      var before := Run(env, w, h[..|h| - 1]);
      NextKeeps(env, before, h[|h| - 1]);
      Next(env, before, h[|h| - 1])
  }

  /** At every point of every run the stable target is there exactly when the tracker rests on enough consecutive
      observations, and then it is the filtered pose, as of the last of them. */
  lemma TargetRestsOnEvidence(env: Env, profile: Profile, h: seq<Step>)
    requires env.Valid()
    ensures Sound(env, Start(profile))
    ensures TargetRests(env, Run(env, Start(profile), h))
  {
    hide PoseOf, TableDockPose, RawOf, Tracking.Jumped, TargetRests;
    assert Sound(env, Start(profile));
    SoundTargetRests(env, Run(env, Start(profile), h));
  }

  ghost predicate TargetRests(env: Env, w: World) {
    var n, evidence := env.tracking.acquisitionSamples, w.trace.evidence;
    && (w.stable.Some? <==> |w.trace.chain| >= n)
    && (w.stable.Some? ==>
      && w.tracker.filtered.Some? && w.stable.value == PoseOf(env.tr, w.tracker.filtered.value)
      && RecentChain(env, evidence, n)
      && w.rawError == SampleOf(env, evidence[|evidence| - 1]).raw
      && w.stableStamp == evidence[|evidence| - 1].stamp)
  }

  lemma SoundTargetRests(env: Env, w: World)
    requires env.Valid() && Sound(env, w)
    ensures TargetRests(env, w)
  {
    Tracking.ReadyIffEnoughSamples(env.tr, env.tracking, w.tracker, w.trace.chain);
    hide PoseOf, TableDockPose, RawOf, Tracking.Chained, Tracking.IsReady, JobSound, Linked;
    if w.stable.Some? {
      ChainIsRecent(env, w);
    }
  }

  /** The last `n` observations count, and each follows the one before it closely. */
  ghost predicate RecentChain(env: Env, evidence: seq<Evidence>, n: nat) {
    && 1 <= n <= |evidence|
    && (forall i | |evidence| - n <= i < |evidence| :: Counts(env, evidence[i]))
    && (forall i | |evidence| - n < i < |evidence| :: Linked(env, evidence, i))
  }

  ghost predicate Linked(env: Env, evidence: seq<Evidence>, i: int)
    requires 0 < i < |evidence| && Counts(env, evidence[i - 1]) && Counts(env, evidence[i])
  {
    Tracking.Follows(env.tr, env.tracking, SampleOf(env, evidence[i - 1]), SampleOf(env, evidence[i]))
  }

  lemma ChainIsRecent(env: Env, w: World)
    requires env.Valid() && EvidenceOrdered(env, w) && |w.trace.chain| >= env.tracking.acquisitionSamples
    requires Tracking.RestsOn(env.tr, env.tracking, w.tracker, w.trace.chain)
    ensures RecentChain(env, w.trace.evidence, env.tracking.acquisitionSamples)
    ensures w.trace.chain[|w.trace.chain| - 1] == SampleOf(env, w.trace.evidence[|w.trace.evidence| - 1])
  {
    hide SampleOf, Counts, Tracking.Follows;
    var evidence, chain, n := w.trace.evidence, w.trace.chain, env.tracking.acquisitionSamples;
    forall i | |evidence| - n < i < |evidence| ensures Linked(env, evidence, i) {
      var k := i - (|evidence| - |chain|);
      assert evidence[|evidence| - |chain| + k] == evidence[i];
      assert evidence[|evidence| - |chain| + (k - 1)] == evidence[i - 1];
      assert Tracking.Follows(env.tr, env.tracking, chain[k - 1], chain[k - 1 + 1]);
    }
  }

  datatype Target = Target(pose: Pose, sequence: nat, rawError: PlanarError, age: real)

  /** `stableMeasurement`. */
  function StableMeasurement(env: Env, w: World, now: Time): Option<Target> {
    if w.stable.None? || w.stableStamp == 0.0 || now - w.stableStamp < 0.0 || now - w.stableStamp > env.AgeLimit()
    then None
    else Some(Target(w.stable.value, w.sequence, w.rawError, now - w.stableStamp))
  }

  /** A measurement is available exactly when enough consecutive observations have been admitted and the last of them is
      recent, and it is then about that one. */
  lemma MeasurementIff(env: Env, profile: Profile, h: seq<Step>, now: Time)
    requires env.Valid()
    ensures Sound(env, Start(profile))
    ensures var w := Run(env, Start(profile), h);
            var found, evidence := StableMeasurement(env, w, now), w.trace.evidence;
            && (|w.trace.chain| >= env.tracking.acquisitionSamples ==> evidence != [])
            && (found.Some? <==>
              && |w.trace.chain| >= env.tracking.acquisitionSamples
              && 0.0 <= now - evidence[|evidence| - 1].stamp <= env.trackingTimeout
              && now - evidence[|evidence| - 1].stamp <= env.maximumAge)
            && (found.Some? ==>
              && found.value.age == now - evidence[|evidence| - 1].stamp
              && found.value.rawError == SampleOf(env, evidence[|evidence| - 1]).raw)
  {
    hide PoseOf, TableDockPose, RawOf, RecentChain, Run, TrackerRests, JobSound;
    TargetRestsOnEvidence(env, profile, h);
    var w := Run(env, Start(profile), h);
    assert EvidenceOrdered(env, w);
    if w.stable.Some? {
      assert w.trace.evidence[|w.trace.evidence| - 1] in w.trace.evidence;
    }
  }

  // ---------- Whose evidence it is ----------

  /** Everything admitted, or about to be, was computed from the profile last activated. */
  ghost predicate Own(w: World) {
    && w.profile == w.trace.own
    && (forall e <- w.trace.evidence :: e.profile == w.trace.own)
    && (!w.job.NoJob? && w.job.view.generation == w.generation ==> w.job.view.profile == w.trace.own)
  }

  ghost predicate WithoutActivation(h: seq<Step>) {
    forall s <- h :: !s.Activation?
  }

  /** What a step does to the activation and to the evidence in its name. */
  ghost predicate SameActivation(w: World, next: World) {
    && next.generation == w.generation && next.activatedAt == w.activatedAt && next.trace.own == w.trace.own
  }

  lemma OwnCommit(env: Env, w: World, command: Velocity)
    requires env.Valid() && Sound(env, w) && Own(w) && w.job.Measured?
    ensures Own(Commit(env, w, command)) && SameActivation(w, Commit(env, w, command))
  {
    assert Tracking.Coherent(w.tracker);
    CommitTrace(env, w, command);
    hide Commit, Sound, ReadingOf, Tracking.Observe, Tracking.Extend;
  }

  lemma OwnIfTraceStays(w: World, next: World)
    requires Own(w) && next.trace == w.trace && next.profile == w.profile && next.generation == w.generation
    requires next.job.NoJob? || (!w.job.NoJob? && next.job.view == w.job.view) || next.job.view.profile == w.profile
    ensures Own(next)
  {
  }

  lemma OwnRead(env: Env, w: World, s: Step)
    requires Own(w) && (s.TakeView? || s.FetchMessage? || s.CheckView? || s.LookUp?)
    ensures Own(Read(env, w, s)) && SameActivation(w, Read(env, w, s))
  {
    hide Shows, TableDockPose;
    OwnIfTraceStays(w, Read(env, w, s));
  }

  lemma OwnArrive(w: World, s: Step)
    requires Own(w) && (s.Docked? || s.BoxSeen? || s.Detections?)
    ensures Own(Arrive(w, s)) && SameActivation(w, Arrive(w, s))
  {
    OwnIfTraceStays(w, Arrive(w, s));
  }

  lemma OwnStep(env: Env, w: World, s: Step)
    requires env.Valid() && Sound(env, w) && Own(w) && !s.Activation?
    ensures Own(Next(env, w, s)) && SameActivation(w, Next(env, w, s))
  {
    hide Sound, Commit, Recover, Own, Read, Arrive, Tracking.Coherent;
    SoundIsCoherent(env, w);
    match s
    case Observe(command) => if w.job.Measured? { OwnCommit(env, w, command); }
    case GiveUp => if w.job.Failed? { OwnRecover(w); }
    case Docked(_, _, _) => OwnArrive(w, s);
    case BoxSeen(_, _) => OwnArrive(w, s);
    case Detections(_, _) => OwnArrive(w, s);
    case TakeView => OwnRead(env, w, s);
    case FetchMessage(_) => OwnRead(env, w, s);
    case CheckView => OwnRead(env, w, s);
    case LookUp(_) => OwnRead(env, w, s);
  }

  lemma OwnRecover(w: World)
    requires Own(w) && w.job.Failed?
    ensures Own(Recover(w)) && SameActivation(w, Recover(w))
  {
  }

  lemma {:induction false} OwnRun(env: Env, w: World, h: seq<Step>)
    requires env.Valid() && Sound(env, w) && Own(w) && WithoutActivation(h)
    ensures Own(Run(env, w, h)) && SameActivation(w, Run(env, w, h))
  {
    if h != [] {
      OwnRun(env, w, h[..|h| - 1]);
      assert h[|h| - 1] in h;
      hide Sound, Next, Own;
      OwnStep(env, Run(env, w, h[..|h| - 1]), h[|h| - 1]);
    }
  }

  /** From a successful activation to the next activation, every observation the tracker admits was computed from the
      profile chosen then, and is stamped no earlier than the activation and later than all before it. */
  lemma EvidenceIsOwn(env: Env, w: World, s: Step, h: seq<Step>)
    requires env.Valid() && Sound(env, w) && s.Activation? && WithoutActivation(h)
    requires Select(env, w, s.requested, s.undocking, s.instance, s.now).Chosen?
    ensures Sound(env, Next(env, w, s))
    ensures var p := Select(env, w, s.requested, s.undocking, s.instance, s.now).profile;
            var evidence := Run(env, Next(env, w, s), h).trace.evidence;
            && (forall e <- evidence :: e.profile == p && s.now <= e.stamp)
            && (forall i, j | 0 <= i < j < |evidence| :: evidence[i].stamp < evidence[j].stamp)
  {
    hide Select, TableDockPose;
    NextKeeps(env, w, s);
    OwnRun(env, Next(env, w, s), h);
  }

  // ---------- What a sequence number stands for ----------

  /** The stamp last seen never goes back, and is never forgotten. */
  ghost predicate StampKept(w: World, next: World) {
    next.lastStamp == w.lastStamp
    || (next.lastStamp != 0.0 && (w.lastStamp == 0.0 || w.lastStamp < next.lastStamp))
  }

  /** A further number goes with a later stamp, and only with one; evidence is only added. */
  ghost predicate Numbered(w: World, next: World) {
    && w.sequence <= next.sequence
    && (w.sequence == next.sequence ==> w.stableStamp == next.stableStamp)
    && (w.sequence < next.sequence ==>
      next.stableStamp != 0.0 && (w.stableStamp != 0.0 ==> w.stableStamp < next.stableStamp))
    && w.trace.evidence <= next.trace.evidence
  }

  /** The stable target is no newer than what was seen last. */
  ghost predicate Stamped(w: World) {
    w.stableStamp != 0.0 ==> w.lastStamp != 0.0 && w.stableStamp <= w.lastStamp
  }

  /** Either nothing was numbered, or the pass's own observation was. */
  lemma CommitNumbers(env: Env, w: World, command: Velocity)
    requires env.Valid() && w.job.Measured? && Tracking.Coherent(w.tracker)
    ensures var next := Commit(env, w, command);
            || (next.sequence == w.sequence && next.stableStamp == w.stableStamp)
            || (next.sequence == w.sequence + 1 && next.stableStamp == w.job.stamp
                && !Outdated(w, w.job.view, w.job.stamp))
  {
    hide ReadingOf, EvidenceOf, PoseOf, Tracking.Observe, Tracking.Extend, Outdated;
  }

  lemma CommitAdvances(env: Env, w: World, command: Velocity)
    requires env.Valid() && Sound(env, w) && w.job.Measured? && Stamped(w)
    ensures var next := Commit(env, w, command); StampKept(w, next) && Numbered(w, next) && Stamped(next)
  {
    SoundIsCoherent(env, w);
    CommitNumbers(env, w, command);
    CommitTrace(env, w, command);
    hide Commit, TrackerRests, EvidenceOrdered, TableDockPose, ReadingOf, EvidenceOf, Tracking.Observe;
    hide Tracking.Extend, Tracking.Coherent;
  }

  lemma RecoverAdvances(env: Env, w: World)
    requires JobSound(env, w) && w.job.Failed? && Stamped(w)
    ensures var next := Recover(w); StampKept(w, next) && Numbered(w, next) && Stamped(next)
  {
    hide TableDockPose;
  }

  lemma ReadAdvances(env: Env, w: World, s: Step)
    requires Stamped(w)
    ensures s.TakeView? || s.FetchMessage? || s.CheckView? || s.LookUp? ==>
              var next := Read(env, w, s); StampKept(w, next) && Numbered(w, next) && Stamped(next)
    ensures s.Docked? || s.BoxSeen? || s.Detections? ==>
              var next := Arrive(w, s); StampKept(w, next) && Numbered(w, next) && Stamped(next)
  {
    hide TableDockPose, Shows;
  }

  lemma StampsAdvance(env: Env, w: World, s: Step)
    requires env.Valid() && Sound(env, w) && Stamped(w)
    ensures var next := Next(env, w, s);
            Stamped(next) && (!s.Activation? ==> StampKept(w, next) && Numbered(w, next))
  {
    SoundIsCoherent(env, w);
    if s.Observe? && w.job.Measured? {
      CommitAdvances(env, w, s.command);
    } else if s.GiveUp? && w.job.Failed? {
      RecoverAdvances(env, w);
    } else {
      ReadAdvances(env, w, s);
    }
    hide Sound, Commit, Recover, Read, Arrive, Select, Tracking.Coherent;
  }

  lemma {:induction false} StampedHolds(env: Env, w: World, h: seq<Step>)
    requires env.Valid() && Sound(env, w) && Stamped(w)
    ensures Stamped(Run(env, w, h))
  {
    if h != [] {
      StampedHolds(env, w, h[..|h| - 1]);
      hide Sound, Next, Stamped;
      StampsAdvance(env, Run(env, w, h[..|h| - 1]), h[|h| - 1]);
    }
  }

  /** The recovery branch compares no stamps, yet until the next activation the stamp last seen never goes back. */
  lemma {:induction false} StampNeverGoesBack(env: Env, w: World, h: seq<Step>)
    requires env.Valid() && Sound(env, w) && Stamped(w) && WithoutActivation(h)
    ensures StampKept(w, Run(env, w, h)) && Numbered(w, Run(env, w, h))
  {
    if h != [] {
      var before := h[..|h| - 1];
      StampNeverGoesBack(env, w, before);
      StampedHolds(env, w, before);
      assert h[|h| - 1] in h;
      hide Sound, Next, Stamped;
      StampsAdvance(env, Run(env, w, before), h[|h| - 1]);
    }
  }

  lemma RunSplit(env: Env, w: World, h: seq<Step>, i: nat, j: nat)
    requires env.Valid() && Sound(env, w) && WithoutActivation(h) && i <= j <= |h|
    ensures WithoutActivation(h[i..j])
    ensures Run(env, w, h[..j]) == Run(env, Run(env, w, h[..i]), h[i..j])
  {
    assert h[..j] == h[..i] + h[i..j];
    RunOn(env, w, h[..i], h[i..j]);
  }

  /** A measurement that is handed out is about the last observation admitted. */
  lemma MeasurementNamesLast(env: Env, w: World, now: Time)
    requires env.Valid() && Sound(env, w) && StableMeasurement(env, w, now).Some?
    ensures var found, evidence := StableMeasurement(env, w, now).value, w.trace.evidence;
            && evidence != [] && Counts(env, evidence[|evidence| - 1])
            && found.rawError == SampleOf(env, evidence[|evidence| - 1]).raw
            && found.sequence == w.sequence && w.stableStamp == evidence[|evidence| - 1].stamp != 0.0
  {
    SoundTargetRests(env, w);
    hide RawOf, TableDockPose, TrackerRests, Linked;
    assert w.trace.evidence[|w.trace.evidence| - 1] in w.trace.evidence;
  }

  lemma NumbersOfLast(env: Env, w: World, next: World)
    requires EvidenceOrdered(env, next) && Numbered(w, next) && w.trace.evidence != []
    requires w.stableStamp == w.trace.evidence[|w.trace.evidence| - 1].stamp != 0.0
    requires next.stableStamp == next.trace.evidence[|next.trace.evidence| - 1].stamp
    ensures var a, b := w.trace.evidence, next.trace.evidence;
            && (w.sequence < next.sequence <==> |a| < |b|)
            && (w.sequence == next.sequence <==> a == b)
            && (w.sequence < next.sequence <==> a[|a| - 1].stamp < b[|b| - 1].stamp)
  {
    var a, b := w.trace.evidence, next.trace.evidence;
    assert b[|a| - 1] == a[|a| - 1];
    hide ChainEnds;
    if |a| == |b| {
      assert a == b;
    }
  }

  /** Between activations sequence numbers stand for observations: of two measurements handed out at different points of
      a run, the later has the larger number exactly when it is about a later observation, and the same number exactly
      when it is about the same one. */
  lemma NumbersAreObservations(env: Env, w: World, h: seq<Step>, i: nat, j: nat, earlier: Time, later: Time)
    requires env.Valid() && Sound(env, w) && Stamped(w) && WithoutActivation(h) && i <= j <= |h|
    requires StableMeasurement(env, Run(env, w, h[..i]), earlier).Some?
    requires StableMeasurement(env, Run(env, w, h[..j]), later).Some?
    ensures var a, b := Run(env, w, h[..i]).trace.evidence, Run(env, w, h[..j]).trace.evidence;
            var m := StableMeasurement(env, Run(env, w, h[..i]), earlier).value;
            var n := StableMeasurement(env, Run(env, w, h[..j]), later).value;
            && a != [] && a <= b
            && m.sequence <= n.sequence && (m.sequence < n.sequence <==> |a| < |b|)
            && (m.sequence == n.sequence <==> a == b)
            && (m.sequence < n.sequence <==> a[|a| - 1].stamp < b[|b| - 1].stamp)
  {
    hide *;
    var v, u := Run(env, w, h[..i]), Run(env, w, h[..j]);
    StampedHolds(env, w, h[..i]);
    RunSplit(env, w, h, i, j);
    StampNeverGoesBack(env, v, h[i..j]);
    MeasurementNamesLast(env, v, earlier);
    MeasurementNamesLast(env, u, later);
    SoundIsOrdered(env, u);
    NumbersOfLast(env, v, u);
    NumberedGrows(v, u);
  }

  lemma SoundIsOrdered(env: Env, w: World)
    requires Sound(env, w)
    ensures EvidenceOrdered(env, w)
  {
  }

  lemma NumberedGrows(w: World, next: World)
    requires Numbered(w, next)
    ensures w.sequence <= next.sequence && w.trace.evidence <= next.trace.evidence
  {
  }

  // ---------- What an activation and a recovery forget ----------

  /** A chosen profile starts from nothing: no pending message, no reference, no target and no stamps, under a new
      generation as of now. A refusal keeps all of that. */
  lemma ActivationForgets(env: Env, w: World, requested: string, undocking: bool, instance: string, now: Time)
    ensures var selection, next := Select(env, w, requested, undocking, instance, now),
                                   Activate(env, w, requested, undocking, instance, now);
            if selection.Chosen? then
              && next.profile == selection.profile && next.instance == selection.instance
              && next.generation == w.generation + 1 && next.activatedAt == now
              && next.pending.None? && next.stable.None? && next.lastStamp == 0.0 && next.stableStamp == 0.0
              && next.tracker.filtered.None? && next.tracker.previousRaw.None? && next.tracker.count == 0
              && next.sequence == w.sequence && next.job == w.job && next.boxes == w.boxes
            else
              && next.(profile := w.profile, instance := w.instance) == w
              && (selection.Refused? ==> next == w)
              && (selection.Overwritten? ==> next.profile == selection.profile && next.instance == "")
  {
    hide Select;
  }

  /** A failed pass forgets tracker and target under its own generation, and remembers its stamp as seen. */
  lemma RecoveryForgets(w: World)
    requires w.job.Failed?
    ensures var next := Recover(w);
            && next.job == NoJob
            && (w.job.view.generation != w.generation ==> next == w.(job := NoJob))
            && (w.job.view.generation == w.generation ==>
              && next.tracker.filtered.None? && next.tracker.previousRaw.None? && next.tracker.count == 0
              && next.stable.None? && next.lastStamp == w.job.stamp && next.pending == w.pending
              && next.sequence == w.sequence && next.stableStamp == w.stableStamp)
  {
  }

  // ---------- A refused activation ----------

  /** A tag standing upright, seen straight on. */
  const UPRIGHT := Tag(0.0, 0.0, 1.0, 0.0, 0.0, 1.0)

  lemma UprightCounts(env: Env, o: Offsets)
    requires env.tr.Laws()
    ensures TableDockPose(env.tr, UPRIGHT, o).Some?
  {
    env.tr.HypotIs(1.0, 0.0, 1.0);
    env.tr.HypotIs(0.0, 1.0, 1.0);
  }

  /** A pass that starts now and admits a tag of the active profile, late enough for the tracker to start afresh. */
  function NextPass(env: Env, w: World): seq<Step> {
    var stamp := Max(Max(w.activatedAt, w.lastStamp), Max(w.tracker.stamp, 0.0)) + env.tracking.timeout + 1.0;
    [Detections(w.profile.topic, Message(stamp, [Detection(w.profile.tagId, Finite(env.minimumMargin))])),
     TakeView, FetchMessage(stamp), CheckView, LookUp(At(UPRIGHT)), Observe(STOPPED)]
  }

  /** A request that is refused after replacing the active profile leaves the generation as it was, between two passes
      or in the middle of one: without a further activation the evidence stays the activated profile's own, whatever
      happens, exactly when the replacement is the same profile. */
  lemma RefusalMixesProfilesIff(env: Env, w: World, s: Step)
    requires env.Valid() && env.tr.Laws() && Sound(env, w) && Own(w) && s.Activation?
    requires Select(env, w, s.requested, s.undocking, s.instance, s.now).Overwritten?
    ensures Sound(env, Next(env, w, s)) && Next(env, w, s).generation == w.generation
    ensures (forall h: seq<Step> | WithoutActivation(h) ::
              forall e <- Run(env, Next(env, w, s), h).trace.evidence :: e.profile == w.trace.own)
            <==> Select(env, w, s.requested, s.undocking, s.instance, s.now).profile == w.trace.own
  {
    NextKeeps(env, w, s);
    var next := Next(env, w, s);
    OverwriteKeepsRest(env, w, s);
    hide Select, TableDockPose, Next, Sound, Run, NextPass, FinishPass, WithoutActivation, Own;
    if next.profile == w.trace.own {
      forall h: seq<Step> | WithoutActivation(h)
        ensures forall e <- Run(env, next, h).trace.evidence :: e.profile == w.trace.own
      {
        OwnRun(env, next, h);
        OwnIsOwn(Run(env, next, h));
      }
    } else {
      var h := MixingRun(env, next);
    }
  }

  lemma OwnIsOwn(w: World)
    requires Own(w)
    ensures forall e <- w.trace.evidence :: e.profile == w.trace.own
  {
  }

  /** A refusal that overwrites the profile changes nothing else that evidence depends on. */
  lemma OverwriteKeepsRest(env: Env, w: World, s: Step)
    requires env.Valid() && Tracking.Coherent(w.tracker) && Own(w) && s.Activation?
    requires Select(env, w, s.requested, s.undocking, s.instance, s.now).Overwritten?
    ensures var next, p := Next(env, w, s), Select(env, w, s.requested, s.undocking, s.instance, s.now).profile;
            && next.profile == p && next.generation == w.generation && next.trace == w.trace
            && (p == w.trace.own ==> Own(next))
  {
    hide Select;
  }

  /** A run that admits an observation made with the active profile. */
  lemma MixingRun(env: Env, w: World) returns (h: seq<Step>)
    requires env.Valid() && env.tr.Laws() && Sound(env, w)
    ensures WithoutActivation(h) && exists e <- Run(env, w, h).trace.evidence :: e.profile == w.profile
  {
    hide Run, NextPass, FinishPass, Sound, WithoutActivation;
    var finished := Run(env, w, FinishPass(w));
    PassFinishes(env, w);
    PassAdmits(env, finished);
    h := FinishPass(w) + NextPass(env, finished);
    BothWithout(FinishPass(w), NextPass(env, finished));
    RunOn(env, w, FinishPass(w), NextPass(env, finished));
  }

  lemma BothWithout(a: seq<Step>, b: seq<Step>)
    requires WithoutActivation(a) && WithoutActivation(b)
    ensures WithoutActivation(a + b)
  {
  }

  /** Steps that bring a pass in progress to its end, wherever it stands. */
  function FinishPass(w: World): seq<Step> {
    var early := if w.pending.Some? then w.pending.value.stamp - 1.0 else 0.0;
    [FetchMessage(early), CheckView, LookUp(NoTransform), Observe(STOPPED), GiveUp]
  }

  /** A pass over a detection from the future ends at once. */
  lemma FetchEarly(env: Env, w: World)
    requires w.job.Viewed?
    ensures Fetch(env, w, (if w.pending.Some? then w.pending.value.stamp - 1.0 else 0.0)) == w.(job := NoJob)
  {
    hide Shows;
  }

  /** How much of a pass is left. */
  function Left(job: Job): nat {
    match job
    case NoJob => 0
    case Viewed(_) => 5
    case Timely(_, _) => 4
    case Current(_, _) => 3
    case Measured(_, _, _) => 2
    case Failed(_, _) => 1
  }

  /** A step that leaves no more than `n` to do of a pass of which at most one more was left. */
  predicate Finishes(env: Env, w: World, s: Step, n: nat) {
    match s
    case FetchMessage(now) => n == 4 && (w.job.Viewed? ==> Fetch(env, w, now).job.NoJob?)
    case CheckView => n == 3
    case LookUp(sight) => n == 2 && sight.NoTransform?
    case Observe(_) => n == 1
    case GiveUp => n == 0
    case _ => false
  }

  lemma FinishStep(env: Env, w: World, s: Step, n: nat)
    requires env.Valid() && Tracking.Coherent(w.tracker) && Left(w.job) <= n + 1 && Finishes(env, w, s, n)
    ensures var next := Next(env, w, s);
            Left(next.job) <= n && next.profile == w.profile && next.pending == w.pending
  {
    hide Shows, Settle, TableDockPose, Tracking.Observe, Tracking.Extend, Tracking.Coherent;
    if s.Observe? && w.job.Measured? { CommitTrace(env, w, s.command); CommitKeepsInputs(env, w, s.command); }
    hide Commit;
  }

  lemma CommitKeepsInputs(env: Env, w: World, command: Velocity)
    requires env.Valid() && w.job.Measured? && Tracking.Coherent(w.tracker)
    ensures Commit(env, w, command).pending == w.pending
  {
    hide ReadingOf, EvidenceOf, PoseOf, Tracking.Observe, Tracking.Extend;
  }

  lemma PassFinishes(env: Env, w: World)
    requires env.Valid() && Sound(env, w)
    ensures WithoutActivation(FinishPass(w))
    ensures var finished := Run(env, w, FinishPass(w)); finished.job.NoJob? && finished.profile == w.profile
  {
    var h := FinishPass(w);
    FinishPassIs(env, w);
    hide Next, Fetch, Sound, FinishPass, Left, Finishes;
    assert Run(env, w, []) == w;
    var h1, h2, h3, h4 := [] + [h[0]], [h[0]] + [h[1]], [h[0], h[1]] + [h[2]], [h[0], h[1], h[2]] + [h[3]];
    assert h1 == [h[0]] && h2 == [h[0], h[1]] && h3 == [h[0], h[1], h[2]] && h == h4 + [h[4]];
    RunFinishes(env, w, [], h[0], 4);
    RunFinishes(env, w, h1, h[1], 3);
    RunFinishes(env, w, h2, h[2], 2);
    RunFinishes(env, w, h3, h[3], 1);
    RunFinishes(env, w, h4, h[4], 0);
    NothingLeft(Run(env, w, h).job);
  }

  lemma NothingLeft(job: Job)
    ensures Left(job) <= 5 && (Left(job) == 0 ==> job.NoJob?)
  {
  }

  lemma FinishPassIs(env: Env, w: World)
    ensures var h := FinishPass(w);
            && |h| == 5 && h == [h[0], h[1], h[2], h[3], h[4]] && WithoutActivation(h)
            && Finishes(env, w, h[0], 4) && Left(w.job) <= 5
            && forall v :: Finishes(env, v, h[1], 3) && Finishes(env, v, h[2], 2) && Finishes(env, v, h[3], 1)
                           && Finishes(env, v, h[4], 0)
  {
    if w.job.Viewed? { FetchEarly(env, w); }
    hide Fetch;
  }

  lemma RunFinishes(env: Env, w: World, h: seq<Step>, s: Step, n: nat)
    requires env.Valid() && Sound(env, w)
    requires Left(Run(env, w, h).job) <= n + 1 && Finishes(env, Run(env, w, h), s, n)
    ensures Left(Run(env, w, h + [s]).job) <= n && Run(env, w, h + [s]).profile == Run(env, w, h).profile
  {
    hide Next, Sound, Left, Finishes, Tracking.Coherent;
    SoundIsCoherent(env, Run(env, w, h));
    RunStep(env, w, h, s);
    FinishStep(env, Run(env, w, h), s, n);
  }

  lemma {:induction false} RunOn(env: Env, w: World, h: seq<Step>, more: seq<Step>)
    requires env.Valid() && Sound(env, w)
    ensures Run(env, w, h + more) == Run(env, Run(env, w, h), more)
  {
    hide Next, Sound;
    if more == [] {
      assert h + more == h;
    } else {
      var before, s := more[..|more| - 1], more[|more| - 1];
      RunOn(env, w, h, before);
      assert h + more == h + before + [s] && more == before + [s];
      RunStep(env, w, h + before, s);
      RunStep(env, Run(env, w, h), before, s);
    }
  }

  lemma RunStep(env: Env, w: World, h: seq<Step>, s: Step)
    requires env.Valid() && Sound(env, w)
    ensures Run(env, w, h + [s]) == Next(env, Run(env, w, h), s)
  {
    assert (h + [s])[..|h|] == h;
  }

  lemma Fetched(env: Env, w: World, now: Time)
    requires env.Valid() && Tracking.Coherent(w.tracker) && w.job.Viewed? && w.pending.Some?
    requires w.pending.value.stamp == now && now != 0.0 && now >= w.job.view.activatedAt
    requires Shows(env, w.pending.value, w.job.view.profile.tagId)
    ensures Next(env, w, FetchMessage(now)) == w.(job := Timely(w.job.view, now))
  {
    hide Shows;
  }

  lemma Checked(env: Env, w: World)
    requires env.Valid() && Tracking.Coherent(w.tracker) && w.job.Timely? && !Outdated(w, w.job.view, w.job.stamp)
    ensures Next(env, w, CheckView) == w.(job := Current(w.job.view, w.job.stamp))
  {
  }

  lemma LookedUp(env: Env, w: World, tag: Tag)
    requires env.Valid() && Tracking.Coherent(w.tracker) && w.job.Current?
    requires TableDockPose(env.tr, tag, w.job.view.profile.offsets).Some?
    ensures Next(env, w, LookUp(At(tag))) == w.(job := Measured(w.job.view, w.job.stamp, At(tag)))
  {
    hide TableDockPose;
  }

  lemma Started(env: Env, w: World, message: Message)
    requires env.Valid() && Tracking.Coherent(w.tracker) && w.job.NoJob?
    ensures var arrived := Next(env, w, Detections(w.profile.topic, message));
            && arrived == w.(pending := Some(message))
            && Next(env, arrived, TakeView) == arrived.(job := Viewed(View(w.profile, w.generation, w.activatedAt)))
  {
  }

  /** The pass up to its measurement. */
  lemma PassMeasures(env: Env, w: World)
    requires env.Valid() && env.tr.Laws() && Sound(env, w) && w.job.NoJob?
    ensures var h := NextPass(env, w);
            var before := Run(env, w, h[..5]);
            && |h| == 6 && before.trace == w.trace && before.tracker == w.tracker && before.lastStamp == w.lastStamp
            && before.generation == w.generation
            && before.job == Measured(View(w.profile, w.generation, w.activatedAt), h[2].now, At(UPRIGHT))
  {
    UprightCounts(env, w.profile.offsets);
    var h := NextPass(env, w);
    var message := h[0].message;
    assert message.detections[0] in message.detections && Shows(env, message, w.profile.tagId);
    assert Tracking.Coherent(w.tracker);
    assert h[..0] == [] && h[..1] == h[..0] + [h[0]] && h[..2] == h[..1] + [h[1]];
    assert h[..3] == h[..2] + [h[2]] && h[..4] == h[..3] + [h[3]] && h[..5] == h[..4] + [h[4]];
    assert !Outdated(w, View(w.profile, w.generation, w.activatedAt), h[2].now);
    hide Shows, Next, Sound, TableDockPose, Tracking.Coherent;
    Started(env, w, message);
    RunStep(env, w, h[..0], h[0]);
    RunStep(env, w, h[..1], h[1]);
    Fetched(env, Run(env, w, h[..2]), h[2].now);
    RunStep(env, w, h[..2], h[2]);
    Checked(env, Run(env, w, h[..3]));
    RunStep(env, w, h[..3], h[3]);
    LookedUp(env, Run(env, w, h[..4]), UPRIGHT);
    RunStep(env, w, h[..4], h[4]);
  }

  lemma LateIsAccepted(env: Env, t: Tracking.TrackState, reading: Reading, stamp: Time, command: Velocity)
    requires env.Valid() && Tracking.Coherent(t) && reading.IsFinite() && stamp > t.stamp + env.tracking.timeout
    ensures Tracking.Observe(env.tr, env.tracking, t, reading, stamp, command).1
  {
  }

  lemma LateCommitAdmits(env: Env, w: World, command: Velocity)
    requires env.Valid() && Tracking.Coherent(w.tracker) && w.job.Measured? && !Outdated(w, w.job.view, w.job.stamp)
    requires w.job.stamp > w.tracker.stamp + env.tracking.timeout
    requires w.job.sight.At? && TableDockPose(env.tr, w.job.sight.tag, w.job.view.profile.offsets).Some?
    ensures Commit(env, w, command).trace.evidence == w.trace.evidence + [EvidenceOf(w.job)]
  {
    hide Tracking.Observe, Tracking.Extend, TableDockPose, PoseOf, Tracking.IsReady;
    LateIsAccepted(env, w.tracker, ReadingOf(env, w.job.view.profile, w.job.sight), w.job.stamp, command);
  }

  lemma PassAdmits(env: Env, w: World)
    requires env.Valid() && env.tr.Laws() && Sound(env, w) && w.job.NoJob?
    ensures WithoutActivation(NextPass(env, w))
    ensures exists e <- Run(env, w, NextPass(env, w)).trace.evidence :: e.profile == w.profile
  {
    var h := NextPass(env, w);
    UprightCounts(env, w.profile.offsets);
    PassMeasures(env, w);
    PassIsLate(env, w);
    hide Run, NextPass, Sound, TableDockPose, Next, Tracking.Coherent, Tracking.RestsOn;
    var before := Run(env, w, h[..5]);
    assert h == h[..5] + [h[5]];
    RunStep(env, w, h[..5], h[5]);
    PassEnds(env, before);
  }

  lemma PassEnds(env: Env, w: World)
    requires env.Valid() && Tracking.Coherent(w.tracker) && w.job.Measured? && !Outdated(w, w.job.view, w.job.stamp)
    requires w.job.stamp > w.tracker.stamp + env.tracking.timeout
    requires w.job.sight.At? && TableDockPose(env.tr, w.job.sight.tag, w.job.view.profile.offsets).Some?
    ensures exists e <- Next(env, w, Observe(STOPPED)).trace.evidence :: e.profile == w.job.view.profile
  {
    LateCommitAdmits(env, w, STOPPED);
    hide Commit, TableDockPose;
    assert EvidenceOf(w.job) in Next(env, w, Observe(STOPPED)).trace.evidence;
  }

  lemma PassIsLate(env: Env, w: World)
    requires env.Valid()
    ensures var h := NextPass(env, w);
            && |h| == 6 && h[5] == Observe(STOPPED) && WithoutActivation(h) && h[2].FetchMessage?
            && h[2].now > w.lastStamp && h[2].now > w.tracker.stamp + env.tracking.timeout
  {
  }

  // ---------- The detector ----------

  /** The measurement half of the server: its fields, and the sections of code between two locks. */
  class Detector {
    const env: Env
    const tracker: Tracking.Tracker
    var profile: Profile
    var instance: string
    var generation: nat
    var activatedAt: Time
    var pending: Option<Message>
    var boxes: map<string, Box>
    var stable: Option<Pose>
    var rawError: PlanarError
    var lastStamp: Time
    var stableStamp: Time
    var sequence: nat
    var lastDocked: string
    var lastTarget: Option<Profile>
    var lastInstance: string
    var job: Job
    ghost var trace: Trace

    constructor (env: Env, profile: Profile)
      ensures this.env == env && fresh(tracker) && Valid() && Now() == Start(profile)
    {
      this.env := env;
      tracker := new Tracking.Tracker(env.tr, env.tracking);
      this.profile, instance, generation, activatedAt := profile, "", 0, 0.0;
      pending, boxes, stable, rawError := None, map[], None, NO_ERROR;
      lastStamp, stableStamp, sequence := 0.0, 0.0, 0;
      lastDocked, lastTarget, lastInstance := "", None, "";
      job, trace := NoJob, Trace(profile, [], []);
    }

    ghost predicate Valid() {
      tracker.tr == env.tr && tracker.c == env.tracking
    }

    ghost function Now(): World
      reads this, tracker
    {
      World(profile, instance, generation, activatedAt, pending, boxes, tracker.State(), stable, rawError, lastStamp,
            stableStamp, sequence, lastDocked, lastTarget, lastInstance, job, trace)
    }

    /** The lookups that decide which profile to use. */
    method ChooseProfile(requested: string, undocking: bool, box: string, now: Time) returns (chosen: bool)
      modifies this
      ensures var was := old(Now());
              var selection := Select(env, was, requested, undocking, box, now);
              && chosen == selection.Chosen?
              && Now() == match selection
                          case Refused => was
                          case Overwritten(p) => was.(profile := p, instance := "")
                          case Chosen(p, of) => was.(profile := p, instance := of)
    {
      var selection := requested;
      if !undocking && box != "" {
        if box !in boxes || now - boxes[box].stamp < 0.0 || now - boxes[box].stamp > env.maximumAge {
          return false;
        }
        if selection == "" {
          selection := boxes[box].defaultProfile;
        }
        if selection == "" || selection !in boxes[box].profiles {
          return false;
        }
      }
      var resolved := Resolve(env, selection, if undocking then lastDocked else "");
      if resolved.None? {
        return false;
      }
      profile := resolved.value;
      instance := "";
      if profile.forBox {
        if !undocking {
          if box == "" || boxes[box].tagFrame == "" {
            return false;
          }
          var bound := Bind(env, profile, box, boxes[box].tagFrame);
          if bound.None? {
            return false;
          }
          profile := bound.value;
          instance := box;
        } else if lastTarget.Some? && lastTarget.value.name == profile.name {
          profile := lastTarget.value;
          instance := lastInstance;
        } else if !profile.timedReverse {
          return false;
        }
      } else if box != "" {
        return false;
      }
      return true;
    }

    method ActivateProfile(requested: string, undocking: bool, box: string, now: Time) returns (activated: bool)
      modifies this, tracker
      ensures activated == Select(env, old(Now()), requested, undocking, box, now).Chosen?
      ensures Now() == Activate(env, old(Now()), requested, undocking, box, now)
    {
      hide Select, Restart;
      activated := ChooseProfile(requested, undocking, box, now);
      if activated {
        ghost var chosen := Now();
        BeginAcquisition(now);
        RestartAfterChoice(old(Now()), chosen, now);
      }
    }

    method BeginAcquisition(now: Time)
      modifies this, tracker
      ensures Now() == Restart(old(Now()), old(profile), old(instance), now)
    {
      ForgetTarget();
      generation, activatedAt, pending := generation + 1, now, None;
      trace := Trace(profile, [], []);
    }

    method ForgetTarget()
      modifies this`stable, this`rawError, this`lastStamp, this`stableStamp, tracker
      ensures stable == None && rawError == NO_ERROR && lastStamp == 0.0 && stableStamp == 0.0
      ensures tracker.State() == Forget(old(tracker.State()))
    {
      tracker.Reset();
      stable, rawError, lastStamp, stableStamp := None, NO_ERROR, 0.0, 0.0;
    }

    method OnDetections(topic: string, message: Message)
      modifies this`pending
      ensures pending == if topic == profile.topic then Some(message) else old(pending)
    {
      if topic == profile.topic {
        pending := Some(message);
      }
    }

    method TakeSnapshot()
      requires job.NoJob?
      modifies this`job
      ensures job == Viewed(View(profile, generation, activatedAt))
    {
      job := Viewed(View(profile, generation, activatedAt));
    }

    method FetchPending(now: Time)
      requires job.Viewed?
      modifies this`job
      ensures Now() == Fetch(env, old(Now()), now)
    {
      var view := job.view;
      job := NoJob;
      if pending.None? {
        return;
      }
      var stamp := pending.value.stamp;
      if !Shows(env, pending.value, view.profile.tagId) || stamp == 0.0 || stamp < view.activatedAt {
        return;
      }
      var age := now - stamp;
      if age < 0.0 || age > env.AgeLimit() {
        return;
      }
      job := Timely(view, stamp);
    }

    method CheckGeneration()
      requires job.Timely?
      modifies this`job
      ensures Now() == Precheck(old(Now()))
    {
      if job.view.generation != generation || (lastStamp != 0.0 && job.stamp <= lastStamp) {
        job := NoJob;
      } else {
        job := Current(job.view, job.stamp);
      }
    }

    method CommitMeasurement(command: Velocity)
      requires Valid() && env.Valid() && job.Measured? && Tracking.Coherent(tracker.State())
      modifies this, tracker
      ensures Now() == Commit(env, old(Now()), command)
    {
      hide ReadingOf, EvidenceOf, Settle, Tracking.Extend, Tracking.Observe, Tracking.Coherent;
      var view, stamp, reading := job.view, job.stamp, ReadingOf(env, job.view.profile, job.sight);
      ghost var evidence := EvidenceOf(job);
      ghost var chain := Tracking.Extend(env.tr, env.tracking, tracker.State(), trace.chain, reading, stamp, command);
      job := NoJob;
      if view.generation != generation || (lastStamp != 0.0 && stamp <= lastStamp) {
        return;
      }
      lastStamp := stamp;
      ghost var was := tracker.State();
      var accepted := tracker.OnObservation(reading, stamp, command);
      if !accepted {
        return;
      }
      Tracking.AcceptedIsReference(env.tr, env.tracking, was, trace.chain, reading, stamp, command);
      trace := Trace(trace.own, trace.evidence + [evidence], chain);
      UpdateTarget(reading, stamp);
    }

    method UpdateTarget(reading: Reading, stamp: Time)
      requires Valid() && reading.IsFinite()
      modifies this
      ensures Now() == Settle(env, old(Now()), reading, stamp)
    {
      var ready := tracker.Ready();
      if !ready {
        stable := None;
        return;
      }
      stable := Some(PoseOf(env.tr, tracker.filtered.value));
      rawError := reading.Error();
      stableStamp := stamp;
      sequence := sequence + 1;
    }

    method RecoverFromFailure()
      requires job.Failed?
      modifies this, tracker
      ensures Now() == Recover(old(Now()))
    {
      var stamp, current := job.stamp, job.view.generation == generation;
      job := NoJob;
      if current {
        tracker.Reset();
        stable := None;
        lastStamp := stamp;
        trace := trace.(chain := []);
      }
    }

    method Measure(now: Time) returns (target: Option<Target>)
      ensures target == StableMeasurement(env, Now(), now)
    {
      if stable.None? || stableStamp == 0.0 || now - stableStamp < 0.0 || now - stableStamp > env.AgeLimit() {
        return None;
      }
      target := Some(Target(stable.value, sequence, rawError, now - stableStamp));
    }
  }
}
