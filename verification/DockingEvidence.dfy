/** A docking or tag-relative undocking that reports success, tied to the tag observations it measured. */
module DockingEvidence {
  import opened Basics
  import opened HolonomicFineAlign
  import opened PlanarGeometry
  import Pipeline = DetectionPipeline
  import Settling = TagSettling
  import Workers = FineAlignWorkers

  /** When a pass reads the stable measurement: after how many steps of the pipeline's run, and the clock then. */
  datatype Instant = Instant(steps: nat, now: Time)

  function ReadingFrom(e: PlanarError): Reading {
    Reading(Finite(e.x), Finite(e.y), Finite(e.yaw))
  }

  /** What a pass makes of the measurement the pipeline hands out. A docking works down the error of the filtered target
      and checks the raw one; an undocking turns both into errors of its retreat. */
  predicate Sees(env: Pipeline.Env, docking: bool, w: Pipeline.World, now: Time, g: Workers.Glance) {
    match Pipeline.StableMeasurement(env, w, now)
    case None => g.measured.None?
    case Some(t) =>
      && g.measured.Some?
      && var m := g.measured.value;
         && m.sequence == t.sequence && m.observed == t.rawError
         && (docking ==>
           m.raw == ReadingFrom(t.rawError) && m.error == ReadingFrom(ErrorBetween(env.tr, IDENTITY, t.pose)))
  }

  /** The first glances are taken along the pipeline's run `h` from `w`. */
  ghost predicate TakenAlong(env: Pipeline.Env, docking: bool, w: Pipeline.World, h: seq<Pipeline.Step>,
                             instants: seq<Instant>, glances: seq<Workers.Glance>)
    requires env.Valid() && Pipeline.Sound(env, w)
  {
    && |instants| <= |glances|
    && (forall i, j | 0 <= i < j < |instants| :: instants[i].steps <= instants[j].steps)
    && forall k | 0 <= k < |instants| ::
         instants[k].steps <= |h|
         && Sees(env, docking, Pipeline.Run(env, w, h[..instants[k].steps]), instants[k].now, glances[k])
  }

  /** A pass is about the observation `e`. */
  ghost predicate Of(env: Pipeline.Env, docking: bool, pass: Settling.Pass, e: Pipeline.Evidence) {
    && Pipeline.Counts(env, e)
    && pass.observed == Pipeline.SampleOf(env, e).raw && (docking ==> pass.raw == ReadingFrom(pass.observed))
  }

  /** A pass that read a measurement is about the last observation admitted by then. */
  lemma PassIsOfLast(env: Pipeline.Env, docking: bool, w: Pipeline.World, now: Time, g: Workers.Glance,
                     pass: Settling.Pass)
    requires env.Valid() && Pipeline.Sound(env, w) && Sees(env, docking, w, now, g) && Workers.Reads(pass, g)
    ensures Pipeline.StableMeasurement(env, w, now).Some?
    ensures Pipeline.StableMeasurement(env, w, now).value.sequence == pass.sequence
    ensures w.trace.evidence != [] && Of(env, docking, pass, w.trace.evidence[|w.trace.evidence| - 1])
  {
    Pipeline.MeasurementNamesLast(env, w, now);
    hide Pipeline.Sound, Pipeline.SampleOf, Pipeline.Counts, Pipeline.StableMeasurement;
  }

  /** Evidence is only added to. */
  lemma EvidenceOfPrefix(env: Pipeline.Env, w: Pipeline.World, h: seq<Pipeline.Step>, i: nat)
    requires env.Valid() && Pipeline.Sound(env, w) && Pipeline.Stamped(w) && Pipeline.WithoutActivation(h) && i <= |h|
    ensures Pipeline.Run(env, w, h[..i]).trace.evidence <= Pipeline.Run(env, w, h).trace.evidence
  {
    assert h[..|h|] == h;
    Pipeline.StampedHolds(env, w, h[..i]);
    Pipeline.RunSplit(env, w, h, i, |h|);
    Pipeline.StampNeverGoesBack(env, Pipeline.Run(env, w, h[..i]), h[i..|h|]);
    hide Pipeline.Sound, Pipeline.Run, Pipeline.Stamped;
  }

  /** Two passes with different sequence numbers are about different observations, the later about the later one. */
  lemma PassesOfTwo(env: Pipeline.Env, docking: bool, w: Pipeline.World, h: seq<Pipeline.Step>, i: Instant, j: Instant,
                    g: Workers.Glance, k: Workers.Glance, p: Settling.Pass, q: Settling.Pass)
    returns (a: nat, b: nat)
    requires env.Valid() && Pipeline.Sound(env, w) && Pipeline.Stamped(w) && Pipeline.WithoutActivation(h)
    requires i.steps <= j.steps <= |h|
    requires Sees(env, docking, Pipeline.Run(env, w, h[..i.steps]), i.now, g) && Workers.Reads(p, g)
    requires Sees(env, docking, Pipeline.Run(env, w, h[..j.steps]), j.now, k) && Workers.Reads(q, k)
    requires p.sequence < q.sequence
    ensures var evidence := Pipeline.Run(env, w, h).trace.evidence;
            a < b < |evidence| && Of(env, docking, p, evidence[a]) && Of(env, docking, q, evidence[b])
  {
    hide *;
    var v, u := Pipeline.Run(env, w, h[..i.steps]), Pipeline.Run(env, w, h[..j.steps]);
    PassIsOfLast(env, docking, v, i.now, g, p);
    PassIsOfLast(env, docking, u, j.now, k, q);
    Pipeline.NumbersAreObservations(env, w, h, i.steps, j.steps, i.now, j.now);
    EvidenceOfPrefix(env, w, h, i.steps);
    EvidenceOfPrefix(env, w, h, j.steps);
    a, b := |v.trace.evidence| - 1, |u.trace.evidence| - 1;
  }

  /** The observations at `a` and `b` were computed from the profile `p`, stamped in this order from `since` on, and the
      passes `j` and the last are about them. */
  ghost predicate Names(env: Pipeline.Env, docking: bool, evidence: seq<Pipeline.Evidence>, p: Pipeline.Profile,
                        since: Time, passes: seq<Settling.Pass>, j: nat, a: nat, b: nat)
  {
    && a < b < |evidence| && j < |passes|
    && evidence[a].profile == p && evidence[b].profile == p
    && since <= evidence[a].stamp < evidence[b].stamp
    && Of(env, docking, passes[j], evidence[a]) && Of(env, docking, passes[|passes| - 1], evidence[b])
  }

  /** Evidence of the active profile is in order. */
  lemma OwnInOrder(env: Pipeline.Env, w: Pipeline.World, h: seq<Pipeline.Step>, a: nat, b: nat)
    requires env.Valid() && Pipeline.Sound(env, w) && Pipeline.Own(w) && Pipeline.WithoutActivation(h)
    requires a < b < |Pipeline.Run(env, w, h).trace.evidence|
    ensures var evidence := Pipeline.Run(env, w, h).trace.evidence;
            && evidence[a].profile == w.trace.own && evidence[b].profile == w.trace.own
            && w.activatedAt <= evidence[a].stamp < evidence[b].stamp
  {
    Pipeline.OwnRun(env, w, h);
    var u := Pipeline.Run(env, w, h);
    assert Pipeline.EvidenceOrdered(env, u);
    assert u.trace.evidence[a] in u.trace.evidence && u.trace.evidence[b] in u.trace.evidence;
    hide Pipeline.Sound, Pipeline.Run, Pipeline.ChainEnds;
  }

  /** A loop that succeeds while a profile is active names two admitted observations of that profile, both made since
      its activation: those at which its rest began and ended. */
  lemma LoopNamesObservations(env: Pipeline.Env, w: Pipeline.World, h: seq<Pipeline.Step>, task: Workers.Task,
                              start: Time, deadline: Time, glances: seq<Workers.Glance>, r: Workers.Ran,
                              instants: seq<Instant>)
    returns (j: nat, a: nat, b: nat)
    requires env.Valid() && Pipeline.Sound(env, w) && Pipeline.Stamped(w) && Pipeline.Own(w)
    requires Pipeline.WithoutActivation(h)
    requires Workers.LoopRan(task, start, deadline, glances, r) && r.code == Workers.Success
    requires |instants| == |r.passes| && TakenAlong(env, task.docking, w, h, instants, glances)
    ensures Settling.RestedSince(task.dwell, task.setup.config, r.passes, j)
    ensures Names(env, task.docking, Pipeline.Run(env, w, h).trace.evidence, w.trace.own, w.activatedAt, r.passes, j, a,
                  b)
  {
    hide Pipeline.Sound, Pipeline.Run, Pipeline.Stamped, Pipeline.Own, Workers.LoopRan, Sees, Of, Workers.Reads;
    hide Pipeline.WithoutActivation, Settling.StoppedAtGoal, Settling.Near;
    Workers.LoopSuccessRests(task, start, deadline, glances, r);
    j :| Settling.RestedSince(task.dwell, task.setup.config, r.passes, j);
    var last := |r.passes| - 1;
    LoopReads(task, start, deadline, glances, r, j);
    LoopReads(task, start, deadline, glances, r, last);
    a, b := PassesOfTwo(env, task.docking, w, h, instants[j], instants[last], glances[j], glances[last], r.passes[j],
                        r.passes[last]);
    OwnInOrder(env, w, h, a, b);
  }

  lemma LoopReads(task: Workers.Task, start: Time, deadline: Time, glances: seq<Workers.Glance>, r: Workers.Ran, k: nat)
    requires Workers.LoopRan(task, start, deadline, glances, r) && k < |r.passes|
    ensures |r.passes| <= |glances| && Workers.Reads(r.passes[k], glances[k])
  {
    hide Workers.Driven, Workers.Ended, Workers.EndOf, Workers.Rested, Workers.Reads, Workers.Interrupted;
  }

  /** A docking that succeeds did so in the loop of its last attempt. */
  lemma SuccessIsTheLastLoop(task: Workers.Task, attempts: seq<Workers.Attempt>, runs: seq<Workers.Ran>)
    requires Workers.DockRan(task, true, attempts, runs) && Workers.DockCode(attempts, runs) == Workers.Success
    ensures var i := |runs| - 1;
            && 0 <= i < |attempts| && runs[i].code == Workers.Success
            && Workers.LoopRan(task, attempts[i].start, attempts[i].deadline, attempts[i].glances, runs[i])
  {
    var i := |runs| - 1;
    assert Workers.AttemptAt(task, true, attempts, i, runs[i]);
    Workers.FailureIsNoSuccess(attempts[i], Workers.MinimumOf(attempts, i));
    hide Workers.LoopRan, Workers.AttemptFails, Workers.Continues;
  }

  /** The pipeline right after a step that activates a profile. */
  ghost function Activated(env: Pipeline.Env, w: Pipeline.World, s: Pipeline.Step): (next: Pipeline.World)
    requires env.Valid() && Pipeline.Sound(env, w) && Pipeline.Stamped(w) && s.Activation?
    requires Pipeline.Select(env, w, s.requested, s.undocking, s.instance, s.now).Chosen?
    ensures Pipeline.Sound(env, next) && Pipeline.Stamped(next) && Pipeline.Own(next)
    ensures next.trace.own == Pipeline.Select(env, w, s.requested, s.undocking, s.instance, s.now).profile
    ensures next.activatedAt == s.now && next.trace.evidence == []
  {
    hide Pipeline.Select;
    Pipeline.NextKeeps(env, w, s);
    Pipeline.StampsAdvance(env, w, s);
    Pipeline.Next(env, w, s)
  }

  /** The docking pose computed from the observation is within tolerance. */
  ghost predicate WithinTolerance(env: Pipeline.Env, config: Config, e: Pipeline.Evidence) {
    Pipeline.Counts(env, e) && AtGoal(ReadingFrom(Pipeline.SampleOf(env, e).raw), config)
  }

  /** The loop rested from pass `j` to the last, which are about the observations `a` and `b` of the profile `p`, both
      within tolerance and made since its activation. */
  ghost predicate RestsOnTwo(env: Pipeline.Env, evidence: seq<Pipeline.Evidence>, p: Pipeline.Profile, since: Time,
                             task: Workers.Task, passes: seq<Settling.Pass>, j: nat, a: nat, b: nat)
  {
    && Settling.RestedSince(task.dwell, task.setup.config, passes, j)
    && Names(env, task.docking, evidence, p, since, passes, j, a, b)
    && WithinTolerance(env, task.setup.config, evidence[a]) && WithinTolerance(env, task.setup.config, evidence[b])
  }

  lemma RestIsOfTwo(env: Pipeline.Env, evidence: seq<Pipeline.Evidence>, p: Pipeline.Profile, since: Time,
                    task: Workers.Task, passes: seq<Settling.Pass>, j: nat, a: nat, b: nat)
    requires Names(env, task.docking, evidence, p, since, passes, j, a, b)
    requires task.docking && Settling.RestedSince(task.dwell, task.setup.config, passes, j)
    ensures RestsOnTwo(env, evidence, p, since, task, passes, j, a, b)
  {
    hide Pipeline.SampleOf, Pipeline.Counts, AtGoal, Settling.Near;
  }

  /** The docking theorem: an executed docking that reports success rests on two admitted observations of its own
      profile made after its activation, the second later than the first, whose docking poses were both within
      tolerance; and the robot was commanded to stand still from the one to the other. */
  lemma DockingNamesObservations(env: Pipeline.Env, w: Pipeline.World, s: Pipeline.Step, h: seq<Pipeline.Step>,
                                 task: Workers.Task, attempts: seq<Workers.Attempt>, runs: seq<Workers.Ran>,
                                 instants: seq<Instant>)
    returns (j: nat, a: nat, b: nat)
    requires env.Valid() && Pipeline.Sound(env, w) && Pipeline.Stamped(w)
    requires s.Activation? && Pipeline.WithoutActivation(h)
    requires Pipeline.Select(env, w, s.requested, s.undocking, s.instance, s.now).Chosen?
    requires Workers.DockRan(task, true, attempts, runs) && Workers.DockCode(attempts, runs) == Workers.Success
    requires |instants| == |runs[|runs| - 1].passes|
    requires task.docking && TakenAlong(env, true, Activated(env, w, s), h, instants, attempts[|runs| - 1].glances)
    ensures RestsOnTwo(env, Pipeline.Run(env, Activated(env, w, s), h).trace.evidence,
                       Pipeline.Select(env, w, s.requested, s.undocking, s.instance, s.now).profile, s.now, task,
                       runs[|runs| - 1].passes, j, a, b)
  {
    hide *;
    SuccessIsTheLastLoop(task, attempts, runs);
    var i, active := |runs| - 1, Activated(env, w, s);
    j, a, b := LoopNamesObservations(env, active, h, task, attempts[i].start, attempts[i].deadline,
                                     attempts[i].glances, runs[i], instants);
    RestIsOfTwo(env, Pipeline.Run(env, active, h).trace.evidence, active.trace.own, s.now, task, runs[i].passes, j, a,
                b);
  }

  /** The same for a tag-relative undocking, whose retreat errors were within tolerance in both passes. */
  lemma UndockingNamesObservations(env: Pipeline.Env, w: Pipeline.World, s: Pipeline.Step, h: seq<Pipeline.Step>,
                                   task: Workers.Task, start: Time, deadline: Time, glances: seq<Workers.Glance>,
                                   r: Workers.Ran, instants: seq<Instant>)
    returns (j: nat, a: nat, b: nat)
    requires env.Valid() && Pipeline.Sound(env, w) && Pipeline.Stamped(w)
    requires s.Activation? && Pipeline.WithoutActivation(h)
    requires Pipeline.Select(env, w, s.requested, s.undocking, s.instance, s.now).Chosen?
    requires Workers.LoopRan(task, start, deadline, glances, r) && r.code == Workers.Success
    requires !task.docking && |instants| == |r.passes|
    requires TakenAlong(env, false, Activated(env, w, s), h, instants, glances)
    ensures Settling.RestedSince(task.dwell, task.setup.config, r.passes, j)
    ensures Names(env, false, Pipeline.Run(env, Activated(env, w, s), h).trace.evidence,
                  Pipeline.Select(env, w, s.requested, s.undocking, s.instance, s.now).profile, s.now, r.passes, j, a,
                  b)
  {
    hide *;
    j, a, b := LoopNamesObservations(env, Activated(env, w, s), h, task, start, deadline, glances, r, instants);
  }

  /** A retry begins with an observation stamped later than the target there was when the attempt before it failed. */
  lemma RetryBeginsWithLaterObservation(env: Pipeline.Env, w: Pipeline.World, h: seq<Pipeline.Step>, failed: nat,
                                        found: Instant, waits: seq<Workers.Wait>, deadline: Time, latest: nat)
    requires env.Valid() && Pipeline.Sound(env, w) && Pipeline.Stamped(w) && Pipeline.WithoutActivation(h)
    requires failed <= found.steps <= |h| && latest == Pipeline.Run(env, w, h[..failed]).sequence
    requires var target := Pipeline.StableMeasurement(env, Pipeline.Run(env, w, h[..found.steps]), found.now);
             var seen := Workers.WaitFor(waits, deadline, latest);
             seen.Some? && target.Some? && target.value.sequence == seen.value.sequence
    ensures var before, after := Pipeline.Run(env, w, h[..failed]), Pipeline.Run(env, w, h[..found.steps]);
            && after.trace.evidence != []
            && after.trace.evidence[|after.trace.evidence| - 1].stamp == after.stableStamp
            && (before.stableStamp != 0.0 ==> before.stableStamp < after.stableStamp)
  {
    var before, after := Pipeline.Run(env, w, h[..failed]), Pipeline.Run(env, w, h[..found.steps]);
    Pipeline.StampedHolds(env, w, h[..failed]);
    Pipeline.RunSplit(env, w, h, failed, found.steps);
    Pipeline.StampNeverGoesBack(env, before, h[failed..found.steps]);
    Pipeline.MeasurementNamesLast(env, after, found.now);
    hide Pipeline.Sound, Pipeline.Run, Pipeline.Stamped, Pipeline.StableMeasurement, Workers.WaitFor;
  }
}
