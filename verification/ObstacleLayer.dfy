/** The obstacle layer's queues of clouds waiting for their transforms, polled once per costmap update. */
module ObstacleLayer {
  import opened Basics

  const MAX_PENDING := 50

  datatype Cloud = Cloud(frame: string, sec: int, nanosec: nat)

  datatype Pending = Pending(cloud: Cloud, received: Time)

  /** A queued cloud with its arrival number at its source. */
  datatype Entry = Entry(ticket: nat, pending: Pending)

  /** What one visit sees: the clock, and whether both transforms are there. */
  datatype Look = Look(now: Time, ready: bool)

  datatype Fate = Waiting | Buffered | Superseded | Expired | Dropped | Evicted | Cleared

  /** A source's queue, the fate so far of every cloud it ever accepted, and the clouds handed to its buffer. */
  datatype Source = Source(queue: seq<Entry>, fates: seq<Fate>, buffered: seq<Entry>)

  datatype World = World(active: bool, sources: seq<Source>)

  const NO_CLOUDS := Source([], [], [])

  predicate Has(es: seq<Entry>, ticket: nat) {
    exists e <- es :: e.ticket == ticket
  }

  /** All clouds of `es` meet the same fate. */
  function Mark(fates: seq<Fate>, es: seq<Entry>, fate: Fate): (marked: seq<Fate>)
    ensures |marked| == |fates|
  {
    seq(|fates|, t requires 0 <= t < |fates| => if Has(es, t) then fate else fates[t])
  }

  /** The clouds at `from` up to `to` leave the queue unused. */
  function Retire(s: Source, from: nat, to: nat, fate: Fate): Source
    requires from <= to <= |s.queue|
  {
    Source(s.queue[..from] + s.queue[to..], Mark(s.fates, s.queue[from..to], fate), s.buffered)
  }

  /** The front cloud goes to the observation buffer. */
  function Hand(s: Source): Source
    requires s.queue != []
  {
    Source(s.queue[1..], Mark(s.fates, s.queue[..1], Buffered), s.buffered + s.queue[..1])
  }

  function Clear(s: Source): Source {
    Retire(s, 0, |s.queue|, Cleared)
  }

  function ClearAll(sources: seq<Source>): seq<Source> {
    seq(|sources|, i requires 0 <= i < |sources| => Clear(sources[i]))
  }

  predicate Acceptable(c: Cloud) {
    c.frame != "" && !(c.sec == 0 && c.nanosec == 0)
  }

  function Push(s: Source, p: Pending): Source {
    Source(s.queue + [Entry(|s.fates|, p)], s.fates + [Waiting], s.buffered)
  }

  function Append(s: Source, c: Cloud, now: Time): Source {
    var roomy := if |s.queue| >= MAX_PENDING then Retire(s, 0, 1, Evicted) else s;
    Push(roomy, Pending(c, now))
  }

  function Enqueue(w: World, source: nat, c: Cloud, now: Time): World
    requires source < |w.sources|
  {
    if !Acceptable(c) || !w.active then w
    else w.(sources := w.sources[source := Append(w.sources[source], c, now)])
  }

  /** What a visit decides about a cloud on its own. */
  function Judge(wait: real, p: Pending, look: Look): Fate {
    if wait > 0.0 && look.now - p.received >= wait then Expired
    else if look.ready then Buffered
    else if wait <= 0.0 then Dropped
    else Waiting
  }

  /** One visit, to the cloud at `at`. */
  function Visit(wait: real, s: Source, at: nat, look: Look): Source
    requires at < |s.queue|
  {
    var verdict := Judge(wait, s.queue[at].pending, look);
    if verdict == Waiting then s
    else if verdict == Buffered then Hand(Retire(s, 0, at, Superseded))
    else Retire(s, at, at + 1, verdict)
  }

  function NextAt(wait: real, p: Pending, at: nat, look: Look): nat {
    var verdict := Judge(wait, p, look);
    if verdict == Waiting then at + 1 else if verdict == Buffered then 0 else at
  }

  /** The rest of a pass over one queue: the iterator is at `at`, the next visit is number `k`. */
  function Pass(wait: real, s: Source, at: nat, k: nat, look: nat -> Look): Source
    requires at <= |s.queue|
    decreases |s.queue| - at
  {
    if at == |s.queue| then s
    else Pass(wait, Visit(wait, s, at, look(k)), NextAt(wait, s.queue[at].pending, at, look(k)), k + 1, look)
  }

  /** What the visits of one pass to one source see. */
  function LooksAt(look: (nat, nat) -> Look, source: nat): nat -> Look {
    (k: nat) => look(source, k)
  }

  function Process(wait: real, w: World, look: (nat, nat) -> Look): World {
    if !w.active then w
    else
      w.(sources :=
        seq(|w.sources|, i requires 0 <= i < |w.sources| => Pass(wait, w.sources[i], 0, 0, LooksAt(look, i))))
  }

  datatype Event =
    | Arrival(source: nat, cloud: Cloud, now: Time)
    | Poll(look: (nat, nat) -> Look)
    | Activate
    | Deactivate
    | Reset

  function Step(wait: real, w: World, e: Event): (next: World)
    ensures |next.sources| == |w.sources|
  {
    match e
    case Arrival(source, cloud, now) => if source < |w.sources| then Enqueue(w, source, cloud, now) else w
    case Poll(look) => Process(wait, w, look)
    case Activate => w.(active := true)
    case Deactivate => World(false, ClearAll(w.sources))
    case Reset => w.(sources := ClearAll(w.sources))
  }

  function Run(wait: real, sources: nat, h: seq<Event>): (w: World)
    ensures |w.sources| == sources
  {
    if h == [] then World(false, seq(sources, _ => NO_CLOUDS))
    else Step(wait, Run(wait, sources, h[..|h| - 1]), h[|h| - 1])
  }

  // ---------- What holds of a source at all times ----------

  ghost predicate Increasing(es: seq<Entry>) {
    forall i, j | 0 <= i < j < |es| :: es[i].ticket < es[j].ticket
  }

  /** The waiting clouds are those in the queue and the buffered ones those in the buffer, both in order of arrival and
      the queue wholly after the buffer. */
  ghost predicate Good(s: Source) {
    && |s.queue| <= MAX_PENDING
    && Increasing(s.buffered) && Increasing(s.queue) && Before(s.buffered, s.queue)
    && Known(s.buffered, |s.fates|) && Known(s.queue, |s.fates|)
    && (forall t | 0 <= t < |s.fates| :: s.fates[t] == Waiting <==> Has(s.queue, t))
    && (forall t | 0 <= t < |s.fates| :: s.fates[t] == Buffered <==> Has(s.buffered, t))
  }

  ghost predicate Before(older: seq<Entry>, newer: seq<Entry>) {
    forall b <- older, e <- newer :: b.ticket < e.ticket
  }

  ghost predicate Known(es: seq<Entry>, n: nat) {
    forall e <- es :: e.ticket < n
  }

  /** No fate, once decided, changes, and nothing is taken back from the buffer. */
  ghost predicate Extends(before: Source, after: Source) {
    && |before.fates| <= |after.fates|
    && before.buffered <= after.buffered
    && forall t | 0 <= t < |before.fates| && before.fates[t] != Waiting :: after.fates[t] == before.fates[t]
  }

  lemma RetireKeeps(s: Source, from: nat, to: nat, fate: Fate)
    requires Good(s) && from <= to <= |s.queue| && fate != Waiting && fate != Buffered
    ensures Good(Retire(s, from, to, fate)) && Extends(s, Retire(s, from, to, fate))
  {
    var after := Retire(s, from, to, fate);
    forall t | 0 <= t < |s.fates|
      ensures Has(s.queue, t) <==> Has(after.queue, t) || Has(s.queue[from..to], t)
      ensures !(Has(after.queue, t) && Has(s.queue[from..to], t))
    {
      SplitQueue(s.queue, from, to, t);
    }
  }

  lemma SplitQueue(queue: seq<Entry>, from: nat, to: nat, t: nat)
    requires Increasing(queue) && from <= to <= |queue|
    ensures Has(queue, t) <==> Has(queue[..from] + queue[to..], t) || Has(queue[from..to], t)
    ensures !(Has(queue[..from] + queue[to..], t) && Has(queue[from..to], t))
  {
    assert forall e :: e in queue <==> e in queue[..from] || e in queue[from..to] || e in queue[to..];
  }

  lemma HandKeeps(s: Source)
    requires Good(s) && s.queue != []
    ensures Good(Hand(s)) && Extends(s, Hand(s))
  {
    var after := Hand(s);
    assert s.queue[..0] + s.queue[1..] == after.queue && s.queue[0..1] == s.queue[..1];
    forall t | 0 <= t < |s.fates|
      ensures Has(s.queue, t) <==> Has(after.queue, t) || Has(s.queue[..1], t)
      ensures !(Has(after.queue, t) && Has(s.queue[..1], t))
    {
      SplitQueue(s.queue, 0, 1, t);
    }
  }

  lemma PushKeeps(s: Source, p: Pending)
    requires Good(s) && |s.queue| < MAX_PENDING
    ensures Good(Push(s, p)) && Extends(s, Push(s, p))
  {
    var after := Push(s, p);
    var e := Entry(|s.fates|, p);
    assert forall q :: q in after.queue <==> q in s.queue || q == e;
    forall t | 0 <= t < |after.fates| ensures Has(after.queue, t) <==> Has(s.queue, t) || t == |s.fates| {
      assert e in after.queue;
    }
    assert !Has(s.buffered, |s.fates|);
  }

  lemma ExtendsTwice(a: Source, b: Source, c: Source)
    requires Extends(a, b) && Extends(b, c)
    ensures Extends(a, c)
  {
  }

  lemma AppendKeeps(s: Source, c: Cloud, now: Time)
    requires Good(s)
    ensures Good(Append(s, c, now)) && Extends(s, Append(s, c, now))
  {
    assert |s.queue| <= MAX_PENDING;
    hide Good, Extends, Push;
    if |s.queue| >= MAX_PENDING {
      RetireKeeps(s, 0, 1, Evicted);
      PushKeeps(Retire(s, 0, 1, Evicted), Pending(c, now));
      ExtendsTwice(s, Retire(s, 0, 1, Evicted), Append(s, c, now));
    } else {
      PushKeeps(s, Pending(c, now));
    }
  }

  lemma VisitKeeps(wait: real, s: Source, at: nat, look: Look)
    requires Good(s) && at < |s.queue|
    ensures Good(Visit(wait, s, at, look)) && Extends(s, Visit(wait, s, at, look))
  {
    if Judge(wait, s.queue[at].pending, look) == Buffered {
      RetireKeeps(s, 0, at, Superseded);
      HandKeeps(Retire(s, 0, at, Superseded));
    } else if Judge(wait, s.queue[at].pending, look) != Waiting {
      RetireKeeps(s, at, at + 1, Judge(wait, s.queue[at].pending, look));
    }
  }

  // ---------- What a pass decides ----------

  /** Whether the pass, now about to visit `at` for its `k`-th visit, will find a usable cloud beyond position `j`. */
  ghost predicate UsableBeyond(wait: real, queue: seq<Entry>, at: nat, k: nat, look: nat -> Look, j: int) {
    exists i: nat :: j < i && UsableAt(wait, queue, at, k, look, i)
  }

  ghost predicate UsableAt(wait: real, queue: seq<Entry>, at: nat, k: nat, look: nat -> Look, i: nat) {
    at <= i < |queue| && Judge(wait, queue[i].pending, look(k + (i - at))) == Buffered
  }

  /** The fate of the cloud at `j` once the pass is over: what its own visit decides, unless that leaves it waiting and
      a newer cloud is used. */
  ghost function Outcome(wait: real, queue: seq<Entry>, at: nat, k: nat, look: nat -> Look, j: nat): Fate
    requires j < |queue|
  {
    var verdict := if j < at then Waiting else Judge(wait, queue[j].pending, look(k + (j - at)));
    if verdict == Waiting && UsableBeyond(wait, queue, at, k, look, j) then Superseded else verdict
  }

  ghost predicate Decides(wait: real, s: Source, at: nat, k: nat, look: nat -> Look, after: Source) {
    && |after.fates| == |s.fates|
    && (forall j | 0 <= j < |s.queue| && s.queue[j].ticket < |s.fates| ::
      after.fates[s.queue[j].ticket] == Outcome(wait, s.queue, at, k, look, j))
    && (forall t | 0 <= t < |s.fates| && !Has(s.queue, t) :: after.fates[t] == s.fates[t])
  }

  /** A visit shortens the list of visits to come by its first. */
  lemma UsableAfterVisit(wait: real, s: Source, at: nat, k: nat, look: nat -> Look, i: int)
    requires at < |s.queue|
    ensures var next, at' := Visit(wait, s, at, look(k)), NextAt(wait, s.queue[at].pending, at, look(k));
            at < i ==> (UsableAt(wait, s.queue, at, k, look, i)
                        <==> UsableAt(wait, next.queue, at', k + 1, look, i - at - 1 + at'))
  {
    VisitQueue(wait, s, at, look(k));
    hide Visit, Judge;
  }

  lemma BeyondAfterVisit(wait: real, s: Source, at: nat, k: nat, look: nat -> Look, j: int)
    requires at < |s.queue| && at <= j
    ensures var next, at' := Visit(wait, s, at, look(k)), NextAt(wait, s.queue[at].pending, at, look(k));
            UsableBeyond(wait, s.queue, at, k, look, j)
            <==> UsableBeyond(wait, next.queue, at', k + 1, look, j - at - 1 + at')
  {
    var next, at' := Visit(wait, s, at, look(k)), NextAt(wait, s.queue[at].pending, at, look(k));
    hide UsableAt, Visit, NextAt;
    if UsableBeyond(wait, s.queue, at, k, look, j) {
      var i: nat :| j < i && UsableAt(wait, s.queue, at, k, look, i);
      UsableAfterVisit(wait, s, at, k, look, i);
    }
    if UsableBeyond(wait, next.queue, at', k + 1, look, j - at - 1 + at') {
      var i: nat :| j - at - 1 + at' < i && UsableAt(wait, next.queue, at', k + 1, look, i);
      UsableAfterVisit(wait, s, at, k, look, i + at + 1 - at');
    }
  }

  /** For a cloud already visited, the question is what the visits from `at` on find. */
  lemma BeyondVisited(wait: real, queue: seq<Entry>, at: nat, k: nat, look: nat -> Look, j: int)
    requires j < at
    ensures UsableBeyond(wait, queue, at, k, look, j)
            <==> UsableAt(wait, queue, at, k, look, at) || UsableBeyond(wait, queue, at, k, look, at)
    ensures UsableBeyond(wait, queue, at, k, look, j) <==> UsableBeyond(wait, queue, at, k, look, at - 1)
  {
  }

  /** Where the cloud at `j` stands after the visit to `at`, if it is still in the queue. */
  function Moved(wait: real, s: Source, at: nat, look: Look, j: nat): int
    requires at < |s.queue|
  {
    if j < at then j else j - at - 1 + NextAt(wait, s.queue[at].pending, at, look)
  }

  /** What a visit to `at` leaves of the outcome of the cloud at `j`. */
  ghost predicate OutcomeCarries(wait: real, s: Source, at: nat, k: nat, look: nat -> Look, j: nat)
    requires at < |s.queue| && j < |s.queue|
  {
    var next, at' := Visit(wait, s, at, look(k)), NextAt(wait, s.queue[at].pending, at, look(k));
    var verdict, moved := Judge(wait, s.queue[at].pending, look(k)), Moved(wait, s, at, look(k), j);
    if j < at && verdict == Buffered then Outcome(wait, s.queue, at, k, look, j) == Superseded
    else if j == at && verdict != Waiting then Outcome(wait, s.queue, at, k, look, j) == verdict
    else
      && 0 <= moved < |next.queue| && next.queue[moved] == s.queue[j]
      && Outcome(wait, s.queue, at, k, look, j) == Outcome(wait, next.queue, at', k + 1, look, moved)
  }

  lemma EarlierCarries(wait: real, s: Source, at: nat, k: nat, look: nat -> Look, j: nat)
    requires j < at < |s.queue|
    ensures OutcomeCarries(wait, s, at, k, look, j)
  {
    var next, at' := Visit(wait, s, at, look(k)), NextAt(wait, s.queue[at].pending, at, look(k));
    VisitQueue(wait, s, at, look(k));
    assert UsableAt(wait, s.queue, at, k, look, at) <==> Judge(wait, s.queue[at].pending, look(k)) == Buffered;
    hide UsableBeyond, UsableAt, Visit, Judge;
    BeyondVisited(wait, s.queue, at, k, look, j);
    BeyondAfterVisit(wait, s, at, k, look, at);
    if j < at' {
      BeyondVisited(wait, next.queue, at', k + 1, look, j);
    }
  }

  lemma VisitedCarries(wait: real, s: Source, at: nat, k: nat, look: nat -> Look)
    requires at < |s.queue|
    ensures OutcomeCarries(wait, s, at, k, look, at)
  {
    VisitQueue(wait, s, at, look(k));
    hide UsableBeyond, UsableAt, Visit, Judge;
    if NextAt(wait, s.queue[at].pending, at, look(k)) == at + 1 {
      BeyondAfterVisit(wait, s, at, k, look, at);
    }
  }

  lemma LaterStays(wait: real, s: Source, at: nat, look: Look, j: nat)
    requires at < j < |s.queue|
    ensures var queue, at' := Visit(wait, s, at, look).queue, NextAt(wait, s.queue[at].pending, at, look);
            var moved := Moved(wait, s, at, look, j);
            && at' <= moved < |queue| && queue[moved] == s.queue[j] && moved - at' == j - at - 1
  {
    VisitQueue(wait, s, at, look);
    hide Visit, Judge;
  }

  lemma LaterCarries(wait: real, s: Source, at: nat, k: nat, look: nat -> Look, j: nat)
    requires at < j < |s.queue|
    ensures OutcomeCarries(wait, s, at, k, look, j)
  {
    hide UsableBeyond, UsableAt, Visit, Judge, NextAt, Moved;
    LaterStays(wait, s, at, look(k), j);
    BeyondAfterVisit(wait, s, at, k, look, j);
    var at', moved := NextAt(wait, s.queue[at].pending, at, look(k)), Moved(wait, s, at, look(k), j);
    assert k + (j - at) == k + 1 + (moved - at') && j - at - 1 + at' == moved;
  }

  /** A visit decides the fates of the clouds it removes and leaves the outcome of the others to the visits to come. */
  lemma OutcomeAfterVisit(wait: real, s: Source, at: nat, k: nat, look: nat -> Look, j: nat)
    requires at < |s.queue| && j < |s.queue|
    ensures OutcomeCarries(wait, s, at, k, look, j)
  {
    if j < at {
      EarlierCarries(wait, s, at, k, look, j);
    } else if j == at {
      VisitedCarries(wait, s, at, k, look);
    } else {
      LaterCarries(wait, s, at, k, look, j);
    }
  }

  lemma VisitQueue(wait: real, s: Source, at: nat, look: Look)
    requires at < |s.queue|
    ensures var verdict, queue := Judge(wait, s.queue[at].pending, look), Visit(wait, s, at, look).queue;
            queue == if verdict == Waiting then s.queue
                     else if verdict == Buffered then s.queue[at + 1..]
                     else s.queue[..at] + s.queue[at + 1..]
    ensures var verdict := Judge(wait, s.queue[at].pending, look);
            Visit(wait, s, at, look).buffered
            == s.buffered + (if verdict == Buffered then s.queue[at..at + 1] else [])
  {
    hide Judge;
    var rest := s.queue[..0] + s.queue[at..];
    assert rest == s.queue[at..] && rest[1..] == s.queue[at + 1..] && rest[..1] == s.queue[at..at + 1];
    assert s.buffered + [] == s.buffered;
  }

  lemma VisitFates(wait: real, s: Source, at: nat, look: Look, j: nat)
    requires Good(s) && at < |s.queue| && j <= at
    ensures var verdict, fates := Judge(wait, s.queue[at].pending, look), Visit(wait, s, at, look).fates;
            && |fates| == |s.fates|
            && (verdict == Buffered && j < at ==> fates[s.queue[j].ticket] == Superseded)
            && (verdict != Waiting && j == at ==> fates[s.queue[j].ticket] == verdict)
  {
    assert j < at ==> s.queue[..at][j] == s.queue[j];
    assert s.queue[at..at + 1] == [s.queue[at]];
    assert (s.queue[..0] + s.queue[at..])[..1] == [s.queue[at]];
  }

  lemma DecidesAt(wait: real, s: Source, at: nat, k: nat, look: nat -> Look, after: Source, j: nat)
    requires Good(s) && at < |s.queue| && j < |s.queue|
    requires var next, at' := Visit(wait, s, at, look(k)), NextAt(wait, s.queue[at].pending, at, look(k));
             Extends(next, after) && Decides(wait, next, at', k + 1, look, after)
    ensures s.queue[j].ticket < |after.fates|
    ensures after.fates[s.queue[j].ticket] == Outcome(wait, s.queue, at, k, look, j)
  {
    assert s.queue[j] in s.queue;
    if j <= at { VisitFates(wait, s, at, look(k), j); }
    VisitOthers(wait, s, at, look(k));
    OutcomeAfterVisit(wait, s, at, k, look, j);
    hide Good, Visit, NextAt, Outcome, Moved, Judge;
  }

  lemma DecidesStep(wait: real, s: Source, at: nat, k: nat, look: nat -> Look, after: Source)
    requires Good(s) && at < |s.queue|
    requires var next, at' := Visit(wait, s, at, look(k)), NextAt(wait, s.queue[at].pending, at, look(k));
             Extends(next, after) && Decides(wait, next, at', k + 1, look, after)
    ensures Decides(wait, s, at, k, look, after)
  {
    VisitOthers(wait, s, at, look(k));
    hide Visit, NextAt, Outcome, Good, Extends, Judge, Has;
    forall j | 0 <= j < |s.queue| && s.queue[j].ticket < |s.fates|
      ensures after.fates[s.queue[j].ticket] == Outcome(wait, s.queue, at, k, look, j)
    {
      DecidesAt(wait, s, at, k, look, after, j);
    }
  }

  /** A visit leaves the fate of a cloud that is not in the queue alone. */
  lemma VisitOthers(wait: real, s: Source, at: nat, look: Look)
    requires at < |s.queue|
    ensures |Visit(wait, s, at, look).fates| == |s.fates|
    ensures forall t | 0 <= t < |s.fates| && !Has(s.queue, t) ::
              !Has(Visit(wait, s, at, look).queue, t) && Visit(wait, s, at, look).fates[t] == s.fates[t]
  {
    var next := Visit(wait, s, at, look);
    VisitQueue(wait, s, at, look);
    hide Judge;
    forall t | 0 <= t < |s.fates| && !Has(s.queue, t)
      ensures !Has(next.queue, t) && next.fates[t] == s.fates[t]
    {
    }
  }

  lemma {:induction false} PassDecides(wait: real, s: Source, at: nat, k: nat, look: nat -> Look)
    requires Good(s) && at <= |s.queue|
    ensures var after := Pass(wait, s, at, k, look);
            Good(after) && Extends(s, after) && Decides(wait, s, at, k, look, after)
    decreases |s.queue| - at
  {
    if at < |s.queue| {
      var next, at' := Visit(wait, s, at, look(k)), NextAt(wait, s.queue[at].pending, at, look(k));
      VisitKeeps(wait, s, at, look(k));
      hide Good, Extends, Decides, Visit;
      PassDecides(wait, next, at', k + 1, look);
      ExtendsTwice(s, next, Pass(wait, s, at, k, look));
      DecidesStep(wait, s, at, k, look, Pass(wait, s, at, k, look));
    }
  }

  // ---------- Runs ----------

  ghost predicate AllGood(w: World) {
    && (forall i | 0 <= i < |w.sources| :: Good(w.sources[i]))
    && (!w.active ==> forall i | 0 <= i < |w.sources| :: w.sources[i].queue == [])
  }

  ghost predicate AllExtend(before: World, after: World) {
    && |before.sources| == |after.sources|
    && forall i | 0 <= i < |before.sources| :: Extends(before.sources[i], after.sources[i])
  }

  lemma StepKeeps(wait: real, w: World, e: Event)
    requires AllGood(w)
    ensures AllGood(Step(wait, w, e)) && AllExtend(w, Step(wait, w, e))
  {
    var next := Step(wait, w, e);
    hide Good, Extends, Append, Pass;
    forall i | 0 <= i < |w.sources|
      ensures Good(next.sources[i]) && Extends(w.sources[i], next.sources[i])
    {
      ExtendsItself(w.sources[i]);
      match e
      case Arrival(source, cloud, now) => AppendKeeps(w.sources[i], cloud, now);
      case Poll(look) => PassDecides(wait, w.sources[i], 0, 0, LooksAt(look, i));
      case Activate =>
      case Deactivate => ClearKeeps(w.sources[i]);
      case Reset => ClearKeeps(w.sources[i]);
    }
  }

  lemma ExtendsItself(s: Source)
    ensures Extends(s, s)
  {
  }

  lemma ClearKeeps(s: Source)
    requires Good(s)
    ensures Good(Clear(s)) && Extends(s, Clear(s)) && Clear(s).queue == []
  {
    RetireKeeps(s, 0, |s.queue|, Cleared);
  }

  /** In every run, at every source: at most 50 clouds wait; clouds reach the buffer in order of arrival; nothing that
      waits is older than anything buffered; and every accepted cloud has one fate, waiting exactly when it is in the
      queue and buffered exactly when it is in the buffer. */
  lemma {:induction false} RunKeeps(wait: real, sources: nat, h: seq<Event>)
    ensures AllGood(Run(wait, sources, h))
  {
    if h != [] {
      RunKeeps(wait, sources, h[..|h| - 1]);
      StepKeeps(wait, Run(wait, sources, h[..|h| - 1]), h[|h| - 1]);
    }
  }

  /** A fate once decided is final: it and the buffer's contents survive every continuation of the run. */
  lemma {:induction false} FatesAreFinal(wait: real, sources: nat, h: seq<Event>, later: seq<Event>)
    ensures AllExtend(Run(wait, sources, h), Run(wait, sources, h + later))
  {
    if later == [] {
      assert h + later == h;
    } else {
      var before := h + later[..|later| - 1];
      FatesAreFinal(wait, sources, h, later[..|later| - 1]);
      assert (h + later)[..|h + later| - 1] == before;
      RunKeeps(wait, sources, before);
      hide Step, AllGood, AllExtend;
      StepKeeps(wait, Run(wait, sources, before), later[|later| - 1]);
      AllExtendTwice(Run(wait, sources, h), Run(wait, sources, before), Run(wait, sources, h + later));
    }
  }

  lemma AllExtendTwice(a: World, b: World, c: World)
    requires AllExtend(a, b) && AllExtend(b, c)
    ensures AllExtend(a, c)
  {
    hide Extends;
    forall i | 0 <= i < |a.sources| ensures Extends(a.sources[i], c.sources[i]) {
      ExtendsTwice(a.sources[i], b.sources[i], c.sources[i]);
    }
  }

  /** A poll of an active layer settles every waiting cloud by what its visit saw: expired or dropped clouds go, usable
      ones are buffered, and the rest stay only if no newer cloud was used. With no waiting time nothing stays. */
  lemma PollSettles(wait: real, sources: nat, h: seq<Event>, look: (nat, nat) -> Look, i: nat)
    requires i < sources && Run(wait, sources, h).active
    ensures var before, after := Run(wait, sources, h).sources[i], Run(wait, sources, h + [Poll(look)]).sources[i];
            && Good(before) && Good(after)
            && Decides(wait, before, 0, 0, LooksAt(look, i), after)
            && (wait <= 0.0 ==> after.queue == [])
  {
    RunKeeps(wait, sources, h);
    RunKeeps(wait, sources, h + [Poll(look)]);
    assert (h + [Poll(look)])[..|h|] == h;
    var before := Run(wait, sources, h).sources[i];
    PassDecides(wait, before, 0, 0, LooksAt(look, i));
    if wait <= 0.0 { NothingStays(wait, before, 0, LooksAt(look, i)); }
  }

  lemma {:induction false} NothingStays(wait: real, s: Source, k: nat, look: nat -> Look)
    requires wait <= 0.0
    ensures Pass(wait, s, 0, k, look).queue == []
    decreases |s.queue|
  {
    if s.queue != [] {
      NothingStays(wait, Visit(wait, s, 0, look(k)), k + 1, look);
    }
  }

  /** A cloud has waited as long as it may. */
  predicate Overdue(wait: real, p: Pending, look: Look) {
    wait > 0.0 && look.now >= p.received + wait
  }

  /** The cloud at `k` has its transforms, in time, when its visit comes. */
  predicate InTime(wait: real, queue: seq<Entry>, look: (nat, nat) -> Look, i: nat, k: int) {
    0 <= k < |queue| && look(i, k).ready && !Overdue(wait, queue[k].pending, look(i, k))
  }

  lemma JudgeIs(wait: real, p: Pending, look: Look)
    ensures var verdict := Judge(wait, p, look);
            && (verdict == Expired <==> Overdue(wait, p, look))
            && (verdict == Buffered <==> !Overdue(wait, p, look) && look.ready)
            && (verdict == Dropped <==> !look.ready && wait <= 0.0)
            && (verdict == Waiting <==> !Overdue(wait, p, look) && !look.ready && wait > 0.0)
  {
  }

  /** What becomes of each waiting cloud in a poll: it expires exactly when it has waited too long by its visit; it is
      buffered exactly when it is in time and both transforms are there; without them it is dropped at once if the layer
      does not wait, and otherwise superseded exactly when a newer cloud is used. */
  lemma PollFates(wait: real, sources: nat, h: seq<Event>, look: (nat, nat) -> Look, i: nat, j: nat)
    requires i < sources && Run(wait, sources, h).active && j < |Run(wait, sources, h).sources[i].queue|
    ensures var queue := Run(wait, sources, h).sources[i].queue;
            var fates, t := Run(wait, sources, h + [Poll(look)]).sources[i].fates, queue[j].ticket;
            var late, ready := Overdue(wait, queue[j].pending, look(i, j)), look(i, j).ready;
            && t < |fates|
            && (fates[t] == Expired <==> late)
            && (fates[t] == Buffered <==> !late && ready)
            && (fates[t] == Dropped <==> !ready && wait <= 0.0)
            && (fates[t] == Superseded <==>
                 !late && !ready && wait > 0.0 && exists k :: j < k && InTime(wait, queue, look, i, k))
            && (fates[t] == Waiting <==>
                 !late && !ready && wait > 0.0 && forall k :: j < k ==> !InTime(wait, queue, look, i, k))
  {
    var before := Run(wait, sources, h).sources[i];
    var queue := before.queue;
    PollSettles(wait, sources, h, look, i);
    QueueKnown(before, j);
    BeyondIs(wait, queue, look, i, j);
    JudgeIs(wait, queue[j].pending, look(i, j));
    assert LooksAt(look, i)(0 + (j - 0)) == look(i, j);
    hide Judge, UsableBeyond, Good, Run, InTime, Overdue;
  }

  lemma QueueKnown(s: Source, j: nat)
    requires Good(s) && j < |s.queue|
    ensures s.queue[j].ticket < |s.fates|
  {
    assert s.queue[j] in s.queue;
  }

  lemma BeyondIs(wait: real, queue: seq<Entry>, look: (nat, nat) -> Look, i: nat, j: nat)
    ensures UsableBeyond(wait, queue, 0, 0, LooksAt(look, i), j)
            <==> exists k :: j < k && InTime(wait, queue, look, i, k)
  {
    forall k: nat | k < |queue|
      ensures UsableAt(wait, queue, 0, 0, LooksAt(look, i), k) <==> InTime(wait, queue, look, i, k)
    {
      JudgeIs(wait, queue[k].pending, look(i, k));
      assert LooksAt(look, i)(0 + (k - 0)) == look(i, k);
    }
    if UsableBeyond(wait, queue, 0, 0, LooksAt(look, i), j) {
      var k: nat :| j < k && UsableAt(wait, queue, 0, 0, LooksAt(look, i), k);
      assert InTime(wait, queue, look, i, k);
    }
    if exists k :: j < k && InTime(wait, queue, look, i, k) {
      var k :| j < k && InTime(wait, queue, look, i, k);
      assert UsableAt(wait, queue, 0, 0, LooksAt(look, i), k);
    }
  }

  /** An arriving cloud joins its source's queue exactly when the layer is active and the cloud has a frame and a stamp;
      only a full queue gives up its oldest for it. Nothing else changes. */
  lemma ArrivalOutcome(wait: real, sources: nat, h: seq<Event>, source: nat, cloud: Cloud, now: Time)
    ensures var w, next := Run(wait, sources, h), Run(wait, sources, h + [Arrival(source, cloud, now)]);
            if source < sources && w.active && cloud.frame != "" && (cloud.sec != 0 || cloud.nanosec != 0) then
              var before, after := w.sources[source], next.sources[source];
              var full := |before.queue| >= 50;
              && next == w.(sources := w.sources[source := after])
              && after.queue == before.queue[if full then 1 else 0..]
                                + [Entry(|before.fates|, Pending(cloud, now))]
              && after.buffered == before.buffered
              && |after.fates| == |before.fates| + 1 && after.fates[|before.fates|] == Waiting
              && forall t | 0 <= t < |before.fates| ::
                   after.fates[t] == if full && t == before.queue[0].ticket then Evicted else before.fates[t]
            else next == w
  {
    var w := Run(wait, sources, h);
    assert (h + [Arrival(source, cloud, now)])[..|h|] == h;
    if source < sources {
      var before := w.sources[source];
      assert before.queue[0..] == before.queue;
      if |before.queue| >= MAX_PENDING {
        assert before.queue[..0] + before.queue[1..] == before.queue[1..];
        assert before.queue[0..1] == [before.queue[0]];
      }
    }
    hide Run;
  }

  // ---------- The layer ----------

  function Plain(es: seq<Entry>): seq<Pending> {
    seq(|es|, i requires 0 <= i < |es| => es[i].pending)
  }

  function CloudsOf(es: seq<Entry>): seq<Cloud> {
    seq(|es|, i requires 0 <= i < |es| => es[i].pending.cloud)
  }

  lemma PlainSlices(s: Source, at: nat)
    requires at < |s.queue|
    ensures var queue := Plain(s.queue);
            && |queue| == |s.queue| && queue[at] == s.queue[at].pending
            && Plain(s.queue[at + 1..]) == queue[at + 1..]
            && Plain(s.queue[..at] + s.queue[at + 1..]) == queue[..at] + queue[at + 1..]
    ensures CloudsOf(s.buffered + s.queue[at..at + 1]) == CloudsOf(s.buffered) + [s.queue[at].pending.cloud]
    ensures CloudsOf(s.buffered + []) == CloudsOf(s.buffered)
  {
    assert s.buffered + [] == s.buffered;
  }

  class Layer {
    const wait: real
    var active: bool
    var pending: seq<seq<Pending>>
    var buffers: seq<seq<Cloud>>
    ghost var sources: seq<Source>

    ghost predicate Valid()
      reads this
    {
      && |pending| == |buffers| == |sources|
      && forall i | 0 <= i < |sources| ::
        pending[i] == Plain(sources[i].queue) && buffers[i] == CloudsOf(sources[i].buffered)
    }

    ghost function Now(): World
      reads this
    {
      World(active, sources)
    }

    constructor (wait: real, n: nat)
      ensures this.wait == wait && Valid() && Now() == Run(wait, n, [])
    {
      this.wait := wait;
      active := false;
      pending, buffers := seq(n, _ => []), seq(n, _ => []);
      sources := seq(n, _ => NO_CLOUDS);
    }

    method TurnOn()
      requires Valid()
      modifies this
      ensures Valid() && Now() == Step(wait, old(Now()), Activate)
    {
      active := true;
    }

    method TurnOff()
      requires Valid()
      modifies this
      ensures Valid() && Now() == Step(wait, old(Now()), Deactivate)
    {
      active := false;
      ClearPending();
    }

    method ResetLayer()
      requires Valid()
      modifies this
      ensures Valid() && Now() == Step(wait, old(Now()), Event.Reset)
    {
      ClearPending();
    }

    method ClearPending()
      requires Valid()
      modifies this
      ensures Valid() && Now() == World(old(active), ClearAll(old(sources)))
      ensures buffers == old(buffers)
    {
      pending := seq(|pending|, _ => []);
      sources := ClearAll(sources);
    }

    method Receive(source: nat, cloud: Cloud, now: Time)
      requires Valid() && source < |sources|
      modifies this
      ensures Valid() && Now() == Step(wait, old(Now()), Arrival(source, cloud, now))
    {
      if !Acceptable(cloud) || !active {
        return;
      }
      var queue := pending[source];
      if |queue| >= MAX_PENDING {
        queue := queue[1..];
      }
      pending := pending[source := queue + [Pending(cloud, now)]];
      sources := sources[source := Append(sources[source], cloud, now)];
    }

    method VisitPending(source: nat, at: nat, look: Look) returns (next: nat)
      requires Valid() && source < |sources| && at < |sources[source].queue|
      modifies this
      ensures Valid() && active == old(active)
      ensures sources == old(sources)[source := Visit(wait, old(sources)[source], at, look)]
      ensures next == NextAt(wait, old(sources)[source].queue[at].pending, at, look)
    {
      hide Visit, Plain, CloudsOf;
      VisitQueue(wait, sources[source], at, look);
      PlainSlices(sources[source], at);
      var queue := pending[source];
      if wait > 0.0 && look.now - queue[at].received >= wait {
        pending := pending[source := queue[..at] + queue[at + 1..]];
        next := at;
      } else if look.ready {
        buffers := buffers[source := buffers[source] + [queue[at].cloud]];
        pending := pending[source := queue[at + 1..]];
        next := 0;
      } else if wait <= 0.0 {
        pending := pending[source := queue[..at] + queue[at + 1..]];
        next := at;
      } else {
        next := at + 1;
      }
      sources := sources[source := Visit(wait, sources[source], at, look)];
    }

    method ProcessSource(source: nat, look: nat -> Look)
      requires Valid() && source < |sources|
      modifies this
      ensures Valid() && active == old(active)
      ensures sources == old(sources)[source := Pass(wait, old(sources)[source], 0, 0, look)]
    {
      var at: nat, k: nat := 0, 0;
      while at < |pending[source]|
        invariant Valid() && active == old(active) && |sources| == |old(sources)|
        invariant at <= |sources[source].queue|
        invariant sources == old(sources)[source := sources[source]]
        invariant Pass(wait, sources[source], at, k, look) == Pass(wait, old(sources)[source], 0, 0, look)
        decreases |pending[source]| - at
      {
        at := VisitPending(source, at, look(k));
        k := k + 1;
      }
    }

    method ProcessPending(look: (nat, nat) -> Look)
      requires Valid()
      modifies this
      ensures Valid() && Now() == Step(wait, old(Now()), Poll(look))
    {
      if !active {
        return;
      }
      hide Pass, Plain, CloudsOf;
      for i := 0 to |pending|
        invariant Valid() && active && |pending| == |old(sources)|
        invariant forall j | 0 <= j < i :: sources[j] == Pass(wait, old(sources)[j], 0, 0, LooksAt(look, j))
        invariant forall j | i <= j < |sources| :: sources[j] == old(sources)[j]
      {
        ProcessSource(i, LooksAt(look, i));
      }
      assert sources == Process(wait, old(Now()), look).sources;
    }
  }
}
