/** One scheduler process: the calls of `run_once` in order, each tied to a step of the protocol. Any
    database or queue call may raise, which ends the tick after the lock is released. Its rivals act
    between these calls in `SchedulerProtocol`; here they are quiet. */
module SourceSchedulerService {
  import opened Seqs
  import opened SchedulerProtocol

  /** Which call of a lock block raises, if any. */
  datatype Fault = NoFault | ReadFails | PublishFails | MarkFails

  /** The SELECT of `create_or_recover_job`. */
  method FindLatest(jobs: seq<Job>, key: Key) returns (found: Option<nat>)
    ensures match found
            case Some(j) => IsLatest(jobs, key, j)
            case None => forall j: nat :: j < |jobs| ==> !IsRow(jobs, key, j)
  {
    found := None;
    for i := 0 to |jobs|
      invariant found.None? ==> forall j: nat :: j < i ==> !IsRow(jobs, key, j)
      invariant found.Some? ==> IsRow(jobs, key, found.value)
      invariant found.Some? ==>
                  forall j: nat :: j < i && IsRow(jobs, key, j) ==> jobs[j].createdAt <= jobs[found.value].createdAt
    {
      if IsRow(jobs, key, i) && (found.None? || jobs[found.value].createdAt <= jobs[i].createdAt) {
        found := Some(i);
      }
    }
  }

  /** The window's newest row is marked DISPATCHED. */
  ghost predicate Covered(jobs: seq<Job>, key: Key) {
    exists j: nat :: IsLatest(jobs, key, j) && jobs[j].status == DISPATCHED
  }

  /** A section on one key leaves every other window's rows alone, adds a row only if the window had
      none, and marks at most newest rows of the window. */
  ghost predicate OnlyKeyChanged(before: seq<Job>, after: seq<Job>, key: Key) {
    && |before| <= |after|
    && (forall j: nat, k :: k != key ==> (IsRow(after, k, j) <==> IsRow(before, k, j)))
    && (forall i: nat, j: nat :: IsRow(before, key, i) ==> (IsRow(after, key, j) <==> IsRow(before, key, j)))
    && (forall j: nat :: j < |before| ==> Kept(before, after, key, j))
  }

  ghost predicate Kept(before: seq<Job>, after: seq<Job>, key: Key, j: nat)
    requires j < |before| <= |after|
  {
    after[j] == before[j] || (IsLatest(before, key, j) && after[j] == before[j].(status := DISPATCHED))
  }

  /** A tick so far: no row is lost, windows that had rows have the same ones, and only marks were made. */
  ghost predicate Marked(before: seq<Job>, after: seq<Job>) {
    && |before| <= |after|
    && (forall j: nat :: j < |before| ==> after[j] == before[j] || after[j] == before[j].(status := DISPATCHED))
    && (forall k, i: nat, j: nat :: IsRow(before, k, i) ==> (IsRow(after, k, j) <==> IsRow(before, k, j)))
    && (forall k, j: nat :: Superseded(before, k, j) ==> after[j] == before[j])
  }

  lemma MarkedTransitive(a: seq<Job>, b: seq<Job>, c: seq<Job>)
    requires Marked(a, b) && Marked(b, c)
    ensures Marked(a, c)
  {
    forall k, j: nat | Superseded(a, k, j) ensures c[j] == a[j] {
      StillSuperseded(a, b, k, j);
    }
    forall k, i: nat, j: nat | IsRow(a, k, i) ensures IsRow(c, k, j) <==> IsRow(a, k, j) {
      assert IsRow(b, k, i);
    }
  }

  lemma StillSuperseded(a: seq<Job>, b: seq<Job>, k: Key, j: nat)
    requires Marked(a, b) && Superseded(a, k, j)
    ensures Superseded(b, k, j)
  {
    var i: nat :| IsRow(a, k, i) && a[i].createdAt > a[j].createdAt;
    assert IsRow(b, k, i) && IsRow(b, k, j);
  }

  lemma StillNewest(a: seq<Job>, b: seq<Job>, k: Key, j: nat)
    requires Marked(a, b) && Newest(a, k, j)
    ensures Newest(b, k, j)
  {
  }

  lemma SectionMarks(before: seq<Job>, after: seq<Job>, key: Key)
    requires OnlyKeyChanged(before, after, key)
    ensures Marked(before, after)
  {
    forall j: nat | j < |before| ensures after[j] == before[j] || after[j] == before[j].(status := DISPATCHED) {
      assert Kept(before, after, key, j);
    }
    forall k, j: nat | Superseded(before, k, j) ensures after[j] == before[j] {
      assert Kept(before, after, key, j);
      SupersededIsNotLatest(before, key, k, j);
    }
  }

  /** A covered window's strictly newest row is the DISPATCHED one. */
  lemma NewestIsCovered(jobs: seq<Job>, key: Key, j: nat)
    requires Covered(jobs, key) && Newest(jobs, key, j)
    ensures jobs[j].status == DISPATCHED
  {
    var i: nat :| IsLatest(jobs, key, i) && jobs[i].status == DISPATCHED;
    assert i == j;
  }

  /** The window of a listed job. */
  function WindowOf(jobs: seq<Job>, j: int): Key {
    if 0 <= j < |jobs| && jobs[j].minute.Some? then Key(jobs[j].source, jobs[j].minute.value) else Key(0, 0)
  }

  lemma CoveredIsFramed(before: seq<Job>, after: seq<Job>, key: Key, other: Key)
    requires OnlyKeyChanged(before, after, key) && other != key && Covered(before, other)
    ensures Covered(after, other)
  {
    var j: nat :| IsLatest(before, other, j) && before[j].status == DISPATCHED;
    assert Kept(before, after, key, j);
    forall i: nat | i < |after| && IsRow(after, other, i) ensures after[i].createdAt <= after[j].createdAt {
      assert IsRow(before, other, i) && Kept(before, after, key, i);
    }
    assert IsLatest(after, other, j);
  }

  /** Every row changed since is one of these ids. */
  ghost predicate ChangedAreIn(before: seq<Job>, after: seq<Job>, ids: seq<nat>) {
    |before| <= |after| && forall j: nat :: j < |before| && after[j] != before[j] ==> j in ids
  }

  lemma ChangedConcat(a: seq<Job>, b: seq<Job>, c: seq<Job>, first: seq<nat>, second: seq<nat>)
    requires ChangedAreIn(a, b, first) && ChangedAreIn(b, c, second)
    ensures ChangedAreIn(a, c, first + second)
  {
  }

  function Ids(dispatched: Option<nat>): seq<nat> {
    if dispatched.Some? then [dispatched.value] else []
  }

  /** What recovery does for listed job `p` if nobody else holds its window: the window ends with its
      newest row DISPATCHED, and if that row is `p` then `p` was published in this tick. */
  ghost predicate Recovered(before: State, jobs: seq<Job>, dispatched: seq<nat>, p: int) {
    var key := WindowOf(before.jobs, p);
    p >= 0 && !Live(before, key) ==>
      Covered(jobs, key) &&
      (Newest(before.jobs, key, p) ==> p < |jobs| && jobs[p].status == DISPATCHED && p in dispatched)
  }

  lemma RecoveredNewest(before: State, jobs: seq<Job>, dispatched: seq<nat>, p: int)
    requires Recoverable(before, p) && Marked(before.jobs, jobs) && ChangedAreIn(before.jobs, jobs, dispatched)
    requires !Live(before, WindowOf(before.jobs, p)) ==> Covered(jobs, WindowOf(before.jobs, p))
    ensures Recovered(before, jobs, dispatched, p)
  {
    var key := WindowOf(before.jobs, p);
    if !Live(before, key) && Newest(before.jobs, key, p) {
      StillNewest(before.jobs, jobs, key, p);
      NewestIsCovered(jobs, key, p);
    }
  }

  lemma MarkingKeepsRows(jobs: seq<Job>, key: Key, job: nat)
    requires IsLatest(jobs, key, job)
    ensures var marked := jobs[job := jobs[job].(status := DISPATCHED)];
            Covered(marked, key) && forall j: nat, k :: IsRow(marked, k, j) <==> IsRow(jobs, k, j)
  {
    var marked := jobs[job := jobs[job].(status := DISPATCHED)];
    assert IsLatest(marked, key, job);
  }

  lemma InsertedRowIsLatest(jobs: seq<Job>, key: Key, now: nat)
    requires forall j: nat :: j < |jobs| ==> !IsRow(jobs, key, j)
    ensures IsLatest(jobs + [Job(key.source, Some(key.minute), true, ENQUEUED, now)], key, |jobs|)
  {
    var more := jobs + [Job(key.source, Some(key.minute), true, ENQUEUED, now)];
    forall i: nat | i < |more| && IsRow(more, key, i) ensures i == |jobs| {
      assert i < |jobs| ==> IsRow(jobs, key, i);
    }
  }

  /** What a run has put on the queue, in order; a tick that raised may have queued one event more than
      it could report. */
  ghost predicate Sent(before: seq<Event>, after: seq<Event>, dispatched: seq<nat>, ok: bool) {
    && before <= after
    && |before| + |dispatched| <= |after| <= |before| + |dispatched| + (if ok then 0 else 1)
    && forall i :: 0 <= i < |dispatched| ==> after[|before| + i].job == dispatched[i]
  }

  lemma SentConcat(a: seq<Event>, b: seq<Event>, c: seq<Event>, first: seq<nat>, second: seq<nat>, ok: bool)
    requires Sent(a, b, first, true) && Sent(b, c, second, ok)
    ensures Sent(a, c, first + second, ok)
  {
  }

  /** Every id, every row added or changed and every event added belongs to one of `keys`, and the events
      are the jobs' own. */
  ghost predicate TouchesOnly(before: State, world: State, ids: seq<nat>, keys: iset<Key>) {
    && |before.jobs| <= |world.jobs| && |before.published| <= |world.published|
    && (forall i :: 0 <= i < |ids| ==> IsRowOfOne(world.jobs, keys, ids[i]))
    && (forall j: nat :: |before.jobs| <= j < |world.jobs| ==> IsRowOfOne(world.jobs, keys, j))
    && (forall j: nat :: j < |before.jobs| && world.jobs[j] != before.jobs[j] ==> IsRowOfOne(world.jobs, keys, j))
    && (forall i :: |before.published| <= i < |world.published| ==>
        IsEventOfOne(world, keys, before.now, world.published[i]))
  }

  ghost predicate IsRowOfOne(jobs: seq<Job>, keys: iset<Key>, j: nat) {
    exists k :: k in keys && IsRow(jobs, k, j)
  }

  ghost predicate IsEventOfOne(world: State, keys: iset<Key>, now: nat, e: Event) {
    && e.key in keys && IsRow(world.jobs, e.key, e.job)
    && e == Event(Uuid5("COLLECTION_JOB_ENQUEUED", e.job), e.job, e.key, now)
  }

  lemma TouchesConcat(a: State, b: State, c: State, first: seq<nat>, second: seq<nat>, keys: iset<Key>)
    requires TouchesOnly(a, b, first, keys) && TouchesOnly(b, c, second, keys)
    requires Marked(b.jobs, c.jobs) && a.now == b.now && b.published <= c.published
    ensures TouchesOnly(a, c, first + second, keys)
  {
    forall j: nat | IsRowOfOne(b.jobs, keys, j) ensures IsRowOfOne(c.jobs, keys, j) {
      var k :| k in keys && IsRow(b.jobs, k, j);
      assert IsRow(c.jobs, k, j);
    }
    forall i | |a.published| <= i < |c.published| ensures IsEventOfOne(c, keys, a.now, c.published[i]) {
      if i < |b.published| {
        assert IsEventOfOne(b, keys, a.now, b.published[i]) && c.published[i] == b.published[i];
        assert IsRow(c.jobs, c.published[i].key, c.published[i].job);
      } else {
        assert IsEventOfOne(c, keys, b.now, c.published[i]);
      }
    }
    hide Marked;
  }

  lemma TouchesMore(a: State, b: State, ids: seq<nat>, keys: iset<Key>, more: iset<Key>)
    requires TouchesOnly(a, b, ids, keys) && keys <= more
    ensures TouchesOnly(a, b, ids, more)
  {
    forall j: nat | IsRowOfOne(b.jobs, keys, j) ensures IsRowOfOne(b.jobs, more, j) {
      var k :| k in keys && IsRow(b.jobs, k, j);
      assert k in more;
    }
    forall i | |a.published| <= i < |b.published| ensures IsEventOfOne(b, more, a.now, b.published[i]) {
      assert IsEventOfOne(b, keys, a.now, b.published[i]);
    }
  }

  /** One more lock block on a window that may be touched. */
  lemma SectionTouches(before: State, mid: State, world: State, me: WorkerId, trace: seq<Step>, sofar: seq<nat>,
                       key: Key, more: seq<Step>, done: Option<nat>, ok: bool, keys: iset<Key>)
    requires Ticked(before, mid, me, trace, sofar, true) && TouchesOnly(before, mid, sofar, keys)
    requires Sectioned(mid, world, me, key, more, done, ok) && key in keys
    ensures TouchesOnly(before, world, sofar + Ids(done), keys)
  {
    SectionMarks(mid.jobs, world.jobs, key);
    TouchesMore(mid, world, Ids(done), iset{key}, keys);
    hide TouchesOnly, Marked, OnlyKeyChanged, ChangedAreIn;
    TouchesConcat(before, mid, world, sofar, Ids(done), keys);
  }

  /** The windows of the jobs the recovery query lists. */
  ghost function ListedWindows(s: State): iset<Key> {
    iset p | p in RecoverableJobs(s, 100) :: WindowOf(s.jobs, p)
  }

  /** This minute's windows of the active sources that are due. */
  ghost function DueWindows(minute: nat, active: seq<SourceId>, due: SourceId -> bool): iset<Key> {
    iset k: Key | k.minute == minute && k.source in active && due(k.source)
  }

  /** A catalogued source that is active, has a schedule and a URL, and whose schedule matches. */
  predicate IsDueSource(s: State, catalogue: seq<SourceId>, due: SourceId -> bool, source: SourceId) {
    && source in catalogue && source in s.sources && due(source)
    && s.sources[source].active && s.sources[source].hasCron && s.sources[source].hasUrl
  }

  /** The windows a tick may touch. */
  ghost function TickWindows(s: State, minute: nat, catalogue: seq<SourceId>, due: SourceId -> bool): iset<Key> {
    iset k: Key | k in ListedWindows(s) || (k.minute == minute && IsDueSource(s, catalogue, due, k.source))
  }

  /** A tick of `me` so far: a run of the protocol that holds no lock, queued exactly `dispatched`,
      leaves no new lease behind, and changed rows only by marking the ones it queued. `ok` says that
      nothing raised. */
  ghost predicate Ticked(before: State, world: State, me: WorkerId, trace: seq<Step>, dispatched: seq<nat>, ok: bool) {
    && CanRun(before, trace) && world == After(before, trace)
    && PhaseOf(world, me).Idle? && world.now == before.now && world.sources == before.sources
    && (forall k :: Live(world, k) ==> Live(before, k))
    && Sent(before.published, world.published, dispatched, ok)
    && Marked(before.jobs, world.jobs) && ChangedAreIn(before.jobs, world.jobs, dispatched)
  }

  /** One lock block of `me` on `key`. */
  ghost predicate Sectioned(before: State, world: State, me: WorkerId, key: Key, trace: seq<Step>,
                            dispatched: Option<nat>, ok: bool) {
    && CanRun(before, trace) && world == After(before, trace)
    && PhaseOf(world, me).Idle? && world.now == before.now && world.sources == before.sources
    && (forall k :: Live(world, k) ==> Live(before, k))
    && SectionOutcome(before, world, key, dispatched, ok)
    && (ok && !Live(before, key) ==> Covered(world.jobs, key))
  }

  /** What a lock block on `key` did to the rows and the queue. */
  ghost predicate SectionOutcome(before: State, world: State, key: Key, dispatched: Option<nat>, ok: bool) {
    && OnlyKeyChanged(before.jobs, world.jobs, key) && ChangedAreIn(before.jobs, world.jobs, Ids(dispatched))
    && TouchesOnly(before, world, Ids(dispatched), iset{key})
    && Sent(before.published, world.published, Ids(dispatched), ok)
    && (dispatched.Some? ==>
        ok && IsRow(world.jobs, key, dispatched.value) && world.jobs[dispatched.value].status == DISPATCHED)
    && (ok && dispatched.None? ==> world.jobs == before.jobs)
  }

  lemma SectionTicks(before: State, world: State, me: WorkerId, key: Key, trace: seq<Step>,
                     dispatched: Option<nat>, ok: bool)
    requires Sectioned(before, world, me, key, trace, dispatched, ok)
    ensures Ticked(before, world, me, trace, Ids(dispatched), ok)
  {
    SectionMarks(before.jobs, world.jobs, key);
    hide Marked, OnlyKeyChanged, After, CanRun;
  }

  lemma TicksConcat(a: State, b: State, c: State, me: WorkerId, first: seq<Step>, second: seq<Step>,
                    early: seq<nat>, late: seq<nat>, ok: bool)
    requires Ticked(a, b, me, first, early, true) && Ticked(b, c, me, second, late, ok)
    ensures Ticked(a, c, me, first + second, early + late, ok)
  {
    RunConcat(a, first, second);
    MarkedTransitive(a.jobs, b.jobs, c.jobs);
    ChangedConcat(a.jobs, b.jobs, c.jobs, early, late);
    SentConcat(a.published, b.published, c.published, early, late, ok);
    hide Marked, ChangedAreIn, Sent, After, CanRun;
  }

  lemma NothingTicked(s: State, me: WorkerId)
    requires PhaseOf(s, me).Idle?
    ensures Ticked(s, s, me, [], [], true)
  {
  }

  lemma QueuedHasEvent(before: State, world: State, dispatched: seq<nat>, ok: bool, p: nat)
    requires Sent(before.published, world.published, dispatched, ok) && p in dispatched
    ensures HasEvent(world, p)
  {
    var i :| 0 <= i < |dispatched| && dispatched[i] == p;
    assert world.published[|before.published| + i].job == p;
  }

  /** Listed job `p` in a window nobody else holds, with no other row of that window created in the
      same instant: the tick publishes it exactly when no newer row has superseded it. */
  ghost predicate RecoveredIff(before: State, world: State, dispatched: seq<nat>, p: int) {
    var key := WindowOf(before.jobs, p);
    p >= 0 && !Live(before, key) && Untied(before.jobs, key, p) ==>
      && p < |world.jobs|
      && (world.jobs[p].status == DISPATCHED <==> !Superseded(before.jobs, key, p))
      && (world.jobs[p].status == DISPATCHED ==> p in dispatched && HasEvent(world, p))
  }

  ghost predicate Untied(jobs: seq<Job>, key: Key, p: nat) {
    forall i: nat :: IsRow(jobs, key, i) && i != p ==> p < |jobs| && jobs[i].createdAt != jobs[p].createdAt
  }

  lemma ListedJobIsRecoveredIff(before: State, middle: State, world: State, me: WorkerId, trace: seq<Step>,
                                early: seq<nat>, dispatched: seq<nat>, p: int)
    requires Ticked(before, world, me, trace, dispatched, true) && Marked(middle.jobs, world.jobs)
    requires early <= dispatched
    requires Recoverable(before, p) && Recovered(before, middle.jobs, early, p)
    ensures RecoveredIff(before, world, dispatched, p)
  {
    var key := WindowOf(before.jobs, p);
    assert IsRow(before.jobs, key, p);
    if !Live(before, key) && Untied(before.jobs, key, p) && !Superseded(before.jobs, key, p) {
      assert Newest(before.jobs, key, p);
      assert p in dispatched;
      QueuedHasEvent(before, world, dispatched, true, p);
    }
  }

  /** Covered windows stay covered through a later lock block. */
  lemma StillCovered(start: State, before: State, world: State, me: WorkerId, key: Key, other: Key,
                     trace: seq<Step>, dispatched: Option<nat>)
    requires Sectioned(before, world, me, key, trace, dispatched, true)
    requires forall k :: Live(before, k) ==> Live(start, k)
    requires !Live(start, other) && (other == key || Covered(before.jobs, other))
    ensures Covered(world.jobs, other)
  {
    if other != key {
      CoveredIsFramed(before.jobs, world.jobs, key, other);
    }
  }

  lemma OutcomeIsFramed(before: State, held: State, left: State, world: State, key: Key, dispatched: Option<nat>,
                        ok: bool)
    requires SectionOutcome(held, left, key, dispatched, ok)
    requires held.jobs == before.jobs && held.published == before.published && held.now == before.now
    requires left.jobs == world.jobs && left.published == world.published
    ensures SectionOutcome(before, world, key, dispatched, ok)
  {
    forall i | |before.published| <= i < |world.published|
      ensures IsEventOfOne(world, iset{key}, before.now, world.published[i])
    {
      assert IsEventOfOne(left, iset{key}, held.now, left.published[i]);
    }
  }

  lemma LatestCovers(jobs: seq<Job>, key: Key, job: nat)
    requires IsLatest(jobs, key, job) && jobs[job].status == DISPATCHED
    ensures Covered(jobs, key)
  {
  }

  lemma NothingDone(before: State, world: State, key: Key, ok: bool)
    requires world.jobs == before.jobs && world.published == before.published
    ensures SectionOutcome(before, world, key, None, ok)
  {
  }

  /** Finding or inserting job `job` and then publishing it, wholly or in part. */
  lemma PublishDone(before: State, found: seq<Job>, world: State, key: Key, job: nat, fault: Fault, ok: bool)
    requires IsLatest(found, key, job) && found[job].status != DISPATCHED && OnlyKeyChanged(before.jobs, found, key)
    requires found == before.jobs || (job == |before.jobs| == |found| - 1 && found[..job] == before.jobs)
    requires ok == (fault !in {PublishFails, MarkFails}) && world.now == before.now
    requires world.published == (if fault == PublishFails then before.published
                                 else before.published + [CollectionEvent(job, key, before.now)])
    requires world.jobs == (if ok then found[job := found[job].(status := DISPATCHED)] else found)
    ensures SectionOutcome(before, world, key, if ok then Some(job) else None, ok)
    ensures ok ==> Covered(world.jobs, key)
  {
    MarkingKeepsRows(found, key, job);
    hide Covered;
    assert IsRow(world.jobs, key, job) && key in iset{key};
    forall j: nat | j < |before.jobs| ensures Kept(before.jobs, world.jobs, key, j) {
      assert Kept(before.jobs, found, key, j);
    }
  }

  /** The windows of the first `n` listed jobs are covered, unless somebody held them. */
  ghost predicate CoveredSoFar(before: State, jobs: seq<Job>, pending: seq<int>, n: nat)
    requires n <= |pending|
  {
    forall q :: 0 <= q < n && !Live(before, WindowOf(before.jobs, pending[q])) ==>
      Covered(jobs, WindowOf(before.jobs, pending[q]))
  }

  lemma OneMoreCovered(before: State, mid: State, world: State, me: WorkerId, pending: seq<int>, n: nat,
                       more: seq<Step>, done: Option<nat>)
    requires n < |pending| && CoveredSoFar(before, mid.jobs, pending, n)
    requires Sectioned(mid, world, me, WindowOf(before.jobs, pending[n]), more, done, true)
    requires forall k :: Live(mid, k) ==> Live(before, k)
    ensures CoveredSoFar(before, world.jobs, pending, n + 1)
  {
    hide Sectioned, Covered;
    forall q | 0 <= q < n + 1 && !Live(before, WindowOf(before.jobs, pending[q]))
      ensures Covered(world.jobs, WindowOf(before.jobs, pending[q]))
    {
      StillCovered(before, mid, world, me, WindowOf(before.jobs, pending[n]), WindowOf(before.jobs, pending[q]), more,
                   done);
    }
  }

  class SourceScheduler {
    const me: WorkerId
    var now: nat
    var redis: map<Key, Lease>
    var nextToken: nat
    var jobs: seq<Job>
    var published: seq<Event>
    var workers: map<WorkerId, Phase>
    var sources: map<SourceId, Source>

    function World(): State
      reads this
    {
      State(now, redis, nextToken, jobs, published, workers, sources)
    }

    constructor (me: WorkerId, world: State)
      ensures World() == world && this.me == me
    {
      this.me := me;
      now, redis, nextToken := world.now, world.redis, world.nextToken;
      jobs, published, workers, sources := world.jobs, world.published, world.workers, world.sources;
    }

    /** `SET key token EX ttl NX`. */
    method TryHold(key: Key) returns (acquired: bool)
      requires PhaseOf(World(), me).Idle?
      modifies this
      ensures World() == Apply(old(World()), Acquire(me, key))
      ensures acquired == !Live(old(World()), key)
    {
      acquired := !(key in redis && now < redis[key].expiry);
      if acquired {
        var lease := Lease(nextToken, now + LEASE_MS);
        redis := redis[key := lease];
        nextToken := nextToken + 1;
        workers := workers[me := Holding(Lock(key, lease))];
      }
    }

    /** `create_or_recover_job`: find the window's row or insert it; say whether to publish. */
    method CreateOrRecoverJob() returns (job: nat, shouldPublish: bool, ghost trace: seq<Step>)
      requires PhaseOf(World(), me).Holding?
      modifies this
      ensures CanRun(old(World()), trace) && World() == After(old(World()), trace)
      ensures now == old(now) && redis == old(redis) && published == old(published) && sources == old(sources)
      ensures var lock := PhaseOf(old(World()), me).lock;
              && IsLatest(jobs, lock.key, job)
              && shouldPublish == (jobs[job].status != DISPATCHED)
              && PhaseOf(World(), me) == (if shouldPublish then Ready(lock, job) else Releasing(lock))
              && OnlyKeyChanged(old(jobs), jobs, lock.key)
      ensures jobs == old(jobs) || (shouldPublish && job == |old(jobs)| == |jobs| - 1 && jobs[..job] == old(jobs))
    {
      var lock := workers[me].lock;
      var found := FindLatest(jobs, lock.key);
      trace := [Read(me, found)];
      Extend(World(), [], Read(me, found));
      if found.Some? {
        job := found.value;
      } else {
        Extend(World(), trace, Insert(me));
        trace := trace + [Insert(me)];
        job := |jobs|;
        workers := workers[me := Missing(lock, now)];
        InsertedRowIsLatest(jobs, lock.key, now);
        jobs := jobs + [Job(lock.key.source, Some(lock.key.minute), true, ENQUEUED, now)];
      }
      shouldPublish := jobs[job].status != DISPATCHED;
      workers := workers[me := if shouldPublish then Ready(lock, job) else Releasing(lock)];
    }

    /** `_publish`: send the event, then mark the row; the lock is still held. Either call may raise. */
    method PublishAndMark(fault: Fault) returns (ok: bool, ghost trace: seq<Step>)
      requires PhaseOf(World(), me).Ready? && PhaseOf(World(), me).job < |jobs|
      modifies this
      ensures CanRun(old(World()), trace) && World() == After(old(World()), trace)
      ensures ok == (fault !in {PublishFails, MarkFails})
      ensures var p := PhaseOf(old(World()), me);
              && published == (if fault == PublishFails then old(published)
                               else old(published) + [CollectionEvent(p.job, p.lock.key, now)])
              && jobs == (if ok then old(jobs)[p.job := old(jobs)[p.job].(status := DISPATCHED)] else old(jobs))
              && PhaseOf(World(), me) == Releasing(p.lock)
      ensures now == old(now) && redis == old(redis) && sources == old(sources)
    {
      var Ready(lock, job) := workers[me];
      ghost var before := World();
      trace := [];
      ok := fault !in {PublishFails, MarkFails};
      if fault != PublishFails {
        Extend(before, trace, Publish(me));
        trace := [Publish(me)];
        published := published + [CollectionEvent(job, lock.key, now)];
        workers := workers[me := Published(lock, job)];
      }
      if ok {
        Extend(before, trace, Mark(me));
        trace := trace + [Mark(me)];
        jobs := jobs[job := jobs[job].(status := DISPATCHED)];
      } else {
        Extend(before, trace, Abort(me));
        trace := trace + [Abort(me)];
      }
      workers := workers[me := Releasing(lock)];
    }

    /** The `finally` block of `hold`. */
    method LeaveLock()
      requires PhaseOf(World(), me).Releasing?
      modifies this
      ensures World() == Apply(old(World()), Release(me))
    {
      redis := CompareAndDelete(redis, now, workers[me].lock);
      workers := workers[me := Idle];
    }

    /** The body of a held lock: find or create the job, and publish it unless it is DISPATCHED. */
    method RunSection(fault: Fault) returns (dispatched: Option<nat>, ok: bool, ghost trace: seq<Step>)
      requires PhaseOf(World(), me).Holding?
      modifies this
      ensures CanRun(old(World()), trace) && World() == After(old(World()), trace)
      ensures PhaseOf(World(), me) == Releasing(PhaseOf(old(World()), me).lock)
      ensures now == old(now) && redis == old(redis) && sources == old(sources)
      ensures SectionOutcome(old(World()), World(), PhaseOf(old(World()), me).lock.key, dispatched, ok)
      ensures ok ==> Covered(jobs, PhaseOf(old(World()), me).lock.key)
      ensures fault == NoFault ==> ok
    {
      ghost var key := PhaseOf(World(), me).lock.key;
      ghost var before := World();
      dispatched, ok := None, fault != ReadFails;
      if !ok {
        trace := [Abort(me)];
        Extend(before, [], Abort(me));
        workers := workers[me := Releasing(workers[me].lock)];
        NothingDone(before, World(), key, ok);
        return;
      }
      hide SectionOutcome, Covered;
      var job, shouldPublish;
      job, shouldPublish, trace := CreateOrRecoverJob();
      ghost var found := jobs;
      if shouldPublish {
        ghost var more;
        ok, more := PublishAndMark(fault);
        RunConcat(before, trace, more);
        trace := trace + more;
        dispatched := if ok then Some(job) else None;
        PublishDone(before, found, World(), key, job, fault, ok);
      } else {
        assert Covered(jobs, key) by { LatestCovers(jobs, key, job); }
        NothingDone(before, World(), key, ok);
      }
    }

    /** One `async with self._lock.hold(...)` block of `run_once`. */
    method DispatchUnderLock(key: Key, fault: Fault) returns (dispatched: Option<nat>, ok: bool, ghost trace: seq<Step>)
      requires PhaseOf(World(), me).Idle?
      modifies this
      ensures Sectioned(old(World()), World(), me, key, trace, dispatched, ok)
      ensures fault == NoFault ==> ok
    {
      ghost var before := World();
      dispatched, ok := None, true;
      var acquired := TryHold(key);
      trace := [Acquire(me, key)];
      Extend(before, [], Acquire(me, key));
      if acquired {
        ghost var held := World();
        assert PhaseOf(held, me).lock.key == key;
        ghost var more;
        dispatched, ok, more := RunSection(fault);
        hide SectionOutcome, Covered;
        ghost var left := World();
        RunConcat(before, trace, more);
        trace := trace + more;
        Extend(before, trace, Release(me));
        trace := trace + [Release(me)];
        LeaveLock();
        OutcomeIsFramed(before, held, left, World(), key, dispatched, ok);
      } else {
        NothingDone(before, World(), key, true);
      }
      assert CanRun(before, trace) && World() == After(before, trace);
      assert SectionOutcome(before, World(), key, dispatched, ok);
    }

    /** `active_sources`, over the source ids in `source_code` order. */
    function ActiveSources(catalogue: seq<SourceId>): seq<SourceId>
      reads this
    {
      var rows := sources;
      Filter(catalogue, id => id in rows && rows[id].active && rows[id].hasCron && rows[id].hasUrl)
    }

    /** The first loop of `run_once`: jobs whose initial publish did not finish. `faults(i)` is what
        raises in the lock block of the i-th listed job. */
    method RecoverPending(faults: nat -> Fault) returns (dispatched: seq<nat>, ok: bool, ghost trace: seq<Step>)
      requires PhaseOf(World(), me).Idle?
      modifies this
      ensures Ticked(old(World()), World(), me, trace, dispatched, ok)
      ensures TouchesOnly(old(World()), World(), dispatched, ListedWindows(old(World())))
      ensures ok ==> forall p :: p in RecoverableJobs(old(World()), 100) ==>
                       Recovered(old(World()), jobs, dispatched, p)
      ensures (forall i :: faults(i) == NoFault) ==> ok
    {
      dispatched, ok, trace := [], true, [];
      ghost var before := World();
      NothingTicked(before, me);
      var pending := RecoverableJobs(World(), 100);
      PendingIsOrdered(before);
      assert forall j :: j in pending ==> j in OrderedPending(before);
      var start := jobs;
      hide OnlyKeyChanged, Marked, Sent, ChangedAreIn, Covered, RecoverableJobs, Recoverable, SectionOutcome,
      TouchesOnly;
      hide Sectioned;
      for i := 0 to |pending|
        invariant ok && Ticked(before, World(), me, trace, dispatched, true)
        invariant TouchesOnly(before, World(), dispatched, ListedWindows(before))
        invariant CoveredSoFar(before, jobs, pending, i)
      {
        ghost var mid := World();
        var key := WindowOf(start, pending[i]);
        assert pending[i] in pending && key in ListedWindows(before);
        var done;
        ghost var more;
        done, ok, more := DispatchUnderLock(key, faults(i));
        SectionTouches(before, mid, World(), me, trace, dispatched, key, more, done, ok, ListedWindows(before));
        SectionTicks(mid, World(), me, key, more, done, ok);
        TicksConcat(before, mid, World(), me, trace, more, dispatched, Ids(done), ok);
        trace := trace + more;
        dispatched := dispatched + Ids(done);
        if !ok {
          return;
        }
        OneMoreCovered(before, mid, World(), me, pending, i, more, done);
      }
      forall p | p in pending ensures Recovered(before, jobs, dispatched, p) {
        var q :| 0 <= q < |pending| && pending[q] == p;
        RecoveredNewest(before, jobs, dispatched, p);
      }
    }

    /** The second loop of `run_once`. `due` says which schedules match the minute
        (`cron_matches`), `active` is the list just read. */
    method DispatchDue(minute: nat, active: seq<SourceId>, due: SourceId -> bool, faults: nat -> Fault)
      returns (dispatched: seq<nat>, ok: bool, ghost trace: seq<Step>)
      requires PhaseOf(World(), me).Idle?
      modifies this
      ensures Ticked(old(World()), World(), me, trace, dispatched, ok)
      ensures TouchesOnly(old(World()), World(), dispatched, DueWindows(minute, active, due))
      ensures ok ==> forall i :: 0 <= i < |active| && due(active[i]) && !Live(old(World()), Key(active[i], minute)) ==>
                       Covered(jobs, Key(active[i], minute))
      ensures (forall i :: faults(i) == NoFault) ==> ok
    {
      dispatched, ok, trace := [], true, [];
      ghost var before := World();
      NothingTicked(before, me);
      ghost var keys := DueWindows(minute, active, due);
      hide OnlyKeyChanged, Marked, Sent, ChangedAreIn, Covered, SectionOutcome, TouchesOnly;
      for i := 0 to |active|
        invariant ok && Ticked(before, World(), me, trace, dispatched, true)
        invariant TouchesOnly(before, World(), dispatched, keys)
        invariant forall j :: 0 <= j < i && due(active[j]) && !Live(before, Key(active[j], minute)) ==>
                    Covered(jobs, Key(active[j], minute))
      {
        if due(active[i]) {
          ghost var mid := World();
          var key := Key(active[i], minute);
          var done;
          ghost var more;
          done, ok, more := DispatchUnderLock(key, faults(i));
          SectionTouches(before, mid, World(), me, trace, dispatched, key, more, done, ok, keys);
          SectionTicks(mid, World(), me, key, more, done, ok);
          TicksConcat(before, mid, World(), me, trace, more, dispatched, Ids(done), ok);
          trace := trace + more;
          dispatched := dispatched + Ids(done);
          if !ok {
            return;
          }
          forall j | 0 <= j < i + 1 && due(active[j]) && !Live(before, Key(active[j], minute))
            ensures Covered(jobs, Key(active[j], minute))
          {
            StillCovered(before, mid, World(), me, key, Key(active[j], minute), more, done);
          }
        }
      }
    }

    /** One tick. Whether or not a call raises, the whole of it is a run of the protocol, the returned
        ids are what was queued, in order (a tick that raised may have queued one more), and every row
        it changed it marked after queuing. Every id, row and event belongs to the window of a listed job
        or of a due source at this minute. If nothing raises, a listed job in a free window ends
        published iff no newer row superseded it, and every due active source whose window nobody else
        holds ends the tick with its newest row DISPATCHED. */
    method RunOnce(minute: nat, catalogue: seq<SourceId>, due: SourceId -> bool,
                   recoveryFaults: nat -> Fault, dueFaults: nat -> Fault)
      returns (dispatched: seq<nat>, ok: bool, ghost trace: seq<Step>)
      requires PhaseOf(World(), me).Idle?
      modifies this
      ensures Ticked(old(World()), World(), me, trace, dispatched, ok)
      ensures TouchesOnly(old(World()), World(), dispatched, TickWindows(old(World()), minute, catalogue, due))
      ensures ok ==> forall p :: p in RecoverableJobs(old(World()), 100) ==>
                       RecoveredIff(old(World()), World(), dispatched, p)
      ensures ok ==> forall source ::
                IsDueSource(old(World()), catalogue, due, source) && !Live(old(World()), Key(source, minute)) ==>
                Covered(jobs, Key(source, minute))
      ensures (forall i :: recoveryFaults(i) == NoFault) && (forall i :: dueFaults(i) == NoFault) ==> ok
    {
      ghost var before := World();
      ghost var keys := TickWindows(before, minute, catalogue, due);
      dispatched, ok, trace := RecoverPending(recoveryFaults);
      TouchesMore(before, World(), dispatched, ListedWindows(before), keys);
      if !ok {
        return;
      }
      ghost var middle := World();
      ghost var recovered := dispatched;
      var active := ActiveSources(catalogue);
      var more;
      ghost var steps;
      more, ok, steps := DispatchDue(minute, active, due, dueFaults);
      TouchesMore(middle, World(), more, DueWindows(minute, active, due), keys);
      TouchesConcat(before, middle, World(), dispatched, more, keys);
      TicksConcat(before, middle, World(), me, trace, steps, dispatched, more, ok);
      trace := trace + steps;
      dispatched := dispatched + more;
      if ok {
        PendingIsOrdered(before);
        forall p | p in RecoverableJobs(before, 100) ensures RecoveredIff(before, World(), dispatched, p) {
          assert p in OrderedPending(before);
          ListedJobIsRecoveredIff(before, middle, World(), me, trace, recovered, dispatched, p);
        }
        forall source | IsDueSource(before, catalogue, due, source) && !Live(before, Key(source, minute))
          ensures Covered(jobs, Key(source, minute))
        {
          var i :| 0 <= i < |active| && active[i] == source;
        }
      }
    }
  }
}
