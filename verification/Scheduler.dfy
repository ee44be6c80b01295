/** The source scheduler as a protocol: any number of schedulers race through a Redis lease, a
    read-or-insert of a job row, a queue publish and a status update, and any of them may stop
    between two of those calls. One step is one Redis call, one SQL statement that decides a
    branch, one commit, or one publish. */
module SchedulerProtocol {
  import opened Seqs

  type SourceId = nat
  type WorkerId = nat

  /** `ttl_seconds`, in the milliseconds of the model's clock. */
  const LEASE_MS: nat := 55_000

  datatype Key = Key(source: SourceId, minute: nat)
  datatype Lease = Lease(token: nat, expiry: nat)
  datatype Lock = Lock(key: Key, lease: Lease)
  datatype Status = ENQUEUED | DISPATCHED | RUNNING | COMPLETED | FAILED
  datatype Job = Job(source: SourceId, minute: Option<nat>, scheduled: bool, status: Status, createdAt: nat)
  datatype Source = Source(active: bool, hasUrl: bool, hasCron: bool)

  /** A name-based UUID (version 5, RFC 9562 section 5.5), taken as an injective function. */
  datatype Uuid5 = Uuid5(kind: string, job: nat)
  datatype Event = Event(id: Uuid5, job: nat, key: Key, originTimestamp: nat)

  datatype Phase =
    | Idle
    | Holding(lock: Lock)
    | Missing(lock: Lock, began: nat)
    | Ready(lock: Lock, job: nat)
    | Published(lock: Lock, job: nat)
    | Releasing(lock: Lock)

  datatype State = State(
    now: nat,
    redis: map<Key, Lease>,
    nextToken: nat,
    jobs: seq<Job>,
    published: seq<Event>,
    workers: map<WorkerId, Phase>,
    sources: map<SourceId, Source>)

  datatype Step =
    | Acquire(w: WorkerId, key: Key)
    | Read(w: WorkerId, found: Option<nat>)
    | Insert(w: WorkerId)
    | Publish(w: WorkerId)
    | Mark(w: WorkerId)
    | Release(w: WorkerId)
    | Abort(w: WorkerId)
    | Crash(w: WorkerId)
    | Tick(later: nat)
    | Collector(job: nat, status: Status)
    | SetSource(id: SourceId, source: Source)
    | AddOther(row: Job)

  function PhaseOf(s: State, w: WorkerId): Phase {
    if w in s.workers then s.workers[w] else Idle
  }

  predicate Live(s: State, key: Key) {
    key in s.redis && s.now < s.redis[key].expiry
  }

  /** Row `j` is a SCHEDULED row of this source and minute. */
  predicate IsRow(jobs: seq<Job>, key: Key, j: nat) {
    j < |jobs| && jobs[j].scheduled && jobs[j].source == key.source && jobs[j].minute == Some(key.minute)
  }

  /** `ORDER BY created_at DESC LIMIT 1`; rows created in the same instant may come in any order. */
  predicate IsLatest(jobs: seq<Job>, key: Key, j: nat) {
    IsRow(jobs, key, j) && forall i: nat :: i < |jobs| && IsRow(jobs, key, i) ==> jobs[i].createdAt <= jobs[j].createdAt
  }

  predicate HasEvent(s: State, job: nat) {
    exists i :: 0 <= i < |s.published| && s.published[i].job == job
  }

  function CollectionEvent(job: nat, key: Key, now: nat): Event {
    Event(Uuid5("COLLECTION_JOB_ENQUEUED", job), job, key, now)
  }

  predicate Enabled(s: State, step: Step) {
    match step
    case Acquire(w, key) => PhaseOf(s, w).Idle?
    case Read(w, found) =>
      PhaseOf(s, w).Holding? &&
      (match found
       case Some(j) => IsLatest(s.jobs, PhaseOf(s, w).lock.key, j)
       case None => forall j: nat :: j < |s.jobs| ==> !IsRow(s.jobs, PhaseOf(s, w).lock.key, j))
    case Insert(w) => PhaseOf(s, w).Missing?
    case Publish(w) => PhaseOf(s, w).Ready?
    case Mark(w) => PhaseOf(s, w).Published? && PhaseOf(s, w).job < |s.jobs|
    case Release(w) => PhaseOf(s, w).Releasing?
    case Abort(w) => !PhaseOf(s, w).Idle?
    case Crash(w) => true
    case Tick(later) => s.now <= later
    case Collector(j, status) => j < |s.jobs| && HasEvent(s, j) && status in {RUNNING, COMPLETED, FAILED}
    case SetSource(id, source) => true
    case AddOther(row) => !row.scheduled
  }

  function Apply(s: State, step: Step): State
    requires Enabled(s, step)
  {
    match step
    case Acquire(w, key) =>
      if Live(s, key) then s
      else
        var lease := Lease(s.nextToken, s.now + LEASE_MS);
        s.(redis := s.redis[key := lease], nextToken := s.nextToken + 1,
           workers := s.workers[w := Holding(Lock(key, lease))])
    case Read(w, found) =>
      var lock := PhaseOf(s, w).lock;
      var next := match found
        case None => Missing(lock, s.now)
        case Some(j) => if s.jobs[j].status != DISPATCHED then Ready(lock, j) else Releasing(lock);
      s.(workers := s.workers[w := next])
    case Insert(w) =>
      var Missing(lock, began) := PhaseOf(s, w);
      s.(jobs := s.jobs + [Job(lock.key.source, Some(lock.key.minute), true, ENQUEUED, began)],
         workers := s.workers[w := Ready(lock, |s.jobs|)])
    case Publish(w) =>
      var Ready(lock, j) := PhaseOf(s, w);
      s.(published := s.published + [CollectionEvent(j, lock.key, s.now)],
         workers := s.workers[w := Published(lock, j)])
    case Mark(w) =>
      var Published(lock, j) := PhaseOf(s, w);
      s.(jobs := s.jobs[j := s.jobs[j].(status := DISPATCHED)],
         workers := s.workers[w := Releasing(lock)])
    case Release(w) =>
      var lock := PhaseOf(s, w).lock;
      s.(redis := CompareAndDelete(s.redis, s.now, lock), workers := s.workers[w := Idle])
    case Abort(w) => s.(workers := s.workers[w := Releasing(PhaseOf(s, w).lock)])
    case Crash(w) => s.(workers := s.workers[w := Idle])
    case Tick(later) => s.(now := later)
    case Collector(j, status) => s.(jobs := s.jobs[j := s.jobs[j].(status := status)])
    case SetSource(id, source) => s.(sources := s.sources[id := source])
    case AddOther(row) => s.(jobs := s.jobs + [row])
  }

  /** The release script: delete the key only while it still carries the caller's token. */
  function CompareAndDelete(redis: map<Key, Lease>, now: nat, lock: Lock): map<Key, Lease> {
    if lock.key in redis && now < redis[lock.key].expiry && redis[lock.key].token == lock.lease.token
    then redis - {lock.key}
    else redis
  }

  ghost predicate Init(s: State) {
    s.redis == map[] && s.jobs == [] && s.published == [] && s.workers == map[]
  }

  /** `steps` can be taken one after the other from `s`. */
  ghost predicate CanRun(s: State, steps: seq<Step>)
    decreases |steps|
  {
    steps == [] || (Enabled(s, steps[0]) && CanRun(Apply(s, steps[0]), steps[1..]))
  }

  ghost function After(s: State, steps: seq<Step>): State
    requires CanRun(s, steps)
    decreases |steps|
  {
    if steps == [] then s else After(Apply(s, steps[0]), steps[1..])
  }

  lemma {:induction false} RunConcat(s: State, a: seq<Step>, b: seq<Step>)
    requires CanRun(s, a) && CanRun(After(s, a), b)
    ensures CanRun(s, a + b) && After(s, a + b) == After(After(s, a), b)
    decreases |a|
  {
    if a == [] {
      assert a + b == b;
    } else {
      assert (a + b)[1..] == a[1..] + b;
      RunConcat(Apply(s, a[0]), a[1..], b);
    }
  }

  // ---------------------------------------------------------------- the lease

  predicate InSection(s: State, w: WorkerId) {
    !PhaseOf(s, w).Idle?
  }

  /** The worker's lease has not run out. */
  predicate InTime(s: State, w: WorkerId)
    requires InSection(s, w)
  {
    s.now < PhaseOf(s, w).lock.lease.expiry
  }

  ghost predicate LeaseInv(s: State) {
    && (forall w :: InSection(s, w) ==> PhaseOf(s, w).lock.lease.token < s.nextToken)
    && (forall k :: k in s.redis ==> s.redis[k].token < s.nextToken)
    && (forall v, w :: InSection(s, v) && InSection(s, w) && v != w ==>
          PhaseOf(s, v).lock.lease.token != PhaseOf(s, w).lock.lease.token)
    && (forall w, k :: InSection(s, w) && k in s.redis && s.redis[k].token == PhaseOf(s, w).lock.lease.token ==>
          k == PhaseOf(s, w).lock.key)
    && (forall w :: InSection(s, w) && InTime(s, w) ==>
          var lock := PhaseOf(s, w).lock;
          lock.key in s.redis && s.redis[lock.key] == lock.lease)
  }

  /** The scheduler a step belongs to, if any. */
  function Actor(step: Step): Option<WorkerId> {
    if step.Tick? || step.Collector? || step.SetSource? || step.AddOther? then None else Some(step.w)
  }

  /** A step moves its own scheduler only, and a lock is held unchanged from acquire to release. */
  lemma PhaseChange(s: State, step: Step, w: WorkerId)
    requires Enabled(s, step)
    ensures var t := Apply(s, step);
            if Actor(step) != Some(w) then PhaseOf(t, w) == PhaseOf(s, w)
            else InSection(t, w) ==>
              if InSection(s, w) then PhaseOf(t, w).lock == PhaseOf(s, w).lock
              else (step.Acquire? && !Live(s, step.key) &&
                    PhaseOf(t, w).lock == Lock(step.key, Lease(s.nextToken, s.now + 55_000)))
  {
  }

  lemma LeaseInvStep(s: State, step: Step)
    requires LeaseInv(s) && Enabled(s, step)
    ensures LeaseInv(Apply(s, step))
  {
    var t := Apply(s, step);
    forall w: WorkerId | InSection(t, w)
      ensures PhaseOf(t, w).lock.lease.token < t.nextToken
      ensures forall k :: k in t.redis && t.redis[k].token == PhaseOf(t, w).lock.lease.token ==>
                k == PhaseOf(t, w).lock.key
      ensures InTime(t, w) ==> var lock := PhaseOf(t, w).lock; lock.key in t.redis && t.redis[lock.key] == lock.lease
    {
      PhaseChange(s, step, w);
      if step.Release? {
        assert step.w != w;
        assert PhaseOf(s, step.w).lock.lease.token != PhaseOf(s, w).lock.lease.token;
      }
    }
    forall v: WorkerId, w: WorkerId | InSection(t, v) && InSection(t, w) && v != w
      ensures PhaseOf(t, v).lock.lease.token != PhaseOf(t, w).lock.lease.token
    {
      PhaseChange(s, step, v);
      PhaseChange(s, step, w);
    }
  }

  /** Two schedulers never hold unexpired leases on one source and minute. */
  lemma MutualExclusion(s: State, v: WorkerId, w: WorkerId)
    requires LeaseInv(s) && InSection(s, v) && InSection(s, w)
    requires PhaseOf(s, v).lock.key == PhaseOf(s, w).lock.key
    requires InTime(s, v) && InTime(s, w)
    ensures v == w
  {
    assert s.redis[PhaseOf(s, v).lock.key] == PhaseOf(s, v).lock.lease;
  }

  lemma LeasesAreOnDifferentKeys(s: State, v: WorkerId, w: WorkerId)
    requires LeaseInv(s) && InSection(s, v) && InSection(s, w) && InTime(s, v) && InTime(s, w) && v != w
    ensures PhaseOf(s, v).lock.key != PhaseOf(s, w).lock.key
  {
    if PhaseOf(s, v).lock.key == PhaseOf(s, w).lock.key {
      MutualExclusion(s, v, w);
    }
  }

  /** No step of one scheduler can end the lease another scheduler still holds in time: a late release finds a
      foreign token, and an acquire finds the key live. */
  lemma OthersLeaseSurvives(s: State, step: Step, w: WorkerId)
    requires LeaseInv(s) && Enabled(s, step) && !step.Tick?
    requires InSection(s, w) && InTime(s, w)
    requires Actor(step) != Some(w)
    ensures var lock := PhaseOf(s, w).lock; var t := Apply(s, step);
            PhaseOf(t, w) == PhaseOf(s, w) && Live(t, lock.key) && t.redis[lock.key] == lock.lease
  {
    LeaseInvStep(s, step);
    PhaseChange(s, step, w);
  }

  lemma {:induction false} LeaseInvRun(s: State, steps: seq<Step>)
    requires LeaseInv(s) && CanRun(s, steps)
    ensures LeaseInv(After(s, steps))
    decreases |steps|
  {
    if steps == [] {
    } else {
      LeaseInvStep(s, steps[0]);
      LeaseInvRun(Apply(s, steps[0]), steps[1..]);
    }
  }

  /** In any interleaving with crashes, a release deletes at most the lease of its own scheduler:
      whoever else still holds a lease in time keeps it, on every key. */
  lemma ReleaseFreesOnlyItsOwn(s: State, steps: seq<Step>, v: WorkerId, w: WorkerId)
    requires Init(s) && CanRun(s, steps) && v != w
    requires var t := After(s, steps); Enabled(t, Release(v)) && InSection(t, w) && InTime(t, w)
    ensures var t := After(s, steps); var lock := PhaseOf(t, w).lock; var u := Apply(t, Release(v));
            Live(u, lock.key) && u.redis[lock.key] == lock.lease
  {
    LeaseInvRun(s, steps);
    OthersLeaseSurvives(After(s, steps), Release(v), w);
  }

  // ---------------------------------------------------------------- one row per source and minute

  ghost predicate OneRowPerKey(jobs: seq<Job>) {
    forall key, i: nat, j: nat :: IsRow(jobs, key, i) && IsRow(jobs, key, j) ==> i == j
  }

  ghost predicate RowInv(s: State) {
    && LeaseInv(s)
    && OneRowPerKey(s.jobs)
    && (forall w, j: nat :: PhaseOf(s, w).Missing? && InTime(s, w) ==> !IsRow(s.jobs, PhaseOf(s, w).lock.key, j))
  }

  /** An insert commits before the lease its worker holds runs out. */
  predicate TimelyStep(s: State, step: Step)
    requires Enabled(s, step)
  {
    step.Insert? ==> InTime(s, step.w)
  }

  ghost predicate TimelyRun(s: State, steps: seq<Step>)
    requires CanRun(s, steps)
    decreases |steps|
  {
    steps == [] || (TimelyStep(s, steps[0]) && TimelyRun(Apply(s, steps[0]), steps[1..]))
  }

  lemma RowInvStep(s: State, step: Step)
    requires RowInv(s) && Enabled(s, step) && TimelyStep(s, step)
    ensures RowInv(Apply(s, step))
  {
    var t := Apply(s, step);
    LeaseInvStep(s, step);
    RowsChangeOnlyByInsert(s, step);
    forall w: WorkerId, j: nat | PhaseOf(t, w).Missing? && InTime(t, w)
      ensures !IsRow(t.jobs, PhaseOf(t, w).lock.key, j)
    {
      PhaseChange(s, step, w);
      if step.Insert? && step.w != w {
        LeasesAreOnDifferentKeys(s, w, step.w);
      }
    }
  }

  lemma RowsChangeOnlyByInsert(s: State, step: Step)
    requires Enabled(s, step)
    ensures forall key, j: nat :: IsRow(Apply(s, step).jobs, key, j) <==>
              IsRow(s.jobs, key, j) || (step.Insert? && j == |s.jobs| && key == PhaseOf(s, step.w).lock.key)
  {
  }

  /** Every run in which inserts commit inside their lease keeps one row per source and minute. */
  lemma {:induction false} AtMostOneJobPerMinute(s: State, steps: seq<Step>)
    requires RowInv(s) && CanRun(s, steps) && TimelyRun(s, steps)
    ensures RowInv(After(s, steps)) && OneRowPerKey(After(s, steps).jobs)
    decreases |steps|
  {
    if steps == [] {
    } else {
      RowInvStep(s, steps[0]);
      AtMostOneJobPerMinute(Apply(s, steps[0]), steps[1..]);
    }
  }

  lemma InitialStateIsGood(s: State)
    requires Init(s)
    ensures RowInv(s) && JobInv(s)
  {
  }

  lemma Extend(s: State, steps: seq<Step>, step: Step)
    requires CanRun(s, steps) && Enabled(After(s, steps), step)
    ensures CanRun(s, steps + [step]) && After(s, steps + [step]) == Apply(After(s, steps), step)
  {
    var last := After(s, steps);
    assert [step][1..] == [] && CanRun(last, [step]);
    RunConcat(s, steps, [step]);
  }

  ghost predicate OnlyInSection(s: State, ws: set<WorkerId>) {
    forall w: WorkerId :: InSection(s, w) ==> w in ws
  }

  /** Nobody but the actor of a step enters or leaves a section; a crash leaves it. */
  lemma SectionsAfter(s: State, step: Step, ws: set<WorkerId>)
    requires OnlyInSection(s, ws) && Enabled(s, step) && (Actor(step).Some? ==> Actor(step).value in ws)
    ensures OnlyInSection(Apply(s, step), if step.Crash? then ws - {step.w} else ws)
  {
    forall w: WorkerId | InSection(Apply(s, step), w) ensures w in ws && (step.Crash? ==> w != step.w) {
      PhaseChange(s, step, w);
    }
  }

  /** A scheduler that stalls between its read and its insert for a whole lease lets a second one
      read the same empty result. */
  lemma StalledReaderIsOvertaken(s: State, key: Key) returns (steps: seq<Step>)
    requires Init(s)
    ensures CanRun(s, steps)
    ensures var t := After(s, steps);
            && t.jobs == [] && t.published == [] && t.sources == s.sources
            && OnlyInSection(t, {0, 1})
            && PhaseOf(t, 0).Missing? && PhaseOf(t, 0).lock.key == key && PhaseOf(t, 0).began == s.now
            && PhaseOf(t, 1).Missing? && PhaseOf(t, 1).lock.key == key && PhaseOf(t, 1).began == s.now + LEASE_MS
  {
    steps := [];
    Extend(s, steps, Acquire(0, key));
    steps := steps + [Acquire(0, key)];
    Extend(s, steps, Read(0, None));
    steps := steps + [Read(0, None)];
    assert After(s, steps).jobs == [] && PhaseOf(After(s, steps), 0).Missing?;
    Extend(s, steps, Tick(s.now + LEASE_MS));
    steps := steps + [Tick(s.now + LEASE_MS)];
    assert !Live(After(s, steps), key);
    Extend(s, steps, Acquire(1, key));
    steps := steps + [Acquire(1, key)];
    assert PhaseOf(After(s, steps), 1).Holding?;
    Extend(s, steps, Read(1, None));
    steps := steps + [Read(1, None)];
  }

  /** The deadline is needed: when both overdue readers insert, both rows are kept. */
  lemma LateInsertDuplicates(s: State, key: Key)
    requires Init(s)
    ensures exists steps :: CanRun(s, steps) && !OneRowPerKey(After(s, steps).jobs)
  {
    var steps := StalledReaderIsOvertaken(s, key);
    Extend(s, steps, Insert(1));
    steps := steps + [Insert(1)];
    assert PhaseOf(After(s, steps), 0).Missing?;
    Extend(s, steps, Insert(0));
    steps := steps + [Insert(0)];
    var jobs := After(s, steps).jobs;
    assert IsRow(jobs, key, 0) && IsRow(jobs, key, 1);
  }

  /** An insert that finds a row of its window already there. */
  ghost predicate Collides(s: State, step: Step)
    requires Enabled(s, step)
  {
    step.Insert? && exists j: nat :: IsRow(s.jobs, PhaseOf(s, step.w).lock.key, j)
  }

  /** A step makes a second row for some window exactly by colliding. */
  lemma DuplicatesByCollision(s: State, step: Step)
    requires OneRowPerKey(s.jobs) && Enabled(s, step)
    ensures OneRowPerKey(Apply(s, step).jobs) <==> !Collides(s, step)
  {
    RowsChangeOnlyByInsert(s, step);
    if Collides(s, step) {
      var key, n := PhaseOf(s, step.w).lock.key, |s.jobs|;
      var j: nat :| IsRow(s.jobs, key, j);
      assert IsRow(Apply(s, step).jobs, key, j) && IsRow(Apply(s, step).jobs, key, n);
    }
  }

  /** While the invariant of in-time readers holds, only an overdue insert can collide. */
  lemma CollisionIsLate(s: State, step: Step)
    requires RowInv(s) && Enabled(s, step) && Collides(s, step)
    ensures !InTime(s, step.w)
  {
  }

  ghost predicate CollisionFree(s: State, steps: seq<Step>)
    requires CanRun(s, steps)
    decreases |steps|
  {
    steps == [] || (!Collides(s, steps[0]) && CollisionFree(Apply(s, steps[0]), steps[1..]))
  }

  lemma DuplicatesStay(s: State, step: Step)
    requires Enabled(s, step) && !OneRowPerKey(s.jobs)
    ensures !OneRowPerKey(Apply(s, step).jobs)
  {
    RowsChangeOnlyByInsert(s, step);
    var key, i: nat, j: nat :| IsRow(s.jobs, key, i) && IsRow(s.jobs, key, j) && i != j;
    assert IsRow(Apply(s, step).jobs, key, i) && IsRow(Apply(s, step).jobs, key, j);
  }

  lemma {:induction false} DuplicatesStayForever(s: State, steps: seq<Step>)
    requires CanRun(s, steps) && !OneRowPerKey(s.jobs)
    ensures !OneRowPerKey(After(s, steps).jobs)
    decreases |steps|
  {
    if steps == [] {
    } else {
      DuplicatesStay(s, steps[0]);
      DuplicatesStayForever(Apply(s, steps[0]), steps[1..]);
    }
  }

  /** The exact condition, over whole runs and without any deadline: one row per source and minute at
      the end if and only if no insert along the way collided. */
  lemma {:induction false} OneRowIffCollisionFree(s: State, steps: seq<Step>)
    requires OneRowPerKey(s.jobs) && CanRun(s, steps)
    ensures OneRowPerKey(After(s, steps).jobs) <==> CollisionFree(s, steps)
    decreases |steps|
  {
    if steps == [] {
    } else {
      DuplicatesByCollision(s, steps[0]);
      var t := Apply(s, steps[0]);
      if Collides(s, steps[0]) {
        DuplicatesStayForever(t, steps[1..]);
      } else {
        OneRowIffCollisionFree(t, steps[1..]);
      }
    }
  }

  /** A run that ends with a duplicate has a first overdue insert; up to it the invariant holds. */
  lemma {:induction false} FirstLateInsert(s: State, steps: seq<Step>) returns (k: nat)
    requires RowInv(s) && CanRun(s, steps) && !OneRowPerKey(After(s, steps).jobs)
    ensures k < |steps| && CanRun(s, steps[..k]) && TimelyRun(s, steps[..k]) && RowInv(After(s, steps[..k]))
    ensures var t := After(s, steps[..k]); Enabled(t, steps[k]) && steps[k].Insert? && !InTime(t, steps[k].w)
    decreases |steps|
  {
    assert steps != [];
    if TimelyStep(s, steps[0]) {
      RowInvStep(s, steps[0]);
      var j := FirstLateInsert(Apply(s, steps[0]), steps[1..]);
      k := j + 1;
      assert steps[..k][0] == steps[0] && steps[..k][1..] == steps[1..][..j];
    } else {
      k := 0;
      assert steps[..0] == [];
    }
  }

  // ---------------------------------------------------------------- no job is lost

  ghost predicate JobInv(s: State) {
    && (forall i :: 0 <= i < |s.published| ==>
          var e := s.published[i];
          e.id == Uuid5("COLLECTION_JOB_ENQUEUED", e.job) && IsRow(s.jobs, e.key, e.job))
    && (forall j: nat :: j < |s.jobs| && s.jobs[j].scheduled ==>
          s.jobs[j].minute.Some? && (s.jobs[j].status != ENQUEUED ==> HasEvent(s, j)))
    && (forall w :: PhaseOf(s, w).Ready? || PhaseOf(s, w).Published? ==>
          IsRow(s.jobs, PhaseOf(s, w).lock.key, PhaseOf(s, w).job))
    && (forall w :: PhaseOf(s, w).Published? ==> HasEvent(s, PhaseOf(s, w).job))
  }

  lemma EventsAreKept(s: State, step: Step)
    requires Enabled(s, step)
    ensures forall j :: HasEvent(s, j) ==> HasEvent(Apply(s, step), j)
    ensures step.Publish? ==> HasEvent(Apply(s, step), PhaseOf(s, step.w).job)
  {
    var t := Apply(s, step);
    assert s.published <= t.published;
    forall j | HasEvent(s, j) ensures HasEvent(t, j) {
      var i :| 0 <= i < |s.published| && s.published[i].job == j;
      assert t.published[i].job == j;
    }
    if step.Publish? {
      assert t.published[|s.published|].job == PhaseOf(s, step.w).job;
    }
  }

  lemma JobInvStep(s: State, step: Step)
    requires JobInv(s) && Enabled(s, step)
    ensures JobInv(Apply(s, step))
  {
    EventsAreKept(s, step);
    RowsChangeOnlyByInsert(s, step);
    var t := Apply(s, step);
    forall j: nat | j < |t.jobs| && t.jobs[j].scheduled
      ensures t.jobs[j].minute.Some? && (t.jobs[j].status != ENQUEUED ==> HasEvent(t, j))
    {
      assert j < |s.jobs| || step.Insert? || step.AddOther?;
    }
    forall w: WorkerId | PhaseOf(t, w).Ready? || PhaseOf(t, w).Published?
      ensures IsRow(t.jobs, PhaseOf(t, w).lock.key, PhaseOf(t, w).job)
      ensures PhaseOf(t, w).Published? ==> HasEvent(t, PhaseOf(t, w).job)
    {
      PhaseChange(s, step, w);
    }
  }

  lemma {:induction false} JobInvRun(s: State, steps: seq<Step>)
    requires JobInv(s) && CanRun(s, steps)
    ensures JobInv(After(s, steps))
    decreases |steps|
  {
    if steps == [] {
    } else {
      JobInvStep(s, steps[0]);
      JobInvRun(Apply(s, steps[0]), steps[1..]);
    }
  }

  /** No step, including a crash or a redelivered event, puts a job back to ENQUEUED, and no row or
      event disappears. */
  lemma NeverBackToEnqueued(s: State, step: Step, j: nat)
    requires Enabled(s, step) && j < |s.jobs|
    ensures j < |Apply(s, step).jobs|
    ensures Apply(s, step).jobs[j] == s.jobs[j].(status := Apply(s, step).jobs[j].status)
    ensures Apply(s, step).jobs[j].status == ENQUEUED ==> s.jobs[j].status == ENQUEUED
  {
  }

  /** Every publish for one job carries one event id, and different jobs carry different ids. */
  lemma StableEventIdentity(s: State, a: nat, b: nat)
    requires JobInv(s) && a < |s.published| && b < |s.published|
    ensures s.published[a].id == s.published[b].id <==> s.published[a].job == s.published[b].job
    ensures s.published[a].job == s.published[b].job ==> s.published[a].key == s.published[b].key
  {
    assert IsRow(s.jobs, s.published[a].key, s.published[a].job);
    assert IsRow(s.jobs, s.published[b].key, s.published[b].job);
  }

  /** The WHERE clause of `recoverable_jobs`. */
  predicate Recoverable(s: State, j: int) {
    && 0 <= j < |s.jobs|
    && var job := s.jobs[j];
    && job.status == ENQUEUED && job.scheduled && job.minute.Some?
    && job.source in s.sources && s.sources[job.source].active && s.sources[job.source].hasUrl
  }

  /** `ORDER BY job.scheduled_at, job.created_at`. */
  function SortKey(s: State, j: int): (int, int) {
    if 0 <= j < |s.jobs| && s.jobs[j].minute.Some? then (s.jobs[j].minute.value as int, s.jobs[j].createdAt as int)
    else (-1, 0)
  }

  predicate SortsNoLater(s: State, i: int, j: int) {
    var (a, b) := (SortKey(s, i), SortKey(s, j));
    a.0 < b.0 || (a.0 == b.0 && a.1 <= b.1)
  }

  function OrderedPending(s: State): seq<int> {
    StableSort(Filter(seq(|s.jobs|, i => i), j => Recoverable(s, j)), (i, j) => SortsNoLater(s, i, j))
  }

  function RecoverableJobs(s: State, limit: nat): seq<int> {
    Take(OrderedPending(s), limit)
  }

  lemma PendingIsOrdered(s: State)
    ensures forall j :: j in OrderedPending(s) <==> Recoverable(s, j)
    ensures Sorted(OrderedPending(s), (i, j) => SortsNoLater(s, i, j))
  {
    var all := seq(|s.jobs|, i => i);
    var picked := Filter(all, j => Recoverable(s, j));
    StableSortSorts(picked, (i, j) => SortsNoLater(s, i, j));
    SortedHasSameElements(picked, (i, j) => SortsNoLater(s, i, j));
    assert forall j :: Recoverable(s, j) ==> all[j] == j;
  }

  /** The rows the recovery query selects, with its conditions written out, oldest minute and then
      oldest row first. */
  lemma RecoverableJobsAre(s: State, limit: nat)
    ensures var rows := RecoverableJobs(s, limit);
            && |rows| <= limit
            && (forall j :: j in rows ==>
                  0 <= j < |s.jobs| && s.jobs[j].status == ENQUEUED && s.jobs[j].scheduled && s.jobs[j].minute.Some? &&
                  s.jobs[j].source in s.sources && s.sources[s.jobs[j].source].active &&
                  s.sources[s.jobs[j].source].hasUrl)
            && (forall a, b :: 0 <= a < b < |rows| ==>
                  0 <= rows[a] < |s.jobs| && 0 <= rows[b] < |s.jobs| && NotAfter(s.jobs[rows[a]], s.jobs[rows[b]]))
  {
    PendingIsOrdered(s);
    var all: seq<int>, rows: seq<int> := OrderedPending(s), RecoverableJobs(s, limit);
    assert forall a :: 0 <= a < |rows| ==> rows[a] == all[a] && all[a] in all;
    hide OrderedPending, RecoverableJobs;
    forall j | j in rows ensures Recoverable(s, j) {
      var a :| 0 <= a < |rows| && rows[a] == j;
    }
    forall a, b | 0 <= a < b < |rows| ensures NotAfter(s.jobs[rows[a]], s.jobs[rows[b]]) {
      assert rows[a] in rows && rows[b] in rows;
      assert SortsNoLater(s, all[a], all[b]);
    }
  }

  predicate NotAfter(a: Job, b: Job) {
    a.minute.Some? && b.minute.Some? &&
    (a.minute.value < b.minute.value || (a.minute.value == b.minute.value && a.createdAt <= b.createdAt))
  }

  /** A scheduled job is never lost: its event is out, or it is ENQUEUED and the recovery query
      returns it as soon as its source is active, unless `limit` jobs that sort no later are all
      pending before it. */
  lemma NoScheduledJobIsLost(s: State, j: nat, limit: nat)
    requires JobInv(s) && j < |s.jobs| && s.jobs[j].scheduled
    requires s.jobs[j].source in s.sources
    requires var source := s.sources[s.jobs[j].source]; source.active && source.hasUrl
    ensures HasEvent(s, j) || Recoverable(s, j)
    ensures Recoverable(s, j) ==>
              var rows := RecoverableJobs(s, limit);
              j in rows || (|rows| == limit && forall i :: i in rows ==> SortsNoLater(s, i, j))
    ensures forall i :: i in RecoverableJobs(s, limit) ==> Recoverable(s, i)
  {
    var rows := OrderedPending(s);
    PendingIsOrdered(s);
    if Recoverable(s, j) && |rows| > limit {
      var p :| 0 <= p < |rows| && rows[p] == j;
      if p < limit {
        assert rows[..limit][p] == j;
      }
    }
  }

  // ---------------------------------------------------------------- superseded rows

  /** Row `j` is newer than every other row of its window. */
  ghost predicate Newest(jobs: seq<Job>, key: Key, j: nat) {
    IsRow(jobs, key, j) && forall i: nat :: IsRow(jobs, key, i) && i != j ==> jobs[i].createdAt < jobs[j].createdAt
  }

  /** Some row of the window is newer than row `j`. */
  ghost predicate Superseded(jobs: seq<Job>, key: Key, j: nat) {
    IsRow(jobs, key, j) && exists i: nat :: IsRow(jobs, key, i) && jobs[i].createdAt > jobs[j].createdAt
  }

  /** An unpublished row that a newer one has superseded, with no publish of it under way. */
  ghost predicate Stuck(s: State, key: Key, j: nat) {
    && Superseded(s.jobs, key, j) && s.jobs[j].status == ENQUEUED && !HasEvent(s, j)
    && NobodyPublishes(s, j)
  }

  ghost predicate NobodyPublishes(s: State, j: nat) {
    forall w :: PhaseOf(s, w).Ready? || PhaseOf(s, w).Published? ==> PhaseOf(s, w).job != j
  }

  lemma SupersededIsNotLatest(jobs: seq<Job>, key: Key, k: Key, j: nat)
    requires Superseded(jobs, k, j)
    ensures !IsLatest(jobs, key, j)
  {
    var i: nat :| IsRow(jobs, k, i) && jobs[i].createdAt > jobs[j].createdAt;
    assert i < |jobs| && (IsRow(jobs, key, j) ==> IsRow(jobs, key, i));
  }

  lemma SupersededStays(s: State, step: Step, key: Key, j: nat)
    requires Superseded(s.jobs, key, j) && Enabled(s, step)
    ensures Superseded(Apply(s, step).jobs, key, j)
  {
    RowsChangeOnlyByInsert(s, step);
    var i: nat :| IsRow(s.jobs, key, i) && s.jobs[i].createdAt > s.jobs[j].createdAt;
    NeverBackToEnqueued(s, step, i);
    NeverBackToEnqueued(s, step, j);
    assert IsRow(Apply(s, step).jobs, key, i);
  }

  lemma StuckStep(s: State, step: Step, key: Key, j: nat)
    requires Stuck(s, key, j) && Enabled(s, step)
    ensures Stuck(Apply(s, step), key, j)
  {
    var t := Apply(s, step);
    SupersededStays(s, step, key, j);
    hide Superseded;
    if step.Read? && step.found == Some(j) {
      SupersededIsNotLatest(s.jobs, PhaseOf(s, step.w).lock.key, key, j);
    }
    forall w: WorkerId | PhaseOf(t, w).Ready? || PhaseOf(t, w).Published? ensures PhaseOf(t, w).job != j {
      PhaseChange(s, step, w);
      assert PhaseOf(s, w).Ready? || PhaseOf(s, w).Published? ==> PhaseOf(s, w).job != j;
    }
    forall i | 0 <= i < |t.published| ensures t.published[i].job != j {
      assert i < |s.published| ==> t.published[i] == s.published[i];
    }
  }

  /** A stuck row stays stuck through every run: it is never published, and whenever its source is
      active the recovery query selects it again. */
  lemma {:induction false} StuckForever(s: State, steps: seq<Step>, key: Key, j: nat)
    requires Stuck(s, key, j) && CanRun(s, steps)
    ensures var t := After(s, steps);
            Stuck(t, key, j) &&
            (key.source in t.sources && t.sources[key.source].active && t.sources[key.source].hasUrl ==>
             Recoverable(t, j))
    decreases |steps|
  {
    if steps == [] {
    } else {
      StuckStep(s, steps[0], key, j);
      StuckForever(Apply(s, steps[0]), steps[1..], key, j);
    }
  }

  /** Whatever went before, a scheduler that starts over can publish a window's newest row. */
  lemma LatestCanBePublished(s: State, w: WorkerId, key: Key, j: nat) returns (steps: seq<Step>)
    requires IsLatest(s.jobs, key, j) && s.jobs[j].status != DISPATCHED
    ensures CanRun(s, steps) && HasEvent(After(s, steps), j)
  {
    var later := if Live(s, key) then s.redis[key].expiry else s.now;
    steps := [];
    Extend(s, steps, Crash(w));
    steps := steps + [Crash(w)];
    Extend(s, steps, Tick(later));
    steps := steps + [Tick(later)];
    assert !Live(After(s, steps), key) && After(s, steps).jobs == s.jobs;
    Extend(s, steps, Acquire(w, key));
    steps := steps + [Acquire(w, key)];
    Extend(s, steps, Read(w, Some(j)));
    steps := steps + [Read(w, Some(j))];
    assert PhaseOf(After(s, steps), w).Ready? && PhaseOf(After(s, steps), w).job == j;
    EventsAreKept(After(s, steps), Publish(w));
    Extend(s, steps, Publish(w));
    steps := steps + [Publish(w)];
  }

  ghost predicate PublishedBy(s: State, steps: seq<Step>, j: nat) {
    CanRun(s, steps) && HasEvent(After(s, steps), j)
  }

  /** An unpublished ENQUEUED row can still be published, by some continuation, exactly when no newer
      row of its window has superseded it. */
  lemma CanBePublishedIff(s: State, key: Key, j: nat)
    requires IsRow(s.jobs, key, j) && s.jobs[j].status == ENQUEUED && !HasEvent(s, j) && NobodyPublishes(s, j)
    ensures (exists steps :: PublishedBy(s, steps, j)) <==> !Superseded(s.jobs, key, j)
  {
    if Superseded(s.jobs, key, j) {
      assert Stuck(s, key, j);
      hide Stuck, Superseded, IsRow, HasEvent, NobodyPublishes;
      forall steps | CanRun(s, steps) ensures !PublishedBy(s, steps, j) {
        StuckIsUnpublished(s, steps, key, j);
      }
    } else {
      assert IsLatest(s.jobs, key, j);
      hide IsLatest, IsRow, HasEvent, NobodyPublishes, CanRun, After;
      var steps := LatestCanBePublished(s, 0, key, j);
      assert PublishedBy(s, steps, j);
    }
  }

  lemma StuckIsUnpublished(s: State, steps: seq<Step>, key: Key, j: nat)
    requires Stuck(s, key, j) && CanRun(s, steps)
    ensures !HasEvent(After(s, steps), j)
  {
    StuckForever(s, steps, key, j);
  }

  /** Such rows are reachable: of two overdue readers the second inserts first, the first one's row is
      older, and both stop. From any initial state with an active source. */
  lemma SupersededRowIsReachable(s: State, key: Key) returns (steps: seq<Step>)
    requires Init(s) && key.source in s.sources && s.sources[key.source].active && s.sources[key.source].hasUrl
    ensures CanRun(s, steps)
    ensures var t := After(s, steps); Stuck(t, key, 1) && Recoverable(t, 1) && !Live(t, key)
  {
    steps := StalledReaderIsOvertaken(s, key);
    var t := After(s, steps);
    Extend(s, steps, Insert(1));
    steps := steps + [Insert(1)];
    SectionsAfter(t, Insert(1), {0, 1});
    t := Apply(t, Insert(1));
    Extend(s, steps, Insert(0));
    steps := steps + [Insert(0)];
    SectionsAfter(t, Insert(0), {0, 1});
    t := Apply(t, Insert(0));
    assert IsRow(t.jobs, key, 0) && IsRow(t.jobs, key, 1) && t.jobs[0].createdAt > t.jobs[1].createdAt;
    var more := EveryoneStops(t, key);
    RunConcat(s, steps, more);
    steps := steps + more;
    OlderRowIsStuck(After(s, steps), key);
  }

  lemma OlderRowIsStuck(t: State, key: Key)
    requires IsRow(t.jobs, key, 0) && IsRow(t.jobs, key, 1) && t.jobs[0].createdAt > t.jobs[1].createdAt
    requires t.jobs[1].status == ENQUEUED && t.published == [] && OnlyInSection(t, {})
    ensures Stuck(t, key, 1)
  {
    forall w: WorkerId ensures PhaseOf(t, w).Idle? {
      assert !InSection(t, w);
    }
  }

  lemma EveryoneStops(t: State, key: Key) returns (steps: seq<Step>)
    requires OnlyInSection(t, {0, 1})
    ensures CanRun(t, steps)
    ensures var u := After(t, steps);
            u.jobs == t.jobs && u.published == t.published && u.sources == t.sources && OnlyInSection(u, {}) &&
            !Live(u, key)
  {
    steps := [Crash(0)];
    Extend(t, [], Crash(0));
    SectionsAfter(t, Crash(0), {0, 1});
    Extend(t, steps, Crash(1));
    SectionsAfter(After(t, steps), Crash(1), {0, 1} - {0});
    steps := steps + [Crash(1)];
    var u := After(t, steps);
    assert {0, 1} - {0} - {1} == {};
    var later := if Live(u, key) then u.redis[key].expiry else u.now;
    Extend(t, steps, Tick(later));
    SectionsAfter(u, Tick(later), {});
    steps := steps + [Tick(later)];
  }
}
