/** What the rows of the jobs table go through: the legal status writes, the timestamps that fit each
    status, and the binding of idempotency keys, over every run with crashes, restarts and failing
    statements. */
module Lifecycle {
  import opened Domain
  import opened Tables
  import opened Protocol
  import opened Ownership

  // ----- what each participant knows about the row it works on -----

  predicate RowOk(j: Job, now: Time) {
    && j.created <= now
    && match j.status
       case Queued => j.started.None? && j.finished.None?
       case Running => j.started.Some? && j.finished.None? && j.created <= j.started.value <= now
       case Completed =>
         j.started.Some? && j.finished.Some? && j.created <= j.started.value <= j.finished.value <= now
       case Failed =>
         && j.finished.Some? && j.created <= j.finished.value <= now
         && (j.started.Some? ==> j.created <= j.started.value <= j.finished.value)
  }

  predicate SameJob(a: Job, b: Job) {
    a.request == b.request && a.key == b.key && a.created == b.created
  }

  predicate WorkerOk(jobs: Jobs, now: Time, w: Worker) {
    match w
    case Idle => true
    case Exited => true
    case Got(id) => IsQueued(jobs, id)
    case Loaded(id, job, at) => IsQueued(jobs, id) && jobs[id] == job && job.created <= at <= now
    case Marking(id, job) =>
      IsQueued(jobs, id) && SameJob(jobs[id], job) && job.status == Running && RowOk(job, now)
    case Busy(id, job, _, _) => id in jobs && jobs[id] == job && job.status == Running
    case Closing(id, job, _, at) =>
      && id in jobs && jobs[id] == job && job.status == Running
      && job.started.Some? && job.started.value <= at <= now
  }

  predicate CallOk(jobs: Jobs, now: Time, c: Call) {
    match c
    case Retrying(_) => true
    case Errored => true
    case Returned(id, key) => id in jobs && jobs[id].key == key
    case Rejected(t, at) => t.id in jobs && jobs[t.id] == t.Row() && t.created <= at <= now
    case _ => if c.BeforeInsert() then c.ticket.id !in jobs && c.ticket.created <= now
              else c.ticket.id in jobs && jobs[c.ticket.id] == c.ticket.Row() && c.ticket.created <= now
  }

  predicate StopOk(jobs: Jobs, now: Time, p: Stopper) {
    match p
    case Drained(id) => IsQueued(jobs, id)
    case DrainLoaded(id, job, at) => IsQueued(jobs, id) && jobs[id] == job && job.created <= at <= now
    case _ => true
  }

  /** The facts about one place of the manager's memory. */
  predicate PlaceOk(jobs: Jobs, now: Time, m: Mem, p: Place) {
    match p
    case InPending => m.boot.Requeueing? ==> forall id | id in m.boot.pending :: IsQueued(jobs, id)
    case InChannel => forall id | id in m.chan :: IsQueued(jobs, id)
    case AtWorker(i) => i < |m.workers| ==> WorkerOk(jobs, now, m.workers[i])
    case AtCall(c) => c < |m.calls| ==> CallOk(jobs, now, m.calls[c])
    case AtStop => StopOk(jobs, now, m.stop)
  }

  ghost predicate Facts(s: State) {
    && (forall id | id in s.jobs :: RowOk(s.jobs[id], s.clock))
    && KeysUnique(s.jobs)
    && (forall p :: PlaceOk(s.jobs, s.clock, s.mem, p))
  }

  ghost predicate Inv(s: State) {
    Own(s) && Facts(s)
  }

  // ----- a statement on a row that one place holds -----

  /** `jobs'` differs from `jobs` in row `x` at most, and keeps its key. */
  ghost predicate OnlyRow(jobs: Jobs, jobs': Jobs, x: Id) {
    && (forall id | id in jobs :: id in jobs' && jobs'[id].key == jobs[id].key)
    && (forall id | id != x :: id in jobs <==> id in jobs')
    && (forall id | id in jobs && id != x :: jobs'[id] == jobs[id])
  }

  /** Whoever holds `x` may change its row: nobody else's facts are about that row. */
  lemma Frame(s: State, jobs': Jobs, p: Place, x: Id)
    requires Inv(s) && Holds(s.mem, p, x) && OnlyRow(s.jobs, jobs', x)
    ensures forall q | q != p :: PlaceOk(jobs', s.clock, s.mem, q)
  {
    forall q | q != p ensures PlaceOk(jobs', s.clock, s.mem, q) {
      assert PlaceOk(s.jobs, s.clock, s.mem, q);
      assert !Holds(s.mem, q, x);
    }
  }

  /** After a step that rewrites row `x` and changes place `p`, given the facts about that place. */
  lemma FactsAfter(s: State, s': State, p: Place, x: Id)
    requires Inv(s) && Holds(s.mem, p, x) && OnlyRow(s.jobs, s'.jobs, x) && s'.clock == s.clock
    requires forall q, id | q != p && Holds(s'.mem, q, id) :: Holds(s.mem, q, id)
    requires forall q | q != p :: PlaceOk(s'.jobs, s.clock, s.mem, q) ==> PlaceOk(s'.jobs, s.clock, s'.mem, q)
    requires PlaceOk(s'.jobs, s'.clock, s'.mem, p)
    requires x in s'.jobs ==> RowOk(s'.jobs[x], s'.clock)
    requires KeysUnique(s'.jobs)
    ensures Facts(s')
  {
    Frame(s, s'.jobs, p, x);
  }

  /** The status writes that workers, Create and Stop may issue. */
  predicate LegalWrite(a: Job, b: Job) {
    SameJob(a, b) &&
    match a.status
    case Queued => b.status == Running || b.status == Status.Failed
    case Running => b.status == Completed || b.status == Status.Failed
    case _ => false
  }

  /** What a step may do to the jobs table: insert queued rows, and rewrite one row legally. */
  ghost predicate LegalStep(jobs: Jobs, jobs': Jobs) {
    && (forall id | id in jobs :: id in jobs' && (jobs'[id] == jobs[id] || LegalWrite(jobs[id], jobs'[id])))
    && (forall id | id in jobs' && id !in jobs :: jobs'[id].status == Queued)
    && (forall i, j | i in jobs && j in jobs && jobs'[i] != jobs[i] && jobs'[j] != jobs[j] :: i == j)
  }

  /** What the recovery may do to it: requeue stale running rows. */
  ghost predicate LegalRecovery(s: State, jobs': Jobs) {
    && jobs'.Keys == s.jobs.Keys
    && (forall id | id in s.jobs ::
          jobs'[id] == s.jobs[id] || (Stale(s.jobs[id], s.clock, s.staleAfter) && jobs'[id] == Requeued(s.jobs[id])))
  }

  // ----- preservation -----

  /** After a step that leaves the table alone and changes place `p` only, given the facts about that
      place; every other place holds what it held, or part of it. */
  lemma PlainAfter(s: State, s': State, p: Place)
    requires Facts(s) && s'.jobs == s.jobs && s'.clock == s.clock
    requires PlaceOk(s.jobs, s.clock, s'.mem, p)
    requires forall q | q != p :: PlaceOk(s.jobs, s.clock, s.mem, q) ==> PlaceOk(s.jobs, s.clock, s'.mem, q)
    ensures Facts(s')
  {
  }

  /** The place a worker step changes. */
  lemma WorkerPlain(s: State, w: Worker, st: WorkerStep)
    requires WorkerCan(s, w, st) && WorkerOk(s.jobs, s.clock, w) && WorkerEffect(s, w, st).jobs == s.jobs
    requires st.Receive? ==> IsQueued(s.jobs, s.mem.chan[0])
    requires forall id | id in s.jobs :: RowOk(s.jobs[id], s.clock)
    ensures WorkerOk(s.jobs, s.clock, WorkerNext(s, w, st))
  {
  }

  /** The places it does not change. */
  lemma WorkElsewhere(s: State, i: nat, w: WorkerStep, q: Place)
    requires Enabled(s, Work(i, w)) && q != AtWorker(i)
    requires PlaceOk(s.jobs, s.clock, s.mem, q)
    ensures PlaceOk(s.jobs, s.clock, Next(s, Work(i, w)).mem, q)
  {
    if !w.Receive? { WorkMem(s, i, w); }
  }

  /** Worker steps that leave the table alone. */
  lemma WorkPlain(s: State, i: nat, w: WorkerStep)
    requires Facts(s) && Enabled(s, Work(i, w)) && Next(s, Work(i, w)).jobs == s.jobs
    ensures Facts(Next(s, Work(i, w)))
  {
    assert PlaceOk(s.jobs, s.clock, s.mem, AtWorker(i));
    assert PlaceOk(s.jobs, s.clock, s.mem, InChannel);
    WorkerPlain(s, s.mem.workers[i], w);
    forall q | q != AtWorker(i) && PlaceOk(s.jobs, s.clock, s.mem, q)
      ensures PlaceOk(s.jobs, s.clock, Next(s, Work(i, w)).mem, q)
    {
      WorkElsewhere(s, i, w, q);
    }
    PlainAfter(s, Next(s, Work(i, w)), AtWorker(i));
  }

  /** The status writes of run. */
  lemma WorkRow(s: State, i: nat, w: WorkerStep)
    requires Inv(s) && Enabled(s, Work(i, w)) && (w.MarkDone? || w.Finish?) && Applied(w.a)
    ensures var x, s' := s.mem.workers[i].id, Next(s, Work(i, w));
            && Holds(s.mem, AtWorker(i), x) && x in s.jobs
            && OnlyRow(s.jobs, s'.jobs, x)
            && RowOk(s'.jobs[x], s'.clock) && LegalWrite(s.jobs[x], s'.jobs[x])
            && WorkerOk(s'.jobs, s'.clock, s'.mem.workers[i])
  {
    assert PlaceOk(s.jobs, s.clock, s.mem, AtWorker(i));
  }

  lemma WorkKeeps(s: State, i: nat, w: WorkerStep)
    requires Inv(s) && Enabled(s, Work(i, w))
    ensures Facts(Next(s, Work(i, w))) && LegalStep(s.jobs, Next(s, Work(i, w)).jobs)
  {
    if (w.MarkDone? || w.Finish?) && Applied(w.a) {
      WorkRow(s, i, w);
      WorkMem(s, i, w);
      FactsAfter(s, Next(s, Work(i, w)), AtWorker(i), s.mem.workers[i].id);
    } else {
      WorkPlain(s, i, w);
    }
  }

  lemma CallPlain(s: State, c: Call, cs: CallStep)
    requires CallCan(s, c, cs) && CallOk(s.jobs, s.clock, c) && CallEffect(s, c, cs).jobs == s.jobs
    ensures CallOk(s.jobs, s.clock, CallNext(s, c, cs))
  {
  }

  lemma AdvanceElsewhere(s: State, c: nat, cs: CallStep, q: Place)
    requires Enabled(s, Advance(c, cs)) && q != AtCall(c)
    requires PlaceOk(s.jobs, s.clock, s.mem, q)
    requires cs.Send? ==> IsQueued(s.jobs, s.mem.calls[c].ticket.id)
    ensures PlaceOk(s.jobs, s.clock, Next(s, Advance(c, cs)).mem, q)
  {
    CallMem(s, c, cs);
  }

  /** Create steps that leave the table alone. */
  lemma AdvancePlain(s: State, c: nat, cs: CallStep)
    requires Facts(s) && Enabled(s, Advance(c, cs)) && Next(s, Advance(c, cs)).jobs == s.jobs
    ensures Facts(Next(s, Advance(c, cs)))
  {
    assert PlaceOk(s.jobs, s.clock, s.mem, AtCall(c));
    CallPlain(s, s.mem.calls[c], cs);
    CallMem(s, c, cs);
    forall q | q != AtCall(c) && PlaceOk(s.jobs, s.clock, s.mem, q)
      ensures PlaceOk(s.jobs, s.clock, Next(s, Advance(c, cs)).mem, q)
    {
      AdvanceElsewhere(s, c, cs, q);
    }
    PlainAfter(s, Next(s, Advance(c, cs)), AtCall(c));
  }

  /** The row that a Create call inserts or fails. */
  lemma CallRow(s: State, c: nat, cs: CallStep)
    requires Facts(s) && Enabled(s, Advance(c, cs)) && (cs.Insert? || cs.Reject?) && Applied(cs.a)
    ensures var x, s' := s.mem.calls[c].ticket.id, Next(s, Advance(c, cs));
            && Holds(s.mem, AtCall(c), x) && OnlyRow(s.jobs, s'.jobs, x)
            && x in s'.jobs && RowOk(s'.jobs[x], s'.clock)
            && (if cs.Insert? then x !in s.jobs && s'.jobs[x].status == Queued
                else x in s.jobs && LegalWrite(s.jobs[x], s'.jobs[x]))
            && CallOk(s'.jobs, s'.clock, CallNext(s, s.mem.calls[c], cs))
            && s'.mem == s.mem.(calls := s.mem.calls[c := CallNext(s, s.mem.calls[c], cs)])
            && s'.clock == s.clock
  {
    assert PlaceOk(s.jobs, s.clock, s.mem, AtCall(c));
  }

  lemma CallKeys(s: State, c: nat, cs: CallStep)
    requires Facts(s) && Enabled(s, Advance(c, cs)) && (cs.Insert? || cs.Reject?) && Applied(cs.a)
    ensures KeysUnique(Next(s, Advance(c, cs)).jobs)
  {
    CallRow(s, c, cs);
  }

  lemma CallWrites(s: State, c: nat, cs: CallStep)
    requires Inv(s) && Enabled(s, Advance(c, cs)) && (cs.Insert? || cs.Reject?) && Applied(cs.a)
    ensures Facts(Next(s, Advance(c, cs))) && LegalStep(s.jobs, Next(s, Advance(c, cs)).jobs)
  {
    CallRow(s, c, cs);
    CallKeys(s, c, cs);
    FactsAfter(s, Next(s, Advance(c, cs)), AtCall(c), s.mem.calls[c].ticket.id);
  }

  lemma AdvanceKeeps(s: State, c: nat, cs: CallStep)
    requires Inv(s) && Enabled(s, Advance(c, cs))
    ensures Facts(Next(s, Advance(c, cs))) && LegalStep(s.jobs, Next(s, Advance(c, cs)).jobs)
  {
    if (cs.Insert? || cs.Reject?) && Applied(cs.a) {
      CallWrites(s, c, cs);
    } else {
      AdvancePlain(s, c, cs);
    }
  }

  lemma HaltWrites(s: State, a: Answer, t: Time)
    requires Inv(s) && Enabled(s, Halt(DrainWrite(a, t))) && Applied(a)
    ensures Facts(Next(s, Halt(DrainWrite(a, t)))) && LegalStep(s.jobs, Next(s, Halt(DrainWrite(a, t))).jobs)
  {
    var s' := Next(s, Halt(DrainWrite(a, t)));
    var x := s.mem.stop.id;
    assert PlaceOk(s.jobs, s.clock, s.mem, AtStop);
    assert Holds(s.mem, AtStop, x);
    assert OnlyRow(s.jobs, s'.jobs, x);
    FactsAfter(s, s', AtStop, x);
  }

  lemma HaltPlain(s: State, h: StopStep)
    requires Inv(s) && Enabled(s, Halt(h)) && Next(s, Halt(h)).jobs == s.jobs
    ensures Facts(Next(s, Halt(h)))
  {
    var s' := Next(s, Halt(h));
    assert PlaceOk(s.jobs, s.clock, s.mem, AtStop);
    assert PlaceOk(s.jobs, s.clock, s.mem, InChannel);
    forall q ensures PlaceOk(s'.jobs, s'.clock, s'.mem, q) {
      assert PlaceOk(s.jobs, s.clock, s.mem, q);
    }
  }

  lemma HaltKeeps(s: State, h: StopStep)
    requires Inv(s) && Enabled(s, Halt(h))
    ensures Facts(Next(s, Halt(h))) && LegalStep(s.jobs, Next(s, Halt(h)).jobs)
  {
    if h.DrainWrite? && Applied(h.a) {
      HaltWrites(s, h.a, h.t);
    } else {
      HaltPlain(s, h);
    }
  }

  lemma BootKeeps(s: State, st: Step)
    requires Inv(s) && Enabled(s, st) && !st.Work? && !st.Advance? && !st.Halt? && !st.Recover?
    ensures Facts(Next(s, st)) && Next(s, st).jobs == s.jobs
  {
    var s' := Next(s, st);
    if st.Create? {
      assert st.id !in s.jobs;
    }
    forall q ensures PlaceOk(s'.jobs, s'.clock, s'.mem, q) {
      assert PlaceOk(s.jobs, s.clock, s.mem, q);
      assert PlaceOk(s.jobs, s.clock, s.mem, InPending);
    }
  }

  lemma RecoverKeeps(s: State, a: Answer)
    requires Inv(s) && Enabled(s, Recover(a))
    ensures Facts(Next(s, Recover(a)))
    ensures LegalRecovery(s, Next(s, Recover(a)).jobs)
  {
  }

  lemma FactsStep(s: State, st: Step)
    requires Inv(s) && Enabled(s, st)
    ensures Facts(Next(s, st))
  {
    match st
    case Work(i, w) => WorkKeeps(s, i, w);
    case Advance(c, cs) => AdvanceKeeps(s, c, cs);
    case Halt(h) => HaltKeeps(s, h);
    case Recover(a) => RecoverKeeps(s, a);
    case _ => BootKeeps(s, st);
  }

  lemma InvStep(s: State, st: Step)
    requires Inv(s) && Enabled(s, st)
    ensures Inv(Next(s, st))
  {
    OwnStep(s, st);
    FactsStep(s, st);
  }

  lemma {:induction false} InvRun(s: State, steps: seq<Step>)
    requires Inv(s) && Valid(s, steps)
    ensures Inv(End(s, steps))
    decreases |steps|
  {
    if steps != [] {
      InvStep(s, steps[0]);
      InvRun(Next(s, steps[0]), steps[1..]);
    }
  }

  lemma ReachableInv(s: State)
    requires Reachable(s)
    ensures Inv(s)
  {
    var n, after, clock :| Reaches(Init(n, after, clock), s);
    var steps :| Valid(Init(n, after, clock), steps) && End(Init(n, after, clock), steps) == s;
    InvRun(Init(n, after, clock), steps);
  }

  // ----- main results -----

  /** Over every run, each status write is one of queued to running, queued to failed, running to
      completed, running to failed and, by recovery only, stale running to queued; a step rewrites one
      row at most, unless it is the recovery; new rows are queued; no row disappears, and none changes
      its request, key or creation time. */
  lemma StatusWritesAreLegal(s: State, st: Step)
    requires Reachable(s) && Enabled(s, st)
    ensures !st.Recover? ==> LegalStep(s.jobs, Next(s, st).jobs)
    ensures st.Recover? ==> LegalRecovery(s, Next(s, st).jobs)
  {
    ReachableInv(s);
    WritesOf(s, st);
  }

  lemma WritesOf(s: State, st: Step)
    requires Inv(s) && Enabled(s, st)
    ensures !st.Recover? ==> LegalStep(s.jobs, Next(s, st).jobs)
    ensures st.Recover? ==> LegalRecovery(s, Next(s, st).jobs)
  {
    match st
    case Work(i, w) => WorkKeeps(s, i, w);
    case Advance(c, cs) => AdvanceKeeps(s, c, cs);
    case Halt(h) => HaltKeeps(s, h);
    case Recover(a) => RecoverKeeps(s, a);
    case _ => BootKeeps(s, st);
  }

  /** The timestamps of every row fit its status and are ordered. */
  lemma TimestampsFit(s: State, id: Id)
    requires Reachable(s) && id in s.jobs
    ensures RowOk(s.jobs[id], s.clock)
  {
    ReachableInv(s);
  }

  predicate Terminal(j: Job) {
    j.status == Completed || j.status == Status.Failed
  }

  /** Along any run, crashes included, rows stay, keep their request, key and creation time, and a
      completed or failed row is never written again. */
  lemma {:induction false} RowsPersist(s: State, steps: seq<Step>, id: Id)
    requires Inv(s) && Valid(s, steps) && id in s.jobs
    ensures id in End(s, steps).jobs && SameJob(s.jobs[id], End(s, steps).jobs[id])
    ensures Terminal(s.jobs[id]) ==> End(s, steps).jobs[id] == s.jobs[id]
    decreases |steps|
  {
    if steps != [] {
      RowPersists(s, steps[0], id);
      InvStep(s, steps[0]);
      RowsPersist(Next(s, steps[0]), steps[1..], id);
    }
  }

  lemma RowPersists(s: State, st: Step, id: Id)
    requires Inv(s) && Enabled(s, st) && id in s.jobs
    ensures id in Next(s, st).jobs && SameJob(s.jobs[id], Next(s, st).jobs[id])
    ensures Terminal(s.jobs[id]) ==> Next(s, st).jobs[id] == s.jobs[id]
  {
    WritesOf(s, st);
  }

  /** At any moment a job id is in one place at most, so no job is ever run by two workers, and it is
      in the channel once at most. */
  lemma OneHolder(s: State, p: Place, q: Place, id: Id)
    requires Reachable(s) && Holds(s.mem, p, id) && Holds(s.mem, q, id)
    ensures p == q && NoDup(s.mem.chan)
  {
    ReachableInv(s);
  }

  /** Between two crashes every id is sent into the channel once at most. */
  lemma SentOnce(s: State, id: Id)
    requires Reachable(s)
    ensures s.mem.sent[id] <= 1
  {
    ReachableInv(s);
  }

  /** All Create calls with the same key that return a job, in whatever state of a run and on whatever
      side of a restart, return the same job. */
  lemma CreateIsIdempotent(s: State, steps: seq<Step>, c: nat, d: nat)
    requires Reachable(s) && Valid(s, steps)
    requires c < |s.mem.calls| && s.mem.calls[c].Returned?
    requires d < |End(s, steps).mem.calls| && End(s, steps).mem.calls[d].Returned?
    requires s.mem.calls[c].key == End(s, steps).mem.calls[d].key != ""
    ensures s.mem.calls[c].id == End(s, steps).mem.calls[d].id
  {
    var t := End(s, steps);
    ReachableInv(s);
    InvRun(s, steps);
    assert PlaceOk(s.jobs, s.clock, s.mem, AtCall(c));
    assert PlaceOk(t.jobs, t.clock, t.mem, AtCall(d));
    RowsPersist(s, steps, s.mem.calls[c].id);
  }

  /** A key is bound to one row at most, for ever; rows without a key never collide. */
  lemma KeyBinding(s: State, steps: seq<Step>, i: Id, j: Id)
    requires Reachable(s) && Valid(s, steps) && i in s.jobs && s.jobs[i].key != ""
    ensures i in End(s, steps).jobs && End(s, steps).jobs[i].key == s.jobs[i].key
    ensures j in End(s, steps).jobs && End(s, steps).jobs[j].key == s.jobs[i].key ==> i == j
  {
    ReachableInv(s);
    InvRun(s, steps);
    RowsPersist(s, steps, i);
  }

  lemma RejectedRow(s: State, c: nat, a: Answer, t: Time)
    requires Inv(s) && Enabled(s, Advance(c, Reject(a, t))) && Applied(a)
    ensures var k, s' := s.mem.calls[c].ticket, Next(s, Advance(c, Reject(a, t)));
            k.id in s'.jobs && s'.jobs[k.id] == QueueFull(k, t)
  {
    assert PlaceOk(s.jobs, s.clock, s.mem, AtCall(c));
  }

  /** A rejection spends the key. "Retry later" does not help a caller who sends the same key: once a job
      was rejected because the queue was full, then in every later state, on whatever side of a restart,
      every lookup of its key finds that failed job, every call that returned a job for it returned that
      one, and no other row can be inserted under it. */
  lemma RejectionSpendsKey(s: State, c: nat, a: Answer, t: Time, steps: seq<Step>)
    requires Reachable(s) && Enabled(s, Advance(c, Reject(a, t))) && Applied(a) && s.mem.calls[c].ticket.key != ""
    requires Valid(Next(s, Advance(c, Reject(a, t))), steps)
    ensures var k, u := s.mem.calls[c].ticket, End(Next(s, Advance(c, Reject(a, t))), steps);
            && k.id in u.jobs && u.jobs[k.id] == QueueFull(k, t) && u.jobs[k.id].status == Status.Failed
            && KeyTaken(u.jobs, k.key)
            && (forall x | Finds(u, k.key, Some(x)) :: x == k.id)
            && (forall d | 0 <= d < |u.mem.calls| && u.mem.calls[d].Returned? && u.mem.calls[d].key == k.key ::
                  u.mem.calls[d].id == k.id)
  {
    ReachableInv(s);
    RejectedRow(s, c, a, t);
    InvStep(s, Advance(c, Reject(a, t)));
    InvRun(Next(s, Advance(c, Reject(a, t))), steps);
    RowsPersist(Next(s, Advance(c, Reject(a, t))), steps, s.mem.calls[c].ticket.id);
    KeyOwner(End(Next(s, Advance(c, Reject(a, t))), steps), s.mem.calls[c].ticket.id);
  }

  lemma KeyOwner(s: State, id: Id)
    requires Inv(s) && id in s.jobs && s.jobs[id].key != ""
    ensures forall x | Finds(s, s.jobs[id].key, Some(x)) :: x == id
    ensures forall d | 0 <= d < |s.mem.calls| && s.mem.calls[d].Returned? && s.mem.calls[d].key == s.jobs[id].key ::
              s.mem.calls[d].id == id
  {
    forall d | 0 <= d < |s.mem.calls| && s.mem.calls[d].Returned? && s.mem.calls[d].key == s.jobs[id].key
      ensures s.mem.calls[d].id == id
    {
      assert PlaceOk(s.jobs, s.clock, s.mem, AtCall(d));
    }
  }

  /** An empty key is never refused by the index. */
  lemma EmptyKeyInserts(s: State, c: nat)
    requires Reachable(s) && s.mem.open
    requires c < |s.mem.calls| && s.mem.calls[c].Inserting? && s.mem.calls[c].ticket.key == ""
    ensures Enabled(s, Advance(c, Insert(Ok)))
  {
    ReachableInv(s);
    assert PlaceOk(s.jobs, s.clock, s.mem, AtCall(c));
  }
}
