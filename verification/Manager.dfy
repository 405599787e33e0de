/** The Manager of internal/worker/manager.go as a class. Each method is the code that one goroutine
    runs, without interruption; the ghost field `g` follows it through the step relation of Protocol, so
    that what is proved there of all interleavings holds in particular of these executions. Clock
    readings of one call are one parameter; the measurement of a table is a parameter as well. */
module Managers {
  import opened Domain
  import opened Tables
  import opened Protocol
  import Ownership
  import Lifecycle
  import Stores
  import Quality
  import Drift
  import FanOut

  /** What ProfileTable and the PII detection deliver. */
  datatype Found = Found(source: Source, run: FanOut.State, columns: seq<ColumnProfile>,
                         labels: seq<(string, real)>, dup: int, dupPct: real)
  {
    /** It comes from some schedule of the column fan-out, under a context that is done or not. */
    ghost predicate Fits(done: bool) {
      && source.Wf() && FanOut.Outcome(source, run) && run.first.None?
      && run.out == columns && run.cancelled == done && |labels| == |columns|
    }
  }

  /** The profile as ProfileTable and the PII detection leave it. */
  function MeasuredOf(request: Request, f: Found): TableProfile
    requires |f.labels| == |f.columns|
  {
    TableProfile(request.schema, request.table, Labelled(f.columns, f.labels), f.dup, f.dupPct,
                 QualityReport(0.0, []), None, 0)
  }

  /** The drift that `p` carries, if any, compares it with the newest snapshot of its table. */
  ghost predicate Continues(profiles: seq<ProfileRow>, p: TableProfile) {
    p.drift.Some? ==>
      exists k :: IsLatest(profiles, p.schema, p.table, k) &&
                  Drift.IsReport(profiles[k].profile, p.(drift := None), p.drift.value)
  }

  predicate NoneOf(profiles: seq<ProfileRow>, p: TableProfile) {
    forall k | 0 <= k < |profiles| :: !Of(profiles[k], p.schema, p.table)
  }

  /** One row was appended, the snapshot for what was found: what the request names, every column with its
      label, and the quality report for just that under the rules of the request. */
  ghost predicate Saved(before: seq<ProfileRow>, after: seq<ProfileRow>, id: Id, request: Request, f: Found,
                        now: Time)
  {
    && |after| == |before| + 1 && after[..|before|] == before
    && after[|before|].job == id && after[|before|].source == f.source
    && Continues(before, after[|before|].profile)
    && Describes(after[|before|].profile, request, f, now)
  }

  predicate Describes(p: TableProfile, request: Request, f: Found, now: Time) {
    && p.schema == request.schema && p.table == request.table && p.created == now
    && p.duplicateRows == f.dup && p.duplicatePercentage == f.dupPct
    && |p.columns| == |f.columns| == |f.labels|
    && (forall i | 0 <= i < |p.columns| ::
          p.columns[i] == f.columns[i].(pii := f.labels[i].0, piiConfidence := f.labels[i].1))
    && p.quality == Quality.Report(p, request.rules)
  }

  /** The appended row carries a comparison unless it is the first of its table. */
  predicate Compared(before: seq<ProfileRow>, after: seq<ProfileRow>) {
    |after| > |before| &&
    (after[|before|].profile.drift.None? ==> NoneOf(before, after[|before|].profile))
  }

  /** What a run leaves in the row when its final write is acknowledged, column by column; every other row
      is as before. */
  predicate Concluded(before: Jobs, after: Jobs, id: Id, final: Status, err: string, now: Time) {
    && (final == Completed || final == Status.Failed)
    && id in before
    && after == before[id := Job(final, if final == Completed then "" else err, before[id].request, before[id].key,
                                 before[id].created, Some(now), Some(now))]
  }

  lemma AfterConclusion(before: Jobs, marked: Jobs, after: Jobs, id: Id, failure: Option<string>, err: string,
                        now: Time, applied: bool)
    requires id in before && marked == Written(before, id, MarkedRunning(before[id], now))
    requires failure.None? || failure == Some(err)
    requires after == if applied then Written(marked, id, Finished(MarkedRunning(before[id], now), failure, now))
                      else marked
    ensures Lifecycle.OnlyRow(before, after, id)
    ensures applied ==> Concluded(before, after, id, if failure.None? then Completed else Status.Failed, err, now)
  {
  }

  lemma SavedBy(before: seq<ProfileRow>, id: Id, request: Request, f: Found, now: Time, row: ProfileRow)
    requires |f.labels| == |f.columns| && Continues(before, row.profile)
    requires row == ProfileRow(id, Evaluated(MeasuredOf(request, f), request.rules, now).(drift := row.profile.drift),
                               f.source)
    ensures Saved(before, before + [row], id, request, f, now)
  {
    DescribesMeasured(request, f, now, row.profile.drift);
  }

  lemma DescribesMeasured(request: Request, f: Found, now: Time, drift: Option<DriftReport>)
    requires |f.labels| == |f.columns|
    ensures Describes(Evaluated(MeasuredOf(request, f), request.rules, now).(drift := drift), request, f, now)
  {
    var p := Evaluated(MeasuredOf(request, f), request.rules, now).(drift := drift);
    Quality.ReportOnlyReads(MeasuredOf(request, f), p, request.rules);
  }

  lemma OneInsertion(jobs: Jobs, t: Ticket)
    ensures t.id !in jobs ==> Lifecycle.OnlyRow(jobs, jobs[t.id := t.Row()], t.id)
    ensures Lifecycle.OnlyRow(jobs, jobs, t.id)
  {
  }

  lemma OneWrite(jobs: Jobs, id: Id, j: Job)
    ensures Lifecycle.OnlyRow(jobs, Written(jobs, id, j), id)
    ensures Lifecycle.OnlyRow(jobs, jobs, id)
  {
  }

  /** What an insertion and its delivery come to when the store answers. */
  ghost predicate Attempted(before: Jobs, after: Jobs, chan: seq<Id>, chan': seq<Id>, stopped: bool, t: Ticket,
                            now: Time, r: Option<Id>)
  {
    if KeyTaken(before, t.key) then r.Some? && after == before && chan' == chan
    else if !stopped && |chan| < 1000 then
      && r == Some(t.id) && chan' == chan + [t.id]
      && after == before[t.id := Job(Queued, "", t.request, t.key, t.created, None, None)]
    else
      && r.None? && chan' == chan
      && after == before[t.id := Job(Status.Failed, "job queue is full; retry later", t.request, t.key, t.created,
                                     None, Some(now))]
  }

  /** What Create comes to when the store answers: a taken key wins over everything, a stopped manager
      rejects without a trace, and otherwise the job is delivered or its row failed. */
  ghost predicate Settled(before: Jobs, after: Jobs, chan: seq<Id>, chan': seq<Id>, stopped: bool, t: Ticket,
                          now: Time, r: Option<Id>)
  {
    if stopped && !KeyTaken(before, t.key) then r.None? && after == before && chan' == chan
    else Attempted(before, after, chan, chan', stopped, t, now, r)
  }

  lemma InsertedThenRejected(jobs: Jobs, t: Ticket, now: Time)
    ensures Written(jobs[t.id := t.Row()], t.id, QueueFull(t, now)) == jobs[t.id := QueueFull(t, now)]
  {
  }

  /** What the delivery of an inserted job comes to; only a store that does not answer can leave a rejected
      job queued. */
  predicate Delivered(before: Jobs, after: Jobs, chan: seq<Id>, chan': seq<Id>, stopped: bool, t: Ticket,
                      now: Time, r: Option<Id>, answers: bool)
  {
    if !stopped && |chan| < 1000 then r == Some(t.id) && chan' == chan + [t.id] && after == before
    else
      && r.None? && chan' == chan
      && (after == Written(before, t.id, QueueFull(t, now)) || (after == before && !answers))
  }

  lemma AfterDelivery(before: Jobs, after: Jobs, chan: seq<Id>, chan': seq<Id>, stopped: bool, t: Ticket,
                      now: Time, r: Option<Id>, answers: bool)
    requires t.id !in before && !KeyTaken(before, t.key)
    requires Delivered(before[t.id := t.Row()], after, chan, chan', stopped, t, now, r, answers)
    ensures Lifecycle.OnlyRow(before, after, t.id)
    ensures chan' == chan || (r == Some(t.id) && chan' == chan + [t.id])
    ensures answers ==> Attempted(before, after, chan, chan', stopped, t, now, r)
  {
    InsertedThenRejected(before, t, now);
  }

  lemma FreshId(s: State, id: Id)
    requires Reachable(s) && id !in s.issued
    ensures id !in s.jobs
  {
    Lifecycle.ReachableInv(s);
  }

  lemma ReachesTrans(s: State, t: State, u: State)
    requires Reaches(s, t) && Reaches(t, u)
    ensures Reaches(s, u)
  {
    var xs :| Valid(s, xs) && End(s, xs) == t;
    var ys :| Valid(t, ys) && End(t, ys) == u;
    RunsCompose(s, xs, ys);
  }

  lemma ReachableOn(s: State, t: State)
    requires Reachable(s) && Reaches(s, t)
    ensures Reachable(t)
  {
    var n, after, clock :| Reaches(Init(n, after, clock), s);
    var xs :| Valid(Init(n, after, clock), xs) && End(Init(n, after, clock), xs) == s;
    var ys :| Valid(s, ys) && End(s, ys) == t;
    RunsCompose(Init(n, after, clock), xs, ys);
  }

  /** The state in which Start begins to enqueue what it listed. */
  function AfterListing(s: State, now: Time, a: Answer, ids: seq<Id>): State {
    s.(clock := now, jobs := if Applied(a) then Recovered(s.jobs, now, s.staleAfter) else s.jobs,
       mem := FRESH.(boot := Requeueing(ids), started := true))
  }

  lemma BootReaches(s: State, now: Time, a: Answer, b: Answer, ids: seq<Id>)
    requires s.mem == FRESH && s.clock <= now
    requires if b == Ok then OldestQueued(AfterListing(s, now, a, ids).jobs, CAPACITY, ids) else ids == []
    ensures Reaches(s, AfterListing(s, now, a, ids))
  {
    ReachesSelf(s);
    ReachesStep(s, s, Tick(now));
    var s1 := Next(s, Tick(now));
    ReachesStep(s, s1, Start);
    var s2 := Next(s1, Start);
    ReachesStep(s, s2, Recover(a));
    var s3 := Next(s2, Recover(a));
    ReachesStep(s, s3, List(b, ids));
  }

  function AfterCall(s: State, pre: seq<Call>, x: Call, cs: CallStep): State
    requires CallCan(s, x, cs)
  {
    var s' := CallEffect(s, x, cs);
    s'.(mem := s'.mem.(calls := pre + [CallNext(s, x, cs)]))
  }

  lemma CallBegins(s: State, t: Ticket)
    requires s.mem.boot.Up? && t.id !in s.issued && s.clock <= t.created
    ensures Reaches(s, s.(clock := t.created, issued := s.issued + {t.id},
                          mem := s.mem.(calls := s.mem.calls + [Asked(t)])))
  {
    ReachesSelf(s);
    ReachesStep(s, s, Tick(t.created));
    var s1 := Next(s, Tick(t.created));
    ReachesStep(s, s1, Protocol.Create(t.id, t.key, t.request));
  }

  lemma ReturnedKnown(s: State, t: State, pre: seq<Call>, id: Id, key: string)
    requires Reachable(s) && Reaches(s, t) && t.mem.calls == pre + [Returned(id, key)]
    ensures id in t.jobs && t.jobs[id].key == key
  {
    ReachableOn(s, t);
    Lifecycle.ReachableInv(t);
    assert Lifecycle.PlaceOk(t.jobs, t.clock, t.mem, Ownership.AtCall(|pre|));
  }

  /** What the tables, the channel and the database handle are when Stop's wg.Wait() returns. */
  datatype Meanwhile = Meanwhile(jobs: Jobs, profiles: seq<ProfileRow>, chan: seq<Id>, open: bool)

  function AfterCancel(s: State, now: Time): State {
    s.(clock := now, mem := s.mem.(stopped := true, cancelled := true, stop := Awaiting))
  }

  lemma CancelReaches(s: State, now: Time)
    requires s.mem.boot.Up? && s.mem.started && !s.mem.stopped && s.clock <= now
    ensures Reaches(s, AfterCancel(s, now))
  {
    ReachesSelf(s);
    ReachesStep(s, s, Tick(now));
    var s1 := Next(s, Tick(now));
    ReachesStep(s, s1, Protocol.Stop);
    var s2 := Next(s1, Protocol.Stop);
    ReachesStep(s, s2, Halt(Cancel));
  }

  predicate AllExited(m: Mem) {
    forall i | 0 <= i < |m.workers| :: m.workers[i].Exited?
  }

  /** The steps of everybody else between the cancellation and the end of the wait: any steps after which
      all workers have exited. */
  ghost predicate Waits(s: State, others: seq<Step>, d: Meanwhile) {
    && (forall i | 0 <= i < |others| :: !others[i].Crash? && !others[i].Halt?)
    && Valid(s, others)
    && (var t := End(s, others);
        AllExited(t.mem) && d == Meanwhile(t.jobs, t.profiles, t.mem.chan, t.mem.open))
  }

  predicate Stopping(s: State) {
    s.mem.boot.Up? && s.mem.started && s.mem.stopped && s.mem.cancelled && s.mem.stop == Awaiting
  }

  lemma {:induction false} WaitKeeps(s: State, others: seq<Step>)
    requires Stopping(s) && Valid(s, others)
    requires forall i | 0 <= i < |others| :: !others[i].Crash? && !others[i].Halt?
    ensures var t := End(s, others);
            Stopping(t) && t.workers == s.workers && t.staleAfter == s.staleAfter && t.clock >= s.clock
    decreases |others|
  {
    if others != [] {
      WaitStep(s, others[0]);
      WaitKeeps(Next(s, others[0]), others[1..]);
    }
  }

  lemma WaitStep(s: State, st: Step)
    requires Stopping(s) && Enabled(s, st) && !st.Crash? && !st.Halt?
    ensures var t := Next(s, st);
            Stopping(t) && t.workers == s.workers && t.staleAfter == s.staleAfter && t.clock >= s.clock
  {
  }

  /** Idle workers need nothing but to see the cancellation: then the tables stay as they are meanwhile. */
  lemma {:induction false} IdleWorkersLeave(s: State, k: nat) returns (others: seq<Step>)
    requires s.mem.cancelled && k <= |s.mem.workers|
    requires forall i | 0 <= i < |s.mem.workers| :: if i < k then s.mem.workers[i].Exited? else s.mem.workers[i].Idle?
    ensures Waits(s, others, Meanwhile(s.jobs, s.profiles, s.mem.chan, s.mem.open))
    decreases |s.mem.workers| - k
  {
    others := [];
    if k < |s.mem.workers| {
      var rest := IdleWorkersLeave(Next(s, Work(k, Exit)), k + 1);
      others := [Work(k, Exit)] + rest;
      assert others[1..] == rest;
    }
  }

  lemma DrainedIsQueued(s: State, t: State)
    requires Reachable(s) && Reaches(s, t) && t.mem.stop.Drained?
    ensures IsQueued(t.jobs, t.mem.stop.id)
  {
    ReachableOn(s, t);
    Lifecycle.ReachableInv(t);
    assert Lifecycle.PlaceOk(t.jobs, t.clock, t.mem, Ownership.AtStop);
  }

  lemma Ticks(s: State, now: Time)
    requires s.clock <= now
    ensures Reaches(s, s.(clock := now))
  {
    ReachesSelf(s);
    ReachesStep(s, s, Tick(now));
  }

  function ShedRow(j: Job, now: Time): Job {
    Job(Status.Failed, "job cancelled during profiler shutdown", j.request, j.key, j.created, j.started, Some(now))
  }

  /** Only this row was changed, from queued to failed because of the shutdown. */
  predicate Shed(before: Jobs, after: Jobs, id: Id, now: Time) {
    IsQueued(before, id) && after == before[id := ShedRow(before[id], now)]
  }

  /** What a drain makes of the table when the store answers: the rows of the drained ids are shed, and no
      others. */
  predicate ShedAll(before: Jobs, after: Jobs, ids: seq<Id>, now: Time) {
    && after.Keys == before.Keys
    && (forall id | id in before :: after[id] == if id in ids then ShedRow(before[id], now) else before[id])
  }

  /** What it may make of it otherwise: some of them are left as they were. */
  predicate ShedSome(before: Jobs, after: Jobs, ids: seq<Id>, now: Time) {
    && after.Keys == before.Keys
    && (forall id | id in before ::
          after[id] == before[id] || (id in ids && after[id] == ShedRow(before[id], now)))
  }

  function AfterTurn(s: State, i: nat, w: WorkerStep): State
    requires i < |s.mem.workers| && WorkerCan(s, s.mem.workers[i], w)
  {
    SetWorker(WorkerEffect(s, s.mem.workers[i], w), i, WorkerNext(s, s.mem.workers[i], w))
  }

  predicate ShedSoFar(before: Jobs, after: Jobs, ids: seq<Id>, now: Time, answered: bool) {
    ShedSome(before, after, ids, now) && (answered ==> ShedAll(before, after, ids, now))
  }

  lemma ShedOneMore(first: Jobs, before: Jobs, after: Jobs, done: seq<Id>, id: Id, now: Time, ok: bool)
    requires ShedSome(first, before, done, now) && (ok ==> ShedAll(first, before, done, now))
    requires after == before || Shed(before, after, id, now)
    requires ok ==> Shed(before, after, id, now)
    ensures ShedSoFar(first, after, done + [id], now, ok)
  {
    if id in first && before[id] != first[id] { assert before[id] == ShedRow(first[id], now); }
  }

  lemma ChannelIsQueued(s: State, t: State)
    requires Reachable(s) && Reaches(s, t)
    ensures forall id | id in t.mem.chan :: IsQueued(t.jobs, id)
  {
    ReachableOn(s, t);
    Lifecycle.ReachableInv(t);
    assert Lifecycle.PlaceOk(t.jobs, t.clock, t.mem, Ownership.InChannel);
  }

  function Put(m: Mem, i: nat, w: Worker): (m': Mem)
    requires i < |m.workers|
    ensures |m'.workers| == |m.workers| && m'.workers[i] == w
  {
    m.(workers := m.workers[i := w])
  }

  lemma PutTwice(m: Mem, i: nat)
    requires i < |m.workers|
    ensures forall v, w :: Put(Put(m, i, v), i, w) == Put(m, i, w)
  {
    forall v, w ensures Put(Put(m, i, v), i, w) == Put(m, i, w) {
      assert m.workers[i := v][i := w] == m.workers[i := w];
    }
  }

  class Manager {
    const store: Stores.Store
    const workers: nat
    const staleAfter: int
    var jobs: seq<Id>
    var started: bool
    var stopped: bool
    var cancelled: bool
    ghost var g: State

    /** The ghost state mirrors the fields and the store. */
    ghost predicate Mirrors()
      reads this, store
    {
      && g.workers == workers >= 1 && g.staleAfter == staleAfter > 0
      && g.jobs == store.jobs && g.profiles == store.profiles && g.mem.open == store.open
      && g.mem.chan == jobs && g.mem.started == started && g.mem.stopped == stopped
      && g.mem.cancelled == cancelled
    }

    /** NewManager, on the tables that a run of earlier processes left behind. */
    constructor (s: Stores.Store, n: int, after: int, ghost past: State)
      requires past.mem == FRESH && past.jobs == s.jobs && past.profiles == s.profiles && s.open
      requires past.workers == (if n < 1 then 1 else n) && past.staleAfter == (if after <= 0 then 1800 else after)
      ensures Mirrors() && g == past && store == s && jobs == []
      ensures workers == (if n < 1 then 1 else n) && staleAfter == (if after <= 0 then 1800 else after)
    {
      store := s;
      workers := if n < 1 then 1 else n;
      staleAfter := if after <= 0 then 1800 else after;
      jobs, started, stopped, cancelled := [], false, false, false;
      g := past;
    }

    method Enqueue(id: Id) returns (ok: bool)
      modifies this`jobs
      ensures ok <==> !stopped && |old(jobs)| < 1000
      ensures jobs == if ok then old(jobs) + [id] else old(jobs)
    {
      if stopped { return false; }
      if |jobs| < CAPACITY {
        jobs := jobs + [id];
        return true;
      }
      return false;
    }

    ghost method Do(g0: State, st: Step)
      requires Reaches(g0, g) && Enabled(g, st)
      modifies this`g
      ensures g == Next(old(g), st) && Reaches(g0, g)
    {
      ReachesStep(g0, g, st);
      g := Next(g, st);
    }

    /** The statements of Start. */
    method Recall(now: Time) returns (ids: seq<Id>, recovered: Answer, listed: Answer)
      requires Mirrors() && g.clock <= now && !started && g.mem == FRESH
      modifies this, store`jobs
      ensures Mirrors() && Reaches(old(g), g)
      ensures g.mem == FRESH.(boot := Requeueing(ids), started := true) && g.workers == workers
      ensures g.clock == now && |ids| <= CAPACITY
      ensures recovered == Ok ==> StaleRequeued(old(store.jobs), store.jobs, now, staleAfter)
      ensures if listed == Ok then OldestQueued(store.jobs, 1000, ids) else ids == []
      ensures store.Answers() ==> recovered == Ok && listed == Ok
    {
      started, stopped := true, false;
      var n;
      n, recovered := store.RecoverStaleRunningJobs(now, staleAfter);
      ids, listed := store.ListQueuedJobs(CAPACITY);
      if listed != Ok { ids := []; }
      BootReaches(g, now, recovered, listed, ids);
      g := AfterListing(g, now, recovered, ids);
    }

    /** The loop of Start, and the spawning of the workers. */
    method RequeueListed(ids: seq<Id>)
      requires Mirrors() && started && |ids| <= CAPACITY
      requires g.mem == FRESH.(boot := Requeueing(ids), started := true)
      modifies this`jobs, this`g
      ensures Mirrors() && Reaches(old(g), g)
      ensures jobs == ids && g.mem.boot.Up? && g.mem.workers == seq(workers, i => Idle)
      ensures g.clock == old(g).clock && g.jobs == old(g).jobs
    {
      ghost var g0 := g;
      ReachesSelf(g0);
      var k := 0;
      while k < |ids|
        invariant k <= |ids| && jobs == ids[..k]
        invariant Mirrors() && Reaches(g0, g)
        invariant g.clock == g0.clock && g.jobs == g0.jobs
        invariant g.mem == FRESH.(boot := Requeueing(ids[k..]), started := true, chan := jobs, sent := g.mem.sent)
      {
        var ok := Enqueue(ids[k]);
        if !ok { break; }
        Do(g0, Requeue);
        k := k + 1;
      }
      Do(g0, Requeue);
    }

    method Start(now: Time) returns (recovered: Answer, listed: Answer)
      requires Mirrors() && g.clock <= now && (started || g.mem == FRESH)
      modifies this, store`jobs
      ensures Mirrors() && Reaches(old(g), g)
      ensures old(started) ==> g == old(g)
      ensures !old(started) ==> g.mem.boot.Up? && g.mem.workers == seq(workers, i => Idle)
      ensures !old(started) && recovered == Ok ==> StaleRequeued(old(store.jobs), store.jobs, now, staleAfter)
      ensures !old(started) ==> if listed == Ok then OldestQueued(store.jobs, 1000, jobs) else jobs == []
      ensures !old(started) && store.Answers() ==> recovered == Ok && listed == Ok
    {
      ghost var g0 := g;
      ReachesSelf(g0);
      if started { return Refused, Refused; }
      var ids;
      ids, recovered, listed := Recall(now);
      ghost var g1 := g;
      RequeueListed(ids);
      ReachesTrans(g0, g1, g);
    }

    // ----- Create -----

    /** The call at the end of the list makes a step. */
    ghost method Move(g0: State, pre: seq<Call>, x: Call, cs: CallStep)
      requires Reaches(g0, g) && g.mem.calls == pre + [x] && CallCan(g, x, cs)
      modifies this`g
      ensures Reaches(g0, g)
      ensures g == AfterCall(old(g), pre, x, cs)
    {
      ReachesStep(g0, g, Advance(|pre|, cs));
      assert CallEffect(g, x, cs).mem.calls == pre + [x];
      g := AfterCall(g, pre, x, cs);
    }

    /** The job is in the table; put its id into the channel or give up. */
    method Deliver(t: Ticket, now: Time, ghost pre: seq<Call>) returns (r: Option<Id>)
      requires Mirrors() && g.mem.calls == pre + [Inserted(t)] && g.clock == now
      modifies this`jobs, this`g, store`jobs
      ensures Mirrors() && Reaches(old(g), g)
      ensures g.mem.calls == pre + [if r.Some? then Returned(t.id, t.key) else Errored]
      ensures Delivered(old(store.jobs), store.jobs, old(jobs), jobs, stopped, t, now, r, store.Answers())
    {
      ghost var g0 := g;
      ReachesSelf(g0);
      Move(g0, pre, Inserted(t), ReadStopped);
      if !stopped { Move(g0, pre, Sending(t), Send); }
      var sent := Enqueue(t.id);
      if sent { return Some(t.id); }
      TurnAway(t, now, pre, g0);
      return None;
    }

    /** The failure write for a job that could not be enqueued. */
    method TurnAway(t: Ticket, now: Time, ghost pre: seq<Call>, ghost g0: State)
      requires Mirrors() && Reaches(g0, g) && g.mem.calls == pre + [Rejected(t, now)] && g.clock == now
      modifies this`g, store`jobs
      ensures Mirrors() && Reaches(g0, g) && g.mem.calls == pre + [Errored]
      ensures store.jobs == Written(old(store.jobs), t.id, QueueFull(t, now)) ||
              (store.jobs == old(store.jobs) && !store.Answers())
    {
      var a := store.UpdateJob(t.id, QueueFull(t, now));
      Move(g0, pre, Rejected(t, now), Reject(a, now));
    }

    /** Insert the job and deliver it; when the insertion fails, look the key up once more. */
    method Insert(t: Ticket, now: Time, ghost pre: seq<Call>) returns (r: Option<Id>)
      requires Mirrors() && g.mem.calls == pre + [Inserting(t)] && g.clock == now
      modifies this`jobs, this`g, store`jobs
      ensures Mirrors() && Reaches(old(g), g)
      ensures g.mem.calls == pre + [if r.Some? then Returned(r.value, t.key) else Errored]
      ensures jobs == old(jobs) || (r == Some(t.id) && jobs == old(jobs) + [t.id])
      ensures Lifecycle.OnlyRow(old(store.jobs), store.jobs, t.id)
      ensures store.Answers() && t.id !in old(store.jobs) ==>
                Attempted(old(store.jobs), store.jobs, old(jobs), jobs, stopped, t, now, r)
    {
      ghost var g0 := g;
      ReachesSelf(g0);
      var a := InsertRow(t, pre);
      ghost var g1 := g;
      if a == Ok {
        r := DeliverNew(t, now, pre, old(store.jobs));
      } else {
        r := SecondLookup(t, pre);
      }
      ReachesTrans(g0, g1, g);
    }

    /** The insertion itself. */
    method InsertRow(t: Ticket, ghost pre: seq<Call>) returns (a: Answer)
      requires Mirrors() && g.mem.calls == pre + [Inserting(t)]
      modifies this`g, store`jobs
      ensures Mirrors() && Reaches(old(g), g) && g.clock == old(g).clock
      ensures g.mem.calls == pre + [if a == Ok then Inserted(t) else if t.key != "" then Retrying(t.key) else Errored]
      ensures Applied(a) ==> t.id !in old(store.jobs) && !KeyTaken(old(store.jobs), t.key)
      ensures store.jobs == if Applied(a) then old(store.jobs)[t.id := t.Row()] else old(store.jobs)
      ensures store.Answers() && t.id !in old(store.jobs) && !KeyTaken(old(store.jobs), t.key) ==> a == Ok
      ensures Lifecycle.OnlyRow(old(store.jobs), store.jobs, t.id)
    {
      ghost var g0 := g;
      ReachesSelf(g0);
      OneInsertion(store.jobs, t);
      a := store.CreateJob(t.id, t.Row());
      Move(g0, pre, Inserting(t), CallStep.Insert(a));
    }

    /** The delivery, seen from the table before the insertion. */
    method DeliverNew(t: Ticket, now: Time, ghost pre: seq<Call>, ghost before: Jobs) returns (r: Option<Id>)
      requires Mirrors() && g.mem.calls == pre + [Inserted(t)] && g.clock == now
      requires t.id !in before && !KeyTaken(before, t.key) && store.jobs == before[t.id := t.Row()]
      modifies this`jobs, this`g, store`jobs
      ensures Mirrors() && Reaches(old(g), g)
      ensures g.mem.calls == pre + [if r.Some? then Returned(t.id, t.key) else Errored]
      ensures r.Some? ==> r.value == t.id
      ensures jobs == old(jobs) || (r == Some(t.id) && jobs == old(jobs) + [t.id])
      ensures Lifecycle.OnlyRow(before, store.jobs, t.id)
      ensures store.Answers() ==> Attempted(before, store.jobs, old(jobs), jobs, stopped, t, now, r)
    {
      r := Deliver(t, now, pre);
      AfterDelivery(before, store.jobs, old(jobs), jobs, stopped, t, now, r, store.Answers());
    }

    /** A failed insertion with a key: perhaps another call was faster. */
    method SecondLookup(t: Ticket, ghost pre: seq<Call>) returns (r: Option<Id>)
      requires Mirrors() && g.mem.calls == pre + [if t.key != "" then Retrying(t.key) else Errored]
      modifies this`g
      ensures Mirrors() && Reaches(old(g), g)
      ensures g.mem.calls == pre + [if r.Some? then Returned(r.value, t.key) else Errored]
      ensures store.Answers() && KeyTaken(store.jobs, t.key) ==> r.Some?
    {
      ghost var g0 := g;
      ReachesSelf(g0);
      r := None;
      if t.key != "" {
        r := store.GetJobByIdempotencyKey(t.key);
        Move(g0, pre, Retrying(t.key), Retry(r));
      }
    }

    /** `id` is the generated UUID. */
    method Create(id: Id, request: Request, key: string, now: Time) returns (r: Option<Id>)
      requires Mirrors() && Reachable(g) && g.mem.boot.Up? && id !in g.issued && g.clock <= now
      modifies this`jobs, this`g, store`jobs
      ensures Mirrors() && Reaches(old(g), g)
      ensures g.mem.calls == old(g).mem.calls + [if r.Some? then Returned(r.value, key) else Errored]
      ensures r.Some? ==> r.value in store.jobs && store.jobs[r.value].key == key
      ensures jobs == old(jobs) || (r == Some(id) && jobs == old(jobs) + [id])
      ensures Lifecycle.OnlyRow(old(store.jobs), store.jobs, id)
      ensures store.Answers() ==>
                Settled(old(store.jobs), store.jobs, old(jobs), jobs, stopped, Ticket(id, key, request, now), now, r)
    {
      ghost var g0, pre := g, g.mem.calls;
      FreshId(g0, id);
      var t := Ticket(id, key, request, now);
      CallBegins(g, t);
      g := g.(clock := now, issued := g.issued + {id}, mem := g.mem.(calls := pre + [Asked(t)]));
      r := FirstLookup(t, pre, g0);
      if r.None? {
        r := Admit(t, now, pre, g0);
      }
      if r.Some? { ReturnedKnown(g0, g, pre, r.value, key); }
    }

    /** The lookup of a key before anything else. */
    method FirstLookup(t: Ticket, ghost pre: seq<Call>, ghost g0: State) returns (r: Option<Id>)
      requires Mirrors() && Reaches(g0, g) && g.mem.calls == pre + [Asked(t)]
      modifies this`g
      ensures Mirrors() && Reaches(g0, g) && g.clock == old(g).clock
      ensures g.mem.calls == pre + [if r.Some? then Returned(r.value, t.key) else Admitted(t)]
      ensures store.Answers() && KeyTaken(store.jobs, t.key) ==> r.Some?
      ensures r.Some? ==> KeyTaken(store.jobs, t.key)
    {
      r := None;
      if t.key != "" { r := store.GetJobByIdempotencyKey(t.key); }
      Move(g0, pre, Asked(t), Lookup(r));
    }

    method Admit(t: Ticket, now: Time, ghost pre: seq<Call>, ghost g0: State) returns (r: Option<Id>)
      requires Mirrors() && g.mem.calls == pre + [Admitted(t)] && g.clock == now && Reaches(g0, g)
      modifies this`jobs, this`g, store`jobs
      ensures Mirrors() && Reaches(g0, g)
      ensures g.mem.calls == pre + [if r.Some? then Returned(r.value, t.key) else Errored]
      ensures jobs == old(jobs) || (r == Some(t.id) && jobs == old(jobs) + [t.id])
      ensures Lifecycle.OnlyRow(old(store.jobs), store.jobs, t.id)
      ensures store.Answers() && t.id !in old(store.jobs) && !KeyTaken(old(store.jobs), t.key) ==>
                Settled(old(store.jobs), store.jobs, old(jobs), jobs, stopped, t, now, r)
    {
      Move(g0, pre, Admitted(t), CheckStopped);
      if stopped { return None; }
      ghost var g1 := g;
      r := Insert(t, now, pre);
      ReachesTrans(g0, g1, g);
    }

    // ----- Stop -----

    /** failQueuedJob; `ok` says that the store answered. */
    method FailQueuedJob(id: Id, now: Time) returns (ok: bool)
      requires Mirrors() && g.mem.stop == Drained(id) && g.clock == now
      modifies this`g, store`jobs
      ensures Mirrors() && Reaches(old(g), g)
      ensures g.mem == old(g).mem.(stop := Draining) && g.clock == now
      ensures store.jobs == old(store.jobs) || Shed(old(store.jobs), store.jobs, id, now)
      ensures ok && IsQueued(old(store.jobs), id) ==> Shed(old(store.jobs), store.jobs, id, now)
      ensures store.Answers() && id in old(store.jobs) ==> ok
    {
      ghost var g0 := g;
      ReachesSelf(g0);
      var r := store.GetJob(id);
      Do(g0, Halt(DrainLoad(if r.Some? then Ok else Refused)));
      if r.None? { return false; }
      if r.value.status != Queued { return true; }
      ok := WriteShed(id, r.value, now, g0);
    }

    method WriteShed(id: Id, j: Job, now: Time, ghost g0: State) returns (ok: bool)
      requires Mirrors() && Reaches(g0, g) && g.mem.stop == DrainLoaded(id, j, now) && g.clock == now
      requires id in store.jobs && store.jobs[id] == j && j.status == Queued
      modifies this`g, store`jobs
      ensures Mirrors() && Reaches(g0, g)
      ensures g.mem == old(g).mem.(stop := Draining) && g.clock == now
      ensures store.jobs == old(store.jobs) || Shed(old(store.jobs), store.jobs, id, now)
      ensures ok ==> Shed(old(store.jobs), store.jobs, id, now)
      ensures store.Answers() ==> ok
    {
      var a := store.UpdateJob(id, ShutDown(j, now));
      Do(g0, Halt(DrainWrite(a, now)));
      ok := a == Ok;
    }

    /** Everything before the drain loop. While wg.Wait() blocks, everybody else goes on: `during` is what
        they make of the tables and the channel, by the steps `others`. */
    method Shut(now: Time, during: Meanwhile, ghost others: seq<Step>)
      requires Mirrors() && g.mem.boot.Up? && started && !stopped && g.clock <= now
      requires Waits(AfterCancel(g, now), others, during)
      modifies this, store
      ensures Mirrors() && Reaches(old(g), g) && stopped && cancelled && g.mem.stop == Draining
      ensures jobs == during.chan && store.jobs == during.jobs && store.profiles == during.profiles
      ensures store.open == during.open && g.clock == End(AfterCancel(old(g), now), others).clock
    {
      ghost var g0 := g;
      CancelReaches(g, now);
      stopped := true;
      cancelled := true;
      g := AfterCancel(g, now);
      Meet(during, others, g0);
      Do(g0, Halt(Wait));
    }

    /** The wait. */
    method Meet(during: Meanwhile, ghost others: seq<Step>, ghost g0: State)
      requires Mirrors() && Reaches(g0, g) && Stopping(g) && Waits(g, others, during)
      modifies this`g, this`jobs, store
      ensures Mirrors() && Reaches(g0, g) && Stopping(g) && AllExited(g.mem)
      ensures jobs == during.chan && store.jobs == during.jobs && store.profiles == during.profiles
      ensures store.open == during.open && g.clock == End(old(g), others).clock
    {
      WaitKeeps(g, others);
      ghost var u := End(g, others);
      assert Reaches(g, u);
      ReachesTrans(g0, g, u);
      g := u;
      jobs := during.chan;
      store.jobs, store.profiles, store.open := during.jobs, during.profiles, during.open;
    }

    /** `answered` says that the store answered all statements of the drain. */
    method Stop(now: Time, during: Meanwhile, later: Time, ghost others: seq<Step>) returns (answered: bool)
      requires Mirrors() && Reachable(g) && g.mem.boot.Up? && g.clock <= now
      requires !stopped ==>
                 Waits(AfterCancel(g, now), others, during) && End(AfterCancel(g, now), others).clock <= later
      modifies this, store
      ensures Mirrors() && Reaches(old(g), g)
      ensures old(stopped) ==> g == old(g) && store.jobs == old(store.jobs)
      ensures !old(stopped) ==> stopped && cancelled && jobs == [] && g.mem.stop.Stopped?
      ensures !old(stopped) ==> forall id | id in during.chan :: IsQueued(during.jobs, id)
      ensures !old(stopped) ==> ShedSome(during.jobs, store.jobs, during.chan, later)
      ensures !old(stopped) && answered ==> ShedAll(during.jobs, store.jobs, during.chan, later)
      ensures !old(stopped) ==> store.profiles == during.profiles && store.open == during.open
      ensures store.Answers() ==> answered
    {
      ghost var g0 := g;
      Lifecycle.ReachableInv(g0);
      answered := true;
      if !started || stopped {
        ReachesSelf(g0);
        return;
      }
      Shut(now, during, others);
      Do(g0, Tick(later));
      ChannelIsQueued(g0, g);
      answered := DrainAll(later, g0);
    }

    /** The drain loop. */
    method DrainAll(now: Time, ghost g0: State) returns (answered: bool)
      requires Mirrors() && Reachable(g0) && Reaches(g0, g) && stopped && cancelled
      requires g.mem.stop == Draining && g.clock == now
      modifies this`jobs, this`g, store`jobs
      ensures Mirrors() && Reaches(g0, g) && jobs == [] && g.mem.stop.Stopped?
      ensures ShedSome(old(store.jobs), store.jobs, old(jobs), now)
      ensures answered ==> ShedAll(old(store.jobs), store.jobs, old(jobs), now)
      ensures store.Answers() ==> answered
    {
      answered := true;
      ghost var done: seq<Id> := [];
      while jobs != []
        invariant Mirrors() && Reaches(g0, g)
        invariant g.mem.stop == Draining && g.clock == now
        invariant store.Answers() ==> answered
        invariant done + jobs == old(jobs)
        invariant ShedSoFar(old(store.jobs), store.jobs, done, now, answered)
        decreases |jobs|
      {
        ghost var id, before := jobs[0], store.jobs;
        var ok := DrainOne(now, g0);
        ShedOneMore(old(store.jobs), before, store.jobs, done, id, now, answered && ok);
        done := done + [id];
        answered := answered && ok;
      }
      assert done == old(jobs);
      Do(g0, Halt(Drain));
    }

    /** One round of the drain loop. */
    method DrainOne(now: Time, ghost g0: State) returns (ok: bool)
      requires Mirrors() && Reachable(g0) && Reaches(g0, g) && jobs != []
      requires g.mem.stop == Draining && g.clock == now
      modifies this`jobs, this`g, store`jobs
      ensures Mirrors() && Reaches(g0, g) && g.mem.stop == Draining && g.clock == now
      ensures jobs == old(jobs)[1..]
      ensures store.jobs == old(store.jobs) || Shed(old(store.jobs), store.jobs, old(jobs)[0], now)
      ensures ok ==> Shed(old(store.jobs), store.jobs, old(jobs)[0], now)
      ensures store.Answers() ==> ok
    {
      var id := jobs[0];
      jobs := jobs[1..];
      Do(g0, Halt(Drain));
      ghost var g1 := g;
      DrainedIsQueued(g0, g1);
      ok := FailQueuedJob(id, now);
      ReachesTrans(g0, g1, g);
    }

    // ----- loop and run -----

    /** Worker `i` makes a step that leaves the channel and the tables alone, or whose effect on them has
        just been performed. */
    ghost method Turn(g0: State, i: nat, w: WorkerStep)
      requires Reaches(g0, g) && i < |g.mem.workers| && WorkerCan(g, g.mem.workers[i], w)
      modifies this`g
      ensures Reaches(g0, g)
      ensures g == AfterTurn(old(g), i, w)
    {
      ReachesStep(g0, g, Work(i, w));
      g := AfterTurn(g, i, w);
    }

    /** The first half of run: load the job and mark it running. */
    method Claim(i: nat, id: Id, now: Time, ghost g0: State) returns (r: Option<Job>)
      requires Mirrors() && Reaches(g0, g) && g.clock == now
      requires i < |g.mem.workers| && g.mem.workers[i] == Got(id)
      modifies this`g, store`jobs
      ensures Mirrors() && Reaches(g0, g) && g.clock == now
      ensures g.mem == Put(old(g).mem, i, if r.Some? then Busy(id, r.value, false, Opening) else Idle)
      ensures r.Some? ==> id in old(store.jobs) && r.value == MarkedRunning(old(store.jobs)[id], now)
      ensures r.Some? ==> store.jobs == Written(old(store.jobs), id, r.value)
      ensures r.Some? ==>
                var j := old(store.jobs)[id];
                r.value == Job(Running, "", j.request, j.key, j.created, Some(now), None)
      ensures store.Answers() && !cancelled && id in old(store.jobs) ==> r.Some?
      ensures Lifecycle.OnlyRow(old(store.jobs), store.jobs, id)
    {
      r := None;
      if !cancelled { r := store.GetJob(id); }
      Turn(g0, i, Load(if r.Some? then Ok else Refused));
      if r.Some? {
        var j := r.value;
        OneWrite(store.jobs, id, MarkedRunning(j, now));
        var ok := MarkRunning(i, id, j, now, g0);
        r := if ok then Some(MarkedRunning(j, now)) else None;
      }
    }

    /** The write that marks a loaded job running, under the manager's context. */
    method MarkRunning(i: nat, id: Id, j: Job, now: Time, ghost g0: State) returns (ok: bool)
      requires Mirrors() && Reaches(g0, g) && g.clock == now && !cancelled
      requires i < |g.mem.workers| && g.mem.workers[i] == Loaded(id, j, now)
      modifies this`g, store`jobs
      ensures Mirrors() && Reaches(g0, g) && g.clock == now
      ensures g.mem == Put(old(g).mem, i, if ok then Busy(id, MarkedRunning(j, now), false, Opening) else Idle)
      ensures store.Answers() ==> ok
      ensures store.jobs == Written(old(store.jobs), id, MarkedRunning(j, now)) ||
              (!ok && store.jobs == old(store.jobs))
    {
      Turn(g0, i, Mark(now));
      var a := store.UpdateJob(id, MarkedRunning(j, now));
      Turn(g0, i, MarkDone(a));
      ok := a == Ok;
    }

    ghost method Note(i: nat, id: Id, j: Job, timedOut: bool, f: Found, now: Time, g0: State)
      requires Reaches(g0, g) && g.clock == now
      requires i < |g.mem.workers| && g.mem.workers[i] == Busy(id, j, timedOut, Opening)
      requires f.Fits(g.mem.cancelled || timedOut)
      modifies this`g
      ensures Reaches(g0, g)
      ensures g == old(g).(mem := Put(old(g).mem, i, Busy(id, j, timedOut,
                                                         Measured(f.source, MeasuredOf(j.request, f), now))))
    {
      Turn(g0, i, Measure(f.source, f.run, f.labels, f.dup, f.dupPct));
    }

    /** Evaluate the measured profile and compare it with its predecessor. */
    method Appraise(i: nat, id: Id, j: Job, timedOut: bool, source: Source, measured: TableProfile, now: Time,
                    ghost g0: State) returns (row: ProfileRow)
      requires Mirrors() && Reaches(g0, g) && g.clock == now
      requires i < |g.mem.workers| && g.mem.workers[i] == Busy(id, j, timedOut, Measured(source, measured, now))
      requires measured.drift.None?
      modifies this`g
      ensures Mirrors() && Reaches(g0, g) && g.clock == now
      ensures g.mem == Put(old(g).mem, i, Busy(id, j, timedOut, Ready(row)))
      ensures row == ProfileRow(id, Evaluated(measured, j.request.rules, now).(drift := row.profile.drift), source)
      ensures Continues(store.profiles, row.profile)
      ensures store.Answers() && !cancelled && !timedOut && row.profile.drift.None? ==>
                NoneOf(store.profiles, row.profile)
    {
      var q := Quality.Evaluate(measured, j.request.rules);
      var p := measured.(quality := q, created := now);
      assert p == Evaluated(measured, j.request.rules, now);
      var k := None;
      if !cancelled && !timedOut { k := store.GetPreviousProfile(measured.schema, measured.table); }
      if k.Some? {
        var report := Drift.Compare(store.profiles[k.value].profile, p);
        Turn(g0, i, ReadPrevious(Ok, k.value, now, report));
        row := ProfileRow(id, p.(drift := Some(report)), source);
        assert row.profile.(drift := None) == p;
      } else {
        Turn(g0, i, ReadPrevious(Refused, 0, now, DriftReport(false, 0.0, [])));
        row := ProfileRow(id, p, source);
      }
    }

    /** SaveProfile, under the context of the job. */
    method Keep(i: nat, id: Id, j: Job, timedOut: bool, row: ProfileRow, now: Time, err: string, ghost g0: State)
      returns (failure: Option<string>)
      requires Mirrors() && Reaches(g0, g) && g.clock == now
      requires i < |g.mem.workers| && g.mem.workers[i] == Busy(id, j, timedOut, Ready(row))
      modifies this`g, store`profiles
      ensures Mirrors() && Reaches(g0, g) && g.clock == now
      ensures g.mem == Put(old(g).mem, i, Closing(id, j, failure, now))
      ensures cancelled || timedOut ==> failure.Some? && store.profiles == old(store.profiles)
      ensures failure.None? ==> store.profiles == old(store.profiles) + [row]
      ensures failure.None? || failure == Some(err)
      ensures store.Answers() && !cancelled && !timedOut && row.job in store.jobs ==> failure.None?
    {
      PutTwice(g.mem, i);
      CheckContext(i, id, j, timedOut, row, now, err, g0);
      if cancelled || timedOut { return Some(err); }
      var a := Append(i, id, j, timedOut, row, now, err, g0);
      return if a == Ok then None else Some(err);
    }

    /** The check of the context before the statement. */
    ghost method CheckContext(i: nat, id: Id, j: Job, timedOut: bool, row: ProfileRow, now: Time, err: string,
                              g0: State)
      requires Reaches(g0, g) && g.clock == now
      requires i < |g.mem.workers| && g.mem.workers[i] == Busy(id, j, timedOut, Ready(row))
      modifies this`g
      ensures Reaches(g0, g)
      ensures g == old(g).(mem := Put(old(g).mem, i, if old(g).mem.cancelled || timedOut
                                                     then Closing(id, j, Some(err), now)
                                                     else Busy(id, j, timedOut, Saving(row))))
    {
      Turn(g0, i, Save(err));
    }

    /** The statement itself. */
    method Append(i: nat, id: Id, j: Job, timedOut: bool, row: ProfileRow, now: Time, err: string, ghost g0: State)
      returns (a: Answer)
      requires Mirrors() && Reaches(g0, g) && g.clock == now
      requires i < |g.mem.workers| && g.mem.workers[i] == Busy(id, j, timedOut, Saving(row))
      modifies this`g, store`profiles
      ensures Mirrors() && Reaches(g0, g) && g.clock == now
      ensures g.mem == Put(old(g).mem, i, Closing(id, j, if a == Ok then None else Some(err), now))
      ensures store.profiles == if Applied(a) then old(store.profiles) + [row] else old(store.profiles)
      ensures store.Answers() && row.job in store.jobs ==> a == Ok
    {
      a := store.SaveProfile(row);
      Turn(g0, i, SaveDone(a, err));
    }

    /** What run does with a measured table: appraise and save. */
    method Snapshot(i: nat, id: Id, j: Job, now: Time, f: Found, timedOut: bool, err: string, ghost g0: State)
      returns (failure: Option<string>)
      requires Mirrors() && Reaches(g0, g) && g.clock == now
      requires i < |g.mem.workers| && g.mem.workers[i] == Busy(id, j, timedOut, Opening)
      requires f.Fits(cancelled || timedOut)
      modifies this`g, store`profiles
      ensures Mirrors() && Reaches(g0, g) && g.clock == now
      ensures g.mem == Put(old(g).mem, i, Closing(id, j, failure, now))
      ensures cancelled || timedOut ==> failure.Some? && store.profiles == old(store.profiles)
      ensures failure.None? ==> Saved(old(store.profiles), store.profiles, id, j.request, f, now)
      ensures failure.None? || failure == Some(err)
      ensures store.Answers() && !cancelled && !timedOut && id in store.jobs ==>
                failure.None? && Compared(old(store.profiles), store.profiles)
    {
      PutTwice(g.mem, i);
      var row := Assess(i, id, j, now, f, timedOut, g0);
      SavedBy(store.profiles, id, j.request, f, now, row);
      failure := Keep(i, id, j, timedOut, row, now, err, g0);
    }

    /** From the measured table to the row that is to be saved. */
    method Assess(i: nat, id: Id, j: Job, now: Time, f: Found, timedOut: bool, ghost g0: State)
      returns (row: ProfileRow)
      requires Mirrors() && Reaches(g0, g) && g.clock == now
      requires i < |g.mem.workers| && g.mem.workers[i] == Busy(id, j, timedOut, Opening)
      requires f.Fits(cancelled || timedOut)
      modifies this`g
      ensures Mirrors() && Reaches(g0, g) && g.clock == now
      ensures g.mem == Put(old(g).mem, i, Busy(id, j, timedOut, Ready(row)))
      ensures Continues(store.profiles, row.profile)
      ensures store.Answers() && !cancelled && !timedOut && row.profile.drift.None? ==>
                NoneOf(store.profiles, row.profile)
      ensures row == ProfileRow(id, Evaluated(MeasuredOf(j.request, f), j.request.rules, now)
                                    .(drift := row.profile.drift), f.source)
    {
      PutTwice(g.mem, i);
      Note(i, id, j, timedOut, f, now, g0);
      row := Appraise(i, id, j, timedOut, f.source, MeasuredOf(j.request, f), now, g0);
    }

    /** The job's own deadline passes. */
    ghost method Times(i: nat, id: Id, j: Job, g0: State)
      requires Reaches(g0, g) && i < |g.mem.workers| && g.mem.workers[i] == Busy(id, j, false, Opening)
      modifies this`g
      ensures Reaches(g0, g) && g == old(g).(mem := Put(old(g).mem, i, Busy(id, j, true, Opening)))
    {
      Turn(g0, i, Expire);
    }

    /** The second half of run, for a job that is marked running. */
    method Profile(i: nat, id: Id, j: Job, now: Time, found: Option<Found>, timedOut: bool, err: string,
                   ghost g0: State) returns (failure: Option<string>)
      requires Mirrors() && Reaches(g0, g) && g.clock == now
      requires i < |g.mem.workers| && g.mem.workers[i] == Busy(id, j, false, Opening)
      requires found.Some? ==> found.value.Fits(cancelled || timedOut)
      modifies this`g, store`profiles
      ensures Mirrors() && Reaches(g0, g) && g.clock == now
      ensures g.mem == Put(old(g).mem, i, Closing(id, j, failure, now))
      ensures cancelled || timedOut || found.None? ==> failure.Some? && store.profiles == old(store.profiles)
      ensures failure.None? ==>
                found.Some? && Saved(old(store.profiles), store.profiles, id, j.request, found.value, now)
      ensures failure.None? || failure == Some(err)
      ensures store.Answers() && !cancelled && !timedOut && found.Some? && id in store.jobs ==>
                failure.None? && Compared(old(store.profiles), store.profiles)
    {
      PutTwice(g.mem, i);
      if timedOut { Times(i, id, j, g0); }
      if found.Some? {
        failure := Snapshot(i, id, j, now, found.value, timedOut, err, g0);
      } else {
        Turn(g0, i, ProfileFails(err));
        failure := Some(err);
      }
    }

    /** The final status write, under the background context. */
    method Conclude(i: nat, id: Id, j: Job, failure: Option<string>, now: Time, ghost g0: State) returns (a: Answer)
      requires Mirrors() && Reaches(g0, g) && g.clock == now
      requires i < |g.mem.workers| && g.mem.workers[i] == Closing(id, j, failure, now)
      modifies this`g, store`jobs
      ensures Mirrors() && Reaches(g0, g)
      ensures g.mem == Put(old(g).mem, i, Idle)
      ensures store.jobs ==
              if Applied(a) then Written(old(store.jobs), id, Finished(j, failure, now)) else old(store.jobs)
      ensures Applied(a) && id in old(store.jobs) ==>
                var (r, r') := (old(store.jobs)[id], store.jobs[id]);
                && r'.status == (if failure.Some? then Status.Failed else Completed)
                && r'.error == (if failure.Some? then failure.value else j.error)
                && r'.started == j.started && r'.finished == Some(now)
                && r'.request == r.request && r'.key == r.key && r'.created == r.created
      ensures store.Answers() ==> a == Ok
    {
      a := store.UpdateJob(id, Finished(j, failure, now));
      Turn(g0, i, Finish(a, now));
    }

    /** The select of loop. It blocks unless one of its cases is ready; when both are, either may be taken. */
    method Receive(i: nat, preferStop: bool) returns (id: Option<Id>)
      requires Mirrors() && i < |g.mem.workers| && g.mem.workers[i].Idle?
      requires cancelled || jobs != []
      modifies this`jobs, this`g
      ensures Mirrors() && Reaches(old(g), g)
      ensures g == old(g).(mem := old(g).mem.(chan := jobs, workers := old(g).mem.workers[i :=
                             if id.Some? then Got(id.value) else Exited]))
      ensures if id.Some? then old(jobs) == [id.value] + jobs else cancelled && jobs == old(jobs)
      ensures id.None? <==> cancelled && (preferStop || old(jobs) == [])
    {
      ghost var g0 := g;
      ReachesSelf(g0);
      if cancelled && (preferStop || jobs == []) {
        Turn(g0, i, Exit);
        return None;
      }
      id := Some(jobs[0]);
      jobs := jobs[1..];
      Turn(g0, i, WorkerStep.Receive);
    }

    /** run, for the id that worker `i` has just received. `found` is what profiling delivers before the
        job's deadline, or None; `err` is the text of the error, if there is one. `final` is the status
        that was persisted, if the store answered. */
    method Run(i: nat, id: Id, now: Time, found: Option<Found>, timedOut: bool, err: string)
      returns (final: Option<Status>)
      requires Mirrors() && g.clock <= now
      requires i < |g.mem.workers| && g.mem.workers[i] == Got(id)
      requires found.Some? ==> found.value.Fits(cancelled || timedOut)
      modifies this`g, store`jobs, store`profiles
      ensures Mirrors() && Reaches(old(g), g)
      ensures g.mem == Put(old(g).mem, i, Idle)
      ensures final.Some? ==> Concluded(old(store.jobs), store.jobs, id, final.value, err, now)
      ensures final == Some(Completed) ==>
                found.Some? && id in old(store.jobs) &&
                Saved(old(store.profiles), store.profiles, id, old(store.jobs)[id].request, found.value, now)
      ensures cancelled || timedOut || found.None? ==>
                final != Some(Completed) && store.profiles == old(store.profiles)
      ensures Lifecycle.OnlyRow(old(store.jobs), store.jobs, id)
      ensures store.Answers() && !cancelled && id in old(store.jobs) ==>
                final == Some(if found.Some? && !timedOut then Completed else Status.Failed)
      ensures store.Answers() && final == Some(Completed) ==> Compared(old(store.profiles), store.profiles)
    {
      ghost var g0 := g;
      Ticks(g, now);
      g := g.(clock := now);
      final := None;
      PutTwice(g.mem, i);
      var r := Claim(i, id, now, g0);
      if r.Some? { final := Execute(i, id, r.value, now, found, timedOut, err, g0, old(store.jobs)); }
    }

    /** The part of run behind the marking; `before` is the table ahead of it. */
    method Execute(i: nat, id: Id, j: Job, now: Time, found: Option<Found>, timedOut: bool, err: string,
                   ghost g0: State, ghost before: Jobs) returns (final: Option<Status>)
      requires Mirrors() && Reaches(g0, g) && g.clock == now
      requires i < |g.mem.workers| && g.mem.workers[i] == Busy(id, j, false, Opening)
      requires id in before && j == MarkedRunning(before[id], now) && store.jobs == Written(before, id, j)
      requires found.Some? ==> found.value.Fits(cancelled || timedOut)
      modifies this`g, store`jobs, store`profiles
      ensures Mirrors() && Reaches(g0, g)
      ensures g.mem == Put(old(g).mem, i, Idle)
      ensures final.Some? ==> Concluded(before, store.jobs, id, final.value, err, now)
      ensures final == Some(Completed) ==>
                found.Some? && Saved(old(store.profiles), store.profiles, id, j.request, found.value, now)
      ensures cancelled || timedOut || found.None? ==>
                final != Some(Completed) && store.profiles == old(store.profiles)
      ensures Lifecycle.OnlyRow(before, store.jobs, id)
      ensures store.Answers() && !cancelled ==>
                final == Some(if found.Some? && !timedOut then Completed else Status.Failed)
      ensures store.Answers() && final == Some(Completed) ==> Compared(old(store.profiles), store.profiles)
    {
      PutTwice(g.mem, i);
      var failure := Profile(i, id, j, now, found, timedOut, err, g0);
      var a := Conclude(i, id, j, failure, now, g0);
      final := if a != Ok then None else Some(if failure.None? then Completed else Status.Failed);
      AfterConclusion(before, old(store.jobs), store.jobs, id, failure, err, now, Applied(a));
    }
  }
}
