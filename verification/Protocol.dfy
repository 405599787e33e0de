/** The job protocol of internal/worker/manager.go as a step relation.

    Any number of Create calls, the worker goroutines, one Start, one Stop and crashes interleave over
    a bounded channel and the two metadata tables. A step is what one of them does up to and including
    its next access to something shared. Store statements are atomic, but each may be refused, and each
    may be applied although its caller is told that it failed. */
module Protocol {
  import opened Domain
  import opened Tables
  import FanOut
  import Drift
  import Quality

  const CAPACITY: nat := 1000

  // ----- local state of the participants -----

  /** Inside `run`, after the row was marked running. `at` is a past reading of the clock. */
  datatype Stage =
    | Opening
    | Measured(source: Source, profile: TableProfile, at: Time)
    | Ready(row: ProfileRow)
    | Saving(row: ProfileRow)

  datatype Worker =
    | Idle
    | Got(id: Id)
    | Loaded(id: Id, job: Job, at: Time)
    | Marking(id: Id, job: Job)
    | Busy(id: Id, job: Job, expired: bool, stage: Stage)
    | Closing(id: Id, job: Job, err: Option<string>, at: Time)
    | Exited
  {
    function Holding(): Option<Id> {
      if Idle? || Exited? then None else Some(id)
    }
  }

  /** What Create put into its new job. */
  datatype Ticket = Ticket(id: Id, key: string, request: Request, created: Time) {
    function Row(): Job {
      NewJob(request, key, created)
    }
  }

  datatype Call =
    | Asked(ticket: Ticket)
    | Admitted(ticket: Ticket)
    | Inserting(ticket: Ticket)
    | Retrying(key: string)
    | Inserted(ticket: Ticket)
    | Sending(ticket: Ticket)
    | Rejected(ticket: Ticket, at: Time)
    | Returned(id: Id, key: string)
    | Errored
  {
    function Holding(): Option<Id> {
      if Retrying? || Returned? || Errored? then None else Some(ticket.id)
    }

    /** The row is not in the table yet. */
    predicate BeforeInsert() {
      Asked? || Admitted? || Inserting?
    }
  }

  datatype Stopper =
    | NotStopping
    | Signalled
    | Awaiting
    | Draining
    | Drained(id: Id)
    | DrainLoaded(id: Id, job: Job, at: Time)
    | Stopped
  {
    function Holding(): Option<Id> {
      if Drained? || DrainLoaded? then Some(id) else None
    }
  }

  datatype Boot = Down | Recovering | Listing | Requeueing(pending: seq<Id>) | Up

  /** What a crash wipes out. `sent` is a history variable: the ids sent into the channel so far. */
  datatype Mem = Mem(
    boot: Boot,
    started: bool,
    stopped: bool,
    cancelled: bool,
    open: bool,
    chan: seq<Id>,
    sent: multiset<Id>,
    workers: seq<Worker>,
    calls: seq<Call>,
    stop: Stopper)

  /** `issued` holds the UUIDs generated so far; `marks` counts how often each job was marked running. */
  datatype State = State(
    workers: nat,
    staleAfter: int,
    clock: Time,
    jobs: Jobs,
    profiles: seq<ProfileRow>,
    issued: set<Id>,
    marks: multiset<Id>,
    mem: Mem)

  const FRESH: Mem := Mem(Down, false, false, false, true, [], multiset{}, [], [], NotStopping)

  /** NewManager on an empty database. */
  function Init(workers: int, staleAfter: int, clock: Time): State {
    State(if workers < 1 then 1 else workers, if staleAfter <= 0 then 1800 else staleAfter,
          clock, map[], [], {}, multiset{}, FRESH)
  }

  // ----- steps -----

  datatype WorkerStep =
    | Receive
    | Exit
    | Load(a: Answer)
    | Mark(t: Time)
    | MarkDone(a: Answer)
    | Expire
    | ProfileFails(err: string)
    | Measure(source: Source, run: FanOut.State, labels: seq<(string, real)>, dup: int, dupPct: real)
    | ReadPrevious(a: Answer, k: nat, t: Time, report: DriftReport)
    | Save(err: string)
    | SaveDone(a: Answer, err: string)
    | Finish(a: Answer, t: Time)

  datatype CallStep =
    | Lookup(found: Option<Id>)
    | CheckStopped
    | Insert(a: Answer)
    | Retry(found: Option<Id>)
    | ReadStopped
    | Send
    | Reject(a: Answer, t: Time)

  datatype StopStep =
    | Cancel
    | Wait
    | Drain
    | DrainLoad(a: Answer)
    | DrainWrite(a: Answer, t: Time)

  datatype Step =
    | Tick(now: Time)
    | Crash
    | CloseDb
    | Start
    | Recover(a: Answer)
    | List(a: Answer, ids: seq<Id>)
    | Requeue
    | Work(i: nat, w: WorkerStep)
    | Create(id: Id, key: string, request: Request)
    | Advance(c: nat, s: CallStep)
    | Stop
    | Halt(h: StopStep)

  /** A statement can take effect only while the database handle is open. */
  predicate Answerable(m: Mem, a: Answer) {
    Applied(a) ==> m.open
  }

  /** The context of worker state `w`: the manager's, and in `run` also the job's own timeout. */
  predicate ContextDone(m: Mem, w: Worker) {
    m.cancelled || (w.Busy? && w.expired)
  }

  predicate Between(lo: Time, t: Time, hi: Time) {
    lo <= t <= hi
  }

  // ----- workers: loop and run -----

  /** A read or write under a finished context fails at once, without effect; a write admitted before
      may still be applied, hence the separate steps Mark/MarkDone and Save/SaveDone. */
  ghost predicate WorkerCan(s: State, w: Worker, st: WorkerStep) {
    match st
    case Receive => w.Idle? && s.mem.chan != []
    case Exit => w.Idle? && s.mem.cancelled
    case Load(a) => w.Got? && (a == Ok ==> s.mem.open && !s.mem.cancelled && w.id in s.jobs)
    case Mark(t) => w.Loaded? && Between(w.at, t, s.clock)
    case MarkDone(a) => w.Marking? && Answerable(s.mem, a)
    case Expire => w.Busy? && !w.expired
    case ProfileFails(_) => w.Busy? && w.stage.Opening?
    case Measure(source, run, labels, _, _) =>
      && w.Busy? && w.stage.Opening?
      && source.Wf() && FanOut.Outcome(source, run) && run.first.None?
      && run.cancelled == ContextDone(s.mem, w)
      && |labels| == |run.out|
    case ReadPrevious(a, k, t, report) =>
      && w.Busy? && w.stage.Measured? && Between(w.stage.at, t, s.clock)
      && (a == Ok ==>
            && s.mem.open && !ContextDone(s.mem, w)
            && IsLatest(s.profiles, w.stage.profile.schema, w.stage.profile.table, k)
            && Drift.IsReport(s.profiles[k].profile, Evaluated(w.stage.profile, w.job.request.rules, t), report))
    case Save(_) => w.Busy? && w.stage.Ready?
    case SaveDone(a, _) => w.Busy? && w.stage.Saving? && Answerable(s.mem, a)
    case Finish(a, t) => w.Closing? && Answerable(s.mem, a) && Between(w.at, t, s.clock)
  }

  function Labelled(cols: seq<ColumnProfile>, labels: seq<(string, real)>): seq<ColumnProfile>
    requires |labels| == |cols|
  {
    seq(|cols|, i requires 0 <= i < |cols| => cols[i].(pii := labels[i].0, piiConfidence := labels[i].1))
  }

  function Evaluated(p: TableProfile, rules: Option<Rules>, t: Time): TableProfile {
    p.(quality := Quality.Report(p, rules), created := t)
  }

  function MarkedRunning(j: Job, t: Time): Job {
    j.(status := Running, error := "", started := Some(t), finished := None)
  }

  function Finished(j: Job, err: Option<string>, t: Time): Job {
    j.(status := if err.None? then Completed else Status.Failed,
       error := if err.None? then j.error else err.value,
       finished := Some(t))
  }

  function AfterProfile(s: State, w: Worker, st: WorkerStep): Worker
    requires st.Measure? && w.Busy? && |st.labels| == |st.run.out|
  {
    var p := TableProfile(w.job.request.schema, w.job.request.table, Labelled(st.run.out, st.labels),
                          st.dup, st.dupPct, QualityReport(0.0, []), None, 0);
    w.(stage := Measured(st.source, p, s.clock))
  }

  function AfterPrevious(w: Worker, st: WorkerStep): Worker
    requires st.ReadPrevious? && w.Busy? && w.stage.Measured?
  {
    var p := Evaluated(w.stage.profile, w.job.request.rules, st.t);
    var p' := if st.a == Ok then p.(drift := Some(st.report)) else p;
    w.(stage := Ready(ProfileRow(w.id, p', w.stage.source)))
  }

  /** The worker's own state after a step; `Receive` takes the head of the channel. */
  function WorkerNext(s: State, w: Worker, st: WorkerStep): Worker
    requires WorkerCan(s, w, st)
  {
    match st
    case Receive => Got(s.mem.chan[0])
    case Exit => Exited
    case Load(a) => if a == Ok then Loaded(w.id, s.jobs[w.id], s.clock) else Idle
    case Mark(t) => if s.mem.cancelled then Idle else Marking(w.id, MarkedRunning(w.job, t))
    case MarkDone(a) => if a == Ok then Busy(w.id, w.job, false, Opening) else Idle
    case Expire => w.(expired := true)
    case ProfileFails(err) => Closing(w.id, w.job, Some(err), s.clock)
    case Measure(_, _, _, _, _) => AfterProfile(s, w, st)
    case ReadPrevious(_, _, _, _) => AfterPrevious(w, st)
    case Save(err) =>
      if ContextDone(s.mem, w) then Closing(w.id, w.job, Some(err), s.clock)
      else w.(stage := Saving(w.stage.row))
    case SaveDone(a, err) => Closing(w.id, w.job, if a == Ok then None else Some(err), s.clock)
    case Finish(_, _) => Idle
  }

  function WorkerEffect(s: State, w: Worker, st: WorkerStep): State
    requires WorkerCan(s, w, st)
  {
    match st
    case Receive => s.(mem := s.mem.(chan := s.mem.chan[1..]))
    case MarkDone(a) =>
      if Applied(a) then s.(jobs := Written(s.jobs, w.id, w.job), marks := s.marks + multiset{w.id}) else s
    case SaveDone(a, _) => if Applied(a) then s.(profiles := s.profiles + [w.stage.row]) else s
    case Finish(a, t) =>
      if Applied(a) then s.(jobs := Written(s.jobs, w.id, Finished(w.job, w.err, t))) else s
    case _ => s
  }

  // ----- Create and Enqueue -----

  predicate Finds(s: State, key: string, found: Option<Id>) {
    found.Some? ==> s.mem.open && key != "" && found.value in s.jobs && s.jobs[found.value].key == key
  }

  ghost predicate CallCan(s: State, c: Call, st: CallStep) {
    match st
    case Lookup(found) => c.Asked? && Finds(s, c.ticket.key, found)
    case CheckStopped => c.Admitted?
    case Insert(a) =>
      c.Inserting? && Answerable(s.mem, a) &&
      (Applied(a) ==> c.ticket.id !in s.jobs && !KeyTaken(s.jobs, c.ticket.key))
    case Retry(found) => c.Retrying? && Finds(s, c.key, found)
    case ReadStopped => c.Inserted?
    case Send => c.Sending?
    case Reject(a, t) => c.Rejected? && Answerable(s.mem, a) && Between(c.at, t, s.clock)
  }

  function CallNext(s: State, c: Call, st: CallStep): Call
    requires CallCan(s, c, st)
  {
    match st
    case Lookup(found) => if found.Some? then Returned(found.value, c.ticket.key) else Admitted(c.ticket)
    case CheckStopped => if s.mem.stopped then Errored else Inserting(c.ticket)
    case Insert(a) =>
      if a == Ok then Inserted(c.ticket)
      else if c.ticket.key != "" then Retrying(c.ticket.key)
      else Errored
    case Retry(found) => if found.Some? then Returned(found.value, c.key) else Errored
    case ReadStopped => if s.mem.stopped then Rejected(c.ticket, s.clock) else Sending(c.ticket)
    case Send =>
      if |s.mem.chan| < CAPACITY then Returned(c.ticket.id, c.ticket.key) else Rejected(c.ticket, s.clock)
    case Reject(_, _) => Errored
  }

  function QueueFull(t: Ticket, now: Time): Job {
    t.Row().(status := Status.Failed, error := "job queue is full; retry later", finished := Some(now))
  }

  function Enqueued(m: Mem, id: Id): Mem {
    m.(chan := m.chan + [id], sent := m.sent + multiset{id})
  }

  function CallEffect(s: State, c: Call, st: CallStep): State
    requires CallCan(s, c, st)
  {
    match st
    case Insert(a) => if Applied(a) then s.(jobs := s.jobs[c.ticket.id := c.ticket.Row()]) else s
    case Send => if |s.mem.chan| < CAPACITY then s.(mem := Enqueued(s.mem, c.ticket.id)) else s
    case Reject(a, t) =>
      if Applied(a) then s.(jobs := Written(s.jobs, c.ticket.id, QueueFull(c.ticket, t))) else s
    case _ => s
  }

  // ----- Stop and failQueuedJob -----

  ghost predicate StopCan(s: State, p: Stopper, st: StopStep) {
    match st
    case Cancel => p.Signalled?
    case Wait => p.Awaiting? && forall i | 0 <= i < |s.mem.workers| :: s.mem.workers[i].Exited?
    case Drain => p.Draining?
    case DrainLoad(a) => p.Drained? && (a == Ok ==> s.mem.open && p.id in s.jobs)
    case DrainWrite(a, t) => p.DrainLoaded? && Answerable(s.mem, a) && Between(p.at, t, s.clock)
  }

  function ShutDown(j: Job, t: Time): Job {
    j.(status := Status.Failed, error := "job cancelled during profiler shutdown", finished := Some(t))
  }

  function StopNext(s: State, p: Stopper, st: StopStep): Stopper
    requires StopCan(s, p, st)
  {
    match st
    case Cancel => Awaiting
    case Wait => Draining
    case Drain => if s.mem.chan == [] then Stopped else Drained(s.mem.chan[0])
    case DrainLoad(a) =>
      if a == Ok && s.jobs[p.id].status == Queued then DrainLoaded(p.id, s.jobs[p.id], s.clock) else Draining
    case DrainWrite(_, _) => Draining
  }

  function StopEffect(s: State, p: Stopper, st: StopStep): State
    requires StopCan(s, p, st)
  {
    match st
    case Cancel => s.(mem := s.mem.(cancelled := true))
    case Drain => if s.mem.chan == [] then s else s.(mem := s.mem.(chan := s.mem.chan[1..]))
    case DrainWrite(a, t) => if Applied(a) then s.(jobs := Written(s.jobs, p.id, ShutDown(p.job, t))) else s
    case _ => s
  }

  // ----- Start -----

  /** One round of Start's loop over the listed jobs; when there is none left, or Enqueue fails, the
      workers are spawned. */
  function RequeueNext(s: State): Mem
    requires s.mem.boot.Requeueing?
  {
    var m := s.mem;
    var pending := m.boot.pending;
    if pending == [] then m.(boot := Up, workers := seq(s.workers, i => Idle))
    else if m.stopped || |m.chan| >= CAPACITY then m.(boot := Requeueing([]))
    else Enqueued(m, pending[0]).(boot := Requeueing(pending[1..]))
  }

  // ----- the step relation -----

  ghost predicate Enabled(s: State, st: Step) {
    match st
    case Tick(now) => s.clock <= now
    case Crash => true
    case CloseDb => s.mem.boot.Up?
    case Start => s.mem.started || s.mem.boot.Down?
    case Recover(a) => s.mem.boot.Recovering? && Answerable(s.mem, a)
    case List(a, ids) => s.mem.boot.Listing? && (a == Ok ==> s.mem.open && OldestQueued(s.jobs, CAPACITY, ids))
    case Requeue => s.mem.boot.Requeueing?
    case Work(i, w) => i < |s.mem.workers| && WorkerCan(s, s.mem.workers[i], w)
    case Create(id, _, _) => s.mem.boot.Up? && id !in s.issued
    case Advance(c, cs) => c < |s.mem.calls| && CallCan(s, s.mem.calls[c], cs)
    case Stop => s.mem.boot.Up?
    case Halt(h) => StopCan(s, s.mem.stop, h)
  }

  function SetWorker(s: State, i: nat, w: Worker): State
    requires i < |s.mem.workers|
  {
    s.(mem := s.mem.(workers := s.mem.workers[i := w]))
  }

  function SetCall(s: State, c: nat, call: Call): State
    requires c < |s.mem.calls|
  {
    s.(mem := s.mem.(calls := s.mem.calls[c := call]))
  }

  function Next(s: State, st: Step): State
    requires Enabled(s, st)
  {
    var m := s.mem;
    match st
    case Tick(now) => s.(clock := now)
    case Crash => s.(mem := FRESH)
    case CloseDb => s.(mem := m.(open := false))
    case Start => if m.started then s else s.(mem := m.(boot := Recovering, started := true, stopped := false))
    case Recover(a) =>
      var s' := if Applied(a) then s.(jobs := Recovered(s.jobs, s.clock, s.staleAfter)) else s;
      s'.(mem := m.(boot := Listing))
    case List(a, ids) => s.(mem := m.(boot := Requeueing(if a == Ok then ids else [])))
    case Requeue => s.(mem := RequeueNext(s))
    case Work(i, w) => SetWorker(WorkerEffect(s, m.workers[i], w), i, WorkerNext(s, m.workers[i], w))
    case Create(id, key, request) =>
      s.(issued := s.issued + {id},
         mem := m.(calls := m.calls + [Asked(Ticket(id, key, request, s.clock))]))
    case Advance(c, cs) => SetCall(CallEffect(s, m.calls[c], cs), c, CallNext(s, m.calls[c], cs))
    case Stop => if !m.started || m.stopped then s else s.(mem := m.(stopped := true, stop := Signalled))
    case Halt(h) =>
      var s' := StopEffect(s, m.stop, h);
      s'.(mem := s'.mem.(stop := StopNext(s, m.stop, h)))
  }

  // ----- runs -----

  ghost predicate Valid(s: State, steps: seq<Step>)
    decreases |steps|
  {
    steps == [] || (Enabled(s, steps[0]) && Valid(Next(s, steps[0]), steps[1..]))
  }

  ghost function End(s: State, steps: seq<Step>): State
    requires Valid(s, steps)
    decreases |steps|
  {
    if steps == [] then s else End(Next(s, steps[0]), steps[1..])
  }

  ghost predicate Reaches(s: State, t: State) {
    exists steps :: Valid(s, steps) && End(s, steps) == t
  }

  /** Some run of some deployment, restarts included, arrives at `s`. */
  ghost predicate Reachable(s: State) {
    exists n, after, clock :: Reaches(Init(n, after, clock), s)
  }

  lemma {:induction false} RunsCompose(s: State, xs: seq<Step>, ys: seq<Step>)
    requires Valid(s, xs) && Valid(End(s, xs), ys)
    ensures Valid(s, xs + ys) && End(s, xs + ys) == End(End(s, xs), ys)
    decreases |xs|
  {
    if xs == [] {
      assert xs + ys == ys;
    } else {
      RunsCompose(Next(s, xs[0]), xs[1..], ys);
      assert (xs + ys)[1..] == xs[1..] + ys;
    }
  }

  lemma ReachesStep(s: State, t: State, st: Step)
    requires Reaches(s, t) && Enabled(t, st)
    ensures Reaches(s, Next(t, st))
  {
    var steps :| Valid(s, steps) && End(s, steps) == t;
    var one := [st];
    assert one[1..] == [];
    assert Valid(Next(t, st), one[1..]) && End(Next(t, st), one[1..]) == Next(t, st);
    assert Valid(t, one) && End(t, one) == Next(t, st);
    RunsCompose(s, steps, one);
  }

  lemma ReachesSelf(s: State)
    ensures Reaches(s, s)
  {
    assert Valid(s, []) && End(s, []) == s;
  }
}
