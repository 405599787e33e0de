/** What the rows say: where their error texts come from, whose request they carry, and what their
    snapshots are scored with, over every run. */
module Contents {
  import opened Domain
  import opened Tables
  import opened Protocol
  import opened Ownership
  import opened Lifecycle
  import Quality

  // ----- error texts -----

  /** The error a worker gets in this step, with the job it gets it for: profiling fails, the context is done
      before the save, or the save is not acknowledged. */
  function ErrorIn(s: State, st: Step): set<(Id, string)> {
    if !st.Work? || st.i >= |s.mem.workers| || s.mem.workers[st.i].Holding().None? then {}
    else
      var w := s.mem.workers[st.i];
      match st.w
      case ProfileFails(err) => {(w.Holding().value, err)}
      case Save(err) => if ContextDone(s.mem, w) then {(w.Holding().value, err)} else {}
      case SaveDone(a, err) => if a != Ok then {(w.Holding().value, err)} else {}
      case _ => {}
  }

  ghost function ErrorsIn(s: State, steps: seq<Step>): set<(Id, string)>
    requires Valid(s, steps)
    decreases |steps|
  {
    if steps == [] then {} else ErrorIn(s, steps[0]) + ErrorsIn(Next(s, steps[0]), steps[1..])
  }

  /** The text fits the status; `got` holds the errors that workers got. */
  predicate TextOk(id: Id, j: Job, got: set<(Id, string)>) {
    match j.status
    case Queued => j.error == "" || j.error == "recovered after profiler restart"
    case Running => j.error == ""
    case Completed => j.error == ""
    case Failed =>
      || j.error == "job queue is full; retry later"
      || j.error == "job cancelled during profiler shutdown"
      || (id, j.error) in got
  }

  predicate WorkerTextOk(w: Worker, got: set<(Id, string)>) {
    match w
    case Marking(_, job) => job.error == ""
    case Closing(id, _, err, _) => err.Some? ==> (id, err.value) in got
    case _ => true
  }

  predicate TextsOk(s: State, got: set<(Id, string)>) {
    && (forall id | id in s.jobs :: TextOk(id, s.jobs[id], got))
    && (forall i | 0 <= i < |s.mem.workers| :: WorkerTextOk(s.mem.workers[i], got))
  }

  lemma WorkerText(s: State, i: nat, w: WorkerStep, got: set<(Id, string)>)
    requires Enabled(s, Work(i, w)) && WorkerTextOk(s.mem.workers[i], got)
    ensures WorkerTextOk(WorkerNext(s, s.mem.workers[i], w), got + ErrorIn(s, Work(i, w)))
  {
  }

  lemma WorkerRowText(s: State, i: nat, w: WorkerStep, got: set<(Id, string)>, id: Id)
    requires Enabled(s, Work(i, w)) && WorkerTextOk(s.mem.workers[i], got)
    requires WorkerOk(s.jobs, s.clock, s.mem.workers[i])
    requires id in s.jobs && TextOk(id, s.jobs[id], got)
    ensures id in Next(s, Work(i, w)).jobs && TextOk(id, Next(s, Work(i, w)).jobs[id], got)
  {
  }

  lemma WorkTexts(s: State, i: nat, w: WorkerStep, got: set<(Id, string)>)
    requires Facts(s) && TextsOk(s, got) && Enabled(s, Work(i, w))
    ensures TextsOk(Next(s, Work(i, w)), got + ErrorIn(s, Work(i, w)))
  {
    var s' := Next(s, Work(i, w));
    assert PlaceOk(s.jobs, s.clock, s.mem, AtWorker(i));
    assert s'.mem.workers == s.mem.workers[i := WorkerNext(s, s.mem.workers[i], w)];
    WorkerText(s, i, w, got);
    forall id | id in s'.jobs ensures TextOk(id, s'.jobs[id], got) { WorkerRowText(s, i, w, got, id); }
  }

  lemma CallTexts(s: State, c: nat, cs: CallStep, got: set<(Id, string)>)
    requires TextsOk(s, got) && Enabled(s, Advance(c, cs))
    ensures TextsOk(Next(s, Advance(c, cs)), got)
  {
    CallMem(s, c, cs);
  }

  lemma StopTexts(s: State, h: StopStep, got: set<(Id, string)>)
    requires TextsOk(s, got) && Enabled(s, Halt(h))
    ensures TextsOk(Next(s, Halt(h)), got)
  {
  }

  lemma OtherTexts(s: State, st: Step, got: set<(Id, string)>)
    requires TextsOk(s, got) && Enabled(s, st) && !st.Work? && !st.Advance? && !st.Halt?
    ensures TextsOk(Next(s, st), got)
  {
  }

  lemma TextsStep(s: State, st: Step, got: set<(Id, string)>)
    requires Facts(s) && TextsOk(s, got) && Enabled(s, st)
    ensures TextsOk(Next(s, st), got + ErrorIn(s, st))
  {
    match st
    case Work(i, w) => WorkTexts(s, i, w, got);
    case Advance(c, cs) => CallTexts(s, c, cs, got);
    case Halt(h) => StopTexts(s, h, got);
    case _ => OtherTexts(s, st, got);
  }

  lemma {:induction false} TextsRun(s: State, steps: seq<Step>, got: set<(Id, string)>)
    requires Inv(s) && TextsOk(s, got) && Valid(s, steps)
    ensures TextsOk(End(s, steps), got + ErrorsIn(s, steps))
    decreases |steps|
  {
    if steps == [] {
      assert got + {} == got;
    } else {
      TextsStep(s, steps[0], got);
      InvStep(s, steps[0]);
      TextsRun(Next(s, steps[0]), steps[1..], got + ErrorIn(s, steps[0]));
      assert got + ErrorIn(s, steps[0]) + ErrorsIn(Next(s, steps[0]), steps[1..]) == got + ErrorsIn(s, steps);
    }
  }

  /** Where error texts come from. Over every run from an empty database: running and completed rows carry none;
      a queued row carries none or the text of the recovery; a failed row carries the text of the full queue,
      that of the shutdown, or the very error that a worker got in this run for this job. */
  lemma ErrorsExplained(workers: int, after: int, clock: Time, steps: seq<Step>, id: Id)
    requires Valid(Init(workers, after, clock), steps) && id in End(Init(workers, after, clock), steps).jobs
    ensures TextOk(id, End(Init(workers, after, clock), steps).jobs[id],
                   ErrorsIn(Init(workers, after, clock), steps))
  {
    var s := Init(workers, after, clock);
    TextsRun(s, steps, {});
    assert {} + ErrorsIn(s, steps) == ErrorsIn(s, steps);
  }

  // ----- requests -----

  /** Whatever carries the id carries what its Create call was given. */
  ghost predicate Bound(s: State, t: Ticket) {
    && t.id in s.issued
    && (t.id in s.jobs ==>
          var j := s.jobs[t.id]; j.request == t.request && j.key == t.key && j.created == t.created)
    && (forall c | 0 <= c < |s.mem.calls| && s.mem.calls[c].Holding() == Some(t.id) :: s.mem.calls[c].ticket == t)
  }

  lemma BoundAdvance(s: State, c: nat, cs: CallStep, t: Ticket)
    requires Bound(s, t) && Enabled(s, Advance(c, cs))
    ensures Bound(Next(s, Advance(c, cs)), t)
  {
    CallMem(s, c, cs);
    assert CallNext(s, s.mem.calls[c], cs).Holding() == Some(t.id) ==> s.mem.calls[c].Holding() == Some(t.id);
  }

  lemma BoundElse(s: State, st: Step, t: Ticket)
    requires Inv(s) && Bound(s, t) && Enabled(s, st) && !st.Advance?
    ensures Bound(Next(s, st), t)
  {
    CallsElse(s, st, t.id);
    if t.id in s.jobs { RowPersists(s, st, t.id); }
  }

  lemma CallsElse(s: State, st: Step, id: Id)
    requires Shape(s) && Enabled(s, st) && !st.Advance? && id in s.issued
    ensures var s' := Next(s, st);
            && s.issued <= s'.issued && (id in s'.jobs ==> id in s.jobs)
            && (forall c | 0 <= c < |s'.mem.calls| && s'.mem.calls[c].Holding() == Some(id) ::
                  c < |s.mem.calls| && s'.mem.calls[c] == s.mem.calls[c])
  {
    if st.Work? && !st.w.Receive? { WorkMem(s, st.i, st.w); }
  }

  lemma {:induction false} BoundRun(s: State, steps: seq<Step>, t: Ticket)
    requires Inv(s) && Bound(s, t) && Valid(s, steps)
    ensures Bound(End(s, steps), t) && Inv(End(s, steps))
    decreases |steps|
  {
    if steps != [] {
      if steps[0].Advance? { BoundAdvance(s, steps[0].c, steps[0].s, t); } else { BoundElse(s, steps[0], t); }
      InvStep(s, steps[0]);
      BoundRun(Next(s, steps[0]), steps[1..], t);
    }
  }

  lemma CreateBinds(s: State, id: Id, key: string, request: Request)
    requires Inv(s) && Enabled(s, Create(id, key, request))
    ensures Inv(Next(s, Create(id, key, request)))
    ensures Bound(Next(s, Create(id, key, request)), Ticket(id, key, request, s.clock))
  {
    InvStep(s, Create(id, key, request));
    forall c | 0 <= c < |s.mem.calls| ensures s.mem.calls[c].Holding() != Some(id) {
      assert Holds(s.mem, AtCall(c), id) ==> id in s.issued;
    }
  }

  /** Every job is the one that was asked for. In every state after a Create call, on whatever side of a
      restart, the row of its id, once inserted, holds exactly the request, the key and the creation time of
      that call, and so does the job in the hands of the worker that runs it. */
  lemma RowsAsRequested(s: State, id: Id, key: string, request: Request, steps: seq<Step>)
    requires Reachable(s) && Enabled(s, Create(id, key, request))
    requires Valid(Next(s, Create(id, key, request)), steps)
    ensures var u := End(Next(s, Create(id, key, request)), steps);
            && (id in u.jobs ==>
                  u.jobs[id].request == request && u.jobs[id].key == key && u.jobs[id].created == s.clock)
            && (forall i | 0 <= i < |u.mem.workers| && u.mem.workers[i].Holding() == Some(id)
                           && !u.mem.workers[i].Got? ::
                  u.mem.workers[i].job.request == request && u.mem.workers[i].job.key == key)
  {
    ReachableInv(s);
    CreateBinds(s, id, key, request);
    BoundRun(Next(s, Create(id, key, request)), steps, Ticket(id, key, request, s.clock));
    var u := End(Next(s, Create(id, key, request)), steps);
    forall i | 0 <= i < |u.mem.workers| && u.mem.workers[i].Holding() == Some(id) && !u.mem.workers[i].Got?
      ensures u.mem.workers[i].job.request == request && u.mem.workers[i].job.key == key
    {
      assert PlaceOk(u.jobs, u.clock, u.mem, AtWorker(i));
    }
  }

  /** The row as it is inserted, column by column. */
  lemma InsertedRow(s: State, c: nat, a: Answer)
    requires Enabled(s, Advance(c, Insert(a))) && Applied(a)
    ensures var t := s.mem.calls[c].ticket;
            Next(s, Advance(c, Insert(a))).jobs ==
            s.jobs[t.id := Job(Queued, "", t.request, t.key, t.created, None, None)]
  {
  }

  // ----- what snapshots are scored with -----

  /** The profile is of the requested table and carries the report on itself under the requested rules. */
  predicate ScoredFor(p: TableProfile, request: Request) {
    p.schema == request.schema && p.table == request.table && p.quality == Quality.Report(p, request.rules)
  }

  predicate WorkerScored(w: Worker) {
    w.Busy? ==>
      match w.stage
      case Opening => true
      case Measured(_, p, _) => p.schema == w.job.request.schema && p.table == w.job.request.table
      case Ready(r) => r.job == w.id && ScoredFor(r.profile, w.job.request)
      case Saving(r) => r.job == w.id && ScoredFor(r.profile, w.job.request)
  }

  predicate ScoredOk(s: State) {
    && (forall k | 0 <= k < |s.profiles| ::
          s.profiles[k].job in s.jobs && ScoredFor(s.profiles[k].profile, s.jobs[s.profiles[k].job].request))
    && (forall i | 0 <= i < |s.mem.workers| :: WorkerScored(s.mem.workers[i]))
  }

  lemma AppraisedIsScored(w: Worker, st: WorkerStep)
    requires w.Busy? && w.stage.Measured? && st.ReadPrevious? && WorkerScored(w)
    ensures WorkerScored(AfterPrevious(w, st))
  {
    var p, rules := w.stage.profile, w.job.request.rules;
    Quality.ReportOnlyReads(p, AfterPrevious(w, st).stage.row.profile, rules);
  }

  lemma WorkerScoredNext(s: State, w: Worker, st: WorkerStep)
    requires WorkerCan(s, w, st) && WorkerScored(w)
    ensures WorkerScored(WorkerNext(s, w, st))
  {
    if st.ReadPrevious? { AppraisedIsScored(w, st); }
  }

  lemma ScoredWork(s: State, i: nat, w: WorkerStep)
    requires Inv(s) && ScoredOk(s) && Enabled(s, Work(i, w))
    ensures ScoredOk(Next(s, Work(i, w)))
  {
    var s' := Next(s, Work(i, w));
    WorkerScoredNext(s, s.mem.workers[i], w);
    assert s'.mem.workers == s.mem.workers[i := WorkerNext(s, s.mem.workers[i], w)];
    assert PlaceOk(s.jobs, s.clock, s.mem, AtWorker(i));
    forall k | 0 <= k < |s'.profiles|
      ensures s'.profiles[k].job in s'.jobs
              && ScoredFor(s'.profiles[k].profile, s'.jobs[s'.profiles[k].job].request)
    {
      RowPersists(s, Work(i, w), s'.profiles[k].job);
    }
  }

  lemma ScoredElse(s: State, st: Step)
    requires Inv(s) && ScoredOk(s) && Enabled(s, st) && !st.Work?
    ensures ScoredOk(Next(s, st))
  {
    var s' := Next(s, st);
    OtherSteps(s, st);
    forall k | 0 <= k < |s'.profiles|
      ensures s'.profiles[k].job in s'.jobs
              && ScoredFor(s'.profiles[k].profile, s'.jobs[s'.profiles[k].job].request)
    {
      RowPersists(s, st, s'.profiles[k].job);
    }
  }

  lemma {:induction false} ScoredRun(s: State, steps: seq<Step>)
    requires Inv(s) && ScoredOk(s) && Valid(s, steps)
    ensures ScoredOk(End(s, steps))
    decreases |steps|
  {
    if steps != [] {
      if steps[0].Work? { ScoredWork(s, steps[0].i, steps[0].w); } else { ScoredElse(s, steps[0]); }
      InvStep(s, steps[0]);
      ScoredRun(Next(s, steps[0]), steps[1..]);
    }
  }

  lemma ScoredReachable(s: State)
    requires Reachable(s)
    ensures ScoredOk(s)
  {
    var n, after, clock :| Reaches(Init(n, after, clock), s);
    var steps :| Valid(Init(n, after, clock), steps) && End(Init(n, after, clock), steps) == s;
    ScoredRun(Init(n, after, clock), steps);
  }

  /** Every snapshot of a job, whenever and by whichever process it is saved, is of the table its Create call
      named, and its quality report is that of its own columns under the rules of that call. */
  lemma SnapshotsAsRequested(s: State, id: Id, key: string, request: Request, steps: seq<Step>, k: nat)
    requires Reachable(s) && Enabled(s, Create(id, key, request))
    requires Valid(Next(s, Create(id, key, request)), steps)
    requires var u := End(Next(s, Create(id, key, request)), steps); k < |u.profiles| && u.profiles[k].job == id
    ensures var p := End(Next(s, Create(id, key, request)), steps).profiles[k].profile;
            p.schema == request.schema && p.table == request.table && p.quality == Quality.Report(p, request.rules)
  {
    RowsAsRequested(s, id, key, request, steps);
    ScoredReachable(s);
    ReachableInv(s);
    InvStep(s, Create(id, key, request));
    ScoredElse(s, Create(id, key, request));
    ScoredRun(Next(s, Create(id, key, request)), steps);
  }

  // ----- configuration -----

  lemma {:induction false} SettingsStay(s: State, steps: seq<Step>)
    requires Valid(s, steps)
    ensures End(s, steps).workers == s.workers && End(s, steps).staleAfter == s.staleAfter
    decreases |steps|
  {
    if steps != [] {
      SettingsStay(Next(s, steps[0]), steps[1..]);
    }
  }

  /** In every state of every run the settings are those of NewManager: at least one worker, half an hour (in
      seconds) where no threshold is given; a serving process has that many workers, and its channel at most
      1000 ids. */
  lemma AsConfigured(workers: int, after: int, clock: Time, steps: seq<Step>)
    requires Valid(Init(workers, after, clock), steps)
    ensures var t := End(Init(workers, after, clock), steps);
            && t.workers == (if workers >= 1 then workers else 1)
            && t.staleAfter == (if after > 0 then after else 1800)
            && (t.mem.boot.Up? ==> |t.mem.workers| == t.workers)
            && |t.mem.chan| <= 1000
  {
    SettingsStay(Init(workers, after, clock), steps);
    InvRun(Init(workers, after, clock), steps);
  }
}
