/** The worker pool gets its work done, and Stop gets to its end. */
module Progress {
  import opened Domain
  import opened Tables
  import opened Protocol
  import opened Ownership
  import opened Lifecycle
  import opened Recovery
  import opened Orphans

  // ----- a measure that every worker step lowers -----

  function Weight(w: Worker): nat {
    match w
    case Idle => 0
    case Exited => 0
    case Closing(_, _, _, _) => 1
    case Busy(_, _, expired, stage) =>
      (match stage
       case Saving(_) => 2
       case Ready(_) => 4
       case Measured(_, _, _) => 6
       case Opening => 8) + (if expired then 0 else 1)
    case Marking(_, _) => 10
    case Loaded(_, _, _) => 11
    case Got(_) => 12
  }

  function Weights(ws: seq<Worker>): nat {
    if ws == [] then 0 else Weight(ws[0]) + Weights(ws[1..])
  }

  lemma {:induction false} WeightsUpdate(ws: seq<Worker>, i: nat, w: Worker)
    requires i < |ws|
    ensures Weights(ws[i := w]) == Weights(ws) - Weight(ws[i]) + Weight(w)
  {
    if i == 0 {
      assert ws[0 := w][1..] == ws[1..];
    } else {
      assert ws[i := w][1..] == ws[1..][i - 1 := w];
      WeightsUpdate(ws[1..], i - 1, w);
    }
  }

  /** An upper bound on the number of worker steps still to come. */
  function Remaining(m: Mem): nat {
    13 * |m.chan| + Weights(m.workers)
  }

  lemma WorkLowers(s: State, i: nat, w: WorkerStep)
    requires Enabled(s, Work(i, w)) && !w.Exit?
    ensures Remaining(Next(s, Work(i, w)).mem) < Remaining(s.mem)
  {
    WeightsUpdate(s.mem.workers, i, WorkerNext(s, s.mem.workers[i], w));
  }

  // ----- what is owed to the table -----

  /** Two status writes for a queued row, one for a running row. */
  function Owed(jobs: Jobs, left: set<Id>): nat {
    2 * |QueuedIds(jobs) - left| + |RunningIds(jobs) - left|
  }

  lemma OwedAfter(jobs: Jobs, jobs': Jobs, left: set<Id>, x: Id)
    requires x in jobs && jobs'.Keys == jobs.Keys && (forall id | id in jobs && id != x :: jobs'[id] == jobs[id])
    requires (jobs[x].status == Queued && jobs'[x].status == Running) ||
             (jobs[x].status == Running && Terminal(jobs'[x]))
    requires x !in left
    ensures Owed(jobs', left) == Owed(jobs, left) - 1
  {
    if jobs[x].status == Queued {
      OneMore(QueuedIds(jobs') - left, QueuedIds(jobs) - left, x);
      OneMore(RunningIds(jobs) - left, RunningIds(jobs') - left, x);
    } else {
      assert QueuedIds(jobs) == QueuedIds(jobs');
      OneMore(RunningIds(jobs') - left, RunningIds(jobs) - left, x);
    }
  }

  lemma OneMore(a: set<Id>, b: set<Id>, x: Id)
    requires x !in a && x in b && forall id | id != x :: id in a <==> id in b
    ensures |b| == |a| + 1
  {
    assert b == a + {x};
  }

  /** Every row that is not finished is held by someone, save those in `left`, which nobody holds. */
  ghost predicate Accounted(s: State, left: set<Id>) {
    forall id :: Adrift(s, id) <==> id in left
  }

  predicate Settled(m: Mem) {
    forall c | 0 <= c < |m.calls| :: m.calls[c].Holding().None? && !m.calls[c].Retrying?
  }

  /** The serving process with no Create call in flight. */
  ghost predicate Serving(s: State, left: set<Id>) {
    Inv(s) && Accounted(s, left) && s.mem.boot.Up? && !s.mem.stopped && s.mem.open && Settled(s.mem)
  }

  /** A worker step, every statement of which succeeds. Profiling itself may fail or time out. */
  ghost predicate WorkStep(s: State, st: Step) {
    st.Work? && Calm(s, st) && Enabled(s, st)
  }

  predicate WritesStatus(st: Step) {
    st.Work? && (st.w.MarkDone? || st.w.Finish?)
  }

  /** A calm status write moves the row one step on towards its end. */
  lemma MovesOn(s: State, i: nat, w: WorkerStep)
    requires Inv(s) && WorkStep(s, Work(i, w)) && WritesStatus(Work(i, w))
    ensures var x, jobs, jobs' := s.mem.workers[i].id, s.jobs, Next(s, Work(i, w)).jobs;
            && Held(s.mem, x) && x in jobs && jobs'.Keys == jobs.Keys
            && (forall id | id in jobs && id != x :: jobs'[id] == jobs[id])
            && ((jobs[x].status == Queued && jobs'[x].status == Running) ||
                (jobs[x].status == Running && Terminal(jobs'[x])))
  {
    assert PlaceOk(s.jobs, s.clock, s.mem, AtWorker(i));
    assert Holds(s.mem, AtWorker(i), s.mem.workers[i].id);
  }

  /** It pays off one unit of what is owed. */
  lemma OwedStep(s: State, left: set<Id>, i: nat, w: WorkerStep)
    requires Inv(s) && Accounted(s, left) && WorkStep(s, Work(i, w))
    ensures Owed(Next(s, Work(i, w)).jobs, left) ==
            Owed(s.jobs, left) - (if WritesStatus(Work(i, w)) then 1 else 0)
  {
    if WritesStatus(Work(i, w)) {
      MovesOn(s, i, w);
      OwedAfter(s.jobs, Next(s, Work(i, w)).jobs, left, s.mem.workers[i].id);
    }
  }

  // ----- nobody lets go of an unfinished job -----

  /** A calm step of anyone, Create calls included, keeps account of every unfinished row. */
  lemma AccountStep(s: State, left: set<Id>, st: Step)
    requires Inv(s) && Fits(s) && HasListed(s) && !s.mem.stopped && Accounted(s, left)
    requires Enabled(s, st) && Calm(s, st)
    ensures Accounted(Next(s, st), left)
  {
    forall id ensures Adrift(Next(s, st), id) <==> id in left {
      CalmDropsNothing(s, st, id);
      AdriftStep(s, st, id);
    }
  }

  /** A process that has listed its jobs, and to which nothing bad has happened. */
  ghost predicate Working(s: State, left: set<Id>) {
    Inv(s) && Fits(s) && HasListed(s) && !s.mem.stopped && s.mem.open && Accounted(s, left)
  }

  lemma WorkingStep(s: State, left: set<Id>, st: Step)
    requires Working(s, left) && Enabled(s, st) && Calm(s, st)
    ensures Working(Next(s, st), left)
  {
    AccountStep(s, left, st);
    InvStep(s, st);
    FitsStep(s, st);
    StaysListed(s, st);
    CalmFlags(s, st);
  }

  lemma CalmFlags(s: State, st: Step)
    requires Enabled(s, st) && Calm(s, st) && !s.mem.stopped && s.mem.open
    ensures !Next(s, st).mem.stopped && Next(s, st).mem.open
  {
  }

  lemma {:induction false} WorkingRun(s: State, left: set<Id>, steps: seq<Step>)
    requires Working(s, left) && Valid(s, steps) && CalmRun(s, steps)
    ensures Working(End(s, steps), left)
    decreases |steps|
  {
    if steps != [] {
      WorkingStep(s, left, steps[0]);
      WorkingRun(Next(s, steps[0]), left, steps[1..]);
    }
  }

  lemma ListingAccounts(s: State, ids: seq<Id>)
    requires Reachable(s) && Enabled(s, List(Ok, ids))
    ensures Working(Next(s, List(Ok, ids)), PassedOver(s, Ok, ids))
  {
    ReachableInv(s);
    Listed(s, Ok, ids);
  }

  // ----- the workers get everything done that is held -----

  lemma ServingStep(s: State, left: set<Id>, st: Step)
    requires Serving(s, left) && WorkStep(s, st)
    ensures Serving(Next(s, st), left)
  {
    AccountStep(s, left, st);
    InvStep(s, st);
    ServingMem(s, st.i, st.w);
  }

  lemma ServingMem(s: State, i: nat, w: WorkerStep)
    requires Enabled(s, Work(i, w))
    ensures var s' := Next(s, Work(i, w));
            s'.mem == s.mem.(workers := s'.mem.workers, chan := s'.mem.chan) && s'.jobs.Keys == s.jobs.Keys
  {
  }

  /** What a worker that is not idle does next when everything works. */
  function Obvious(s: State, w: Worker): WorkerStep {
    match w
    case Idle => Receive
    case Exited => Receive
    case Got(_) => Load(Ok)
    case Loaded(_, _, at) => Mark(at)
    case Marking(_, _) => MarkDone(Ok)
    case Closing(_, _, _, at) => Finish(Ok, at)
    case Busy(_, _, _, stage) =>
      match stage
      case Opening => ProfileFails("")
      case Measured(_, _, at) => ReadPrevious(Refused, 0, at, DriftReport(false, 0.0, []))
      case Ready(_) => Save("")
      case Saving(_) => SaveDone(Ok, "")
  }

  lemma WorkerMoves(s: State, i: nat)
    requires Inv(s) && StampsPast(s) && s.mem.open && !s.mem.cancelled
    requires i < |s.mem.workers| && !s.mem.workers[i].Exited? && (s.mem.workers[i].Idle? ==> s.mem.chan != [])
    ensures WorkStep(s, Work(i, Obvious(s, s.mem.workers[i])))
  {
    assert PlaceOk(s.jobs, s.clock, s.mem, AtWorker(i));
  }

  /** As long as a row that is not left out is unfinished some worker can make a step. */
  lemma SomeWorkerMoves(s: State, left: set<Id>, id: Id) returns (st: Step)
    requires Serving(s, left) && StampsPast(s) && id in s.jobs && !Terminal(s.jobs[id]) && id !in left
    ensures WorkStep(s, st)
  {
    var p :| Holds(s.mem, p, id);
    var i := if p.AtWorker? then p.i else 0;
    assert p.AtWorker? || p == InChannel;
    WorkerMoves(s, i);
    st := Work(i, Obvious(s, s.mem.workers[i]));
  }

  /** A time noted by a worker lies in the past. */
  predicate StampsPast(s: State) {
    forall i | 0 <= i < |s.mem.workers| ::
      s.mem.workers[i].Busy? && s.mem.workers[i].stage.Measured? ==> s.mem.workers[i].stage.at <= s.clock
  }

  lemma StampsStep(s: State, st: Step)
    requires StampsPast(s) && Enabled(s, st)
    ensures StampsPast(Next(s, st))
  {
    if st.Work? {
      StampsWork(s, st.i, st.w);
    } else {
      OtherSteps(s, st);
    }
  }

  lemma StampsWork(s: State, i: nat, w: WorkerStep)
    requires StampsPast(s) && Enabled(s, Work(i, w))
    ensures StampsPast(Next(s, Work(i, w)))
  {
  }

  lemma {:induction false} StampsRun(s: State, steps: seq<Step>)
    requires StampsPast(s) && Valid(s, steps)
    ensures StampsPast(End(s, steps))
    decreases |steps|
  {
    if steps != [] {
      StampsStep(s, steps[0]);
      StampsRun(Next(s, steps[0]), steps[1..]);
    }
  }

  ghost predicate WorkRun(s: State, steps: seq<Step>)
    requires Valid(s, steps)
    decreases |steps|
  {
    steps == [] || (WorkStep(s, steps[0]) && WorkRun(Next(s, steps[0]), steps[1..]))
  }

  function StatusWrites(steps: seq<Step>): nat {
    if steps == [] then 0 else (if WritesStatus(steps[0]) then 1 else 0) + StatusWrites(steps[1..])
  }

  lemma {:induction false} WorkRuns(s: State, left: set<Id>, steps: seq<Step>)
    requires Serving(s, left) && StampsPast(s) && Valid(s, steps) && WorkRun(s, steps)
    ensures Serving(End(s, steps), left) && StampsPast(End(s, steps))
    ensures Owed(s.jobs, left) == StatusWrites(steps) + Owed(End(s, steps).jobs, left)
    ensures |steps| + Remaining(End(s, steps).mem) <= Remaining(s.mem)
    decreases |steps|
  {
    if steps != [] {
      ServingStep(s, left, steps[0]);
      OwedStep(s, left, steps[0].i, steps[0].w);
      WorkLowers(s, steps[0].i, steps[0].w);
      StampsStep(s, steps[0]);
      WorkRuns(Next(s, steps[0]), left, steps[1..]);
    }
  }

  /** Everything but what the listing passed over is completed or failed. */
  predicate AllDone(s: State, left: set<Id>) {
    forall id | id in s.jobs :: Terminal(s.jobs[id]) <==> id !in left
  }

  /** Progress. Take any process, whatever tables it found, from its listing on, and any calm run of it, in
      which Create calls come and go as they like, up to a moment when none is in flight. From there on,
      whatever order the workers run in: the run is finite; it can go on until every job the process has
      taken on or accepted is completed or failed; and it has come there exactly when two status writes
      were made for each such row that was queued and one for each that was running. */
  lemma AllAcceptedJobsFinish(s: State, ids: seq<Id>, before: seq<Step>, steps: seq<Step>)
    requires Reachable(s) && Enabled(s, List(Ok, ids))
    requires Valid(Next(s, List(Ok, ids)), before) && CalmRun(Next(s, List(Ok, ids)), before)
    requires var u := End(Next(s, List(Ok, ids)), before);
             u.mem.boot.Up? && Settled(u.mem) && Valid(u, steps) && WorkRun(u, steps)
    ensures |steps| <= Remaining(End(Next(s, List(Ok, ids)), before).mem)
    ensures var u, left := End(Next(s, List(Ok, ids)), before), PassedOver(s, Ok, ids);
            AllDone(End(u, steps), left) <==>
            StatusWrites(steps) == 2 * |QueuedIds(u.jobs) - left| + |RunningIds(u.jobs) - left|
    ensures var t := End(End(Next(s, List(Ok, ids)), before), steps);
            (forall st :: !WorkStep(t, st)) ==> AllDone(t, PassedOver(s, Ok, ids))
  {
    ListingAccounts(s, ids);
    WorkingRun(Next(s, List(Ok, ids)), PassedOver(s, Ok, ids), before);
    StampsReachable(s);
    StampsStep(s, List(Ok, ids));
    StampsRun(Next(s, List(Ok, ids)), before);
    WorkFinishes(End(Next(s, List(Ok, ids)), before), PassedOver(s, Ok, ids), steps);
  }

  lemma WorkFinishes(s: State, left: set<Id>, steps: seq<Step>)
    requires Serving(s, left) && StampsPast(s) && Valid(s, steps) && WorkRun(s, steps)
    ensures |steps| <= Remaining(s.mem)
    ensures AllDone(End(s, steps), left) <==> StatusWrites(steps) == Owed(s.jobs, left)
    ensures (forall st :: !WorkStep(End(s, steps), st)) ==> AllDone(End(s, steps), left)
  {
    WorkRuns(s, left, steps);
    var t := End(s, steps);
    OwedNothing(t.jobs, left);
    if !AllDone(t, left) {
      var id :| id in t.jobs && (Terminal(t.jobs[id]) <==> id in left);
      var st := SomeWorkerMoves(t, left, id);
    }
  }

  // ----- nothing left to do -----

  /** Neither a worker nor a Create call can make a step in which the store answers. */
  ghost predicate Quiet(s: State) {
    forall st: Step | (st.Work? || st.Advance?) && Enabled(s, st) :: !Calm(s, st)
  }

  /** A Create call in flight can always go on. */
  lemma SomeCallMoves(s: State, c: nat) returns (st: Step)
    requires Inv(s) && s.mem.open && c < |s.mem.calls|
    requires s.mem.calls[c].Holding().Some? || s.mem.calls[c].Retrying?
    ensures st.Advance? && Enabled(s, st) && Calm(s, st)
  {
    var call := s.mem.calls[c];
    assert PlaceOk(s.jobs, s.clock, s.mem, AtCall(c));
    match call
    case Asked(_) => st := Advance(c, Lookup(None));
    case Admitted(_) => st := Advance(c, CheckStopped);
    case Inserting(t) => st := Advance(c, Insert(if KeyTaken(s.jobs, t.key) then Refused else Ok));
    case Retrying(_) => st := Advance(c, Retry(None));
    case Inserted(_) => st := Advance(c, ReadStopped);
    case Sending(_) => st := Advance(c, Send);
    case Rejected(_, at) => st := Advance(c, Reject(Ok, at));
  }

  lemma QuietIsDone(s: State, left: set<Id>)
    requires Working(s, left) && StampsPast(s) && s.mem.boot.Up? && Quiet(s)
    ensures AllDone(s, left) && Settled(s.mem)
  {
    if !Settled(s.mem) {
      var c :| 0 <= c < |s.mem.calls| && (s.mem.calls[c].Holding().Some? || s.mem.calls[c].Retrying?);
      var st := SomeCallMoves(s, c);
    } else if !AllDone(s, left) {
      var id :| id in s.jobs && (Terminal(s.jobs[id]) <==> id in left);
      var st := SomeWorkerMoves(s, left, id);
    }
  }

  /** Which jobs get done. Take any process from its listing on, whatever tables it found, and any calm run
      of it with any number of Create calls. When neither workers nor calls have anything left to do, a job
      is completed or failed exactly if it is not one of the unfinished rows that the listing passed over;
      in particular so is every job that a Create call of this process returned. */
  lemma FinishesExactly(s: State, ids: seq<Id>, steps: seq<Step>)
    requires Reachable(s) && Enabled(s, List(Ok, ids))
    requires Valid(Next(s, List(Ok, ids)), steps) && CalmRun(Next(s, List(Ok, ids)), steps)
    requires End(Next(s, List(Ok, ids)), steps).mem.boot.Up? && Quiet(End(Next(s, List(Ok, ids)), steps))
    ensures AllDone(End(Next(s, List(Ok, ids)), steps), PassedOver(s, Ok, ids))
    ensures Answered(End(Next(s, List(Ok, ids)), steps), PassedOver(s, Ok, ids))
  {
    var t := End(Next(s, List(Ok, ids)), steps);
    ListingAccounts(s, ids);
    WorkingRun(Next(s, List(Ok, ids)), PassedOver(s, Ok, ids), steps);
    StampsReachable(s);
    StampsStep(s, List(Ok, ids));
    StampsRun(Next(s, List(Ok, ids)), steps);
    QuietIsDone(t, PassedOver(s, Ok, ids));
    ReturnedAreDone(t, PassedOver(s, Ok, ids));
  }

  /** Every Create call that returned a job returned a finished one, unless that was left. */
  predicate Answered(s: State, left: set<Id>) {
    forall c | 0 <= c < |s.mem.calls| && s.mem.calls[c].Returned? ::
      var id := s.mem.calls[c].id; id in s.jobs && (Terminal(s.jobs[id]) <==> id !in left)
  }

  lemma ReturnedAreDone(s: State, left: set<Id>)
    requires Inv(s) && AllDone(s, left)
    ensures Answered(s, left)
  {
    forall c | 0 <= c < |s.mem.calls| && s.mem.calls[c].Returned? ensures s.mem.calls[c].id in s.jobs {
      assert PlaceOk(s.jobs, s.clock, s.mem, AtCall(c));
    }
  }

  /** How far a boot has come towards taking on every unfinished row. */
  ghost predicate TakingOn(s: State) {
    && Inv(s) && Fits(s) && !s.mem.stopped && s.mem.open
    && (s.mem.boot.Listing? ==> RunningIds(s.jobs) == {})
    && (HasListed(s) ==> Accounted(s, {}))
  }

  /** The recovery comes late enough for every running row. */
  ghost predicate LateRun(s: State, steps: seq<Step>)
    requires Valid(s, steps)
    decreases |steps|
  {
    steps == [] || ((steps[0].Recover? ==> LateEnough(s, s.clock)) && LateRun(Next(s, steps[0]), steps[1..]))
  }

  lemma NoneRunning(s: State)
    requires Inv(s) && Enabled(s, Recover(Ok)) && LateEnough(s, s.clock)
    ensures RunningIds(Next(s, Recover(Ok)).jobs) == {}
  {
    forall id | id in s.jobs ensures Next(s, Recover(Ok)).jobs[id].status != Running {
      assert RowOk(s.jobs[id], s.clock);
    }
  }

  lemma ListsAll(s: State, ids: seq<Id>)
    requires Inv(s) && Enabled(s, List(Ok, ids)) && RunningIds(s.jobs) == {} && |QueuedIds(s.jobs)| <= CAPACITY
    ensures Accounted(Next(s, List(Ok, ids)), {})
  {
    forall id | id in s.jobs && !Terminal(s.jobs[id]) ensures Held(Next(s, List(Ok, ids)).mem, id) {
      assert id !in RunningIds(s.jobs);
      CalmList(s, ids, id);
    }
  }

  lemma TakesOn(s: State, st: Step)
    requires TakingOn(s) && Enabled(s, st) && Calm(s, st)
    requires (st.List? ==> |QueuedIds(s.jobs)| <= CAPACITY) && (st.Recover? ==> LateEnough(s, s.clock))
    ensures TakingOn(Next(s, st))
  {
    InvStep(s, st);
    FitsStep(s, st);
    CalmFlags(s, st);
    if HasListed(s) {
      StaysListed(s, st);
      AccountStep(s, {}, st);
    } else if st.Recover? {
      NoneRunning(s);
    } else if st.List? {
      ListsAll(s, st.ids);
    }
  }

  lemma {:induction false} TakesOnRun(s: State, steps: seq<Step>)
    requires TakingOn(s) && Valid(s, steps) && CalmRun(s, steps) && LateRun(s, steps)
    ensures TakingOn(End(s, steps))
    decreases |steps|
  {
    if steps != [] {
      TakesOn(s, steps[0]);
      TakesOnRun(Next(s, steps[0]), steps[1..]);
    }
  }

  /** No job is forgotten. Boot a process on whatever tables earlier ones left behind, late enough for the
      rows they left running and with at most 1000 rows queued at the listing. After any calm run of it,
      with any Create calls in any interleaving, once neither workers nor calls have anything left to do,
      every job in the table and every job that Create returned is completed or failed. */
  lemma EveryJobFinishes(s: State, steps: seq<Step>)
    requires Reachable(s) && s.mem.boot.Down? && Valid(s, steps) && CalmRun(s, steps) && LateRun(s, steps)
    requires End(s, steps).mem.boot.Up? && Quiet(End(s, steps))
    ensures forall id | id in End(s, steps).jobs :: Terminal(End(s, steps).jobs[id])
    ensures Answered(End(s, steps), {})
  {
    ReachableInv(s);
    TakesOnRun(s, steps);
    StampsReachable(s);
    StampsRun(s, steps);
    QuietIsDone(End(s, steps), {});
    ReturnedAreDone(End(s, steps), {});
  }

  /** A crash in any state, then a fault-free restart with at most 1000 jobs to do: the restarted process
      holds every unfinished job. */
  lemma RestartServes(s: State, now: Time, ids: seq<Id>)
    requires Reachable(s) && LateEnough(s, now)
    requires OldestQueued(Recovered(s.jobs, now, s.staleAfter), 1000, ids)
    requires |QueuedIds(Recovered(s.jobs, now, s.staleAfter))| <= 1000
    ensures Valid(s, BootSteps(now, ids)) && Serving(End(s, BootSteps(now, ids)), {})
  {
    BootCompletes(s, now, ids);
    ReachableInv(s);
    var t := End(s, BootSteps(now, ids));
    InvRun(s, BootSteps(now, ids));
    ListedAll(t.jobs, ids);
    forall id | id in t.jobs && !Terminal(t.jobs[id]) ensures Held(t.mem, id) {
      assert id !in RunningIds(t.jobs);
      assert Holds(t.mem, InChannel, id);
    }
  }

  /** So no crash costs a job: whatever the crashed process was doing, once the workers of the restarted
      one have nothing left to do, every job that was ever accepted is completed or failed. */
  lemma RestartFinishesAll(s: State, now: Time, ids: seq<Id>, steps: seq<Step>)
    requires Reachable(s) && LateEnough(s, now)
    requires OldestQueued(Recovered(s.jobs, now, s.staleAfter), 1000, ids)
    requires |QueuedIds(Recovered(s.jobs, now, s.staleAfter))| <= 1000
    requires Valid(s, BootSteps(now, ids))
    requires Valid(End(s, BootSteps(now, ids)), steps) && WorkRun(End(s, BootSteps(now, ids)), steps)
    requires forall st :: !WorkStep(End(End(s, BootSteps(now, ids)), steps), st)
    ensures var u := End(End(s, BootSteps(now, ids)), steps);
            forall id | id in s.jobs :: id in u.jobs && SameJob(s.jobs[id], u.jobs[id]) && Terminal(u.jobs[id])
  {
    RestartServes(s, now, ids);
    ReachableInv(s);
    var t := End(s, BootSteps(now, ids));
    InvRun(s, BootSteps(now, ids));
    StampsReachable(s);
    StampsRun(s, BootSteps(now, ids));
    WorkFinishes(t, {}, steps);
    forall id | id in s.jobs
      ensures id in End(t, steps).jobs && SameJob(s.jobs[id], End(t, steps).jobs[id]) &&
              Terminal(End(t, steps).jobs[id])
    {
      RowsPersist(s, BootSteps(now, ids), id);
      RowsPersist(t, steps, id);
    }
  }

  lemma OwedNothing(jobs: Jobs, left: set<Id>)
    ensures Owed(jobs, left) == 0 <==> forall id | id in jobs && id !in left :: Terminal(jobs[id])
  {
    if forall id | id in jobs && id !in left :: Terminal(jobs[id]) {
      assert QueuedIds(jobs) - left == {} && RunningIds(jobs) - left == {};
    } else {
      var id :| id in jobs && id !in left && !Terminal(jobs[id]);
      assert id in QueuedIds(jobs) - left || id in RunningIds(jobs) - left;
    }
  }

  lemma StampsReachable(s: State)
    requires Reachable(s)
    ensures StampsPast(s)
  {
    var n, after, clock :| Reaches(Init(n, after, clock), s);
    var steps :| Valid(Init(n, after, clock), steps) && End(Init(n, after, clock), steps) == s;
    StampsRun(Init(n, after, clock), steps);
  }

  // ----- Stop -----

  /** Create calls that have read stopped == false and may still send. */
  function Senders(calls: seq<Call>): nat {
    if calls == [] then 0 else (if calls[0].Sending? then 1 else 0) + Senders(calls[1..])
  }

  lemma {:induction false} SendersUpdate(calls: seq<Call>, c: nat, x: Call)
    requires c < |calls|
    ensures Senders(calls[c := x]) ==
            Senders(calls) - (if calls[c].Sending? then 1 else 0) + (if x.Sending? then 1 else 0)
  {
    if c == 0 {
      assert calls[0 := x][1..] == calls[1..];
    } else {
      assert calls[c := x][1..] == calls[1..][c - 1 := x];
      SendersUpdate(calls[1..], c - 1, x);
    }
  }

  lemma {:induction false} SendersAppend(calls: seq<Call>, x: Call)
    requires !x.Sending?
    ensures Senders(calls + [x]) == Senders(calls)
  {
    if calls == [] {
      assert (calls + [x])[1..] == [];
    } else {
      assert (calls + [x])[1..] == calls[1..] + [x];
      SendersAppend(calls[1..], x);
    }
  }

  function Alive(ws: seq<Worker>): nat {
    if ws == [] then 0 else (if ws[0].Exited? then 0 else 1) + Alive(ws[1..])
  }

  lemma {:induction false} AliveUpdate(ws: seq<Worker>, i: nat, w: Worker)
    requires i < |ws|
    ensures Alive(ws[i := w]) == Alive(ws) - (if ws[i].Exited? then 0 else 1) + (if w.Exited? then 0 else 1)
  {
    if i == 0 {
      assert ws[0 := w][1..] == ws[1..];
    } else {
      assert ws[i := w][1..] == ws[1..][i - 1 := w];
      AliveUpdate(ws[1..], i - 1, w);
    }
  }

  function StopPhase(p: Stopper): nat {
    match p
    case NotStopping => 7
    case Signalled => 6
    case Awaiting => 5
    case Drained(_) => 3
    case DrainLoaded(_, _, _) => 2
    case Draining => 1
    case Stopped => 0
  }

  /** An upper bound on the steps of the workers and of Stop still to come once Stop was called. */
  function StopWork(m: Mem): nat {
    14 * (|m.chan| + Senders(m.calls)) + Weights(m.workers) + Alive(m.workers) + StopPhase(m.stop)
  }

  predicate ShuttingDown(st: Step) {
    st.Work? || st.Halt?
  }

  lemma StopWorkStep(s: State, i: nat, w: WorkerStep)
    requires Enabled(s, Work(i, w))
    ensures StopWork(Next(s, Work(i, w)).mem) < StopWork(s.mem)
  {
    WeightsUpdate(s.mem.workers, i, WorkerNext(s, s.mem.workers[i], w));
    AliveUpdate(s.mem.workers, i, WorkerNext(s, s.mem.workers[i], w));
  }

  lemma StopCallStep(s: State, c: nat, cs: CallStep)
    requires s.mem.stopped && Enabled(s, Advance(c, cs))
    ensures StopWork(Next(s, Advance(c, cs)).mem) <= StopWork(s.mem)
  {
    SendersUpdate(s.mem.calls, c, CallNext(s, s.mem.calls[c], cs));
  }

  lemma StopHaltStep(s: State, h: StopStep)
    requires Enabled(s, Halt(h))
    ensures StopWork(Next(s, Halt(h)).mem) < StopWork(s.mem)
  {
  }

  lemma StopStep(s: State, st: Step)
    requires Own(s) && s.mem.stopped && Enabled(s, st) && !st.Crash?
    ensures Next(s, st).mem.stopped
    ensures StopWork(Next(s, st).mem) <= StopWork(s.mem)
    ensures ShuttingDown(st) ==> StopWork(Next(s, st).mem) < StopWork(s.mem)
  {
    match st
    case Work(i, w) => StopWorkStep(s, i, w);
    case Advance(c, cs) => StopCallStep(s, c, cs);
    case Halt(h) => StopHaltStep(s, h);
    case Create(id, key, request) =>
      SendersAppend(s.mem.calls, Asked(Ticket(id, key, request, s.clock)));
    case _ =>
  }

  function ShutdownSteps(steps: seq<Step>): nat {
    if steps == [] then 0 else (if ShuttingDown(steps[0]) then 1 else 0) + ShutdownSteps(steps[1..])
  }

  predicate NoCrash(steps: seq<Step>) {
    forall i | 0 <= i < |steps| :: !steps[i].Crash?
  }

  lemma {:induction false} StopBounded(s: State, steps: seq<Step>)
    requires Own(s) && s.mem.stopped && Valid(s, steps) && NoCrash(steps)
    ensures ShutdownSteps(steps) <= StopWork(s.mem)
    ensures Own(End(s, steps)) && End(s, steps).mem.stopped
    decreases |steps|
  {
    if steps != [] {
      StopStep(s, steps[0]);
      OwnStep(s, steps[0]);
      assert forall i | 0 <= i < |steps[1..]| :: steps[1..][i] == steps[i + 1];
      StopBounded(Next(s, steps[0]), steps[1..]);
    }
  }

  /** What a worker can always do, even if every statement is refused. */
  function Anyway(s: State, w: Worker): WorkerStep {
    match w
    case Idle => Exit
    case Exited => Exit
    case Got(_) => Load(Refused)
    case Loaded(_, _, at) => Mark(at)
    case Marking(_, _) => MarkDone(Refused)
    case Closing(_, _, _, at) => Finish(Refused, at)
    case Busy(_, _, _, stage) =>
      match stage
      case Opening => ProfileFails("")
      case Measured(_, _, at) => ReadPrevious(Refused, 0, at, DriftReport(false, 0.0, []))
      case Ready(_) => Save("")
      case Saving(_) => SaveDone(Refused, "")
  }

  lemma StopMoves(s: State) returns (st: Step)
    requires Inv(s) && StampsPast(s) && s.mem.stopped && !s.mem.stop.Stopped?
    ensures ShuttingDown(st) && Enabled(s, st)
  {
    assert PlaceOk(s.jobs, s.clock, s.mem, AtStop);
    if s.mem.stop.Awaiting? && exists i :: 0 <= i < |s.mem.workers| && !s.mem.workers[i].Exited? {
      var i :| 0 <= i < |s.mem.workers| && !s.mem.workers[i].Exited?;
      assert PlaceOk(s.jobs, s.clock, s.mem, AtWorker(i));
      st := Work(i, Anyway(s, s.mem.workers[i]));
    } else {
      st := Halt(match s.mem.stop
                 case Signalled => Cancel
                 case Awaiting => Wait
                 case Drained(_) => DrainLoad(Refused)
                 case DrainLoaded(_, _, at) => DrainWrite(Refused, at)
                 case _ => Drain);
    }
  }

  /** Stop terminates. Once it is called, in any run of the process the workers and Stop together make
      a bounded number of steps: the bound counts the ids in the channel, the Create calls that read
      stopped == false but have not sent yet, and what each worker has in hand. And until Stop returns
      one of them can make a step, even if the store answers nothing. */
  lemma StopTerminates(s: State, steps: seq<Step>)
    requires Reachable(s) && s.mem.stopped && Valid(s, steps) && NoCrash(steps)
    ensures ShutdownSteps(steps) <= StopWork(s.mem)
    ensures !End(s, steps).mem.stop.Stopped? ==> exists st :: ShuttingDown(st) && Enabled(End(s, steps), st)
  {
    ReachableInv(s);
    StampsReachable(s);
    StampsRun(s, steps);
    InvRun(s, steps);
    StopBounded(s, steps);
    if !End(s, steps).mem.stop.Stopped? {
      var st := StopMoves(End(s, steps));
    }
  }

  // ----- after the workers are gone -----

  lemma DrainStep(s: State, st: Step)
    requires Own(s) && WorkersGone(s.mem.stop) && Enabled(s, st) && !st.Crash?
    ensures WorkersGone(Next(s, st).mem.stop)
    ensures forall id | id in Next(s, st).jobs && Next(s, st).jobs[id].status == Running ::
              id in s.jobs && s.jobs[id].status == Running
  {
    StaysGone(s, st);
    match st
    case Advance(c, cs) => CallRunsNothing(s, c, cs);
    case Halt(h) => StopRunsNothing(s, h);
    case _ =>
  }

  lemma StaysGone(s: State, st: Step)
    requires Shape(s) && WorkersGone(s.mem.stop) && Enabled(s, st) && !st.Crash?
    ensures WorkersGone(Next(s, st).mem.stop) && !st.Work? && !st.Recover?
  {
  }

  lemma CallRunsNothing(s: State, c: nat, cs: CallStep)
    requires Enabled(s, Advance(c, cs))
    ensures forall id | id in Next(s, Advance(c, cs)).jobs && Next(s, Advance(c, cs)).jobs[id].status == Running ::
              id in s.jobs && s.jobs[id].status == Running
  {
  }

  lemma StopRunsNothing(s: State, h: StopStep)
    requires Enabled(s, Halt(h))
    ensures forall id | id in Next(s, Halt(h)).jobs && Next(s, Halt(h)).jobs[id].status == Running ::
              id in s.jobs && s.jobs[id].status == Running
  {
  }

  /** Stop is final: from the moment its workers are gone no row becomes running in this process, and
      calling Start again does nothing. */
  lemma {:induction false} NothingRunsAfterStop(s: State, steps: seq<Step>, id: Id)
    requires Inv(s) && WorkersGone(s.mem.stop) && Valid(s, steps) && NoCrash(steps)
    ensures id in End(s, steps).jobs && End(s, steps).jobs[id].status == Running ==>
            id in s.jobs && s.jobs[id].status == Running
    ensures Next(s, Start) == s
    decreases |steps|
  {
    if steps != [] {
      DrainStep(s, steps[0]);
      InvStep(s, steps[0]);
      assert forall i | 0 <= i < |steps[1..]| :: steps[1..][i] == steps[i + 1];
      NothingRunsAfterStop(Next(s, steps[0]), steps[1..], id);
    }
  }

  /** The statements of failQueuedJob are answered. */
  predicate StoreAnswersStop(st: Step) {
    st.Halt? ==>
      match st.h
      case DrainLoad(a) => a == Ok
      case DrainWrite(a, _) => a == Ok
      case _ => true
  }

  /** In line to be failed by Stop, or failed already. */
  predicate Doomed(s: State, id: Id) {
    || (id in s.jobs && s.jobs[id].status == Status.Failed)
    || (!s.mem.stop.Stopped? && (id in s.mem.chan || s.mem.stop.Holding() == Some(id)))
  }

  lemma DoomedStep(s: State, st: Step, id: Id)
    requires Inv(s) && WorkersGone(s.mem.stop) && Enabled(s, st) && !st.Crash? && StoreAnswersStop(st)
    requires Doomed(s, id)
    ensures Doomed(Next(s, st), id)
  {
    if id in s.jobs && s.jobs[id].status == Status.Failed {
      RowPersists(s, st, id);
    } else if st.Halt? {
      assert PlaceOk(s.jobs, s.clock, s.mem, AtStop);
      DoomedByStop(s, st.h, id);
    } else {
      StaysInLine(s, st, id);
    }
  }

  /** Stop takes the id from the channel, finds its row queued, and fails it. */
  lemma DoomedByStop(s: State, h: StopStep, id: Id)
    requires Enabled(s, Halt(h)) && StoreAnswersStop(Halt(h)) && StopOk(s.jobs, s.clock, s.mem.stop)
    requires !s.mem.stop.Stopped? && (id in s.mem.chan || s.mem.stop.Holding() == Some(id))
    ensures Doomed(Next(s, Halt(h)), id)
  {
  }

  lemma StaysInLine(s: State, st: Step, id: Id)
    requires Shape(s) && WorkersGone(s.mem.stop) && Enabled(s, st) && !st.Crash? && !st.Halt?
    requires !s.mem.stop.Stopped? && (id in s.mem.chan || s.mem.stop.Holding() == Some(id))
    ensures Doomed(Next(s, st), id)
  {
    if st.Advance? { CallMem(s, st.c, st.s); }
  }

  /** Every id that Stop finds in the channel is marked failed when Stop returns, as long as the store
      answers Stop; so no job that was waiting is left behind unnoticed. */
  lemma {:induction false} DrainedJobsFail(s: State, steps: seq<Step>, id: Id)
    requires Inv(s) && WorkersGone(s.mem.stop) && Valid(s, steps) && NoCrash(steps)
    requires forall i | 0 <= i < |steps| :: StoreAnswersStop(steps[i])
    requires Doomed(s, id)
    ensures Doomed(End(s, steps), id)
    ensures End(s, steps).mem.stop.Stopped? ==>
            id in End(s, steps).jobs && End(s, steps).jobs[id].status == Status.Failed
    decreases |steps|
  {
    if steps != [] {
      DrainStep(s, steps[0]);
      DoomedStep(s, steps[0], id);
      InvStep(s, steps[0]);
      assert forall i | 0 <= i < |steps[1..]| :: steps[1..][i] == steps[i + 1];
      DrainedJobsFail(Next(s, steps[0]), steps[1..], id);
    }
  }

  lemma FrozenStep(s: State, st: Step)
    requires Own(s) && s.mem.boot.Up? && !s.mem.open && Enabled(s, st) && !st.Crash?
    ensures Next(s, st).jobs == s.jobs && Next(s, st).profiles == s.profiles
    ensures Next(s, st).mem.boot.Up? && !Next(s, st).mem.open
  {
  }

  /** The server closes the database handle before it calls Stop. From then on the tables stay as they
      are until the next boot: the shutdown marks nothing failed, and leaves running rows running. */
  lemma {:induction false} ClosedHandleFreezesTables(s: State, steps: seq<Step>)
    requires Own(s) && s.mem.boot.Up? && !s.mem.open && Valid(s, steps) && NoCrash(steps)
    ensures End(s, steps).jobs == s.jobs && End(s, steps).profiles == s.profiles
    decreases |steps|
  {
    if steps != [] {
      OwnStep(s, steps[0]);
      FrozenStep(s, steps[0]);
      assert forall i | 0 <= i < |steps[1..]| :: steps[1..][i] == steps[i + 1];
      ClosedHandleFreezesTables(Next(s, steps[0]), steps[1..]);
    }
  }
}
