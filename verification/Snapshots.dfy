/** The profiles table: what is saved is whole, completed jobs have a snapshot, no run saves twice, and
    the drift reports of a table form a chain. */
module Snapshots {
  import opened Domain
  import opened Tables
  import opened Protocol
  import opened Ownership
  import opened Lifecycle
  import opened Recovery
  import FanOut
  import Drift
  import Stores
  import Orphans

  // ----- saved means whole -----

  function Unlabelled(c: ColumnProfile): ColumnProfile {
    c.(pii := "", piiConfidence := 0.0)
  }

  /** One entry per discovered column, in discovery order, each the full answer of its queries; the only
      thing added is the PII label. */
  predicate Whole(source: Source, cols: seq<ColumnProfile>) {
    && source.Wf() && |cols| == |source.columns|
    && (forall i | 0 <= i < |cols| ::
          source.answers[i].error.None? && Unlabelled(cols[i]) == Unlabelled(source.answers[i].profile))
  }

  predicate StageOk(m: Mem, w: Worker) {
    w.Busy? ==>
      match w.stage
      case Opening => true
      case Measured(source, p, _) => Whole(source, p.columns) || ContextDone(m, w)
      case Ready(r) => Whole(r.source, r.profile.columns) || ContextDone(m, w)
      case Saving(r) => Whole(r.source, r.profile.columns)
  }

  ghost predicate SavedOk(s: State) {
    && (forall k | 0 <= k < |s.profiles| :: Whole(s.profiles[k].source, s.profiles[k].profile.columns))
    && (forall i | 0 <= i < |s.mem.workers| :: StageOk(s.mem, s.mem.workers[i]))
  }

  /** A fan-out that ended without an error under a living context measured every column. */
  lemma MeasuredWhole(source: Source, run: FanOut.State, labels: seq<(string, real)>)
    requires source.Wf() && FanOut.Outcome(source, run) && run.first.None? && !run.cancelled
    requires |labels| == |run.out|
    ensures Whole(source, Labelled(run.out, labels))
  {
    FanOut.RefinesSequential(source, run);
  }

  lemma StageNext(s: State, w: Worker, st: WorkerStep)
    requires StageOk(s.mem, w) && WorkerCan(s, w, st)
    ensures StageOk(s.mem, WorkerNext(s, w, st))
  {
    if st.Measure? && !ContextDone(s.mem, w) {
      MeasuredWhole(st.source, st.run, st.labels);
    }
  }

  lemma SavedWork(s: State, i: nat, w: WorkerStep)
    requires SavedOk(s) && Enabled(s, Work(i, w))
    ensures SavedOk(Next(s, Work(i, w)))
  {
    var s' := Next(s, Work(i, w));
    assert StageOk(s.mem, s.mem.workers[i]);
    StageNext(s, s.mem.workers[i], w);
    assert s'.mem.cancelled == s.mem.cancelled;
    forall k | 0 <= k < |s'.mem.workers| ensures StageOk(s'.mem, s'.mem.workers[k]) {
      assert StageOk(s.mem, if k == i then WorkerNext(s, s.mem.workers[i], w) else s.mem.workers[k]);
    }
  }

  lemma SavedStep(s: State, st: Step)
    requires SavedOk(s) && Enabled(s, st)
    ensures SavedOk(Next(s, st))
  {
    var s' := Next(s, st);
    if st.Work? {
      SavedWork(s, st.i, st.w);
    } else {
      OtherSteps(s, st);
      forall k | 0 <= k < |s'.mem.workers| ensures StageOk(s'.mem, s'.mem.workers[k]) {
        if k < |s.mem.workers| { assert StageOk(s.mem, s.mem.workers[k]); }
      }
    }
  }

  lemma {:induction false} SavedRun(s: State, steps: seq<Step>)
    requires SavedOk(s) && Own(s) && Valid(s, steps)
    ensures SavedOk(End(s, steps))
    decreases |steps|
  {
    if steps != [] {
      SavedStep(s, steps[0]);
      OwnStep(s, steps[0]);
      SavedRun(Next(s, steps[0]), steps[1..]);
    }
  }

  /** Saved means whole. Although ProfileTable can succeed with blank columns once its context is
      cancelled or timed out, no such profile is ever saved: SaveProfile runs under the same context. */
  lemma SavedMeansWhole(s: State, k: nat)
    requires Reachable(s) && k < |s.profiles|
    ensures Whole(s.profiles[k].source, s.profiles[k].profile.columns)
  {
    var n, after, clock :| Reaches(Init(n, after, clock), s);
    var steps :| Valid(Init(n, after, clock), steps) && End(Init(n, after, clock), steps) == s;
    SavedRun(Init(n, after, clock), steps);
  }

  // ----- how many profiles a job has -----

  function Saves(profiles: seq<ProfileRow>, id: Id): nat {
    if profiles == [] then 0
    else Saves(profiles[..|profiles| - 1], id) + (if profiles[|profiles| - 1].job == id then 1 else 0)
  }

  lemma SavesAppend(profiles: seq<ProfileRow>, r: ProfileRow, id: Id)
    ensures Saves(profiles + [r], id) == Saves(profiles, id) + (if r.job == id then 1 else 0)
  {
    assert (profiles + [r])[..|profiles|] == profiles;
  }

  /** A worker that was marked running has not saved yet; one that is about to complete its job has. */
  predicate WorkerSaves(s: State, w: Worker) {
    match w
    case Busy(id, _, _, stage) =>
      && Saves(s.profiles, id) + 1 <= s.marks[id]
      && (stage.Ready? || stage.Saving? ==> stage.row.job == id)
    case Closing(id, _, err, _) => err.None? ==> Saves(s.profiles, id) >= 1
    case _ => true
  }

  ghost predicate SavesOk(s: State) {
    && (forall id :: Saves(s.profiles, id) <= s.marks[id])
    && (forall i | 0 <= i < |s.mem.workers| :: WorkerSaves(s, s.mem.workers[i]))
    && (forall id | id in s.jobs && s.jobs[id].status == Completed :: Saves(s.profiles, id) >= 1)
  }

  lemma WorkerSavesNext(s: State, i: nat, w: WorkerStep)
    requires SavesOk(s) && Enabled(s, Work(i, w))
    ensures WorkerSaves(Next(s, Work(i, w)), WorkerNext(s, s.mem.workers[i], w))
  {
    assert WorkerSaves(s, s.mem.workers[i]);
    if w.SaveDone? {
      SavesAppend(s.profiles, s.mem.workers[i].stage.row, s.mem.workers[i].id);
    }
  }

  /** What a worker step does to the two counts: they change for the job it holds only. */
  lemma CountsAfter(s: State, i: nat, w: WorkerStep)
    requires SavesOk(s) && Enabled(s, Work(i, w))
    ensures var s', x := Next(s, Work(i, w)), s.mem.workers[i].Holding();
            && (forall id | Some(id) != x ::
                  Saves(s'.profiles, id) == Saves(s.profiles, id) && s'.marks[id] == s.marks[id])
            && (forall id :: Saves(s.profiles, id) <= Saves(s'.profiles, id) <= s'.marks[id])
  {
    assert WorkerSaves(s, s.mem.workers[i]);
    if w.SaveDone? {
      forall id { SavesAppend(s.profiles, s.mem.workers[i].stage.row, id); }
    }
  }

  lemma Completes(s: State, i: nat, w: WorkerStep, id: Id)
    requires SavesOk(s) && Enabled(s, Work(i, w))
    requires id in Next(s, Work(i, w)).jobs && Next(s, Work(i, w)).jobs[id].status == Completed
    requires s.mem.workers[i].Marking? ==> s.mem.workers[i].job.status == Running
    ensures Saves(s.profiles, id) >= 1
  {
    assert WorkerSaves(s, s.mem.workers[i]);
  }

  lemma OthersSave(s: State, i: nat, w: WorkerStep, k: nat)
    requires SavesOk(s) && Exclusive(s.mem) && Enabled(s, Work(i, w)) && k < |s.mem.workers| && k != i
    ensures WorkerSaves(Next(s, Work(i, w)), s.mem.workers[k])
  {
    CountsAfter(s, i, w);
    assert WorkerSaves(s, s.mem.workers[k]);
    var x := s.mem.workers[i].Holding();
    if x.Some? {
      assert Holds(s.mem, AtWorker(i), x.value);
      assert !Holds(s.mem, AtWorker(k), x.value);
    }
  }

  lemma WorkersSave(s: State, i: nat, w: WorkerStep)
    requires SavesOk(s) && Exclusive(s.mem) && Enabled(s, Work(i, w))
    ensures var s' := Next(s, Work(i, w));
            forall k | 0 <= k < |s'.mem.workers| :: WorkerSaves(s', s'.mem.workers[k])
  {
    var s' := Next(s, Work(i, w));
    assert s'.mem.workers == s.mem.workers[i := WorkerNext(s, s.mem.workers[i], w)];
    forall k | 0 <= k < |s'.mem.workers| ensures WorkerSaves(s', s'.mem.workers[k]) {
      if k == i { WorkerSavesNext(s, i, w); } else { OthersSave(s, i, w, k); }
    }
  }

  lemma SavesStepWork(s: State, i: nat, w: WorkerStep)
    requires SavesOk(s) && Inv(s) && Enabled(s, Work(i, w))
    ensures SavesOk(Next(s, Work(i, w)))
  {
    var s' := Next(s, Work(i, w));
    CountsAfter(s, i, w);
    WorkersSave(s, i, w);
    assert PlaceOk(s.jobs, s.clock, s.mem, AtWorker(i));
    forall id | id in s'.jobs && s'.jobs[id].status == Completed ensures Saves(s'.profiles, id) >= 1 {
      Completes(s, i, w, id);
    }
  }

  lemma SavesStep(s: State, st: Step)
    requires SavesOk(s) && Inv(s) && Enabled(s, st)
    ensures SavesOk(Next(s, st))
  {
    var s' := Next(s, st);
    if st.Work? {
      SavesStepWork(s, st.i, st.w);
    } else {
      OtherSteps(s, st);
      forall k | 0 <= k < |s'.mem.workers| ensures WorkerSaves(s', s'.mem.workers[k]) {
        if k < |s.mem.workers| { assert WorkerSaves(s, s.mem.workers[k]); }
      }
      OtherWrites(s, st);
    }
  }

  lemma CallsCompleteNothing(s: State, c: nat, cs: CallStep)
    requires Enabled(s, Advance(c, cs))
    ensures forall id | id in Next(s, Advance(c, cs)).jobs && Next(s, Advance(c, cs)).jobs[id].status == Completed ::
              id in s.jobs && s.jobs[id].status == Completed
  {
  }

  lemma StopCompletesNothing(s: State, h: StopStep)
    requires Enabled(s, Halt(h))
    ensures forall id | id in Next(s, Halt(h)).jobs && Next(s, Halt(h)).jobs[id].status == Completed ::
              id in s.jobs && s.jobs[id].status == Completed
  {
  }

  /** Only a worker completes a job. */
  lemma OtherWrites(s: State, st: Step)
    requires Enabled(s, st) && !st.Work?
    ensures forall id | id in Next(s, st).jobs && Next(s, st).jobs[id].status == Completed ::
              id in s.jobs && s.jobs[id].status == Completed
  {
    match st
    case Advance(c, cs) => CallsCompleteNothing(s, c, cs);
    case Halt(h) => StopCompletesNothing(s, h);
    case _ =>
  }

  lemma {:induction false} SavesRun(s: State, steps: seq<Step>)
    requires SavesOk(s) && Inv(s) && Valid(s, steps)
    ensures SavesOk(End(s, steps))
    decreases |steps|
  {
    if steps != [] {
      SavesStep(s, steps[0]);
      InvStep(s, steps[0]);
      SavesRun(Next(s, steps[0]), steps[1..]);
    }
  }

  lemma SavesInit(workers: int, staleAfter: int, clock: Time)
    ensures SavesOk(Init(workers, staleAfter, clock)) && Inv(Init(workers, staleAfter, clock))
  {
  }

  lemma SavesReachable(s: State)
    requires Reachable(s)
    ensures SavesOk(s)
  {
    var n, after, clock :| Reaches(Init(n, after, clock), s);
    var steps :| Valid(Init(n, after, clock), steps) && End(Init(n, after, clock), steps) == s;
    SavesInit(n, after, clock);
    SavesRun(Init(n, after, clock), steps);
  }

  /** Every completed job has a snapshot, and no job has more snapshots than it was marked running,
      even with crashes between the save and the final status write, or saves reported as failed. */
  lemma SnapshotsCount(s: State, id: Id)
    requires Reachable(s)
    ensures id in s.jobs && s.jobs[id].status == Completed ==> Saves(s.profiles, id) >= 1
    ensures Saves(s.profiles, id) <= s.marks[id]
  {
    SavesReachable(s);
  }

  lemma SaveCounts(s: State, i: nat, a: Answer, err: string)
    requires Reachable(s) && Enabled(s, Work(i, SaveDone(a, err)))
    ensures var id, t := s.mem.workers[i].id, Next(s, Work(i, SaveDone(a, err)));
            && t.mem.workers[i].Closing? && t.mem.workers[i].id == id
            && t.mem.workers[i].err == (if a == Ok then None else Some(err))
            && Saves(t.profiles, id) == Saves(s.profiles, id) + (if Applied(a) then 1 else 0)
  {
    SavesReachable(s);
    assert WorkerSaves(s, s.mem.workers[i]);
    SavesAppend(s.profiles, s.mem.workers[i].stage.row, s.mem.workers[i].id);
  }

  lemma ProfilesGrow(s: State, st: Step, id: Id)
    requires Enabled(s, st)
    ensures Saves(s.profiles, id) <= Saves(Next(s, st).profiles, id)
  {
    if st.Work? {
      var w := s.mem.workers[st.i];
      if w.Busy? && w.stage.Saving? { SavesAppend(s.profiles, w.stage.row, id); }
    } else {
      OtherSteps(s, st);
    }
  }

  lemma {:induction false} ProfilesGrowRun(s: State, steps: seq<Step>, id: Id)
    requires Valid(s, steps)
    ensures Saves(s.profiles, id) <= Saves(End(s, steps).profiles, id)
    decreases |steps|
  {
    if steps != [] {
      ProfilesGrow(s, steps[0], id);
      ProfilesGrowRun(Next(s, steps[0]), steps[1..], id);
    }
  }

  /** The final status write. */
  lemma FinishDecides(s: State, i: nat, a: Answer, t: Time)
    requires Inv(s) && Enabled(s, Work(i, Finish(a, t)))
    ensures var w, s' := s.mem.workers[i], Next(s, Work(i, Finish(a, t)));
            && w.id in s'.jobs && !Held(s'.mem, w.id) && s'.profiles == s.profiles
            && s'.jobs[w.id].status ==
               (if a == Refused then Running else if w.err.None? then Completed else Status.Failed)
  {
    var w, s' := s.mem.workers[i], Next(s, Work(i, Finish(a, t)));
    assert PlaceOk(s.jobs, s.clock, s.mem, AtWorker(i));
    assert Holds(s.mem, AtWorker(i), w.id);
    WorkMem(s, i, Finish(a, t));
    forall p ensures !Holds(s'.mem, p, w.id) {
      assert p != AtWorker(i) && Holds(s'.mem, p, w.id) ==> Holds(s.mem, p, w.id);
    }
  }

  /** What becomes of a job whose worker gets to its final status write, whatever happens in between and
      whatever the store answers: the snapshot is there if and only if the save was applied; the row then
      ends failed exactly if the acknowledgement of the save was lost and the final write applied, and is
      left running, in nobody's hands, exactly if the final write was not applied. */
  lemma FateOfSave(s: State, i: nat, a: Answer, err: string, steps: seq<Step>, b: Answer, t: Time)
    requires Reachable(s) && Enabled(s, Work(i, SaveDone(a, err)))
    requires Valid(Next(s, Work(i, SaveDone(a, err))), steps)
    requires var s1 := Next(s, Work(i, SaveDone(a, err)));
             var u := End(s1, steps);
             i < |u.mem.workers| && u.mem.workers[i] == s1.mem.workers[i] && Enabled(u, Work(i, Finish(b, t)))
    ensures var id, s1 := s.mem.workers[i].id, Next(s, Work(i, SaveDone(a, err)));
            var v := Next(End(s1, steps), Work(i, Finish(b, t)));
            && (Saves(s1.profiles, id) > Saves(s.profiles, id) <==> a != Refused)
            && Saves(v.profiles, id) >= Saves(s1.profiles, id)
            && id in v.jobs && !Held(v.mem, id)
            && (a != Refused && v.jobs[id].status == Status.Failed <==> a == Lost && b != Refused)
            && (a != Refused && v.jobs[id].status == Running <==> a != Refused && b == Refused)
            && (v.jobs[id].status == Completed <==> a == Ok && b != Refused)
  {
    var s1 := Next(s, Work(i, SaveDone(a, err)));
    SaveCounts(s, i, a, err);
    ReachableInv(s);
    InvStep(s, Work(i, SaveDone(a, err)));
    InvRun(s1, steps);
    FinishDecides(End(s1, steps), i, b, t);
    ProfilesGrowRun(s1, steps, s.mem.workers[i].id);
  }

  // ----- snapshots of jobs that are not completed -----

  /** A worker has saved the snapshot, knows it, and has the final status write still to do. */
  predicate Concluding(m: Mem, id: Id) {
    exists i | 0 <= i < |m.workers| ::
      m.workers[i].Closing? && m.workers[i].id == id && m.workers[i].err.None?
  }

  predicate CompletedIn(jobs: Jobs, id: Id) {
    id in jobs && jobs[id].status == Completed
  }

  /** The job has a snapshot, is not completed, and no worker is about to complete it. */
  predicate Stray(s: State, id: Id) {
    Saves(s.profiles, id) >= 1 && !CompletedIn(s.jobs, id) && !Concluding(s.mem, id)
  }

  /** What separates a snapshot from its job: the save is applied but not acknowledged, the final write of
      a job without an error is not applied, or a crash comes between the two. */
  predicate Strays(s: State, st: Step, id: Id) {
    match st
    case Work(i, w) =>
      i < |s.mem.workers| && s.mem.workers[i].Holding() == Some(id) &&
      ((w.SaveDone? && w.a == Lost) ||
       (w.Finish? && w.a == Refused && s.mem.workers[i].Closing? && s.mem.workers[i].err.None?))
    case Crash => Concluding(s.mem, id)
    case _ => false
  }

  /** What brings them together again: another run of the job saves one more snapshot and is told so. */
  predicate Rejoins(s: State, st: Step, id: Id) {
    st.Work? && st.i < |s.mem.workers| && s.mem.workers[st.i].Holding() == Some(id)
    && st.w.SaveDone? && st.w.a == Ok
  }

  lemma StrayOther(s: State, i: nat, w: WorkerStep, id: Id)
    requires Inv(s) && SavesOk(s) && Enabled(s, Work(i, w)) && s.mem.workers[i].Holding() != Some(id)
    ensures Stray(Next(s, Work(i, w)), id) <==> Stray(s, id)
  {
    CountsAfter(s, i, w);
    RowUntouched(s, i, w, id);
    OtherConcludes(s, i, w, id);
  }

  lemma RowUntouched(s: State, i: nat, w: WorkerStep, id: Id)
    requires Enabled(s, Work(i, w)) && s.mem.workers[i].Holding() != Some(id)
    ensures CompletedIn(Next(s, Work(i, w)).jobs, id) <==> CompletedIn(s.jobs, id)
  {
    if Orphans.RowOf(Next(s, Work(i, w)).jobs, id) != Orphans.RowOf(s.jobs, id) {
      Orphans.WorkersWriteTheirs(s, i, w, id);
    }
  }

  lemma OtherConcludes(s: State, i: nat, w: WorkerStep, id: Id)
    requires Enabled(s, Work(i, w)) && s.mem.workers[i].Holding() != Some(id)
    ensures Concluding(Next(s, Work(i, w)).mem, id) <==> Concluding(s.mem, id)
  {
    var m, m' := s.mem, Next(s, Work(i, w)).mem;
    var after := WorkerNext(s, m.workers[i], w);
    assert m'.workers == m.workers[i := after];
    assert !(after.Closing? && after.id == id);
    assert forall k | 0 <= k < |m.workers| && k != i :: m'.workers[k] == m.workers[k];
  }

  /** Of its holder's own job: who is concluding is the holder or nobody. */
  lemma OnlyHolderConcludes(s: State, i: nat, w: WorkerStep, id: Id)
    requires Exclusive(s.mem) && Enabled(s, Work(i, w)) && s.mem.workers[i].Holding() == Some(id)
    ensures var before, after := s.mem.workers[i], WorkerNext(s, s.mem.workers[i], w);
            && (Concluding(s.mem, id) <==> before.Closing? && before.err.None?)
            && (Concluding(Next(s, Work(i, w)).mem, id) <==> after.Closing? && after.id == id && after.err.None?)
  {
    var m, m' := s.mem, Next(s, Work(i, w)).mem;
    assert m'.workers == m.workers[i := WorkerNext(s, m.workers[i], w)];
    assert Holds(m, AtWorker(i), id);
    forall k | 0 <= k < |m.workers| && k != i
      ensures m.workers[k].Holding() != Some(id) && m'.workers[k] == m.workers[k]
    {
      assert !Holds(m, AtWorker(k), id);
    }
    assert m'.workers[i] == WorkerNext(s, m.workers[i], w);
  }

  /** A job in a worker's hands is not completed; only its final write completes it. */
  lemma HolderCompletes(s: State, i: nat, w: WorkerStep, id: Id)
    requires Inv(s) && Enabled(s, Work(i, w)) && s.mem.workers[i].Holding() == Some(id)
    ensures !CompletedIn(s.jobs, id)
    ensures CompletedIn(Next(s, Work(i, w)).jobs, id) <==>
            w.Finish? && w.a != Refused && s.mem.workers[i].err.None?
  {
    assert PlaceOk(s.jobs, s.clock, s.mem, AtWorker(i));
  }

  /** The count of snapshots around a step of the holder. */
  lemma HolderSaves(s: State, i: nat, w: WorkerStep, id: Id)
    requires SavesOk(s) && Enabled(s, Work(i, w)) && s.mem.workers[i].Holding() == Some(id)
    ensures Saves(Next(s, Work(i, w)).profiles, id) ==
            Saves(s.profiles, id) + (if w.SaveDone? && w.a != Refused then 1 else 0)
    ensures w.Finish? && s.mem.workers[i].err.None? ==> Saves(s.profiles, id) >= 1
  {
    assert WorkerSaves(s, s.mem.workers[i]);
    if w.SaveDone? { SavesAppend(s.profiles, s.mem.workers[i].stage.row, id); }
  }

  lemma StrayOwn(s: State, i: nat, w: WorkerStep, id: Id)
    requires Inv(s) && SavesOk(s) && Enabled(s, Work(i, w)) && s.mem.workers[i].Holding() == Some(id)
    ensures var st := Work(i, w);
            Stray(Next(s, st), id) <==> Strays(s, st, id) || (Stray(s, id) && !Rejoins(s, st, id))
  {
    HolderCompletes(s, i, w, id);
    HolderSaves(s, i, w, id);
    OnlyHolderConcludes(s, i, w, id);
  }

  lemma WorkersStay(s: State, st: Step)
    requires Shape(s) && Enabled(s, st) && !st.Work? && !st.Crash?
    ensures forall id :: Concluding(Next(s, st).mem, id) <==> Concluding(s.mem, id)
  {
    assert Next(s, st).mem.workers == s.mem.workers || (s.mem.workers == [] && st.Requeue?);
  }

  lemma StrayElse(s: State, st: Step, id: Id)
    requires Inv(s) && SavesOk(s) && Enabled(s, st) && !st.Work?
    ensures Stray(Next(s, st), id) <==> Strays(s, st, id) || Stray(s, id)
  {
    OtherSteps(s, st);
    OtherWrites(s, st);
    if id in s.jobs { RowPersists(s, st, id); }
    if !st.Crash? {
      WorkersStay(s, st);
    } else if Concluding(s.mem, id) {
      ConcludingSaved(s, id);
    }
  }

  lemma ConcludingSaved(s: State, id: Id)
    requires Inv(s) && SavesOk(s) && Concluding(s.mem, id)
    ensures Saves(s.profiles, id) >= 1 && !CompletedIn(s.jobs, id)
  {
    var i :| 0 <= i < |s.mem.workers| && s.mem.workers[i].Closing? && s.mem.workers[i].id == id
             && s.mem.workers[i].err.None?;
    assert WorkerSaves(s, s.mem.workers[i]);
    assert PlaceOk(s.jobs, s.clock, s.mem, AtWorker(i));
  }

  /** One step of anyone: a job has a stray snapshot afterwards exactly if the step separates them, or it
      had one before and the step does not rejoin them. */
  lemma StrayStep(s: State, st: Step, id: Id)
    requires Inv(s) && SavesOk(s) && Enabled(s, st)
    ensures Stray(Next(s, st), id) <==> Strays(s, st, id) || (Stray(s, id) && !Rejoins(s, st, id))
  {
    if !st.Work? {
      StrayElse(s, st, id);
    } else if s.mem.workers[st.i].Holding() == Some(id) {
      StrayOwn(s, st.i, st.w, id);
    } else {
      StrayOther(s, st.i, st.w, id);
    }
  }

  ghost predicate RejoinedIn(s: State, steps: seq<Step>, id: Id)
    requires Valid(s, steps)
    decreases |steps|
  {
    steps != [] && (Rejoins(s, steps[0], id) || RejoinedIn(Next(s, steps[0]), steps[1..], id))
  }

  /** Some step separates the snapshot from the job, and none after it rejoins them. */
  ghost predicate StrayedIn(s: State, steps: seq<Step>, id: Id)
    requires Valid(s, steps)
    decreases |steps|
  {
    steps != [] &&
    ((Strays(s, steps[0], id) && !RejoinedIn(Next(s, steps[0]), steps[1..], id)) ||
     StrayedIn(Next(s, steps[0]), steps[1..], id))
  }

  lemma {:induction false} StrayRun(s: State, steps: seq<Step>, id: Id)
    requires Inv(s) && SavesOk(s) && Valid(s, steps)
    ensures Stray(End(s, steps), id) <==>
            StrayedIn(s, steps, id) || (Stray(s, id) && !RejoinedIn(s, steps, id))
    decreases |steps|
  {
    if steps != [] {
      StrayStep(s, steps[0], id);
      InvStep(s, steps[0]);
      SavesStep(s, steps[0]);
      StrayRun(Next(s, steps[0]), steps[1..], id);
    }
  }

  /** Exactly when a job has a snapshot without being completed, over every run from an empty database, with
      crashes, restarts and any answers of the store: either a worker is about to complete it, or some step
      of the run separated the two (a save applied but not acknowledged, a final write of a job without an
      error not applied, a crash between save and final write) and no later run of the job rejoined them. */
  lemma SnapshotWithoutCompletion(workers: int, after: int, clock: Time, steps: seq<Step>, id: Id)
    requires Valid(Init(workers, after, clock), steps)
    ensures var t := End(Init(workers, after, clock), steps);
            Saves(t.profiles, id) >= 1 && !CompletedIn(t.jobs, id) <==>
            Concluding(t.mem, id) || StrayedIn(Init(workers, after, clock), steps, id)
  {
    var s := Init(workers, after, clock);
    SavesInit(workers, after, clock);
    StrayRun(s, steps, id);
    InvRun(s, steps);
    SavesRun(s, steps);
    if Concluding(End(s, steps).mem, id) { ConcludingSaved(End(s, steps), id); }
  }

  // ----- the drift history -----

  /** The snapshots of one table, oldest first. */
  function History(profiles: seq<ProfileRow>, schema: string, table: string): seq<TableProfile> {
    if profiles == [] then []
    else
      var r := profiles[|profiles| - 1];
      History(profiles[..|profiles| - 1], schema, table) + (if Of(r, schema, table) then [r.profile] else [])
  }

  /** `p` carries the comparison with the newest snapshot of its table, if there is one. */
  ghost predicate Follows(h: seq<TableProfile>, p: TableProfile) {
    if h == [] then p.drift.None?
    else p.drift.Some? && Drift.IsReport(h[|h| - 1], p, p.drift.value)
  }

  /** The creation times of one table's snapshots increase. */
  predicate Ascending(profiles: seq<ProfileRow>, schema: string, table: string) {
    forall i, j | 0 <= i < j < |profiles| && Of(profiles[i], schema, table) && Of(profiles[j], schema, table) ::
      profiles[i].profile.created < profiles[j].profile.created
  }

  /** `p` is stamped later than every snapshot of its table. */
  predicate Newer(profiles: seq<ProfileRow>, p: TableProfile) {
    forall k | 0 <= k < |profiles| && Of(profiles[k], p.schema, p.table) :: profiles[k].profile.created < p.created
  }

  /** Every snapshot of the table is newer than its predecessors and carries the comparison with the last
      of them. Other tables may be in any disorder. */
  ghost predicate Chained(profiles: seq<ProfileRow>, schema: string, table: string)
    decreases |profiles|
  {
    profiles == [] ||
    (var init, r := profiles[..|profiles| - 1], profiles[|profiles| - 1];
     && Chained(init, schema, table)
     && (Of(r, schema, table) ==> Newer(init, r.profile) && Follows(History(init, schema, table), r.profile)))
  }

  lemma {:induction false} ChainAscends(profiles: seq<ProfileRow>, schema: string, table: string)
    requires Chained(profiles, schema, table)
    ensures Ascending(profiles, schema, table)
    decreases |profiles|
  {
    if profiles != [] {
      ChainAscends(profiles[..|profiles| - 1], schema, table);
    }
  }

  // ----- which snapshot a worker compares with -----

  /** Row k is the last saved one of its table. */
  predicate LastSaved(profiles: seq<ProfileRow>, schema: string, table: string, k: int) {
    && 0 <= k < |profiles| && Of(profiles[k], schema, table)
    && (forall j | k < j < |profiles| :: !Of(profiles[j], schema, table))
  }

  /** Where the creation times increase, the query for the previous profile answers the last saved one. */
  lemma LatestIsLastSaved(profiles: seq<ProfileRow>, schema: string, table: string, k: int)
    requires Ascending(profiles, schema, table) && IsLatest(profiles, schema, table, k)
    ensures LastSaved(profiles, schema, table, k)
  {
  }

  lemma {:induction false} LastSavedEnds(profiles: seq<ProfileRow>, schema: string, table: string, k: nat)
    requires LastSaved(profiles, schema, table, k)
    ensures var h := History(profiles, schema, table);
            && |h| == |History(profiles[..k], schema, table)| + 1 && h[|h| - 1] == profiles[k].profile
    decreases |profiles|
  {
    var init := profiles[..|profiles| - 1];
    if k == |profiles| - 1 {
      assert profiles[..k] == init;
    } else {
      LastSavedEnds(init, schema, table, k);
      assert init[..k] == profiles[..k];
    }
  }

  /** It is the last entry of the table's history. */
  lemma LatestIsLast(profiles: seq<ProfileRow>, schema: string, table: string, k: int)
    requires Ascending(profiles, schema, table) && IsLatest(profiles, schema, table, k)
    ensures var h := History(profiles, schema, table); h != [] && h[|h| - 1] == profiles[k].profile
  {
    LatestIsLastSaved(profiles, schema, table, k);
    LastSavedEnds(profiles, schema, table, k);
  }

  lemma {:induction false} HistoryGrows(profiles: seq<ProfileRow>, n: nat, schema: string, table: string)
    requires n <= |profiles|
    ensures |History(profiles[..n], schema, table)| <= |History(profiles, schema, table)|
    ensures |History(profiles[..n], schema, table)| == |History(profiles, schema, table)| <==>
            forall j | n <= j < |profiles| :: !Of(profiles[j], schema, table)
    decreases |profiles|
  {
    if n == |profiles| {
      assert profiles[..n] == profiles;
    } else {
      var init := profiles[..|profiles| - 1];
      HistoryGrows(init, n, schema, table);
      assert init[..n] == profiles[..n];
    }
  }

  lemma RowsStay(s: State, st: Step)
    requires Enabled(s, st)
    ensures s.profiles <= Next(s, st).profiles
  {
    if !st.Work? { OtherSteps(s, st); }
  }

  lemma {:induction false} RowsStayRun(s: State, steps: seq<Step>)
    requires Valid(s, steps)
    ensures s.profiles <= End(s, steps).profiles
    decreases |steps|
  {
    if steps != [] {
      RowsStay(s, steps[0]);
      RowsStayRun(Next(s, steps[0]), steps[1..]);
    }
  }

  /** The place of row k in the history of the table. */
  function Position(profiles: seq<ProfileRow>, schema: string, table: string, k: nat): nat
    requires k <= |profiles|
  {
    |History(profiles[..k], schema, table)|
  }

  /** No snapshot of the table was added after the first `n` rows. */
  predicate NoneSince(profiles: seq<ProfileRow>, n: nat, schema: string, table: string) {
    forall j | n <= j < |profiles| :: !Of(profiles[j], schema, table)
  }

  /** Row k and a new row `r` of the table: they are neighbours in its history exactly if k was the last. */
  lemma NeighboursIffLast(profiles: seq<ProfileRow>, r: ProfileRow, schema: string, table: string, k: nat)
    requires k < |profiles| && Of(profiles[k], schema, table) && Of(r, schema, table)
    ensures var h := History(profiles + [r], schema, table);
            && h == History(profiles, schema, table) + [r.profile]
            && (Position(profiles + [r], schema, table, k) == |h| - 2 <==> LastSaved(profiles, schema, table, k))
  {
    assert (profiles + [r])[..|profiles|] == profiles && (profiles + [r])[..k] == profiles[..k];
    HistoryGrows(profiles, k + 1, schema, table);
    assert profiles[..k + 1][..k] == profiles[..k];
    assert |History(profiles[..k + 1], schema, table)| == |History(profiles[..k], schema, table)| + 1;
  }

  /** `row` is saved after a worker read row k as the latest of the table from the rows `before`, when the rows
      are `after`. Row k stands directly before the new one in the history of the table if and only if it
      was the last saved one at the read and no snapshot of the table was saved meanwhile; where the
      creation times increase, the first part holds by itself. Then the new snapshot carries the
      comparison with its predecessor. */
  ghost predicate PrecedesExactly(before: seq<ProfileRow>, after: seq<ProfileRow>, row: ProfileRow, r: DriftReport,
                                  schema: string, table: string, k: nat)
  {
    var h := History(after + [row], schema, table);
    var undisturbed := LastSaved(before, schema, table, k) && NoneSince(after, |before|, schema, table);
    && k < |before| && before <= after
    && (Ascending(before, schema, table) ==> LastSaved(before, schema, table, k))
    && (Position(after + [row], schema, table, k) == |h| - 2 <==> undisturbed)
    && (undisturbed ==> |h| >= 2 && h[|h| - 2] == before[k].profile && h[|h| - 1] == row.profile
                        && row.profile.drift == Some(r) && Drift.IsReport(h[|h| - 2], h[|h| - 1], r))
  }

  /** What a worker saves is compared with its predecessor, exactly when. However much happens between the
      moment a worker reads the previous profile and the moment its snapshot is saved, and in whatever
      disorder this or other tables were before, PrecedesExactly holds. */
  lemma PrecedesIffNoneSaved(s: State, i: nat, k: nat, t: Time, r: DriftReport, s1: State, steps: seq<Step>, u: State,
                             a: Answer, e: string)
    requires Enabled(s, Work(i, ReadPrevious(Ok, k, t, r))) && s1 == Next(s, Work(i, ReadPrevious(Ok, k, t, r)))
    requires Valid(s1, steps) && u == End(s1, steps)
    requires Enabled(u, Work(i, SaveDone(a, e))) && Applied(a)
    requires u.mem.workers[i].stage.row == s1.mem.workers[i].stage.row
    ensures var p, row := s.mem.workers[i].stage.profile, s1.mem.workers[i].stage.row;
            && Next(u, Work(i, SaveDone(a, e))).profiles == u.profiles + [row]
            && PrecedesExactly(s.profiles, u.profiles, row, r, p.schema, p.table, k)
  {
    var p, row := s.mem.workers[i].stage.profile, s1.mem.workers[i].stage.row;
    RowsStayRun(s1, steps);
    DriftFieldIrrelevant(s.profiles[k].profile, Evaluated(p, s.mem.workers[i].job.request.rules, t), r);
    SavedNext(s.profiles, u.profiles, row, r, p.schema, p.table, k);
  }

  lemma SavedNext(before: seq<ProfileRow>, after: seq<ProfileRow>, row: ProfileRow, r: DriftReport, schema: string,
                  table: string, k: nat)
    requires before <= after && IsLatest(before, schema, table, k) && Of(row, schema, table)
    requires row.profile.drift == Some(r) && Drift.IsReport(before[k].profile, row.profile, r)
    ensures PrecedesExactly(before, after, row, r, schema, table, k)
  {
    assert forall j | 0 <= j < |before| :: after[j] == before[j];
    NeighboursIffLast(after, row, schema, table, k);
    assert LastSaved(after, schema, table, k) <==>
           LastSaved(before, schema, table, k) && NoneSince(after, |before|, schema, table);
    if LastSaved(after, schema, table, k) { LastSavedEnds(after, schema, table, k); }
    if Ascending(before, schema, table) { LatestIsLastSaved(before, schema, table, k); }
  }

  lemma DriftFieldIrrelevant(a: TableProfile, b: TableProfile, r: DriftReport)
    requires Drift.IsReport(a, b, r)
    ensures Drift.IsReport(a, b.(drift := Some(r)), r)
  {
    forall c ensures Drift.Differs(a, b.(drift := Some(r)), c) == Drift.Differs(a, b, c) {}
  }

  // ----- orderly runs -----

  /** Between reading the previous profile and the end of the save. */
  predicate HasNext(w: Worker) {
    w.Busy? && (w.stage.Ready? || w.stage.Saving?)
  }

  /** About to save a snapshot of the table. */
  predicate HasNextOf(w: Worker, schema: string, table: string) {
    HasNext(w) && Of(w.stage.row, schema, table)
  }

  /** When a worker reads the previous profile of this table: the read does not fail, the time stamp it takes
      is later than those of the table's snapshots, and no other worker is about to save a snapshot of the
      same table. With one worker, or if jobs for one table are not run at the same time, the last part
      holds by itself. */
  ghost predicate Orderly(s: State, st: Step, schema: string, table: string) {
    st.Work? && st.w.ReadPrevious? && Enabled(s, st) ==>
      var p := s.mem.workers[st.i].stage.profile;
      p.schema == schema && p.table == table ==>
        && Newer(s.profiles, p.(created := st.w.t))
        && (st.w.a != Ok ==> History(s.profiles, schema, table) == [])
        && (forall j | 0 <= j < |s.mem.workers| && j != st.i :: !HasNextOf(s.mem.workers[j], schema, table))
  }

  /** The worker's profile continues the chain if it is the next of its table to be saved. */
  ghost predicate NextInChain(profiles: seq<ProfileRow>, w: Worker, schema: string, table: string) {
    && (w.Busy? && w.stage.Measured? ==> w.stage.profile.drift.None?)
    && (HasNextOf(w, schema, table) ==>
          Follows(History(profiles, schema, table), w.stage.row.profile) && Newer(profiles, w.stage.row.profile))
  }

  /** No two workers are about to save snapshots of the table. */
  ghost predicate Apart(m: Mem, schema: string, table: string) {
    forall i, j | 0 <= i < j < |m.workers| ::
      !(HasNextOf(m.workers[i], schema, table) && HasNextOf(m.workers[j], schema, table))
  }

  ghost predicate ChainOk(s: State, schema: string, table: string) {
    && Chained(s.profiles, schema, table) && Apart(s.mem, schema, table)
    && (forall i | 0 <= i < |s.mem.workers| :: NextInChain(s.profiles, s.mem.workers[i], schema, table))
  }

  lemma Predecessor(profiles: seq<ProfileRow>, p: TableProfile, k: nat, r: DriftReport)
    requires Chained(profiles, p.schema, p.table) && IsLatest(profiles, p.schema, p.table, k)
    requires Drift.IsReport(profiles[k].profile, p, r)
    ensures Follows(History(profiles, p.schema, p.table), p.(drift := Some(r)))
  {
    ChainAscends(profiles, p.schema, p.table);
    LatestIsLast(profiles, p.schema, p.table, k);
    DriftFieldIrrelevant(profiles[k].profile, p, r);
  }

  lemma EvaluatedKeeps(p: TableProfile, rules: Option<Rules>, t: Time)
    ensures var e := Evaluated(p, rules, t);
            e.schema == p.schema && e.table == p.table && e.drift == p.drift && e.created == t
  {
  }

  lemma ReadsPredecessor(s: State, i: nat, w: WorkerStep, schema: string, table: string)
    requires ChainOk(s, schema, table) && Enabled(s, Work(i, w)) && w.ReadPrevious?
    requires Orderly(s, Work(i, w), schema, table)
    ensures NextInChain(s.profiles, AfterPrevious(s.mem.workers[i], w), schema, table)
  {
    var worker := s.mem.workers[i];
    var p, rules := worker.stage.profile, worker.job.request.rules;
    assert NextInChain(s.profiles, worker, schema, table);
    EvaluatedKeeps(p, rules, w.t);
    if w.a == Ok && p.schema == schema && p.table == table {
      Predecessor(s.profiles, Evaluated(p, rules, w.t), w.k, w.report);
    }
  }

  /** Saving a snapshot leaves the workers that have nothing to save for its table as they are. */
  lemma OthersNext(profiles: seq<ProfileRow>, r: ProfileRow, w: Worker, schema: string, table: string)
    requires NextInChain(profiles, w, schema, table)
    requires !(HasNextOf(w, schema, table) && Of(r, schema, table))
    ensures NextInChain(profiles + [r], w, schema, table)
  {
    assert (profiles + [r])[..|profiles|] == profiles;
  }

  lemma StaysApart(s: State, i: nat, w: WorkerStep, schema: string, table: string)
    requires Apart(s.mem, schema, table) && Enabled(s, Work(i, w)) && Orderly(s, Work(i, w), schema, table)
    ensures Apart(Next(s, Work(i, w)).mem, schema, table)
  {
    var m, m' := s.mem, Next(s, Work(i, w)).mem;
    var before, after := m.workers[i], WorkerNext(s, m.workers[i], w);
    assert m'.workers == m.workers[i := after];
    if !w.ReadPrevious? { assert HasNext(after) ==> HasNext(before) && after.stage.row == before.stage.row; }
  }

  /** The worker that saves is about to save nothing more, and the others are about to save other tables. */
  lemma ChainSave(s: State, i: nat, w: WorkerStep, schema: string, table: string)
    requires ChainOk(s, schema, table) && Enabled(s, Work(i, w)) && w.SaveDone? && Applied(w.a)
    ensures var s' := Next(s, Work(i, w));
            && Chained(s'.profiles, schema, table)
            && forall k | 0 <= k < |s'.mem.workers| :: NextInChain(s'.profiles, s'.mem.workers[k], schema, table)
  {
    var s', saver := Next(s, Work(i, w)), s.mem.workers[i];
    assert NextInChain(s.profiles, saver, schema, table);
    assert s'.profiles[..|s'.profiles| - 1] == s.profiles;
    forall k | 0 <= k < |s'.mem.workers| ensures NextInChain(s'.profiles, s'.mem.workers[k], schema, table) {
      if k != i {
        assert NextInChain(s.profiles, s.mem.workers[k], schema, table);
        OthersNext(s.profiles, saver.stage.row, s.mem.workers[k], schema, table);
      }
    }
  }

  lemma ChainPlain(s: State, w: Worker, st: WorkerStep, schema: string, table: string)
    requires WorkerCan(s, w, st) && !st.ReadPrevious? && NextInChain(s.profiles, w, schema, table)
    ensures NextInChain(s.profiles, WorkerNext(s, w, st), schema, table)
  {
  }

  lemma ChainKeep(s: State, i: nat, w: WorkerStep, schema: string, table: string)
    requires ChainOk(s, schema, table) && Enabled(s, Work(i, w)) && Orderly(s, Work(i, w), schema, table)
    requires !(w.SaveDone? && Applied(w.a))
    ensures var s' := Next(s, Work(i, w));
            && s'.profiles == s.profiles
            && forall k | 0 <= k < |s'.mem.workers| :: NextInChain(s'.profiles, s'.mem.workers[k], schema, table)
  {
    var s', before := Next(s, Work(i, w)), s.mem.workers[i];
    assert s'.mem.workers == s.mem.workers[i := WorkerNext(s, before, w)];
    if w.ReadPrevious? {
      ReadsPredecessor(s, i, w, schema, table);
    } else {
      ChainPlain(s, before, w, schema, table);
    }
  }

  lemma ChainStep(s: State, st: Step, schema: string, table: string)
    requires ChainOk(s, schema, table) && Enabled(s, st) && Orderly(s, st, schema, table)
    ensures ChainOk(Next(s, st), schema, table)
  {
    var s' := Next(s, st);
    if st.Work? {
      StaysApart(s, st.i, st.w, schema, table);
      if st.w.SaveDone? && Applied(st.w.a) {
        ChainSave(s, st.i, st.w, schema, table);
      } else {
        ChainKeep(s, st.i, st.w, schema, table);
      }
    } else {
      ChainElse(s, st, schema, table);
    }
  }

  lemma ChainElse(s: State, st: Step, schema: string, table: string)
    requires ChainOk(s, schema, table) && Enabled(s, st) && !st.Work?
    ensures ChainOk(Next(s, st), schema, table)
  {
    var s' := Next(s, st);
    OtherSteps(s, st);
    forall k | 0 <= k < |s'.mem.workers| ensures NextInChain(s'.profiles, s'.mem.workers[k], schema, table) {
      if k < |s.mem.workers| { assert NextInChain(s.profiles, s.mem.workers[k], schema, table); }
    }
  }

  /** The run is orderly as far as this table is concerned. */
  ghost predicate OrderlyRun(s: State, steps: seq<Step>, schema: string, table: string)
    requires Valid(s, steps)
    decreases |steps|
  {
    steps == [] ||
    (Orderly(s, steps[0], schema, table) && OrderlyRun(Next(s, steps[0]), steps[1..], schema, table))
  }

  lemma {:induction false} ChainRun(s: State, steps: seq<Step>, schema: string, table: string)
    requires ChainOk(s, schema, table) && Valid(s, steps) && OrderlyRun(s, steps, schema, table)
    ensures ChainOk(End(s, steps), schema, table)
    decreases |steps|
  {
    if steps != [] {
      ChainStep(s, steps[0], schema, table);
      ChainRun(Next(s, steps[0]), steps[1..], schema, table);
    }
  }

  /** Sum of the score differences the snapshots report, the first one having none. */
  function Deltas(h: seq<TableProfile>): real {
    if |h| <= 1 then 0.0
    else Deltas(h[..|h| - 1]) + (var d := h[|h| - 1].drift; if d.Some? then d.value.scoreDelta else 0.0)
  }

  ghost predicate Telescopes(h: seq<TableProfile>) {
    && (forall j | 0 < j < |h| :: h[j].drift.Some? && Drift.IsReport(h[j - 1], h[j], h[j].drift.value))
    && (h != [] ==> h[0].drift.None? && Deltas(h) == h[|h| - 1].quality.score - h[0].quality.score)
  }

  lemma TelescopesOn(h: seq<TableProfile>, p: TableProfile)
    requires Telescopes(h) && Follows(h, p)
    ensures Telescopes(h + [p])
  {
    var g := h + [p];
    assert g[..|g| - 1] == h;
    forall j | 0 < j < |g| ensures g[j].drift.Some? && Drift.IsReport(g[j - 1], g[j], g[j].drift.value) {
      if j < |h| { assert g[j] == h[j] && g[j - 1] == h[j - 1]; }
    }
  }

  lemma {:induction false} HistoryFollows(profiles: seq<ProfileRow>, schema: string, table: string)
    requires Chained(profiles, schema, table)
    ensures Telescopes(History(profiles, schema, table))
    decreases |profiles|
  {
    if profiles != [] {
      var init, r := profiles[..|profiles| - 1], profiles[|profiles| - 1];
      HistoryFollows(init, schema, table);
      if Of(r, schema, table) {
        TelescopesOn(History(init, schema, table), r.profile);
      } else {
        assert History(profiles, schema, table) == History(init, schema, table);
      }
    }
  }

  /** The drift history telescopes. For any number of workers, over any run with crashes, restarts and
      re-runs in which every worker that reads the previous profile of this table does so in order, whatever
      happens to other tables: in the history of the table every snapshot after the first carries the
      comparison with its predecessor, and the reported score differences add up to the last score minus
      the first. */
  lemma DriftTelescopes(workers: int, after: int, clock: Time, steps: seq<Step>, schema: string, table: string)
    requires Valid(Init(workers, after, clock), steps)
    requires OrderlyRun(Init(workers, after, clock), steps, schema, table)
    ensures var h := History(End(Init(workers, after, clock), steps).profiles, schema, table);
            && (forall j | 0 < j < |h| :: h[j].drift.Some? && Drift.IsReport(h[j - 1], h[j], h[j].drift.value))
            && (h != [] ==> h[0].drift.None? && Deltas(h) == h[|h| - 1].quality.score - h[0].quality.score)
  {
    ChainRun(Init(workers, after, clock), steps, schema, table);
    HistoryFollows(End(Init(workers, after, clock), steps).profiles, schema, table);
  }

  /** The drift endpoint reads the first row of a history query of length one. Where the creation times
      increase that is the newest snapshot, so in an orderly history what it reports is the comparison of
      the last two snapshots. */
  lemma DriftEndpointIsLatest(profiles: seq<ProfileRow>, schema: string, table: string, rows: seq<nat>)
    requires Ascending(profiles, schema, table) && rows != []
    requires Stores.Smallest(
               map k | 0 <= k < |profiles| && profiles[k].profile.schema == schema
                       && profiles[k].profile.table == table :: -profiles[k].profile.created,
               1, rows)
    ensures var h := History(profiles, schema, table);
            && h != [] && rows[0] < |profiles| && profiles[rows[0]].profile == h[|h| - 1]
            && (Chained(profiles, schema, table) && |h| > 1 ==>
                  h[|h| - 1].drift.Some? && Drift.IsReport(h[|h| - 2], h[|h| - 1], h[|h| - 1].drift.value))
  {
    var times := map k | 0 <= k < |profiles| && profiles[k].profile.schema == schema
                         && profiles[k].profile.table == table :: -profiles[k].profile.created;
    assert rows == [rows[0]] && rows[0] in times;
    forall i | 0 <= i < |profiles| && Of(profiles[i], schema, table)
      ensures profiles[i].profile.created <= profiles[rows[0]].profile.created
    {
      assert i in times;
      assert i in rows || times[rows[0]] <= times[i];
    }
    LatestIsLast(profiles, schema, table, rows[0]);
    if Chained(profiles, schema, table) { HistoryFollows(profiles, schema, table); }
  }
}
