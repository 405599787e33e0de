/** Runs that show what the exact conditions in Orphans and Snapshots leave open: each ends in a state
    that some deployment really gets into, starting from an empty database. */
module Scenarios {
  import opened Domain
  import opened Tables
  import opened Protocol
  import opened Lifecycle
  import opened Recovery
  import FanOut
  import Drift
  import Quality
  import Orphans
  import Snapshots

  lemma Onward(s: State, st: Step)
    requires Reachable(s) && Enabled(s, st)
    ensures Reachable(Next(s, st))
  {
    var n, after, clock :| Reaches(Init(n, after, clock), s);
    ReachesStep(Init(n, after, clock), s, st);
  }

  function Booted(workers: nat): State
    requires workers >= 1
  {
    Init(workers, 1, 0).(mem := FRESH.(boot := Up, started := true, workers := seq(workers, i => Idle)))
  }

  /** The first boot, on an empty database. */
  lemma FirstBoot(workers: nat)
    requires workers >= 1
    ensures Reachable(Booted(workers))
  {
    var s := Init(workers, 1, 0);
    ReachesSelf(s);
    assert Recovered(s.jobs, 0, 1) == map[];
    assert QueuedIds(s.jobs) == {};
    Onward(s, Start);
    var s1 := Next(s, Start);
    Onward(s1, Recover(Ok));
    var s2 := Next(s1, Recover(Ok));
    Onward(s2, List(Ok, []));
    var s3 := Next(s2, List(Ok, []));
    Onward(s3, Requeue);
    assert Next(s3, Requeue) == Booted(workers);
  }

  // ----- the way of one job -----

  const ORDERS: Request := Request("sales", "orders", None)

  function Accepted(at: Time, key: string): Job {
    NewJob(ORDERS, key, at)
  }

  predicate Open(s: State) {
    s.mem.boot.Up? && s.mem.open && !s.mem.stopped && !s.mem.cancelled && s.mem.chan == []
  }

  /** A Create call up to its insertion. */
  lemma Asks(s: State, id: Id, key: string) returns (t: State)
    requires Reachable(s) && Open(s) && id !in s.issued
    ensures Reachable(t) && t == s.(issued := s.issued + {id}, mem := s.mem.(calls := t.mem.calls))
    ensures t.mem.calls == s.mem.calls + [Inserting(Ticket(id, key, ORDERS, s.clock))]
  {
    var c := |s.mem.calls|;
    Onward(s, Create(id, key, ORDERS));
    t := Next(s, Create(id, key, ORDERS));
    Onward(t, Advance(c, Lookup(None)));
    t := Next(t, Advance(c, Lookup(None)));
    Onward(t, Advance(c, CheckStopped));
    t := Next(t, Advance(c, CheckStopped));
  }

  lemma Inserts(s: State, id: Id, key: string) returns (t: State)
    requires Reachable(s) && Open(s) && id !in s.issued && !KeyTaken(s.jobs, key)
    ensures Reachable(t)
    ensures t == s.(issued := s.issued + {id}, jobs := s.jobs[id := Accepted(s.clock, key)],
                    mem := s.mem.(calls := t.mem.calls))
    ensures t.mem.calls == s.mem.calls + [Inserted(Ticket(id, key, ORDERS, s.clock))]
  {
    ReachableInv(s);
    t := Asks(s, id, key);
    Onward(t, Advance(|s.mem.calls|, Insert(Ok)));
    t := Next(t, Advance(|s.mem.calls|, Insert(Ok)));
  }

  /** The rest of the call. */
  lemma Delivers(s: State, id: Id, key: string) returns (t: State)
    requires Reachable(s) && Open(s) && id !in s.issued && !KeyTaken(s.jobs, key)
    ensures Reachable(t)
    ensures t == s.(issued := s.issued + {id}, jobs := s.jobs[id := Accepted(s.clock, key)],
                    mem := s.mem.(calls := t.mem.calls, sent := t.mem.sent, chan := [id]))
    ensures t.mem.calls == s.mem.calls + [Returned(id, key)]
  {
    var c := |s.mem.calls|;
    t := Inserts(s, id, key);
    Onward(t, Advance(c, ReadStopped));
    t := Next(t, Advance(c, ReadStopped));
    Onward(t, Advance(c, Send));
    t := Next(t, Advance(c, Send));
  }

  lemma Turns(s: State, i: nat, w: WorkerStep) returns (t: State)
    requires Reachable(s) && i < |s.mem.workers| && WorkerCan(s, s.mem.workers[i], w)
    ensures Reachable(t)
    ensures t == SetWorker(WorkerEffect(s, s.mem.workers[i], w), i, WorkerNext(s, s.mem.workers[i], w))
  {
    Onward(s, Work(i, w));
    t := Next(s, Work(i, w));
  }

  function Run(at: Time): Job {
    MarkedRunning(Accepted(at, ""), at)
  }

  /** A worker takes the job up and marks it running. */
  lemma TakesUp(s: State, i: nat, id: Id) returns (t: State)
    requires Reachable(s) && Open(s) && id !in s.issued && i < |s.mem.workers| && s.mem.workers[i].Idle?
    ensures Reachable(t) && Open(t) && t.issued == s.issued + {id}
    ensures t.clock == s.clock && t.profiles == s.profiles && t.workers == s.workers
    ensures t.jobs == s.jobs[id := Run(s.clock)] && t.staleAfter == s.staleAfter
    ensures t.mem.workers == s.mem.workers[i := Busy(id, Run(s.clock), false, Opening)]
  {
    t := Delivers(s, id, "");
    t := Turns(t, i, Receive);
    t := Turns(t, i, Load(Ok));
    t := Turns(t, i, Mark(s.clock));
    t := Turns(t, i, MarkDone(Ok));
  }

  const NOTHING: Source := Source([], [])

  /** The profile of a table without columns that has `dup` duplicate rows. */
  function Profile(dup: int): TableProfile {
    TableProfile("sales", "orders", [], dup, 0.0, QualityReport(0.0, []), None, 0)
  }

  /** It measures the table. */
  lemma Measures(s: State, i: nat, id: Id, dup: int) returns (t: State)
    requires Reachable(s) && Open(s) && id !in s.issued && i < |s.mem.workers| && s.mem.workers[i].Idle?
    ensures Reachable(t) && Open(t) && t.issued == s.issued + {id}
    ensures t.clock == s.clock && t.profiles == s.profiles && t.workers == s.workers
    ensures t.jobs == s.jobs[id := Run(s.clock)] && t.staleAfter == s.staleAfter
    ensures t.mem.workers ==
            s.mem.workers[i := Busy(id, Run(s.clock), false, Measured(NOTHING, Profile(dup), s.clock))]
  {
    t := TakesUp(s, i, id);
    var run := FanOut.Init(NOTHING, false);
    assert FanOut.Valid(NOTHING, run, []) && FanOut.End(NOTHING, run, []) == run;
    assert FanOut.Outcome(NOTHING, run) && run.out == [];
    t := Turns(t, i, Measure(NOTHING, run, [], dup, 0.0));
    assert Labelled(run.out, []) == [];
  }

  /** The row it is going to save, without and with a comparison. */
  function Row(id: Id, dup: int, at: Time, drift: Option<DriftReport>): ProfileRow {
    ProfileRow(id, Evaluated(Profile(dup), None, at).(drift := drift), NOTHING)
  }

  /** The save and the end of it, as the store answers. */
  lemma SavesRow(s: State, i: nat, row: ProfileRow, a: Answer) returns (t: State)
    requires Reachable(s) && Open(s) && i < |s.mem.workers|
    requires var w := s.mem.workers[i]; w.Busy? && !w.expired && w.stage == Ready(row)
    ensures Reachable(t) && Open(t) && t.issued == s.issued && t.clock == s.clock && t.workers == s.workers
    ensures t.profiles == if Applied(a) then s.profiles + [row] else s.profiles
    ensures t.jobs == s.jobs && t.staleAfter == s.staleAfter
    ensures var w := s.mem.workers[i];
            t.mem.workers ==
            s.mem.workers[i := Closing(w.id, w.job, if a == Ok then None else Some("save failed"), s.clock)]
  {
    t := Turns(s, i, Save("save failed"));
    t := Turns(t, i, SaveDone(a, "save failed"));
  }

  /** The first snapshot of the table: nothing to compare with. */
  lemma FirstSnapshot(workers: nat, id: Id, dup: int, a: Answer) returns (t: State)
    requires workers >= 1
    ensures Reachable(t) && Open(t) && t.issued == {id} && t.clock == 0 && t.workers == workers
    ensures t.jobs == map[id := Run(t.clock)] && t.staleAfter == 1
    ensures t.profiles == if Applied(a) then [Row(id, dup, t.clock, None)] else []
    ensures |t.mem.workers| == workers && (forall k | 0 < k < workers :: t.mem.workers[k] == Idle)
    ensures t.mem.workers[0] ==
            Closing(id, Run(t.clock), if a == Ok then None else Some("save failed"), t.clock)
  {
    FirstBoot(workers);
    t := Measures(Booted(workers), 0, id, dup);
    t := Turns(t, 0, ReadPrevious(Refused, 0, t.clock, DriftReport(false, 0.0, [])));
    t := SavesRow(t, 0, Row(id, dup, t.clock, None), a);
  }

  // ----- snapshots of jobs that are not completed -----

  /** The final status write of worker 0. */
  lemma Ends(s: State, a: Answer) returns (t: State)
    requires Reachable(s) && |s.mem.workers| > 0 && s.mem.workers[0].Closing? && s.mem.workers[0].at <= s.clock
    requires s.mem.open
    ensures var w := s.mem.workers[0];
            && Reachable(t) && t.profiles == s.profiles && w.id in t.jobs && !Held(t.mem, w.id)
            && t.jobs[w.id].status ==
               (if a == Refused then Running else if w.err.None? then Completed else Status.Failed)
  {
    ReachableInv(s);
    Snapshots.FinishDecides(s, 0, a, s.clock);
    Onward(s, Work(0, Finish(a, s.clock)));
    t := Next(s, Work(0, Finish(a, s.clock)));
  }

  lemma OneSave(row: ProfileRow)
    ensures Snapshots.Saves([row], row.job) == 1
  {
    Snapshots.SavesAppend([], row, row.job);
    assert [row] == [] + [row];
  }

  lemma JustSaved(workers: nat, id: Id, dup: int, a: Answer) returns (t: State, row: ProfileRow)
    requires workers >= 1 && a != Refused
    ensures Reachable(t) && t.mem.open && t.profiles == [row] && row.job == id
    ensures t.jobs == map[id := Run(t.clock)] && t.clock == 0 && t.staleAfter == 1 && t.workers == workers
    ensures |t.mem.workers| > 0 && t.mem.workers[0].Closing? && t.mem.workers[0].id == id
    ensures t.mem.workers[0].at <= t.clock && (t.mem.workers[0].err.None? <==> a == Ok)
  {
    t := FirstSnapshot(workers, id, dup, a);
    row := t.profiles[0];
  }

  /** A job fails although its snapshot was saved: the acknowledgement of the save was lost. */
  lemma FailedWithSnapshot(workers: nat, id: Id, dup: int) returns (s: State)
    requires workers >= 1
    ensures Reachable(s) && id in s.jobs && s.jobs[id].status == Status.Failed
    ensures Snapshots.Saves(s.profiles, id) == 1
  {
    var t, row := JustSaved(workers, id, dup, Lost);
    OneSave(row);
    s := Ends(t, Ok);
  }

  /** A job stays running, in nobody's hands, although its snapshot was saved: the final write failed. */
  lemma RunningWithSnapshot(workers: nat, id: Id, dup: int) returns (s: State)
    requires workers >= 1
    ensures Reachable(s) && id in s.jobs && s.jobs[id].status == Running && !Held(s.mem, id)
    ensures Snapshots.Saves(s.profiles, id) == 1
  {
    var t, row := JustSaved(workers, id, dup, Ok);
    OneSave(row);
    s := Ends(t, Refused);
  }

  lemma FarOnward(s: State, steps: seq<Step>)
    requires Reachable(s) && Valid(s, steps)
    ensures Reachable(End(s, steps))
  {
    var n, after, clock :| Reaches(Init(n, after, clock), s);
    var first :| Valid(Init(n, after, clock), first) && End(Init(n, after, clock), first) == s;
    RunsCompose(Init(n, after, clock), first, steps);
  }

  /** A crash, and a boot at time 2, when the job is stale. */
  lemma Reboots(s: State, id: Id) returns (t: State)
    requires Reachable(s) && s.jobs == map[id := Run(s.clock)] && s.clock == 0 && s.staleAfter == 1 && s.workers >= 1
    ensures Reachable(t) && t.mem.boot.Up? && t.mem.open && !t.mem.cancelled && t.mem.chan == [id]
    ensures t.jobs == map[id := Requeued(Run(s.clock))]
    ensures |t.mem.workers| == s.workers && t.mem.workers[0] == Idle
    ensures Snapshots.Saves(s.profiles, id) <= Snapshots.Saves(t.profiles, id) <= t.marks[id]
  {
    assert Recovered(s.jobs, 2, 1) == map[id := Requeued(Run(s.clock))];
    assert QueuedIds(Recovered(s.jobs, 2, 1)) == {id};
    BootCompletes(s, 2, [id]);
    t := End(s, BootSteps(2, [id]));
    FarOnward(s, BootSteps(2, [id]));
    Snapshots.ProfilesGrowRun(s, BootSteps(2, [id]), id);
    Snapshots.SnapshotsCount(t, id);
    ReachableInv(t);
  }

  /** Worker 0 takes the only job up again, and this time the measurement fails. */
  lemma FailsAgain(s: State, id: Id) returns (t: State)
    requires Reachable(s) && s.mem.boot.Up? && s.mem.open && !s.mem.cancelled && s.mem.chan == [id]
    requires id in s.jobs && s.jobs[id].status == Queued && |s.mem.workers| > 0 && s.mem.workers[0] == Idle
    ensures Reachable(t) && t.profiles == s.profiles && id in t.jobs && t.jobs[id].status == Status.Failed
  {
    t := Turns(s, 0, Receive);
    t := Turns(t, 0, Load(Ok));
    t := Turns(t, 0, Mark(s.clock));
    t := Turns(t, 0, MarkDone(Ok));
    t := Turns(t, 0, ProfileFails("no such table"));
    t := Turns(t, 0, Finish(Ok, s.clock));
  }

  /** A crash between the save and the final write separates the two as well. When the job runs again after
      the boot and fails, it is a failed job with a snapshot, although every statement was acknowledged. */
  lemma FailedAfterCrash(workers: nat, id: Id, dup: int) returns (s: State)
    requires workers >= 1
    ensures Reachable(s) && id in s.jobs && s.jobs[id].status == Status.Failed
    ensures Snapshots.Saves(s.profiles, id) >= 1
  {
    var t, row := JustSaved(workers, id, dup, Ok);
    OneSave(row);
    t := Reboots(t, id);
    s := FailsAgain(t, id);
  }

  // ----- an accepted job in nobody's hands -----

  /** Create returns a job that is queued and that nobody will ever run in this process. */
  lemma AcceptedAndForgotten(id: Id, key: string) returns (s: State)
    requires key != ""
    ensures Reachable(s) && s.mem.boot.Up? && s.mem.calls == [Returned(id, key)]
    ensures IsQueued(s.jobs, id) && !Held(s.mem, id)
  {
    FirstBoot(1);
    var t := Asks(Booted(1), id, key);
    Orphans.LostAcknowledgement(t, 0);
    Onward(t, Advance(0, Insert(Lost)));
    t := Next(t, Advance(0, Insert(Lost)));
    Onward(t, Advance(0, Retry(Some(id))));
    s := Next(t, Advance(0, Retry(Some(id))));
  }

  /** So does a Create call although every insertion was acknowledged: a worker's read failed, and the first
      lookup of a later call with the same key finds the job it dropped. */
  lemma AcceptedAndDropped(id: Id, other: Id, key: string) returns (s: State)
    requires key != "" && id != other
    ensures Reachable(s) && s.mem.boot.Up? && s.mem.calls == [Returned(id, key), Returned(id, key)]
    ensures Orphans.Adrift(s, id)
  {
    FirstBoot(1);
    var t := Delivers(Booted(1), id, key);
    t := Turns(t, 0, Receive);
    ReachableInv(t);
    Orphans.WorkerDrops(t, 0, Load(Refused), id);
    t := Turns(t, 0, Load(Refused));
    s := LooksUp(t, id, other, key);
  }

  lemma LooksUp(s: State, id: Id, other: Id, key: string) returns (t: State)
    requires Reachable(s) && s.mem.boot.Up? && s.mem.open && other !in s.issued
    requires key != "" && id in s.jobs && s.jobs[id].key == key && Orphans.Adrift(s, id)
    ensures Reachable(t) && t.mem.boot.Up? && t.mem.calls == s.mem.calls + [Returned(id, key)]
    ensures Orphans.Adrift(t, id)
  {
    t := Passes(s, Create(other, key, ORDERS), id);
    t := Passes(t, Advance(|s.mem.calls|, Lookup(Some(id))), id);
  }

  lemma Passes(s: State, st: Step, id: Id) returns (t: State)
    requires Reachable(s) && s.mem.boot.Up? && Enabled(s, st) && !st.Crash? && Orphans.Adrift(s, id)
    ensures Reachable(t) && t == Next(s, st) && Orphans.Adrift(t, id)
    ensures id in s.jobs && id in t.jobs && t.jobs[id].key == s.jobs[id].key
  {
    ReachableInv(s);
    Orphans.StaysAdrift(s, st, id);
    RowPersists(s, st, id);
    Onward(s, st);
    t := Next(s, st);
  }

  // ----- two workers on one table -----

  lemma Scores(dup: int, at: Time)
    ensures Evaluated(Profile(dup), None, at).quality.score == if dup > 0 then 95.0 else 100.0
  {
    NoColumns(Profile(dup), Quality.Resolve(None));
  }

  lemma NoColumns(p: TableProfile, settings: Quality.Settings)
    requires p.columns == []
    ensures Quality.Penalty(p, settings) == if p.duplicateRows > 0 then 5 else 0
  {
  }

  /** The report when duplicates appear. */
  function Worse(d: int, e: int): DriftReport {
    DriftReport(true, -5.0, [ScoreChanged(100.0, 95.0), DuplicatesChanged(d, e)])
  }

  lemma GetsWorse(id: Id, d: int, e: int, before: Time, at: Time)
    requires d <= 0 < e
    ensures Drift.IsReport(Row(id, d, before, None).profile, Evaluated(Profile(e), None, at), Worse(d, e))
  {
    Scores(d, before);
    Scores(e, at);
    var a, b, r := Row(id, d, before, None).profile, Evaluated(Profile(e), None, at), Worse(d, e);
    forall c ensures c in r.changes <==> Drift.Differs(a, b, c) {
      assert c in r.changes <==> c == ScoreChanged(100.0, 95.0) || c == DuplicatesChanged(d, e);
    }
  }

  lemma Wait(s: State, now: Time) returns (t: State)
    requires Reachable(s) && s.clock <= now
    ensures Reachable(t) && t == s.(clock := now)
  {
    Onward(s, Tick(now));
    t := Next(s, Tick(now));
  }

  /** The worker compares with the first snapshot, the only one there is. */
  lemma Compares(s: State, i: nat, id: Id, first: Id, d: int, e: int, before: Time, at: Time) returns (t: State)
    requires Reachable(s) && Open(s) && i < |s.mem.workers| && at <= s.clock && d <= 0 < e
    requires s.profiles == [Row(first, d, before, None)]
    requires s.mem.workers[i] == Busy(id, Run(at), false, Measured(NOTHING, Profile(e), at))
    ensures Reachable(t) && t == s.(mem := t.mem) && Open(t)
    ensures t.mem.workers == s.mem.workers[i := Busy(id, Run(at), false, Ready(Row(id, e, at, Some(Worse(d, e)))))]
  {
    GetsWorse(first, d, e, before, at);
    t := Turns(s, i, ReadPrevious(Ok, 0, at, Worse(d, e)));
  }

  lemma OneSaved(first: Id, d: int) returns (t: State)
    ensures Reachable(t) && Open(t) && t.clock == 0 && t.workers == 2
    ensures t.profiles == [Row(first, d, t.clock, None)]
    ensures t.mem.workers == [Idle, Idle] && t.issued == {first}
  {
    t := FirstSnapshot(2, first, d, Ok);
    assert t.mem.workers == [t.mem.workers[0], Idle];
    t := Closes(t);
  }

  lemma Closes(s: State) returns (t: State)
    requires Reachable(s) && Open(s) && |s.mem.workers| > 0
    requires s.mem.workers[0].Closing? && s.mem.workers[0].at <= s.clock
    ensures Reachable(t) && Open(t) && t.mem.workers == s.mem.workers[0 := Idle]
    ensures t.clock == s.clock && t.profiles == s.profiles && t.workers == s.workers && t.issued == s.issued
  {
    t := Turns(s, 0, Finish(Ok, s.clock));
  }

  /** Both workers have measured the table, and one snapshot is saved. */
  lemma BothMeasured(first: Id, x: Id, y: Id, d: int, e: int) returns (t: State)
    requires first != x && first != y && x != y
    ensures Reachable(t) && Open(t) && t.clock == 2 && t.workers == 2 && t.profiles == [Row(first, d, 0, None)]
    ensures t.mem.workers == [Busy(x, Run(1), false, Measured(NOTHING, Profile(e), 1)),
                              Busy(y, Run(2), false, Measured(NOTHING, Profile(e), 2))]
  {
    t := OneSaved(first, d);
    t := Wait(t, 1);
    t := Measures(t, 0, x, e);
    t := Wait(t, 2);
    t := Measures(t, 1, y, e);
  }

  lemma BothSave(first: Id, x: Id, y: Id, d: int, e: int) returns (t: State)
    requires first != x && first != y && x != y && d <= 0 < e
    ensures Reachable(t) && t.workers == 2
    ensures t.profiles == [Row(first, d, 0, None), Row(x, e, 1, Some(Worse(d, e))), Row(y, e, 2, Some(Worse(d, e)))]
  {
    t := BothMeasured(first, x, y, d, e);
    t := Compares(t, 0, x, first, d, e, 0, 1);
    t := Compares(t, 1, y, first, d, e, 0, 2);
    t := SavesRow(t, 0, Row(x, e, 1, Some(Worse(d, e))), Ok);
    t := SavesRow(t, 1, Row(y, e, 2, Some(Worse(d, e))), Ok);
  }

  lemma HistoryOfThree(a: ProfileRow, b: ProfileRow, c: ProfileRow, schema: string, table: string)
    requires Of(a, schema, table) && Of(b, schema, table) && Of(c, schema, table)
    ensures Snapshots.History([a, b, c], schema, table) == [a.profile, b.profile, c.profile]
  {
    assert [a][..0] == [] && Snapshots.History([], schema, table) == [];
    assert Snapshots.History([a], schema, table) == [a.profile];
    assert [a, b][..1] == [a];
    assert Snapshots.History([a, b], schema, table) == [a.profile, b.profile];
    assert [a, b, c][..2] == [a, b];
  }

  lemma DeltasOfThree(a: TableProfile, b: TableProfile, c: TableProfile)
    requires b.drift.Some? && c.drift.Some?
    ensures Snapshots.Deltas([a, b, c]) == b.drift.value.scoreDelta + c.drift.value.scoreDelta
  {
    assert [a, b, c][..2] == [a, b] && [a, b][..1] == [a];
    assert Snapshots.Deltas([a]) == 0.0;
    assert Snapshots.Deltas([a, b]) == b.drift.value.scoreDelta;
  }

  /** What the second and the third snapshot have to say about the first. */
  lemma SaysWorse(first: Id, id: Id, d: int, e: int, before: Time, at: Time)
    requires d <= 0 < e
    ensures var p, q := Row(first, d, before, None).profile, Row(id, e, at, Some(Worse(d, e))).profile;
            Drift.IsReport(p, q, Worse(d, e)) && q.quality.score - p.quality.score == -5.0
  {
    GetsWorse(first, d, e, before, at);
    Scores(d, before);
    Scores(e, at);
    Snapshots.DriftFieldIrrelevant(Row(first, d, before, None).profile, Evaluated(Profile(e), None, at), Worse(d, e));
  }

  /** Two workers run jobs for one table at the same time, and both read the previous profile before either
      has saved: the two snapshots carry the comparison with the same predecessor, and the reported score
      differences add up to -10 although the score fell by 5. So the condition of DriftTelescopes that no
      two workers are between the read and the save for one table cannot be dropped. */
  lemma SharedPredecessor(first: Id, x: Id, y: Id) returns (s: State)
    requires first != x && first != y && x != y
    ensures Reachable(s) && s.workers == 2
    ensures var h := Snapshots.History(s.profiles, "sales", "orders");
            && |h| == 3 && h[0].created < h[1].created < h[2].created
            && h[1].drift.Some? && Drift.IsReport(h[0], h[1], h[1].drift.value)
            && h[2].drift.Some? && Drift.IsReport(h[0], h[2], h[2].drift.value)
            && Snapshots.Deltas(h) == -10.0 && h[2].quality.score - h[0].quality.score == -5.0
  {
    var d, e := 0, 1;
    s := BothSave(first, x, y, d, e);
    var a, b, c := s.profiles[0], s.profiles[1], s.profiles[2];
    HistoryOfThree(a, b, c, "sales", "orders");
    DeltasOfThree(a.profile, b.profile, c.profile);
    SaysWorse(first, x, d, e, 0, 1);
    SaysWorse(first, y, d, e, 0, 2);
  }
}
