/** Start after a crash, and what becomes of queued rows. */
module Recovery {
  import opened Domain
  import opened Tables
  import opened Protocol
  import opened Ownership
  import opened Lifecycle

  // ----- Start's loop never runs into a full channel -----

  /** What is pending fits into the channel. */
  predicate Fits(s: State) {
    s.mem.boot.Requeueing? ==> |s.mem.chan| + |s.mem.boot.pending| <= CAPACITY
  }

  lemma FitsStep(s: State, st: Step)
    requires Own(s) && Fits(s) && Enabled(s, st)
    ensures Fits(Next(s, st))
  {
  }

  lemma {:induction false} FitsRun(s: State, steps: seq<Step>)
    requires Own(s) && Fits(s) && Valid(s, steps)
    ensures Fits(End(s, steps))
    decreases |steps|
  {
    if steps != [] {
      FitsStep(s, steps[0]);
      OwnStep(s, steps[0]);
      FitsRun(Next(s, steps[0]), steps[1..]);
    }
  }

  /** The branch of Start that reports "failed to requeue recovered job" and breaks is unreachable:
      whenever Start enqueues a listed job the channel has room and no Stop has begun. */
  lemma RequeueNeverFails(s: State)
    requires Reachable(s) && s.mem.boot.Requeueing? && s.mem.boot.pending != []
    ensures |s.mem.chan| < 1000 && !s.mem.stopped
  {
    ReachableInv(s);
    var n, after, clock :| Reaches(Init(n, after, clock), s);
    var steps :| Valid(Init(n, after, clock), steps) && End(Init(n, after, clock), steps) == s;
    FitsRun(Init(n, after, clock), steps);
  }

  // ----- crash recovery -----

  /** Every running row started longer than staleAfter before `now`. */
  predicate LateEnough(s: State, now: Time) {
    s.clock <= now &&
    forall id | id in s.jobs && s.jobs[id].status == Running && s.jobs[id].started.Some? ::
      s.jobs[id].started.value < now - s.staleAfter
  }

  function Restart(now: Time): seq<Step> {
    [Crash, Tick(now), Start, Recover(Ok)]
  }

  function Repeat(n: nat): (steps: seq<Step>)
    ensures |steps| == n
  {
    seq(n, i => Requeue)
  }

  function Restarted(s: State, now: Time): State {
    s.(clock := now, jobs := Recovered(s.jobs, now, s.staleAfter),
       mem := FRESH.(boot := Listing, started := true))
  }

  lemma RestartRuns(s: State, now: Time)
    requires s.clock <= now
    ensures Valid(s, Restart(now)) && End(s, Restart(now)) == Restarted(s, now)
  {
    var r := Restart(now);
    var s1 := Next(s, Crash);
    var s2 := Next(s1, Tick(now));
    var s3 := Next(s2, Start);
    var s4 := Next(s3, Recover(Ok));
    assert r[1..][1..][1..][1..] == [];
    assert Valid(s4, []) && End(s4, []) == s4;
    assert r[1..][1..][1..][0] == Recover(Ok);
    assert Valid(s3, r[1..][1..][1..]) && End(s3, r[1..][1..][1..]) == s4;
    assert r[1..][1..][0] == Start;
    assert Valid(s2, r[1..][1..]) && End(s2, r[1..][1..]) == s4;
    assert r[1..][0] == Tick(now);
    assert Valid(s1, r[1..]) && End(s1, r[1..]) == s4;
  }

  /** Start's loop, run to its end from a state in which everything pending fits. */
  lemma {:induction false} RequeueAll(s: State)
    requires s.mem.boot.Requeueing? && Fits(s) && !s.mem.stopped
    ensures var steps := Repeat(|s.mem.boot.pending| + 1);
            Valid(s, steps) &&
            var t := End(s, steps);
            && t == s.(mem := t.mem)
            && t.mem.boot.Up? && t.mem.chan == s.mem.chan + s.mem.boot.pending
            && t.mem.workers == seq(s.workers, i => Idle)
            && t.mem.calls == s.mem.calls && t.mem.stop == s.mem.stop
            && t.mem.open == s.mem.open && t.mem.stopped == s.mem.stopped && t.mem.cancelled == s.mem.cancelled
    decreases |s.mem.boot.pending|
  {
    var p := s.mem.boot.pending;
    var steps := Repeat(|p| + 1);
    var s' := Next(s, Requeue);
    assert steps[0] == Requeue;
    if p == [] {
      assert steps[1..] == [];
      assert Valid(s', steps[1..]) && End(s', steps[1..]) == s';
    } else {
      assert steps[1..] == Repeat(|p[1..]| + 1);
      RequeueAll(s');
      assert s.mem.chan + p == (s.mem.chan + [p[0]]) + p[1..];
    }
  }

  function BootSteps(now: Time, ids: seq<Id>): seq<Step> {
    Restart(now) + ([List(Ok, ids)] + Repeat(|ids| + 1))
  }

  /** Such a Start can be carried through: after a crash in any state there is a boot to the serving state
      for every admissible listing, here with no clock reading in between. */
  lemma BootCompletes(s: State, now: Time, ids: seq<Id>)
    requires Reachable(s) && LateEnough(s, now)
    requires OldestQueued(Recovered(s.jobs, now, s.staleAfter), 1000, ids)
    ensures Valid(s, BootSteps(now, ids))
    ensures var t := End(s, BootSteps(now, ids));
            && t.mem.boot.Up? && t.mem.chan == ids && t.mem.workers == seq(s.workers, i => Idle)
            && t.jobs == Recovered(s.jobs, now, s.staleAfter) && RunningIds(t.jobs) == {}
            && |ids| == Min(1000, |QueuedIds(t.jobs)|)
            && t.mem.calls == [] && t.mem.open && !t.mem.stopped
  {
    ReachableInv(s);
    var r := Restarted(s, now);
    RestartRuns(s, now);
    forall id | id in r.jobs ensures r.jobs[id].status != Running {
      assert RowOk(s.jobs[id], s.clock);
    }
    var l := Next(r, List(Ok, ids));
    RequeueAll(l);
    var tail := [List(Ok, ids)] + Repeat(|ids| + 1);
    assert tail[1..] == Repeat(|ids| + 1);
    assert l.mem.chan + l.mem.boot.pending == ids;
    assert Valid(r, tail);
    RunsCompose(s, Restart(now), tail);
  }

  /** When the recovery statement succeeds it leaves running exactly the rows that started too recently. */
  lemma RecoveryLeaves(s: State, id: Id)
    requires Reachable(s) && Enabled(s, Recover(Ok)) && id in s.jobs
    ensures var t := Next(s, Recover(Ok));
            id in t.jobs && (t.jobs[id].status == Running <==>
                             s.jobs[id].status == Running && s.jobs[id].started.Some? &&
                             s.jobs[id].started.value >= s.clock - s.staleAfter)
  {
    ReachableInv(s);
    assert RowOk(s.jobs[id], s.clock);
  }

  // ----- every way through Start -----

  /** The tables as the recovery at `now` left them. */
  ghost predicate RecoveredAt(s0: State, now: Time, s: State) {
    s0.clock <= now <= s.clock && s.jobs == Recovered(s0.jobs, now, s0.staleAfter)
  }

  /** How far a Start that began in `s0` has come, if its statements succeeded. */
  ghost predicate Booting(s0: State, now: Time, s: State) {
    var m := s.mem;
    && s.workers == s0.workers && s.staleAfter == s0.staleAfter && s0.clock <= s.clock
    && m == FRESH.(boot := m.boot, started := m.started, chan := m.chan, sent := m.sent, workers := m.workers)
    && match m.boot
       case Down => s.jobs == s0.jobs && m == FRESH
       case Recovering => s.jobs == s0.jobs && m == FRESH.(boot := Recovering, started := true)
       case Listing => RecoveredAt(s0, now, s) && m == FRESH.(boot := Listing, started := true)
       case Requeueing(pending) =>
         RecoveredAt(s0, now, s) && m.started && m.workers == [] && OldestQueued(s.jobs, CAPACITY, m.chan + pending)
       case Up =>
         RecoveredAt(s0, now, s) && m.workers == seq(s.workers, i => Idle) && OldestQueued(s.jobs, CAPACITY, m.chan)
  }

  predicate Succeeds(st: Step) {
    && !st.Crash?
    && (st.Recover? ==> st.a == Ok)
    && (st.List? ==> st.a == Ok)
  }

  lemma BootStep(s0: State, now: Time, s: State, st: Step) returns (now': Time)
    requires Booting(s0, now, s) && !s.mem.boot.Up? && Enabled(s, st) && Succeeds(st)
    ensures Booting(s0, now', Next(s, st))
  {
    now' := if st.Recover? then s.clock else now;
    match st
    case Requeue =>
      var m := s.mem;
      var pending := m.boot.pending;
      if pending != [] {
        assert m.chan + pending == (m.chan + [pending[0]]) + pending[1..];
      } else {
        assert m.chan + pending == m.chan;
      }
    case _ =>
  }

  lemma {:induction false} UpStays(s: State, steps: seq<Step>)
    requires s.mem.boot.Up? && s.mem.started && Valid(s, steps) && forall i | 0 <= i < |steps| :: !steps[i].Crash?
    ensures End(s, steps).mem.boot.Up?
    decreases |steps|
  {
    if steps != [] {
      UpStays(Next(s, steps[0]), steps[1..]);
    }
  }

  lemma {:induction false} BootRun(s0: State, now: Time, s: State, steps: seq<Step>) returns (now': Time)
    requires Own(s) && Booting(s0, now, s) && Valid(s, steps)
    requires forall i | 0 <= i < |steps| :: Succeeds(steps[i])
    requires !End(s, steps).mem.boot.Up?
    ensures Booting(s0, now', End(s, steps))
    decreases |steps|
  {
    now' := now;
    if s.mem.boot.Up? { UpStays(s, steps); }
    if steps != [] {
      now' := BootStep(s0, now, s, steps[0]);
      OwnStep(s, steps[0]);
      now' := BootRun(s0, now', Next(s, steps[0]), steps[1..]);
    }
  }

  /** Crash recovery. Whenever a process that crashed in any state boots and its two statements succeed,
      in whatever way the clock runs on between them: the workers start idle, the channel holds exactly
      the oldest of the queued rows (at most 1000, oldest first), the table is what the recovery at one
      moment `now` of the boot made of it, and a row is still running exactly if it was started within
      staleAfter before that moment; none is if the boot came late enough. */
  lemma CrashRecovery(s: State, steps: seq<Step>) returns (now: Time)
    requires Reachable(s) && s.mem.boot.Down? && Valid(s, steps)
    requires forall i | 0 <= i < |steps| :: Succeeds(steps[i])
    requires End(s, steps).mem.boot.Requeueing? && Next(End(s, steps), Requeue).mem.boot.Up?
    ensures var t := Next(End(s, steps), Requeue);
            && t.mem.workers == seq(s.workers, i => Idle) && OldestQueued(t.jobs, 1000, t.mem.chan)
            && s.clock <= now <= t.clock && t.jobs == Recovered(s.jobs, now, s.staleAfter)
            && StaleRequeued(s.jobs, t.jobs, now, s.staleAfter)
            && t.mem.calls == [] && t.mem.open && !t.mem.stopped && !t.mem.cancelled
    ensures var t := Next(End(s, steps), Requeue);
            forall id | id in t.jobs :: t.jobs[id].status == Running <==>
                s.jobs[id].status == Running && s.jobs[id].started.Some?
                && s.jobs[id].started.value >= now - s.staleAfter
    ensures LateEnough(s, now) ==> RunningIds(Next(End(s, steps), Requeue).jobs) == {}
  {
    ReachableInv(s);
    assert s.mem == FRESH;
    var u := End(s, steps);
    now := BootRun(s, s.clock, s, steps);
    now := BootStep(s, now, u, Requeue);
    forall id | id in s.jobs ensures RowOk(s.jobs[id], s.clock) {}
  }

  // ----- no job is lost -----

  /** Some place of the manager holds the id. */
  ghost predicate Held(m: Mem, id: Id) {
    exists p :: Holds(m, p, id)
  }

  /** Once Start has listed them, every queued row is held. */
  ghost predicate NoneLost(s: State) {
    s.mem.boot.Requeueing? || s.mem.boot.Up? ==>
      forall id | IsQueued(s.jobs, id) :: Held(s.mem, id)
  }

  /** No store failure, crash or Stop. A unique violation is not a failure of the store. */
  ghost predicate Calm(s: State, st: Step) {
    match st
    case Crash => false
    case CloseDb => false
    case Stop => false
    case Halt(_) => false
    case Recover(a) => a == Ok
    case List(a, _) => a == Ok
    case Work(_, w) =>
      (match w
       case Load(a) => a == Ok
       case MarkDone(a) => a == Ok
       case Finish(a, _) => a == Ok
       case _ => true)
    case Advance(c, cs) =>
      (match cs
       case Insert(a) =>
         c < |s.mem.calls| && s.mem.calls[c].Inserting? &&
         (a == Ok || (a == Refused && KeyTaken(s.jobs, s.mem.calls[c].ticket.key)))
       case Reject(a, _) => a == Ok
       case _ => true)
    case _ => true
  }

  function ToSet(ids: seq<Id>): set<Id> {
    if ids == [] then {} else {ids[0]} + ToSet(ids[1..])
  }

  lemma {:induction false} ToSetMember(ids: seq<Id>, id: Id)
    ensures id in ToSet(ids) <==> id in ids
  {
    if ids != [] {
      ToSetMember(ids[1..], id);
    }
  }

  lemma {:induction false} ToSetCount(ids: seq<Id>)
    requires NoDup(ids)
    ensures |ToSet(ids)| == |ids|
  {
    if ids != [] {
      ToSetCount(ids[1..]);
      ToSetMember(ids[1..], ids[0]);
    }
  }

  lemma ToSetSize(ids: seq<Id>)
    requires NoDup(ids)
    ensures forall id :: id in ToSet(ids) <==> id in ids
    ensures |ToSet(ids)| == |ids|
  {
    ToSetCount(ids);
    forall id ensures id in ToSet(ids) <==> id in ids { ToSetMember(ids, id); }
  }

  lemma SubsetSize(a: set<Id>, b: set<Id>)
    requires a <= b
    ensures |b - a| == |b| - |a|
    ensures |a| == |b| <==> a == b
  {
    assert b == a + (b - a);
  }

  lemma ListedAll(jobs: Jobs, ids: seq<Id>)
    requires OldestQueued(jobs, CAPACITY, ids)
    ensures (forall id | IsQueued(jobs, id) :: id in ids) <==> |QueuedIds(jobs)| <= CAPACITY
  {
    var listed := ToSet(ids);
    ToSetSize(ids);
    assert listed <= QueuedIds(jobs);
    SubsetSize(listed, QueuedIds(jobs));
    if forall id | IsQueued(jobs, id) :: id in ids {
      assert listed == QueuedIds(jobs);
    } else {
      var id :| IsQueued(jobs, id) && id !in ids;
      assert id in QueuedIds(jobs) - listed;
      assert |QueuedIds(jobs) - listed| > 0;
    }
  }

  /** Start takes up exactly what it has listed. */
  lemma ListHolds(s: State, a: Answer, ids: seq<Id>, id: Id)
    requires Shape(s) && Enabled(s, List(a, ids))
    ensures Held(Next(s, List(a, ids)).mem, id) <==> a == Ok && id in ids
  {
    var m' := Next(s, List(a, ids)).mem;
    assert Holds(m', InPending, id) <==> a == Ok && id in ids;
    forall p | p != InPending ensures !Holds(m', p, id) {}
  }

  /** The listing reaches every queued row exactly when there are at most 1000; otherwise some queued row
      is held nowhere, and stays so until another boot. */
  lemma ListingReachesAll(s: State, ids: seq<Id>)
    requires Reachable(s) && Enabled(s, List(Ok, ids))
    ensures NoneLost(Next(s, List(Ok, ids))) <==> |QueuedIds(s.jobs)| <= 1000
  {
    ReachableInv(s);
    ListedAll(s.jobs, ids);
    forall id ensures Held(Next(s, List(Ok, ids)).mem, id) <==> id in ids { ListHolds(s, Ok, ids, id); }
  }

  // ----- who lets go of a job -----

  /** The holder of `id` gives it up although its row is not finished: a worker whose read or marking
      fails or comes after the cancellation, or whose final write is not applied; a Create call whose
      insertion is applied but not acknowledged, or whose failure write is not applied; Stop, when its
      read fails or its write is not applied. */
  predicate Drops(s: State, st: Step, id: Id) {
    match st
    case Work(i, w) =>
      i < |s.mem.workers| && s.mem.workers[i].Holding() == Some(id) &&
      (match w
       case Load(a) => a != Ok
       case Mark(_) => s.mem.cancelled
       case MarkDone(a) => a != Ok
       case Finish(a, _) => a == Refused
       case _ => false)
    case Advance(c, cs) =>
      c < |s.mem.calls| && s.mem.calls[c].Holding() == Some(id) &&
      (match cs
       case Insert(a) => a == Lost
       case Reject(a, _) => a == Refused
       case _ => false)
    case Halt(h) =>
      s.mem.stop.Holding() == Some(id) &&
      (match h
       case DrainLoad(a) => a != Ok
       case DrainWrite(a, _) => a == Refused
       case _ => false)
    case _ => false
  }

  lemma CalmDropsNothing(s: State, st: Step, id: Id)
    requires Shape(s) && Enabled(s, st) && Calm(s, st) && !s.mem.stopped
    ensures !Drops(s, st, id)
  {
  }

  /** A worker lets go of its id only when the row is finished, or drops it. */
  lemma WorkerKeepsId(s: State, i: nat, w: WorkerStep)
    requires Inv(s) && Enabled(s, Work(i, w)) && !w.Receive?
    requires s.mem.workers[i].Holding().Some? && s.mem.workers[i].id in s.jobs
    requires !Drops(s, Work(i, w), s.mem.workers[i].id)
    requires !Terminal(Next(s, Work(i, w)).jobs[s.mem.workers[i].id])
    ensures WorkerNext(s, s.mem.workers[i], w).Holding() == s.mem.workers[i].Holding()
  {
    assert PlaceOk(s.jobs, s.clock, s.mem, AtWorker(i));
  }

  lemma WorkKeepsHeld(s: State, i: nat, w: WorkerStep, id: Id)
    requires Inv(s) && Enabled(s, Work(i, w)) && !Drops(s, Work(i, w), id)
    requires Held(s.mem, id) && id in s.jobs && !Terminal(Next(s, Work(i, w)).jobs[id])
    ensures Held(Next(s, Work(i, w)).mem, id)
  {
    var s' := Next(s, Work(i, w));
    var p :| Holds(s.mem, p, id);
    if w.Receive? {
      assert Holds(s'.mem, if p == InChannel && id == s.mem.chan[0] then AtWorker(i) else p, id);
    } else {
      WorkMem(s, i, w);
      if p == AtWorker(i) { WorkerKeepsId(s, i, w); }
      assert Holds(s'.mem, p, id);
    }
  }

  /** A call that holds an unfinished row passes it on to the channel or keeps it, or drops it. */
  lemma CallKeepsId(s: State, c: nat, cs: CallStep, id: Id)
    requires Inv(s) && Enabled(s, Advance(c, cs)) && !Drops(s, Advance(c, cs), id)
    requires Holds(s.mem, AtCall(c), id) && id in s.jobs
    requires id in Next(s, Advance(c, cs)).jobs && !Terminal(Next(s, Advance(c, cs)).jobs[id])
    ensures Held(Next(s, Advance(c, cs)).mem, id)
  {
    var s' := Next(s, Advance(c, cs));
    assert PlaceOk(s.jobs, s.clock, s.mem, AtCall(c));
    assert Holds(s'.mem, InChannel, id) || Holds(s'.mem, AtCall(c), id);
  }

  lemma AdvanceKeepsHeld(s: State, c: nat, cs: CallStep, id: Id)
    requires Inv(s) && Enabled(s, Advance(c, cs)) && !Drops(s, Advance(c, cs), id)
    requires Held(s.mem, id) && id in s.jobs
    requires id in Next(s, Advance(c, cs)).jobs && !Terminal(Next(s, Advance(c, cs)).jobs[id])
    ensures Held(Next(s, Advance(c, cs)).mem, id)
  {
    var p :| Holds(s.mem, p, id);
    if p == AtCall(c) {
      CallKeepsId(s, c, cs, id);
    } else {
      CallMem(s, c, cs);
      assert Holds(Next(s, Advance(c, cs)).mem, p, id);
    }
  }

  /** Whoever inserts a row holds it, or drops it at once. */
  lemma InsertHolds(s: State, c: nat, cs: CallStep, id: Id)
    requires Enabled(s, Advance(c, cs)) && !Drops(s, Advance(c, cs), id)
    requires id !in s.jobs && id in Next(s, Advance(c, cs)).jobs
    ensures Held(Next(s, Advance(c, cs)).mem, id)
  {
    CallMem(s, c, cs);
    assert Holds(Next(s, Advance(c, cs)).mem, AtCall(c), id);
  }

  lemma Kept(s: State, s': State, id: Id)
    requires Held(s.mem, id) && forall p | Holds(s.mem, p, id) :: Holds(s'.mem, p, id)
    ensures Held(s'.mem, id)
  {
    var p :| Holds(s.mem, p, id);
    assert Holds(s'.mem, p, id);
  }

  /** Stop fails what it has drained, or drops it. */
  lemma StopKeepsHeld(s: State, h: StopStep, id: Id)
    requires Inv(s) && Enabled(s, Halt(h)) && !Drops(s, Halt(h), id)
    requires Held(s.mem, id) && id in s.jobs && !Terminal(Next(s, Halt(h)).jobs[id])
    ensures Held(Next(s, Halt(h)).mem, id)
  {
    var s' := Next(s, Halt(h));
    var p :| Holds(s.mem, p, id);
    assert PlaceOk(s.jobs, s.clock, s.mem, AtStop);
    assert Holds(s'.mem, if h.Drain? && p == InChannel && id == s.mem.chan[0] then AtStop else p, id);
  }

  /** Requeue passes pending ids on to the channel. */
  lemma RequeueKeepsHeld(s: State, id: Id)
    requires Own(s) && Fits(s) && Enabled(s, Requeue) && Held(s.mem, id)
    ensures Held(Next(s, Requeue).mem, id)
  {
    var m' := Next(s, Requeue).mem;
    var p :| Holds(s.mem, p, id);
    assert Holds(m', p, id) || Holds(m', InChannel, id);
  }

  lemma RestKeepsHeld(s: State, st: Step, id: Id)
    requires Inv(s) && Enabled(s, st) && Held(s.mem, id) && HasListed(s)
    requires st.Tick? || st.Start? || st.Create? || st.CloseDb? || st.Stop?
    ensures Held(Next(s, st).mem, id)
  {
    Kept(s, Next(s, st), id);
  }

  /** Start has read its list. */
  predicate HasListed(s: State) {
    s.mem.boot.Requeueing? || s.mem.boot.Up?
  }

  /** Nobody lets go of an unfinished row except by dropping it. */
  lemma KeptUnlessDropped(s: State, st: Step, id: Id)
    requires Inv(s) && Fits(s) && HasListed(s) && Enabled(s, st) && !st.Crash? && !Drops(s, st, id)
    requires Held(s.mem, id) && id in s.jobs
    requires id in Next(s, st).jobs && !Terminal(Next(s, st).jobs[id])
    ensures Held(Next(s, st).mem, id)
  {
    match st
    case Work(i, w) => WorkKeepsHeld(s, i, w, id);
    case Advance(c, cs) => AdvanceKeepsHeld(s, c, cs, id);
    case Halt(h) => StopKeepsHeld(s, h, id);
    case Requeue => RequeueKeepsHeld(s, id);
    case Tick(_) | Start | Create(_, _, _) | CloseDb | Stop => RestKeepsHeld(s, st, id);
    case _ =>
  }

  /** Only Create adds rows. */
  lemma AddedIsHeld(s: State, st: Step, id: Id)
    requires Enabled(s, st) && !Drops(s, st, id) && id !in s.jobs && id in Next(s, st).jobs
    ensures Held(Next(s, st).mem, id)
  {
    match st
    case Work(i, w) => WorkMem(s, i, w);
    case Advance(c, cs) => InsertHolds(s, c, cs, id);
    case _ =>
  }

  lemma CalmList(s: State, ids: seq<Id>, id: Id)
    requires Shape(s) && Enabled(s, List(Ok, ids)) && |QueuedIds(s.jobs)| <= CAPACITY && IsQueued(s.jobs, id)
    ensures Held(Next(s, List(Ok, ids)).mem, id)
  {
    ListedAll(s.jobs, ids);
    ListHolds(s, Ok, ids, id);
  }

  /** A calm step loses no queued row. */
  lemma CalmStep(s: State, st: Step)
    requires Inv(s) && Fits(s) && Enabled(s, st) && Calm(s, st) && !s.mem.stopped
    requires NoneLost(s)
    requires st.List? ==> |QueuedIds(s.jobs)| <= CAPACITY
    ensures NoneLost(Next(s, st)) && !Next(s, st).mem.stopped
  {
    var s' := Next(s, st);
    if HasListed(s') {
      forall id | IsQueued(s'.jobs, id) ensures Held(s'.mem, id) {
        if st.List? { CalmList(s, st.ids, id); } else { CalmQueued(s, st, id); }
      }
    }
  }

  lemma CalmQueued(s: State, st: Step, id: Id)
    requires Inv(s) && Fits(s) && HasListed(s) && Enabled(s, st) && Calm(s, st) && !s.mem.stopped
    requires NoneLost(s) && IsQueued(Next(s, st).jobs, id)
    ensures Held(Next(s, st).mem, id)
  {
    CalmDropsNothing(s, st, id);
    if id in s.jobs {
      WritesOf(s, st);
      KeptUnlessDropped(s, st, id);
    } else {
      AddedIsHeld(s, st, id);
    }
  }

  ghost predicate CalmRun(s: State, steps: seq<Step>)
    requires Valid(s, steps)
    decreases |steps|
  {
    steps == [] ||
    (Calm(s, steps[0]) && (steps[0].List? ==> |QueuedIds(s.jobs)| <= 1000)
     && CalmRun(Next(s, steps[0]), steps[1..]))
  }

  lemma {:induction false} CalmRuns(s: State, steps: seq<Step>)
    requires Inv(s) && Fits(s) && NoneLost(s) && !s.mem.stopped && Valid(s, steps) && CalmRun(s, steps)
    ensures NoneLost(End(s, steps)) && Inv(End(s, steps))
    decreases |steps|
  {
    if steps != [] {
      CalmStep(s, steps[0]);
      FitsStep(s, steps[0]);
      InvStep(s, steps[0]);
      CalmRuns(Next(s, steps[0]), steps[1..]);
    }
  }

  /** No lost job. Boot a process on whatever tables a run left behind. As long as nothing fails, nobody
      calls Stop, and at most 1000 rows were queued when Start listed them, every queued row is in
      exactly one place, and the channel never holds more than 1000 ids. */
  lemma NoJobIsLost(s: State, steps: seq<Step>, id: Id)
    requires Reachable(s) && s.mem.boot.Down? && Valid(s, steps) && CalmRun(s, steps)
    requires End(s, steps).mem.boot.Requeueing? || End(s, steps).mem.boot.Up?
    requires IsQueued(End(s, steps).jobs, id)
    ensures exists p :: Holds(End(s, steps).mem, p, id) && forall q | Holds(End(s, steps).mem, q, id) :: q == p
    ensures |End(s, steps).mem.chan| <= 1000
  {
    ReachableInv(s);
    CalmRuns(s, steps);
    var p :| Holds(End(s, steps).mem, p, id);
  }
}
