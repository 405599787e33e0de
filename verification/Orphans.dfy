/** Rows that nobody holds: the process does not come back to them before its next boot. */
module Orphans {
  import opened Domain
  import opened Tables
  import opened Protocol
  import opened Ownership
  import opened Lifecycle
  import opened Recovery

  // ----- rows change in the hands of their holder only -----

  function RowOf(jobs: Jobs, id: Id): Option<Job> {
    if id in jobs then Some(jobs[id]) else None
  }

  lemma WorkersWriteTheirs(s: State, i: nat, w: WorkerStep, id: Id)
    requires Enabled(s, Work(i, w)) && RowOf(Next(s, Work(i, w)).jobs, id) != RowOf(s.jobs, id)
    ensures Holds(s.mem, AtWorker(i), id)
  {
  }

  lemma CallsWriteTheirs(s: State, c: nat, cs: CallStep, id: Id)
    requires Enabled(s, Advance(c, cs)) && RowOf(Next(s, Advance(c, cs)).jobs, id) != RowOf(s.jobs, id)
    ensures Holds(s.mem, AtCall(c), id)
  {
  }

  /** Only whoever holds a job inserts or writes its row, the recovery statement excepted. */
  lemma OnlyHoldersWrite(s: State, st: Step, id: Id)
    requires Enabled(s, st) && !st.Recover?
    requires RowOf(Next(s, st).jobs, id) != RowOf(s.jobs, id)
    ensures Held(s.mem, id)
  {
    match st
    case Work(i, w) => WorkersWriteTheirs(s, i, w, id);
    case Advance(c, cs) => CallsWriteTheirs(s, c, cs, id);
    case Halt(h) => assert Holds(s.mem, AtStop, id);
    case _ =>
  }

  lemma WorkersTakeNothingUp(s: State, i: nat, w: WorkerStep, id: Id)
    requires Enabled(s, Work(i, w)) && !Held(s.mem, id)
    ensures !Held(Next(s, Work(i, w)).mem, id)
  {
    var m, m' := s.mem, Next(s, Work(i, w)).mem;
    if w.Receive? {
      assert Holds(m, InChannel, m.chan[0]);
      assert forall p | Holds(m', p, id) :: Holds(m, p, id);
    } else {
      WorkMem(s, i, w);
      assert Shrinks(m, m');
    }
  }

  lemma CallsTakeNothingUp(s: State, c: nat, cs: CallStep, id: Id)
    requires Enabled(s, Advance(c, cs)) && !Held(s.mem, id)
    ensures !Held(Next(s, Advance(c, cs)).mem, id)
  {
    var m, m' := s.mem, Next(s, Advance(c, cs)).mem;
    var before, after := m.calls[c], CallNext(s, m.calls[c], cs);
    assert m'.calls == m.calls[c := after];
    assert after.Holding() == before.Holding() || after.Holding() == None;
    assert id in m'.chan ==> Holds(m, InChannel, id) || Holds(m, AtCall(c), id);
    forall p ensures !Holds(m', p, id) {
      assert p != InChannel && Holds(m', p, id) ==> Holds(m, p, id);
    }
  }

  lemma StopTakesNothingUp(s: State, h: StopStep, id: Id)
    requires Enabled(s, Halt(h)) && !Held(s.mem, id)
    ensures !Held(Next(s, Halt(h)).mem, id)
  {
    var m, m' := s.mem, Next(s, Halt(h)).mem;
    if h.Drain? && m.chan != [] {
      assert Holds(m, InChannel, m.chan[0]);
      assert forall p | Holds(m', p, id) :: Holds(m, p, id);
    } else {
      assert Shrinks(m, m');
    }
  }

  lemma RequeueTakesNothingUp(s: State, id: Id)
    requires Enabled(s, Requeue) && !Held(s.mem, id)
    ensures !Held(Next(s, Requeue).mem, id)
  {
    var m, m' := s.mem, Next(s, Requeue).mem;
    if m.boot.pending != [] { assert Holds(m, InPending, m.boot.pending[0]); }
    assert id in m'.chan ==> Holds(m, InChannel, id) || Holds(m, InPending, id);
    forall p ensures !Holds(m', p, id) {
      assert p != InChannel && Holds(m', p, id) ==> Holds(m, p, id);
    }
  }

  lemma OthersTakeNothingUp(s: State, st: Step, id: Id)
    requires HasListed(s) && Own(s) && Enabled(s, st) && id in s.issued && !Held(s.mem, id)
    requires st.Tick? || st.Start? || st.CloseDb? || st.Stop? || st.Create?
    ensures !Held(Next(s, st).mem, id)
  {
    var m, m' := s.mem, Next(s, st).mem;
    assert forall p | Holds(m', p, id) :: Holds(m, p, id);
  }

  /** Nobody takes up a job that was issued but is in no one's hands. */
  lemma NobodyTakesUp(s: State, st: Step, id: Id)
    requires HasListed(s) && Own(s) && Enabled(s, st) && !st.Crash? && id in s.issued && !Held(s.mem, id)
    ensures !Held(Next(s, st).mem, id)
  {
    match st
    case Work(i, w) => WorkersTakeNothingUp(s, i, w, id);
    case Advance(c, cs) => CallsTakeNothingUp(s, c, cs, id);
    case Halt(h) => StopTakesNothingUp(s, h, id);
    case Requeue => RequeueTakesNothingUp(s, id);
    case Tick(_) | Start | CloseDb | Stop | Create(_, _, _) => OthersTakeNothingUp(s, st, id);
    case _ =>
  }

  lemma StaysListed(s: State, st: Step)
    requires HasListed(s) && Shape(s) && Enabled(s, st) && !st.Crash?
    ensures HasListed(Next(s, st)) && !st.Recover? && s.issued <= Next(s, st).issued
  {
  }

  /** An id in nobody's hands stays there, with its row or without one, as long as the process lives. */
  lemma {:induction false} Untouched(s: State, steps: seq<Step>, id: Id)
    requires HasListed(s) && Own(s) && id in s.issued && !Held(s.mem, id)
    requires Valid(s, steps) && forall i | 0 <= i < |steps| :: !steps[i].Crash?
    ensures RowOf(End(s, steps).jobs, id) == RowOf(s.jobs, id) && !Held(End(s, steps).mem, id)
    decreases |steps|
  {
    if steps != [] {
      StaysListed(s, steps[0]);
      if RowOf(Next(s, steps[0]).jobs, id) != RowOf(s.jobs, id) { OnlyHoldersWrite(s, steps[0], id); }
      NobodyTakesUp(s, steps[0], id);
      OwnStep(s, steps[0]);
      Untouched(Next(s, steps[0]), steps[1..], id);
    }
  }

  /** An orphan, a row that no place holds, stays exactly as it is until the next boot. */
  lemma OrphansStay(s: State, steps: seq<Step>, id: Id)
    requires Own(s) && HasListed(s) && id in s.jobs && !Held(s.mem, id)
    requires Valid(s, steps) && forall i | 0 <= i < |steps| :: !steps[i].Crash?
    ensures id in End(s, steps).jobs && End(s, steps).jobs[id] == s.jobs[id]
    ensures !Held(End(s, steps).mem, id)
  {
    Untouched(s, steps, id);
  }

  /** Whatever Start's listing leaves out, queued rows beyond the first 1000 and everything that is not
      queued, and all rows if the listing fails, stays exactly as it is until another boot. */
  lemma LeftOutStays(s: State, a: Answer, ids: seq<Id>, steps: seq<Step>, id: Id)
    requires Reachable(s) && Enabled(s, List(a, ids)) && id in s.jobs && (a == Ok ==> id !in ids)
    requires Valid(Next(s, List(a, ids)), steps) && forall i | 0 <= i < |steps| :: !steps[i].Crash?
    ensures var t := End(Next(s, List(a, ids)), steps);
            id in t.jobs && t.jobs[id] == s.jobs[id] && !Held(t.mem, id)
  {
    ReachableInv(s);
    OwnStep(s, List(a, ids));
    ListHolds(s, a, ids, id);
    OrphansStay(Next(s, List(a, ids)), steps, id);
  }

  /** A row that is running when Start begins and that the recovery leaves running, as RecoveryLeaves says
      of every row started within staleAfter, stays running and untouched until another boot: there is no
      second recovery. */
  lemma {:induction false} LeftRunningStays(s: State, steps: seq<Step>, id: Id)
    requires Own(s) && s.mem.boot.Listing? && id in s.jobs && s.jobs[id].status == Running
    requires Valid(s, steps) && forall i | 0 <= i < |steps| :: !steps[i].Crash?
    ensures id in End(s, steps).jobs && End(s, steps).jobs[id] == s.jobs[id]
    decreases |steps|
  {
    if steps != [] {
      OwnStep(s, steps[0]);
      if steps[0].List? {
        OrphansStay(Next(s, steps[0]), steps[1..], id);
      } else {
        LeftRunningStays(Next(s, steps[0]), steps[1..], id);
      }
    }
  }

  /** Crash recovery at its limit. A row that is running when a booting process issues the recovery
      statement is still running, and untouched, at the end of every run of that process exactly if the
      statement was not applied or the row was started within staleAfter; otherwise it is queued again at
      once. */
  lemma RunningForGood(s: State, a: Answer, s1: State, steps: seq<Step>, id: Id)
    requires Reachable(s) && Enabled(s, Recover(a)) && id in s.jobs && s.jobs[id].status == Running
    requires s1 == Next(s, Recover(a))
    requires Valid(s1, steps) && forall i | 0 <= i < |steps| :: !steps[i].Crash?
    ensures var recent := s.jobs[id].started.Some? && s.jobs[id].started.value >= s.clock - s.staleAfter;
            if a == Refused || recent
            then id in End(s1, steps).jobs && End(s1, steps).jobs[id] == s.jobs[id]
            else IsQueued(s1.jobs, id)
  {
    ReachableInv(s);
    assert RowOk(s.jobs[id], s.clock);
    OwnStep(s, Recover(a));
    if s1.jobs[id].status == Running { LeftRunningStays(s1, steps, id); }
  }

  // ----- exactly how a job gets lost -----

  /** An unfinished job in nobody's hands: nobody will come back to it before the next boot. */
  ghost predicate Adrift(s: State, id: Id) {
    id in s.jobs && !Terminal(s.jobs[id]) && !Held(s.mem, id)
  }

  lemma WorkerDrops(s: State, i: nat, w: WorkerStep, id: Id)
    requires Inv(s) && Enabled(s, Work(i, w)) && Drops(s, Work(i, w), id)
    ensures Adrift(Next(s, Work(i, w)), id)
  {
    var s' := Next(s, Work(i, w));
    assert PlaceOk(s.jobs, s.clock, s.mem, AtWorker(i));
    assert Holds(s.mem, AtWorker(i), id);
    WorkMem(s, i, w);
    forall p ensures !Holds(s'.mem, p, id) {
      assert p != AtWorker(i) && Holds(s'.mem, p, id) ==> Holds(s.mem, p, id);
    }
  }

  lemma CallDrops(s: State, c: nat, cs: CallStep, id: Id)
    requires Inv(s) && Enabled(s, Advance(c, cs)) && Drops(s, Advance(c, cs), id)
    ensures Adrift(Next(s, Advance(c, cs)), id)
  {
    var s' := Next(s, Advance(c, cs));
    assert PlaceOk(s.jobs, s.clock, s.mem, AtCall(c));
    assert Holds(s.mem, AtCall(c), id);
    CallMem(s, c, cs);
    forall p ensures !Holds(s'.mem, p, id) {
      assert p != AtCall(c) && Holds(s'.mem, p, id) ==> Holds(s.mem, p, id);
    }
  }

  lemma StopDrops(s: State, h: StopStep, id: Id)
    requires Inv(s) && Enabled(s, Halt(h)) && Drops(s, Halt(h), id)
    ensures Adrift(Next(s, Halt(h)), id)
  {
    var s' := Next(s, Halt(h));
    assert PlaceOk(s.jobs, s.clock, s.mem, AtStop);
    assert Holds(s.mem, AtStop, id);
    forall p ensures !Holds(s'.mem, p, id) {
      assert p != AtStop && Holds(s'.mem, p, id) ==> Holds(s.mem, p, id);
    }
  }

  lemma StaysAdrift(s: State, st: Step, id: Id)
    requires Own(s) && HasListed(s) && Enabled(s, st) && !st.Crash? && Adrift(s, id)
    ensures Adrift(Next(s, st), id)
  {
    StaysListed(s, st);
    NobodyTakesUp(s, st, id);
    if RowOf(Next(s, st).jobs, id) != RowOf(s.jobs, id) { OnlyHoldersWrite(s, st, id); }
  }

  lemma NotAdrift(s: State, st: Step, id: Id)
    requires Inv(s) && Fits(s) && HasListed(s) && Enabled(s, st) && !st.Crash?
    requires !Adrift(s, id) && !Drops(s, st, id)
    ensures !Adrift(Next(s, st), id)
  {
    if id in Next(s, st).jobs && !Terminal(Next(s, st).jobs[id]) {
      if id in s.jobs {
        RowPersists(s, st, id);
        KeptUnlessDropped(s, st, id);
      } else {
        AddedIsHeld(s, st, id);
      }
    }
  }

  /** One step: a job is adrift afterwards exactly if it was before, or its holder drops it. */
  lemma AdriftStep(s: State, st: Step, id: Id)
    requires Inv(s) && Fits(s) && HasListed(s) && Enabled(s, st) && !st.Crash?
    ensures Adrift(Next(s, st), id) <==> Adrift(s, id) || Drops(s, st, id)
  {
    if Adrift(s, id) {
      StaysAdrift(s, st, id);
    } else if Drops(s, st, id) {
      match st
      case Work(i, w) => WorkerDrops(s, i, w, id);
      case Advance(c, cs) => CallDrops(s, c, cs, id);
      case Halt(h) => StopDrops(s, h, id);
    } else {
      NotAdrift(s, st, id);
    }
  }

  /** Some step of the run drops the job. */
  ghost predicate DroppedIn(s: State, steps: seq<Step>, id: Id)
    requires Valid(s, steps)
    decreases |steps|
  {
    steps != [] && (Drops(s, steps[0], id) || DroppedIn(Next(s, steps[0]), steps[1..], id))
  }

  lemma {:induction false} AdriftRun(s: State, steps: seq<Step>, id: Id)
    requires Inv(s) && Fits(s) && HasListed(s)
    requires Valid(s, steps) && forall i | 0 <= i < |steps| :: !steps[i].Crash?
    ensures Adrift(End(s, steps), id) <==> Adrift(s, id) || DroppedIn(s, steps, id)
    decreases |steps|
  {
    if steps != [] {
      AdriftStep(s, steps[0], id);
      InvStep(s, steps[0]);
      FitsStep(s, steps[0]);
      StaysListed(s, steps[0]);
      AdriftRun(Next(s, steps[0]), steps[1..], id);
    }
  }

  /** The unfinished rows that a listing passes over: all of them, if it fails. */
  function PassedOver(s: State, a: Answer, ids: seq<Id>): set<Id> {
    set id | id in s.jobs && !Terminal(s.jobs[id]) && !(a == Ok && id in ids)
  }

  lemma Listed(s: State, a: Answer, ids: seq<Id>)
    requires Reachable(s) && Enabled(s, List(a, ids))
    ensures var t := Next(s, List(a, ids));
            && Inv(t) && Fits(t) && HasListed(t)
            && forall id :: Adrift(t, id) <==> id in PassedOver(s, a, ids)
  {
    ReachableInv(s);
    InvStep(s, List(a, ids));
    forall id ensures Adrift(Next(s, List(a, ids)), id) <==> id in PassedOver(s, a, ids) {
      ListHolds(s, a, ids, id);
    }
  }

  /** Exactly how a job gets lost. Take any process from its listing on, whatever fails and whoever stops
      it: at the end of every run in which it does not crash a job is unfinished and in nobody's hands if
      and only if the listing passed over it or some step dropped it. */
  lemma AdriftExactly(s: State, a: Answer, ids: seq<Id>, steps: seq<Step>, id: Id)
    requires Reachable(s) && Enabled(s, List(a, ids))
    requires Valid(Next(s, List(a, ids)), steps) && forall i | 0 <= i < |steps| :: !steps[i].Crash?
    ensures Adrift(End(Next(s, List(a, ids)), steps), id) <==>
            id in PassedOver(s, a, ids) || DroppedIn(Next(s, List(a, ids)), steps, id)
  {
    Listed(s, a, ids);
    AdriftRun(Next(s, List(a, ids)), steps, id);
  }

  /** When Create returns a job that nobody will run. Whichever way the call returns, by the first lookup,
      by the second or by enqueueing, the job it returns is unfinished and in nobody's hands exactly if the
      listing had passed over it or some earlier step had dropped it, be it of this call or of another,
      of a worker or of Stop. */
  lemma ReturnedAdrift(s: State, a: Answer, ids: seq<Id>, steps: seq<Step>, c: nat, cs: CallStep)
    requires Reachable(s) && Enabled(s, List(a, ids))
    requires Valid(Next(s, List(a, ids)), steps) && forall i | 0 <= i < |steps| :: !steps[i].Crash?
    requires Enabled(End(Next(s, List(a, ids)), steps), Advance(c, cs))
    requires cs.Lookup? || cs.Retry? || cs.Send?
    requires Next(End(Next(s, List(a, ids)), steps), Advance(c, cs)).mem.calls[c].Returned?
    ensures var v := Next(End(Next(s, List(a, ids)), steps), Advance(c, cs));
            var x := v.mem.calls[c].id;
            && x in v.jobs
            && (Adrift(v, x) <==> x in PassedOver(s, a, ids) || DroppedIn(Next(s, List(a, ids)), steps, x))
  {
    Listed(s, a, ids);
    ReturnedSince(Next(s, List(a, ids)), steps, c, cs);
  }

  lemma ReturnedSince(s: State, steps: seq<Step>, c: nat, cs: CallStep)
    requires Inv(s) && Fits(s) && HasListed(s)
    requires Valid(s, steps) && forall i | 0 <= i < |steps| :: !steps[i].Crash?
    requires Enabled(End(s, steps), Advance(c, cs)) && (cs.Lookup? || cs.Retry? || cs.Send?)
    requires Next(End(s, steps), Advance(c, cs)).mem.calls[c].Returned?
    ensures var v := Next(End(s, steps), Advance(c, cs));
            var x := v.mem.calls[c].id;
            x in v.jobs && (Adrift(v, x) <==> Adrift(s, x) || DroppedIn(s, steps, x))
  {
    ListedRun(s, steps);
    ReturnStep(End(s, steps), c, cs);
    AdriftRun(s, steps, Next(End(s, steps), Advance(c, cs)).mem.calls[c].id);
  }

  lemma ReturnStep(u: State, c: nat, cs: CallStep)
    requires Inv(u) && Fits(u) && HasListed(u) && Enabled(u, Advance(c, cs))
    requires cs.Lookup? || cs.Retry? || cs.Send?
    requires Next(u, Advance(c, cs)).mem.calls[c].Returned?
    ensures var v := Next(u, Advance(c, cs));
            v.mem.calls[c].id in v.jobs && (Adrift(v, v.mem.calls[c].id) <==> Adrift(u, v.mem.calls[c].id))
  {
    var v := Next(u, Advance(c, cs));
    InvStep(u, Advance(c, cs));
    assert PlaceOk(v.jobs, v.clock, v.mem, AtCall(c));
    AdriftStep(u, Advance(c, cs), v.mem.calls[c].id);
  }

  lemma {:induction false} ListedRun(s: State, steps: seq<Step>)
    requires Inv(s) && Fits(s) && HasListed(s)
    requires Valid(s, steps) && forall i | 0 <= i < |steps| :: !steps[i].Crash?
    ensures Inv(End(s, steps)) && Fits(End(s, steps)) && HasListed(End(s, steps))
    decreases |steps|
  {
    if steps != [] {
      StaysListed(s, steps[0]);
      InvStep(s, steps[0]);
      FitsStep(s, steps[0]);
      ListedRun(Next(s, steps[0]), steps[1..]);
    }
  }

  // ----- insertions -----

  /** Exactly the loss of the acknowledgement orphans a job: after the insertion statement of a Create call
      the row is in the table and in nobody's hands if and only if the statement was applied and its
      caller told otherwise. Without a key, Create then reports an error for a job that stays queued. */
  lemma OrphanedIffLost(s: State, c: nat, a: Answer)
    requires Reachable(s) && Enabled(s, Advance(c, Insert(a)))
    ensures var id, t := s.mem.calls[c].ticket.id, Next(s, Advance(c, Insert(a)));
            && (id in t.jobs && !Held(t.mem, id) <==> a == Lost)
            && (a == Lost && s.mem.calls[c].ticket.key == "" ==> t.mem.calls[c].Errored? && IsQueued(t.jobs, id))
  {
    ReachableInv(s);
    CallRowIs(s, c, a);
  }

  lemma CallRowIs(s: State, c: nat, a: Answer)
    requires Inv(s) && Enabled(s, Advance(c, Insert(a)))
    ensures var k, t := s.mem.calls[c].ticket, Next(s, Advance(c, Insert(a)));
            && k.id in t.issued && (Held(t.mem, k.id) <==> a == Ok)
            && RowOf(t.jobs, k.id) == (if Applied(a) then Some(k.Row()) else None)
  {
    var k, t := s.mem.calls[c].ticket, Next(s, Advance(c, Insert(a)));
    assert PlaceOk(s.jobs, s.clock, s.mem, AtCall(c));
    assert Holds(s.mem, AtCall(c), k.id);
    CallMem(s, c, Insert(a));
    forall p ensures Holds(t.mem, p, k.id) ==> p == AtCall(c) && a == Ok {
      assert p != AtCall(c) && Holds(t.mem, p, k.id) ==> Holds(s.mem, p, k.id);
    }
    assert a == Ok ==> Holds(t.mem, AtCall(c), k.id);
  }

  /** What a Create call can be after its second lookup began. */
  predicate LookedTwice(m: Mem, c: nat, key: string) {
    c < |m.calls| && (m.calls[c] == Retrying(key) || m.calls[c].Returned? || m.calls[c].Errored?)
  }

  lemma LooksTwice(s: State, st: Step, c: nat, key: string)
    requires Shape(s) && Enabled(s, st) && !st.Crash? && LookedTwice(s.mem, c, key)
    ensures LookedTwice(Next(s, st).mem, c, key)
  {
    match st
    case Advance(d, cs) => CallMem(s, d, cs);
    case Work(i, w) => if !w.Receive? { WorkMem(s, i, w); }
    case _ =>
  }

  lemma {:induction false} LooksTwiceRun(s: State, steps: seq<Step>, c: nat, key: string)
    requires Own(s) && LookedTwice(s.mem, c, key)
    requires Valid(s, steps) && forall i | 0 <= i < |steps| :: !steps[i].Crash?
    ensures LookedTwice(End(s, steps).mem, c, key)
    decreases |steps|
  {
    if steps != [] {
      LooksTwice(s, steps[0], c, key);
      OwnStep(s, steps[0]);
      LooksTwiceRun(Next(s, steps[0]), steps[1..], c, key);
    }
  }

  lemma InsertionFails(s: State, c: nat, a: Answer)
    requires Inv(s) && Enabled(s, Advance(c, Insert(a))) && a != Ok && s.mem.calls[c].ticket.key != ""
    ensures var k, t := s.mem.calls[c].ticket, Next(s, Advance(c, Insert(a)));
            && Inv(t) && t.mem.boot.Up? && LookedTwice(t.mem, c, k.key)
            && k.id in t.issued && !Held(t.mem, k.id)
            && RowOf(t.jobs, k.id) == (if a == Lost then Some(k.Row()) else None)
  {
    InvStep(s, Advance(c, Insert(a)));
    CallRowIs(s, c, a);
    CallMem(s, c, Insert(a));
  }

  /** When Create's second lookup finds a row, however much happened since the insertion failed: it is the
      call's own row exactly if the acknowledgement was lost, and then the job it returns as accepted is
      queued and in nobody's hands. */
  lemma RetryFindsOwnIffLost(s: State, c: nat, a: Answer, steps: seq<Step>, x: Id)
    requires Reachable(s) && Enabled(s, Advance(c, Insert(a))) && a != Ok && s.mem.calls[c].ticket.key != ""
    requires Valid(Next(s, Advance(c, Insert(a))), steps) && forall i | 0 <= i < |steps| :: !steps[i].Crash?
    requires Enabled(End(Next(s, Advance(c, Insert(a))), steps), Advance(c, Retry(Some(x))))
    ensures var id, u := s.mem.calls[c].ticket.id, End(Next(s, Advance(c, Insert(a))), steps);
            && (x == id <==> a == Lost)
            && (a == Lost ==> IsQueued(u.jobs, x) && !Held(u.mem, x))
  {
    ReachableInv(s);
    InsertionFails(s, c, a);
    RetryFinds(Next(s, Advance(c, Insert(a))), c, s.mem.calls[c].ticket, a == Lost, steps, x);
  }

  lemma RetryFinds(s: State, c: nat, k: Ticket, lost: bool, steps: seq<Step>, x: Id)
    requires Inv(s) && s.mem.boot.Up? && LookedTwice(s.mem, c, k.key) && k.key != ""
    requires k.id in s.issued && !Held(s.mem, k.id) && RowOf(s.jobs, k.id) == (if lost then Some(k.Row()) else None)
    requires Valid(s, steps) && forall i | 0 <= i < |steps| :: !steps[i].Crash?
    requires Enabled(End(s, steps), Advance(c, Retry(Some(x))))
    ensures x == k.id <==> lost
    ensures lost ==> IsQueued(End(s, steps).jobs, x) && !Held(End(s, steps).mem, x)
  {
    InvRun(s, steps);
    Untouched(s, steps, k.id);
    LooksTwiceRun(s, steps, c, k.key);
  }

  /** When the acknowledgement of an insertion is lost, the second lookup makes Create return the job as
      accepted although it never enters the channel: the job is an orphan. */
  lemma LostAcknowledgement(s: State, c: nat)
    requires Reachable(s) && s.mem.open && c < |s.mem.calls| && s.mem.calls[c].Inserting?
    requires s.mem.calls[c].ticket.key != "" && !KeyTaken(s.jobs, s.mem.calls[c].ticket.key)
    ensures Enabled(s, Advance(c, Insert(Lost)))
    ensures Enabled(Next(s, Advance(c, Insert(Lost))), Advance(c, Retry(Some(s.mem.calls[c].ticket.id))))
    ensures var id := s.mem.calls[c].ticket.id;
      var s' := Next(Next(s, Advance(c, Insert(Lost))), Advance(c, Retry(Some(id))));
      (s'.mem.calls[c] == Returned(id, s.mem.calls[c].ticket.key) && IsQueued(s'.jobs, id) && !Held(s'.mem, id))
  {
    ReachableInv(s);
    assert PlaceOk(s.jobs, s.clock, s.mem, AtCall(c));
    CallRowIs(s, c, Lost);
    var s1 := Next(s, Advance(c, Insert(Lost)));
    assert s1.mem.calls[c] == Retrying(s.mem.calls[c].ticket.key);
    CallsTakeNothingUp(s1, c, Retry(Some(s.mem.calls[c].ticket.id)), s.mem.calls[c].ticket.id);
  }
}
