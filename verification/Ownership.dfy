/** Who holds a job id. In every reachable state an id is in at most one place: in the list Start is
    working through, in the channel, with one worker, with one Create call or with Stop. Nothing in the
    code checks this; it follows from the order in which ids change hands. */
module Ownership {
  import opened Domain
  import opened Tables
  import opened Protocol

  datatype Place = InPending | InChannel | AtWorker(i: nat) | AtCall(c: nat) | AtStop

  predicate Holds(m: Mem, p: Place, id: Id) {
    match p
    case InPending => m.boot.Requeueing? && id in m.boot.pending
    case InChannel => id in m.chan
    case AtWorker(i) => i < |m.workers| && m.workers[i].Holding() == Some(id)
    case AtCall(c) => c < |m.calls| && m.calls[c].Holding() == Some(id)
    case AtStop => m.stop.Holding() == Some(id)
  }

  ghost predicate Exclusive(m: Mem) {
    && (forall p, q, id | Holds(m, p, id) && Holds(m, q, id) :: p == q)
    && NoDup(m.chan)
    && (m.boot.Requeueing? ==> NoDup(m.boot.pending))
  }

  predicate StopBegun(p: Stopper) {
    !p.NotStopping? && !p.Signalled?
  }

  predicate WorkersGone(p: Stopper) {
    StopBegun(p) && !p.Awaiting?
  }

  /** How the flags, Start's progress and Stop's progress fit together. */
  predicate Shape(s: State) {
    var m := s.mem;
    && s.workers >= 1
    && |m.chan| <= CAPACITY
    && (m.started <==> !m.boot.Down?)
    && (m.boot.Down? || m.boot.Recovering? || m.boot.Listing? ==> m.chan == [] && m.sent == multiset{})
    && (!m.boot.Up? ==> m.workers == [] && m.calls == [] && !m.stopped && m.open)
    && (m.boot.Up? ==> |m.workers| == s.workers)
    && (m.stopped <==> !m.stop.NotStopping?)
    && (m.cancelled <==> StopBegun(m.stop))
    && (forall i | 0 <= i < |m.workers| && m.workers[i].Exited? :: m.cancelled)
    && (WorkersGone(m.stop) ==> forall i | 0 <= i < |m.workers| :: m.workers[i].Exited?)
  }

  /** Ids come from the generator, and each is sent into the channel at most once between two crashes. */
  ghost predicate Known(s: State) {
    var m := s.mem;
    && (forall id | id in s.jobs :: id in s.issued)
    && (forall p, id | Holds(m, p, id) :: id in s.issued)
    && (forall id | id in m.sent :: id in s.issued)
    && (forall id :: m.sent[id] <= 1)
    && (forall id | Holds(m, InPending, id) :: m.sent[id] == 0)
    && (forall c, id | Holds(m, AtCall(c), id) :: m.sent[id] == 0)
  }

  ghost predicate Own(s: State) {
    Shape(s) && Exclusive(s.mem) && Known(s)
  }

  // ----- ways in which ids change hands -----

  /** No place gains an id. */
  ghost predicate Shrinks(m: Mem, m': Mem) {
    forall p, id | Holds(m', p, id) :: Holds(m, p, id)
  }

  lemma ShrinkExclusive(m: Mem, m': Mem)
    requires Exclusive(m) && Shrinks(m, m')
    requires NoDup(m'.chan) && (m'.boot.Requeueing? ==> NoDup(m'.boot.pending))
    ensures Exclusive(m')
  {
  }

  /** `x` moves to `to` and is left nowhere else; no other id moves. */
  lemma MoveExclusive(m: Mem, m': Mem, to: Place, x: Id)
    requires Exclusive(m)
    requires forall p, id | Holds(m', p, id) :: Holds(m, p, id) || (p == to && id == x)
    requires forall p | Holds(m', p, x) :: p == to
    requires NoDup(m'.chan) && (m'.boot.Requeueing? ==> NoDup(m'.boot.pending))
    ensures Exclusive(m')
  {
  }

  lemma OwnReceive(s: State, i: nat)
    requires Own(s) && Enabled(s, Work(i, Receive))
    ensures Own(Next(s, Work(i, Receive)))
  {
    var m, m' := s.mem, Next(s, Work(i, Receive)).mem;
    var x := m.chan[0];
    assert Holds(m, InChannel, x);
    assert forall p, id | Holds(m', p, id) :: Holds(m, p, id) || (p == AtWorker(i) && id == x);
    assert x !in m'.chan;
    MoveExclusive(m, m', AtWorker(i), x);
    assert forall id | Holds(m', InPending, id) :: Holds(m, InPending, id);
    assert forall c, id | Holds(m', AtCall(c), id) :: Holds(m, AtCall(c), id);
  }

  /** A worker step other than Receive keeps the id in hand or lets it go. */
  lemma WorkMem(s: State, i: nat, w: WorkerStep)
    requires Enabled(s, Work(i, w)) && !w.Receive?
    ensures var s', x := Next(s, Work(i, w)), WorkerNext(s, s.mem.workers[i], w);
            && s'.mem == s.mem.(workers := s.mem.workers[i := x])
            && (x.Holding() == s.mem.workers[i].Holding() || x.Holding() == None)
            && (x.Exited? ==> s.mem.cancelled) && !s.mem.workers[i].Exited?
            && s'.jobs.Keys == s.jobs.Keys && s'.issued == s.issued && s'.workers == s.workers
            && s'.clock == s.clock && s'.staleAfter == s.staleAfter
  {
  }

  lemma OwnWork(s: State, i: nat, w: WorkerStep)
    requires Own(s) && Enabled(s, Work(i, w)) && !w.Receive?
    ensures Own(Next(s, Work(i, w)))
  {
    var m, m' := s.mem, Next(s, Work(i, w)).mem;
    WorkMem(s, i, w);
    assert Shrinks(m, m');
    ShrinkExclusive(m, m');
  }

  /** A send hands the id of the call over to the channel. */
  lemma SendMoves(s: State, c: nat)
    requires Exclusive(s.mem) && Enabled(s, Advance(c, Send)) && |s.mem.chan| < CAPACITY
    ensures var x, m, m' := s.mem.calls[c].ticket.id, s.mem, Next(s, Advance(c, Send)).mem;
            && Holds(m, AtCall(c), x) && m'.sent == m.sent + multiset{x}
            && (forall p, id | Holds(m', p, id) :: if id == x then p == InChannel else Holds(m, p, id))
            && NoDup(m'.chan) && m'.boot == m.boot
  {
    var m, m' := s.mem, Next(s, Advance(c, Send)).mem;
    var x := m.calls[c].ticket.id;
    assert Holds(m, AtCall(c), x);
    assert x !in m.chan by { assert x in m.chan ==> Holds(m, InChannel, x); }
    forall p, id | Holds(m', p, id) ensures if id == x then p == InChannel else Holds(m, p, id) {
      assert p != InChannel ==> Holds(m, p, id) && p != AtCall(c);
    }
  }

  /** `x`, not sent before, goes from the list or a call into the channel. */
  lemma HandOver(s: State, s': State, from: Place, x: Id)
    requires Known(s) && Holds(s.mem, from, x) && (from.InPending? || from.AtCall?)
    requires s'.jobs == s.jobs && s'.issued == s.issued && s'.mem.sent == s.mem.sent + multiset{x}
    requires forall p, id | Holds(s'.mem, p, id) :: if id == x then p == InChannel else Holds(s.mem, p, id)
    ensures Known(s')
  {
    var m, m' := s.mem, s'.mem;
    assert m.sent[x] == 0 by { if from.AtCall? { assert Holds(m, AtCall(from.c), x); } }
    forall p, id | Holds(m', p, id) ensures id in s'.issued {
      if id != x { assert Holds(m, p, id); } else { assert Holds(m, from, x); }
    }
    forall id | Holds(m', InPending, id) ensures m'.sent[id] == 0 { assert Holds(m, InPending, id); }
    forall c, id | Holds(m', AtCall(c), id) ensures m'.sent[id] == 0 { assert Holds(m, AtCall(c), id); }
  }

  lemma OwnSend(s: State, c: nat)
    requires Own(s) && Enabled(s, Advance(c, Send)) && |s.mem.chan| < CAPACITY
    ensures Own(Next(s, Advance(c, Send)))
  {
    var s' := Next(s, Advance(c, Send));
    SendMoves(s, c);
    HandOver(s, s', AtCall(c), s.mem.calls[c].ticket.id);
    MoveExclusive(s.mem, s'.mem, InChannel, s.mem.calls[c].ticket.id);
  }

  /** What a step of a Create call does to the memory. */
  lemma CallMem(s: State, c: nat, cs: CallStep)
    requires Enabled(s, Advance(c, cs))
    ensures var s', x := Next(s, Advance(c, cs)), CallNext(s, s.mem.calls[c], cs);
            && s'.mem == s.mem.(calls := s.mem.calls[c := x], chan := s'.mem.chan, sent := s'.mem.sent)
            && (s'.mem.chan == s.mem.chan ||
                (cs.Send? && s'.mem.chan == s.mem.chan + [s.mem.calls[c].ticket.id]))
  {
  }

  lemma CallShrinks(s: State, c: nat, cs: CallStep)
    requires Enabled(s, Advance(c, cs)) && (cs.Send? ==> |s.mem.chan| >= CAPACITY)
    ensures var s' := Next(s, Advance(c, cs));
            && Shrinks(s.mem, s'.mem) && s'.mem.chan == s.mem.chan && s'.mem.sent == s.mem.sent
            && s'.issued == s.issued && (forall id | id in s'.jobs :: id in s.jobs || Holds(s.mem, AtCall(c), id))
  {
    var before, after := s.mem.calls[c], CallNext(s, s.mem.calls[c], cs);
    assert Next(s, Advance(c, cs)).mem == s.mem.(calls := s.mem.calls[c := after]);
    assert after.Holding() == before.Holding() || after.Holding() == None;
  }

  lemma ShrinkKnown(s: State, s': State)
    requires Known(s) && Shrinks(s.mem, s'.mem) && s'.mem.sent == s.mem.sent && s'.issued == s.issued
    requires forall id | id in s'.jobs :: id in s.issued
    ensures Known(s')
  {
    forall id | Holds(s'.mem, InPending, id) ensures s'.mem.sent[id] == 0 {
      assert Holds(s.mem, InPending, id);
    }
    forall c, id | Holds(s'.mem, AtCall(c), id) ensures s'.mem.sent[id] == 0 {
      assert Holds(s.mem, AtCall(c), id);
    }
  }

  lemma OwnAdvance(s: State, c: nat, cs: CallStep)
    requires Own(s) && Enabled(s, Advance(c, cs))
    requires cs.Send? ==> |s.mem.chan| >= CAPACITY
    ensures Own(Next(s, Advance(c, cs)))
  {
    var s' := Next(s, Advance(c, cs));
    CallShrinks(s, c, cs);
    CallMem(s, c, cs);
    ShrinkKnown(s, s');
    ShrinkExclusive(s.mem, s'.mem);
  }

  lemma OwnDrain(s: State)
    requires Own(s) && Enabled(s, Halt(Drain)) && s.mem.chan != []
    ensures Own(Next(s, Halt(Drain)))
  {
    var m, m' := s.mem, Next(s, Halt(Drain)).mem;
    var x := m.chan[0];
    assert Holds(m, InChannel, x);
    assert forall p, id | Holds(m', p, id) :: Holds(m, p, id) || (p == AtStop && id == x);
    MoveExclusive(m, m', AtStop, x);
    assert forall id | Holds(m', InPending, id) :: Holds(m, InPending, id);
    assert forall c, id | Holds(m', AtCall(c), id) :: Holds(m, AtCall(c), id);
  }

  lemma OwnHalt(s: State, h: StopStep)
    requires Own(s) && Enabled(s, Halt(h)) && (h.Drain? ==> s.mem.chan == [])
    ensures Own(Next(s, Halt(h)))
  {
    var m, m' := s.mem, Next(s, Halt(h)).mem;
    assert m' == m.(stop := m'.stop, cancelled := m'.cancelled);
    assert Shrinks(m, m');
    ShrinkExclusive(m, m');
    assert forall c, id | Holds(m', AtCall(c), id) :: Holds(m, AtCall(c), id);
  }

  lemma OwnCreate(s: State, id: Id, key: string, request: Request)
    requires Own(s) && Enabled(s, Create(id, key, request))
    ensures Own(Next(s, Create(id, key, request)))
  {
    var m, m' := s.mem, Next(s, Create(id, key, request)).mem;
    var me := AtCall(|m.calls|);
    assert forall p, x | Holds(m', p, x) :: Holds(m, p, x) || (p == me && x == id);
    assert forall p :: !Holds(m, p, id);
    MoveExclusive(m, m', me, id);
  }

  /** Start's loop hands the first pending id over to the channel. */
  lemma RequeueMoves(s: State)
    requires Exclusive(s.mem) && Enabled(s, Requeue)
    requires s.mem.boot.pending != [] && !s.mem.stopped && |s.mem.chan| < CAPACITY
    ensures var x, m, m' := s.mem.boot.pending[0], s.mem, Next(s, Requeue).mem;
            && Holds(m, InPending, x) && m'.sent == m.sent + multiset{x}
            && (forall p, id | Holds(m', p, id) :: if id == x then p == InChannel else Holds(m, p, id))
            && NoDup(m'.chan) && m'.boot.Requeueing? && NoDup(m'.boot.pending)
  {
    var m, m', x := s.mem, Next(s, Requeue).mem, s.mem.boot.pending[0];
    assert Holds(m, InPending, x);
    assert x !in m.chan by { assert x in m.chan ==> Holds(m, InChannel, x); }
    forall p, id | Holds(m', p, id) ensures if id == x then p == InChannel else Holds(m, p, id) {
      assert p != InChannel ==> Holds(m, p, id);
    }
  }

  lemma OwnRequeue(s: State)
    requires Own(s) && Enabled(s, Requeue)
    ensures Own(Next(s, Requeue))
  {
    var m, m' := s.mem, Next(s, Requeue).mem;
    if m.boot.pending != [] && !m.stopped && |m.chan| < CAPACITY {
      RequeueMoves(s);
      HandOver(s, Next(s, Requeue), InPending, m.boot.pending[0]);
      MoveExclusive(m, m', InChannel, m.boot.pending[0]);
    } else {
      assert Shrinks(m, m');
      ShrinkKnown(s, Next(s, Requeue));
      ShrinkExclusive(m, m');
    }
  }

  lemma OwnList(s: State, a: Answer, ids: seq<Id>)
    requires Own(s) && Enabled(s, List(a, ids))
    ensures Own(Next(s, List(a, ids)))
  {
    var m' := Next(s, List(a, ids)).mem;
    assert forall p, id | Holds(m', p, id) :: p == InPending;
    assert forall c, id :: !Holds(m', AtCall(c), id);
  }

  lemma OwnOther(s: State, st: Step)
    requires Own(s) && Enabled(s, st)
    requires st.Tick? || st.Crash? || st.CloseDb? || st.Start? || st.Recover? || st.Stop?
    ensures Own(Next(s, st))
  {
    assert Shrinks(s.mem, Next(s, st).mem);
    ShrinkExclusive(s.mem, Next(s, st).mem);
  }

  /** Steps of the goroutines. */
  lemma OwnActs(s: State, st: Step)
    requires Own(s) && Enabled(s, st) && (st.Work? || st.Advance? || st.Halt?)
    ensures Own(Next(s, st))
  {
    match st
    case Work(i, w) => if w.Receive? { OwnReceive(s, i); } else { OwnWork(s, i, w); }
    case Advance(c, cs) =>
      if cs.Send? && |s.mem.chan| < CAPACITY { OwnSend(s, c); } else { OwnAdvance(s, c, cs); }
    case Halt(h) =>
      if h.Drain? && s.mem.chan != [] { OwnDrain(s); } else { OwnHalt(s, h); }
  }

  lemma OwnStep(s: State, st: Step)
    requires Own(s) && Enabled(s, st)
    ensures Own(Next(s, st))
  {
    match st
    case Work(_, _) | Advance(_, _) | Halt(_) => OwnActs(s, st);
    case Create(id, key, request) => OwnCreate(s, id, key, request);
    case Requeue => OwnRequeue(s);
    case List(a, ids) => OwnList(s, a, ids);
    case _ => OwnOther(s, st);
  }

  lemma CallsLeave(s: State, c: nat, cs: CallStep)
    requires Enabled(s, Advance(c, cs))
    ensures var t := Next(s, Advance(c, cs));
            && t.profiles == s.profiles && t.marks == s.marks && t.workers == s.workers && t.clock == s.clock
            && t.mem.workers == s.mem.workers && t.mem.cancelled == s.mem.cancelled
  {
  }

  lemma StopLeaves(s: State, h: StopStep)
    requires Enabled(s, Halt(h))
    ensures var t := Next(s, Halt(h));
            && t.profiles == s.profiles && t.marks == s.marks && t.workers == s.workers && t.clock == s.clock
            && t.mem.workers == s.mem.workers && (s.mem.cancelled ==> t.mem.cancelled)
  {
  }

  /** Steps of anyone but the workers leave the profiles and the workers alone, except that a crash ends
      the workers and Start spawns idle ones. */
  lemma OtherSteps(s: State, st: Step)
    requires Enabled(s, st) && !st.Work?
    ensures Next(s, st).profiles == s.profiles && Next(s, st).marks == s.marks
    ensures Next(s, st).workers == s.workers && s.clock <= Next(s, st).clock
    ensures !st.Crash? && s.mem.cancelled ==> Next(s, st).mem.cancelled
    ensures forall i | 0 <= i < |Next(s, st).mem.workers| ::
              var w := Next(s, st).mem.workers[i];
              w == Idle || (!st.Crash? && i < |s.mem.workers| && w == s.mem.workers[i])
  {
    match st
    case Advance(c, cs) => CallsLeave(s, c, cs);
    case Halt(h) => StopLeaves(s, h);
    case _ =>
  }

  lemma {:induction false} OwnRun(s: State, steps: seq<Step>)
    requires Own(s) && Valid(s, steps)
    ensures Own(End(s, steps))
    decreases |steps|
  {
    if steps != [] {
      OwnStep(s, steps[0]);
      OwnRun(Next(s, steps[0]), steps[1..]);
    }
  }
}
