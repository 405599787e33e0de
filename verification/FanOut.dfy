/** The column fan-out of ProfileTable (internal/adapters/profile.go): one goroutine per column behind
    a counting semaphore, a shared error slot and an output array, under a context that may be
    cancelled at any moment. Every goroutine schedule is a sequence of steps. */
module FanOut {
  import opened Domain

  /** Where a goroutine is: before its select; inside profileColumn; waiting for the mutex with an
      answer in hand; past the critical section but still holding its slot; finished. */
  datatype Go = Waiting | Profiling | Answered(a: ColumnAnswer) | Recorded | Done

  datatype State = State(
    cancelled: bool,
    gos: seq<Go>,
    slots: nat,
    first: Option<string>,
    out: seq<ColumnProfile>)

  datatype Step =
    | Cancel
    | Acquire(i: nat)
    | GiveUp(i: nat)
    | Answer(i: nat, a: ColumnAnswer)
    | Record(i: nat)
    | Release(i: nat)

  /** The capacity of the semaphore. */
  function Workers(n: nat): nat {
    var w := if 4 > n then n else 4;
    if w == 0 then 1 else w
  }

  function Init(src: Source, cancelled: bool): State {
    var n := |src.columns|;
    State(cancelled, seq(n, i => Waiting), 0, None, seq(n, i => BLANK))
  }

  /** While the context lives a column's queries are answered as `src` says. Once it is cancelled
      profileColumn may fail or return whatever it has. */
  predicate Enabled(src: Source, s: State, st: Step)
    requires src.Wf()
  {
    match st
    case Cancel => true
    case Acquire(i) => i < |s.gos| && s.gos[i].Waiting? && s.slots < Workers(|src.columns|)
    case GiveUp(i) => i < |s.gos| && s.gos[i].Waiting? && s.cancelled
    case Answer(i, a) =>
      i < |s.gos| && s.gos[i].Profiling? && i < |src.answers| && (s.cancelled || a == src.answers[i])
    case Record(i) => i < |s.gos| && s.gos[i].Answered? && i < |s.out|
    case Release(i) => i < |s.gos| && s.gos[i].Recorded? && s.slots > 0
  }

  function Next(src: Source, s: State, st: Step): State
    requires src.Wf() && Enabled(src, s, st)
  {
    match st
    case Cancel => s.(cancelled := true)
    case Acquire(i) => s.(gos := s.gos[i := Profiling], slots := s.slots + 1)
    case GiveUp(i) => s.(gos := s.gos[i := Done])
    case Answer(i, a) => s.(gos := s.gos[i := Answered(a)])
    case Record(i) =>
      var a := s.gos[i].a;
      if a.error.Some? && s.first.None? then
        s.(gos := s.gos[i := Recorded], first := a.error)
      else
        s.(gos := s.gos[i := Recorded], out := s.out[i := a.profile])
    case Release(i) => s.(gos := s.gos[i := Done], slots := s.slots - 1)
  }

  ghost predicate Valid(src: Source, s: State, steps: seq<Step>)
    requires src.Wf()
    decreases |steps|
  {
    steps == [] || (Enabled(src, s, steps[0]) && Valid(src, Next(src, s, steps[0]), steps[1..]))
  }

  ghost function End(src: Source, s: State, steps: seq<Step>): State
    requires src.Wf() && Valid(src, s, steps)
    decreases |steps|
  {
    if steps == [] then s else End(src, Next(src, s, steps[0]), steps[1..])
  }

  /** wg.Wait() returns. */
  predicate AllDone(s: State) {
    forall i | 0 <= i < |s.gos| :: s.gos[i].Done?
  }

  /** `s` is how some schedule of the fan-out over `src` ends. */
  ghost predicate Outcome(src: Source, s: State)
    requires src.Wf()
  {
    && AllDone(s)
    && exists c, steps :: Valid(src, Init(src, c), steps) && s == End(src, Init(src, c), steps)
  }

  // ----- invariant -----

  predicate HoldsSlot(g: Go) {
    g.Profiling? || g.Answered? || g.Recorded?
  }

  function Holders(gos: seq<Go>): nat {
    if gos == [] then 0 else (if HoldsSlot(gos[0]) then 1 else 0) + Holders(gos[1..])
  }

  lemma {:induction false} HoldersUpdate(gos: seq<Go>, i: nat, g: Go)
    requires i < |gos|
    ensures Holders(gos[i := g]) ==
            Holders(gos) - (if HoldsSlot(gos[i]) then 1 else 0) + (if HoldsSlot(g) then 1 else 0)
  {
    if i == 0 {
      assert gos[0 := g][1..] == gos[1..];
    } else {
      assert gos[i := g][1..] == gos[1..][i - 1 := g];
      HoldersUpdate(gos[1..], i - 1, g);
    }
  }

  lemma {:induction false} NoHolders(gos: seq<Go>)
    requires forall i | 0 <= i < |gos| :: !HoldsSlot(gos[i])
    ensures Holders(gos) == 0
  {
    if gos != [] {
      assert forall i | 0 <= i < |gos[1..]| :: gos[1..][i] == gos[i + 1];
      NoHolders(gos[1..]);
    }
  }

  /** What goroutine i has put in place for column i: with a live context exactly the answer of the
      source, unless it was the one whose error took the error slot. */
  predicate ColumnOk(src: Source, s: State, i: nat)
    requires src.Wf() && i < |s.gos| == |s.out| == |src.columns|
  {
    var g := s.gos[i];
    && (g.Answered? && !s.cancelled ==> g.a == src.answers[i])
    && (g.Answered? || g.Profiling? || g.Waiting? ==> s.out[i] == BLANK)
    && (!s.cancelled && (g.Recorded? || g.Done?) ==>
          && (src.answers[i].error.Some? ==> s.first.Some?)
          && (src.answers[i].error.None? ==> s.out[i] == src.answers[i].profile))
  }

  /** The error slot, while the context lives, holds the error of some column. */
  predicate FirstOk(src: Source, s: State) {
    s.first.Some? && !s.cancelled ==>
      exists i | 0 <= i < |src.answers| :: src.answers[i].error == s.first
  }

  predicate Inv(src: Source, s: State)
    requires src.Wf()
  {
    && |s.gos| == |s.out| == |src.columns|
    && s.slots == Holders(s.gos) <= Workers(|src.columns|)
    && FirstOk(src, s)
    && (forall i | 0 <= i < |s.gos| :: ColumnOk(src, s, i))
  }

  lemma InitInv(src: Source, c: bool)
    requires src.Wf()
    ensures Inv(src, Init(src, c))
  {
    NoHolders(Init(src, c).gos);
  }

  lemma StepInv(src: Source, s: State, st: Step)
    requires src.Wf() && Inv(src, s) && Enabled(src, s, st)
    ensures Inv(src, Next(src, s, st))
  {
    if !st.Cancel? {
      var s' := Next(src, s, st);
      HoldersUpdate(s.gos, st.i, s'.gos[st.i]);
      if st.Record? && s.first.None? && s'.first.Some? && !s.cancelled {
        assert ColumnOk(src, s, st.i);
        assert src.answers[st.i].error == s'.first;
      }
      forall k | 0 <= k < |s'.gos| ensures ColumnOk(src, s', k) {
        assert ColumnOk(src, s, k);
      }
    } else {
      forall k | 0 <= k < |s.gos| ensures ColumnOk(src, Next(src, s, st), k) {
        assert ColumnOk(src, s, k);
      }
    }
  }

  lemma {:induction false} RunInv(src: Source, s: State, steps: seq<Step>)
    requires src.Wf() && Inv(src, s) && Valid(src, s, steps)
    ensures Inv(src, End(src, s, steps))
    decreases |steps|
  {
    if steps != [] {
      StepInv(src, s, steps[0]);
      RunInv(src, Next(src, s, steps[0]), steps[1..]);
    }
  }

  // ----- main results -----

  /** How many goroutines are inside profileColumn. */
  function InFlight(gos: seq<Go>): nat {
    if gos == [] then 0 else (if gos[0].Profiling? then 1 else 0) + InFlight(gos[1..])
  }

  lemma {:induction false} InFlightHold(gos: seq<Go>)
    ensures InFlight(gos) <= Holders(gos) <= |gos|
  {
    if gos != [] { InFlightHold(gos[1..]); }
  }

  /** In every schedule at most min(4, number of columns) columns are profiled at once. */
  lemma BoundedParallelism(src: Source, c: bool, steps: seq<Step>)
    requires src.Wf() && Valid(src, Init(src, c), steps)
    ensures InFlight(End(src, Init(src, c), steps).gos) <= Min(4, |src.columns|)
  {
    InitInv(src, c);
    RunInv(src, Init(src, c), steps);
    InFlightHold(End(src, Init(src, c), steps).gos);
  }

  /** How many the first `k` goroutines have acquired and nobody else anything. */
  lemma {:induction false} AcquireAll(src: Source, s: State, k: nat, m: nat) returns (steps: seq<Step>)
    requires src.Wf() && k <= m <= |s.gos| && s.slots == k && m <= Workers(|src.columns|)
    requires forall i | 0 <= i < |s.gos| :: s.gos[i] == if i < k then Profiling else Waiting
    ensures Valid(src, s, steps)
    ensures forall i | 0 <= i < |End(src, s, steps).gos| ::
              End(src, s, steps).gos[i] == if i < m then Profiling else Waiting
    ensures |End(src, s, steps).gos| == |s.gos|
    decreases m - k
  {
    steps := [];
    if k < m {
      var rest := AcquireAll(src, Next(src, s, Acquire(k)), k + 1, m);
      steps := [Acquire(k)] + rest;
      assert steps[1..] == rest;
    }
  }

  lemma {:induction false} InFlightFirst(gos: seq<Go>, m: nat)
    requires m <= |gos| && forall i | 0 <= i < |gos| :: gos[i] == if i < m then Profiling else Waiting
    ensures InFlight(gos) == m
  {
    if gos != [] { InFlightFirst(gos[1..], if m == 0 then 0 else m - 1); }
  }

  /** And that many can be: some schedule of every table has min(4, number of columns) columns in flight. */
  lemma FullParallelism(src: Source) returns (steps: seq<Step>)
    requires src.Wf()
    ensures Valid(src, Init(src, false), steps)
    ensures InFlight(End(src, Init(src, false), steps).gos) == if |src.columns| < 4 then |src.columns| else 4
  {
    var m := if |src.columns| < 4 then |src.columns| else 4;
    steps := AcquireAll(src, Init(src, false), 0, m);
    InFlightFirst(End(src, Init(src, false), steps).gos, m);
  }

  /** The result of the sequential program: profile every column in order. */
  function Sequential(src: Source): seq<ColumnProfile>
    requires src.Wf()
  {
    seq(|src.columns|, i requires 0 <= i < |src.columns| => src.answers[i].profile)
  }

  /** Whatever the schedule, when the context is still alive at the end: ProfileTable fails exactly
      when some column failed, with the error of such a column, and otherwise its columns are those
      of the sequential program. */
  lemma RefinesSequential(src: Source, s: State)
    requires src.Wf() && Outcome(src, s) && !s.cancelled
    ensures s.first.Some? <==> exists i | 0 <= i < |src.answers| :: src.answers[i].error.Some?
    ensures s.first.Some? ==> exists i | 0 <= i < |src.answers| :: src.answers[i].error == s.first
    ensures s.first.None? ==> s.out == Sequential(src)
    ensures s.first.None? ==>
              |s.out| == |src.columns| && forall i | 0 <= i < |s.out| :: s.out[i] == src.answers[i].profile
  {
    var c, steps :| Valid(src, Init(src, c), steps) && s == End(src, Init(src, c), steps);
    InitInv(src, c);
    RunInv(src, Init(src, c), steps);
    forall i | 0 <= i < |src.answers|
      ensures src.answers[i].error.Some? ==> s.first.Some?
      ensures src.answers[i].error.None? ==> s.out[i] == src.answers[i].profile
    {
      assert ColumnOk(src, s, i) && s.gos[i].Done?;
    }
  }

  /** An error any profileColumn call returned makes the whole table fail, cancelled or not. */
  lemma {:induction false} ErrorSticks(src: Source, s: State, steps: seq<Step>, k: nat)
    requires src.Wf() && Valid(src, s, steps)
    requires s.first.Some? ||
             (k < |s.gos| && s.gos[k].Answered? && s.gos[k].a.error.Some? && AllDone(End(src, s, steps)))
    ensures End(src, s, steps).first.Some?
    decreases |steps|
  {
    if steps != [] {
      ErrorSticks(src, Next(src, s, steps[0]), steps[1..], k);
    }
  }

  // ----- termination of the fan-out -----

  function Work(g: Go): nat {
    match g
    case Waiting => 4
    case Profiling => 3
    case Answered(_) => 2
    case Recorded => 1
    case Done => 0
  }

  function TotalWork(gos: seq<Go>): nat {
    if gos == [] then 0 else Work(gos[0]) + TotalWork(gos[1..])
  }

  lemma {:induction false} WorkUpdate(gos: seq<Go>, i: nat, g: Go)
    requires i < |gos|
    ensures TotalWork(gos[i := g]) == TotalWork(gos) - Work(gos[i]) + Work(g)
  {
    if i == 0 {
      assert gos[0 := g][1..] == gos[1..];
    } else {
      assert gos[i := g][1..] == gos[1..][i - 1 := g];
      WorkUpdate(gos[1..], i - 1, g);
    }
  }

  lemma {:induction false} HolderExists(gos: seq<Go>)
    requires Holders(gos) > 0
    ensures exists i | 0 <= i < |gos| :: HoldsSlot(gos[i])
  {
    if !HoldsSlot(gos[0]) {
      HolderExists(gos[1..]);
      var i :| 0 <= i < |gos[1..]| && HoldsSlot(gos[1..][i]);
      assert HoldsSlot(gos[i + 1]);
    }
  }

  /** wg.Wait() cannot block for ever: every step but the cancellation uses up work, and until all
      goroutines are finished one of them can move. */
  lemma FanOutTerminates(src: Source, s: State)
    requires src.Wf() && Inv(src, s)
    ensures forall st | Enabled(src, s, st) && !st.Cancel? ::
              TotalWork(Next(src, s, st).gos) < TotalWork(s.gos)
    ensures !AllDone(s) ==> exists st :: Enabled(src, s, st) && !st.Cancel?
  {
    forall st | Enabled(src, s, st) && !st.Cancel?
      ensures TotalWork(Next(src, s, st).gos) < TotalWork(s.gos)
    {
      WorkUpdate(s.gos, st.i, Next(src, s, st).gos[st.i]);
    }
    if !AllDone(s) {
      var i :| 0 <= i < |s.gos| && !s.gos[i].Done?;
      var k := i;
      if s.gos[i].Waiting? && s.slots >= Workers(|src.columns|) {
        HolderExists(s.gos);
        k :| 0 <= k < |s.gos| && HoldsSlot(s.gos[k]);
      }
      var g := s.gos[k];
      if g.Recorded? { SlotHeld(s.gos, k); }
      var st := match g
        case Waiting => Acquire(k)
        case Profiling => Answer(k, src.answers[k])
        case Answered(_) => Record(k)
        case _ => Release(k);
      assert Enabled(src, s, st) && !st.Cancel?;
    }
  }

  lemma {:induction false} SlotHeld(gos: seq<Go>, k: nat)
    requires k < |gos| && HoldsSlot(gos[k])
    ensures Holders(gos) > 0
  {
    if k > 0 { SlotHeld(gos[1..], k - 1); }
  }

  // ----- cancellation -----

  /** Cancellation can make ProfileTable succeed with nothing measured: for every table there is a
      schedule that ends without an error and with every column blank. */
  lemma CancelledSuccessIsBlank(src: Source) returns (s: State)
    requires src.Wf()
    ensures Outcome(src, s) && s.first.None? && s.cancelled
    ensures |s.out| == |src.columns|
    ensures forall i | 0 <= i < |s.out| ::
              s.out[i] == ColumnProfile("", "", false, 0, 0, 0.0, 0, 0.0, 0, 0, 0, 0, 0.0, 0, 0.0, [], "", 0.0)
  {
    var steps := GiveUpAll(src, Init(src, true), 0);
    s := End(src, Init(src, true), steps);
  }

  lemma {:induction false} GiveUpAll(src: Source, s: State, k: nat) returns (steps: seq<Step>)
    requires src.Wf() && s.cancelled && k <= |s.gos|
    requires forall i | 0 <= i < |s.gos| :: s.gos[i] == if i < k then Done else Waiting
    ensures Valid(src, s, steps)
    ensures var e := End(src, s, steps);
            AllDone(e) && e.first == s.first && e.out == s.out && e.cancelled
    decreases |s.gos| - k
  {
    if k == |s.gos| {
      steps := [];
    } else {
      var rest := GiveUpAll(src, Next(src, s, GiveUp(k)), k + 1);
      steps := [GiveUp(k)] + rest;
      assert steps[1..] == rest;
    }
  }
}
