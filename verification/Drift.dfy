/** drift.Compare (internal/drift/drift.go). Go iterates over its two column maps in an arbitrary
    order; the report is characterised without any order. */
module Drift {
  import opened Domain

  /** The map a loop over the columns builds: of columns with the same name the last one stays. */
  function ByName(cols: seq<ColumnProfile>): map<string, ColumnProfile> {
    if cols == [] then map[]
    else var c := cols[|cols| - 1]; ByName(cols[..|cols| - 1])[c.name := c]
  }

  predicate SignificantDelta(before: real, current: real, threshold: real) {
    var delta := current - before;
    (if delta < 0.0 then -delta else delta) >= threshold
  }

  /** The ways a column present on both sides can change. */
  predicate ColumnDiffers(name: string, o: ColumnProfile, n: ColumnProfile, c: Change) {
    match c
    case TypeChanged(k, x, y) => k == name && x == o.dataType && y == n.dataType && x != y
    case NullabilityChanged(k) => k == name && o.nullable != n.nullable
    case DistinctChanged(k, x, y) => k == name && x == o.distinctCount && y == n.distinctCount && x != y
    case NullPercentageChanged(k, x, y) =>
      k == name && x == o.nullPercentage && y == n.nullPercentage && SignificantDelta(x, y, 10.0)
    case DistinctPercentageChanged(k, x, y) =>
      k == name && x == o.distinctPercentage && y == n.distinctPercentage && SignificantDelta(x, y, 10.0)
    case OutlierPercentageChanged(k, x, y) =>
      k == name && x == o.outlierPercentage && y == n.outlierPercentage && SignificantDelta(x, y, 5.0)
    case PiiChanged(k, x, y) => k == name && x == o.pii && y == n.pii && x != y
    case _ => false
  }

  /** `c` is a difference between the two profiles. */
  predicate Differs(a: TableProfile, b: TableProfile, c: Change) {
    var o, n := ByName(a.columns), ByName(b.columns);
    match c
    case ScoreChanged(x, y) => x == a.quality.score && y == b.quality.score && x != y
    case DuplicatesChanged(x, y) => x == a.duplicateRows && y == b.duplicateRows && x != y
    case Removed(k) => k in o && k !in n
    case Added(k) => k in n && k !in o
    case _ => c.column in o && c.column in n && ColumnDiffers(c.column, o[c.column], n[c.column], c)
  }

  /** `r` lists every difference exactly once, in some order. */
  ghost predicate IsReport(a: TableProfile, b: TableProfile, r: DriftReport) {
    && r.scoreDelta == b.quality.score - a.quality.score
    && NoDup(r.changes)
    && (forall c :: c in r.changes <==> Differs(a, b, c))
    && (r.changed <==> r.changes != [])
  }

  /** The order in which the code looks for the ways a column can change. */
  function Rank(c: Change): nat {
    match c
    case TypeChanged(_, _, _) => 0
    case NullabilityChanged(_) => 1
    case DistinctChanged(_, _, _) => 2
    case NullPercentageChanged(_, _, _) => 3
    case DistinctPercentageChanged(_, _, _) => 4
    case OutlierPercentageChanged(_, _, _) => 5
    case _ => 6
  }

  /** `cs` lists, once each, the changes of a column that the first `k` tests can find. */
  ghost predicate Listed(name: string, o: ColumnProfile, n: ColumnProfile, cs: seq<Change>, k: nat) {
    NoDup(cs) && forall c :: c in cs <==> ColumnDiffers(name, o, n, c) && Rank(c) < k
  }

  /** What test number `k` reports when it succeeds. */
  function Candidate(name: string, o: ColumnProfile, n: ColumnProfile, k: nat): (c: Change) {
    if k == 0 then TypeChanged(name, o.dataType, n.dataType)
    else if k == 1 then NullabilityChanged(name)
    else if k == 2 then DistinctChanged(name, o.distinctCount, n.distinctCount)
    else if k == 3 then NullPercentageChanged(name, o.nullPercentage, n.nullPercentage)
    else if k == 4 then DistinctPercentageChanged(name, o.distinctPercentage, n.distinctPercentage)
    else if k == 5 then OutlierPercentageChanged(name, o.outlierPercentage, n.outlierPercentage)
    else PiiChanged(name, o.pii, n.pii)
  }

  lemma NextTest(name: string, o: ColumnProfile, n: ColumnProfile, cs: seq<Change>, k: nat, cs': seq<Change>)
    requires k <= 6 && Listed(name, o, n, cs, k)
    requires cs' == if ColumnDiffers(name, o, n, Candidate(name, o, n, k)) then cs + [Candidate(name, o, n, k)] else cs
    ensures Listed(name, o, n, cs', k + 1)
  {
  }

  lemma AllTests(name: string, o: ColumnProfile, n: ColumnProfile, cs: seq<Change>)
    requires Listed(name, o, n, cs, 7)
    ensures NoDup(cs) && forall c :: c in cs <==> ColumnDiffers(name, o, n, c)
  {
  }

  method CompareShape(name: string, o: ColumnProfile, n: ColumnProfile) returns (changes: seq<Change>)
    ensures Listed(name, o, n, changes, 3)
  {
    var c0, c1: seq<Change> := [], [];
    if o.dataType != n.dataType {
      c0 := [TypeChanged(name, o.dataType, n.dataType)];
    }
    NextTest(name, o, n, [], 0, c0);
    c1 := c0;
    if o.nullable != n.nullable {
      c1 := c0 + [NullabilityChanged(name)];
    }
    NextTest(name, o, n, c0, 1, c1);
    changes := c1;
    if o.distinctCount != n.distinctCount {
      changes := c1 + [DistinctChanged(name, o.distinctCount, n.distinctCount)];
    }
    NextTest(name, o, n, c1, 2, changes);
  }

  method CompareColumn(name: string, o: ColumnProfile, n: ColumnProfile) returns (changes: seq<Change>)
    ensures NoDup(changes)
    ensures forall c :: c in changes <==> ColumnDiffers(name, o, n, c)
    ensures name == o.name ==> SaysOf(o, n, changes)
  {
    var c2 := CompareShape(name, o, n);
    var c3 := c2;
    if SignificantDelta(o.nullPercentage, n.nullPercentage, 10.0) {
      c3 := c2 + [NullPercentageChanged(name, o.nullPercentage, n.nullPercentage)];
    }
    NextTest(name, o, n, c2, 3, c3);
    var c4 := c3;
    if SignificantDelta(o.distinctPercentage, n.distinctPercentage, 10.0) {
      c4 := c3 + [DistinctPercentageChanged(name, o.distinctPercentage, n.distinctPercentage)];
    }
    NextTest(name, o, n, c3, 4, c4);
    var c5 := c4;
    if SignificantDelta(o.outlierPercentage, n.outlierPercentage, 5.0) {
      c5 := c4 + [OutlierPercentageChanged(name, o.outlierPercentage, n.outlierPercentage)];
    }
    NextTest(name, o, n, c4, 5, c5);
    changes := c5;
    if o.pii != n.pii {
      changes := c5 + [PiiChanged(name, o.pii, n.pii)];
    }
    NextTest(name, o, n, c5, 6, changes);
    AllTests(name, o, n, changes);
    if name == o.name { DiffersSays(o, n, changes); }
  }

  /** The differences the loops have met once the score, the old columns `os` and the new columns `ns`
      are done. */
  predicate Met(a: TableProfile, b: TableProfile, os: set<string>, ns: set<string>, c: Change) {
    Differs(a, b, c) && !c.DuplicatesChanged? &&
    (c.ScoreChanged? || (if c.Added? then c.column in ns else c.column in os))
  }

  ghost predicate Collected(a: TableProfile, b: TableProfile, os: set<string>, ns: set<string>, r: DriftReport) {
    && r.scoreDelta == b.quality.score - a.quality.score
    && (r.changed <==> r.changes != [])
    && NoDup(r.changes)
    && (forall c :: c in r.changes <==> Met(a, b, os, ns, c))
  }

  lemma Append<T>(s: seq<T>, t: seq<T>)
    requires NoDup(s) && NoDup(t) && (forall x | x in t :: x !in s)
    ensures NoDup(s + t)
    ensures forall x :: x in s + t <==> x in s || x in t
  {
    var u := s + t;
    forall i, j | 0 <= i < j < |u| ensures u[i] != u[j] {
      if i < |s| <= j { assert u[j] == t[j - |s|] && u[i] in s; }
    }
  }

  /** One more old column. */
  lemma MeetOld(a: TableProfile, b: TableProfile, os: set<string>, r: DriftReport, name: string, more: seq<Change>)
    requires Collected(a, b, os, {}, r) && name in ByName(a.columns) && name !in os
    requires NoDup(more)
    requires forall c :: c in more <==>
                         if name in ByName(b.columns)
                         then ColumnDiffers(name, ByName(a.columns)[name], ByName(b.columns)[name], c)
                         else c == Removed(name)
    ensures Collected(a, b, os + {name}, {},
                      r.(changed := r.changed || more != [], changes := r.changes + more))
  {
    forall c ensures Met(a, b, os + {name}, {}, c) <==> Met(a, b, os, {}, c) || c in more {
    }
    Append(r.changes, more);
  }

  /** One more new column. */
  lemma MeetNew(a: TableProfile, b: TableProfile, ns: set<string>, r: DriftReport, name: string)
    requires Collected(a, b, ByName(a.columns).Keys, ns, r) && name in ByName(b.columns) && name !in ns
    ensures Collected(a, b, ByName(a.columns).Keys, ns + {name},
                      if name in ByName(a.columns) then r
                      else r.(changed := true, changes := r.changes + [Added(name)]))
  {
    forall c ensures Met(a, b, ByName(a.columns).Keys, ns + {name}, c) <==>
                     Met(a, b, ByName(a.columns).Keys, ns, c) || (c == Added(name) && name !in ByName(a.columns))
    {
    }
    Append(r.changes, [Added(name)]);
  }

  method Index(cols: seq<ColumnProfile>) returns (m: map<string, ColumnProfile>)
    ensures m == ByName(cols)
  {
    m := map[];
    for i := 0 to |cols|
      invariant m == ByName(cols[..i])
    {
      assert cols[..i + 1][..i] == cols[..i];
      m := m[cols[i].name := cols[i]];
    }
    assert cols[..|cols|] == cols;
  }

  method CompareOld(a: TableProfile, b: TableProfile, oldCols: map<string, ColumnProfile>,
                    newCols: map<string, ColumnProfile>, start: DriftReport) returns (r: DriftReport)
    requires oldCols == ByName(a.columns) && newCols == ByName(b.columns)
    requires Collected(a, b, {}, {}, start)
    ensures Collected(a, b, oldCols.Keys, {}, r)
  {
    r := start;
    var todo := oldCols.Keys;
    assert oldCols.Keys - todo == {};
    while todo != {}
      invariant todo <= oldCols.Keys
      invariant Collected(a, b, oldCols.Keys - todo, {}, r)
      decreases |todo|
    {
      var name :| name in todo;
      var more := [Removed(name)];
      if name in newCols {
        more := CompareColumn(name, oldCols[name], newCols[name]);
      }
      MeetOld(a, b, oldCols.Keys - todo, r, name, more);
      r := r.(changed := r.changed || more != [], changes := r.changes + more);
      assert oldCols.Keys - todo + {name} == oldCols.Keys - (todo - {name});
      todo := todo - {name};
    }
    assert oldCols.Keys - todo == oldCols.Keys;
  }

  method CompareNew(a: TableProfile, b: TableProfile, oldCols: map<string, ColumnProfile>,
                    newCols: map<string, ColumnProfile>, start: DriftReport) returns (r: DriftReport)
    requires oldCols == ByName(a.columns) && newCols == ByName(b.columns)
    requires Collected(a, b, oldCols.Keys, {}, start)
    ensures Collected(a, b, oldCols.Keys, newCols.Keys, r)
  {
    r := start;
    var todo := newCols.Keys;
    assert newCols.Keys - todo == {};
    while todo != {}
      invariant todo <= newCols.Keys
      invariant Collected(a, b, oldCols.Keys, newCols.Keys - todo, r)
      decreases |todo|
    {
      var name :| name in todo;
      MeetNew(a, b, newCols.Keys - todo, r, name);
      if name !in oldCols {
        r := r.(changed := true, changes := r.changes + [Added(name)]);
      }
      assert newCols.Keys - todo + {name} == newCols.Keys - (todo - {name});
      todo := todo - {name};
    }
    assert newCols.Keys - todo == newCols.Keys;
  }

  method Compare(a: TableProfile, b: TableProfile) returns (r: DriftReport)
    ensures IsReport(a, b, r)
    ensures Says(a, b, r)
  {
    r := DriftReport(false, b.quality.score - a.quality.score, []);
    if r.scoreDelta != 0.0 {
      r := r.(changed := true, changes := [ScoreChanged(a.quality.score, b.quality.score)]);
    }
    var oldCols := Index(a.columns);
    var newCols := Index(b.columns);
    r := CompareOld(a, b, oldCols, newCols, r);
    r := CompareNew(a, b, oldCols, newCols, r);
    Append(r.changes, [DuplicatesChanged(a.duplicateRows, b.duplicateRows)]);
    if a.duplicateRows != b.duplicateRows {
      r := r.(changed := true, changes := r.changes + [DuplicatesChanged(a.duplicateRows, b.duplicateRows)]);
    }
    ReportSays(a, b, r);
  }

  // ----- the report in terms of the two column lists -----

  predicate Names(cols: seq<ColumnProfile>, name: string) {
    exists i :: 0 <= i < |cols| && cols[i].name == name
  }

  /** Column i is the last one of its name, the one that counts. */
  predicate Counts(cols: seq<ColumnProfile>, i: int) {
    0 <= i < |cols| && forall j | i < j < |cols| :: cols[j].name != cols[i].name
  }

  /** What is said about a column that both profiles have: a change of type, nullability, distinct count or PII
      class if they differ, and of a percentage from 10, 10 and 5 points on, up or down. */
  ghost predicate SaysOf(o: ColumnProfile, n: ColumnProfile, changes: seq<Change>) {
    && (forall x, y :: TypeChanged(o.name, x, y) in changes <==> x == o.dataType && y == n.dataType && x != y)
    && (NullabilityChanged(o.name) in changes <==> o.nullable != n.nullable)
    && (forall x, y :: DistinctChanged(o.name, x, y) in changes <==>
                       x == o.distinctCount && y == n.distinctCount && x != y)
    && (forall x, y :: NullPercentageChanged(o.name, x, y) in changes <==>
                       x == o.nullPercentage && y == n.nullPercentage && (y - x >= 10.0 || x - y >= 10.0))
    && (forall x, y :: DistinctPercentageChanged(o.name, x, y) in changes <==>
                       x == o.distinctPercentage && y == n.distinctPercentage && (y - x >= 10.0 || x - y >= 10.0))
    && (forall x, y :: OutlierPercentageChanged(o.name, x, y) in changes <==>
                       x == o.outlierPercentage && y == n.outlierPercentage && (y - x >= 5.0 || x - y >= 5.0))
    && (forall x, y :: PiiChanged(o.name, x, y) in changes <==> x == o.pii && y == n.pii && x != y)
  }

  /** What the report says: the score difference, every kind of change exactly when it occurred and once, and
      nothing about columns that only one side has except that they were added or removed. */
  ghost predicate Says(a: TableProfile, b: TableProfile, r: DriftReport) {
    && r.scoreDelta == b.quality.score - a.quality.score
    && (r.changed <==> r.changes != []) && NoDup(r.changes)
    && (forall x, y :: ScoreChanged(x, y) in r.changes <==> x == a.quality.score && y == b.quality.score && x != y)
    && (forall x, y :: DuplicatesChanged(x, y) in r.changes <==>
                       x == a.duplicateRows && y == b.duplicateRows && x != y)
    && (forall k :: Removed(k) in r.changes <==> Names(a.columns, k) && !Names(b.columns, k))
    && (forall k :: Added(k) in r.changes <==> Names(b.columns, k) && !Names(a.columns, k))
    && (forall i, j | Counts(a.columns, i) && Counts(b.columns, j) && a.columns[i].name == b.columns[j].name ::
          SaysOf(a.columns[i], b.columns[j], r.changes))
    && (forall c | c in r.changes && OfColumn(c) :: Names(a.columns, c.column) && Names(b.columns, c.column))
  }

  predicate OfColumn(c: Change) {
    !c.ScoreChanged? && !c.DuplicatesChanged? && !c.Removed? && !c.Added?
  }

  lemma {:induction false} NamesKept(cols: seq<ColumnProfile>, k: string)
    ensures k in ByName(cols) <==> Names(cols, k)
  {
    if cols != [] {
      var init := cols[..|cols| - 1];
      NamesKept(init, k);
      if Names(init, k) {
        var i :| 0 <= i < |init| && init[i].name == k;
        assert cols[i].name == k;
      }
      if cols[|cols| - 1].name != k && Names(cols, k) {
        var i :| 0 <= i < |cols| && cols[i].name == k;
        assert init[i].name == k;
      }
    }
  }

  /** The map keeps the last column of each name. */
  lemma {:induction false} LastKept(cols: seq<ColumnProfile>, i: int)
    requires Counts(cols, i)
    ensures cols[i].name in ByName(cols) && ByName(cols)[cols[i].name] == cols[i]
  {
    var init := cols[..|cols| - 1];
    if i < |init| {
      assert init[i] == cols[i];
      assert forall j | i < j < |init| :: init[j] == cols[j];
      LastKept(init, i);
      assert cols[|cols| - 1].name != cols[i].name;
    }
  }

  lemma DiffersSays(o: ColumnProfile, n: ColumnProfile, changes: seq<Change>)
    requires forall c | OfColumn(c) && c.column == o.name :: c in changes <==> ColumnDiffers(o.name, o, n, c)
    ensures SaysOf(o, n, changes)
  {
  }

  lemma SaysOfCommon(a: TableProfile, b: TableProfile, r: DriftReport, i: int, j: int)
    requires IsReport(a, b, r)
    requires Counts(a.columns, i) && Counts(b.columns, j) && a.columns[i].name == b.columns[j].name
    ensures SaysOf(a.columns[i], b.columns[j], r.changes)
  {
    LastKept(a.columns, i);
    LastKept(b.columns, j);
    DiffersSays(a.columns[i], b.columns[j], r.changes);
  }

  lemma SaysNames(a: TableProfile, b: TableProfile, r: DriftReport)
    requires IsReport(a, b, r)
    ensures forall k :: Removed(k) in r.changes <==> Names(a.columns, k) && !Names(b.columns, k)
    ensures forall k :: Added(k) in r.changes <==> Names(b.columns, k) && !Names(a.columns, k)
    ensures forall c | c in r.changes && OfColumn(c) :: Names(a.columns, c.column) && Names(b.columns, c.column)
  {
    forall k ensures k in ByName(a.columns) <==> Names(a.columns, k) { NamesKept(a.columns, k); }
    forall k ensures k in ByName(b.columns) <==> Names(b.columns, k) { NamesKept(b.columns, k); }
  }

  /** Every report says all that. */
  lemma ReportSays(a: TableProfile, b: TableProfile, r: DriftReport)
    requires IsReport(a, b, r)
    ensures Says(a, b, r)
  {
    SaysNames(a, b, r);
    forall i, j | Counts(a.columns, i) && Counts(b.columns, j) && a.columns[i].name == b.columns[j].name
      ensures SaysOf(a.columns[i], b.columns[j], r.changes)
    {
      SaysOfCommon(a, b, r, i, j);
    }
  }

  // ----- main results -----

  lemma {:induction false} BagCount<T>(s: seq<T>, x: T)
    requires NoDup(s)
    ensures multiset(s)[x] == if x in s then 1 else 0
  {
    if s != [] {
      assert s == [s[0]] + s[1..];
      BagCount(s[1..], x);
    }
  }

  lemma SameElementsSameBag<T>(s: seq<T>, t: seq<T>)
    requires NoDup(s) && NoDup(t) && (forall x :: x in s <==> x in t)
    ensures multiset(s) == multiset(t)
  {
    forall x ensures multiset(s)[x] == multiset(t)[x] {
      BagCount(s, x);
      BagCount(t, x);
    }
  }

  /** Whatever order Go chooses for its maps, the report is the same up to the order of its lines. */
  lemma OrderIndependent(a: TableProfile, b: TableProfile, r: DriftReport, r': DriftReport)
    requires IsReport(a, b, r) && IsReport(a, b, r')
    ensures multiset(r.changes) == multiset(r'.changes)
    ensures r.changed == r'.changed && r.scoreDelta == r'.scoreDelta
  {
    SameElementsSameBag(r.changes, r'.changes);
    assert r.changes == [] || r.changes[0] in r'.changes;
    assert r'.changes == [] || r'.changes[0] in r.changes;
  }

  lemma First<T>(s: seq<T>)
    ensures s == [] || s[0] in s
  {
  }

  /** A profile does not drift from itself, repeated column names included. */
  lemma SelfCompare(a: TableProfile, r: DriftReport)
    requires IsReport(a, a, r)
    ensures r == DriftReport(false, 0.0, [])
  {
    First(r.changes);
  }

  function Mirror(c: Change): Change {
    match c
    case ScoreChanged(x, y) => ScoreChanged(y, x)
    case Removed(k) => Added(k)
    case Added(k) => Removed(k)
    case TypeChanged(k, x, y) => TypeChanged(k, y, x)
    case NullabilityChanged(k) => c
    case DistinctChanged(k, x, y) => DistinctChanged(k, y, x)
    case NullPercentageChanged(k, x, y) => NullPercentageChanged(k, y, x)
    case DistinctPercentageChanged(k, x, y) => DistinctPercentageChanged(k, y, x)
    case OutlierPercentageChanged(k, x, y) => OutlierPercentageChanged(k, y, x)
    case PiiChanged(k, x, y) => PiiChanged(k, y, x)
    case DuplicatesChanged(x, y) => DuplicatesChanged(y, x)
  }

  function MirrorAll(cs: seq<Change>): (ms: seq<Change>)
    ensures |ms| == |cs| && forall i | 0 <= i < |cs| :: ms[i] == Mirror(cs[i])
  {
    seq(|cs|, i requires 0 <= i < |cs| => Mirror(cs[i]))
  }

  lemma MirrorDiffers(a: TableProfile, b: TableProfile, c: Change)
    ensures Mirror(Mirror(c)) == c
    ensures Differs(b, a, Mirror(c)) <==> Differs(a, b, c)
  {
  }

  /** Comparing the other way round reports the mirror image: added and removed, old and new change
      places and the score difference changes its sign. */
  lemma CompareMirrors(a: TableProfile, b: TableProfile, r: DriftReport, r': DriftReport)
    requires IsReport(a, b, r) && IsReport(b, a, r')
    ensures r'.scoreDelta == -r.scoreDelta
    ensures r'.changed == r.changed
    ensures multiset(r'.changes) == multiset(MirrorAll(r.changes))
  {
    var m := MirrorAll(r.changes);
    forall i, j | 0 <= i < j < |m| ensures m[i] != m[j] {
      MirrorDiffers(a, b, r.changes[i]);
      MirrorDiffers(a, b, r.changes[j]);
    }
    forall c ensures c in r'.changes <==> c in m {
      MirrorDiffers(b, a, c);
      if c in m {
        var i :| 0 <= i < |m| && m[i] == c;
        MirrorDiffers(a, b, r.changes[i]);
      }
      if c in r'.changes {
        assert Mirror(c) in r.changes;
        var i :| 0 <= i < |r.changes| && r.changes[i] == Mirror(c);
        assert m[i] == c;
      }
    }
    SameElementsSameBag(r'.changes, m);
    assert |r'.changes| == |multiset(r'.changes)| == |multiset(m)| == |r.changes|;
  }
}
