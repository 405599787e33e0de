/** quality.Evaluate (internal/quality/quality.go): the checks of a table profile and its score.
    A Go string is a sequence of chars, one per byte. */
module Quality {
  import opened Domain
  import Criteria

  // ----- name and type tests -----

  function LowerChar(c: char): char {
    if 'A' <= c <= 'Z' then (c as int + 32) as char else c
  }

  function LowerOf(s: string): string {
    seq(|s|, i requires 0 <= i < |s| => LowerChar(s[i]))
  }

  method Lower(s: string) returns (r: string)
    ensures r == LowerOf(s)
  {
    var b := new char[|s|](i requires 0 <= i < |s| => s[i]);
    for i := 0 to |s|
      invariant forall k | 0 <= k < |s| :: b[k] == if k < i then LowerChar(s[k]) else s[k]
    {
      var c := b[i];
      if 'A' <= c && c <= 'Z' {
        b[i] := (c as int + 32) as char;
      }
    }
    r := b[..];
  }

  predicate OccursAt(s: string, v: string, i: int) {
    0 <= i <= |s| - |v| && s[i..i + |v|] == v
  }

  predicate Contains(s: string, v: string) {
    exists i | 0 <= i <= |s| :: OccursAt(s, v, i)
  }

  method ContainsAny(s: string, values: seq<string>) returns (found: bool)
    ensures found <==> exists k | 0 <= k < |values| :: Contains(s, values[k])
  {
    for k := 0 to |values|
      invariant forall j | 0 <= j < k :: !Contains(s, values[j])
    {
      var v := values[k];
      var i := 0;
      while i + |v| <= |s|
        invariant 0 <= i
        invariant forall j | 0 <= j < i :: !OccursAt(s, v, j)
      {
        if s[i..i + |v|] == v {
          assert OccursAt(s, v, i);
          return true;
        }
        i := i + 1;
      }
    }
    return false;
  }

  const TEXT: seq<string> := ["char", "text", "string"]
  const DATETIME: seq<string> := ["date", "time", "timestamp"]
  const NUMERIC: seq<string> := ["int", "decimal", "numeric", "float", "double", "real", "money"]

  predicate TypeIn(t: string, family: seq<string>) {
    exists k | 0 <= k < |family| :: Contains(LowerOf(t), family[k])
  }

  method IsType(t: string, family: seq<string>) returns (b: bool)
    ensures b <==> TypeIn(t, family)
  {
    var l := Lower(t);
    b := ContainsAny(l, family);
  }

  /** As written: "id", or more than three characters ending in "_id" or in "id". */
  predicate LikelyKey(name: string) {
    var n := LowerOf(name);
    n == "id" || (|n| > 3 && (n[|n| - 3..] == "_id" || n[|n| - 2..] == "id"))
  }

  /** The test for the suffix "_id" never decides anything: every longer name that merely ends in
      "id", such as "paid", counts as a key. */
  lemma LikelyKeyIsSuffix(name: string)
    ensures LikelyKey(name) <==>
            LowerOf(name) == "id" || (|name| > 3 && LowerOf(name)[|name| - 2..] == "id")
  {
    var n := LowerOf(name);
    if |n| > 3 && n[|n| - 3..] == "_id" {
      assert n[|n| - 2..] == n[|n| - 3..][1..];
    }
  }

  // ----- settings -----

  datatype Settings = Settings(
    nullThreshold: real, dominantThreshold: real, cardinalityThreshold: real,
    allowEmpty: bool, allowWhitespace: bool)

  function Threshold(given: Option<real>, default: real): (t: real)
    requires 0.0 <= default <= 100.0
    ensures 0.0 <= t <= 100.0
  {
    if given.Some? && 0.0 <= given.value <= 100.0 then given.value else default
  }

  function Flag(given: Option<bool>): bool {
    given.Some? && given.value
  }

  const NO_RULES: Rules := Rules(None, None, None, None, None)

  function Resolve(rules: Option<Rules>): Settings {
    var r := if rules.Some? then rules.value else NO_RULES;
    Settings(Threshold(r.nullPercentage, 20.0), Threshold(r.dominantPercentage, 80.0),
             Threshold(r.cardinalityPercentage, 95.0), Flag(r.allowEmpty), Flag(r.allowWhitespace))
  }

  // ----- closed form of one column -----

  function Percentage(count: int, total: int): real {
    if total <= 0 then 0.0 else count as real * 100.0 / total as real
  }

  function Grade(passed: bool, failed: Severity): Severity {
    if passed then Pass else failed
  }

  function When(b: bool, c: Check): seq<Check> {
    if b then [c] else []
  }

  predicate Complete(c: ColumnProfile, s: Settings) {
    Percentage(c.nullCount, c.totalRows) <= s.nullThreshold
  }

  predicate Unique(c: ColumnProfile) {
    c.totalRows > 0 && c.distinctCount == c.totalRows
  }

  /** The checks of a column, in the order in which the code makes them. */
  function KeyChecks(c: ColumnProfile, s: Settings): seq<Check> {
    [Check(Completeness, c.name, Complete(c, s), Grade(Complete(c, s), Fail), s.nullThreshold,
           Percentage(c.nullCount, c.totalRows))]
    + When(LikelyKey(c.name),
           Check(Uniqueness, c.name, Unique(c), Grade(Unique(c), Fail), 100.0, c.distinctPercentage))
  }

  function HintChecks(c: ColumnProfile, s: Settings): seq<Check> {
    When(c.totalRows > 0 && c.distinctCount <= 1,
         Check(Constant, c.name, false, Warn, 1.0, c.distinctCount as real))
    + When(c.totalRows > 0 && c.distinctPercentage >= s.cardinalityThreshold && !LikelyKey(c.name),
           Check(HighCardinality, c.name, true, Info, s.cardinalityThreshold, c.distinctPercentage))
    + When(|c.topPercentages| > 0 && c.topPercentages[0] >= s.dominantThreshold,
           Check(DominantValue, c.name, true, Info, s.dominantThreshold,
                 if |c.topPercentages| > 0 then c.topPercentages[0] else 0.0))
  }

  function TextChecks(c: ColumnProfile, s: Settings): seq<Check> {
    if !TypeIn(c.dataType, TEXT) then [] else
    [Check(Empty, c.name, s.allowEmpty || c.emptyCount == 0, Grade(c.emptyCount == 0, Warn), 0.0,
           Percentage(c.emptyCount, c.totalRows)),
     Check(Whitespace, c.name, s.allowWhitespace || c.whitespaceCount == 0,
           Grade(c.whitespaceCount == 0, Warn), 0.0, Percentage(c.whitespaceCount, c.totalRows))]
  }

  function ValueChecks(c: ColumnProfile): seq<Check> {
    When(TypeIn(c.dataType, NUMERIC) && c.outlierCount > 0,
         Check(Outliers, c.name, true, Warn, 0.0, c.outlierPercentage))
    + When(TypeIn(c.dataType, DATETIME) && c.futureDateCount > 0,
           Check(FutureDates, c.name, false, Warn, 0.0, c.futureDatePercentage))
    + When(TypeIn(c.dataType, NUMERIC) && c.zeroCount > 0,
           Check(ZeroValues, c.name, true, Info, 0.0, Percentage(c.zeroCount, c.totalRows - c.nullCount)))
  }

  function ColumnChecks(c: ColumnProfile, s: Settings): seq<Check> {
    KeyChecks(c, s) + HintChecks(c, s) + TextChecks(c, s) + ValueChecks(c)
  }

  function If(b: bool, n: nat): nat {
    if b then n else 0
  }

  /** What the code takes off the score for a column. */
  function KeyPenalty(c: ColumnProfile, s: Settings): nat {
    If(!Complete(c, s), 10) + If(LikelyKey(c.name) && !Unique(c), 5)
  }

  function TextPenalty(c: ColumnProfile, s: Settings): nat {
    if !TypeIn(c.dataType, TEXT) then 0
    else If(c.emptyCount > 0 && !s.allowEmpty, 3) + If(c.whitespaceCount > 0 && !s.allowWhitespace, 2)
  }

  function ValuePenalty(c: ColumnProfile): nat {
    If(TypeIn(c.dataType, DATETIME) && c.futureDateCount > 0, 3)
  }

  function ColumnPenalty(c: ColumnProfile, s: Settings): nat {
    KeyPenalty(c, s) + TextPenalty(c, s) + ValuePenalty(c)
  }

  // ----- closed form of a table -----

  function AllChecks(cols: seq<ColumnProfile>, s: Settings): seq<Check> {
    if cols == [] then []
    else AllChecks(cols[..|cols| - 1], s) + ColumnChecks(cols[|cols| - 1], s)
  }

  function AllPenalties(cols: seq<ColumnProfile>, s: Settings): nat {
    if cols == [] then 0
    else AllPenalties(cols[..|cols| - 1], s) + ColumnPenalty(cols[|cols| - 1], s)
  }

  function TableChecks(p: TableProfile): seq<Check> {
    When(p.duplicateRows > 0, Check(DuplicateRows, "", false, Warn, 0.0, p.duplicatePercentage))
  }

  function Penalty(p: TableProfile, s: Settings): nat {
    AllPenalties(p.columns, s) + If(p.duplicateRows > 0, 5)
  }

  function Clamp(x: real): real {
    if x < 0.0 then 0.0 else x
  }

  function Report(p: TableProfile, rules: Option<Rules>): QualityReport {
    ReportWith(p, Resolve(rules))
  }

  function ReportWith(p: TableProfile, s: Settings): QualityReport {
    QualityReport(Clamp(100.0 - Penalty(p, s) as real), AllChecks(p.columns, s) + TableChecks(p))
  }

  /** The report depends on the columns and the duplicates only. */
  lemma ReportOnlyReads(p: TableProfile, q: TableProfile, rules: Option<Rules>)
    requires p.columns == q.columns
    requires p.duplicateRows == q.duplicateRows && p.duplicatePercentage == q.duplicatePercentage
    ensures Report(p, rules) == Report(q, rules)
  {
  }

  // ----- the loops of quality.Evaluate -----

  method EvaluateKey(c: ColumnProfile, s: Settings, score: real) returns (checks: seq<Check>, left: real)
    ensures checks == KeyChecks(c, s)
    ensures left == score - KeyPenalty(c, s) as real
  {
    var nullPct := Percentage(c.nullCount, c.totalRows);
    var completenessPassed := nullPct <= s.nullThreshold;
    checks := [Check(Completeness, c.name, completenessPassed, Grade(completenessPassed, Fail),
                     s.nullThreshold, nullPct)];
    left := score;
    if !completenessPassed { left := left - 10.0; }
    if LikelyKey(c.name) {
      var unique := c.totalRows > 0 && c.distinctCount == c.totalRows;
      checks := checks + [Check(Uniqueness, c.name, unique, Grade(unique, Fail), 100.0, c.distinctPercentage)];
      if !unique { left := left - 5.0; }
    }
  }

  method EvaluateHints(c: ColumnProfile, s: Settings) returns (checks: seq<Check>)
    ensures checks == HintChecks(c, s)
  {
    checks := [];
    if c.totalRows > 0 && c.distinctCount <= 1 {
      checks := checks + [Check(Constant, c.name, false, Warn, 1.0, c.distinctCount as real)];
    }
    if c.totalRows > 0 && c.distinctPercentage >= s.cardinalityThreshold && !LikelyKey(c.name) {
      checks := checks + [Check(HighCardinality, c.name, true, Info, s.cardinalityThreshold, c.distinctPercentage)];
    }
    if |c.topPercentages| > 0 && c.topPercentages[0] >= s.dominantThreshold {
      checks := checks + [Check(DominantValue, c.name, true, Info, s.dominantThreshold, c.topPercentages[0])];
    }
  }

  method EvaluateText(c: ColumnProfile, s: Settings, score: real) returns (checks: seq<Check>, left: real)
    ensures checks == TextChecks(c, s)
    ensures left == score - TextPenalty(c, s) as real
  {
    checks, left := [], score;
    var isText := IsType(c.dataType, TEXT);
    if isText {
      var emptyPct := Percentage(c.emptyCount, c.totalRows);
      checks := checks + [Check(Empty, c.name, s.allowEmpty || c.emptyCount == 0,
                                Grade(c.emptyCount == 0, Warn), 0.0, emptyPct)];
      if c.emptyCount > 0 && !s.allowEmpty { left := left - 3.0; }
      var whitespacePct := Percentage(c.whitespaceCount, c.totalRows);
      checks := checks + [Check(Whitespace, c.name, s.allowWhitespace || c.whitespaceCount == 0,
                                Grade(c.whitespaceCount == 0, Warn), 0.0, whitespacePct)];
      if c.whitespaceCount > 0 && !s.allowWhitespace { left := left - 2.0; }
    }
  }

  method EvaluateValues(c: ColumnProfile, score: real) returns (checks: seq<Check>, left: real)
    ensures checks == ValueChecks(c)
    ensures left == score - ValuePenalty(c) as real
  {
    checks, left := [], score;
    var numeric := IsType(c.dataType, NUMERIC);
    var dateTime := IsType(c.dataType, DATETIME);
    if numeric && c.outlierCount > 0 {
      checks := checks + [Check(Outliers, c.name, true, Warn, 0.0, c.outlierPercentage)];
    }
    if dateTime && c.futureDateCount > 0 {
      checks := checks + [Check(FutureDates, c.name, false, Warn, 0.0, c.futureDatePercentage)];
      left := left - 3.0;
    }
    if numeric && c.zeroCount > 0 {
      var zeroPct := Percentage(c.zeroCount, c.totalRows - c.nullCount);
      checks := checks + [Check(ZeroValues, c.name, true, Info, 0.0, zeroPct)];
    }
  }

  method EvaluateColumn(c: ColumnProfile, s: Settings, score: real) returns (checks: seq<Check>, left: real)
    ensures checks == ColumnChecks(c, s)
    ensures left == score - ColumnPenalty(c, s) as real
  {
    var key, hints, text, values;
    key, left := EvaluateKey(c, s, score);
    hints := EvaluateHints(c, s);
    text, left := EvaluateText(c, s, left);
    values, left := EvaluateValues(c, left);
    checks := key + hints + text + values;
  }

  method EvaluateColumns(cols: seq<ColumnProfile>, s: Settings) returns (checks: seq<Check>, score: real)
    ensures checks == AllChecks(cols, s)
    ensures score == 100.0 - AllPenalties(cols, s) as real
  {
    checks, score := [], 100.0;
    for k := 0 to |cols|
      invariant checks == AllChecks(cols[..k], s)
      invariant score == 100.0 - AllPenalties(cols[..k], s) as real
    {
      assert cols[..k + 1][..k] == cols[..k];
      var more;
      more, score := EvaluateColumn(cols[k], s, score);
      checks := checks + more;
    }
    assert cols[..|cols|] == cols;
  }

  method EvaluateTable(p: TableProfile, s: Settings) returns (r: QualityReport)
    ensures r == ReportWith(p, s)
  {
    var checks, score := EvaluateColumns(p.columns, s);
    if p.duplicateRows > 0 {
      checks := checks + [Check(DuplicateRows, "", false, Warn, 0.0, p.duplicatePercentage)];
      score := score - 5.0;
    }
    if score < 0.0 {
      score := 0.0;
    }
    return QualityReport(score, checks);
  }

  method Evaluate(p: TableProfile, rules: Option<Rules>) returns (r: QualityReport)
    ensures r == Report(p, rules)
    ensures Criteria.Fulfils(p, rules, r)
  {
    r := EvaluateTable(p, Resolve(rules));
    ReportFulfils(p, rules, r);
  }

  // ----- the report fulfils the criteria -----

  lemma LowerReads(t: string, word: string, i: int)
    requires forall j | 0 <= j < |word| :: !('A' <= word[j] <= 'Z')
    ensures OccursAt(LowerOf(t), word, i) <==> Criteria.ReadsAt(t, word, i)
  {
    if 0 <= i <= |t| - |word| {
      var part := LowerOf(t)[i..i + |word|];
      assert forall j | 0 <= j < |word| :: part[j] == LowerChar(t[i + j]);
      assert forall j | 0 <= j < |word| :: part[j] == word[j] <==> Criteria.Reads(t[i + j], word[j]);
    }
  }

  lemma LowerMentions(t: string, word: string)
    requires forall j | 0 <= j < |word| :: !('A' <= word[j] <= 'Z')
    ensures Contains(LowerOf(t), word) <==> Criteria.Mentions(t, word)
  {
    forall i ensures OccursAt(LowerOf(t), word, i) <==> Criteria.ReadsAt(t, word, i) { LowerReads(t, word, i); }
  }

  lemma FamilyMentions(t: string, family: seq<string>)
    requires forall k, j | 0 <= k < |family| && 0 <= j < |family[k]| :: !('A' <= family[k][j] <= 'Z')
    ensures TypeIn(t, family) <==> exists k :: 0 <= k < |family| && Criteria.Mentions(t, family[k])
  {
    forall k | 0 <= k < |family| ensures Contains(LowerOf(t), family[k]) <==> Criteria.Mentions(t, family[k]) {
      LowerMentions(t, family[k]);
    }
  }

  lemma TextIs(t: string)
    ensures TypeIn(t, TEXT) <==> Criteria.IsText(t)
  {
    FamilyMentions(t, TEXT);
    assert TEXT[0] == "char" && TEXT[1] == "text" && TEXT[2] == "string" && |TEXT| == 3;
  }

  lemma DateTimeIs(t: string)
    ensures TypeIn(t, DATETIME) <==> Criteria.IsDateTime(t)
  {
    FamilyMentions(t, DATETIME);
    assert DATETIME[0] == "date" && DATETIME[1] == "time" && DATETIME[2] == "timestamp" && |DATETIME| == 3;
  }

  lemma NumericIs(t: string)
    ensures TypeIn(t, NUMERIC) <==> Criteria.IsNumeric(t)
  {
    FamilyMentions(t, NUMERIC);
    assert NUMERIC[0] == "int" && NUMERIC[1] == "decimal" && NUMERIC[2] == "numeric" && NUMERIC[3] == "float";
    assert NUMERIC[4] == "double" && NUMERIC[5] == "real" && NUMERIC[6] == "money" && |NUMERIC| == 7;
  }

  lemma KeyIs(name: string)
    ensures LikelyKey(name) <==> Criteria.IsKey(name)
  {
    var n := LowerOf(name);
    LowerReads(name, "id", 0);
    LowerReads(name, "id", |name| - 2);
    LowerReads(name, "_id", |name| - 3);
    assert |n| == 2 ==> n[0..2] == n;
    assert |n| > 3 ==> n[|n| - 2..] == n[|n| - 2..|n|] && n[|n| - 3..] == n[|n| - 3..|n|];
  }

  lemma SettingsAre(rules: Option<Rules>)
    ensures var (s, r) := (Resolve(rules), Criteria.Asked(rules));
            && s.nullThreshold == Criteria.Limit(r.nullPercentage, 20.0)
            && s.dominantThreshold == Criteria.Limit(r.dominantPercentage, 80.0)
            && s.cardinalityThreshold == Criteria.Limit(r.cardinalityPercentage, 95.0)
            && (s.allowEmpty <==> r.allowEmpty == Some(true))
            && (s.allowWhitespace <==> r.allowWhitespace == Some(true))
  {
  }

  lemma KeyBlock(c: ColumnProfile, rules: Option<Rules>)
    ensures forall x :: x in KeyChecks(c, Resolve(rules)) <==>
              (x.kind.Completeness? || x.kind.Uniqueness?) && Criteria.ColumnHas(c, Criteria.Asked(rules), x)
  {
    SettingsAre(rules);
    KeyIs(c.name);
  }

  lemma HintBlock(c: ColumnProfile, rules: Option<Rules>)
    ensures forall x :: x in HintChecks(c, Resolve(rules)) <==>
              (x.kind.Constant? || x.kind.HighCardinality? || x.kind.DominantValue?)
              && Criteria.ColumnHas(c, Criteria.Asked(rules), x)
  {
    SettingsAre(rules);
    KeyIs(c.name);
  }

  lemma TextBlock(c: ColumnProfile, rules: Option<Rules>)
    ensures forall x :: x in TextChecks(c, Resolve(rules)) <==>
              (x.kind.Empty? || x.kind.Whitespace?) && Criteria.ColumnHas(c, Criteria.Asked(rules), x)
  {
    SettingsAre(rules);
    TextIs(c.dataType);
  }

  lemma ValueBlock(c: ColumnProfile, rules: Option<Rules>)
    ensures forall x :: x in ValueChecks(c) <==>
              (x.kind.Outliers? || x.kind.FutureDates? || x.kind.ZeroValues?)
              && Criteria.ColumnHas(c, Criteria.Asked(rules), x)
  {
    DateTimeIs(c.dataType);
    NumericIs(c.dataType);
  }

  ghost predicate Ranked(checks: seq<Check>, lo: nat, hi: nat) {
    && (forall i | 0 <= i < |checks| :: lo <= Criteria.Rank(checks[i].kind) < hi)
    && (forall i, j | 0 <= i < j < |checks| :: Criteria.Rank(checks[i].kind) < Criteria.Rank(checks[j].kind))
  }

  lemma RankedJoin(x: seq<Check>, y: seq<Check>, lo: nat, mid: nat, hi: nat)
    requires lo <= mid <= hi && Ranked(x, lo, mid) && Ranked(y, mid, hi)
    ensures Ranked(x + y, lo, hi)
  {
  }

  lemma KeyRanked(c: ColumnProfile, s: Settings)
    ensures Ranked(KeyChecks(c, s), 0, 2)
  {
  }

  lemma HintRanked(c: ColumnProfile, s: Settings)
    ensures Ranked(HintChecks(c, s), 2, 5)
  {
  }

  lemma TextRanked(c: ColumnProfile, s: Settings)
    ensures Ranked(TextChecks(c, s), 5, 7)
  {
  }

  lemma ValueRanked(c: ColumnProfile)
    ensures Ranked(ValueChecks(c), 7, 10)
  {
  }

  lemma ColumnRanked(c: ColumnProfile, s: Settings)
    ensures Ranked(ColumnChecks(c, s), 0, 10)
  {
    KeyRanked(c, s);
    HintRanked(c, s);
    TextRanked(c, s);
    ValueRanked(c);
    FourRanked(KeyChecks(c, s), HintChecks(c, s), TextChecks(c, s), ValueChecks(c));
  }

  lemma FourRanked(x: seq<Check>, y: seq<Check>, z: seq<Check>, t: seq<Check>)
    requires Ranked(x, 0, 2) && Ranked(y, 2, 5) && Ranked(z, 5, 7) && Ranked(t, 7, 10)
    ensures Ranked(x + y + z + t, 0, 10)
  {
    RankedJoin(x, y, 0, 2, 5);
    RankedJoin(x + y, z, 0, 5, 7);
    RankedJoin(x + y + z, t, 0, 7, 10);
  }

  lemma BlockIs(c: ColumnProfile, rules: Option<Rules>)
    ensures Criteria.BlockOf(c, Criteria.Asked(rules), ColumnChecks(c, Resolve(rules)))
  {
    KeyBlock(c, rules);
    HintBlock(c, rules);
    TextBlock(c, rules);
    ValueBlock(c, rules);
    ColumnRanked(c, Resolve(rules));
  }

  lemma CostIs(c: ColumnProfile, rules: Option<Rules>)
    ensures ColumnPenalty(c, Resolve(rules)) == Criteria.Cost(c, Criteria.Asked(rules))
  {
    SettingsAre(rules);
    KeyIs(c.name);
    TextIs(c.dataType);
    DateTimeIs(c.dataType);
  }

  lemma {:induction false} CostsAre(cols: seq<ColumnProfile>, rules: Option<Rules>)
    ensures AllPenalties(cols, Resolve(rules)) == Criteria.Costs(cols, Criteria.Asked(rules))
  {
    if cols != [] {
      CostsAre(cols[..|cols| - 1], rules);
      CostIs(cols[|cols| - 1], rules);
    }
  }

  lemma {:induction false} BlocksOf(cols: seq<ColumnProfile>, rules: Option<Rules>) returns (blocks: seq<seq<Check>>)
    ensures |blocks| == |cols| && Criteria.Joined(blocks) == AllChecks(cols, Resolve(rules))
    ensures forall k | 0 <= k < |blocks| :: Criteria.BlockOf(cols[k], Criteria.Asked(rules), blocks[k])
  {
    blocks := [];
    if cols != [] {
      var init := BlocksOf(cols[..|cols| - 1], rules);
      BlockIs(cols[|cols| - 1], rules);
      blocks := init + [ColumnChecks(cols[|cols| - 1], Resolve(rules))];
      assert blocks[..|blocks| - 1] == init;
    }
  }

  /** The report contains exactly the checks that the column counts call for, each with the right verdict,
      severity, threshold and value, in order, and costs exactly the points they are worth. */
  lemma ReportFulfils(p: TableProfile, rules: Option<Rules>, r: QualityReport)
    requires r == Report(p, rules)
    ensures Criteria.Fulfils(p, rules, r)
  {
    CostsAre(p.columns, rules);
    var blocks := BlocksOf(p.columns, rules);
    ChecksListed(p, rules, blocks);
  }

  lemma ChecksListed(p: TableProfile, rules: Option<Rules>, blocks: seq<seq<Check>>)
    requires |blocks| == |p.columns| && Criteria.Joined(blocks) == AllChecks(p.columns, Resolve(rules))
    requires forall k | 0 <= k < |blocks| :: Criteria.BlockOf(p.columns[k], Criteria.Asked(rules), blocks[k])
    ensures Criteria.ListsChecks(p, Criteria.Asked(rules), Report(p, rules).checks)
  {
  }

  // ----- the score can be recomputed from the report -----

  function Weight(k: CheckKind): nat {
    match k
    case Completeness => 10
    case Uniqueness => 5
    case Empty => 3
    case Whitespace => 2
    case FutureDates => 3
    case DuplicateRows => 5
    case _ => 0
  }

  /** The sum of the weights of the failed checks. */
  function Deductions(checks: seq<Check>): nat {
    if checks == [] then 0
    else Deductions(checks[1..]) + If(!checks[0].passed, Weight(checks[0].kind))
  }

  lemma {:induction false} DeductionsAppend(x: seq<Check>, y: seq<Check>)
    ensures Deductions(x + y) == Deductions(x) + Deductions(y)
  {
    if x == [] {
      assert x + y == y;
    } else {
      assert (x + y)[1..] == x[1..] + y;
      DeductionsAppend(x[1..], y);
    }
  }

  /** A negative count, which no SQL COUNT returns, fails its check without costing anything. */
  predicate Sane(c: ColumnProfile, s: Settings) {
    TypeIn(c.dataType, TEXT) ==>
      (s.allowEmpty || c.emptyCount >= 0) && (s.allowWhitespace || c.whitespaceCount >= 0)
  }

  lemma DeductionsOfColumn(c: ColumnProfile, s: Settings)
    ensures Deductions(ColumnChecks(c, s)) >= ColumnPenalty(c, s)
    ensures Deductions(ColumnChecks(c, s)) == ColumnPenalty(c, s) <==> Sane(c, s)
  {
    DeductionsOfFour(KeyChecks(c, s), HintChecks(c, s), TextChecks(c, s), ValueChecks(c));
    DeductionsOfKey(c, s);
    DeductionsOfHints(c, s);
    DeductionsOfText(c, s);
    DeductionsOfValues(c);
  }

  lemma DeductionsOfFour(x: seq<Check>, y: seq<Check>, z: seq<Check>, t: seq<Check>)
    ensures Deductions(x + y + z + t) == Deductions(x) + Deductions(y) + Deductions(z) + Deductions(t)
  {
    DeductionsAppend(x + y + z, t);
    DeductionsAppend(x + y, z);
    DeductionsAppend(x, y);
  }

  lemma DeductionsOfHints(c: ColumnProfile, s: Settings)
    ensures Deductions(HintChecks(c, s)) == 0
  {
    Harmless(HintChecks(c, s));
  }

  lemma DeductionsOfKey(c: ColumnProfile, s: Settings)
    ensures Deductions(KeyChecks(c, s)) == KeyPenalty(c, s)
  {
    var k := KeyChecks(c, s);
    assert k == k[..1] + k[1..];
    DeductionsAppend(k[..1], k[1..]);
  }

  lemma {:induction false} Harmless(cs: seq<Check>)
    requires forall c | c in cs :: c.passed || Weight(c.kind) == 0
    ensures Deductions(cs) == 0
  {
    if cs != [] { Harmless(cs[1..]); }
  }

  lemma DeductionsOfText(c: ColumnProfile, s: Settings)
    ensures Deductions(TextChecks(c, s)) >= TextPenalty(c, s)
    ensures Deductions(TextChecks(c, s)) == TextPenalty(c, s) <==> Sane(c, s)
  {
    var t := TextChecks(c, s);
    if t != [] {
      assert t == t[..1] + t[1..];
      DeductionsAppend(t[..1], t[1..]);
    }
  }

  lemma DeductionsOfValues(c: ColumnProfile)
    ensures Deductions(ValueChecks(c)) == ValuePenalty(c)
  {
    var x := When(TypeIn(c.dataType, NUMERIC) && c.outlierCount > 0,
                  Check(Outliers, c.name, true, Warn, 0.0, c.outlierPercentage));
    var y := When(TypeIn(c.dataType, DATETIME) && c.futureDateCount > 0,
                  Check(FutureDates, c.name, false, Warn, 0.0, c.futureDatePercentage));
    var z := When(TypeIn(c.dataType, NUMERIC) && c.zeroCount > 0,
                  Check(ZeroValues, c.name, true, Info, 0.0, Percentage(c.zeroCount, c.totalRows - c.nullCount)));
    DeductionsAppend(x + y, z);
    DeductionsAppend(x, y);
  }

  lemma {:induction false} DeductionsOfColumns(cols: seq<ColumnProfile>, s: Settings)
    ensures Deductions(AllChecks(cols, s)) >= AllPenalties(cols, s)
    ensures Deductions(AllChecks(cols, s)) == AllPenalties(cols, s) <==> forall c | c in cols :: Sane(c, s)
  {
    if cols != [] {
      var init, last := cols[..|cols| - 1], cols[|cols| - 1];
      assert cols == init + [last];
      DeductionsOfColumns(init, s);
      DeductionsAppend(AllChecks(init, s), ColumnChecks(last, s));
      DeductionsOfColumn(last, s);
    }
  }

  /** Exactly when no disallowed count is negative, what the code takes off is the sum of the weights
      of the failed checks: a reader of the report can recompute the score. */
  lemma PenaltyIsRecomputable(p: TableProfile, rules: Option<Rules>)
    ensures Penalty(p, Resolve(rules)) == Deductions(Report(p, rules).checks) <==>
            forall c | c in p.columns :: Sane(c, Resolve(rules))
  {
    var s := Resolve(rules);
    DeductionsOfColumns(p.columns, s);
    DeductionsAppend(AllChecks(p.columns, s), TableChecks(p));
    assert Deductions(TableChecks(p)) == If(p.duplicateRows > 0, 5);
  }

  lemma ScoreIsRecomputable(p: TableProfile, rules: Option<Rules>)
    requires forall c | c in p.columns :: c.emptyCount >= 0 && c.whitespaceCount >= 0
    ensures Report(p, rules).score == Clamp(100.0 - Deductions(Report(p, rules).checks) as real)
    ensures 0.0 <= Report(p, rules).score <= 100.0
  {
    PenaltyIsRecomputable(p, rules);
  }

  // ----- how the score moves -----

  lemma {:induction false} PenaltiesAppend(x: seq<ColumnProfile>, y: seq<ColumnProfile>, s: Settings)
    ensures AllPenalties(x + y, s) == AllPenalties(x, s) + AllPenalties(y, s)
  {
    if y == [] {
      assert x + y == x;
    } else {
      assert (x + y)[..|x + y| - 1] == x + y[..|y| - 1];
      PenaltiesAppend(x, y[..|y| - 1], s);
    }
  }

  lemma PenaltiesRemove(y: seq<ColumnProfile>, k: nat, s: Settings)
    requires k < |y|
    ensures AllPenalties(y, s) == AllPenalties(y[..k] + y[k + 1..], s) + ColumnPenalty(y[k], s)
  {
    assert y == y[..k] + [y[k]] + y[k + 1..];
    PenaltiesAppend(y[..k] + [y[k]], y[k + 1..], s);
    PenaltiesAppend(y[..k], [y[k]], s);
    PenaltiesAppend(y[..k], y[k + 1..], s);
    assert [y[k]][..0] == [];
  }

  lemma BagWithout<T>(y: seq<T>, k: nat)
    requires k < |y|
    ensures multiset(y[..k] + y[k + 1..]) == multiset(y) - multiset{y[k]}
  {
    assert y == y[..k] + [y[k]] + y[k + 1..];
  }

  lemma BagRemove<T>(x: seq<T>, y: seq<T>, k: nat)
    requires multiset(x) == multiset(y) && x != [] && k < |y| && y[k] == x[|x| - 1]
    ensures multiset(x[..|x| - 1]) == multiset(y[..k] + y[k + 1..])
  {
    var n := |x| - 1;
    BagWithout(x, n);
    assert x[..n] + x[n + 1..] == x[..n];
    BagWithout(y, k);
  }

  /** The order of the columns does not matter. */
  lemma {:induction false} PenaltiesPermute(x: seq<ColumnProfile>, y: seq<ColumnProfile>, s: Settings)
    requires multiset(x) == multiset(y)
    ensures AllPenalties(x, s) == AllPenalties(y, s)
    decreases |x|
  {
    if x == [] {
      assert |multiset(y)| == 0;
    } else {
      assert x[|x| - 1] in multiset(y);
      var k :| 0 <= k < |y| && y[k] == x[|x| - 1];
      BagRemove(x, y, k);
      PenaltiesPermute(x[..|x| - 1], y[..k] + y[k + 1..], s);
      PenaltiesRemove(y, k, s);
    }
  }

  lemma ScoreIgnoresOrder(p: TableProfile, q: TableProfile, rules: Option<Rules>)
    requires multiset(p.columns) == multiset(q.columns) && p.duplicateRows == q.duplicateRows
    ensures Report(p, rules).score == Report(q, rules).score
  {
    PenaltiesPermute(p.columns, q.columns, Resolve(rules));
  }

  /** One more column, wherever it is put, never raises the score. */
  lemma ColumnNeverRaisesScore(p: TableProfile, i: nat, c: ColumnProfile, rules: Option<Rules>)
    requires i <= |p.columns|
    ensures Report(p.(columns := p.columns[..i] + [c] + p.columns[i..]), rules).score
            <= Report(p, rules).score
  {
    var s := Resolve(rules);
    PenaltiesAppend(p.columns[..i] + [c], p.columns[i..], s);
    PenaltiesAppend(p.columns[..i], [c], s);
    PenaltiesAppend(p.columns[..i], p.columns[i..], s);
    assert p.columns[..i] + p.columns[i..] == p.columns;
  }

  /** `t` forgives at least what `s` forgives. */
  predicate Laxer(s: Settings, t: Settings) {
    && s.nullThreshold <= t.nullThreshold
    && (s.allowEmpty ==> t.allowEmpty)
    && (s.allowWhitespace ==> t.allowWhitespace)
  }

  lemma {:induction false} LaxerPenalty(cols: seq<ColumnProfile>, s: Settings, t: Settings)
    requires Laxer(s, t)
    ensures AllPenalties(cols, t) <= AllPenalties(cols, s)
  {
    if cols != [] { LaxerPenalty(cols[..|cols| - 1], s, t); }
  }

  /** A laxer setting of the other rules never lowers the score, and the dominant-value and cardinality
      thresholds have no influence on it. */
  lemma LaxerNeverLowersScore(p: TableProfile, r: Option<Rules>, r': Option<Rules>)
    requires Laxer(Resolve(r), Resolve(r'))
    ensures Report(p, r).score <= Report(p, r').score
  {
    LaxerPenalty(p.columns, Resolve(r), Resolve(r'));
  }

  lemma ScoreIgnoresHints(p: TableProfile, r: Option<Rules>, r': Option<Rules>)
    requires Laxer(Resolve(r), Resolve(r')) && Laxer(Resolve(r'), Resolve(r))
    ensures Report(p, r).score == Report(p, r').score
  {
    LaxerNeverLowersScore(p, r, r');
    LaxerNeverLowersScore(p, r', r);
  }

  /** Raising a null threshold from `x` to `y` never lowers the score of any table exactly when `y` is
      still in range or `x` was at most the default: a threshold above 100 falls back to 20. */
  lemma RaisingNullThreshold(r: Rules, x: real, y: real)
    requires 0.0 <= x <= 100.0 && x <= y
    ensures y <= 100.0 || x <= 20.0 <==>
            forall p :: Report(p, Some(r.(nullPercentage := Some(x)))).score
                        <= Report(p, Some(r.(nullPercentage := Some(y)))).score
  {
    var rx, ry := Some(r.(nullPercentage := Some(x))), Some(r.(nullPercentage := Some(y)));
    if y <= 100.0 || x <= 20.0 {
      forall p ensures Report(p, rx).score <= Report(p, ry).score {
        LaxerNeverLowersScore(p, rx, ry);
      }
    } else {
      var p := FallsBack(x);
      var c := p.columns[0];
      assert p.columns == [] + [c] && c.name == "c" && !LikelyKey(c.name);
      assert !Complete(c, Resolve(ry)) && Complete(c, Resolve(rx));
      OneColumn(p, Resolve(rx));
      OneColumn(p, Resolve(ry));
      assert Report(p, rx).score > Report(p, ry).score;
    }
  }

  lemma OneColumn(p: TableProfile, s: Settings)
    requires |p.columns| == 1 && p.duplicateRows == 0 && p.columns[0].dataType == ""
    requires p.columns[0].futureDateCount == 0 && !LikelyKey(p.columns[0].name)
    ensures Penalty(p, s) == If(!Complete(p.columns[0], s), 10)
  {
    assert LowerOf("") == "";
    assert !TypeIn("", TEXT) by {
      forall k | 0 <= k < |TEXT| ensures !Contains("", TEXT[k]) {}
    }
    var c := p.columns[0];
    assert TextPenalty(c, s) == 0 && ValuePenalty(c) == 0 && KeyPenalty(c, s) == If(!Complete(c, s), 10);
    assert p.columns[..0] == [];
    assert AllPenalties(p.columns, s) == AllPenalties(p.columns[..0], s) + ColumnPenalty(c, s);
  }

  /** A table of one column whose share of nulls lies above 20 but not above `x`. */
  function FallsBack(x: real): (p: TableProfile)
    requires 20.0 < x
    ensures |p.columns| == 1 && p.duplicateRows == 0
    ensures p.columns[0].name == "c" && p.columns[0].dataType == "" && p.columns[0].futureDateCount == 0
    ensures 20.0 < Percentage(p.columns[0].nullCount, p.columns[0].totalRows) <= x
  {
    var k := (1.0 / (x - 20.0)).Floor + 1;
    JustAbove(k, x);
    var c := BLANK.(name := "c", totalRows := 100 * k, nullCount := 20 * k + 1);
    TableProfile("", "", [c], 0, 0.0, QualityReport(0.0, []), None, 0)
  }

  lemma JustAbove(k: int, x: real)
    requires 20.0 < x && k == (1.0 / (x - 20.0)).Floor + 1
    ensures 20.0 < Percentage(20 * k + 1, 100 * k) <= x
  {
    var d := x - 20.0;
    var n := k as real;
    assert 1.0 / d * d == 1.0;
    assert n > 1.0 / d > 0.0;
    Scale(1.0 / d, n, d);
    Ratio(n, x);
  }

  lemma Scale(a: real, b: real, d: real)
    requires a <= b && d > 0.0
    ensures a * d <= b * d
  {
  }

  lemma Cancel(a: real, d: real)
    requires d > 0.0
    ensures a * d >= 0.0 ==> a >= 0.0
    ensures a * d > 0.0 ==> a > 0.0
  {
  }

  lemma Ratio(n: real, x: real)
    requires n > 0.0 && n * (x - 20.0) >= 1.0
    ensures 20.0 < (20.0 * n + 1.0) * 100.0 / (100.0 * n) <= x
  {
    var p := (20.0 * n + 1.0) * 100.0 / (100.0 * n);
    assert p * (100.0 * n) == (20.0 * n + 1.0) * 100.0;
    assert (p - 20.0) * n == 1.0;
    assert (x - p) * n == n * (x - 20.0) - 1.0;
    Cancel(p - 20.0, n);
    Cancel(x - p, n);
  }
}
