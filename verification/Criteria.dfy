/** What a quality report has to contain, said of the column counts and in figures: the reference that
    quality.Evaluate (internal/quality/quality.go) is held against. */
module Criteria {
  import opened Domain

  // ----- names and types -----

  /** `c` is the small letter or other character `l`, or its capital. */
  predicate Reads(c: char, l: char) {
    c == l || ('A' <= c <= 'Z' && c as int + 32 == l as int)
  }

  predicate ReadsAt(t: string, word: string, i: int) {
    0 <= i <= |t| - |word| && forall j | 0 <= j < |word| :: Reads(t[i + j], word[j])
  }

  /** The word occurs in the text, in capitals or small letters. */
  predicate Mentions(t: string, word: string) {
    exists i | 0 <= i <= |t| :: ReadsAt(t, word, i)
  }

  predicate IsText(t: string) {
    Mentions(t, "char") || Mentions(t, "text") || Mentions(t, "string")
  }

  predicate IsDateTime(t: string) {
    Mentions(t, "date") || Mentions(t, "time") || Mentions(t, "timestamp")
  }

  predicate IsNumeric(t: string) {
    || Mentions(t, "int") || Mentions(t, "decimal") || Mentions(t, "numeric") || Mentions(t, "float")
    || Mentions(t, "double") || Mentions(t, "real") || Mentions(t, "money")
  }

  /** The whole name is "id", or it has at least four characters and ends in "_id" or "id". */
  predicate IsKey(name: string) {
    || (|name| == 2 && ReadsAt(name, "id", 0))
    || (|name| > 3 && (ReadsAt(name, "_id", |name| - 3) || ReadsAt(name, "id", |name| - 2)))
  }

  // ----- figures -----

  /** In percent; none of nothing. */
  function Share(n: int, total: int): real {
    if total <= 0 then 0.0 else n as real * 100.0 / total as real
  }

  /** A threshold outside 0 to 100 does not count. */
  function Limit(given: Option<real>, usual: real): real {
    if given.Some? && given.value >= 0.0 && given.value <= 100.0 then given.value else usual
  }

  function Asked(rules: Option<Rules>): Rules {
    if rules.Some? then rules.value else Rules(None, None, None, None, None)
  }

  function Verdict(passed: bool, otherwise: Severity): Severity {
    if passed then Pass else otherwise
  }

  // ----- the checks -----

  /** The column must have this check: each kind with its condition, verdict, severity, threshold and value. */
  predicate ColumnHas(c: ColumnProfile, r: Rules, x: Check) {
    x.column == c.name &&
    match x.kind
    case Completeness =>
      && x.threshold == Limit(r.nullPercentage, 20.0) && x.actual == Share(c.nullCount, c.totalRows)
      && (x.passed <==> x.actual <= x.threshold) && x.severity == Verdict(x.passed, Fail)
    case Uniqueness =>
      && IsKey(c.name) && x.threshold == 100.0 && x.actual == c.distinctPercentage
      && (x.passed <==> c.totalRows > 0 && c.distinctCount == c.totalRows) && x.severity == Verdict(x.passed, Fail)
    case Constant =>
      && c.totalRows > 0 && c.distinctCount <= 1
      && !x.passed && x.severity == Warn && x.threshold == 1.0 && x.actual == c.distinctCount as real
    case HighCardinality =>
      && c.totalRows > 0 && !IsKey(c.name) && c.distinctPercentage >= x.threshold
      && x.passed && x.severity == Info
      && x.threshold == Limit(r.cardinalityPercentage, 95.0) && x.actual == c.distinctPercentage
    case DominantValue =>
      && |c.topPercentages| > 0 && c.topPercentages[0] >= x.threshold
      && x.passed && x.severity == Info
      && x.threshold == Limit(r.dominantPercentage, 80.0) && x.actual == c.topPercentages[0]
    case Empty =>
      && IsText(c.dataType) && (x.passed <==> r.allowEmpty == Some(true) || c.emptyCount == 0)
      && x.severity == Verdict(c.emptyCount == 0, Warn)
      && x.threshold == 0.0 && x.actual == Share(c.emptyCount, c.totalRows)
    case Whitespace =>
      && IsText(c.dataType) && (x.passed <==> r.allowWhitespace == Some(true) || c.whitespaceCount == 0)
      && x.severity == Verdict(c.whitespaceCount == 0, Warn)
      && x.threshold == 0.0 && x.actual == Share(c.whitespaceCount, c.totalRows)
    case Outliers =>
      && IsNumeric(c.dataType) && c.outlierCount > 0
      && x.passed && x.severity == Warn && x.threshold == 0.0 && x.actual == c.outlierPercentage
    case FutureDates =>
      && IsDateTime(c.dataType) && c.futureDateCount > 0
      && !x.passed && x.severity == Warn && x.threshold == 0.0 && x.actual == c.futureDatePercentage
    case ZeroValues =>
      && IsNumeric(c.dataType) && c.zeroCount > 0
      && x.passed && x.severity == Info && x.threshold == 0.0
      && x.actual == Share(c.zeroCount, c.totalRows - c.nullCount)
    case DuplicateRows => false
  }

  /** The order of the checks of one column. */
  function Rank(k: CheckKind): nat {
    match k
    case Completeness => 0
    case Uniqueness => 1
    case Constant => 2
    case HighCardinality => 3
    case DominantValue => 4
    case Empty => 5
    case Whitespace => 6
    case Outliers => 7
    case FutureDates => 8
    case ZeroValues => 9
    case DuplicateRows => 10
  }

  /** The checks of a column: all it must have, in order, none twice. */
  ghost predicate BlockOf(c: ColumnProfile, r: Rules, block: seq<Check>) {
    && (forall x :: x in block <==> ColumnHas(c, r, x))
    && (forall i, j | 0 <= i < j < |block| :: Rank(block[i].kind) < Rank(block[j].kind))
  }

  function Joined(blocks: seq<seq<Check>>): seq<Check> {
    if blocks == [] then [] else Joined(blocks[..|blocks| - 1]) + blocks[|blocks| - 1]
  }

  // ----- the score -----

  /** What a column costs. */
  function Cost(c: ColumnProfile, r: Rules): nat {
    (if Share(c.nullCount, c.totalRows) > Limit(r.nullPercentage, 20.0) then 10 else 0)
    + (if IsKey(c.name) && !(c.totalRows > 0 && c.distinctCount == c.totalRows) then 5 else 0)
    + (if IsText(c.dataType) && c.emptyCount > 0 && r.allowEmpty != Some(true) then 3 else 0)
    + (if IsText(c.dataType) && c.whitespaceCount > 0 && r.allowWhitespace != Some(true) then 2 else 0)
    + (if IsDateTime(c.dataType) && c.futureDateCount > 0 then 3 else 0)
  }

  function Costs(cols: seq<ColumnProfile>, r: Rules): nat {
    if cols == [] then 0 else Costs(cols[..|cols| - 1], r) + Cost(cols[|cols| - 1], r)
  }

  // ----- the report -----

  /** The blocks of the columns, in the order of the columns, then the check for duplicate rows if there are
      any; and 100 points less what it all costs, but not below 0. */
  ghost predicate Fulfils(p: TableProfile, rules: Option<Rules>, r: QualityReport) {
    && ListsChecks(p, Asked(rules), r.checks)
    && (var left := 100 - Costs(p.columns, Asked(rules)) - (if p.duplicateRows > 0 then 5 else 0);
        r.score == (if left < 0 then 0 else left) as real)
  }

  ghost predicate ListsChecks(p: TableProfile, r: Rules, checks: seq<Check>) {
    exists blocks: seq<seq<Check>> ::
      && |blocks| == |p.columns|
      && (forall k | 0 <= k < |blocks| :: BlockOf(p.columns[k], r, blocks[k]))
      && checks == Joined(blocks) + (if p.duplicateRows > 0
                                     then [Check(DuplicateRows, "", false, Warn, 0.0, p.duplicatePercentage)] else [])
  }
}
