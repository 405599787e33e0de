/** The records of the profiler (internal/domain/models.go), reduced to the fields that
    the job protocol, the quality score and the drift report read or write. */
module Domain {

  datatype Option<+T> = None | Some(value: T)

  type Id = nat
  type Time = int

  datatype Status = Queued | Running | Completed | Failed

  datatype Rules = Rules(
    nullPercentage: Option<real>,
    dominantPercentage: Option<real>,
    cardinalityPercentage: Option<real>,
    allowEmpty: Option<bool>,
    allowWhitespace: Option<bool>)

  datatype Request = Request(schema: string, table: string, rules: Option<Rules>)

  /** A row of the jobs table. `key == ""` stands for a NULL idempotency key. */
  datatype Job = Job(
    status: Status,
    error: string,
    request: Request,
    key: string,
    created: Time,
    started: Option<Time>,
    finished: Option<Time>)

  datatype ColumnMeta = ColumnMeta(name: string, dataType: string, nullable: bool)

  datatype ColumnProfile = ColumnProfile(
    name: string,
    dataType: string,
    nullable: bool,
    totalRows: int,
    nullCount: int,
    nullPercentage: real,
    distinctCount: int,
    distinctPercentage: real,
    emptyCount: int,
    whitespaceCount: int,
    zeroCount: int,
    futureDateCount: int,
    futureDatePercentage: real,
    outlierCount: int,
    outlierPercentage: real,
    topPercentages: seq<real>,
    pii: string,
    piiConfidence: real)

  /** Go's zero value, which is what an entry of the output array holds until it is written. */
  const BLANK: ColumnProfile :=
    ColumnProfile("", "", false, 0, 0, 0.0, 0, 0.0, 0, 0, 0, 0, 0.0, 0, 0.0, [], "", 0.0)

  datatype CheckKind =
    | Completeness | Uniqueness | Constant | HighCardinality | DominantValue
    | Empty | Whitespace | Outliers | FutureDates | ZeroValues | DuplicateRows

  datatype Severity = Pass | Info | Warn | Fail

  /** `column` is "" for the check that concerns the whole table. */
  datatype Check = Check(
    kind: CheckKind, column: string, passed: bool, severity: Severity, threshold: real, actual: real)

  datatype QualityReport = QualityReport(score: real, checks: seq<Check>)

  /** One entry of the drift report; drift.Compare formats each as a string. */
  datatype Change =
    | ScoreChanged(oldScore: real, newScore: real)
    | Removed(column: string)
    | Added(column: string)
    | TypeChanged(column: string, oldType: string, newType: string)
    | NullabilityChanged(column: string)
    | DistinctChanged(column: string, oldCount: int, newCount: int)
    | NullPercentageChanged(column: string, oldPct: real, newPct: real)
    | DistinctPercentageChanged(column: string, oldPct: real, newPct: real)
    | OutlierPercentageChanged(column: string, oldPct: real, newPct: real)
    | PiiChanged(column: string, oldLabel: string, newLabel: string)
    | DuplicatesChanged(oldCount: int, newCount: int)

  datatype DriftReport = DriftReport(changed: bool, scoreDelta: real, changes: seq<Change>)

  datatype TableProfile = TableProfile(
    schema: string,
    table: string,
    columns: seq<ColumnProfile>,
    duplicateRows: int,
    duplicatePercentage: real,
    quality: QualityReport,
    drift: Option<DriftReport>,
    created: Time)

  /** What profileColumn returns: a column profile, possibly partial, and an error. */
  datatype ColumnAnswer = ColumnAnswer(profile: ColumnProfile, error: Option<string>)

  /** What the source database has to say about one table: the discovered columns, in order,
      and the answer to the profiling queries of each. */
  datatype Source = Source(columns: seq<ColumnMeta>, answers: seq<ColumnAnswer>) {
    predicate Wf() {
      |answers| == |columns|
    }
  }

  /** A row of the profiles table. `source` is a history field: what the profile was measured from. */
  datatype ProfileRow = ProfileRow(job: Id, profile: TableProfile, source: Source)

  predicate NoDup<T(==)>(s: seq<T>) {
    forall i, j | 0 <= i < j < |s| :: s[i] != s[j]
  }

  function Min(a: int, b: int): int {
    if a <= b then a else b
  }
}
