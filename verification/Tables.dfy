/** The two metadata tables and the statements internal/store/store.go runs on them, as functions
    on values. Store.dfy is the class whose methods run them in place. */
module Tables {
  import opened Domain

  type Jobs = map<Id, Job>

  /** How a statement can end. `Lost` is a statement that was executed although its caller is told
      that it failed, as after a connection drops between commit and acknowledgement. */
  datatype Answer = Ok | Refused | Lost

  predicate Applied(a: Answer) {
    a != Refused
  }

  /** The partial unique index on idempotency_key: NULL keys, here "", are not indexed. */
  ghost predicate KeyTaken(jobs: Jobs, key: string) {
    key != "" && exists id :: id in jobs && jobs[id].key == key
  }

  ghost predicate KeysUnique(jobs: Jobs) {
    forall i, j | i in jobs && j in jobs && jobs[i].key == jobs[j].key && jobs[i].key != "" :: i == j
  }

  function NewJob(request: Request, key: string, created: Time): Job {
    Job(Queued, "", request, key, created, None, None)
  }

  /** UPDATE jobs SET status, error, started_at, finished_at WHERE id. */
  function Written(jobs: Jobs, id: Id, j: Job): Jobs {
    if id in jobs then
      jobs[id := jobs[id].(status := j.status, error := j.error, started := j.started, finished := j.finished)]
    else jobs
  }

  predicate Stale(j: Job, now: Time, staleAfter: int) {
    j.status == Running && j.started.Some? && j.started.value < now - staleAfter
  }

  function Requeued(j: Job): Job {
    j.(status := Queued, error := "recovered after profiler restart", started := None, finished := None)
  }

  /** The recovery UPDATE: every stale running row goes back to queued. */
  function Recovered(jobs: Jobs, now: Time, staleAfter: int): Jobs {
    map id | id in jobs :: if Stale(jobs[id], now, staleAfter) then Requeued(jobs[id]) else jobs[id]
  }

  /** The rows before and after the recovery, column by column. */
  predicate StaleRequeued(before: Jobs, after: Jobs, now: Time, staleAfter: int) {
    && after.Keys == before.Keys
    && (forall id | id in before ::
          var j := before[id];
          after[id] == if j.status == Running && j.started.Some? && j.started.value < now - staleAfter
                       then Job(Queued, "recovered after profiler restart", j.request, j.key, j.created, None, None)
                       else j)
  }

  predicate IsQueued(jobs: Jobs, id: Id) {
    id in jobs && jobs[id].status == Queued
  }

  function QueuedIds(jobs: Jobs): set<Id> {
    set id | id in jobs && jobs[id].status == Queued
  }

  function RunningIds(jobs: Jobs): set<Id> {
    set id | id in jobs && jobs[id].status == Running
  }

  /** What `WHERE status='queued' ORDER BY created_at LIMIT limit` may return: `limit` of the oldest
      queued rows, or all of them, oldest first. Rows created at the same instant come in any order. */
  ghost predicate OldestQueued(jobs: Jobs, limit: nat, ids: seq<Id>) {
    && NoDup(ids)
    && (forall i | 0 <= i < |ids| :: IsQueued(jobs, ids[i]))
    && |ids| == Min(limit, |QueuedIds(jobs)|)
    && (forall i, j | 0 <= i < j < |ids| :: jobs[ids[i]].created <= jobs[ids[j]].created)
    && (forall id, other | id in ids && IsQueued(jobs, other) && other !in ids ::
          jobs[id].created <= jobs[other].created)
  }

  predicate Of(r: ProfileRow, schema: string, table: string) {
    r.profile.schema == schema && r.profile.table == table
  }

  /** Row k is an answer to `WHERE schema_name, table_name ORDER BY created_at DESC LIMIT 1`. */
  predicate IsLatest(profiles: seq<ProfileRow>, schema: string, table: string, k: int) {
    && 0 <= k < |profiles| && Of(profiles[k], schema, table)
    && (forall i | 0 <= i < |profiles| && Of(profiles[i], schema, table) ::
          profiles[i].profile.created <= profiles[k].profile.created)
  }
}
