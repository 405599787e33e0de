/** internal/store/store.go: the two metadata tables, changed in place. How a statement ends is up to
    the database; the caller sees an error unless the answer is Ok. */
module Stores {
  import opened Domain
  import opened Tables

  /** The keys of `times` with the smallest values, `limit` of them or all, smallest first. */
  ghost predicate Smallest(times: map<nat, Time>, limit: nat, ids: seq<nat>) {
    && NoDup(ids)
    && (forall i | 0 <= i < |ids| :: ids[i] in times)
    && |ids| == Min(limit, |times|)
    && (forall i, j | 0 <= i < j < |ids| :: times[ids[i]] <= times[ids[j]])
    && (forall i, k | 0 <= i < |ids| && k in times && k !in ids :: times[ids[i]] <= times[k])
  }

  method Earliest(times: map<nat, Time>) returns (k: nat)
    requires times != map[]
    ensures k in times && forall j | j in times :: times[k] <= times[j]
  {
    var todo := times.Keys;
    assert exists j :: j in todo by { assert times.Keys != {}; }
    k :| k in todo;
    todo := todo - {k};
    while todo != {}
      invariant todo <= times.Keys && k in times
      invariant forall j | j in times && j !in todo :: times[k] <= times[j]
      decreases |todo|
    {
      var j :| j in todo;
      if times[j] < times[k] { k := j; }
      todo := todo - {j};
    }
  }

  /** ORDER BY the given times LIMIT limit. */
  method Select(times: map<nat, Time>, limit: nat) returns (ids: seq<nat>)
    ensures Smallest(times, limit, ids)
  {
    ids := [];
    var rest := times;
    while |ids| < limit && rest != map[]
      invariant NoDup(ids) && |ids| <= limit && |ids| + |rest| == |times|
      invariant forall i | 0 <= i < |ids| :: ids[i] in times && ids[i] !in rest
      invariant forall k | k in times :: k in ids || (k in rest && rest[k] == times[k])
      invariant forall k | k in rest :: k in times
      invariant forall i, j | 0 <= i < j < |ids| :: times[ids[i]] <= times[ids[j]]
      invariant forall i, k | 0 <= i < |ids| && k in rest :: times[ids[i]] <= times[k]
      decreases |rest|
    {
      var k := Earliest(rest);
      var fewer := rest - {k};
      assert fewer.Keys == rest.Keys - {k} && |fewer.Keys| == |rest.Keys| - 1;
      assert |fewer| == |fewer.Keys| && |rest| == |rest.Keys|;
      rest := fewer;
      ids := ids + [k];
    }
  }

  /** The rows an UPDATE affected. */
  function Changed(before: Jobs, after: Jobs): set<Id> {
    set id | id in before && id in after && after[id] != before[id]
  }

  class Store {
    var jobs: Jobs
    var profiles: seq<ProfileRow>
    var open: bool

    /** The database is healthy: it executes and acknowledges every statement on the open handle. */
    const healthy: bool

    constructor (h: bool)
      ensures jobs == map[] && profiles == [] && open && healthy == h
    {
      jobs, profiles, open, healthy := map[], [], true, h;
    }

    predicate Answers()
      reads this`open
    {
      healthy && open
    }

    /** The database's answer to a statement on the open handle; a closed handle refuses. */
    method Answer() returns (a: Answer)
      ensures Applied(a) ==> open
      ensures Answers() ==> a == Ok
    {
      a := Refused;
      if open {
        var b: bool := *;
        var c: bool := *;
        a := if b || healthy then Ok else if c then Lost else Refused;
      }
    }

    /** INSERT INTO jobs; the primary key and the partial unique index refuse duplicates. */
    method CreateJob(id: Id, j: Job) returns (a: Answer)
      modifies this`jobs
      ensures Applied(a) ==> open && id !in old(jobs) && !KeyTaken(old(jobs), j.key)
      ensures Answers() && id !in old(jobs) && !KeyTaken(old(jobs), j.key) ==> a == Ok
      ensures jobs == if Applied(a) then old(jobs)[id := Job(j.status, "", j.request, j.key, j.created, None, None)]
                      else old(jobs)
    {
      a := Answer();
      var taken := exists i | i in jobs :: j.key != "" && jobs[i].key == j.key;
      if id in jobs || taken {
        return Refused;
      }
      if a != Refused {
        jobs := jobs[id := Job(j.status, "", j.request, j.key, j.created, None, None)];
      }
    }

    method UpdateJob(id: Id, j: Job) returns (a: Answer)
      modifies this`jobs
      ensures Applied(a) ==> open
      ensures Answers() ==> a == Ok
      ensures jobs == if Applied(a) then Written(old(jobs), id, j) else old(jobs)
      ensures Applied(a) && id in old(jobs) ==>
                var r := old(jobs)[id];
                jobs == old(jobs)[id := Job(j.status, j.error, r.request, r.key, r.created, j.started, j.finished)]
    {
      a := Answer();
      if a != Refused && id in jobs {
        var r := jobs[id];
        jobs := jobs[id := Job(j.status, j.error, r.request, r.key, r.created, j.started, j.finished)];
      }
    }

    /** The recovery statement; `n` is the number of rows it changed. */
    method RecoverStaleRunningJobs(now: Time, staleAfter: int) returns (n: nat, a: Answer)
      modifies this`jobs
      ensures Applied(a) ==> open
      ensures Answers() ==> a == Ok
      ensures var after := if staleAfter <= 0 then 1800 else staleAfter;
              && jobs == (if Applied(a) then Recovered(old(jobs), now, after) else old(jobs))
              && (Applied(a) ==> StaleRequeued(old(jobs), jobs, now, after))
              && (a == Ok ==> n == |Changed(old(jobs), jobs)|)
    {
      var after := staleAfter;
      if after <= 0 { after := 1800; }
      a := Answer();
      n := 0;
      if a != Refused {
        var before := jobs;
        jobs := Recovered(jobs, now, after);
        n := |Changed(before, jobs)|;
      }
    }

    method ListQueuedJobs(limit: int) returns (ids: seq<Id>, a: Answer)
      ensures a != Lost && (a == Ok ==> open) && (Answers() ==> a == Ok)
      ensures a == Ok ==> OldestQueued(jobs, if limit <= 0 || limit > 1000 then 1000 else limit, ids)
    {
      var n := limit;
      if n <= 0 || n > 1000 { n := 1000; }
      a := Answer();
      ids := [];
      if a != Ok { a := Refused; return; }
      var times := map id | id in jobs && jobs[id].status == Queued :: jobs[id].created;
      ids := Select(times, n);
      assert times.Keys == QueuedIds(jobs) && |times| == |times.Keys|;
    }

    method GetJob(id: Id) returns (r: Option<Job>)
      ensures r.Some? ==> open && id in jobs && jobs[id] == r.value
      ensures Answers() && id in jobs ==> r.Some?
    {
      var a := Answer();
      r := if a == Ok && id in jobs then Some(jobs[id]) else None;
    }

    method GetJobByIdempotencyKey(key: string) returns (r: Option<Id>)
      ensures r.Some? ==> open && key != "" && r.value in jobs && jobs[r.value].key == key
      ensures Answers() && KeyTaken(jobs, key) ==> r.Some?
    {
      var a := Answer();
      r := None;
      if a == Ok && key != "" && exists id | id in jobs :: jobs[id].key == key {
        var id :| id in jobs && jobs[id].key == key;
        r := Some(id);
      }
    }

    method SaveProfile(row: ProfileRow) returns (a: Answer)
      modifies this`profiles
      ensures Applied(a) ==> open && row.job in jobs
      ensures Answers() && row.job in jobs ==> a == Ok
      ensures profiles == if Applied(a) then old(profiles) + [row] else old(profiles)
    {
      a := Answer();
      if row.job !in jobs {
        return Refused;
      }
      if a != Refused {
        profiles := profiles + [row];
      }
    }

    method GetPreviousProfile(schema: string, table: string) returns (r: Option<nat>)
      ensures r.Some? ==> open && IsLatest(profiles, schema, table, r.value)
      ensures r.Some? ==>
                var p := profiles[r.value].profile;
                && p.schema == schema && p.table == table
                && forall i | 0 <= i < |profiles| && profiles[i].profile.schema == schema
                              && profiles[i].profile.table == table :: profiles[i].profile.created <= p.created
      ensures Answers() && r.None? ==>
                forall i | 0 <= i < |profiles| ::
                  profiles[i].profile.schema != schema || profiles[i].profile.table != table
    {
      var a := Answer();
      r := None;
      if a != Ok { return; }
      for k := 0 to |profiles|
        invariant r.None? ==> forall i | 0 <= i < k :: !Of(profiles[i], schema, table)
        invariant r.Some? ==> r.value < k && IsLatest(profiles[..k], schema, table, r.value)
      {
        if Of(profiles[k], schema, table)
           && (r.None? || profiles[r.value].profile.created <= profiles[k].profile.created) {
          r := Some(k);
        }
      }
      assert profiles[..|profiles|] == profiles;
    }

    method GetLatestProfile(id: Id) returns (r: Option<nat>)
      ensures r.Some? ==> open && r.value < |profiles| && profiles[r.value].job == id
      ensures r.Some? ==> forall i | 0 <= i < |profiles| && profiles[i].job == id ::
                            profiles[i].profile.created <= profiles[r.value].profile.created
      ensures Answers() && r.None? ==> forall i | 0 <= i < |profiles| :: profiles[i].job != id
    {
      var a := Answer();
      r := None;
      if a != Ok { return; }
      for k := 0 to |profiles|
        invariant r.None? ==> forall i | 0 <= i < k :: profiles[i].job != id
        invariant r.Some? ==> r.value < k && profiles[r.value].job == id
        invariant r.Some? ==> forall i | 0 <= i < k && profiles[i].job == id ::
                                profiles[i].profile.created <= profiles[r.value].profile.created
      {
        if profiles[k].job == id
           && (r.None? || profiles[r.value].profile.created <= profiles[k].profile.created) {
          r := Some(k);
        }
      }
    }

    /** Newest first: the indices of the rows of a table, by descending creation time. */
    method GetProfileHistory(schema: string, table: string, limit: int) returns (rows: seq<nat>, ok: bool)
      ensures (ok ==> open) && (Answers() ==> ok)
      ensures ok ==>
        Smallest(map k | 0 <= k < |profiles| && profiles[k].profile.schema == schema
                         && profiles[k].profile.table == table :: -profiles[k].profile.created,
                 if limit <= 0 || limit > 100 then 20 else limit, rows)
    {
      var n := limit;
      if n <= 0 || n > 100 { n := 20; }
      var a := Answer();
      ok := a == Ok;
      rows := [];
      if ok {
        var times := map k | 0 <= k < |profiles| && profiles[k].profile.schema == schema
                             && profiles[k].profile.table == table :: -profiles[k].profile.created;
        rows := Select(times, n);
      }
    }
  }
}
