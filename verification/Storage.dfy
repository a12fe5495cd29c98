/** The jobs table: what each statement of the Postgres layer does to the rows, the two sweep
    queries, and the storage object that runs them in place. */
module Storage {
  import opened Jobs
  import opened Calls
  import opened Selection

  type Table = map<JobId, Row>

  function NewRow(queue: string, jobType: string, maxRetries: Option<int>, runAt: Option<int>, now: int): Row {
    Row(queue, jobType, if runAt.Some? then Scheduled else Pending,
        if maxRetries.Some? then maxRetries.value else 3, 0, runAt, None, None, now)
  }

  // UPDATE with COALESCE: started_at and completed_at are only ever set, never cleared.
  function UpdateStatus(jobs: Table, id: JobId, status: Status, now: int): Table {
    if id !in jobs then jobs else
      var r := jobs[id];
      jobs[id := r.(status := status,
                    startedAt := if status == Running then Some(now) else r.startedAt,
                    completedAt := if status == Completed then Some(now) else r.completedAt)]
  }

  function UpdateError(jobs: Table, id: JobId, status: Status, retryCount: int): Table {
    if id !in jobs then jobs else jobs[id := jobs[id].(status := status, retryCount := retryCount)]
  }

  function DeleteDead(jobs: Table, id: JobId): Table {
    if id in jobs && jobs[id].status == Dead then jobs - {id} else jobs
  }

  // ---------- what these do to the rows ----------

  // No row comes or goes, and only this one may differ.
  ghost predicate OnlyRow(jobs: Table, jobs': Table, id: JobId) {
    jobs'.Keys == jobs.Keys && forall x :: x in jobs && x != id ==> jobs'[x] == jobs[x]
  }

  /** The status is the one given; started_at is now exactly for running, completed_at now exactly for
      completed; nothing else changes. A missing row stays missing. */
  ghost predicate StatusSet(jobs: Table, jobs': Table, id: JobId, status: Status, now: int) {
    && OnlyRow(jobs, jobs', id)
    && (id in jobs ==>
          var r, r' := jobs[id], jobs'[id];
          && r'.status == status
          && (if status == Running then r'.startedAt == Some(now) else r'.startedAt == r.startedAt)
          && (if status == Completed then r'.completedAt == Some(now) else r'.completedAt == r.completedAt)
          && r'.queue == r.queue && r'.jobType == r.jobType && r'.maxRetries == r.maxRetries
          && r'.retryCount == r.retryCount && r'.runAt == r.runAt && r'.createdAt == r.createdAt)
  }

  // Status and retry count are the ones given; nothing else changes.
  ghost predicate ErrorSet(jobs: Table, jobs': Table, id: JobId, status: Status, retryCount: int) {
    && OnlyRow(jobs, jobs', id)
    && (id in jobs ==>
          var r, r' := jobs[id], jobs'[id];
          && r'.status == status && r'.retryCount == retryCount
          && r'.queue == r.queue && r'.jobType == r.jobType && r'.maxRetries == r.maxRetries
          && r'.runAt == r.runAt && r'.startedAt == r.startedAt && r'.completedAt == r.completedAt
          && r'.createdAt == r.createdAt)
  }

  lemma UpdatesMean(jobs: Table, id: JobId, status: Status, now: int, retryCount: int)
    ensures StatusSet(jobs, UpdateStatus(jobs, id, status, now), id, status, now)
    ensures ErrorSet(jobs, UpdateError(jobs, id, status, retryCount), id, status, retryCount)
  {
  }

  // WHERE status = 'pending' AND run_at IS NULL AND created_at < before, keyed by created_at.
  function Unqueued(jobs: Table, before: int): map<JobId, int> {
    map id | id in jobs && jobs[id].status == Pending && jobs[id].runAt.None? && jobs[id].createdAt < before
      :: jobs[id].createdAt
  }

  // WHERE status = 'running' AND started_at < before, keyed by started_at (NULL never compares).
  function Stale(jobs: Table, before: int): map<JobId, int> {
    map id | id in jobs && jobs[id].status == Running && jobs[id].startedAt.Some? && jobs[id].startedAt.value < before
      :: jobs[id].startedAt.value
  }

  const SWEEP_LIMIT: nat := 100

  // ---------- what the sweep queries answer ----------

  // Pending, without a run time, created before the cut-off.
  predicate LeftBehind(row: Row, before: int) { row.status == Pending && row.runAt.None? && row.createdAt < before }

  // Running, and since before the cut-off.
  predicate Overrun(row: Row, before: int) {
    row.status == Running && row.startedAt.Some? && row.startedAt.value < before
  }

  /** Only rows left behind, none twice, oldest first; all of them if there are fewer than 100, and
      otherwise 100 of which none is younger than one left out. */
  ghost predicate PicksLeftBehind(sel: seq<JobId>, jobs: Table, before: int) {
    && NoDuplicates(sel) && |sel| <= 100
    && (forall i :: 0 <= i < |sel| ==> sel[i] in jobs && LeftBehind(jobs[sel[i]], before))
    && (forall i, k :: 0 <= i < k < |sel| ==> jobs[sel[i]].createdAt <= jobs[sel[k]].createdAt)
    && (forall x :: x in jobs && LeftBehind(jobs[x], before) && |sel| < 100 ==> x in sel)
    && (forall x, i :: x in jobs && LeftBehind(jobs[x], before) && x !in sel && 0 <= i < |sel| ==>
          jobs[sel[i]].createdAt <= jobs[x].createdAt)
  }

  // The same for rows running too long, by when they started.
  ghost predicate PicksOverrun(sel: seq<JobId>, jobs: Table, before: int) {
    && NoDuplicates(sel) && |sel| <= 100
    && (forall i :: 0 <= i < |sel| ==> sel[i] in jobs && Overrun(jobs[sel[i]], before))
    && (forall i, k :: 0 <= i < k < |sel| ==> jobs[sel[i]].startedAt.value <= jobs[sel[k]].startedAt.value)
    && (forall x :: x in jobs && Overrun(jobs[x], before) && |sel| < 100 ==> x in sel)
    && (forall x, i :: x in jobs && Overrun(jobs[x], before) && x !in sel && 0 <= i < |sel| ==>
          jobs[sel[i]].startedAt.value <= jobs[x].startedAt.value)
  }

  // In the terms of the query: ORDER BY created_at LIMIT 100 over the rows left behind.
  lemma UnqueuedExact(sel: seq<JobId>, jobs: Table, before: int)
    ensures PicksLeftBehind(sel, jobs, before) <==> Selects(sel, Unqueued(jobs, before), SWEEP_LIMIT)
  {
    if Selects(sel, Unqueued(jobs, before), SWEEP_LIMIT) { UnqueuedMeans(sel, jobs, before); }
    if PicksLeftBehind(sel, jobs, before) { EnoughPicked(sel, Unqueued(jobs, before)); }
  }

  lemma StaleExact(sel: seq<JobId>, jobs: Table, before: int)
    ensures PicksOverrun(sel, jobs, before) <==> Selects(sel, Stale(jobs, before), SWEEP_LIMIT)
  {
    if Selects(sel, Stale(jobs, before), SWEEP_LIMIT) { StaleMeans(sel, jobs, before); }
    if PicksOverrun(sel, jobs, before) { EnoughPicked(sel, Stale(jobs, before)); }
  }

  // Distinct keys, all of them or 100.
  lemma EnoughPicked(sel: seq<JobId>, keys: map<JobId, int>)
    requires NoDuplicates(sel) && |sel| <= 100 && (forall i :: 0 <= i < |sel| ==> sel[i] in keys)
    requires |sel| < 100 ==> forall x :: x in keys ==> x in sel
    ensures |sel| == if |keys| < SWEEP_LIMIT then |keys| else SWEEP_LIMIT
  {
    SetOfDistinct(sel);
    assert |keys| == |keys.Keys| && ToSet(sel) <= keys.Keys;
    assert |keys.Keys| == |ToSet(sel)| + |keys.Keys - ToSet(sel)|;
    if |sel| < 100 { assert keys.Keys <= ToSet(sel); }
  }

  lemma UnqueuedMeans(sel: seq<JobId>, jobs: Table, before: int)
    requires Selects(sel, Unqueued(jobs, before), SWEEP_LIMIT)
    ensures PicksLeftBehind(sel, jobs, before)
  {
    var keys := Unqueued(jobs, before);
    forall x | x in jobs && LeftBehind(jobs[x], before) && |sel| < 100 ensures x in sel {
      ShortAnswer(sel, keys, SWEEP_LIMIT, x);
    }
    forall i, k | 0 <= i < k < |sel| ensures jobs[sel[i]].createdAt <= jobs[sel[k]].createdAt {
      assert keys[sel[i]] <= keys[sel[k]];
    }
    forall x, i | x in jobs && LeftBehind(jobs[x], before) && x !in sel && 0 <= i < |sel|
      ensures jobs[sel[i]].createdAt <= jobs[x].createdAt
    {
      assert keys[sel[i]] <= keys[x];
    }
  }

  lemma StaleMeans(sel: seq<JobId>, jobs: Table, before: int)
    requires Selects(sel, Stale(jobs, before), SWEEP_LIMIT)
    ensures PicksOverrun(sel, jobs, before)
  {
    var keys := Stale(jobs, before);
    forall x | x in jobs && Overrun(jobs[x], before) && |sel| < 100 ensures x in sel {
      ShortAnswer(sel, keys, SWEEP_LIMIT, x);
    }
    forall i, k | 0 <= i < k < |sel| ensures jobs[sel[i]].startedAt.value <= jobs[sel[k]].startedAt.value {
      assert keys[sel[i]] <= keys[sel[k]];
    }
    forall x, i | x in jobs && Overrun(jobs[x], before) && x !in sel && 0 <= i < |sel|
      ensures jobs[sel[i]].startedAt.value <= jobs[x].startedAt.value
    {
      assert keys[sel[i]] <= keys[x];
    }
  }

  class PostgresStorage {
    var jobs: Table
    var used: set<JobId> // every id the database has generated

    constructor ()
      ensures jobs == map[] && used == {}
    {
      jobs, used := map[], {};
    }

    // `id` is the database's gen_random_uuid(), never generated before.
    method CreateJob(id: JobId, row: Row, io: Io) returns (err: bool)
      requires id !in used
      modifies this
      ensures err == !io.Done?
      ensures jobs == if io.Effective() then old(jobs)[id := row] else old(jobs)
      ensures used == if io.Effective() then old(used) + {id} else old(used)
    {
      if io.Effective() { jobs, used := jobs[id := row], used + {id}; }
      err := !io.Done?;
    }

    // None does not tell a missing row from a failed query; a row returned is the one stored now.
    method GetJob(id: JobId, io: Io) returns (row: Option<Row>)
      ensures row.None? <==> !io.Done? || id !in jobs
      ensures row.Some? ==> id in jobs && row.value == jobs[id]
    {
      row := if io.Done? && id in jobs then Some(jobs[id]) else None;
    }

    method UpdateJobStatus(id: JobId, status: Status, now: int, io: Io) returns (err: bool)
      modifies this`jobs
      ensures err == !io.Done?
      ensures io.Effective() ==> StatusSet(old(jobs), jobs, id, status, now)
      ensures jobs == if io.Effective() then UpdateStatus(old(jobs), id, status, now) else old(jobs)
    {
      UpdatesMean(jobs, id, status, now, 0);
      err := !io.Done?;
      if io.Refused? || id !in jobs { return; }
      var r := jobs[id].(status := status);
      match status {
        case Running => r := r.(startedAt := Some(now));
        case Completed => r := r.(completedAt := Some(now));
        case _ =>
      }
      jobs := jobs[id := r];
    }

    method UpdateJobError(id: JobId, status: Status, retryCount: int, io: Io) returns (err: bool)
      modifies this`jobs
      ensures err == !io.Done?
      ensures io.Effective() ==> ErrorSet(old(jobs), jobs, id, status, retryCount)
      ensures jobs == if io.Effective() then UpdateError(old(jobs), id, status, retryCount) else old(jobs)
    {
      UpdatesMean(jobs, id, status, 0, retryCount);
      err := !io.Done?;
      if io.Effective() && id in jobs {
        jobs := jobs[id := jobs[id].(status := status, retryCount := retryCount)];
      }
    }

    method DeleteJob(id: JobId, io: Io) returns (err: bool)
      modifies this`jobs
      ensures jobs == if io.Effective() then DeleteDead(old(jobs), id) else old(jobs)
      ensures !err <==> io.Done? && old(id in jobs && jobs[id].status == Dead)
      ensures !err ==> id !in jobs
      ensures forall x :: x in old(jobs) && (x != id || old(jobs)[x].status != Dead) ==>
                x in jobs && jobs[x] == old(jobs)[x]
      ensures jobs.Keys <= old(jobs).Keys
    {
      var affected := io.Effective() && id in jobs && jobs[id].status == Dead;
      if affected { jobs := jobs - {id}; }
      err := !io.Done? || !affected;
    }

    method GetPendingUnqueued(now: int, olderThan: int, io: Io) returns (err: bool, sel: seq<JobId>)
      ensures err == !io.Done?
      ensures if err then sel == [] else PicksLeftBehind(sel, jobs, now - olderThan)
      ensures forall i :: 0 <= i < |sel| ==> sel[i] in jobs
    {
      err, sel := !io.Done?, [];
      if !err {
        sel := SelectOldest(Unqueued(jobs, now - olderThan), SWEEP_LIMIT);
        UnqueuedMeans(sel, jobs, now - olderThan);
      }
    }

    method GetStaleRunningJobs(now: int, timeout: int, io: Io) returns (err: bool, sel: seq<JobId>)
      ensures err == !io.Done?
      ensures if err then sel == [] else PicksOverrun(sel, jobs, now - 2 * timeout)
      ensures forall i :: 0 <= i < |sel| ==> sel[i] in jobs
    {
      err, sel := !io.Done?, [];
      if !err {
        sel := SelectOldest(Stale(jobs, now - 2 * timeout), SWEEP_LIMIT);
        StaleMeans(sel, jobs, now - 2 * timeout);
      }
    }
  }
}
