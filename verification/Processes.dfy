/** The code that drives the protocol, run by one instance: the worker, the scheduler's jobs and the
    API handlers. Each method is proved against a function of what it sees and of how its calls
    end; ProcessRuns shows that each of these functions is a run of the step machine. */
module Processes {
  import opened Jobs
  import opened Calls
  import opened Selection
  import opened Storage
  import opened Redis
  import opened StaleSweep
  import opened Protocol

  // What an instance sees of the two stores, and the calls that change it.
  datatype View = View(jobs: Table, used: set<JobId>, lists: Lists, sched: Scores) {
    function SetStatus(id: JobId, status: Status, now: int, io: Io): View {
      if io.Effective() then this.(jobs := UpdateStatus(jobs, id, status, now)) else this
    }

    function SetError(id: JobId, status: Status, retryCount: int, io: Io): View {
      if io.Effective() then this.(jobs := UpdateError(jobs, id, status, retryCount)) else this
    }

    function PushId(q: string, id: JobId, io: Io): View {
      if io.Effective() then this.(lists := PushTo(lists, q, id)) else this
    }

    function Schedule(id: JobId, runAt: int, io: Io): View {
      if io.Effective() then this.(sched := sched[id := Unix(runAt)]) else this
    }
  }

  // How the calls of one job's processing end, how long its handler takes and what it returns.
  datatype JobFate = JobFate(load: Io, begin: Io, took: nat, failed: bool, verdict: Io, schedule: Io, platform: int)

  function AfterFailure(v: View, id: JobId, snap: Row, now: int, f: JobFate): View
    requires snap.retryCount >= 0
  {
    var n := snap.retryCount + 1;
    if n >= snap.maxRetries then v.SetError(id, Dead, n, f.verdict)
    else v.SetError(id, Retrying, n, f.verdict).Schedule(id, now + Backoff(n, f.platform), f.schedule)
  }

  function AfterJob(v: View, id: JobId, handlers: set<string>, now: int, f: JobFate): View
    requires id in v.jobs ==> v.jobs[id].retryCount >= 0
  {
    if !f.load.Done? || id !in v.jobs then v else AfterBegin(v, id, v.jobs[id], handlers, now, f)
  }

  function AfterBegin(v: View, id: JobId, snap: Row, handlers: set<string>, now: int, f: JobFate): View
    requires snap.retryCount >= 0
  {
    if snap.jobType !in handlers then v.SetError(id, Failed, snap.retryCount, f.begin) else
      var v1 := v.SetStatus(id, Running, now, f.begin);
      if !f.begin.Done? then v1
      else if f.failed then AfterFailure(v1, id, snap, now + f.took, f)
      else v1.SetStatus(id, Completed, now + f.took, f.verdict)
  }

  // One turn of Pool.worker: a pop and, if it brought an id, the whole job.
  function AfterWork(v: View, queues: seq<string>, handlers: set<string>, now: int, pop: Io, f: JobFate): View
    requires forall id :: id in v.jobs ==> v.jobs[id].retryCount >= 0
  {
    var q := FirstNonEmpty(v.lists, queues);
    if pop.Refused? || q.None? then v else
      var v1 := v.(lists := DropTail(v.lists, q.value));
      if pop.Done? then AfterJob(v1, Tail(v.lists, q.value), handlers, now, f) else v1
  }

  // How the calls for one due job end.
  datatype DueFate = DueFate(load: Io, push: Io, mark: Io)

  function AfterDue(v: View, id: JobId, now: int, f: DueFate): View {
    if !f.load.Done? || id !in v.jobs then v else
      var snap := v.jobs[id];
      var v1 := v.PushId(snap.queue, id, f.push);
      if f.push.Done? && snap.status == Retrying then v1.SetStatus(id, Pending, now, f.mark) else v1
  }

  function AfterDues(v: View, ids: seq<JobId>, now: int, fates: seq<DueFate>): View
    requires |ids| == |fates|
  {
    if ids == [] then v else
      var n := |ids| - 1;
      AfterDue(AfterDues(v, ids[..n], now, fates[..n]), ids[n], now, fates[n])
  }

  function AfterPushes(v: View, sweep: seq<(JobId, string)>, ios: seq<Io>): View
    requires |sweep| == |ios|
  {
    if sweep == [] then v else
      var n := |sweep| - 1;
      AfterPushes(v, sweep[..n], ios[..n]).PushId(sweep[n].1, sweep[n].0, ios[n])
  }

  function AfterReaps(v: View, stale: seq<(JobId, int)>, ios: seq<Io>): View
    requires |stale| == |ios|
  {
    if stale == [] then v else
      var n := |stale| - 1;
      AfterReaps(v, stale[..n], ios[..n]).SetError(stale[n].0, Failed, stale[n].1, ios[n])
  }

  // How the calls of one API request end; a request stops at its first error.
  datatype RequestFate = RequestFate(first: Io, second: Io, third: Io)

  function AfterCreate(v: View, id: JobId, row: Row, f: RequestFate): View {
    var v1 := if f.first.Effective() then v.(jobs := v.jobs[id := row], used := v.used + {id}) else v;
    if !f.first.Done? then v1
    else if row.runAt.Some? then v1.Schedule(id, row.runAt.value, f.second)
    else v1.PushId(row.queue, id, f.second)
  }

  function AfterRetry(v: View, id: JobId, f: RequestFate): View {
    if !f.first.Done? || id !in v.jobs || v.jobs[id].status != Dead then v else
      var v1 := v.SetError(id, Pending, 0, f.second);
      if f.second.Done? then v1.PushId(v.jobs[id].queue, id, f.third) else v1
  }

  function AfterCancel(v: View, id: JobId, now: int, f: RequestFate): View {
    if !f.first.Done? || id !in v.jobs || !CanTransitionTo(v.jobs[id].status, Cancelled) then v
    else v.SetStatus(id, Cancelled, now, f.second)
  }

  // ---------- what changed, said of rows, lists and set ----------

  // The stores apart from the rows are as they were.
  predicate SameRedis(v: View, v': View) { v'.lists == v.lists && v'.sched == v.sched }

  // The id is at the left end of queue q's list; everything else in Redis is as it was.
  predicate PushedLeft(v: View, v': View, q: string, id: JobId) {
    && q in v'.lists && v'.lists[q] == [id] + ListOf(v.lists, q)
    && v'.lists == v.lists[q := v'.lists[q]] && v'.sched == v.sched
  }

  // The id is in the set with the whole seconds of its run time; everything else is as it was.
  predicate PutInSet(v: View, v': View, id: JobId, runAt: int) {
    && id in v'.sched && v'.sched[id] == Unix(runAt)
    && v'.sched == v.sched[id := v'.sched[id]] && v'.lists == v.lists
  }

  // A row is as the create request asked for it at time `now`.
  predicate AsAsked(row: Row, queue: string, jobType: string, maxRetries: Option<int>, runAt: Option<int>, now: int) {
    && row.queue == queue && row.jobType == jobType && row.retryCount == 0
    && row.maxRetries == (match maxRetries case Some(n) => n case None => 3)
    && row.runAt == runAt && row.createdAt == now && row.startedAt == None && row.completedAt == None
    && (runAt.Some? ==> row.status == Scheduled) && (runAt.None? ==> row.status == Pending)
  }

  datatype Response = Created | Ok | BadRequest | NotFound | Conflict | ServerError

  class Instance {
    const store: PostgresStorage
    const queue: RedisQueue
    const conf: Config
    var clock: int

    constructor (store: PostgresStorage, queue: RedisQueue, conf: Config, now: int)
      requires queue.Valid()
      ensures this.store == store && this.queue == queue && this.conf == conf && clock == now
    {
      this.store, this.queue, this.conf, clock := store, queue, conf, now;
    }

    ghost function Seen(): View
      reads store, queue
    {
      View(store.jobs, store.used, queue.lists, queue.sched)
    }

    // The outcome of the next remote call.
    method Network() returns (io: Io) {
      io := *;
    }

    method HandleFailure(id: JobId, snap: Row, ghost f: JobFate) returns (ghost g: JobFate)
      requires queue.Valid() && snap.retryCount >= 0
      modifies store`jobs, queue
      ensures queue.Valid()
      ensures g == f.(verdict := g.verdict, schedule := g.schedule, platform := g.platform)
      ensures Seen() == AfterFailure(old(Seen()), id, snap, clock, g)
      ensures var n := snap.retryCount + 1;
              if g.verdict.Refused? then store.jobs == old(store.jobs)
              else ErrorSet(old(store.jobs), store.jobs, id, if n >= snap.maxRetries then Dead else Retrying, n)
    {
      var newRetryCount := snap.retryCount + 1;
      var io := Network();
      g := f.(verdict := io);
      if newRetryCount >= snap.maxRetries {
        var _ := store.UpdateJobError(id, Dead, newRetryCount, io);
        return;
      }
      var _ := store.UpdateJobError(id, Retrying, newRetryCount, io);
      var converted: int := *;
      io := Network();
      g := g.(schedule := io, platform := converted);
      var _ := queue.Schedule(id, clock + Backoff(newRetryCount, converted), io);
    }

    method ProcessJob(id: JobId) returns (ghost f: JobFate)
      requires queue.Valid() && (id in store.jobs ==> store.jobs[id].retryCount >= 0)
      modifies this, store`jobs, queue
      ensures queue.Valid()
      ensures Seen() == AfterJob(old(Seen()), id, conf.handlers, old(clock), f)
    {
      var io := Network();
      f := JobFate(io, Done, 0, false, Done, Done, 0);
      var job := store.GetJob(id, io);
      if job.None? { return; }
      f := ExecuteJob(id, job.value, f);
    }

    // processJob from the row it read on.
    method ExecuteJob(id: JobId, snap: Row, ghost f: JobFate) returns (ghost g: JobFate)
      requires queue.Valid() && snap.retryCount >= 0
      modifies this, store`jobs, queue
      ensures queue.Valid() && g.load == f.load
      ensures Seen() == AfterBegin(old(Seen()), id, snap, conf.handlers, old(clock), g)
    {
      var io := Network();
      g := f.(begin := io);
      if snap.jobType !in conf.handlers {
        var _ := store.UpdateJobError(id, Failed, snap.retryCount, io);
        return;
      }
      var err := store.UpdateJobStatus(id, Running, clock, io);
      if err { return; }
      var took: nat, failed: bool := *, *;
      clock := clock + took;
      g := g.(took := took, failed := failed);
      if failed {
        g := HandleFailure(id, snap, g);
      } else {
        io := Network();
        g := g.(verdict := io);
        var _ := store.UpdateJobStatus(id, Completed, clock, io);
      }
    }

    // The body of Pool.worker's loop.
    method Work(queues: seq<string>) returns (ghost pop: Io, ghost f: JobFate)
      requires queue.Valid() && forall id :: id in store.jobs ==> store.jobs[id].retryCount >= 0
      modifies this, store`jobs, queue
      ensures queue.Valid()
      ensures Seen() == AfterWork(old(Seen()), queues, conf.handlers, old(clock), pop, f)
    {
      var io := Network();
      pop, f := io, JobFate(Done, Done, 0, false, Done, Done, 0);
      var id := queue.Pop(queues, io);
      if id.Some? { f := ProcessJob(id.value); }
    }

    method ProcessScheduledJobs() returns (ghost fetch: Io, ids: seq<JobId>, ghost fates: seq<DueFate>)
      requires queue.Valid()
      modifies store`jobs, queue
      ensures queue.Valid() && |fates| == |ids|
      ensures var due := Due(old(queue.sched), Unix(clock));
              if fetch.Done? then Selects(ids, due, |due|) else ids == []
      ensures var v0 := old(Seen());
              var v := if fetch.Effective() then v0.(sched := NotDue(v0.sched, Unix(clock))) else v0;
              Seen() == AfterDues(v, ids, clock, fates)
    {
      var io := Network();
      var err;
      fetch, fates := io, [];
      err, ids := queue.GetDueJobs(clock, io);
      if err { return; }
      ghost var v := Seen();
      var k := 0;
      while k < |ids|
        invariant 0 <= k <= |ids| && |fates| == k && queue.Valid()
        invariant Seen() == AfterDues(v, ids[..k], clock, fates)
      {
        ghost var fate := ProcessDueJob(ids[k]);
        assert ids[..k + 1][..k] == ids[..k] && (fates + [fate])[..k] == fates;
        fates, k := fates + [fate], k + 1;
      }
      assert ids[..k] == ids;
    }

    // The loop body of processScheduledJobs.
    method ProcessDueJob(id: JobId) returns (ghost f: DueFate)
      requires queue.Valid()
      modifies store`jobs, queue
      ensures queue.Valid()
      ensures Seen() == AfterDue(old(Seen()), id, clock, f)
      ensures var v, v' := old(Seen()), Seen();
              if f.load.Done? && id in v.jobs && f.push.Effective() then PushedLeft(v, v', v.jobs[id].queue, id)
              else SameRedis(v, v')
      ensures if f.load.Done? && id in old(store.jobs) && old(store.jobs)[id].status == Retrying
                 && f.push.Done? && f.mark.Effective()
              then StatusSet(old(store.jobs), store.jobs, id, Pending, clock) else store.jobs == old(store.jobs)
    {
      var io := Network();
      f := DueFate(io, Done, Done);
      var job := store.GetJob(id, io);
      if job.None? { return; }
      io := Network();
      f := f.(push := io);
      var err := queue.Push(job.value.queue, id, io);
      if err { return; }
      if job.value.status == Retrying {
        io := Network();
        f := f.(mark := io);
        var _ := store.UpdateJobStatus(id, Pending, clock, io);
      }
    }

    method RecoverUnqueuedJobs() returns (ghost query: Io, sel: seq<JobId>, ghost ios: seq<Io>)
      requires queue.Valid()
      modifies queue
      ensures queue.Valid() && |ios| == |sel| && (forall i :: 0 <= i < |sel| ==> sel[i] in store.jobs)
      ensures if query.Done? then PicksLeftBehind(sel, store.jobs, clock - 5 * SECOND) else sel == []
      ensures Seen() == AfterPushes(old(Seen()), QueuesOf(store.jobs, sel), ios)
    {
      var io := Network();
      var err;
      query, ios := io, [];
      err, sel := store.GetPendingUnqueued(clock, RECOVERY_AGE, io);
      if err { return; }
      ios := PushAll(QueuesOf(store.jobs, sel));
    }

    // The loop of recoverUnqueuedJobs over the rows the query returned.
    method PushAll(sweep: seq<(JobId, string)>) returns (ghost ios: seq<Io>)
      requires queue.Valid()
      modifies queue
      ensures queue.Valid() && |ios| == |sweep| && Seen() == AfterPushes(old(Seen()), sweep, ios)
    {
      ios := [];
      var k := 0;
      while k < |sweep|
        invariant 0 <= k <= |sweep| && |ios| == k && queue.Valid()
        invariant Seen() == AfterPushes(old(Seen()), sweep[..k], ios)
      {
        var io := Network();
        var _ := queue.Push(sweep[k].1, sweep[k].0, io);
        assert sweep[..k + 1][..k] == sweep[..k] && (ios + [io])[..k] == ios;
        ios, k := ios + [io], k + 1;
      }
      assert sweep[..k] == sweep;
    }

    method RecoverStaleJobs() returns (ghost query: Io, sel: seq<JobId>, ghost ios: seq<Io>)
      modifies store`jobs
      ensures |ios| == |sel| && (forall i :: 0 <= i < |sel| ==> sel[i] in old(store.jobs))
      ensures if query.Done? then PicksOverrun(sel, old(store.jobs), clock - 2 * conf.jobTimeout) else sel == []
      ensures Seen() == AfterReaps(old(Seen()), CountsOf(old(store.jobs), sel), ios)
    {
      var io := Network();
      var err;
      query, ios := io, [];
      err, sel := store.GetStaleRunningJobs(clock, conf.jobTimeout, io);
      if err { return; }
      ios := FailAll(CountsOf(store.jobs, sel));
    }

    // The loop of recoverStaleJobs over the rows the query returned.
    method FailAll(stale: seq<(JobId, int)>) returns (ghost ios: seq<Io>)
      modifies store`jobs
      ensures |ios| == |stale| && Seen() == AfterReaps(old(Seen()), stale, ios)
    {
      ios := [];
      var k := 0;
      while k < |stale|
        invariant 0 <= k <= |stale| && |ios| == k
        invariant Seen() == AfterReaps(old(Seen()), stale[..k], ios)
      {
        var io := Network();
        var _ := store.UpdateJobError(stale[k].0, Failed, stale[k].1, io);
        assert stale[..k + 1][..k] == stale[..k] && (ios + [io])[..k] == ios;
        ios, k := ios + [io], k + 1;
      }
      assert stale[..k] == stale;
    }

    // POST /jobs; `id` is what the database will draw.
    method CreateJob(id: JobId, name: string, jobType: string, maxRetries: Option<int>, runAt: Option<int>)
      returns (res: Response, ghost f: RequestFate)
      requires queue.Valid() && id !in store.used
      modifies store, queue
      ensures queue.Valid()
      ensures res == BadRequest <==> name == "" || jobType == ""
      ensures res == Created <==> name != "" && jobType != "" && f.first.Done?
      ensures res != BadRequest && f.first.Effective() ==>
                && id in store.jobs && AsAsked(store.jobs[id], name, jobType, maxRetries, runAt, clock)
                && forall x :: x in old(store.jobs) && x != id ==>
                     x in store.jobs && store.jobs[x] == old(store.jobs)[x]
      ensures res == Created && f.second.Effective() ==>
                if runAt.Some? then PutInSet(old(Seen()), Seen(), id, runAt.value)
                else PushedLeft(old(Seen()), Seen(), name, id)
      ensures Seen() == if res == BadRequest then old(Seen())
                        else AfterCreate(old(Seen()), id, NewRow(name, jobType, maxRetries, runAt, clock), f)
    {
      f := RequestFate(Done, Done, Done);
      if name == "" || jobType == "" { return BadRequest, f; }
      var row := NewRow(name, jobType, maxRetries, runAt, clock);
      var io := Network();
      f := f.(first := io);
      var err := store.CreateJob(id, row, io);
      if err { return ServerError, f; }
      io := Network();
      f := f.(second := io);
      if runAt.Some? {
        var _ := queue.Schedule(id, runAt.value, io);
      } else {
        var _ := queue.Push(name, id, io);
      }
      res := Created;
    }

    // POST /jobs/{id}/retry
    method RetryJob(id: JobId) returns (res: Response, ghost f: RequestFate)
      requires queue.Valid()
      modifies store`jobs, queue
      ensures queue.Valid()
      ensures res == NotFound <==> !f.first.Done? || id !in old(store.jobs)
      ensures res == Conflict <==> f.first.Done? && id in old(store.jobs) && old(store.jobs)[id].status != Dead
      ensures res == Ok <==>
                f.first.Done? && id in old(store.jobs) && old(store.jobs)[id].status == Dead && f.second.Done?
      ensures res == Ok ==> ErrorSet(old(store.jobs), store.jobs, id, Pending, 0)
      ensures res == Ok && f.third.Effective() ==> PushedLeft(old(Seen()), Seen(), old(store.jobs)[id].queue, id)
      ensures res == NotFound || res == Conflict ==> Seen() == old(Seen())
      ensures Seen() == AfterRetry(old(Seen()), id, f)
    {
      var io := Network();
      f := RequestFate(io, Done, Done);
      var job := store.GetJob(id, io);
      if job.None? { return NotFound, f; }
      if job.value.status != Dead { return Conflict, f; }
      io := Network();
      f := f.(second := io);
      var err := store.UpdateJobError(id, Pending, 0, io);
      if err { return ServerError, f; }
      io := Network();
      f := f.(third := io);
      var _ := queue.Push(job.value.queue, id, io);
      res := Ok;
    }

    // POST /jobs/{id}/cancel
    method CancelJob(id: JobId) returns (res: Response, ghost f: RequestFate)
      modifies store`jobs
      ensures res == NotFound <==> !f.first.Done? || id !in old(store.jobs)
      ensures res == Conflict <==>
                f.first.Done? && id in old(store.jobs) && old(store.jobs)[id].status !in {Pending, Scheduled, Running}
      ensures res == Ok <==> res != NotFound && res != Conflict && f.second.Done?
      ensures res == Ok ==> id in store.jobs && StatusSet(old(store.jobs), store.jobs, id, Cancelled, clock)
      ensures Seen() == AfterCancel(old(Seen()), id, clock, f)
    {
      var io := Network();
      f := RequestFate(io, Done, Done);
      var job := store.GetJob(id, io);
      if job.None? { return NotFound, f; }
      CancellableStatuses(job.value.status);
      if !CanTransitionTo(job.value.status, Cancelled) { return Conflict, f; }
      io := Network();
      f := f.(second := io);
      var err := store.UpdateJobStatus(id, Cancelled, clock, io);
      res := if err then ServerError else Ok;
    }

    // DELETE /jobs/{id}
    method DeleteJob(id: JobId) returns (res: Response, ghost io: Io)
      modifies store`jobs
      ensures res == Ok <==> io.Done? && id in old(store.jobs) && old(store.jobs)[id].status == Dead
      ensures res == Ok || res == Conflict
      ensures Seen() == if io.Effective() then old(Seen()).(jobs := DeleteDead(old(store.jobs), id)) else old(Seen())
    {
      var call := Network();
      io := call;
      var err := store.DeleteJob(id, call);
      res := if err then Conflict else Ok;
    }
  }

  // A sweep whose writes all succeed fails exactly the selected rows and keeps their retry counts.
  lemma {:induction false} ReapsAll(v: View, sel: seq<JobId>, ios: seq<Io>)
    requires |ios| == |sel| && NoDuplicates(sel)
    requires forall i :: 0 <= i < |sel| ==> sel[i] in v.jobs
    requires forall i :: 0 <= i < |ios| ==> ios[i].Done?
    ensures AfterReaps(v, CountsOf(v.jobs, sel), ios) == v.(jobs := Reaped(v.jobs, sel))
  {
    if sel == [] {
      assert Reaped(v.jobs, sel) == v.jobs;
    } else {
      var n := |sel| - 1;
      assert CountsOf(v.jobs, sel)[..n] == CountsOf(v.jobs, sel[..n]);
      ReapsAll(v, sel[..n], ios[..n]);
      ReapsOneMore(v.jobs, sel);
    }
  }

  lemma ReapsOneMore(jobs: Table, sel: seq<JobId>)
    requires sel != [] && NoDuplicates(sel) && sel[|sel| - 1] in jobs
    ensures var n := |sel| - 1;
            Reaped(jobs, sel) == UpdateError(Reaped(jobs, sel[..n]), sel[n], Failed, jobs[sel[n]].retryCount)
  {
    assert sel == sel[..|sel| - 1] + [sel[|sel| - 1]];
  }
}
