/** What each process leaves behind, said of rows, lists and set: the functions the processes are proved
    against, read without their definitions. */
module Outcomes {
  import opened Jobs
  import opened Calls
  import opened Storage
  import opened Redis
  import opened Processes

  /** A create request stores the row as asked, and hands the id to the set or to its queue's list. */
  lemma CreateMeans(v: View, id: JobId, queue: string, jobType: string, maxRetries: Option<int>, runAt: Option<int>,
                    now: int, f: RequestFate)
    ensures var v' := AfterCreate(v, id, NewRow(queue, jobType, maxRetries, runAt, now), f);
            && (f.first.Refused? ==> v' == v)
            && (f.first.Effective() ==>
                  && v'.used == v.used + {id} && v'.jobs.Keys == v.jobs.Keys + {id}
                  && AsAsked(v'.jobs[id], queue, jobType, maxRetries, runAt, now)
                  && forall x :: x in v.jobs && x != id ==> v'.jobs[x] == v.jobs[x])
            && (if f.first.Done? && f.second.Effective()
                then if runAt.Some? then PutInSet(v, v', id, runAt.value) else PushedLeft(v, v', queue, id)
                else SameRedis(v, v'))
  {
  }

  /** An API retry touches the stores only if it found the row dead. It then makes the row pending with no
      retries counted, keeps the rest of it, and pushes the id to the row's queue. */
  lemma RetryMeans(v: View, id: JobId, f: RequestFate)
    ensures var v' := AfterRetry(v, id, f);
            if f.first.Done? && id in v.jobs && v.jobs[id].status == Dead
            then && (if f.second.Effective() then ErrorSet(v.jobs, v'.jobs, id, Pending, 0) else v'.jobs == v.jobs)
                 && (if f.second.Done? && f.third.Effective() then PushedLeft(v, v', v.jobs[id].queue, id)
                     else SameRedis(v, v'))
                 && v'.used == v.used
            else v' == v
  {
    UpdatesMean(v.jobs, id, Pending, 0, 0);
  }

  lemma CancelMeans(v: View, id: JobId, now: int, f: RequestFate)
    ensures var v' := AfterCancel(v, id, now, f);
            if && f.first.Done? && f.second.Effective()
               && id in v.jobs && v.jobs[id].status in {Pending, Scheduled, Running}
            then StatusSet(v.jobs, v'.jobs, id, Cancelled, now) && SameRedis(v, v') && v'.used == v.used
            else v' == v
  {
    if id in v.jobs { CancellableStatuses(v.jobs[id].status); }
    UpdatesMean(v.jobs, id, Cancelled, now, 0);
  }

  /** One due job is pushed to the queue its row names, and becomes pending exactly when the push was
      answered, the row was retrying and the mark took effect. */
  lemma DueMeans(v: View, id: JobId, now: int, f: DueFate)
    ensures var v' := AfterDue(v, id, now, f);
            if f.load.Done? && id in v.jobs
            then && (if f.push.Effective() then PushedLeft(v, v', v.jobs[id].queue, id) else SameRedis(v, v'))
                 && (if f.push.Done? && v.jobs[id].status == Retrying && f.mark.Effective()
                     then StatusSet(v.jobs, v'.jobs, id, Pending, now) else v'.jobs == v.jobs)
                 && v'.used == v.used
            else v' == v
  {
    UpdatesMean(v.jobs, id, Pending, now, 0);
  }

  /** A failed execution writes the count read plus one, dead exactly when that reaches the limit. Short of
      it the retry goes to the set, 2^count seconds ahead (as far as that fits), even if the write failed. */
  lemma FailureMeans(v: View, id: JobId, snap: Row, now: int, f: JobFate)
    requires snap.retryCount >= 0
    ensures var v' := AfterFailure(v, id, snap, now, f);
            var n := snap.retryCount + 1;
            && (if f.verdict.Refused? then v'.jobs == v.jobs
                else ErrorSet(v.jobs, v'.jobs, id, if n >= snap.maxRetries then Dead else Retrying, n))
            && (n >= snap.maxRetries || f.schedule.Refused? ==> SameRedis(v, v'))
            && (n < snap.maxRetries && f.schedule.Effective() ==>
                  && PutInSet(v, v', id, now + Backoff(n, f.platform))
                  && (n <= 33 ==> PutInSet(v, v', id, now + Pow2(n) * SECOND)))
            && v'.used == v.used
  {
    UpdatesMean(v.jobs, id, Dead, now, snap.retryCount + 1);
    UpdatesMean(v.jobs, id, Retrying, now, snap.retryCount + 1);
    if snap.retryCount + 1 <= 33 { BackoffExact(snap.retryCount + 1, f.platform); }
  }

  // A job whose handler is not registered becomes failed with its count unchanged.
  lemma UnknownMeans(v: View, id: JobId, handlers: set<string>, now: int, f: JobFate)
    requires id in v.jobs && v.jobs[id].retryCount >= 0 && f.load.Done? && v.jobs[id].jobType !in handlers
    ensures var v' := AfterJob(v, id, handlers, now, f);
            && SameRedis(v, v') && v'.used == v.used
            && if f.begin.Refused? then v'.jobs == v.jobs
               else ErrorSet(v.jobs, v'.jobs, id, Failed, v.jobs[id].retryCount)
  {
    UpdatesMean(v.jobs, id, Failed, now, v.jobs[id].retryCount);
  }

  // A running write that is not acknowledged ends the work on the job.
  lemma UnbegunMeans(v: View, id: JobId, handlers: set<string>, now: int, f: JobFate)
    requires id in v.jobs && v.jobs[id].retryCount >= 0 && f.load.Done? && !f.begin.Done?
    requires v.jobs[id].jobType in handlers
    ensures var v' := AfterJob(v, id, handlers, now, f);
            && SameRedis(v, v') && v'.used == v.used
            && if f.begin.Refused? then v'.jobs == v.jobs else StatusSet(v.jobs, v'.jobs, id, Running, now)
  {
    UpdatesMean(v.jobs, id, Running, now, 0);
  }

  /** An execution that succeeds leaves the row completed, started at the running write and completed at the
      end, and the rest of it as it was; Redis is not touched. */
  lemma JobSucceeds(v: View, id: JobId, handlers: set<string>, now: int, f: JobFate)
    requires id in v.jobs && v.jobs[id].retryCount >= 0 && v.jobs[id].jobType in handlers
    requires f.load.Done? && f.begin.Done? && !f.failed
    ensures var v' := AfterJob(v, id, handlers, now, f);
            var r := v.jobs[id].(status := Running, startedAt := Some(now));
            && SameRedis(v, v') && v'.used == v.used && OnlyRow(v.jobs, v'.jobs, id)
            && v'.jobs[id] == if f.verdict.Refused? then r
                              else r.(status := Completed, completedAt := Some(now + f.took))
  {
  }

  // What a failing execution leaves of the row.
  lemma JobFails(v: View, id: JobId, handlers: set<string>, now: int, f: JobFate)
    requires id in v.jobs && v.jobs[id].retryCount >= 0 && v.jobs[id].jobType in handlers
    requires f.load.Done? && f.begin.Done? && f.failed
    ensures var v' := AfterJob(v, id, handlers, now, f);
            var r := v.jobs[id].(status := Running, startedAt := Some(now));
            var n := r.retryCount + 1;
            && OnlyRow(v.jobs, v'.jobs, id)
            && v'.jobs[id] == (if f.verdict.Refused? then r
                               else r.(status := if n >= r.maxRetries then Dead else Retrying, retryCount := n))
            && (n < r.maxRetries && f.schedule.Effective() && n <= 33 ==>
                  PutInSet(v, v', id, now + f.took + Pow2(n) * SECOND))
            && (n >= r.maxRetries || f.schedule.Refused? ==> SameRedis(v, v'))
  {
    UpdatesMean(v.jobs, id, Running, now, 0);
    var v1 := v.SetStatus(id, Running, now, f.begin);
    FailureMeans(v1, id, v.jobs[id], now + f.took, f);
  }

  // Ids pushed to queue q by a sweep, last pushed first.
  function PushedIds(sweep: seq<(JobId, string)>, ios: seq<Io>, q: string): seq<JobId>
    requires |sweep| == |ios|
  {
    if sweep == [] then [] else
      var n := |sweep| - 1;
      (if ios[n].Effective() && sweep[n].1 == q then [sweep[n].0] else []) + PushedIds(sweep[..n], ios[..n], q)
  }

  // A sweep's pushes go in front of each list, and nothing else changes.
  lemma {:induction false} PushesMean(v: View, sweep: seq<(JobId, string)>, ios: seq<Io>, q: string)
    requires |sweep| == |ios|
    ensures var v' := AfterPushes(v, sweep, ios);
            && ListOf(v'.lists, q) == PushedIds(sweep, ios, q) + ListOf(v.lists, q)
            && v'.jobs == v.jobs && v'.sched == v.sched && v'.used == v.used
  {
    if sweep == [] {
    } else {
      var n := |sweep| - 1;
      PushesMean(v, sweep[..n], ios[..n], q);
      PushMeans(AfterPushes(v, sweep[..n], ios[..n]), sweep[n].1, sweep[n].0, ios[n], q);
      Regroup(if ios[n].Effective() && sweep[n].1 == q then [sweep[n].0] else [],
              PushedIds(sweep[..n], ios[..n], q), ListOf(v.lists, q));
    }
  }

  lemma Regroup(a: seq<JobId>, b: seq<JobId>, c: seq<JobId>)
    ensures a + (b + c) == (a + b) + c
  {
  }

  lemma PushMeans(v: View, p: string, id: JobId, io: Io, q: string)
    ensures var v' := v.PushId(p, id, io);
            && ListOf(v'.lists, q) == (if io.Effective() && p == q then [id] else []) + ListOf(v.lists, q)
            && v'.jobs == v.jobs && v'.sched == v.sched && v'.used == v.used
  {
  }

  // A stale sweep's write fails the row with the count the query read, exactly where it took effect.
  lemma {:induction false} ReapsMean(v: View, stale: seq<(JobId, int)>, ios: seq<Io>, k: nat)
    requires |stale| == |ios| && k < |stale| && (forall i :: 0 <= i < |stale| && i != k ==> stale[i].0 != stale[k].0)
    ensures var v' := AfterReaps(v, stale, ios);
            var id := stale[k].0;
            && SameRedis(v, v') && v'.used == v.used && v'.jobs.Keys == v.jobs.Keys
            && (id in v.jobs ==>
                  v'.jobs[id] == if ios[k].Effective() then v.jobs[id].(status := Failed, retryCount := stale[k].1)
                                 else v.jobs[id])
  {
    var n := |stale| - 1;
    if k < n {
      ReapsMean(v, stale[..n], ios[..n], k);
    } else {
      ReapsElsewhere(v, stale[..n], ios[..n], stale[k].0);
    }
  }

  lemma {:induction false} ReapsElsewhere(v: View, stale: seq<(JobId, int)>, ios: seq<Io>, id: JobId)
    requires |stale| == |ios| && forall i :: 0 <= i < |stale| ==> stale[i].0 != id
    ensures var v' := AfterReaps(v, stale, ios);
            && SameRedis(v, v') && v'.used == v.used && v'.jobs.Keys == v.jobs.Keys
            && (id in v.jobs ==> v'.jobs[id] == v.jobs[id])
  {
    if stale == [] {
    } else {
      ReapsElsewhere(v, stale[..|stale| - 1], ios[..|stale| - 1], id);
    }
  }

  // Every due job that was read and whose push took effect is in the list of its queue afterwards.
  lemma {:induction false} DuesDeliver(v: View, ids: seq<JobId>, now: int, fates: seq<DueFate>, k: nat)
    requires |ids| == |fates| && k < |ids| && ids[k] in v.jobs && fates[k].load.Done? && fates[k].push.Effective()
    ensures ids[k] in ListOf(AfterDues(v, ids, now, fates).lists, v.jobs[ids[k]].queue)
  {
    var n := |ids| - 1;
    var v1 := AfterDues(v, ids[..n], now, fates[..n]);
    DuesKeepQueues(v, ids[..n], now, fates[..n], ids[k]);
    DueMeans(v1, ids[n], now, fates[n]);
    if k < n {
      DuesDeliver(v, ids[..n], now, fates[..n], k);
    } else {
      assert ([ids[n]] + ListOf(v1.lists, v1.jobs[ids[n]].queue))[0] == ids[n];
    }
  }

  lemma {:induction false} DuesKeepQueues(v: View, ids: seq<JobId>, now: int, fates: seq<DueFate>, x: JobId)
    requires |ids| == |fates|
    ensures x in v.jobs <==> x in AfterDues(v, ids, now, fates).jobs
    ensures x in v.jobs ==> AfterDues(v, ids, now, fates).jobs[x].queue == v.jobs[x].queue
  {
    if ids == [] {
    } else {
      var n := |ids| - 1;
      DuesKeepQueues(v, ids[..n], now, fates[..n], x);
      DueMeans(AfterDues(v, ids[..n], now, fates[..n]), ids[n], now, fates[n]);
    }
  }

  // Due ids pushed to queue q, last pushed first.
  function DueIds(jobs: Table, ids: seq<JobId>, fates: seq<DueFate>, q: string): seq<JobId>
    requires |ids| == |fates|
  {
    if ids == [] then [] else
      var n := |ids| - 1;
      var pushed := fates[n].load.Done? && ids[n] in jobs && fates[n].push.Effective() && jobs[ids[n]].queue == q;
      (if pushed then [ids[n]] else []) + DueIds(jobs, ids[..n], fates[..n], q)
  }

  // The due jobs go in front of each list in the order the script returned them; the set is not touched.
  lemma {:induction false} DuesMean(v: View, ids: seq<JobId>, now: int, fates: seq<DueFate>, q: string)
    requires |ids| == |fates|
    ensures var v' := AfterDues(v, ids, now, fates);
            ListOf(v'.lists, q) == DueIds(v.jobs, ids, fates, q) + ListOf(v.lists, q) && v'.sched == v.sched
  {
    if ids == [] {
    } else {
      var n := |ids| - 1;
      DuesMean(v, ids[..n], now, fates[..n], q);
      DuesKeepQueues(v, ids[..n], now, fates[..n], ids[n]);
      OneDueMeans(AfterDues(v, ids[..n], now, fates[..n]), ids[n], now, fates[n], q);
      var f := fates[n];
      var pushed := f.load.Done? && ids[n] in v.jobs && f.push.Effective() && v.jobs[ids[n]].queue == q;
      Regroup(if pushed then [ids[n]] else [], DueIds(v.jobs, ids[..n], fates[..n], q), ListOf(v.lists, q));
    }
  }

  lemma OneDueMeans(v: View, id: JobId, now: int, f: DueFate, q: string)
    ensures var v' := AfterDue(v, id, now, f);
            var pushed := f.load.Done? && id in v.jobs && f.push.Effective() && v.jobs[id].queue == q;
            ListOf(v'.lists, q) == (if pushed then [id] else []) + ListOf(v.lists, q) && v'.sched == v.sched
  {
    DueMeans(v, id, now, f);
  }
}
