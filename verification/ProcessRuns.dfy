/** What the code of one process does to the stores is what its actor does in the step machine, call
    by call and for every outcome of every call. */
module ProcessRuns {
  import opened Jobs
  import opened Calls
  import opened Selection
  import opened Storage
  import opened Redis
  import opened Protocol
  import opened Processes

  datatype Place = Place(w: World, a: Actor)

  // One step of the actor; an action that does not fit changes nothing.
  ghost function Then(p: Place, act: Action): Place {
    var (w, a) := Act(p.w, p.a, act);
    Place(w, a)
  }

  function ViewOf(w: World): View { View(w.jobs, w.used, w.lists, w.sched) }

  // The actor moved to `a`, the stores to `v`, the clock to `clock`.
  ghost predicate At(p: Place, a: Actor, v: View, clock: int, conf: Config) {
    p.a == a && ViewOf(p.w) == v && p.w.clock == clock && p.w.conf == conf
  }

  // ---------- single steps ----------

  lemma ThenLoad(p: Place, io: Io)
    requires p.a.Taken?
    ensures At(Then(p, Load(io)), if io.Done? && p.a.id in p.w.jobs then Loaded(p.a.id, p.w.jobs[p.a.id]) else Idle,
               ViewOf(p.w), p.w.clock, p.w.conf)
  {
  }

  lemma ThenBegin(p: Place, io: Io)
    requires p.a.Loaded?
    ensures var known := p.a.snap.jobType in p.w.conf.handlers;
            At(Then(p, Begin(io)), if io.Done? && known then Executing(p.a.id, p.a.snap, p.w.clock) else Idle,
               if known then ViewOf(p.w).SetStatus(p.a.id, Running, p.w.clock, io)
               else ViewOf(p.w).SetError(p.a.id, Failed, p.a.snap.retryCount, io), p.w.clock, p.w.conf)
  {
  }

  lemma ThenTick(p: Place, dt: nat)
    ensures At(Then(p, Tick(dt)), p.a, ViewOf(p.w), p.w.clock + dt, p.w.conf)
  {
  }

  lemma ThenComplete(p: Place, io: Io)
    requires p.a.Executing?
    ensures At(Then(p, Complete(io)), Idle, ViewOf(p.w).SetStatus(p.a.id, Completed, p.w.clock, io),
               p.w.clock, p.w.conf)
  {
  }

  lemma ThenFail(p: Place, io: Io)
    requires p.a.Executing?
    ensures var n := p.a.snap.retryCount + 1;
            var dead := n >= p.a.snap.maxRetries;
            At(Then(p, Fail(io)), if dead then Idle else BackingOff(p.a.id, n),
               ViewOf(p.w).SetError(p.a.id, if dead then Dead else Retrying, n, io), p.w.clock, p.w.conf)
  {
  }

  lemma ThenBackOff(p: Place, io: Io, platform: int)
    requires p.a.BackingOff? && p.a.attempt >= 0
    ensures At(Then(p, BackOff(io, platform)), Idle,
               ViewOf(p.w).Schedule(p.a.id, p.w.clock + Backoff(p.a.attempt, platform), io), p.w.clock, p.w.conf)
  {
  }

  lemma ThenMisfit(p: Place, act: Action)
    requires !Fits(p.a, act)
    ensures Then(p, act) == p
  {
  }

  // ---------- processJob ----------

  ghost function FailurePath(p: Place, f: JobFate): Place {
    Then(Then(p, Fail(f.verdict)), BackOff(f.schedule, f.platform))
  }

  ghost function JobPath(p: Place, f: JobFate): Place {
    var q := Then(Then(Then(p, Load(f.load)), Begin(f.begin)), Tick(f.took));
    if f.failed then FailurePath(q, f) else Then(q, Complete(f.verdict))
  }

  lemma FailureRuns(p: Place, f: JobFate)
    requires p.a.Executing? && p.a.snap.retryCount >= 0
    ensures var q := FailurePath(p, f);
            q.a == Idle && ViewOf(q.w) == AfterFailure(ViewOf(p.w), p.a.id, p.a.snap, p.w.clock, f)
  {
    ThenFail(p, f.verdict);
    var q := Then(p, Fail(f.verdict));
    if q.a.Idle? {
      ThenMisfit(q, BackOff(f.schedule, f.platform));
    } else {
      ThenBackOff(q, f.schedule, f.platform);
    }
  }

  // What is left to do when the handler returns, or after giving up.
  function RestOfJob(v: View, a: Actor, now: int, f: JobFate): View
    requires a.Executing? ==> a.snap.retryCount >= 0
  {
    if !a.Executing? then v
    else if f.failed then AfterFailure(v, a.id, a.snap, now, f)
    else v.SetStatus(a.id, Completed, now, f.verdict)
  }

  lemma EndRuns(p: Place, f: JobFate)
    requires p.a.Executing? ==> p.a.snap.retryCount >= 0
    requires p.a.Executing? || p.a.Idle?
    ensures var q := if f.failed then FailurePath(p, f) else Then(p, Complete(f.verdict));
            q.a == Idle && ViewOf(q.w) == RestOfJob(ViewOf(p.w), p.a, p.w.clock, f)
  {
    if p.a.Idle? {
      ThenMisfit(p, Complete(f.verdict));
      ThenMisfit(p, Fail(f.verdict));
      ThenMisfit(p, BackOff(f.schedule, f.platform));
    } else if f.failed {
      FailureRuns(p, f);
    } else {
      ThenComplete(p, f.verdict);
    }
  }

  /** Pool.processJob and handleFailure, from the pop to the end. */
  lemma JobRuns(w: World, id: JobId, f: JobFate)
    requires id in w.jobs ==> w.jobs[id].retryCount >= 0
    ensures var q := JobPath(Place(w, Taken(id)), f);
            q.a == Idle && ViewOf(q.w) == AfterJob(ViewOf(w), id, w.conf.handlers, w.clock, f)
  {
    var p := Place(w, Taken(id));
    ThenLoad(p, f.load);
    BeginRuns(Then(p, Load(f.load)), f);
  }

  // From the loaded row, or from giving up on it.
  lemma BeginRuns(p: Place, f: JobFate)
    requires p.a.Idle? || (p.a.Loaded? && p.a.snap.retryCount >= 0)
    ensures var m := Then(Then(p, Begin(f.begin)), Tick(f.took));
            var q := if f.failed then FailurePath(m, f) else Then(m, Complete(f.verdict));
            q.a == Idle && ViewOf(q.w) == if p.a.Idle? then ViewOf(p.w) else
              AfterBegin(ViewOf(p.w), p.a.id, p.a.snap, p.w.conf.handlers, p.w.clock, f)
  {
    if p.a.Idle? {
      ThenMisfit(p, Begin(f.begin));
      TickAndEnd(p, f);
    } else {
      LoadedRuns(p, f);
    }
  }

  lemma LoadedRuns(p: Place, f: JobFate)
    requires p.a.Loaded? && p.a.snap.retryCount >= 0
    ensures var m := Then(Then(p, Begin(f.begin)), Tick(f.took));
            var q := if f.failed then FailurePath(m, f) else Then(m, Complete(f.verdict));
            q.a == Idle && ViewOf(q.w) == AfterBegin(ViewOf(p.w), p.a.id, p.a.snap, p.w.conf.handlers, p.w.clock, f)
  {
    ThenBegin(p, f.begin);
    var b := Then(p, Begin(f.begin));
    TickAndEnd(b, f);
    BeginView(p, b, f);
  }

  lemma BeginView(p: Place, b: Place, f: JobFate)
    requires p.a.Loaded? && p.a.snap.retryCount >= 0
    requires var known := p.a.snap.jobType in p.w.conf.handlers;
             At(b, if f.begin.Done? && known then Executing(p.a.id, p.a.snap, p.w.clock) else Idle,
                if known then ViewOf(p.w).SetStatus(p.a.id, Running, p.w.clock, f.begin)
                else ViewOf(p.w).SetError(p.a.id, Failed, p.a.snap.retryCount, f.begin), p.w.clock, p.w.conf)
    ensures RestOfJob(ViewOf(b.w), b.a, b.w.clock + f.took, f) ==
            AfterBegin(ViewOf(p.w), p.a.id, p.a.snap, p.w.conf.handlers, p.w.clock, f)
  {
  }

  lemma TickAndEnd(p: Place, f: JobFate)
    requires p.a.Idle? || (p.a.Executing? && p.a.snap.retryCount >= 0)
    ensures var m := Then(p, Tick(f.took));
            var q := if f.failed then FailurePath(m, f) else Then(m, Complete(f.verdict));
            q.a == Idle && ViewOf(q.w) == RestOfJob(ViewOf(p.w), p.a, p.w.clock + f.took, f)
  {
    ThenTick(p, f.took);
    EndRuns(Then(p, Tick(f.took)), f);
  }

  // ---------- Pool.worker ----------

  lemma ThenPop(p: Place, queues: seq<string>, io: Io)
    requires p.a.Idle?
    ensures var q := FirstNonEmpty(p.w.lists, queues);
            if io.Refused? || q.None? then At(Then(p, Pop(queues, io)), Idle, ViewOf(p.w), p.w.clock, p.w.conf)
            else At(Then(p, Pop(queues, io)), if io.Done? then Taken(Tail(p.w.lists, q.value)) else Idle,
                    ViewOf(p.w).(lists := DropTail(p.w.lists, q.value)), p.w.clock, p.w.conf)
  {
  }

  // A pop that brought nothing leaves the worker where it was.
  lemma IdlePath(p: Place, f: JobFate)
    requires p.a.Idle?
    ensures JobPath(p, f).a == Idle && ViewOf(JobPath(p, f).w) == ViewOf(p.w)
  {
    ThenMisfit(p, Load(f.load));
    BeginRuns(p, f);
  }

  /** One turn of Pool.worker's loop. */
  lemma WorkRuns(w: World, queues: seq<string>, pop: Io, f: JobFate)
    requires forall id :: id in w.jobs ==> w.jobs[id].retryCount >= 0
    ensures var q := JobPath(Then(Place(w, Idle), Pop(queues, pop)), f);
            q.a == Idle && ViewOf(q.w) == AfterWork(ViewOf(w), queues, w.conf.handlers, w.clock, pop, f)
  {
    ThenPop(Place(w, Idle), queues, pop);
    var p := Then(Place(w, Idle), Pop(queues, pop));
    if p.a.Idle? { IdlePath(p, f); } else { JobRuns(p.w, p.a.id, f); }
  }

  // ---------- processScheduledJobs ----------

  lemma ThenDueLoad(p: Place, io: Io)
    requires p.a.DueBatch? && p.a.rest != []
    ensures var id := p.a.rest[0];
            At(Then(p, DueLoad(io)), if io.Done? && id in p.w.jobs then DueLoaded(id, p.w.jobs[id], p.a.rest[1..])
                                     else DueBatch(p.a.rest[1..]), ViewOf(p.w), p.w.clock, p.w.conf)
  {
  }

  lemma ThenDuePush(p: Place, io: Io)
    requires p.a.DueLoaded?
    ensures At(Then(p, DuePush(io)), if io.Done? then DuePushed(p.a.id, p.a.snap, p.a.rest) else DueBatch(p.a.rest),
               ViewOf(p.w).PushId(p.a.snap.queue, p.a.id, io), p.w.clock, p.w.conf)
  {
  }

  lemma ThenDueMark(p: Place, io: Io)
    requires p.a.DuePushed?
    ensures At(Then(p, DueMark(io)), DueBatch(p.a.rest),
               if p.a.snap.status == Retrying then ViewOf(p.w).SetStatus(p.a.id, Pending, p.w.clock, io)
               else ViewOf(p.w),
               p.w.clock, p.w.conf)
  {
  }

  ghost function DuePath(p: Place, f: DueFate): Place {
    Then(Then(Then(p, DueLoad(f.load)), DuePush(f.push)), DueMark(f.mark))
  }

  ghost function DuesPath(p: Place, fates: seq<DueFate>): Place {
    if fates == [] then p else DuePath(DuesPath(p, fates[..|fates| - 1]), fates[|fates| - 1])
  }

  lemma DueRuns(p: Place, f: DueFate)
    requires p.a.DueBatch? && p.a.rest != []
    ensures At(DuePath(p, f), DueBatch(p.a.rest[1..]), AfterDue(ViewOf(p.w), p.a.rest[0], p.w.clock, f),
               p.w.clock, p.w.conf)
  {
    ThenDueLoad(p, f.load);
    var p1 := Then(p, DueLoad(f.load));
    if p1.a.DueBatch? {
      ThenMisfit(p1, DuePush(f.push));
      ThenMisfit(p1, DueMark(f.mark));
    } else {
      ThenDuePush(p1, f.push);
      var p2 := Then(p1, DuePush(f.push));
      if p2.a.DueBatch? { ThenMisfit(p2, DueMark(f.mark)); } else { ThenDueMark(p2, f.mark); }
    }
  }

  /** The loop of processScheduledJobs over the ids the script returned. */
  lemma {:induction false} DuesRun(w: World, ids: seq<JobId>, fates: seq<DueFate>)
    requires |fates| <= |ids|
    ensures var n := |fates|;
            At(DuesPath(Place(w, DueBatch(ids)), fates), DueBatch(ids[n..]),
               AfterDues(ViewOf(w), ids[..n], w.clock, fates), w.clock, w.conf)
  {
    if fates == [] {
      assert ids[0..] == ids && ids[..0] == [];
    } else {
      var n := |fates| - 1;
      DuesRun(w, ids, fates[..n]);
      DueRuns(DuesPath(Place(w, DueBatch(ids)), fates[..n]), fates[n]);
      assert ids[n..][1..] == ids[n + 1..];
      assert ids[..n + 1][..n] == ids[..n];
    }
  }

  /** All of processScheduledJobs: the script, then the loop. */
  lemma ScheduledRuns(w: World, order: seq<JobId>, fetch: Io, fates: seq<DueFate>)
    requires var due := Due(w.sched, Unix(w.clock)); Selects(order, due, |due|)
    requires |fates| == if fetch.Done? then |order| else 0
    ensures var q := DuesPath(Then(Place(w, Idle), DueFetch(order, fetch)), fates);
            var v := if fetch.Effective() then ViewOf(w).(sched := NotDue(w.sched, Unix(w.clock))) else ViewOf(w);
            && q.a == (if fetch.Done? then DueBatch([]) else Idle)
            && ViewOf(q.w) == AfterDues(v, if fetch.Done? then order else [], w.clock, fates)
  {
    ThenDueFetch(w, order, fetch);
    var p := Then(Place(w, Idle), DueFetch(order, fetch));
    if fetch.Done? { AllDuesRun(p.w, order, fates); }
  }

  lemma ThenDueFetch(w: World, order: seq<JobId>, io: Io)
    requires var due := Due(w.sched, Unix(w.clock)); Selects(order, due, |due|)
    ensures At(Then(Place(w, Idle), DueFetch(order, io)), if io.Done? then DueBatch(order) else Idle,
               if io.Effective() then ViewOf(w).(sched := NotDue(w.sched, Unix(w.clock))) else ViewOf(w),
               w.clock, w.conf)
  {
  }

  lemma AllDuesRun(w: World, ids: seq<JobId>, fates: seq<DueFate>)
    requires |fates| == |ids|
    ensures At(DuesPath(Place(w, DueBatch(ids)), fates), DueBatch([]),
               AfterDues(ViewOf(w), ids, w.clock, fates), w.clock, w.conf)
  {
    DuesRun(w, ids, fates);
    assert ids[..|ids|] == ids && ids[|ids|..] == [];
  }

  // ---------- the sweeps ----------

  ghost function PushesPath(p: Place, ios: seq<Io>): Place {
    if ios == [] then p else Then(PushesPath(p, ios[..|ios| - 1]), RecoverPush(ios[|ios| - 1]))
  }

  ghost function ReapsPath(p: Place, ios: seq<Io>): Place {
    if ios == [] then p else Then(ReapsPath(p, ios[..|ios| - 1]), ReapWrite(ios[|ios| - 1]))
  }

  lemma ThenRecoverPush(p: Place, io: Io)
    requires p.a.Recovering? && p.a.sweep != []
    ensures At(Then(p, RecoverPush(io)), Recovering(p.a.sweep[1..]),
               ViewOf(p.w).PushId(p.a.sweep[0].1, p.a.sweep[0].0, io), p.w.clock, p.w.conf)
  {
  }

  lemma ThenReapWrite(p: Place, io: Io)
    requires p.a.Reaping? && p.a.stale != []
    ensures At(Then(p, ReapWrite(io)), Reaping(p.a.stale[1..]),
               ViewOf(p.w).SetError(p.a.stale[0].0, Failed, p.a.stale[0].1, io), p.w.clock, p.w.conf)
  {
  }

  /** The loop of recoverUnqueuedJobs. */
  lemma {:induction false} PushesRun(w: World, sweep: seq<(JobId, string)>, ios: seq<Io>)
    requires |ios| <= |sweep|
    ensures var n := |ios|;
            At(PushesPath(Place(w, Recovering(sweep)), ios), Recovering(sweep[n..]),
               AfterPushes(ViewOf(w), sweep[..n], ios), w.clock, w.conf)
  {
    if ios == [] {
      assert sweep[0..] == sweep && sweep[..0] == [];
    } else {
      var n := |ios| - 1;
      PushesRun(w, sweep, ios[..n]);
      ThenRecoverPush(PushesPath(Place(w, Recovering(sweep)), ios[..n]), ios[n]);
      assert sweep[n..][1..] == sweep[n + 1..];
      assert sweep[..n + 1][..n] == sweep[..n];
    }
  }

  /** The loop of recoverStaleJobs. */
  lemma {:induction false} ReapsRun(w: World, stale: seq<(JobId, int)>, ios: seq<Io>)
    requires |ios| <= |stale|
    ensures var n := |ios|;
            At(ReapsPath(Place(w, Reaping(stale)), ios), Reaping(stale[n..]),
               AfterReaps(ViewOf(w), stale[..n], ios), w.clock, w.conf)
  {
    if ios == [] {
      assert stale[0..] == stale && stale[..0] == [];
    } else {
      var n := |ios| - 1;
      ReapsRun(w, stale, ios[..n]);
      ThenReapWrite(ReapsPath(Place(w, Reaping(stale)), ios[..n]), ios[n]);
      assert stale[n..][1..] == stale[n + 1..];
      assert stale[..n + 1][..n] == stale[..n];
    }
  }

  /** All of recoverUnqueuedJobs: the query, then the loop. */
  lemma RecoverRuns(w: World, order: seq<JobId>, query: Io, ios: seq<Io>)
    requires Selects(order, Unqueued(w.jobs, w.clock - RECOVERY_AGE), SWEEP_LIMIT)
    requires |ios| == if query.Done? then |order| else 0
    ensures var q := PushesPath(Then(Place(w, Idle), Recover(order, query)), ios);
            && q.a == (if query.Done? then Recovering([]) else Idle)
            && ViewOf(q.w) == AfterPushes(ViewOf(w), if query.Done? then QueuesOf(w.jobs, order) else [], ios)
  {
    ThenRecover(w, order, query);
    var p := Then(Place(w, Idle), Recover(order, query));
    if query.Done? { AllPushesRun(p.w, QueuesOf(w.jobs, order), ios); }
  }

  lemma ThenRecover(w: World, order: seq<JobId>, io: Io)
    requires Selects(order, Unqueued(w.jobs, w.clock - RECOVERY_AGE), SWEEP_LIMIT)
    ensures At(Then(Place(w, Idle), Recover(order, io)), if io.Done? then Recovering(QueuesOf(w.jobs, order)) else Idle,
               ViewOf(w), w.clock, w.conf)
  {
  }

  lemma AllPushesRun(w: World, sweep: seq<(JobId, string)>, ios: seq<Io>)
    requires |ios| == |sweep|
    ensures At(PushesPath(Place(w, Recovering(sweep)), ios), Recovering([]),
               AfterPushes(ViewOf(w), sweep, ios), w.clock, w.conf)
  {
    PushesRun(w, sweep, ios);
    assert sweep[..|sweep|] == sweep && sweep[|sweep|..] == [];
  }

  /** All of recoverStaleJobs: the query, then the loop. */
  lemma StaleRuns(w: World, order: seq<JobId>, query: Io, ios: seq<Io>)
    requires Selects(order, Stale(w.jobs, w.clock - 2 * w.conf.jobTimeout), SWEEP_LIMIT)
    requires |ios| == if query.Done? then |order| else 0
    ensures var q := ReapsPath(Then(Place(w, Idle), Reap(order, query)), ios);
            && q.a == (if query.Done? then Reaping([]) else Idle)
            && ViewOf(q.w) == AfterReaps(ViewOf(w), if query.Done? then CountsOf(w.jobs, order) else [], ios)
  {
    ThenReap(w, order, query);
    var p := Then(Place(w, Idle), Reap(order, query));
    if query.Done? { AllReapsRun(p.w, CountsOf(w.jobs, order), ios); }
  }

  lemma ThenReap(w: World, order: seq<JobId>, io: Io)
    requires Selects(order, Stale(w.jobs, w.clock - 2 * w.conf.jobTimeout), SWEEP_LIMIT)
    ensures At(Then(Place(w, Idle), Reap(order, io)), if io.Done? then Reaping(CountsOf(w.jobs, order)) else Idle,
               ViewOf(w), w.clock, w.conf)
  {
  }

  lemma AllReapsRun(w: World, stale: seq<(JobId, int)>, ios: seq<Io>)
    requires |ios| == |stale|
    ensures At(ReapsPath(Place(w, Reaping(stale)), ios), Reaping([]),
               AfterReaps(ViewOf(w), stale, ios), w.clock, w.conf)
  {
    ReapsRun(w, stale, ios);
    assert stale[..|stale|] == stale && stale[|stale|..] == [];
  }

  // ---------- API requests ----------

  /** The create handler. */
  lemma CreateRuns(w: World, id: JobId, queue: string, jobType: string, maxRetries: Option<int>, runAt: Option<int>,
                   f: RequestFate)
    requires id !in w.used && queue != "" && jobType != ""
    ensures var create := Create(id, queue, jobType, maxRetries, runAt, f.first);
            var row := NewRow(queue, jobType, maxRetries, runAt, w.clock);
            var q := Then(Then(Place(w, Idle), create), Enqueue(f.second));
            q.a == Idle && ViewOf(q.w) == AfterCreate(ViewOf(w), id, row, f)
  {
    var create := Create(id, queue, jobType, maxRetries, runAt, f.first);
    var row := NewRow(queue, jobType, maxRetries, runAt, w.clock);
    var p := Then(Place(w, Idle), create);
    assert At(p, if f.first.Done? then Creating(id, row) else Idle,
              if f.first.Effective() then ViewOf(w).(jobs := w.jobs[id := row], used := w.used + {id}) else ViewOf(w),
              w.clock, w.conf);
    if p.a.Idle? { ThenMisfit(p, Enqueue(f.second)); }
  }

  /** The retry handler. */
  lemma RetryRuns(w: World, id: JobId, f: RequestFate)
    ensures var q := Then(Then(Then(Place(w, Idle), RetryRead(id, f.first)), RetryReset(f.second)), RetryPush(f.third));
            q.a == Idle && ViewOf(q.w) == AfterRetry(ViewOf(w), id, f)
  {
    var p := Then(Place(w, Idle), RetryRead(id, f.first));
    assert ViewOf(p.w) == ViewOf(w);
    if p.a.Idle? {
      ThenMisfit(p, RetryReset(f.second));
      ThenMisfit(p, RetryPush(f.third));
    } else {
      assert p.a == RetryLoaded(id, w.jobs[id].queue);
      ThenRetry(p, f);
    }
  }

  lemma ThenRetry(p: Place, f: RequestFate)
    requires p.a.RetryLoaded?
    ensures var q := Then(Then(p, RetryReset(f.second)), RetryPush(f.third));
            var v := ViewOf(p.w).SetError(p.a.id, Pending, 0, f.second);
            q.a == Idle && ViewOf(q.w) == if f.second.Done? then v.PushId(p.a.queue, p.a.id, f.third) else v
  {
    var p1 := Then(p, RetryReset(f.second));
    assert At(p1, if f.second.Done? then RetryPending(p.a.id, p.a.queue) else Idle,
              ViewOf(p.w).SetError(p.a.id, Pending, 0, f.second), p.w.clock, p.w.conf);
    if p1.a.Idle? { ThenMisfit(p1, RetryPush(f.third)); }
  }

  /** The cancel handler. */
  lemma CancelRuns(w: World, id: JobId, f: RequestFate)
    ensures var q := Then(Then(Place(w, Idle), CancelRead(id, f.first)), CancelWrite(f.second));
            q.a == Idle && ViewOf(q.w) == AfterCancel(ViewOf(w), id, w.clock, f)
  {
    var p := Then(Place(w, Idle), CancelRead(id, f.first));
    assert ViewOf(p.w) == ViewOf(w) && p.w.clock == w.clock;
    if p.a.Idle? { ThenMisfit(p, CancelWrite(f.second)); }
  }

  /** The delete handler. */
  lemma DeleteRuns(w: World, id: JobId, io: Io)
    ensures var q := Then(Place(w, Idle), Delete(id, io));
            At(q, Idle, if io.Effective() then ViewOf(w).(jobs := DeleteDead(w.jobs, id)) else ViewOf(w),
               w.clock, w.conf)
  {
  }
}
