/** Every process of the source as a run of the whole system: the turns one idle slot takes, and what
    they leave when nobody else moves in between. */
module SlotRuns {
  import opened Jobs
  import opened Calls
  import opened Selection
  import opened Storage
  import opened Redis
  import opened Protocol
  import opened Processes
  import opened ProcessRuns

  // ---------- one slot ----------

  function Turns(who: nat, acts: seq<Action>): (run: seq<Turn>)
    ensures |run| == |acts| && forall k :: 0 <= k < |run| ==> run[k] == Turn(who, acts[k])
  {
    seq(|acts|, k requires 0 <= k < |acts| => Turn(who, acts[k]))
  }

  ghost function Thens(p: Place, acts: seq<Action>): Place {
    if acts == [] then p else Then(Thens(p, acts[..|acts| - 1]), acts[|acts| - 1])
  }

  lemma ThensSnoc(p: Place, acts: seq<Action>, act: Action)
    ensures Thens(p, acts + [act]) == Then(Thens(p, acts), act)
  {
    assert (acts + [act])[..|acts|] == acts;
  }

  lemma {:induction false} ThensConcat(p: Place, first: seq<Action>, second: seq<Action>)
    ensures Thens(p, first + second) == Thens(Thens(p, first), second)
    decreases |second|
  {
    if second == [] {
      assert first + second == first;
    } else {
      var front, last := second[..|second| - 1], second[|second| - 1];
      ThensConcat(p, first, front);
      ThensSnoc(p, first + front, last);
      assert first + second == (first + front) + [last];
    }
  }

  lemma ThensOne(p: Place, act: Action)
    ensures Thens(p, [act]) == Then(p, act)
  {
    ThensSnoc(p, [], act);
    assert [] + [act] == [act];
  }

  lemma ThensTwo(p: Place, a: Action, b: Action)
    ensures Thens(p, [a, b]) == Then(Then(p, a), b)
  {
    ThensOne(p, a);
    ThensSnoc(p, [a], b);
    assert [a] + [b] == [a, b];
  }

  lemma ThensThree(p: Place, a: Action, b: Action, c: Action)
    ensures Thens(p, [a, b, c]) == Then(Then(Then(p, a), b), c)
  {
    ThensTwo(p, a, b);
    ThensSnoc(p, [a, b], c);
    assert [a, b] + [c] == [a, b, c];
  }

  /** The turns of one slot do to the system what its steps do to the world and the slot. */
  lemma {:induction false} SlotRun(s: State, who: nat, acts: seq<Action>)
    requires who < |s.actors|
    ensures var p := Thens(Place(s.world, s.actors[who]), acts);
            Exec(s, Turns(who, acts)) == State(p.w, s.actors[who := p.a]) && p.w.conf == s.world.conf
  {
    if acts == [] {
      assert s.actors[who := s.actors[who]] == s.actors;
    } else {
      var front, last := acts[..|acts| - 1], acts[|acts| - 1];
      SlotRun(s, who, front);
      assert Turns(who, acts)[..|acts| - 1] == Turns(who, front);
      SlotStep(s, Exec(s, Turns(who, front)), who, Thens(Place(s.world, s.actors[who]), front), last);
    }
  }

  lemma SlotStep(s: State, s1: State, who: nat, p: Place, act: Action)
    requires who < |s.actors| && s1 == State(p.w, s.actors[who := p.a])
    ensures Step(s1, Turn(who, act)) == State(Then(p, act).w, s.actors[who := Then(p, act).a])
    ensures Then(p, act).w.conf == p.w.conf
  {
    assert s.actors[who := p.a][who := Then(p, act).a] == s.actors[who := Then(p, act).a];
  }

  // The slot's turns leave every actor as it was and the stores as the process leaves them.
  ghost predicate Leaves(s: State, who: nat, acts: seq<Action>, v: View) {
    var s' := Exec(s, Turns(who, acts));
    s'.actors == s.actors && ViewOf(s'.world) == v && s'.world.conf == s.world.conf
  }

  lemma PathLeaves(s: State, who: nat, acts: seq<Action>, v: View)
    requires who < |s.actors| && s.actors[who] == Idle
    requires var p := Thens(Place(s.world, Idle), acts); p.a == Idle && ViewOf(p.w) == v
    ensures Leaves(s, who, acts, v)
  {
    SlotRun(s, who, acts);
    assert s.actors[who := Idle] == s.actors;
  }

  // Slot 0 lets time pass.
  lemma PassTime(s: State, dt: nat) returns (run: seq<Turn>)
    requires |s.actors| > 0 && s.actors[0] == Idle
    ensures run == Turns(0, [Tick(dt)])
    ensures Exec(s, run).actors == s.actors && ViewOf(Exec(s, run).world) == ViewOf(s.world)
    ensures Exec(s, run).world.clock == s.world.clock + dt && Exec(s, run).world.conf == s.world.conf
  {
    ThenTick(Place(s.world, Idle), dt);
    ThensOne(Place(s.world, Idle), Tick(dt));
    PathLeaves(s, 0, [Tick(dt)], ViewOf(s.world));
    SlotRun(s, 0, [Tick(dt)]);
    run := Turns(0, [Tick(dt)]);
  }

  // ---------- Pool.worker ----------

  function LastActs(f: JobFate): seq<Action> {
    if f.failed then [Fail(f.verdict), BackOff(f.schedule, f.platform)] else [Complete(f.verdict)]
  }

  function WorkActs(queues: seq<string>, pop: Io, f: JobFate): seq<Action> {
    [Pop(queues, pop)] + [Load(f.load), Begin(f.begin), Tick(f.took)] + LastActs(f)
  }

  lemma WorkPath(p: Place, queues: seq<string>, pop: Io, f: JobFate)
    ensures Thens(p, WorkActs(queues, pop, f)) == JobPath(Then(p, Pop(queues, pop)), f)
  {
    var middle := [Load(f.load), Begin(f.begin), Tick(f.took)];
    ThensConcat(p, [Pop(queues, pop)] + middle, LastActs(f));
    ThensConcat(p, [Pop(queues, pop)], middle);
    ThensOne(p, Pop(queues, pop));
    var p1 := Then(p, Pop(queues, pop));
    ThensThree(p1, Load(f.load), Begin(f.begin), Tick(f.took));
    LastPath(Thens(p1, middle), f);
  }

  lemma LastPath(p: Place, f: JobFate)
    ensures Thens(p, LastActs(f)) == if f.failed then FailurePath(p, f) else Then(p, Complete(f.verdict))
  {
    if f.failed {
      ThensTwo(p, Fail(f.verdict), BackOff(f.schedule, f.platform));
    } else {
      ThensOne(p, Complete(f.verdict));
    }
  }

  /** One turn of the worker loop. */
  lemma WorkTurns(s: State, who: nat, queues: seq<string>, pop: Io, f: JobFate)
    requires who < |s.actors| && s.actors[who] == Idle
    requires forall id :: id in s.world.jobs ==> s.world.jobs[id].retryCount >= 0
    ensures Leaves(s, who, WorkActs(queues, pop, f),
                   AfterWork(ViewOf(s.world), queues, s.world.conf.handlers, s.world.clock, pop, f))
  {
    WorkRuns(s.world, queues, pop, f);
    WorkPath(Place(s.world, Idle), queues, pop, f);
    PathLeaves(s, who, WorkActs(queues, pop, f),
               AfterWork(ViewOf(s.world), queues, s.world.conf.handlers, s.world.clock, pop, f));
  }

  // ---------- the scheduler ----------

  function DueActs(fates: seq<DueFate>): seq<Action> {
    if fates == [] then [] else
      var f := fates[|fates| - 1];
      DueActs(fates[..|fates| - 1]) + [DueLoad(f.load), DuePush(f.push), DueMark(f.mark)]
  }

  lemma {:induction false} DueActsPath(p: Place, fates: seq<DueFate>)
    ensures Thens(p, DueActs(fates)) == DuesPath(p, fates)
  {
    if fates == [] {
    } else {
      var front, f := fates[..|fates| - 1], fates[|fates| - 1];
      DueActsPath(p, front);
      ThensConcat(p, DueActs(front), [DueLoad(f.load), DuePush(f.push), DueMark(f.mark)]);
      ThensThree(DuesPath(p, front), DueLoad(f.load), DuePush(f.push), DueMark(f.mark));
    }
  }

  // The query, the loop, and the look that finds nothing left.
  function SweepActs(query: Action, loop: seq<Action>, end: Action): seq<Action> { [query] + loop + [end] }

  lemma SweepPath(p: Place, query: Action, loop: seq<Action>, end: Action)
    ensures Thens(p, SweepActs(query, loop, end)) == Then(Thens(Then(p, query), loop), end)
  {
    ThensSnoc(p, [query] + loop, end);
    ThensConcat(p, [query], loop);
    ThensOne(p, query);
  }

  // Having nothing left, the actor goes idle; having failed its query, it already is.
  lemma EndOfLoop(p: Place)
    ensures p.a == Idle || p.a == DueBatch([]) ==>
              At(Then(p, DueLoad(Done)), Idle, ViewOf(p.w), p.w.clock, p.w.conf)
    ensures p.a == Idle || p.a == Recovering([]) ==>
              At(Then(p, RecoverPush(Done)), Idle, ViewOf(p.w), p.w.clock, p.w.conf)
    ensures p.a == Idle || p.a == Reaping([]) ==>
              At(Then(p, ReapWrite(Done)), Idle, ViewOf(p.w), p.w.clock, p.w.conf)
  {
  }

  function ScheduledActs(order: seq<JobId>, fetch: Io, fates: seq<DueFate>): seq<Action> {
    SweepActs(DueFetch(order, fetch), DueActs(fates), DueLoad(Done))
  }

  /** processScheduledJobs. */
  lemma ScheduledTurns(s: State, who: nat, order: seq<JobId>, fetch: Io, fates: seq<DueFate>)
    requires who < |s.actors| && s.actors[who] == Idle
    requires var due := Due(s.world.sched, Unix(s.world.clock)); Selects(order, due, |due|)
    requires |fates| == if fetch.Done? then |order| else 0
    ensures var v := ViewOf(s.world);
            var v1 := if fetch.Effective() then v.(sched := NotDue(v.sched, Unix(s.world.clock))) else v;
            Leaves(s, who, ScheduledActs(order, fetch, fates),
                   AfterDues(v1, if fetch.Done? then order else [], s.world.clock, fates))
  {
    var p := Place(s.world, Idle);
    ScheduledRuns(s.world, order, fetch, fates);
    SweepPath(p, DueFetch(order, fetch), DueActs(fates), DueLoad(Done));
    DueActsPath(Then(p, DueFetch(order, fetch)), fates);
    var q := DuesPath(Then(p, DueFetch(order, fetch)), fates);
    EndOfLoop(q);
    PathLeaves(s, who, ScheduledActs(order, fetch, fates), ViewOf(q.w));
  }

  function PushActs(ios: seq<Io>): (acts: seq<Action>)
    ensures |acts| == |ios| && forall k :: 0 <= k < |ios| ==> acts[k] == RecoverPush(ios[k])
  {
    seq(|ios|, k requires 0 <= k < |ios| => RecoverPush(ios[k]))
  }

  function ReapActs(ios: seq<Io>): (acts: seq<Action>)
    ensures |acts| == |ios| && forall k :: 0 <= k < |ios| ==> acts[k] == ReapWrite(ios[k])
  {
    seq(|ios|, k requires 0 <= k < |ios| => ReapWrite(ios[k]))
  }

  lemma {:induction false} PushActsPath(p: Place, ios: seq<Io>)
    ensures Thens(p, PushActs(ios)) == PushesPath(p, ios)
  {
    if ios == [] {
    } else {
      PushActsPath(p, ios[..|ios| - 1]);
      assert PushActs(ios)[..|ios| - 1] == PushActs(ios[..|ios| - 1]);
    }
  }

  lemma {:induction false} ReapActsPath(p: Place, ios: seq<Io>)
    ensures Thens(p, ReapActs(ios)) == ReapsPath(p, ios)
  {
    if ios == [] {
    } else {
      ReapActsPath(p, ios[..|ios| - 1]);
      assert ReapActs(ios)[..|ios| - 1] == ReapActs(ios[..|ios| - 1]);
    }
  }

  function RecoverActs(order: seq<JobId>, query: Io, ios: seq<Io>): seq<Action> {
    SweepActs(Recover(order, query), PushActs(ios), RecoverPush(Done))
  }

  /** recoverUnqueuedJobs. */
  lemma RecoverTurns(s: State, who: nat, order: seq<JobId>, query: Io, ios: seq<Io>)
    requires who < |s.actors| && s.actors[who] == Idle
    requires Selects(order, Unqueued(s.world.jobs, s.world.clock - RECOVERY_AGE), SWEEP_LIMIT)
    requires |ios| == if query.Done? then |order| else 0
    ensures Leaves(s, who, RecoverActs(order, query, ios),
                   AfterPushes(ViewOf(s.world), if query.Done? then QueuesOf(s.world.jobs, order) else [], ios))
  {
    var p := Place(s.world, Idle);
    RecoverRuns(s.world, order, query, ios);
    SweepPath(p, Recover(order, query), PushActs(ios), RecoverPush(Done));
    PushActsPath(Then(p, Recover(order, query)), ios);
    var q := PushesPath(Then(p, Recover(order, query)), ios);
    EndOfLoop(q);
    PathLeaves(s, who, RecoverActs(order, query, ios), ViewOf(q.w));
  }

  function StaleActs(order: seq<JobId>, query: Io, ios: seq<Io>): seq<Action> {
    SweepActs(Reap(order, query), ReapActs(ios), ReapWrite(Done))
  }

  /** recoverStaleJobs. */
  lemma StaleTurns(s: State, who: nat, order: seq<JobId>, query: Io, ios: seq<Io>)
    requires who < |s.actors| && s.actors[who] == Idle
    requires Selects(order, Stale(s.world.jobs, s.world.clock - 2 * s.world.conf.jobTimeout), SWEEP_LIMIT)
    requires |ios| == if query.Done? then |order| else 0
    ensures Leaves(s, who, StaleActs(order, query, ios),
                   AfterReaps(ViewOf(s.world), if query.Done? then CountsOf(s.world.jobs, order) else [], ios))
  {
    var p := Place(s.world, Idle);
    StaleRuns(s.world, order, query, ios);
    SweepPath(p, Reap(order, query), ReapActs(ios), ReapWrite(Done));
    ReapActsPath(Then(p, Reap(order, query)), ios);
    var q := ReapsPath(Then(p, Reap(order, query)), ios);
    EndOfLoop(q);
    PathLeaves(s, who, StaleActs(order, query, ios), ViewOf(q.w));
  }

  // ---------- API requests ----------

  /** The create handler. */
  lemma CreateTurns(s: State, who: nat, id: JobId, queue: string, jobType: string, maxRetries: Option<int>,
                    runAt: Option<int>, f: RequestFate)
    requires who < |s.actors| && s.actors[who] == Idle
    requires id !in s.world.used && queue != "" && jobType != ""
    ensures Leaves(s, who, [Create(id, queue, jobType, maxRetries, runAt, f.first), Enqueue(f.second)],
                   AfterCreate(ViewOf(s.world), id, NewRow(queue, jobType, maxRetries, runAt, s.world.clock), f))
  {
    var create := Create(id, queue, jobType, maxRetries, runAt, f.first);
    CreateRuns(s.world, id, queue, jobType, maxRetries, runAt, f);
    ThensTwo(Place(s.world, Idle), create, Enqueue(f.second));
    PathLeaves(s, who, [create, Enqueue(f.second)],
               AfterCreate(ViewOf(s.world), id, NewRow(queue, jobType, maxRetries, runAt, s.world.clock), f));
  }

  /** The retry handler. */
  lemma RetryTurns(s: State, who: nat, id: JobId, f: RequestFate)
    requires who < |s.actors| && s.actors[who] == Idle
    ensures Leaves(s, who, [RetryRead(id, f.first), RetryReset(f.second), RetryPush(f.third)],
                   AfterRetry(ViewOf(s.world), id, f))
  {
    RetryRuns(s.world, id, f);
    ThensThree(Place(s.world, Idle), RetryRead(id, f.first), RetryReset(f.second), RetryPush(f.third));
    PathLeaves(s, who, [RetryRead(id, f.first), RetryReset(f.second), RetryPush(f.third)],
               AfterRetry(ViewOf(s.world), id, f));
  }

  /** The cancel handler. */
  lemma CancelTurns(s: State, who: nat, id: JobId, f: RequestFate)
    requires who < |s.actors| && s.actors[who] == Idle
    ensures Leaves(s, who, [CancelRead(id, f.first), CancelWrite(f.second)],
                   AfterCancel(ViewOf(s.world), id, s.world.clock, f))
  {
    CancelRuns(s.world, id, f);
    ThensTwo(Place(s.world, Idle), CancelRead(id, f.first), CancelWrite(f.second));
    PathLeaves(s, who, [CancelRead(id, f.first), CancelWrite(f.second)],
               AfterCancel(ViewOf(s.world), id, s.world.clock, f));
  }

  /** The delete handler. */
  lemma DeleteTurns(s: State, who: nat, id: JobId, io: Io)
    requires who < |s.actors| && s.actors[who] == Idle
    ensures var v := ViewOf(s.world);
            Leaves(s, who, [Delete(id, io)], if io.Effective() then v.(jobs := DeleteDead(v.jobs, id)) else v)
  {
    DeleteRuns(s.world, id, io);
    ThensOne(Place(s.world, Idle), Delete(id, io));
    PathLeaves(s, who, [Delete(id, io)], ViewOf(Then(Place(s.world, Idle), Delete(id, io)).w));
  }
}
