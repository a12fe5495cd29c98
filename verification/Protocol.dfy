/** The job-delivery protocol as a step machine. Workers, API requests, the due-job loop and the
    two recovery sweeps act on the jobs table, the queue lists and the sorted set without
    transactions: every store or queue call is one step, so what an actor remembers of a row can be
    out of date by the time it acts on it. Every call may fail, with or without its effect. */
module Protocol {
  import opened Jobs
  import opened Calls
  import opened Selection
  import opened Storage
  import opened Redis

  // ---------- the shared world ----------

  datatype Config = Config(handlers: set<string>, jobTimeout: int)

  // What happened so far; no step reads it.
  datatype Event =
    | Born(id: JobId)        // row inserted
    | Attempt(id: JobId)     // list push attempted, other than by the recovery sweep
    | Popped(id: JobId)      // taken from a list
    | Executed(id: JobId)    // handler started
    | Swept(id: JobId)       // push attempted by the recovery sweep
    | Revived(id: JobId)     // row reset by an API retry
    | Retried(id: JobId)     // handleFailure took the retry branch

  // The last run time asked of the sorted set; attempt is 0 for a job created with run_at.
  datatype Wish = Wish(runAt: int, failedAt: int, attempt: int)

  // How often each event happened.
  type Ledger = map<Event, nat>

  function Count(ledger: Ledger, e: Event): nat { if e in ledger then ledger[e] else 0 }

  datatype History = History(ledger: Ledger, waited: map<JobId, int>, wish: map<JobId, Wish>)

  function Waited(h: History, id: JobId): int {
    if id in h.waited then h.waited[id] else 0
  }

  datatype World = World(jobs: Table, used: set<JobId>, lists: Lists, sched: Scores, clock: int,
                         conf: Config, hist: History)

  // ---------- effects: at most one statement, at most one Redis command ----------

  datatype DbOp =
    | Keep
    | Insert(id: JobId, row: Row)
    | Mark(id: JobId, status: Status)                      // UpdateJobStatus
    | Write(id: JobId, status: Status, retryCount: int)    // UpdateJobError
    | Remove(id: JobId)                                    // DELETE ... AND status = 'dead'

  datatype RedisOp =
    | Leave
    | ListPush(queue: string, id: JobId)                   // LPUSH
    | ListPop(queue: string)                               // BRPOP
    | SetAdd(id: JobId, wish: Wish)                        // ZADD
    | SetTake                                              // the Lua script of GetDueJobs

  function ApplyDb(jobs: Table, op: DbOp, now: int): Table {
    match op
    case Keep => jobs
    case Insert(id, row) => jobs[id := row]
    case Mark(id, status) => UpdateStatus(jobs, id, status, now)
    case Write(id, status, retryCount) => UpdateError(jobs, id, status, retryCount)
    case Remove(id) => DeleteDead(jobs, id)
  }

  function ApplyLists(lists: Lists, op: RedisOp): Lists {
    match op
    case ListPush(q, id) => PushTo(lists, q, id)
    case ListPop(q) => if ListOf(lists, q) == [] then lists else DropTail(lists, q)
    case _ => lists
  }

  function ApplySched(sched: Scores, op: RedisOp, now: int): Scores {
    match op
    case SetAdd(id, wish) => sched[id := Unix(wish.runAt)]
    case SetTake => NotDue(sched, Unix(now))
    case _ => sched
  }

  function Book(ledger: Ledger, note: Option<Event>): Ledger {
    if note.Some? then ledger[note.value := Count(ledger, note.value) + 1] else ledger
  }

  function ApplyHistory(h: History, op: RedisOp, note: Option<Event>): History {
    var ledger := Book(h.ledger, note);
    match op
    case SetAdd(id, wish) =>
      History(ledger, h.waited[id := Waited(h, id) + if wish.attempt > 0 then wish.runAt - wish.failedAt else 0],
              h.wish[id := wish])
    case _ => h.(ledger := ledger)
  }

  datatype Effect = Effect(db: DbOp, redis: RedisOp, note: Option<Event>, next: Actor)

  function Apply(w: World, e: Effect): World {
    World(ApplyDb(w.jobs, e.db, w.clock),
          if e.db.Insert? then w.used + {e.db.id} else w.used,
          ApplyLists(w.lists, e.redis),
          ApplySched(w.sched, e.redis, w.clock),
          w.clock, w.conf,
          ApplyHistory(w.hist, e.redis, e.note))
  }

  // A refused call has no effect.
  function IfDb(io: Io, op: DbOp): DbOp { if io.Effective() then op else Keep }

  function IfRedis(io: Io, op: RedisOp): RedisOp { if io.Effective() then op else Leave }

  // ---------- actors ----------

  datatype Actor =
    | Idle
      // create request: row inserted, id not yet handed to Redis
    | Creating(id: JobId, row: Row)
      // worker
    | Taken(id: JobId)                                // popped
    | Loaded(id: JobId, snap: Row)                    // row read
    | Executing(id: JobId, snap: Row, since: int)     // running written, handler at work
    | BackingOff(id: JobId, attempt: int)             // retrying written, retry not yet scheduled
      // retry request
    | RetryLoaded(id: JobId, queue: string)           // row read as dead
    | RetryPending(id: JobId, queue: string)          // row reset, id not yet pushed
      // cancel request
    | CancelLoaded(id: JobId)
      // due-job loop
    | DueBatch(rest: seq<JobId>)
    | DueLoaded(id: JobId, snap: Row, rest: seq<JobId>)
    | DuePushed(id: JobId, snap: Row, rest: seq<JobId>)
      // sweeps
    | Recovering(sweep: seq<(JobId, string)>)
    | Reaping(stale: seq<(JobId, int)>)

  datatype Action =
    | Create(newId: JobId, queue: string, jobType: string, maxRetries: Option<int>, runAt: Option<int>, io: Io)
    | Enqueue(io: Io)
    | Pop(queues: seq<string>, io: Io)
    | Load(io: Io)
    | Begin(io: Io)
    | Complete(io: Io)                      // the handler returned nil
    | Fail(io: Io)                          // the handler returned an error
    | BackOff(io: Io, platform: int)
    | RetryRead(job: JobId, io: Io)
    | RetryReset(io: Io)
    | RetryPush(io: Io)
    | CancelRead(job: JobId, io: Io)
    | CancelWrite(io: Io)
    | Delete(job: JobId, io: Io)
    | DueFetch(order: seq<JobId>, io: Io)
    | DueLoad(io: Io)
    | DuePush(io: Io)
    | DueMark(io: Io)
    | Recover(order: seq<JobId>, io: Io)
    | RecoverPush(io: Io)
    | Reap(order: seq<JobId>, io: Io)
    | ReapWrite(io: Io)
    | Crash
    | Tick(dt: nat)

  function DelayOf(attempt: int, platform: int): int { Backoff(if attempt < 0 then 0 else attempt, platform) }

  const RECOVERY_AGE: int := 5 * SECOND

  // The rows a sweep query returned, reduced to the columns the loop uses.
  function QueuesOf(jobs: Table, ids: seq<JobId>): (r: seq<(JobId, string)>)
    requires forall i :: 0 <= i < |ids| ==> ids[i] in jobs
    ensures |r| == |ids| && forall i :: 0 <= i < |r| ==> r[i] == (ids[i], jobs[ids[i]].queue)
  {
    seq(|ids|, i requires 0 <= i < |ids| => (ids[i], jobs[ids[i]].queue))
  }

  function CountsOf(jobs: Table, ids: seq<JobId>): (r: seq<(JobId, int)>)
    requires forall i :: 0 <= i < |ids| ==> ids[i] in jobs
    ensures |r| == |ids| && forall i :: 0 <= i < |r| ==> r[i] == (ids[i], jobs[ids[i]].retryCount)
  {
    seq(|ids|, i requires 0 <= i < |ids| => (ids[i], jobs[ids[i]].retryCount))
  }

  // Who takes the action.
  predicate ByWorker(act: Action) {
    act.Pop? || act.Load? || act.Begin? || act.Complete? || act.Fail? || act.BackOff?
  }

  predicate ByRequest(act: Action) {
    act.Create? || act.Enqueue? || act.RetryRead? || act.RetryReset? || act.RetryPush?
    || act.CancelRead? || act.CancelWrite? || act.Delete?
  }

  predicate ByDueLoop(act: Action) { act.DueFetch? || act.DueLoad? || act.DuePush? || act.DueMark? }

  predicate BySweep(act: Action) {
    act.Recover? || act.RecoverPush? || act.Reap? || act.ReapWrite? || act.Crash? || act.Tick?
  }

  // Where an actor must stand for an action to be its next one.
  predicate Fits(a: Actor, act: Action) {
    match act
    case Create(_, queue, jobType, _, _, _) => a.Idle? && queue != "" && jobType != ""
    case Enqueue(_) => a.Creating?
    case Pop(_, _) => a.Idle?
    case Load(_) => a.Taken?
    case Begin(_) => a.Loaded?
    case Complete(_) => a.Executing?
    case Fail(_) => a.Executing?
    case BackOff(_, _) => a.BackingOff?
    case RetryRead(_, _) => a.Idle?
    case RetryReset(_) => a.RetryLoaded?
    case RetryPush(_) => a.RetryPending?
    case CancelRead(_, _) => a.Idle?
    case CancelWrite(_) => a.CancelLoaded?
    case Delete(_, _) => a.Idle?
    case DueFetch(_, _) => a.Idle?
    case DueLoad(_) => a.DueBatch?
    case DuePush(_) => a.DueLoaded?
    case DueMark(_) => a.DuePushed?
    case Recover(_, _) => a.Idle?
    case RecoverPush(_) => a.Recovering?
    case Reap(_, _) => a.Idle?
    case ReapWrite(_) => a.Reaping?
    case Crash => true
    case Tick(_) => true
  }

  // What the actor finds in the world: the id drawn is new, the rows returned are those selected.
  ghost predicate Finds(w: World, act: Action) {
    match act
    case Create(id, _, _, _, _, _) => id !in w.used
    case DueFetch(order, _) => var due := Due(w.sched, Unix(w.clock)); Selects(order, due, |due|)
    case Recover(order, _) => Selects(order, Unqueued(w.jobs, w.clock - RECOVERY_AGE), SWEEP_LIMIT)
    case Reap(order, _) => Selects(order, Stale(w.jobs, w.clock - 2 * w.conf.jobTimeout), SWEEP_LIMIT)
    case _ => true
  }

  ghost predicate Enabled(w: World, a: Actor, act: Action) { Fits(a, act) && Finds(w, act) }

  /** One step of one actor. An action that does not fit where the actor stands, or the world it
      finds, changes nothing. */
  ghost function Act(w: World, a: Actor, act: Action): (World, Actor) {
    if !Enabled(w, a, act) then (w, a) else
      var e := EffectOf(w, a, act);
      var w1 := Apply(w, e);
      (if act.Tick? then w1.(clock := w.clock + act.dt) else w1, e.next)
  }

  function Write1(op: DbOp, next: Actor): Effect { Effect(op, Leave, None, next) }

  function Command(op: RedisOp, next: Actor): Effect { Effect(Keep, op, None, next) }

  // LPUSH; the attempt counts even when the call fails.
  function PushCall(q: string, id: JobId, io: Io, note: Event, next: Actor): Effect {
    Effect(Keep, IfRedis(io, ListPush(q, id)), Some(note), next)
  }

  // Pool.worker, processJob and handleFailure.
  function WorkerEffect(w: World, a: Actor, act: Action): Effect
    requires ByWorker(act) && Fits(a, act)
  {
    match act
    case Pop(queues, io) =>
      var q := FirstNonEmpty(w.lists, queues);
      if io.Refused? || q.None? then Command(Leave, Idle) else
        var id := Tail(w.lists, q.value);
        Effect(Keep, ListPop(q.value), Some(Popped(id)), if io.Done? then Taken(id) else Idle)
    case Load(io) => Write1(Keep, if io.Done? && a.id in w.jobs then Loaded(a.id, w.jobs[a.id]) else Idle)
    case Begin(io) =>
      if a.snap.jobType !in w.conf.handlers then Write1(IfDb(io, Write(a.id, Failed, a.snap.retryCount)), Idle)
      else if io.Done? then Effect(Mark(a.id, Running), Leave, Some(Executed(a.id)), Executing(a.id, a.snap, w.clock))
      else Write1(IfDb(io, Mark(a.id, Running)), Idle)
    case Complete(io) => Write1(IfDb(io, Mark(a.id, Completed)), Idle)
    case Fail(io) =>
      // handleFailure decides on the snapshot and ignores the error of its own write.
      var n := a.snap.retryCount + 1;
      if n >= a.snap.maxRetries then Write1(IfDb(io, Write(a.id, Dead, n)), Idle)
      else Effect(IfDb(io, Write(a.id, Retrying, n)), Leave, Some(Retried(a.id)), BackingOff(a.id, n))
    case BackOff(io, platform) =>
      Command(IfRedis(io, SetAdd(a.id, Wish(w.clock + DelayOf(a.attempt, platform), w.clock, a.attempt))), Idle)
  }

  // The create, retry, cancel and delete handlers.
  function RequestEffect(w: World, a: Actor, act: Action): Effect
    requires ByRequest(act) && Fits(a, act)
  {
    match act
    case Create(id, queue, jobType, maxRetries, runAt, io) =>
      // INSERT; the database draws an id it never drew before.
      var row := NewRow(queue, jobType, maxRetries, runAt, w.clock);
      if io.Refused? then Write1(Keep, Idle)
      else Effect(Insert(id, row), Leave, Some(Born(id)), if io.Done? then Creating(id, row) else Idle)
    case Enqueue(io) =>
      if a.row.runAt.Some? then Command(IfRedis(io, SetAdd(a.id, Wish(a.row.runAt.value, w.clock, 0))), Idle)
      else PushCall(a.row.queue, a.id, io, Attempt(a.id), Idle)
    case RetryRead(id, io) =>
      Write1(Keep, if io.Done? && id in w.jobs && w.jobs[id].status == Dead
                   then RetryLoaded(id, w.jobs[id].queue) else Idle)
    case RetryReset(io) =>
      if io.Refused? then Write1(Keep, Idle)
      else Effect(Write(a.id, Pending, 0), Leave, Some(Revived(a.id)),
                  if io.Done? then RetryPending(a.id, a.queue) else Idle)
    case RetryPush(io) => PushCall(a.queue, a.id, io, Attempt(a.id), Idle)
    case CancelRead(id, io) =>
      Write1(Keep, if io.Done? && id in w.jobs && CanTransitionTo(w.jobs[id].status, Cancelled)
                   then CancelLoaded(id) else Idle)
    case CancelWrite(io) => Write1(IfDb(io, Mark(a.id, Cancelled)), Idle)
    case Delete(id, io) => Write1(IfDb(io, Remove(id)), Idle)
  }

  // processScheduledJobs.
  function DueLoopEffect(w: World, a: Actor, act: Action): Effect
    requires ByDueLoop(act) && Fits(a, act)
  {
    match act
    case DueFetch(order, io) => Command(IfRedis(io, SetTake), if io.Done? then DueBatch(order) else Idle)
    case DueLoad(io) =>
      Write1(Keep, if a.rest == [] then Idle
                   else if io.Done? && a.rest[0] in w.jobs then DueLoaded(a.rest[0], w.jobs[a.rest[0]], a.rest[1..])
                   else DueBatch(a.rest[1..]))
    case DuePush(io) =>
      PushCall(a.snap.queue, a.id, io, Attempt(a.id),
               if io.Done? then DuePushed(a.id, a.snap, a.rest) else DueBatch(a.rest))
    case DueMark(io) =>
      Write1(if a.snap.status == Retrying then IfDb(io, Mark(a.id, Pending)) else Keep, DueBatch(a.rest))
  }

  // recoverUnqueuedJobs, recoverStaleJobs; crashes and the clock.
  ghost function SweepEffect(w: World, a: Actor, act: Action): Effect
    requires BySweep(act) && Enabled(w, a, act)
  {
    match act
    case Recover(order, io) => Write1(Keep, if io.Done? then Recovering(QueuesOf(w.jobs, order)) else Idle)
    case RecoverPush(io) =>
      if a.sweep == [] then Command(Leave, Idle)
      else PushCall(a.sweep[0].1, a.sweep[0].0, io, Swept(a.sweep[0].0), Recovering(a.sweep[1..]))
    case Reap(order, io) => Write1(Keep, if io.Done? then Reaping(CountsOf(w.jobs, order)) else Idle)
    case ReapWrite(io) =>
      if a.stale == [] then Write1(Keep, Idle)
      else Write1(IfDb(io, Write(a.stale[0].0, Failed, a.stale[0].1)), Reaping(a.stale[1..]))
    case Crash => Write1(Keep, Idle)
    case Tick(_) => Write1(Keep, a)
  }

  ghost function EffectOf(w: World, a: Actor, act: Action): Effect
    requires Enabled(w, a, act)
  {
    if ByWorker(act) then WorkerEffect(w, a, act)
    else if ByRequest(act) then RequestEffect(w, a, act)
    else if ByDueLoop(act) then DueLoopEffect(w, a, act)
    else SweepEffect(w, a, act)
  }

  // ---------- runs ----------

  // Any fixed number of slots, each free to play any part when idle.
  datatype State = State(world: World, actors: seq<Actor>)

  datatype Turn = Turn(who: nat, act: Action)

  ghost function Step(s: State, t: Turn): (s': State)
    ensures |s'.actors| == |s.actors|
  {
    if t.who >= |s.actors| then s else
      var (w, a) := Act(s.world, s.actors[t.who], t.act);
      State(w, s.actors[t.who := a])
  }

  lemma StepIs(s: State, t: Turn)
    requires t.who < |s.actors| && Enabled(s.world, s.actors[t.who], t.act)
    ensures var e := EffectOf(s.world, s.actors[t.who], t.act);
            && Step(s, t).actors == s.actors[t.who := e.next]
            && Step(s, t).world == Apply(s.world, e).(clock := Step(s, t).world.clock)
  {
  }

  ghost function Exec(s: State, run: seq<Turn>): (s': State)
    ensures |s'.actors| == |s.actors|
  {
    if run == [] then s else Step(Exec(s, run[..|run| - 1]), run[|run| - 1])
  }

  function Start(slots: nat, conf: Config, clock: int): State {
    State(World(map[], {}, map[], map[], clock, conf, History(map[], map[], map[])), seq(slots, _ => Idle))
  }

  // The state after the first k turns.
  ghost function After(s: State, run: seq<Turn>, k: nat): State
    requires k <= |run|
  {
    Exec(s, run[..k])
  }

  lemma AfterNext(s: State, run: seq<Turn>, k: nat)
    requires k < |run|
    ensures After(s, run, k + 1) == Step(After(s, run, k), run[k])
  {
    assert run[..k + 1][..k] == run[..k];
  }
}
