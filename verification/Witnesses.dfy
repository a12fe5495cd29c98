/** Concrete failure-free runs: the three ways in which the conditions of the single-holder and
    no-lost-job theorems are violated do happen, and what they lead to. */
module Witnesses {
  import opened Jobs
  import opened Calls
  import opened Selection
  import opened Storage
  import opened Redis
  import opened Protocol
  import opened Tokens
  import opened Soundness
  import opened SingleHolder
  import opened NoLostJob
  import opened Processes
  import opened ProcessRuns
  import opened SlotRuns
  import opened Runs
  import opened Death
  import opened Quiescence
  import opened StaleSweep

  // What the system looks like, apart from the clock and its history.
  ghost predicate Looks(s: State, actors: seq<Actor>, v: View) {
    s.actors == actors && ViewOf(s.world) == v && s.world.conf == CONF
  }

  // ---------- a job submitted to a fresh system ----------

  function FirstRow(max: int): Row { NewRow("q", "t", Some(max), None, 0) }

  ghost predicate Submitted(s: State, max: int) {
    Looks(s, [Idle, Idle], View(map[0 := FirstRow(max)], {0}, map["q" := [0]], map[]))
  }

  lemma Submit(s: State, max: int) returns (run: seq<Turn>)
    requires s == Start(2, CONF, 0)
    ensures Clean(run) && Submitted(Exec(s, run), max)
  {
    var f := RequestFate(Done, Done, Done);
    CreateTurns(s, 0, 0, "q", "t", Some(max), None, f);
    assert AfterCreate(ViewOf(s.world), 0, FirstRow(max), f).lists == map["q" := [0]] by {
      assert [0] + ListOf(map[], "q") == [0];
    }
    assert s.actors == [Idle, Idle];
    run := Turns(0, [Create(0, "q", "t", Some(max), None, Done), Enqueue(Done)]);
  }

  // ---------- the recovery sweep ----------

  ghost predicate Sweeping(s: State, max: int) {
    Looks(s, [Recovering([(0, "q")]), Idle], View(map[0 := FirstRow(max)], {0}, map["q" := [0]], map[]))
  }

  // A row as the first create request left it, but for its progress.
  predicate Ours(row: Row) { row.queue == "q" && row.jobType == "t" && row.runAt.None? && row.createdAt == 0 }

  ghost predicate OneRow(jobs: Table, status: Status) {
    jobs.Keys == {0} && Ours(jobs[0]) && jobs[0].status == status && jobs[0].retryCount >= 0
  }

  lemma SelectsIt(jobs: Table, now: int)
    requires OneRow(jobs, Pending) && now >= 6 * SECOND
    ensures Selects([0], Unqueued(jobs, now - RECOVERY_AGE), SWEEP_LIMIT) && QueuesOf(jobs, [0]) == [(0, "q")]
  {
    assert Unqueued(jobs, now - RECOVERY_AGE) == map[0 := 0];
  }

  lemma WaitAndSweep(s: State, max: int) returns (run: seq<Turn>)
    requires Submitted(s, max) && s.world.clock >= 0
    ensures Clean(run) && Sweeping(Exec(s, run), max)
  {
    var p := Place(s.world, Idle);
    TickThenSweep(p);
    SlotRun(s, 0, [Tick(6 * SECOND), Recover([0], Done)]);
    assert [Idle, Idle][0 := Recovering([(0, "q")])] == [Recovering([(0, "q")]), Idle];
    run := Turns(0, [Tick(6 * SECOND), Recover([0], Done)]);
  }

  lemma TickThenSweep(p: Place)
    requires p.a == Idle && OneRow(p.w.jobs, Pending) && p.w.clock >= 0
    ensures var q := Thens(p, [Tick(6 * SECOND), Recover([0], Done)]);
            q.a == Recovering([(0, "q")]) && ViewOf(q.w) == ViewOf(p.w)
  {
    ThenTick(p, 6 * SECOND);
    var w := Then(p, Tick(6 * SECOND)).w;
    SelectsIt(w.jobs, w.clock);
    ThenRecover(w, [0], Done);
    ThensTwo(p, Tick(6 * SECOND), Recover([0], Done));
  }

  lemma SecondPush(s: State, max: int)
    requires Sweeping(s, max)
    ensures Collides(s, Turn(0, RecoverPush(Done)))
  {
    InListsDrop(s.world.lists, "q", 0);
  }

  // The id is in the list twice and both slots are idle.
  ghost predicate Twice(s: State, max: int) {
    Looks(s, [Idle, Idle], View(map[0 := FirstRow(max)], {0}, map["q" := [0, 0]], map[]))
  }

  lemma PushTwice(s: State, max: int) returns (run: seq<Turn>)
    requires Sweeping(s, max)
    ensures Clean(run) && |run| > 0 && run[0] == Turn(0, RecoverPush(Done)) && Twice(Exec(s, run), max)
  {
    run := Turns(0, [RecoverPush(Done), RecoverPush(Done)]);
    var p := Place(s.world, Recovering([(0, "q")]));
    ThenRecoverPush(p, Done);
    EndOfLoop(Then(p, RecoverPush(Done)));
    ThensTwo(p, RecoverPush(Done), RecoverPush(Done));
    SlotRun(s, 0, [RecoverPush(Done), RecoverPush(Done)]);
    assert [0] + [0] == [0, 0];
    assert PushTo(s.world.lists, "q", 0) == map["q" := [0, 0]];
    assert [Recovering([(0, "q")]), Idle][0 := Idle] == [Idle, Idle];
  }

  // A worker pops the id and starts its handler.
  lemma TakeUp(s: State, i: nat, j: JobId, q: string)
    requires i < |s.actors| && s.actors[i] == Idle && ListOf(s.world.lists, q) != [] && Tail(s.world.lists, q) == j
    requires j in s.world.jobs && s.world.jobs[j].jobType in s.world.conf.handlers
    ensures var s' := Exec(s, Turns(i, [Pop([q], Done), Load(Done), Begin(Done)]));
            && s'.actors == s.actors[i := Executing(j, s.world.jobs[j], s.world.clock)]
            && ViewOf(s'.world) == ViewOf(s.world).(lists := DropTail(s.world.lists, q))
                                                   .SetStatus(j, Running, s.world.clock, Done)
            && s'.world.conf == s.world.conf && s'.world.clock == s.world.clock
  {
    var p := Place(s.world, Idle);
    assert FirstNonEmpty(s.world.lists, [q]) == Some(q);
    ThenPop(p, [q], Done);
    var p1 := Then(p, Pop([q], Done));
    ThenLoad(p1, Done);
    ThenBegin(Then(p1, Load(Done)), Done);
    ThensThree(p, Pop([q], Done), Load(Done), Begin(Done));
    SlotRun(s, i, [Pop([q], Done), Load(Done), Begin(Done)]);
  }

  ghost predicate BothExecute(s: State, j: JobId) {
    |s.actors| == 2 && (forall i :: 0 <= i < 2 ==> s.actors[i].Executing? && s.actors[i].id == j)
  }

  lemma BothTakeUp(s: State, max: int) returns (run: seq<Turn>)
    requires Twice(s, max)
    ensures Clean(run) && BothExecute(Exec(s, run), 0)
  {
    var acts := [Pop(["q"], Done), Load(Done), Begin(Done)];
    TakeUp(s, 0, 0, "q");
    var s1 := Exec(s, Turns(0, acts));
    assert ListOf(s1.world.lists, "q") == [0];
    TakeUp(s1, 1, 0, "q");
    run := Join(s, Turns(0, acts), Turns(1, acts));
  }

  /** The recovery sweep pushes a second token for a job that merely waited five seconds in its queue,
      and two workers execute the job at once. */
  lemma SweepDuplicates(s: State) returns (run: seq<Turn>, more: seq<Turn>)
    requires s == Start(2, CONF, 0)
    ensures Clean(run) && Collides(Exec(s, run), Turn(0, RecoverPush(Done)))
    ensures Clean(more) && |more| > 0 && more[0] == Turn(0, RecoverPush(Done))
    ensures BothExecute(Exec(s, run + more), 0)
  {
    run := ToSweeping(s, 3);
    SecondPush(Exec(s, run), 3);
    var push := PushTwice(Exec(s, run), 3);
    var both := BothTakeUp(Exec(Exec(s, run), push), 3);
    more := Join(Exec(s, run), push, both);
    ExecConcat(s, run, more);
  }

  lemma ToSweeping(s: State, max: int) returns (run: seq<Turn>)
    requires s == Start(2, CONF, 0)
    ensures Clean(run) && Sweeping(Exec(s, run), max)
  {
    var first := Submit(s, max);
    ClockGrows(s, first);
    var second := WaitAndSweep(Exec(s, first), max);
    run := Join(s, first, second);
  }

  lemma ToTwice(s: State, max: int) returns (run: seq<Turn>)
    requires s == Start(2, CONF, 0)
    ensures Clean(run) && Twice(Exec(s, run), max)
  {
    var first := ToSweeping(s, max);
    var push := PushTwice(Exec(s, first), max);
    run := Join(s, first, push);
  }

  // ---------- two API retries ----------

  ghost predicate DeadNow(s: State) {
    && s.actors == [Idle, Idle]
    && 0 in s.world.jobs && s.world.jobs[0].status == Dead && s.world.jobs[0].queue == "q"
  }

  // The first execution fails.
  lemma FailFirst(s: State, max: int)
    requires Submitted(s, max)
    ensures var s' := Exec(s, Turns(0, WorkActs(["q"], Done, FAILING)));
            && s'.actors == [Idle, Idle] && s'.world.conf == CONF
            && ViewOf(s'.world) == AfterWork(ViewOf(s.world), ["q"], CONF.handlers, s.world.clock, Done, FAILING)
            && 0 in s'.world.jobs
            && s'.world.jobs[0] == FirstRow(max).(status := if 1 >= max then Dead else Retrying, retryCount := 1,
                                                  startedAt := Some(s.world.clock))
  {
    WorkTurns(s, 0, ["q"], Done, FAILING);
    FailedView(ViewOf(s.world), "q", 0, CONF.handlers, s.world.clock);
  }

  lemma RetryReadTurn(s: State, i: nat)
    requires i < |s.actors| && s.actors[i] == Idle
    requires 0 in s.world.jobs && s.world.jobs[0].status == Dead && s.world.jobs[0].queue == "q"
    ensures var s' := Step(s, Turn(i, RetryRead(0, Done)));
            s'.actors == s.actors[i := RetryLoaded(0, "q")] && s'.world.jobs == s.world.jobs
  {
  }

  lemma RetryResetTurn(s: State, i: nat)
    requires i < |s.actors| && s.actors[i] == RetryLoaded(0, "q")
    ensures Step(s, Turn(i, RetryReset(Done))).actors == s.actors[i := RetryPending(0, "q")]
  {
  }

  lemma BothRetry(s: State)
    requires DeadNow(s)
    ensures var s2 := Step(Step(s, Turn(0, RetryRead(0, Done))), Turn(1, RetryRead(0, Done)));
            Collides(Step(s2, Turn(0, RetryReset(Done))), Turn(1, RetryReset(Done)))
  {
    var s1 := Step(s, Turn(0, RetryRead(0, Done)));
    RetryReadTurn(s, 0);
    var s2 := Step(s1, Turn(1, RetryRead(0, Done)));
    RetryReadTurn(s1, 1);
    RetryResetTurn(s2, 0);
    SumAtLeast(Token, Step(s2, Turn(0, RetryReset(Done))).actors, 0, 0);
  }

  /** Two API retries of one dead job that both read it before either resets it: two tokens. */
  lemma RetriesRace(s: State) returns (run: seq<Turn>)
    requires s == Start(2, CONF, 0)
    ensures Clean(run) && Collides(Exec(s, run), Turn(1, RetryReset(Done)))
  {
    var first := Submit(s, 1);
    var second := DiesAtOnce(Exec(s, first));
    var dead := Join(s, first, second);
    BothRetry(Exec(s, dead));
    run := Append3(s, dead, Turn(0, RetryRead(0, Done)), Turn(1, RetryRead(0, Done)), Turn(0, RetryReset(Done)));
  }

  lemma DiesAtOnce(s: State) returns (run: seq<Turn>)
    requires Submitted(s, 1)
    ensures Clean(run) && DeadNow(Exec(s, run))
  {
    FailFirst(s, 1);
    run := Turns(0, WorkActs(["q"], Done, FAILING));
  }

  lemma Append3(s: State, run: seq<Turn>, t1: Turn, t2: Turn, t3: Turn) returns (all: seq<Turn>)
    requires Clean(run) && Faultless(t1.act) && Faultless(t2.act) && Faultless(t3.act)
    ensures Clean(all) && Exec(s, all) == Step(Step(Step(Exec(s, run), t1), t2), t3)
  {
    ExecSnoc(s, run, t1);
    ExecSnoc(s, run + [t1], t2);
    ExecSnoc(s, run + [t1] + [t2], t3);
    all := run + [t1] + [t2] + [t3];
  }

  // ---------- the late mark ----------

  // The first execution failed and its retry waits in the set.
  ghost predicate RetryWaits(s: State) {
    && s.actors == [Idle, Idle] && s.world.conf == CONF && OneRow(s.world.jobs, Retrying)
    && s.world.lists == map["q" := []] && s.world.sched.Keys == {0}
  }

  lemma FailsToRetry(s: State) returns (run: seq<Turn>)
    requires Submitted(s, 2)
    ensures Clean(run) && RetryWaits(Exec(s, run))
  {
    FailFirst(s, 2);
    FailedStores(s.world.clock);
    run := Turns(0, WorkActs(["q"], Done, FAILING));
  }

  lemma FailedStores(now: int)
    ensures var v := View(map[0 := FirstRow(2)], {0}, map["q" := [0]], map[]);
            var v' := AfterWork(v, ["q"], CONF.handlers, now, Done, FAILING);
            v'.lists == map["q" := []] && v'.sched.Keys == {0} && v'.jobs.Keys == {0}
  {
    assert FirstNonEmpty(map["q" := [0]], ["q"]) == Some("q");
    assert [0][..0] == [];
  }

  // The due loop in slot 1 has pushed the retry but not marked it.
  ghost predicate Unmarked(s: State) {
    && StillToMark(s.actors) && s.world.conf == CONF && OneRow(s.world.jobs, Retrying)
    && s.world.lists == map["q" := [0]] && s.world.sched == map[]
  }

  predicate StillToMark(actors: seq<Actor>) {
    && |actors| == 2 && actors[0] == Idle
    && actors[1].DuePushed? && actors[1].id == 0 && actors[1].rest == [] && actors[1].snap.status == Retrying
  }

  lemma FetchIt(w: World)
    requires w.sched.Keys == {0} && w.sched[0] <= Unix(w.clock)
    ensures var due := Due(w.sched, Unix(w.clock)); Selects([0], due, |due|)
    ensures NotDue(w.sched, Unix(w.clock)) == map[]
  {
    var due := Due(w.sched, Unix(w.clock));
    assert due.Keys == {0} && |due| == |due.Keys|;
  }

  // The due loop in slot 1 has taken the retry out of the set.
  ghost predicate RetryTaken(s: State) {
    && s.actors == [Idle, DueBatch([0])] && s.world.conf == CONF && OneRow(s.world.jobs, Retrying)
    && s.world.lists == map["q" := []] && s.world.sched == map[]
  }

  lemma TakeOut(s: State) returns (run: seq<Turn>)
    requires RetryWaits(s)
    ensures Clean(run) && RetryTaken(Exec(s, run))
  {
    var gap := (s.world.sched[0] + 1) * SECOND - s.world.clock;
    var dt := if gap > 0 then gap else 0;
    UnixAtLeast(s.world.sched[0], s.world.clock + dt);
    TickThenFetch(Place(s.world, Idle), dt);
    SlotRun(s, 1, [Tick(dt), DueFetch([0], Done)]);
    assert [Idle, Idle][1 := DueBatch([0])] == [Idle, DueBatch([0])];
    run := Turns(1, [Tick(dt), DueFetch([0], Done)]);
  }

  lemma TickThenFetch(p: Place, dt: nat)
    requires p.a == Idle && p.w.sched.Keys == {0} && p.w.sched[0] <= Unix(p.w.clock + dt)
    ensures var q := Thens(p, [Tick(dt), DueFetch([0], Done)]);
            q.a == DueBatch([0]) && ViewOf(q.w) == ViewOf(p.w).(sched := map[])
  {
    ThenTick(p, dt);
    var p1 := Then(p, Tick(dt));
    FetchIt(p1.w);
    ThenDueFetch(p1.w, [0], Done);
    ThensTwo(p, Tick(dt), DueFetch([0], Done));
  }

  lemma PushOnly(s: State) returns (run: seq<Turn>)
    requires RetryTaken(s)
    ensures Clean(run) && Unmarked(Exec(s, run))
  {
    LoadThenPush(Place(s.world, DueBatch([0])));
    SlotRun(s, 1, [DueLoad(Done), DuePush(Done)]);
    run := Turns(1, [DueLoad(Done), DuePush(Done)]);
  }

  lemma LoadThenPush(p: Place)
    requires p.a == DueBatch([0]) && 0 in p.w.jobs && p.w.jobs[0].queue == "q" && p.w.lists == map["q" := []]
    ensures var q := Thens(p, [DueLoad(Done), DuePush(Done)]);
            q.a == DuePushed(0, p.w.jobs[0], []) && ViewOf(q.w) == ViewOf(p.w).(lists := map["q" := [0]])
  {
    ThenDueLoad(p, Done);
    var p1 := Then(p, DueLoad(Done));
    assert [0][1..] == [];
    ThenDuePush(p1, Done);
    ThensTwo(p, DueLoad(Done), DuePush(Done));
    FirstPush();
  }

  lemma FirstPush()
    ensures PushTo(map["q" := []], "q", 0) == map["q" := [0]]
  {
    assert [0] + ListOf(map["q" := []], "q") == [0];
  }

  // A worker completes the job; the due loop still has its mark to write.
  ghost predicate Overtaken(s: State) {
    && StillToMark(s.actors) && s.world.conf == CONF && OneRow(s.world.jobs, Completed)
    && s.world.lists == map["q" := []] && s.world.sched == map[]
  }

  lemma Overtake(s: State) returns (run: seq<Turn>)
    requires Unmarked(s)
    ensures Clean(run) && Overtaken(Exec(s, run))
  {
    run := Turns(0, WorkActs(["q"], Done, SUCCEEDING));
    WorkTurns(s, 0, ["q"], Done, SUCCEEDING);
    assert FirstNonEmpty(s.world.lists, ["q"]) == Some("q");
    assert [0][..0] == [];
  }

  lemma NoTokenLeft(s: State)
    requires |s.actors| == 2 && s.actors[0] == Idle && s.world.lists == map["q" := []] && s.world.sched == map[]
    requires s.actors[1] == DueBatch([]) || (s.actors[1].DuePushed? && s.actors[1].rest == [])
    ensures TokenCount(s, 0) == 0
  {
    SumZero(Token, s.actors, 0);
    InListsUpdate(map[], "q", [], 0);
    assert map[]["q" := []] == s.world.lists;
  }

  // The completed job is pending again and has no token.
  ghost predicate Revived(s: State) {
    && s.actors == [Idle, DueBatch([])] && s.world.conf == CONF && OneRow(s.world.jobs, Pending)
    && s.world.lists == map["q" := []] && s.world.sched == map[]
  }

  lemma MarkIt(s: State)
    requires Overtaken(s)
    ensures LateMark(s, Turn(1, DueMark(Done))) && TokenCount(s, 0) == 0
    ensures var s' := Step(s, Turn(1, DueMark(Done))); Revived(s') && TokenCount(s', 0) == 0
  {
    NoTokenLeft(s);
    ThenDueMark(Place(s.world, s.actors[1]), Done);
    NoTokenLeft(Step(s, Turn(1, DueMark(Done))));
  }

  lemma ToOvertaken(s: State) returns (run: seq<Turn>)
    requires s == Start(2, CONF, 0)
    ensures Clean(run) && Overtaken(Exec(s, run))
  {
    run := Submit(s, 2);
    var next := FailsToRetry(Exec(s, run));
    run := Join(s, run, next);
    next := TakeOut(Exec(s, run));
    run := Join(s, run, next);
    next := PushOnly(Exec(s, run));
    run := Join(s, run, next);
    next := Overtake(Exec(s, run));
    run := Join(s, run, next);
  }

  /** The due loop's mark arrives after a worker has completed the job: the completed job becomes
      pending again and has no token, although no call failed. */
  lemma LateMarkHappens(s: State) returns (run: seq<Turn>)
    requires s == Start(2, CONF, 0)
    ensures Clean(run) && LateMark(Exec(s, run), Turn(1, DueMark(Done)))
    ensures 0 in Exec(s, run).world.jobs && Exec(s, run).world.jobs[0].status == Completed
    ensures var s' := Step(Exec(s, run), Turn(1, DueMark(Done)));
            0 in s'.world.jobs && s'.world.jobs[0].status == Pending && TokenCount(s', 0) == 0
  {
    run := ToOvertaken(s);
    MarkIt(Exec(s, run));
  }

  // The row is in its queue again; slot 0 is free.
  ghost predicate BackInQueue(s: State) {
    && s.actors == [Idle, DueBatch([])] && s.world.conf == CONF && OneRow(s.world.jobs, Pending)
    && s.world.lists == map["q" := [0]]
  }

  // The recovery sweep finds the row and pushes it.
  lemma SweepBack(s: State) returns (run: seq<Turn>)
    requires Revived(s) && s.world.clock >= 0
    ensures Clean(run) && BackInQueue(Exec(s, run))
  {
    var wait := PassTime(s, 6 * SECOND);
    var sweep := SweepUp(Exec(s, wait));
    run := Join(s, wait, sweep);
  }

  lemma SweepUp(s: State) returns (run: seq<Turn>)
    requires Revived(s) && s.world.clock >= 6 * SECOND
    ensures Clean(run) && BackInQueue(Exec(s, run))
  {
    SelectsIt(s.world.jobs, s.world.clock);
    RecoverTurns(s, 0, [0], Done, [Done]);
    PushedBack(ViewOf(s.world));
    run := Turns(0, RecoverActs([0], Done, [Done]));
  }

  lemma PushedBack(v: View)
    requires v.lists == map["q" := []]
    ensures AfterPushes(v, [(0, "q")], [Done]) == v.(lists := map["q" := [0]])
  {
    assert AfterPushes(v, [], []) == v;
    assert [(0, "q")][..0] == [] && [Done][..0] == [];
    FirstPush();
  }

  lemma MarkRun(s: State) returns (run: seq<Turn>)
    requires Overtaken(s) && Sound(s) && s.world.clock >= 0
    ensures Clean(run) && Revived(Exec(s, run)) && Exec(s, run).world.clock >= 0
  {
    MarkIt(s);
    run := [Turn(1, DueMark(Done))];
    ExecSnoc(s, [], run[0]);
    assert [] + run == run;
    ClockGrows(s, run);
  }

  lemma StartsAgain(s: State) returns (run: seq<Turn>)
    requires BackInQueue(s)
    ensures Clean(run) && Exec(s, run).actors[0].Executing? && Exec(s, run).actors[0].id == 0
  {
    TakeUp(s, 0, 0, "q");
    run := Turns(0, [Pop(["q"], Done), Load(Done), Begin(Done)]);
  }

  /** ... and the job is executed a second time, in a run without failures: completed and without a
      token, it is marked, swept up and started again. */
  lemma CompletedRunsAgain(s: State) returns (run: seq<Turn>, more: seq<Turn>)
    requires s == Start(2, CONF, 0)
    ensures Clean(run) && Clean(more) && Finished(Exec(s, run), 0)
    ensures var s' := Exec(s, run + more); s'.actors[0].Executing? && s'.actors[0].id == 0
  {
    run := ToOvertaken(s);
    var s1 := Exec(s, run);
    MarkIt(s1);
    ClockGrows(s, run);
    RunSound(s, run);
    more := MarkRun(s1);
    var next := SweepBack(Exec(s1, more));
    more := Join(s1, more, next);
    next := StartsAgain(Exec(s1, more));
    more := Join(s1, more, next);
    ExecConcat(s, run, more);
  }

  // ---------- what is not promised ----------

  /** A cancelled job runs: the cancel does not take the id out of Redis. */
  lemma CancelledRuns(s: State) returns (run: seq<Turn>, more: seq<Turn>)
    requires s == Start(2, CONF, 0)
    ensures Clean(run) && Clean(more)
    ensures 0 in Exec(s, run).world.jobs && Exec(s, run).world.jobs[0].status == Cancelled
    ensures var s' := Exec(s, run + more); s'.actors[0].Executing? && s'.actors[0].id == 0
  {
    var first := Submit(s, 3);
    CancelTurns(Exec(s, first), 1, 0, RequestFate(Done, Done, Done));
    run := Join(s, first, Turns(1, [CancelRead(0, Done), CancelWrite(Done)]));
    TakeUp(Exec(s, run), 0, 0, "q");
    more := Turns(0, [Pop(["q"], Done), Load(Done), Begin(Done)]);
    ExecConcat(s, run, more);
  }

  // One failing execution of a job whose id is at the end of the list.
  lemma FailNext(s: State, ids: seq<JobId>) returns (run: seq<Turn>)
    requires s.actors == [Idle, Idle] && s.world.conf == CONF && s.world.jobs.Keys == {0}
    requires s.world.jobs[0].retryCount >= 0 && s.world.jobs[0].jobType == "t"
    requires ListOf(s.world.lists, "q") == ids + [0]
    ensures Clean(run)
    ensures var s' := Exec(s, run);
            && s'.actors == [Idle, Idle] && s'.world.conf == CONF && s'.world.jobs.Keys == {0}
            && s'.world.jobs[0].retryCount == s.world.jobs[0].retryCount + 1
            && s'.world.jobs[0].maxRetries == s.world.jobs[0].maxRetries && s'.world.jobs[0].jobType == "t"
            && ListOf(s'.world.lists, "q") == ids
  {
    run := Turns(0, WorkActs(["q"], Done, FAILING));
    WorkIsClean(0, ["q"], FAILING);
    WorkTurns(s, 0, ["q"], Done, FAILING);
    FailedStore(ViewOf(s.world), ids, s.world.clock);
  }

  lemma FailedStore(v: View, ids: seq<JobId>, now: int)
    requires v.jobs.Keys == {0} && v.jobs[0].retryCount >= 0 && v.jobs[0].jobType == "t"
    requires ListOf(v.lists, "q") == ids + [0]
    ensures var v' := AfterWork(v, ["q"], CONF.handlers, now, Done, FAILING);
            && v'.jobs.Keys == {0} && ListOf(v'.lists, "q") == ids
            && v'.jobs[0].retryCount == v.jobs[0].retryCount + 1
            && v'.jobs[0].maxRetries == v.jobs[0].maxRetries && v'.jobs[0].jobType == "t"
  {
    FailedView(v, "q", 0, CONF.handlers, now);
    assert FirstNonEmpty(v.lists, ["q"]) == Some("q");
    assert (ids + [0])[..|ids|] == ids;
  }

  /** A duplicate token pushes a retry count past its limit. */
  lemma CountPassesLimit(s: State) returns (run: seq<Turn>)
    requires s == Start(2, CONF, 0)
    ensures Clean(run) && 0 in Exec(s, run).world.jobs
    ensures Exec(s, run).world.jobs[0].retryCount > Exec(s, run).world.jobs[0].maxRetries
  {
    run := ToTwice(s, 1);
    assert [0] + [0] == [0, 0] && [] + [0] == [0];
    var next := FailNext(Exec(s, run), [0]);
    run := Join(s, run, next);
    next := FailNext(Exec(s, run), []);
    run := Join(s, run, next);
  }

  // A worker that started the job is gone; a second token still waits in the list.
  ghost predicate Abandoned(s: State) {
    && s.actors == [Idle, Idle] && s.world.conf == CONF
    && s.world.jobs.Keys == {0} && s.world.jobs[0].status == Running && s.world.jobs[0].jobType == "t"
    && s.world.jobs[0].startedAt.Some? && s.world.jobs[0].startedAt.value < s.world.clock
    && ListOf(s.world.lists, "q") == [0]
  }

  lemma Abandon(s: State) returns (run: seq<Turn>)
    requires Twice(s, 3)
    ensures Abandoned(Exec(s, run))
  {
    var first := Turns(0, [Pop(["q"], Done), Load(Done), Begin(Done)]);
    TakeUp(s, 0, 0, "q");
    var s1 := Exec(s, first);
    assert [0, 0][..1] == [0];
    CrashAndTick(Place(s1.world, s1.actors[0]));
    SlotRun(s1, 0, [Crash, Tick(1)]);
    ExecConcat(s, first, Turns(0, [Crash, Tick(1)]));
    run := first + Turns(0, [Crash, Tick(1)]);
    assert s1.actors[0 := Idle] == [Idle, Idle];
  }

  lemma CrashAndTick(p: Place)
    ensures At(Thens(p, [Crash, Tick(1)]), Idle, ViewOf(p.w), p.w.clock + 1, p.w.conf)
  {
    ThensTwo(p, Crash, Tick(1));
    ThenCrash(p);
    ThenTick(Then(p, Crash), 1);
  }

  lemma ThenCrash(p: Place)
    ensures At(Then(p, Crash), Idle, ViewOf(p.w), p.w.clock, p.w.conf)
  {
  }

  lemma QueryStale(s: State)
    requires Abandoned(s)
    ensures var s' := Exec(s, Turns(1, [Reap([0], Done)]));
            && s'.actors == [Idle, Reaping([(0, s.world.jobs[0].retryCount)])]
            && ViewOf(s'.world) == ViewOf(s.world) && s'.world.conf == CONF
  {
    var stale := Stale(s.world.jobs, s.world.clock - 2 * CONF.jobTimeout);
    assert stale.Keys == {0} && |stale| == |stale.Keys|;
    assert Selects([0], stale, SWEEP_LIMIT);
    assert CountsOf(s.world.jobs, [0]) == [(0, s.world.jobs[0].retryCount)];
    ThenReap(s.world, [0], Done);
    ThensOne(Place(s.world, Idle), Reap([0], Done));
    SlotRun(s, 1, [Reap([0], Done)]);
  }

  /** An interrupted stale sweep is about to fail a job that is being executed, although nobody executed
      it when the sweep asked: a duplicate token was popped in between. */
  lemma InterruptedSweepHits(s: State) returns (run: seq<Turn>, more: seq<Turn>)
    requires s == Start(2, CONF, 0)
    ensures Timely(Exec(s, run)) && |more| > 0 && more[0] == Turn(1, Reap([0], Done))
    ensures var s' := Exec(s, run + more);
            && s'.actors[1].Reaping? && s'.actors[1].stale != [] && s'.actors[1].stale[0].0 == 0
            && s'.actors[0].Executing? && s'.actors[0].id == 0
  {
    var first := ToTwice(s, 3);
    var second := Abandon(Exec(s, first));
    ExecConcat(s, first, second);
    run := first + second;
    var s1 := Exec(s, run);
    QueryStale(s1);
    var query, start := Turns(1, [Reap([0], Done)]), Turns(0, [Pop(["q"], Done), Load(Done), Begin(Done)]);
    TakeUp(Exec(s1, query), 0, 0, "q");
    ExecConcat(s1, query, start);
    more := query + start;
    ExecConcat(s, run, more);
  }
}
