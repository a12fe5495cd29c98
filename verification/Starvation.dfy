/** Lost jobs that the recovery sweep never reaches: it looks at the 100 oldest pending rows and does not
    change the status of those it pushes, so 100 older rows that stay pending keep it away. */
module Starvation {
  import opened Jobs
  import opened Calls
  import opened Selection
  import opened Storage
  import opened Redis
  import opened Protocol
  import opened Tokens
  import opened Soundness
  import opened Processes
  import opened ProcessRuns
  import opened SlotRuns
  import opened Runs
  import opened Rows
  import opened Lost
  import opened Recovery
  import opened Death

  // ---------- behind 100 older rows ----------

  // Pending and without run time: what the recovery sweep looks for.
  predicate Unserviced(row: Row) { row.status == Pending && row.runAt.None? }

  ghost predicate StillPending(jobs: Table, ids: set<JobId>) {
    forall x :: x in ids ==> x in jobs && jobs[x].status == Pending
  }

  ghost predicate Shadowed(jobs: Table, older: set<JobId>, j: JobId)
    requires j in jobs
  {
    && |older| >= SWEEP_LIMIT
    && forall x :: x in older ==> x in jobs && Unserviced(jobs[x]) && jobs[x].createdAt < jobs[j].createdAt
  }

  ghost predicate Starving(s: State, older: set<JobId>, j: JobId) {
    Unserved(s, j) && Shadowed(s.world.jobs, older, j)
  }

  lemma ShadowHides(jobs: Table, older: set<JobId>, j: JobId, before: int, sel: seq<JobId>)
    requires j in jobs && Shadowed(jobs, older, j) && Selects(sel, Unqueued(jobs, before), SWEEP_LIMIT)
    ensures j !in sel
  {
    var keys := Unqueued(jobs, before);
    if j in keys {
      SubsetSize(older, Older(keys, j));
      NeverSelected(keys, SWEEP_LIMIT, j, sel);
    }
  }

  // ---------- whole runs ----------

  lemma ShadowStays(s: State, t: Turn, older: set<JobId>, j: JobId)
    requires Sound(s) && j in s.world.jobs && j in Step(s, t).world.jobs
    requires Shadowed(s.world.jobs, older, j) && StillPending(Step(s, t).world.jobs, older)
    ensures Shadowed(Step(s, t).world.jobs, older, j)
  {
    StepKeepsBirth(s, t, j);
    forall x | x in older ensures SameBirth(s.world.jobs[x], Step(s, t).world.jobs[x]) { StepKeepsBirth(s, t, x); }
  }

  lemma NotReached(s: State, t: Turn, older: set<JobId>, j: JobId)
    requires Starving(s, older, j) && t.who < |s.actors| && Enabled(s.world, s.actors[t.who], t.act)
    ensures NotRecovered(t.act, j)
  {
    if t.act.Recover? { ShadowHides(s.world.jobs, older, j, s.world.clock - RECOVERY_AGE, t.act.order); }
  }

  lemma StepStarves(s: State, t: Turn, older: set<JobId>, j: JobId)
    requires Sound(s) && Starving(s, older, j) && StillPending(Step(s, t).world.jobs, older)
    ensures Starving(Step(s, t), older, j)
    ensures Count(Step(s, t).world.hist.ledger, Executed(j)) == Count(s.world.hist.ledger, Executed(j))
  {
    if t.who < |s.actors| && Enabled(s.world, s.actors[t.who], t.act) { NotReached(s, t, older, j); }
    StepUnserved(s, t, j);
    ShadowStays(s, t, older, j);
  }

  ghost predicate PendingThroughout(s: State, run: seq<Turn>, ids: set<JobId>) {
    forall k :: 0 <= k <= |run| ==> StillPending(After(s, run, k).world.jobs, ids)
  }

  lemma {:induction false} StarvesUntil(s: State, run: seq<Turn>, k: nat, older: set<JobId>, j: JobId)
    requires Sound(s) && Starving(s, older, j) && PendingThroughout(s, run, older) && k <= |run|
    ensures Starving(After(s, run, k), older, j)
    ensures Count(After(s, run, k).world.hist.ledger, Executed(j)) == Count(s.world.hist.ledger, Executed(j))
  {
    if k == 0 {
      assert run[..0] == [];
    } else {
      StarvesUntil(s, run, k - 1, older, j);
      RunSound(s, run[..k - 1]);
      AfterNext(s, run, k - 1);
      assert StillPending(After(s, run, k).world.jobs, older);
      StepStarves(After(s, run, k - 1), run[k - 1], older, j);
    }
  }

  /** In every run, whatever workers, requests, due loops and sweeps do and whatever fails: as long as 100
      older rows stay pending, the lost job gets no token, is taken up by nobody and is not executed. */
  lemma StarvesForEver(s: State, run: seq<Turn>, older: set<JobId>, j: JobId)
    requires Sound(s) && Starving(s, older, j) && PendingThroughout(s, run, older)
    ensures Starving(Exec(s, run), older, j)
    ensures Count(Exec(s, run).world.hist.ledger, Executed(j)) == Count(s.world.hist.ledger, Executed(j))
  {
    StarvesUntil(s, run, |run|, older, j);
    assert run[..|run|] == run;
  }

  // ---------- rows in a queue nobody pops ----------

  // Whoever names the job is a recovery sweep that will push it to queue q.
  ghost predicate ParkedBy(a: Actor, q: string, x: JobId) {
    Mentions(a, x) ==> a.Recovering? && forall i :: 0 <= i < |a.sweep| && a.sweep[i].0 == x ==> a.sweep[i].1 == q
  }

  ghost predicate ParkedIn(w: World, q: string, x: JobId) {
    && x in w.jobs && Unserviced(w.jobs[x]) && w.jobs[x].queue == q
    && x !in w.sched && forall p :: p != q ==> x !in ListOf(w.lists, p)
  }

  /** A pending row of queue q that is in no other queue's list and in nobody else's hands. */
  ghost predicate Parked(s: State, q: string, x: JobId) {
    ParkedIn(s.world, q, x) && forall i :: 0 <= i < |s.actors| ==> ParkedBy(s.actors[i], q, x)
  }

  // No pop listens on q, and no cancel asks for x.
  predicate KeepsOff(act: Action, q: string, x: JobId) {
    !(act.Pop? && q in act.queues) && !(act.CancelRead? && act.job == x)
  }

  ghost predicate LeavesParked(e: Effect, q: string, x: JobId) {
    && (e.db.Keep? || e.db.Remove? || e.db.id != x)
    && (e.redis.ListPush? && e.redis.id == x ==> e.redis.queue == q)
    && (e.redis.SetAdd? ==> e.redis.id != x)
    && ParkedBy(e.next, q, x)
  }

  ghost predicate Passing(w: World, a: Actor, act: Action, q: string, x: JobId) {
    Enabled(w, a, act) && x in w.used && ParkedIn(w, q, x) && ParkedBy(a, q, x) && KeepsOff(act, q, x)
  }

  lemma WorkerParks(w: World, a: Actor, act: Action, q: string, x: JobId)
    requires ByWorker(act) && Passing(w, a, act, q, x)
    ensures LeavesParked(WorkerEffect(w, a, act), q, x)
  {
    if act.Pop? {
      var p := FirstNonEmpty(w.lists, act.queues);
      assert p.Some? ==> p.value in act.queues && Tail(w.lists, p.value) in ListOf(w.lists, p.value);
    }
  }

  lemma RequestParks(w: World, a: Actor, act: Action, q: string, x: JobId)
    requires ByRequest(act) && Passing(w, a, act, q, x)
    ensures LeavesParked(RequestEffect(w, a, act), q, x)
  {
  }

  lemma DueLoopParks(w: World, a: Actor, act: Action, q: string, x: JobId)
    requires ByDueLoop(act) && Passing(w, a, act, q, x)
    ensures LeavesParked(DueLoopEffect(w, a, act), q, x)
  {
  }

  lemma SweepParks(w: World, a: Actor, act: Action, q: string, x: JobId)
    requires BySweep(act) && !act.Recover? && !act.Reap? && Passing(w, a, act, q, x)
    ensures LeavesParked(SweepEffect(w, a, act), q, x)
  {
    assert a.Recovering? && a.sweep != [] ==> Mentions(a, a.sweep[0].0);
    assert a.Reaping? && a.stale != [] ==> Mentions(a, a.stale[0].0);
    assert Mentions(SweepEffect(w, a, act).next, x) && (act.RecoverPush? || act.ReapWrite?) ==> Mentions(a, x);
  }

  lemma QueryParks(w: World, a: Actor, act: Action, q: string, x: JobId)
    requires (act.Recover? || act.Reap?) && Passing(w, a, act, q, x)
    ensures LeavesParked(SweepEffect(w, a, act), q, x)
  {
    if x !in act.order { NotPicked(w.jobs, act.order, x); }
  }

  lemma AllPark(w: World, a: Actor, act: Action, q: string, x: JobId)
    requires Passing(w, a, act, q, x)
    ensures LeavesParked(EffectOf(w, a, act), q, x)
  {
    if ByWorker(act) { WorkerParks(w, a, act, q, x); }
    else if ByRequest(act) { RequestParks(w, a, act, q, x); }
    else if ByDueLoop(act) { DueLoopParks(w, a, act, q, x); }
    else if act.Recover? || act.Reap? { QueryParks(w, a, act, q, x); }
    else { SweepParks(w, a, act, q, x); }
  }

  lemma StaysParkedIn(w: World, e: Effect, q: string, x: JobId)
    requires ParkedIn(w, q, x) && LeavesParked(e, q, x)
    ensures ParkedIn(Apply(w, e), q, x)
  {
    forall p | p != q ensures x !in ListOf(Apply(w, e).lists, p) {
      assert x !in ListOf(w.lists, p);
    }
  }

  lemma StepParked(s: State, t: Turn, q: string, x: JobId)
    requires Sound(s) && Parked(s, q, x) && KeepsOff(t.act, q, x)
    ensures Parked(Step(s, t), q, x)
  {
    if t.who < |s.actors| && Enabled(s.world, s.actors[t.who], t.act) {
      AllPark(s.world, s.actors[t.who], t.act, q, x);
      StaysParkedIn(s.world, EffectOf(s.world, s.actors[t.who], t.act), q, x);
      StepIs(s, t);
    } else {
      assert Step(s, t) == s;
    }
  }

  lemma {:induction false} RunParked(s: State, run: seq<Turn>, k: nat, q: string, x: JobId)
    requires Sound(s) && Parked(s, q, x) && k <= |run|
    requires forall m :: 0 <= m < |run| ==> KeepsOff(run[m].act, q, x)
    ensures Parked(After(s, run, k), q, x)
  {
    if k == 0 {
      assert run[..0] == [];
    } else {
      RunParked(s, run, k - 1, q, x);
      AfterNext(s, run, k - 1);
      RunSound(s, run[..k - 1]);
      StepParked(After(s, run, k - 1), run[k - 1], q, x);
    }
  }

  /** A condition a caller can read off the run: 100 older rows wait in a queue that no pop of the run
      listens on, and nobody cancels them. Then the job starves, whatever else happens. */
  lemma StarvesBehindParked(s: State, run: seq<Turn>, q: string, older: set<JobId>, j: JobId)
    requires Sound(s) && Starving(s, older, j) && forall x :: x in older ==> Parked(s, q, x)
    requires forall m, x :: 0 <= m < |run| && x in older ==> KeepsOff(run[m].act, q, x)
    ensures Starving(Exec(s, run), older, j) && forall x :: x in older ==> Parked(Exec(s, run), q, x)
    ensures Count(Exec(s, run).world.hist.ledger, Executed(j)) == Count(s.world.hist.ledger, Executed(j))
  {
    forall k | 0 <= k <= |run| ensures StillPending(After(s, run, k).world.jobs, older) {
      forall x | x in older ensures ParkedIn(After(s, run, k).world, q, x) { RunParked(s, run, k, q, x); }
    }
    assert run[..|run|] == run;
    forall x | x in older ensures Parked(Exec(s, run), q, x) { RunParked(s, run, |run|, q, x); }
    StarvesForEver(s, run, older, j);
  }

  // ---------- it happens ----------

  // The first hundred jobs go to a queue without workers.
  function QueueOfId(id: JobId): string { if id < 100 then "parked" else "q" }

  // n rows, created one after another; none of them reached Redis.
  ghost predicate Backlog(s: State, n: nat) {
    && s.actors == [Idle] && s.world.lists == map[] && s.world.sched == map[] && s.world.conf == CONF
    && (forall id: JobId :: id in s.world.used <==> id < n)
    && InLine(s.world.jobs, s.world.clock, n)
  }

  // Rows 0 .. n - 1, oldest first, all older than `before`.
  ghost predicate InLine(jobs: Table, before: int, n: nat) {
    && (forall id: JobId :: id in jobs <==> id < n)
    && (forall id: JobId :: id < n ==> Queued(jobs[id], id, before))
    && (forall a: JobId, b: JobId :: a < b < n ==> jobs[a].createdAt < jobs[b].createdAt)
  }

  predicate Queued(row: Row, id: JobId, before: int) {
    Unserviced(row) && row.queue == QueueOfId(id) && row.retryCount == 0 && row.createdAt < before
  }

  lemma OneMore(s: State, n: nat) returns (run: seq<Turn>)
    requires Backlog(s, n) && Sound(s)
    ensures Backlog(Exec(s, run), n + 1)
  {
    CreateTurns(s, 0, n, QueueOfId(n), "t", None, None, RequestFate(Done, Refused, Done));
    var first := Turns(0, [Create(n, QueueOfId(n), "t", None, None, Done), Enqueue(Refused)]);
    ClockGrows(s, first);
    var second := PassTime(Exec(s, first), 1);
    ExecConcat(s, first, second);
    run := first + second;
    Longer(s, Exec(s, run), n);
  }

  lemma Longer(s: State, s': State, n: nat)
    requires Backlog(s, n) && s'.actors == s.actors && s.world.clock < s'.world.clock && s'.world.conf == CONF
    requires var row := NewRow(QueueOfId(n), "t", None, None, s.world.clock);
             ViewOf(s'.world) == AfterCreate(ViewOf(s.world), n, row, RequestFate(Done, Refused, Done))
    ensures Backlog(s', n + 1)
  {
    var row := NewRow(QueueOfId(n), "t", None, None, s.world.clock);
    assert s'.world.jobs == s.world.jobs[n := row] && s'.world.used == s.world.used + {n};
    forall id: JobId | id < n + 1 ensures Queued(s'.world.jobs[id], id, s'.world.clock) {
      if id < n { assert Queued(s.world.jobs[id], id, s.world.clock); }
    }
    forall a: JobId, b: JobId | a < b < n + 1 ensures s'.world.jobs[a].createdAt < s'.world.jobs[b].createdAt {
      assert Queued(s.world.jobs[a], a, s.world.clock);
    }
  }

  lemma {:induction false} BacklogGrows(s: State, n: nat) returns (run: seq<Turn>)
    requires s == Start(1, CONF, 0)
    ensures Backlog(Exec(s, run), n)
  {
    if n == 0 {
      run := [];
    } else {
      var first := BacklogGrows(s, n - 1);
      StartSound(1, CONF, 0);
      RunSound(s, first);
      var more := OneMore(Exec(s, first), n - 1);
      ExecConcat(s, first, more);
      run := first + more;
    }
  }

  function FirstIds(n: nat): (ids: set<JobId>)
    ensures |ids| == n && forall id: JobId :: id in ids <==> id < n
  {
    if n == 0 then {} else FirstIds(n - 1) + {n - 1}
  }

  // Job n starves behind the n before it, all of them in the queue without workers.
  ghost predicate StarvesAfter(s: State, n: nat) {
    Starving(s, FirstIds(n), n) && forall x :: x in FirstIds(n) ==> Parked(s, "parked", x)
  }

  lemma LineShadows(jobs: Table, before: int, n: nat)
    requires InLine(jobs, before, n + 1) && n >= SWEEP_LIMIT
    ensures Shadowed(jobs, FirstIds(n), n) && Waits(jobs[n])
  {
    forall id: JobId | id < n + 1 ensures Queued(jobs[id], id, before) {}
  }

  lemma NoTokens(s: State, x: JobId)
    requires s.actors == [Idle] && s.world.lists == map[] && s.world.sched == map[]
    ensures TokenCount(s, x) == 0
  {
    SumZero(Token, s.actors, x);
    assert InLists(s.world.lists, x) == 0;
  }

  lemma BacklogUnserved(s: State, n: nat)
    requires Backlog(s, n + 1) && n >= SWEEP_LIMIT
    ensures Starving(s, FirstIds(n), n)
  {
    LineShadows(s.world.jobs, s.world.clock, n);
    NoTokens(s, n);
    assert s.actors[0] == Idle;
  }

  lemma LineParks(s: State, n: nat, x: JobId)
    requires Backlog(s, n + 1) && x < n <= 100
    ensures Parked(s, "parked", x)
  {
    assert Queued(s.world.jobs[x], x, s.world.clock);
  }

  lemma BacklogStarves(s: State, n: nat)
    requires Backlog(s, n + 1) && n == SWEEP_LIMIT
    ensures StarvesAfter(s, n)
  {
    BacklogUnserved(s, n);
    forall x | x in FirstIds(n) ensures Parked(s, "parked", x) { LineParks(s, n, x); }
  }

  /** 101 jobs whose pushes to Redis failed, the first hundred for a queue without workers. */
  lemma StarvationHappens(s: State, n: nat) returns (run: seq<Turn>)
    requires s == Start(1, CONF, 0) && n == SWEEP_LIMIT
    ensures Backlog(Exec(s, run), n + 1) && StarvesAfter(Exec(s, run), n)
  {
    run := BacklogGrows(s, n + 1);
    BacklogStarves(Exec(s, run), n);
  }

  // A job of queue "q" created and completed from there on.
  lemma NextJobCompletes(s: State) returns (run: seq<Turn>)
    requires Backlog(s, 101)
    ensures 101 in Exec(s, run).world.jobs && Exec(s, run).world.jobs[101].status == Completed
    ensures forall m, x: JobId :: 0 <= m < |run| ==> KeepsOff(run[m].act, "parked", x)
  {
    var row := NewRow("q", "t", None, None, s.world.clock);
    CreateTurns(s, 0, 101, "q", "t", None, None, RequestFate(Done, Done, Done));
    var first := Turns(0, [Create(101, "q", "t", None, None, Done), Enqueue(Done)]);
    var s1 := Exec(s, first);
    assert [101] + ListOf(map[], "q") == [101];
    NonNegative(s, s1, row);
    WorkTurns(s1, 0, ["q"], Done, SUCCEEDING);
    CompletedView(ViewOf(s1.world), 101, s1.world.clock);
    var second := Turns(0, WorkActs(["q"], Done, SUCCEEDING));
    ExecConcat(s, first, second);
    run := first + second;
  }

  lemma NonNegative(s: State, s1: State, row: Row)
    requires Backlog(s, 101) && row.retryCount == 0 && s1.world.jobs == s.world.jobs[101 := row]
    ensures forall id :: id in s1.world.jobs ==> s1.world.jobs[id].retryCount >= 0
  {
    forall id | id in s1.world.jobs ensures s1.world.jobs[id].retryCount >= 0 {
      if id != 101 { assert Queued(s.world.jobs[id], id, s.world.clock); }
    }
  }

  lemma CompletedView(v: View, j: JobId, now: int)
    requires (forall id :: id in v.jobs ==> v.jobs[id].retryCount >= 0) && ListOf(v.lists, "q") == [j]
    requires j in v.jobs && v.jobs[j].jobType in CONF.handlers
    ensures var v' := AfterWork(v, ["q"], CONF.handlers, now, Done, SUCCEEDING);
            j in v'.jobs && v'.jobs[j].status == Completed
  {
    assert FirstNonEmpty(v.lists, ["q"]) == Some("q");
  }

  /** ... and it starves while a job submitted later is executed and completed. */
  lemma StarvesWhileOthersRun(s: State, n: nat) returns (run: seq<Turn>, more: seq<Turn>)
    requires s == Start(1, CONF, 0) && n == SWEEP_LIMIT
    ensures StarvesAfter(Exec(s, run), n) && StarvesAfter(Exec(s, run + more), n)
    ensures 101 in Exec(s, run + more).world.jobs && Exec(s, run + more).world.jobs[101].status == Completed
  {
    run := StarvationHappens(s, n);
    StartSound(1, CONF, 0);
    RunSound(s, run);
    more := NextJobCompletes(Exec(s, run));
    StarvesBehindParked(Exec(s, run), more, "parked", FirstIds(n), n);
    ExecConcat(s, run, more);
  }
}
