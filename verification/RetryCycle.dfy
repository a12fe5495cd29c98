/** A job whose handler always fails: how many executions and how much waiting lie between a single
    token and the dead state, in every interleaving with the rest of the system. */
module RetryCycle {
  import opened Jobs
  import opened Storage
  import opened Redis
  import opened Protocol
  import opened Tokens
  import opened Soundness
  import opened NoLostJob

  function Max(a: int, b: int): int { if a < b then b else a }

  // A pop on these queues brings job j.
  predicate Takes(w: World, queues: seq<string>, j: JobId) {
    var q := FirstNonEmpty(w.lists, queues);
    q.Some? && Tail(w.lists, q.value) == j
  }

  /** The turn leaves this job to its retries: nobody who knows of it has a failing call, its handler
      exists and fails, and no cancel, delete, API retry or sweep takes it up. Turns of actors that
      do not know of the job are free to fail, crash and interfere with one another. */
  ghost predicate Calm(w: World, a: Actor, act: Action, j: JobId) {
    && (Mentions(a, j) ==> Faultless(act) && !(act.Complete? && a.Executing? && a.id == j))
    && (Begins(a, act, j) ==> a.snap.jobType in w.conf.handlers)
    && match act
       case Pop(queues, io) => io.Lost? ==> !Takes(w, queues, j)
       case DueFetch(_, io) => io.Lost? ==> j !in Due(w.sched, Unix(w.clock))
       case RetryRead(id, _) => id != j
       case CancelRead(id, _) => id != j
       case Delete(id, _) => id != j
       case Recover(order, _) => j !in order
       case Reap(order, _) => j !in order
       case _ => true
  }

  ghost predicate CalmTurn(s: State, t: Turn, j: JobId) {
    t.who < |s.actors| ==> Calm(s.world, s.actors[t.who], t.act, j)
  }

  ghost predicate CalmRun(s: State, run: seq<Turn>, j: JobId) {
    forall k :: 0 <= k < |run| ==> CalmTurn(After(s, run, k), run[k], j)
  }

  predicate Begins(a: Actor, act: Action, j: JobId) { act.Begin? && a.Loaded? && a.id == j }
  predicate Fails(a: Actor, act: Action, j: JobId) { act.Fail? && a.Executing? && a.id == j }
  predicate Rests(a: Actor, act: Action, j: JobId) { act.BackOff? && a.BackingOff? && a.id == j }

  // With one token around, what a worker remembers of the job is up to date.
  ghost predicate InStep(a: Actor, j: JobId, row: Row) {
    && (a.Loaded? && a.id == j ==> a.snap.retryCount == row.retryCount && a.snap.maxRetries == row.maxRetries)
    && (a.Executing? && a.id == j ==> a.snap.retryCount == row.retryCount && a.snap.maxRetries == row.maxRetries)
    && (a.BackingOff? && a.id == j ==> a.attempt == row.retryCount)
    && (a.RetryLoaded? || a.RetryPending? || a.CancelLoaded? || a.Recovering? || a.Reaping? ==> !Mentions(a, j))
  }

  // ---------- one effect ----------

  predicate RowCycle(row: Row, a: Actor, act: Action, op: DbOp, j: JobId) {
    var n := row.retryCount + 1;
    if Fails(a, act, j) then op == Write(j, if n >= row.maxRetries then Dead else Retrying, n)
    else op.Keep? || op.id != j || (op.Mark? && op.status != Dead)
  }

  ghost predicate ActorCycle(w: World, a: Actor, act: Action, e: Effect, j: JobId)
    requires j in w.jobs
  {
    && WeightOf(Busy, e.next, j) + One(Fails(a, act, j)) == WeightOf(Busy, a, j) + One(Begins(a, act, j))
    && WeightOf(Resting, e.next, j) + One(Rests(a, act, j)) ==
       WeightOf(Resting, a, j) + One(Fails(a, act, j) && w.jobs[j].retryCount + 1 < w.jobs[j].maxRetries)
    && (e.note == Some(Executed(j)) <==> Begins(a, act, j))
    && InStep(e.next, j, if Fails(a, act, j) then w.jobs[j].(retryCount := w.jobs[j].retryCount + 1) else w.jobs[j])
  }

  ghost predicate WaitCycle(w: World, a: Actor, act: Action, e: Effect, j: JobId)
    requires j in w.jobs
  {
    var n := w.jobs[j].retryCount;
    if Rests(a, act, j) then n > 0 && e.redis == SetAdd(j, Wish(w.clock + DelayOf(n, act.platform), w.clock, n))
    else !(e.redis.SetAdd? && e.redis.id == j && e.redis.wish.attempt > 0)
  }

  ghost predicate Cycles(w: World, a: Actor, act: Action, e: Effect, j: JobId)
    requires j in w.jobs
  {
    RowCycle(w.jobs[j], a, act, e.db, j) && ActorCycle(w, a, act, e, j) && WaitCycle(w, a, act, e, j)
  }

  ghost predicate Ready(w: World, a: Actor, act: Action, j: JobId) {
    && Enabled(w, a, act) && j in w.jobs && j in w.used
    && (a.BackingOff? ==> a.attempt >= 1)
    && InStep(a, j, w.jobs[j]) && Calm(w, a, act, j)
  }

  lemma WorkerRowCycles(w: World, a: Actor, act: Action, j: JobId)
    requires ByWorker(act) && Ready(w, a, act, j)
    ensures RowCycle(w.jobs[j], a, act, WorkerEffect(w, a, act).db, j)
    ensures WaitCycle(w, a, act, WorkerEffect(w, a, act), j)
  {
  }

  lemma WorkerActorCycles(w: World, a: Actor, act: Action, j: JobId)
    requires ByWorker(act) && Ready(w, a, act, j)
    ensures ActorCycle(w, a, act, WorkerEffect(w, a, act), j)
  {
  }

  lemma RequestCycles(w: World, a: Actor, act: Action, j: JobId)
    requires ByRequest(act) && Ready(w, a, act, j)
    ensures Cycles(w, a, act, RequestEffect(w, a, act), j)
  {
  }

  lemma DueLoopCycles(w: World, a: Actor, act: Action, j: JobId)
    requires ByDueLoop(act) && Ready(w, a, act, j)
    ensures Cycles(w, a, act, DueLoopEffect(w, a, act), j)
  {
  }

  lemma SweepCycles(w: World, a: Actor, act: Action, j: JobId)
    requires (act.RecoverPush? || act.ReapWrite?) && Ready(w, a, act, j)
    ensures Cycles(w, a, act, SweepEffect(w, a, act), j)
  {
    var e := SweepEffect(w, a, act);
    assert Mentions(e.next, j) ==> Mentions(a, j);
    assert a.Reaping? && a.stale != [] ==> Mentions(a, a.stale[0].0);
  }

  lemma SelectCycles(w: World, a: Actor, act: Action, j: JobId)
    requires (act.Recover? || act.Reap?) && Ready(w, a, act, j)
    ensures Cycles(w, a, act, SweepEffect(w, a, act), j)
  {
    NotPicked(w.jobs, act.order, j);
  }

  lemma PauseCycles(w: World, a: Actor, act: Action, j: JobId)
    requires (act.Crash? || act.Tick?) && Ready(w, a, act, j)
    ensures Cycles(w, a, act, SweepEffect(w, a, act), j)
  {
  }

  lemma AllCycle(w: World, a: Actor, act: Action, j: JobId)
    requires Ready(w, a, act, j)
    ensures Cycles(w, a, act, EffectOf(w, a, act), j)
  {
    if ByWorker(act) {
      WorkerRowCycles(w, a, act, j);
      WorkerActorCycles(w, a, act, j);
    } else if ByRequest(act) {
      RequestCycles(w, a, act, j);
    } else if ByDueLoop(act) {
      DueLoopCycles(w, a, act, j);
    } else if act.RecoverPush? || act.ReapWrite? {
      SweepCycles(w, a, act, j);
    } else if act.Recover? || act.Reap? {
      SelectCycles(w, a, act, j);
    } else {
      PauseCycles(w, a, act, j);
    }
  }

  // The token ends only with the failure that makes the job dead.
  ghost predicate TokenEnds(w: World, a: Actor, act: Action, j: JobId)
    requires j in w.jobs
  {
    && Gains(w, a, act, j) == 0
    && Drops(w, a, act, j) == One(Fails(a, act, j) && w.jobs[j].retryCount + 1 >= w.jobs[j].maxRetries)
  }

  lemma WorkerTokenEnds(w: World, a: Actor, act: Action, j: JobId)
    requires ByWorker(act) && Ready(w, a, act, j) && (WeightOf(Token, a, j) > 0 ==> j !in w.sched)
    ensures TokenEnds(w, a, act, j)
  {
  }

  lemma OtherTokenEnds(w: World, a: Actor, act: Action, j: JobId)
    requires !ByWorker(act) && Ready(w, a, act, j) && (WeightOf(Token, a, j) > 0 ==> j !in w.sched)
    ensures TokenEnds(w, a, act, j)
  {
    assert a.Recovering? && a.sweep != [] ==> Mentions(a, a.sweep[0].0);
    assert WeightOf(Token, a, j) > 0 ==> Mentions(a, j);
  }

  lemma TokenCycle(w: World, a: Actor, act: Action, j: JobId)
    requires Ready(w, a, act, j) && (WeightOf(Token, a, j) > 0 ==> j !in w.sched)
    ensures TokenEnds(w, a, act, j)
  {
    if ByWorker(act) { WorkerTokenEnds(w, a, act, j); } else { OtherTokenEnds(w, a, act, j); }
  }

  // ---------- the invariant of a cycle ----------

  // Job j, picked up with retry count r when its handler had started e0 times and w0 had been waited.
  datatype Cycle = Cycle(j: JobId, r: nat, max: int, e0: nat, w0: int)

  ghost predicate InCycle(s: State, c: Cycle) {
    var w := s.world;
    && c.j in w.jobs && w.jobs[c.j].maxRetries == c.max
    && (forall i :: 0 <= i < |s.actors| ==> InStep(s.actors[i], c.j, w.jobs[c.j]))
    && Tally(c, w.jobs[c.j], TokenCount(s, c.j), Sum(Busy, s.actors, c.j), Count(w.hist.ledger, Executed(c.j)))
  }

  // Executions finished so far: row.retryCount - r.
  predicate Tally(c: Cycle, row: Row, tokens: nat, busy: nat, executed: nat) {
    var f := row.retryCount - c.r;
    && tokens <= 1 && f >= 0
    && executed == c.e0 + f + busy
    && (tokens == 1 ==> f == 0 || row.retryCount < c.max)
    && (tokens == 0 ==> f >= 1 && row.retryCount >= c.max && (f == 1 || row.retryCount - 1 < c.max))
    && (row.status == Dead ==> tokens == 0)
  }

  // Retries scheduled so far, and what they asked for in total.
  predicate Waits(c: Cycle, retryCount: int, tokens: nat, resting: nat, waited: int) {
    var b := retryCount - c.r - resting - One(tokens == 0);
    c.max <= 34 ==> b >= 0 && waited == c.w0 + DelaySum(c.r + 1, b) * SECOND
  }

  ghost predicate Patient(s: State, c: Cycle)
    requires c.j in s.world.jobs
  {
    Waits(c, s.world.jobs[c.j].retryCount, TokenCount(s, c.j), Sum(Resting, s.actors, c.j), Waited(s.world.hist, c.j))
  }

  lemma {:induction false} SumWithin(k: Weight, actors: seq<Actor>, j: JobId)
    requires k == Busy || k == Resting
    ensures Sum(k, actors, j) <= Sum(Token, actors, j)
  {
    if actors == [] {
    } else {
      SumWithin(k, actors[1..], j);
    }
  }

  // An executing holder leaves room for no resting one.
  lemma RestOrBusy(actors: seq<Actor>, i: nat, j: JobId)
    requires i < |actors| && Sum(Token, actors, j) <= 1
    ensures actors[i].Executing? && actors[i].id == j ==> Sum(Token, actors, j) == 1 && Sum(Resting, actors, j) == 0
    ensures actors[i].BackingOff? && actors[i].id == j ==> Sum(Resting, actors, j) == 1
  {
    SumAtLeast(Token, actors, i, j);
    SumAtLeast(Resting, actors, i, j);
    SumWithin(Resting, actors, j);
    if actors[i].Executing? && actors[i].id == j {
      SumUpdate(Token, actors, i, Idle, j);
      SumUpdate(Resting, actors, i, Idle, j);
      SumWithin(Resting, actors[i := Idle], j);
    }
  }

  // The row of j, before and after one turn.
  ghost predicate RowNumbers(jobs: Table, jobs': Table, a: Actor, act: Action, j: JobId)
    requires j in jobs
  {
    && j in jobs' && jobs'[j].maxRetries == jobs[j].maxRetries
    && jobs'[j].retryCount == jobs[j].retryCount + One(Fails(a, act, j))
    && (jobs'[j].status == Dead ==>
          jobs[j].status == Dead || (Fails(a, act, j) && jobs[j].retryCount + 1 >= jobs[j].maxRetries))
    && (Fails(a, act, j) && jobs[j].retryCount + 1 >= jobs[j].maxRetries ==> jobs'[j].status == Dead)
  }

  lemma RowAfter(w: World, a: Actor, act: Action, e: Effect, j: JobId)
    requires j in w.jobs && RowCycle(w.jobs[j], a, act, e.db, j)
    ensures RowNumbers(w.jobs, Apply(w, e).jobs, a, act, j)
  {
    RowWritten(w.jobs, a, act, e.db, j, w.clock);
  }

  lemma RowWritten(jobs: Table, a: Actor, act: Action, op: DbOp, j: JobId, now: int)
    requires j in jobs && RowCycle(jobs[j], a, act, op, j)
    ensures RowNumbers(jobs, ApplyDb(jobs, op, now), a, act, j)
  {
    var jobs' := ApplyDb(jobs, op, now);
    if Fails(a, act, j) {
      assert jobs' == jobs[j := jobs[j].(status := op.status, retryCount := op.retryCount)];
    } else if op.Keep? || op.id != j {
      OtherRow(jobs, op, j, now);
    } else {
      assert jobs'[j].status == op.status;
    }
  }

  lemma OtherRow(jobs: Table, op: DbOp, j: JobId, now: int)
    requires j in jobs && (op.Keep? || op.id != j)
    ensures j in ApplyDb(jobs, op, now) && ApplyDb(jobs, op, now)[j] == jobs[j]
  {
  }

  // What happened to j, before and after one turn.
  ghost predicate PastNumbers(hist: History, hist': History, a: Actor, act: Action, j: JobId, retryCount: int) {
    && Count(hist'.ledger, Executed(j)) == Count(hist.ledger, Executed(j)) + One(Begins(a, act, j))
    && Waited(hist', j) == Waited(hist, j) + if Rests(a, act, j) then DelayOf(retryCount, act.platform) else 0
  }

  lemma OthersInStep(s: State, i: nat, m: nat, j: JobId, row: Row)
    requires i < |s.actors| && m < |s.actors| && i != m
    requires s.actors[m].Executing? && s.actors[m].id == j && TokenCount(s, j) <= 1
    requires j in s.world.jobs && InStep(s.actors[i], j, s.world.jobs[j])
    ensures InStep(s.actors[i], j, row)
  {
    if i < m { SumAtLeastTwo(Token, s.actors, i, m, j); } else { SumAtLeastTwo(Token, s.actors, m, i, j); }
  }

  lemma StepReady(s: State, t: Turn, c: Cycle)
    requires Sound(s) && InCycle(s, c) && CalmTurn(s, t, c.j)
    requires t.who < |s.actors| && Enabled(s.world, s.actors[t.who], t.act)
    ensures Ready(s.world, s.actors[t.who], t.act, c.j)
    ensures WeightOf(Token, s.actors[t.who], c.j) > 0 ==> c.j !in s.world.sched
  {
    assert ActorOk(s.world, s.actors[t.who]);
    SumAtLeast(Token, s.actors, t.who, c.j);
  }

  lemma PastAfter(w: World, a: Actor, act: Action, e: Effect, j: JobId)
    requires j in w.jobs && Cycles(w, a, act, e, j)
    ensures PastNumbers(w.hist, Apply(w, e).hist, a, act, j, w.jobs[j].retryCount)
  {
    NoteCounts(w.hist, e.redis, e.note, j);
  }

  lemma NoteCounts(h: History, op: RedisOp, note: Option<Event>, j: JobId)
    ensures var h' := ApplyHistory(h, op, note);
            && Count(h'.ledger, Executed(j)) == Count(h.ledger, Executed(j)) + One(note == Some(Executed(j)))
            && Waited(h', j) == Waited(h, j) +
                 if op.SetAdd? && op.id == j && op.wish.attempt > 0 then op.wish.runAt - op.wish.failedAt else 0
  {
  }

  // Everything the cycle counts, before and after one turn.
  ghost predicate HolderNumbers(s: State, s': State, a: Actor, act: Action, c: Cycle)
    requires c.j in s.world.jobs
  {
    var dies := Fails(a, act, c.j) && s.world.jobs[c.j].retryCount + 1 >= c.max;
    && TokenCount(s', c.j) + One(dies) == TokenCount(s, c.j)
    && Sum(Busy, s'.actors, c.j) + One(Fails(a, act, c.j)) == Sum(Busy, s.actors, c.j) + One(Begins(a, act, c.j))
    && Sum(Resting, s'.actors, c.j) + One(Rests(a, act, c.j)) ==
       Sum(Resting, s.actors, c.j) + One(Fails(a, act, c.j) && !dies)
  }

  ghost predicate Numbers(s: State, s': State, a: Actor, act: Action, c: Cycle)
    requires c.j in s.world.jobs
  {
    && HolderNumbers(s, s', a, act, c)
    && RowNumbers(s.world.jobs, s'.world.jobs, a, act, c.j)
    && PastNumbers(s.world.hist, s'.world.hist, a, act, c.j, s.world.jobs[c.j].retryCount)
  }

  lemma StepHolderNumbers(s: State, t: Turn, c: Cycle)
    requires Sound(s) && InCycle(s, c) && CalmTurn(s, t, c.j)
    requires t.who < |s.actors| && Enabled(s.world, s.actors[t.who], t.act)
    ensures HolderNumbers(s, Step(s, t), s.actors[t.who], t.act, c)
  {
    var w, a, act, j := s.world, s.actors[t.who], t.act, c.j;
    StepReady(s, t, c);
    AllCycle(w, a, act, j);
    TokenCycle(w, a, act, j);
    TokenBalance(s, t, j);
    SumUpdate(Busy, s.actors, t.who, EffectOf(w, a, act).next, j);
    SumUpdate(Resting, s.actors, t.who, EffectOf(w, a, act).next, j);
    StepIs(s, t);
  }

  lemma StepNumbers(s: State, t: Turn, c: Cycle)
    requires Sound(s) && InCycle(s, c) && CalmTurn(s, t, c.j)
    requires t.who < |s.actors| && Enabled(s.world, s.actors[t.who], t.act)
    ensures Numbers(s, Step(s, t), s.actors[t.who], t.act, c)
  {
    var w, a := s.world, s.actors[t.who];
    StepReady(s, t, c);
    StepHolderNumbers(s, t, c);
    AllCycle(w, a, t.act, c.j);
    RowAfter(w, a, t.act, EffectOf(w, a, t.act), c.j);
    PastAfter(w, a, t.act, EffectOf(w, a, t.act), c.j);
    StepIs(s, t);
  }

  lemma StepTally(s: State, t: Turn, c: Cycle)
    requires Sound(s) && InCycle(s, c) && CalmTurn(s, t, c.j)
    requires t.who < |s.actors| && Enabled(s.world, s.actors[t.who], t.act)
    ensures var s' := Step(s, t);
            && c.j in s'.world.jobs && s'.world.jobs[c.j].maxRetries == c.max
            && Tally(c, s'.world.jobs[c.j], TokenCount(s', c.j), Sum(Busy, s'.actors, c.j),
                     Count(s'.world.hist.ledger, Executed(c.j)))
  {
    StepNumbers(s, t, c);
    TallyStep(s, Step(s, t), t.who, t.act, c);
  }

  lemma TallyStep(s: State, s': State, i: nat, act: Action, c: Cycle)
    requires InCycle(s, c) && i < |s.actors| && Numbers(s, s', s.actors[i], act, c)
    ensures Tally(c, s'.world.jobs[c.j], TokenCount(s', c.j), Sum(Busy, s'.actors, c.j),
                  Count(s'.world.hist.ledger, Executed(c.j)))
  {
    SumAtLeast(Token, s.actors, i, c.j);
  }

  lemma StepInCycle(s: State, t: Turn, c: Cycle)
    requires Sound(s) && InCycle(s, c) && CalmTurn(s, t, c.j)
    ensures InCycle(Step(s, t), c)
  {
    if t.who >= |s.actors| || !Enabled(s.world, s.actors[t.who], t.act) {
      assert Step(s, t) == s;
      return;
    }
    var w, a, act, j := s.world, s.actors[t.who], t.act, c.j;
    StepTally(s, t, c);
    StepReady(s, t, c);
    AllCycle(w, a, act, j);
    RowAfter(w, a, act, EffectOf(w, a, act), j);
    StepIs(s, t);
    var s' := Step(s, t);
    forall i | 0 <= i < |s'.actors| ensures InStep(s'.actors[i], j, s'.world.jobs[j]) {
      if i != t.who && Fails(a, act, j) { OthersInStep(s, i, t.who, j, s'.world.jobs[j]); }
    }
  }

  // The numbers of a turn that schedules a retry, and of one that does not.
  lemma WaitsStep(c: Cycle, rc: int, tokens: nat, resting: nat, waited: int,
                  fails: bool, rests: bool, tokens': nat, resting': nat, platform: int)
    requires Waits(c, rc, tokens, resting, waited) && resting <= tokens <= 1 && !(fails && rests)
    requires fails ==> tokens == 1 && resting == 0
    requires rests ==> resting == 1 && (rc - c.r == 0 || rc < c.max)
    requires tokens' + One(fails && rc + 1 >= c.max) == tokens
    requires resting' + One(rests) == resting + One(fails && rc + 1 < c.max)
    ensures Waits(c, rc + One(fails), tokens', resting', waited + if rests then DelayOf(rc, platform) else 0)
  {
    if rests && c.max <= 34 {
      BackoffExact(rc, platform);
      assert DelaySum(c.r + 1, rc - c.r) == DelaySum(c.r + 1, rc - c.r - 1) + Pow2(rc);
    }
  }

  lemma StepPatient(s: State, t: Turn, c: Cycle)
    requires Sound(s) && InCycle(s, c) && Patient(s, c) && CalmTurn(s, t, c.j)
    ensures c.j in Step(s, t).world.jobs && Patient(Step(s, t), c)
  {
    if t.who >= |s.actors| || !Enabled(s.world, s.actors[t.who], t.act) {
      assert Step(s, t) == s;
      return;
    }
    StepNumbers(s, t, c);
    PatientStep(s, Step(s, t), t.who, t.act, c);
  }

  lemma PatientStep(s: State, s': State, i: nat, act: Action, c: Cycle)
    requires InCycle(s, c) && Patient(s, c) && i < |s.actors| && Numbers(s, s', s.actors[i], act, c)
    ensures Patient(s', c)
  {
    var a := s.actors[i];
    SumWithin(Resting, s.actors, c.j);
    RestOrBusy(s.actors, i, c.j);
    WaitsStep(c, s.world.jobs[c.j].retryCount, TokenCount(s, c.j), Sum(Resting, s.actors, c.j),
              Waited(s.world.hist, c.j), Fails(a, act, c.j), Rests(a, act, c.j),
              TokenCount(s', c.j), Sum(Resting, s'.actors, c.j), if act.BackOff? then act.platform else 0);
  }

  // ---------- whole runs ----------

  // The one token is in a list or in the sorted set and nobody remembers the job.
  ghost predicate AtRest(s: State, j: JobId) {
    && j in s.world.jobs && s.world.jobs[j].status != Dead
    && TokenCount(s, j) == 1 && forall i :: 0 <= i < |s.actors| ==> !Mentions(s.actors[i], j)
  }

  ghost function CycleFrom(s: State, j: JobId): Cycle
    requires j in s.world.jobs && RowsOk(s.world)
  {
    Cycle(j, s.world.jobs[j].retryCount, s.world.jobs[j].maxRetries,
          Count(s.world.hist.ledger, Executed(j)), Waited(s.world.hist, j))
  }

  lemma CycleStarts(s: State, j: JobId)
    requires Sound(s) && AtRest(s, j)
    ensures InCycle(s, CycleFrom(s, j)) && Patient(s, CycleFrom(s, j))
  {
    SumZero(Busy, s.actors, j);
    SumZero(Resting, s.actors, j);
  }

  lemma {:induction false} RunInCycle(s: State, run: seq<Turn>, k: nat, c: Cycle)
    requires Sound(s) && InCycle(s, c) && Patient(s, c) && CalmRun(s, run, c.j) && k <= |run|
    ensures InCycle(After(s, run, k), c) && Patient(After(s, run, k), c)
  {
    if k == 0 {
    } else {
      RunInCycle(s, run, k - 1, c);
      RunSound(s, run[..k - 1]);
      AfterNext(s, run, k - 1);
      StepInCycle(After(s, run, k - 1), run[k - 1], c);
      StepPatient(After(s, run, k - 1), run[k - 1], c);
    }
  }

  // The turn that ends the token writes the row dead.
  lemma EndsDead(s: State, t: Turn, c: Cycle)
    requires Sound(s) && InCycle(s, c) && CalmTurn(s, t, c.j)
    requires TokenCount(s, c.j) > 0 && TokenCount(Step(s, t), c.j) == 0
    ensures c.j in Step(s, t).world.jobs && Step(s, t).world.jobs[c.j].status == Dead
  {
    var moves := t.who < |s.actors| && Enabled(s.world, s.actors[t.who], t.act);
    assert !moves ==> Step(s, t) == s;
    if moves { StepNumbers(s, t, c); }
  }

  ghost predicate DeadAt(s: State, run: seq<Turn>, k: nat, j: JobId)
    requires k <= |run|
  {
    j in After(s, run, k).world.jobs && After(s, run, k).world.jobs[j].status == Dead
  }

  lemma {:induction false} DiesByThen(s: State, run: seq<Turn>, k: nat, c: Cycle) returns (m: nat)
    requires Sound(s) && InCycle(s, c) && Patient(s, c) && CalmRun(s, run, c.j) && k <= |run|
    requires TokenCount(s, c.j) > 0 && TokenCount(After(s, run, k), c.j) == 0
    ensures m <= k && DeadAt(s, run, m, c.j)
  {
    assert run[..0] == [];
    if k > 0 && TokenCount(After(s, run, k - 1), c.j) == 0 {
      m := DiesByThen(s, run, k - 1, c);
    } else if k > 0 {
      RunInCycle(s, run, k - 1, c);
      RunSound(s, run[..k - 1]);
      AfterNext(s, run, k - 1);
      EndsDead(After(s, run, k - 1), run[k - 1], c);
      m := k;
    }
  }

  // What the counts say once the token is gone.
  lemma CycleEnds(c: Cycle, row: Row, tokens: nat, busy: nat, resting: nat, executed: nat, waited: int)
    requires Tally(c, row, tokens, busy, executed) && Waits(c, row.retryCount, tokens, resting, waited)
    requires busy <= tokens && resting <= tokens
    ensures 0 <= executed - c.e0 <= Max(1, c.max - c.r)
    ensures tokens == 0 ==>
              && executed - c.e0 == Max(1, c.max - c.r)
              && row.retryCount == Max(c.r + 1, c.max)
              && (c.max <= 34 ==> waited - c.w0 == (Pow2(Max(c.r + 1, c.max)) - Pow2(c.r + 1)) * SECOND)
  {
    if tokens == 0 && c.max <= 34 { DelaySumClosed(c.r + 1, row.retryCount - c.r - 1); }
  }

  /** From retry count r, a job left to its retries is executed at most max(1, max - r) times in any
      calm run; it keeps its token until it has died, and from then on the count is exact and, for
      limits up to 34, the delays asked for add up to 2^max(r+1, max) - 2^(r+1) seconds. */
  lemma RetriesToDeath(s: State, run: seq<Turn>, j: JobId)
    requires Sound(s) && AtRest(s, j) && CalmRun(s, run, j)
    ensures var s' := Exec(s, run);
            var r, max := s.world.jobs[j].retryCount, s.world.jobs[j].maxRetries;
            var runs := Count(s'.world.hist.ledger, Executed(j)) - Count(s.world.hist.ledger, Executed(j));
            && r >= 0 && j in s'.world.jobs
            && 0 <= runs <= Max(1, max - r)
            && (s'.world.jobs[j].status == Dead ==> TokenCount(s', j) == 0)
            && (TokenCount(s', j) == 0 ==>
                  && (exists k :: 0 <= k <= |run| && DeadAt(s, run, k, j))
                  && runs == Max(1, max - r)
                  && s'.world.jobs[j].retryCount == Max(r + 1, max)
                  && (max <= 34 ==> Waited(s'.world.hist, j) - Waited(s.world.hist, j) ==
                                    (Pow2(Max(r + 1, max)) - Pow2(r + 1)) * SECOND))
  {
    assert RowsOk(s.world);
    var c := CycleFrom(s, j);
    CycleStarts(s, j);
    RunInCycle(s, run, |run|, c);
    assert run[..|run|] == run;
    var s' := Exec(s, run);
    SumWithin(Busy, s'.actors, j);
    SumWithin(Resting, s'.actors, j);
    CycleEnds(c, s'.world.jobs[j], TokenCount(s', j), Sum(Busy, s'.actors, j), Sum(Resting, s'.actors, j),
              Count(s'.world.hist.ledger, Executed(j)), Waited(s'.world.hist, j));
    if TokenCount(s', j) == 0 { var k := DiesByThen(s, run, |run|, c); }
  }
}
