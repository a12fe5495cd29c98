/** A failing job can always be run to its death: from every sound state in which its one token waits
    in a list or in the set, whatever else waits there, one idle slot is enough. */
module Death {
  import opened Jobs
  import opened Calls
  import opened Selection
  import opened Redis
  import opened Protocol
  import opened Tokens
  import opened Soundness
  import opened NoLostJob
  import opened RetryCycle
  import opened Processes
  import opened ProcessRuns
  import opened SlotRuns
  import opened Runs

  // ---------- calm turns ----------

  // Actions that leave every job to its retries, wherever they are taken.
  predicate Gentle(act: Action) {
    match act
    case Pop(_, io) => io.Done?
    case Load(io) => io.Done?
    case Fail(io) => io.Done?
    case BackOff(io, _) => io.Done?
    case DueFetch(_, io) => io.Done?
    case DueLoad(io) => io.Done?
    case DuePush(io) => io.Done?
    case DueMark(io) => io.Done?
    case Tick(_) => true
    case _ => false
  }

  lemma GentleIsCalm(s: State, t: Turn, j: JobId)
    requires Gentle(t.act)
    ensures CalmTurn(s, t, j)
  {
  }

  lemma GentleRun(s: State, who: nat, acts: seq<Action>, j: JobId)
    requires forall k :: 0 <= k < |acts| ==> Gentle(acts[k])
    ensures CalmRun(s, Turns(who, acts), j)
  {
    var run := Turns(who, acts);
    forall k | 0 <= k < |run| ensures CalmTurn(After(s, run, k), run[k], j) {
      GentleIsCalm(After(s, run, k), run[k], j);
    }
  }

  lemma GentleIsClean(who: nat, acts: seq<Action>)
    requires forall k :: 0 <= k < |acts| ==> Gentle(acts[k])
    ensures Clean(Turns(who, acts))
  {
  }

  // The slot's place after its first k actions.
  lemma SlotAfter(s: State, who: nat, acts: seq<Action>, k: nat)
    requires who < |s.actors| && k <= |acts|
    ensures var p := Thens(Place(s.world, s.actors[who]), acts[..k]);
            After(s, Turns(who, acts), k) == State(p.w, s.actors[who := p.a])
  {
    SlotRun(s, who, acts[..k]);
    assert Turns(who, acts)[..k] == Turns(who, acts[..k]);
  }

  lemma WorkIsClean(who: nat, queues: seq<string>, f: JobFate)
    requires f == FAILING || f == SUCCEEDING
    ensures Clean(Turns(who, WorkActs(queues, Done, f)))
  {
  }

  lemma CalmJoin(s: State, first: seq<Turn>, second: seq<Turn>, j: JobId) returns (run: seq<Turn>)
    requires CalmRun(s, first, j) && Clean(first) && CalmRun(Exec(s, first), second, j) && Clean(second)
    ensures CalmRun(s, run, j) && Clean(run) && Exec(s, run) == Exec(Exec(s, first), second)
  {
    Concat(s, first, second, j);
    run := first + second;
  }

  // ---------- at rest between phases ----------

  /** The job has one token, in a list or in the set, its handler exists, and slot i is free. */
  ghost predicate Poised(s: State, i: nat, j: JobId) {
    && Sound(s) && AtRest(s, j)
    && i < |s.actors| && s.actors[i] == Idle
    && s.world.jobs[j].jobType in s.world.conf.handlers
  }

  // A calm phase after which every actor stands where it stood, and the job is not dead.
  ghost predicate Phase(s: State, run: seq<Turn>, j: JobId)
    requires j in s.world.jobs
  {
    var s' := Exec(s, run);
    && CalmRun(s, run, j)
    && s'.actors == s.actors && s'.world.conf == s.world.conf
    && j in s'.world.jobs && s'.world.jobs[j].status != Dead
    && s'.world.jobs[j].jobType == s.world.jobs[j].jobType
    && (s'.world.jobs[j].retryCount == s.world.jobs[j].retryCount
        || s'.world.jobs[j].retryCount < s'.world.jobs[j].maxRetries)
  }

  lemma StillPoised(s: State, run: seq<Turn>, i: nat, j: JobId)
    requires Poised(s, i, j) && Phase(s, run, j)
    ensures Poised(Exec(s, run), i, j)
    ensures Exec(s, run).world.jobs[j].maxRetries == s.world.jobs[j].maxRetries
  {
    assert RowsOk(s.world);
    var c := CycleFrom(s, j);
    CycleStarts(s, j);
    RunInCycle(s, run, |run|, c);
    assert run[..|run|] == run;
    RunSound(s, run);
  }

  // ---------- other ids ahead of the job ----------

  // An id ahead of the job is popped and processed to its end.
  lemma SkipOther(s: State, i: nat, j: JobId, q: string) returns (run: seq<Turn>)
    requires Poised(s, i, j) && ListOf(s.world.lists, q) != [] && Tail(s.world.lists, q) != j
    ensures Phase(s, run, j) && Clean(run)
    ensures Exec(s, run).world.jobs[j] == s.world.jobs[j] && Exec(s, run).world.lists == DropTail(s.world.lists, q)
  {
    assert RowsOk(s.world);
    run := Turns(i, WorkActs([q], Done, SUCCEEDING));
    WorkIsClean(i, [q], SUCCEEDING);
    WorkTurns(s, i, [q], Done, SUCCEEDING);
    SkippedView(ViewOf(s.world), q, j, s.world.conf.handlers, s.world.clock);
    SkipCalm(s, i, j, q);
  }

  lemma SkippedView(v: View, q: string, j: JobId, handlers: set<string>, now: int)
    requires forall id :: id in v.jobs ==> v.jobs[id].retryCount >= 0
    requires ListOf(v.lists, q) != [] && Tail(v.lists, q) != j && j in v.jobs
    ensures var v' := AfterWork(v, [q], handlers, now, Done, SUCCEEDING);
            j in v'.jobs && v'.jobs[j] == v.jobs[j] && v'.lists == DropTail(v.lists, q)
  {
    assert FirstNonEmpty(v.lists, [q]) == Some(q);
  }

  // A worker busy with another job stays away from j.
  lemma BusyElsewhere(p: Place, act: Action, j: JobId)
    requires !Mentions(p.a, j) && (act.Load? || act.Begin? || act.Tick? || act.Complete?)
    ensures !Mentions(Then(p, act).a, j) && (Faultless(act) ==> Calm(p.w, p.a, act, j))
  {
  }

  lemma SkipCalm(s: State, i: nat, j: JobId, q: string)
    requires i < |s.actors| && s.actors[i] == Idle && ListOf(s.world.lists, q) != [] && Tail(s.world.lists, q) != j
    ensures CalmRun(s, Turns(i, WorkActs([q], Done, SUCCEEDING)), j)
  {
    var acts := WorkActs([q], Done, SUCCEEDING);
    var run := Turns(i, acts);
    forall k | 0 <= k < |run| ensures CalmTurn(After(s, run, k), run[k], j) {
      if k == 0 {
        GentleIsCalm(After(s, run, 0), run[0], j);
      } else {
        ElsewhereUntil(s, i, j, q, k);
        SlotAfter(s, i, acts, k);
        BusyElsewhere(Thens(Place(s.world, Idle), acts[..k]), acts[k], j);
      }
    }
  }

  lemma {:induction false} ElsewhereUntil(s: State, i: nat, j: JobId, q: string, k: nat)
    requires i < |s.actors| && s.actors[i] == Idle && ListOf(s.world.lists, q) != [] && Tail(s.world.lists, q) != j
    requires 1 <= k <= |WorkActs([q], Done, SUCCEEDING)|
    ensures !Mentions(Thens(Place(s.world, Idle), WorkActs([q], Done, SUCCEEDING)[..k]).a, j)
  {
    var acts, p := WorkActs([q], Done, SUCCEEDING), Place(s.world, Idle);
    if k == 1 {
      assert FirstNonEmpty(s.world.lists, [q]) == Some(q);
      ThenPop(p, [q], Done);
      ThensOne(p, Pop([q], Done));
      assert acts[..1] == [Pop([q], Done)];
    } else {
      ElsewhereUntil(s, i, j, q, k - 1);
      BusyElsewhere(Thens(p, acts[..k - 1]), acts[k - 1], j);
      ThensSnoc(p, acts[..k - 1], acts[k - 1]);
      assert acts[..k] == acts[..k - 1] + [acts[k - 1]];
    }
  }

  // The job is next in list q, its row as it was.
  ghost predicate Upfront(s: State, i: nat, j: JobId, q: string, row: Row) {
    Poised(s, i, j) && s.world.jobs[j] == row && ListOf(s.world.lists, q) != [] && Tail(s.world.lists, q) == j
  }

  lemma {:induction false} DrainTo(s: State, i: nat, j: JobId, q: string, row: Row) returns (run: seq<Turn>)
    requires Poised(s, i, j) && s.world.jobs[j] == row && j in ListOf(s.world.lists, q)
    ensures CalmRun(s, run, j) && Clean(run) && Upfront(Exec(s, run), i, j, q, row)
    decreases |ListOf(s.world.lists, q)|
  {
    if Tail(s.world.lists, q) == j {
      run := [];
    } else {
      var first := SkipOther(s, i, j, q);
      StillPoised(s, first, i, j);
      StillListed(s.world.lists, q, j);
      var rest := DrainTo(Exec(s, first), i, j, q, row);
      run := CalmJoin(s, first, rest, j);
    }
  }

  lemma StillListed(lists: Lists, q: string, j: JobId)
    requires j in ListOf(lists, q) && Tail(lists, q) != j
    ensures j in ListOf(DropTail(lists, q), q) && |ListOf(DropTail(lists, q), q)| < |ListOf(lists, q)|
  {
  }

  // ---------- one execution ----------

  const FAILING: JobFate := JobFate(Done, Done, 0, true, Done, Done, 0)
  const SUCCEEDING: JobFate := JobFate(Done, Done, 0, false, Done, Done, 0)

  lemma FailCalm(s: State, i: nat, j: JobId, q: string)
    requires Poised(s, i, j) && ListOf(s.world.lists, q) != [] && Tail(s.world.lists, q) == j
    ensures CalmRun(s, Turns(i, WorkActs([q], Done, FAILING)), j)
  {
    var acts := WorkActs([q], Done, FAILING);
    var run := Turns(i, acts);
    forall k | 0 <= k < |run| ensures CalmTurn(After(s, run, k), run[k], j) {
      if k == 2 {
        BeginCalm(s, i, j, q);
        SlotAfter(s, i, acts, 2);
        assert acts[..2] == [Pop([q], Done), Load(Done)];
      } else {
        GentleIsCalm(After(s, run, k), run[k], j);
      }
    }
  }

  lemma BeginCalm(s: State, i: nat, j: JobId, q: string)
    requires Poised(s, i, j) && ListOf(s.world.lists, q) != [] && Tail(s.world.lists, q) == j
    ensures var p := Thens(Place(s.world, Idle), [Pop([q], Done), Load(Done)]);
            p.a == Loaded(j, s.world.jobs[j]) && Calm(p.w, p.a, Begin(Done), j)
  {
    var p := Place(s.world, Idle);
    assert FirstNonEmpty(s.world.lists, [q]) == Some(q);
    ThenPop(p, [q], Done);
    ThenLoad(Then(p, Pop([q], Done)), Done);
    ThensTwo(p, Pop([q], Done), Load(Done));
  }

  // What the failing execution leaves of the row.
  lemma FailedView(v: View, q: string, j: JobId, handlers: set<string>, now: int)
    requires forall id :: id in v.jobs ==> v.jobs[id].retryCount >= 0
    requires ListOf(v.lists, q) != [] && Tail(v.lists, q) == j && j in v.jobs && v.jobs[j].jobType in handlers
    ensures var v' := AfterWork(v, [q], handlers, now, Done, FAILING);
            var n := v.jobs[j].retryCount + 1;
            && j in v'.jobs
            && v'.jobs[j] == v.jobs[j].(status := if n >= v.jobs[j].maxRetries then Dead else Retrying,
                                        retryCount := n, startedAt := Some(now))
  {
    assert FirstNonEmpty(v.lists, [q]) == Some(q);
  }

  lemma FailOnce(s: State, i: nat, j: JobId, q: string) returns (run: seq<Turn>)
    requires Poised(s, i, j) && ListOf(s.world.lists, q) != [] && Tail(s.world.lists, q) == j
    ensures CalmRun(s, run, j) && Clean(run)
    ensures var jobs, n := Exec(s, run).world.jobs, s.world.jobs[j].retryCount + 1;
            && j in jobs && jobs[j].retryCount == n && jobs[j].maxRetries == s.world.jobs[j].maxRetries
            && if n >= jobs[j].maxRetries then jobs[j].status == Dead else Poised(Exec(s, run), i, j)
  {
    run := Turns(i, WorkActs([q], Done, FAILING));
    WorkIsClean(i, [q], FAILING);
    FailCalm(s, i, j, q);
    FailedState(s, i, j, q);
    if s.world.jobs[j].retryCount + 1 < s.world.jobs[j].maxRetries { StillPoised(s, run, i, j); }
  }

  lemma FailedState(s: State, i: nat, j: JobId, q: string)
    requires Poised(s, i, j) && ListOf(s.world.lists, q) != [] && Tail(s.world.lists, q) == j
    ensures var s' := Exec(s, Turns(i, WorkActs([q], Done, FAILING)));
            var row, n := s.world.jobs[j], s.world.jobs[j].retryCount + 1;
            && s'.actors == s.actors && s'.world.conf == s.world.conf && j in s'.world.jobs
            && s'.world.jobs[j] == row.(status := if n >= row.maxRetries then Dead else Retrying,
                                        retryCount := n, startedAt := Some(s.world.clock))
  {
    assert RowsOk(s.world);
    WorkTurns(s, i, [q], Done, FAILING);
    FailedView(ViewOf(s.world), q, j, s.world.conf.handlers, s.world.clock);
  }

  // ---------- out of the set ----------

  const ALLDONE: DueFate := DueFate(Done, Done, Done)

  function AllDone(n: nat): (fates: seq<DueFate>)
    ensures |fates| == n && forall k :: 0 <= k < n ==> fates[k] == ALLDONE
  {
    seq(n, _ => ALLDONE)
  }

  // The due loop leaves j's row as it is, or makes it pending.
  lemma {:induction false} DuesRow(v: View, ids: seq<JobId>, now: int, j: JobId)
    requires j in v.jobs
    ensures var v' := AfterDues(v, ids, now, AllDone(|ids|));
            && v'.sched == v.sched && j in v'.jobs
            && (v'.jobs[j] == v.jobs[j] || v'.jobs[j] == v.jobs[j].(status := Pending))
  {
    if ids == [] {
    } else {
      var n := |ids| - 1;
      DuesRow(v, ids[..n], now, j);
      assert AllDone(|ids|)[..n] == AllDone(n);
      DueRow(AfterDues(v, ids[..n], now, AllDone(n)), ids[n], now, j);
    }
  }

  lemma DueRow(v: View, id: JobId, now: int, j: JobId)
    requires j in v.jobs
    ensures var v' := AfterDue(v, id, now, ALLDONE);
            && v'.sched == v.sched && j in v'.jobs
            && (v'.jobs[j] == v.jobs[j] || v'.jobs[j] == v.jobs[j].(status := Pending))
  {
  }

  lemma {:induction false} DueActsGentle(n: nat)
    ensures forall k :: 0 <= k < |DueActs(AllDone(n))| ==> Gentle(DueActs(AllDone(n))[k])
  {
    if n == 0 {
    } else {
      DueActsGentle(n - 1);
      assert AllDone(n)[..n - 1] == AllDone(n - 1);
    }
  }

  // Time passes until the job is due.
  lemma WaitTurn(s: State, i: nat, j: JobId) returns (run: seq<Turn>)
    requires Poised(s, i, j) && j in s.world.sched
    ensures Phase(s, run, j) && Clean(run) && ViewOf(Exec(s, run).world) == ViewOf(s.world)
    ensures s.world.sched[j] <= Unix(Exec(s, run).world.clock)
  {
    var gap := (s.world.sched[j] + 1) * SECOND - s.world.clock;
    var dt := if gap > 0 then gap else 0;
    ThenTick(Place(s.world, Idle), dt);
    ThensOne(Place(s.world, Idle), Tick(dt));
    PathLeaves(s, i, [Tick(dt)], ViewOf(s.world));
    SlotRun(s, i, [Tick(dt)]);
    GentleRun(s, i, [Tick(dt)], j);
    UnixAtLeast(s.world.sched[j], s.world.clock + dt);
    run := Turns(i, [Tick(dt)]);
  }

  lemma UnixAtLeast(score: int, t: int)
    requires t >= score * SECOND
    ensures score <= Unix(t)
  {
  }

  lemma FetchPhase(s: State, i: nat, j: JobId) returns (run: seq<Turn>)
    requires Poised(s, i, j) && j in s.world.sched && s.world.sched[j] <= Unix(s.world.clock)
    ensures Phase(s, run, j) && Clean(run) && j !in Exec(s, run).world.sched
    ensures Exec(s, run).world.jobs[j].retryCount == s.world.jobs[j].retryCount
  {
    var due := Due(s.world.sched, Unix(s.world.clock));
    var order := SelectionExists(due, |due|);
    var acts := ScheduledActs(order, Done, AllDone(|order|));
    run := Turns(i, acts);
    ScheduledTurns(s, i, order, Done, AllDone(|order|));
    DueActsGentle(|order|);
    GentleRun(s, i, acts, j);
    GentleIsClean(i, acts);
    DuesRow(ViewOf(s.world).(sched := NotDue(s.world.sched, Unix(s.world.clock))), order, s.world.clock, j);
  }

  // ---------- one round ----------

  lemma {:induction false} SomeList(lists: Lists, keys: set<string>, j: JobId) returns (q: string)
    requires keys <= lists.Keys && InKeys(lists, keys, j) > 0
    ensures j in ListOf(lists, q)
    decreases keys
  {
    var p :| p in keys && InKeys(lists, keys, j) == Occurs(lists[p], j) + InKeys(lists, keys - {p}, j);
    assert Occurs(lists[p], j) > 0 ==> j in lists[p];
    if j in lists[p] { q := p; } else { q := SomeList(lists, keys - {p}, j); }
  }

  lemma ListHolds(s: State, j: JobId) returns (q: string)
    requires AtRest(s, j) && j !in s.world.sched
    ensures j in ListOf(s.world.lists, q)
  {
    SumZero(Token, s.actors, j);
    q := SomeList(s.world.lists, s.world.lists.Keys, j);
  }

  lemma ToList(s: State, i: nat, j: JobId) returns (run: seq<Turn>, q: string)
    requires Poised(s, i, j)
    ensures CalmRun(s, run, j) && Clean(run) && Poised(Exec(s, run), i, j) && j in ListOf(Exec(s, run).world.lists, q)
    ensures Exec(s, run).world.jobs[j].retryCount == s.world.jobs[j].retryCount
    ensures Exec(s, run).world.jobs[j].maxRetries == s.world.jobs[j].maxRetries
  {
    run := [];
    if j in s.world.sched {
      var wait := WaitTurn(s, i, j);
      StillPoised(s, wait, i, j);
      var fetch := FetchPhase(Exec(s, wait), i, j);
      StillPoised(Exec(s, wait), fetch, i, j);
      run := CalmJoin(s, wait, fetch, j);
    }
    q := ListHolds(Exec(s, run), j);
  }

  lemma OneRound(s: State, i: nat, j: JobId) returns (run: seq<Turn>)
    requires Poised(s, i, j)
    ensures CalmRun(s, run, j) && Clean(run)
    ensures var jobs, n := Exec(s, run).world.jobs, s.world.jobs[j].retryCount + 1;
            && j in jobs && jobs[j].retryCount == n && jobs[j].maxRetries == s.world.jobs[j].maxRetries
            && if n >= jobs[j].maxRetries then jobs[j].status == Dead else Poised(Exec(s, run), i, j)
  {
    var first, q := ToList(s, i, j);
    var s1 := Exec(s, first);
    var second := DrainTo(s1, i, j, q, s1.world.jobs[j]);
    run := CalmJoin(s, first, second, j);
    var third := FailOnce(Exec(s, run), i, j, q);
    run := CalmJoin(s, run, third, j);
  }

  lemma {:induction false} ReachDead(s: State, i: nat, j: JobId, left: nat) returns (run: seq<Turn>)
    requires Poised(s, i, j) && s.world.jobs[j].maxRetries - s.world.jobs[j].retryCount <= left
    ensures CalmRun(s, run, j) && Clean(run)
    ensures j in Exec(s, run).world.jobs && Exec(s, run).world.jobs[j].status == Dead
    decreases left
  {
    run := OneRound(s, i, j);
    if s.world.jobs[j].retryCount + 1 < s.world.jobs[j].maxRetries {
      var rest := ReachDead(Exec(s, run), i, j, left - 1);
      run := CalmJoin(s, run, rest, j);
    }
  }

  /** From every sound state in which a job has a single token, in a list or in the set and with any
      other ids around it, and one slot is idle: a calm run in which no call fails makes the job dead,
      and takes exactly max(1, max - r) executions to do so. */
  lemma FailingJobDies(s: State, i: nat, j: JobId) returns (run: seq<Turn>)
    requires Sound(s) && AtRest(s, j)
    requires i < |s.actors| && s.actors[i] == Idle && s.world.jobs[j].jobType in s.world.conf.handlers
    ensures CalmRun(s, run, j) && Clean(run)
    ensures var s' := Exec(s, run);
            && j in s'.world.jobs && s'.world.jobs[j].status == Dead
            && Count(s'.world.hist.ledger, Executed(j)) - Count(s.world.hist.ledger, Executed(j))
               == Max(1, s.world.jobs[j].maxRetries - s.world.jobs[j].retryCount)
  {
    run := ReachDead(s, i, j, Max(0, s.world.jobs[j].maxRetries - s.world.jobs[j].retryCount));
    RetriesToDeath(s, run, j);
  }
}
