/** The stale sweep: it only picks jobs nobody executes any more, and it drains a backlog. */
module StaleSweep {
  import opened Jobs
  import opened Calls
  import opened Selection
  import opened Storage
  import opened Protocol
  import opened Tokens
  import opened Soundness

  // Every execution still under way began at most twice the job timeout ago.
  ghost predicate Timely(s: State) {
    forall i :: 0 <= i < |s.actors| && s.actors[i].Executing? ==>
      s.world.clock <= s.actors[i].since + 2 * s.world.conf.jobTimeout
  }

  /** In every run, as long as executions finish within twice the timeout, the rows a sweep selects
      belong to no execution under way, even when duplicate tokens ran the job several times. */
  lemma StaleNotExecuting(slots: nat, conf: Config, clock: int, run: seq<Turn>, who: nat, order: seq<JobId>,
                          j: JobId, i: nat)
    requires var s := Exec(Start(slots, conf, clock), run);
             && Timely(s) && who < slots && i < slots
             && Enabled(s.world, s.actors[who], Reap(order, Done)) && j in order
    ensures var s := Exec(Start(slots, conf, clock), run);
            && s.actors[i].Executing? ==> s.actors[i].id != j
  {
    StartSound(slots, conf, clock);
    RunSound(Start(slots, conf, clock), run);
    var s := Exec(Start(slots, conf, clock), run);
    assert ActorOk(s.world, s.actors[i]);
  }

  // The sweep that the write in turn k belongs to began in turn m and was not interrupted since.
  ghost predicate SweepSince(s: State, run: seq<Turn>, m: nat, k: nat)
    requires k < |run|
  {
    && m < k && run[m].act.Reap? && run[m].who == run[k].who
    && (forall n :: m < n <= k ==> run[n].act.ReapWrite? && run[n].who == run[k].who)
    && (run[k].who < |s.actors| ==> After(s, run, m).actors[run[k].who].Idle?)
  }

  // Every sweep's query and its writes are uninterrupted.
  ghost predicate SweepsWhole(s: State, run: seq<Turn>) {
    forall k :: 0 <= k < |run| && run[k].act.ReapWrite? ==> exists m :: SweepSince(s, run, m, k)
  }

  // Rows still to be written are among those selected, and no other actor has moved since.
  ghost predicate Sweeping(before: State, now: State, who: nat, order: seq<JobId>)
    requires who < |before.actors|
  {
    && |now.actors| == |before.actors|
    && (forall i :: 0 <= i < |now.actors| && i != who ==> now.actors[i] == before.actors[i])
    && (now.actors[who].Idle? ||
        (now.actors[who].Reaping? &&
         forall i :: 0 <= i < |now.actors[who].stale| ==> now.actors[who].stale[i].0 in order))
  }

  lemma QueryBegins(s: State, who: nat, act: Action)
    requires who < |s.actors| && s.actors[who].Idle? && act.Reap?
    ensures Sweeping(s, Step(s, Turn(who, act)), who, act.order)
  {
  }

  lemma WriteGoesOn(before: State, s: State, who: nat, order: seq<JobId>, act: Action)
    requires who < |before.actors| && Sweeping(before, s, who, order) && act.ReapWrite?
    ensures Sweeping(before, Step(s, Turn(who, act)), who, order)
  {
  }

  lemma {:induction false} SweepingUntil(s: State, run: seq<Turn>, m: nat, k: nat, n: nat)
    requires k < |run| && SweepSince(s, run, m, k) && m < n <= k && run[k].who < |s.actors|
    ensures Sweeping(After(s, run, m), After(s, run, n), run[k].who, run[m].act.order)
  {
    AfterNext(s, run, n - 1);
    if n == m + 1 {
      QueryBegins(After(s, run, m), run[k].who, run[m].act);
    } else {
      SweepingUntil(s, run, m, k, n - 1);
      assert run[n - 1] == Turn(run[k].who, run[n - 1].act);
      WriteGoesOn(After(s, run, m), After(s, run, n - 1), run[k].who, run[m].act.order, run[n - 1].act);
    }
  }

  /** With sweeps uninterrupted and executions at most twice the timeout old whenever a sweep queries,
      no write of the stale sweep hits a job that somebody is executing. */
  lemma SweepHitsNoExecution(slots: nat, conf: Config, clock: int, run: seq<Turn>, k: nat, i: nat)
    requires SweepsWhole(Start(slots, conf, clock), run)
    requires forall m :: 0 <= m < |run| && run[m].act.Reap? ==> Timely(After(Start(slots, conf, clock), run, m))
    requires k < |run| && run[k].act.ReapWrite? && run[k].who < slots && i < slots
    ensures var s := After(Start(slots, conf, clock), run, k);
            var a := s.actors[run[k].who];
            a.Reaping? && a.stale != [] && s.actors[i].Executing? ==> s.actors[i].id != a.stale[0].0
  {
    var start := Start(slots, conf, clock);
    var m: nat :| SweepSince(start, run, m, k);
    SweepingUntil(start, run, m, k, k);
    var s, before := After(start, run, k), After(start, run, m);
    var a := s.actors[run[k].who];
    if a.Reaping? && a.stale != [] && s.actors[i].Executing? {
      AllBegun(start, run, m, k, k);
      StaleNotExecuting(slots, conf, clock, run[..m], run[k].who, run[m].act.order, a.stale[0].0, i);
    }
  }

  // Somebody who is writing did get an answer to a query that fitted.
  lemma {:induction false} AllBegun(s: State, run: seq<Turn>, m: nat, k: nat, n: nat)
    requires k < |run| && SweepSince(s, run, m, k) && m < n <= k && run[k].who < |s.actors|
    requires After(s, run, n).actors[run[k].who].Reaping?
    ensures Enabled(After(s, run, m).world, After(s, run, m).actors[run[k].who], Reap(run[m].act.order, Done))
  {
    AfterNext(s, run, n - 1);
    if n > m + 1 {
      SweepingUntil(s, run, m, k, n - 1);
      assert run[n - 1] == Turn(run[k].who, run[n - 1].act);
      StillReaping(After(s, run, n - 1), run[k].who, run[n - 1].act);
      AllBegun(s, run, m, k, n - 1);
    } else {
      BegunByQuery(After(s, run, m), run[k].who, run[m].act);
    }
  }

  lemma StillReaping(s: State, who: nat, act: Action)
    requires who < |s.actors| && act.ReapWrite? && Step(s, Turn(who, act)).actors[who].Reaping?
    ensures s.actors[who].Reaping?
  {
  }

  lemma BegunByQuery(s: State, who: nat, act: Action)
    requires who < |s.actors| && s.actors[who].Idle? && act.Reap? && Step(s, Turn(who, act)).actors[who].Reaping?
    ensures Enabled(s.world, s.actors[who], Reap(act.order, Done))
  {
  }

  // ---------- draining a backlog ----------

  // recoverStaleJobs with every write done: status failed, retry count as it was.
  function Reaped(jobs: Table, sel: seq<JobId>): Table {
    map id | id in jobs :: if id in sel then jobs[id].(status := Failed) else jobs[id]
  }

  datatype Sweep = Sweep(cut: int, sel: seq<JobId>)

  // Consecutive sweeps, none with an earlier cut-off than `cut`, and nothing else in between.
  ghost predicate Sweeps(jobs: Table, cut: int, sweeps: seq<Sweep>)
    decreases |sweeps|
  {
    sweeps == [] ||
    ( && sweeps[0].cut >= cut
      && Selects(sweeps[0].sel, Stale(jobs, sweeps[0].cut), SWEEP_LIMIT)
      && Sweeps(Reaped(jobs, sweeps[0].sel), cut, sweeps[1..]))
  }

  function TableAfter(jobs: Table, sweeps: seq<Sweep>): Table
    decreases |sweeps|
  {
    if sweeps == [] then jobs else TableAfter(Reaped(jobs, sweeps[0].sel), sweeps[1..])
  }

  lemma {:induction false} NotRunningStays(jobs: Table, cut: int, sweeps: seq<Sweep>, j: JobId)
    requires Sweeps(jobs, cut, sweeps) && j in jobs && jobs[j].status != Running
    ensures j in TableAfter(jobs, sweeps) && TableAfter(jobs, sweeps)[j] == jobs[j]
    decreases |sweeps|
  {
    if sweeps == [] {
    } else {
      NotRunningStays(Reaped(jobs, sweeps[0].sel), cut, sweeps[1..], j);
    }
  }

  lemma OldestFirst(jobs: Table, cut: int, sweep: Sweep)
    requires sweep.cut >= cut && Selects(sweep.sel, Stale(jobs, sweep.cut), SWEEP_LIMIT)
    ensures Stale(Reaped(jobs, sweep.sel), cut).Keys == Stale(jobs, cut).Keys - ToSet(sweep.sel)
    ensures Stale(jobs, cut).Keys <= ToSet(sweep.sel)
            || (ToSet(sweep.sel) <= Stale(jobs, cut).Keys && |sweep.sel| == SWEEP_LIMIT)
  {
    var mine, all := Stale(jobs, cut), Stale(jobs, sweep.cut);
    if x :| x in mine && x !in ToSet(sweep.sel) {
      assert x in all && all[x] < cut;
      forall id | id in ToSet(sweep.sel) ensures id in mine {
        var i :| 0 <= i < |sweep.sel| && sweep.sel[i] == id;
        assert all[sweep.sel[i]] <= all[x];
      }
      SetOfDistinct(sweep.sel);
      if |all| < SWEEP_LIMIT {
        SubsetSameSize(ToSet(sweep.sel), all.Keys);
      }
    }
  }

  /** n jobs stale at a cut-off are all failed, their retry counts unchanged, after any n/100 sweeps
      (rounded up), even though later sweeps also see jobs that became stale since. */
  lemma {:induction false} BacklogDrained(jobs: Table, cut: int, sweeps: seq<Sweep>, j: JobId)
    requires Sweeps(jobs, cut, sweeps) && SWEEP_LIMIT * |sweeps| >= |Stale(jobs, cut)|
    requires j in Stale(jobs, cut)
    ensures j in TableAfter(jobs, sweeps) && TableAfter(jobs, sweeps)[j] == jobs[j].(status := Failed)
    decreases |sweeps|
  {
    var before := Stale(jobs, cut).Keys;
    assert j in before;
    var sel, next := sweeps[0].sel, Reaped(jobs, sweeps[0].sel);
    OldestFirst(jobs, cut, sweeps[0]);
    if j in sel {
      NotRunningStays(next, cut, sweeps[1..], j);
    } else {
      assert j !in ToSet(sel);
      SetOfDistinct(sel);
      assert |before| == |before - ToSet(sel)| + |ToSet(sel)|;
      BacklogDrained(next, cut, sweeps[1..], j);
    }
  }
}
