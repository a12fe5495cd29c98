/** The stale backlog drained by the system itself: whole sweeps of one slot, time passing in between. */
module Draining {
  import opened Jobs
  import opened Calls
  import opened Selection
  import opened Storage
  import opened Protocol
  import opened StaleSweep
  import opened Processes
  import opened ProcessRuns
  import opened SlotRuns
  import opened Runs

  // Some time passes, then a sweep whose query answers `order`.
  datatype Round = Round(dt: nat, order: seq<JobId>)

  function Dones(n: nat): (ios: seq<Io>)
    ensures |ios| == n && forall k :: 0 <= k < n ==> ios[k] == Done
  {
    seq(n, _ => Done)
  }

  function RoundTurns(who: nat, r: Round): seq<Turn> {
    Turns(who, [Tick(r.dt)]) + Turns(who, StaleActs(r.order, Done, Dones(|r.order|)))
  }

  function AllTurns(who: nat, rounds: seq<Round>): seq<Turn> {
    if rounds == [] then [] else RoundTurns(who, rounds[0]) + AllTurns(who, rounds[1..])
  }

  function CutOff(w: World): int { w.clock - 2 * w.conf.jobTimeout }

  // Every query of the rounds answers what it selects then.
  ghost predicate Answered(s: State, who: nat, rounds: seq<Round>)
    decreases |rounds|
  {
    rounds == [] ||
    ( && Selects(rounds[0].order, Stale(s.world.jobs, CutOff(s.world) + rounds[0].dt), SWEEP_LIMIT)
      && Answered(Exec(s, RoundTurns(who, rounds[0])), who, rounds[1..]))
  }

  lemma TickLeaves(s: State, who: nat, dt: nat)
    requires who < |s.actors| && s.actors[who] == Idle
    ensures var s' := Exec(s, Turns(who, [Tick(dt)]));
            && s'.actors == s.actors && ViewOf(s'.world) == ViewOf(s.world)
            && s'.world.clock == s.world.clock + dt && s'.world.conf == s.world.conf
  {
    ThenTick(Place(s.world, Idle), dt);
    ThensOne(Place(s.world, Idle), Tick(dt));
    PathLeaves(s, who, [Tick(dt)], ViewOf(s.world));
    SlotRun(s, who, [Tick(dt)]);
  }

  lemma SweepReaps(s: State, who: nat, order: seq<JobId>)
    requires who < |s.actors| && s.actors[who] == Idle
    requires Selects(order, Stale(s.world.jobs, CutOff(s.world)), SWEEP_LIMIT)
    ensures var s' := Exec(s, Turns(who, StaleActs(order, Done, Dones(|order|))));
            && s'.actors == s.actors && s'.world.jobs == Reaped(s.world.jobs, order)
            && s'.world.conf == s.world.conf && s'.world.clock == s.world.clock
  {
    SweepTable(s, who, order);
    NoTicks(order, Dones(|order|));
    SlotClock(s, who, StaleActs(order, Done, Dones(|order|)));
  }

  predicate Tickless(acts: seq<Action>) { forall k :: 0 <= k < |acts| ==> !acts[k].Tick? }

  lemma NoTicks(order: seq<JobId>, ios: seq<Io>)
    ensures Tickless(StaleActs(order, Done, ios))
  {
  }

  lemma SlotClock(s: State, who: nat, acts: seq<Action>)
    requires who < |s.actors| && Tickless(acts)
    ensures Exec(s, Turns(who, acts)).world.clock == s.world.clock
  {
    SlotRun(s, who, acts);
    SameClock(Place(s.world, s.actors[who]), acts);
  }

  lemma SweepTable(s: State, who: nat, order: seq<JobId>)
    requires who < |s.actors| && s.actors[who] == Idle
    requires Selects(order, Stale(s.world.jobs, CutOff(s.world)), SWEEP_LIMIT)
    ensures var s' := Exec(s, Turns(who, StaleActs(order, Done, Dones(|order|))));
            s'.actors == s.actors && s'.world.jobs == Reaped(s.world.jobs, order) && s'.world.conf == s.world.conf
  {
    StaleTurns(s, who, order, Done, Dones(|order|));
    ReapedView(ViewOf(s.world), CutOff(s.world), order);
  }

  lemma ReapedView(v: View, before: int, order: seq<JobId>)
    requires Selects(order, Stale(v.jobs, before), SWEEP_LIMIT)
    ensures forall i :: 0 <= i < |order| ==> order[i] in v.jobs
    ensures AfterReaps(v, CountsOf(v.jobs, order), Dones(|order|)) == v.(jobs := Reaped(v.jobs, order))
  {
    ReapsAll(v, order, Dones(|order|));
  }

  lemma {:induction false} SameClock(p: Place, acts: seq<Action>)
    requires Tickless(acts)
    ensures Thens(p, acts).w.clock == p.w.clock
  {
    if acts == [] {
    } else {
      SameClock(p, acts[..|acts| - 1]);
      KeepsClock(Thens(p, acts[..|acts| - 1]), acts[|acts| - 1]);
    }
  }

  lemma KeepsClock(p: Place, act: Action)
    requires !act.Tick?
    ensures Then(p, act).w.clock == p.w.clock
  {
  }

  // What one round leaves.
  ghost predicate Swept(s: State, s': State, r: Round) {
    && s'.actors == s.actors && s'.world.jobs == Reaped(s.world.jobs, r.order)
    && CutOff(s'.world) == CutOff(s.world) + r.dt
  }

  lemma RoundReaps(s: State, who: nat, r: Round)
    requires who < |s.actors| && s.actors[who] == Idle
    requires Selects(r.order, Stale(s.world.jobs, CutOff(s.world) + r.dt), SWEEP_LIMIT)
    ensures Swept(s, Exec(s, RoundTurns(who, r)), r)
  {
    TickLeaves(s, who, r.dt);
    SweepLater(s, Exec(s, Turns(who, [Tick(r.dt)])), who, r);
    ExecConcat(s, Turns(who, [Tick(r.dt)]), Turns(who, StaleActs(r.order, Done, Dones(|r.order|))));
  }

  lemma SweepLater(s: State, s1: State, who: nat, r: Round)
    requires who < |s.actors| && s.actors[who] == Idle
    requires s1.actors == s.actors && ViewOf(s1.world) == ViewOf(s.world)
    requires s1.world.clock == s.world.clock + r.dt && s1.world.conf == s.world.conf
    requires Selects(r.order, Stale(s.world.jobs, CutOff(s.world) + r.dt), SWEEP_LIMIT)
    ensures Swept(s, Exec(s1, Turns(who, StaleActs(r.order, Done, Dones(|r.order|)))), r)
  {
    SweepReaps(s1, who, r.order);
  }

  // The same rounds as sweeps over the table.
  function SweepsOf(cut: int, rounds: seq<Round>): seq<Sweep>
    decreases |rounds|
  {
    if rounds == [] then [] else
      [Sweep(cut + rounds[0].dt, rounds[0].order)] + SweepsOf(cut + rounds[0].dt, rounds[1..])
  }

  lemma OneSweepMore(jobs: Table, cut: int, first: Sweep, rest: seq<Sweep>)
    requires first.cut >= cut && Selects(first.sel, Stale(jobs, first.cut), SWEEP_LIMIT)
    requires Sweeps(Reaped(jobs, first.sel), cut, rest)
    ensures Sweeps(jobs, cut, [first] + rest)
    ensures TableAfter(jobs, [first] + rest) == TableAfter(Reaped(jobs, first.sel), rest)
  {
    assert ([first] + rest)[1..] == rest;
  }

  // The rounds, from a table and a cut-off on, end in the table that their sweeps leave.
  ghost predicate EndsIn(jobs: Table, now: int, cut: int, rounds: seq<Round>, end: Table) {
    var sweeps := SweepsOf(now, rounds);
    |sweeps| == |rounds| && Sweeps(jobs, cut, sweeps) && end == TableAfter(jobs, sweeps)
  }

  lemma OneRoundMore(jobs: Table, now: int, cut: int, rounds: seq<Round>, end: Table)
    requires rounds != [] && now + rounds[0].dt >= cut
    requires Selects(rounds[0].order, Stale(jobs, now + rounds[0].dt), SWEEP_LIMIT)
    requires EndsIn(Reaped(jobs, rounds[0].order), now + rounds[0].dt, cut, rounds[1..], end)
    ensures EndsIn(jobs, now, cut, rounds, end)
  {
    var now1 := now + rounds[0].dt;
    OneSweepMore(jobs, cut, Sweep(now1, rounds[0].order), SweepsOf(now1, rounds[1..]));
  }

  lemma RoundThenRest(s: State, s1: State, cut: int, rounds: seq<Round>, end: Table)
    requires rounds != [] && cut <= CutOff(s.world)
    requires Selects(rounds[0].order, Stale(s.world.jobs, CutOff(s.world) + rounds[0].dt), SWEEP_LIMIT)
    requires Swept(s, s1, rounds[0])
    requires EndsIn(s1.world.jobs, CutOff(s1.world), cut, rounds[1..], end)
    ensures EndsIn(s.world.jobs, CutOff(s.world), cut, rounds, end)
  {
    OneRoundMore(s.world.jobs, CutOff(s.world), cut, rounds, end);
  }

  lemma {:induction false} RoundsAreSweeps(s: State, who: nat, cut: int, rounds: seq<Round>)
    requires who < |s.actors| && s.actors[who] == Idle && cut <= CutOff(s.world) && Answered(s, who, rounds)
    ensures EndsIn(s.world.jobs, CutOff(s.world), cut, rounds, Exec(s, AllTurns(who, rounds)).world.jobs)
    decreases |rounds|
  {
    if rounds == [] {
    } else {
      var s1 := Exec(s, RoundTurns(who, rounds[0]));
      RoundReaps(s, who, rounds[0]);
      RoundsAreSweeps(s1, who, cut, rounds[1..]);
      ExecConcat(s, RoundTurns(who, rounds[0]), AllTurns(who, rounds[1..]));
      assert Exec(s, AllTurns(who, rounds)) == Exec(s1, AllTurns(who, rounds[1..]));
      RoundThenRest(s, s1, cut, rounds, Exec(s1, AllTurns(who, rounds[1..])).world.jobs);
    }
  }

  /** n jobs stale at a cut-off are failed, their retry counts unchanged, after any n/100 whole sweeps
      (rounded up) of one slot, however much time passes between them. */
  lemma SweepsDrain(s: State, who: nat, cut: int, rounds: seq<Round>, j: JobId)
    requires who < |s.actors| && s.actors[who] == Idle && cut <= CutOff(s.world) && Answered(s, who, rounds)
    requires SWEEP_LIMIT * |rounds| >= |Stale(s.world.jobs, cut)| && j in Stale(s.world.jobs, cut)
    ensures var jobs := Exec(s, AllTurns(who, rounds)).world.jobs;
            j in jobs && jobs[j] == s.world.jobs[j].(status := Failed)
  {
    RoundsAreSweeps(s, who, cut, rounds);
    BacklogDrained(s.world.jobs, cut, SweepsOf(CutOff(s.world), rounds), j);
  }
}
