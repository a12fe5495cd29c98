/** What every reachable state satisfies, whatever calls fail, workers crash and snapshots go stale:
    the retry invariants of the rows, and what actors may rely on about the rows they remember. */
module Soundness {
  import opened Jobs
  import opened Storage
  import opened Redis
  import opened Protocol
  import opened Tokens

  predicate RowOk(r: Row) {
    && r.retryCount >= 0
    && (r.status == Retrying ==> 1 <= r.retryCount < r.maxRetries)
    && (r.status == Dead ==> r.retryCount >= 1 && r.retryCount >= r.maxRetries)
    && (r.status == Running ==> r.startedAt.Some?)
  }

  // The actor can still name the job in a later call.
  ghost predicate Mentions(a: Actor, j: JobId) {
    match a
    case Idle => false
    case DueBatch(rest) => j in rest
    case DueLoaded(id, _, rest) => id == j || j in rest
    case DuePushed(id, _, rest) => id == j || j in rest
    case Recovering(sweep) => exists i :: 0 <= i < |sweep| && sweep[i].0 == j
    case Reaping(stale) => exists i :: 0 <= i < |stale| && stale[i].0 == j
    case _ => a.id == j
  }

  // A sweep tells its actor of nobody but those it selected.
  lemma NotPicked(jobs: Table, order: seq<JobId>, j: JobId)
    requires (forall i :: 0 <= i < |order| ==> order[i] in jobs) && j !in order
    ensures !Mentions(Recovering(QueuesOf(jobs, order)), j) && !Mentions(Reaping(CountsOf(jobs, order)), j)
  {
  }

  // A snapshot held by a worker: stale in status and count, never in the retry limit.
  predicate SnapshotOk(w: World, id: JobId, snap: Row) {
    snap.retryCount >= 0 && (id in w.jobs ==> w.jobs[id].maxRetries == snap.maxRetries)
  }

  ghost predicate ActorOk(w: World, a: Actor) {
    && (forall j :: Mentions(a, j) ==> j in w.used)
    && (a.Loaded? ==> SnapshotOk(w, a.id, a.snap))
    && (a.Executing? ==>
          && SnapshotOk(w, a.id, a.snap)
          && a.since <= w.clock
          && (a.id in w.jobs ==> w.jobs[a.id].startedAt.Some? && a.since <= w.jobs[a.id].startedAt.value))
    && (a.BackingOff? ==> a.attempt >= 1)
    && (a.Reaping? ==> forall i :: 0 <= i < |a.stale| ==> a.stale[i].1 >= 0)
  }

  ghost predicate RowsOk(w: World) {
    w.jobs.Keys <= w.used && forall j :: j in w.jobs ==> RowOk(w.jobs[j])
  }

  // No token carries an id the database never drew.
  ghost predicate TokensKnown(w: World) {
    forall j :: WorldTokens(w, j) > 0 ==> j in w.used
  }

  ghost predicate Sound(s: State) {
    RowsOk(s.world) && TokensKnown(s.world) && forall i :: 0 <= i < |s.actors| ==> ActorOk(s.world, s.actors[i])
  }

  // ---------- one statement ----------

  predicate Legit(w: World, op: DbOp) {
    match op
    case Keep => true
    case Insert(id, row) => id !in w.used && RowOk(row)
    case Mark(_, status) => status != Retrying && status != Dead
    case Write(id, status, n) =>
      && n >= 0 && status != Running
      && (id in w.jobs && status == Retrying ==> 1 <= n < w.jobs[id].maxRetries)
      && (id in w.jobs && status == Dead ==> n >= 1 && n >= w.jobs[id].maxRetries)
    case Remove(_) => true
  }

  // How the world moves on under everybody else's feet.
  ghost predicate Evolves(w: World, v: World) {
    && w.used <= v.used && w.clock <= v.clock
    && (forall j :: j in v.jobs && j in w.used ==>
          && j in w.jobs
          && v.jobs[j].maxRetries == w.jobs[j].maxRetries
          && (v.jobs[j].startedAt == w.jobs[j].startedAt || v.jobs[j].startedAt == Some(w.clock)))
  }

  lemma LegitKeeps(w: World, e: Effect)
    requires RowsOk(w) && Legit(w, e.db)
    ensures RowsOk(Apply(w, e)) && Evolves(w, Apply(w, e))
  {
  }

  lemma ActorFrame(w: World, v: World, a: Actor)
    requires ActorOk(w, a) && Evolves(w, v)
    ensures ActorOk(v, a)
  {
    if !a.Idle? && !a.DueBatch? && !a.Recovering? && !a.Reaping? {
      assert Mentions(a, a.id);
    }
  }

  lemma WorkerLegit(w: World, a: Actor, act: Action)
    requires Enabled(w, a, act) && ByWorker(act) && RowsOk(w) && ActorOk(w, a)
    ensures Legit(w, EffectOf(w, a, act).db)
  {
  }

  lemma OthersLegit(w: World, a: Actor, act: Action)
    requires Enabled(w, a, act) && !ByWorker(act) && RowsOk(w) && ActorOk(w, a)
    ensures Legit(w, EffectOf(w, a, act).db)
  {
  }

  // ---------- the actor's next position ----------

  lemma TailKnown(w: World, q: string)
    requires TokensKnown(w) && ListOf(w.lists, q) != []
    ensures Tail(w.lists, q) in w.used
  {
    InListsDrop(w.lists, q, Tail(w.lists, q));
    assert WorldTokens(w, Tail(w.lists, q)) > 0;
  }

  lemma WorkerNext(w: World, a: Actor, act: Action)
    requires Enabled(w, a, act) && ByWorker(act) && RowsOk(w) && TokensKnown(w) && ActorOk(w, a)
    ensures var e := EffectOf(w, a, act); ActorOk(Apply(w, e), e.next)
  {
    if act.Pop? {
      var q := FirstNonEmpty(w.lists, act.queues);
      if q.Some? { TailKnown(w, q.value); }
    } else {
      assert Mentions(a, a.id);
    }
  }

  lemma RequestNext(w: World, a: Actor, act: Action)
    requires Enabled(w, a, act) && ByRequest(act) && RowsOk(w) && ActorOk(w, a)
    ensures var e := EffectOf(w, a, act); ActorOk(Apply(w, e), e.next)
  {
    if !a.Idle? { assert Mentions(a, a.id); }
  }

  lemma DueLoopNext(w: World, a: Actor, act: Action)
    requires Enabled(w, a, act) && ByDueLoop(act) && RowsOk(w) && TokensKnown(w) && ActorOk(w, a)
    ensures var e := EffectOf(w, a, act); ActorOk(Apply(w, e), e.next)
  {
    var e := EffectOf(w, a, act);
    forall j | Mentions(e.next, j) ensures j in w.used {
      if act.DueFetch? {
        assert j in w.sched && WorldTokens(w, j) > 0;
      } else {
        assert Mentions(a, j);
      }
    }
  }

  lemma SweepNext(w: World, a: Actor, act: Action)
    requires Enabled(w, a, act) && BySweep(act) && !act.Tick? && RowsOk(w) && ActorOk(w, a)
    ensures var e := EffectOf(w, a, act); ActorOk(Apply(w, e), e.next)
  {
    var e := EffectOf(w, a, act);
    forall j | Mentions(e.next, j) ensures j in w.used {
      if act.RecoverPush? || act.ReapWrite? { assert Mentions(a, j); }
    }
  }

  lemma PushedMentioned(w: World, a: Actor, act: Action)
    requires Enabled(w, a, act)
    ensures var r := EffectOf(w, a, act).redis;
            r.ListPush? || r.SetAdd? ==> Mentions(a, r.id)
  {
  }

  lemma KnownKept(w: World, a: Actor, act: Action)
    requires Enabled(w, a, act) && RowsOk(w) && TokensKnown(w) && ActorOk(w, a)
    ensures TokensKnown(Apply(w, EffectOf(w, a, act)))
  {
    var e := EffectOf(w, a, act);
    PushedMentioned(w, a, act);
    forall j | WorldTokens(Apply(w, e), j) > 0 ensures j in Apply(w, e).used {
      RedisTokens(w, e, j);
    }
  }

  // ---------- runs ----------

  lemma TickSound(w: World, a: Actor, dt: nat)
    requires RowsOk(w) && TokensKnown(w) && ActorOk(w, a)
    ensures var v := w.(clock := w.clock + dt); RowsOk(v) && TokensKnown(v) && ActorOk(v, a) && Evolves(w, v)
  {
    var v := w.(clock := w.clock + dt);
    assert TokensKnown(v) by { forall j ensures WorldTokens(v, j) == WorldTokens(w, j) {} }
    ActorFrame(w, v, a);
  }

  lemma ActSound(w: World, a: Actor, act: Action)
    requires Enabled(w, a, act) && RowsOk(w) && TokensKnown(w) && ActorOk(w, a)
    ensures var (v, b) := Act(w, a, act); RowsOk(v) && TokensKnown(v) && ActorOk(v, b) && Evolves(w, v)
  {
    if act.Tick? {
      TickSound(w, a, act.dt);
      assert Act(w, a, act) == (w.(clock := w.clock + act.dt), a);
      return;
    }
    if ByWorker(act) { WorkerLegit(w, a, act); } else { OthersLegit(w, a, act); }
    LegitKeeps(w, EffectOf(w, a, act));
    KnownKept(w, a, act);
    if ByWorker(act) { WorkerNext(w, a, act); }
    else if ByRequest(act) { RequestNext(w, a, act); }
    else if ByDueLoop(act) { DueLoopNext(w, a, act); }
    else { SweepNext(w, a, act); }
  }

  lemma StepSound(s: State, t: Turn)
    requires Sound(s)
    ensures Sound(Step(s, t)) && Evolves(s.world, Step(s, t).world)
  {
    if t.who < |s.actors| && Enabled(s.world, s.actors[t.who], t.act) {
      ActSound(s.world, s.actors[t.who], t.act);
      var s' := Step(s, t);
      forall i | 0 <= i < |s'.actors| ensures ActorOk(s'.world, s'.actors[i]) {
        if i != t.who { ActorFrame(s.world, s'.world, s.actors[i]); }
      }
    } else {
      assert Step(s, t) == s;
    }
  }

  lemma StartSound(slots: nat, conf: Config, clock: int)
    ensures Sound(Start(slots, conf, clock))
  {
  }

  lemma {:induction false} RunSound(s: State, run: seq<Turn>)
    requires Sound(s)
    ensures Sound(Exec(s, run))
  {
    if run == [] {
    } else {
      RunSound(s, run[..|run| - 1]);
      StepSound(Exec(s, run[..|run| - 1]), run[|run| - 1]);
    }
  }

  /** In every reachable state, after any interleaving of any number of actors with failed calls,
      crashes, stale snapshots and duplicate tokens. */
  lemma RetryInvariants(slots: nat, conf: Config, clock: int, run: seq<Turn>, j: JobId)
    ensures var jobs := Exec(Start(slots, conf, clock), run).world.jobs;
            j in jobs ==>
              && jobs[j].retryCount >= 0
              && (jobs[j].status == Retrying ==> 1 <= jobs[j].retryCount < jobs[j].maxRetries)
              && (jobs[j].status == Dead ==> jobs[j].retryCount >= 1 && jobs[j].retryCount >= jobs[j].maxRetries)
              && (jobs[j].status == Running ==> jobs[j].startedAt.Some?)
  {
    StartSound(slots, conf, clock);
    RunSound(Start(slots, conf, clock), run);
    assert RowsOk(Exec(Start(slots, conf, clock), run).world);
  }
}
