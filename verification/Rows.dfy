/** The life of a row in every run: what never changes, and in which order its times are written. */
module Rows {
  import opened Jobs
  import opened Storage
  import opened Protocol
  import opened Soundness

  // ---------- what no statement changes ----------

  predicate SameBirth(row: Row, row': Row) {
    && row'.queue == row.queue && row'.jobType == row.jobType && row'.maxRetries == row.maxRetries
    && row'.createdAt == row.createdAt && row'.runAt == row.runAt
  }

  lemma BirthKept(jobs: Table, op: DbOp, now: int, x: JobId)
    requires x in jobs && x in ApplyDb(jobs, op, now) && !(op.Insert? && op.id == x)
    ensures SameBirth(jobs[x], ApplyDb(jobs, op, now)[x])
  {
  }

  lemma InsertsFresh(w: World, a: Actor, act: Action)
    requires Enabled(w, a, act)
    ensures var op := EffectOf(w, a, act).db; op.Insert? ==> op.id !in w.used
  {
  }

  lemma StepKeepsBirth(s: State, t: Turn, x: JobId)
    requires Sound(s) && x in s.world.jobs && x in Step(s, t).world.jobs
    ensures SameBirth(s.world.jobs[x], Step(s, t).world.jobs[x])
  {
    if t.who < |s.actors| && Enabled(s.world, s.actors[t.who], t.act) {
      InsertsFresh(s.world, s.actors[t.who], t.act);
      BirthKept(s.world.jobs, EffectOf(s.world, s.actors[t.who], t.act).db, s.world.clock, x);
      StepIs(s, t);
    } else {
      assert Step(s, t) == s;
    }
  }

  // A row that is there at the end of a run was there all along.
  lemma StepBringsNoneBack(s: State, t: Turn, x: JobId)
    requires Sound(s) && x in s.world.used && x in Step(s, t).world.jobs
    ensures x in s.world.jobs && x in Step(s, t).world.used
  {
    StepSound(s, t);
  }

  /** In every run a row keeps its queue, type, retry limit, creation time and run time for as long as it
      exists, and a deleted row does not come back. */
  lemma {:induction false} RowKeepsIdentity(s: State, run: seq<Turn>, x: JobId)
    requires Sound(s) && x in s.world.used
    ensures x in Exec(s, run).world.used
    ensures x in Exec(s, run).world.jobs ==>
              x in s.world.jobs && SameBirth(s.world.jobs[x], Exec(s, run).world.jobs[x])
  {
    if run == [] {
    } else {
      var front, t := run[..|run| - 1], run[|run| - 1];
      RowKeepsIdentity(s, front, x);
      RunSound(s, front);
      StepSound(Exec(s, front), t);
      if x in Exec(s, run).world.jobs {
        StepBringsNoneBack(Exec(s, front), t, x);
        StepKeepsBirth(Exec(s, front), t, x);
      }
    }
  }

  // ---------- times ----------

  predicate NotAfter(t: Option<int>, now: int) { t.Some? ==> t.value <= now }

  predicate NotBefore(t: Option<int>, from: int) { t.Some? ==> from <= t.value }

  /** Created before started, nothing in the future, and a completed row has both its times, in order. */
  predicate StampsOk(r: Row, now: int) {
    && r.createdAt <= now
    && NotBefore(r.startedAt, r.createdAt) && NotAfter(r.startedAt, now)
    && NotBefore(r.completedAt, r.createdAt) && NotAfter(r.completedAt, now)
    && (r.status == Completed ==>
          r.startedAt.Some? && r.completedAt.Some? && r.startedAt.value <= r.completedAt.value)
  }

  ghost predicate AllStamped(w: World) { forall j :: j in w.jobs ==> StampsOk(w.jobs[j], w.clock) }

  // A statement of the protocol that keeps the times in order.
  predicate Timed(w: World, op: DbOp) {
    match op
    case Insert(_, row) => StampsOk(row, w.clock)
    case Mark(id, status) => status == Completed && id in w.jobs ==> w.jobs[id].startedAt.Some?
    case Write(_, status, _) => status != Completed
    case _ => true
  }

  lemma TimedKeeps(jobs: Table, op: DbOp, now: int, w: World, j: JobId)
    requires jobs == w.jobs && now == w.clock && AllStamped(w) && Timed(w, op) && j in ApplyDb(jobs, op, now)
    ensures StampsOk(ApplyDb(jobs, op, now)[j], now)
  {
  }

  lemma WorkerTimed(w: World, a: Actor, act: Action)
    requires Enabled(w, a, act) && ByWorker(act) && ActorOk(w, a)
    ensures Timed(w, EffectOf(w, a, act).db)
  {
  }

  lemma OthersTimed(w: World, a: Actor, act: Action)
    requires Enabled(w, a, act) && !ByWorker(act)
    ensures Timed(w, EffectOf(w, a, act).db)
  {
  }

  lemma StepStamped(s: State, t: Turn)
    requires Sound(s) && AllStamped(s.world)
    ensures AllStamped(Step(s, t).world)
  {
    if t.who < |s.actors| && Enabled(s.world, s.actors[t.who], t.act) {
      var e := EffectOf(s.world, s.actors[t.who], t.act);
      assert ActorOk(s.world, s.actors[t.who]);
      if ByWorker(t.act) { WorkerTimed(s.world, s.actors[t.who], t.act); }
      else { OthersTimed(s.world, s.actors[t.who], t.act); }
      StepIs(s, t);
      StepSound(s, t);
      forall j | j in Step(s, t).world.jobs ensures StampsOk(Step(s, t).world.jobs[j], Step(s, t).world.clock) {
        TimedKeeps(s.world.jobs, e.db, s.world.clock, s.world, j);
      }
    } else {
      assert Step(s, t) == s;
    }
  }

  lemma {:induction false} RunStamped(s: State, run: seq<Turn>)
    requires Sound(s) && AllStamped(s.world)
    ensures AllStamped(Exec(s, run).world)
  {
    if run == [] {
    } else {
      RunStamped(s, run[..|run| - 1]);
      RunSound(s, run[..|run| - 1]);
      StepStamped(Exec(s, run[..|run| - 1]), run[|run| - 1]);
    }
  }

  /** In every reachable state, whatever failed, crashed or ran twice: rows are created, then started, then
      completed; a completed row has both times; and no time lies in the future. */
  lemma TimesInOrder(slots: nat, conf: Config, clock: int, run: seq<Turn>, j: JobId)
    ensures var w := Exec(Start(slots, conf, clock), run).world;
            j in w.jobs ==>
              var r := w.jobs[j];
              && r.createdAt <= w.clock
              && (r.startedAt.Some? ==> r.createdAt <= r.startedAt.value <= w.clock)
              && (r.completedAt.Some? ==> r.createdAt <= r.completedAt.value <= w.clock)
              && (r.status == Completed ==>
                    r.startedAt.Some? && r.completedAt.Some? && r.startedAt.value <= r.completedAt.value)
  {
    StartSound(slots, conf, clock);
    RunStamped(Start(slots, conf, clock), run);
  }
}
