/** Jobs created with a run time: nobody takes them up a second or more before it. */
module Appointments {
  import opened Jobs
  import opened Redis
  import opened Protocol
  import opened Tokens
  import opened Soundness
  import opened Rows

  // The job has a run time that is a second or more away.
  ghost predicate Distant(w: World, j: JobId) {
    j in w.jobs && w.jobs[j].runAt.Some? && w.clock + SECOND <= w.jobs[j].runAt.value
  }

  // Only the create request that brought it and cancel requests name the job.
  ghost predicate HandsOff(w: World, a: Actor, j: JobId)
    requires j in w.jobs
  {
    Mentions(a, j) ==> a.CancelLoaded? || (a.Creating? && a.row.runAt == w.jobs[j].runAt)
  }

  // It is scheduled or cancelled, in no list, and its entry in the set carries its run time.
  ghost predicate Waiting(w: World, j: JobId)
    requires j in w.jobs && w.jobs[j].runAt.Some?
  {
    && (w.jobs[j].status == Scheduled || w.jobs[j].status == Cancelled)
    && InLists(w.lists, j) == 0
    && (j in w.sched ==> w.sched[j] == Unix(w.jobs[j].runAt.value))
  }

  ghost predicate Kept(s: State, j: JobId) {
    Distant(s.world, j) ==>
      Waiting(s.world, j) && forall i :: 0 <= i < |s.actors| ==> HandsOff(s.world, s.actors[i], j)
  }

  // ---------- one effect ----------

  ghost predicate LeavesBe(w: World, e: Effect, j: JobId)
    requires j in w.jobs && w.jobs[j].runAt.Some?
  {
    && (e.db.Keep? || e.db.Remove? || e.db.id != j || e.db == Mark(j, Cancelled))
    && (e.redis.ListPush? ==> e.redis.id != j)
    && (e.redis.SetAdd? && e.redis.id == j ==> e.redis.wish.runAt == w.jobs[j].runAt.value)
    && HandsOff(w, e.next, j)
  }

  ghost predicate Away(w: World, a: Actor, j: JobId) {
    j in w.used && Distant(w, j) && Waiting(w, j) && HandsOff(w, a, j)
  }

  lemma WorkerLeavesBe(w: World, a: Actor, act: Action, j: JobId)
    requires ByWorker(act) && Enabled(w, a, act) && Away(w, a, j)
    ensures LeavesBe(w, WorkerEffect(w, a, act), j)
  {
    if act.Pop? {
      var q := FirstNonEmpty(w.lists, act.queues);
      if q.Some? { InListsDrop(w.lists, q.value, j); }
    }
  }

  lemma RequestLeavesBe(w: World, a: Actor, act: Action, j: JobId)
    requires ByRequest(act) && Enabled(w, a, act) && Away(w, a, j)
    ensures LeavesBe(w, RequestEffect(w, a, act), j)
  {
  }

  lemma NotDueYet(w: World, j: JobId)
    requires Distant(w, j) && Waiting(w, j)
    ensures j !in Due(w.sched, Unix(w.clock))
  {
  }

  lemma DueLoopLeavesBe(w: World, a: Actor, act: Action, j: JobId)
    requires ByDueLoop(act) && Enabled(w, a, act) && Away(w, a, j)
    ensures LeavesBe(w, DueLoopEffect(w, a, act), j)
  {
    NotDueYet(w, j);
  }

  lemma SweepLeavesBe(w: World, a: Actor, act: Action, j: JobId)
    requires BySweep(act) && !act.Recover? && !act.Reap? && Enabled(w, a, act) && Away(w, a, j)
    ensures LeavesBe(w, SweepEffect(w, a, act), j)
  {
    assert a.Recovering? && a.sweep != [] ==> Mentions(a, a.sweep[0].0);
    assert a.Reaping? && a.stale != [] ==> Mentions(a, a.stale[0].0);
    assert Mentions(SweepEffect(w, a, act).next, j) && (act.RecoverPush? || act.ReapWrite?) ==> Mentions(a, j);
  }

  lemma QueryLeavesBe(w: World, a: Actor, act: Action, j: JobId)
    requires (act.Recover? || act.Reap?) && Enabled(w, a, act) && Away(w, a, j)
    ensures LeavesBe(w, SweepEffect(w, a, act), j)
  {
    assert j !in act.order;
    NotPicked(w.jobs, act.order, j);
  }

  lemma AllLeaveBe(w: World, a: Actor, act: Action, j: JobId)
    requires Enabled(w, a, act) && Away(w, a, j)
    ensures LeavesBe(w, EffectOf(w, a, act), j)
  {
    if ByWorker(act) { WorkerLeavesBe(w, a, act, j); }
    else if ByRequest(act) { RequestLeavesBe(w, a, act, j); }
    else if ByDueLoop(act) { DueLoopLeavesBe(w, a, act, j); }
    else if act.Recover? || act.Reap? { QueryLeavesBe(w, a, act, j); }
    else { SweepLeavesBe(w, a, act, j); }
  }

  lemma StillWaiting(w: World, e: Effect, j: JobId)
    requires j in w.jobs && w.jobs[j].runAt.Some? && Waiting(w, j) && LeavesBe(w, e, j)
    ensures var w' := Apply(w, e);
            j in w'.jobs && w'.jobs[j].runAt == w.jobs[j].runAt && Waiting(w', j)
  {
    match e.redis
    case ListPush(q, id) => InListsPush(w.lists, q, id, j);
    case ListPop(q) => if ListOf(w.lists, q) != [] { InListsDrop(w.lists, q, j); }
    case _ =>
  }

  // ---------- a new job ----------

  lemma OnlyCreateInserts(w: World, a: Actor, act: Action, j: JobId)
    requires Enabled(w, a, act) && j !in w.jobs && j in Apply(w, EffectOf(w, a, act)).jobs
    ensures act.Create? && act.newId == j && j !in w.used && act.io.Effective()
  {
  }

  lemma Newborn(s: State, t: Turn, j: JobId)
    requires Sound(s) && t.who < |s.actors| && Enabled(s.world, s.actors[t.who], t.act)
    requires t.act.Create? && t.act.newId == j && j !in s.world.used && t.act.io.Effective()
    requires Distant(Step(s, t).world, j)
    ensures Kept(Step(s, t), j)
  {
    assert WorldTokens(s.world, j) == 0;
    forall i | 0 <= i < |s.actors| && i != t.who ensures !Mentions(s.actors[i], j) {
      assert ActorOk(s.world, s.actors[i]);
    }
  }

  // ---------- runs ----------

  lemma StepKept(s: State, t: Turn, j: JobId)
    requires Sound(s) && Kept(s, j)
    ensures Kept(Step(s, t), j)
  {
    if t.who >= |s.actors| || !Enabled(s.world, s.actors[t.who], t.act) {
      assert Step(s, t) == s;
    } else if Distant(Step(s, t).world, j) {
      StepIs(s, t);
      StepSound(s, t);
      if j in s.world.jobs {
        StepKeepsBirth(s, t, j);
        StayKept(s, t, j);
      } else {
        OnlyCreateInserts(s.world, s.actors[t.who], t.act, j);
        Newborn(s, t, j);
      }
    }
  }

  lemma StayKept(s: State, t: Turn, j: JobId)
    requires Sound(s) && Kept(s, j) && Distant(s.world, j)
    requires t.who < |s.actors| && Enabled(s.world, s.actors[t.who], t.act)
    ensures Kept(Step(s, t), j)
  {
    var e := EffectOf(s.world, s.actors[t.who], t.act);
    AllLeaveBe(s.world, s.actors[t.who], t.act, j);
    StillWaiting(s.world, e, j);
    StepIs(s, t);
  }

  lemma {:induction false} RunKept(s: State, run: seq<Turn>, j: JobId)
    requires Sound(s) && Kept(s, j)
    ensures Kept(Exec(s, run), j)
  {
    if run == [] {
    } else {
      RunKept(s, run[..|run| - 1], j);
      RunSound(s, run[..|run| - 1]);
      StepKept(Exec(s, run[..|run| - 1]), run[|run| - 1], j);
    }
  }

  /** In every run, with any number of workers, requests and schedulers and any failures: while the run time
      of a job is a second or more away, the job is scheduled or cancelled, it is in no queue, no worker has
      popped it, and none executes it. */
  lemma NeverEarly(slots: nat, conf: Config, clock: int, run: seq<Turn>, j: JobId, i: nat)
    requires var w := Exec(Start(slots, conf, clock), run).world;
             j in w.jobs && w.jobs[j].runAt.Some? && w.clock + SECOND <= w.jobs[j].runAt.value
    requires i < slots
    ensures var s := Exec(Start(slots, conf, clock), run);
            && (s.world.jobs[j].status == Scheduled || s.world.jobs[j].status == Cancelled)
            && InLists(s.world.lists, j) == 0
            && var a := s.actors[i];
               !((a.Taken? || a.Loaded? || a.Executing? || a.BackingOff?) && a.id == j)
  {
    StartSound(slots, conf, clock);
    RunKept(Start(slots, conf, clock), run, j);
    var s := Exec(Start(slots, conf, clock), run);
    assert HandsOff(s.world, s.actors[i], j);
  }
}
