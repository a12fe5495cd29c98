/** A completed, cancelled or failed job that nothing in flight knows about stays as it is for ever. */
module Quiescence {
  import opened Jobs
  import opened Redis
  import opened Protocol
  import opened Tokens
  import opened Soundness

  ghost predicate Forgotten(s: State, j: JobId) {
    TokenCount(s, j) == 0 && forall i :: 0 <= i < |s.actors| ==> !Mentions(s.actors[i], j)
  }

  ghost predicate Quiet(s: State, j: JobId) {
    j in s.world.jobs && Settled(s.world.jobs[j].status) && Forgotten(s, j)
  }

  // The step neither writes the row nor learns of the job.
  ghost predicate Ignores(w: World, e: Effect, j: JobId) {
    && (e.db.Keep? || e.db.Remove? || e.db.id != j)
    && !Mentions(e.next, j)
  }

  ghost predicate Bystander(w: World, a: Actor, j: JobId) {
    j in w.jobs && j in w.used && Settled(w.jobs[j].status) && WorldTokens(w, j) == 0 && !Mentions(a, j)
  }

  lemma WorkerIgnores(w: World, a: Actor, act: Action, j: JobId)
    requires ByWorker(act) && Enabled(w, a, act) && Bystander(w, a, j)
    ensures Ignores(w, WorkerEffect(w, a, act), j)
  {
    if act.Pop? {
      var q := FirstNonEmpty(w.lists, act.queues);
      if q.Some? { InListsDrop(w.lists, q.value, j); }
    }
  }

  lemma RequestIgnores(w: World, a: Actor, act: Action, j: JobId)
    requires ByRequest(act) && Enabled(w, a, act) && Bystander(w, a, j)
    ensures Ignores(w, RequestEffect(w, a, act), j)
  {
  }

  lemma DueLoopIgnores(w: World, a: Actor, act: Action, j: JobId)
    requires ByDueLoop(act) && Enabled(w, a, act) && Bystander(w, a, j)
    ensures Ignores(w, DueLoopEffect(w, a, act), j)
  {
  }

  lemma SweepIgnores(w: World, a: Actor, act: Action, j: JobId)
    requires BySweep(act) && Enabled(w, a, act) && Bystander(w, a, j)
    ensures Ignores(w, SweepEffect(w, a, act), j)
  {
    var e := SweepEffect(w, a, act);
    assert Mentions(e.next, j) && (act.RecoverPush? || act.ReapWrite?) ==> Mentions(a, j);
  }

  lemma AllIgnore(w: World, a: Actor, act: Action, j: JobId)
    requires Enabled(w, a, act) && Bystander(w, a, j)
    ensures Ignores(w, EffectOf(w, a, act), j)
  {
    if ByWorker(act) { WorkerIgnores(w, a, act, j); }
    else if ByRequest(act) { RequestIgnores(w, a, act, j); }
    else if ByDueLoop(act) { DueLoopIgnores(w, a, act, j); }
    else { SweepIgnores(w, a, act, j); }
  }

  lemma EffectQuiet(w: World, e: Effect, j: JobId)
    requires Ignores(w, e, j) && j in w.jobs && Settled(w.jobs[j].status)
    ensures j in Apply(w, e).jobs && Apply(w, e).jobs[j] == w.jobs[j]
  {
  }

  lemma NoGain(w: World, a: Actor, act: Action, j: JobId)
    requires Enabled(w, a, act) && Bystander(w, a, j)
    ensures Gains(w, a, act, j) == 0
  {
    assert a.Recovering? && a.sweep != [] ==> Mentions(a, a.sweep[0].0);
  }

  lemma StepQuiet(s: State, t: Turn, j: JobId)
    requires Sound(s) && Quiet(s, j)
    ensures Quiet(Step(s, t), j) && Step(s, t).world.jobs[j] == s.world.jobs[j]
  {
    if t.who < |s.actors| && Enabled(s.world, s.actors[t.who], t.act) {
      AllIgnore(s.world, s.actors[t.who], t.act, j);
      EffectQuiet(s.world, EffectOf(s.world, s.actors[t.who], t.act), j);
      NoGain(s.world, s.actors[t.who], t.act, j);
      TokenBalance(s, t, j);
      StepIs(s, t);
    } else {
      assert Step(s, t) == s;
    }
  }

  /** From any reachable state in which the job is quiet, no continuation changes or deletes its row. */
  lemma {:induction false} QuietForEver(s: State, run: seq<Turn>, j: JobId)
    requires Sound(s) && Quiet(s, j)
    ensures var w := Exec(s, run).world; j in w.jobs && w.jobs[j] == s.world.jobs[j]
    ensures Quiet(Exec(s, run), j)
  {
    if run == [] {
    } else {
      QuietForEver(s, run[..|run| - 1], j);
      RunSound(s, run[..|run| - 1]);
      StepQuiet(Exec(s, run[..|run| - 1]), run[|run| - 1], j);
    }
  }

  // ---------- a completed job ----------

  ghost predicate Finished(s: State, j: JobId) {
    j in s.world.jobs && s.world.jobs[j].status == Completed && TokenCount(s, j) == 0
  }

  /** What can bring a completed job back to life: a late mark, an API retry or a cancel or a stale-sweep
      write decided on an older state, and a push of the recovery sweep selected before it completed. */
  ghost predicate Disturbs(s: State, t: Turn, j: JobId) {
    t.who < |s.actors| &&
    var a := s.actors[t.who];
    Fits(a, t.act) &&
    match t.act
    case DueMark(io) => io.Effective() && a.id == j && a.snap.status == Retrying
    case RetryReset(io) => io.Effective() && a.id == j
    case CancelWrite(io) => io.Effective() && a.id == j
    case RecoverPush(io) => io.Effective() && a.sweep != [] && a.sweep[0].0 == j
    case ReapWrite(io) => io.Effective() && a.stale != [] && a.stale[0].0 == j
    case _ => false
  }

  // No write, no new token, no execution.
  ghost predicate Untouched(w: World, a: Actor, act: Action, e: Effect, j: JobId) {
    && (e.db.Keep? || e.db.Remove? || e.db.id != j)
    && Gains(w, a, act, j) == 0
    && e.note != Some(Executed(j))
  }

  ghost predicate Unheld(w: World, a: Actor, j: JobId) { j in w.used && WeightOf(Token, a, j) == 0 }

  lemma WorkerUntouched(w: World, a: Actor, act: Action, j: JobId)
    requires ByWorker(act) && Enabled(w, a, act) && Unheld(w, a, j)
    ensures Untouched(w, a, act, WorkerEffect(w, a, act), j)
  {
  }

  lemma OtherUntouched(s: State, t: Turn, j: JobId)
    requires t.who < |s.actors| && Enabled(s.world, s.actors[t.who], t.act) && !ByWorker(t.act)
    requires Unheld(s.world, s.actors[t.who], j) && !Disturbs(s, t, j)
    ensures Untouched(s.world, s.actors[t.who], t.act, EffectOf(s.world, s.actors[t.who], t.act), j)
  {
  }

  lemma UntouchedRow(w: World, e: Effect, j: JobId)
    requires j in w.jobs && w.jobs[j].status == Completed
    requires (e.db.Keep? || e.db.Remove? || e.db.id != j) && e.note != Some(Executed(j))
    ensures j in Apply(w, e).jobs && Apply(w, e).jobs[j] == w.jobs[j]
    ensures Count(Apply(w, e).hist.ledger, Executed(j)) == Count(w.hist.ledger, Executed(j))
  {
  }

  lemma StepFinished(s: State, t: Turn, j: JobId)
    requires Sound(s) && Finished(s, j) && !Disturbs(s, t, j)
    ensures Finished(Step(s, t), j)
    ensures Count(Step(s, t).world.hist.ledger, Executed(j)) == Count(s.world.hist.ledger, Executed(j))
  {
    if t.who < |s.actors| && Enabled(s.world, s.actors[t.who], t.act) {
      SumAtLeast(Token, s.actors, t.who, j);
      if ByWorker(t.act) { WorkerUntouched(s.world, s.actors[t.who], t.act, j); } else { OtherUntouched(s, t, j); }
      UntouchedRow(s.world, EffectOf(s.world, s.actors[t.who], t.act), j);
      TokenBalance(s, t, j);
      StepIs(s, t);
    } else {
      assert Step(s, t) == s;
    }
  }

  lemma DisturbedIsNot(s: State, t: Turn, j: JobId)
    requires Finished(s, j) && Disturbs(s, t, j)
    ensures !Finished(Step(s, t), j)
  {
    if t.act.RecoverPush? { TokenBalance(s, t, j); }
  }

  /** One turn leaves a completed job without a token so exactly when it does not disturb it. */
  lemma StepFinishedExact(s: State, t: Turn, j: JobId)
    requires Sound(s) && Finished(s, j)
    ensures Finished(Step(s, t), j) <==> !Disturbs(s, t, j)
  {
    if Disturbs(s, t, j) { DisturbedIsNot(s, t, j); } else { StepFinished(s, t, j); }
  }

  ghost predicate NeverDisturbs(s: State, run: seq<Turn>, j: JobId) {
    forall k :: 0 <= k < |run| ==> !Disturbs(After(s, run, k), run[k], j)
  }

  ghost predicate AlwaysFinished(s: State, run: seq<Turn>, j: JobId) {
    forall k :: 0 <= k <= |run| ==> Finished(After(s, run, k), j)
  }

  lemma {:induction false} UndisturbedRun(s: State, run: seq<Turn>, k: nat, j: JobId)
    requires Sound(s) && Finished(s, j) && NeverDisturbs(s, run, j) && k <= |run|
    ensures Finished(After(s, run, k), j)
    ensures Count(After(s, run, k).world.hist.ledger, Executed(j)) == Count(s.world.hist.ledger, Executed(j))
  {
    if k == 0 {
      assert run[..0] == [];
    } else {
      UndisturbedRun(s, run, k - 1, j);
      AfterNext(s, run, k - 1);
      RunSound(s, run[..k - 1]);
      StepFinished(After(s, run, k - 1), run[k - 1], j);
    }
  }

  /** Over a whole run a completed job stays completed and without a token exactly when no turn disturbs
      it, and then it is not executed again. */
  lemma FinishedExact(s: State, run: seq<Turn>, j: JobId)
    requires Sound(s) && Finished(s, j)
    ensures AlwaysFinished(s, run, j) <==> NeverDisturbs(s, run, j)
    ensures NeverDisturbs(s, run, j) ==>
              Count(Exec(s, run).world.hist.ledger, Executed(j)) == Count(s.world.hist.ledger, Executed(j))
  {
    if NeverDisturbs(s, run, j) {
      forall k | 0 <= k <= |run| ensures Finished(After(s, run, k), j) { UndisturbedRun(s, run, k, j); }
      UndisturbedRun(s, run, |run|, j);
      assert run[..|run|] == run;
    }
    if AlwaysFinished(s, run, j) {
      forall k | 0 <= k < |run| ensures !Disturbs(After(s, run, k), run[k], j) {
        AfterNext(s, run, k);
        RunSound(s, run[..k]);
        StepFinishedExact(After(s, run, k), run[k], j);
      }
    }
  }
}
