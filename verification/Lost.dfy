/** What becomes of a lost job: who can still bring it back, and when nobody ever does. */
module Lost {
  import opened Jobs
  import opened Protocol
  import opened Redis
  import opened Tokens
  import opened Soundness

  // Still waiting to be executed, or cancelled meanwhile.
  predicate Waits(row: Row) { Live(row.status) || row.status == Cancelled }

  ghost predicate OnlyCancels(a: Actor, j: JobId) { Mentions(a, j) ==> a.CancelLoaded? }

  /** The job waits, has no token, and nobody in flight names it but cancel requests. */
  ghost predicate Unserved(s: State, j: JobId) {
    && j in s.world.jobs && Waits(s.world.jobs[j])
    && TokenCount(s, j) == 0
    && forall i :: 0 <= i < |s.actors| ==> OnlyCancels(s.actors[i], j)
  }

  // The step at most cancels the row, tells nobody else of the job and starts no handler.
  ghost predicate PassesBy(e: Effect, j: JobId) {
    && (e.db.Keep? || e.db.Remove? || e.db.id != j || e.db == Mark(j, Cancelled))
    && OnlyCancels(e.next, j)
    && e.note != Some(Executed(j))
  }

  // The recovery sweep does not take up the job with this action.
  predicate NotRecovered(act: Action, j: JobId) { act.Recover? ==> j !in act.order }

  ghost predicate Outsider(w: World, a: Actor, act: Action, j: JobId) {
    && j in w.jobs && j in w.used && Waits(w.jobs[j])
    && WorldTokens(w, j) == 0 && OnlyCancels(a, j) && NotRecovered(act, j)
  }

  lemma WorkerPasses(w: World, a: Actor, act: Action, j: JobId)
    requires ByWorker(act) && Enabled(w, a, act) && Outsider(w, a, act, j)
    ensures PassesBy(WorkerEffect(w, a, act), j)
  {
    if act.Pop? {
      var q := FirstNonEmpty(w.lists, act.queues);
      if q.Some? { InListsDrop(w.lists, q.value, j); }
    }
  }

  lemma RequestPasses(w: World, a: Actor, act: Action, j: JobId)
    requires ByRequest(act) && Enabled(w, a, act) && Outsider(w, a, act, j)
    ensures PassesBy(RequestEffect(w, a, act), j)
  {
  }

  lemma DueLoopPasses(w: World, a: Actor, act: Action, j: JobId)
    requires ByDueLoop(act) && Enabled(w, a, act) && Outsider(w, a, act, j)
    ensures PassesBy(DueLoopEffect(w, a, act), j)
  {
  }

  lemma SweepPasses(w: World, a: Actor, act: Action, j: JobId)
    requires BySweep(act) && !act.Recover? && !act.Reap? && Enabled(w, a, act) && Outsider(w, a, act, j)
    ensures PassesBy(SweepEffect(w, a, act), j)
  {
    var e := SweepEffect(w, a, act);
    assert Mentions(e.next, j) && (act.RecoverPush? || act.ReapWrite?) ==> Mentions(a, j);
    assert a.Reaping? && a.stale != [] ==> Mentions(a, a.stale[0].0);
  }

  lemma QueryPasses(w: World, a: Actor, act: Action, j: JobId)
    requires (act.Recover? || act.Reap?) && Enabled(w, a, act) && Outsider(w, a, act, j)
    ensures PassesBy(SweepEffect(w, a, act), j)
  {
    assert j !in act.order;
    NotPicked(w.jobs, act.order, j);
  }

  lemma AllPass(w: World, a: Actor, act: Action, j: JobId)
    requires Enabled(w, a, act) && Outsider(w, a, act, j)
    ensures PassesBy(EffectOf(w, a, act), j)
  {
    if ByWorker(act) { WorkerPasses(w, a, act, j); }
    else if ByRequest(act) { RequestPasses(w, a, act, j); }
    else if ByDueLoop(act) { DueLoopPasses(w, a, act, j); }
    else if act.Recover? || act.Reap? { QueryPasses(w, a, act, j); }
    else { SweepPasses(w, a, act, j); }
  }

  lemma NoGain(w: World, a: Actor, act: Action, j: JobId)
    requires Enabled(w, a, act) && j in w.used && OnlyCancels(a, j)
    ensures Gains(w, a, act, j) == 0
  {
    assert a.Recovering? && a.sweep != [] ==> Mentions(a, a.sweep[0].0);
  }

  lemma PassedBy(w: World, e: Effect, j: JobId)
    requires j in w.jobs && Waits(w.jobs[j]) && PassesBy(e, j)
    ensures var w' := Apply(w, e);
            && j in w'.jobs && (w'.jobs[j] == w.jobs[j] || w'.jobs[j] == w.jobs[j].(status := Cancelled))
            && Count(w'.hist.ledger, Executed(j)) == Count(w.hist.ledger, Executed(j))
  {
  }

  /** Only the recovery sweep can change anything about it, apart from a cancel. */
  lemma StepUnserved(s: State, t: Turn, j: JobId)
    requires Sound(s) && Unserved(s, j)
    requires t.who < |s.actors| && Enabled(s.world, s.actors[t.who], t.act) ==> NotRecovered(t.act, j)
    ensures Unserved(Step(s, t), j)
    ensures var row, row' := s.world.jobs[j], Step(s, t).world.jobs[j]; row' == row || row' == row.(status := Cancelled)
    ensures Count(Step(s, t).world.hist.ledger, Executed(j)) == Count(s.world.hist.ledger, Executed(j))
  {
    if t.who < |s.actors| && Enabled(s.world, s.actors[t.who], t.act) {
      AllPass(s.world, s.actors[t.who], t.act, j);
      PassedBy(s.world, EffectOf(s.world, s.actors[t.who], t.act), j);
      NoGain(s.world, s.actors[t.who], t.act, j);
      TokenBalance(s, t, j);
      StepIs(s, t);
    } else {
      assert Step(s, t) == s;
    }
  }

  // ---------- outside what the recovery sweep looks for ----------

  ghost predicate Stuck(s: State, j: JobId) {
    Unserved(s, j) && (s.world.jobs[j].runAt.Some? || s.world.jobs[j].status != Pending)
  }

  /** A job lost in this way is never executed again, in any continuation. */
  lemma {:induction false} StuckForEver(s: State, run: seq<Turn>, j: JobId)
    requires Sound(s) && Stuck(s, j)
    ensures Stuck(Exec(s, run), j)
    ensures Count(Exec(s, run).world.hist.ledger, Executed(j)) == Count(s.world.hist.ledger, Executed(j))
  {
    if run == [] {
    } else {
      StuckForEver(s, run[..|run| - 1], j);
      RunSound(s, run[..|run| - 1]);
      StepUnserved(Exec(s, run[..|run| - 1]), run[|run| - 1], j);
    }
  }
}
