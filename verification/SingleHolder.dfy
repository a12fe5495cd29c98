/** At most one token per job, none for a dead one: exactly which turns keep it. */
module SingleHolder {
  import opened Jobs
  import opened Calls
  import opened Protocol
  import opened Tokens
  import opened Soundness

  ghost predicate IsDead(w: World, j: JobId) { j in w.jobs && w.jobs[j].status == Dead }

  ghost predicate OneToken(s: State, j: JobId) {
    TokenCount(s, j) <= 1 && (IsDead(s.world, j) ==> TokenCount(s, j) == 0)
  }

  ghost predicate OneTokenEach(s: State) { forall j :: OneToken(s, j) }

  /** The two unguarded moves: an API retry that resets a row whose job is no longer without a
      token, and a recovery-sweep push of a job that has a token or is dead. */
  ghost predicate Collides(s: State, t: Turn) {
    t.who < |s.actors| &&
    var a := s.actors[t.who];
    Fits(a, t.act) &&
    match t.act
    case RetryReset(io) => io.Done? && TokenCount(s, a.id) > 0
    case RecoverPush(io) =>
      a.sweep != [] && io.Effective() && (TokenCount(s, a.sweep[0].0) > 0 || IsDead(s.world, a.sweep[0].0))
    case _ => false
  }

  // Only handleFailure makes a row dead, and the same step ends the worker's token.
  lemma DeadWrites(w: World, a: Actor, act: Action)
    requires Enabled(w, a, act)
    ensures var op := EffectOf(w, a, act).db;
            && (op.Write? && op.status == Dead ==>
                  act.Fail? && op.id == a.id && a.snap.retryCount + 1 >= a.snap.maxRetries)
            && (op.Mark? ==> op.status != Dead)
            && (op.Insert? ==> op.row.status != Dead)
            && (act.RetryReset? && act.io.Done? ==> op == Write(a.id, Pending, 0))
  {
  }

  lemma DeathsByWorker(w: World, a: Actor, act: Action, j: JobId)
    requires Enabled(w, a, act) && IsDead(Apply(w, EffectOf(w, a, act)), j)
    ensures IsDead(w, j) || (act.Fail? && a.id == j && Drops(w, a, act, j) == 1)
    ensures act.RetryReset? && act.io.Done? ==> a.id != j
  {
    DeadWrites(w, a, act);
  }

  lemma NewTokens(w: World, a: Actor, act: Action, j: JobId)
    requires Enabled(w, a, act) && Gains(w, a, act, j) > 0
    ensures || (act.Create? && act.newId == j && j !in w.used)
            || (act.RetryReset? && a.id == j && act.io.Done?)
            || (act.RecoverPush? && a.sweep != [] && act.io.Effective() && a.sweep[0].0 == j)
  {
  }

  lemma UnknownHasNone(s: State, j: JobId)
    requires Sound(s) && j !in s.world.used
    ensures TokenCount(s, j) == 0
  {
    forall i | 0 <= i < |s.actors| ensures WeightOf(Token, s.actors[i], j) == 0 {
      assert ActorOk(s.world, s.actors[i]);
      assert !Mentions(s.actors[i], j);
    }
    SumZero(Token, s.actors, j);
    assert WorldTokens(s.world, j) == 0;
  }

  lemma StepKeepsOne(s: State, t: Turn, j: JobId)
    requires Sound(s) && OneTokenEach(s) && !Collides(s, t)
    ensures OneToken(Step(s, t), j)
  {
    assert OneToken(s, j);
    if t.who < |s.actors| && Enabled(s.world, s.actors[t.who], t.act) {
      var a := s.actors[t.who];
      TokenBalance(s, t, j);
      if Gains(s.world, a, t.act, j) > 0 {
        NewTokens(s.world, a, t.act, j);
        if t.act.Create? { UnknownHasNone(s, j); }
      }
      if IsDead(Step(s, t).world, j) {
        StepIs(s, t);
        DeathsByWorker(s.world, a, t.act, j);
        if t.act.Fail? && a.id == j { SumAtLeast(Token, s.actors, t.who, j); }
      }
    } else {
      assert Step(s, t) == s;
    }
  }

  lemma CollisionBreaks(s: State, t: Turn)
    requires OneTokenEach(s) && Collides(s, t)
    ensures !OneTokenEach(Step(s, t))
  {
    var a := s.actors[t.who];
    var j := if t.act.RetryReset? then a.id else a.sweep[0].0;
    TokenBalance(s, t, j);
    assert t.act.RecoverPush? ==> Step(s, t).world.jobs == s.world.jobs;
    assert !OneToken(Step(s, t), j);
  }

  /** One turn keeps the property exactly when it is not one of the two unguarded moves. */
  lemma StepExact(s: State, t: Turn)
    requires Sound(s) && OneTokenEach(s)
    ensures OneTokenEach(Step(s, t)) <==> !Collides(s, t)
  {
    if Collides(s, t) {
      CollisionBreaks(s, t);
    } else {
      forall j ensures OneToken(Step(s, t), j) { StepKeepsOne(s, t, j); }
    }
  }

  lemma StartHasOne(slots: nat, conf: Config, clock: int)
    ensures OneTokenEach(Start(slots, conf, clock))
  {
    var s := Start(slots, conf, clock);
    StartSound(slots, conf, clock);
    forall j ensures OneToken(s, j) { UnknownHasNone(s, j); }
  }

  ghost predicate NeverCollides(s: State, run: seq<Turn>) {
    forall k :: 0 <= k < |run| ==> !Collides(After(s, run, k), run[k])
  }

  ghost predicate AlwaysOne(s: State, run: seq<Turn>) {
    forall k :: 0 <= k <= |run| ==> OneTokenEach(After(s, run, k))
  }

  lemma {:induction false} CollisionFree(s: State, run: seq<Turn>, k: nat)
    requires Sound(s) && OneTokenEach(s) && NeverCollides(s, run) && k <= |run|
    ensures OneTokenEach(After(s, run, k))
  {
    if k == 0 {
    } else {
      CollisionFree(s, run, k - 1);
      AfterNext(s, run, k - 1);
      RunSound(s, run[..k - 1]);
      StepExact(After(s, run, k - 1), run[k - 1]);
    }
  }

  /** A run, with any failures and crashes in it, keeps one token per job throughout exactly when it
      never collides. */
  lemma RunExact(slots: nat, conf: Config, clock: int, run: seq<Turn>)
    ensures AlwaysOne(Start(slots, conf, clock), run) <==> NeverCollides(Start(slots, conf, clock), run)
  {
    var s := Start(slots, conf, clock);
    StartSound(slots, conf, clock);
    StartHasOne(slots, conf, clock);
    if NeverCollides(s, run) {
      forall k | 0 <= k <= |run| ensures OneTokenEach(After(s, run, k)) { CollisionFree(s, run, k); }
    }
    if AlwaysOne(s, run) {
      forall k | 0 <= k < |run| ensures !Collides(After(s, run, k), run[k]) {
        AfterNext(s, run, k);
        RunSound(s, run[..k]);
        StepExact(After(s, run, k), run[k]);
      }
    }
  }

  /** While nothing collides, no two workers execute the same job at once. */
  lemma NoDoubleExecution(slots: nat, conf: Config, clock: int, run: seq<Turn>, i: nat, m: nat)
    requires NeverCollides(Start(slots, conf, clock), run)
    requires i < m < slots
    ensures var s := Exec(Start(slots, conf, clock), run);
            s.actors[i].Executing? && s.actors[m].Executing? ==> s.actors[i].id != s.actors[m].id
  {
    RunExact(slots, conf, clock, run);
    var s := Exec(Start(slots, conf, clock), run);
    assert s == After(Start(slots, conf, clock), run, |run|) by { assert run[..|run|] == run; }
    if s.actors[i].Executing? {
      SumAtLeastTwo(Token, s.actors, i, m, s.actors[i].id);
      assert OneToken(s, s.actors[i].id);
    }
  }

  // Every API retry that gets to its reset read the row as dead in the turn just before.
  ghost predicate RetriesWhole(s: State, run: seq<Turn>) {
    forall k :: 0 <= k < |run| && run[k].act.RetryReset? ==>
      && k > 0
      && run[k - 1].act.RetryRead? && run[k - 1].who == run[k].who
      && (run[k].who < |s.actors| ==> After(s, run, k - 1).actors[run[k].who].Idle?)
  }

  lemma WholeRetryHarmless(s: State, who: nat, id: JobId, io: Io, io': Io)
    requires OneTokenEach(s) && (who < |s.actors| ==> s.actors[who].Idle?)
    ensures !Collides(Step(s, Turn(who, RetryRead(id, io))), Turn(who, RetryReset(io')))
  {
    if who < |s.actors| {
      TokenBalance(s, Turn(who, RetryRead(id, io)), id);
      assert OneToken(s, id);
    }
  }

  lemma {:induction false} WholeRetriesKeepOne(s: State, run: seq<Turn>, k: nat)
    requires Sound(s) && OneTokenEach(s) && RetriesWhole(s, run) && k <= |run|
    requires forall m :: 0 <= m < |run| && run[m].act.RecoverPush? ==> !Collides(After(s, run, m), run[m])
    ensures OneTokenEach(After(s, run, k))
    ensures k < |run| ==> !Collides(After(s, run, k), run[k])
  {
    if k == 0 {
    } else {
      WholeRetriesKeepOne(s, run, k - 1);
      AfterNext(s, run, k - 1);
      RunSound(s, run[..k - 1]);
      StepExact(After(s, run, k - 1), run[k - 1]);
      if k < |run| && run[k].act.RetryReset? {
        WholeRetryHarmless(After(s, run, k - 1), run[k].who, run[k - 1].act.job, run[k - 1].act.io, run[k].act.io);
      }
    }
  }

  /** With API retries taken whole and sweeps that push only jobs without a token, no run collides. */
  lemma WholeRetriesNeverCollide(slots: nat, conf: Config, clock: int, run: seq<Turn>)
    requires RetriesWhole(Start(slots, conf, clock), run)
    requires forall m :: 0 <= m < |run| && run[m].act.RecoverPush? ==>
               !Collides(After(Start(slots, conf, clock), run, m), run[m])
    ensures NeverCollides(Start(slots, conf, clock), run)
    ensures AlwaysOne(Start(slots, conf, clock), run)
  {
    var s := Start(slots, conf, clock);
    StartSound(slots, conf, clock);
    StartHasOne(slots, conf, clock);
    forall k | 0 <= k < |run| ensures !Collides(After(s, run, k), run[k]) { WholeRetriesKeepOne(s, run, k); }
    RunExact(slots, conf, clock, run);
  }
}
