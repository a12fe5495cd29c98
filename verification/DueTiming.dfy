/** When the sorted set lets a job go, in every run and whoever asks. */
module DueTiming {
  import opened Jobs
  import opened Calls
  import opened Redis
  import opened Protocol
  import opened Tokens
  import opened Soundness
  import opened Rows

  predicate WishOk(wish: Wish) {
    1 <= wish.attempt <= 33 ==> wish.runAt == wish.failedAt + Pow2(wish.attempt) * SECOND
  }

  // Every entry carries the whole seconds of the run time last asked for.
  ghost predicate Wishes(w: World) {
    forall j :: j in w.sched ==>
      j in w.hist.wish && w.sched[j] == Unix(w.hist.wish[j].runAt) && WishOk(w.hist.wish[j])
  }

  lemma WishMade(w: World, a: Actor, act: Action)
    requires Enabled(w, a, act) && ActorOk(w, a)
    ensures var op := EffectOf(w, a, act).redis; op.SetAdd? ==> WishOk(op.wish)
  {
    if act.BackOff? && a.attempt <= 33 { BackoffExact(a.attempt, act.platform); }
  }

  lemma StepWishes(s: State, t: Turn)
    requires Sound(s) && Wishes(s.world)
    ensures Wishes(Step(s, t).world)
  {
    if t.who < |s.actors| && Enabled(s.world, s.actors[t.who], t.act) {
      WishMade(s.world, s.actors[t.who], t.act);
      StepIs(s, t);
    } else {
      assert Step(s, t) == s;
    }
  }

  lemma {:induction false} RunWishes(s: State, run: seq<Turn>)
    requires Sound(s) && Wishes(s.world)
    ensures Wishes(Exec(s, run).world)
  {
    if run == [] {
    } else {
      RunWishes(s, run[..|run| - 1]);
      RunSound(s, run[..|run| - 1]);
      StepWishes(Exec(s, run[..|run| - 1]), run[|run| - 1]);
    }
  }

  // ---------- entries made at creation ----------

  // What a create request is about to ask of the set, or has asked, is the run time of its row.
  ghost predicate PledgeOk(w: World, a: Actor) {
    a.Creating? && a.id in w.jobs ==> w.jobs[a.id].runAt == a.row.runAt
  }

  ghost predicate BirthWish(w: World, j: JobId) {
    j in w.hist.wish ==>
      j in w.used && (w.hist.wish[j].attempt == 0 && j in w.jobs ==> w.jobs[j].runAt == Some(w.hist.wish[j].runAt))
  }

  ghost predicate Promised(s: State) {
    (forall j :: BirthWish(s.world, j)) && forall i :: 0 <= i < |s.actors| ==> PledgeOk(s.world, s.actors[i])
  }

  // Where entries come from.
  lemma EntryMade(w: World, a: Actor, act: Action)
    requires Enabled(w, a, act) && ActorOk(w, a)
    ensures var e := EffectOf(w, a, act);
            e.redis.SetAdd? ==>
              && e.db.Keep? && e.redis.id in w.used
              && (e.redis.wish.attempt == 0 ==>
                    a.Creating? && a.id == e.redis.id && a.row.runAt == Some(e.redis.wish.runAt))
  {
    if !a.Idle? && !a.DueBatch? && !a.Recovering? && !a.Reaping? { assert Mentions(a, a.id); }
  }

  lemma OldWish(s: State, t: Turn, j: JobId)
    requires Sound(s) && BirthWish(s.world, j)
    requires j in s.world.hist.wish && Step(s, t).world.hist.wish == s.world.hist.wish
    ensures BirthWish(Step(s, t).world, j)
  {
    StepSound(s, t);
    if j in Step(s, t).world.jobs {
      StepBringsNoneBack(s, t, j);
      StepKeepsBirth(s, t, j);
    }
  }

  lemma StepBirthWish(s: State, t: Turn, j: JobId)
    requires Sound(s) && Promised(s)
    requires t.who < |s.actors| && Enabled(s.world, s.actors[t.who], t.act)
    ensures BirthWish(Step(s, t).world, j)
  {
    var e := EffectOf(s.world, s.actors[t.who], t.act);
    assert ActorOk(s.world, s.actors[t.who]) && PledgeOk(s.world, s.actors[t.who]) && BirthWish(s.world, j);
    EntryMade(s.world, s.actors[t.who], t.act);
    StepIs(s, t);
    if e.redis.SetAdd? {
    } else if j in s.world.hist.wish {
      OldWish(s, t, j);
    }
  }

  lemma NextPledge(w: World, a: Actor, act: Action)
    requires Enabled(w, a, act) && PledgeOk(w, a)
    ensures PledgeOk(Apply(w, EffectOf(w, a, act)), EffectOf(w, a, act).next)
  {
  }

  lemma OtherPledge(s: State, t: Turn, a: Actor)
    requires Sound(s) && ActorOk(s.world, a) && PledgeOk(s.world, a)
    ensures PledgeOk(Step(s, t).world, a)
  {
    if a.Creating? && a.id in Step(s, t).world.jobs {
      assert Mentions(a, a.id);
      StepBringsNoneBack(s, t, a.id);
      StepKeepsBirth(s, t, a.id);
    }
  }

  lemma StepPromised(s: State, t: Turn)
    requires Sound(s) && Promised(s)
    ensures Promised(Step(s, t))
  {
    if t.who < |s.actors| && Enabled(s.world, s.actors[t.who], t.act) {
      forall j ensures BirthWish(Step(s, t).world, j) { StepBirthWish(s, t, j); }
      StepIs(s, t);
      forall i | 0 <= i < |s.actors| ensures PledgeOk(Step(s, t).world, Step(s, t).actors[i]) {
        if i == t.who { NextPledge(s.world, s.actors[i], t.act); } else { OtherPledge(s, t, s.actors[i]); }
      }
    } else {
      assert Step(s, t) == s;
    }
  }

  lemma {:induction false} RunPromised(s: State, run: seq<Turn>)
    requires Sound(s) && Promised(s)
    ensures Promised(Exec(s, run))
  {
    if run == [] {
    } else {
      RunPromised(s, run[..|run| - 1]);
      RunSound(s, run[..|run| - 1]);
      StepPromised(Exec(s, run[..|run| - 1]), run[|run| - 1]);
    }
  }

  lemma PromiseKept(slots: nat, conf: Config, clock: int, run: seq<Turn>, j: JobId)
    ensures BirthWish(Exec(Start(slots, conf, clock), run).world, j)
  {
    StartSound(slots, conf, clock);
    RunPromised(Start(slots, conf, clock), run);
  }

  // ---------- release ----------

  /** A GetDueJobs call at any moment of any run returns every job whose run time has come, none
      that is a second or more away, the k-th retry not before 2^k - 1 seconds after its failure, and a job
      put there by its creation by the run time in its row. */
  lemma ReleasedInTime(slots: nat, conf: Config, clock: int, run: seq<Turn>, who: nat, order: seq<JobId>, j: JobId)
    requires var s := Exec(Start(slots, conf, clock), run);
             who < slots && Enabled(s.world, s.actors[who], DueFetch(order, Done)) && j in s.world.sched
    ensures var s := Exec(Start(slots, conf, clock), run);
            && Step(s, Turn(who, DueFetch(order, Done))).actors[who] == DueBatch(order)
            && (j in order <==> j !in Step(s, Turn(who, DueFetch(order, Done))).world.sched)
            && j in s.world.hist.wish
            && var wish := s.world.hist.wish[j];
               && (wish.runAt <= s.world.clock ==> j in order)
               && (j in order ==> wish.runAt < s.world.clock + SECOND)
               && (j in order && 1 <= wish.attempt <= 33 ==>
                     s.world.clock - wish.failedAt > (Pow2(wish.attempt) - 1) * SECOND)
               && (wish.attempt == 0 && j in s.world.jobs ==>
                     && s.world.jobs[j].runAt == Some(wish.runAt)
                     && (j in order ==> s.world.jobs[j].runAt.value < s.world.clock + SECOND))
  {
    StartSound(slots, conf, clock);
    PromiseKept(slots, conf, clock, run, j);
    RunWishes(Start(slots, conf, clock), run);
    var s := Exec(Start(slots, conf, clock), run);
    SelectsAll(order, Due(s.world.sched, Unix(s.world.clock)), j);
    DueWindow(s.world.sched, j, s.world.hist.wish[j].runAt, s.world.clock);
    StepIs(s, Turn(who, DueFetch(order, Done)));
  }
}
