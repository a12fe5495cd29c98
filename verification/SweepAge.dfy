/** Where the pushes of the recovery sweep come from: a query that found the row pending, without run time
    and more than five seconds old. */
module SweepAge {
  import opened Jobs
  import opened Storage
  import opened Protocol
  import opened Soundness
  import opened SingleHolder

  // In turn m slot `who` asked, and the row of x was old enough.
  ghost predicate FoundOld(s: State, run: seq<Turn>, m: nat, who: nat, x: JobId)
    requires m < |run|
  {
    var w := After(s, run, m).world;
    && run[m].who == who && run[m].act.Recover? && x in run[m].act.order
    && x in w.jobs && LeftBehind(w.jobs[x], w.clock - 5 * SECOND)
  }

  lemma QueryFindsOld(s: State, who: nat, act: Action, x: JobId)
    requires who < |s.actors| && Enabled(s.world, s.actors[who], act) && act.Recover?
    requires Mentions(EffectOf(s.world, s.actors[who], act).next, x)
    ensures x in act.order && x in s.world.jobs && LeftBehind(s.world.jobs[x], s.world.clock - 5 * SECOND)
  {
    UnqueuedMeans(act.order, s.world.jobs, s.world.clock - RECOVERY_AGE);
    NamedIsPicked(s.world.jobs, act.order, x);
  }

  lemma NamedIsPicked(jobs: Table, order: seq<JobId>, x: JobId)
    requires forall i :: 0 <= i < |order| ==> order[i] in jobs
    ensures Mentions(Recovering(QueuesOf(jobs, order)), x) ==> x in order
  {
  }

  // A slot that sweeps has just asked, or swept before.
  lemma SweepSource(w: World, a: Actor, act: Action, x: JobId)
    requires Enabled(w, a, act) && EffectOf(w, a, act).next.Recovering? && Mentions(EffectOf(w, a, act).next, x)
    ensures act.Recover? || (a.Recovering? && Mentions(a, x))
  {
  }

  lemma {:induction false} FromQuery(s: State, run: seq<Turn>, k: nat, who: nat, x: JobId) returns (m: nat)
    requires k <= |run| && who < |s.actors| && !s.actors[who].Recovering?
    requires After(s, run, k).actors[who].Recovering? && Mentions(After(s, run, k).actors[who], x)
    ensures m < k && FoundOld(s, run, m, who, x)
  {
    assert run[..0] == [];
    if k > 0 {
      var s1, t := After(s, run, k - 1), run[k - 1];
      AfterNext(s, run, k - 1);
      if t.who == who && Enabled(s1.world, s1.actors[who], t.act) {
        StepIs(s1, t);
        SweepSource(s1.world, s1.actors[who], t.act, x);
        if t.act.Recover? {
          QueryFindsOld(s1, who, t.act, x);
          m := k - 1;
        } else {
          m := FromQuery(s, run, k - 1, who, x);
        }
      } else {
        assert Step(s1, t).actors[who] == s1.actors[who];
        m := FromQuery(s, run, k - 1, who, x);
      }
    }
  }

  /** In every run, every push of the recovery sweep goes back to a query of the same slot that found the
      row pending, without run time and more than five seconds old. So a job whose row is younger than that
      at every query gets no second token from the sweep: no such push collides. */
  lemma PushesAreOld(slots: nat, conf: Config, clock: int, run: seq<Turn>, k: nat) returns (m: nat)
    requires k < |run| && run[k].act.RecoverPush? && run[k].who < slots
    requires var a := After(Start(slots, conf, clock), run, k).actors[run[k].who]; a.Recovering? && a.sweep != []
    ensures var s := Start(slots, conf, clock);
            m < k && FoundOld(s, run, m, run[k].who, After(s, run, k).actors[run[k].who].sweep[0].0)
  {
    var s := Start(slots, conf, clock);
    var a := After(s, run, k).actors[run[k].who];
    assert Mentions(a, a.sweep[0].0);
    m := FromQuery(s, run, k, run[k].who, a.sweep[0].0);
  }

  // The row of x is younger than five seconds whenever a sweep asks.
  ghost predicate YoungAtQueries(s: State, run: seq<Turn>, x: JobId) {
    forall m :: 0 <= m < |run| && run[m].act.Recover? ==>
      var w := After(s, run, m).world; x in w.jobs ==> w.jobs[x].createdAt >= w.clock - 5 * SECOND
  }

  lemma YoungNeverCollides(slots: nat, conf: Config, clock: int, run: seq<Turn>, k: nat, x: JobId)
    requires YoungAtQueries(Start(slots, conf, clock), run, x) && k < |run| && run[k].act.RecoverPush?
    requires Collides(After(Start(slots, conf, clock), run, k), run[k])
    ensures After(Start(slots, conf, clock), run, k).actors[run[k].who].sweep[0].0 != x
  {
    var m := PushesAreOld(slots, conf, clock, run, k);
  }
}
