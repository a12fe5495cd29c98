/** The recovery sweep: exactly which lost jobs it brings back, and which it never will. */
module Recovery {
  import opened Jobs
  import opened Calls
  import opened Selection
  import opened Storage
  import opened Redis
  import opened Protocol
  import opened Tokens
  import opened Processes
  import opened ProcessRuns
  import opened SlotRuns

  // ---------- who is among the selected ----------

  function Older(keys: map<JobId, int>, x: JobId): set<JobId>
    requires x in keys
  {
    set y | y in keys && keys[y] < keys[x]
  }

  // Those that may come before x in some answer.
  function NotYounger(keys: map<JobId, int>, x: JobId): set<JobId>
    requires x in keys
  {
    set y | y in keys && y != x && keys[y] <= keys[x]
  }

  lemma SubsetSize(a: set<JobId>, b: set<JobId>)
    requires a <= b
    ensures |a| <= |b|
  {
    assert b == a + (b - a);
  }

  lemma SurelySelected(keys: map<JobId, int>, limit: nat, x: JobId, sel: seq<JobId>)
    requires Selects(sel, keys, limit) && x in keys && |NotYounger(keys, x)| < limit
    ensures x in sel
  {
    SetOfDistinct(sel);
    assert x in ToSet(sel) <==> x in sel;
    if x !in sel {
      SubsetSize(ToSet(sel), NotYounger(keys, x));
      assert |sel| == |keys|;
      SubsetSameSize(ToSet(sel), keys.Keys);
    }
  }

  lemma NeverSelected(keys: map<JobId, int>, limit: nat, x: JobId, sel: seq<JobId>)
    requires Selects(sel, keys, limit) && x in keys && |Older(keys, x)| >= limit
    ensures x !in sel
  {
    SetOfDistinct(sel);
    if x in sel {
      var i :| 0 <= i < |sel| && sel[i] == x;
      assert forall y :: y in keys && y !in sel ==> keys[sel[i]] <= keys[y];
      SubsetSize(Older(keys, x), ToSet(sel) - {x});
    }
  }

  // Breaking ties one way or the other gives one of the allowed answers.
  lemma TiesBroken(keys: map<JobId, int>, finer: map<JobId, int>, limit: nat, sel: seq<JobId>)
    requires keys.Keys == finer.Keys
    requires forall a, b :: a in keys && b in keys && keys[a] < keys[b] ==> finer[a] < finer[b]
    requires Selects(sel, finer, limit)
    ensures Selects(sel, keys, limit)
  {
    assert |keys| == |keys.Keys| == |finer|;
    forall i, j | 0 <= i < j < |sel| ensures keys[sel[i]] <= keys[sel[j]] { assert finer[sel[i]] <= finer[sel[j]]; }
    forall x, i | x in keys && x !in sel && 0 <= i < |sel| ensures keys[sel[i]] <= keys[x] {
      assert finer[sel[i]] <= finer[x];
    }
  }

  // The same rows with x first, or last, among its equals.
  function Favouring(keys: map<JobId, int>, x: JobId): map<JobId, int> {
    map y | y in keys :: 2 * keys[y] + if y == x then 0 else 1
  }

  function Hindering(keys: map<JobId, int>, x: JobId): map<JobId, int> {
    map y | y in keys :: 2 * keys[y] + if y == x then 1 else 0
  }

  lemma MayBeSelected(keys: map<JobId, int>, limit: nat, x: JobId) returns (sel: seq<JobId>)
    requires x in keys && |Older(keys, x)| < limit
    ensures Selects(sel, keys, limit) && x in sel
  {
    var finer := Favouring(keys, x);
    assert NotYounger(finer, x) == Older(keys, x);
    sel := SelectionExists(finer, limit);
    SurelySelected(finer, limit, x, sel);
    TiesBroken(keys, finer, limit, sel);
  }

  lemma MayBePassedOver(keys: map<JobId, int>, limit: nat, x: JobId) returns (sel: seq<JobId>)
    requires x in keys && |NotYounger(keys, x)| >= limit
    ensures Selects(sel, keys, limit) && x !in sel
  {
    var finer := Hindering(keys, x);
    assert Older(finer, x) == NotYounger(keys, x);
    sel := SelectionExists(finer, limit);
    NeverSelected(finer, limit, x, sel);
    TiesBroken(keys, finer, limit, sel);
  }

  /** A pending row without run time, old enough for the sweep, is taken up by every sweep exactly when
      fewer than 100 others are at least as old, and by some sweep exactly when fewer than 100 are
      older. */
  lemma RecoveryExact(jobs: Table, before: int, j: JobId)
    requires j in Unqueued(jobs, before)
    ensures (forall sel :: Selects(sel, Unqueued(jobs, before), SWEEP_LIMIT) ==> j in sel)
            <==> |NotYounger(Unqueued(jobs, before), j)| < SWEEP_LIMIT
    ensures (exists sel :: Selects(sel, Unqueued(jobs, before), SWEEP_LIMIT) && j in sel)
            <==> |Older(Unqueued(jobs, before), j)| < SWEEP_LIMIT
  {
    var keys := Unqueued(jobs, before);
    forall sel | Selects(sel, keys, SWEEP_LIMIT)
      ensures |NotYounger(keys, j)| < SWEEP_LIMIT ==> j in sel
      ensures |Older(keys, j)| >= SWEEP_LIMIT ==> j !in sel
    {
      if |NotYounger(keys, j)| < SWEEP_LIMIT { SurelySelected(keys, SWEEP_LIMIT, j, sel); }
      if |Older(keys, j)| >= SWEEP_LIMIT { NeverSelected(keys, SWEEP_LIMIT, j, sel); }
    }
    if |NotYounger(keys, j)| >= SWEEP_LIMIT { var sel := MayBePassedOver(keys, SWEEP_LIMIT, j); }
    if |Older(keys, j)| < SWEEP_LIMIT { var sel := MayBeSelected(keys, SWEEP_LIMIT, j); }
  }

  // ---------- a lost job comes back ----------

  lemma {:induction false} PushesDeliver(v: View, sweep: seq<(JobId, string)>, ios: seq<Io>, k: nat)
    requires |ios| == |sweep| && k < |sweep| && ios[k].Effective()
    ensures sweep[k].0 in ListOf(AfterPushes(v, sweep, ios).lists, sweep[k].1)
  {
    var n := |sweep| - 1;
    if k < n {
      PushesDeliver(v, sweep[..n], ios[..n], k);
      PushKeeps(AfterPushes(v, sweep[..n], ios[..n]), sweep[n].1, sweep[n].0, ios[n], sweep[k].1, sweep[k].0);
    } else {
      PushAdds(AfterPushes(v, sweep[..n], ios[..n]), sweep[n].1, sweep[n].0, ios[n]);
    }
  }

  lemma PushKeeps(v: View, q: string, id: JobId, io: Io, p: string, j: JobId)
    requires j in ListOf(v.lists, p)
    ensures j in ListOf(v.PushId(q, id, io).lists, p)
  {
  }

  lemma PushAdds(v: View, q: string, id: JobId, io: Io)
    requires io.Effective()
    ensures id in ListOf(v.PushId(q, id, io).lists, q)
  {
    assert ([id] + ListOf(v.lists, q))[0] == id;
  }

  lemma ListedHasToken(s: State, q: string, j: JobId)
    requires j in ListOf(s.world.lists, q)
    ensures TokenCount(s, j) > 0
  {
    InKeysPick(s.world.lists, s.world.lists.Keys, q, j);
    assert Occurs(s.world.lists[q], j) > 0;
  }

  /** A lost job that meets the condition has a token again after one sweep whose query succeeds and
      whose push of it is carried out; the rows are untouched. */
  lemma LostJobRecovered(s: State, who: nat, order: seq<JobId>, ios: seq<Io>, j: JobId)
    requires who < |s.actors| && s.actors[who] == Idle
    requires Selects(order, Unqueued(s.world.jobs, s.world.clock - RECOVERY_AGE), SWEEP_LIMIT)
    requires |ios| == |order| && forall k :: 0 <= k < |ios| ==> ios[k].Effective()
    requires var keys := Unqueued(s.world.jobs, s.world.clock - RECOVERY_AGE);
             j in keys && |NotYounger(keys, j)| < SWEEP_LIMIT
    ensures var s' := Exec(s, Turns(who, RecoverActs(order, Done, ios)));
            s'.world.jobs == s.world.jobs && j in ListOf(s'.world.lists, s.world.jobs[j].queue) && TokenCount(s', j) > 0
  {
    SurelySelected(Unqueued(s.world.jobs, s.world.clock - RECOVERY_AGE), SWEEP_LIMIT, j, order);
    var k :| 0 <= k < |order| && order[k] == j;
    RecoverTurns(s, who, order, Done, ios);
    var sweep := QueuesOf(s.world.jobs, order);
    PushesDeliver(ViewOf(s.world), sweep, ios, k);
    PushesKeepRows(ViewOf(s.world), sweep, ios);
    ListedHasToken(Exec(s, Turns(who, RecoverActs(order, Done, ios))), s.world.jobs[j].queue, j);
  }

  lemma {:induction false} PushesKeepRows(v: View, sweep: seq<(JobId, string)>, ios: seq<Io>)
    requires |ios| == |sweep|
    ensures AfterPushes(v, sweep, ios).jobs == v.jobs
  {
    if sweep == [] {
    } else {
      PushesKeepRows(v, sweep[..|sweep| - 1], ios[..|sweep| - 1]);
    }
  }
}
