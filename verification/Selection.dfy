/** ORDER BY key ASC LIMIT n over a finite set of keyed ids, as the sweep queries and the
    score range of a sorted set return them. */
module Selection {
  import opened Jobs

  predicate NoDuplicates(ids: seq<JobId>) {
    forall i, j :: 0 <= i < j < |ids| ==> ids[i] != ids[j]
  }

  // ORDER BY key ASC LIMIT limit; ties may come back in any order.
  ghost predicate Selects(sel: seq<JobId>, keys: map<JobId, int>, limit: nat) {
    && NoDuplicates(sel)
    && (forall i :: 0 <= i < |sel| ==> sel[i] in keys)
    && |sel| == (if |keys| < limit then |keys| else limit)
    && (forall i, j :: 0 <= i < j < |sel| ==> keys[sel[i]] <= keys[sel[j]])
    && (forall x, i :: x in keys && x !in sel && 0 <= i < |sel| ==> keys[sel[i]] <= keys[x])
  }

  method OldestOf(keys: map<JobId, int>, rest: set<JobId>) returns (m: JobId)
    requires rest != {} && rest <= keys.Keys
    ensures m in rest && forall x :: x in rest ==> keys[m] <= keys[x]
  {
    m :| m in rest;
    var todo := rest - {m};
    while todo != {}
      invariant todo <= rest && m in rest
      invariant forall x :: x in rest && x !in todo ==> keys[m] <= keys[x]
      decreases todo
    {
      var x :| x in todo;
      if keys[x] < keys[m] { m := x; }
      todo := todo - {x};
    }
  }

  method SelectOldest(keys: map<JobId, int>, limit: nat) returns (sel: seq<JobId>)
    ensures Selects(sel, keys, limit)
  {
    sel := [];
    var rest := keys.Keys;
    while |sel| < limit && rest != {}
      invariant NoDuplicates(sel) && |sel| <= limit
      invariant rest <= keys.Keys && |sel| + |rest| == |keys|
      invariant forall x :: x in keys <==> x in sel || x in rest
      invariant forall i :: 0 <= i < |sel| ==> sel[i] !in rest
      invariant forall i, j :: 0 <= i < j < |sel| ==> keys[sel[i]] <= keys[sel[j]]
      invariant forall x, i :: x in rest && 0 <= i < |sel| ==> keys[sel[i]] <= keys[x]
      decreases rest
    {
      var m := OldestOf(keys, rest);
      sel, rest := sel + [m], rest - {m};
    }
  }

  // Some row is oldest.
  lemma {:induction false} SomeOldest(keys: map<JobId, int>) returns (m: JobId)
    requires keys != map[]
    ensures m in keys && forall x :: x in keys ==> keys[m] <= keys[x]
    decreases |keys|
  {
    m :| m in keys;
    var rest := keys - {m};
    if rest != map[] {
      assert |rest| < |keys| by { SmallerMap(keys, m); }
      var n := SomeOldest(rest);
      if keys[n] < keys[m] {
        forall x | x in keys ensures keys[n] <= keys[x] { if x != m { assert x in rest; } }
        m := n;
      } else {
        forall x | x in keys ensures keys[m] <= keys[x] { if x != m { assert x in rest; } }
      }
    } else {
      assert forall x :: x in keys && x != m ==> x in rest;
    }
  }

  lemma SmallerMap(keys: map<JobId, int>, m: JobId)
    requires m in keys
    ensures |keys - {m}| == |keys| - 1
  {
    assert (keys - {m}).Keys == keys.Keys - {m};
  }

  // A query always has an answer.
  lemma {:induction false} SelectionExists(keys: map<JobId, int>, limit: nat) returns (sel: seq<JobId>)
    ensures Selects(sel, keys, limit)
    decreases limit
  {
    if limit == 0 || keys == map[] {
      sel := [];
    } else {
      var m := SomeOldest(keys);
      SmallerMap(keys, m);
      var rest := SelectionExists(keys - {m}, limit - 1);
      OldestThenRest(keys, limit, m, rest);
      sel := [m] + rest;
    }
  }

  lemma OldestThenRest(keys: map<JobId, int>, limit: nat, m: JobId, rest: seq<JobId>)
    requires limit > 0 && m in keys && (forall x :: x in keys ==> keys[m] <= keys[x])
    requires Selects(rest, keys - {m}, limit - 1)
    ensures Selects([m] + rest, keys, limit)
  {
    SmallerMap(keys, m);
    var sel := [m] + rest;
    forall i | 0 < i < |sel| ensures sel[i] in keys && sel[i] != m && sel[i] == rest[i - 1] {}
    assert NoDuplicates(sel);
    forall i, j | 0 <= i < j < |sel| ensures keys[sel[i]] <= keys[sel[j]] {
      if i > 0 { assert (keys - {m})[rest[i - 1]] <= (keys - {m})[rest[j - 1]]; }
    }
    forall x, i | x in keys && x !in sel && 0 <= i < |sel| ensures keys[sel[i]] <= keys[x] {
      assert x !in rest by { assert forall k :: 0 <= k < |rest| ==> rest[k] == sel[k + 1]; }
      assert x != m by { assert sel[0] == m; }
      if i > 0 { assert (keys - {m})[rest[i - 1]] <= (keys - {m})[x]; }
    }
  }

  // ---------- how many ----------

  function ToSet(ids: seq<JobId>): set<JobId> { set x | x in ids }

  lemma {:induction false} SetOfDistinct(ids: seq<JobId>)
    requires NoDuplicates(ids)
    ensures |ToSet(ids)| == |ids|
  {
    if ids == [] {
    } else {
      SetOfDistinct(ids[1..]);
      assert ids == [ids[0]] + ids[1..];
      assert ToSet(ids) == ToSet(ids[1..]) + {ids[0]};
    }
  }

  lemma SubsetSameSize(a: set<JobId>, b: set<JobId>)
    requires a <= b && |a| == |b|
    ensures a == b
  {
    assert |b| == |a| + |b - a|;
  }

  // An answer shorter than the limit holds everything.
  lemma ShortAnswer(sel: seq<JobId>, keys: map<JobId, int>, limit: nat, x: JobId)
    requires Selects(sel, keys, limit) && |sel| < limit && x in keys
    ensures x in sel
  {
    SetOfDistinct(sel);
    SubsetSameSize(ToSet(sel), keys.Keys);
    assert x in ToSet(sel);
  }
}
