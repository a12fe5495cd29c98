/** Building runs: appending turns, joining runs, and what that does to calm runs. */
module Runs {
  import opened Jobs
  import opened Protocol
  import opened Soundness
  import opened NoLostJob
  import opened RetryCycle

  lemma ExecSnoc(s: State, run: seq<Turn>, t: Turn)
    ensures Exec(s, run + [t]) == Step(Exec(s, run), t)
  {
    assert (run + [t])[..|run|] == run;
  }

  lemma {:induction false} ExecConcat(s: State, first: seq<Turn>, second: seq<Turn>)
    ensures Exec(s, first + second) == Exec(Exec(s, first), second)
    decreases |second|
  {
    if second == [] {
      assert first + second == first;
    } else {
      var front, t := second[..|second| - 1], second[|second| - 1];
      ExecConcat(s, first, front);
      ExecSnoc(s, first + front, t);
      assert first + second == (first + front) + [t];
    }
  }

  lemma CalmEarly(s: State, first: seq<Turn>, second: seq<Turn>, j: JobId, k: nat)
    requires CalmRun(s, first, j) && k < |first|
    ensures CalmTurn(After(s, first + second, k), (first + second)[k], j)
  {
    assert (first + second)[..k] == first[..k];
    assert CalmTurn(After(s, first, k), first[k], j);
  }

  lemma CalmLate(s: State, first: seq<Turn>, second: seq<Turn>, j: JobId, k: nat)
    requires CalmRun(Exec(s, first), second, j) && |first| <= k < |first + second|
    ensures CalmTurn(After(s, first + second, k), (first + second)[k], j)
  {
    var m := k - |first|;
    assert (first + second)[..k] == first + second[..m];
    assert (first + second)[k] == second[m];
    ExecConcat(s, first, second[..m]);
    assert After(s, first + second, k) == After(Exec(s, first), second, m);
  }

  lemma CalmConcat(s: State, first: seq<Turn>, second: seq<Turn>, j: JobId)
    requires CalmRun(s, first, j) && CalmRun(Exec(s, first), second, j)
    ensures CalmRun(s, first + second, j)
  {
    var run := first + second;
    forall k | 0 <= k < |run| ensures CalmTurn(After(s, run, k), run[k], j) {
      if k < |first| { CalmEarly(s, first, second, j, k); } else { CalmLate(s, first, second, j, k); }
    }
  }

  lemma Concat(s: State, first: seq<Turn>, second: seq<Turn>, j: JobId)
    requires CalmRun(s, first, j) && CalmRun(Exec(s, first), second, j)
    ensures CalmRun(s, first + second, j) && Exec(s, first + second) == Exec(Exec(s, first), second)
  {
    CalmConcat(s, first, second, j);
    ExecConcat(s, first, second);
  }

  lemma {:induction false} ClockGrows(s: State, run: seq<Turn>)
    requires Sound(s)
    ensures s.world.clock <= Exec(s, run).world.clock
  {
    if run == [] {
    } else {
      ClockGrows(s, run[..|run| - 1]);
      RunSound(s, run[..|run| - 1]);
      StepSound(Exec(s, run[..|run| - 1]), run[|run| - 1]);
    }
  }

  // ---------- concrete runs ----------

  const CONF: Config := Config({"t"}, 0)

  predicate Clean(run: seq<Turn>) { forall m :: 0 <= m < |run| ==> Faultless(run[m].act) }

  lemma Join(s: State, first: seq<Turn>, second: seq<Turn>) returns (run: seq<Turn>)
    requires Clean(first) && Clean(second)
    ensures run == first + second && Clean(run) && Exec(s, run) == Exec(Exec(s, first), second)
  {
    ExecConcat(s, first, second);
    run := first + second;
  }
}
