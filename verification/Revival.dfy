/** An API retry of a dead job gives it its full number of attempts again. */
module Revival {
  import opened Jobs
  import opened Calls
  import opened Redis
  import opened Protocol
  import opened Tokens
  import opened Soundness
  import opened RetryCycle
  import opened Processes
  import opened ProcessRuns
  import opened SlotRuns
  import opened Outcomes
  import opened Runs
  import opened Death

  const RETRY: RequestFate := RequestFate(Done, Done, Done)

  function RetryActs(j: JobId): seq<Action> { [RetryRead(j, Done), RetryReset(Done), RetryPush(Done)] }

  // Dead, without a token, named by nobody, and a slot is free for the request.
  ghost predicate Buried(s: State, who: nat, j: JobId) {
    && Sound(s) && who < |s.actors| && s.actors[who] == Idle
    && j in s.world.jobs && s.world.jobs[j].status == Dead && TokenCount(s, j) == 0
    && forall i :: 0 <= i < |s.actors| ==> !Mentions(s.actors[i], j)
  }

  /** The request taken whole: the row is pending with no retries counted, otherwise as it was, and its id
      is the one token, at the left end of its queue. */
  lemma RetryRevives(s: State, who: nat, j: JobId)
    requires Buried(s, who, j)
    ensures var s' := Exec(s, Turns(who, RetryActs(j)));
            && AtRest(s', j) && s'.actors == s.actors && s'.world.conf == s.world.conf
            && s'.world.jobs[j] == s.world.jobs[j].(status := Pending, retryCount := 0)
            && PushedLeft(ViewOf(s.world), ViewOf(s'.world), s.world.jobs[j].queue, j)
  {
    RetryTurns(s, who, j, RETRY);
    RetryMeans(ViewOf(s.world), j, RETRY);
    OneMoreToken(s, Exec(s, Turns(who, RetryActs(j))), s.world.jobs[j].queue, j);
  }

  lemma OneMoreToken(s: State, s': State, q: string, j: JobId)
    requires s'.actors == s.actors && PushedLeft(ViewOf(s.world), ViewOf(s'.world), q, j)
    ensures TokenCount(s', j) == TokenCount(s, j) + 1
  {
    InListsPush(s.world.lists, q, j, j);
    assert s'.world.lists == PushTo(s.world.lists, q, j);
  }

  /** From then on, in every calm run, the job is executed at most max(1, limit) times; when its token is
      gone again it has been dead again, after exactly that many executions. */
  lemma RetriedAnew(s: State, who: nat, j: JobId, run: seq<Turn>)
    requires Buried(s, who, j) && CalmRun(Exec(s, Turns(who, RetryActs(j))), run, j)
    ensures var s1 := Exec(s, Turns(who, RetryActs(j)));
            var s2 := Exec(s1, run);
            var max := s.world.jobs[j].maxRetries;
            var runs := Count(s2.world.hist.ledger, Executed(j)) - Count(s1.world.hist.ledger, Executed(j));
            && 0 <= runs <= Max(1, max)
            && (TokenCount(s2, j) == 0 ==>
                  runs == Max(1, max) && exists k :: 0 <= k <= |run| && DeadAt(s1, run, k, j))
  {
    RetryRevives(s, who, j);
    RunSound(s, Turns(who, RetryActs(j)));
    RetriesToDeath(Exec(s, Turns(who, RetryActs(j))), run, j);
  }

  /** ... and such a run exists: one idle slot can take it there without a failing call. */
  lemma DiesAnew(s: State, who: nat, j: JobId) returns (run: seq<Turn>)
    requires Buried(s, who, j) && s.world.jobs[j].jobType in s.world.conf.handlers
    ensures var s1 := Exec(s, Turns(who, RetryActs(j)));
            var s2 := Exec(s1, run);
            && CalmRun(s1, run, j) && Clean(run) && j in s2.world.jobs && s2.world.jobs[j].status == Dead
            && Count(s2.world.hist.ledger, Executed(j)) - Count(s1.world.hist.ledger, Executed(j))
               == Max(1, s.world.jobs[j].maxRetries)
  {
    RetryRevives(s, who, j);
    RunSound(s, Turns(who, RetryActs(j)));
    run := FailingJobDies(Exec(s, Turns(who, RetryActs(j))), who, j);
  }
}
