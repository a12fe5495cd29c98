/** A row that still expects delivery (pending, scheduled or retrying) always has a token:
    exactly which turns keep it, and that failure-free runs do. */
module NoLostJob {
  import opened Jobs
  import opened Calls
  import opened Redis
  import opened Protocol
  import opened Tokens
  import opened Soundness
  import opened SingleHolder

  ghost predicate IsLive(w: World, j: JobId) { j in w.jobs && Live(w.jobs[j].status) }

  ghost predicate Kept(s: State, j: JobId) { IsLive(s.world, j) ==> TokenCount(s, j) > 0 }

  ghost predicate NoneLost(s: State) { forall j :: Kept(s, j) }

  // Tokens a step lets go of without writing the row.
  ghost function LetsGo(w: World, a: Actor, act: Action, j: JobId): nat
    requires Enabled(w, a, act)
  {
    match act
    case Enqueue(io) => One(a.id == j && io.Refused?)
    case Pop(queues, io) =>
      var q := FirstNonEmpty(w.lists, queues);
      One(io.Lost? && q.Some? && Tail(w.lists, q.value) == j)
    case Load(io) => One(a.id == j && !io.Done?)
    case Begin(io) => One(a.id == j && io.Refused?)
    case Complete(io) => One(a.id == j && io.Refused?)
    case Fail(io) => One(a.id == j && io.Refused? && a.snap.retryCount + 1 >= a.snap.maxRetries)
    case BackOff(io, _) => One(a.id == j && io.Refused?)
    case RetryPush(io) => One(a.id == j && io.Refused?)
    case DueFetch(_, io) => One(io.Lost? && j in Due(w.sched, Unix(w.clock)))
    case DueLoad(io) => One(a.rest != [] && a.rest[0] == j && !io.Done?)
    case DuePush(io) => One(a.id == j && io.Refused?)
    case Crash => WeightOf(Token, a, j)
    case _ => 0
  }

  // A statement that makes the row live again although nobody will deliver it.
  ghost predicate Orphans(s: State, a: Actor, act: Action, j: JobId)
    requires Fits(a, act)
  {
    match act
    case RetryReset(io) => io.Lost? && a.id == j && j in s.world.jobs && TokenCount(s, j) == 0
    case DueMark(io) =>
      io.Effective() && a.snap.status == Retrying && a.id == j && j in s.world.jobs && TokenCount(s, j) == 0
    case _ => false
  }

  /** The job is stranded by this turn: its insert was not acknowledged, or its last token is let go
      of while the row is live, or the row is made live when no token is left. */
  ghost predicate Strands(s: State, t: Turn, j: JobId) {
    t.who < |s.actors| &&
    var a := s.actors[t.who];
    Enabled(s.world, a, t.act) &&
    ( || (t.act.Create? && t.act.io.Lost? && t.act.newId == j)
      || (IsLive(s.world, j) && LetsGo(s.world, a, t.act, j) > 0 && TokenCount(s, j) == LetsGo(s.world, a, t.act, j))
      || Orphans(s, a, t.act, j))
  }

  // ---------- how rows become or stay live ----------

  // The statements that leave a row live.
  ghost predicate MakesLive(a: Actor, act: Action, j: JobId)
    requires Fits(a, act)
  {
    match act
    case Create(id, _, _, _, _, io) => io.Effective() && id == j
    case Fail(io) => io.Effective() && a.id == j && a.snap.retryCount + 1 < a.snap.maxRetries
    case RetryReset(io) => io.Effective() && a.id == j
    case DueMark(io) => io.Effective() && a.snap.status == Retrying && a.id == j
    case _ => false
  }

  predicate Targets(op: DbOp, j: JobId) { !op.Keep? && op.id == j }

  predicate LiveOp(op: DbOp) {
    op.Insert? || ((op.Mark? || op.Write?) && Live(op.status))
  }

  lemma LiveAfter(w: World, e: Effect, j: JobId)
    requires IsLive(Apply(w, e), j)
    ensures if Targets(e.db, j) && !e.db.Remove? then LiveOp(e.db) else IsLive(w, j)
  {
  }

  // A live row that the step did not write: whatever token ended was let go of, or merged.
  ghost predicate LiveBooked(w: World, a: Actor, act: Action, e: Effect, j: JobId)
    requires Enabled(w, a, act)
  {
    && (Targets(e.db, j) && LiveOp(e.db) ==> MakesLive(a, act, j))
    && (j in w.jobs && (!Targets(e.db, j) || e.db.Remove?) ==>
          Drops(w, a, act, j) == LetsGo(w, a, act, j) || (e.redis.SetAdd? && e.redis.id == j))
  }

  lemma WorkerLive(w: World, a: Actor, act: Action, j: JobId)
    requires ByWorker(act) && Enabled(w, a, act)
    ensures LiveBooked(w, a, act, WorkerEffect(w, a, act), j)
  {
  }

  lemma RequestLive(w: World, a: Actor, act: Action, j: JobId)
    requires ByRequest(act) && Enabled(w, a, act)
    ensures LiveBooked(w, a, act, RequestEffect(w, a, act), j)
  {
  }

  lemma DueLoopLive(w: World, a: Actor, act: Action, j: JobId)
    requires ByDueLoop(act) && Enabled(w, a, act)
    ensures LiveBooked(w, a, act, DueLoopEffect(w, a, act), j)
  {
  }

  lemma SweepLive(w: World, a: Actor, act: Action, j: JobId)
    requires BySweep(act) && Enabled(w, a, act)
    ensures LiveBooked(w, a, act, SweepEffect(w, a, act), j)
  {
  }

  lemma StaysLive(w: World, a: Actor, act: Action, j: JobId)
    requires Enabled(w, a, act) && IsLive(Apply(w, EffectOf(w, a, act)), j) && !MakesLive(a, act, j)
    ensures IsLive(w, j)
    ensures Drops(w, a, act, j) == LetsGo(w, a, act, j) || j in Apply(w, EffectOf(w, a, act)).sched
  {
    LiveAfter(w, EffectOf(w, a, act), j);
    if ByWorker(act) { WorkerLive(w, a, act, j); }
    else if ByRequest(act) { RequestLive(w, a, act, j); }
    else if ByDueLoop(act) { DueLoopLive(w, a, act, j); }
    else { SweepLive(w, a, act, j); }
  }

  // The maker of a live row holds a token afterwards, unless it is one of the stranding statements.
  lemma MakerHolds(s: State, t: Turn, j: JobId)
    requires t.who < |s.actors| && Enabled(s.world, s.actors[t.who], t.act) && MakesLive(s.actors[t.who], t.act, j)
    requires j in Step(s, t).world.jobs && !Strands(s, t, j)
    ensures TokenCount(Step(s, t), j) > 0
  {
    if t.act.DueMark? || (t.act.RetryReset? && t.act.io.Lost?) {
      TokenBalance(s, t, j);
    } else {
      SumAtLeast(Token, Step(s, t).actors, t.who, j);
    }
  }

  lemma StepKeeps(s: State, t: Turn, j: JobId)
    requires Kept(s, j) && !Strands(s, t, j)
    ensures Kept(Step(s, t), j)
  {
    if t.who >= |s.actors| || !Enabled(s.world, s.actors[t.who], t.act) {
      assert Step(s, t) == s;
    } else if IsLive(Step(s, t).world, j) {
      if MakesLive(s.actors[t.who], t.act, j) {
        MakerHolds(s, t, j);
      } else {
        StepIs(s, t);
        StaysLive(s.world, s.actors[t.who], t.act, j);
        TokenBalance(s, t, j);
      }
    }
  }

  // ---------- stranding turns do strand ----------

  lemma LettingGo(w: World, a: Actor, act: Action, j: JobId)
    requires Enabled(w, a, act) && LetsGo(w, a, act, j) > 0
    ensures Act(w, a, act).0.jobs == w.jobs
    ensures Drops(w, a, act, j) == LetsGo(w, a, act, j) && Gains(w, a, act, j) == 0
  {
    if ByWorker(act) { WorkerLetsGo(w, a, act, j); } else { OtherLetsGo(w, a, act, j); }
  }

  lemma WorkerLetsGo(w: World, a: Actor, act: Action, j: JobId)
    requires ByWorker(act) && Enabled(w, a, act) && LetsGo(w, a, act, j) > 0
    ensures Act(w, a, act).0.jobs == w.jobs
    ensures Drops(w, a, act, j) == LetsGo(w, a, act, j) && Gains(w, a, act, j) == 0
  {
  }

  lemma OtherLetsGo(w: World, a: Actor, act: Action, j: JobId)
    requires !ByWorker(act) && Enabled(w, a, act) && LetsGo(w, a, act, j) > 0
    ensures Act(w, a, act).0.jobs == w.jobs
    ensures Drops(w, a, act, j) == LetsGo(w, a, act, j) && Gains(w, a, act, j) == 0
  {
  }

  lemma StrandedIsLost(s: State, t: Turn, j: JobId)
    requires Sound(s) && Strands(s, t, j)
    ensures !Kept(Step(s, t), j)
  {
    TokenBalance(s, t, j);
    if t.act.Create? {
      UnknownHasNone(s, j);
    } else if !Orphans(s, s.actors[t.who], t.act, j) {
      LettingGo(s.world, s.actors[t.who], t.act, j);
    }
  }

  /** One turn, of any kind and with any outcome of its call, loses no job exactly when it strands none. */
  lemma StepExactlyKeeps(s: State, t: Turn)
    requires Sound(s) && NoneLost(s)
    ensures NoneLost(Step(s, t)) <==> forall j :: !Strands(s, t, j)
  {
    forall j ensures Strands(s, t, j) ==> !Kept(Step(s, t), j) {
      if Strands(s, t, j) { StrandedIsLost(s, t, j); }
    }
    if forall j :: !Strands(s, t, j) {
      forall j ensures Kept(Step(s, t), j) {
        assert Kept(s, j);
        StepKeeps(s, t, j);
      }
    }
  }

  // ---------- runs with failures and crashes ----------

  ghost predicate NeverStrands(s: State, run: seq<Turn>) {
    forall k, j :: 0 <= k < |run| ==> !Strands(After(s, run, k), run[k], j)
  }

  ghost predicate NoneEverLost(s: State, run: seq<Turn>) {
    forall k :: 0 <= k <= |run| ==> NoneLost(After(s, run, k))
  }

  lemma {:induction false} StrandFree(s: State, run: seq<Turn>, k: nat)
    requires Sound(s) && NoneLost(s) && NeverStrands(s, run) && k <= |run|
    ensures NoneLost(After(s, run, k))
  {
    if k == 0 {
    } else {
      StrandFree(s, run, k - 1);
      AfterNext(s, run, k - 1);
      RunSound(s, run[..k - 1]);
      StepExactlyKeeps(After(s, run, k - 1), run[k - 1]);
    }
  }

  lemma KeptMeansNoStrand(s: State, run: seq<Turn>, k: nat, j: JobId)
    requires Sound(s) && NoneEverLost(s, run) && k < |run|
    ensures !Strands(After(s, run, k), run[k], j)
  {
    AfterNext(s, run, k);
    RunSound(s, run[..k]);
    StepExactlyKeeps(After(s, run, k), run[k]);
  }

  /** A run, with any failures and crashes in it, loses no job at any moment exactly when no turn of it
      strands one. */
  lemma RunExactlyKeeps(slots: nat, conf: Config, clock: int, run: seq<Turn>)
    ensures NoneEverLost(Start(slots, conf, clock), run) <==> NeverStrands(Start(slots, conf, clock), run)
  {
    var s := Start(slots, conf, clock);
    StartSound(slots, conf, clock);
    if NeverStrands(s, run) {
      forall k | 0 <= k <= |run| ensures NoneLost(After(s, run, k)) { StrandFree(s, run, k); }
    }
    if NoneEverLost(s, run) {
      forall k, j | 0 <= k < |run| ensures !Strands(After(s, run, k), run[k], j) { KeptMeansNoStrand(s, run, k, j); }
    }
  }

  // ---------- failure-free runs ----------

  predicate Faultless(act: Action) { !act.Crash? && (act.Tick? || act.io.Done?) }

  // The due loop marks a job pending after a worker has already used up the token just pushed.
  ghost predicate LateMark(s: State, t: Turn) {
    t.who < |s.actors| && t.act.DueMark? &&
    var a := s.actors[t.who];
    a.DuePushed? && a.snap.status == Retrying && a.id in s.world.jobs && TokenCount(s, a.id) == 0
  }

  lemma FaultlessStrands(s: State, t: Turn, j: JobId)
    requires Faultless(t.act)
    ensures Strands(s, t, j) ==> LateMark(s, t)
    ensures LateMark(s, t) ==> Strands(s, t, s.actors[t.who].id)
  {
  }

  /** Without failures the only way to lose a job is a late mark. */
  lemma FaultlessExact(s: State, t: Turn)
    requires Sound(s) && NoneLost(s) && Faultless(t.act)
    ensures NoneLost(Step(s, t)) <==> !LateMark(s, t)
  {
    StepExactlyKeeps(s, t);
    forall j ensures Strands(s, t, j) ==> LateMark(s, t) { FaultlessStrands(s, t, j); }
    if LateMark(s, t) { FaultlessStrands(s, t, s.actors[t.who].id); }
  }

  // Every mark follows its push with nothing in between.
  ghost predicate MarksWhole(s: State, run: seq<Turn>) {
    forall k :: 0 <= k < |run| && run[k].act.DueMark? ==>
      && k > 0
      && run[k - 1].act.DuePush? && run[k - 1].who == run[k].who
      && (run[k].who < |s.actors| ==> After(s, run, k - 1).actors[run[k].who].DueLoaded?)
  }

  lemma PromptMark(s: State, who: nat, io: Io)
    requires who < |s.actors| ==> s.actors[who].DueLoaded?
    ensures !LateMark(Step(s, Turn(who, DuePush(Done))), Turn(who, DueMark(io)))
  {
    if who < |s.actors| {
      var j := s.actors[who].id;
      var t := Turn(who, DuePush(Done));
      TokenBalance(s, t, j);
      SumAtLeast(Token, s.actors, who, j);
    }
  }

  // In such a run no mark is late.
  lemma MarksInTime(s: State, run: seq<Turn>, k: nat)
    requires MarksWhole(s, run) && k < |run| && (k > 0 ==> Faultless(run[k - 1].act))
    ensures !LateMark(After(s, run, k), run[k])
  {
    if run[k].act.DueMark? {
      AfterNext(s, run, k - 1);
      PromptMark(After(s, run, k - 1), run[k].who, run[k].act.io);
    }
  }

  lemma {:induction false} FaultlessRun(s: State, run: seq<Turn>, k: nat)
    requires Sound(s) && NoneLost(s) && MarksWhole(s, run) && k <= |run|
    requires forall m :: 0 <= m < |run| ==> Faultless(run[m].act)
    ensures NoneLost(After(s, run, k))
  {
    if k == 0 {
    } else {
      FaultlessRun(s, run, k - 1);
      AfterNext(s, run, k - 1);
      RunSound(s, run[..k - 1]);
      MarksInTime(s, run, k - 1);
      FaultlessExact(After(s, run, k - 1), run[k - 1]);
    }
  }

  /** No lost job: at every moment of every failure-free run in which the push and the mark of one
      due job are not interrupted, every pending, scheduled or retrying row has a token. */
  lemma NothingLost(slots: nat, conf: Config, clock: int, run: seq<Turn>, j: JobId)
    requires MarksWhole(Start(slots, conf, clock), run)
    requires forall m :: 0 <= m < |run| ==> Faultless(run[m].act)
    ensures var s := Exec(Start(slots, conf, clock), run);
            j in s.world.jobs && s.world.jobs[j].status in {Pending, Scheduled, Retrying} ==> TokenCount(s, j) > 0
  {
    var s := Start(slots, conf, clock);
    StartSound(slots, conf, clock);
    FaultlessRun(s, run, |run|);
    assert run[..|run|] == run;
    assert Kept(Exec(s, run), j);
  }
}
