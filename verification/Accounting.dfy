/** Whole-run accounting: how often a job's handler can run. Holds in every run, with failed calls,
    lost replies, crashed workers and overlapping schedulers. */
module Accounting {
  import opened Jobs
  import opened Redis
  import opened Protocol
  import opened Tokens

  // Every attempted list push, the recovery sweep's included.
  function Pushes(ledger: Ledger, j: JobId): nat { Count(ledger, Attempt(j)) + Count(ledger, Swept(j)) }

  ghost predicate RunsPaid(ledger: Ledger, actors: seq<Actor>, j: JobId) {
    Count(ledger, Executed(j)) + Sum(Waiting, actors, j) <= Count(ledger, Popped(j))
  }

  ghost predicate PopsPaid(ledger: Ledger, lists: Lists, j: JobId) {
    Count(ledger, Popped(j)) + InLists(lists, j) <= Pushes(ledger, j)
  }

  ghost predicate PushesPaid(ledger: Ledger, sched: Scores, actors: seq<Actor>, j: JobId) {
    Count(ledger, Attempt(j)) + One(j in sched) + Sum(Credit, actors, j)
    <= Count(ledger, Born(j)) + Count(ledger, Revived(j)) + Count(ledger, Retried(j))
  }

  ghost predicate Accounted(s: State, j: JobId) {
    var ledger := s.world.hist.ledger;
    && RunsPaid(ledger, s.actors, j)
    && PopsPaid(ledger, s.world.lists, j)
    && PushesPaid(ledger, s.world.sched, s.actors, j)
    && Count(ledger, Born(j)) == One(j in s.world.used)
  }

  // ---------- what one effect books ----------

  predicate Notes(e: Effect, event: Event) { e.note == Some(event) }

  ghost predicate PopBooked(w: World, e: Effect, j: JobId) {
    && (e.redis.ListPush? && e.redis.id == j ==> Notes(e, Attempt(j)) || Notes(e, Swept(j)))
    && (Notes(e, Popped(j)) <==>
        e.redis.ListPop? && ListOf(w.lists, e.redis.queue) != [] && Tail(w.lists, e.redis.queue) == j)
  }

  ghost predicate CreditBooked(w: World, a: Actor, e: Effect, j: JobId) {
    One(Notes(e, Attempt(j))) + One(e.redis.SetAdd? && e.redis.id == j) + WeightOf(Credit, e.next, j)
    <= One(Notes(e, Born(j))) + One(Notes(e, Revived(j))) + One(Notes(e, Retried(j)))
       + WeightOf(Credit, a, j) + One(e.redis.SetTake? && j in Due(w.sched, Unix(w.clock)))
  }

  ghost predicate Books(w: World, a: Actor, e: Effect, j: JobId) {
    && PopBooked(w, e, j)
    && CreditBooked(w, a, e, j)
    && One(Notes(e, Executed(j))) + WeightOf(Waiting, e.next, j) <= One(Notes(e, Popped(j))) + WeightOf(Waiting, a, j)
    && (Notes(e, Born(j)) <==> e.db.Insert? && e.db.id == j)
    && (e.db.Insert? ==> e.db.id !in w.used)
  }

  lemma WorkerBooks(w: World, a: Actor, act: Action, j: JobId)
    requires ByWorker(act) && Enabled(w, a, act)
    ensures Books(w, a, WorkerEffect(w, a, act), j)
  {
  }

  lemma RequestBooks(w: World, a: Actor, act: Action, j: JobId)
    requires ByRequest(act) && Enabled(w, a, act)
    ensures Books(w, a, RequestEffect(w, a, act), j)
  {
  }

  lemma DueFetchBooks(w: World, a: Actor, act: Action, j: JobId)
    requires act.DueFetch? && Enabled(w, a, act)
    ensures Books(w, a, DueLoopEffect(w, a, act), j)
  {
    SelectsAll(act.order, Due(w.sched, Unix(w.clock)), j);
  }

  lemma DueLoadBooks(w: World, a: Actor, act: Action, j: JobId)
    requires act.DueLoad? && Enabled(w, a, act)
    ensures Books(w, a, DueLoopEffect(w, a, act), j)
  {
    if a.rest != [] { OccursFirst(a.rest, j); }
  }

  lemma DueLoopBooks(w: World, a: Actor, act: Action, j: JobId)
    requires (act.DuePush? || act.DueMark?) && Enabled(w, a, act)
    ensures Books(w, a, DueLoopEffect(w, a, act), j)
  {
  }

  lemma SweepBooks(w: World, a: Actor, act: Action, j: JobId)
    requires BySweep(act) && Enabled(w, a, act)
    ensures Books(w, a, SweepEffect(w, a, act), j)
  {
  }

  lemma AllBooks(w: World, a: Actor, act: Action, j: JobId)
    requires Enabled(w, a, act)
    ensures Books(w, a, EffectOf(w, a, act), j)
  {
    if ByWorker(act) { WorkerBooks(w, a, act, j); }
    else if ByRequest(act) { RequestBooks(w, a, act, j); }
    else if act.DueFetch? { DueFetchBooks(w, a, act, j); }
    else if act.DueLoad? { DueLoadBooks(w, a, act, j); }
    else if ByDueLoop(act) { DueLoopBooks(w, a, act, j); }
    else { SweepBooks(w, a, act, j); }
  }

  lemma ListsBooked(w: World, e: Effect, j: JobId)
    requires PopBooked(w, e, j)
    ensures InLists(Apply(w, e).lists, j) + One(Notes(e, Popped(j)))
            <= InLists(w.lists, j) + One(Notes(e, Attempt(j))) + One(Notes(e, Swept(j)))
  {
    match e.redis
    case ListPush(q, id) => InListsPush(w.lists, q, id, j);
    case ListPop(q) => if ListOf(w.lists, q) != [] { InListsDrop(w.lists, q, j); }
    case _ =>
  }

  // ---------- runs ----------

  lemma BookCount(ledger: Ledger, e: Effect, event: Event)
    ensures Count(Book(ledger, e.note), event) == Count(ledger, event) + One(Notes(e, event))
  {
  }

  lemma EffectRunsPaid(w: World, actors: seq<Actor>, i: nat, e: Effect, j: JobId)
    requires i < |actors| && RunsPaid(w.hist.ledger, actors, j) && Books(w, actors[i], e, j)
    ensures RunsPaid(Book(w.hist.ledger, e.note), actors[i := e.next], j)
  {
    SumUpdate(Waiting, actors, i, e.next, j);
    BookCount(w.hist.ledger, e, Executed(j));
    BookCount(w.hist.ledger, e, Popped(j));
  }

  lemma EffectPopsPaid(w: World, e: Effect, j: JobId)
    requires PopsPaid(w.hist.ledger, w.lists, j) && PopBooked(w, e, j)
    ensures PopsPaid(Book(w.hist.ledger, e.note), Apply(w, e).lists, j)
  {
    ListsBooked(w, e, j);
    BookCount(w.hist.ledger, e, Popped(j));
    BookCount(w.hist.ledger, e, Attempt(j));
    BookCount(w.hist.ledger, e, Swept(j));
  }

  lemma EffectPushesPaid(w: World, actors: seq<Actor>, i: nat, e: Effect, j: JobId)
    requires i < |actors| && PushesPaid(w.hist.ledger, w.sched, actors, j) && CreditBooked(w, actors[i], e, j)
    ensures PushesPaid(Book(w.hist.ledger, e.note), Apply(w, e).sched, actors[i := e.next], j)
  {
    SumUpdate(Credit, actors, i, e.next, j);
    BookCount(w.hist.ledger, e, Attempt(j));
    BookCount(w.hist.ledger, e, Born(j));
    BookCount(w.hist.ledger, e, Revived(j));
    BookCount(w.hist.ledger, e, Retried(j));
  }

  lemma EffectAccounted(w: World, actors: seq<Actor>, i: nat, e: Effect, j: JobId)
    requires i < |actors| && Accounted(State(w, actors), j) && Books(w, actors[i], e, j)
    ensures Accounted(State(Apply(w, e), actors[i := e.next]), j)
  {
    EffectRunsPaid(w, actors, i, e, j);
    EffectPopsPaid(w, e, j);
    EffectPushesPaid(w, actors, i, e, j);
    BookCount(w.hist.ledger, e, Born(j));
  }

  lemma StepAccounted(s: State, t: Turn, j: JobId)
    requires Accounted(s, j)
    ensures Accounted(Step(s, t), j)
  {
    if t.who < |s.actors| && Enabled(s.world, s.actors[t.who], t.act) {
      var e := EffectOf(s.world, s.actors[t.who], t.act);
      AllBooks(s.world, s.actors[t.who], t.act, j);
      EffectAccounted(s.world, s.actors, t.who, e, j);
      StepIs(s, t);
    } else {
      assert Step(s, t) == s;
    }
  }

  lemma {:induction false} RunAccounted(s: State, run: seq<Turn>, j: JobId)
    requires Accounted(s, j)
    ensures Accounted(Exec(s, run), j)
  {
    if run == [] {
    } else {
      RunAccounted(s, run[..|run| - 1], j);
      StepAccounted(Exec(s, run[..|run| - 1]), run[|run| - 1], j);
    }
  }

  /** Handler runs <= pops <= attempted pushes <= creation + API retries + sweep pushes + retries. */
  lemma ExecutionsBounded(slots: nat, conf: Config, clock: int, run: seq<Turn>, j: JobId)
    ensures var ledger := Exec(Start(slots, conf, clock), run).world.hist.ledger;
            && Count(ledger, Executed(j)) <= Count(ledger, Popped(j)) <= Pushes(ledger, j)
            && Pushes(ledger, j) <= 1 + Count(ledger, Revived(j)) + Count(ledger, Swept(j)) + Count(ledger, Retried(j))
            && Count(ledger, Born(j)) <= 1
  {
    var s := Start(slots, conf, clock);
    SumZero(Waiting, s.actors, j);
    SumZero(Credit, s.actors, j);
    assert Accounted(s, j);
    RunAccounted(s, run, j);
  }
}
