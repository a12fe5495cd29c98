/** Counting tokens. A token of a job is an occurrence of its id in a queue list, its entry in the
    sorted set, or its presence in the hands of an actor that will deliver it or is delivering it. */
module Tokens {
  import opened Jobs
  import opened Selection
  import opened Redis
  import opened Protocol

  // ---------- weights of actors ----------

  datatype Weight =
    | Token    // may still deliver the job, or is delivering it
    | Credit   // will still attempt to push the id to a list
    | Waiting  // popped the id but has not started the handler
    | Busy     // runs the handler
    | Resting  // about to schedule a retry

  function One(b: bool): nat { if b then 1 else 0 }

  ghost function Occurs(ids: seq<JobId>, j: JobId): nat { multiset(ids)[j] }

  ghost function WeightOf(k: Weight, a: Actor, j: JobId): nat {
    match a
    case Creating(id, _) => if k.Token? || k.Credit? then One(id == j) else 0
    case Taken(id) => if k.Token? || k.Waiting? then One(id == j) else 0
    case Loaded(id, _) => if k.Token? || k.Waiting? then One(id == j) else 0
    case Executing(id, _, _) => if k.Token? || k.Busy? then One(id == j) else 0
    case BackingOff(id, _) => if k.Token? || k.Credit? || k.Resting? then One(id == j) else 0
    case RetryPending(id, _) => if k.Token? || k.Credit? then One(id == j) else 0
    case DueBatch(rest) => if k.Token? || k.Credit? then Occurs(rest, j) else 0
    case DueLoaded(id, _, rest) => if k.Token? || k.Credit? then One(id == j) + Occurs(rest, j) else 0
    case DuePushed(_, _, rest) => if k.Token? || k.Credit? then Occurs(rest, j) else 0
    case _ => 0
  }

  ghost function Sum(k: Weight, actors: seq<Actor>, j: JobId): nat {
    if actors == [] then 0 else WeightOf(k, actors[0], j) + Sum(k, actors[1..], j)
  }

  lemma {:induction false} SumUpdate(k: Weight, actors: seq<Actor>, i: nat, a: Actor, j: JobId)
    requires i < |actors|
    ensures Sum(k, actors[i := a], j) == Sum(k, actors, j) - WeightOf(k, actors[i], j) + WeightOf(k, a, j)
  {
    if i == 0 {
      assert actors[i := a][1..] == actors[1..];
    } else {
      assert actors[i := a][1..] == actors[1..][i - 1 := a];
      SumUpdate(k, actors[1..], i - 1, a, j);
    }
  }

  lemma {:induction false} SumAtLeast(k: Weight, actors: seq<Actor>, i: nat, j: JobId)
    requires i < |actors|
    ensures Sum(k, actors, j) >= WeightOf(k, actors[i], j)
  {
    if i == 0 {
    } else {
      SumAtLeast(k, actors[1..], i - 1, j);
    }
  }

  lemma {:induction false} SumAtLeastTwo(k: Weight, actors: seq<Actor>, i: nat, m: nat, j: JobId)
    requires i < m < |actors|
    ensures Sum(k, actors, j) >= WeightOf(k, actors[i], j) + WeightOf(k, actors[m], j)
  {
    if i == 0 { SumAtLeast(k, actors[1..], m - 1, j); } else { SumAtLeastTwo(k, actors[1..], i - 1, m - 1, j); }
  }

  lemma {:induction false} SumZero(k: Weight, actors: seq<Actor>, j: JobId)
    requires forall i :: 0 <= i < |actors| ==> WeightOf(k, actors[i], j) == 0
    ensures Sum(k, actors, j) == 0
  {
    if actors == [] {
    } else {
      assert forall i :: 0 <= i < |actors[1..]| ==> actors[1..][i] == actors[i + 1];
      SumZero(k, actors[1..], j);
    }
  }

  // ---------- occurrences in the lists ----------

  ghost function InKeys(lists: Lists, keys: set<string>, j: JobId): nat
    requires keys <= lists.Keys
  {
    if keys == {} then 0 else
      var q :| q in keys;
      Occurs(lists[q], j) + InKeys(lists, keys - {q}, j)
  }

  ghost function InLists(lists: Lists, j: JobId): nat { InKeys(lists, lists.Keys, j) }

  lemma {:induction false} InKeysPick(lists: Lists, keys: set<string>, q: string, j: JobId)
    requires q in keys && keys <= lists.Keys
    ensures InKeys(lists, keys, j) == Occurs(lists[q], j) + InKeys(lists, keys - {q}, j)
    decreases keys
  {
    var p :| p in keys && InKeys(lists, keys, j) == Occurs(lists[p], j) + InKeys(lists, keys - {p}, j);
    if p != q {
      InKeysPick(lists, keys - {p}, q, j);
      InKeysPick(lists, keys - {q}, p, j);
      assert keys - {p} - {q} == keys - {q} - {p};
    }
  }

  lemma {:induction false} InKeysAgree(lists: Lists, other: Lists, keys: set<string>, j: JobId)
    requires keys <= lists.Keys && keys <= other.Keys
    requires forall q :: q in keys ==> lists[q] == other[q]
    ensures InKeys(lists, keys, j) == InKeys(other, keys, j)
    decreases keys
  {
    if keys == {} {
    } else {
      var q :| q in keys;
      InKeysPick(lists, keys, q, j);
      InKeysPick(other, keys, q, j);
      InKeysAgree(lists, other, keys - {q}, j);
    }
  }

  lemma InListsUpdate(lists: Lists, q: string, l: seq<JobId>, j: JobId)
    ensures InLists(lists[q := l], j) == InLists(lists, j) - Occurs(ListOf(lists, q), j) + Occurs(l, j)
  {
    var other := lists[q := l];
    InKeysPick(other, other.Keys, q, j);
    InKeysAgree(lists, other, lists.Keys - {q}, j);
    if q in lists {
      InKeysPick(lists, lists.Keys, q, j);
      assert other.Keys - {q} == lists.Keys - {q};
    } else {
      assert other.Keys - {q} == lists.Keys == lists.Keys - {q};
    }
  }

  lemma InListsPush(lists: Lists, q: string, id: JobId, j: JobId)
    ensures InLists(PushTo(lists, q, id), j) == InLists(lists, j) + One(id == j)
  {
    InListsUpdate(lists, q, [id] + ListOf(lists, q), j);
  }

  lemma InListsDrop(lists: Lists, q: string, j: JobId)
    requires ListOf(lists, q) != []
    ensures InLists(DropTail(lists, q), j) + One(Tail(lists, q) == j) == InLists(lists, j)
  {
    var l := ListOf(lists, q);
    InListsUpdate(lists, q, l[..|l| - 1], j);
    assert l == l[..|l| - 1] + [l[|l| - 1]];
  }

  lemma OccursFirst(ids: seq<JobId>, j: JobId)
    requires ids != []
    ensures Occurs(ids, j) == One(ids[0] == j) + Occurs(ids[1..], j)
  {
    assert ids == [ids[0]] + ids[1..];
  }

  lemma {:induction false} OccursOnce(ids: seq<JobId>, j: JobId)
    requires NoDuplicates(ids)
    ensures Occurs(ids, j) == One(j in ids)
  {
    if ids == [] {
    } else {
      OccursFirst(ids, j);
      OccursOnce(ids[1..], j);
    }
  }

  lemma SelectsAll(ids: seq<JobId>, keys: map<JobId, int>, j: JobId)
    requires Selects(ids, keys, |keys|)
    ensures j in ids <==> j in keys
    ensures Occurs(ids, j) == One(j in keys)
  {
    OccursOnce(ids, j);
    SetOfDistinct(ids);
    SubsetSameSize(ToSet(ids), keys.Keys);
    assert j in ToSet(ids) <==> j in ids;
  }

  // ---------- tokens ----------

  ghost function WorldTokens(w: World, j: JobId): nat { InLists(w.lists, j) + One(j in w.sched) }

  ghost function TokenCount(s: State, j: JobId): nat { WorldTokens(s.world, j) + Sum(Token, s.actors, j) }

  // The three places a token comes from.
  ghost function Gains(w: World, a: Actor, act: Action, j: JobId): nat {
    if !Enabled(w, a, act) then 0 else
      match act
      case Create(id, _, _, _, _, io) => One(io.Done? && id == j)
      case RetryReset(io) => One(io.Done? && a.id == j)
      case RecoverPush(io) => One(a.sweep != [] && io.Effective() && a.sweep[0].0 == j)
      case _ => 0
  }

  // Tokens that end with a step: delivered to their end, merged into a waiting entry, or lost.
  ghost function Drops(w: World, a: Actor, act: Action, j: JobId): nat {
    if !Enabled(w, a, act) then 0 else
      match act
      case Enqueue(io) => One(a.id == j && (io.Refused? || (a.row.runAt.Some? && j in w.sched)))
      case Pop(queues, io) =>
        var q := FirstNonEmpty(w.lists, queues);
        One(io.Lost? && q.Some? && Tail(w.lists, q.value) == j)
      case Load(io) => One(a.id == j && !(io.Done? && j in w.jobs))
      case Begin(io) => One(a.id == j && !(io.Done? && a.snap.jobType in w.conf.handlers))
      case Complete(_) => One(a.id == j)
      case Fail(_) => One(a.id == j && a.snap.retryCount + 1 >= a.snap.maxRetries)
      case BackOff(io, _) => One(a.id == j && (io.Refused? || j in w.sched))
      case RetryPush(io) => One(a.id == j && io.Refused?)
      case DueFetch(order, io) => One(io.Lost? && j in Due(w.sched, Unix(w.clock)))
      case DueLoad(io) => One(a.rest != [] && a.rest[0] == j && !(io.Done? && j in w.jobs))
      case DuePush(io) => One(a.id == j && io.Refused?)
      case Crash => WeightOf(Token, a, j)
      case _ => 0
  }

  // What a Redis command adds to, or takes from, the tokens kept in Redis.
  ghost function Into(w: World, op: RedisOp, j: JobId): nat {
    match op
    case ListPush(_, id) => One(id == j)
    case SetAdd(id, _) => One(id == j && j !in w.sched)
    case _ => 0
  }

  ghost function OutOf(w: World, op: RedisOp, j: JobId): nat {
    match op
    case ListPop(q) => One(ListOf(w.lists, q) != [] && Tail(w.lists, q) == j)
    case SetTake => One(j in Due(w.sched, Unix(w.clock)))
    case _ => 0
  }

  lemma RedisTokens(w: World, e: Effect, j: JobId)
    ensures WorldTokens(Apply(w, e), j) + OutOf(w, e.redis, j) == WorldTokens(w, j) + Into(w, e.redis, j)
  {
    match e.redis
    case ListPush(q, id) => InListsPush(w.lists, q, id, j);
    case ListPop(q) => if ListOf(w.lists, q) != [] { InListsDrop(w.lists, q, j); }
    case _ =>
  }

  ghost predicate Balanced(w: World, a: Actor, act: Action, e: Effect, j: JobId) {
    Into(w, e.redis, j) + WeightOf(Token, e.next, j) + Drops(w, a, act, j)
    == OutOf(w, e.redis, j) + WeightOf(Token, a, j) + Gains(w, a, act, j)
  }

  lemma WorkerBalanced(w: World, a: Actor, act: Action, j: JobId)
    requires ByWorker(act) && Enabled(w, a, act)
    ensures Balanced(w, a, act, WorkerEffect(w, a, act), j)
  {
  }

  lemma RequestBalanced(w: World, a: Actor, act: Action, j: JobId)
    requires ByRequest(act) && Enabled(w, a, act)
    ensures Balanced(w, a, act, RequestEffect(w, a, act), j)
  {
  }

  lemma DueFetchBalanced(w: World, a: Actor, act: Action, j: JobId)
    requires act.DueFetch? && Enabled(w, a, act)
    ensures Balanced(w, a, act, DueLoopEffect(w, a, act), j)
  {
    SelectsAll(act.order, Due(w.sched, Unix(w.clock)), j);
  }

  lemma DueLoadBalanced(w: World, a: Actor, act: Action, j: JobId)
    requires act.DueLoad? && Enabled(w, a, act)
    ensures Balanced(w, a, act, DueLoopEffect(w, a, act), j)
  {
    if a.rest != [] { OccursFirst(a.rest, j); }
  }

  lemma DuePushBalanced(w: World, a: Actor, act: Action, j: JobId)
    requires (act.DuePush? || act.DueMark?) && Enabled(w, a, act)
    ensures Balanced(w, a, act, DueLoopEffect(w, a, act), j)
  {
  }

  lemma SweepBalanced(w: World, a: Actor, act: Action, j: JobId)
    requires BySweep(act) && Enabled(w, a, act)
    ensures Balanced(w, a, act, SweepEffect(w, a, act), j)
  {
  }

  lemma AllBalanced(w: World, a: Actor, act: Action, j: JobId)
    requires Enabled(w, a, act)
    ensures Balanced(w, a, act, EffectOf(w, a, act), j)
  {
    if ByWorker(act) { WorkerBalanced(w, a, act, j); }
    else if ByRequest(act) { RequestBalanced(w, a, act, j); }
    else if act.DueFetch? { DueFetchBalanced(w, a, act, j); }
    else if act.DueLoad? { DueLoadBalanced(w, a, act, j); }
    else if ByDueLoop(act) { DuePushBalanced(w, a, act, j); }
    else { SweepBalanced(w, a, act, j); }
  }

  /** The token balance of one turn, for every job and every kind of turn. */
  lemma TokenBalance(s: State, t: Turn, j: JobId)
    requires t.who < |s.actors|
    ensures TokenCount(Step(s, t), j) + Drops(s.world, s.actors[t.who], t.act, j)
            == TokenCount(s, j) + Gains(s.world, s.actors[t.who], t.act, j)
  {
    if Enabled(s.world, s.actors[t.who], t.act) {
      AllBalanced(s.world, s.actors[t.who], t.act, j);
      RedisTokens(s.world, EffectOf(s.world, s.actors[t.who], t.act), j);
    }
    SumUpdate(Token, s.actors, t.who, Act(s.world, s.actors[t.who], t.act).1, j);
  }
}
