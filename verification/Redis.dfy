/** The Redis side: one list per queue name and one sorted set, first as plain values, then as the
    queue object that keeps them in a single Redis keyspace. */
module Redis {
  import opened Jobs
  import opened Calls
  import opened Selection

  type Lists = map<string, seq<JobId>>
  type Scores = map<JobId, int>

  // The left end of a list is index 0; a name never pushed to is an empty list.
  function ListOf(lists: Lists, q: string): seq<JobId> {
    if q in lists then lists[q] else []
  }

  function PushTo(lists: Lists, q: string, id: JobId): Lists {
    lists[q := [id] + ListOf(lists, q)]
  }

  function FirstNonEmpty(lists: Lists, queues: seq<string>): (r: Option<string>)
    ensures r.Some? ==> ListOf(lists, r.value) != [] &&
                        exists i :: 0 <= i < |queues| && queues[i] == r.value &&
                                    forall k :: 0 <= k < i ==> ListOf(lists, queues[k]) == []
    ensures r.None? ==> forall k :: 0 <= k < |queues| ==> ListOf(lists, queues[k]) == []
  {
    if queues == [] then None
    else if ListOf(lists, queues[0]) != [] then Some(queues[0])
    else
      var r := FirstNonEmpty(lists, queues[1..]);
      assert r.Some? ==> exists i :: 0 <= i < |queues[1..]| && queues[1..][i] == r.value && queues[i + 1] == r.value &&
                                     forall k :: 0 <= k < i ==> ListOf(lists, queues[1..][k]) == [];
      assert forall k :: 1 <= k < |queues| ==> queues[k] == queues[1..][k - 1];
      r
  }

  function Tail(lists: Lists, q: string): JobId
    requires ListOf(lists, q) != []
  {
    var l := ListOf(lists, q);
    l[|l| - 1]
  }

  function DropTail(lists: Lists, q: string): Lists
    requires ListOf(lists, q) != []
  {
    var l := ListOf(lists, q);
    lists[q := l[..|l| - 1]]
  }

  // ZRANGEBYSCORE key -inf sec, and what ZREMRANGEBYSCORE leaves behind.
  function Due(scores: Scores, sec: int): Scores {
    map id | id in scores && scores[id] <= sec :: scores[id]
  }

  function NotDue(scores: Scores, sec: int): Scores {
    map id | id in scores && !(scores[id] <= sec) :: scores[id]
  }

  // ---------- keys ----------

  const SCHEDULED_KEY: string := "goqueue:scheduled"

  function QueueKey(q: string): string { "goqueue:queue:" + q }

  lemma KeysApart(q: string, r: string)
    ensures QueueKey(q) == QueueKey(r) <==> q == r
    ensures QueueKey(q) != SCHEDULED_KEY
  {
    assert QueueKey(q)[14..] == q && QueueKey(r)[14..] == r;
    assert QueueKey(q)[8] == 'q' && SCHEDULED_KEY[8] == 's';
  }

  lemma QueueKeyApart(q: string)
    ensures forall r :: QueueKey(q) == QueueKey(r) <==> q == r
    ensures QueueKey(q) != SCHEDULED_KEY
  {
    forall r ensures QueueKey(q) == QueueKey(r) <==> q == r { KeysApart(q, r); }
    KeysApart(q, q);
  }

  lemma ScheduledKeyApart()
    ensures forall q :: QueueKey(q) != SCHEDULED_KEY
  {
    forall q ensures QueueKey(q) != SCHEDULED_KEY { KeysApart(q, q); }
  }

  // ---------- the queue object ----------

  datatype Value = ListValue(items: seq<JobId>) | ZSetValue(scores: Scores)

  class RedisQueue {
    // Redis keeps one keyspace for all types and removes a key whose value becomes empty.
    var keyspace: map<string, Value>
    ghost var lists: Lists
    ghost var sched: Scores

    ghost predicate Valid()
      reads this
    {
      && (forall q: string ::
            if QueueKey(q) in keyspace
            then keyspace[QueueKey(q)] == ListValue(ListOf(lists, q)) && ListOf(lists, q) != []
            else ListOf(lists, q) == [])
      && (if SCHEDULED_KEY in keyspace then keyspace[SCHEDULED_KEY] == ZSetValue(sched) else sched == map[])
    }

    constructor ()
      ensures Valid() && lists == map[] && sched == map[]
    {
      keyspace, lists, sched := map[], map[], map[];
    }

    method Push(queue: string, id: JobId, io: Io) returns (err: bool)
      requires Valid()
      modifies this
      ensures Valid() && sched == old(sched)
      ensures err == !io.Done?
      ensures lists == if io.Effective() then PushTo(old(lists), queue, id) else old(lists)
    {
      err := !io.Done?;
      if io.Effective() {
        QueueKeyApart(queue);
        var key := QueueKey(queue);
        var items := if key in keyspace then keyspace[key].items else [];
        keyspace := keyspace[key := ListValue([id] + items)];
        lists := PushTo(lists, queue, id);
      }
    }

    // BRPOP over several keys; None is the timeout or the error.
    method Pop(queues: seq<string>, io: Io) returns (id: Option<JobId>)
      requires Valid()
      modifies this
      ensures Valid() && sched == old(sched)
      ensures var q := FirstNonEmpty(old(lists), queues);
              if io.Effective() && q.Some?
              then lists == DropTail(old(lists), q.value)
                   && id == if io.Done? then Some(Tail(old(lists), q.value)) else None
              else lists == old(lists) && id == None
    {
      id := None;
      if io.Refused? { return; }
      var i := 0;
      while i < |queues| && QueueKey(queues[i]) !in keyspace
        invariant 0 <= i <= |queues|
        invariant FirstNonEmpty(lists, queues) == FirstNonEmpty(lists, queues[i..])
      {
        i := i + 1;
      }
      if i < |queues| {
        QueueKeyApart(queues[i]);
        var key := QueueKey(queues[i]);
        var items := keyspace[key].items;
        assert items == ListOf(lists, queues[i]);
        if io.Done? { id := Some(items[|items| - 1]); }
        keyspace := if |items| == 1 then keyspace - {key} else keyspace[key := ListValue(items[..|items| - 1])];
        lists := DropTail(lists, queues[i]);
      }
    }

    method Schedule(id: JobId, runAt: int, io: Io) returns (err: bool)
      requires Valid()
      modifies this
      ensures Valid() && lists == old(lists)
      ensures err == !io.Done?
      ensures sched == if io.Effective() then old(sched)[id := Unix(runAt)] else old(sched)
    {
      err := !io.Done?;
      if io.Effective() {
        var scores := if SCHEDULED_KEY in keyspace then keyspace[SCHEDULED_KEY].scores else map[];
        assert scores == sched;
        StoreScores(scores[id := Unix(runAt)]);
      }
    }

    // The Lua script: read the range and remove it as one command.
    method GetDueJobs(now: int, io: Io) returns (err: bool, ids: seq<JobId>)
      requires Valid()
      modifies this
      ensures Valid() && lists == old(lists)
      ensures err == !io.Done?
      ensures sched == if io.Effective() then NotDue(old(sched), Unix(now)) else old(sched)
      ensures if err then ids == [] else Selects(ids, Due(old(sched), Unix(now)), |Due(old(sched), Unix(now))|)
    {
      err, ids := !io.Done?, [];
      if io.Refused? { return; }
      var scores := if SCHEDULED_KEY in keyspace then keyspace[SCHEDULED_KEY].scores else map[];
      assert scores == sched;
      var due := Due(scores, Unix(now));
      if io.Done? { ids := SelectOldest(due, |due|); }
      StoreScores(NotDue(scores, Unix(now)));
    }

    method StoreScores(left: Scores)
      requires Valid()
      modifies this
      ensures Valid() && lists == old(lists) && sched == left
    {
      ScheduledKeyApart();
      keyspace := if left == map[] then keyspace - {SCHEDULED_KEY} else keyspace[SCHEDULED_KEY := ZSetValue(left)];
      sched := left;
    }
  }

  // ---------- whole runs of the lists ----------

  datatype ListOp = OpPush(queue: string, id: JobId) | OpPop(queues: seq<string>)

  function RunLists(ops: seq<ListOp>): Lists {
    if ops == [] then map[] else
      var l := RunLists(ops[..|ops| - 1]);
      match ops[|ops| - 1]
      case OpPush(q, id) => PushTo(l, q, id)
      case OpPop(qs) => var q := FirstNonEmpty(l, qs); if q.Some? then DropTail(l, q.value) else l
  }

  // The ids pushed to `name`, in push order.
  function PushedTo(ops: seq<ListOp>, name: string): seq<JobId> {
    if ops == [] then [] else
      var last := ops[|ops| - 1];
      PushedTo(ops[..|ops| - 1], name) + (if last.OpPush? && last.queue == name then [last.id] else [])
  }

  // The ids that pops took from `name`, in pop order.
  function PoppedFrom(ops: seq<ListOp>, name: string): seq<JobId> {
    if ops == [] then [] else
      var front := ops[..|ops| - 1];
      var last := ops[|ops| - 1];
      var l := RunLists(front);
      PoppedFrom(front, name) +
      (if last.OpPop? && FirstNonEmpty(l, last.queues) == Some(name) then [Tail(l, name)] else [])
  }

  function Reverse(s: seq<JobId>): seq<JobId> {
    if s == [] then [] else [s[|s| - 1]] + Reverse(s[..|s| - 1])
  }

  lemma {:induction false} ReverseCons(x: JobId, s: seq<JobId>)
    ensures Reverse([x] + s) == Reverse(s) + [x]
  {
    var t := [x] + s;
    if s == [] {
      assert t == [x] && t[..0] == [];
    } else {
      var front, y := s[..|s| - 1], s[|s| - 1];
      ReverseCons(x, front);
      ReverseLast(t, [x] + front, y);
      ReverseLast(s, front, y);
      assert [y] + (Reverse(front) + [x]) == ([y] + Reverse(front)) + [x];
    }
  }

  lemma ReverseLast(s: seq<JobId>, front: seq<JobId>, y: JobId)
    requires s == front + [y]
    ensures Reverse(s) == [y] + Reverse(front)
  {
    assert s[..|s| - 1] == front && s[|s| - 1] == y;
  }

  // What one operation does to one name's list, its pushed ids and its popped ids.
  lemma FifoStep(l: Lists, op: ListOp, name: string)
    ensures op.OpPush? ==>
              Reverse(ListOf(PushTo(l, op.queue, op.id), name)) ==
              Reverse(ListOf(l, name)) + (if op.queue == name then [op.id] else [])
    ensures op.OpPop? && FirstNonEmpty(l, op.queues).Some? ==>
              var q := FirstNonEmpty(l, op.queues).value;
              (if q == name then [Tail(l, name)] else []) + Reverse(ListOf(DropTail(l, q), name)) ==
              Reverse(ListOf(l, name))
  {
    if op.OpPush? && op.queue == name {
      ReverseCons(op.id, ListOf(l, name));
    }
  }

  /** Every queue name is a FIFO of its own: what was popped, followed by what is waiting (oldest
      first), is exactly what was pushed, whatever other names the pops also listened on. */
  lemma {:induction false} QueueIsFifo(ops: seq<ListOp>, name: string)
    ensures PushedTo(ops, name) == PoppedFrom(ops, name) + Reverse(ListOf(RunLists(ops), name))
    ensures PoppedFrom(ops, name) <= PushedTo(ops, name)
  {
    if ops == [] {
      assert PushedTo(ops, name) == [] && PoppedFrom(ops, name) == [];
    } else {
      var front, last := ops[..|ops| - 1], ops[|ops| - 1];
      QueueIsFifo(front, name);
      var l := RunLists(front);
      FifoStep(l, last, name);
      var pushed := if last.OpPush? && last.queue == name then [last.id] else [];
      var popped := if last.OpPop? && FirstNonEmpty(l, last.queues) == Some(name) then [Tail(l, name)] else [];
      var before, after := Reverse(ListOf(l, name)), Reverse(ListOf(RunLists(ops), name));
      assert before + pushed == popped + after;
      Rebracket(PoppedFrom(front, name), before, pushed, popped, after);
    }
  }

  lemma Rebracket(a: seq<JobId>, b: seq<JobId>, c: seq<JobId>, d: seq<JobId>, e: seq<JobId>)
    requires b + c == d + e
    ensures (a + b) + c == (a + d) + e
  {
    assert (a + b) + c == a + (b + c);
    assert (a + d) + e == a + (d + e);
  }

  // ---------- whole runs of the sorted set ----------

  // Schedule calls and GetDueJobs calls, from any number of workers, requests and schedulers.
  datatype SetOp = OpSchedule(id: JobId, runAt: int) | OpDue(now: int)

  function RunSet(ops: seq<SetOp>): Scores {
    if ops == [] then map[] else
      var z := RunSet(ops[..|ops| - 1]);
      match ops[|ops| - 1]
      case OpSchedule(id, runAt) => z[id := Unix(runAt)]
      case OpDue(now) => NotDue(z, Unix(now))
  }

  function Added(ops: seq<SetOp>, id: JobId): nat {
    if ops == [] then 0 else
      var last := ops[|ops| - 1];
      Added(ops[..|ops| - 1], id) + (if last.OpSchedule? && last.id == id then 1 else 0)
  }

  // Schedule calls that only moved an entry already waiting.
  function Replaced(ops: seq<SetOp>, id: JobId): nat {
    if ops == [] then 0 else
      var front := ops[..|ops| - 1];
      var last := ops[|ops| - 1];
      Replaced(front, id) + (if last.OpSchedule? && last.id == id && id in RunSet(front) then 1 else 0)
  }

  // GetDueJobs calls that returned this id.
  function Delivered(ops: seq<SetOp>, id: JobId): nat {
    if ops == [] then 0 else
      var front := ops[..|ops| - 1];
      var last := ops[|ops| - 1];
      Delivered(front, id) + (if last.OpDue? && id in Due(RunSet(front), Unix(last.now)) then 1 else 0)
  }

  /** However the calls of several schedulers interleave, each entry goes to exactly one GetDueJobs
      call, was moved by a later Schedule, or still waits; none is duplicated or dropped. */
  lemma {:induction false} SetConserves(ops: seq<SetOp>, id: JobId)
    ensures Added(ops, id) == Delivered(ops, id) + Replaced(ops, id) + (if id in RunSet(ops) then 1 else 0)
  {
    if ops == [] {
    } else {
      SetConserves(ops[..|ops| - 1], id);
    }
  }

  // A call at time t takes every entry whose run time has come and none a second or more away.
  lemma DueWindow(scores: Scores, id: JobId, runAt: int, t: int)
    requires id in scores && scores[id] == Unix(runAt)
    ensures runAt <= t ==> id in Due(scores, Unix(t))
    ensures id in Due(scores, Unix(t)) ==> runAt < t + SECOND
    ensures id in Due(scores, Unix(t)) <==> id !in NotDue(scores, Unix(t))
  {
  }
}
