/** Statistics: the handlers fold the rows of GROUP BY queries into maps; the maps must agree with a
    direct count over the jobs table. */
module Stats {
  import opened Jobs

  datatype Stat = Stat(queue: string, status: Status, count: nat)

  // ---------- direct counts ----------

  function InGroup(rows: seq<Row>, q: string, s: Status): nat {
    if rows == [] then 0 else (if rows[0].queue == q && rows[0].status == s then 1 else 0) + InGroup(rows[1..], q, s)
  }

  function InStatus(rows: seq<Row>, s: Status): nat {
    if rows == [] then 0 else (if rows[0].status == s then 1 else 0) + InStatus(rows[1..], s)
  }

  function OfQueue(rows: seq<Row>, q: string): seq<Row> {
    if rows == [] then [] else (if rows[0].queue == q then [rows[0]] else []) + OfQueue(rows[1..], q)
  }

  // ---------- GROUP BY ----------

  predicate Apart(a: Stat, b: Stat) { a.queue != b.queue || a.status != b.status }

  // SELECT queue, status, COUNT(*) FROM rows GROUP BY queue, status: one row per non-empty group.
  ghost predicate Grouped(stats: seq<Stat>, rows: seq<Row>) {
    && (forall i, k :: 0 <= i < k < |stats| ==> Apart(stats[i], stats[k]))
    && (forall i :: 0 <= i < |stats| ==> stats[i].count == InGroup(rows, stats[i].queue, stats[i].status) > 0)
    && (forall q, s :: InGroup(rows, q, s) > 0 ==> Listed(stats, q, s))
  }

  ghost predicate Listed(stats: seq<Stat>, q: string, s: Status) {
    exists i :: 0 <= i < |stats| && stats[i].queue == q && stats[i].status == s
  }

  function Lookup(m: map<Status, nat>, s: Status): nat { if s in m then m[s] else 0 }

  function LookupIn(m: map<string, map<Status, nat>>, q: string): map<Status, nat> { if q in m then m[q] else map[] }

  // ---------- the handlers ----------

  function SumStatus(stats: seq<Stat>, s: Status): nat {
    if stats == [] then 0 else
      var last := stats[|stats| - 1];
      SumStatus(stats[..|stats| - 1], s) + if last.status == s then last.count else 0
  }

  // The answer of GET /stats, and of GET /queues and GET /queues/{name}, for the rows of its query.
  ghost predicate StatsMap(totals: map<Status, nat>, stats: seq<Stat>) {
    forall s :: Lookup(totals, s) == SumStatus(stats, s)
  }

  ghost predicate QueuesMap(grouped: map<string, map<Status, nat>>, stats: seq<Stat>) {
    && (forall q, s :: Holds(LookupIn(grouped, q), s, LastCount(stats, q, s)))
    && (forall q :: q in grouped <==> exists i :: 0 <= i < |stats| && stats[i].queue == q)
  }

  ghost predicate QueueMap(result: map<Status, nat>, stats: seq<Stat>, name: string) {
    forall s :: Holds(result, s, LastCount(stats, name, s))
  }

  method GetStats(stats: seq<Stat>) returns (totals: map<Status, nat>)
    ensures StatsMap(totals, stats)
  {
    totals := map[];
    var i := 0;
    while i < |stats|
      invariant 0 <= i <= |stats|
      invariant forall s :: Lookup(totals, s) == SumStatus(stats[..i], s)
    {
      assert stats[..i + 1][..i] == stats[..i];
      totals := totals[stats[i].status := Lookup(totals, stats[i].status) + stats[i].count];
      i := i + 1;
    }
    assert stats[..i] == stats;
  }

  // The value the loops leave for a group: the last one assigned.
  function LastCount(stats: seq<Stat>, q: string, s: Status): Option<nat> {
    if stats == [] then None else
      var last := stats[|stats| - 1];
      if last.queue == q && last.status == s then Some(last.count) else LastCount(stats[..|stats| - 1], q, s)
  }

  ghost predicate Holds(m: map<Status, nat>, s: Status, v: Option<nat>) {
    if v.Some? then s in m && m[s] == v.value else s !in m
  }

  method GetQueues(stats: seq<Stat>) returns (grouped: map<string, map<Status, nat>>)
    ensures QueuesMap(grouped, stats)
  {
    grouped := map[];
    var i := 0;
    while i < |stats|
      invariant 0 <= i <= |stats|
      invariant forall q, s :: Holds(LookupIn(grouped, q), s, LastCount(stats[..i], q, s))
      invariant forall q :: q in grouped <==> exists k :: 0 <= k < i && stats[k].queue == q
    {
      assert stats[..i + 1][..i] == stats[..i];
      var stat := stats[i];
      if stat.queue !in grouped { grouped := grouped[stat.queue := map[]]; }
      var inner: map<Status, nat> := grouped[stat.queue];
      inner := inner[stat.status := stat.count];
      grouped := grouped[stat.queue := inner];
      i := i + 1;
    }
    assert stats[..i] == stats;
  }

  // `stats` is the answer for one queue only.
  method GetQueueByName(stats: seq<Stat>, name: string) returns (result: map<Status, nat>)
    requires forall i :: 0 <= i < |stats| ==> stats[i].queue == name
    ensures QueueMap(result, stats, name)
  {
    result := map[];
    var i := 0;
    while i < |stats|
      invariant 0 <= i <= |stats|
      invariant forall s :: Holds(result, s, LastCount(stats[..i], name, s))
    {
      assert stats[..i + 1][..i] == stats[..i];
      result := result[stats[i].status := stats[i].count];
      i := i + 1;
    }
    assert stats[..i] == stats;
  }

  // ---------- agreement with the table ----------

  lemma {:induction false} LastCountOf(stats: seq<Stat>, q: string, s: Status)
    requires forall i, k :: 0 <= i < k < |stats| ==> Apart(stats[i], stats[k])
    ensures Listed(stats, q, s) <==> LastCount(stats, q, s).Some?
    ensures forall i :: 0 <= i < |stats| && stats[i].queue == q && stats[i].status == s ==>
              LastCount(stats, q, s) == Some(stats[i].count)
  {
    if stats == [] {
    } else {
      var n := |stats| - 1;
      LastCountOf(stats[..n], q, s);
      if Listed(stats[..n], q, s) {
        var i :| 0 <= i < n && stats[..n][i].queue == q && stats[..n][i].status == s;
        assert stats[i].queue == q && stats[i].status == s;
        assert Apart(stats[i], stats[n]);
      }
      forall i | 0 <= i < n && stats[i].queue == q && stats[i].status == s
        ensures LastCount(stats, q, s) == Some(stats[i].count)
      {
        assert stats[..n][i] == stats[i];
        assert Apart(stats[i], stats[n]);
      }
    }
  }

  /** A group's count is reported exactly when the group is not empty, and is its direct count. */
  lemma GroupExact(stats: seq<Stat>, rows: seq<Row>, q: string, s: Status)
    requires Grouped(stats, rows)
    ensures LastCount(stats, q, s) == if InGroup(rows, q, s) > 0 then Some(InGroup(rows, q, s)) else None
  {
    LastCountOf(stats, q, s);
    if Listed(stats, q, s) {
      var i :| 0 <= i < |stats| && stats[i].queue == q && stats[i].status == s;
      assert stats[i].count == InGroup(rows, q, s) > 0;
    }
  }

  lemma {:induction false} OfQueueGroups(rows: seq<Row>, name: string, q: string, s: Status)
    ensures InGroup(OfQueue(rows, name), q, s) == if q == name then InGroup(rows, q, s) else 0
  {
    if rows == [] {
    } else {
      OfQueueGroups(rows[1..], name, q, s);
      var rest := OfQueue(rows[1..], name);
      assert ([rows[0]] + rest)[1..] == rest && [] + rest == rest;
    }
  }

  /** The query restricted to one queue reports for every status what the full query reports for that
      queue, and nothing when the queue has no jobs. */
  lemma ByNameAgrees(all: seq<Stat>, one: seq<Stat>, rows: seq<Row>, name: string, s: Status)
    requires Grouped(all, rows) && Grouped(one, OfQueue(rows, name))
    ensures LastCount(one, name, s) == LastCount(all, name, s)
  {
    GroupExact(all, rows, name, s);
    GroupExact(one, OfQueue(rows, name), name, s);
    OfQueueGroups(rows, name, name, s);
  }

  // ---------- sums ----------

  // The rows outside one group.
  function Without(rows: seq<Row>, q: string, s: Status): seq<Row> {
    if rows == [] then [] else
      (if rows[0].queue == q && rows[0].status == s then [] else [rows[0]]) + Without(rows[1..], q, s)
  }

  lemma WithoutFirst(rows: seq<Row>, q: string, s: Status)
    requires rows != []
    ensures var rest := Without(rows[1..], q, s);
            if rows[0].queue == q && rows[0].status == s then Without(rows, q, s) == rest
            else Without(rows, q, s) != [] && Without(rows, q, s)[0] == rows[0] && Without(rows, q, s)[1..] == rest
  {
  }

  function InThat(row: Row, q: string, s: Status): nat { if row.queue == q && row.status == s then 1 else 0 }

  lemma WithoutCount(rows: seq<Row>, q: string, s: Status, q': string, s': Status)
    requires rows != []
    ensures InGroup(Without(rows, q, s), q', s') ==
            InGroup(Without(rows[1..], q, s), q', s') + InThat(rows[0], q', s') * (1 - InThat(rows[0], q, s))
  {
    WithoutFirst(rows, q, s);
  }

  lemma {:induction false} WithoutGroups(rows: seq<Row>, q: string, s: Status, q': string, s': Status)
    ensures InGroup(Without(rows, q, s), q', s') == if q' == q && s' == s then 0 else InGroup(rows, q', s')
  {
    if rows == [] {
    } else {
      WithoutGroups(rows[1..], q, s, q', s');
      WithoutCount(rows, q, s, q', s');
    }
  }

  lemma {:induction false} WithoutStatus(rows: seq<Row>, q: string, s: Status, s': Status)
    ensures InStatus(rows, s') == InStatus(Without(rows, q, s), s') + if s' == s then InGroup(rows, q, s) else 0
  {
    if rows == [] {
    } else {
      WithoutStatus(rows[1..], q, s, s');
      WithoutFirst(rows, q, s);
    }
  }

  lemma NoGroups(rows: seq<Row>, s: Status)
    requires forall q, t :: InGroup(rows, q, t) == 0
    ensures rows == [] && InStatus(rows, s) == 0
  {
    if rows != [] { assert InGroup(rows, rows[0].queue, rows[0].status) > 0; }
  }

  lemma GroupedRest(stats: seq<Stat>, rows: seq<Row>)
    requires Grouped(stats, rows) && stats != []
    ensures var last := stats[|stats| - 1];
            Grouped(stats[..|stats| - 1], Without(rows, last.queue, last.status))
  {
    var n := |stats| - 1;
    var last, rest := stats[n], Without(rows, stats[n].queue, stats[n].status);
    forall i | 0 <= i < n ensures stats[..n][i].count == InGroup(rest, stats[..n][i].queue, stats[..n][i].status) > 0 {
      assert Apart(stats[i], stats[n]);
      WithoutGroups(rows, last.queue, last.status, stats[i].queue, stats[i].status);
    }
    forall q, s | InGroup(rest, q, s) > 0 ensures Listed(stats[..n], q, s) {
      WithoutGroups(rows, last.queue, last.status, q, s);
      var i :| 0 <= i < |stats| && stats[i].queue == q && stats[i].status == s;
      assert stats[..n][i] == stats[i];
    }
    forall i, k | 0 <= i < k < n ensures Apart(stats[..n][i], stats[..n][k]) { assert Apart(stats[i], stats[k]); }
  }

  /** What GetStats adds up for a status is the number of jobs with that status. */
  lemma {:induction false} StatsExact(stats: seq<Stat>, rows: seq<Row>, s: Status)
    requires Grouped(stats, rows)
    ensures SumStatus(stats, s) == InStatus(rows, s)
  {
    if stats == [] {
      NoGroups(rows, s);
    } else {
      var last := stats[|stats| - 1];
      GroupedRest(stats, rows);
      StatsExact(stats[..|stats| - 1], Without(rows, last.queue, last.status), s);
      WithoutStatus(rows, last.queue, last.status, s);
    }
  }

  // Sum over a set of queue names of their counts for one status.
  ghost function SumQueues(rows: seq<Row>, names: set<string>, s: Status): nat {
    if names == {} then 0 else
      var q :| q in names;
      InGroup(rows, q, s) + SumQueues(rows, names - {q}, s)
  }

  lemma {:induction false} SumQueuesPick(rows: seq<Row>, names: set<string>, q: string, s: Status)
    requires q in names
    ensures SumQueues(rows, names, s) == InGroup(rows, q, s) + SumQueues(rows, names - {q}, s)
    decreases names
  {
    var p :| p in names && SumQueues(rows, names, s) == InGroup(rows, p, s) + SumQueues(rows, names - {p}, s);
    if p != q {
      SumQueuesPick(rows, names - {p}, q, s);
      SumQueuesPick(rows, names - {q}, p, s);
      assert names - {p} - {q} == names - {q} - {p};
    }
  }

  lemma {:induction false} SumQueuesCons(rows: seq<Row>, names: set<string>, s: Status)
    requires rows != []
    ensures SumQueues(rows, names, s) ==
            SumQueues(rows[1..], names, s) + if rows[0].queue in names && rows[0].status == s then 1 else 0
    decreases names
  {
    if names == {} {
    } else {
      var q :| q in names;
      SumQueuesPick(rows, names, q, s);
      SumQueuesPick(rows[1..], names, q, s);
      SumQueuesCons(rows, names - {q}, s);
    }
  }

  /** Summed over all queues, the per-queue counts of a status give its total. */
  lemma {:induction false} QueuesSumToStatus(rows: seq<Row>, names: set<string>, s: Status)
    requires forall i :: 0 <= i < |rows| ==> rows[i].queue in names
    ensures SumQueues(rows, names, s) == InStatus(rows, s)
  {
    if rows == [] {
      NoRows(rows, names, s);
    } else {
      SumQueuesCons(rows, names, s);
      assert forall i :: 0 <= i < |rows[1..]| ==> rows[1..][i] == rows[i + 1];
      QueuesSumToStatus(rows[1..], names, s);
    }
  }

  lemma {:induction false} NoRows(rows: seq<Row>, names: set<string>, s: Status)
    requires rows == []
    ensures SumQueues(rows, names, s) == 0
    decreases names
  {
    if names == {} {
    } else {
      var q :| q in names;
      SumQueuesPick(rows, names, q, s);
      NoRows(rows, names - {q}, s);
    }
  }

  /** The totals over all statuses add up to the size of the table. */
  lemma {:induction false} TotalsSumToTable(rows: seq<Row>)
    ensures InStatus(rows, Pending) + InStatus(rows, Scheduled) + InStatus(rows, Running) + InStatus(rows, Completed)
            + InStatus(rows, Failed) + InStatus(rows, Retrying) + InStatus(rows, Dead) + InStatus(rows, Cancelled)
            == |rows|
  {
    if rows == [] {
    } else {
      TotalsSumToTable(rows[1..]);
    }
  }

  // ---------- agreement of the answers themselves ----------

  lemma LookupExact(m: map<Status, nat>, stats: seq<Stat>, rows: seq<Row>, q: string, s: Status)
    requires Grouped(stats, rows) && Holds(m, s, LastCount(stats, q, s))
    ensures Lookup(m, s) == InGroup(rows, q, s)
  {
    GroupExact(stats, rows, q, s);
  }

  /** GetQueueByName answers with the entry GetQueues has for that queue, and with the empty map when
      the queue has no jobs. */
  lemma ByNameIsEntry(grouped: map<string, map<Status, nat>>, result: map<Status, nat>, all: seq<Stat>, one: seq<Stat>,
                      rows: seq<Row>, name: string)
    requires Grouped(all, rows) && Grouped(one, OfQueue(rows, name))
    requires QueuesMap(grouped, all) && QueueMap(result, one, name)
    ensures result == LookupIn(grouped, name)
  {
    forall s ensures s in result <==> s in LookupIn(grouped, name)
             ensures s in result ==> result[s] == LookupIn(grouped, name)[s]
    {
      ByNameAgrees(all, one, rows, name, s);
      assert Holds(LookupIn(grouped, name), s, LastCount(all, name, s));
      assert Holds(result, s, LastCount(one, name, s));
    }
  }

  // Sum over the queues of an answer of GetQueues.
  ghost function SumMaps(grouped: map<string, map<Status, nat>>, names: set<string>, s: Status): nat {
    if names == {} then 0 else
      var q :| q in names;
      Lookup(LookupIn(grouped, q), s) + SumMaps(grouped, names - {q}, s)
  }

  lemma {:induction false} SumMapsExact(grouped: map<string, map<Status, nat>>, stats: seq<Stat>, rows: seq<Row>,
                                        names: set<string>, s: Status)
    requires Grouped(stats, rows) && QueuesMap(grouped, stats)
    ensures SumMaps(grouped, names, s) == SumQueues(rows, names, s)
    decreases names
  {
    if names == {} {
    } else {
      var q :| q in names &&
               SumMaps(grouped, names, s) == Lookup(LookupIn(grouped, q), s) + SumMaps(grouped, names - {q}, s);
      assert Holds(LookupIn(grouped, q), s, LastCount(stats, q, s));
      LookupExact(LookupIn(grouped, q), stats, rows, q, s);
      SumMapsExact(grouped, stats, rows, names - {q}, s);
      SumQueuesPick(rows, names, q, s);
    }
  }

  lemma {:induction false} OwnGroup(rows: seq<Row>, i: nat)
    requires i < |rows|
    ensures InGroup(rows, rows[i].queue, rows[i].status) > 0
  {
    if i == 0 {
    } else {
      OwnGroup(rows[1..], i - 1);
    }
  }

  /** Summed over the queues GetQueues answers with, the counts of a status are what GetStats answers. */
  lemma QueuesSumToStats(totals: map<Status, nat>, grouped: map<string, map<Status, nat>>, stats: seq<Stat>,
                         rows: seq<Row>, s: Status)
    requires Grouped(stats, rows) && StatsMap(totals, stats) && QueuesMap(grouped, stats)
    ensures Lookup(totals, s) == SumMaps(grouped, grouped.Keys, s) == InStatus(rows, s)
  {
    forall i | 0 <= i < |rows| ensures rows[i].queue in grouped.Keys {
      OwnGroup(rows, i);
      assert Listed(stats, rows[i].queue, rows[i].status);
    }
    QueuesSumToStatus(rows, grouped.Keys, s);
    SumMapsExact(grouped, stats, rows, grouped.Keys, s);
    StatsExact(stats, rows, s);
  }

  /** The totals GetStats answers with add up to the size of the table. */
  lemma StatsSumToTable(totals: map<Status, nat>, stats: seq<Stat>, rows: seq<Row>)
    requires Grouped(stats, rows) && StatsMap(totals, stats)
    ensures Lookup(totals, Pending) + Lookup(totals, Scheduled) + Lookup(totals, Running) + Lookup(totals, Completed)
            + Lookup(totals, Failed) + Lookup(totals, Retrying) + Lookup(totals, Dead) + Lookup(totals, Cancelled)
            == |rows|
  {
    forall s ensures Lookup(totals, s) == InStatus(rows, s) { StatsExact(stats, rows, s); }
    TotalsSumToTable(rows);
  }
}
