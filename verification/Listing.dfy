/** ListJobs: the WHERE clause grown with numbered placeholders beside its argument list, and paging. */
module Listing {
  import opened Jobs

  datatype Filter = Filter(status: string, queue: string, jobType: string, page: int, limit: int)

  datatype Column = StatusColumn | QueueColumn | TypeColumn

  // AND column = $placeholder
  datatype Clause = Clause(column: Column, placeholder: nat)

  datatype Arg = Text(text: string) | Number(n: int)

  // WHERE 1=1 and the clauses, LIMIT $limitAt OFFSET $offsetAt
  datatype Query = Query(where: seq<Clause>, limitAt: nat, offsetAt: nat, args: seq<Arg>)

  function StatusText(s: Status): string {
    match s
    case Pending => "pending"
    case Scheduled => "scheduled"
    case Running => "running"
    case Completed => "completed"
    case Failed => "failed"
    case Retrying => "retrying"
    case Dead => "dead"
    case Cancelled => "cancelled"
  }

  // The valid status texts, read back.
  function StatusOf(text: string): Option<Status> {
    if text == "pending" then Some(Pending)
    else if text == "scheduled" then Some(Scheduled)
    else if text == "running" then Some(Running)
    else if text == "completed" then Some(Completed)
    else if text == "failed" then Some(Failed)
    else if text == "retrying" then Some(Retrying)
    else if text == "dead" then Some(Dead)
    else if text == "cancelled" then Some(Cancelled)
    else None
  }

  lemma StatusRoundTrip(text: string, s: Status)
    ensures StatusOf(text) == Some(s) <==> StatusText(s) == text
  {
  }

  function ColumnText(row: Row, column: Column): string {
    match column
    case StatusColumn => StatusText(row.status)
    case QueueColumn => row.queue
    case TypeColumn => row.jobType
  }

  // ---------- what a query means ----------

  predicate Holds(c: Clause, args: seq<Arg>, row: Row) {
    1 <= c.placeholder <= |args| && args[c.placeholder - 1] == Text(ColumnText(row, c.column))
  }

  predicate AllHold(where: seq<Clause>, args: seq<Arg>, row: Row) {
    forall i :: 0 <= i < |where| ==> Holds(where[i], args, row)
  }

  function Keep(where: seq<Clause>, args: seq<Arg>, rows: seq<Row>): seq<Row> {
    if rows == [] then [] else
      (if AllHold(where, args, rows[0]) then [rows[0]] else []) + Keep(where, args, rows[1..])
  }

  function Slice(rows: seq<Row>, limit: nat, offset: nat): seq<Row> {
    if offset >= |rows| then []
    else if offset + limit >= |rows| then rows[offset..]
    else rows[offset..offset + limit]
  }

  // ---------- what the caller asked for ----------

  predicate Matches(f: Filter, row: Row) {
    && (f.status == "" || StatusText(row.status) == f.status)
    && (f.queue == "" || row.queue == f.queue)
    && (f.jobType == "" || row.jobType == f.jobType)
  }

  function Matching(f: Filter, rows: seq<Row>): seq<Row> {
    if rows == [] then [] else (if Matches(f, rows[0]) then [rows[0]] else []) + Matching(f, rows[1..])
  }

  function PageNumber(f: Filter): nat { if f.page < 1 then 1 else f.page }

  function PageSize(f: Filter): nat { if f.limit < 1 then 20 else f.limit }

  function Offset(page: nat, limit: nat): nat
    requires page >= 1
  {
    (page - 1) * limit
  }

  function Page(rows: seq<Row>, page: nat, limit: nat): seq<Row>
    requires page >= 1
  {
    Slice(rows, limit, Offset(page, limit))
  }

  /** The rows numbered (page - 1) * limit up to page * limit, as many of them as there are. */
  ghost predicate OnPage(data: seq<Row>, all: seq<Row>, page: int, limit: int) {
    var from := (page - 1) * limit;
    && from >= 0 && |data| == (if from >= |all| then 0 else if from + limit > |all| then |all| - from else limit)
    && forall i :: 0 <= i < |data| ==> data[i] == all[from + i]
  }

  lemma PageIs(data: seq<Row>, all: seq<Row>, page: nat, limit: nat)
    requires page >= 1
    ensures OnPage(Page(all, page, limit), all, page, limit)
    ensures OnPage(data, all, page, limit) ==> data == Page(all, page, limit)
  {
    assert Offset(page, limit) == (page - 1) * limit;
  }

  // ---------- building the query ----------

  // The clauses use the placeholders 1, 2, ... in order, one text argument each.
  predicate Numbered(where: seq<Clause>, args: seq<Arg>) {
    |where| == |args| && forall i :: 0 <= i < |where| ==> where[i].placeholder == i + 1 && args[i].Text?
  }

  method BuildWhere(f: Filter) returns (where: seq<Clause>, args: seq<Arg>, argIdx: nat)
    ensures argIdx == |args| + 1 && Numbered(where, args)
    ensures forall row :: AllHold(where, args, row) <==> Matches(f, row)
    ensures forall row :: AllHold(where, args, row) <==>
              && (f.status != "" ==> StatusOf(f.status) == Some(row.status))
              && (f.queue != "" ==> row.queue == f.queue)
              && (f.jobType != "" ==> row.jobType == f.jobType)
  {
    where, args, argIdx := [], [], 1;
    if f.status != "" { where, args, argIdx := AddClause(where, args, argIdx, StatusColumn, f.status); }
    if f.queue != "" { where, args, argIdx := AddClause(where, args, argIdx, QueueColumn, f.queue); }
    if f.jobType != "" { where, args, argIdx := AddClause(where, args, argIdx, TypeColumn, f.jobType); }
    forall row: Row ensures StatusOf(f.status) == Some(row.status) <==> StatusText(row.status) == f.status {
      StatusRoundTrip(f.status, row.status);
    }
  }

  method AddClause(where0: seq<Clause>, args0: seq<Arg>, argIdx0: nat, column: Column, text: string)
    returns (where: seq<Clause>, args: seq<Arg>, argIdx: nat)
    requires argIdx0 == |args0| + 1 && Numbered(where0, args0)
    ensures argIdx == |args| + 1 && Numbered(where, args)
    ensures forall row :: AllHold(where, args, row) <==> AllHold(where0, args0, row) && ColumnText(row, column) == text
  {
    where := where0 + [Clause(column, argIdx0)];
    args := args0 + [Text(text)];
    argIdx := argIdx0 + 1;
    forall row ensures AllHold(where, args, row) <==> AllHold(where0, args0, row) && ColumnText(row, column) == text {
      ClauseAdded(where0, args0, column, text, row);
    }
  }

  lemma ClauseAdded(where: seq<Clause>, args: seq<Arg>, column: Column, text: string, row: Row)
    requires Numbered(where, args)
    ensures AllHold(where + [Clause(column, |args| + 1)], args + [Text(text)], row)
            <==> AllHold(where, args, row) && ColumnText(row, column) == text
  {
    var w, a := where + [Clause(column, |args| + 1)], args + [Text(text)];
    forall i | 0 <= i < |where| ensures Holds(w[i], a, row) <==> Holds(where[i], args, row) {}
    if AllHold(w, a, row) {
      assert Holds(w[|where|], a, row);
      forall i | 0 <= i < |where| ensures Holds(where[i], args, row) { assert Holds(w[i], a, row); }
    }
  }

  lemma {:induction false} KeepMatching(f: Filter, where: seq<Clause>, args: seq<Arg>, rows: seq<Row>)
    requires forall row :: AllHold(where, args, row) <==> Matches(f, row)
    ensures Keep(where, args, rows) == Matching(f, rows)
  {
    if rows == [] {
    } else {
      KeepMatching(f, where, args, rows[1..]);
    }
  }

  // Arguments appended later do not disturb the clauses.
  lemma MoreArgs(where: seq<Clause>, args: seq<Arg>, more: seq<Arg>, row: Row)
    requires Numbered(where, args)
    ensures AllHold(where, args + more, row) <==> AllHold(where, args, row)
  {
    forall i | 0 <= i < |where| ensures Holds(where[i], args + more, row) <==> Holds(where[i], args, row) {}
  }

  // The two appended arguments are the page size and the number of rows to skip.
  predicate Bound(q: Query, limit: nat, offset: nat) {
    && |q.args| >= 2 && q.limitAt == |q.args| - 1 && q.offsetAt == |q.args|
    && q.args[q.limitAt - 1] == Number(limit) && q.args[q.offsetAt - 1] == Number(offset)
  }

  method BuildQuery(f: Filter) returns (countWhere: seq<Clause>, countArgs: seq<Arg>, query: Query)
    ensures forall row :: AllHold(countWhere, countArgs, row) <==> Matches(f, row)
    ensures forall row :: AllHold(query.where, query.args, row) <==> Matches(f, row)
    ensures Bound(query, PageSize(f), Offset(PageNumber(f), PageSize(f)))
  {
    var argIdx;
    countWhere, countArgs, argIdx := BuildWhere(f);
    var page, limit := f.page, f.limit;
    if page < 1 { page := 1; }
    if limit < 1 { limit := 20; }
    var offset := Offset(page, limit);
    query := Query(countWhere, argIdx, argIdx + 1, countArgs + [Number(limit), Number(offset)]);
    forall row ensures AllHold(query.where, query.args, row) <==> Matches(f, row) {
      MoreArgs(countWhere, countArgs, [Number(limit), Number(offset)], row);
    }
  }

  /** `rows` is the table in the order ORDER BY gives it. The count and the page are what the two
      queries return; they are exactly the matching rows. */
  method ListJobs(rows: seq<Row>, f: Filter) returns (page: seq<Row>, total: nat)
    ensures total == |Matching(f, rows)|
    ensures OnPage(page, Matching(f, rows), if f.page < 1 then 1 else f.page, if f.limit < 1 then 20 else f.limit)
    ensures page == Page(Matching(f, rows), PageNumber(f), PageSize(f))
  {
    var where, args, query := BuildQuery(f);
    KeepMatching(f, where, args, rows);
    total := |Keep(where, args, rows)|;
    KeepMatching(f, query.where, query.args, rows);
    var kept := Keep(query.where, query.args, rows);
    PageIs([], kept, PageNumber(f), PageSize(f));
    page := Slice(kept, query.args[query.limitAt - 1].n, query.args[query.offsetAt - 1].n);
  }

  // ---------- pages ----------

  // ceil(total / limit)
  function TotalPages(total: nat, limit: nat): nat
    requires limit >= 1
  {
    (total + limit - 1) / limit
  }

  function FirstPages(rows: seq<Row>, k: nat, limit: nat): seq<Row> {
    if k == 0 then [] else FirstPages(rows, k - 1, limit) + Page(rows, k, limit)
  }

  function Prefix(rows: seq<Row>, n: nat): seq<Row> { if n <= |rows| then rows[..n] else rows }

  lemma PageJoins(rows: seq<Row>, offset: nat, limit: nat)
    ensures Prefix(rows, offset) + Slice(rows, limit, offset) == Prefix(rows, offset + limit)
  {
    if offset < |rows| {
      if offset + limit >= |rows| { assert rows[..offset] + rows[offset..] == rows; }
      else { assert rows[..offset] + rows[offset..offset + limit] == rows[..offset + limit]; }
    }
  }

  lemma {:induction false} FirstPagesPrefix(rows: seq<Row>, k: nat, limit: nat)
    ensures FirstPages(rows, k, limit) == Prefix(rows, k * limit)
  {
    if k == 0 {
    } else {
      FirstPagesPrefix(rows, k - 1, limit);
      assert k * limit == (k - 1) * limit + limit;
      PageJoins(rows, (k - 1) * limit, limit);
    }
  }

  lemma CeilBounds(total: nat, limit: nat)
    requires limit >= 1
    ensures TotalPages(total, limit) * limit >= total
    ensures total > 0 ==> (TotalPages(total, limit) - 1) * limit < total
  {
    var p := TotalPages(total, limit);
    assert total + limit - 1 == limit * p + (total + limit - 1) % limit;
  }

  /** Pages 1 .. TotalPages put together are the matching rows, each exactly once and in order; every
      one of them has a row, and every later page is empty. */
  lemma PagesPartition(rows: seq<Row>, limit: nat, page: nat)
    requires limit >= 1 && page >= 1
    ensures FirstPages(rows, TotalPages(|rows|, limit), limit) == rows
    ensures Page(rows, page, limit) == [] <==> page > TotalPages(|rows|, limit)
  {
    var p := TotalPages(|rows|, limit);
    CeilBounds(|rows|, limit);
    FirstPagesPrefix(rows, p, limit);
    OffsetExact(|rows|, limit, page);
  }

  // A page starts inside the rows exactly when its number is at most the page count.
  lemma OffsetExact(total: nat, limit: nat, page: nat)
    requires limit >= 1 && page >= 1
    ensures Offset(page, limit) < total <==> page <= TotalPages(total, limit)
  {
    var p := TotalPages(total, limit);
    CeilBounds(total, limit);
    if page > p {
      MulMonotone(p, page - 1, limit);
    } else if total > 0 {
      MulMonotone(page - 1, p - 1, limit);
    } else {
      NoPages(limit);
    }
  }

  lemma NoPages(limit: nat)
    requires limit >= 1
    ensures TotalPages(0, limit) == 0
  {
    assert (limit - 1) / limit == 0;
  }

  lemma {:induction false} MulMonotone(a: nat, b: nat, c: nat)
    requires a <= b
    ensures a * c <= b * c
  {
    if a < b { MulMonotone(a, b - 1, c); }
  }

  // ---------- the API handler ----------

  datatype Response = Response(data: seq<Row>, page: nat, limit: nat, total: nat, totalPages: nat)

  // What the handler answers to the numbers asked for, whatever they are.
  ghost predicate Answers(rows: seq<Row>, f: Filter, r: Response) {
    && r.page == (if f.page >= 1 then f.page else 1)
    && r.limit == (if 1 <= f.limit <= 100 then f.limit else 20)
    && r.total == |Matching(f, rows)|
    && OnPage(r.data, Matching(f, rows), r.page, r.limit)
    && r.totalPages * r.limit >= r.total && (r.total > 0 ==> (r.totalPages - 1) * r.limit < r.total)
    && (r.total == 0 ==> r.totalPages == 0)
  }

  method HandleListJobs(rows: seq<Row>, f: Filter) returns (r: Response)
    ensures Answers(rows, f, r)
  {
    var page, limit := f.page, f.limit;
    if page < 1 { page := 1; }
    if limit < 1 || limit > 100 { limit := 20; }
    var g := f.(page := page, limit := limit);
    var data, total := ListJobs(rows, g);
    MatchingSame(f, g, rows);
    CeilBounds(total, limit);
    NoPages(limit);
    r := Response(data, page, limit, total, TotalPages(total, limit));
  }

  lemma PagesCounted(total: nat, limit: nat, p: nat)
    requires limit >= 1 && p * limit >= total && (total > 0 ==> (p - 1) * limit < total) && (total == 0 ==> p == 0)
    ensures p == TotalPages(total, limit)
  {
    var q := TotalPages(total, limit);
    CeilBounds(total, limit);
    NoPages(limit);
    if p < q { MulMonotone(p, q - 1, limit); }
    if q < p { MulMonotone(q, p - 1, limit); }
  }

  // What the answers carry, one after the other.
  function AllData(rs: seq<Response>): seq<Row> {
    if rs == [] then [] else AllData(rs[..|rs| - 1]) + rs[|rs| - 1].data
  }

  lemma {:induction false} AnswersArePages(rows: seq<Row>, f: Filter, rs: seq<Response>)
    requires 1 <= f.limit <= 100
    requires forall k :: 0 <= k < |rs| ==> Answers(rows, f.(page := k + 1), rs[k])
    ensures AllData(rs) == FirstPages(Matching(f, rows), |rs|, f.limit)
  {
    if rs == [] {
    } else {
      var n := |rs| - 1;
      AnswersArePages(rows, f, rs[..n]);
      MatchingSame(f, f.(page := n + 1), rows);
      PageIs(rs[n].data, Matching(f, rows), n + 1, f.limit);
    }
  }

  /** A client that asks for pages 1, 2, ... with any limit from 1 to 100 until it has the number of pages the
      first answer names gets every matching row exactly once and in order; later pages are empty. */
  lemma ClientSeesAll(rows: seq<Row>, f: Filter, rs: seq<Response>, later: Response)
    requires 1 <= f.limit <= 100 && later.page > |rs| && Answers(rows, f.(page := later.page), later)
    requires forall k :: 0 <= k < |rs| ==> Answers(rows, f.(page := k + 1), rs[k])
    requires |rs| == later.totalPages
    ensures AllData(rs) == Matching(f, rows) && later.data == []
    ensures forall k :: 0 <= k < |rs| ==> rs[k].totalPages == |rs| && rs[k].data != []
  {
    AnswerIs(rows, f, later.page, later);
    AnswersArePages(rows, f, rs);
    PagesPartition(Matching(f, rows), f.limit, 1);
    forall k | 0 <= k < |rs| ensures rs[k].totalPages == |rs| && rs[k].data != [] { AnswerIs(rows, f, k + 1, rs[k]); }
  }

  lemma AnswerIs(rows: seq<Row>, f: Filter, page: nat, r: Response)
    requires 1 <= f.limit <= 100 && page >= 1 && Answers(rows, f.(page := page), r)
    ensures r.totalPages == TotalPages(|Matching(f, rows)|, f.limit)
    ensures r.data == [] <==> page > r.totalPages
  {
    var all := Matching(f, rows);
    MatchingSame(f, f.(page := page), rows);
    PagesCounted(|all|, f.limit, r.totalPages);
    PagesPartition(all, f.limit, page);
    PageIs(r.data, all, page, f.limit);
  }

  lemma {:induction false} MatchingSame(f: Filter, g: Filter, rows: seq<Row>)
    requires f.status == g.status && f.queue == g.queue && f.jobType == g.jobType
    ensures Matching(f, rows) == Matching(g, rows)
  {
    if rows == [] {
    } else {
      MatchingSame(f, g, rows[1..]);
    }
  }

  // ---------- the dashboard's two page counts ----------

  function DashboardPages(total: nat): nat { if total > 50 then (total + 49) / 50 else 1 }

  function FragmentPages(total: nat, limit: int): nat {
    var l := if limit < 1 then 20 else limit;
    if TotalPages(total, l) < 1 then 1 else TotalPages(total, l)
  }

  // The fragment's page count covers all rows at the page size the storage layer uses, whatever was asked.
  lemma FragmentCovers(rows: seq<Row>, f: Filter)
    ensures FirstPages(rows, FragmentPages(|rows|, f.limit), PageSize(f)) == rows
    ensures FragmentPages(|rows|, f.limit) > 1 ==> Page(rows, FragmentPages(|rows|, f.limit), PageSize(f)) != []
  {
    var n, limit := FragmentPages(|rows|, f.limit), PageSize(f);
    PagesPartition(rows, limit, n);
    if rows == [] { NoPages(limit); assert Page(rows, 1, limit) == []; assert FirstPages(rows, 0, limit) == []; }
  }

  /** At the dashboard's page size both are the number of non-empty pages, but at least one. */
  lemma PageCountsAgree(rows: seq<Row>)
    ensures DashboardPages(|rows|) == FragmentPages(|rows|, 50)
    ensures FirstPages(rows, DashboardPages(|rows|), 50) == rows
    ensures DashboardPages(|rows|) > 1 ==> Page(rows, DashboardPages(|rows|), 50) != []
  {
    PagesPartition(rows, 50, DashboardPages(|rows|));
    if rows == [] { assert Page(rows, 1, 50) == []; assert FirstPages(rows, 0, 50) == []; }
  }
}
