/** buildChartData: counts per time bucket and status, regrouped by clock label into four parallel
    arrays. Buckets a day apart share a label. */
module Chart {

  // A minute bucket; other statuses may occur and are ignored.
  datatype Kind = Completed | Failed | Dead | Other

  datatype Point = Point(bucket: int, kind: Kind, count: int)

  // Format("15:04"): the minute of the day.
  function Label(p: Point): int { p.bucket % 1440 }

  // Two points share a label exactly when their buckets are whole days apart.
  lemma LabelExact(p: Point, q: Point)
    ensures Label(p) == Label(q) <==> (p.bucket - q.bucket) % 1440 == 0
    ensures 0 <= Label(p) < 1440
  {
    var a, b := p.bucket / 1440, q.bucket / 1440;
    assert p.bucket == 1440 * a + p.bucket % 1440 && q.bucket == 1440 * b + q.bucket % 1440;
    assert p.bucket - q.bucket == 1440 * (a - b) + (p.bucket % 1440 - q.bucket % 1440);
  }

  datatype Counts = Counts(completed: int, failed: int, dead: int)

  // ---------- what the chart must show ----------

  function Total(points: seq<Point>, tag: int, kind: Kind): int {
    if points == [] then 0 else
      var last := points[|points| - 1];
      Total(points[..|points| - 1], tag, kind) + if Label(last) == tag && last.kind == kind then last.count else 0
  }

  function GrandTotal(points: seq<Point>, kind: Kind): int {
    if points == [] then 0 else
      var last := points[|points| - 1];
      GrandTotal(points[..|points| - 1], kind) + if last.kind == kind then last.count else 0
  }

  // The labels in the order of their first appearance.
  function FirstSeen(points: seq<Point>): seq<int> {
    if points == [] then [] else
      var seen := FirstSeen(points[..|points| - 1]);
      var l := Label(points[|points| - 1]);
      if l in seen then seen else seen + [l]
  }

  function TotalsOf(points: seq<Point>, tag: int): Counts {
    Counts(Total(points, tag, Completed), Total(points, tag, Failed), Total(points, tag, Dead))
  }

  // ---------- the code ----------

  function AddTo(c: Counts, p: Point): Counts {
    match p.kind
    case Completed => c.(completed := c.completed + p.count)
    case Failed => c.(failed := c.failed + p.count)
    case Dead => c.(dead := c.dead + p.count)
    case Other => c
  }

  method Collect(points: seq<Point>) returns (buckets: map<int, Counts>, ordered: seq<int>)
    ensures ordered == FirstSeen(points)
    ensures forall k :: 0 <= k < |ordered| ==>
              ordered[k] in buckets && buckets[ordered[k]] == TotalsOf(points, ordered[k])
  {
    buckets, ordered := map[], [];
    var i := 0;
    while i < |points|
      invariant 0 <= i <= |points| && ordered == FirstSeen(points[..i])
      invariant forall k :: 0 <= k < |ordered| ==> ordered[k] in buckets
      invariant forall l :: l in buckets ==> l in ordered
      invariant forall l :: l in buckets ==> buckets[l] == TotalsOf(points[..i], l)
    {
      assert points[..i + 1][..i] == points[..i];
      var p := points[i];
      var tag := Label(p);
      if tag !in buckets {
        UnseenCounts(points[..i], tag);
        buckets := buckets[tag := Counts(0, 0, 0)];
        ordered := ordered + [tag];
      }
      buckets := buckets[tag := AddTo(buckets[tag], p)];
      i := i + 1;
    }
    assert points[..i] == points;
  }

  method BuildChartData(points: seq<Point>)
    returns (labels: array<int>, completed: array<int>, failed: array<int>, dead: array<int>)
    ensures fresh(labels) && fresh(completed) && fresh(failed) && fresh(dead)
    ensures labels.Length == completed.Length == failed.Length == dead.Length == |FirstSeen(points)|
    ensures labels[..] == FirstSeen(points)
    ensures completed[..] == Series(points, FirstSeen(points), Completed)
    ensures failed[..] == Series(points, FirstSeen(points), Failed)
    ensures dead[..] == Series(points, FirstSeen(points), Dead)
  {
    var buckets, ordered := Collect(points);
    var n := |ordered|;
    labels, completed, failed, dead := new int[n], new int[n], new int[n], new int[n];
    Fill(buckets, ordered, labels, completed, failed, dead);
  }

  // The loop over the labels.
  method Fill(buckets: map<int, Counts>, ordered: seq<int>,
              labels: array<int>, completed: array<int>, failed: array<int>, dead: array<int>)
    requires labels.Length == completed.Length == failed.Length == dead.Length == |ordered|
    requires labels != completed && labels != failed && labels != dead
    requires completed != failed && completed != dead && failed != dead
    requires forall k :: 0 <= k < |ordered| ==> ordered[k] in buckets
    modifies labels, completed, failed, dead
    ensures labels[..] == ordered
    ensures forall k :: 0 <= k < |ordered| ==>
              Counts(completed[k], failed[k], dead[k]) == buckets[ordered[k]]
  {
    var i := 0;
    while i < |ordered|
      invariant 0 <= i <= |ordered|
      invariant forall k :: 0 <= k < i ==> labels[k] == ordered[k]
      invariant forall k :: 0 <= k < i ==> Counts(completed[k], failed[k], dead[k]) == buckets[ordered[k]]
    {
      var b := buckets[ordered[i]];
      labels[i] := ordered[i];
      completed[i] := b.completed;
      failed[i] := b.failed;
      dead[i] := b.dead;
      i := i + 1;
    }
  }

  // ---------- what that means ----------

  function Series(points: seq<Point>, labels: seq<int>, kind: Kind): (r: seq<int>)
    ensures |r| == |labels| && forall i :: 0 <= i < |r| ==> r[i] == Total(points, labels[i], kind)
  {
    if labels == [] then [] else
      Series(points, labels[..|labels| - 1], kind) + [Total(points, labels[|labels| - 1], kind)]
  }

  function Sum(s: seq<int>): int { if s == [] then 0 else Sum(s[..|s| - 1]) + s[|s| - 1] }

  lemma UnseenCounts(points: seq<Point>, tag: int)
    requires tag !in FirstSeen(points)
    ensures TotalsOf(points, tag) == Counts(0, 0, 0)
  {
    UnseenTotal(points, tag, Completed);
    UnseenTotal(points, tag, Failed);
    UnseenTotal(points, tag, Dead);
  }

  predicate Distinct(labels: seq<int>) {
    forall i, k :: 0 <= i < k < |labels| ==> labels[i] != labels[k]
  }

  lemma {:induction false} LabelsDistinct(points: seq<Point>)
    ensures Distinct(FirstSeen(points))
  {
    if points == [] {
    } else {
      LabelsDistinct(points[..|points| - 1]);
    }
  }

  /** Labels are distinct, every label occurs, and a label's place is that of its first occurrence. */
  lemma {:induction false} LabelsInOrder(points: seq<Point>)
    ensures Distinct(FirstSeen(points))
    ensures forall i :: 0 <= i < |points| ==> Label(points[i]) in FirstSeen(points)
    ensures forall k :: 0 <= k <= |points| ==> FirstSeen(points[..k]) <= FirstSeen(points)
  {
    if points == [] {
    } else {
      var front := points[..|points| - 1];
      LabelsDistinct(points);
      LabelsInOrder(front);
      forall i | 0 <= i < |points| ensures Label(points[i]) in FirstSeen(points) {
        if i < |front| { assert front[i] == points[i]; }
      }
      forall k | 0 <= k <= |points| ensures FirstSeen(points[..k]) <= FirstSeen(points) {
        if k < |points| { assert front[..k] == points[..k]; } else { assert points[..k] == points; }
      }
    }
  }

  // One more point changes the sum over distinct labels by what it adds to its own label.
  lemma {:induction false} SeriesGrows(front: seq<Point>, p: Point, labels: seq<int>, kind: Kind)
    requires Distinct(labels)
    ensures Sum(Series(front + [p], labels, kind)) ==
            Sum(Series(front, labels, kind)) + if Label(p) in labels && p.kind == kind then p.count else 0
  {
    if labels == [] {
    } else {
      var n := |labels| - 1;
      LastLabel(labels, Label(p));
      SeriesGrows(front, p, labels[..n], kind);
      SeriesSum(front, labels, kind);
      SeriesSum(front + [p], labels, kind);
      TotalGrows(front, p, labels[n], kind);
    }
  }

  lemma LastLabel(labels: seq<int>, l: int)
    requires labels != [] && Distinct(labels)
    ensures var n := |labels| - 1;
            && Distinct(labels[..n]) && labels[n] !in labels[..n]
            && (l in labels <==> l in labels[..n] || l == labels[n])
  {
    var n := |labels| - 1;
    assert labels == labels[..n] + [labels[n]];
  }

  lemma SeriesSum(points: seq<Point>, labels: seq<int>, kind: Kind)
    requires labels != []
    ensures var n := |labels| - 1;
            Sum(Series(points, labels, kind)) == Sum(Series(points, labels[..n], kind)) + Total(points, labels[n], kind)
  {
    var n := |labels| - 1;
    SumSnoc(Series(points, labels[..n], kind), Total(points, labels[n], kind));
  }

  lemma TotalGrows(front: seq<Point>, p: Point, tag: int, kind: Kind)
    ensures Total(front + [p], tag, kind) ==
            Total(front, tag, kind) + if Label(p) == tag && p.kind == kind then p.count else 0
  {
    assert (front + [p])[..|front|] == front;
  }

  lemma SumSnoc(s: seq<int>, x: int)
    ensures Sum(s + [x]) == Sum(s) + x
  {
    assert (s + [x])[..|s|] == s;
  }

  lemma {:induction false} UnseenTotal(points: seq<Point>, tag: int, kind: Kind)
    requires tag !in FirstSeen(points)
    ensures Total(points, tag, kind) == 0
  {
    if points == [] {
    } else {
      UnseenTotal(points[..|points| - 1], tag, kind);
    }
  }

  // A label that appears for the first time brings exactly its own point.
  lemma NewLabel(front: seq<Point>, p: Point, kind: Kind)
    requires Label(p) !in FirstSeen(front)
    ensures Sum(Series(front + [p], FirstSeen(front) + [Label(p)], kind)) ==
            Sum(Series(front, FirstSeen(front), kind)) + if p.kind == kind then p.count else 0
  {
    var seen, l := FirstSeen(front), Label(p);
    UnseenTotal(front, l, kind);
    TotalGrows(front, p, l, kind);
    LabelsDistinct(front);
    SeriesGrows(front, p, seen, kind);
    SeriesSnoc(front + [p], seen, l, kind);
  }

  lemma SeriesSnoc(points: seq<Point>, labels: seq<int>, l: int, kind: Kind)
    ensures Sum(Series(points, labels + [l], kind)) == Sum(Series(points, labels, kind)) + Total(points, l, kind)
  {
    SeriesSum(points, labels + [l], kind);
    assert (labels + [l])[..|labels|] == labels;
  }

  lemma Snoc(front: seq<Point>, p: Point, kind: Kind)
    ensures var seen := FirstSeen(front);
            FirstSeen(front + [p]) == if Label(p) in seen then seen else seen + [Label(p)]
    ensures GrandTotal(front + [p], kind) == GrandTotal(front, kind) + if p.kind == kind then p.count else 0
  {
    assert (front + [p])[..|front|] == front;
  }

  // What the sum over the labels seen so far gains by one more point.
  lemma ConserveStep(front: seq<Point>, p: Point, kind: Kind)
    requires Sum(Series(front, FirstSeen(front), kind)) == GrandTotal(front, kind)
    ensures Sum(Series(front + [p], FirstSeen(front + [p]), kind)) == GrandTotal(front + [p], kind)
  {
    Snoc(front, p, kind);
    if Label(p) in FirstSeen(front) { OldLabel(front, p, kind); } else { NewLabel(front, p, kind); }
  }

  lemma OldLabel(front: seq<Point>, p: Point, kind: Kind)
    requires Label(p) in FirstSeen(front)
    ensures Sum(Series(front + [p], FirstSeen(front), kind)) ==
            Sum(Series(front, FirstSeen(front), kind)) + if p.kind == kind then p.count else 0
  {
    LabelsDistinct(front);
    SeriesGrows(front, p, FirstSeen(front), kind);
  }

  /** Nothing is lost or counted twice: each series adds up to the total of its status, also when
      several buckets share a label. */
  lemma {:induction false} ChartConserves(points: seq<Point>, kind: Kind)
    ensures Sum(Series(points, FirstSeen(points), kind)) == GrandTotal(points, kind)
  {
    if points == [] {
    } else {
      var front := points[..|points| - 1];
      ChartConserves(front, kind);
      ConserveStep(front, points[|points| - 1], kind);
      assert front + [points[|points| - 1]] == points;
    }
  }
}
