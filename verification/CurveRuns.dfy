// The line of the account chart (`dedupeX` and `splitRuns` in
// src/components/charts/AccountPerformanceChart.tsx): points with strictly increasing x, cut into runs of
// recorded and estimated segments.

module CurveRuns {

  datatype Point = Point(x: real, y: real, estimated: bool)

  datatype Run = Run(estimated: bool, points: seq<Point>)

  predicate Sorted(points: seq<Point>) {
    forall i, j :: 0 <= i < j < |points| ==> points[i].x <= points[j].x
  }

  predicate Increasing(points: seq<Point>) {
    forall i, j :: 0 <= i < j < |points| ==> points[i].x < points[j].x
  }

  // ---- dedupeX ------------------------------------------------------------------------------------

  function Deduped(points: seq<Point>): seq<Point> {
    if points == [] then []
    else
      var n := |points| - 1;
      var kept := Deduped(points[..n]);
      if kept != [] && points[n].x <= kept[|kept|-1].x then kept[..|kept|-1] + [points[n]] else kept + [points[n]]
  }

  method DedupeX(points: seq<Point>) returns (result: seq<Point>)
    ensures result == Deduped(points)
  {
    result := [];
    for i := 0 to |points|
      invariant result == Deduped(points[..i])
    {
      assert points[..i+1][..i] == points[..i];
      var point := points[i];
      if |result| > 0 && point.x <= result[|result|-1].x {
        result := result[|result|-1 := point];
      } else {
        result := result + [point];
      }
    }
    assert points[..|points|] == points;
  }

  /** The first point, unless the next one hides it. */
  function Visible(points: seq<Point>): seq<Point>
    requires |points| > 1
  {
    if points[0].x < points[1].x then [points[0]] else []
  }

  /** Of every column the later points hide the earlier ones: the last reading of each x, in order. */
  function LastOfEachColumn(points: seq<Point>): seq<Point> {
    if |points| <= 1 then points else Visible(points) + LastOfEachColumn(points[1..])
  }

  lemma OneBeforeThePoint(points: seq<Point>, p: Point)
    requires |points| == 1
    ensures LastOfEachColumn(points) == points
    ensures LastOfEachColumn(points + [p]) == if points[0].x < p.x then points + [p] else [p]
  {
    assert (points + [p])[1..] == [p];
  }

  lemma FirstInFront(points: seq<Point>)
    requires |points| > 1
    ensures LastOfEachColumn(points) == Visible(points) + LastOfEachColumn(points[1..])
  {
  }

  lemma SameVisible(points: seq<Point>, p: Point)
    requires |points| > 1
    ensures Visible(points + [p]) == Visible(points)
  {
  }

  lemma SameInFront(points: seq<Point>, p: Point)
    requires |points| > 1
    ensures LastOfEachColumn(points) == Visible(points) + LastOfEachColumn(points[1..])
    ensures LastOfEachColumn(points + [p]) == Visible(points) + LastOfEachColumn(points[1..] + [p])
  {
    hide LastOfEachColumn, Visible;
    assert (points + [p])[1..] == points[1..] + [p];
    SameVisible(points, p);
    FirstInFront(points);
    FirstInFront(points + [p]);
  }

  lemma InFront(head: seq<Point>, last: seq<Point>)
    requires last != []
    ensures (head + last)[..|head + last|-1] == head + last[..|last|-1]
    ensures (head + last)[|head + last|-1] == last[|last|-1]
  {
  }

  lemma {:induction false} LastColumnsStep(points: seq<Point>, p: Point)
    requires points != []
    ensures var last := LastOfEachColumn(points);
            && last != [] && last[|last|-1] == points[|points|-1]
            && LastOfEachColumn(points + [p]) == (if points[|points|-1].x < p.x then last else last[..|last|-1]) + [p]
  {
    hide LastOfEachColumn, Visible;
    if |points| == 1 {
      OneBeforeThePoint(points, p);
      assert points[..0] + [p] == [p];
    } else {
      var head, last := Visible(points), LastOfEachColumn(points[1..]);
      LastColumnsStep(points[1..], p);
      SameInFront(points, p);
      InFront(head, last);
      var kept := if points[|points|-1].x < p.x then last else last[..|last|-1];
      assert head + (kept + [p]) == (head + kept) + [p];
    }
  }

  /** Deduping keeps exactly the points with no later one at or left of them right after: the last of each column. */
  lemma {:induction false} DedupedIsLastOfEachColumn(points: seq<Point>)
    ensures Deduped(points) == LastOfEachColumn(points)
  {
    if |points| > 1 {
      var n := |points| - 1;
      var earlier, p := points[..n], points[n];
      assert earlier + [p] == points;
      DedupedIsLastOfEachColumn(earlier);
      LastColumnsStep(earlier, p);
      hide LastOfEachColumn;
      var kept := Deduped(earlier);
      assert Deduped(points) == (if p.x <= earlier[n-1].x then kept[..|kept|-1] else kept) + [p];
    } else if |points| == 1 {
      assert points[..0] == [];
    }
  }

  /** A point that the next one does not hide lies left of everything that follows. */
  predicate StaysBehind(points: seq<Point>) {
    forall i, j :: 0 <= i < j < |points| && points[i].x < points[i+1].x ==> points[i].x < points[j].x
  }

  predicate AllRightOf(x: real, points: seq<Point>) {
    forall i :: 0 <= i < |points| ==> x < points[i].x
  }

  lemma {:induction false} RightOfTheLast(x: real, points: seq<Point>)
    ensures AllRightOf(x, LastOfEachColumn(points)) <==> AllRightOf(x, points)
  {
    if |points| > 1 {
      var rest := points[1..];
      RightOfTheLast(x, rest);
      RightOfCons(x, points[0], rest);
      RightOfCons(x, points[0], LastOfEachColumn(rest));
      assert [points[0]] + rest == points;
      assert [] + LastOfEachColumn(rest) == LastOfEachColumn(rest);
      assert AllRightOf(x, rest) ==> x < rest[0].x;
    }
  }

  lemma RightOfCons(x: real, p: Point, rest: seq<Point>)
    ensures AllRightOf(x, [p] + rest) <==> x < p.x && AllRightOf(x, rest)
  {
    assert AllRightOf(x, [p] + rest) ==> x < ([p] + rest)[0].x;
    forall i | AllRightOf(x, [p] + rest) && 0 <= i < |rest| ensures x < rest[i].x {
      assert ([p] + rest)[i+1] == rest[i];
    }
  }

  lemma IncreasingCons(p: Point, rest: seq<Point>)
    ensures Increasing([p] + rest) <==> AllRightOf(p.x, rest) && Increasing(rest)
  {
    var all := [p] + rest;
    if Increasing(all) {
      forall i | 0 <= i < |rest| ensures p.x < rest[i].x { assert all[0].x < all[i+1].x; }
      forall i, j | 0 <= i < j < |rest| ensures rest[i].x < rest[j].x { assert all[i+1].x < all[j+1].x; }
    }
  }

  lemma BehindTheRest(points: seq<Point>)
    requires |points| > 1 && StaysBehind(points)
    ensures (points[0].x < points[1].x ==> AllRightOf(points[0].x, points[1..])) && StaysBehind(points[1..])
  {
    var rest := points[1..];
    assert forall i :: 0 <= i < |rest| ==> rest[i] == points[i+1];
    forall i | points[0].x < points[1].x && 0 <= i < |rest| ensures points[0].x < rest[i].x {
      assert points[0].x < points[i+1].x;
    }
    forall i, j | 0 <= i < j < |rest| && rest[i].x < rest[i+1].x ensures rest[i].x < rest[j].x {
      var k := i + 1;
      assert points[k].x < points[k+1].x && points[k].x < points[j+1].x;
    }
  }

  lemma BehindAsAWhole(points: seq<Point>)
    requires |points| > 1 && StaysBehind(points[1..])
    requires points[0].x < points[1].x ==> AllRightOf(points[0].x, points[1..])
    ensures StaysBehind(points)
  {
    var rest := points[1..];
    forall i, j | 0 <= i < j < |points| && points[i].x < points[i+1].x ensures points[i].x < points[j].x {
      assert points[j] == rest[j-1];
      if i > 0 {
        var k := i - 1;
        assert rest[k] == points[i] && rest[k+1] == points[i+1];
      }
    }
  }

  lemma StaysBehindCons(points: seq<Point>)
    requires |points| > 1
    ensures StaysBehind(points)
       <==> (points[0].x < points[1].x ==> AllRightOf(points[0].x, points[1..])) && StaysBehind(points[1..])
  {
    hide StaysBehind, AllRightOf;
    if StaysBehind(points) {
      BehindTheRest(points);
    } else if (points[0].x < points[1].x ==> AllRightOf(points[0].x, points[1..])) && StaysBehind(points[1..]) {
      BehindAsAWhole(points);
    }
  }

  lemma {:induction false} LastColumnsIncreaseExactly(points: seq<Point>)
    ensures Increasing(LastOfEachColumn(points)) <==> StaysBehind(points)
  {
    if |points| > 1 {
      var rest := points[1..];
      LastColumnsIncreaseExactly(rest);
      StaysBehindCons(points);
      RightOfTheLast(points[0].x, rest);
      hide StaysBehind, Increasing, AllRightOf;
      if points[0].x < points[1].x {
        IncreasingCons(points[0], LastOfEachColumn(rest));
      } else {
        assert [] + LastOfEachColumn(rest) == LastOfEachColumn(rest);
      }
    }
  }

  /** The result has strictly increasing x if and only if every point that the next one does not hide lies left of
      everything that follows. */
  lemma DedupedIncreasesExactly(points: seq<Point>)
    ensures Increasing(Deduped(points)) <==> StaysBehind(points)
  {
    DedupedIsLastOfEachColumn(points);
    LastColumnsIncreaseExactly(points);
  }

  /** Points in order of x, as the chart draws them, meet the condition; the last point always stays, and nothing is
      made up. */
  lemma DedupedIncreases(points: seq<Point>)
    ensures Sorted(points) ==> Increasing(Deduped(points))
    ensures points != [] ==> Deduped(points) != [] && Deduped(points)[|Deduped(points)|-1] == points[|points|-1]
    ensures forall p :: p in Deduped(points) ==> p in points
  {
    DedupedIncreasesExactly(points);
    assert Sorted(points) ==> StaysBehind(points);
    DedupedKeeps(points);
  }

  lemma {:induction false} DedupedKeeps(points: seq<Point>)
    ensures points != [] ==> Deduped(points) != [] && Deduped(points)[|Deduped(points)|-1] == points[|points|-1]
    ensures forall p :: p in Deduped(points) ==> p in points
  {
    if points != [] {
      var n := |points| - 1;
      var kept := Deduped(points[..n]);
      DedupedKeeps(points[..n]);
      forall p | p in Deduped(points) ensures p in points {
        assert p in kept || p == points[n];
      }
    }
  }

  // ---- splitRuns -----------------------------------------------------------------------------------

  datatype Segment = Segment(from: Point, to: Point)

  function Segments(points: seq<Point>): seq<Segment> {
    if |points| <= 1 then []
    else Segments(points[..|points|-1]) + [Segment(points[|points|-2], points[|points|-1])]
  }

  function AllSegments(runs: seq<Run>): seq<Segment> {
    if runs == [] then [] else AllSegments(runs[..|runs|-1]) + Segments(runs[|runs|-1].points)
  }

  /** At least one segment, every one of them starting at a point of the run's kind. */
  predicate Homogeneous(r: Run) {
    |r.points| >= 2 && forall k :: 0 <= k < |r.points| - 1 ==> r.points[k].estimated == r.estimated
  }

  /** Neighbouring runs are of different kinds and share the point where they meet. */
  predicate Joined(a: Run, b: Run) {
    && a.points != [] && b.points != []
    && a.estimated != b.estimated && a.points[|a.points|-1] == b.points[0]
  }

  /** The runs of a line of two points or more: every segment exactly once, in order. */
  predicate Splits(runs: seq<Run>, points: seq<Point>) {
    && (forall i :: 0 <= i < |runs| ==> Homogeneous(runs[i]))
    && (forall i :: 0 < i < |runs| ==> Joined(runs[i-1], runs[i]))
    && AllSegments(runs) == Segments(points)
    && runs != [] && runs[0].points[..1] == points[..1]
  }

  method SplitRuns(points: seq<Point>) returns (runs: seq<Run>)
    ensures points == [] ==> runs == []
    ensures |points| == 1 ==> runs == [Run(points[0].estimated, points)]
    ensures |points| >= 2 ==> Splits(runs, points)
  {
    hide Splits;
    if |points| == 0 { return []; }
    if |points| == 1 {
      assert [points[0]] == points;
      return [Run(points[0].estimated, [points[0]])];
    }
    runs := [];
    var current := Run(points[0].estimated, [points[0], points[1]]);
    assert points[..2] == [points[0], points[1]];
    OneRun(current);
    var index := 2;
    while index < |points|
      invariant 2 <= index <= |points|
      invariant Splits(runs + [current], points[..index])
      invariant |current.points| >= 2 && current.points[|current.points|-1] == points[index-1]
    {
      var flag := points[index-1].estimated;
      assert points[..index+1] == points[..index] + [points[index]];
      if flag == current.estimated {
        LongerRun(runs, current, points[..index], points[index]);
        current := Run(current.estimated, current.points + [points[index]]);
      } else {
        NextRun(runs, current, points[..index], points[index]);
        runs := runs + [current];
        current := Run(flag, [points[index-1], points[index]]);
      }
      index := index + 1;
    }
    runs := runs + [current];
    assert points[..index] == points;
  }

  lemma OneRun(r: Run)
    requires |r.points| == 2 && r.points[0].estimated == r.estimated
    ensures Splits([] + [r], r.points)
  {
    assert ([] + [r])[..0] == [];
  }

  lemma AddRun(runs: seq<Run>, r: Run)
    ensures AllSegments(runs + [r]) == AllSegments(runs) + Segments(r.points)
  {
    assert (runs + [r])[..|runs|] == runs;
  }

  lemma AddPoint(points: seq<Point>, p: Point)
    requires points != []
    ensures Segments(points + [p]) == Segments(points) + [Segment(points[|points|-1], p)]
  {
    assert (points + [p])[..|points|] == points;
  }

  lemma NotEmpty(r: Run)
    requires Homogeneous(r)
    ensures r.points != []
  {
  }

  lemma LongerIsHomogeneous(r: Run, p: Point)
    requires Homogeneous(r) && r.points[|r.points|-1].estimated == r.estimated
    ensures Homogeneous(Run(r.estimated, r.points + [p]))
  {
  }

  lemma LongerIsJoined(a: Run, r: Run, p: Point)
    requires Joined(a, r)
    ensures Joined(a, Run(r.estimated, r.points + [p]))
  {
  }

  lemma LongerSegments(runs: seq<Run>, r: Run, points: seq<Point>, p: Point)
    requires points != [] && r.points != [] && r.points[|r.points|-1] == points[|points|-1]
    requires AllSegments(runs + [r]) == Segments(points)
    ensures AllSegments(runs + [Run(r.estimated, r.points + [p])]) == Segments(points + [p])
  {
    hide Segments, AllSegments;
    AddRun(runs, r);
    AddRun(runs, Run(r.estimated, r.points + [p]));
    AddPoint(r.points, p);
    AddPoint(points, p);
  }

  lemma LongerBegins(runs: seq<Run>, r: Run, points: seq<Point>, p: Point)
    requires points != [] && r.points != []
    requires (runs + [r])[0].points != [] && (runs + [r])[0].points[..1] == points[..1]
    ensures (runs + [Run(r.estimated, r.points + [p])])[0].points[..1] == (points + [p])[..1]
  {
    assert (points + [p])[..1] == points[..1] && (r.points + [p])[..1] == r.points[..1];
  }

  /** One point more, of a segment of the last run's kind: the last run grows. */
  lemma LongerRun(runs: seq<Run>, r: Run, points: seq<Point>, p: Point)
    requires |points| >= 2 && Splits(runs + [r], points)
    requires r.points != [] && r.points[|r.points|-1] == points[|points|-1]
    requires points[|points|-1].estimated == r.estimated
    ensures Splits(runs + [Run(r.estimated, r.points + [p])], points + [p])
  {
    hide Homogeneous, Joined, Segments, AllSegments;
    var was, longer := runs + [r], Run(r.estimated, r.points + [p]);
    var now := runs + [longer];
    assert was[|runs|] == r;
    LongerSegments(runs, r, points, p);
    NotEmpty(was[0]);
    LongerBegins(runs, r, points, p);
    LongerIsHomogeneous(r, p);
    forall i | 0 <= i < |now| ensures Homogeneous(now[i]) {
      assert Homogeneous(was[i]);
      assert i < |runs| ==> now[i] == was[i];
    }
    forall i | 0 < i < |now| ensures Joined(now[i-1], now[i]) {
      assert Joined(was[i-1], was[i]) && now[i-1] == was[i-1];
      if i == |runs| { LongerIsJoined(was[i-1], r, p); } else { assert now[i] == was[i]; }
    }
  }

  /** One point more, of a segment of the other kind: a new run begins where the last one ends. */
  lemma NextRun(runs: seq<Run>, r: Run, points: seq<Point>, p: Point)
    requires |points| >= 2 && Splits(runs + [r], points)
    requires r.points[|r.points|-1] == points[|points|-1] && points[|points|-1].estimated != r.estimated
    ensures Splits(runs + [r] + [Run(points[|points|-1].estimated, [points[|points|-1], p])], points + [p])
  {
    var was, last := runs + [r], points[|points|-1];
    var next := Run(last.estimated, [last, p]);
    assert was[|runs|] == r;
    AddRun(was, next);
    AddPoint(points, p);
    AddPoint([last], p);
    assert [last] + [p] == next.points;
    assert Segments([last]) == [];
    var now := was + [next];
    forall i | 0 <= i < |now| ensures Homogeneous(now[i]) {
      if i < |was| { assert Homogeneous(was[i]); }
    }
    forall i | 0 < i < |now| ensures Joined(now[i-1], now[i]) {
      if i < |was| { assert Joined(was[i-1], was[i]); }
    }
    assert now[0] == was[0] && (points + [p])[..1] == points[..1];
  }

  ghost predicate InSome(runs: seq<Run>, s: Segment) {
    exists i :: 0 <= i < |runs| && s in Segments(runs[i].points)
  }

  lemma InSomeMore(runs: seq<Run>, r: Run, s: Segment)
    ensures InSome(runs + [r], s) <==> InSome(runs, s) || s in Segments(r.points)
  {
    hide Segments;
    var all := runs + [r];
    assert all[|runs|] == r;
    if InSome(runs, s) {
      var i :| 0 <= i < |runs| && s in Segments(runs[i].points);
      assert all[i] == runs[i];
    }
    if InSome(all, s) {
      var i :| 0 <= i < |all| && s in Segments(all[i].points);
      assert i < |runs| ==> all[i] == runs[i];
    }
  }

  lemma {:induction false} SegmentsOfRuns(runs: seq<Run>, s: Segment)
    ensures s in AllSegments(runs) <==> InSome(runs, s)
  {
    if runs != [] {
      var n := |runs| - 1;
      SegmentsOfRuns(runs[..n], s);
      InSomeMore(runs[..n], runs[n], s);
      assert runs[..n] + [runs[n]] == runs;
      hide InSome, Segments;
    }
  }

  predicate Rising(segments: seq<Segment>) {
    forall s :: s in segments ==> s.from.x < s.to.x
  }

  /** A line has strictly increasing x exactly when every segment of it rises. */
  lemma {:induction false} IncreasingIsRising(points: seq<Point>)
    ensures Increasing(points) <==> Rising(Segments(points))
  {
    if |points| > 1 {
      var n := |points| - 1;
      var earlier := points[..n];
      var last := Segment(points[n-1], points[n]);
      IncreasingIsRising(earlier);
      assert Segments(points) == Segments(earlier) + [last];
      assert last in Segments(points);
      if Increasing(earlier) && points[n-1].x < points[n].x {
        forall i, j | 0 <= i < j < |points| ensures points[i].x < points[j].x {
          if j == n && i < n - 1 { assert earlier[i].x < earlier[n-1].x; }
          if j < n { assert earlier[i].x < earlier[j].x; }
        }
      }
      if Increasing(points) {
        forall i, j | 0 <= i < j < n ensures earlier[i].x < earlier[j].x { assert points[i].x < points[j].x; }
      }
    }
  }

  /** The runs rise exactly when the line does. */
  lemma RunsRiseWithTheLine(runs: seq<Run>, line: seq<Point>)
    requires AllSegments(runs) == Segments(line)
    ensures (forall i :: 0 <= i < |runs| ==> Increasing(runs[i].points)) <==> Increasing(line)
  {
    hide Increasing, Segments, AllSegments;
    IncreasingIsRising(line);
    forall i | 0 <= i < |runs| ensures Increasing(runs[i].points) <==> Rising(Segments(runs[i].points)) {
      IncreasingIsRising(runs[i].points);
    }
    forall s ensures s in Segments(line) <==> InSome(runs, s) {
      SegmentsOfRuns(runs, s);
    }
  }

  /** The line of the chart: the runs of the deduped points. */
  method ChartRuns(points: seq<Point>) returns (runs: seq<Run>)
    ensures |Deduped(points)| >= 2 ==> Splits(runs, Deduped(points))
    ensures (forall i :: 0 <= i < |runs| ==> Increasing(runs[i].points)) <==> StaysBehind(points)
  {
    var deduped := DedupeX(points);
    runs := SplitRuns(deduped);
    DedupedIncreasesExactly(points);
    hide StaysBehind;
    if |deduped| >= 2 { RunsRiseWithTheLine(runs, deduped); }
  }
}
