/**
 The cost/accuracy frontier drawn by the dashboard: a stable sort by spend and one sweep
 (dashboard/dashboard.js:1776-1785).
 */
module Frontier {
  import opened StableSort

  datatype Point = Point(id: string, spend: real, accuracy: real)

  /** One command of the drawn path; the first moves, the others draw a line. */
  datatype Segment = MoveTo(point: Point) | LineTo(point: Point)

  const SPEND := (p: Point) => p.spend

  function SortBySpend(s: seq<Point>): seq<Point> {
    SortBy(s, SPEND)
  }

  ghost predicate BySpend(s: seq<Point>) {
    InOrder(s, SPEND)
  }

  // --- the sweep ---------------------------------------------------------------------------------

  /** Nothing before the i-th point is strictly more accurate; the sweep starts at accuracy -1. */
  predicate OnFrontier(s: seq<Point>, i: nat)
    requires i < |s|
  {
    s[i].accuracy >= -1.0 && forall j :: 0 <= j < i ==> s[j].accuracy <= s[i].accuracy
  }

  /** The points on the frontier, in order. */
  function Frontier(s: seq<Point>): seq<Point> {
    if s == [] then [] else
      Frontier(s[..|s| - 1]) + if OnFrontier(s, |s| - 1) then [s[|s| - 1]] else []
  }

  function Draw(path: seq<Point>): (d: seq<Segment>)
    ensures |d| == |path|
  {
    seq(|path|, i requires 0 <= i < |path| => if i == 0 then MoveTo(path[i]) else LineTo(path[i]))
  }

  /** The loop of the dashboard: it keeps the highest accuracy so far. */
  method DrawFrontier(points: seq<Point>) returns (d: seq<Segment>)
    ensures d == Draw(Frontier(SortBySpend(points)))
  {
    hide OnFrontier, Frontier, Draw;
    var sorted := SortBySpend(points);
    d := [];
    var highest := -1.0;
    NothingDrawn(sorted);
    for i := 0 to |sorted|
      invariant highest >= -1.0 && forall j :: 0 <= j < i ==> sorted[j].accuracy <= highest
      invariant highest == -1.0 || exists j :: 0 <= j < i && sorted[j].accuracy == highest
      invariant d == Draw(Frontier(sorted[..i]))
    {
      var p := sorted[i];
      SamePrefix(sorted, i, highest);
      FrontierStep(sorted, i);
      if p.accuracy >= highest {
        d := d + [if d == [] then MoveTo(p) else LineTo(p)];
        highest := p.accuracy;
      }
    }
    assert sorted[..|sorted|] == sorted;
  }

  lemma NothingDrawn(s: seq<Point>)
    ensures Draw(Frontier(s[..0])) == []
  {
  }

  lemma FrontierStep(s: seq<Point>, i: nat)
    requires i < |s|
    ensures var d := Draw(Frontier(s[..i]));
            Draw(Frontier(s[..i + 1]))
            == if OnFrontier(s[..i + 1], i) then d + [if d == [] then MoveTo(s[i]) else LineTo(s[i])] else d
  {
    hide OnFrontier;
    assert s[..i + 1][..i] == s[..i];
  }

  lemma SamePrefix(s: seq<Point>, i: nat, highest: real)
    requires i < |s| && highest >= -1.0 && forall j :: 0 <= j < i ==> s[j].accuracy <= highest
    requires highest == -1.0 || exists j :: 0 <= j < i && s[j].accuracy == highest
    ensures OnFrontier(s[..i + 1], i) <==> s[i].accuracy >= highest
  {
    var t := s[..i + 1];
    assert forall j :: 0 <= j <= i ==> t[j] == s[j];
    if highest != -1.0 {
      var j :| 0 <= j < i && s[j].accuracy == highest;
      assert t[j].accuracy == highest;
    }
  }

  // --- what the frontier means -------------------------------------------------------------------

  lemma PrefixFrontier(s: seq<Point>, n: nat, i: nat)
    requires i < n <= |s|
    ensures OnFrontier(s[..n], i) <==> OnFrontier(s, i)
  {
    assert forall j :: 0 <= j < n ==> s[..n][j] == s[j];
  }

  ghost predicate Drawn(s: seq<Point>, p: Point) {
    exists i :: 0 <= i < |s| && s[i] == p && OnFrontier(s, i)
  }

  lemma DrawnInPrefix(s: seq<Point>, p: Point)
    requires s != []
    ensures Drawn(s, p) <==> Drawn(s[..|s| - 1], p) || (s[|s| - 1] == p && OnFrontier(s, |s| - 1))
  {
    hide OnFrontier;
    var n := |s| - 1;
    if Drawn(s[..n], p) {
      var i :| 0 <= i < n && s[..n][i] == p && OnFrontier(s[..n], i);
      PrefixFrontier(s, n, i);
      assert s[i] == p;
    }
    if i :| 0 <= i < n && s[i] == p && OnFrontier(s, i) {
      PrefixFrontier(s, n, i);
      assert s[..n][i] == p;
    }
  }

  /** Exactly the points with `OnFrontier` are drawn. */
  lemma {:induction false} FrontierMembers(s: seq<Point>, p: Point)
    ensures p in Frontier(s) <==> Drawn(s, p)
  {
    hide OnFrontier;
    if s != [] {
      hide Drawn;
      FrontierMembers(s[..|s| - 1], p);
      DrawnInPrefix(s, p);
    }
  }

  ghost predicate Rises(f: seq<Point>) {
    forall i, j :: 0 <= i < j < |f| ==> f[i].spend <= f[j].spend && f[i].accuracy <= f[j].accuracy
  }

  /** Along the path neither spend nor accuracy ever decreases. */
  lemma {:induction false} FrontierRises(s: seq<Point>)
    requires BySpend(s)
    ensures Rises(Frontier(s))
  {
    if s != [] {
      var n := |s| - 1;
      FrontierRises(s[..n]);
      var f := Frontier(s[..n]);
      forall i | 0 <= i < |f| && OnFrontier(s, n) ensures f[i].spend <= s[n].spend && f[i].accuracy <= s[n].accuracy {
        FrontierMembers(s[..n], f[i]);
        var k :| 0 <= k < n && s[..n][k] == f[i];
        assert s[k] == f[i];
      }
    }
  }

  /** A point left out (of accuracy at least -1) is beaten by a drawn point at no greater spend. */
  lemma {:induction false} LeftOutIsBeaten(s: seq<Point>, i: nat) returns (k: nat)
    requires BySpend(s) && i < |s| && !OnFrontier(s, i) && s[i].accuracy >= -1.0
    ensures k < i && OnFrontier(s, k) && s[k].spend <= s[i].spend && s[k].accuracy > s[i].accuracy
    decreases i
  {
    k :| 0 <= k < i && s[k].accuracy > s[i].accuracy;
    if !OnFrontier(s, k) {
      k := LeftOutIsBeaten(s, k);
    }
  }

  ghost predicate Beats(q: Point, p: Point) {
    q.spend <= p.spend && q.accuracy > p.accuracy
  }

  lemma DrawnIsUnbeaten(points: seq<Point>, p: Point, q: Point)
    requires p in Frontier(SortBySpend(points)) && q in points
    ensures p in points && p.accuracy >= -1.0 && !(q.spend < p.spend && q.accuracy > p.accuracy)
  {
    hide Frontier, SortBy;
    var s := SortBySpend(points);
    SortIsStable(points, SPEND, 0.0);
    FrontierMembers(s, p);
    SortKeepsElements(points, SPEND, p);
    SortKeepsElements(points, SPEND, q);
    var i :| 0 <= i < |s| && s[i] == p && OnFrontier(s, i);
    var j :| 0 <= j < |s| && s[j] == q;
  }

  lemma UndrawnIsBeaten(points: seq<Point>, p: Point) returns (q: Point)
    requires p in points && p.accuracy >= -1.0 && p !in Frontier(SortBySpend(points))
    ensures q in Frontier(SortBySpend(points)) && Beats(q, p)
  {
    hide Frontier, SortBy;
    var s := SortBySpend(points);
    SortIsStable(points, SPEND, 0.0);
    SortKeepsElements(points, SPEND, p);
    FrontierMembers(s, p);
    var i :| 0 <= i < |s| && s[i] == p;
    var k := LeftOutIsBeaten(s, i);
    q := s[k];
    FrontierMembers(s, q);
  }

  /** The frontier of any points: the path moves to its first point and draws lines from there; it rises; every point
      of accuracy at least -1 that is not drawn is beaten by one that is; no drawn point is both dearer and less
      accurate than another. */
  lemma FrontierIsSound(points: seq<Point>)
    ensures var f := Frontier(SortBySpend(points));
            && Rises(f)
            && (forall p :: p in f ==> p in points && p.accuracy >= -1.0)
            && (forall p, q :: p in f && q in points ==> !(q.spend < p.spend && q.accuracy > p.accuracy))
            && (forall p :: p in points && p.accuracy >= -1.0 && p !in f ==> exists q :: q in f && Beats(q, p))
            && |Draw(f)| == |f|
            && (forall i :: 0 <= i < |f| ==> Draw(f)[i].point == f[i] && (Draw(f)[i].MoveTo? <==> i == 0))
  {
    hide Frontier, SortBy, Beats;
    var f := Frontier(SortBySpend(points));
    SortIsStable(points, SPEND, 0.0);
    FrontierRises(SortBySpend(points));
    forall p | p in f ensures p in points && p.accuracy >= -1.0 {
      FrontierMembers(SortBySpend(points), p);
      SortKeepsElements(points, SPEND, p);
    }
    forall p, q | p in f && q in points ensures !(q.spend < p.spend && q.accuracy > p.accuracy) {
      DrawnIsUnbeaten(points, p, q);
    }
    forall p | p in points && p.accuracy >= -1.0 && p !in f ensures exists q :: q in f && Beats(q, p) {
      var q := UndrawnIsBeaten(points, p);
    }
  }

  ghost predicate DistinctSpends(points: seq<Point>) {
    forall p, q :: p in points && q in points && p.spend == q.spend ==> p == q
  }

  /** With distinct spends a point is drawn exactly when no cheaper point is more accurate. */
  lemma DrawnIffNoCheaperIsMoreAccurate(points: seq<Point>, p: Point)
    requires DistinctSpends(points) && p in points
    ensures p in Frontier(SortBySpend(points)) <==>
            p.accuracy >= -1.0 && forall q :: q in points && q.spend < p.spend ==> q.accuracy <= p.accuracy
  {
    hide Frontier, SortBy;
    FrontierIsSound(points);
    var f := Frontier(SortBySpend(points));
    if p.accuracy >= -1.0 && p !in f {
      var q :| q in f && Beats(q, p);
      assert q in points;
    }
  }
}
