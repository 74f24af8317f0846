/**
 * The registry of rectangle tools: an ordered list (later entries are drawn
 * on top), the rectangle being drawn, and hit-testing against an
 * inside-or-near-an-edge test of the axis-aligned box the two points span.
 */
module RectManagers {
  import opened Wrappers
  import opened ChartTypes
  import opened RectTools

  function Min(a: real, b: real): real { if a <= b then a else b }
  function Max(a: real, b: real): real { if a <= b then b else a }

  /** How far `v` lies outside the closed range `[lo, hi]` (0 inside it). */
  function DistanceToRange(v: real, lo: real, hi: real): (d: real)
    requires lo <= hi
    ensures d >= 0.0
    ensures d == 0.0 <==> lo <= v <= hi
  {
    if v < lo then lo - v else if v > hi then v - hi else 0.0
  }

  /** The point lies in the closed box spanned by `start` and `end`. */
  predicate InsideBox(x: real, y: real, start: Point, end: Point) {
    && Min(start.x, end.x) <= x <= Max(start.x, end.x)
    && Min(start.y, end.y) <= y <= Max(start.y, end.y)
  }

  /**
   * `isPointNearRect`: inside the normalised box, or within `threshold` of a
   * horizontal edge while between the left and right edges, or within
   * `threshold` of a vertical edge while between the top and bottom edges.
   */
  function IsPointNearRect(x: real, y: real, start: Point, end: Point, threshold: real): (r: bool)
    ensures InsideBox(x, y, start, end) ==> r
    ensures r && !InsideBox(x, y, start, end) ==>
      && Min(start.x, end.x) - threshold <= x <= Max(start.x, end.x) + threshold
      && Min(start.y, end.y) - threshold <= y <= Max(start.y, end.y) + threshold
    ensures threshold < 0.0 ==> (r <==> InsideBox(x, y, start, end))
  {
    var left := Min(start.x, end.x);
    var right := Max(start.x, end.x);
    var top := Min(start.y, end.y);
    var bottom := Max(start.y, end.y);
    var isInside := x >= left && x <= right && y >= top && y <= bottom;
    if isInside then true
    else
      var nearHorizontalEdge := (y >= top - threshold && y <= top + threshold)
                             || (y >= bottom - threshold && y <= bottom + threshold);
      var nearVerticalEdge := (x >= left - threshold && x <= left + threshold)
                           || (x >= right - threshold && x <= right + threshold);
      (x >= left && x <= right && nearHorizontalEdge) || (y >= top && y <= bottom && nearVerticalEdge)
  }

  /**
   * The hit region as distances: inside, or laterally within one axis of the
   * box and at most `threshold` away from it along the other.
   */
  lemma RectHitByDistance(x: real, y: real, start: Point, end: Point, threshold: real)
    ensures IsPointNearRect(x, y, start, end, threshold) <==>
      || InsideBox(x, y, start, end)
      || (Min(start.x, end.x) <= x <= Max(start.x, end.x)
          && DistanceToRange(y, Min(start.y, end.y), Max(start.y, end.y)) <= threshold)
      || (Min(start.y, end.y) <= y <= Max(start.y, end.y)
          && DistanceToRange(x, Min(start.x, end.x), Max(start.x, end.x)) <= threshold)
  {
  }

  /** Only the box matters: swapping the corners, or their non-pixel fields, changes nothing. */
  lemma RectHitSymmetric(x: real, y: real, start: Point, end: Point, threshold: real)
    ensures IsPointNearRect(x, y, start, end, threshold) == IsPointNearRect(x, y, end, start, threshold)
    ensures IsPointNearRect(x, y, start, end, threshold)
         == IsPointNearRect(x, y, Point(start.x, start.y, None, None, None, None, None), Point(end.x, end.y, None, None, None, None, None), threshold)
  {
  }

  /** A point diagonally outside a corner (beyond both a vertical and a horizontal edge) is a miss. */
  lemma RectCornerMiss(x: real, y: real, start: Point, end: Point, threshold: real)
    requires x < Min(start.x, end.x) || x > Max(start.x, end.x)
    requires y < Min(start.y, end.y) || y > Max(start.y, end.y)
    ensures !IsPointNearRect(x, y, start, end, threshold)
  {
  }

  /** A wider threshold never loses a hit. */
  lemma RectHitMonotone(x: real, y: real, start: Point, end: Point, t1: real, t2: real)
    requires t1 <= t2
    ensures IsPointNearRect(x, y, start, end, t1) ==> IsPointNearRect(x, y, start, end, t2)
  {
  }

  /** The tool's current points exist and the position hits its box. */
  predicate RectHit(t: RectTool, x: real, y: real, threshold: real)
    reads t
  {
    var points := t.GetPoints();
    points.0.Some? && points.1.Some? && IsPointNearRect(x, y, points.0.value, points.1.value, threshold)
  }

  class RectManager {
    var rectangles: seq<RectTool>
    var currentRect: RectTool?
    ghost var Repr: set<object>

    /** A tool this manager owns: valid and inside the footprint, which does not reach back to the manager. */
    ghost predicate Owns(t: RectTool)
      reads this, Repr
    {
      t in Repr && t.Repr <= Repr && this !in t.Repr && t.Valid()
    }

    ghost predicate Valid()
      reads this, Repr
    {
      && this in Repr
      && (forall i :: 0 <= i < |rectangles| ==> Owns(rectangles[i]))
      && (forall i, j :: 0 <= i < j < |rectangles| ==> rectangles[i].Repr !! rectangles[j].Repr)
      && (currentRect != null ==>
            && Owns(currentRect)
            && (forall i :: 0 <= i < |rectangles| && rectangles[i] != currentRect ==>
                  rectangles[i].Repr !! currentRect.Repr))
    }

    constructor ()
      ensures Valid() && fresh(Repr)
      ensures rectangles == [] && currentRect == null
    {
      rectangles := [];
      currentRect := null;
      Repr := {this};
    }

    /** `startNewRect`: the new tool is appended on top and becomes the current one. */
    method StartNewRect(options: Options) returns (rect: RectTool)
      requires Valid()
      modifies this
      ensures Valid() && fresh(Repr - old(Repr))
      ensures fresh(rect) && rect.State() == RectInitial(options)
      ensures rectangles == old(rectangles) + [rect] && currentRect == rect
      ensures |rectangles| == |old(rectangles)| + 1 && rectangles[|rectangles| - 1] == rect
    {
      rect := new RectTool(options);
      rectangles := rectangles + [rect];
      currentRect := rect;
      Repr := Repr + rect.Repr;
    }

    /** `finishCurrentRect`: without a point, or without a current rectangle, nothing happens. */
    method FinishCurrentRect(point: Option<Point>)
      requires Valid()
      modifies Repr
      ensures Valid() && Repr == old(Repr)
      ensures rectangles == old(rectangles)
      ensures old(currentRect) != null && point.Some? ==>
        currentRect == null && old(currentRect).State() == RectStop(old(currentRect.State()), point.value)
      ensures !(old(currentRect) != null && point.Some?) ==>
        currentRect == old(currentRect) && (currentRect != null ==> currentRect.State() == old(currentRect.State()))
      ensures forall i :: 0 <= i < |rectangles| && rectangles[i] != old(currentRect) ==>
        rectangles[i].State() == old(rectangles[i].State())
    {
      if currentRect != null && point.Some? {
        currentRect.Stop(point.value);
        currentRect := null;
      }
    }

    /** `getRectAtPosition`: the topmost (highest-index) rectangle hit, or -1. */
    method GetRectAtPosition(x: real, y: real, threshold: real) returns (index: int)
      ensures -1 <= index < |rectangles|
      ensures index >= 0 ==> RectHit(rectangles[index], x, y, threshold)
      ensures forall j :: index < j < |rectangles| ==> !RectHit(rectangles[j], x, y, threshold)
    {
      var i := |rectangles| - 1;
      while i >= 0
        invariant -1 <= i < |rectangles|
        invariant forall j :: i < j < |rectangles| ==> !RectHit(rectangles[j], x, y, threshold)
        decreases i
      {
        var points := rectangles[i].GetPoints();
        if points.0.Some? && points.1.Some? {
          if IsPointNearRect(x, y, points.0.value, points.1.value, threshold) {
            return i;
          }
        }
        i := i - 1;
      }
      return -1;
    }

    /** `removeRect`: an index out of range changes nothing. */
    method RemoveRect(index: int)
      requires Valid()
      modifies Repr
      ensures Valid() && Repr == old(Repr)
      ensures currentRect == old(currentRect)
      ensures 0 <= index < |old(rectangles)| ==>
        && rectangles == old(rectangles[..index] + rectangles[index + 1..])
        && old(rectangles[index]).State() == RectRemove(old(rectangles[index].State()))
      ensures !(0 <= index < |old(rectangles)|) ==> rectangles == old(rectangles)
      ensures forall i :: 0 <= i < |old(rectangles)| && i != index ==>
        old(rectangles)[i].State() == old(rectangles[i].State())
    {
      if 0 <= index < |rectangles| {
        var victim := rectangles[index];
        victim.Remove();
        var rest := rectangles[..index] + rectangles[index + 1..];
        assert forall k :: 0 <= k < |rest| ==> rest[k] == rectangles[if k < index then k else k + 1];
        rectangles := rest;
      }
    }

    /** `removeAllRects`: every listed tool is removed, the list emptied and the current slot cleared. */
    method RemoveAllRects()
      requires Valid()
      modifies Repr
      ensures Valid()
      ensures rectangles == [] && currentRect == null
      ensures forall i :: 0 <= i < |old(rectangles)| ==>
        old(rectangles)[i].State() == RectRemove(old(rectangles[i].State()))
    {
      for i := 0 to |rectangles|
        invariant Valid() && Repr == old(Repr)
        invariant rectangles == old(rectangles) && currentRect == old(currentRect)
        invariant forall j :: 0 <= j < i ==> rectangles[j].State() == RectRemove(old(rectangles[j].State()))
        invariant forall j :: i <= j < |rectangles| ==> rectangles[j].State() == old(rectangles[j].State())
      {
        rectangles[i].Remove();
      }
      rectangles := [];
      currentRect := null;
    }

    /** `updateRect`: merge the options, then replay the tool's own points to redraw it. */
    method UpdateRect(index: int, newOptions: Options)
      requires Valid()
      modifies Repr
      ensures Valid() && Repr == old(Repr)
      ensures rectangles == old(rectangles) && currentRect == old(currentRect)
      ensures 0 <= index < |rectangles| ==>
        rectangles[index].State() == RectRefresh(RectUpdateOptions(old(rectangles[index].State()), newOptions))
      ensures forall i :: 0 <= i < |rectangles| && i != index ==>
        rectangles[i].State() == old(rectangles[i].State())
      ensures currentRect != null && (index < 0 || index >= |rectangles| || currentRect != rectangles[index]) ==>
        currentRect.State() == old(currentRect.State())
    {
      if 0 <= index < |rectangles| {
        var rect := rectangles[index];
        rect.UpdateOptions(newOptions);
        var points := rect.GetPoints();
        if points.0.Some? && points.1.Some? {
          rect.Start(points.0.value);
          rect.Stop(points.1.value);
        }
      }
    }
  }

  /** The registry scenario: a rectangle over the pixel box (10,10)-(50,50) is hit inside and missed far away. */
  lemma RectScenario()
    ensures IsPointNearRect(30.0, 30.0, Point(10.0, 10.0, None, None, None, None, None), Point(50.0, 50.0, None, None, None, None, None), 5.0)
    ensures !IsPointNearRect(200.0, 200.0, Point(10.0, 10.0, None, None, None, None, None), Point(50.0, 50.0, None, None, None, None, None), 5.0)
  {
  }
}
