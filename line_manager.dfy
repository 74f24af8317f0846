/**
 * The registry of finished lines: the draft line being drawn with the start
 * point saved for it, the saved lines with the anchors they were finished
 * at, the segment hit test, and the refresh that moves every saved line back
 * onto its anchors when the chart scrolls.
 */
module LineManagers {
  import opened Wrappers
  import opened ChartTypes
  import opened LineTools

  /* ---------------------------------------------------------------------- */
  /* Real arithmetic used by the hit test                                    */
  /* ---------------------------------------------------------------------- */

  lemma MulNonNeg(p: real, q: real)
    requires p >= 0.0 && q >= 0.0
    ensures p * q >= 0.0
  {
  }

  lemma MulNonPos(p: real, q: real)
    requires p <= 0.0 && q <= 0.0
    ensures p * q >= 0.0
  {
    MulNonNeg(-p, -q);
    assert (-p) * (-q) == p * q;
  }

  lemma MulMixed(p: real, q: real)
    requires p <= 0.0 && q >= 0.0
    ensures p * q <= 0.0
  {
    MulNonNeg(-p, q);
    assert (-p) * q == -(p * q);
  }

  lemma SqNonNeg(p: real)
    ensures p * p >= 0.0
  {
    if p >= 0.0 { MulNonNeg(p, p); } else { MulNonPos(p, p); }
  }

  /* ---------------------------------------------------------------------- */
  /* The segment hit test                                                    */
  /* ---------------------------------------------------------------------- */

  /**
   * `Math.sqrt(d2) < tolerance` for a squared distance `d2 >= 0`, without the
   * square root: the tolerance is positive and exceeds the distance.
   */
  predicate SqrtBelow(d2: real, tolerance: real) {
    tolerance > 0.0 && d2 < tolerance * tolerance
  }

  /** The squared pixel length of the segment, `len_sq`. */
  function LenSq(start: Point, end: Point): real {
    (end.x - start.x) * (end.x - start.x) + (end.y - start.y) * (end.y - start.y)
  }

  /** `isPointNearLine`: distance from `(x, y)` to the clamped projection onto the segment. */
  function IsPointNearLine(x: real, y: real, start: Point, end: Point, tolerance: real): bool {
    var a := x - start.x;
    var b := y - start.y;
    var c := end.x - start.x;
    var d := end.y - start.y;
    var dot := a * c + b * d;
    var lenSq := c * c + d * d;
    // a zero-length segment makes `param` 0/0, a NaN, and every comparison with it false
    if lenSq == 0.0 then false
    else
      var param := dot / lenSq;
      var xx := if param < 0.0 then start.x else if param > 1.0 then end.x else start.x + param * c;
      var yy := if param < 0.0 then start.y else if param > 1.0 then end.y else start.y + param * d;
      var dx := x - xx;
      var dy := y - yy;
      SqrtBelow(dx * dx + dy * dy, tolerance)
  }

  /** The squared distance from `(x, y)` to the point at fraction `l` along the segment. */
  function SegDistSq(x: real, y: real, start: Point, end: Point, l: real): real {
    var px := start.x + l * (end.x - start.x);
    var py := start.y + l * (end.y - start.y);
    (x - px) * (x - px) + (y - py) * (y - py)
  }

  /** The projection parameter `param` of the code, on a segment of non-zero length. */
  function Param(x: real, y: real, start: Point, end: Point): real {
    var len := LenSq(start, end);
    if len == 0.0 then 0.0 else Dot(x, y, start, end) / len
  }

  function Dot(x: real, y: real, start: Point, end: Point): real {
    (x - start.x) * (end.x - start.x) + (y - start.y) * (end.y - start.y)
  }

  function DistSqToStart(x: real, y: real, start: Point): real {
    (x - start.x) * (x - start.x) + (y - start.y) * (y - start.y)
  }

  function Clamp(v: real): real {
    if v < 0.0 then 0.0 else if v > 1.0 then 1.0 else v
  }

  /** The squared distance along the segment as a quadratic in the fraction `l`. */
  function Quadratic(w: real, dot: real, len: real, l: real): real {
    w - 2.0 * l * dot + l * l * len
  }

  lemma SegDistSqIsQuadratic(x: real, y: real, start: Point, end: Point, l: real)
    ensures SegDistSq(x, y, start, end, l)
         == Quadratic(DistSqToStart(x, y, start), Dot(x, y, start, end), LenSq(start, end), l)
  {
    var a, b, c, d := x - start.x, y - start.y, end.x - start.x, end.y - start.y;
    assert x - (start.x + l * c) == a - l * c;
    assert y - (start.y + l * d) == b - l * d;
  }

  lemma QuadraticDiff(w: real, dot: real, len: real, l: real, m: real)
    ensures Quadratic(w, dot, len, l) - Quadratic(w, dot, len, m) == (l - m) * ((l + m) * len - 2.0 * dot)
  {
  }

  /** An unclamped projection is the minimum of the quadratic. */
  lemma InteriorIsClosest(w: real, dot: real, len: real, l: real)
    requires len > 0.0
    ensures Quadratic(w, dot, len, l) >= Quadratic(w, dot, len, dot / len)
  {
    var m := dot / len;
    assert dot == m * len;
    QuadraticDiff(w, dot, len, l, m);
    assert (l + m) * len - 2.0 * dot == (l - m) * len;
    SqNonNeg(l - m);
    MulNonNeg((l - m) * (l - m), len);
    assert (l - m) * ((l - m) * len) == (l - m) * (l - m) * len;
  }

  /** A projection before the start leaves the start closest on the segment. */
  lemma StartIsClosest(w: real, dot: real, len: real, l: real)
    requires len > 0.0 && dot < 0.0 && 0.0 <= l
    ensures Quadratic(w, dot, len, l) >= Quadratic(w, dot, len, 0.0)
  {
    QuadraticDiff(w, dot, len, l, 0.0);
    MulNonNeg(l, len);
    MulNonNeg(l, l * len - 2.0 * dot);
    assert (l - 0.0) * ((l + 0.0) * len - 2.0 * dot) == l * (l * len - 2.0 * dot);
  }

  /** A projection past the end leaves the end closest on the segment. */
  lemma EndIsClosest(w: real, dot: real, len: real, l: real)
    requires len > 0.0 && dot > len && l <= 1.0
    ensures Quadratic(w, dot, len, l) >= Quadratic(w, dot, len, 1.0)
  {
    QuadraticDiff(w, dot, len, l, 1.0);
    if l >= -1.0 {
      MulNonNeg(1.0 - l, len);
      assert (l + 1.0) * len <= 2.0 * len;
    } else {
      MulMixed(l + 1.0, len);
    }
    MulNonPos(l - 1.0, (l + 1.0) * len - 2.0 * dot);
  }

  lemma ParamSign(dot: real, len: real)
    requires len > 0.0
    ensures dot / len < 0.0 <==> dot < 0.0
    ensures dot / len > 1.0 <==> dot > len
  {
    var m := dot / len;
    assert dot == m * len;
    if m < 0.0 { MulMixed(m, len); }
    if m > 1.0 { MulNonNeg(m - 1.0, len); }
    if dot < 0.0 && m >= 0.0 { MulNonNeg(m, len); }
    if dot > len && m <= 1.0 { MulNonNeg(1.0 - m, len); }
  }

  lemma LenSqFacts(start: Point, end: Point)
    ensures LenSq(start, end) >= 0.0
    ensures start.x == end.x && start.y == end.y ==> LenSq(start, end) == 0.0
    ensures LenSq(end, start) == LenSq(start, end)
  {
    SqNonNeg(end.x - start.x);
    SqNonNeg(end.y - start.y);
    assert (start.x - end.x) * (start.x - end.x) == (end.x - start.x) * (end.x - start.x);
    assert (start.y - end.y) * (start.y - end.y) == (end.y - start.y) * (end.y - start.y);
  }

  /** The code measures the distance to the point at the clamped projection parameter. */
  lemma NearLineIsClamped(x: real, y: real, start: Point, end: Point, tolerance: real)
    requires LenSq(start, end) != 0.0
    ensures IsPointNearLine(x, y, start, end, tolerance)
         == SqrtBelow(SegDistSq(x, y, start, end, Clamp(Param(x, y, start, end))), tolerance)
  {
  }

  /** The clamped projection is the point of the segment closest to `(x, y)`. */
  lemma ClampIsClosest(x: real, y: real, start: Point, end: Point, l: real)
    requires LenSq(start, end) != 0.0 && 0.0 <= l <= 1.0
    ensures SegDistSq(x, y, start, end, Clamp(Param(x, y, start, end))) <= SegDistSq(x, y, start, end, l)
  {
    var w, dot, len := DistSqToStart(x, y, start), Dot(x, y, start, end), LenSq(start, end);
    LenSqFacts(start, end);
    assert Param(x, y, start, end) == dot / len;
    var m := Clamp(Param(x, y, start, end));
    SegDistSqIsQuadratic(x, y, start, end, l);
    SegDistSqIsQuadratic(x, y, start, end, m);
    ParamSign(dot, len);
    if dot < 0.0 {
      StartIsClosest(w, dot, len, l);
    } else if dot > len {
      EndIsClosest(w, dot, len, l);
    } else {
      InteriorIsClosest(w, dot, len, l);
    }
  }

  /**
   * The hit test is exactly "some point of the segment lies strictly within
   * the tolerance", whenever the segment has non-zero length.
   */
  lemma NearLineIffSegmentPointWithin(x: real, y: real, start: Point, end: Point, tolerance: real)
    requires LenSq(start, end) != 0.0
    ensures IsPointNearLine(x, y, start, end, tolerance) <==>
      tolerance > 0.0 && exists l :: 0.0 <= l <= 1.0 && SegDistSq(x, y, start, end, l) < tolerance * tolerance
  {
    NearLineIsClamped(x, y, start, end, tolerance);
    if tolerance > 0.0 && exists l :: 0.0 <= l <= 1.0 && SegDistSq(x, y, start, end, l) < tolerance * tolerance {
      var l :| 0.0 <= l <= 1.0 && SegDistSq(x, y, start, end, l) < tolerance * tolerance;
      ClampIsClosest(x, y, start, end, l);
    }
  }

  /** A zero-length segment is never hit, whatever the tolerance. */
  lemma DegenerateNeverHit(x: real, y: real, start: Point, end: Point, tolerance: real)
    requires start.x == end.x && start.y == end.y
    ensures !IsPointNearLine(x, y, start, end, tolerance)
  {
    LenSqFacts(start, end);
  }

  lemma SegDistSqReversed(x: real, y: real, start: Point, end: Point, l: real)
    ensures SegDistSq(x, y, end, start, 1.0 - l) == SegDistSq(x, y, start, end, l)
  {
    assert end.x + (1.0 - l) * (start.x - end.x) == start.x + l * (end.x - start.x);
    assert end.y + (1.0 - l) * (start.y - end.y) == start.y + l * (end.y - start.y);
  }

  /** Which end the line was drawn from does not matter to the hit test. */
  lemma NearLineSymmetric(x: real, y: real, start: Point, end: Point, tolerance: real)
    ensures IsPointNearLine(x, y, start, end, tolerance) == IsPointNearLine(x, y, end, start, tolerance)
  {
    LenSqFacts(start, end);
    if LenSq(start, end) != 0.0 {
      NearLineIffSegmentPointWithin(x, y, start, end, tolerance);
      NearLineIffSegmentPointWithin(x, y, end, start, tolerance);
      var t2 := tolerance * tolerance;
      if exists l :: 0.0 <= l <= 1.0 && SegDistSq(x, y, start, end, l) < t2 {
        var l :| 0.0 <= l <= 1.0 && SegDistSq(x, y, start, end, l) < t2;
        SegDistSqReversed(x, y, start, end, l);
      }
      if exists l :: 0.0 <= l <= 1.0 && SegDistSq(x, y, end, start, l) < t2 {
        var l :| 0.0 <= l <= 1.0 && SegDistSq(x, y, end, start, l) < t2;
        SegDistSqReversed(x, y, end, start, l);
      }
    }
  }

  lemma BelowSquare(d: real, t: real)
    requires t > 0.0 && d == 0.0
    ensures d < t * t
  {
    calc {
      d;
    ==
      0.0;
    <
      t * t;
    }
  }

  /** With a positive tolerance the start of a segment of non-zero length is a hit. */
  lemma StartIsHit(start: Point, end: Point, tolerance: real)
    requires LenSq(start, end) != 0.0 && tolerance > 0.0
    ensures IsPointNearLine(start.x, start.y, start, end, tolerance)
  {
    assert SegDistSq(start.x, start.y, start, end, 0.0) == 0.0;
    BelowSquare(SegDistSq(start.x, start.y, start, end, 0.0), tolerance);
    NearLineIffSegmentPointWithin(start.x, start.y, start, end, tolerance);
  }

  /* ---------------------------------------------------------------------- */
  /* Saved lines                                                             */
  /* ---------------------------------------------------------------------- */

  /** A finished line as the registry keeps it. */
  datatype SavedLine = SavedLine(tool: LineTool, startPoint: Point, endPoint: Point)

  /** Both saved points carry a truthy time and price, also recorded as their original anchor. */
  predicate WellSaved(line: SavedLine) {
    && Anchored(line.startPoint) && Anchored(line.endPoint)
    && OriginsRecorded(line.startPoint) && OriginsRecorded(line.endPoint)
  }

  /** `getLineAtPosition` measures against the pixels saved with the line. */
  predicate LineHit(line: SavedLine, x: real, y: real, tolerance: real) {
    IsPointNearLine(x, y, line.startPoint, line.endPoint, tolerance)
  }

  /** The point `updateLines` hands to `redraw`: the saved point at the unrounded pixels of its anchor. */
  function Relaid(vp: Viewport, p: Point): Option<Point> {
    var x := TimeToX(vp, p.time);
    var y := PriceToY(vp, p.price);
    if x.Some? && y.Some? then Some(p.(x := x.value, y := y.value)) else None
  }

  /** What `updateLines` does to the tool of one saved line. */
  function LineRefreshed(s: LineState, vp: Viewport, line: SavedLine): LineState {
    var a := Relaid(vp, line.startPoint);
    var b := Relaid(vp, line.endPoint);
    if a.Some? && b.Some? then LineRedraw(s, vp, a.value, b.value) else s
  }

  /**
   * The refresh is a redraw at the saved anchors: the pixels it hands over
   * are recomputed by the tool anyway, so only the saved times and prices
   * matter.
   */
  lemma LineRefreshedIsRedraw(s: LineState, vp: Viewport, line: SavedLine)
    ensures LineRefreshed(s, vp, line) == LineRedraw(s, vp, line.startPoint, line.endPoint)
  {
    var a := Relaid(vp, line.startPoint);
    var b := Relaid(vp, line.endPoint);
    if a.Some? && b.Some? {
      assert Reproject(vp, a.value) == Reproject(vp, line.startPoint);
      assert Reproject(vp, b.value) == Reproject(vp, line.endPoint);
    }
  }

  /** Saving a line never loses its anchors: they survive the refresh. */
  lemma LineRefreshedKeepsAnchors(s: LineState, vp: Viewport, line: SavedLine)
    requires s.primitive.Some?
    ensures var r := LineRefreshed(s, vp, line);
      r.startPoint.Some? && r.startPoint != s.startPoint ==>
        r.startPoint.value.time == line.startPoint.time && r.startPoint.value.price == line.startPoint.price
  {
    LineRefreshedIsRedraw(s, vp, line);
  }

  /* ---------------------------------------------------------------------- */
  /* The registry                                                            */
  /* ---------------------------------------------------------------------- */

  class LineManager {
    var lines: seq<SavedLine>
    var currentLine: LineTool?
    var currentStartPoint: Option<Point>
    /** Whether an `onLinesChanged` callback is set, and how often it has been called. */
    var hasListener: bool
    var notifications: nat
    ghost var Repr: set<object>

    ghost predicate Owns(t: LineTool)
      reads this, Repr
    {
      t in Repr && t.Repr <= Repr && this !in t.Repr && t.Valid()
    }

    /**
     * Saved lines have distinct tools with separate footprints, the draft is
     * none of them, and a saved start point belongs to a draft.
     */
    ghost predicate Valid()
      reads this, Repr
    {
      && this in Repr
      && (forall i :: 0 <= i < |lines| ==> Owns(lines[i].tool) && WellSaved(lines[i]))
      && (forall i, j :: 0 <= i < j < |lines| ==> lines[i].tool.Repr !! lines[j].tool.Repr)
      && (currentLine != null ==>
            && Owns(currentLine)
            && (forall i :: 0 <= i < |lines| ==> lines[i].tool.Repr !! currentLine.Repr))
      && (currentStartPoint.Some? ==> currentLine != null && OriginsRecorded(currentStartPoint.value))
    }

    constructor ()
      ensures Valid() && fresh(Repr)
      ensures lines == [] && currentLine == null && currentStartPoint == None
      ensures !hasListener && notifications == 0
    {
      lines := [];
      currentLine := null;
      currentStartPoint := None;
      hasListener := false;
      notifications := 0;
      Repr := {this};
    }

    /** `startNewLine`: a fresh draft replaces the current one; the saved start point stays. */
    method StartNewLine(options: Options) returns (line: LineTool)
      requires Valid()
      modifies this
      ensures Valid() && fresh(Repr - old(Repr))
      ensures fresh(line) && line.State() == LineInitial(options) && currentLine == line
      ensures lines == old(lines) && currentStartPoint == old(currentStartPoint)
      ensures hasListener == old(hasListener) && notifications == old(notifications)
    {
      line := new LineTool(options);
      currentLine := line;
      Repr := Repr + line.Repr;
    }

    /** `setStartPoint`: without a draft nothing happens; otherwise the point is saved as its own original anchor. */
    method SetStartPoint(point: Point)
      requires Valid()
      modifies this
      ensures Valid() && Repr == old(Repr)
      ensures lines == old(lines) && currentLine == old(currentLine)
      ensures hasListener == old(hasListener) && notifications == old(notifications)
      ensures currentLine == null ==> currentStartPoint == old(currentStartPoint)
      ensures currentLine != null ==> currentStartPoint == Some(WithOrigins(point))
    {
      if currentLine == null {
        return;
      }
      currentStartPoint := Some(WithOrigins(point));
    }

    method SetOnLinesChanged()
      requires Valid()
      modifies this
      ensures Valid()
      ensures hasListener && notifications == old(notifications)
      ensures lines == old(lines) && currentLine == old(currentLine) && currentStartPoint == old(currentStartPoint)
      ensures Repr == old(Repr)
    {
      hasListener := true;
    }

    /**
     * `finishCurrentLine`: with a draft and a saved start point, the line is
     * saved and announced when both ends have a truthy time and price, and the
     * draft is removed otherwise; either way the draft slot is cleared.
     */
    method FinishCurrentLine(endPoint: Point)
      requires Valid()
      modifies Repr
      ensures Valid() && Repr == old(Repr) && hasListener == old(hasListener)
      ensures old(currentLine) == null || old(currentStartPoint).None? ==>
        && lines == old(lines) && currentLine == old(currentLine) && currentStartPoint == old(currentStartPoint)
        && notifications == old(notifications)
        && (currentLine != null ==> currentLine.State() == old(currentLine.State()))
      ensures old(currentLine) != null && old(currentStartPoint).Some? ==>
        && currentLine == null && currentStartPoint == None
        && (Anchored(old(currentStartPoint).value) && Anchored(endPoint) ==>
              && lines == old(lines) + [SavedLine(old(currentLine), old(currentStartPoint).value, WithOrigins(endPoint))]
              && notifications == old(notifications) + (if hasListener then 1 else 0)
              && old(currentLine).State() == old(currentLine.State()))
        && (!(Anchored(old(currentStartPoint).value) && Anchored(endPoint)) ==>
              && lines == old(lines) && notifications == old(notifications)
              && old(currentLine).State() == LineRemove(old(currentLine.State())))
      ensures forall i :: 0 <= i < |old(lines)| ==> old(lines)[i].tool.State() == old(lines[i].tool.State())
    {
      if currentLine == null || currentStartPoint.None? {
        return;
      }
      if Anchored(currentStartPoint.value) && Anchored(endPoint) {
        var savedLine := SavedLine(currentLine, currentStartPoint.value, WithOrigins(endPoint));
        lines := lines + [savedLine];
        if hasListener {
          notifications := notifications + 1;
        }
        currentLine := null;
        currentStartPoint := None;
      } else {
        DiscardDraft();
      }
    }

    /** Removes the tool of one saved line and leaves every other tool as it was. */
    method RemoveToolAt(i: int)
      requires Valid() && 0 <= i < |lines|
      modifies Repr
      ensures Valid() && Repr == old(Repr)
      ensures lines == old(lines) && currentLine == old(currentLine) && currentStartPoint == old(currentStartPoint)
      ensures hasListener == old(hasListener) && notifications == old(notifications)
      ensures lines[i].tool.State() == LineRemove(old(lines[i].tool.State()))
      ensures forall j :: 0 <= j < |lines| && j != i ==> lines[j].tool.State() == old(lines[j].tool.State())
      ensures currentLine != null ==> currentLine.State() == old(currentLine.State())
    {
      lines[i].tool.Remove();
    }

    /** Removes the draft, if any, and clears both draft slots; the saved tools stay as they were. */
    method DiscardDraft()
      requires Valid()
      modifies Repr
      ensures Valid() && Repr == old(Repr)
      ensures lines == old(lines) && currentLine == null && currentStartPoint == None
      ensures hasListener == old(hasListener) && notifications == old(notifications)
      ensures old(currentLine) != null ==> old(currentLine).State() == LineRemove(old(currentLine.State()))
      ensures forall j :: 0 <= j < |lines| ==> lines[j].tool.State() == old(lines[j].tool.State())
    {
      if currentLine != null {
        currentLine.Remove();
        currentLine := null;
      }
      currentStartPoint := None;
    }

    /** `removeAllLines`: every saved tool and the draft are removed, and the change is announced. */
    method RemoveAllLines()
      requires Valid()
      modifies Repr
      ensures Valid() && hasListener == old(hasListener)
      ensures lines == [] && currentLine == null && currentStartPoint == None
      ensures notifications == old(notifications) + (if hasListener then 1 else 0)
      ensures forall i :: 0 <= i < |old(lines)| ==>
        old(lines)[i].tool.State() == LineRemove(old(lines[i].tool.State()))
      ensures old(currentLine) != null ==> old(currentLine).State() == LineRemove(old(currentLine.State()))
    {
      for i := 0 to |lines|
        invariant Valid() && Repr == old(Repr)
        invariant lines == old(lines) && currentLine == old(currentLine) && currentStartPoint == old(currentStartPoint)
        invariant hasListener == old(hasListener) && notifications == old(notifications)
        invariant forall j :: 0 <= j < i ==> lines[j].tool.State() == LineRemove(old(lines[j].tool.State()))
        invariant forall j :: i <= j < |lines| ==> lines[j].tool.State() == old(lines[j].tool.State())
        invariant currentLine != null ==> currentLine.State() == old(currentLine.State())
      {
        RemoveToolAt(i);
      }
      DiscardDraft();
      lines := [];
      if hasListener {
        notifications := notifications + 1;
      }
    }

    /** `removeLine`: an index out of range changes nothing and announces nothing. */
    method RemoveLine(index: int)
      requires Valid()
      modifies Repr
      ensures Valid() && Repr == old(Repr) && hasListener == old(hasListener)
      ensures currentLine == old(currentLine) && currentStartPoint == old(currentStartPoint)
      ensures 0 <= index < |old(lines)| ==>
        && lines == old(lines[..index] + lines[index + 1..])
        && old(lines[index].tool).State() == LineRemove(old(lines[index].tool.State()))
        && notifications == old(notifications) + (if hasListener then 1 else 0)
      ensures !(0 <= index < |old(lines)|) ==> lines == old(lines) && notifications == old(notifications)
      ensures forall i :: 0 <= i < |old(lines)| && i != index ==>
        old(lines)[i].tool.State() == old(lines[i].tool.State())
      ensures currentLine != null ==> currentLine.State() == old(currentLine.State())
    {
      if 0 <= index < |lines| {
        RemoveToolAt(index);
        var rest := lines[..index] + lines[index + 1..];
        assert forall k :: 0 <= k < |rest| ==> rest[k] == lines[if k < index then k else k + 1];
        lines := rest;
        if hasListener {
          notifications := notifications + 1;
        }
      }
    }

    /** `getLineAtPosition`: the first saved line hit, or -1. */
    method GetLineAtPosition(x: real, y: real, tolerance: real) returns (index: int)
      ensures -1 <= index < |lines|
      ensures index >= 0 ==> LineHit(lines[index], x, y, tolerance)
      ensures index >= 0 ==> forall j :: 0 <= j < index ==> !LineHit(lines[j], x, y, tolerance)
      ensures index == -1 ==> forall j :: 0 <= j < |lines| ==> !LineHit(lines[j], x, y, tolerance)
    {
      for i := 0 to |lines|
        invariant forall j :: 0 <= j < i ==> !LineHit(lines[j], x, y, tolerance)
      {
        var line := lines[i];
        if IsPointNearLine(x, y, line.startPoint, line.endPoint, tolerance) {
          return i;
        }
      }
      return -1;
    }

    /** The body of the refresh loop for one saved line; the other tools stay as they were. */
    method RefreshAt(i: int, vp: Viewport)
      requires Valid() && 0 <= i < |lines|
      modifies Repr
      ensures Valid() && Repr == old(Repr)
      ensures lines == old(lines) && currentLine == old(currentLine) && currentStartPoint == old(currentStartPoint)
      ensures hasListener == old(hasListener) && notifications == old(notifications)
      ensures lines[i].tool.State() == LineRefreshed(old(lines[i].tool.State()), vp, lines[i])
      ensures forall j :: 0 <= j < |lines| && j != i ==> lines[j].tool.State() == old(lines[j].tool.State())
      ensures currentLine != null ==> currentLine.State() == old(currentLine.State())
    {
      var line := lines[i];
      var startX := TimeToX(vp, line.startPoint.time);
      var endX := TimeToX(vp, line.endPoint.time);
      var startY := PriceToY(vp, line.startPoint.price);
      var endY := PriceToY(vp, line.endPoint.price);
      if startX.Some? && startY.Some? && endX.Some? && endY.Some? {
        line.tool.Redraw(vp, line.startPoint.(x := startX.value, y := startY.value),
                             line.endPoint.(x := endX.value, y := endY.value));
      }
    }

    /**
     * `updateLines`: each saved line whose four conversions succeed is
     * redrawn at its anchors; the saved entries themselves never change.
     */
    method UpdateLines(vp: Viewport)
      requires Valid()
      modifies Repr
      ensures Valid() && Repr == old(Repr)
      ensures lines == old(lines) && currentLine == old(currentLine) && currentStartPoint == old(currentStartPoint)
      ensures hasListener == old(hasListener) && notifications == old(notifications)
      ensures forall i :: 0 <= i < |lines| ==>
        lines[i].tool.State() == LineRefreshed(old(lines[i].tool.State()), vp, lines[i])
      ensures currentLine != null ==> currentLine.State() == old(currentLine.State())
    {
      if |lines| == 0 {
        return;
      }
      for i := 0 to |lines|
        invariant Valid() && Repr == old(Repr)
        invariant lines == old(lines) && currentLine == old(currentLine) && currentStartPoint == old(currentStartPoint)
        invariant hasListener == old(hasListener) && notifications == old(notifications)
        invariant forall j :: 0 <= j < i ==>
          lines[j].tool.State() == LineRefreshed(old(lines[j].tool.State()), vp, lines[j])
        invariant forall j :: i <= j < |lines| ==> lines[j].tool.State() == old(lines[j].tool.State())
        invariant currentLine != null ==> currentLine.State() == old(currentLine.State())
      {
        RefreshAt(i, vp);
      }
    }
  }
}
