/**
 * The line drawing tool: it turns pointer pixels into points anchored to the
 * chart's time and price axes, draws the segment through a primitive attached
 * to the chart series, and moves the drawn segment back onto its anchors when
 * the chart is panned or zoomed. It also owns a preview primitive that marks
 * where a line would start.
 */
module LineTools {
  import opened Wrappers
  import opened ChartTypes

  /** A JavaScript options object that several holders share by reference. */
  class OptionsCell {
    var value: Options

    constructor (value: Options)
      ensures this.value == value
    {
      this.value := value;
    }
  }

  /* ---------------------------------------------------------------------- */
  /* Points and options derived from the chart                               */
  /* ---------------------------------------------------------------------- */

  /** The pixel position can be placed on both axes: a truthy time and a non-null price. */
  predicate Resolves(vp: Viewport, point: Point) {
    TimeTruthy(vp.coordinateToTime(point.x)) && vp.coordinateToPrice(point.y).Some?
  }

  /**
   * `createPoint`: the rounded pixel position with the time and price under
   * it, recorded as the original anchor too; the input itself when either
   * axis cannot place it.
   */
  function CreatePoint(vp: Viewport, point: Point): (r: Point)
    ensures !Resolves(vp, point) ==> r == point
    ensures Resolves(vp, point) ==>
      && r.time == vp.coordinateToTime(point.x) && r.price == vp.coordinateToPrice(point.y)
      && OriginsRecorded(r) && r.snapType.None?
      && r.x == vp.snap(point.x) && r.y == vp.snap(point.y)
  {
    var time := vp.coordinateToTime(point.x);
    var price := vp.coordinateToPrice(point.y);
    if TimeTruthy(time) && price.Some? then
      Point(vp.snap(point.x), vp.snap(point.y), time, price, None, time, price)
    else
      point
  }

  /**
   * The first point of a line as `start` computes it: the time and price
   * under the pixel, converted back to a rounded pixel position; nothing when
   * any of the four conversions fails.
   */
  function StartAnchor(vp: Viewport, point: Point): (r: Option<Point>)
    ensures r.Some? <==>
      && Resolves(vp, point)
      && vp.timeToCoordinate(vp.coordinateToTime(point.x).value).Some?
      && vp.priceToCoordinate(vp.coordinateToPrice(point.y).value).Some?
    ensures r.Some? ==>
      && r.value.time == vp.coordinateToTime(point.x) && r.value.price == vp.coordinateToPrice(point.y)
      && OriginsRecorded(r.value) && Anchored(r.value) == PriceTruthy(r.value.price)
      && Reproject(vp, r.value) == Some(r.value)
  {
    var time := vp.coordinateToTime(point.x);
    var price := vp.coordinateToPrice(point.y);
    if TimeTruthy(time) && price.Some? then
      var startX := vp.timeToCoordinate(time.value);
      var startY := vp.priceToCoordinate(price.value);
      if startX.Some? && startY.Some? then
        Some(Point(vp.snap(startX.value), vp.snap(startY.value), time, price, None, time, price))
      else None
    else None
  }

  /** The text of the color option as `options.color + '80'` would print it. */
  function ColorText(o: Options): string {
    if Color in o && o[Color].Text? then o[Color].text else "undefined"
  }

  /** The preview primitive's options: width 1 and the color made half transparent. */
  function PreviewOptions(o: Options): (r: Options)
    ensures LineWidth in r && Color in r
    ensures r[LineWidth] == Number(1.0) && r[Color] == Text(ColorText(o) + "80")
    ensures forall k :: k in o && k != LineWidth && k != Color ==> k in r && r[k] == o[k]
  {
    Merge(o, map[LineWidth := Number(1.0), Color := Text(ColorText(o) + "80")])
  }

  /* ---------------------------------------------------------------------- */
  /* The tool's observable state and its transitions                        */
  /* ---------------------------------------------------------------------- */

  /** The points a primitive currently holds. */
  datatype Drawn = Drawn(start: Option<Point>, end: Option<Point>)

  /**
   * What a line tool holds. `primitive` and `preview` are `None` once the
   * respective primitive is detached, and otherwise what it draws.
   */
  datatype LineState = LineState(
    started: bool,
    finished: bool,
    startPoint: Option<Point>,
    endPoint: Option<Point>,
    options: Options,
    primitive: Option<Drawn>,
    preview: Option<Drawn>)

  /** A freshly constructed tool: both primitives attached, nothing drawn. */
  function LineInitial(options: Options): LineState {
    LineState(false, false, None, None, options, Some(Drawn(None, None)), Some(Drawn(None, None)))
  }

  /** The drawn points after `primitive.setPoints(a, b)`, if there is a primitive. */
  function Draw(d: Option<Drawn>, a: Point, b: Point): Option<Drawn> {
    if d.Some? then Some(Drawn(Some(a), Some(b))) else None
  }

  /** `start(point)`. */
  function LineStart(s: LineState, vp: Viewport, point: Point): LineState {
    if s.finished then s
    else
      var anchor := StartAnchor(vp, point);
      if anchor.None? then s.(preview := None)
      else
        s.(preview := None, startPoint := anchor, endPoint := anchor, started := true,
           primitive := Draw(s.primitive, anchor.value, anchor.value))
  }

  /** `move(point)`. */
  function LineMove(s: LineState, vp: Viewport, point: Point): LineState {
    if s.finished || s.startPoint.None? || s.primitive.None? then s
    else
      var p := CreatePoint(vp, point);
      s.(endPoint := Some(p), primitive := Draw(s.primitive, s.startPoint.value, p))
  }

  /** `stop(point)`: it does not look at `finished`. */
  function LineStop(s: LineState, vp: Viewport, point: Point): LineState {
    if s.startPoint.None? || s.primitive.None? then s
    else
      var p := CreatePoint(vp, point);
      s.(endPoint := Some(p), finished := true, started := false,
         options := s.options[Finished := Flag(true)],
         primitive := Draw(s.primitive, s.startPoint.value, p))
  }

  /** `remove()`. */
  function LineRemove(s: LineState): LineState {
    s.(startPoint := None, endPoint := None, primitive := None, preview := None)
  }

  /** `finish()`: without both points it is `remove()`. */
  function LineFinish(s: LineState): LineState {
    if s.startPoint.None? || s.endPoint.None? then LineRemove(s)
    else s.(finished := true, options := s.options[Finished := Flag(true)])
  }

  /** `redraw(points)`, and `updatePosition(points)` with points given. */
  function LineRedraw(s: LineState, vp: Viewport, start: Point, end: Point): LineState {
    if s.primitive.None? then s
    else
      var pair := ReprojectPair(vp, start, end);
      if pair.None? then s
      else
        s.(startPoint := Some(pair.value.0), endPoint := Some(pair.value.1),
           primitive := Draw(s.primitive, pair.value.0, pair.value.1))
  }

  /** `updatePosition()` without points: redraws the primitive only, the tool's points stay. */
  function LineRefresh(s: LineState, vp: Viewport): LineState {
    if !Drawable(s.startPoint) || !Drawable(s.endPoint) then s
    else
      var pair := ReprojectPair(vp, s.startPoint.value, s.endPoint.value);
      if pair.None? then s
      else s.(primitive := Draw(s.primitive, pair.value.0, pair.value.1))
  }

  /** `updatePosition(points?)`. */
  function LineUpdatePosition(s: LineState, vp: Viewport, points: Option<(Point, Point)>): LineState {
    if points.Some? then LineRedraw(s, vp, points.value.0, points.value.1) else LineRefresh(s, vp)
  }

  /** The guard of the time-scale handler: an original start anchor and a current end anchor. */
  predicate ScaleAnchored(s: LineState) {
    && s.startPoint.Some? && TimeTruthy(s.startPoint.value.originalTime) && PriceTruthy(s.startPoint.value.originalPrice)
    && Drawable(s.endPoint)
  }

  /** The start point with its original anchor restored. */
  function BackToOrigin(p: Point): Point {
    p.(time := p.originalTime, price := p.originalPrice)
  }

  /**
   * The time-scale handler: the start goes back to its original anchor and
   * both points are redrawn at their anchors' current pixels.
   */
  function LineScaleChange(s: LineState, vp: Viewport): LineState {
    if !ScaleAnchored(s) then s
    else
      var pair := ReprojectPair(vp, BackToOrigin(s.startPoint.value), s.endPoint.value);
      if pair.None? then s
      else LineRedraw(s, vp, pair.value.0, pair.value.1)
  }

  /** `clearDisplay()`: the primitive shows empty points; the tool keeps its own. */
  function LineClearDisplay(s: LineState): LineState {
    if s.primitive.Some? && s.startPoint.Some? && s.endPoint.Some? then
      s.(primitive := Draw(s.primitive, EmptyPoint, EmptyPoint))
    else s
  }

  /** `setPoints(start, end)`: what the primitive draws. */
  function LineSetPoints(s: LineState, start: Point, end: Point): LineState {
    s.(primitive := Draw(s.primitive, start, end))
  }

  /** `showPreviewPoint(point)`: a one-point segment on the preview primitive, before drawing starts. */
  function LineShowPreview(s: LineState, vp: Viewport, point: Point): LineState {
    if s.preview.Some? && !s.started then
      var p := CreatePoint(vp, point);
      s.(preview := Draw(s.preview, p, p))
    else s
  }

  /**
   * The deferred `render()` callback, run one animation frame later: the
   * primitive is set back to the tool's own points, if it still has both.
   */
  function LineFrame(s: LineState): LineState {
    if s.primitive.Some? && s.startPoint.Some? && s.endPoint.Some? then
      s.(primitive := Draw(s.primitive, s.startPoint.value, s.endPoint.value))
    else s
  }

  /** `updateOptions(patch)`. */
  function LineUpdateOptions(s: LineState, patch: Options): LineState {
    s.(options := Merge(s.options, patch))
  }

  /** `isFinished()`. */
  predicate LineIsFinished(s: LineState) {
    s.finished && s.startPoint.Some? && s.endPoint.Some?
  }

  /** `isValid()`: both points, differing in x and in y. */
  predicate LineIsValid(s: LineState) {
    && s.startPoint.Some? && s.endPoint.Some?
    && s.startPoint.value.x != s.endPoint.value.x
    && s.startPoint.value.y != s.endPoint.value.y
  }

  /* ---------------------------------------------------------------------- */
  /* Properties of the transitions                                           */
  /* ---------------------------------------------------------------------- */

  /**
   * `start` commits exactly when it is not finished and all four conversions
   * succeed; a commit sets both points to the same anchor whose original
   * anchor is itself, and always drops the preview.
   */
  lemma LineStartCommit(s: LineState, vp: Viewport, point: Point)
    ensures s.finished ==> LineStart(s, vp, point) == s
    ensures !s.finished ==> LineStart(s, vp, point).preview.None?
    ensures !s.finished && StartAnchor(vp, point).None? ==> LineStart(s, vp, point) == s.(preview := None)
    ensures var r := LineStart(s, vp, point);
      !s.finished && StartAnchor(vp, point).Some? ==>
        && r.started && r.startPoint == r.endPoint && r.startPoint == StartAnchor(vp, point)
        && OriginsRecorded(r.startPoint.value)
        && (s.primitive.Some? ==> r.primitive == Some(Drawn(r.startPoint, r.endPoint)))
  {
  }

  /** `move` is ignored when finished or detached or without a start; otherwise it replaces only the end point. */
  lemma LineMoveOnlyMovesEnd(s: LineState, vp: Viewport, point: Point)
    ensures s.finished || s.startPoint.None? || s.primitive.None? ==> LineMove(s, vp, point) == s
    ensures !(s.finished || s.startPoint.None? || s.primitive.None?) ==>
      var r := LineMove(s, vp, point);
      r.(endPoint := s.endPoint, primitive := s.primitive) == s && r.endPoint == Some(CreatePoint(vp, point))
  {
  }

  /**
   * `stop` is ignored without a start point or without a primitive;
   * otherwise it moves only the end point, to the created point, ends
   * drawing, marks the line finished in its state and in its options, and
   * draws the segment from the start to the new end.
   */
  lemma LineStopCommit(s: LineState, vp: Viewport, point: Point)
    ensures s.startPoint.None? || s.primitive.None? ==> LineStop(s, vp, point) == s
    ensures var r := LineStop(s, vp, point);
      s.startPoint.Some? && s.primitive.Some? ==>
        && r.endPoint == Some(CreatePoint(vp, point))
        && r.finished && !r.started
        && r.options == s.options[Finished := Flag(true)]
        && r.primitive == Some(Drawn(s.startPoint, r.endPoint))
        && r.startPoint == s.startPoint && r.preview == s.preview
  {
  }

  /** Unlike `start` and `move`, `stop` still moves the end point of a finished line. */
  lemma LineStopAfterFinish(s: LineState, vp: Viewport, point: Point)
    requires s.finished && s.startPoint.Some? && s.primitive.Some?
    ensures LineStop(s, vp, point).endPoint == Some(CreatePoint(vp, point))
    ensures LineStop(s, vp, point).finished && !LineStop(s, vp, point).started
  {
  }

  /** `finish` without both points is `remove`, and a removed line is never finished. */
  lemma LineFinishWithoutPointsRemoves(s: LineState)
    ensures s.startPoint.None? || s.endPoint.None? ==> LineFinish(s) == LineRemove(s)
    ensures !LineIsFinished(LineRemove(s))
    ensures s.startPoint.Some? && s.endPoint.Some? ==> LineIsFinished(LineFinish(s))
  {
  }

  /**
   * Moving a line onto its anchors either changes nothing (detached, or a
   * conversion failed) or replaces both points by the given ones with only
   * their pixel positions changed.
   */
  lemma LineRedrawMovesOnlyPixels(s: LineState, vp: Viewport, start: Point, end: Point)
    ensures var r := LineRedraw(s, vp, start, end);
      || r == s
      || (&& r.startPoint.Some? && r.endPoint.Some?
          && r.startPoint.value.(x := start.x, y := start.y) == start
          && r.endPoint.value.(x := end.x, y := end.y) == end
          && r.(startPoint := s.startPoint, endPoint := s.endPoint, primitive := s.primitive) == s)
    ensures ReprojectPair(vp, start, end).None? ==> LineRedraw(s, vp, start, end) == s
  {
  }

  /**
   * A `redraw` on an attached line whose four conversions all succeed takes
   * effect: both points move to the rounded pixels of the given anchors and
   * the primitive draws them.
   */
  lemma LineRedrawCommits(s: LineState, vp: Viewport, start: Point, end: Point)
    requires s.primitive.Some? && ReprojectPair(vp, start, end).Some?
    ensures var r := LineRedraw(s, vp, start, end);
      && r.startPoint == Some(Reproject(vp, start).value)
      && r.endPoint == Some(Reproject(vp, end).value)
      && r.primitive == Some(Drawn(r.startPoint, r.endPoint))
  {
  }

  /** Refreshing without points never changes the tool's own points. */
  lemma LineRefreshKeepsPoints(s: LineState, vp: Viewport)
    ensures LineRefresh(s, vp).startPoint == s.startPoint && LineRefresh(s, vp).endPoint == s.endPoint
    ensures LineRefresh(s, vp).(primitive := s.primitive) == s
  {
  }

  /** `clearDisplay` changes what is drawn, never the tool's points. */
  lemma LineClearDisplayKeepsPoints(s: LineState)
    ensures LineClearDisplay(s).(primitive := s.primitive) == s
  {
  }

  /* ---------------------------------------------------------------------- */
  /* Sequences of operations                                                 */
  /* ---------------------------------------------------------------------- */

  /** Every public operation of the tool, with its inputs. */
  datatype LineOp =
    | OpStart(vp: Viewport, point: Point)
    | OpMove(vp: Viewport, point: Point)
    | OpStop(vp: Viewport, point: Point)
    | OpFinish
    | OpRemove
    | OpUpdatePosition(vp: Viewport, points: Option<(Point, Point)>)
    | OpRedraw(vp: Viewport, start: Point, end: Point)
    | OpScaleChange(vp: Viewport)
    | OpClearDisplay
    | OpSetPoints(start: Point, end: Point)
    | OpShowPreview(vp: Viewport, point: Point)
    | OpUpdateOptions(patch: Options)
    | OpFrame

  function LineStep(s: LineState, op: LineOp): LineState {
    match op
    case OpStart(vp, p) => LineStart(s, vp, p)
    case OpMove(vp, p) => LineMove(s, vp, p)
    case OpStop(vp, p) => LineStop(s, vp, p)
    case OpFinish => LineFinish(s)
    case OpRemove => LineRemove(s)
    case OpUpdatePosition(vp, points) => LineUpdatePosition(s, vp, points)
    case OpRedraw(vp, a, b) => LineRedraw(s, vp, a, b)
    case OpScaleChange(vp) => LineScaleChange(s, vp)
    case OpClearDisplay => LineClearDisplay(s)
    case OpSetPoints(a, b) => LineSetPoints(s, a, b)
    case OpShowPreview(vp, p) => LineShowPreview(s, vp, p)
    case OpUpdateOptions(patch) => LineUpdateOptions(s, patch)
    case OpFrame => LineFrame(s)
  }

  function LineReplay(s: LineState, ops: seq<LineOp>): LineState
    decreases |ops|
  {
    if ops == [] then s else LineReplay(LineStep(s, ops[0]), ops[1..])
  }

  /**
   * What holds in every reachable state: the two points exist together, and
   * once drawing has started the preview is gone.
   */
  predicate LineInv(s: LineState) {
    && (s.startPoint.Some? <==> s.endPoint.Some?)
    && (s.started ==> s.preview.None?)
  }

  lemma LineStepKeepsInv(s: LineState, op: LineOp)
    requires LineInv(s)
    ensures LineInv(LineStep(s, op))
  {
  }

  /** The invariant holds from the initial state through any sequence of operations. */
  lemma {:induction false} LineReplayKeepsInv(s: LineState, ops: seq<LineOp>)
    requires LineInv(s)
    ensures LineInv(LineReplay(s, ops))
    decreases |ops|
  {
    if ops != [] {
      LineStepKeepsInv(s, ops[0]);
      LineReplayKeepsInv(LineStep(s, ops[0]), ops[1..]);
    }
  }

  /** Detaching is permanent: no operation attaches a primitive again. */
  lemma {:induction false} LineDetachedStaysDetached(s: LineState, ops: seq<LineOp>)
    requires s.primitive.None?
    ensures LineReplay(s, ops).primitive.None?
    ensures s.preview.None? ==> LineReplay(s, ops).preview.None?
    decreases |ops|
  {
    if ops != [] {
      LineDetachedStaysDetached(LineStep(s, ops[0]), ops[1..]);
    }
  }

  /** Once finished, a tool stays finished whatever happens to it. */
  lemma {:induction false} LineFinishedStaysFinished(s: LineState, ops: seq<LineOp>)
    requires s.finished
    ensures LineReplay(s, ops).finished
    decreases |ops|
  {
    if ops != [] {
      LineFinishedStaysFinished(LineStep(s, ops[0]), ops[1..]);
    }
  }

  /**
   * One frame after `updatePosition()` without points or after
   * `clearDisplay`, the deferred render has undone what they drew: the
   * primitive shows the tool's own points again. After a `redraw` that took
   * effect the frame changes nothing.
   */
  lemma LineFrameUndoesDisplayChanges(s: LineState, vp: Viewport, start: Point, end: Point)
    ensures LineFrame(LineRefresh(s, vp)) == LineFrame(s)
    ensures LineFrame(LineClearDisplay(s)) == LineFrame(s)
    ensures s.primitive.Some? && ReprojectPair(vp, start, end).Some? ==>
      LineFrame(LineRedraw(s, vp, start, end)) == LineRedraw(s, vp, start, end)
    ensures LineFrame(LineFrame(s)) == LineFrame(s)
  {
  }

  /** `finish` does not clear `started`: a started line that is finished reports both. */
  lemma LineFinishKeepsStarted(vp: Viewport, point: Point, options: Options)
    requires StartAnchor(vp, point).Some?
    ensures var s := LineFinish(LineStart(LineInitial(options), vp, point));
      s.started && s.finished && LineIsFinished(s)
  {
  }

  /* ---------------------------------------------------------------------- */
  /* The pane view, the primitive and the tool                               */
  /* ---------------------------------------------------------------------- */

  /** The pane view inside a line primitive; its options are the tool's own object. */
  class LinePaneView {
    var startPoint: Option<Point>
    var endPoint: Option<Point>
    var options: OptionsCell

    constructor (options: OptionsCell)
      ensures startPoint == None && endPoint == None && this.options == options
    {
      startPoint := None;
      endPoint := None;
      this.options := options;
    }

    /** A renderer only when both points carry a truthy time and price (a price of 0 is missing). */
    function Renderer(): (r: Option<LineRenderer>)
      reads this, options
      ensures r.Some? <==> Drawable(startPoint) && Drawable(endPoint)
      ensures r.Some? ==> r.value == LineRenderer(startPoint.value, endPoint.value, options.value)
    {
      if !Drawable(startPoint) || !Drawable(endPoint) then None
      else Some(LineRenderer(startPoint.value, endPoint.value, options.value))
    }

    method SetPoints(start: Point, end: Point)
      modifies this
      ensures startPoint == Some(start) && endPoint == Some(end) && options == old(options)
    {
      startPoint := Some(start);
      endPoint := Some(end);
    }

    /** Takes the given options object itself, not a merge. */
    method UpdateOptions(options: OptionsCell)
      modifies this
      ensures this.options == options
      ensures startPoint == old(startPoint) && endPoint == old(endPoint)
    {
      this.options := options;
    }
  }

  class LinePrimitive {
    const paneView: LinePaneView
    var startPoint: Option<Point>
    var endPoint: Option<Point>

    /** The pane view shows the primitive's points whenever it has them. */
    ghost predicate Mirrored()
      reads this, paneView
    {
      && (startPoint.Some? <==> endPoint.Some?)
      && (startPoint.Some? ==> paneView.startPoint == startPoint && paneView.endPoint == endPoint)
    }

    constructor (options: OptionsCell)
      ensures fresh(paneView) && paneView.options == options
      ensures startPoint == None && endPoint == None
      ensures paneView.startPoint == None && paneView.endPoint == None
      ensures Mirrored()
    {
      paneView := new LinePaneView(options);
      startPoint := None;
      endPoint := None;
    }

    method SetPoints(start: Point, end: Point)
      modifies this, paneView
      ensures startPoint == Some(start) && endPoint == Some(end)
      ensures paneView.startPoint == Some(start) && paneView.endPoint == Some(end)
      ensures paneView.options == old(paneView.options)
      ensures Mirrored()
    {
      startPoint := Some(start);
      endPoint := Some(end);
      paneView.SetPoints(start, end);
    }

    /** `clearPoints()`: forgets the points; the pane view gets empty points and so renders nothing. */
    method ClearPoints()
      modifies this, paneView
      ensures startPoint == None && endPoint == None
      ensures paneView.startPoint == Some(EmptyPoint) && paneView.endPoint == Some(EmptyPoint)
      ensures paneView.options == old(paneView.options)
      ensures paneView.Renderer() == None
      ensures Mirrored()
    {
      startPoint := None;
      endPoint := None;
      paneView.SetPoints(EmptyPoint, EmptyPoint);
    }

    /** `updateAllViews()`: pushes the primitive's points, when it has both, to the pane view. */
    method UpdateAllViews()
      requires Mirrored()
      modifies paneView
      ensures paneView.startPoint == old(paneView.startPoint) && paneView.endPoint == old(paneView.endPoint)
      ensures paneView.options == old(paneView.options)
      ensures Mirrored()
    {
      if startPoint.Some? && endPoint.Some? {
        paneView.SetPoints(startPoint.value, endPoint.value);
      }
    }

    method UpdateOptions(options: OptionsCell)
      requires Mirrored()
      modifies paneView
      ensures paneView.options == options
      ensures paneView.startPoint == old(paneView.startPoint) && paneView.endPoint == old(paneView.endPoint)
      ensures Mirrored()
    {
      paneView.UpdateOptions(options);
      UpdateAllViews();
    }
  }

  class LineTool {
    var options: OptionsCell
    var primitive: LinePrimitive?
    var previewPrimitive: LinePrimitive?
    var startPoint: Option<Point>
    var endPoint: Option<Point>
    var finished: bool
    var started: bool
    ghost var Repr: set<object>

    /** The tool's state as a value. */
    function State(): LineState
      reads this, options, primitive, previewPrimitive
    {
      LineState(started, finished, startPoint, endPoint, options.value,
        if primitive == null then None else Some(Drawn(primitive.startPoint, primitive.endPoint)),
        if previewPrimitive == null then None else Some(Drawn(previewPrimitive.startPoint, previewPrimitive.endPoint)))
    }

    /**
     * The object invariant: the primitive's pane view renders with the
     * tool's own options object and shows what the primitive holds.
     */
    ghost predicate Valid()
      reads this, Repr
    {
      && this in Repr && options in Repr
      && (primitive != null ==>
            && primitive in Repr && primitive.paneView in Repr
            && primitive.paneView.options == options
            && primitive.Mirrored())
      && (previewPrimitive != null ==>
            && previewPrimitive in Repr && previewPrimitive.paneView in Repr
            && previewPrimitive != primitive
            && (primitive != null ==> previewPrimitive.paneView != primitive.paneView))
    }

    constructor (options: Options)
      ensures Valid() && fresh(Repr)
      ensures State() == LineInitial(options)
      ensures previewPrimitive != null && previewPrimitive.paneView.options.value == PreviewOptions(options)
    {
      var cell := new OptionsCell(options);
      var main := new LinePrimitive(cell);
      var previewCell := new OptionsCell(PreviewOptions(options));
      var preview := new LinePrimitive(previewCell);
      this.options := cell;
      primitive := main;
      previewPrimitive := preview;
      startPoint := None;
      endPoint := None;
      finished := false;
      started := false;
      Repr := {this, cell, main, main.paneView, previewCell, preview, preview.paneView};
    }

    method Start(vp: Viewport, point: Point)
      requires Valid()
      modifies Repr
      ensures Valid() && Repr == old(Repr)
      ensures State() == LineStart(old(State()), vp, point)
    {
      if finished {
        return;
      }
      previewPrimitive := null;
      var time := vp.coordinateToTime(point.x);
      var price := vp.coordinateToPrice(point.y);
      if TimeTruthy(time) && price.Some? {
        var startX := vp.timeToCoordinate(time.value);
        var startY := vp.priceToCoordinate(price.value);
        if startX.Some? && startY.Some? {
          var newPoint := Point(vp.snap(startX.value), vp.snap(startY.value), time, price, None, time, price);
          startPoint := Some(newPoint);
          endPoint := Some(newPoint);
          started := true;
          if primitive != null {
            primitive.SetPoints(newPoint, newPoint);
          }
        }
      }
    }

    method Move(vp: Viewport, point: Point)
      requires Valid()
      modifies Repr
      ensures Valid() && Repr == old(Repr)
      ensures State() == LineMove(old(State()), vp, point)
    {
      if finished || startPoint.None? || primitive == null {
        return;
      }
      var newEndPoint := CreatePoint(vp, point);
      endPoint := Some(newEndPoint);
      primitive.SetPoints(startPoint.value, newEndPoint);
    }

    method Stop(vp: Viewport, point: Point)
      requires Valid()
      modifies Repr
      ensures Valid() && Repr == old(Repr)
      ensures State() == LineStop(old(State()), vp, point)
    {
      if startPoint.None? || primitive == null {
        return;
      }
      var newPoint := CreatePoint(vp, point);
      endPoint := Some(newPoint);
      finished := true;
      started := false;
      options.value := options.value[Finished := Flag(true)];
      primitive.SetPoints(startPoint.value, newPoint);
    }

    method Finish()
      requires Valid()
      modifies Repr
      ensures Valid() && Repr == old(Repr)
      ensures State() == LineFinish(old(State()))
    {
      if startPoint.None? || endPoint.None? {
        Remove();
        return;
      }
      finished := true;
      options.value := options.value[Finished := Flag(true)];
    }

    method Remove()
      requires Valid()
      modifies this
      ensures Valid() && Repr == old(Repr)
      ensures State() == LineRemove(old(State()))
      ensures !IsFinished()
    {
      previewPrimitive := null;
      startPoint := None;
      endPoint := None;
      primitive := null;
    }

    /** `redraw(points)`: moves both points onto the pixels of their own time and price. */
    method Redraw(vp: Viewport, start: Point, end: Point)
      requires Valid()
      modifies Repr
      ensures Valid() && Repr == old(Repr)
      ensures State() == LineRedraw(old(State()), vp, start, end)
    {
      if primitive == null {
        return;
      }
      var startX := TimeToX(vp, start.time);
      var startY := PriceToY(vp, start.price);
      var endX := TimeToX(vp, end.time);
      var endY := PriceToY(vp, end.price);
      if startX.Some? && startY.Some? && endX.Some? && endY.Some? {
        var newStart := start.(x := vp.snap(startX.value), y := vp.snap(startY.value));
        var newEnd := end.(x := vp.snap(endX.value), y := vp.snap(endY.value));
        startPoint := Some(newStart);
        endPoint := Some(newEnd);
        primitive.SetPoints(newStart, newEnd);
      }
    }

    method UpdatePosition(vp: Viewport, points: Option<(Point, Point)>)
      requires Valid()
      modifies Repr
      ensures Valid() && Repr == old(Repr)
      ensures State() == LineUpdatePosition(old(State()), vp, points)
    {
      if points.Some? {
        Redraw(vp, points.value.0, points.value.1);
        return;
      }
      if !Drawable(startPoint) || !Drawable(endPoint) {
        return;
      }
      var startX := TimeToX(vp, startPoint.value.time);
      var startY := PriceToY(vp, startPoint.value.price);
      var endX := TimeToX(vp, endPoint.value.time);
      var endY := PriceToY(vp, endPoint.value.price);
      if startX.None? || startY.None? || endX.None? || endY.None? {
        return;
      }
      var newStartPoint := startPoint.value.(x := vp.snap(startX.value), y := vp.snap(startY.value));
      var newEndPoint := endPoint.value.(x := vp.snap(endX.value), y := vp.snap(endY.value));
      if primitive != null {
        primitive.SetPoints(newStartPoint, newEndPoint);
      }
    }

    /** The handler the tool subscribes to visible-time-range changes. */
    method HandleScaleChange(vp: Viewport)
      requires Valid()
      modifies Repr
      ensures Valid() && Repr == old(Repr)
      ensures State() == LineScaleChange(old(State()), vp)
    {
      if startPoint.None? || !TimeTruthy(startPoint.value.originalTime) || !PriceTruthy(startPoint.value.originalPrice)
        || !Drawable(endPoint)
      {
        return;
      }
      var startX := TimeToX(vp, startPoint.value.originalTime);
      var startY := PriceToY(vp, startPoint.value.originalPrice);
      var endX := TimeToX(vp, endPoint.value.time);
      var endY := PriceToY(vp, endPoint.value.price);
      if startX.None? || startY.None? || endX.None? || endY.None? {
        return;
      }
      var newStartPoint := startPoint.value.(x := vp.snap(startX.value), y := vp.snap(startY.value),
                                             time := startPoint.value.originalTime,
                                             price := startPoint.value.originalPrice);
      var newEndPoint := endPoint.value.(x := vp.snap(endX.value), y := vp.snap(endY.value));
      UpdatePosition(vp, Some((newStartPoint, newEndPoint)));
    }

    method ClearDisplay()
      requires Valid()
      modifies Repr
      ensures Valid() && Repr == old(Repr)
      ensures State() == LineClearDisplay(old(State()))
      ensures startPoint == old(startPoint) && endPoint == old(endPoint)
    {
      if primitive != null && startPoint.Some? && endPoint.Some? {
        primitive.SetPoints(EmptyPoint, EmptyPoint);
      }
    }

    /** The deferred `render()` callback, run when the host delivers the animation frame. */
    method RenderFrame()
      requires Valid()
      modifies Repr
      ensures Valid() && Repr == old(Repr)
      ensures State() == LineFrame(old(State()))
    {
      if primitive != null && startPoint.Some? && endPoint.Some? {
        primitive.SetPoints(startPoint.value, endPoint.value);
      }
    }

    method SetPoints(start: Point, end: Point)
      requires Valid()
      modifies Repr
      ensures Valid() && Repr == old(Repr)
      ensures State() == LineSetPoints(old(State()), start, end)
    {
      if primitive != null {
        primitive.SetPoints(start, end);
      }
    }

    method ShowPreviewPoint(vp: Viewport, point: Point)
      requires Valid()
      modifies Repr
      ensures Valid() && Repr == old(Repr)
      ensures State() == LineShowPreview(old(State()), vp, point)
    {
      if previewPrimitive != null && !started {
        var newPoint := CreatePoint(vp, point);
        previewPrimitive.SetPoints(newPoint, newPoint);
      }
    }

    /**
     * `updateOptions(patch)`: a new options object, the merge, which the
     * primitive's pane view then shares.
     */
    method UpdateOptions(patch: Options)
      requires Valid()
      modifies Repr
      ensures Valid() && fresh(Repr - old(Repr))
      ensures State() == LineUpdateOptions(old(State()), patch)
    {
      var cell := new OptionsCell(Merge(options.value, patch));
      options := cell;
      Repr := Repr + {cell};
      if primitive != null {
        primitive.UpdateOptions(cell);
      }
    }

    /** `getOptions()`: a copy equal to the stored options. */
    function GetOptions(): (r: Options)
      reads this, options
      ensures r == State().options
    {
      options.value
    }

    /** `getPoints()`. */
    function GetPoints(): (r: (Option<Point>, Option<Point>))
      reads this
      ensures r.0 == startPoint && r.1 == endPoint
    {
      (startPoint, endPoint)
    }

    /** `isStarted()`. */
    function IsStarted(): (r: bool)
      reads this, options, primitive, previewPrimitive
      ensures r == State().started
    {
      started
    }

    /** `isFinished()`: finished, with both points present. */
    function IsFinished(): (r: bool)
      reads this
      ensures r <==> finished && startPoint.Some? && endPoint.Some?
    {
      finished && startPoint.Some? && endPoint.Some?
    }

    /** `isValid()`: both points present, differing in x and in y. */
    function IsValid(): (r: bool)
      reads this
      ensures r ==> startPoint.Some? && endPoint.Some? && startPoint.value != endPoint.value
      ensures r <==> LineIsValid(LineState(started, finished, startPoint, endPoint, map[], None, None))
    {
      && startPoint.Some? && endPoint.Some?
      && startPoint.value.x != endPoint.value.x && startPoint.value.y != endPoint.value.y
    }

    /**
     * `priceToCoordinate(price)`: asks the series, and asks again up to three
     * more times while the answer is null. `host(price, n)` is the answer
     * to the n-th call.
     */
    method PriceToCoordinate(price: real, host: (real, nat) -> Option<real>) returns (coordinate: Option<real>, calls: nat)
      ensures 1 <= calls <= 4
      ensures coordinate == host(price, calls - 1)
      ensures forall n :: 0 <= n < calls - 1 ==> host(price, n).None?
      ensures coordinate.None? ==> calls == 4
    {
      coordinate := host(price, 0);
      calls := 1;
      var attempts := 0;
      while coordinate.None? && attempts < 3
        invariant 0 <= attempts <= 3 && calls == attempts + 1
        invariant coordinate == host(price, attempts)
        invariant forall n :: 0 <= n < attempts ==> host(price, n).None?
        decreases 3 - attempts
      {
        coordinate := host(price, calls);
        calls := calls + 1;
        attempts := attempts + 1;
      }
    }
  }
}
