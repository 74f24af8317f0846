/**
 * The stand-alone line pane view: holds the two endpoints and its own copy
 * of the line options, and hands a renderer the endpoints once both are
 * anchored to a time and a price.
 */
module LinePaneViews {
  import opened Wrappers
  import opened ChartTypes

  /** What the view holds. */
  datatype PaneState = PaneState(startPoint: Option<Point>, endPoint: Option<Point>, options: Options)

  /** A view just constructed over `options`: no endpoints yet. */
  function PaneInitial(options: Options): PaneState {
    PaneState(None, None, options)
  }

  /** The renderer the view offers, if any. */
  function PaneRenderer(s: PaneState): (r: Option<LineRenderer>)
    ensures r.Some? <==> Drawable(s.startPoint) && Drawable(s.endPoint)
    ensures r.Some? ==> r.value == LineRenderer(s.startPoint.value, s.endPoint.value, s.options)
  {
    if Drawable(s.startPoint) && Drawable(s.endPoint)
    then Some(LineRenderer(s.startPoint.value, s.endPoint.value, s.options))
    else None
  }

  function PaneSetPoints(s: PaneState, start: Point, end: Point): PaneState {
    s.(startPoint := Some(start), endPoint := Some(end))
  }

  function PaneUpdateOptions(s: PaneState, patch: Options): PaneState {
    s.(options := Merge(s.options, patch))
  }

  /** A fresh view offers no renderer, whatever its options. */
  lemma NoRendererBeforePoints(options: Options)
    ensures PaneRenderer(PaneInitial(options)) == None
  {
  }

  /**
   * After the endpoints are set the view draws exactly them with its
   * options when both are anchored, and nothing otherwise.
   */
  lemma RendererAfterSetPoints(s: PaneState, start: Point, end: Point)
    ensures PaneRenderer(PaneSetPoints(s, start, end)) ==
      if Anchored(start) && Anchored(end) then Some(LineRenderer(start, end, s.options)) else None
  {
  }

  /**
   * Updating the options never changes whether the view draws, and two
   * updates in a row are one update with the combined patch.
   */
  lemma UpdateOptionsComposes(s: PaneState, first: Options, second: Options)
    ensures PaneRenderer(PaneUpdateOptions(s, first)).Some? <==> PaneRenderer(s).Some?
    ensures PaneUpdateOptions(PaneUpdateOptions(s, first), second) == PaneUpdateOptions(s, Merge(first, second))
  {
    MergeAssociative(s.options, first, second);
  }

  /** Options set later override the ones passed at construction, field by field. */
  lemma LaterOptionsWin(options: Options, patch: Options, k: OptionKey)
    requires k in patch
    ensures k in PaneUpdateOptions(PaneInitial(options), patch).options
    ensures PaneUpdateOptions(PaneInitial(options), patch).options[k] == patch[k]
  {
  }

  class LinePaneView {
    var startPoint: Option<Point>
    var endPoint: Option<Point>
    var options: Options

    function State(): PaneState
      reads this
    {
      PaneState(startPoint, endPoint, options)
    }

    /** Keeps a copy of the caller's options: later changes to theirs are not seen here. */
    constructor (options: Options)
      ensures State() == PaneInitial(options)
    {
      startPoint := None;
      endPoint := None;
      this.options := options;
    }

    /** The `options` getter. */
    function CurrentOptions(): (r: Options)
      reads this
      ensures r == State().options
    {
      options
    }

    /** Line views draw above the series. */
    function ZOrder(): (r: string)
      ensures r == "top"
    {
      "top"
    }

    function Renderer(): (r: Option<LineRenderer>)
      reads this
      ensures r.Some? <==> Drawable(startPoint) && Drawable(endPoint)
      ensures r.Some? ==> r.value == LineRenderer(startPoint.value, endPoint.value, options)
      ensures r == PaneRenderer(State())
    {
      if Drawable(startPoint) && Drawable(endPoint)
      then Some(LineRenderer(startPoint.value, endPoint.value, options))
      else None
    }

    method SetPoints(start: Point, end: Point)
      modifies this
      ensures State() == PaneSetPoints(old(State()), start, end)
    {
      startPoint := Some(start);
      endPoint := Some(end);
    }

    method UpdateOptions(newOptions: Options)
      modifies this
      ensures State() == PaneUpdateOptions(old(State()), newOptions)
    {
      options := Merge(options, newOptions);
    }
  }
}
