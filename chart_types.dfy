/**
 * The shared vocabulary of the chart drawing tools: points anchored to the
 * chart's time and price axes, tool option records and how they are merged,
 * the host chart's coordinate conversions, and what a pane view hands to a
 * renderer.
 */
module ChartTypes {
  import opened Wrappers

  /** A position on the time axis: a UTC timestamp. */
  type Time = int

  /** The OHLC field a point is snapped to. */
  datatype SnapType = Open | High | Low | Close

  /**
   * A point of a drawing: its pixel position, its logical anchor (time and
   * price) and the anchor it was first given. Optional fields stand for the
   * source's optional or nullable properties.
   */
  datatype Point = Point(
    x: real,
    y: real,
    time: Option<Time>,
    price: Option<real>,
    snapType: Option<SnapType>,
    originalTime: Option<Time>,
    originalPrice: Option<real>)

  /** The placeholder point `{x: 0, y: 0, time: null, price: null}`. */
  const EmptyPoint: Point := Point(0.0, 0.0, None, None, None, None, None)

  /** JavaScript truthiness of an optional time: absent and 0 are falsy. */
  predicate TimeTruthy(t: Option<Time>) {
    t.Some? && t.value != 0
  }

  /** JavaScript truthiness of an optional price: absent and 0 are falsy. */
  predicate PriceTruthy(p: Option<real>) {
    p.Some? && p.value != 0.0
  }

  /** Both logical coordinates of the point are present and truthy. */
  predicate Anchored(p: Point) {
    TimeTruthy(p.time) && PriceTruthy(p.price)
  }

  /** A point that exists and is anchored: what the line pane views draw. */
  predicate Drawable(p: Option<Point>) {
    p.Some? && Anchored(p.value)
  }

  /** The original anchor of the point is its current anchor. */
  predicate OriginsRecorded(p: Point) {
    p.originalTime == p.time && p.originalPrice == p.price
  }

  /** `{...p, originalTime: p.time, originalPrice: p.price}`. */
  function WithOrigins(p: Point): (r: Point)
    ensures OriginsRecorded(r)
    ensures r.(originalTime := p.originalTime, originalPrice := p.originalPrice) == p
  {
    p.(originalTime := p.time, originalPrice := p.price)
  }

  /* ---------------------------------------------------------------------- */
  /* Tool options                                                            */
  /* ---------------------------------------------------------------------- */

  datatype StrokeStyle = Solid | Dashed | Dotted

  /** The properties of the line and rectangle option records. */
  datatype OptionKey =
    | Color | LineWidth | LineStyle | Snap | Finished
    | LeftExtend | RightExtend
    | FillColor | FillOpacity | BorderStyle

  datatype OptionValue =
    | Text(text: string)
    | Number(number: real)
    | Flag(flag: bool)
    | Stroke(stroke: StrokeStyle)

  /** An options object: the properties it carries and their values. */
  type Options = map<OptionKey, OptionValue>

  /**
   * `{...base, ...patch}`: every property of either object, the patch's
   * value winning where both have one.
   */
  function Merge(base: Options, patch: Options): (r: Options)
    ensures r.Keys == base.Keys + patch.Keys
    ensures forall k :: k in patch ==> r[k] == patch[k]
    ensures forall k :: k in base && k !in patch ==> r[k] == base[k]
  {
    base + patch
  }

  /** An empty patch changes nothing, and merging into nothing copies the patch. */
  lemma MergeIdentity(o: Options)
    ensures Merge(o, map[]) == o
    ensures Merge(map[], o) == o
  {
  }

  /** Merging the same patch twice is merging it once. */
  lemma MergeIdempotent(base: Options, patch: Options)
    ensures Merge(Merge(base, patch), patch) == Merge(base, patch)
  {
  }

  /** Merging a merge result into its own base yields that result. */
  lemma MergeAbsorbsBase(base: Options, patch: Options)
    ensures Merge(base, Merge(base, patch)) == Merge(base, patch)
  {
  }

  /** Consecutive merges compose into one merge of the combined patch. */
  lemma MergeAssociative(a: Options, b: Options, c: Options)
    ensures Merge(Merge(a, b), c) == Merge(a, Merge(b, c))
  {
  }

  /* ---------------------------------------------------------------------- */
  /* The host chart                                                          */
  /* ---------------------------------------------------------------------- */

  /**
   * The host chart's conversions between pixels and the time and price axes
   * as they stand at the moment of a call (`None` is the chart's `null`), and
   * the device-pixel rounding `Math.round(v * dpr) / dpr`.
   */
  datatype Viewport = Viewport(
    timeToCoordinate: Time -> Option<real>,
    coordinateToTime: real -> Option<Time>,
    priceToCoordinate: real -> Option<real>,
    coordinateToPrice: real -> Option<real>,
    snap: real -> real)

  /** `timeToCoordinate(t!)`: a missing time has no pixel. */
  function TimeToX(vp: Viewport, t: Option<Time>): (r: Option<real>)
    ensures t.None? ==> r.None?
    ensures t.Some? ==> r == vp.timeToCoordinate(t.value)
  {
    if t.Some? then vp.timeToCoordinate(t.value) else None
  }

  /** `priceToCoordinate(p!)`: a missing price has no pixel. */
  function PriceToY(vp: Viewport, p: Option<real>): (r: Option<real>)
    ensures p.None? ==> r.None?
    ensures p.Some? ==> r == vp.priceToCoordinate(p.value)
  {
    if p.Some? then vp.priceToCoordinate(p.value) else None
  }

  /**
   * The point moved to the rounded pixel position of its own time and price,
   * `{...p, x: snap(timeX), y: snap(priceY)}`, or nothing when either axis
   * cannot place it.
   */
  function Reproject(vp: Viewport, p: Point): (r: Option<Point>)
    ensures r.Some? <==> TimeToX(vp, p.time).Some? && PriceToY(vp, p.price).Some?
    ensures r.Some? ==> r.value.(x := p.x, y := p.y) == p
    ensures r.Some? ==> r.value.x == vp.snap(TimeToX(vp, p.time).value)
    ensures r.Some? ==> r.value.y == vp.snap(PriceToY(vp, p.price).value)
  {
    var x := TimeToX(vp, p.time);
    var y := PriceToY(vp, p.price);
    if x.Some? && y.Some? then Some(p.(x := vp.snap(x.value), y := vp.snap(y.value))) else None
  }

  /** Both endpoints reprojected, or nothing if either fails. */
  function ReprojectPair(vp: Viewport, start: Point, end: Point): (r: Option<(Point, Point)>)
    ensures r.Some? <==> Reproject(vp, start).Some? && Reproject(vp, end).Some?
    ensures r.Some? ==> r.value == (Reproject(vp, start).value, Reproject(vp, end).value)
  {
    var s := Reproject(vp, start);
    var e := Reproject(vp, end);
    if s.Some? && e.Some? then Some((s.value, e.value)) else None
  }

  /* ---------------------------------------------------------------------- */
  /* What pane views hand to renderers                                       */
  /* ---------------------------------------------------------------------- */

  /** The arguments a line renderer is constructed with. */
  datatype LineRenderer = LineRenderer(start: Point, end: Point, options: Options)

  /** The arguments a rectangle renderer is constructed with. */
  datatype RectRenderer = RectRenderer(start: Point, end: Point, options: Options)
}
