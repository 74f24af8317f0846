/**
 * The rectangle drawing tool: a two-flag state machine (`started`,
 * `finished`) with a start and an end point, and the primitive and pane view
 * through which the chart draws it.
 */
module RectTools {
  import opened Wrappers
  import opened ChartTypes

  /* ---------------------------------------------------------------------- */
  /* The tool's observable state and its transitions                        */
  /* ---------------------------------------------------------------------- */

  /** What a rectangle tool holds; `attached` is whether it still has a primitive. */
  datatype RectState = RectState(
    started: bool,
    finished: bool,
    startPoint: Option<Point>,
    endPoint: Option<Point>,
    attached: bool,
    options: Options)

  /** A freshly constructed tool: attached, nothing drawn yet. */
  function RectInitial(options: Options): RectState {
    RectState(false, false, None, None, true, options)
  }

  /** `start(point)`: ignored once finished. */
  function RectStart(s: RectState, p: Point): RectState {
    if s.finished then s else s.(started := true, startPoint := Some(p), endPoint := Some(p))
  }

  /** `move(point)`: only while started and not finished. */
  function RectMove(s: RectState, p: Point): RectState {
    if !s.started || s.finished then s else s.(endPoint := Some(p))
  }

  /** `stop(point)`: only while started. */
  function RectStop(s: RectState, p: Point): RectState {
    if !s.started then s else s.(endPoint := Some(p), finished := true, started := false)
  }

  /** `remove()`: detaches the primitive and forgets both points. */
  function RectRemove(s: RectState): RectState {
    s.(attached := false, startPoint := None, endPoint := None)
  }

  /** `updateOptions(patch)`. */
  function RectUpdateOptions(s: RectState, patch: Options): RectState {
    s.(options := Merge(s.options, patch))
  }

  /** What the rectangle manager replays to redraw a tool: `start(points.start)`, `stop(points.end)`. */
  function RectRefresh(s: RectState): RectState {
    if s.startPoint.Some? && s.endPoint.Some? then RectStop(RectStart(s, s.startPoint.value), s.endPoint.value)
    else s
  }

  /** The phase the two flags encode. */
  datatype Phase = Idle | Drawing | Done

  function PhaseOf(s: RectState): Phase {
    if s.finished then Done else if s.started then Drawing else Idle
  }

  /**
   * What every reachable state satisfies: the flags are never both set, and
   * while the primitive is attached the points exist exactly once drawing
   * has begun.
   */
  predicate RectInv(s: RectState) {
    && !(s.started && s.finished)
    && (s.attached ==> (s.startPoint.Some? <==> s.started || s.finished))
    && (s.attached ==> (s.startPoint.Some? <==> s.endPoint.Some?))
  }

  /** The pointer gestures that drive the tool. */
  datatype Gesture = Press(p: Point) | Drag(p: Point) | Release(p: Point)

  function RectStep(s: RectState, g: Gesture): RectState {
    match g
    case Press(p) => RectStart(s, p)
    case Drag(p) => RectMove(s, p)
    case Release(p) => RectStop(s, p)
  }

  /** The state after a sequence of gestures. */
  function RectReplay(s: RectState, gs: seq<Gesture>): RectState
    decreases |gs|
  {
    if gs == [] then s else RectReplay(RectStep(s, gs[0]), gs[1..])
  }

  /** The initial state is reachable-consistent, and every transition keeps the invariant. */
  lemma RectInvInductive(s: RectState, p: Point, patch: Options, options: Options)
    ensures RectInv(RectInitial(options))
    ensures RectInv(s) ==> RectInv(RectStart(s, p)) && RectInv(RectMove(s, p)) && RectInv(RectStop(s, p))
    ensures RectInv(s) ==> RectInv(RectRemove(s))
    ensures RectInv(s) ==> RectInv(RectUpdateOptions(s, patch))
  {
  }

  /**
   * The phases only move forward: Idle to Drawing by `start`, Drawing to
   * Done by `stop`; `move` never changes the phase.
   */
  lemma RectPhasesAdvance(s: RectState, p: Point)
    requires RectInv(s)
    ensures PhaseOf(RectStart(s, p)) == if PhaseOf(s) == Done then Done else Drawing
    ensures PhaseOf(RectMove(s, p)) == PhaseOf(s)
    ensures PhaseOf(RectStop(s, p)) == if PhaseOf(s) == Idle then Idle else Done
  {
  }

  /** An accepted `move` changes the end point and nothing else. */
  lemma RectMoveOnlyMovesEnd(s: RectState, p: Point)
    requires s.started && !s.finished
    ensures RectMove(s, p) == s.(endPoint := Some(p))
  {
  }

  /** Once finished, no gesture sequence changes anything. */
  lemma {:induction false} RectDoneIsFinal(s: RectState, gs: seq<Gesture>)
    requires RectInv(s) && s.finished
    ensures RectReplay(s, gs) == s
    decreases |gs|
  {
    if gs != [] {
      assert RectStep(s, gs[0]) == s;
      RectDoneIsFinal(s, gs[1..]);
    }
  }

  /** The invariant holds after any gesture sequence. */
  lemma {:induction false} RectReplayKeepsInv(s: RectState, gs: seq<Gesture>)
    requires RectInv(s)
    ensures RectInv(RectReplay(s, gs))
    decreases |gs|
  {
    if gs != [] {
      var p := gs[0].p;
      RectInvInductive(s, p, map[], s.options);
      RectReplayKeepsInv(RectStep(s, gs[0]), gs[1..]);
    }
  }

  /** Gestures never touch the options or the attachment. */
  lemma {:induction false} RectReplayKeepsOptions(s: RectState, gs: seq<Gesture>)
    ensures RectReplay(s, gs).options == s.options
    ensures RectReplay(s, gs).attached == s.attached
    decreases |gs|
  {
    if gs != [] {
      RectReplayKeepsOptions(RectStep(s, gs[0]), gs[1..]);
    }
  }

  /**
   * Replaying a tool's own points leaves them where they are and leaves the
   * tool finished; on a finished tool it changes nothing at all.
   */
  lemma RectRefreshKeepsPoints(s: RectState)
    requires RectInv(s)
    ensures RectRefresh(s).startPoint == s.startPoint
    ensures RectRefresh(s).endPoint == s.endPoint
    ensures RectRefresh(s).options == s.options && RectRefresh(s).attached == s.attached
    ensures s.startPoint.Some? && s.endPoint.Some? ==> RectRefresh(s).finished && !RectRefresh(s).started
    ensures s.finished ==> RectRefresh(s) == s
  {
  }

  /* ---------------------------------------------------------------------- */
  /* The pane view and the primitive                                         */
  /* ---------------------------------------------------------------------- */

  /** What the chart asks for a renderer: the two points and the options. */
  class RectPaneView {
    var startPoint: Option<Point>
    var endPoint: Option<Point>
    var options: Options

    constructor (options: Options)
      ensures startPoint == None && endPoint == None && this.options == options
    {
      startPoint := None;
      endPoint := None;
      this.options := options;
    }

    method UpdateOptions(patch: Options)
      modifies this
      ensures options == Merge(old(options), patch)
      ensures startPoint == old(startPoint) && endPoint == old(endPoint)
    {
      options := Merge(options, patch);
    }

    method SetPoints(start: Point, end: Point)
      modifies this
      ensures startPoint == Some(start) && endPoint == Some(end)
      ensures options == old(options)
    {
      startPoint := Some(start);
      endPoint := Some(end);
    }

    /** No renderer exactly when a point is missing; otherwise one for the current points and options. */
    function Renderer(): (r: Option<RectRenderer>)
      reads this
      ensures r.None? <==> startPoint.None? || endPoint.None?
      ensures r.Some? ==> r.value.start == startPoint.value && r.value.end == endPoint.value
      ensures r.Some? ==> r.value.options == options
    {
      if startPoint.None? || endPoint.None? then None
      else Some(RectRenderer(startPoint.value, endPoint.value, options))
    }
  }

  /** The object attached to the chart series; it forwards to its pane view. */
  class RectPrimitive {
    const paneView: RectPaneView

    constructor (options: Options)
      ensures fresh(paneView)
      ensures paneView.startPoint == None && paneView.endPoint == None && paneView.options == options
    {
      paneView := new RectPaneView(options);
    }

    method SetPoints(start: Point, end: Point)
      modifies paneView
      ensures paneView.startPoint == Some(start) && paneView.endPoint == Some(end)
      ensures paneView.options == old(paneView.options)
    {
      paneView.SetPoints(start, end);
    }

    method UpdateOptions(patch: Options)
      modifies paneView
      ensures paneView.options == Merge(old(paneView.options), patch)
      ensures paneView.startPoint == old(paneView.startPoint) && paneView.endPoint == old(paneView.endPoint)
    {
      paneView.UpdateOptions(patch);
    }
  }

  /* ---------------------------------------------------------------------- */
  /* The tool                                                                */
  /* ---------------------------------------------------------------------- */

  class RectTool {
    var primitive: RectPrimitive?
    var startPoint: Option<Point>
    var endPoint: Option<Point>
    var finished: bool
    var started: bool
    var options: Options
    ghost var Repr: set<object>

    /** The tool's state as a value. */
    function State(): RectState
      reads this
    {
      RectState(started, finished, startPoint, endPoint, primitive != null, options)
    }

    /**
     * The object invariant: the state is consistent and, while attached, the
     * pane view shows exactly the tool's points and options.
     */
    ghost predicate Valid()
      reads this, Repr
    {
      && this in Repr
      && (primitive != null ==>
            && primitive in Repr && primitive.paneView in Repr
            && primitive.paneView.startPoint == startPoint
            && primitive.paneView.endPoint == endPoint
            && primitive.paneView.options == options)
      && RectInv(State())
    }

    constructor (options: Options)
      ensures Valid() && fresh(Repr)
      ensures State() == RectInitial(options)
    {
      var p := new RectPrimitive(options);
      primitive := p;
      startPoint := None;
      endPoint := None;
      finished := false;
      started := false;
      this.options := options;
      Repr := {this, p, p.paneView};
    }

    method Start(point: Point)
      requires Valid()
      modifies Repr
      ensures Valid() && Repr == old(Repr)
      ensures State() == RectStart(old(State()), point)
    {
      if finished {
        return;
      }
      started := true;
      startPoint := Some(point);
      endPoint := Some(point);
      if primitive != null {
        primitive.SetPoints(point, point);
      }
    }

    method Move(point: Point)
      requires Valid()
      modifies Repr
      ensures Valid() && Repr == old(Repr)
      ensures State() == RectMove(old(State()), point)
    {
      if !started || finished {
        return;
      }
      endPoint := Some(point);
      if primitive != null && startPoint.Some? {
        primitive.SetPoints(startPoint.value, point);
      }
    }

    method Stop(point: Point)
      requires Valid()
      modifies Repr
      ensures Valid() && Repr == old(Repr)
      ensures State() == RectStop(old(State()), point)
    {
      if !started {
        return;
      }
      endPoint := Some(point);
      finished := true;
      started := false;
      if primitive != null && startPoint.Some? {
        primitive.SetPoints(startPoint.value, point);
      }
    }

    method Remove()
      requires Valid()
      modifies this
      ensures Valid() && Repr == old(Repr)
      ensures State() == RectRemove(old(State()))
      ensures GetPoints() == (None, None)
    {
      primitive := null;
      startPoint := None;
      endPoint := None;
    }

    /** `isStarted()`: the pointer is down and the rectangle is being drawn. */
    function IsStarted(): (r: bool)
      reads this
      ensures r <==> State().started
    {
      started
    }

    /** `isFinished()`: the rectangle was released; unlike the line tool, the points are not checked. */
    function IsFinished(): (r: bool)
      reads this
      ensures r <==> PhaseOf(State()) == Done
    {
      finished
    }

    /** `getPoints()`: the current start and end point. */
    function GetPoints(): (r: (Option<Point>, Option<Point>))
      reads this
      ensures r.0 == State().startPoint && r.1 == State().endPoint
    {
      (startPoint, endPoint)
    }

    /** `getOptions()`: a copy equal to the stored options. */
    function GetOptions(): (r: Options)
      reads this
      ensures r == State().options
    {
      options
    }

    method UpdateOptions(patch: Options)
      requires Valid()
      modifies Repr
      ensures Valid() && Repr == old(Repr)
      ensures State() == RectUpdateOptions(old(State()), patch)
    {
      var merged := Merge(options, patch);
      options := merged;
      if primitive != null {
        MergeAbsorbsBase(old(options), patch);
        primitive.UpdateOptions(merged);
      }
    }
  }
}
