# ChartTools drawing tools, modelled in Dafny

This project models the drawing-tools plugin of a Vue 3 front end for TradingView's lightweight-charts library: the code under `src/plugins/ChartTools`.

- **Line tool.** A line tool turns pointer pixels into points. Each point is anchored to a time on the time axis and to a price on the price axis, and records that first anchor as its original one. The tool draws the segment through a primitive attached to the chart series. It keeps a preview primitive that shows where a line would start. When the chart is panned or zoomed, it moves the segment back onto its anchors.
- **Line manager.** This registry keeps the finished lines with the points saved when each was finished. It also holds the line being drawn and its start point. It hit-tests a pixel against each saved segment and redraws every line when the chart moves.
- **Rectangle tool.** A rectangle tool is a two-flag state machine: started, then finished.
- **Rectangle manager.** It keeps the rectangles in drawing order. Its hit test returns the topmost rectangle whose box, or a band around the box's edges, contains the pointer.
- **Style store.** It holds the built-in default and preset styles of both tool kinds. It also holds the current default of each kind and named custom styles. Listeners are told when a default changes.
- **Stand-alone line pane view.** It hands a renderer the two endpoints once both are anchored.

Files, one module per source file:

| file | module | models |
|---|---|---|
| `wrappers.dfy` | `Wrappers` | `Option` |
| `chart_types.dfy` | `ChartTypes` | points, truthiness of anchors, option objects and their spread-merge, the host chart's coordinate conversions |
| `line_tool.dfy` | `LineTools` | `LineTool.ts`: the tool, its primitive and the inner pane view |
| `line_manager.dfy` | `LineManagers` | `LineManager.ts`: the segment hit test and the registry |
| `rect_tool.dfy` | `RectTools` | `RectTool.ts`: the tool, its primitive and pane view |
| `rect_manager.dfy` | `RectManagers` | `RectManager.ts`: the box hit test and the registry |
| `tool_styles.dfy` | `ToolStyles` | `config/toolStyles.ts` |
| `line_pane_view.dfy` | `LinePaneViews` | `LinePaneView.ts` |

How the model is built:

- Every class whose fields the source updates is a Dafny `class` with those fields. Each method is specified by a pure function on a state value, as in `ensures State() == LineStop(old(State()), vp, point)`. The lemmas are stated about those functions: which transitions are ignored, what they leave unchanged, and invariants kept over any sequence of operations.
- An options object is a `map<OptionKey, OptionValue>`. `{...a, ...b}` is `Merge(a, b)`.
- `undefined` and `null` fields are `Option`. JavaScript truthiness of a time or a price is explicit: `0` is falsy.
- The chart's `timeToCoordinate`, `coordinateToTime`, `priceToCoordinate` and `coordinateToPrice` are the fields of a `Viewport` value, passed to each operation that calls them. The device-pixel rounding `Math.round(v * dpr) / dpr` is the field `snap`.
- The line tool and its pane view share one options object by reference, because `stop` and `finish` set `finished` on it. That object is the class `OptionsCell`.

## Model

| member | source | states |
|---|---|---|
| ChartTypes.WithOrigins | src/plugins/ChartTools/LineManager.ts:67-71 | the copy records the point's current time and price as its original anchor and changes nothing else |
| ChartTypes.Merge | src/plugins/ChartTools/LinePaneView.ts:39 | the spread carries the keys of both objects, and the patch wins where both have a key |
| ChartTypes.MergeIdempotent | src/plugins/ChartTools/RectTool.ts:89 | merging the same patch twice is merging it once |
| ChartTypes.MergeAbsorbsBase | src/plugins/ChartTools/RectTool.ts:88-94 | merging the tool's merged options into the pane view's old options gives the tool's options |
| ChartTypes.MergeAssociative | src/plugins/ChartTools/LinePaneView.ts:38-40 | successive merges compose into one merge of the combined patch |
| ChartTypes.MergeIdentity | src/plugins/ChartTools/LinePaneView.ts:14 | an empty patch changes nothing, and merging into an empty object copies the patch |
| ChartTypes.TimeToX | src/plugins/ChartTools/LineManager.ts:23-24 | a missing time has no pixel; otherwise the chart's conversion is asked |
| ChartTypes.PriceToY | src/plugins/ChartTools/LineManager.ts:25-26 | a missing price has no pixel; otherwise the series' conversion is asked |
| ChartTypes.Reproject | src/plugins/ChartTools/LineTool.ts:345-378 | the point is placed at the rounded pixels of its own time and price exactly when both conversions succeed, and only x and y change |
| ChartTypes.ReprojectPair | src/plugins/ChartTools/LineTool.ts:345-365 | both endpoints are reprojected, or neither when any of the four conversions fails |
| LineTools.OptionsCell.constructor | src/plugins/ChartTools/LineTool.ts:18 | the shared options object holds the given options |
| LineTools.CreatePoint | src/plugins/ChartTools/LineTool.ts:152-170 | with a truthy time and a non-null price under the pixel: the rounded pixel, that time and price, recorded as the original anchor too, and no snap type; otherwise the input point unchanged |
| LineTools.StartAnchor | src/plugins/ChartTools/LineTool.ts:72-88 | defined exactly when all four conversions succeed; then the point carries the time and price under the pixel, records them as its original anchor, and already sits at its own reprojected pixels |
| LineTools.PreviewOptions | src/plugins/ChartTools/LineTool.ts:20-24 | the preview is drawn one pixel wide in the line's color with `80` appended, and every other option is kept |
| LineTools.LineStartCommit | src/plugins/ChartTools/LineTool.ts:62-101 | a finished tool ignores `start`; otherwise the preview goes away. With all four conversions succeeding, the tool is started and both points are the same anchor, drawn by the primitive. With any failing, nothing else changes |
| LineTools.LineMoveOnlyMovesEnd | src/plugins/ChartTools/LineTool.ts:108-119 | `move` is ignored when finished, detached or without a start point; otherwise only the end point changes, to the created point |
| LineTools.LineStopCommit | src/plugins/ChartTools/LineTool.ts:121-135 | `stop` is ignored without a start point or a primitive; otherwise only the end moves, to the created point, drawing ends, `finished` is set in the state and in the options, and the primitive draws the new segment |
| LineTools.LineStopAfterFinish | src/plugins/ChartTools/LineTool.ts:121-135 | `stop` does not check `finished`: on a finished, attached line with a start point it still moves the end and leaves the tool finished and not started |
| LineTools.LineFinishWithoutPointsRemoves | src/plugins/ChartTools/LineTool.ts:272-285 | `finish` without both points is `remove`; a removed line is never finished; with both points `finish` leaves it finished |
| LineTools.LineRedrawMovesOnlyPixels | src/plugins/ChartTools/LineTool.ts:339-388 | whatever the outcome, `redraw` touches nothing but the two points and the drawing, and new points are the given ones with only their pixels changed; when a conversion fails it changes nothing |
| LineTools.LineRedrawCommits | src/plugins/ChartTools/LineTool.ts:357-375 | on an attached line whose four conversions succeed, `redraw` takes effect: both points move to the rounded pixels of the given anchors and the primitive draws them |
| LineTools.LineRefreshKeepsPoints | src/plugins/ChartTools/LineTool.ts:172-236 | `updatePosition()` without points changes only what the primitive draws, never the tool's points |
| LineTools.LineClearDisplayKeepsPoints | src/plugins/ChartTools/LineTool.ts:318-337 | `clearDisplay` changes only what the primitive draws |
| LineTools.LineStepKeepsInv | src/plugins/ChartTools/LineTool.ts:62-421 | every operation keeps both points present together, and keeps the preview gone once drawing has started |
| LineTools.LineReplayKeepsInv | src/plugins/ChartTools/LineTool.ts:62-421 | that invariant holds after any sequence of the tool's operations |
| LineTools.LineDetachedStaysDetached | src/plugins/ChartTools/LineTool.ts:287-299 | after `remove` no sequence of operations attaches a primitive or a preview again |
| LineTools.LineFinishedStaysFinished | src/plugins/ChartTools/LineTool.ts:121-135 | once finished, a tool stays finished whatever sequence of operations follows |
| LineTools.LineFrameUndoesDisplayChanges | src/plugins/ChartTools/LineTool.ts:144-150 | one deferred render after `updatePosition()` without points, or after `clearDisplay`, puts the tool's own points back on the primitive; after a `redraw` that took effect, and after another render, it changes nothing |
| LineTools.LineFinishKeepsStarted | src/plugins/ChartTools/LineTool.ts:272-285 | `finish` after a committed `start` leaves the tool both started and finished, and `isFinished` holds |
| LineTools.LinePaneView.constructor | src/plugins/ChartTools/LineTool.ts:496-499 | a new inner pane view has no points and renders with the given options object |
| LineTools.LinePaneView.Renderer | src/plugins/ChartTools/LineTool.ts:505-512 | a renderer exists exactly when both points carry a truthy time and price, and it gets both points and the current options |
| LineTools.LinePaneView.SetPoints | src/plugins/ChartTools/LineTool.ts:514-517 | the view holds the given points |
| LineTools.LinePaneView.UpdateOptions | src/plugins/ChartTools/LineTool.ts:519-521 | the view takes the given options object itself, without merging |
| LineTools.LinePrimitive.constructor | src/plugins/ChartTools/LineTool.ts:431-436 | a fresh pane view over the given options, with no points |
| LineTools.LinePrimitive.SetPoints | src/plugins/ChartTools/LineTool.ts:455-464 | the primitive and its pane view hold the given points |
| LineTools.LinePrimitive.ClearPoints | src/plugins/ChartTools/LineTool.ts:466-479 | the primitive forgets its points and the pane view gets empty points, so it renders nothing |
| LineTools.LinePrimitive.UpdateAllViews | src/plugins/ChartTools/LineTool.ts:438-449 | the pane view shows the primitive's points again, and nothing else changes |
| LineTools.LinePrimitive.UpdateOptions | src/plugins/ChartTools/LineTool.ts:481-488 | the pane view takes the new options object and keeps showing the primitive's points |
| LineTools.LineTool.constructor | src/plugins/ChartTools/LineTool.ts:16-36 | a tool attached with no points; its preview is drawn with the preview options |
| LineTools.LineTool.Start | src/plugins/ChartTools/LineTool.ts:62-101 | the new state is `LineStart` of the old one, and the pane view keeps mirroring the primitive |
| LineTools.LineTool.Move | src/plugins/ChartTools/LineTool.ts:108-119 | the new state is `LineMove` of the old one |
| LineTools.LineTool.Stop | src/plugins/ChartTools/LineTool.ts:121-135 | the new state is `LineStop` of the old one, including `finished` set on the shared options |
| LineTools.LineTool.Finish | src/plugins/ChartTools/LineTool.ts:272-285 | the new state is `LineFinish` of the old one |
| LineTools.LineTool.Remove | src/plugins/ChartTools/LineTool.ts:287-299 | the new state is `LineRemove` of the old one, and the tool is not finished |
| LineTools.LineTool.Redraw | src/plugins/ChartTools/LineTool.ts:339-388 | the new state is `LineRedraw` of the old one |
| LineTools.LineTool.UpdatePosition | src/plugins/ChartTools/LineTool.ts:172-236 | with points it is `redraw`; without points it redraws the primitive at the tool's own anchors |
| LineTools.LineTool.HandleScaleChange | src/plugins/ChartTools/LineTool.ts:238-270 | when the start's original time and price and the end's time and price are truthy and all four conversions succeed, the start goes back to its original anchor and both points are redrawn at their anchors' current pixels; the redraw itself needs the primitive and succeeds only if the conversions succeed again |
| LineTools.LineTool.RenderFrame | src/plugins/ChartTools/LineTool.ts:144-150 | the deferred render sets the primitive to the tool's own points when it still has a primitive and both points |
| LineTools.LineTool.ClearDisplay | src/plugins/ChartTools/LineTool.ts:318-337 | the new state is `LineClearDisplay` of the old one |
| LineTools.LineTool.SetPoints | src/plugins/ChartTools/LineTool.ts:38-43 | only what the primitive draws changes |
| LineTools.LineTool.ShowPreviewPoint | src/plugins/ChartTools/LineTool.ts:391-397 | before drawing starts, the preview shows a one-point segment at the created point |
| LineTools.LineTool.UpdateOptions | src/plugins/ChartTools/LineTool.ts:403-421 | the tool's options become the merge, in a new object that the pane view now uses |
| LineTools.LineTool.GetOptions | src/plugins/ChartTools/LineTool.ts:399-401 | the tool's current options |
| LineTools.LineTool.GetPoints | src/plugins/ChartTools/LineTool.ts:137-142 | the current start and end point |
| LineTools.LineTool.IsStarted | src/plugins/ChartTools/LineTool.ts:58-60 | the state's started flag |
| LineTools.LineTool.IsFinished | src/plugins/ChartTools/LineTool.ts:49-51 | finished, and both points present |
| LineTools.LineTool.IsValid | src/plugins/ChartTools/LineTool.ts:53-56 | both points present and differing in x and in y, which makes them distinct points |
| LineTools.LineTool.PriceToCoordinate | src/plugins/ChartTools/LineTool.ts:302-316 | the series is asked at most four times and at least once; the result is the last answer, every earlier answer was null, and a null result means all four were |
| LineManagers.NearLineIsClamped | src/plugins/ChartTools/LineManager.ts:162-190 | for a segment of non-zero length the test compares the tolerance with the distance to the point at the clamped projection parameter |
| LineManagers.ClampIsClosest | src/plugins/ChartTools/LineManager.ts:168-183 | the clamped projection is the point of the segment closest to the pointer |
| LineManagers.NearLineIffSegmentPointWithin | src/plugins/ChartTools/LineManager.ts:162-190 | for a segment of non-zero length, the hit test holds exactly when the tolerance is positive and some point of the segment lies strictly within it |
| LineManagers.DegenerateNeverHit | src/plugins/ChartTools/LineManager.ts:169-170 | a zero-length segment is never hit: `len_sq` is 0, `param` is NaN, and the comparison fails |
| LineManagers.LenSqFacts | src/plugins/ChartTools/LineManager.ts:169 | `len_sq` is non-negative, symmetric in the two ends, and 0 for coinciding ends |
| LineManagers.SegDistSqReversed | src/plugins/ChartTools/LineManager.ts:181-187 | walking the segment from the other end meets the same distances |
| LineManagers.NearLineSymmetric | src/plugins/ChartTools/LineManager.ts:162-190 | which end the line was drawn from does not matter to the hit test |
| LineManagers.StartIsHit | src/plugins/ChartTools/LineManager.ts:162-190 | with a positive tolerance, the start pixel of a segment of non-zero length is a hit |
| LineManagers.LineRefreshedIsRedraw | src/plugins/ChartTools/LineManager.ts:19-45 | refreshing one saved line is `redraw` at its saved points, because the tool recomputes the pixels handed to it |
| LineManagers.LineRefreshedKeepsAnchors | src/plugins/ChartTools/LineManager.ts:19-45 | a refresh that moves a line puts its start on the saved time and price |
| LineManagers.LineManager.constructor | src/plugins/ChartTools/LineManager.ts:6-13 | no lines, no draft line, no start point and no listener |
| LineManagers.LineManager.StartNewLine | src/plugins/ChartTools/LineManager.ts:56-59 | a fresh tool in its initial state becomes the draft line, and the saved lines stay as they are |
| LineManagers.LineManager.SetStartPoint | src/plugins/ChartTools/LineManager.ts:65-73 | ignored without a draft line; otherwise the start point is stored with its original anchor recorded |
| LineManagers.LineManager.SetOnLinesChanged | src/plugins/ChartTools/LineManager.ts:75-77 | a listener is set and nothing else changes |
| LineManagers.LineManager.FinishCurrentLine | src/plugins/ChartTools/LineManager.ts:79-111 | ignored without a draft line and a start point. With both points anchored, the line is appended with the end's original anchor recorded, and the listener is called once if set. Otherwise the draft tool is removed. Both slots are cleared either way |
| LineManagers.LineManager.RemoveAllLines | src/plugins/ChartTools/LineManager.ts:113-132 | every saved tool and the draft are removed, the list and both slots end empty, and the listener is called once if set |
| LineManagers.LineManager.RemoveLine | src/plugins/ChartTools/LineManager.ts:142-149 | an index in range is spliced out of the list, its tool is removed and the listener is called; an index out of range changes nothing |
| LineManagers.LineManager.GetLineAtPosition | src/plugins/ChartTools/LineManager.ts:151-160 | the lowest index whose saved segment is hit, or -1 when none is |
| LineManagers.LineManager.UpdateLines | src/plugins/ChartTools/LineManager.ts:15-46 | every saved line's tool is refreshed at its saved anchors, and nothing else changes |
| RectTools.RectInvInductive | src/plugins/ChartTools/RectTool.ts:21-95 | the initial state and every transition keep the invariant: the flags are never both set, and while attached the points exist exactly once drawing has begun |
| RectTools.RectPhasesAdvance | src/plugins/ChartTools/RectTool.ts:21-50 | `start` moves Idle to Drawing, `stop` moves Drawing to Done, `move` keeps the phase, and Done is kept by all three |
| RectTools.RectMoveOnlyMovesEnd | src/plugins/ChartTools/RectTool.ts:32-39 | an accepted `move` changes the end point and nothing else |
| RectTools.RectDoneIsFinal | src/plugins/ChartTools/RectTool.ts:21-50 | once finished, no sequence of gestures changes anything |
| RectTools.RectReplayKeepsInv | src/plugins/ChartTools/RectTool.ts:21-50 | the invariant holds after any sequence of gestures |
| RectTools.RectReplayKeepsOptions | src/plugins/ChartTools/RectTool.ts:21-50 | gestures never touch the options or the attachment |
| RectTools.RectRefreshKeepsPoints | src/plugins/ChartTools/RectManager.ts:87-91 | replaying a rectangle's own points keeps them and leaves it finished; on a finished rectangle it changes nothing |
| RectTools.RectPaneView.constructor | src/plugins/ChartTools/RectTool.ts:126-129 | no points, and the given options |
| RectTools.RectPaneView.UpdateOptions | src/plugins/ChartTools/RectTool.ts:131-133 | the options are merged and the points kept |
| RectTools.RectPaneView.SetPoints | src/plugins/ChartTools/RectTool.ts:135-138 | the given points, with the options unchanged |
| RectTools.RectPaneView.Renderer | src/plugins/ChartTools/RectTool.ts:144-147 | none exactly when a point is missing; otherwise one for the current points and options |
| RectTools.RectPrimitive.constructor | src/plugins/ChartTools/RectTool.ts:101-103 | a fresh pane view with no points and the given options |
| RectTools.RectPrimitive.SetPoints | src/plugins/ChartTools/RectTool.ts:109-113 | the pane view holds the given points |
| RectTools.RectPrimitive.UpdateOptions | src/plugins/ChartTools/RectTool.ts:115-119 | the pane view merges the options and keeps its points |
| RectTools.RectTool.constructor | src/plugins/ChartTools/RectTool.ts:12-19 | an attached tool with no points and neither flag set |
| RectTools.RectTool.Start | src/plugins/ChartTools/RectTool.ts:21-30 | the new state is `RectStart` of the old one, and the pane view shows the tool's points |
| RectTools.RectTool.Move | src/plugins/ChartTools/RectTool.ts:32-39 | the new state is `RectMove` of the old one |
| RectTools.RectTool.Stop | src/plugins/ChartTools/RectTool.ts:41-50 | the new state is `RectStop` of the old one |
| RectTools.RectTool.Remove | src/plugins/ChartTools/RectTool.ts:68-75 | detached with no points |
| RectTools.RectTool.IsStarted | src/plugins/ChartTools/RectTool.ts:52-54 | the started flag |
| RectTools.RectTool.IsFinished | src/plugins/ChartTools/RectTool.ts:56-58 | the Done phase, whether or not points remain |
| RectTools.RectTool.GetPoints | src/plugins/ChartTools/RectTool.ts:77-82 | the current start and end point |
| RectTools.RectTool.GetOptions | src/plugins/ChartTools/RectTool.ts:84-86 | the current options |
| RectTools.RectTool.UpdateOptions | src/plugins/ChartTools/RectTool.ts:88-95 | the options are merged, and the pane view ends with the same options as the tool |
| RectManagers.DistanceToRange | src/plugins/ChartTools/RectManager.ts:55-58 | the distance is non-negative and 0 exactly inside the range |
| RectManagers.IsPointNearRect | src/plugins/ChartTools/RectManager.ts:40-62 | every point inside the box is a hit; every hit lies within the threshold of the box; with a negative threshold only the inside is hit |
| RectManagers.RectHitByDistance | src/plugins/ChartTools/RectManager.ts:40-62 | a hit means inside, or level with the box on one axis and at most the threshold away from it on the other |
| RectManagers.RectHitSymmetric | src/plugins/ChartTools/RectManager.ts:41-44 | swapping the corners, or changing their non-pixel fields, changes nothing |
| RectManagers.RectCornerMiss | src/plugins/ChartTools/RectManager.ts:55-61 | a point diagonally outside a corner is never a hit, however wide the threshold |
| RectManagers.RectHitMonotone | src/plugins/ChartTools/RectManager.ts:55-61 | a wider threshold never loses a hit |
| RectManagers.RectScenario | src/plugins/ChartTools/RectManager.ts:27-62 | a rectangle over the box (10,10)-(50,50) is hit at (30,30) and missed at (200,200) |
| RectManagers.RectManager.constructor | src/plugins/ChartTools/RectManager.ts:6-12 | no rectangles and no current rectangle |
| RectManagers.RectManager.StartNewRect | src/plugins/ChartTools/RectManager.ts:14-18 | a fresh tool in its initial state is appended and becomes current |
| RectManagers.RectManager.FinishCurrentRect | src/plugins/ChartTools/RectManager.ts:20-25 | with a current rectangle and a point, it is stopped there and the slot cleared; otherwise nothing changes |
| RectManagers.RectManager.GetRectAtPosition | src/plugins/ChartTools/RectManager.ts:27-38 | the highest index whose rectangle has both points and is hit, or -1 when none is |
| RectManagers.RectManager.RemoveRect | src/plugins/ChartTools/RectManager.ts:64-69 | an index in range is spliced out and its tool removed; an index out of range changes nothing |
| RectManagers.RectManager.RemoveAllRects | src/plugins/ChartTools/RectManager.ts:71-75 | every listed tool is removed, the list is emptied and the current slot cleared |
| RectManagers.RectManager.UpdateRect | src/plugins/ChartTools/RectManager.ts:81-94 | the rectangle at an index in range gets the merged options and then replays its own points; the others stay as they are |
| ToolStyles.Names | src/plugins/ChartTools/config/toolStyles.ts:133-135 | the names of the entries, in order |
| ToolStyles.Lookup | src/plugins/ChartTools/config/toolStyles.ts:103-105 | found exactly when the name is among the entries, and then the stored pair is one of them |
| ToolStyles.LookupFindsFirst | src/plugins/ChartTools/config/toolStyles.ts:103-105 | of several entries with the same name, the first one is found |
| ToolStyles.PresetStyle | src/plugins/ChartTools/config/toolStyles.ts:99-106 | a preset exists exactly for the listed preset names of the kind, and it is that kind's preset |
| ToolStyles.ToolTypes | src/plugins/ChartTools/config/toolStyles.ts:138-140 | both tool kinds, each once |
| ToolStyles.PresetCatalogue | src/plugins/ChartTools/config/toolStyles.ts:6-59 | lines have the presets `trend` and `support`, rectangles `highlight` and `zone`, with their configured values; no kind has the other's presets |
| ToolStyles.Deliveries | src/plugins/ChartTools/config/toolStyles.ts:168-170 | one invocation per callback, in registration order, each with the event's data |
| ToolStyles.InitialDefaults | src/plugins/ChartTools/config/toolStyles.ts:81-86 | right after construction each kind's default is its built-in default, and no custom style exists |
| ToolStyles.AddCustomStores | src/plugins/ChartTools/config/toolStyles.ts:109-123 | the custom style is the current default overridden by the given fields; other custom styles, the defaults and the listeners stay as they are |
| ToolStyles.AddCustomOverwrites | src/plugins/ChartTools/config/toolStyles.ts:119-122 | adding under a name that is taken replaces the earlier style |
| ToolStyles.CustomIsSnapshot | src/plugins/ChartTools/config/toolStyles.ts:117-122 | a custom style is a snapshot: later changes to the default leave it as it was |
| ToolStyles.UpdateDefaultMerges | src/plugins/ChartTools/config/toolStyles.ts:143-158 | only the given fields of that kind's default change, the other kind's default is kept, and exactly the `defaultStyleChanged` listeners are told the new default, in order |
| ToolStyles.SubscribeAllAppends | src/plugins/ChartTools/config/toolStyles.ts:161-166 | subscriptions are kept per event in registration order, and other events are untouched |
| ToolStyles.EmitReachesSubscribers | src/plugins/ChartTools/config/toolStyles.ts:161-170 | after a series of subscriptions an emit reaches the event's earlier callbacks and then exactly the new ones, in subscription order; an event nobody subscribed to delivers nothing |
| ToolStyles.ToolStyleManager.constructor | src/plugins/ChartTools/config/toolStyles.ts:81-86 | the initial store, with each kind's default being its built-in one |
| ToolStyles.ToolStyleManager.GetDefaultStyle | src/plugins/ChartTools/config/toolStyles.ts:95-97 | the kind's current default, or the empty object if it has none |
| ToolStyles.ToolStyleManager.GetCustomStyle | src/plugins/ChartTools/config/toolStyles.ts:126-130 | null exactly when the kind or the name is unknown |
| ToolStyles.ToolStyleManager.GetPresetStyle | src/plugins/ChartTools/config/toolStyles.ts:99-106 | the kind's preset of that name, or null |
| ToolStyles.ToolStyleManager.GetPresetNames | src/plugins/ChartTools/config/toolStyles.ts:133-135 | the kind's preset names in declaration order |
| ToolStyles.ToolStyleManager.GetToolTypes | src/plugins/ChartTools/config/toolStyles.ts:138-140 | both tool kinds |
| ToolStyles.ToolStyleManager.AddCustomStyle | src/plugins/ChartTools/config/toolStyles.ts:109-123 | the new store is `AddCustom` of the old one |
| ToolStyles.ToolStyleManager.UpdateDefaultStyle | src/plugins/ChartTools/config/toolStyles.ts:143-158 | the new store is `UpdateDefault` of the old one: the merge, then the `defaultStyleChanged` event |
| ToolStyles.ToolStyleManager.On | src/plugins/ChartTools/config/toolStyles.ts:161-166 | the callback is appended to the event's list |
| ToolStyles.ToolStyleManager.EmitEvent | src/plugins/ChartTools/config/toolStyles.ts:168-170 | each of the event's callbacks is invoked once with the data, in order; an unknown event does nothing |
| LinePaneViews.PaneRenderer | src/plugins/ChartTools/LinePaneView.ts:25-31 | a renderer exists exactly when both points carry a truthy time and price, and it gets both points and the options |
| LinePaneViews.NoRendererBeforePoints | src/plugins/ChartTools/LinePaneView.ts:6-15 | a fresh view renders nothing |
| LinePaneViews.RendererAfterSetPoints | src/plugins/ChartTools/LinePaneView.ts:25-36 | after `setPoints` the view draws exactly those points when both are anchored, and nothing otherwise |
| LinePaneViews.UpdateOptionsComposes | src/plugins/ChartTools/LinePaneView.ts:38-40 | updating the options never changes whether the view draws, and two updates are one update with the combined patch |
| LinePaneViews.LaterOptionsWin | src/plugins/ChartTools/LinePaneView.ts:14-40 | a field given later overrides the one given at construction |
| LinePaneViews.LinePaneView.constructor | src/plugins/ChartTools/LinePaneView.ts:10-15 | no points, and a copy of the given options |
| LinePaneViews.LinePaneView.CurrentOptions | src/plugins/ChartTools/LinePaneView.ts:17-19 | the view's current options |
| LinePaneViews.LinePaneView.ZOrder | src/plugins/ChartTools/LinePaneView.ts:21-23 | always `top` |
| LinePaneViews.LinePaneView.Renderer | src/plugins/ChartTools/LinePaneView.ts:25-31 | a renderer exactly when both held points carry a truthy time and price, built from those points and the view's options |
| LinePaneViews.LinePaneView.SetPoints | src/plugins/ChartTools/LinePaneView.ts:33-36 | the view holds the given points |
| LinePaneViews.LinePaneView.UpdateOptions | src/plugins/ChartTools/LinePaneView.ts:38-40 | the options become the merge of the old ones and the patch |

## Where the documentation and the code differ

The model follows the code:

- Degenerate shapes are not rejected. A zero-length line is saved, and it can never be hit.
- Both hit tests return the first match in their scan order, never the nearest shape. Lines are scanned from the oldest, rectangles from the newest.
- The line hit test uses the pixel coordinates saved when the line was finished. `updateLines` redraws the tools but never updates the saved entries.
- `isFinished` checks the points on the line tool but not on the rectangle tool.
- The line tool's `stop` does not check `finished`.

## Left out

- Rendering: the canvas renderers (`LineRenderer.ts`, `RectRenderer.ts`) are not part of this model. A pane view's renderer is modelled as the record of the arguments it is built with.
- Event wiring: the subscriptions to the chart's scroll, zoom, crosshair and data events, and their removal in `removeAllLines`, are left out. `updateLines`, the tool's `updatePosition` and `handleScaleChange` are methods called with the chart's current conversions instead.
- Animation frames: the methods give the synchronous state only; when a frame arrives is not modelled. The line tool's deferred render (`render`, called by `start` and `finish` and scheduled by `updatePosition`, and the same re-set written inline in `updateOptions`) is the explicit step `LineFrame` / `LineTool.RenderFrame`, which the host runs when it delivers the frame. It sets the primitive back to the tool's own points, and so cancels what `updatePosition()` without points and `clearDisplay` drew (LineFrameUndoesDisplayChanges). The callback inside `redraw` re-sets the points it captured; the model uses the tool's points at frame time, which are those unless another operation ran in between. The nested frame scheduled by `updatePosition` is one such step. The callbacks in `RectTool.render` and `LinePrimitive.updateAllViews` set a pane view to the points it already shows under the object invariant, so they are not modelled as steps.
- `LineTool.setPoints` also calls the chart's `fitContent`. That call is left out because it changes only the chart's visible range.
- `console.log` / `console.warn` calls are left out: they have no effect on state.
- The chart itself: `attachPrimitive`/`detachPrimitive` is the presence or absence of the primitive, and the conversions are the `Viewport` functions.
- `getPrimitive`, `getCurrentLine`, `getLines`, `getRects`, `paneViews` and `LineTool.subscribe` are left out: they only hand out internal references.
- `ToolStyleManager.getInstance` is left out. The singleton is one `ToolStyleManager` object, and static state is not modelled.
- Callbacks are recorded as deliveries, not run. A callback that changes the store while it is being notified is not modelled.
- Shared objects: the caller's options object passed to a tool constructor is copied, so later changes by the caller are not propagated. In the source the line tool keeps the caller's object itself, so such changes would reach the tool and its view.
- Numbers: NaN and infinities are not modelled. The only NaN case, a zero-length segment in `isPointNearLine`, is modelled as "not a hit". Exact real arithmetic stands for IEEE doubles.
- LineManagers.NearLineIffSegmentPointWithin: stated only for segments of non-zero squared length. The zero-length case, where both ends share their pixels, is DegenerateNeverHit.
- ToolStyles.PresetStyle: a name inherited from `Object.prototype` (such as `toString` or `constructor`) would find a truthy value in the source's plain-object lookup and return `{}`; such names are outside the declared preset-name type and are not modelled, so the model answers `None` for them.
- ToolStyles.ToolStyleManager.GetPresetStyle: inherits the same limit as PresetStyle for names inherited from `Object.prototype`.
- Default arguments: `threshold = 5` of `getRectAtPosition` and `tolerance = 5` of `getLineAtPosition` are not modelled; RectManagers.RectManager.GetRectAtPosition and LineManagers.LineManager.GetLineAtPosition take the value explicitly.
- ToolStyles.ToolStyleManager.GetCustomStyle: the source hands out the stored object itself, so a caller that mutates it changes the store; the model returns a value and does not capture that aliasing.
- Time values: `Time` is narrowed to an integer timestamp. The chart library's business-day objects and date strings, and their truthiness, are not modelled.
- ChartTypes.TimeToX, ChartTypes.PriceToY: a missing time or price is taken to have no pixel. The source passes `time!` / `price!` to the chart library, whose behaviour on null is not part of this model.
- Explicit `undefined` values inside an options patch are not modelled: a key is either present with a value or absent.
