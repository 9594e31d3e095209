# Navigation puck: a verified model of the interactive-state core

This project models the interactive-state layer of the NavigationPuckAddon Blender add-on. The add-on gives the 3D viewport a floating "navigation puck": a 2×2 overlay of four buttons (Pan, Orbit, Zoom, Roll) that opens at the pointer. Each button launches a press-and-hold gesture operator, and that operator drives a camera handler. The model covers four parts of the add-on:

- `view_tools_widget.dfy` (module `ViewToolsWidget`): the overlay widget framework.
  - Rectangle hit-testing and the grid, strip and circle layouts, written into a button array in place.
  - The widget session (`BaseWidgetOperator` with the view-tools setup) as a class. Its fields are `active`, `mousePos`, `initialMousePos`, `hoveredButton` and the draw-handler token.
  - The session covers hover tracking, auto-dismiss, click dispatch, cancel and idempotent teardown.
  - A ghost log of the session's outside effects: handler removals, `on_cancel` calls and fired callbacks.
- `mesh_tools.dfy` (module `MeshTools`): the press-and-hold state machine that the Pan, Roll, Zoom and Orbit operators share.
  - It is written once, as a pure step function plus a class parameterised by the handler kind, with ghost counters for handler calls.
- `view_handlers.dfy` (module `ViewHandlers`): the four camera handlers as classes.
  - Each one captures its anchor at pointer-down and updates the host view (`RegionView`) in place on every move.
- `utils.dfy` (module `Utils`): angle snapping, step rounding, the viewport centre, the pointer direction, the branch structure of the roll-angle extraction, and `apply_view_roll`.
- `common.dfy` and `host.dfy` hold shared values: vectors, events and results, plus the host view and the host's math.

Host math the add-on calls but does not define is kept opaque, as a record of functions (`Host.HostMath`). This covers:

- `normalize`'s inverse length, `acos`, the inverted view matrix's columns;
- Euler/quaternion conversion, `rotate_axis` and `angle_signed`.

Range facts about these functions are predicates that the lemmas assume explicitly: `NormalizesPositively`, `AcosInRange` and `Pythagorean`. Arithmetic is over the reals. Python's `round` (half to even), float `%` and `math.copysign` are written out exactly.

## Model

| member | source | states |
|---|---|---|
| Utils.Round | src/utils/__init__.py:98 | Python's round: within 1/2 of x, ties go to the even integer |
| Utils.RoundIsNearest | src/utils/__init__.py:98 | no integer is closer to x than round(x) |
| Utils.SnapToNearestAngle | src/utils/__init__.py:96-98 | result + initial_angle is an integer multiple of snap_angle; result is within \|snap_angle\|/2 of angle |
| Utils.SnapIdempotent | src/utils/__init__.py:96-98 | snapping twice with the same initial angle and step equals snapping once |
| Utils.SnapZeroIff | src/utils/__init__.py:96-98 | a zero delta snaps to zero exactly when initial_angle / snap_angle is whole |
| Utils.SnapQuarterTurn | src/utils/__init__.py:96-98 | with the 15-degree step and no initial angle, pi/2 is a fixed point |
| Utils.PyMod | src/utils/__init__.py:120 | float %: a positive divisor gives a remainder in [0, b), and a - r is a whole multiple of b |
| Utils.CopySign | src/utils/__init__.py:124-126 | magnitude of the first argument with the sign of the second |
| Utils.StepValue | src/utils/__init__.py:116-126 | the sign follows value; \|result\| is a whole multiple of step; the result is within step/2 of value; an exact tie goes to the higher step |
| Utils.ViewportCenter | src/utils/__init__.py:87-93 | (0,0) without a region, otherwise the point equidistant from the left/right and bottom/top edges |
| Utils.MouseVectorToCenter | src/utils/__init__.py:129-136 | the vector lies on the line through the viewport centre and the pointer, whatever factor the host's normalisation uses; with the pointer at the centre it is the zero vector |
| Utils.MouseVectorPointsAtPointer | src/utils/__init__.py:129-136 | the normalized pointer vector is parallel to, and not opposed to, the pointer's offset from the centre, and zero exactly when the offset is |
| Utils.ReferenceAxis | src/utils/__init__.py:37-52 | the reference is world X iff the preferred axis projects to squared length < 1e-8; otherwise it is world Y iff \|view_dir.z\| > 0.999, else world Z |
| Utils.ProjectionIsPerpendicular | src/utils/__init__.py:46 | subtracting the component along a unit normal leaves a vector orthogonal to it |
| Utils.ZeroRollUpPerpendicular | src/utils/__init__.py:44-61 | for a unit view direction, the zero-roll up vector and the projected view up both lie in the view plane |
| Utils.NoFallbackForUnitViewDir | src/utils/__init__.py:38-52 | for a unit view direction the world-X fallback is never taken |
| Utils.ZeroRollUpFlipsAtThreshold | src/utils/__init__.py:37-46 | two view directions 0.0002 apart, one each side of the 0.999 switch, get zero-roll up vectors more than 174 degrees apart, so the roll angle is not continuous there |
| Utils.ZeroRollUpBelowThreshold | src/utils/__init__.py:37-52 | at view direction (0, 0.04, 0.9989) the reference is world Z |
| Utils.ZeroRollUpAboveThreshold | src/utils/__init__.py:37-52 | at view direction (0, 0.04, 0.9991) the reference is world Y |
| Utils.RollCosine | src/utils/__init__.py:70-72 | the clamped dot product lies in [-1, 1] |
| Utils.CurrentRollAngle | src/utils/__init__.py:23-79 | exactly 0.0 when the projected view up is degenerate; otherwise \|angle\| = acos(clamped dot), within [-pi, pi], negative only when the up vector lies on the zero-roll right side, and never positive when it does |
| Utils.RollSignFromRawVectors | src/utils/__init__.py:54-77 | the sign test is unaffected by the normalizations: it equals the sign of the raw projected up against the raw zero-roll right |
| Utils.ApplyViewRoll | src/utils/__init__.py:101-113 | the view rotation becomes the given rotation turned about Euler Z by angle; nothing else in the view changes |
| ViewHandlers.PanOffset | src/operators/view_handlers.py:55-72 | the pan offset is orthogonal to right × up: panning never moves the view along its viewing axis |
| ViewHandlers.PanStill | src/operators/view_handlers.py:48-72 | zero pointer motion gives a zero pan offset |
| ViewHandlers.PanComposes | src/operators/view_handlers.py:48-74 | two successive pan moves shift the view as far as one move over the whole drag |
| ViewHandlers.PanAlongViewAxes | src/operators/view_handlers.py:55-72 | with an orthonormal right/up pair, the offset's right and up components are dx·distance/width and dy·distance/width |
| ViewHandlers.PanHandler.constructor | src/operators/view_handlers.py:40-42 | prev_pos starts unset |
| ViewHandlers.PanHandler.PointerDown | src/operators/view_handlers.py:44-46 | stores the region-space pointer |
| ViewHandlers.PanHandler.PointerMove | src/operators/view_handlers.py:48-74 | view_location gains the pan offset of prev - cur along the view axes, scaled by distance/width; prev_pos becomes the pointer; nothing else changes |
| ViewHandlers.ZoomedDistance | src/operators/view_handlers.py:92-109 | the zoomed distance is never below 0.1 |
| ViewHandlers.ZoomIgnoresHorizontal | src/operators/view_handlers.py:90-95 | horizontal pointer motion does not affect the zoom |
| ViewHandlers.ZoomDirection | src/operators/view_handlers.py:95-109 | from a distance of at least 0.1: dragging down zooms out strictly, dragging up never zooms out, and no vertical motion changes nothing |
| ViewHandlers.ZoomHandler.constructor | src/operators/view_handlers.py:77-80 | prev_pos starts at (0,0) |
| ViewHandlers.ZoomHandler.PointerDown | src/operators/view_handlers.py:82-83 | stores the window-space pointer |
| ViewHandlers.ZoomHandler.PointerMove | src/operators/view_handlers.py:85-111 | perspective and orthographic views both get the clamped zoomed distance; prev_pos becomes the pointer; nothing else changes |
| ViewHandlers.OrbitEuler | src/operators/view_handlers.py:130-165 | the orbit never changes the Euler Y angle, and a free orbit with no pointer motion keeps all angles |
| ViewHandlers.OrbitFree | src/operators/view_handlers.py:158-165 | without shift, Euler z turns by dx·0.005 and x by -dy·0.005; y is untouched |
| ViewHandlers.OrbitSnapped | src/operators/view_handlers.py:137-157 | with shift, Euler z and x are whole multiples of 15 degrees within half a step of the tentative absolute angles; y is untouched |
| ViewHandlers.GlobalSnapIsSnapFromZero | src/operators/view_handlers.py:150-153 | round(t/step)·step is snap_to_nearest_angle anchored at zero |
| ViewHandlers.OrbitHandler.constructor | src/operators/view_handlers.py:114-118 | prev_pos starts at (0,0) |
| ViewHandlers.OrbitHandler.PointerDown | src/operators/view_handlers.py:120-122 | stores the region-space pointer |
| ViewHandlers.OrbitHandler.PointerMove | src/operators/view_handlers.py:124-169 | the view rotation becomes the orbited Euler angles of the old rotation; prev_pos becomes the pointer; nothing else changes |
| ViewHandlers.RollDelta | src/operators/view_handlers.py:21-35 | without shift, the signed angle from the initial to the current pointer direction; with shift, initial angle + delta lands on the 15-degree grid within half a step of the unsnapped delta |
| ViewHandlers.RollHandler.constructor | src/operators/view_handlers.py:8-13 | rotation, initial angle and initial vector start unset |
| ViewHandlers.RollHandler.PointerDown | src/operators/view_handlers.py:15-19 | captures a value copy of the view rotation, the current roll angle and the pointer direction |
| ViewHandlers.RollHandler.PointerMove | src/operators/view_handlers.py:21-37 | the view rotation becomes the captured rotation rolled by RollDelta (absolute relative to gesture start); the handler's captured state is not modified |
| MeshTools.InvokeStep | src/operators/mesh_tools.py:63-72 | always RUNNING_MODAL; pressed and a pointer_down exactly on LEFTMOUSE PRESS; never a pointer_move |
| MeshTools.ModalStep | src/operators/mesh_tools.py:38-61 | the full transition table: LEFTMOUSE PRESS presses and calls pointer_down (re-anchoring while pressed); MOUSEMOVE while pressed stays pressed and calls pointer_move, while released passes through; release while pressed finishes; ESC with any value cancels; RIGHTMOUSE PRESS cancels while released and passes through while pressed; every other event is PASS_THROUGH with the state kept |
| MeshTools.CallAt | src/operators/mesh_tools.py:38-61 | the i-th call of a run is the call ModalStep makes for the i-th event from the is_pressed the earlier events left |
| MeshTools.Calls | src/operators/mesh_tools.py:38-61 | one handler-call entry per modal event (what each entry is, is the contract of CallAt) |
| MeshTools.MoveFollowsDown | src/operators/mesh_tools.py:41-48 | along any run of modal events, every pointer_move is preceded by a pointer_down unless the run started pressed |
| MeshTools.SessionMovesFollowDown | src/operators/mesh_tools.py:41-72 | in a whole invoke-then-modal session, pointer_move never comes before pointer_down |
| MeshTools.ReleasedMovesPassThrough | src/operators/mesh_tools.py:46-61 | while released, pointer moves call nothing and leave the operator released |
| MeshTools.GestureOperator.constructor | src/operators/mesh_tools.py:29-36 | a fresh operator on a given handler, with no handler calls yet |
| MeshTools.GestureOperator.PointerDown | src/operators/mesh_tools.py:41-44 | dispatches pointer_down to the handler kind, which then holds what it captured: the region pointer (Pan, Orbit), the window pointer (Zoom), or the view rotation, its roll angle and the pointer direction (Roll) |
| MeshTools.GestureOperator.Invoke | src/operators/mesh_tools.py:63-72 | result, is_pressed and the handler-call counters follow InvokeStep; on a left press the handler holds what pointer_down captured from the event; otherwise the handler is untouched |
| MeshTools.GestureOperator.Modal | src/operators/mesh_tools.py:38-61 | result, is_pressed and counters follow ModalStep; no call leaves handler and view untouched; a pointer_down re-captures from the event and leaves the view untouched; a move of each kind changes only its own view field as its handler specifies (Pan the location by PanOffset, Zoom the distance, Orbit and Roll the rotation) and updates the handler's previous pointer; the invariant that a pressed operator has an anchored handler is kept |
| ViewToolsWidget.ContainsPoint | src/panels/view_tools_widget.py:48-51 | only a button of non-negative width and height contains any point |
| ViewToolsWidget.ContainsEdges | src/panels/view_tools_widget.py:48-51 | all four corners are inside the button and points just past any edge are not |
| ViewToolsWidget.FirstHit | src/panels/view_tools_widget.py:284-287 | the index of the first button in list order containing the point, or none iff no button contains it |
| ViewToolsWidget.Placed | src/panels/view_tools_widget.py:70-113 | only position and size change; written buttons get the given size; the grid leaves buttons from index 4 on unchanged |
| ViewToolsWidget.GridSharesOrigin | src/panels/view_tools_widget.py:78-90 | with spacing 0 the origin is a corner of every grid button |
| ViewToolsWidget.GridDisjoint | src/panels/view_tools_widget.py:78-90 | with positive spacing no point lies in two grid buttons |
| ViewToolsWidget.StripGap | src/panels/view_tools_widget.py:92-100 | with positive spacing each strip button ends before the next begins, all on the origin's row or column |
| ViewToolsWidget.CircleCentresOnRing | src/panels/view_tools_widget.py:102-113 | every circle-layout button is centred at distance 1.5·max(w,h) from the origin |
| ViewToolsWidget.WidgetLayout.constructor | src/panels/view_tools_widget.py:66-68 | the given layout type with spacing 8.0 |
| ViewToolsWidget.WidgetLayout.CalculatePositions | src/panels/view_tools_widget.py:70-113 | the buttons array becomes Placed of its old contents |
| ViewToolsWidget.WrittenCallbacksAreUnregistered | src/panels/view_tools_widget.py:323-356 | every button callback as written names an operator id the add-on never registers |
| ViewToolsWidget.ViewToolsButtonsAsWritten | src/panels/view_tools_widget.py:323-356 | the four buttons setup_buttons writes: each callback returns FINISHED and names an operator id in the `navigation_puck.` namespace |
| ViewToolsWidget.ViewToolsButtons | src/panels/view_tools_widget.py:348-356 | four buttons that are the written ones except for the callback; every callback returns FINISHED and launches a registered operator; the Pan, Orbit, Zoom and Roll buttons (in that order, as written) launch `heavypoly.view_pan_modal`, `heavypoly.view_orbit_modal`, `heavypoly.view_zoom_modal` and `heavypoly.view_roll_modal` respectively |
| ViewToolsWidget.OpeningPointHoversPan | src/panels/view_tools_widget.py:358-362 | with the shipped spacing 0, the opening point hovers button 0, "Pan" |
| ViewToolsWidget.QuadrantSelectsTool | src/panels/view_tools_widget.py:78-90 | a point in a quadrant within 60 of the opening point hits Pan, Orbit, Zoom or Roll (bottom-left, bottom-right, top-left, top-right) |
| ViewToolsWidget.OutsidePuckMisses | src/panels/view_tools_widget.py:78-90 | a point more than one button size (60) from the opening point along either axis hits none of the four puck buttons |
| ViewToolsWidget.ClickResult | src/panels/view_tools_widget.py:200-204 | the callback's result, or FINISHED without a callback |
| ViewToolsWidget.Teardown | src/panels/view_tools_widget.py:299-304 | one removal exactly when a handle is held, none otherwise |
| ViewToolsWidget.HoverFlags | src/panels/view_tools_widget.py:160-163 | one flag per button, set exactly at the hovered index |
| ViewToolsWidget.ButtonTemplate.constructor | src/panels/view_tools_widget.py:188 | the class-level button list starts empty |
| ViewToolsWidget.ButtonTemplate.SetupButtons | src/panels/view_tools_widget.py:348-356 | the class-level list becomes the four view-tool buttons, with the corrected operator ids of the finding below |
| ViewToolsWidget.WidgetOperator.constructor | src/panels/view_tools_widget.py:177-188 | class defaults: inactive, no handler, no hover, pointer (0,0), grid layout with spacing 8, no buttons |
| ViewToolsWidget.WidgetOperator.Setup | src/panels/view_tools_widget.py:358-363 | a fresh grid layout with spacing 0; session fields unchanged |
| ViewToolsWidget.WidgetOperator.Invoke | src/panels/view_tools_widget.py:210-244 | fills the template only when empty (with the corrected operator ids of the finding below); lays out fresh copies around the pointer; initial_mouse_pos = mouse_pos; active with the new handler; RUNNING_MODAL |
| ViewToolsWidget.WidgetOperator.RemoveHandler | src/panels/view_tools_widget.py:299-304 | idempotent: removes a held handler once, and always leaves the widget inactive with no handler |
| ViewToolsWidget.WidgetOperator.OnCancel | src/panels/view_tools_widget.py:206-208 | logs one cancel-hook call; no other change |
| ViewToolsWidget.WidgetOperator.Cancel | src/panels/view_tools_widget.py:313-316 | tears down, then runs on_cancel once; the pointer, the opening point, the hover and the buttons are kept |
| ViewToolsWidget.WidgetOperator.OnButtonClicked | src/panels/view_tools_widget.py:200-204 | fires the button's callback if it has one, returning ClickResult |
| ViewToolsWidget.WidgetOperator.UpdateHoveredButton | src/panels/view_tools_widget.py:280-297 | hovers the first hit button; with no hit and squared distance over 100² it tears down, runs on_cancel once and reports CANCELLED; otherwise it clears the hover |
| ViewToolsWidget.WidgetOperator.Modal | src/panels/view_tools_widget.py:246-278 | the opening point is kept, so an auto-dismiss (no button hit and more than 100 from that point) cancels; a left press on a hovered button removes the handler before firing its callback and returns its result; a left press elsewhere, or a RIGHTMOUSE/ESC press, cancels with one on_cancel; anything else keeps the session running untouched |
| ViewToolsWidget.WidgetOperator.DrawCallback | src/panels/view_tools_widget.py:306-311 | nothing when inactive; otherwise the hover flags of the buttons |
| ViewToolsWidget.OpenAndPickRoll | src/panels/view_tools_widget.py:210-278 | opening at (500,500) hovers Pan; a press at (520,520) removes the handler, fires Roll's callback (with the corrected `heavypoly.view_roll_modal` id) and returns FINISHED |
| ViewToolsWidget.OpenAndStray | src/panels/view_tools_widget.py:246-297 | opening at (500,500) and moving to (500,601), off every button and 101 from the opening point, removes the handler, runs on_cancel once and returns CANCELLED |

The four operator classes (src/operators/mesh_tools.py:29-72, 75-117, 120-163 and 166-210) have the same transition table. One `GestureOperator` over a `Handler` of each kind models all of them.

## Findings

| source | as written | input that shows it | evidently intended | confidence | as-written member | corrected member |
|---|---|---|---|---|---|---|
| src/panels/view_tools_widget.py:323-340 | the button callbacks launch `navigation_puck.view_{pan,orbit,zoom,roll}_modal`, but the gesture operators register as `heavypoly.view_*_modal` (src/operators/mesh_tools.py:31, 77, 122, 168) | clicking any puck button names an operator that is not registered | each button launches the registered gesture operator of its own name | high; not executed | ViewToolsWidget.WrittenCallbacksAreUnregistered | ViewToolsWidget.ViewToolsButtons |

## Left out

- GPU and text drawing (`WidgetDrawer.draw_button`): these are foreign calls. Only the hover flags that `draw_widget` passes are modelled (`DrawCallback`).
- `Button.icon_value` and `Button.data`: nothing in the core reads them.
- The `execute_view_*` callbacks: a callback is an opaque value holding the operator id it launches and the result it returns. Launching the operator is host plumbing.
- `modal_handler_add`, `draw_handler_add/remove` and `tag_redraw`: these are host event-loop calls. The draw handler is an opaque token handed to `Invoke`, and its removal is logged as an effect. A missing `context.area` is not modelled.
- The drawer colours set in `setup`: these are drawing state only.
- WidgetOperator.UpdateHoveredButton: compares the squared distance with the squared threshold instead of taking `math.sqrt`. The two agree because both sides are non-negative.
- The circle layout's `math.cos`/`math.sin` are opaque parameters (`Trig`). Its geometry lemma assumes cos² + sin² = 1. The circle layout's division by a zero button count is a precondition.
- WidgetOperator.Invoke: requires a fresh instance (never invoked, no hover). The host creates a new operator instance per invocation.
- GestureOperator.Modal: requires `invoke` to have run. A gesture operator's `modal` before `invoke` reads `is_pressed` before it is set and raises. The widget's `modal` has no such requirement: before `invoke` it runs on the class defaults.
- RollHandler.PointerMove: requires a prior `pointer_down`. Without one, the source raises on the missing `initial_vector`, `initial_angle` and `rotation` attributes.
- PanHandler.PointerMove: requires a prior `pointer_down`, a region and a non-zero region width. Without them the source raises (missing attribute or division by zero) rather than returning.
- ButtonTemplate.SetupButtons, WidgetOperator.Invoke and OpenAndPickRoll: use the corrected `heavypoly.view_*_modal` ids (`ViewToolsButtons`), not the `navigation_puck.view_*_modal` ids the source writes. The as-written list is `ViewToolsButtonsAsWritten` (see Findings).
- Utils.RolledRotation: has no contract of its own. It is the host's Euler round trip turned about Z, with every step an opaque host function. Its effect on the view is stated by ApplyViewRoll and RollHandler.PointerMove.
- ContainsPoint: states only that a containing button has non-negative size. The corners and the edges are the contract of ContainsEdges.
- Utils.CurrentRollAngle: the source's roll angle is not continuous across the 0.999 switch of reference axis, though the add-on's design calls it continuous. ZeroRollUpFlipsAtThreshold exhibits the jump. No corrected version is modelled: by the hairy ball theorem no choice of zero-roll up vector is continuous over every view direction, so there is no fix to prove.
- Floating point: all arithmetic is over the reals, so IEEE rounding, overflow and NaN are not modelled.
- RollHandler.PointerMove: does not model the error when the pointer is exactly at the viewport centre. `Vector.angle_signed` then gets a zero vector and raises a `ValueError` (src/operators/view_handlers.py:21-35). `RollDelta` instead returns whatever the opaque `angleSigned` gives.
- The host math generally (`normalized`, `acos`, `angle_signed`, matrix inversion, Euler/quaternion conversion, `rotate_axis`): these are opaque functions of `Host.HostMath`. Lemmas that need a range fact about them say so in their preconditions.
- `get_region_view3d` and `get_current_view_rotation`: these are host accessors. The view is `Context.view`.
- `HEAVYPOLY_OT_smart_extrude`: it only reports a message.
- Registration, keymaps, preferences and panels: these are host glue. The keymap's `heavypoly.view_tools_widget` id is not part of this model.
- The shared class-level handler of each operator class: this is one handler object referenced by the operator. There is no concurrency.
