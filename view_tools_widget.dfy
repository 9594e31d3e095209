/** The floating overlay widget: rectangular buttons, their layouts, and the
    modal session that tracks hover, dismisses itself when the pointer moves
    away, dispatches clicks and tears down its draw handler. The view-tools
    widget is the one concrete widget: four buttons in a 2x2 grid with no
    spacing, centred on the pointer. */
module ViewToolsWidget {
  import opened Common
  import MeshTools

  // ---------------------------------------------------------------------------
  // Buttons
  // ---------------------------------------------------------------------------

  /** An opaque button callback: the operator it launches and the result it
      returns. */
  datatype Callback = Callback(operatorId: string, result: Status)

  /** A button: label, icon name, optional callback, lower-left corner and size. */
  datatype Button = Button(caption: string, icon: string, callback: Option<Callback>,
                           position: Vec2, size: Vec2)

  /** The default button size, (60, 60). */
  const BUTTON_SIZE: Vec2 := Vec2(60.0, 60.0)

  /** Button.contains_point: the closed rectangle, every edge included. */
  predicate ContainsPoint(b: Button, x: real, y: real)
    // a button of negative width or height contains nothing; any other
    // contains its own position corner
    ensures ContainsPoint(b, x, y) ==> 0.0 <= b.size.x && 0.0 <= b.size.y
  {
    b.position.x <= x <= b.position.x + b.size.x &&
    b.position.y <= y <= b.position.y + b.size.y
  }

  /** All four corners of a button of non-negative size are inside it, and a
      point just past any edge is not. */
  lemma ContainsEdges(b: Button, e: real)
    requires b.size.x >= 0.0 && b.size.y >= 0.0 && e > 0.0
    ensures ContainsPoint(b, b.position.x, b.position.y)
    ensures ContainsPoint(b, b.position.x + b.size.x, b.position.y)
    ensures ContainsPoint(b, b.position.x, b.position.y + b.size.y)
    ensures ContainsPoint(b, b.position.x + b.size.x, b.position.y + b.size.y)
    ensures !ContainsPoint(b, b.position.x - e, b.position.y)
    ensures !ContainsPoint(b, b.position.x + b.size.x + e, b.position.y)
    ensures !ContainsPoint(b, b.position.x, b.position.y - e)
    ensures !ContainsPoint(b, b.position.x, b.position.y + b.size.y + e)
  {
  }

  /** The index of the first button, in list order, that contains p. */
  function FirstHit(bs: seq<Button>, p: Vec2): (r: Option<int>)
    ensures r.Some? ==> 0 <= r.value < |bs| && ContainsPoint(bs[r.value], p.x, p.y)
    ensures r.Some? ==> forall j :: 0 <= j < r.value ==> !ContainsPoint(bs[j], p.x, p.y)
    ensures r.None? <==> forall j :: 0 <= j < |bs| ==> !ContainsPoint(bs[j], p.x, p.y)
    decreases |bs|
  {
    if |bs| == 0 then None
    else if ContainsPoint(bs[0], p.x, p.y) then Some(0)
    else
      match FirstHit(bs[1..], p)
      case None => None
      case Some(k) => Some(k + 1)
  }

  // ---------------------------------------------------------------------------
  // Layouts
  // ---------------------------------------------------------------------------

  datatype LayoutType = Grid | Horizontal | Vertical | Circle | Custom

  /** math.cos and math.sin, which only the circle layout uses. */
  datatype Trig = Trig(cos: real -> real, sin: real -> real)

  ghost predicate Pythagorean(t: Trig) {
    forall a :: t.cos(a) * t.cos(a) + t.sin(a) * t.sin(a) == 1.0
  }

  /** Whether calculate_positions writes button i: the grid writes its four
      slots, the strips and the circle write every button, CUSTOM none. */
  predicate Writes(layoutType: LayoutType, i: int) {
    match layoutType
    case Grid => i < 4
    case Custom => false
    case _ => true
  }

  /** The corner the grid gives slot i: bottom-left, bottom-right, top-left,
      top-right around the origin, spacing/2 away from it on each axis. */
  function GridSlot(i: int, origin: Vec2, size: Vec2, spacing: real): Vec2 {
    var left := origin.x - size.x - spacing / 2.0;
    var right := origin.x + spacing / 2.0;
    var bottom := origin.y - size.y - spacing / 2.0;
    var top := origin.y + spacing / 2.0;
    if i == 0 then Vec2(left, bottom)
    else if i == 1 then Vec2(right, bottom)
    else if i == 2 then Vec2(left, top)
    else Vec2(right, top)
  }

  /** max(width, height) * 1.5 */
  function CircleRadius(size: Vec2): real {
    (if size.x >= size.y then size.x else size.y) * 1.5
  }

  /** i * (2 * pi / n) */
  function CircleAngle(i: int, n: int): real
    requires n > 0
  {
    var angleStep := 2.0 * PI / n as real;
    i as real * angleStep
  }

  /** The corner the circle layout gives button i of n. */
  function CircleSlot(i: int, n: int, origin: Vec2, size: Vec2, trig: Trig): Vec2
    requires n > 0
  {
    var radius := CircleRadius(size);
    var angle := CircleAngle(i, n);
    Vec2(origin.x + radius * trig.cos(angle) - size.x / 2.0,
         origin.y + radius * trig.sin(angle) - size.y / 2.0)
  }

  /** The corner a layout gives button i of n. */
  function Slot(layoutType: LayoutType, spacing: real, i: int, n: int,
                origin: Vec2, size: Vec2, trig: Trig): Vec2
    requires layoutType == Circle ==> n > 0
  {
    match layoutType
    case Grid => GridSlot(i, origin, size, spacing)
    case Horizontal => Vec2(origin.x + i as real * (size.x + spacing), origin.y)
    case Vertical => Vec2(origin.x, origin.y + i as real * (size.y + spacing))
    case Circle => CircleSlot(i, n, origin, size, trig)
    case Custom => origin
  }

  /** The button list after calculate_positions. Only position and size
      change; a button the layout does not write is left as it was. */
  function Placed(layoutType: LayoutType, spacing: real, bs: seq<Button>,
                  origin: Vec2, size: Vec2, trig: Trig): (r: seq<Button>)
    requires layoutType == Circle ==> |bs| > 0
    ensures |r| == |bs|
    ensures forall i :: 0 <= i < |bs| ==>
              r[i].caption == bs[i].caption && r[i].icon == bs[i].icon && r[i].callback == bs[i].callback
    ensures forall i :: 0 <= i < |bs| && !Writes(layoutType, i) ==> r[i] == bs[i]
    ensures forall i :: 0 <= i < |bs| && Writes(layoutType, i) ==> r[i].size == size
  {
    seq(|bs|, i requires 0 <= i < |bs| =>
      if Writes(layoutType, i)
      then bs[i].(position := Slot(layoutType, spacing, i, |bs|, origin, size, trig), size := size)
      else bs[i])
  }

  /** With spacing 0 every grid button has the origin as one of its corners,
      so the origin is inside all of them. */
  lemma GridSharesOrigin(bs: seq<Button>, origin: Vec2, size: Vec2, trig: Trig, i: int)
    requires size.x >= 0.0 && size.y >= 0.0
    requires 0 <= i < |bs| && i < 4
    ensures ContainsPoint(Placed(Grid, 0.0, bs, origin, size, trig)[i], origin.x, origin.y)
  {
  }

  /** With positive spacing the four grid buttons are pairwise disjoint:
      no point is inside two of them. */
  lemma {:induction false} GridDisjoint(bs: seq<Button>, origin: Vec2, size: Vec2, spacing: real,
                                        trig: Trig, i: int, j: int, p: Vec2)
    requires spacing > 0.0
    requires 0 <= i < j < |bs| && j < 4
    requires var r := Placed(Grid, spacing, bs, origin, size, trig);
             ContainsPoint(r[i], p.x, p.y)
    ensures !ContainsPoint(Placed(Grid, spacing, bs, origin, size, trig)[j], p.x, p.y)
  {
    var r := Placed(Grid, spacing, bs, origin, size, trig);
    assert r[i].position == GridSlot(i, origin, size, spacing);
    assert r[j].position == GridSlot(j, origin, size, spacing);
  }

  /** In a strip with positive spacing and width, consecutive buttons are
      separated: button i ends before button i + 1 starts. */
  lemma {:induction false} StripGap(bs: seq<Button>, origin: Vec2, size: Vec2, spacing: real,
                                    trig: Trig, i: int)
    requires spacing > 0.0
    requires 0 <= i && i + 1 < |bs|
    ensures var r := Placed(Horizontal, spacing, bs, origin, size, trig);
            r[i].position.x + r[i].size.x < r[i + 1].position.x &&
            r[i].position.y == r[i + 1].position.y == origin.y
    ensures var r := Placed(Vertical, spacing, bs, origin, size, trig);
            r[i].position.y + r[i].size.y < r[i + 1].position.y &&
            r[i].position.x == r[i + 1].position.x == origin.x
  {
    var h := Placed(Horizontal, spacing, bs, origin, size, trig);
    var v := Placed(Vertical, spacing, bs, origin, size, trig);
    assert h[i].position.x == origin.x + i as real * (size.x + spacing);
    assert h[i + 1].position.x == origin.x + (i + 1) as real * (size.x + spacing);
    assert (i + 1) as real * (size.x + spacing) == i as real * (size.x + spacing) + size.x + spacing;
    assert v[i].position.y == origin.y + i as real * (size.y + spacing);
    assert v[i + 1].position.y == origin.y + (i + 1) as real * (size.y + spacing);
    assert (i + 1) as real * (size.y + spacing) == i as real * (size.y + spacing) + size.y + spacing;
  }

  /** The circle layout centres every button on the circle of radius
      1.5 * max(width, height) around the origin. */
  lemma CircleCentresOnRing(bs: seq<Button>, origin: Vec2, size: Vec2, trig: Trig, i: int)
    requires Pythagorean(trig)
    requires 0 <= i < |bs|
    ensures var b := Placed(Circle, 0.0, bs, origin, size, trig)[i];
            var radius := CircleRadius(size);
            var centre := Vec2(b.position.x + size.x / 2.0, b.position.y + size.y / 2.0);
            LengthSq2(Sub2(centre, origin)) == radius * radius
  {
    var radius := CircleRadius(size);
    var angle := CircleAngle(i, |bs|);
    var c := trig.cos(angle);
    var s := trig.sin(angle);
    var b := Placed(Circle, 0.0, bs, origin, size, trig)[i];
    assert b.position == CircleSlot(i, |bs|, origin, size, trig);
    assert b.position == Vec2(origin.x + radius * c - size.x / 2.0, origin.y + radius * s - size.y / 2.0);
    var centre := Vec2(b.position.x + size.x / 2.0, b.position.y + size.y / 2.0);
    assert centre.x - origin.x == radius * c;
    assert centre.y - origin.y == radius * s;
    assert Sub2(centre, origin) == Vec2(radius * c, radius * s);
    assert c * c + s * s == 1.0;
    calc {
      (radius * c) * (radius * c) + (radius * s) * (radius * s);
      radius * radius * (c * c + s * s);
      radius * radius;
    }
  }

  /** WidgetLayout: a layout type and a spacing, both set after construction. */
  class WidgetLayout {
    var layoutType: LayoutType
    var spacing: real

    constructor (layoutType: LayoutType)
      ensures this.layoutType == layoutType && spacing == 8.0
    {
      this.layoutType := layoutType;
      spacing := 8.0;
    }

    /** calculate_positions: writes position and size into the buttons in
        place. The circle layout divides by the button count. */
    method CalculatePositions(buttons: array<Button>, origin: Vec2, buttonSize: Vec2, trig: Trig)
      requires layoutType == Circle ==> buttons.Length > 0
      modifies buttons
      ensures buttons[..] == Placed(layoutType, spacing, old(buttons[..]), origin, buttonSize, trig)
    {
      ghost var before := buttons[..];
      ghost var after := Placed(layoutType, spacing, before, origin, buttonSize, trig);
      var n := buttons.Length;
      if layoutType == Grid {
        var i := 0;
        while i < 4
          invariant 0 <= i <= 4
          invariant forall k :: 0 <= k < n && k < i ==> buttons[k] == after[k]
          invariant forall k :: i <= k < n ==> buttons[k] == before[k]
        {
          if i < n {
            var pos := GridSlot(i, origin, buttonSize, spacing);
            buttons[i] := buttons[i].(position := pos);
            buttons[i] := buttons[i].(size := buttonSize);
          }
          i := i + 1;
        }
      } else if layoutType != Custom {
        var i := 0;
        while i < n
          invariant 0 <= i <= n
          invariant forall k :: 0 <= k < i ==> buttons[k] == after[k]
          invariant forall k :: i <= k < n ==> buttons[k] == before[k]
        {
          var pos := Slot(layoutType, spacing, i, n, origin, buttonSize, trig);
          buttons[i] := buttons[i].(position := pos);
          buttons[i] := buttons[i].(size := buttonSize);
          i := i + 1;
        }
      }
      assert buttons[..] == after;
    }
  }

  // ---------------------------------------------------------------------------
  // The view-tools widget's buttons
  // ---------------------------------------------------------------------------

  /** A view-tool button at the default position and size. */
  function ToolButton(caption: string, icon: string, operatorId: string): Button {
    Button(caption, icon, Some(Callback(operatorId, Finished)), Vec2(0.0, 0.0), BUTTON_SIZE)
  }

  /** The namespace prefix of the operator ids the buttons as written launch. */
  const WRITTEN_PREFIX: string := "navigation_puck."

  /** setup_buttons as written: four buttons whose callbacks return FINISHED
      and launch an operator in the "navigation_puck" namespace. */
  function ViewToolsButtonsAsWritten(): (bs: seq<Button>)
    ensures |bs| == 4
    ensures forall i :: 0 <= i < 4 ==>
              && bs[i].callback.Some? && bs[i].callback.value.result == Finished
              && WRITTEN_PREFIX <= bs[i].callback.value.operatorId
  {
    [ ToolButton("Pan", "VIEW_PAN", "navigation_puck.view_pan_modal"),
      ToolButton("Orbit", "SPHERE", "navigation_puck.view_orbit_modal"),
      ToolButton("Zoom", "VIEW_ZOOM", "navigation_puck.view_zoom_modal"),
      ToolButton("Roll", "MESH_CIRCLE", "navigation_puck.view_roll_modal") ]
  }

  /** None of the operators the buttons as written launch is registered:
      the gesture operators are registered in the "heavypoly" namespace. */
  lemma WrittenCallbacksAreUnregistered(i: int)
    requires 0 <= i < |ViewToolsButtonsAsWritten()|
    ensures ViewToolsButtonsAsWritten()[i].callback.Some?
    ensures ViewToolsButtonsAsWritten()[i].callback.value.operatorId !in MeshTools.REGISTERED_OPERATOR_IDS
  {
    var id := ViewToolsButtonsAsWritten()[i].callback.value.operatorId;
    assert id[0] == 'n';
    forall r | r in MeshTools.REGISTERED_OPERATOR_IDS
      ensures r != id
    {
      assert r[0] == 'h';
    }
  }

  /** The four view-tool buttons, each launching the gesture operator of
      its own name as registered, and returning FINISHED. Positions start at
      (0, 0), sizes at (60, 60). */
  function ViewToolsButtons(): (bs: seq<Button>)
    ensures |bs| == 4
    ensures forall i :: 0 <= i < 4 ==> bs[i].callback.Some? && bs[i].callback.value.result == Finished
    ensures forall i :: 0 <= i < 4 ==> bs[i].callback.value.operatorId in MeshTools.REGISTERED_OPERATOR_IDS
    ensures forall i :: 0 <= i < 4 ==>
              bs[i].(callback := None) == ViewToolsButtonsAsWritten()[i].(callback := None)
    ensures bs[0].callback.value.operatorId == MeshTools.PAN_OPERATOR_ID
    ensures bs[1].callback.value.operatorId == MeshTools.ORBIT_OPERATOR_ID
    ensures bs[2].callback.value.operatorId == MeshTools.ZOOM_OPERATOR_ID
    ensures bs[3].callback.value.operatorId == MeshTools.ROLL_OPERATOR_ID
  {
    [ ToolButton("Pan", "VIEW_PAN", MeshTools.PAN_OPERATOR_ID),
      ToolButton("Orbit", "SPHERE", MeshTools.ORBIT_OPERATOR_ID),
      ToolButton("Zoom", "VIEW_ZOOM", MeshTools.ZOOM_OPERATOR_ID),
      ToolButton("Roll", "MESH_CIRCLE", MeshTools.ROLL_OPERATOR_ID) ]
  }

  /** The view-tools buttons as laid out around the opening point. */
  function PuckAt(origin: Vec2, trig: Trig): seq<Button> {
    Placed(Grid, 0.0, ViewToolsButtons(), origin, BUTTON_SIZE, trig)
  }

  /** The opening point is a corner of all four buttons, and "Pan" comes
      first, so the widget opens with "Pan" hovered. */
  lemma OpeningPointHoversPan(origin: Vec2, trig: Trig)
    ensures FirstHit(PuckAt(origin, trig), origin) == Some(0)
    ensures PuckAt(origin, trig)[0].caption == "Pan"
  {
    GridSharesOrigin(ViewToolsButtons(), origin, BUTTON_SIZE, trig, 0);
  }

  /** A point strictly inside one quadrant around the opening point, at most
      60 away on each axis, selects that quadrant's tool: Pan bottom-left,
      Orbit bottom-right, Zoom top-left, Roll top-right. */
  lemma QuadrantSelectsTool(origin: Vec2, trig: Trig, dx: real, dy: real)
    requires 0.0 < Abs(dx) <= 60.0 && 0.0 < Abs(dy) <= 60.0
    ensures var k := (if dx < 0.0 then 0 else 1) + (if dy < 0.0 then 0 else 2);
            FirstHit(PuckAt(origin, trig), Vec2(origin.x + dx, origin.y + dy)) == Some(k)
  {
    var bs := PuckAt(origin, trig);
    var p := Vec2(origin.x + dx, origin.y + dy);
    var k := (if dx < 0.0 then 0 else 1) + (if dy < 0.0 then 0 else 2);
    assert ContainsPoint(bs[k], p.x, p.y);
    assert forall j :: 0 <= j < k ==> !ContainsPoint(bs[j], p.x, p.y);
  }

  /** on_button_clicked: the callback's result, or FINISHED without one. */
  function ClickResult(b: Button): (r: Status)
    ensures b.callback.None? ==> r == Finished
    ensures b.callback.Some? ==> r == b.callback.value.result
  {
    match b.callback
    case Some(cb) => cb.result
    case None => Finished
  }

  // ---------------------------------------------------------------------------
  // The widget session
  // ---------------------------------------------------------------------------

  /** The opaque token draw_handler_add returns. */
  datatype DrawHandle = DrawHandle(id: nat)

  /** What the session does outside its own fields, in order. */
  datatype Effect = HandlerRemoved(handle: DrawHandle) | CancelHook | CallbackFired(callback: Callback)

  /** The effect of _remove_handler: the handle is removed only if there is one. */
  function Teardown(handle: Option<DrawHandle>): (es: seq<Effect>)
    ensures handle.None? <==> es == []
    ensures handle.Some? ==> es == [HandlerRemoved(handle.value)]
  {
    if handle.Some? then [HandlerRemoved(handle.value)] else []
  }

  /** How many draw-handler removals a log holds. */
  function Removals(es: seq<Effect>): nat
    decreases |es|
  {
    if es == [] then 0
    else (if es[0].HandlerRemoved? then 1 else 0) + Removals(es[1..])
  }

  lemma {:induction false} RemovalsAppend(a: seq<Effect>, b: seq<Effect>)
    ensures Removals(a + b) == Removals(a) + Removals(b)
    decreases |a|
  {
    if a == [] {
      assert a + b == b;
    } else {
      assert (a + b)[1..] == a[1..] + b;
      RemovalsAppend(a[1..], b);
    }
  }

  /** The hover flags draw_widget passes to draw_button. */
  function HoverFlags(n: nat, hovered: Option<int>): (flags: seq<bool>)
    ensures |flags| == n
    ensures forall i :: 0 <= i < n ==> (flags[i] <==> hovered == Some(i))
  {
    seq(n, i => hovered == Some(i))
  }

  /** The class-level button template that setup_buttons fills on first use. */
  class ButtonTemplate {
    var buttons: seq<Button>

    constructor ()
      ensures buttons == []
    {
      buttons := [];
    }

    /** NAVIGATION_PUCK_OT_view_tools_widget.setup_buttons */
    method SetupButtons()
      modifies this
      ensures buttons == ViewToolsButtons()
    {
      buttons := ViewToolsButtons();
    }
  }

  /** BaseWidgetOperator with the view-tools widget's setup. `effects` logs
      draw-handler removals, on_cancel calls and fired callbacks in order. */
  class WidgetOperator {
    var active: bool
    var mousePos: Vec2
    var initialMousePos: Vec2
    var hoveredButton: Option<int>
    const autoDismissDistance: real
    var handler: Option<DrawHandle>
    var layout: WidgetLayout
    var buttons: array<Button>
    ghost var invoked: bool
    ghost var effects: seq<Effect>

    /** The session invariant: the widget is active exactly while it holds a
        draw handler; the handler added by invoke is removed at most once,
        and is either still held or removed; a hovered index is a button. */
    ghost predicate Valid()
      reads this
    {
      && autoDismissDistance == 100.0
      && (active <==> handler.Some?)
      && Removals(effects) + (if handler.Some? then 1 else 0) == (if invoked then 1 else 0)
      && (hoveredButton.Some? ==> 0 <= hoveredButton.value < buttons.Length)
    }

    constructor ()
      ensures Valid() && !invoked && effects == []
      ensures !active && handler == None && hoveredButton == None
      ensures mousePos == Vec2(0.0, 0.0) && initialMousePos == Vec2(0.0, 0.0)
      ensures layout.layoutType == Grid && layout.spacing == 8.0
      ensures buttons.Length == 0
    {
      active := false;
      mousePos := Vec2(0.0, 0.0);
      initialMousePos := Vec2(0.0, 0.0);
      hoveredButton := None;
      autoDismissDistance := 100.0;
      handler := None;
      layout := new WidgetLayout(Grid);
      buttons := new Button[0];
      invoked := false;
      effects := [];
    }

    /** NAVIGATION_PUCK_OT_view_tools_widget.setup: a fresh grid layout with
        no spacing. */
    method Setup()
      modifies this
      ensures fresh(layout) && layout.layoutType == Grid && layout.spacing == 0.0
      ensures active == old(active) && handler == old(handler) && hoveredButton == old(hoveredButton)
      ensures mousePos == old(mousePos) && initialMousePos == old(initialMousePos)
      ensures buttons == old(buttons) && effects == old(effects) && invoked == old(invoked)
    {
      layout := new WidgetLayout(Grid);
      layout.spacing := 0.0;
      layout.layoutType := Grid;
    }

    /** invoke: lays out fresh copies of the template buttons around the
        pointer and registers the draw handler the host hands back. */
    method Invoke(template: ButtonTemplate, ev: Event, token: DrawHandle, trig: Trig)
      returns (r: Status)
      requires Valid() && !invoked && hoveredButton == None
      modifies this, template
      ensures Valid() && invoked
      ensures r == RunningModal
      ensures active && handler == Some(token)
      ensures mousePos == RegionPos(ev) && initialMousePos == mousePos
      ensures template.buttons ==
                if old(template.buttons) == [] then ViewToolsButtons() else old(template.buttons)
      ensures fresh(buttons) && fresh(layout)
      ensures buttons[..] == Placed(Grid, 0.0, template.buttons, mousePos, BUTTON_SIZE, trig)
      ensures hoveredButton == None && effects == old(effects)
    {
      if template.buttons == [] {
        template.SetupButtons();
      }
      var copies := template.buttons;
      buttons := new Button[|copies|](i requires 0 <= i < |copies| => copies[i]);
      mousePos := RegionPos(ev);
      initialMousePos := mousePos;
      Setup();
      layout.CalculatePositions(buttons, mousePos, BUTTON_SIZE, trig);
      handler := Some(token);
      active := true;
      invoked := true;
      r := RunningModal;
    }

    /** _remove_handler: idempotent; always leaves the widget inactive. */
    method RemoveHandler()
      requires Valid()
      modifies this
      ensures Valid()
      ensures !active && handler == None
      ensures effects == old(effects) + Teardown(old(handler))
      ensures mousePos == old(mousePos) && initialMousePos == old(initialMousePos)
      ensures hoveredButton == old(hoveredButton) && buttons == old(buttons)
      ensures invoked == old(invoked) && layout == old(layout)
    {
      RemovalsAppend(effects, Teardown(handler));
      if handler.Some? {
        effects := effects + [HandlerRemoved(handler.value)];
        handler := None;
      }
      active := false;
    }

    /** on_cancel: a hook with no effect of its own. */
    method OnCancel()
      requires Valid()
      modifies this
      ensures Valid()
      ensures effects == old(effects) + [CancelHook]
      ensures active == old(active) && handler == old(handler)
      ensures mousePos == old(mousePos) && initialMousePos == old(initialMousePos)
      ensures hoveredButton == old(hoveredButton) && buttons == old(buttons)
      ensures invoked == old(invoked) && layout == old(layout)
    {
      RemovalsAppend(effects, [CancelHook]);
      effects := effects + [CancelHook];
    }

    /** cancel: tear down, then run the cancel hook. */
    method Cancel()
      requires Valid()
      modifies this
      ensures Valid()
      ensures !active && handler == None
      ensures effects == old(effects) + Teardown(old(handler)) + [CancelHook]
      ensures mousePos == old(mousePos) && initialMousePos == old(initialMousePos)
      ensures hoveredButton == old(hoveredButton) && buttons == old(buttons)
      ensures invoked == old(invoked) && layout == old(layout)
    {
      RemoveHandler();
      OnCancel();
    }

    /** on_button_clicked: fires the button's callback, if it has one. */
    method OnButtonClicked(b: Button) returns (r: Status)
      requires Valid()
      modifies this
      ensures Valid()
      ensures r == ClickResult(b)
      ensures effects == old(effects) + (if b.callback.Some? then [CallbackFired(b.callback.value)] else [])
      ensures active == old(active) && handler == old(handler)
      ensures mousePos == old(mousePos) && initialMousePos == old(initialMousePos)
      ensures hoveredButton == old(hoveredButton) && buttons == old(buttons)
      ensures invoked == old(invoked) && layout == old(layout)
    {
      if b.callback.Some? {
        RemovalsAppend(effects, [CallbackFired(b.callback.value)]);
        effects := effects + [CallbackFired(b.callback.value)];
        return b.callback.value.result;
      }
      return Finished;
    }

    /** Whether the pointer is further from the opening point than the
        auto-dismiss distance (compared squared). */
    function Strayed(p: Vec2): bool
      reads this
    {
      var d := Sub2(p, initialMousePos);
      LengthSq2(d) > autoDismissDistance * autoDismissDistance
    }

    /** _update_hovered_button: hovers the first button under the pointer;
        with none, dismisses the widget when the pointer strayed too far and
        clears the hover otherwise. */
    method UpdateHoveredButton() returns (r: Option<Status>)
      requires Valid()
      modifies this
      ensures Valid()
      ensures mousePos == old(mousePos) && initialMousePos == old(initialMousePos)
      ensures buttons == old(buttons) && invoked == old(invoked) && layout == old(layout)
      ensures var hit := FirstHit(buttons[..], mousePos);
              if hit.Some? then
                r == None && hoveredButton == hit && unchanged(`effects, `active, `handler)
              else if Strayed(mousePos) then
                && r == Some(Cancelled) && hoveredButton == old(hoveredButton)
                && !active && handler == None
                && effects == old(effects) + Teardown(old(handler)) + [CancelHook]
              else
                r == None && hoveredButton == None && unchanged(`effects, `active, `handler)
    {
      var x, y := mousePos.x, mousePos.y;
      var i := 0;
      while i < buttons.Length
        invariant 0 <= i <= buttons.Length
        invariant forall j :: 0 <= j < i ==> !ContainsPoint(buttons[j], x, y)
      {
        if ContainsPoint(buttons[i], x, y) {
          hoveredButton := Some(i);
          return None;
        }
        i := i + 1;
      }
      var dx := x - initialMousePos.x;
      var dy := y - initialMousePos.y;
      if dx * dx + dy * dy > autoDismissDistance * autoDismissDistance {
        RemoveHandler();
        OnCancel();
        return Some(Cancelled);
      }
      hoveredButton := None;
      return None;
    }

    /** modal: tracks the pointer, then dispatches a press. */
    method Modal(ev: Event) returns (r: Status)
      requires Valid()
      modifies this
      ensures Valid()
      ensures mousePos == RegionPos(ev) && buttons == old(buttons)
      ensures initialMousePos == old(initialMousePos)
      ensures invoked == old(invoked) && layout == old(layout)
      ensures var hit := FirstHit(buttons[..], mousePos);
              var dismissed := hit.None? && Strayed(mousePos);
              && (dismissed ==>
                    && r == Cancelled && !active && handler == None
                    && hoveredButton == old(hoveredButton)
                    && effects == old(effects) + Teardown(old(handler)) + [CancelHook])
              && (!dismissed ==> hoveredButton == hit)
              && (!dismissed && IsLeftPress(ev) && hit.Some? ==>
                    var b := buttons[hit.value];
                    && r == ClickResult(b) && !active && handler == None
                    && effects == old(effects) + Teardown(old(handler))
                                  + (if b.callback.Some? then [CallbackFired(b.callback.value)] else []))
              && (!dismissed && IsLeftPress(ev) && hit.None? ==>
                    && r == Cancelled && !active && handler == None
                    && effects == old(effects) + Teardown(old(handler)) + [CancelHook])
              && (!dismissed && ev.kind in {RightMouse, Esc} && ev.value == Press ==>
                    && r == Cancelled && !active && handler == None
                    && effects == old(effects) + Teardown(old(handler)) + [CancelHook])
              && (!dismissed && !IsLeftPress(ev) && !(ev.kind in {RightMouse, Esc} && ev.value == Press) ==>
                    && r == RunningModal && active == old(active) && handler == old(handler)
                    && effects == old(effects))
    {
      mousePos := RegionPos(ev);
      var update := UpdateHoveredButton();
      if update.Some? {
        RemoveHandler();
        return Cancelled;
      }
      if ev.kind == LeftMouse && ev.value == Press {
        if hoveredButton.Some? {
          var button := buttons[hoveredButton.value];
          RemoveHandler();
          r := OnButtonClicked(button);
          return r;
        } else {
          RemoveHandler();
          OnCancel();
          return Cancelled;
        }
      } else if ev.kind in {RightMouse, Esc} && ev.value == Press {
        RemoveHandler();
        OnCancel();
        return Cancelled;
      }
      return RunningModal;
    }

    /** draw_callback: nothing while inactive; otherwise the buttons are
        drawn with exactly the hovered one highlighted. */
    method DrawCallback() returns (flags: Option<seq<bool>>)
      ensures flags.None? <==> !active
      ensures flags.Some? ==> flags.value == HoverFlags(buttons.Length, hoveredButton)
    {
      if !active {
        return None;
      }
      var drawn: seq<bool> := [];
      var i := 0;
      while i < buttons.Length
        invariant 0 <= i <= buttons.Length
        invariant |drawn| == i
        invariant forall k :: 0 <= k < i ==> (drawn[k] <==> hoveredButton == Some(k))
      {
        drawn := drawn + [hoveredButton == Some(i)];
        i := i + 1;
      }
      return Some(drawn);
    }
  }

  /** A point more than one button size away from the opening point, along
      either axis, hits none of the puck's buttons. */
  lemma OutsidePuckMisses(origin: Vec2, trig: Trig, p: Vec2)
    requires Abs(p.x - origin.x) > 60.0 || Abs(p.y - origin.y) > 60.0
    ensures FirstHit(PuckAt(origin, trig), p) == None
  {
    var bs := PuckAt(origin, trig);
    assert forall j :: 0 <= j < |bs| ==> !ContainsPoint(bs[j], p.x, p.y);
  }

  /** A whole session: opening at (500, 500) hovers "Pan"; a press at
      (520, 520) lands in the top-right quadrant and fires "Roll". */
  method OpenAndPickRoll(trig: Trig) returns (hoverOnOpen: Option<int>, r: Status, ghost fired: seq<Effect>)
    ensures hoverOnOpen == Some(0)
    ensures r == Finished
    ensures fired == [HandlerRemoved(DrawHandle(1)),
                      CallbackFired(Callback(MeshTools.ROLL_OPERATOR_ID, Finished))]
  {
    var template := new ButtonTemplate();
    var op := new WidgetOperator();
    var open := Event(MouseMove, OtherValue, 500, 500, 500, 500, false);
    var _ := op.Invoke(template, open, DrawHandle(1), trig);
    OpeningPointHoversPan(Vec2(500.0, 500.0), trig);
    var _ := op.Modal(open);
    hoverOnOpen := op.hoveredButton;
    var press := Event(LeftMouse, Press, 520, 520, 520, 520, false);
    QuadrantSelectsTool(Vec2(500.0, 500.0), trig, 20.0, 20.0);
    assert Vec2(500.0 + 20.0, 500.0 + 20.0) == RegionPos(press);
    r := op.Modal(press);
    fired := op.effects;
  }

  /** A session whose pointer strays: opening at (500, 500) and moving to
      (500, 601), more than 100 from the opening point and off every button,
      dismisses the widget with one removal and one on_cancel. */
  method OpenAndStray(trig: Trig) returns (r: Status, ghost logged: seq<Effect>)
    ensures r == Cancelled
    ensures logged == [HandlerRemoved(DrawHandle(1)), CancelHook]
  {
    var template := new ButtonTemplate();
    var op := new WidgetOperator();
    var open := Event(MouseMove, OtherValue, 500, 500, 500, 500, false);
    var _ := op.Invoke(template, open, DrawHandle(1), trig);
    var away := Event(MouseMove, OtherValue, 500, 601, 500, 601, false);
    OutsidePuckMisses(Vec2(500.0, 500.0), trig, RegionPos(away));
    r := op.Modal(away);
    logged := op.effects;
  }
}
