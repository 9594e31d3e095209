/** The press-and-hold gesture operators. Pan, Roll, Zoom and Orbit share one
    modal state machine over `is_pressed`; it is modelled once, parameterised
    by the kind of the shared handler it drives. */
module MeshTools {
  import opened Common
  import opened Host
  import opened Utils
  import opened ViewHandlers

  /** The bl_idname of every operator class this module registers. */
  const PAN_OPERATOR_ID: string := "heavypoly.view_pan_modal"
  const ROLL_OPERATOR_ID: string := "heavypoly.view_roll_modal"
  const ZOOM_OPERATOR_ID: string := "heavypoly.view_zoom_modal"
  const ORBIT_OPERATOR_ID: string := "heavypoly.view_orbit_modal"
  const REGISTERED_OPERATOR_IDS: set<string> :=
    {"heavypoly.smart_extrude", ROLL_OPERATOR_ID, PAN_OPERATOR_ID, ZOOM_OPERATOR_ID, ORBIT_OPERATOR_ID}

  /** Which handler method one event step calls, if any. */
  datatype HandlerCall = NoCall | DownCall | MoveCall

  /** The outcome of one event step: the new `is_pressed`, the handler call
      made and the result returned to the host. */
  datatype Step = Step(pressed: bool, call: HandlerCall, result: Status)

  /** invoke: a left press starts the gesture at once; any other event starts
      it released. Either way the operator goes modal. */
  function InvokeStep(ev: Event): (s: Step)
    ensures s.result == RunningModal
    ensures s.pressed <==> IsLeftPress(ev)
    ensures s.call == DownCall <==> s.pressed
    ensures s.call != MoveCall
  {
    if ev.kind == LeftMouse && ev.value == Press then Step(true, DownCall, RunningModal)
    else Step(false, NoCall, RunningModal)
  }

  /** modal: one event of the press-and-hold state machine. */
  function ModalStep(pressed: bool, ev: Event): (s: Step)
    // a left press always re-anchors the handler, pressed or not
    ensures s.call == DownCall <==> IsLeftPress(ev)
    ensures IsLeftPress(ev) ==> s == Step(true, DownCall, RunningModal)
    // pointer_move only while pressed, and the gesture stays pressed;
    // otherwise a move passes through
    ensures s.call == MoveCall <==> (ev.kind == MouseMove && pressed)
    ensures ev.kind == MouseMove && pressed ==> s == Step(true, MoveCall, RunningModal)
    ensures s.call == MoveCall ==> s.pressed
    ensures ev.kind == MouseMove && !pressed ==> s == Step(false, NoCall, PassThrough)
    // is_pressed only becomes true together with pointer_down
    ensures s.pressed && !pressed ==> s.call == DownCall
    // the operator keeps running exactly when it calls the handler
    ensures s.result == RunningModal <==> s.call != NoCall
    // releasing the left button ends a pressed gesture
    ensures ev.kind == LeftMouse && ev.value == Release && pressed ==> s == Step(false, NoCall, Finished)
    ensures s.result == Finished ==> pressed && !s.pressed
    // ESC cancels with any value
    ensures ev.kind == Esc ==> s == Step(false, NoCall, Cancelled)
    // a right press cancels only while released
    ensures ev.kind == RightMouse && ev.value == Press ==>
              s == Step(pressed, NoCall, if pressed then PassThrough else Cancelled)
    // a pass-through leaves the state as it was
    ensures s.result == PassThrough ==> s.pressed == pressed
    // every other event passes through with the state kept
    ensures !IsLeftPress(ev) && ev.kind != MouseMove && ev.kind != Esc
            && !(ev.kind == LeftMouse && ev.value == Release && pressed)
            && !(ev.kind == RightMouse && ev.value == Press)
            ==> s == Step(pressed, NoCall, PassThrough)
  {
    if ev.kind == LeftMouse && ev.value == Press then
      Step(true, DownCall, RunningModal)
    else if ev.kind == MouseMove && pressed then
      Step(true, MoveCall, RunningModal)
    else if ev.kind == LeftMouse && ev.value == Release && pressed then
      Step(false, NoCall, Finished)
    else if ev.kind == Esc then
      Step(false, NoCall, Cancelled)
    else if !pressed && ev.kind == RightMouse && ev.value == Press then
      Step(pressed, NoCall, Cancelled)
    else
      Step(pressed, NoCall, PassThrough)
  }

  /** The handler calls made by a run of modal steps from a given `is_pressed`. */
  function Calls(pressed: bool, evs: seq<Event>): (calls: seq<HandlerCall>)
    ensures |calls| == |evs|
    decreases |evs|
  {
    if evs == [] then []
    else
      var s := ModalStep(pressed, evs[0]);
      [s.call] + Calls(s.pressed, evs[1..])
  }

  /** The `is_pressed` a run of modal steps ends in. */
  function PressedAfter(pressed: bool, evs: seq<Event>): bool
    decreases |evs|
  {
    if evs == [] then pressed
    else PressedAfter(ModalStep(pressed, evs[0]).pressed, evs[1..])
  }

  /** The i-th call of a run is the one the i-th event makes from the state
      the earlier events left. */
  lemma {:induction false} CallAt(pressed: bool, evs: seq<Event>, i: int)
    requires 0 <= i < |evs|
    ensures Calls(pressed, evs)[i] == ModalStep(PressedAfter(pressed, evs[..i]), evs[i]).call
    decreases |evs|
  {
    if i > 0 {
      var s := ModalStep(pressed, evs[0]);
      assert evs[..i][0] == evs[0];
      assert evs[..i][1..] == evs[1..][..i - 1];
      CallAt(s.pressed, evs[1..], i - 1);
    }
  }

  /** Along any run of modal steps, a pointer_move is preceded by a
      pointer_down in the run, unless the run started pressed. */
  lemma {:induction false} MoveFollowsDown(pressed: bool, evs: seq<Event>, i: int)
    requires 0 <= i < |evs| && Calls(pressed, evs)[i] == MoveCall
    ensures pressed || exists j :: 0 <= j < i && Calls(pressed, evs)[j] == DownCall
    decreases |evs|
  {
    var s := ModalStep(pressed, evs[0]);
    if i == 0 {
      assert Calls(pressed, evs)[0] == s.call;
    } else {
      assert Calls(pressed, evs)[i] == Calls(s.pressed, evs[1..])[i - 1];
      MoveFollowsDown(s.pressed, evs[1..], i - 1);
      if !pressed {
        if s.pressed {
          assert Calls(pressed, evs)[0] == DownCall;
        } else {
          var j :| 0 <= j < i - 1 && Calls(s.pressed, evs[1..])[j] == DownCall;
          assert Calls(pressed, evs)[j + 1] == DownCall;
        }
      }
    }
  }

  /** A whole operator session (invoke, then modal on every later event)
      never calls pointer_move before pointer_down. */
  lemma SessionMovesFollowDown(first: Event, evs: seq<Event>, i: int)
    requires 0 <= i < |evs|
    requires Calls(InvokeStep(first).pressed, evs)[i] == MoveCall
    ensures InvokeStep(first).call == DownCall
            || exists j :: 0 <= j < i && Calls(InvokeStep(first).pressed, evs)[j] == DownCall
  {
    MoveFollowsDown(InvokeStep(first).pressed, evs, i);
  }

  /** The run's state is decided by its last left press, release or ESC: once
      released, moves pass through and leave the handler alone until the
      next left press. */
  lemma {:induction false} ReleasedMovesPassThrough(evs: seq<Event>)
    requires forall k :: 0 <= k < |evs| ==> evs[k].kind == MouseMove
    ensures Calls(false, evs) == seq(|evs|, _ => NoCall)
    ensures !PressedAfter(false, evs)
  {
    if evs != [] {
      ReleasedMovesPassThrough(evs[1..]);
    }
  }

  /** The handler a gesture operator drives. The four operator classes
      share one class-level handler each. */
  datatype Handler =
    | PanKind(pan: PanHandler)
    | RollKind(roll: RollHandler)
    | ZoomKind(zoom: ZoomHandler)
    | OrbitKind(orbit: OrbitHandler)
  {
    function Obj(): object {
      match this
      case PanKind(h) => h
      case RollKind(h) => h
      case ZoomKind(h) => h
      case OrbitKind(h) => h
    }

    /** The handler holds what pointer_move reads: Pan's and Roll's fields
        are only set by pointer_down; Zoom and Orbit start from defaults. */
    predicate Anchored()
      reads Obj()
    {
      match this
      case PanKind(h) => h.prevPos.Some?
      case RollKind(h) => h.Anchored()
      case ZoomKind(_) => true
      case OrbitKind(_) => true
    }

    /** What pointer_down stores for the event `ev`: Pan and Orbit keep the
        region-space pointer, Zoom the window-space one, and Roll the view
        rotation, its roll angle and the pointer's direction from the centre. */
    predicate CapturedFrom(ctx: Context, ev: Event)
      reads Obj(), ctx.view
    {
      match this
      case PanKind(h) => h.prevPos == Some(RegionPos(ev))
      case RollKind(h) =>
        && h.rotation == Some(ctx.view.viewRotation)
        && h.initialAngle == Some(CurrentRollAngle(ctx.math, ctx.view.viewRotation))
        && h.initialVector == Some(MouseVectorToCenter(ctx, ev))
      case ZoomKind(h) => h.prevPos == WindowPos(ev)
      case OrbitKind(h) => h.prevPos == RegionPos(ev)
    }
  }

  /** ViewPanOperator, ViewRollOperator, ViewZoomOperator and
      ViewOrbitOperator: identical modal/invoke over their own handler.
      `downs` and `moves` count the handler calls this instance made. */
  class GestureOperator {
    const handler: Handler
    var isPressed: bool
    ghost var invoked: bool
    ghost var downs: nat
    ghost var moves: nat

    ghost predicate Valid()
      reads this, handler.Obj()
    {
      && (invoked && isPressed ==> downs > 0 && handler.Anchored())
      && (moves > 0 ==> downs > 0)
    }

    constructor (h: Handler)
      ensures handler == h && !invoked && downs == 0 && moves == 0
      ensures Valid()
    {
      handler := h;
      isPressed := false;
      invoked := false;
      downs, moves := 0, 0;
    }

    method PointerDown(ctx: Context, ev: Event)
      modifies handler.Obj()
      ensures handler.Anchored() && handler.CapturedFrom(ctx, ev)
    {
      match handler
      case PanKind(h) => h.PointerDown(ev);
      case RollKind(h) => h.PointerDown(ctx, ev);
      case ZoomKind(h) => h.PointerDown(ev);
      case OrbitKind(h) => h.PointerDown(ev);
    }

    method Invoke(ctx: Context, ev: Event) returns (r: Status)
      requires !invoked && Valid()
      modifies this, handler.Obj()
      ensures invoked && Valid()
      ensures var s := InvokeStep(ev);
              && r == s.result
              && isPressed == s.pressed
              && downs == old(downs) + (if s.call == DownCall then 1 else 0)
              && moves == old(moves)
      ensures IsLeftPress(ev) ==> handler.CapturedFrom(ctx, ev)
      ensures !IsLeftPress(ev) ==> unchanged(handler.Obj())
    {
      if ev.kind == LeftMouse && ev.value == Press {
        isPressed := true;
        PointerDown(ctx, ev);
        downs := downs + 1;
      } else {
        isPressed := false;
      }
      invoked := true;
      r := RunningModal;
    }

    /** One modal event. Panning divides by the region width, so a pan
        move needs a region of non-zero width. */
    method Modal(ctx: Context, ev: Event) returns (r: Status)
      requires invoked && Valid()
      requires handler.PanKind? && ev.kind == MouseMove && isPressed ==>
                 ctx.region.Some? && ctx.region.value.width != 0
      modifies this, handler.Obj(), ctx.view
      ensures invoked && Valid()
      ensures var s := ModalStep(old(isPressed), ev);
              && r == s.result
              && isPressed == s.pressed
              && downs == old(downs) + (if s.call == DownCall then 1 else 0)
              && moves == old(moves) + (if s.call == MoveCall then 1 else 0)
      ensures ModalStep(old(isPressed), ev).call == NoCall ==>
                unchanged(handler.Obj()) && unchanged(ctx.view)
      // pointer_down re-anchors the handler and leaves the view alone
      ensures ModalStep(old(isPressed), ev).call == DownCall ==>
                handler.CapturedFrom(ctx, ev) && unchanged(ctx.view)
      // pointer_move: each kind changes only its own view field
      ensures ModalStep(old(isPressed), ev).call == MoveCall ==>
                ctx.view.isPerspective == old(ctx.view.isPerspective)
      ensures ModalStep(old(isPressed), ev).call == MoveCall && handler.PanKind? ==>
                && ctx.view.viewLocation ==
                     Add3(old(ctx.view.viewLocation),
                          PanOffset(ctx.math.viewBasis(old(ctx.view.viewRotation)),
                                    old(ctx.view.viewDistance), ctx.region.value.width,
                                    old(handler.pan.prevPos).value, RegionPos(ev)))
                && ctx.view.viewDistance == old(ctx.view.viewDistance)
                && ctx.view.viewRotation == old(ctx.view.viewRotation)
                && handler.pan.prevPos == Some(RegionPos(ev))
      ensures ModalStep(old(isPressed), ev).call == MoveCall && handler.ZoomKind? ==>
                && ctx.view.viewDistance ==
                     ZoomedDistance(old(ctx.view.viewDistance), old(handler.zoom.prevPos), WindowPos(ev))
                && ctx.view.viewLocation == old(ctx.view.viewLocation)
                && ctx.view.viewRotation == old(ctx.view.viewRotation)
                && handler.zoom.prevPos == WindowPos(ev)
      ensures ModalStep(old(isPressed), ev).call == MoveCall && handler.OrbitKind? ==>
                && ctx.view.viewRotation ==
                     ctx.math.toQuaternion(OrbitEuler(ctx.math.toEuler(old(ctx.view.viewRotation)),
                                                      old(handler.orbit.prevPos), RegionPos(ev), ev.shift))
                && ctx.view.viewLocation == old(ctx.view.viewLocation)
                && ctx.view.viewDistance == old(ctx.view.viewDistance)
                && handler.orbit.prevPos == RegionPos(ev)
      ensures ModalStep(old(isPressed), ev).call == MoveCall && handler.RollKind? ==>
                && ctx.view.viewRotation ==
                     RolledRotation(ctx.math, handler.roll.rotation.value,
                                    RollDelta(ctx.math, handler.roll.initialVector.value,
                                              handler.roll.initialAngle.value,
                                              MouseVectorToCenter(ctx, ev), ev.shift))
                && ctx.view.viewLocation == old(ctx.view.viewLocation)
                && ctx.view.viewDistance == old(ctx.view.viewDistance)
                && unchanged(handler.Obj())
    {
      if ev.kind == LeftMouse && ev.value == Press {
        isPressed := true;
        PointerDown(ctx, ev);
        downs := downs + 1;
        return RunningModal;
      } else if ev.kind == MouseMove && isPressed {
        match handler {
          case PanKind(h) => h.PointerMove(ctx, ev);
          case RollKind(h) => h.PointerMove(ctx, ev);
          case ZoomKind(h) => h.PointerMove(ctx, ev);
          case OrbitKind(h) => h.PointerMove(ctx, ev);
        }
        moves := moves + 1;
        return RunningModal;
      } else if ev.kind == LeftMouse && ev.value == Release && isPressed {
        isPressed := false;
        return Finished;
      } else if ev.kind == Esc {
        isPressed := false;
        return Cancelled;
      } else if !isPressed && ev.kind == RightMouse && ev.value == Press {
        return Cancelled;
      }
      return PassThrough;
    }
  }
}
