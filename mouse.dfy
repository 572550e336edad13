/**
 * The mouse bookkeeping of src/input/mouse.rs, driven by GLFW window events:
 * the cursor position, the last wheel movement, focus and hover flags, and
 * the buttons pressed and released this frame, each mapped to the cursor
 * position at which it happened.
 *
 * `MouseState` with `MouseStep` and `MouseClear` is the state machine; the
 * `Mouse` class performs it in place on its fields.
 */
module Mice {

  datatype MouseButton = MouseButton(index: nat)

  /** GLFW's modifier-key bit set. */
  datatype Modifiers = Modifiers(bits: nat)

  datatype Action = Release | Press | Repeat

  /** A GLFW keyboard key. */
  datatype Key = Key(code: int)

  /** GLFW's `WindowEvent`; the variants neither the mouse nor the keyboard reads are folded into `OtherWindowEvent`. */
  datatype WindowEvent =
    | Focus(isFocused: bool)
    | CursorEnter(entered: bool)
    | MouseButtonEvent(button: MouseButton, action: Action, modifiers: Modifiers)
    | CursorPos(x: real, y: real)
    | Scroll(deltaX: real, deltaY: real)
    | KeyEvent(key: Key, scancode: int, keyAction: Action, keyModifiers: Modifiers)
    | Char(character: char)
    | CharModifiers(modCharacter: char, charModifiers: Modifiers)
    | OtherWindowEvent

  datatype WheelMovement = WheelMovement(horizontal: real, vertical: real)

  datatype CursorPosition = CursorPosition(x: real, y: real)

  datatype Button = Button(button: MouseButton, modifiers: Modifiers)

  datatype MouseState = MouseState(
    cursorPosition: CursorPosition,
    wheelMovement: WheelMovement,
    isCursorOwned: bool,
    isCursorWithinWindow: bool,
    clickedButtons: map<Button, CursorPosition>,
    releasedButtons: map<Button, CursorPosition>)

  /** `Mouse::new`. */
  function NewMouse(): (r: MouseState)
    ensures r.cursorPosition == CursorPosition(0.0, 0.0) && r.wheelMovement == WheelMovement(0.0, 0.0)
    ensures !r.isCursorOwned && !r.isCursorWithinWindow
    ensures r.clickedButtons == map[] && r.releasedButtons == map[] && MouseClear(r) == r
  {
    MouseState(CursorPosition(0.0, 0.0), WheelMovement(0.0, 0.0), false, false, map[], map[])
  }

  /** The events `Mouse::update` reacts to. */
  predicate IsMouseEvent(e: WindowEvent)
  {
    e.Focus? || e.CursorEnter? || e.MouseButtonEvent? || e.CursorPos? || e.Scroll?
  }

  /** `Mouse::update` on one event. */
  function MouseStep(s: MouseState, e: WindowEvent): (r: MouseState)
    ensures !IsMouseEvent(e) || (e.MouseButtonEvent? && e.action == Repeat) ==> r == s
    ensures !e.MouseButtonEvent? ==> r.clickedButtons == s.clickedButtons && r.releasedButtons == s.releasedButtons
    ensures e.MouseButtonEvent? ==> r.cursorPosition == s.cursorPosition && r.wheelMovement == s.wheelMovement
                                    && r.isCursorOwned == s.isCursorOwned && r.isCursorWithinWindow == s.isCursorWithinWindow
    ensures r.clickedButtons == s.clickedButtons || r.releasedButtons == s.releasedButtons
  {
    match e
    case Focus(isFocused) => s.(isCursorOwned := isFocused)
    case CursorEnter(entered) => s.(isCursorWithinWindow := entered)
    case MouseButtonEvent(button, action, modifiers) =>
      (match action
       case Release => s.(releasedButtons := s.releasedButtons[Button(button, modifiers) := s.cursorPosition])
       case Press => s.(clickedButtons := s.clickedButtons[Button(button, modifiers) := s.cursorPosition])
       case Repeat => s)
    case CursorPos(x, y) => s.(cursorPosition := CursorPosition(x, y))
    case Scroll(dx, dy) => s.(wheelMovement := WheelMovement(dx, dy))
    case _ => s
  }

  /** `Mouse::clear`: forgets this frame's buttons and keeps everything else. */
  function MouseClear(s: MouseState): (r: MouseState)
    ensures r.clickedButtons == map[] && r.releasedButtons == map[]
    ensures r.(clickedButtons := s.clickedButtons, releasedButtons := s.releasedButtons) == s
  {
    s.(clickedButtons := map[], releasedButtons := map[])
  }

  /** A press records the position of the latest cursor move before it, whatever was recorded earlier. */
  lemma PressRecordsCursor(s: MouseState, x: real, y: real, b: MouseButton, m: Modifiers)
    ensures MouseStep(MouseStep(s, CursorPos(x, y)), MouseButtonEvent(b, Press, m)).clickedButtons
         == s.clickedButtons[Button(b, m) := CursorPosition(x, y)]
  {
  }

  /** Scrolling replaces the wheel movement: the earlier of two scrolls is lost. */
  lemma ScrollReplaces(s: MouseState, dx1: real, dy1: real, dx2: real, dy2: real)
    ensures MouseStep(MouseStep(s, Scroll(dx1, dy1)), Scroll(dx2, dy2)).wheelMovement == WheelMovement(dx2, dy2)
  {
  }

  /**
   * Focus, hover and cursor moves replace their own field; a release records
   * the current cursor position for the button and leaves the clicked map.
   */
  lemma EventEffects(s: MouseState, e: WindowEvent)
    ensures e.Focus? ==> MouseStep(s, e) == s.(isCursorOwned := e.isFocused)
    ensures e.CursorEnter? ==> MouseStep(s, e) == s.(isCursorWithinWindow := e.entered)
    ensures e.CursorPos? ==> MouseStep(s, e) == s.(cursorPosition := CursorPosition(e.x, e.y))
    ensures e.MouseButtonEvent? && e.action == Release ==>
              MouseStep(s, e) == s.(releasedButtons := s.releasedButtons[Button(e.button, e.modifiers) := s.cursorPosition])
  {
  }

  /** The events of one frame applied in order. */
  function MouseStepAll(s: MouseState, events: seq<WindowEvent>): MouseState
    decreases |events|
  {
    if events == [] then s else MouseStep(MouseStepAll(s, events[..|events| - 1]), events[|events| - 1])
  }

  /** The buttons (with their modifiers) that some event of `events` reports with `action`. */
  function ButtonsIn(events: seq<WindowEvent>, action: Action): set<Button>
    decreases |events|
  {
    if events == [] then {}
    else
      var e := events[|events| - 1];
      ButtonsIn(events[..|events| - 1], action)
        + (if e.MouseButtonEvent? && e.action == action then {Button(e.button, e.modifiers)} else {})
  }

  /**
   * Over a frame the clicked map gains exactly the pressed buttons and the
   * released map exactly the released ones; an entry is never removed.
   */
  lemma {:induction false} FrameButtons(s: MouseState, events: seq<WindowEvent>)
    ensures MouseStepAll(s, events).clickedButtons.Keys == s.clickedButtons.Keys + ButtonsIn(events, Press)
    ensures MouseStepAll(s, events).releasedButtons.Keys == s.releasedButtons.Keys + ButtonsIn(events, Release)
    decreases |events|
  {
    if events != [] {
      FrameButtons(s, events[..|events| - 1]);
    }
  }

  /** `Mouse`: the mouse state, updated in place. */
  class Mouse {
    var cursorPosition: CursorPosition
    var wheelMovement: WheelMovement
    var isCursorOwned: bool
    var isCursorWithinWindow: bool
    var clickedButtons: map<Button, CursorPosition>
    var releasedButtons: map<Button, CursorPosition>

    function State(): MouseState
      reads this
    {
      MouseState(cursorPosition, wheelMovement, isCursorOwned, isCursorWithinWindow, clickedButtons, releasedButtons)
    }

    constructor ()
      ensures State() == NewMouse()
    {
      cursorPosition := CursorPosition(0.0, 0.0);
      wheelMovement := WheelMovement(0.0, 0.0);
      isCursorOwned := false;
      isCursorWithinWindow := false;
      clickedButtons := map[];
      releasedButtons := map[];
    }

    function GetCursorPosition(): (p: CursorPosition)
      reads this
      ensures p == State().cursorPosition
    {
      cursorPosition
    }

    function GetWheelMovement(): (w: WheelMovement)
      reads this
      ensures w == State().wheelMovement
    {
      wheelMovement
    }

    function GetIsCursorOwned(): (b: bool)
      reads this
      ensures b == State().isCursorOwned
    {
      isCursorOwned
    }

    function GetIsCursorWithinWindow(): (b: bool)
      reads this
      ensures b == State().isCursorWithinWindow
    {
      isCursorWithinWindow
    }

    function GetClickedButtons(): (m: map<Button, CursorPosition>)
      reads this
      ensures m == State().clickedButtons
    {
      clickedButtons
    }

    function GetReleasedButtons(): (m: map<Button, CursorPosition>)
      reads this
      ensures m == State().releasedButtons
    {
      releasedButtons
    }

    method Update(event: WindowEvent)
      modifies this
      ensures State() == MouseStep(old(State()), event)
    {
      match event {
        case Focus(isFocused) =>
          isCursorOwned := isFocused;
        case CursorEnter(entered) =>
          isCursorWithinWindow := entered;
        case MouseButtonEvent(button, action, modifiers) =>
          match action {
            case Release =>
              releasedButtons := releasedButtons[Button(button, modifiers) := cursorPosition];
            case Press =>
              clickedButtons := clickedButtons[Button(button, modifiers) := cursorPosition];
            case Repeat =>
          }
        case CursorPos(x, y) =>
          cursorPosition := CursorPosition(x, y);
        case Scroll(dx, dy) =>
          wheelMovement := WheelMovement(dx, dy);
        case _ =>
      }
    }

    method Clear()
      modifies this
      ensures State() == MouseClear(old(State()))
    {
      clickedButtons := map[];
      releasedButtons := map[];
    }
  }
}
