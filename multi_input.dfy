/**
 * The combined input of src/input/multi_input.rs: a mouse, a keyboard, and
 * the buttons and keys held across frames.  Events are routed to the mouse or
 * the keyboard; after every event, whatever the mouse or keyboard reports as
 * released stops being held, and `clear` promotes this frame's clicks and key
 * presses to held before clearing both devices.
 *
 * src/input/keyboard.rs is not part of this model: the keyboard is any value
 * `KB` whose construction, update, clear and pressed/released queries are
 * supplied as a `KeyboardDriver`.
 */
module MultiInputs {
  import opened Mice

  datatype KeyboardDriver<!KB> = KeyboardDriver(
    initial: KB,
    update: (KB, WindowEvent) -> KB,
    clear: KB -> KB,
    pressedKeys: KB -> set<Key>,
    releasedKeys: KB -> set<Key>)

  /** The events handed to the keyboard. */
  predicate IsKeyboardEvent(e: WindowEvent)
  {
    e.KeyEvent? || e.Char? || e.CharModifiers?
  }

  datatype MultiState<KB> = MultiState(
    mouse: MouseState,
    keyboard: KB,
    heldButtons: map<Button, CursorPosition>,
    heldKeys: set<Key>)

  /** `MultiInput::new`. */
  function NewMulti<KB>(driver: KeyboardDriver<KB>): (r: MultiState<KB>)
    ensures r.mouse == NewMouse() && r.keyboard == driver.initial
    ensures r.heldButtons == map[] && r.heldKeys == {}
  {
    MultiState(NewMouse(), driver.initial, map[], {})
  }

  /** `held_buttons.retain(|k, _| !released.contains_key(k))`. */
  function Retain(held: map<Button, CursorPosition>, released: map<Button, CursorPosition>): (r: map<Button, CursorPosition>)
    ensures r.Keys == held.Keys - released.Keys
    ensures forall b :: b in r ==> r[b] == held[b]
  {
    map b | b in held && b !in released :: held[b]
  }

  /** `MultiInput::update` on one event. */
  function MultiStep<KB>(driver: KeyboardDriver<KB>, s: MultiState<KB>, e: WindowEvent): (r: MultiState<KB>)
    ensures r.mouse == MouseStep(s.mouse, e)
    ensures r.keyboard == if IsKeyboardEvent(e) then driver.update(s.keyboard, e) else s.keyboard
    ensures r.heldButtons.Keys == s.heldButtons.Keys - r.mouse.releasedButtons.Keys
    ensures forall b :: b in r.heldButtons ==> r.heldButtons[b] == s.heldButtons[b]
    ensures r.heldKeys == s.heldKeys - driver.releasedKeys(r.keyboard)
  {
    var mouse := if IsMouseEvent(e) then MouseStep(s.mouse, e) else s.mouse;
    var keyboard := if IsKeyboardEvent(e) then driver.update(s.keyboard, e) else s.keyboard;
    MultiState(mouse, keyboard, Retain(s.heldButtons, mouse.releasedButtons), s.heldKeys - driver.releasedKeys(keyboard))
  }

  /**
   * `MultiInput::clear`: this frame's clicks extend the held buttons, a click's
   * position winning over an older one, and this frame's pressed keys extend
   * the held keys; then both devices are cleared.
   */
  function MultiClear<KB>(driver: KeyboardDriver<KB>, s: MultiState<KB>): (r: MultiState<KB>)
    ensures r.mouse == MouseClear(s.mouse) && r.keyboard == driver.clear(s.keyboard)
    ensures r.heldButtons.Keys == s.heldButtons.Keys + s.mouse.clickedButtons.Keys
    ensures forall b :: b in r.heldButtons ==>
              r.heldButtons[b] == if b in s.mouse.clickedButtons then s.mouse.clickedButtons[b] else s.heldButtons[b]
    ensures r.heldKeys == s.heldKeys + driver.pressedKeys(s.keyboard)
  {
    MultiState(MouseClear(s.mouse), driver.clear(s.keyboard),
               s.heldButtons + s.mouse.clickedButtons, s.heldKeys + driver.pressedKeys(s.keyboard))
  }

  /** The events of one frame applied in order. */
  function MultiStepAll<KB>(driver: KeyboardDriver<KB>, s: MultiState<KB>, events: seq<WindowEvent>): MultiState<KB>
    decreases |events|
  {
    if events == [] then s else MultiStep(driver, MultiStepAll(driver, s, events[..|events| - 1]), events[|events| - 1])
  }

  /**
   * Over a non-empty frame the mouse sees exactly the frame's events, and a button
   * stays held only if neither this frame nor an earlier one since the last
   * clear released it.
   */
  lemma {:induction false} FrameHeldButtons<KB>(driver: KeyboardDriver<KB>, s: MultiState<KB>, events: seq<WindowEvent>)
    ensures MultiStepAll(driver, s, events).mouse == MouseStepAll(s.mouse, events)
    ensures events != [] ==>
              MultiStepAll(driver, s, events).heldButtons.Keys
              == s.heldButtons.Keys - (s.mouse.releasedButtons.Keys + ButtonsIn(events, Release))
    decreases |events|
  {
    if events != [] {
      var prefix := events[..|events| - 1];
      FrameHeldButtons(driver, s, prefix);
      FrameButtons(s.mouse, events);
      FrameButtons(s.mouse, prefix);
    }
  }

  /**
   * A button pressed and released within one frame is held after `clear`, and
   * stays held through the next event if that event is not a release.
   */
  lemma PressAndReleaseInOneFrameIsHeld<KB>(driver: KeyboardDriver<KB>, s: MultiState<KB>, b: MouseButton, m: Modifiers,
                                            next: WindowEvent)
    requires !(next.MouseButtonEvent? && next.action == Release)
    ensures var frame := MultiStepAll(driver, s, [MouseButtonEvent(b, Press, m), MouseButtonEvent(b, Release, m)]);
            Button(b, m) !in frame.heldButtons
            && Button(b, m) in MultiClear(driver, frame).heldButtons
            && Button(b, m) in MultiStep(driver, MultiClear(driver, frame), next).heldButtons
  {
    var e1 := MouseButtonEvent(b, Press, m);
    var e2 := MouseButtonEvent(b, Release, m);
    assert [e1, e2][..1] == [e1];
    assert [e1][..0] == [];
    assert MultiStepAll(driver, s, []) == s;
    var f1 := MultiStepAll(driver, s, [e1]);
    assert f1 == MultiStep(driver, MultiStepAll(driver, s, [e1][..0]), e1);
    assert Button(b, m) in f1.mouse.clickedButtons;
    var frame := MultiStepAll(driver, s, [e1, e2]);
    assert frame == MultiStep(driver, f1, e2);
    assert Button(b, m) in frame.mouse.releasedButtons;
    assert Button(b, m) in frame.mouse.clickedButtons;
  }

  /** `MultiInput`: the mouse object, the keyboard value and the held collections. */
  class MultiInput<KB> {
    const mouse: Mouse
    var keyboard: KB
    var heldButtons: map<Button, CursorPosition>
    var heldKeys: set<Key>
    const driver: KeyboardDriver<KB>

    function State(): MultiState<KB>
      reads this, mouse
    {
      MultiState(mouse.State(), keyboard, heldButtons, heldKeys)
    }

    constructor (driver: KeyboardDriver<KB>)
      ensures this.driver == driver && fresh(mouse)
      ensures State() == NewMulti(driver)
    {
      mouse := new Mouse();
      keyboard := driver.initial;
      heldButtons := map[];
      heldKeys := {};
      this.driver := driver;
    }

    function GetCursorPosition(): (p: CursorPosition)
      reads this, mouse
      ensures p == State().mouse.cursorPosition
    {
      mouse.GetCursorPosition()
    }

    function GetWheelMovement(): (w: WheelMovement)
      reads this, mouse
      ensures w == State().mouse.wheelMovement
    {
      mouse.GetWheelMovement()
    }

    function GetIsCursorOwned(): (b: bool)
      reads this, mouse
      ensures b == State().mouse.isCursorOwned
    {
      mouse.GetIsCursorOwned()
    }

    function GetIsCursorWithinWindow(): (b: bool)
      reads this, mouse
      ensures b == State().mouse.isCursorWithinWindow
    {
      mouse.GetIsCursorWithinWindow()
    }

    function GetClickedButtons(): (m: map<Button, CursorPosition>)
      reads this, mouse
      ensures m == State().mouse.clickedButtons
    {
      mouse.GetClickedButtons()
    }

    function GetReleasedButtons(): (m: map<Button, CursorPosition>)
      reads this, mouse
      ensures m == State().mouse.releasedButtons
    {
      mouse.GetReleasedButtons()
    }

    function GetHeldButtons(): (m: map<Button, CursorPosition>)
      reads this
      ensures m == heldButtons
    {
      heldButtons
    }

    function GetPressedKeys(): (k: set<Key>)
      reads this
      ensures k == driver.pressedKeys(keyboard)
    {
      driver.pressedKeys(keyboard)
    }

    function GetHeldKeys(): (k: set<Key>)
      reads this
      ensures k == heldKeys
    {
      heldKeys
    }

    function GetReleasedKeys(): (k: set<Key>)
      reads this
      ensures k == driver.releasedKeys(keyboard)
    {
      driver.releasedKeys(keyboard)
    }

    method Update(event: WindowEvent)
      modifies this, mouse
      ensures State() == MultiStep(driver, old(State()), event)
    {
      if IsKeyboardEvent(event) {
        keyboard := driver.update(keyboard, event);
      } else if IsMouseEvent(event) {
        mouse.Update(event);
      }
      var mouseButtons := mouse.GetReleasedButtons();
      heldButtons := Retain(heldButtons, mouseButtons);
      heldKeys := heldKeys - driver.releasedKeys(keyboard);
    }

    method Clear()
      modifies this, mouse
      ensures State() == MultiClear(driver, old(State()))
    {
      heldButtons := heldButtons + mouse.GetClickedButtons();
      heldKeys := heldKeys + driver.pressedKeys(keyboard);
      mouse.Clear();
      keyboard := driver.clear(keyboard);
    }
  }
}
