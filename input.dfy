/**
 * The keyboard bookkeeping of src/input.rs: `CustomInput` sorts coffee's
 * keyboard events into keys pressed this frame, keys held from earlier frames
 * and keys released this frame; `clear`, called once per frame, promotes the
 * pressed keys to held.
 *
 * `KeySets` with `StepKeys` and `ClearKeys` is the state machine; the
 * `CustomInput` class performs it in place on its three set fields.
 */
module CustomInputs {

  /** coffee's `KeyCode`: the four arrow keys by name, every other key by an opaque number. */
  datatype KeyCode = Left | Right | Up | Down | OtherKey(code: nat)

  datatype ButtonState = Pressed | Released

  /** coffee's `keyboard::Event`. */
  datatype KeyboardEvent = KeyInput(keyCode: KeyCode, state: ButtonState) | TextEntered(character: char)

  /** coffee's `input::Event`; only keyboard events are looked at. */
  datatype Event = Keyboard(keyboardEvent: KeyboardEvent) | Mouse | Gamepad | Window

  datatype KeySets = KeySets(pressed: set<KeyCode>, held: set<KeyCode>, released: set<KeyCode>)

  /** `CustomInput::new`. */
  function NoKeys(): KeySets
  {
    KeySets({}, {}, {})
  }

  predicate IsKey(e: Event, k: KeyCode, state: ButtonState)
  {
    e == Keyboard(KeyInput(k, state))
  }

  /** `CustomInput::update` on one event. */
  function StepKeys(s: KeySets, e: Event): (r: KeySets)
    ensures r.held <= s.held
    ensures s.pressed !! s.held ==> r.pressed !! r.held
    ensures !e.Keyboard? || !e.keyboardEvent.KeyInput? ==> r == s
  {
    match e
    case Keyboard(KeyInput(k, Pressed)) =>
      if k !in s.held then s.(pressed := s.pressed + {k}) else s
    case Keyboard(KeyInput(k, Released)) =>
      s.(released := s.released + {k}, held := s.held - {k})
    case _ => s
  }

  /** `CustomInput::clear`: this frame's presses become held, and the frame's sets are emptied. */
  function ClearKeys(s: KeySets): (r: KeySets)
    ensures r.pressed == {} && r.released == {}
    ensures s.pressed !! s.held ==> r.pressed !! r.held
  {
    KeySets({}, s.held + s.pressed, {})
  }

  /**
   * A press of a key not held marks it pressed, a press of a held key changes
   * nothing, and a release marks the key released and no longer held while
   * leaving the pressed keys alone.
   */
  lemma KeyEventEffects(s: KeySets, k: KeyCode)
    ensures k !in s.held ==> StepKeys(s, Keyboard(KeyInput(k, Pressed))) == s.(pressed := s.pressed + {k})
    ensures k in s.held ==> StepKeys(s, Keyboard(KeyInput(k, Pressed))) == s
    ensures StepKeys(s, Keyboard(KeyInput(k, Released))) == s.(released := s.released + {k}, held := s.held - {k})
  {
  }

  lemma ClearKeysIdempotent(s: KeySets)
    ensures ClearKeys(ClearKeys(s)) == ClearKeys(s)
    ensures ClearKeys(s).held == s.held + s.pressed
  {
  }

  /** The events of one frame applied in order. */
  function StepAll(s: KeySets, events: seq<Event>): KeySets
    decreases |events|
  {
    if events == [] then s else StepKeys(StepAll(s, events[..|events| - 1]), events[|events| - 1])
  }

  /** The keys released at some point in `events`. */
  function ReleasedIn(events: seq<Event>): set<KeyCode>
    decreases |events|
  {
    if events == [] then {}
    else
      var e := events[|events| - 1];
      ReleasedIn(events[..|events| - 1])
        + (if e.Keyboard? && e.keyboardEvent.KeyInput? && e.keyboardEvent.state == Released then {e.keyboardEvent.keyCode} else {})
  }

  /**
   * Over a frame, a key stops being held exactly when it is released, and the
   * released set gains exactly the released keys; no event makes a key held.
   */
  lemma {:induction false} FrameHeldAndReleased(s: KeySets, events: seq<Event>)
    ensures StepAll(s, events).held == s.held - ReleasedIn(events)
    ensures StepAll(s, events).released == s.released + ReleasedIn(events)
    decreases |events|
  {
    if events != [] {
      FrameHeldAndReleased(s, events[..|events| - 1]);
    }
  }

  /**
   * Over a frame, a key ends up pressed exactly when it was already pressed, or
   * some event presses it at a moment when it is not held: either it was not
   * held when the frame began, or an earlier event of the frame released it.
   */
  lemma {:induction false} FramePressed(s: KeySets, events: seq<Event>, k: KeyCode)
    ensures k in StepAll(s, events).pressed
        <==> k in s.pressed
             || exists i :: 0 <= i < |events| && IsKey(events[i], k, Pressed)
                            && (k !in s.held || k in ReleasedIn(events[..i]))
    decreases |events|
  {
    if events != [] {
      var n := |events| - 1;
      var prefix := events[..n];
      FramePressed(s, prefix, k);
      FrameHeldAndReleased(s, prefix);
      var p := StepAll(s, prefix);
      forall i | 0 <= i < n
        ensures events[..i] == prefix[..i] && events[i] == prefix[i]
      {
      }
      if IsKey(events[n], k, Pressed) && (k !in s.held || k in ReleasedIn(prefix)) {
        assert k !in p.held;
        assert events[..n] == prefix;
      }
      if k in StepAll(s, events).pressed && k !in p.pressed {
        assert IsKey(events[n], k, Pressed) && k !in p.held;
        assert events[..n] == prefix;
      }
    }
  }

  /** `CustomInput`: the three key sets, updated in place. */
  class CustomInput {
    var keysPressed: set<KeyCode>
    var keysHeld: set<KeyCode>
    var keysReleased: set<KeyCode>

    function Sets(): KeySets
      reads this
    {
      KeySets(keysPressed, keysHeld, keysReleased)
    }

    constructor ()
      ensures Sets() == NoKeys()
    {
      keysPressed := {};
      keysHeld := {};
      keysReleased := {};
    }

    method Update(event: Event)
      modifies this
      ensures Sets() == StepKeys(old(Sets()), event)
    {
      match event {
        case Keyboard(KeyInput(keyCode, Pressed)) =>
          if keyCode !in keysHeld {
            keysPressed := keysPressed + {keyCode};
          }
        case Keyboard(KeyInput(keyCode, Released)) =>
          keysReleased := keysReleased + {keyCode};
          keysHeld := keysHeld - {keyCode};
        case _ =>
      }
    }

    /** Inserts the pressed keys into the held set one at a time, then empties the frame's sets. */
    method Clear()
      modifies this
      ensures Sets() == ClearKeys(old(Sets()))
    {
      var newKeysHeld := keysPressed;
      while newKeysHeld != {}
        invariant newKeysHeld <= keysPressed
        invariant keysPressed == old(keysPressed) && keysReleased == old(keysReleased)
        invariant keysHeld == old(keysHeld) + (keysPressed - newKeysHeld)
        decreases |newKeysHeld|
      {
        var key :| key in newKeysHeld;
        keysHeld := keysHeld + {key};
        newKeysHeld := newKeysHeld - {key};
      }
      keysPressed := {};
      keysReleased := {};
    }
  }
}
