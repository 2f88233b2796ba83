/**
 * The graphical client's keyboard and mouse tracker: every key it has seen
 * goes through NONE, PRESSED, HELD and RELEASED, one step per frame.
 * The frame's "is this key down" query and the queue of keys pressed this
 * frame come from the windowing library and are parameters here.
 */
module InputManager {
  /** The key codes of the windowing library that the menus listen to. */
  const KeyNull: int := 0
  const KeySpace: int := 32
  const KeyB: int := 66
  const KeyF: int := 70
  const KeyH: int := 72
  const KeyP: int := 80
  const KeyEscape: int := 256
  const KeyEnter: int := 257
  const KeyRight: int := 262
  const KeyLeft: int := 263
  const KeyDown: int := 264
  const KeyUp: int := 265
  const KeyF1: int := 290
  const KeyF11: int := 300

  /** NONE is Idle here. */
  datatype KeyState = Idle | Pressed | Held | Released

  /** One frame of one key: down after being down is HELD, up after being down is RELEASED. */
  function Transition(s: KeyState, down: bool): (r: KeyState)
    ensures down ==> r in {Pressed, Held}
    ensures !down ==> r in {Released, Idle}
    ensures r in {Held, Released} <==> s in {Pressed, Held}
  {
    if down then
      (if s == Pressed || s == Held then Held else Pressed)
    else
      (if s == Pressed || s == Held then Released else Idle)
  }

  /** A key kept down reads PRESSED on its first frame only. */
  lemma PressedForOneFrame(s: KeyState)
    ensures Transition(Transition(s, true), true) == Held
  {
  }

  /** A key let go reads RELEASED on its first frame only. */
  lemma ReleasedForOneFrame(s: KeyState)
    ensures Transition(Transition(s, false), false) == Idle
  {
  }

  /** Every tracked key, stepped once; no key is added or dropped. */
  function Stepped(states: map<int, KeyState>, isDown: int -> bool): (r: map<int, KeyState>)
    ensures r.Keys == states.Keys
  {
    map k | k in states :: Transition(states[k], isDown(k))
  }

  /** The keys reported pressed this frame that were not tracked yet, added as PRESSED. */
  function Registered(states: map<int, KeyState>, pressed: seq<int>): (r: map<int, KeyState>)
    ensures r.Keys == states.Keys + set k | k in pressed
    ensures forall k :: k in states ==> r[k] == states[k]
    ensures forall k :: k in pressed && k !in states ==> r[k] == Pressed
  {
    states + map k | k in pressed && k !in states :: Pressed
  }

  lemma NoneMeansEmpty(s: set<int>)
    ensures (forall k :: k !in s) ==> s == {}
  {
    if forall k :: k !in s {
      assert s == {};
    }
  }

  /** A non-empty set has a member to pick. */
  lemma Inhabited(s: set<int>)
    requires s != {}
    ensures exists k :: k in s
  {
    NoneMeansEmpty(s);
  }

  /** _updateState: the transition applied to every entry of a state map. */
  method StepAll(states: map<int, KeyState>, isDown: int -> bool) returns (r: map<int, KeyState>)
    ensures r == Stepped(states, isDown)
  {
    r := states;
    var remaining := states.Keys;
    while remaining != {}
      invariant remaining <= states.Keys && r.Keys == states.Keys
      invariant forall k :: k in r ==> r[k] == if k in remaining then states[k] else Transition(states[k], isDown(k))
      decreases remaining
    {
      Inhabited(remaining);
      var key :| key in remaining;
      r := r[key := Transition(r[key], isDown(key))];
      remaining := remaining - {key};
    }
    assert forall k :: k in r ==> r[k] == Stepped(states, isDown)[k];
  }

  lemma RegisteredSnoc(states: map<int, KeyState>, pressed: seq<int>, key: int)
    ensures Registered(states, pressed + [key]) == var r := Registered(states, pressed); if key in r then r else r[key := Pressed]
  {
    var r := Registered(states, pressed);
    var l := Registered(states, pressed + [key]);
    var q := if key in r then r else r[key := Pressed];
    assert l.Keys == q.Keys;
    forall k | k in l ensures l[k] == q[k] {
      if k in states {
      } else {
        assert k in pressed + [key];
      }
    }
  }

  class InputManager {
    var keyStates: map<int, KeyState>
    var mouseButtonStates: map<int, KeyState>

    constructor ()
      ensures keyStates == map[] && mouseButtonStates == map[]
    {
      keyStates, mouseButtonStates := map[], map[];
    }

    /**
     * update: step every tracked key and button, then track the keys
     * reported pressed this frame (the queue ends before KEY_NULL). A key
     * already tracked keeps the state it was stepped to.
     */
    method Update(keyDown: int -> bool, buttonDown: int -> bool, pressed: seq<int>)
      requires KeyNull !in pressed
      modifies this
      ensures keyStates == Registered(Stepped(old(keyStates), keyDown), pressed)
      ensures mouseButtonStates == Stepped(old(mouseButtonStates), buttonDown)
    {
      var keys := StepAll(keyStates, keyDown);
      var buttons := StepAll(mouseButtonStates, buttonDown);
      ghost var stepped := keys;
      var i := 0;
      while i < |pressed|
        invariant 0 <= i <= |pressed|
        invariant keys == Registered(stepped, pressed[..i])
      {
        var key := pressed[i];
        RegisteredSnoc(stepped, pressed[..i], key);
        if key !in keys {
          keys := keys[key := Pressed];
        }
        assert pressed[..i + 1] == pressed[..i] + [key];
        i := i + 1;
      }
      assert pressed[..i] == pressed;
      keyStates, mouseButtonStates := keys, buttons;
    }

    /** getKeyState: the tracked state, NONE (Idle) for a key never seen. */
    function GetKeyState(key: int): (s: KeyState)
      reads this
      ensures key !in keyStates ==> s == Idle
      ensures key in keyStates ==> s == keyStates[key]
    {
      if key in keyStates then keyStates[key] else Idle
    }

    /** isKeyPressed: the key went down this frame. */
    function IsKeyPressed(key: int): (b: bool)
      reads this
      ensures b <==> key in keyStates && keyStates[key] == Pressed
    {
      GetKeyState(key) == Pressed
    }

    /** isKeyReleased: the key came up this frame. */
    function IsKeyReleased(key: int): (b: bool)
      reads this
      ensures b <==> key in keyStates && keyStates[key] == Released
    {
      GetKeyState(key) == Released
    }

    /** The keys that went down this frame. */
    function PressedKeys(): (ks: set<int>)
      reads this
      ensures forall k :: k in ks <==> IsKeyPressed(k)
    {
      set k | k in keyStates && keyStates[k] == Pressed
    }

    /** The keys that came up this frame. */
    function ReleasedKeys(): (ks: set<int>)
      reads this
      ensures forall k :: k in ks <==> IsKeyReleased(k)
    {
      set k | k in keyStates && keyStates[k] == Released
    }

    /** getMouseButtonState: the tracked state, NONE for a button never seen. */
    function GetMouseButtonState(button: int): (s: KeyState)
      reads this
      ensures button !in mouseButtonStates ==> s == Idle
      ensures button in mouseButtonStates ==> s == mouseButtonStates[button]
    {
      if button in mouseButtonStates then mouseButtonStates[button] else Idle
    }

    /** isMouseButtonPressed: the button went down this frame. */
    function IsMouseButtonPressed(button: int): (b: bool)
      reads this
      ensures b <==> button in mouseButtonStates && mouseButtonStates[button] == Pressed
    {
      GetMouseButtonState(button) == Pressed
    }
  }

  /** A key reported this frame reads PRESSED unless it was already tracked. */
  lemma NewKeyReadsPressed(states: map<int, KeyState>, keyDown: int -> bool, pressed: seq<int>, key: int)
    requires key in pressed && key !in states
    ensures var r := Registered(Stepped(states, keyDown), pressed); key in r && r[key] == Pressed
  {
  }

  /**
   * Nothing ever adds an entry to the button map, so a button map that
   * starts empty (as the constructor leaves it) stays empty.
   */
  lemma ButtonsNeverTracked(buttons: map<int, KeyState>, buttonDown: int -> bool)
    requires buttons == map[]
    ensures Stepped(buttons, buttonDown) == map[]
  {
  }
}
