/** The keyboard and touch state machine of the `useKeyControls` hook: five
    held flags, updated by key and touch events, and the two edge-triggered
    callbacks (clone and pause) that a key press fires. */
module KeyControls {

  datatype KeyState = KeyState(left: bool, right: bool, jump: bool, clone: bool, pause: bool)

  /** The callbacks the hook's caller passes in. */
  datatype Callback = OnClone | OnPause

  /** The new flags after an event, and the callbacks it fired, in order. */
  datatype Reaction = Reaction(keys: KeyState, fired: seq<Callback>)

  const Released := KeyState(false, false, false, false, false)

  /** The keys whose browser default is suppressed. */
  const ControlKeys: set<string> := {"ArrowLeft", "ArrowRight", "ArrowUp", " ", "a", "d", "w", "c", "p", "Escape"}

  predicate IsLeftKey(key: string) { key == "ArrowLeft" || key == "a" }
  predicate IsRightKey(key: string) { key == "ArrowRight" || key == "d" }
  predicate IsJumpKey(key: string) { key == " " || key == "ArrowUp" || key == "w" }
  predicate IsCloneKey(key: string) { key == "c" }
  predicate IsPauseKey(key: string) { key == "p" || key == "Escape" }

  /** A key is one of the ten suppressed keys exactly when some flag is bound to it. */
  lemma ControlKeysAreTheBoundKeys(key: string)
    ensures key in ControlKeys <==>
      IsLeftKey(key) || IsRightKey(key) || IsJumpKey(key) || IsCloneKey(key) || IsPauseKey(key)
  {
  }

  /** `handleKeyDown`. The movement updates apply to the previous flags; the
      clone and pause guards read the flags the handler was created with,
      which are the flags before this event. */
  function KeyDown(k: KeyState, key: string): (r: Reaction)
    ensures r.keys.left == (k.left || IsLeftKey(key))
    ensures r.keys.right == (k.right || IsRightKey(key))
    ensures r.keys.jump == (k.jump || IsJumpKey(key))
    ensures r.keys.clone == (k.clone || IsCloneKey(key))
    ensures r.keys.pause == (k.pause || IsPauseKey(key))
    ensures (OnClone in r.fired) <==> IsCloneKey(key) && !k.clone
    ensures (OnPause in r.fired) <==> IsPauseKey(key) && !k.pause
    ensures |r.fired| <= 1
  {
    var k1 := if IsLeftKey(key) then k.(left := true) else k;
    var k2 := if IsRightKey(key) then k1.(right := true) else k1;
    var k3 := if IsJumpKey(key) then k2.(jump := true) else k2;
    var fireClone := IsCloneKey(key) && !k.clone;
    var k4 := if fireClone then k3.(clone := true) else k3;
    var firePause := IsPauseKey(key) && !k.pause;
    var k5 := if firePause then k4.(pause := true) else k4;
    Reaction(k5, (if fireClone then [OnClone] else []) + (if firePause then [OnPause] else []))
  }

  /** `handleKeyUp`: clears exactly the flag bound to the key. */
  function KeyUp(k: KeyState, key: string): (r: KeyState)
    ensures r.left == (k.left && !IsLeftKey(key))
    ensures r.right == (k.right && !IsRightKey(key))
    ensures r.jump == (k.jump && !IsJumpKey(key))
    ensures r.clone == (k.clone && !IsCloneKey(key))
    ensures r.pause == (k.pause && !IsPauseKey(key))
  {
    var k1 := if IsLeftKey(key) then k.(left := false) else k;
    var k2 := if IsRightKey(key) then k1.(right := false) else k1;
    var k3 := if IsJumpKey(key) then k2.(jump := false) else k2;
    var k4 := if IsCloneKey(key) then k3.(clone := false) else k3;
    if IsPauseKey(key) then k4.(pause := false) else k4
  }

  /** The bottom-middle third of the window, where a touch requests a clone. */
  predicate InCloneZone(x: real, y: real, w: real, h: real)
  {
    x > w / 3.0 && x < (w / 3.0) * 2.0 && y > h / 2.0
  }

  /** `handleTouchStart` for the first touch at (x, y) in a w by h window.
      The clone zone has no held-flag guard. */
  function TouchStart(k: KeyState, x: real, y: real, w: real, h: real): (r: Reaction)
    ensures r.keys.left == (k.left || x < w / 3.0)
    ensures r.keys.right == (k.right || x > (w / 3.0) * 2.0)
    ensures r.keys.jump == (k.jump || y < h / 2.0)
    ensures r.keys.clone == (k.clone || InCloneZone(x, y, w, h))
    ensures r.keys.pause == k.pause
    ensures r.fired == if InCloneZone(x, y, w, h) then [OnClone] else []
  {
    var k1 := if x < w / 3.0 then k.(left := true) else k;
    var k2 := if x > (w / 3.0) * 2.0 then k1.(right := true) else k1;
    var k3 := if y < h / 2.0 then k2.(jump := true) else k2;
    if InCloneZone(x, y, w, h) then Reaction(k3.(clone := true), [OnClone]) else Reaction(k3, [])
  }

  /** `handleTouchEnd`: releases everything but the pause flag. */
  function TouchEnd(k: KeyState): (r: KeyState)
    ensures !r.left && !r.right && !r.jump && !r.clone
    ensures r.pause == k.pause
  {
    k.(left := false, right := false, jump := false, clone := false)
  }

  /** One input event, as the listeners receive them. */
  datatype Event =
    | KeyDownEvent(key: string)
    | KeyUpEvent(key: string)
    | TouchStartEvent(x: real, y: real, w: real, h: real)
    | TouchEndEvent
    | ClearEvent

  function Handle(k: KeyState, e: Event): Reaction
  {
    match e
    case KeyDownEvent(key) => KeyDown(k, key)
    case KeyUpEvent(key) => Reaction(KeyUp(k, key), [])
    case TouchStartEvent(x, y, w, h) => TouchStart(k, x, y, w, h)
    case TouchEndEvent => Reaction(TouchEnd(k), [])
    case ClearEvent => Reaction(Released, [])
  }

  /** The flags after a run of events and every callback fired along the way. */
  function Feed(k: KeyState, events: seq<Event>): Reaction
    decreases |events|
  {
    if events == [] then Reaction(k, [])
    else
      var first := Handle(k, events[0]);
      var rest := Feed(first.keys, events[1..]);
      Reaction(rest.keys, first.fired + rest.fired)
  }

  /** A key outside the ten changes nothing and fires nothing. */
  lemma UnboundKeyIsIgnored(k: KeyState, key: string)
    requires key !in ControlKeys
    ensures KeyDown(k, key) == Reaction(k, [])
    ensures KeyUp(k, key) == k
  {
  }

  /** Pressing a key that is already held again (auto-repeat) fires nothing
      and leaves the flags as they are. */
  lemma RepeatedKeyDownFiresNothing(k: KeyState, key: string)
    ensures KeyDown(KeyDown(k, key).keys, key) == Reaction(KeyDown(k, key).keys, [])
  {
  }

  /** After the key is released, the next press fires again. */
  lemma ReleaseRearms(k: KeyState, key: string)
    requires IsCloneKey(key) || IsPauseKey(key)
    ensures KeyDown(KeyUp(KeyDown(k, key).keys, key), key).fired
            == if IsCloneKey(key) then [OnClone] else [OnPause]
  {
  }

  /** Any number of key-down events for a held-guarded key, with no
      release in between, fire its callback at most once in total. */
  lemma {:induction false} HoldingFiresAtMostOnce(k: KeyState, key: string, n: nat)
    requires IsCloneKey(key) || IsPauseKey(key)
    ensures |Feed(k, seq(n, i => KeyDownEvent(key))).fired| <= 1
    ensures n > 0 ==> Feed(k, seq(n, i => KeyDownEvent(key))).keys == KeyDown(k, key).keys
    decreases n
  {
    var events := seq(n, i => KeyDownEvent(key));
    if n > 0 {
      var first := KeyDown(k, key);
      var tail := seq(n - 1, i => KeyDownEvent(key));
      assert events[1..] == tail;
      HeldKeyFeed(first.keys, key, n - 1);
      assert Feed(k, events).fired == first.fired + Feed(first.keys, tail).fired;
    }
  }

  /** From a state where the key is already held, key-down events for it fire nothing. */
  lemma {:induction false} HeldKeyFeed(k: KeyState, key: string, n: nat)
    requires IsCloneKey(key) ==> k.clone
    requires IsPauseKey(key) ==> k.pause
    requires IsCloneKey(key) || IsPauseKey(key)
    ensures Feed(k, seq(n, i => KeyDownEvent(key))) == Reaction(k, [])
    decreases n
  {
    var events := seq(n, i => KeyDownEvent(key));
    if n > 0 {
      var tail := seq(n - 1, i => KeyDownEvent(key));
      assert events[1..] == tail;
      assert KeyDown(k, key) == Reaction(k, []);
      HeldKeyFeed(k, key, n - 1);
    }
  }

  /** One touch never sets both directions, and a clone touch sets neither. */
  lemma TouchZonesAreDisjoint(k: KeyState, x: real, y: real, w: real, h: real)
    requires w >= 0.0
    requires !k.left && !k.right
    ensures !(TouchStart(k, x, y, w, h).keys.left && TouchStart(k, x, y, w, h).keys.right)
    ensures InCloneZone(x, y, w, h) ==> !TouchStart(k, x, y, w, h).keys.left && !TouchStart(k, x, y, w, h).keys.right
  {
  }

  /** The flags held by the hook, and the log of callbacks it has fired. */
  class Controls {
    var keys: KeyState
    var fired: seq<Callback>

    constructor ()
      ensures keys == Released && fired == []
    {
      keys := Released;
      fired := [];
    }

    method HandleKeyDown(key: string) returns (preventDefault: bool)
      modifies this
      ensures preventDefault <==> key in ControlKeys
      ensures keys == KeyDown(old(keys), key).keys
      ensures fired == old(fired) + KeyDown(old(keys), key).fired
    {
      preventDefault := key in ControlKeys;
      var held := keys;
      if IsLeftKey(key) {
        keys := keys.(left := true);
      }
      if IsRightKey(key) {
        keys := keys.(right := true);
      }
      if IsJumpKey(key) {
        keys := keys.(jump := true);
      }
      if IsCloneKey(key) && !held.clone {
        keys := keys.(clone := true);
        fired := fired + [OnClone];
      }
      if IsPauseKey(key) && !held.pause {
        keys := keys.(pause := true);
        fired := fired + [OnPause];
      }
    }

    method HandleKeyUp(key: string)
      modifies this
      ensures keys == KeyUp(old(keys), key)
      ensures fired == old(fired)
    {
      if IsLeftKey(key) {
        keys := keys.(left := false);
      }
      if IsRightKey(key) {
        keys := keys.(right := false);
      }
      if IsJumpKey(key) {
        keys := keys.(jump := false);
      }
      if IsCloneKey(key) {
        keys := keys.(clone := false);
      }
      if IsPauseKey(key) {
        keys := keys.(pause := false);
      }
    }

    method HandleTouchStart(x: real, y: real, w: real, h: real)
      modifies this
      ensures keys == TouchStart(old(keys), x, y, w, h).keys
      ensures fired == old(fired) + TouchStart(old(keys), x, y, w, h).fired
    {
      if x < w / 3.0 {
        keys := keys.(left := true);
      }
      if x > (w / 3.0) * 2.0 {
        keys := keys.(right := true);
      }
      if y < h / 2.0 {
        keys := keys.(jump := true);
      }
      if x > w / 3.0 && x < (w / 3.0) * 2.0 && y > h / 2.0 {
        keys := keys.(clone := true);
        fired := fired + [OnClone];
      }
    }

    method HandleTouchEnd()
      modifies this
      ensures keys == TouchEnd(old(keys))
      ensures fired == old(fired)
    {
      keys := keys.(left := false, right := false, jump := false, clone := false);
    }

    method ClearKeys()
      modifies this
      ensures keys == Released
      ensures fired == old(fired)
    {
      keys := KeyState(false, false, false, false, false);
    }
  }
}
