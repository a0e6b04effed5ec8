/**
 * The InputComponent of engine/builtin/components/input_component.py: an
 * actor's own key and mouse-button bindings, each a list of records (the
 * action and whether it runs on press and on release), the sets of keys
 * and buttons it has seen held, and the enable and consume switches.
 *
 * Actions are Python callables; here they are ids. Whether a value is
 * callable, and which actions raise when called, are parameters. The
 * actions a handler calls are returned, in calling order.
 */
module InputComponents {
  import opened Wrappers
  import InputManagers

  type Action = nat

  datatype Binding = Binding(action: Action, onPress: bool, onRelease: bool)

  type Bindings = map<int, seq<Binding>>

  const NotCallable := ValueError("Action must be callable")

  /** pygame.K_w, K_s, K_a, K_d and K_SPACE. */
  const KeyW := 119
  const KeyS := 115
  const KeyA := 97
  const KeyD := 100
  const KeySpace := 32

  /** The binding list of a key or button, empty when there is none. */
  function Bound(m: Bindings, k: int): seq<Binding>
  {
    if k in m then m[k] else []
  }

  /** Whether a binding runs on a press (true) or on a release (false). */
  predicate RunsOn(b: Binding, press: bool)
  {
    if press then b.onPress else b.onRelease
  }

  /** The actions a press (or a release) calls, in binding order. */
  function Fired(bs: seq<Binding>, press: bool): (r: seq<Action>)
    ensures |r| <= |bs|
    ensures forall a :: a in r ==> exists b :: b in bs && b.action == a && RunsOn(b, press)
  {
    if |bs| == 0 then []
    else (if RunsOn(bs[0], press) then [bs[0].action] else []) + Fired(bs[1..], press)
  }

  /** A new binding at the end fires after the earlier ones, and only on what it was bound for. */
  lemma {:induction false} FiredAppend(bs: seq<Binding>, b: Binding, press: bool)
    ensures Fired(bs + [b], press) == Fired(bs, press) + (if RunsOn(b, press) then [b.action] else [])
    decreases |bs|
  {
    if |bs| > 0 {
      assert (bs + [b])[1..] == bs[1..] + [b];
      FiredAppend(bs[1..], b, press);
    } else {
      assert [b][1..] == [];
    }
  }

  /** Some called action returned instead of raising: the handler counts the event as handled. */
  predicate AnyRan(called: seq<Action>, raising: set<Action>)
  {
    exists a :: a in called && a !in raising
  }

  /** bind_key and bind_mouse on a callable action: the record goes to the end of the list. */
  function AddBinding(m: Bindings, k: int, b: Binding): (r: Bindings)
    ensures Bound(r, k) == Bound(m, k) + [b]
    ensures forall j :: j != k ==> Bound(r, j) == Bound(m, j)
    ensures r.Keys == m.Keys + {k}
  {
    m[k := Bound(m, k) + [b]]
  }

  /** Binding an action for presses makes the next press of that key call it last. */
  lemma BindThenPressCalls(m: Bindings, k: int, a: Action, onRelease: bool)
    ensures Fired(Bound(AddBinding(m, k, Binding(a, true, onRelease)), k), true) == Fired(Bound(m, k), true) + [a]
    ensures Fired(Bound(AddBinding(m, k, Binding(a, true, false)), k), false) == Fired(Bound(m, k), false)
  {
    FiredAppend(Bound(m, k), Binding(a, true, onRelease), true);
    FiredAppend(Bound(m, k), Binding(a, true, false), false);
  }

  /** The loop over one binding list: every binding for this kind of event is called, and the event is handled once one of them returns. */
  method RunBindings(bs: seq<Binding>, press: bool, raising: set<Action>) returns (called: seq<Action>, handled: bool)
    ensures called == Fired(bs, press)
    ensures handled == AnyRan(called, raising)
  {
    called := [];
    handled := false;
    var i := 0;
    while i < |bs|
      invariant 0 <= i <= |bs|
      invariant Fired(bs, press) == called + Fired(bs[i..], press)
      invariant handled == AnyRan(called, raising)
    {
      assert bs[i..][1..] == bs[i + 1..];
      if RunsOn(bs[i], press) {
        var a := bs[i].action;
        if a !in raising {
          assert a in called + [a];
          handled := true;
        }
        called := called + [a];
      }
      i := i + 1;
    }
    assert bs[|bs|..] == [];
  }

  /** The attributes Game.__init__ gives the game object (engine/__init__.py:83-114). */
  const GameAttributes: set<string> := {"width", "height", "title", "running", "screen", "clock", "input_manager",
    "asset_manager", "network_manager", "scenes", "current_scene", "scene_stack", "target_fps", "delta_time",
    "fixed_timestep", "accumulator", "last_time", "event_handlers"}

  /** The attribute _get_input_manager reads from the game object. */
  const ManagerAttribute := "inputManager"

  /**
   * update as written: the held sets are replaced only after
   * _get_input_manager has read the manager from the game object, and
   * that read raises when the game has no such attribute.
   */
  function UpdateAsWritten(keyFlags: seq<bool>, mouseFlags: seq<bool>): (r: Result<(set<int>, set<int>)>)
    ensures r.Ok? ==> ManagerAttribute in GameAttributes
    ensures r.Ok? ==> forall k :: k in r.value.0 <==> 0 <= k < |keyFlags| && keyFlags[k]
  {
    if ManagerAttribute !in GameAttributes then Err(AttributeError("'Game' object has no attribute 'inputManager'"))
    else Ok(((set k | 0 <= k < |keyFlags| && keyFlags[k]), (set i | 0 <= i < |mouseFlags| && mouseFlags[i] :: i + 1)))
  }

  /** As written, every update raises AttributeError, so the held sets are never synchronised. */
  lemma UpdateRaisesAsWritten(keyFlags: seq<bool>, mouseFlags: seq<bool>)
    ensures UpdateAsWritten(keyFlags, mouseFlags) == Err(AttributeError("'Game' object has no attribute 'inputManager'"))
  {
    // no attribute of the game object has the twelve characters of the name read
    assert forall a :: a in GameAttributes ==> |a| != |ManagerAttribute|;
  }

  class InputComponent {
    var keyBindings: Bindings
    var mouseBindings: Bindings
    var pressedKeys: set<int>
    var pressedMouse: set<int>
    var enabledKeys: bool
    var enabledMouse: bool
    var consumeEvents: bool
    var requireFocus: bool
    /** Component.enabled, from the base class. */
    var enabled: bool

    constructor ()
      ensures keyBindings == map[] && mouseBindings == map[] && pressedKeys == {} && pressedMouse == {}
      ensures enabledKeys && enabledMouse && !consumeEvents && !requireFocus && enabled
    {
      keyBindings := map[];
      mouseBindings := map[];
      pressedKeys := {};
      pressedMouse := {};
      enabledKeys := true;
      enabledMouse := true;
      consumeEvents := false;
      requireFocus := false;
      enabled := true;
    }

    /** bind_key: a non-callable action raises ValueError and changes nothing; otherwise its record is appended to the key's list. */
    method BindKey(k: int, a: Action, isCallable: bool, onPress: bool, onRelease: bool) returns (err: Option<Error>)
      modifies this
      ensures err.Some? <==> !isCallable
      ensures err.Some? ==> err.value == NotCallable && keyBindings == old(keyBindings)
      ensures err.None? ==> keyBindings == AddBinding(old(keyBindings), k, Binding(a, onPress, onRelease))
      ensures mouseBindings == old(mouseBindings) && pressedKeys == old(pressedKeys) && pressedMouse == old(pressedMouse)
      ensures enabled == old(enabled) && enabledKeys == old(enabledKeys) && enabledMouse == old(enabledMouse) && consumeEvents == old(consumeEvents)
      ensures requireFocus == old(requireFocus)
    {
      if !isCallable {
        return Some(NotCallable);
      }
      if k !in keyBindings {
        keyBindings := keyBindings[k := []];
      }
      keyBindings := keyBindings[k := keyBindings[k] + [Binding(a, onPress, onRelease)]];
      err := None;
    }

    /** bind_mouse: as bind_key, on the button's list. */
    method BindMouse(button: int, a: Action, isCallable: bool, onPress: bool, onRelease: bool) returns (err: Option<Error>)
      modifies this
      ensures err.Some? <==> !isCallable
      ensures err.Some? ==> err.value == NotCallable && mouseBindings == old(mouseBindings)
      ensures err.None? ==> mouseBindings == AddBinding(old(mouseBindings), button, Binding(a, onPress, onRelease))
      ensures keyBindings == old(keyBindings) && pressedKeys == old(pressedKeys) && pressedMouse == old(pressedMouse)
      ensures enabled == old(enabled) && enabledKeys == old(enabledKeys) && enabledMouse == old(enabledMouse) && consumeEvents == old(consumeEvents)
      ensures requireFocus == old(requireFocus)
    {
      if !isCallable {
        return Some(NotCallable);
      }
      if button !in mouseBindings {
        mouseBindings := mouseBindings[button := []];
      }
      mouseBindings := mouseBindings[button := mouseBindings[button] + [Binding(a, onPress, onRelease)]];
      err := None;
    }

    /** unbind_key: every binding of the key goes; an unbound key changes nothing. */
    method UnbindKey(k: int)
      modifies this
      ensures keyBindings == old(keyBindings) - {k} && Bound(keyBindings, k) == []
      ensures mouseBindings == old(mouseBindings) && pressedKeys == old(pressedKeys) && pressedMouse == old(pressedMouse)
    {
      if k in keyBindings {
        keyBindings := keyBindings - {k};
      }
    }

    /** unbind_mouse: every binding of the button goes. */
    method UnbindMouse(button: int)
      modifies this
      ensures mouseBindings == old(mouseBindings) - {button} && Bound(mouseBindings, button) == []
      ensures keyBindings == old(keyBindings) && pressedKeys == old(pressedKeys) && pressedMouse == old(pressedMouse)
    {
      if button in mouseBindings {
        mouseBindings := mouseBindings - {button};
      }
    }

    /** clear_bindings: both tables become empty; the held sets stay. */
    method ClearBindings()
      modifies this
      ensures keyBindings == map[] && mouseBindings == map[]
      ensures pressedKeys == old(pressedKeys) && pressedMouse == old(pressedMouse)
    {
      keyBindings := map[];
      mouseBindings := map[];
    }

    /** is_key_pressed and get_pressed_keys: the key set the component holds. */
    predicate IsKeyPressed(k: int)
      reads this
      ensures IsKeyPressed(k) <==> k in GetPressedKeys()
    {
      k in pressedKeys
    }

    function GetPressedKeys(): set<int>
      reads this
    {
      pressedKeys
    }

    /** is_mouse_pressed and get_pressed_mouse_buttons. */
    predicate IsMousePressed(button: int)
      reads this
      ensures IsMousePressed(button) <==> button in GetPressedMouseButtons()
    {
      button in pressedMouse
    }

    function GetPressedMouseButtons(): set<int>
      reads this
    {
      pressedMouse
    }

    /**
     * handle_key_event: nothing happens while keys or the component are
     * disabled. A key down adds the key to the held set and calls the
     * key's on_press actions; a key up discards it and calls the
     * on_release actions. The event is consumed when some action returned
     * and consume_events is set.
     */
    method HandleKeyEvent(e: InputManagers.Event, raising: set<Action>) returns (consumed: bool, called: seq<Action>)
      modifies this
      ensures !old(enabledKeys) || !old(enabled) ==> !consumed && called == [] && pressedKeys == old(pressedKeys)
      ensures old(enabledKeys) && old(enabled) && e.KeyDown? ==>
        pressedKeys == old(pressedKeys) + {e.key} && called == Fired(Bound(old(keyBindings), e.key), true)
      ensures old(enabledKeys) && old(enabled) && e.KeyUp? ==>
        pressedKeys == old(pressedKeys) - {e.key} && called == Fired(Bound(old(keyBindings), e.key), false)
      ensures !(e.KeyDown? || e.KeyUp?) ==> called == [] && pressedKeys == old(pressedKeys)
      ensures consumed <==> consumeEvents && AnyRan(called, raising)
      ensures keyBindings == old(keyBindings) && mouseBindings == old(mouseBindings) && pressedMouse == old(pressedMouse)
      ensures enabled == old(enabled) && enabledKeys == old(enabledKeys) && enabledMouse == old(enabledMouse) && consumeEvents == old(consumeEvents)
      ensures requireFocus == old(requireFocus)
    {
      called := [];
      if !enabledKeys || !enabled {
        return false, [];
      }
      var handled := false;
      match e {
      case KeyDown(k) =>
        pressedKeys := pressedKeys + {k};
        called, handled := RunBindings(Bound(keyBindings, k), true, raising);
      case KeyUp(k) =>
        pressedKeys := pressedKeys - {k};
        called, handled := RunBindings(Bound(keyBindings, k), false, raising);
      case _ =>
      }
      consumed := handled && consumeEvents;
    }

    /** handle_mouse_event: as handle_key_event, for mouse-button events and the button set. */
    method HandleMouseEvent(e: InputManagers.Event, raising: set<Action>) returns (consumed: bool, called: seq<Action>)
      modifies this
      ensures !old(enabledMouse) || !old(enabled) ==> !consumed && called == [] && pressedMouse == old(pressedMouse)
      ensures old(enabledMouse) && old(enabled) && e.MouseButtonDown? ==>
        pressedMouse == old(pressedMouse) + {e.button} && called == Fired(Bound(old(mouseBindings), e.button), true)
      ensures old(enabledMouse) && old(enabled) && e.MouseButtonUp? ==>
        pressedMouse == old(pressedMouse) - {e.button} && called == Fired(Bound(old(mouseBindings), e.button), false)
      ensures !(e.MouseButtonDown? || e.MouseButtonUp?) ==> called == [] && pressedMouse == old(pressedMouse)
      ensures consumed <==> consumeEvents && AnyRan(called, raising)
      ensures keyBindings == old(keyBindings) && mouseBindings == old(mouseBindings) && pressedKeys == old(pressedKeys)
      ensures enabled == old(enabled) && enabledKeys == old(enabledKeys) && enabledMouse == old(enabledMouse) && consumeEvents == old(consumeEvents)
      ensures requireFocus == old(requireFocus)
    {
      called := [];
      if !enabledMouse || !enabled {
        return false, [];
      }
      var handled := false;
      match e {
      case MouseButtonDown(b) =>
        pressedMouse := pressedMouse + {b};
        called, handled := RunBindings(Bound(mouseBindings, b), true, raising);
      case MouseButtonUp(b) =>
        pressedMouse := pressedMouse - {b};
        called, handled := RunBindings(Bound(mouseBindings, b), false, raising);
      case _ =>
      }
      consumed := handled && consumeEvents;
    }

    /** handle_event: key events go to the key handler, mouse-button events to the mouse handler, anything else is not consumed. */
    method HandleEvent(e: InputManagers.Event, raising: set<Action>) returns (consumed: bool, called: seq<Action>)
      modifies this
      ensures !old(enabled) || !(e.KeyDown? || e.KeyUp? || e.MouseButtonDown? || e.MouseButtonUp?) ==>
        !consumed && called == [] && pressedKeys == old(pressedKeys) && pressedMouse == old(pressedMouse)
      ensures old(enabled) && old(enabledKeys) && e.KeyDown? ==> pressedKeys == old(pressedKeys) + {e.key} && called == Fired(Bound(old(keyBindings), e.key), true)
      ensures old(enabled) && old(enabledKeys) && e.KeyUp? ==> pressedKeys == old(pressedKeys) - {e.key} && called == Fired(Bound(old(keyBindings), e.key), false)
      ensures old(enabled) && old(enabledMouse) && e.MouseButtonDown? ==> pressedMouse == old(pressedMouse) + {e.button} && called == Fired(Bound(old(mouseBindings), e.button), true)
      ensures old(enabled) && old(enabledMouse) && e.MouseButtonUp? ==> pressedMouse == old(pressedMouse) - {e.button} && called == Fired(Bound(old(mouseBindings), e.button), false)
      ensures !old(enabledKeys) && (e.KeyDown? || e.KeyUp?) ==> !consumed && called == [] && pressedKeys == old(pressedKeys)
      ensures !old(enabledMouse) && (e.MouseButtonDown? || e.MouseButtonUp?) ==> !consumed && called == [] && pressedMouse == old(pressedMouse)
      ensures (e.KeyDown? || e.KeyUp?) ==> pressedMouse == old(pressedMouse)
      ensures (e.MouseButtonDown? || e.MouseButtonUp?) ==> pressedKeys == old(pressedKeys)
      ensures consumed <==> old(enabled) && (e.KeyDown? || e.KeyUp? || e.MouseButtonDown? || e.MouseButtonUp?) && consumeEvents && AnyRan(called, raising)
      ensures keyBindings == old(keyBindings) && mouseBindings == old(mouseBindings)
      ensures enabled == old(enabled) && enabledKeys == old(enabledKeys) && enabledMouse == old(enabledMouse)
      ensures consumeEvents == old(consumeEvents) && requireFocus == old(requireFocus)
    {
      if !enabled {
        return false, [];
      }
      if e.KeyDown? || e.KeyUp? {
        consumed, called := HandleKeyEvent(e, raising);
      } else if e.MouseButtonDown? || e.MouseButtonUp? {
        consumed, called := HandleMouseEvent(e, raising);
      } else {
        return false, [];
      }
    }

    /**
     * update: the held sets are replaced by what pygame reports: the key
     * codes whose flag is set, and the mouse buttons numbered from 1.
     */
    method Update(keyFlags: seq<bool>, mouseFlags: seq<bool>)
      modifies this
      ensures forall k :: k in pressedKeys <==> 0 <= k < |keyFlags| && keyFlags[k]
      ensures forall b :: b in pressedMouse <==> 1 <= b <= |mouseFlags| && mouseFlags[b - 1]
      ensures keyBindings == old(keyBindings) && mouseBindings == old(mouseBindings)
    {
      var keys: set<int> := {};
      var i := 0;
      while i < |keyFlags|
        invariant 0 <= i <= |keyFlags|
        invariant forall k :: k in keys <==> 0 <= k < i && keyFlags[k]
      {
        if keyFlags[i] {
          keys := keys + {i};
        }
        i := i + 1;
      }
      pressedKeys := keys;
      var buttons: set<int> := {};
      var j := 0;
      while j < |mouseFlags|
        invariant 0 <= j <= |mouseFlags|
        invariant forall b :: b in buttons <==> 1 <= b <= j && mouseFlags[b - 1]
      {
        if mouseFlags[j] {
          buttons := buttons + {j + 1};
        }
        j := j + 1;
      }
      pressedMouse := buttons;
    }

    /**
     * bind_movement_keys: up, down, left and right are bound for presses,
     * to W, S, A and D unless keys are given. A non-callable action stops
     * the sequence with ValueError, keeping the bindings made before it.
     */
    method BindMovementKeys(up: Action, down: Action, left: Action, right: Action, callable: Action -> bool, keys: Option<(int, int, int, int)>)
      returns (err: Option<Error>)
      modifies this
      ensures err.None? <==> callable(up) && callable(down) && callable(left) && callable(right)
      ensures err.Some? ==> err.value == NotCallable
      ensures var (ku, kd, kl, kr) := keys.GetOr((KeyW, KeyS, KeyA, KeyD));
        err.None? ==> keyBindings == AddBinding(AddBinding(AddBinding(AddBinding(old(keyBindings),
          ku, Binding(up, true, false)), kd, Binding(down, true, false)), kl, Binding(left, true, false)), kr, Binding(right, true, false))
      ensures !callable(up) ==> keyBindings == old(keyBindings)
      ensures mouseBindings == old(mouseBindings)
    {
      var (ku, kd, kl, kr) := keys.GetOr((KeyW, KeyS, KeyA, KeyD));
      err := BindKey(ku, up, callable(up), true, false);
      if err.Some? {
        return;
      }
      err := BindKey(kd, down, callable(down), true, false);
      if err.Some? {
        return;
      }
      err := BindKey(kl, left, callable(left), true, false);
      if err.Some? {
        return;
      }
      err := BindKey(kr, right, callable(right), true, false);
    }

    /** bind_action_key: the action is bound for presses, to space unless a key is given. */
    method BindActionKey(a: Action, isCallable: bool, key: Option<int>) returns (err: Option<Error>)
      modifies this
      ensures err.Some? <==> !isCallable
      ensures err.None? ==> keyBindings == AddBinding(old(keyBindings), key.GetOr(KeySpace), Binding(a, true, false))
      ensures err.Some? ==> keyBindings == old(keyBindings)
      ensures mouseBindings == old(mouseBindings)
    {
      err := BindKey(key.GetOr(KeySpace), a, isCallable, true, false);
    }
  }

  /** A key press and its release call every action bound for both, once on each. */
  lemma PressAndReleaseBoth(bs: seq<Binding>, a: Action)
    requires Binding(a, true, true) in bs
    ensures a in Fired(bs, true) && a in Fired(bs, false)
  {
    FiredHas(bs, Binding(a, true, true), true);
    FiredHas(bs, Binding(a, true, true), false);
  }

  /** A binding for this kind of event has its action called. */
  lemma {:induction false} FiredHas(bs: seq<Binding>, b: Binding, press: bool)
    requires b in bs && RunsOn(b, press)
    ensures b.action in Fired(bs, press)
    decreases |bs|
  {
    if bs[0] != b {
      FiredHas(bs[1..], b, press);
    }
  }
}
