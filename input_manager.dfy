/**
 * The InputManager of engine/input/input_manager.py; engine/input_manager.py
 * is the same code. It keeps the keys and mouse buttons held this frame
 * and last frame, the bindings of named actions to keys and buttons, the
 * per-action state machine (UP, PRESSED, DOWN, RELEASED), the mouse, and
 * the controllers' buttons and axes.
 *
 * pygame events are the Event datatype; joysticks are given by their
 * number of axes.
 */
module InputManagers {
  import opened Wrappers
  import opened Hierarchy

  datatype InputState = Up | Down | Pressed | Released

  datatype Vec2 = Vec2(x: real, y: real)

  datatype Event =
    | KeyDown(key: int)
    | KeyUp(key: int)
    | MouseButtonDown(button: int)
    | MouseButtonUp(button: int)
    | MouseMotion(pos: Vec2)
    | MouseWheel(wx: real, wy: real)
    | JoyButtonDown(instance: int, jbutton: int)
    | JoyButtonUp(instance: int, jbutton: int)
    | JoyAxisMotion(instance: int, axis: nat, value: real)
    | OtherEvent(code: int)

  /** pygame's event types, as far as the manager tells them apart. */
  datatype EventType =
    | KEYDOWN | KEYUP | MOUSEBUTTONDOWN | MOUSEBUTTONUP | MOUSEMOTION | MOUSEWHEEL
    | JOYBUTTONDOWN | JOYBUTTONUP | JOYAXISMOTION | Other(code: int)

  function TypeOf(e: Event): EventType
  {
    match e
    case KeyDown(_) => KEYDOWN
    case KeyUp(_) => KEYUP
    case MouseButtonDown(_) => MOUSEBUTTONDOWN
    case MouseButtonUp(_) => MOUSEBUTTONUP
    case MouseMotion(_) => MOUSEMOTION
    case MouseWheel(_, _) => MOUSEWHEEL
    case JoyButtonDown(_, _) => JOYBUTTONDOWN
    case JoyButtonUp(_, _) => JOYBUTTONUP
    case JoyAxisMotion(_, _, _) => JOYAXISMOTION
    case OtherEvent(c) => Other(c)
  }

  /** "Previously down": the action was DOWN or PRESSED. */
  predicate WasDown(s: InputState)
  {
    s == Down || s == Pressed
  }

  /** The state an action moves to, from its previous state and whether a bound input is held now. */
  function Next(prev: InputState, down: bool): InputState
  {
    if down && !WasDown(prev) then Pressed
    else if down && WasDown(prev) then Down
    else if !down && WasDown(prev) then Released
    else Up
  }

  /** Each of the four states is reached in exactly one of the four cases. */
  lemma NextCases(prev: InputState, down: bool)
    ensures Next(prev, down) == Pressed <==> down && !WasDown(prev)
    ensures Next(prev, down) == Down <==> down && WasDown(prev)
    ensures Next(prev, down) == Released <==> !down && WasDown(prev)
    ensures Next(prev, down) == Up <==> !down && !WasDown(prev)
  {
  }

  /**
   * A press held over frames reads PRESSED, then DOWN for as long as it is
   * held; letting go reads RELEASED, then UP.
   */
  lemma PressHoldRelease(s: InputState)
    ensures Next(Next(s, true), true) == Down && Next(Next(Next(s, true), true), true) == Down
    ensures Next(Next(s, true), false) == Released && Next(Next(Next(s, true), false), false) == Up
    ensures !WasDown(s) ==> Next(s, true) == Pressed
  {
  }

  function StateOf(actions: map<string, InputState>, a: string): InputState
  {
    if a in actions then actions[a] else Up
  }

  /** Some input of the list is held. */
  predicate Held(inputs: seq<int>, held: set<int>)
  {
    exists k :: k in inputs && k in held
  }

  /** Some key bound to the action is held, or some button bound to it is. */
  predicate ActionDown(kb: map<string, seq<int>>, mb: map<string, seq<int>>, keys: set<int>, buttons: set<int>, a: string)
  {
    (a in kb && Held(kb[a], keys)) || (a in mb && Held(mb[a], buttons))
  }

  /** How one bound action moves on. */
  function Moved(actions: map<string, InputState>, kb: map<string, seq<int>>, mb: map<string, seq<int>>, keys: set<int>, buttons: set<int>, a: string): InputState
  {
    Next(StateOf(actions, a), ActionDown(kb, mb, keys, buttons, a))
  }

  /** The action table after the actions in `done` have been moved on. */
  function Stepped(actions: map<string, InputState>, done: set<string>, kb: map<string, seq<int>>, mb: map<string, seq<int>>, keys: set<int>, buttons: set<int>): map<string, InputState>
  {
    map a | a in actions.Keys + done :: if a in done then Moved(actions, kb, mb, keys, buttons, a) else actions[a]
  }

  /** Every action with a binding list of its own has no repeated entry. */
  ghost predicate NoRepeats(bindings: map<string, seq<int>>)
  {
    forall a :: a in bindings ==> NoDup(bindings[a])
  }

  /** bind_key and bind_mouse: the input is appended to the action's list unless it is already there. */
  function Bind(bindings: map<string, seq<int>>, a: string, k: int): (r: map<string, seq<int>>)
    ensures a in r && k in r[a] && r.Keys == bindings.Keys + {a}
    ensures a in bindings && k in bindings[a] ==> r == bindings
    ensures !(a in bindings && k in bindings[a]) ==> r[a] == (if a in bindings then bindings[a] else []) + [k]
    ensures forall b :: b in bindings && b != a ==> r[b] == bindings[b]
    ensures NoRepeats(bindings) ==> NoRepeats(r)
  {
    var list := if a in bindings then bindings[a] else [];
    if k in list then bindings[a := list] else bindings[a := list + [k]]
  }

  /** unbind_key and unbind_mouse: only a bound input is removed. */
  function Unbind(bindings: map<string, seq<int>>, a: string, k: int): (r: map<string, seq<int>>)
    ensures r.Keys == bindings.Keys
    ensures NoRepeats(bindings) && a in r ==> k !in r[a]
    ensures !(a in bindings && k in bindings[a]) ==> r == bindings
    ensures forall b :: b in bindings && b != a ==> r[b] == bindings[b]
    ensures NoRepeats(bindings) ==> NoRepeats(r)
  {
    if a in bindings && k in bindings[a] then bindings[a := RemoveFirst(bindings[a], k)] else bindings
  }

  /** Binding an input that was not bound and unbinding it again gives the action the list it had. */
  lemma UnbindUndoesBind(bindings: map<string, seq<int>>, a: string, k: int)
    requires a in bindings && k !in bindings[a]
    ensures Unbind(Bind(bindings, a, k), a, k) == bindings
  {
    RemoveAppended(bindings[a], k);
    assert Unbind(Bind(bindings, a, k), a, k)[a] == bindings[a];
  }

  /** The controller numbers 0 .. n-1. */
  function Range(n: nat): (r: set<int>)
    ensures forall i :: i in r <==> 0 <= i < n
  {
    if n == 0 then {} else Range(n - 1) + {n - 1}
  }

  /** The scan over one binding list: stops at the first input held. */
  method AnyHeld(inputs: seq<int>, held: set<int>) returns (r: bool)
    ensures r == Held(inputs, held)
  {
    var i := 0;
    while i < |inputs|
      invariant 0 <= i <= |inputs|
      invariant forall j :: 0 <= j < i ==> inputs[j] !in held
    {
      if inputs[i] in held {
        var w := inputs[i];
        assert w in inputs && w in held;
        assert Held(inputs, held);
        return true;
      }
      i := i + 1;
    }
    forall k | k in inputs ensures k !in held {
      var j :| 0 <= j < |inputs| && inputs[j] == k;
    }
    return false;
  }

  /** _is_action_down: scans the action's keys, then its buttons, and stops at the first one held. */
  method ActionIsDown(kb: map<string, seq<int>>, mb: map<string, seq<int>>, keys: set<int>, buttons: set<int>, a: string) returns (down: bool)
    ensures down == ActionDown(kb, mb, keys, buttons, a)
  {
    if a in kb {
      down := AnyHeld(kb[a], keys);
      if down {
        return;
      }
    }
    if a in mb {
      down := AnyHeld(mb[a], buttons);
      if down {
        return;
      }
    }
    return false;
  }

  /**
   * What the loop of _update_action_states keeps: the actions in `done`
   * have moved on, the others in the bound set are still to do, and the
   * rest of the table is as it was.
   */
  ghost predicate StepsDone(actions: map<string, InputState>, kb: map<string, seq<int>>, mb: map<string, seq<int>>, keys: set<int>, buttons: set<int>,
                            acts: map<string, InputState>, done: set<string>, todo: set<string>)
  {
    && done + todo == kb.Keys + mb.Keys && done !! todo
    && acts.Keys == actions.Keys + done
    && forall x :: x in acts ==> acts[x] == if x in done then Moved(actions, kb, mb, keys, buttons, x) else actions[x]
  }

  lemma StepsDoneStep(actions: map<string, InputState>, kb: map<string, seq<int>>, mb: map<string, seq<int>>, keys: set<int>, buttons: set<int>,
                      acts: map<string, InputState>, done: set<string>, todo: set<string>, a: string)
    requires StepsDone(actions, kb, mb, keys, buttons, acts, done, todo) && a in todo
    ensures StateOf(acts, a) == StateOf(actions, a)
    ensures StepsDone(actions, kb, mb, keys, buttons, acts[a := Moved(actions, kb, mb, keys, buttons, a)], done + {a}, todo - {a})
  {
  }

  lemma StepsDoneAll(actions: map<string, InputState>, kb: map<string, seq<int>>, mb: map<string, seq<int>>, keys: set<int>, buttons: set<int>,
                     acts: map<string, InputState>, done: set<string>)
    requires StepsDone(actions, kb, mb, keys, buttons, acts, done, {})
    ensures acts == Stepped(actions, kb.Keys + mb.Keys, kb, mb, keys, buttons)
  {
    assert done == kb.Keys + mb.Keys;
    var r := Stepped(actions, kb.Keys + mb.Keys, kb, mb, keys, buttons);
    assert acts.Keys == r.Keys;
    forall x | x in acts ensures acts[x] == r[x] {
    }
  }

  /** The loop of _update_action_states over the bound actions, in any order. */
  method StepActions(actions: map<string, InputState>, kb: map<string, seq<int>>, mb: map<string, seq<int>>, keys: set<int>, buttons: set<int>)
    returns (acts: map<string, InputState>)
    ensures acts == Stepped(actions, kb.Keys + mb.Keys, kb, mb, keys, buttons)
  {
    var todo := kb.Keys + mb.Keys;
    ghost var done: set<string> := {};
    acts := actions;
    while todo != {}
      invariant StepsDone(actions, kb, mb, keys, buttons, acts, done, todo)
      decreases |todo|
    {
      var a :| a in todo;
      var down := ActionIsDown(kb, mb, keys, buttons, a);
      var prev := if a in acts then acts[a] else Up;
      StepsDoneStep(actions, kb, mb, keys, buttons, acts, done, todo, a);
      acts := acts[a := Next(prev, down)];
      done := done + {a};
      todo := todo - {a};
    }
    StepsDoneAll(actions, kb, mb, keys, buttons, acts, done);
  }

  class InputManager {
    var keysCurrent: set<int>
    var keysPrevious: set<int>
    var buttonsCurrent: set<int>
    var buttonsPrevious: set<int>
    var mousePosition: Vec2
    var mouseDelta: Vec2
    var mouseWheel: Vec2
    var keyBindings: map<string, seq<int>>
    var mouseBindings: map<string, seq<int>>
    var actions: map<string, InputState>
    var actionHandlers: map<string, seq<nat>>
    var events: seq<Event>
    var controllerCurrent: map<int, set<int>>
    var controllerPrevious: map<int, set<int>>
    var controllerAxes: map<int, seq<real>>

    /** bind_* keeps every binding list free of repeats. */
    ghost predicate Valid()
      reads this
    {
      NoRepeats(keyBindings) && NoRepeats(mouseBindings)
    }

    /** __init__ with _init_controllers: controller i has no buttons held and all of its axes at 0.0. */
    constructor (axisCounts: seq<nat>)
      ensures Valid() && keysCurrent == {} && keysPrevious == {} && buttonsCurrent == {} && buttonsPrevious == {}
      ensures keyBindings == map[] && mouseBindings == map[] && actions == map[] && events == []
      ensures mousePosition == Vec2(0.0, 0.0) && mouseDelta == Vec2(0.0, 0.0) && mouseWheel == Vec2(0.0, 0.0)
      ensures controllerCurrent.Keys == controllerPrevious.Keys == controllerAxes.Keys == Range(|axisCounts|)
      ensures forall i :: 0 <= i < |axisCounts| ==> controllerCurrent[i] == {} && controllerPrevious[i] == {}
      ensures forall i :: 0 <= i < |axisCounts| ==> |controllerAxes[i]| == axisCounts[i] && forall j :: 0 <= j < axisCounts[i] ==> controllerAxes[i][j] == 0.0
    {
      keysCurrent := {};
      keysPrevious := {};
      buttonsCurrent := {};
      buttonsPrevious := {};
      mousePosition := Vec2(0.0, 0.0);
      mouseDelta := Vec2(0.0, 0.0);
      mouseWheel := Vec2(0.0, 0.0);
      keyBindings := map[];
      mouseBindings := map[];
      actions := map[];
      actionHandlers := map[];
      events := [];
      controllerCurrent := map i | i in Range(|axisCounts|) :: {};
      controllerPrevious := map i | i in Range(|axisCounts|) :: {};
      controllerAxes := map i | i in Range(|axisCounts|) :: seq(axisCounts[i], _ => 0.0);
    }

    method BindKey(a: string, k: int)
      requires Valid()
      modifies this
      ensures Valid() && keyBindings == Bind(old(keyBindings), a, k) && mouseBindings == old(mouseBindings)
    {
      if a !in keyBindings {
        keyBindings := keyBindings[a := []];
      }
      if k !in keyBindings[a] {
        keyBindings := keyBindings[a := keyBindings[a] + [k]];
      }
    }

    method BindMouse(a: string, b: int)
      requires Valid()
      modifies this
      ensures Valid() && mouseBindings == Bind(old(mouseBindings), a, b) && keyBindings == old(keyBindings)
    {
      if a !in mouseBindings {
        mouseBindings := mouseBindings[a := []];
      }
      if b !in mouseBindings[a] {
        mouseBindings := mouseBindings[a := mouseBindings[a] + [b]];
      }
    }

    method UnbindKey(a: string, k: int)
      requires Valid()
      modifies this
      ensures Valid() && keyBindings == Unbind(old(keyBindings), a, k) && mouseBindings == old(mouseBindings)
    {
      if a in keyBindings && k in keyBindings[a] {
        keyBindings := keyBindings[a := RemoveFirst(keyBindings[a], k)];
      }
    }

    method UnbindMouse(a: string, b: int)
      requires Valid()
      modifies this
      ensures Valid() && mouseBindings == Unbind(old(mouseBindings), a, b) && keyBindings == old(keyBindings)
    {
      if a in mouseBindings && b in mouseBindings[a] {
        mouseBindings := mouseBindings[a := RemoveFirst(mouseBindings[a], b)];
      }
    }

    /** add_action_handler appends; remove_action_handler removes only a registered handler. */
    method AddActionHandler(a: string, h: nat)
      modifies this
      ensures actionHandlers == old(actionHandlers)[a := (if a in old(actionHandlers) then old(actionHandlers)[a] else []) + [h]]
      ensures keyBindings == old(keyBindings) && mouseBindings == old(mouseBindings) && actions == old(actions)
    {
      if a !in actionHandlers {
        actionHandlers := actionHandlers[a := []];
      }
      actionHandlers := actionHandlers[a := actionHandlers[a] + [h]];
    }

    method RemoveActionHandler(a: string, h: nat)
      modifies this
      ensures a in old(actionHandlers) && h in old(actionHandlers)[a] ==> actionHandlers == old(actionHandlers)[a := RemoveFirst(old(actionHandlers)[a], h)]
      ensures !(a in old(actionHandlers) && h in old(actionHandlers)[a]) ==> actionHandlers == old(actionHandlers)
      ensures keyBindings == old(keyBindings) && mouseBindings == old(mouseBindings) && actions == old(actions)
    {
      if a in actionHandlers && h in actionHandlers[a] {
        actionHandlers := actionHandlers[a := RemoveFirst(actionHandlers[a], h)];
      }
    }

    /**
     * handle_event: the event is recorded; key and button events add to or
     * discard from the held sets; motion updates position and delta; the
     * wheel is stored; controller events touch only a known controller,
     * and an axis only within its range.
     */
    method HandleEvent(e: Event)
      requires Valid()
      modifies this
      ensures Valid() && events == old(events) + [e]
      ensures keysCurrent == (match e case KeyDown(k) => old(keysCurrent) + {k} case KeyUp(k) => old(keysCurrent) - {k} case _ => old(keysCurrent))
      ensures buttonsCurrent == (match e case MouseButtonDown(b) => old(buttonsCurrent) + {b} case MouseButtonUp(b) => old(buttonsCurrent) - {b} case _ => old(buttonsCurrent))
      ensures e.MouseMotion? ==> mousePosition == e.pos && mouseDelta == Vec2(e.pos.x - old(mousePosition).x, e.pos.y - old(mousePosition).y)
      ensures !e.MouseMotion? ==> mousePosition == old(mousePosition) && mouseDelta == old(mouseDelta)
      ensures mouseWheel == (if e.MouseWheel? then Vec2(e.wx, e.wy) else old(mouseWheel))
      ensures e.JoyButtonDown? && e.instance in old(controllerCurrent) ==> controllerCurrent == old(controllerCurrent)[e.instance := old(controllerCurrent)[e.instance] + {e.jbutton}]
      ensures e.JoyButtonUp? && e.instance in old(controllerCurrent) ==> controllerCurrent == old(controllerCurrent)[e.instance := old(controllerCurrent)[e.instance] - {e.jbutton}]
      ensures !((e.JoyButtonDown? || e.JoyButtonUp?) && e.instance in old(controllerCurrent)) ==> controllerCurrent == old(controllerCurrent)
      ensures e.JoyAxisMotion? && e.instance in old(controllerAxes) && e.axis < |old(controllerAxes)[e.instance]| ==>
        controllerAxes == old(controllerAxes)[e.instance := old(controllerAxes)[e.instance][e.axis := e.value]]
      ensures !(e.JoyAxisMotion? && e.instance in old(controllerAxes) && e.axis < |old(controllerAxes)[e.instance]|) ==> controllerAxes == old(controllerAxes)
      ensures e.JoyAxisMotion? && e.instance in old(controllerAxes) && e.axis < |old(controllerAxes)[e.instance]| ==> GetControllerAxis(e.instance, e.axis) == e.value
      ensures keysPrevious == old(keysPrevious) && buttonsPrevious == old(buttonsPrevious) && controllerPrevious == old(controllerPrevious)
      ensures keyBindings == old(keyBindings) && mouseBindings == old(mouseBindings) && actions == old(actions)
    {
      events := events + [e];
      match e
      case KeyDown(k) => keysCurrent := keysCurrent + {k};
      case KeyUp(k) => keysCurrent := keysCurrent - {k};
      case MouseButtonDown(b) => buttonsCurrent := buttonsCurrent + {b};
      case MouseButtonUp(b) => buttonsCurrent := buttonsCurrent - {b};
      case MouseMotion(p) =>
        mouseDelta := Vec2(p.x - mousePosition.x, p.y - mousePosition.y);
        mousePosition := p;
      case MouseWheel(x, y) => mouseWheel := Vec2(x, y);
      case JoyButtonDown(c, b) =>
        if c in controllerCurrent {
          controllerCurrent := controllerCurrent[c := controllerCurrent[c] + {b}];
        }
      case JoyButtonUp(c, b) =>
        if c in controllerCurrent {
          controllerCurrent := controllerCurrent[c := controllerCurrent[c] - {b}];
        }
      case JoyAxisMotion(c, axis, v) =>
        if c in controllerAxes && axis < |controllerAxes[c]| {
          controllerAxes := controllerAxes[c := controllerAxes[c][axis := v]];
        }
      case OtherEvent(_) =>
    }

    /** _is_action_down, on this manager's bindings and held sets. */
    method IsActionDown(a: string) returns (down: bool)
      ensures down == ActionDown(keyBindings, mouseBindings, keysCurrent, buttonsCurrent, a)
    {
      down := ActionIsDown(keyBindings, mouseBindings, keysCurrent, buttonsCurrent, a);
    }

    /** _update_action_states: every bound action moves on by Next; unbound ones keep their state. */
    method UpdateActionStates()
      modifies this
      ensures actions == Stepped(old(actions), old(keyBindings).Keys + old(mouseBindings).Keys, keyBindings, mouseBindings, keysCurrent, buttonsCurrent)
      ensures keyBindings == old(keyBindings) && mouseBindings == old(mouseBindings)
      ensures keysCurrent == old(keysCurrent) && buttonsCurrent == old(buttonsCurrent)
      ensures keysPrevious == old(keysPrevious) && buttonsPrevious == old(buttonsPrevious)
      ensures events == old(events) && mouseDelta == old(mouseDelta) && mouseWheel == old(mouseWheel) && mousePosition == old(mousePosition)
      ensures controllerCurrent == old(controllerCurrent) && controllerPrevious == old(controllerPrevious) && controllerAxes == old(controllerAxes)
      ensures actionHandlers == old(actionHandlers)
    {
      actions := StepActions(actions, keyBindings, mouseBindings, keysCurrent, buttonsCurrent);
    }

    /**
     * update: the action states move on (the action handlers are then
     * called), last frame's held sets become this frame's, and the mouse
     * delta, the wheel and the event list are reset.
     */
    method Update()
      requires Valid()
      modifies this
      ensures Valid()
      ensures actions == Stepped(old(actions), old(keyBindings).Keys + old(mouseBindings).Keys, old(keyBindings), old(mouseBindings), old(keysCurrent), old(buttonsCurrent))
      ensures keysPrevious == keysCurrent == old(keysCurrent) && buttonsPrevious == buttonsCurrent == old(buttonsCurrent)
      ensures controllerCurrent == old(controllerCurrent) && controllerPrevious == old(controllerPrevious) + old(controllerCurrent)
      ensures mouseDelta == Vec2(0.0, 0.0) && mouseWheel == Vec2(0.0, 0.0) && events == []
      ensures mousePosition == old(mousePosition) && keyBindings == old(keyBindings) && mouseBindings == old(mouseBindings)
      ensures forall k :: !IsKeyPressed(k) && !IsKeyReleased(k)
      ensures forall b :: !IsMouseButtonPressed(b) && !IsMouseButtonReleased(b)
    {
      UpdateActionStates();
      keysPrevious := keysCurrent;
      buttonsPrevious := buttonsCurrent;
      controllerPrevious := controllerPrevious + controllerCurrent;
      mouseDelta := Vec2(0.0, 0.0);
      mouseWheel := Vec2(0.0, 0.0);
      events := [];
    }

    /** is_key_pressed: held now and not last frame; never together with is_key_released. */
    predicate IsKeyPressed(k: int)
      reads this
      ensures IsKeyPressed(k) ==> k in keysCurrent && !IsKeyReleased(k)
    {
      k in keysCurrent && k !in keysPrevious
    }

    predicate IsKeyReleased(k: int)
      reads this
    {
      k !in keysCurrent && k in keysPrevious
    }

    /** is_mouse_button_pressed: held now and not last frame; never together with is_mouse_button_released. */
    predicate IsMouseButtonPressed(b: int)
      reads this
      ensures IsMouseButtonPressed(b) ==> b in buttonsCurrent && !IsMouseButtonReleased(b)
    {
      b in buttonsCurrent && b !in buttonsPrevious
    }

    predicate IsMouseButtonReleased(b: int)
      reads this
    {
      b !in buttonsCurrent && b in buttonsPrevious
    }

    /** is_action_down, is_action_pressed, is_action_released: read from the stored state, UP when there is none. */
    function ActionState(a: string): (r: InputState)
      reads this
      ensures a !in actions ==> r == Up
    {
      StateOf(actions, a)
    }

    /** get_controller_axis: 0.0 for an unknown controller or an axis out of range. */
    function GetControllerAxis(c: int, axis: int): (r: real)
      reads this
      ensures !(c in controllerAxes && 0 <= axis < |controllerAxes[c]|) ==> r == 0.0
      ensures c in controllerAxes && 0 <= axis < |controllerAxes[c]| ==> r == controllerAxes[c][axis]
    {
      if c in controllerAxes && 0 <= axis < |controllerAxes[c]| then controllerAxes[c][axis] else 0.0
    }

    /** is_controller_button_pressed: held now on a known controller and not held last frame. */
    predicate IsControllerButtonPressed(c: int, b: int)
      reads this
      ensures IsControllerButtonPressed(c, b) ==> c in controllerCurrent && b in controllerCurrent[c] && !IsControllerButtonReleased(c, b)
    {
      (c in controllerCurrent && b in controllerCurrent[c]) && !(c in controllerPrevious && b in controllerPrevious[c])
    }

    predicate IsControllerButtonReleased(c: int, b: int)
      reads this
    {
      !(c in controllerCurrent && b in controllerCurrent[c]) && (c in controllerPrevious && b in controllerPrevious[c])
    }

    /** get_events_by_type: this frame's events of the type, in arrival order. */
    function GetEventsByType(t: EventType): (r: seq<Event>)
      reads this
      ensures forall e :: e in r <==> e in events && TypeOf(e) == t
      ensures |r| <= |events|
    {
      OfType(events, t)
    }
  }

  function OfType(es: seq<Event>, t: EventType): (r: seq<Event>)
    ensures forall e :: e in r <==> e in es && TypeOf(e) == t
    ensures |r| <= |es|
  {
    if |es| == 0 then [] else (if TypeOf(es[0]) == t then [es[0]] else []) + OfType(es[1..], t)
  }

  /** A key down event followed by an update reads as a press of every action bound to it, if the action was not already down. */
  lemma KeyDownPressesAction(actions: map<string, InputState>, kb: map<string, seq<int>>, mb: map<string, seq<int>>, keys: set<int>, buttons: set<int>, a: string, k: int)
    requires a in kb && k in kb[a] && !WasDown(StateOf(actions, a))
    ensures Stepped(actions, kb.Keys + mb.Keys, kb, mb, keys + {k}, buttons)[a] == Pressed
  {
    assert Held(kb[a], keys + {k});
  }

  /** A key up event followed by an update reads as a release of an action bound to that key alone, if the action was down. */
  lemma KeyUpReleasesAction(actions: map<string, InputState>, kb: map<string, seq<int>>, mb: map<string, seq<int>>, keys: set<int>, buttons: set<int>, a: string, k: int)
    requires a in kb && a !in mb && (forall j :: j in kb[a] ==> j == k) && WasDown(StateOf(actions, a))
    ensures Stepped(actions, kb.Keys + mb.Keys, kb, mb, keys - {k}, buttons)[a] == Released
  {
    assert !Held(kb[a], keys - {k});
  }
}
