/**
 * InputComponent of engine/components.py: callbacks kept in two tables, one
 * for keys and one for mouse buttons, each keyed by event type and then by
 * key or button, plus a list of handlers run on every update.
 *
 * A callback is an id; the calls made are recorded in order. pygame's
 * held-key and held-button state is a parameter of Update.
 */
module EngineInputs {
  import opened Wrappers

  type Callback = int

  /** A pygame event: its type and the key or button attribute it carries, if any. */
  datatype Event = Event(kind: int, key: Option<int>, button: Option<int>)

  type Table = map<int, map<int, Callback>>

  /** bind_key and bind_mouse: the inner table for the event type is made if missing, and the entry is overwritten. */
  function Bind(t: Table, kind: int, code: int, cb: Callback): (r: Table)
    ensures kind in r && code in r[kind] && r[kind][code] == cb
    ensures r.Keys == t.Keys + {kind}
    ensures forall k :: k in t && k != kind ==> k in r && r[k] == t[k]
    ensures kind in t ==> r[kind] == t[kind][code := cb]
    ensures kind !in t ==> r[kind] == map[code := cb]
  {
    var inner := if kind in t then t[kind] else map[];
    t[kind := inner[code := cb]]
  }

  /** The callback a table holds for a type and a code, if any. */
  function Bound(t: Table, kind: int, code: int): (r: Option<Callback>)
    ensures r.Some? <==> kind in t && code in t[kind]
    ensures r.Some? ==> r.value == t[kind][code]
  {
    if kind in t && code in t[kind] then Some(t[kind][code]) else None
  }

  /** A binding answers with its own callback, and leaves every other pair as it was. */
  lemma BindThenBound(t: Table, kind: int, code: int, cb: Callback, kind': int, code': int)
    ensures Bound(Bind(t, kind, code, cb), kind', code') ==
      if kind' == kind && code' == code then Some(cb) else Bound(t, kind', code')
  {
  }

  /** Binding the same pair twice keeps only the second callback. */
  lemma RebindOverwrites(t: Table, kind: int, code: int, cb: Callback, cb': Callback)
    ensures Bind(Bind(t, kind, code, cb), kind, code, cb') == Bind(t, kind, code, cb')
  {
    var inner := if kind in t then t[kind] else map[];
    assert Bind(t, kind, code, cb)[kind][code := cb'] == inner[code := cb'];
  }

  /**
   * One table's part of handle_event: an event whose type the table holds
   * must carry the attribute (else an AttributeError), and the callback for
   * its value runs when there is one.
   */
  function Lookup(t: Table, kind: int, code: Option<int>, attribute: string): (r: Result<seq<Callback>>)
    ensures kind !in t ==> r == Ok([])
    ensures r.Err? <==> kind in t && code.None?
    ensures r.Err? ==> r.error == AttributeError("'Event' object has no attribute '" + attribute + "'")
    ensures r.Ok? && code.Some? ==> r.value == if Bound(t, kind, code.value).Some? then [Bound(t, kind, code.value).value] else []
    ensures r.Ok? && code.None? ==> r.value == []
  {
    if kind !in t then Ok([])
    else if code.None? then Err(AttributeError("'Event' object has no attribute '" + attribute + "'"))
    else if code.value in t[kind] then Ok([t[kind][code.value]])
    else Ok([])
  }

  /** handle_event: the key callback, then the mouse callback; an error in the first stops the second. */
  function Dispatch(keys: Table, mouse: Table, e: Event): (r: Result<seq<Callback>>)
    ensures r.Err? <==> (e.kind in keys && e.key.None?) || (e.kind in mouse && e.button.None?)
    ensures r.Ok? ==> |r.value| <= 2
    ensures r.Ok? ==> forall c :: c in r.value <==>
      (e.key.Some? && Bound(keys, e.kind, e.key.value) == Some(c)) || (e.button.Some? && Bound(mouse, e.kind, e.button.value) == Some(c))
  {
    var k := Lookup(keys, e.kind, e.key, "key");
    if k.Err? then Err(k.error)
    else
      var m := Lookup(mouse, e.kind, e.button, "button");
      if m.Err? then Err(m.error)
      else Ok(k.value + m.value)
  }

  /** After bind_key, a key event of that type and key runs the new callback first. */
  lemma BoundKeyRunsFirst(keys: Table, mouse: Table, kind: int, code: int, cb: Callback, button: Option<int>)
    requires kind !in mouse || button.Some?
    ensures var r := Dispatch(Bind(keys, kind, code, cb), mouse, Event(kind, Some(code), button));
      r.Ok? && |r.value| >= 1 && r.value[0] == cb
  {
  }

  class InputComponent {
    var keyHandlers: Table
    var mouseHandlers: Table
    var inputHandlers: seq<Callback>
    /** The callbacks run so far, in order. */
    var calls: seq<Callback>

    /** InputComponent(): empty tables and no handlers. */
    constructor ()
      ensures keyHandlers == map[] && mouseHandlers == map[] && inputHandlers == [] && calls == []
    {
      keyHandlers, mouseHandlers := map[], map[];
      inputHandlers, calls := [], [];
    }

    method BindKey(key: int, cb: Callback, kind: int)
      modifies this
      ensures keyHandlers == Bind(old(keyHandlers), kind, key, cb)
      ensures mouseHandlers == old(mouseHandlers) && inputHandlers == old(inputHandlers) && calls == old(calls)
    {
      if kind !in keyHandlers {
        keyHandlers := keyHandlers[kind := map[]];
      }
      keyHandlers := keyHandlers[kind := keyHandlers[kind][key := cb]];
    }

    method BindMouse(button: int, cb: Callback, kind: int)
      modifies this
      ensures mouseHandlers == Bind(old(mouseHandlers), kind, button, cb)
      ensures keyHandlers == old(keyHandlers) && inputHandlers == old(inputHandlers) && calls == old(calls)
    {
      if kind !in mouseHandlers {
        mouseHandlers := mouseHandlers[kind := map[]];
      }
      mouseHandlers := mouseHandlers[kind := mouseHandlers[kind][button := cb]];
    }

    /** add_input_handler: the handler goes to the end of the list. */
    method AddInputHandler(h: Callback)
      modifies this
      ensures inputHandlers == old(inputHandlers) + [h]
      ensures keyHandlers == old(keyHandlers) && mouseHandlers == old(mouseHandlers) && calls == old(calls)
    {
      inputHandlers := inputHandlers + [h];
    }

    /** update: every input handler runs once, in the order added, with the held keys and buttons. */
    method Update(heldKeys: seq<bool>, heldButtons: seq<bool>, dt: real)
      modifies this
      ensures calls == old(calls) + inputHandlers
      ensures keyHandlers == old(keyHandlers) && mouseHandlers == old(mouseHandlers) && inputHandlers == old(inputHandlers)
    {
      var i := 0;
      while i < |inputHandlers|
        invariant 0 <= i <= |inputHandlers|
        invariant calls == old(calls) + inputHandlers[..i]
        invariant keyHandlers == old(keyHandlers) && mouseHandlers == old(mouseHandlers) && inputHandlers == old(inputHandlers)
      {
        calls := calls + [inputHandlers[i]];
        i := i + 1;
      }
      assert inputHandlers[..i] == inputHandlers;
    }

    /** handle_event: the callbacks Dispatch picks run, or the AttributeError is raised, after a key callback that ran. */
    method HandleEvent(e: Event) returns (r: Result<bool>)
      modifies this
      ensures var d := Dispatch(keyHandlers, mouseHandlers, e);
        (r.Ok? <==> d.Ok?) && (d.Ok? ==> calls == old(calls) + d.value) && (d.Err? ==> r == Err(d.error))
      ensures var k := Lookup(keyHandlers, e.kind, e.key, "key");
        Dispatch(keyHandlers, mouseHandlers, e).Err? ==> calls == old(calls) + if k.Ok? then k.value else []
      ensures keyHandlers == old(keyHandlers) && mouseHandlers == old(mouseHandlers) && inputHandlers == old(inputHandlers)
    {
      if e.kind in keyHandlers {
        if e.key.None? {
          return Err(AttributeError("'Event' object has no attribute 'key'"));
        }
        if e.key.value in keyHandlers[e.kind] {
          calls := calls + [keyHandlers[e.kind][e.key.value]];
        }
      }
      if e.kind in mouseHandlers {
        if e.button.None? {
          return Err(AttributeError("'Event' object has no attribute 'button'"));
        }
        if e.button.value in mouseHandlers[e.kind] {
          calls := calls + [mouseHandlers[e.kind][e.button.value]];
        }
      }
      r := Ok(true);
    }
  }
}
