/**
 * editor/editor_utils.py: the editor's undo/redo history, the codec that
 * turns property values into json-ready data and back, and the description
 * of a property the inspector builds.
 */
module EditorUtils {
  import opened Wrappers
  import opened Values

  // ---------------------------------------------------------------------
  // Undo and redo

  /** An EditorCommand, by identity. */
  type Command = int

  /** What the manager makes happen: a command's execute() or undo(), and the `changed` signal. */
  datatype Effect = Ran(c: Command) | Reverted(c: Command) | Changed

  /** The two stacks; the top of each is its last element. */
  datatype History = History(undo: seq<Command>, redo: seq<Command>)

  function Reversed(s: seq<Command>): (r: seq<Command>)
    ensures |r| == |s|
    ensures forall i :: 0 <= i < |s| ==> r[i] == s[|s| - 1 - i]
  {
    if s == [] then [] else Reversed(s[1..]) + [s[0]]
  }

  lemma ReversedSnoc(s: seq<Command>, x: Command)
    ensures Reversed(s + [x]) == [x] + Reversed(s)
  {
    assert Reversed(s + [x]) == [x] + Reversed(s);
  }

  /**
   * The line of commands the user can walk along with undo and redo: the
   * undo stack from the bottom, then the redo stack from its top.
   */
  function Timeline(h: History): seq<Command>
  {
    h.undo + Reversed(h.redo)
  }

  /** The newest n entries of s. */
  function Newest(s: seq<Command>, n: nat): seq<Command>
  {
    if |s| <= n then s else s[|s| - n..]
  }

  /** execute_command: push, clear the redo stack, drop the oldest entry beyond the limit. */
  function AfterExecute(h: History, c: Command, maxHistory: nat): History
  {
    var u := h.undo + [c];
    History(if |u| > maxHistory then u[1..] else u, [])
  }

  /** undo: the top of the undo stack moves to the redo stack; nothing happens when it is empty. */
  function AfterUndo(h: History): History
  {
    if h.undo == [] then h
    else History(h.undo[..|h.undo| - 1], h.redo + [h.undo[|h.undo| - 1]])
  }

  /** redo: the top of the redo stack moves back to the undo stack; nothing happens when it is empty. */
  function AfterRedo(h: History): History
  {
    if h.redo == [] then h
    else History(h.undo + [h.redo[|h.redo| - 1]], h.redo[..|h.redo| - 1])
  }

  /** The limit on the history: together the two stacks never hold more than max_history commands. */
  predicate Bounded(h: History, maxHistory: nat)
  {
    |h.undo| + |h.redo| <= maxHistory
  }

  /** A new command goes on top, the redo stack empties, and only the newest max_history commands are kept. */
  lemma ExecuteKeepsNewest(h: History, c: Command, maxHistory: nat)
    requires |h.undo| <= maxHistory
    ensures AfterExecute(h, c, maxHistory).undo == Newest(h.undo + [c], maxHistory)
    ensures AfterExecute(h, c, maxHistory).redo == []
    ensures 0 < maxHistory ==> AfterExecute(h, c, maxHistory).undo[|AfterExecute(h, c, maxHistory).undo| - 1] == c
    ensures Timeline(AfterExecute(h, c, maxHistory)) == Newest(h.undo + [c], maxHistory)
  {
    var u := h.undo + [c];
    if |u| > maxHistory {
      assert |u| == maxHistory + 1;
      assert u[1..] == u[|u| - maxHistory..];
    }
  }

  /** Executing, undoing and redoing all keep the history within its limit. */
  lemma BoundKept(h: History, c: Command, maxHistory: nat)
    requires Bounded(h, maxHistory)
    ensures Bounded(AfterExecute(h, c, maxHistory), maxHistory)
    ensures Bounded(AfterUndo(h), maxHistory)
    ensures Bounded(AfterRedo(h), maxHistory)
  {
  }

  /** Undo and redo only move along the timeline: they never lose or reorder a command. */
  lemma UndoRedoKeepTimeline(h: History)
    ensures Timeline(AfterUndo(h)) == Timeline(h)
    ensures Timeline(AfterRedo(h)) == Timeline(h)
  {
    if h.undo != [] {
      var n := |h.undo|;
      ReversedSnoc(h.redo, h.undo[n - 1]);
      assert h.undo[..n - 1] + [h.undo[n - 1]] == h.undo;
      assert Timeline(AfterUndo(h)) == h.undo[..n - 1] + ([h.undo[n - 1]] + Reversed(h.redo));
    }
    if h.redo != [] {
      var m := |h.redo|;
      ReversedSnoc(h.redo[..m - 1], h.redo[m - 1]);
      assert h.redo[..m - 1] + [h.redo[m - 1]] == h.redo;
      assert Timeline(h) == h.undo + ([h.redo[m - 1]] + Reversed(h.redo[..m - 1]));
    }
  }

  /** Redo undoes an undo, and undo undoes a redo. */
  lemma UndoRedoInverse(h: History)
    ensures h.undo != [] ==> AfterRedo(AfterUndo(h)) == h
    ensures h.redo != [] ==> AfterUndo(AfterRedo(h)) == h
  {
    if h.undo != [] {
      var n := |h.undo|;
      assert h.undo[..n - 1] + [h.undo[n - 1]] == h.undo;
      assert (h.redo + [h.undo[n - 1]])[..|h.redo|] == h.redo;
    }
    if h.redo != [] {
      var m := |h.redo|;
      assert h.redo[..m - 1] + [h.redo[m - 1]] == h.redo;
      assert (h.undo + [h.redo[m - 1]])[..|h.undo|] == h.undo;
    }
  }

  /** After executing a command, undo is available and redo is not. */
  lemma ExecuteEnablesUndoOnly(h: History, c: Command, maxHistory: nat)
    requires 0 < maxHistory
    ensures AfterExecute(h, c, maxHistory).undo != [] && AfterExecute(h, c, maxHistory).redo == []
    ensures AfterUndo(AfterExecute(h, c, maxHistory)).redo == [c]
  {
  }

  class UndoRedoManager {
    var undoStack: seq<Command>
    var redoStack: seq<Command>
    const maxHistory: nat
    /** The execute()/undo() calls made on commands and the signals emitted, in order. */
    var effects: seq<Effect>

    predicate Valid()
      reads this
    {
      Bounded(History(undoStack, redoStack), maxHistory)
    }

    /** UndoRedoManager(): empty stacks and a limit of 100. */
    constructor ()
      ensures Valid()
      ensures undoStack == [] && redoStack == [] && maxHistory == 100 && effects == []
    {
      undoStack, redoStack := [], [];
      maxHistory := 100;
      effects := [];
    }

    /** execute_command: the command runs, goes on top of the history, and the redo stack empties. */
    method ExecuteCommand(c: Command)
      requires Valid()
      modifies this
      ensures Valid()
      ensures History(undoStack, redoStack) == AfterExecute(old(History(undoStack, redoStack)), c, maxHistory)
      ensures effects == old(effects) + [Ran(c), Changed]
    {
      effects := effects + [Ran(c)];
      undoStack := undoStack + [c];
      redoStack := [];
      if |undoStack| > maxHistory {
        undoStack := undoStack[1..];
      }
      effects := effects + [Changed];
    }

    /** undo: the top command is undone and moves to the redo stack; nothing happens on an empty history. */
    method Undo()
      requires Valid()
      modifies this
      ensures Valid()
      ensures History(undoStack, redoStack) == AfterUndo(old(History(undoStack, redoStack)))
      ensures effects == old(effects) + if old(undoStack) == [] then [] else [Reverted(old(undoStack)[|old(undoStack)| - 1]), Changed]
    {
      if undoStack != [] {
        var command := undoStack[|undoStack| - 1];
        undoStack := undoStack[..|undoStack| - 1];
        effects := effects + [Reverted(command)];
        redoStack := redoStack + [command];
        effects := effects + [Changed];
      }
    }

    /** redo: the top undone command runs again and moves back to the undo stack. */
    method Redo()
      requires Valid()
      modifies this
      ensures Valid()
      ensures History(undoStack, redoStack) == AfterRedo(old(History(undoStack, redoStack)))
      ensures effects == old(effects) + if old(redoStack) == [] then [] else [Ran(old(redoStack)[|old(redoStack)| - 1]), Changed]
    {
      if redoStack != [] {
        var command := redoStack[|redoStack| - 1];
        redoStack := redoStack[..|redoStack| - 1];
        effects := effects + [Ran(command)];
        undoStack := undoStack + [command];
        effects := effects + [Changed];
      }
    }

    /** can_undo: exactly when undo would change the history. */
    function CanUndo(): (r: bool)
      reads this
      ensures r <==> AfterUndo(History(undoStack, redoStack)) != History(undoStack, redoStack)
    {
      |undoStack| > 0
    }

    /** can_redo: exactly when redo would change the history. */
    function CanRedo(): (r: bool)
      reads this
      ensures r <==> AfterRedo(History(undoStack, redoStack)) != History(undoStack, redoStack)
    {
      |redoStack| > 0
    }

    /** clear: both stacks empty, and `changed` is emitted. */
    method Clear()
      modifies this
      ensures Valid()
      ensures undoStack == [] && redoStack == [] && effects == old(effects) + [Changed]
    {
      undoStack, redoStack := [], [];
      effects := effects + [Changed];
    }
  }

  // ---------------------------------------------------------------------
  // serialize_value and deserialize_value

  const TypeKey := "__type__"

  /**
   * serialize_value. Tuples become lists; Vector2, Color and Rect become
   * dicts tagged with "__type__"; anything else is handed to `objectForm`,
   * which stands for value.serialize() when the object has that method and
   * for str(value) otherwise.
   */
  function Serialize(v: Value, objectForm: Value -> Value): Value
  {
    match v
    case VNone => VNone
    case VBool(_) => v
    case VInt(_) => v
    case VFloat(_) => v
    case VStr(_) => v
    case VList(items) => VList(seq(|items|, i requires 0 <= i < |items| => Serialize(items[i], objectForm)))
    case VTuple(elems) => VList(seq(|elems|, i requires 0 <= i < |elems| => Serialize(elems[i], objectForm)))
    case VDict(m) => VDict(map k | k in m :: Serialize(m[k], objectForm))
    case VVec2(x, y) => VDict(map[TypeKey := VStr("Vector2"), "x" := VFloat(x), "y" := VFloat(y)])
    case VColor(r, g, b, a) => VDict(map[TypeKey := VStr("Color"), "r" := VInt(r), "g" := VInt(g), "b" := VInt(b), "a" := VInt(a)])
    case VRect(x, y, w, h) => VDict(map[TypeKey := VStr("Rect"), "x" := VInt(x), "y" := VInt(y), "width" := VInt(w), "height" := VInt(h)])
    case _ => objectForm(v)
  }

  /**
   * The shape serialize_value gives: lists and tuples become lists of the
   * same length, dicts keep their keys, and the three pygame types become
   * dicts tagged with their type name.
   */
  lemma SerializeShape(v: Value, objectForm: Value -> Value)
    ensures v.VList? ==> Serialize(v, objectForm).VList? && |Serialize(v, objectForm).items| == |v.items|
    ensures v.VTuple? ==> Serialize(v, objectForm).VList? && |Serialize(v, objectForm).items| == |v.elems|
    ensures v.VDict? ==> Serialize(v, objectForm).VDict? && Serialize(v, objectForm).entries.Keys == v.entries.Keys
    ensures v.VVec2? ==> Serialize(v, objectForm).VDict? && Serialize(v, objectForm).entries[TypeKey] == VStr("Vector2")
    ensures v.VColor? ==> Serialize(v, objectForm).VDict? && Serialize(v, objectForm).entries[TypeKey] == VStr("Color")
    ensures v.VRect? ==> Serialize(v, objectForm).VDict? && Serialize(v, objectForm).entries[TypeKey] == VStr("Rect")
  {
  }

  /** pygame.Vector2(value["x"], value["y"]): the lookups first, then both must be numbers. */
  function MakeVector(m: map<string, Value>): (r: Result<Value>)
    ensures r.Ok? <==> "x" in m && "y" in m && IsNumber(m["x"]) && IsNumber(m["y"])
    ensures r.Ok? ==> r.value == VVec2(AsReal(m["x"]), AsReal(m["y"]))
    ensures "x" !in m ==> r == Err(KeyError("x"))
    ensures "x" in m && "y" !in m ==> r == Err(KeyError("y"))
  {
    if "x" !in m then Err(KeyError("x"))
    else if "y" !in m then Err(KeyError("y"))
    else
      var x, y := m["x"], m["y"];
        if IsNumber(x) && IsNumber(y) then Ok(VVec2(AsReal(x), AsReal(y)))
      else Err(TypeError("Vector2() arguments must be numbers"))
  }

  /** pygame.Color(r, g, b, a): four ints, each in 0..255. */
  function MakeColor(m: map<string, Value>): (r: Result<Value>)
    ensures r.Ok? <==> ("r" in m && "g" in m && "b" in m && "a" in m
      && IsIntLike(m["r"]) && IsIntLike(m["g"]) && IsIntLike(m["b"]) && IsIntLike(m["a"])
      && IsByte(AsInt(m["r"])) && IsByte(AsInt(m["g"])) && IsByte(AsInt(m["b"])) && IsByte(AsInt(m["a"])))
    ensures r.Ok? ==> r.value == VColor(AsInt(m["r"]), AsInt(m["g"]), AsInt(m["b"]), AsInt(m["a"]))
    ensures r.Ok? ==> WellFormed(r.value)
  {
    if "r" !in m then Err(KeyError("r"))
    else if "g" !in m then Err(KeyError("g"))
    else if "b" !in m then Err(KeyError("b"))
    else if "a" !in m then Err(KeyError("a"))
    else
      var r, g, b, a := m["r"], m["g"], m["b"], m["a"];
      if !(IsIntLike(r) && IsIntLike(g) && IsIntLike(b) && IsIntLike(a)) then Err(TypeError("invalid color argument"))
      else if IsByte(AsInt(r)) && IsByte(AsInt(g)) && IsByte(AsInt(b)) && IsByte(AsInt(a)) then
        Ok(VColor(AsInt(r), AsInt(g), AsInt(b), AsInt(a)))
      else Err(ValueError("invalid color argument"))
  }

  /** pygame.Rect(x, y, width, height): four ints. */
  function MakeRect(m: map<string, Value>): (r: Result<Value>)
    ensures r.Ok? <==> ("x" in m && "y" in m && "width" in m && "height" in m
      && IsIntLike(m["x"]) && IsIntLike(m["y"]) && IsIntLike(m["width"]) && IsIntLike(m["height"]))
    ensures r.Ok? ==> r.value == VRect(AsInt(m["x"]), AsInt(m["y"]), AsInt(m["width"]), AsInt(m["height"]))
  {
    if "x" !in m then Err(KeyError("x"))
    else if "y" !in m then Err(KeyError("y"))
    else if "width" !in m then Err(KeyError("width"))
    else if "height" !in m then Err(KeyError("height"))
    else
      var x, y, w, h := m["x"], m["y"], m["width"], m["height"];
      if IsIntLike(x) && IsIntLike(y) && IsIntLike(w) && IsIntLike(h) then Ok(VRect(AsInt(x), AsInt(y), AsInt(w), AsInt(h)))
      else Err(TypeError("Argument must be rect style object"))
  }

  /**
   * deserialize_value; None stands for the exception it raises. A dict
   * tagged with an unknown "__type__" comes back as it is, its values not
   * deserialized.
   */
  function Deserialize(v: Value): Option<Value>
  {
    match v
    case VDict(m) =>
      if TypeKey in m then
        var t := m[TypeKey];
        if t == VStr("Vector2") then Okay(MakeVector(m))
        else if t == VStr("Color") then Okay(MakeColor(m))
        else if t == VStr("Rect") then Okay(MakeRect(m))
        else Some(v)
      else if forall k :: k in m ==> Deserialize(m[k]).Some? then Some(VDict(map k | k in m :: Deserialize(m[k]).value))
      else None
    case VList(items) =>
      if forall i :: 0 <= i < |items| ==> Deserialize(items[i]).Some? then
        Some(VList(seq(|items|, i requires 0 <= i < |items| => Deserialize(items[i]).value)))
      else None
    case _ => Some(v)
  }

  function Okay(r: Result<Value>): (o: Option<Value>)
    ensures o.Some? <==> r.Ok?
    ensures o.Some? ==> o.value == r.value
  {
    if r.Ok? then Some(r.value) else None
  }

  /** What a value is once it has been through the codec: every tuple a list. */
  function Listed(v: Value): Value
  {
    match v
    case VList(items) => VList(seq(|items|, i requires 0 <= i < |items| => Listed(items[i])))
    case VTuple(elems) => VList(seq(|elems|, i requires 0 <= i < |elems| => Listed(elems[i])))
    case VDict(m) => VDict(map k | k in m :: Listed(m[k]))
    case _ => v
  }

  /**
   * The values the codec carries: no objects, callables or opaque objects,
   * colours in range, and no dict of the user's own with a "__type__" key.
   */
  predicate Carried(v: Value)
  {
    match v
    case VColor(r, g, b, a) => IsByte(r) && IsByte(g) && IsByte(b) && IsByte(a)
    case VObject(_, _) => false
    case VCallable(_) => false
    case VOpaque(_) => false
    case VList(items) => forall i :: 0 <= i < |items| ==> Carried(items[i])
    case VTuple(elems) => forall i :: 0 <= i < |elems| ==> Carried(elems[i])
    case VDict(m) => TypeKey !in m && forall k :: k in m ==> Carried(m[k])
    case _ => true
  }

  /** Deserializing a serialized value gives it back, with tuples turned into lists. */
  lemma {:induction false} RoundTrip(v: Value, objectForm: Value -> Value)
    requires Carried(v)
    ensures Deserialize(Serialize(v, objectForm)) == Some(Listed(v))
  {
    match v
    case VList(items) =>
      forall i | 0 <= i < |items| ensures Deserialize(Serialize(items[i], objectForm)) == Some(Listed(items[i])) {
        RoundTrip(items[i], objectForm);
      }
      RoundTripItems(items, objectForm);
    case VTuple(elems) =>
      forall i | 0 <= i < |elems| ensures Deserialize(Serialize(elems[i], objectForm)) == Some(Listed(elems[i])) {
        RoundTrip(elems[i], objectForm);
      }
      RoundTripItems(elems, objectForm);
      assert Serialize(VTuple(elems), objectForm) == Serialize(VList(elems), objectForm);
    case VDict(m) =>
      forall k | k in m ensures Deserialize(Serialize(m[k], objectForm)) == Some(Listed(m[k])) {
        RoundTrip(m[k], objectForm);
      }
      RoundTripDict(m, objectForm);
    case _ => RoundTripLeaf(v, objectForm);
  }

  lemma RoundTripLeaf(v: Value, objectForm: Value -> Value)
    requires Carried(v) && !v.VList? && !v.VTuple? && !v.VDict?
    ensures Deserialize(Serialize(v, objectForm)) == Some(Listed(v))
  {
  }

  lemma RoundTripItems(items: seq<Value>, objectForm: Value -> Value)
    requires forall i :: 0 <= i < |items| ==> Deserialize(Serialize(items[i], objectForm)) == Some(Listed(items[i]))
    ensures Deserialize(Serialize(VList(items), objectForm)) == Some(Listed(VList(items)))
  {
    var e := seq(|items|, i requires 0 <= i < |items| => Serialize(items[i], objectForm));
    assert Serialize(VList(items), objectForm) == VList(e);
    assert forall i :: 0 <= i < |e| ==> Deserialize(e[i]) == Some(Listed(items[i]));
    assert seq(|e|, i requires 0 <= i < |e| => Deserialize(e[i]).value)
      == seq(|items|, i requires 0 <= i < |items| => Listed(items[i]));
  }

  lemma RoundTripDict(m: map<string, Value>, objectForm: Value -> Value)
    requires TypeKey !in m
    requires forall k :: k in m ==> Deserialize(Serialize(m[k], objectForm)) == Some(Listed(m[k]))
    ensures Deserialize(Serialize(VDict(m), objectForm)) == Some(Listed(VDict(m)))
  {
    var e := map k | k in m :: Serialize(m[k], objectForm);
    assert Serialize(VDict(m), objectForm) == VDict(e);
    DeserializeUntagged(e);
    var d := Deserialize(VDict(e)).value.entries;
    assert d == map k | k in m :: Listed(m[k]);
  }

  /** An untagged dict whose values all deserialize is deserialized value by value. */
  lemma DeserializeUntagged(e: map<string, Value>)
    requires TypeKey !in e && forall k :: k in e ==> Deserialize(e[k]).Some?
    ensures Deserialize(VDict(e)).Some? && Deserialize(VDict(e)).value.VDict?
    ensures Deserialize(VDict(e)).value.entries.Keys == e.Keys
    ensures forall k :: k in e ==> Deserialize(VDict(e)).value.entries[k] == Deserialize(e[k]).value
  {
  }

  /** Serialized values are what json can carry, provided objects serialize to such values. */
  lemma {:induction false} SerializeIsJson(v: Value, objectForm: Value -> Value)
    requires forall o :: IsJson(objectForm(o))
    ensures IsJson(Serialize(v, objectForm))
  {
    match v
    case VList(items) =>
      forall i | 0 <= i < |items| ensures IsJson(Serialize(items[i], objectForm)) { SerializeIsJson(items[i], objectForm); }
    case VTuple(elems) =>
      forall i | 0 <= i < |elems| ensures IsJson(Serialize(elems[i], objectForm)) { SerializeIsJson(elems[i], objectForm); }
    case VDict(m) =>
      forall k | k in m ensures IsJson(Serialize(m[k], objectForm)) { SerializeIsJson(m[k], objectForm); }
    case _ =>
  }

  /** A tuple comes back as a list. */
  lemma TupleComesBackAsList(objectForm: Value -> Value)
    ensures Deserialize(Serialize(VTuple([VInt(1), VStr("a")]), objectForm)) == Some(VList([VInt(1), VStr("a")]))
  {
    var items := [VInt(1), VStr("a")];
    assert Serialize(VTuple(items), objectForm) == VList(items);
    assert Deserialize(items[0]) == Some(items[0]) && Deserialize(items[1]) == Some(items[1]);
    assert seq(|items|, i requires 0 <= i < |items| => Deserialize(items[i]).value) == items;
  }

  /** A dict of the user's own that happens to carry the Vector2 tag is read back as a Vector2. */
  lemma TaggedUserDictBecomesVector(objectForm: Value -> Value)
    ensures var d := VDict(map[TypeKey := VStr("Vector2"), "x" := VInt(1), "y" := VInt(2)]);
      Deserialize(Serialize(d, objectForm)) == Some(VVec2(1.0, 2.0))
  {
    var d := map[TypeKey := VStr("Vector2"), "x" := VInt(1), "y" := VInt(2)];
    assert Serialize(VDict(d), objectForm) == VDict(d);
  }

  /** A dict with an unknown "__type__" is returned whole: its values are not deserialized. */
  lemma UnknownTagKept(m: map<string, Value>)
    requires TypeKey in m && m[TypeKey] !in {VStr("Vector2"), VStr("Color"), VStr("Rect")}
    ensures Deserialize(VDict(m)) == Some(VDict(m))
  {
  }

  /** A tagged dict without its fields raises. */
  lemma MissingFieldRaises()
    ensures Deserialize(VDict(map[TypeKey := VStr("Vector2"), "x" := VInt(1)])) == None
    ensures MakeVector(map[TypeKey := VStr("Vector2"), "y" := VInt(1)]) == Err(KeyError("x"))
  {
  }

  // ---------------------------------------------------------------------
  // get_property_info

  /** type(value).__name__. */
  function TypeName(v: Value): (r: string)
    ensures !v.VObject? && !v.VOpaque? ==>
      (r == "bool" <==> v.VBool?) && (r == "int" <==> v.VInt?) && (r == "float" <==> v.VFloat?) && (r == "str" <==> v.VStr?)
      && (r == "list" <==> v.VList?) && (r == "tuple" <==> v.VTuple?) && (r == "dict" <==> v.VDict?)
  {
    match v
    case VNone => "NoneType"
    case VBool(_) => "bool"
    case VInt(_) => "int"
    case VFloat(_) => "float"
    case VStr(_) => "str"
    case VVec2(_, _) => "Vector2"
    case VColor(_, _, _, _) => "Color"
    case VRect(_, _, _, _) => "Rect"
    case VList(_) => "list"
    case VTuple(_) => "tuple"
    case VDict(_) => "dict"
    case VObject(cls, _) => cls
    case VCallable(_) => "function"
    case VOpaque(kind) => kind
  }

  /** The inspector widget for a value: bool is checked before int, of which it is a subclass. */
  function WidgetFor(v: Value): Option<string>
  {
    if v.VBool? then Some("checkbox")
    else if v.VInt? || v.VFloat? then Some("spinbox")
    else if v.VStr? then Some("lineedit")
    else if v.VVec2? then Some("vector2")
    else if v.VColor? then Some("color")
    else if v.VRect? then Some("rect")
    else None
  }

  const SpinMin := -999999
  const SpinMax := 999999

  /**
   * get_property_info of an object whose attributes are `attrs`: nothing for
   * a missing attribute; otherwise its name, type name and value, marked
   * editable, with the widget to edit it and, for a spinbox, its range.
   */
  function PropertyInfo(attrs: map<string, Value>, name: string): (r: map<string, Value>)
    ensures name !in attrs <==> r == map[]
    ensures name in attrs ==> ("name" in r && r["name"] == VStr(name) && "type" in r && r["type"] == VStr(TypeName(attrs[name]))
      && "value" in r && r["value"] == attrs[name] && "editable" in r && r["editable"] == VBool(true))
    ensures name in attrs ==> ("widget" in r <==> WidgetFor(attrs[name]).Some?)
    ensures "widget" in r ==> r["widget"] == VStr(WidgetFor(attrs[name]).value)
    ensures ("min" in r <==> name in attrs && (attrs[name].VInt? || attrs[name].VFloat?)) && ("max" in r <==> "min" in r)
    ensures "min" in r ==> r["min"] == VInt(SpinMin) && r["max"] == VInt(SpinMax)
  {
    if name !in attrs then map[]
    else
      var v := attrs[name];
      var info := map["name" := VStr(name), "type" := VStr(TypeName(v)), "value" := v, "editable" := VBool(true)];
      var w := WidgetFor(v);
      assert info.Keys == {"name", "type", "value", "editable"};
      assert "widget" !in info.Keys && "min" !in info.Keys && "max" !in info.Keys;
      if w.None? then info
      else if w.value == "spinbox" then info["widget" := VStr(w.value)]["min" := VInt(SpinMin)]["max" := VInt(SpinMax)]
      else info["widget" := VStr(w.value)]
  }

  /** A bool is shown with a checkbox and gets no range, though Python counts it as an int. */
  lemma BoolIsCheckbox(attrs: map<string, Value>, name: string, b: bool)
    requires name in attrs && attrs[name] == VBool(b)
    ensures PropertyInfo(attrs, name)["widget"] == VStr("checkbox")
    ensures "min" !in PropertyInfo(attrs, name) && IsNumber(attrs[name])
  {
  }

  /** Each widget kind goes with exactly one kind of value. */
  lemma WidgetKinds(v: Value)
    ensures WidgetFor(v) == Some("checkbox") <==> v.VBool?
    ensures WidgetFor(v) == Some("spinbox") <==> IsNumber(v) && !v.VBool?
    ensures WidgetFor(v) == Some("lineedit") <==> v.VStr?
    ensures WidgetFor(v).None? <==> !(IsNumber(v) || v.VStr? || v.VVec2? || v.VColor? || v.VRect?)
  {
  }
}
