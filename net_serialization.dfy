/**
 * NetworkSerialization of engine/networking/network_components.py: the
 * list-based value codec, and the dict forms of components and actors
 * that spawn, update and full-sync messages carry.
 */
module NetSerialization {
  import opened Wrappers
  import opened Values
  import opened CoreActor

  // ---------------------------------------------------------------------
  // The value codec

  /** NetworkSerialization._serialize_value. */
  function Encode(v: Value): (r: Value)
    ensures r.VList? <==> v.VList? || v.VTuple? || v.VVec2? || v.VColor? || v.VRect?
    ensures r.VDict? <==> v.VDict? || v.VObject? || v.VCallable?
    ensures r.VList? ==> |r.items| == (match v case VList(items) => |items| case VTuple(elems) => |elems| case VVec2(_, _) => 2 case _ => 4)
    ensures v.VDict? ==> r.entries.Keys == v.entries.Keys
  {
    match v
    case VNone => VNone
    case VBool(_) => v
    case VInt(_) => v
    case VFloat(_) => v
    case VStr(_) => v
    case VVec2(x, y) => VList([VFloat(x), VFloat(y)])
    case VColor(r, g, b, a) => VList([VInt(r), VInt(g), VInt(b), VInt(a)])
    case VRect(x, y, w, h) => VList([VInt(x), VInt(y), VInt(w), VInt(h)])
    case VList(items) => VList(seq(|items|, i requires 0 <= i < |items| => Encode(items[i])))
    case VTuple(elems) => VList(seq(|elems|, i requires 0 <= i < |elems| => Encode(elems[i])))
    case VDict(m) => VDict(map k | k in m :: Encode(m[k]))
    case VObject(_, attrs) => VDict(map k | k in attrs && !IsPrivate(k) :: Encode(attrs[k]))
    // a function's __dict__ is empty
    case VCallable(_) => VDict(map[])
    case VOpaque(_) => VNone
  }

  /** The only way decoding fails: pygame.Color refuses a component outside 0..255. */
  const ColorError := ValueError("invalid color argument")

  /** NetworkSerialization._deserialize_value. */
  function Decode(v: Value): Result<Value>
  {
    match v
    case VList(items) =>
      if LooksLikeVector(items) then Ok(VVec2(AsReal(items[0]), AsReal(items[1])))
      else if LooksLikeColor(items) then
        if IsByte(AsInt(items[0])) && IsByte(AsInt(items[1])) && IsByte(AsInt(items[2])) && IsByte(AsInt(items[3]))
        then Ok(VColor(AsInt(items[0]), AsInt(items[1]), AsInt(items[2]), AsInt(items[3])))
        else Err(ColorError)
      else if forall i :: 0 <= i < |items| ==> Decode(items[i]).Ok? then
        Ok(VList(seq(|items|, i requires 0 <= i < |items| => Decode(items[i]).value)))
      else Err(ColorError)
    case VDict(m) =>
      if forall k :: k in m ==> Decode(m[k]).Ok? then Ok(VDict(map k | k in m :: Decode(m[k]).value))
      else Err(ColorError)
    // None, primitives and anything else pass through unchanged
    case _ => Ok(v)
  }

  /** Decoding fails only with the colour error, and what it produces is well formed. */
  lemma {:induction false} DecodeErrors(v: Value)
    ensures Decode(v).Err? ==> Decode(v).error == ColorError
    ensures Decode(v).Ok? && WellFormed(v) ==> WellFormed(Decode(v).value)
  {
    match v
    case VList(items) =>
      forall i | 0 <= i < |items| ensures Decode(items[i]).Ok? && WellFormed(items[i]) ==> WellFormed(Decode(items[i]).value) {
        DecodeErrors(items[i]);
      }
    case VDict(m) =>
      forall k | k in m ensures Decode(m[k]).Ok? && WellFormed(m[k]) ==> WellFormed(Decode(m[k]).value) {
        DecodeErrors(m[k]);
      }
    case _ =>
  }

  /**
   * The values the list codec carries faithfully: no tuples, rects,
   * objects, callables or opaque objects, well-formed colours, and no list
   * that itself looks like a Vector2 or a Color.
   */
  predicate NetPlain(v: Value)
  {
    match v
    case VColor(r, g, b, a) => IsByte(r) && IsByte(g) && IsByte(b) && IsByte(a)
    case VRect(_, _, _, _) => false
    case VTuple(_) => false
    case VObject(_, _) => false
    case VCallable(_) => false
    case VOpaque(_) => false
    case VList(items) =>
      !LooksLikeVector(items) && !LooksLikeColor(items) && forall i :: 0 <= i < |items| ==> NetPlain(items[i])
    case VDict(m) => forall k :: k in m ==> NetPlain(m[k])
    case _ => true
  }

  /** The encoding of a value is a number exactly when the value is one, and of the same kind. */
  lemma EncodeKeepsNumbers(v: Value)
    ensures IsNumber(Encode(v)) <==> IsNumber(v)
    ensures IsIntLike(Encode(v)) <==> IsIntLike(v)
    ensures IsNumber(v) ==> Encode(v) == v
  {
  }

  /** Every encoding is something json can carry. */
  lemma {:induction false} EncodeIsJson(v: Value)
    ensures IsJson(Encode(v))
  {
    match v
    case VList(items) =>
      forall i | 0 <= i < |items| ensures IsJson(Encode(items[i])) { EncodeIsJson(items[i]); }
    case VTuple(elems) =>
      forall i | 0 <= i < |elems| ensures IsJson(Encode(elems[i])) { EncodeIsJson(elems[i]); }
    case VDict(m) =>
      forall k | k in m ensures IsJson(Encode(m[k])) { EncodeIsJson(m[k]); }
    case VObject(_, attrs) =>
      forall k | k in attrs ensures IsJson(Encode(attrs[k])) { EncodeIsJson(attrs[k]); }
    case _ =>
  }

  /** Decoding the list encoding gives the value back. */
  lemma {:induction false} DecodeEncode(v: Value)
    requires NetPlain(v)
    ensures Decode(Encode(v)) == Ok(v)
  {
    match v
    case VList(items) =>
      forall i | 0 <= i < |items| ensures Decode(Encode(items[i])) == Ok(items[i]) { DecodeEncode(items[i]); }
      DecodeEncodeList(items);
    case VDict(m) =>
      forall k | k in m ensures Decode(Encode(m[k])) == Ok(m[k]) { DecodeEncode(m[k]); }
      DecodeEncodeDict(m);
    case _ =>
  }

  lemma DecodeEncodeList(items: seq<Value>)
    requires !LooksLikeVector(items) && !LooksLikeColor(items)
    requires forall i :: 0 <= i < |items| ==> Decode(Encode(items[i])) == Ok(items[i])
    ensures Decode(Encode(VList(items))) == Ok(VList(items))
  {
    var e := seq(|items|, i requires 0 <= i < |items| => Encode(items[i]));
    assert Encode(VList(items)) == VList(e);
    forall i | 0 <= i < |items| ensures IsNumber(e[i]) <==> IsNumber(items[i]) && (IsIntLike(e[i]) <==> IsIntLike(items[i])) {
      EncodeKeepsNumbers(items[i]);
    }
    assert !LooksLikeVector(e) && !LooksLikeColor(e);
    assert forall i :: 0 <= i < |e| ==> Decode(e[i]) == Ok(items[i]);
    assert seq(|e|, i requires 0 <= i < |e| => Decode(e[i]).value) == items;
  }

  lemma DecodeEncodeDict(m: map<string, Value>)
    requires forall k :: k in m ==> Decode(Encode(m[k])) == Ok(m[k])
    ensures Decode(Encode(VDict(m))) == Ok(VDict(m))
  {
    var e := map k | k in m :: Encode(m[k]);
    assert Encode(VDict(m)) == VDict(e);
    var d := map k | k in e :: Decode(e[k]).value;
    assert d == m by {
      forall k | k in m ensures k in d && d[k] == m[k] {
        assert Decode(Encode(m[k])) == Ok(m[k]);
      }
    }
    assert forall k :: k in e ==> Decode(e[k]).Ok?;
  }

  /** A Rect comes back as a Color when its fields fit in a byte... */
  lemma RectComesBackAsColor(x: int, y: int, w: int, h: int)
    requires IsByte(x) && IsByte(y) && IsByte(w) && IsByte(h)
    ensures Decode(Encode(VRect(x, y, w, h))) == Ok(VColor(x, y, w, h))
  {
  }

  /** ...and as a ValueError when one does not. */
  lemma WideRectFails()
    ensures Decode(Encode(VRect(0, 0, 640, 480))) == Err(ColorError)
  {
  }

  /** A plain list of two numbers comes back as a Vector2. */
  lemma NumberPairBecomesVector(a: int, b: int)
    ensures Decode(Encode(VList([VInt(a), VInt(b)]))) == Ok(VVec2(a as real, b as real))
  {
  }

  // ---------------------------------------------------------------------
  // Components and actors in dict form

  /** NetworkSerialization.serialize_component with the default serialize_for_network. */
  function SerializeComponent(c: Comp): (r: Value)
    ensures r.VDict? && r.entries.Keys == {"type", "module", "enabled", "data"}
    ensures r.entries["type"] == VStr(c.ctype) && r.entries["module"] == VStr(c.cmodule)
    ensures r.entries["data"] == VDict(SerializeForNetwork(c.attrs))
  {
    VDict(map["type" := VStr(c.ctype), "module" := VStr(c.cmodule), "enabled" := VBool(c.enabled),
              "data" := VDict(SerializeForNetwork(c.attrs))])
  }

  /** An actor as spawn and full-sync messages carry it. */
  datatype NetActor = NetActor(
    id: string, name: string, active: bool, enabled: bool, tags: seq<string>,
    position: Vec, rotation: real, scale: Vec, comps: Components)

  function StrList(s: seq<string>): (r: Value)
    ensures r.VList? && |r.items| == |s| && forall i :: 0 <= i < |s| ==> r.items[i] == VStr(s[i])
  {
    VList(seq(|s|, i requires 0 <= i < |s| => VStr(s[i])))
  }

  function VecList(v: Vec): Value
  {
    VList([VFloat(v.x), VFloat(v.y)])
  }

  /** The transform part of spawn, update and full-sync payloads. */
  function TransformValue(a: NetActor): Value
  {
    VDict(map["local_position" := VecList(a.position), "local_rotation" := VFloat(a.rotation), "local_scale" := VecList(a.scale)])
  }

  /** The components a serialized actor lists: all but the NetworkComponent, in list order. */
  function SerializeComponents(cs: seq<Comp>): (r: seq<Value>)
    ensures |r| <= |cs|
  {
    if |cs| == 0 then []
    else
      var rest := SerializeComponents(cs[..|cs| - 1]);
      var last := cs[|cs| - 1];
      if last.ctype == NetworkComponentType then rest else rest + [SerializeComponent(last)]
  }

  const NetworkComponentType := "NetworkComponent"

  /** NetworkSerialization.serialize_actor. */
  function SerializeActor(a: NetActor): (r: Value)
    ensures r.VDict? && r.entries.Keys == {"id", "name", "active", "enabled", "tags", "transform", "components"}
  {
    VDict(map[
      "id" := VStr(a.id), "name" := VStr(a.name), "active" := VBool(a.active), "enabled" := VBool(a.enabled),
      "tags" := StrList(a.tags),
      "transform" := TransformValue(a),
      "components" := VList(SerializeComponents(a.comps.list))])
  }

  // Reading the dict forms back. Python raises KeyError, TypeError or
  // IndexError on a malformed payload; the model returns Err.

  function Field(d: Value, k: string): Result<Value>
  {
    if d.VDict? && k in d.entries then Ok(d.entries[k]) else Err(KeyError(k))
  }

  function StrField(d: Value, k: string): (r: Result<string>)
    ensures r.Ok? ==> Field(d, k) == Ok(VStr(r.value))
  {
    var f := Field(d, k);
    if f.Ok? && f.value.VStr? then Ok(f.value.s) else Err(TypeError(k))
  }

  function BoolField(d: Value, k: string): (r: Result<bool>)
    ensures r.Ok? ==> Field(d, k) == Ok(VBool(r.value))
  {
    var f := Field(d, k);
    if f.Ok? && f.value.VBool? then Ok(f.value.bval) else Err(TypeError(k))
  }

  /** pygame.Vector2(p[0], p[1]) of a list of at least two numbers. */
  function VecField(d: Value, k: string): (r: Result<Vec>)
    ensures r.Ok? ==> Field(d, k).Ok? && Field(d, k).value.VList?
  {
    var f := Field(d, k);
    if f.Ok? && f.value.VList? && |f.value.items| >= 2 && IsNumber(f.value.items[0]) && IsNumber(f.value.items[1])
    then Ok(Vec(AsReal(f.value.items[0]), AsReal(f.value.items[1])))
    else Err(TypeError(k))
  }

  function StrItems(items: seq<Value>): (r: Option<seq<string>>)
    ensures r.Some? ==> |r.value| == |items| && forall i :: 0 <= i < |items| ==> items[i] == VStr(r.value[i])
  {
    if |items| == 0 then Some([])
    else
      var rest := StrItems(items[..|items| - 1]);
      if rest.Some? && items[|items| - 1].VStr? then Some(rest.value + [items[|items| - 1].s]) else None
  }

  /** Reading a list of strings back gives the strings. */
  lemma {:induction false} StrItemsOfStrList(s: seq<string>)
    ensures StrItems(StrList(s).items) == Some(s)
    decreases |s|
  {
    if |s| > 0 {
      var items := StrList(s).items;
      assert items[..|items| - 1] == StrList(s[..|s| - 1]).items;
      StrItemsOfStrList(s[..|s| - 1]);
      assert s[..|s| - 1] + [s[|s| - 1]] == s;
    }
  }

  /**
   * The class a component dict names, as the dynamic import finds it: any
   * module under engine. is looked up in engine.components.
   */
  function ClassKey(modName: string, name: string): (string, string)
  {
    if |modName| >= 7 && modName[..7] == "engine." then ("engine.components", name) else (modName, name)
  }

  /**
   * NetworkSerialization.deserialize_component. `classes` maps an
   * importable (module, class) to the attributes a fresh instance starts
   * with; the new component gets identity `uid`. None when a key is missing
   * or the class is not found; a failing deserialize_from_network still
   * yields the fresh component.
   */
  function DeserializeComponent(d: Value, classes: map<(string, string), map<string, Value>>, uid: nat): (r: Option<Comp>)
    ensures r.Some? ==> StrField(d, "type").Ok? && StrField(d, "module").Ok? && Field(d, "enabled").Ok?
    ensures r.Some? ==> r.value.ctype == StrField(d, "type").value && r.value.uid == uid
    ensures r.Some? ==> ClassKey(r.value.cmodule, r.value.ctype) in classes
    ensures r.Some? ==> r.value.attrs.Keys == classes[ClassKey(r.value.cmodule, r.value.ctype)].Keys
  {
    var modName := StrField(d, "module");
    var name := StrField(d, "type");
    if modName.Err? || name.Err? || ClassKey(modName.value, name.value) !in classes then None
    else
      var enabled := Field(d, "enabled");
      if enabled.Err? then None
      else
        var init := classes[ClassKey(modName.value, name.value)];
        var data := Field(d, "data");
        var attrs := if data.Ok? && data.value.VDict? then DeserializeFromNetwork(init, data.value.entries) else init;
        Some(Comp(uid, name.value, modName.value, Truthy(enabled.value), attrs))
  }

  /** The loop of deserialize_actor over the component dicts: each found one is added. */
  function AddComponents(cs: Components, ds: seq<Value>, classes: map<(string, string), map<string, Value>>, uid: nat): (r: Components)
    requires InSync(cs)
    ensures InSync(r)
    decreases |ds|
  {
    if |ds| == 0 then cs
    else
      var c := DeserializeComponent(ds[0], classes, uid);
      var next := if c.Some? then InsertComponent(cs, c.value) else cs;
      AddComponents(next, ds[1..], classes, uid + 1)
  }

  /**
   * NetworkSerialization.deserialize_actor; `uuid` is the identifier the new
   * Actor draws before its id is overwritten (it names an actor whose
   * name is empty), and `uid` numbers the new components.
   */
  function DeserializeActor(d: Value, classes: map<(string, string), map<string, Value>>, uuid: string, uid: nat): (r: Result<NetActor>)
    ensures r.Ok? ==> InSync(r.value.comps)
    ensures r.Ok? ==> (StrField(d, "id") == Ok(r.value.id) && BoolField(d, "active") == Ok(r.value.active)
      && BoolField(d, "enabled") == Ok(r.value.enabled) && StrField(d, "name").Ok?)
    ensures r.Ok? ==> (var n := StrField(d, "name").value;
      r.value.name == if n != "" then n else "Actor_" + uuid[..Min(8, |uuid|)])
  {
    var name := StrField(d, "name");
    var id := StrField(d, "id");
    var active := BoolField(d, "active");
    var enabled := BoolField(d, "enabled");
    var tags := Field(d, "tags");
    var transform := Field(d, "transform");
    if name.Err? || id.Err? || active.Err? || enabled.Err? || tags.Err? || transform.Err? then Err(KeyError("actor"))
    else if !tags.value.VList? || StrItems(tags.value.items).None? then Err(TypeError("tags"))
    else
      var pos := VecField(transform.value, "local_position");
      var rot := Field(transform.value, "local_rotation");
      var scale := VecField(transform.value, "local_scale");
      var comps := Field(d, "components");
      if pos.Err? || rot.Err? || !IsNumber(rot.value) || scale.Err? then Err(TypeError("transform"))
      else if comps.Err? || !comps.value.VList? then Err(KeyError("components"))
      else
        var actorName := if name.value != "" then name.value else "Actor_" + uuid[..Min(8, |uuid|)];
        Ok(NetActor(id.value, actorName, active.value, enabled.value, StrItems(tags.value.items).value,
                    pos.value, AsReal(rot.value), scale.value, AddComponents(NoComponents(), comps.value.items, classes, uid)))
  }

  /** Everything but the components survives serialize_actor then deserialize_actor. */
  lemma ActorRoundTrip(a: NetActor, classes: map<(string, string), map<string, Value>>, uuid: string, uid: nat)
    requires a.name != ""
    ensures DeserializeActor(SerializeActor(a), classes, uuid, uid).Ok?
    ensures var b := DeserializeActor(SerializeActor(a), classes, uuid, uid).value;
      b.id == a.id && b.name == a.name && b.active == a.active && b.enabled == a.enabled && b.tags == a.tags
      && b.position == a.position && b.rotation == a.rotation && b.scale == a.scale
  {
    var d := SerializeActor(a);
    var t := StrList(a.tags);
    assert Field(d, "tags") == Ok(t);
    StrItemsOfStrList(a.tags);
    var tr := d.entries["transform"];
    assert VecField(tr, "local_position") == Ok(a.position);
    assert VecField(tr, "local_scale") == Ok(a.scale);
  }

  /**
   * A component whose class the receiver knows comes back with its type,
   * its enabled flag, and every sent attribute that a fresh instance has.
   */
  lemma ComponentRoundTrip(c: Comp, classes: map<(string, string), map<string, Value>>, uid: nat, k: string)
    requires ClassKey(c.cmodule, c.ctype) in classes
    requires k in classes[ClassKey(c.cmodule, c.ctype)] && k in c.attrs && TypePlain(c.attrs[k])
    ensures DeserializeComponent(SerializeComponent(c), classes, uid).Some?
    ensures var r := DeserializeComponent(SerializeComponent(c), classes, uid).value;
      r.ctype == c.ctype && r.cmodule == c.cmodule && r.enabled == c.enabled
      && (k in SerializeForNetwork(c.attrs) ==> r.attrs[k] == c.attrs[k])
  {
    SyncReplicates(c.attrs, classes[ClassKey(c.cmodule, c.ctype)], k);
  }
}
