/**
 * The actor model of engine/core/actor.py (engine/actor.py is the same
 * code without the network helpers): actors in a parent/child hierarchy,
 * one component per concrete type kept in a dict and a list, a tag list,
 * and the `__type__`-tagged value codec components use on the network.
 */
module CoreActor {
  import opened Wrappers
  import opened Values
  import opened Hierarchy
  import Naming

  // ---------------------------------------------------------------------
  // The `__type__`-tagged value codec of Component

  /** Component._serialize_value_for_network. */
  function EncodeT(v: Value): Value
  {
    match v
    case VNone => VNone
    case VBool(_) => v
    case VInt(_) => v
    case VFloat(_) => v
    case VStr(_) => v
    case VVec2(x, y) => VDict(map["__type__" := VStr("Vector2"), "x" := VFloat(x), "y" := VFloat(y)])
    case VColor(r, g, b, a) =>
      VDict(map["__type__" := VStr("Color"), "r" := VInt(r), "g" := VInt(g), "b" := VInt(b), "a" := VInt(a)])
    case VRect(x, y, w, h) =>
      VDict(map["__type__" := VStr("Rect"), "x" := VInt(x), "y" := VInt(y), "width" := VInt(w), "height" := VInt(h)])
    case VList(items) => VList(seq(|items|, i requires 0 <= i < |items| => EncodeT(items[i])))
    case VTuple(elems) => VList(seq(|elems|, i requires 0 <= i < |elems| => EncodeT(elems[i])))
    case VDict(m) => VDict(map k | k in m :: EncodeT(m[k]))
    case VObject(_, attrs) =>
      var d := map k | k in attrs && !IsPrivate(k) && EncodeT(attrs[k]) != VNone :: EncodeT(attrs[k]);
      if d == map[] then VNone else VDict(d)
    // a function's __dict__ is empty, so it encodes to None
    case VCallable(_) => VNone
    // json.dumps refuses it
    case VOpaque(_) => VNone
  }

  predicate IsIntKey(m: map<string, Value>, k: string)
  {
    k in m && IsIntLike(m[k])
  }

  /**
   * The tagged branch of Component._deserialize_value_from_network.
   * None means the decoder raises (a missing key, or pygame refusing the
   * arguments); Some(VNone) is Python's None, returned for an unknown tag.
   */
  function DecodeTagged(m: map<string, Value>): (r: Option<Value>)
    requires "__type__" in m
    ensures r.Some? && r.value.VVec2? ==> m["__type__"] == VStr("Vector2")
    ensures r.Some? && r.value.VColor? ==> m["__type__"] == VStr("Color") && WellFormed(r.value)
    ensures r.Some? && r.value.VRect? ==> m["__type__"] == VStr("Rect")
    ensures m["__type__"] !in {VStr("Vector2"), VStr("Color"), VStr("Rect")} ==> r == Some(VNone)
  {
    var t := m["__type__"];
    if t == VStr("Vector2") then
      if "x" in m && "y" in m && IsNumber(m["x"]) && IsNumber(m["y"]) then Some(VVec2(AsReal(m["x"]), AsReal(m["y"])))
      else None
    else if t == VStr("Color") then
      if IsIntKey(m, "r") && IsIntKey(m, "g") && IsIntKey(m, "b") && IsIntKey(m, "a")
        && IsByte(AsInt(m["r"])) && IsByte(AsInt(m["g"])) && IsByte(AsInt(m["b"])) && IsByte(AsInt(m["a"]))
      then Some(VColor(AsInt(m["r"]), AsInt(m["g"]), AsInt(m["b"]), AsInt(m["a"])))
      else None
    else if t == VStr("Rect") then
      if IsIntKey(m, "x") && IsIntKey(m, "y") && IsIntKey(m, "width") && IsIntKey(m, "height")
      then Some(VRect(AsInt(m["x"]), AsInt(m["y"]), AsInt(m["width"]), AsInt(m["height"])))
      else None
    else Some(VNone)
  }

  /** Component._deserialize_value_from_network; None means it raises. */
  function DecodeT(v: Value): Option<Value>
  {
    match v
    case VDict(m) =>
      if "__type__" in m then DecodeTagged(m)
      else if forall k :: k in m ==> DecodeT(m[k]).Some? then Some(VDict(map k | k in m :: DecodeT(m[k]).value))
      else None
    case VList(items) =>
      if forall i :: 0 <= i < |items| ==> DecodeT(items[i]).Some? then
        Some(VList(seq(|items|, i requires 0 <= i < |items| => DecodeT(items[i]).value)))
      else None
    case _ => Some(v)
  }

  /**
   * The values the tagged codec carries faithfully: no tuples, objects,
   * callables or opaque objects, well-formed colours, and no dict that
   * already has a "__type__" key.
   */
  predicate TypePlain(v: Value)
  {
    match v
    case VTuple(_) => false
    case VObject(_, _) => false
    case VCallable(_) => false
    case VOpaque(_) => false
    case VColor(r, g, b, a) => IsByte(r) && IsByte(g) && IsByte(b) && IsByte(a)
    case VList(items) => forall i :: 0 <= i < |items| ==> TypePlain(items[i])
    case VDict(m) => "__type__" !in m && forall k :: k in m ==> TypePlain(m[k])
    case _ => true
  }

  /** Whatever the attribute holds, the encoding is something json can carry. */
  lemma {:induction false} EncodeTIsJson(v: Value)
    ensures IsJson(EncodeT(v))
  {
    match v
    case VList(items) =>
      forall i | 0 <= i < |items| ensures IsJson(EncodeT(items[i])) { EncodeTIsJson(items[i]); }
    case VTuple(elems) =>
      forall i | 0 <= i < |elems| ensures IsJson(EncodeT(elems[i])) { EncodeTIsJson(elems[i]); }
    case VDict(m) =>
      forall k | k in m ensures IsJson(EncodeT(m[k])) { EncodeTIsJson(m[k]); }
    case VObject(_, attrs) =>
      forall k | k in attrs ensures IsJson(EncodeT(attrs[k])) { EncodeTIsJson(attrs[k]); }
    case _ =>
  }

  /** Decoding the tagged encoding gives the value back. */
  lemma {:induction false} DecodeEncodeT(v: Value)
    requires TypePlain(v)
    ensures DecodeT(EncodeT(v)) == Some(v)
  {
    match v
    case VVec2(x, y) => DecodeEncodeVec2(x, y);
    case VColor(r, g, b, a) => DecodeEncodeColor(r, g, b, a);
    case VRect(x, y, w, h) => DecodeEncodeRect(x, y, w, h);
    case VList(items) =>
      forall i | 0 <= i < |items| ensures DecodeT(EncodeT(items[i])) == Some(items[i]) { DecodeEncodeT(items[i]); }
      DecodeEncodeList(items);
    case VDict(m) =>
      forall k | k in m ensures DecodeT(EncodeT(m[k])) == Some(m[k]) { DecodeEncodeT(m[k]); }
      DecodeEncodeDict(m);
    case _ =>
  }

  // The geometric values come back from their tagged dicts.

  lemma DecodeEncodeVec2(x: real, y: real)
    ensures DecodeT(EncodeT(VVec2(x, y))) == Some(VVec2(x, y))
  {
    var m := map["__type__" := VStr("Vector2"), "x" := VFloat(x), "y" := VFloat(y)];
    assert EncodeT(VVec2(x, y)) == VDict(m);
    assert DecodeT(VDict(m)) == DecodeTagged(m);
  }

  lemma DecodeEncodeColor(r: int, g: int, b: int, a: int)
    requires IsByte(r) && IsByte(g) && IsByte(b) && IsByte(a)
    ensures DecodeT(EncodeT(VColor(r, g, b, a))) == Some(VColor(r, g, b, a))
  {
    var m := map["__type__" := VStr("Color"), "r" := VInt(r), "g" := VInt(g), "b" := VInt(b), "a" := VInt(a)];
    assert EncodeT(VColor(r, g, b, a)) == VDict(m);
    assert DecodeT(VDict(m)) == DecodeTagged(m);
  }

  lemma DecodeEncodeRect(x: int, y: int, w: int, h: int)
    ensures DecodeT(EncodeT(VRect(x, y, w, h))) == Some(VRect(x, y, w, h))
  {
    var m := map["__type__" := VStr("Rect"), "x" := VInt(x), "y" := VInt(y), "width" := VInt(w), "height" := VInt(h)];
    assert EncodeT(VRect(x, y, w, h)) == VDict(m);
    assert DecodeT(VDict(m)) == DecodeTagged(m);
  }

  /** The list step of DecodeEncodeT, given the items' own round trips. */
  lemma DecodeEncodeList(items: seq<Value>)
    requires forall i :: 0 <= i < |items| ==> DecodeT(EncodeT(items[i])) == Some(items[i])
    ensures DecodeT(EncodeT(VList(items))) == Some(VList(items))
  {
    var e := seq(|items|, i requires 0 <= i < |items| => EncodeT(items[i]));
    assert EncodeT(VList(items)) == VList(e);
    assert forall i :: 0 <= i < |e| ==> DecodeT(e[i]) == Some(items[i]);
    assert seq(|e|, i requires 0 <= i < |e| => DecodeT(e[i]).value) == items;
  }

  /** The dict step of DecodeEncodeT, given the values' own round trips. */
  lemma DecodeEncodeDict(m: map<string, Value>)
    requires "__type__" !in m
    requires forall k :: k in m ==> DecodeT(EncodeT(m[k])) == Some(m[k])
    ensures DecodeT(EncodeT(VDict(m))) == Some(VDict(m))
  {
    var e := map k | k in m :: EncodeT(m[k]);
    assert EncodeT(VDict(m)) == VDict(e);
    assert "__type__" !in e;
    assert forall k :: k in e ==> DecodeT(e[k]) == Some(m[k]);
    assert forall k :: k in e ==> DecodeT(e[k]).Some?;
    var d := map k | k in e :: DecodeT(e[k]).value;
    assert DecodeT(VDict(e)) == Some(VDict(d));
    assert d == m;
  }

  /** A tuple survives the trip as a list. */
  lemma TupleComesBackAsList(elems: seq<Value>)
    requires forall i :: 0 <= i < |elems| ==> TypePlain(elems[i])
    ensures DecodeT(EncodeT(VTuple(elems))) == Some(VList(elems))
  {
    DecodeEncodeT(VList(elems));
    assert EncodeT(VTuple(elems)) == EncodeT(VList(elems));
  }

  /** A user dict that happens to carry an unknown "__type__" comes back as None. */
  lemma UserTypeKeyIsMisread()
    ensures DecodeT(EncodeT(VDict(map["__type__" := VStr("Spell")]))) == Some(VNone)
  {
    var m := map["__type__" := VStr("Spell")];
    assert (map k | k in m :: EncodeT(m[k])) == m;
  }

  // ---------------------------------------------------------------------
  // Component.serialize_for_network / deserialize_from_network

  /** The attribute names the default network serialization never sends. */
  predicate Skipped(k: string)
  {
    IsPrivate(k) || k == "actor"
  }

  /** Public attributes other than `actor`, encoded, minus those that encode to None. */
  function SerializeForNetwork(attrs: map<string, Value>): (r: map<string, Value>)
    ensures forall k :: k in r ==> k in attrs && !Skipped(k) && r[k] != VNone && IsJson(r[k])
    ensures forall k :: k in attrs && !Skipped(k) && EncodeT(attrs[k]) != VNone ==> k in r
  {
    var r := map k | k in attrs && !Skipped(k) && EncodeT(attrs[k]) != VNone :: EncodeT(attrs[k]);
    assert forall k :: k in r ==> IsJson(r[k]) by {
      forall k | k in r ensures IsJson(r[k]) { EncodeTIsJson(attrs[k]); }
    }
    r
  }

  /**
   * Set every received, existing, public, non-`actor` attribute to its
   * decoded value; a value whose decoding raises is skipped.
   */
  function DeserializeFromNetwork(attrs: map<string, Value>, data: map<string, Value>): (r: map<string, Value>)
    ensures r.Keys == attrs.Keys
    ensures forall k :: k in attrs && (k !in data || Skipped(k)) ==> r[k] == attrs[k]
  {
    map k | k in attrs :: if k in data && !Skipped(k) && DecodeT(data[k]).Some? then DecodeT(data[k]).value else attrs[k]
  }

  /**
   * A replica that applies the owner's serialization ends up holding the
   * owner's value for every attribute that was sent; the rest are untouched.
   */
  lemma SyncReplicates(src: map<string, Value>, dst: map<string, Value>, k: string)
    requires k in dst && k in src && TypePlain(src[k])
    ensures k in SerializeForNetwork(src) ==> DeserializeFromNetwork(dst, SerializeForNetwork(src))[k] == src[k]
    ensures k !in SerializeForNetwork(src) ==> DeserializeFromNetwork(dst, SerializeForNetwork(src))[k] == dst[k]
  {
    if k in SerializeForNetwork(src) {
      DecodeEncodeT(src[k]);
    }
  }

  // ---------------------------------------------------------------------
  // One component per concrete type: the `components` dict and `component_list`

  /** A component: its identity, its class name and module, whether it is enabled, and its attributes. */
  datatype Comp = Comp(uid: nat, ctype: string, cmodule: string, enabled: bool, attrs: map<string, Value>)

  datatype Components = Components(byType: map<string, Comp>, list: seq<Comp>)

  /** The dict and the list hold the same components, one per type. */
  ghost predicate InSync(cs: Components)
  {
    NoDup(cs.list)
    && (forall i :: 0 <= i < |cs.list| ==> cs.list[i].ctype in cs.byType && cs.byType[cs.list[i].ctype] == cs.list[i])
    && (forall t :: t in cs.byType ==> cs.byType[t].ctype == t && cs.byType[t] in cs.list)
  }

  function NoComponents(): (cs: Components)
    ensures InSync(cs) && cs.byType == map[] && cs.list == []
  {
    Components(map[], [])
  }

  /** Actor.remove_component: the removed component, or None. */
  function DeleteComponent(cs: Components, t: string): (r: (Components, Option<Comp>))
    requires InSync(cs)
    ensures InSync(r.0)
    ensures t !in r.0.byType && forall c :: c in r.0.list ==> c.ctype != t
    ensures r.1 == (if t in cs.byType then Some(cs.byType[t]) else None)
    ensures r.1.Some? ==> r.1.value !in r.0.list && |r.0.list| == |cs.list| - 1
    ensures r.1.None? ==> r.0 == cs
    ensures forall u :: u != t ==> (u in r.0.byType <==> u in cs.byType) && (u in cs.byType ==> r.0.byType[u] == cs.byType[u])
    ensures forall c :: c in r.0.list <==> c in cs.list && c.ctype != t
  {
    if t in cs.byType then
      var c := cs.byType[t];
      var rest := RemoveFirst(cs.list, c);
      var r := Components(cs.byType - {t}, rest);
      assert forall i :: 0 <= i < |rest| ==> rest[i] in cs.list && rest[i] != c;
      assert forall x :: x in cs.list && x.ctype == t ==> x == c;
      (r, Some(c))
    else
      assert forall x :: x in cs.list ==> x.ctype in cs.byType;
      (cs, None)
  }

  /** Actor.add_component: a component of the same type is removed first. */
  function InsertComponent(cs: Components, c: Comp): (r: Components)
    requires InSync(cs)
    ensures InSync(r)
    ensures c.ctype in r.byType && r.byType[c.ctype] == c
    ensures forall x :: x in r.list && x.ctype == c.ctype ==> x == c
    ensures r.list == DeleteComponent(cs, c.ctype).0.list + [c]
    ensures forall u :: u != c.ctype ==> (u in r.byType <==> u in cs.byType) && (u in cs.byType ==> r.byType[u] == cs.byType[u])
  {
    var rest := DeleteComponent(cs, c.ctype).0;
    var r := Components(rest.byType[c.ctype := c], rest.list + [c]);
    assert c !in rest.list;
    assert NoDup(r.list) by {
      forall i, j | 0 <= i < j < |r.list| ensures r.list[i] != r.list[j] {
        if j == |r.list| - 1 { assert r.list[i] in rest.list; }
      }
    }
    assert forall i :: 0 <= i < |r.list| - 1 ==> r.list[i] == rest.list[i];
    r
  }

  /** Actor.get_component: the dict lookup. */
  function LookupComponent(cs: Components, t: string): (r: Option<Comp>)
    requires InSync(cs)
    ensures r.Some? <==> exists c :: c in cs.list && c.ctype == t
    ensures r.Some? ==> r.value in cs.list && r.value.ctype == t
  {
    if t in cs.byType then Some(cs.byType[t])
    else
      assert forall c :: c in cs.list ==> c.ctype in cs.byType;
      None
  }

  /** After add_component(c), c is the component of its type, whatever was there. */
  lemma AddThenGet(cs: Components, c: Comp)
    requires InSync(cs)
    ensures LookupComponent(InsertComponent(cs, c), c.ctype) == Some(c)
    ensures DeleteComponent(InsertComponent(cs, c), c.ctype).1 == Some(c)
  {
  }

  // ---------------------------------------------------------------------
  // Tags

  /** Actor.add_tag: append unless present. */
  function InsertTag(tags: seq<string>, t: string): (r: seq<string>)
    ensures forall s :: s in r <==> s in tags || s == t
    ensures NoDup(tags) ==> NoDup(r)
  {
    if t in tags then tags
    else
      var r := tags + [t];
      assert NoDup(tags) ==> NoDup(r) by {
        if NoDup(tags) {
          forall i, j | 0 <= i < j < |r| ensures r[i] != r[j] {
            if j == |tags| { assert r[i] in tags; }
          }
        }
      }
      r
  }

  /** Actor.remove_tag: remove only a present tag. */
  function DeleteTag(tags: seq<string>, t: string): (r: seq<string>)
    requires NoDup(tags)
    ensures NoDup(r)
    ensures forall s :: s in r <==> s in tags && s != t
  {
    RemoveFirst(tags, t)
  }

  // ---------------------------------------------------------------------
  // Transform

  datatype Vec = Vec(x: real, y: real)

  /** The fields of a Transform, as one value. */
  datatype TransformData = TransformData(
    localPosition: Vec, localRotation: real, localScale: Vec,
    worldPosition: Vec, worldRotation: real, worldScale: Vec, dirty: bool)

  /** What calculate_world_transform does to a transform whose actor has no parent. */
  function CalculateWorldWithoutParent(t: TransformData): (r: TransformData)
    ensures !r.dirty
    ensures r.localPosition == t.localPosition && r.localRotation == t.localRotation && r.localScale == t.localScale
    ensures t.dirty ==> r.worldPosition == t.localPosition && r.worldRotation == t.localRotation && r.worldScale == t.localScale
    ensures !t.dirty ==> r == t
  {
    if !t.dirty then t
    else t.(worldPosition := t.localPosition, worldRotation := t.localRotation, worldScale := t.localScale, dirty := false)
  }

  /** Recalculating a clean transform changes nothing. */
  lemma CalculateWorldIdempotent(t: TransformData)
    ensures CalculateWorldWithoutParent(CalculateWorldWithoutParent(t)) == CalculateWorldWithoutParent(t)
  {
  }

  class Transform {
    var localPosition: Vec
    var localRotation: real
    var localScale: Vec
    var worldPosition: Vec
    var worldRotation: real
    var worldScale: Vec
    var dirty: bool

    function Snapshot(): TransformData
      reads this
    {
      TransformData(localPosition, localRotation, localScale, worldPosition, worldRotation, worldScale, dirty)
    }

    /** Transform(position, rotation, scale): world = local, and dirty. */
    constructor (position: Vec, rotation: real, scale: Vec)
      ensures Snapshot() == TransformData(position, rotation, scale, position, rotation, scale, true)
    {
      localPosition, localRotation, localScale := position, rotation, scale;
      worldPosition, worldRotation, worldScale := position, rotation, scale;
      dirty := true;
    }

    method MarkDirty()
      modifies this
      ensures Snapshot() == old(Snapshot()).(dirty := true)
    {
      dirty := true;
    }

    /** calculate_world_transform() without a parent transform. */
    method CalculateWorldTransform()
      modifies this
      ensures Snapshot() == CalculateWorldWithoutParent(old(Snapshot()))
    {
      if !dirty {
        return;
      }
      worldPosition := localPosition;
      worldRotation := localRotation;
      worldScale := localScale;
      dirty := false;
    }
  }

  // ---------------------------------------------------------------------
  // Actors

  function Min(a: int, b: int): int
  {
    if a <= b then a else b
  }

  /** What an actor holds besides its place in the hierarchy. */
  datatype ActorState = ActorState(name: string, comps: Components, tags: seq<string>, active: bool)

  ghost predicate ActorOk(s: ActorState)
  {
    InSync(s.comps) && NoDup(s.tags)
  }

  /** What destroy() leaves of an actor: its name and tags. */
  function Wipe(s: ActorState): (r: ActorState)
    ensures r.name == s.name && r.tags == s.tags && r.comps.list == [] && !r.active
    ensures ActorOk(s) ==> ActorOk(r)
  {
    s.(comps := NoComponents(), active := false)
  }

  /** The state of a destroyed actor: no components, inactive. */
  predicate Wiped(s: ActorState)
  {
    s.comps == NoComponents() && !s.active
  }

  /**
   * Tagged descendants in the order find_children_with_tag lists them:
   * for each child, the child itself when tagged, then its own tagged
   * descendants. The fuel bounds the depth of the walk.
   */
  ghost function TaggedAmong(kids: seq<Id>, tag: string, actors: map<Id, ActorState>, children: map<Id, seq<Id>>, fuel: nat): seq<Id>
    decreases fuel, |kids|
  {
    if |kids| == 0 || fuel == 0 then []
    else
      var last := kids[|kids| - 1];
      TaggedAmong(kids[..|kids| - 1], tag, actors, children, fuel)
      + (if last in actors && tag in actors[last].tags then [last] else [])
      + (if last in children then TaggedAmong(children[last], tag, actors, children, fuel - 1) else [])
  }

  /** Everything find_children_with_tag returns is tagged, and tagged children are found. */
  lemma {:induction false} TaggedAmongIsTagged(kids: seq<Id>, tag: string, actors: map<Id, ActorState>, children: map<Id, seq<Id>>, fuel: nat)
    ensures forall x :: x in TaggedAmong(kids, tag, actors, children, fuel) ==> x in actors && tag in actors[x].tags
    ensures fuel > 0 ==> forall x :: x in kids && x in actors && tag in actors[x].tags ==> x in TaggedAmong(kids, tag, actors, children, fuel)
    decreases fuel, |kids|
  {
    if |kids| > 0 && fuel > 0 {
      var last := kids[|kids| - 1];
      TaggedAmongIsTagged(kids[..|kids| - 1], tag, actors, children, fuel);
      if last in children {
        TaggedAmongIsTagged(children[last], tag, actors, children, fuel - 1);
      }
      assert forall x :: x in kids ==> x in kids[..|kids| - 1] || x == last;
    }
  }

  /** x lies under one of kids, at most `depth` levels down (the kids themselves are level 1). */
  ghost predicate Below(kids: seq<Id>, children: map<Id, seq<Id>>, x: Id, depth: nat)
    decreases depth
  {
    depth > 0 && exists c :: c in kids && (c == x || (c in children && Below(children[c], children, x, depth - 1)))
  }

  /** No actor lies deeper than `depth` levels under kids. */
  ghost predicate ShallowerThan(kids: seq<Id>, children: map<Id, seq<Id>>, depth: nat)
  {
    forall x, d: nat :: Below(kids, children, x, d) ==> Below(kids, children, x, depth)
  }

  /**
   * The walk of find_children_with_tag, cut at `fuel` levels, returns
   * exactly the tagged actors that lie within those levels, at any depth
   * and not only among the direct children.
   */
  lemma {:induction false} TaggedAmongExactly(kids: seq<Id>, tag: string, actors: map<Id, ActorState>, children: map<Id, seq<Id>>, fuel: nat, x: Id)
    ensures x in TaggedAmong(kids, tag, actors, children, fuel)
      <==> Below(kids, children, x, fuel) && x in actors && tag in actors[x].tags
    decreases fuel, |kids|
  {
    if |kids| > 0 && fuel > 0 {
      var init, last := kids[..|kids| - 1], kids[|kids| - 1];
      TaggedAmongExactly(init, tag, actors, children, fuel, x);
      if last in children {
        TaggedAmongExactly(children[last], tag, actors, children, fuel - 1, x);
      }
      BelowSplit(kids, children, x, fuel);
    }
  }

  /** Below over a list splits into the list without its last child and that child's own subtree. */
  lemma BelowSplit(kids: seq<Id>, children: map<Id, seq<Id>>, x: Id, depth: nat)
    requires |kids| > 0 && depth > 0
    ensures var last := kids[|kids| - 1];
      Below(kids, children, x, depth)
      <==> Below(kids[..|kids| - 1], children, x, depth) || last == x || (last in children && Below(children[last], children, x, depth - 1))
  {
    var init, last := kids[..|kids| - 1], kids[|kids| - 1];
    if Below(kids, children, x, depth) {
      var c :| c in kids && (c == x || (c in children && Below(children[c], children, x, depth - 1)));
      if c != last {
        assert c in init;
      }
    }
    if Below(init, children, x, depth) {
      var c :| c in init && (c == x || (c in children && Below(children[c], children, x, depth - 1)));
      assert c in kids;
    }
    assert last in kids;
  }

  /**
   * When the fuel covers the whole subtree, the walk finds every tagged
   * descendant, however deep, and nothing else.
   */
  lemma FindsAllTaggedDescendants(kids: seq<Id>, tag: string, actors: map<Id, ActorState>, children: map<Id, seq<Id>>, fuel: nat, x: Id, d: nat)
    requires ShallowerThan(kids, children, fuel)
    requires Below(kids, children, x, d) && x in actors && tag in actors[x].tags
    ensures x in TaggedAmong(kids, tag, actors, children, fuel)
  {
    TaggedAmongExactly(kids, tag, actors, children, fuel, x);
  }

  // What destroy() does to the hierarchy, stated over the parent map
  // before (P0) and after (P1). A node is "lost" when it had a parent
  // before and has none after.

  /**
   * x ends without a parent, links are only ever removed, and every lost
   * node other than x was a child of x or of another lost node: only x's
   * subtree is taken apart.
   */
  ghost predicate Pruned(P0: map<Id, Id>, P1: map<Id, Id>, x: Id)
  {
    x !in P1 && P1.Keys <= P0.Keys
    && (forall w :: w in P1 ==> P1[w] == P0[w])
    && (forall w :: w in P0 && w !in P1 ==> w == x || P0[w] == x || (P0[w] in P0 && P0[w] !in P1))
  }

  /** Every lost node is destroyed: no children, no components, inactive. */
  ghost predicate ClearedLost(P0: map<Id, Id>, P1: map<Id, Id>, C1: map<Id, seq<Id>>, A1: map<Id, ActorState>)
  {
    forall w :: w in P0 && w !in P1 ==> w in C1 && C1[w] == [] && w in A1 && Wiped(A1[w])
  }

  /** The destroyed actor itself, once detached, is cleared. */
  lemma LostIsCleared(P0: map<Id, Id>, P1: map<Id, Id>, C1: map<Id, seq<Id>>, A1: map<Id, ActorState>, x: Id)
    requires x in P0 && Pruned(P0, P1, x) && ClearedLost(P0, P1, C1, A1)
    ensures x !in P1 && x in C1 && C1[x] == [] && x in A1 && Wiped(A1[x])
  {
  }

  /** Every node other than x that is not lost keeps its state and its children (C0). */
  ghost predicate Kept(nodes: set<Id>, P0: map<Id, Id>, P1: map<Id, Id>, C0: map<Id, seq<Id>>, C1: map<Id, seq<Id>>,
                       A0: map<Id, ActorState>, A1: map<Id, ActorState>, x: Id)
  {
    forall n :: n in nodes && n != x && !(n in P0 && n !in P1) ==>
      n in A0 && n in A1 && A1[n] == A0[n] && n in C0 && n in C1 && C1[n] == C0[n]
  }

  /** Names and tags survive destroy(). */
  ghost predicate SameLabels(A0: map<Id, ActorState>, A1: map<Id, ActorState>)
  {
    A1.Keys == A0.Keys && forall n :: n in A0 ==> A1[n].name == A0[n].name && A1[n].tags == A0[n].tags
  }

  // One turn of the loop over x's children: child c of x has been
  // destroyed, taking the state from (P1, C1, A1) to (P2, C2, A2).

  lemma PrunedStep(x: Id, c: Id, P0: map<Id, Id>, P1: map<Id, Id>, P2: map<Id, Id>)
    requires Pruned(P0, P1, x) && c in P1 && P1[c] == x && Pruned(P1, P2, c)
    ensures Pruned(P0, P2, x)
  {
    forall w | w in P0 && w !in P2
      ensures w == x || P0[w] == x || (P0[w] in P0 && P0[w] !in P2)
    {
      if w in P1 {
        assert P1[w] == P0[w];
        if w != c && P1[w] != c {
          assert P1[w] in P1 && P1[w] !in P2;
        }
      }
    }
  }

  lemma ClearedStep(nodes: set<Id>, x: Id, c: Id,
                    P0: map<Id, Id>, P1: map<Id, Id>, C1: map<Id, seq<Id>>, A1: map<Id, ActorState>,
                    P2: map<Id, Id>, C2: map<Id, seq<Id>>, A2: map<Id, ActorState>)
    requires P0.Keys <= nodes && x !in P0 && P2.Keys <= P1.Keys && c in P1 && P1[c] == x
    requires ClearedLost(P0, P1, C1, A1) && ClearedLost(P1, P2, C2, A2)
    requires Kept(nodes, P1, P2, Detached(C1, P1, c), C2, A1, A2, c)
    ensures ClearedLost(P0, P2, C2, A2)
  {
    forall w | w in P0 && w !in P2
      ensures w in C2 && C2[w] == [] && w in A2 && Wiped(A2[w])
    {
      if w !in P1 {
        assert w != c && w != x && w in nodes;
        assert Detached(C1, P1, c)[w] == C1[w];
      }
    }
  }

  lemma KeptStep(nodes: set<Id>, x: Id, c: Id,
                 P0: map<Id, Id>, C0: map<Id, seq<Id>>, A0: map<Id, ActorState>,
                 P1: map<Id, Id>, C1: map<Id, seq<Id>>, A1: map<Id, ActorState>,
                 P2: map<Id, Id>, C2: map<Id, seq<Id>>, A2: map<Id, ActorState>)
    requires P1.Keys <= P0.Keys && P2.Keys <= P1.Keys && c in P1 && P1[c] == x && c !in P2
    requires Kept(nodes, P0, P1, C0, C1, A0, A1, x)
    requires Kept(nodes, P1, P2, Detached(C1, P1, c), C2, A1, A2, c)
    ensures Kept(nodes, P0, P2, C0, C2, A0, A2, x)
  {
    forall n | n in nodes && n != x && !(n in P0 && n !in P2)
      ensures n in A0 && n in A2 && A2[n] == A0[n] && n in C0 && n in C2 && C2[n] == C0[n]
    {
      assert !(n in P0 && n !in P1);
      assert n != c;
      assert !(n in P1 && n !in P2);
      assert Detached(C1, P1, c)[n] == C1[n];
    }
  }

  /** The siblings still waiting in the loop keep x as their parent, and x's list loses c. */
  lemma RestStep(nodes: set<Id>, x: Id, c: Id, rest: seq<Id>,
                 P1: map<Id, Id>, C1: map<Id, seq<Id>>, A1: map<Id, ActorState>,
                 P2: map<Id, Id>, C2: map<Id, seq<Id>>, A2: map<Id, ActorState>)
    requires x in nodes && x !in P1 && x in C1 && C1[x] == [c] + rest && c !in rest
    requires c in P1 && P1[c] == x && forall w :: w in rest ==> w in P1 && P1[w] == x
    requires Pruned(P1, P2, c) && Kept(nodes, P1, P2, Detached(C1, P1, c), C2, A1, A2, c)
    ensures forall w :: w in rest ==> w in P2 && P2[w] == x
    ensures x in C2 && C2[x] == rest && x in A1 && x in A2 && A2[x] == A1[x]
  {
    forall w | w in rest
      ensures w in P2 && P2[w] == x
    {
      assert w != c;
    }
    assert Detached(C1, P1, c)[x] == rest;
  }

  /** Every listed child of x, the first one and the rest, has x as its parent. */
  lemma ChildrenKnowParent(nodes: set<Id>, P: map<Id, Id>, C: map<Id, seq<Id>>, x: Id, c: Id, rest: seq<Id>)
    requires Linked(nodes, P, C) && x in C && C[x] == [c] + rest
    ensures c in P && P[c] == x && forall w :: w in rest ==> w in P && P[w] == x
  {
    assert c in C[x];
    forall w | w in rest ensures w in P && P[w] == x {
      assert w in C[x];
    }
  }

  /** Wiping the root itself disturbs none of the other facts. */
  lemma WipeKeeps(nodes: set<Id>, x: Id, P0: map<Id, Id>, C0: map<Id, seq<Id>>, A0: map<Id, ActorState>,
                  P1: map<Id, Id>, C1: map<Id, seq<Id>>, A1: map<Id, ActorState>)
    requires x !in P0 && x in A1 && SameLabels(A0, A1)
    requires ClearedLost(P0, P1, C1, A1) && Kept(nodes, P0, P1, C0, C1, A0, A1, x)
    ensures SameLabels(A0, A1[x := Wipe(A1[x])]) && Wiped(A1[x := Wipe(A1[x])][x])
    ensures ClearedLost(P0, P1, C1, A1[x := Wipe(A1[x])]) && Kept(nodes, P0, P1, C0, C1, A0, A1[x := Wipe(A1[x])], x)
  {
  }

  /** destroy() on an attached actor: detach from the parent, then destroy the rest. */
  lemma DestroyAttachedStep(nodes: set<Id>, y: Id,
                            P0: map<Id, Id>, A0: map<Id, ActorState>,
                            C1: map<Id, seq<Id>>,
                            P2: map<Id, Id>, C2: map<Id, seq<Id>>, A2: map<Id, ActorState>)
    requires y in P0
    requires Pruned(P0 - {y}, P2, y) && ClearedLost(P0 - {y}, P2, C2, A2) && Kept(nodes, P0 - {y}, P2, C1, C2, A0, A2, y)
    requires y in C2 && C2[y] == [] && y in A2 && Wiped(A2[y])
    ensures Pruned(P0, P2, y) && ClearedLost(P0, P2, C2, A2) && Kept(nodes, P0, P2, C1, C2, A0, A2, y)
  {
    var P1 := P0 - {y};
    forall w | w in P0 && w !in P2
      ensures w == y || P0[w] == y || (P0[w] in P0 && P0[w] !in P2)
    {
      if w != y {
        assert w in P1 && P1[w] == P0[w];
      }
    }
  }

  class World {
    const tree: Forest
    var actors: map<Id, ActorState>

    ghost predicate Valid()
      reads this, tree
    {
      tree.Valid() && actors.Keys == tree.nodes && forall a :: a in actors ==> ActorOk(actors[a])
    }

    constructor ()
      ensures Valid() && fresh(tree) && tree.nodes == {}
    {
      tree := new Forest();
      actors := map[];
    }

    /** Actor(name): no parent, no children, no components, no tags, active. */
    method NewActor(a: Id, name: string, uuid: string)
      requires Valid() && a !in tree.nodes
      modifies this, tree
      ensures Valid()
      ensures tree.nodes == old(tree.nodes) + {a} && tree.parent == old(tree.parent) && tree.children == old(tree.children)[a := []]
      ensures actors == old(actors)[a := ActorState(if name != "" then name else "Actor_" + uuid[..Min(8, |uuid|)], NoComponents(), [], true)]
    {
      tree.AddNode(a);
      var s := ActorState(if name != "" then name else "Actor_" + uuid[..Min(8, |uuid|)], NoComponents(), [], true);
      assert ActorOk(s);
      actors := actors[a := s];
    }

    /** Actor.add_child: the child leaves its old parent and is appended to p's list. */
    method AddChild(p: Id, c: Id)
      requires Valid() && p in tree.nodes && c in tree.nodes
      modifies tree
      ensures Valid()
      ensures tree.nodes == old(tree.nodes)
      ensures (tree.parent, tree.children) == Adopted(old(tree.parent), old(tree.children), p, c)
      ensures forall q :: q in tree.nodes ==> (c in tree.children[q] <==> q == p)
    {
      tree.AddChild(p, c);
    }

    /** Actor.remove_child: only a current child loses its parent. */
    method RemoveChild(p: Id, c: Id)
      requires Valid() && p in tree.nodes
      modifies tree
      ensures Valid()
      ensures tree.nodes == old(tree.nodes)
      ensures c in old(tree.children[p]) ==> tree.parent == old(tree.parent) - {c} && tree.children == old(tree.children)[p := RemoveFirst(old(tree.children[p]), c)]
      ensures c !in old(tree.children[p]) ==> tree.parent == old(tree.parent) && tree.children == old(tree.children)
    {
      tree.RemoveChild(p, c);
    }

    /** Actor.find_child: the first child with that name. */
    method FindChild(p: Id, name: string) returns (r: Option<Id>)
      requires Valid() && p in tree.nodes
      ensures r.Some? ==> r.value in tree.children[p] && actors[r.value].name == name
      ensures r.Some? ==> forall j :: 0 <= j < |tree.children[p]| && tree.children[p][j] == r.value ==>
        forall k :: 0 <= k < j ==> actors[tree.children[p][k]].name != name
      ensures r.None? ==> forall c :: c in tree.children[p] ==> actors[c].name != name
    {
      var kids := tree.children[p];
      assert forall c :: c in kids ==> c in tree.nodes;
      for i := 0 to |kids|
        invariant forall k :: 0 <= k < i ==> actors[kids[k]].name != name
      {
        if actors[kids[i]].name == name {
          assert NoDup(kids);
          return Some(kids[i]);
        }
      }
      return None;
    }

    /** Actor.find_children_with_tag, each level one loop over the children. */
    method FindChildrenWithTag(a: Id, tag: string, fuel: nat) returns (result: seq<Id>)
      requires Valid() && a in tree.nodes
      ensures result == TaggedAmong(tree.children[a], tag, actors, tree.children, fuel)
      decreases fuel
    {
      result := [];
      if fuel == 0 {
        return;
      }
      var kids := tree.children[a];
      assert forall c :: c in kids ==> c in tree.nodes;
      for i := 0 to |kids|
        invariant result == TaggedAmong(kids[..i], tag, actors, tree.children, fuel)
      {
        var child := kids[i];
        if tag in actors[child].tags {
          result := result + [child];
        }
        var below := FindChildrenWithTag(child, tag, fuel - 1);
        result := result + below;
        assert kids[..i + 1][..i] == kids[..i];
      }
      assert kids[..|kids|] == kids;
    }

    method AddComponent(a: Id, c: Comp)
      requires Valid() && a in tree.nodes
      modifies this
      ensures Valid()
      ensures actors == old(actors)[a := old(actors[a]).(comps := InsertComponent(old(actors[a].comps), c))]
    {
      actors := actors[a := actors[a].(comps := InsertComponent(actors[a].comps, c))];
    }

    method RemoveComponent(a: Id, t: string) returns (removed: Option<Comp>)
      requires Valid() && a in tree.nodes
      modifies this
      ensures Valid()
      ensures actors == old(actors)[a := old(actors[a]).(comps := DeleteComponent(old(actors[a].comps), t).0)]
      ensures removed == DeleteComponent(old(actors[a].comps), t).1
    {
      var r := DeleteComponent(actors[a].comps, t);
      actors := actors[a := actors[a].(comps := r.0)];
      removed := r.1;
    }

    /** Actor.has_component: membership of the type in the dict. */
    function HasComponent(a: Id, t: string): (r: bool)
      reads this, tree
      requires Valid() && a in tree.nodes
      ensures r <==> exists c :: c in actors[a].comps.list && c.ctype == t
    {
      LookupComponent(actors[a].comps, t).Some?
    }

    method AddTag(a: Id, t: string)
      requires Valid() && a in tree.nodes
      modifies this
      ensures Valid()
      ensures actors == old(actors)[a := old(actors[a]).(tags := InsertTag(old(actors[a].tags), t))]
    {
      actors := actors[a := actors[a].(tags := InsertTag(actors[a].tags, t))];
    }

    method RemoveTag(a: Id, t: string)
      requires Valid() && a in tree.nodes
      modifies this
      ensures Valid()
      ensures actors == old(actors)[a := old(actors[a]).(tags := DeleteTag(old(actors[a].tags), t))]
    {
      actors := actors[a := actors[a].(tags := DeleteTag(actors[a].tags, t))];
    }

    /** Actor.has_tag: membership. */
    function HasTag(a: Id, t: string): (r: bool)
      reads this, tree
      requires Valid() && a in tree.nodes
      ensures r <==> t in actors[a].tags
    {
      t in actors[a].tags
    }

    /**
     * Actor.destroy: the actor leaves its parent, every descendant is
     * destroyed the same way, components are dropped and the actor is
     * deactivated; names and tags stay.
     */
    method Destroy(x: Id)
      requires Valid() && x in tree.nodes
      modifies this, tree
      ensures Valid() && tree.nodes == old(tree.nodes) && SameLabels(old(actors), actors)
      ensures x !in tree.parent && tree.children[x] == [] && Wiped(actors[x])
      ensures Pruned(old(tree.parent), tree.parent, x) && ClearedLost(old(tree.parent), tree.parent, tree.children, actors)
      ensures Kept(tree.nodes, old(tree.parent), tree.parent,
                   Detached(old(tree.children), old(tree.parent), x), tree.children, old(actors), actors, x)
    {
      if x in tree.parent {
        DestroyAttached(x);
        LostIsCleared(old(tree.parent), tree.parent, tree.children, actors, x);
      } else {
        DestroyChildren(x);
        Deactivate(x, old(tree.parent), old(tree.children), old(actors));
        assert Detached(old(tree.children), old(tree.parent), x) == old(tree.children);
      }
    }

    /** destroy() on an actor that still has a parent. */
    method DestroyAttached(y: Id)
      requires Valid() && y in tree.nodes && y in tree.parent
      modifies this, tree
      ensures Valid() && tree.nodes == old(tree.nodes) && SameLabels(old(actors), actors)
      ensures Pruned(old(tree.parent), tree.parent, y) && ClearedLost(old(tree.parent), tree.parent, tree.children, actors)
      ensures Kept(tree.nodes, old(tree.parent), tree.parent,
                   Detached(old(tree.children), old(tree.parent), y), tree.children, old(actors), actors, y)
      decreases |tree.parent.Keys|, 0
    {
      ghost var P0, A0 := tree.parent, actors;
      var p := tree.parent[y];
      tree.RemoveChild(p, y);
      ghost var C1 := tree.children;
      Naming.CardLe(tree.parent.Keys, P0.Keys);
      DestroyChildren(y);
      Deactivate(y, P0 - {y}, C1, A0);
      DestroyAttachedStep(tree.nodes, y, P0, A0, C1, tree.parent, tree.children, actors);
    }

    /** The loop of destroy() over the children of an actor that has no parent. */
    method DestroyChildren(x: Id)
      requires Valid() && x in tree.nodes && x !in tree.parent
      modifies this, tree
      ensures Valid() && tree.nodes == old(tree.nodes) && tree.children[x] == []
      ensures Unwinding(x, old(tree.parent), old(tree.children), old(actors))
      decreases |tree.parent.Keys|, 2
    {
      ghost var P0, C0, A0 := tree.parent, tree.children, actors;
      while tree.children[x] != []
        invariant Valid() && tree.nodes == old(tree.nodes) && Unwinding(x, P0, C0, A0)
        decreases |tree.children[x]|
      {
        Naming.CardLe(tree.parent.Keys, P0.Keys);
        DestroyChild(x, P0, C0, A0);
      }
    }

    /**
     * The state while destroy() works through x's children: everything
     * lost so far relative to (P0, C0, A0) is destroyed, and x itself is
     * untouched apart from its shrinking list of children.
     */
    ghost predicate Unwinding(x: Id, P0: map<Id, Id>, C0: map<Id, seq<Id>>, A0: map<Id, ActorState>)
      reads this, tree
    {
      x in tree.nodes && x in tree.children && x in actors && x in A0 && x !in P0
      && SameLabels(A0, actors) && x !in tree.parent && actors[x] == A0[x]
      && Pruned(P0, tree.parent, x) && ClearedLost(P0, tree.parent, tree.children, actors)
      && Kept(tree.nodes, P0, tree.parent, C0, tree.children, A0, actors, x)
    }

    /**
     * One turn of the loop over x's children: destroy the first child
     * still listed. Each child's destroy() takes it out of x's list, so
     * this visits the children in the order of the copy the loop walks.
     */
    method DestroyChild(x: Id, ghost P0: map<Id, Id>, ghost C0: map<Id, seq<Id>>, ghost A0: map<Id, ActorState>)
      requires Valid() && Unwinding(x, P0, C0, A0) && tree.children[x] != []
      modifies this, tree
      ensures Valid() && tree.nodes == old(tree.nodes) && Unwinding(x, P0, C0, A0)
      ensures tree.children[x] == old(tree.children[x])[1..]
      decreases |tree.parent.Keys|, 1
    {
      var child := tree.children[x][0];
      ghost var rest := tree.children[x][1..];
      ghost var P1, C1, A1 := tree.parent, tree.children, actors;
      NoDupTail(tree.children[x]);
      assert C1[x] == [child] + rest;
      ChildrenKnowParent(tree.nodes, P1, C1, x, child, rest);
      DestroyAttached(child);
      PrunedStep(x, child, P0, P1, tree.parent);
      ClearedStep(tree.nodes, x, child, P0, P1, C1, A1, tree.parent, tree.children, actors);
      KeptStep(tree.nodes, x, child, P0, C0, A0, P1, C1, A1, tree.parent, tree.children, actors);
      RestStep(tree.nodes, x, child, rest, P1, C1, A1, tree.parent, tree.children, actors);
    }

    /** The end of destroy(): components dropped, actor deactivated. */
    method Deactivate(x: Id, ghost P0: map<Id, Id>, ghost C0: map<Id, seq<Id>>, ghost A0: map<Id, ActorState>)
      requires Valid() && Unwinding(x, P0, C0, A0) && tree.children[x] == []
      modifies this
      ensures Valid() && SameLabels(A0, actors)
      ensures x !in tree.parent && tree.children[x] == [] && Wiped(actors[x])
      ensures actors == old(actors)[x := Wipe(old(actors[x]))]
      ensures Pruned(P0, tree.parent, x) && ClearedLost(P0, tree.parent, tree.children, actors)
      ensures Kept(tree.nodes, P0, tree.parent, C0, tree.children, A0, actors, x)
    {
      WipeKeeps(tree.nodes, x, P0, C0, A0, tree.parent, tree.children, actors);
      actors := actors[x := Wipe(actors[x])];
    }
  }
}
