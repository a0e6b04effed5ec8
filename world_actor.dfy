/**
 * engine/core/world/actor.py: actors of the world package. Each has a
 * name, a set of tags, a list of component objects, a transform, and a
 * place in a parent/child hierarchy; serialize writes the links as names,
 * and establishRelationshipsFromSerialization turns the names back into
 * links once every actor is loaded.
 *
 * Actors live in one arena (World): the hierarchy is a Hierarchy.Forest,
 * each actor's other fields are an ActorData value, and the `actor`
 * attribute of every component object is the `owner` map.
 */
module WorldActor {
  import opened Wrappers
  import opened Values
  import opened Hierarchy
  import opened WorldComponent

  datatype Vec = Vec(x: real, y: real)

  /** Transform: position, rotation (whatever number it was given) and scale. */
  datatype Xform = Xform(position: Vec, rotation: Value, scale: Vec)

  /**
   * The fields of an Actor besides its links. `pendingParent` and
   * `pendingChildren` are the temporary `_serialized_parent_name` and
   * `_serialized_children_names` attributes; None means the attribute is
   * absent.
   */
  datatype ActorData = ActorData(name: Value, tags: set<string>, comps: seq<CompState>, transform: Xform,
                                 pendingParent: Option<Value>, pendingChildren: Option<Value>)

  function NewTransform(): (t: Xform)
    ensures t.position == Vec(0.0, 0.0) && t.rotation == VInt(0) && t.scale == Vec(1.0, 1.0)
  {
    Xform(Vec(0.0, 0.0), VInt(0), Vec(1.0, 1.0))
  }

  function NewActorData(name: Value): (d: ActorData)
    ensures d.name == name && d.tags == {} && d.comps == [] && d.transform == NewTransform()
    ensures d.pendingParent.None? && d.pendingChildren.None?
  {
    ActorData(name, {}, [], NewTransform(), None, None)
  }

  // ---------------------------------------------------------------------
  // Transform.serialize / Transform.deserialize

  function TransformData(t: Xform): (d: map<string, Value>)
    ensures d.Keys == {"position", "rotation", "scale"}
  {
    map["position" := VVec2(t.position.x, t.position.y), "rotation" := t.rotation, "scale" := VVec2(t.scale.x, t.scale.y)]
  }

  /**
   * Transform.deserialize as written: it passes position, rotation and
   * scale as keyword arguments, which Transform.__init__ does not accept,
   * so it raises TypeError whatever the data.
   */
  function TransformFromAsWritten(data: map<string, Value>): (r: Result<Xform>)
    ensures r.Err? && r.error.TypeError?
  {
    Err(TypeError("Transform.__init__() got an unexpected keyword argument 'position'"))
  }

  /** tuple(v) of a Vector2 or of a two-number sequence, as the intended Transform takes it. */
  function VecOf(v: Value): (r: Option<Vec>)
    ensures v.VVec2? ==> r == Some(Vec(v.x, v.y))
  {
    if v.VVec2? then Some(Vec(v.x, v.y))
    else if (v.VList? && LooksLikeVector(v.items)) then Some(Vec(AsReal(v.items[0]), AsReal(v.items[1])))
    else if (v.VTuple? && LooksLikeVector(v.elems)) then Some(Vec(AsReal(v.elems[0]), AsReal(v.elems[1])))
    else None
  }

  /** The intended Transform.deserialize: the given fields, with (0, 0), 0 and (1, 1) for missing ones. */
  function TransformFrom(data: map<string, Value>): (r: Result<Xform>)
    ensures "position" !in data && "scale" !in data && "rotation" !in data ==> r == Ok(NewTransform())
  {
    var p := if "position" in data then VecOf(data["position"]) else Some(Vec(0.0, 0.0));
    var s := if "scale" in data then VecOf(data["scale"]) else Some(Vec(1.0, 1.0));
    if p.None? || s.None? then Err(TypeError("not a pair of numbers"))
    else Ok(Xform(p.value, if "rotation" in data then data["rotation"] else VInt(0), s.value))
  }

  /** The intended deserialize reads back what serialize writes. */
  lemma TransformRoundTrip(t: Xform)
    ensures TransformFrom(TransformData(t)) == Ok(t)
  {
  }

  // ---------------------------------------------------------------------
  // Components, tags, queries

  function Uids(cs: seq<CompState>): (u: seq<nat>)
    ensures |u| == |cs| && forall i :: 0 <= i < |cs| ==> u[i] == cs[i].uid
  {
    if |cs| == 0 then [] else [cs[0].uid] + Uids(cs[1..])
  }

  /** components.remove(c): the first entry with that identity goes. */
  function WithoutComp(cs: seq<CompState>, uid: nat): (r: seq<CompState>)
    ensures Uids(r) == RemoveFirst(Uids(cs), uid)
  {
    if |cs| == 0 then []
    else if cs[0].uid == uid then cs[1..]
    else [cs[0]] + WithoutComp(cs[1..], uid)
  }

  /**
   * What adding components touches: the actor's component list, the
   * components' `actor` attributes, and the start() calls.
   */
  datatype Slot = Slot(comps: seq<CompState>, owner: map<nat, Option<Id>>, starts: seq<nat>)

  /** addComponent: the assert refuses a component already in the list; otherwise it is appended, attached and started. */
  function AddOne(s: Slot, a: Id, c: CompState): (r: (Slot, bool))
    ensures r.1 <==> c.uid !in Uids(s.comps)
    ensures r.1 ==> r.0.comps == s.comps + [c] && r.0.starts == s.starts + [c.uid]
    ensures r.1 ==> c.uid in r.0.owner && r.0.owner[c.uid] == Some(a) && forall u :: u in s.owner && u != c.uid ==> u in r.0.owner && r.0.owner[u] == s.owner[u]
    ensures !r.1 ==> r.0 == s
  {
    if c.uid in Uids(s.comps) then (s, false)
    else (Slot(s.comps + [c], s.owner[c.uid := Some(a)], s.starts + [c.uid]), true)
  }

  /** addComponents for a list: addComponent one by one until one fails. */
  function AddMany(s: Slot, a: Id, more: seq<CompState>): (r: (Slot, bool))
    ensures r.1 ==> r.0.comps == s.comps + more
    decreases |more|
  {
    if |more| == 0 then (s, true)
    else
      var one := AddOne(s, a, more[0]);
      if !one.1 then one
      else
        var t := AddMany(one.0, a, more[1..]);
        (if t.1 then assert s.comps + [more[0]] + more[1..] == s.comps + more; t else t)
  }

  /** The `actor` attributes after setActor(a) on each of `us` in turn. */
  function Attached(owner: map<nat, Option<Id>>, us: seq<nat>, a: Id): map<nat, Option<Id>>
    decreases |us|
  {
    if |us| == 0 then owner
    else Attached(owner[us[0] := Some(a)], us[1..], a)
  }

  /** After the calls, exactly the listed components belong to the actor, and the others are as they were. */
  lemma {:induction false} AttachedOwners(owner: map<nat, Option<Id>>, us: seq<nat>, a: Id)
    ensures forall u :: u in Attached(owner, us, a) <==> u in owner || u in us
    ensures forall u :: u in us ==> Attached(owner, us, a)[u] == Some(a)
    ensures forall u :: u in owner && u !in us ==> Attached(owner, us, a)[u] == owner[u]
    decreases |us|
  {
    if |us| > 0 {
      AttachedOwners(owner[us[0] := Some(a)], us[1..], a);
      forall u | u in us ensures u == us[0] || u in us[1..] {
        var k :| 0 <= k < |us| && us[k] == u;
        if k > 0 { assert us[1..][k - 1] == u; }
      }
    }
  }

  /** The first new component is not among the old ones, and the rest are still distinct. */
  lemma FreshHead(cs: seq<CompState>, more: seq<CompState>)
    requires NoDup(Uids(cs + more)) && |more| > 0
    ensures more[0].uid !in Uids(cs)
    ensures NoDup(Uids((cs + [more[0]]) + more[1..]))
  {
    assert Uids(cs + more)[|cs|] == more[0].uid;
    forall i | 0 <= i < |cs| ensures Uids(cs)[i] != more[0].uid {
      assert Uids(cs)[i] == Uids(cs + more)[i];
    }
    assert cs + more == (cs + [more[0]]) + more[1..];
  }

  /** The state after adding one new component before the rest. */
  function Stepped(s: Slot, a: Id, c: CompState): Slot
  {
    Slot(s.comps + [c], s.owner[c.uid := Some(a)], s.starts + [c.uid])
  }

  lemma AddManyCons(s: Slot, a: Id, more: seq<CompState>)
    requires |more| > 0 && more[0].uid !in Uids(s.comps)
    ensures AddMany(s, a, more) == AddMany(Stepped(s, a, more[0]), a, more[1..])
  {
  }

  lemma SteppedAll(s: Slot, a: Id, more: seq<CompState>)
    requires |more| > 0
    ensures var s1 := Stepped(s, a, more[0]);
            Slot(s1.comps + more[1..], Attached(s1.owner, Uids(more[1..]), a), s1.starts + Uids(more[1..]))
            == Slot(s.comps + more, Attached(s.owner, Uids(more), a), s.starts + Uids(more))
  {
    assert s.comps + [more[0]] + more[1..] == s.comps + more;
    assert Uids(more)[1..] == Uids(more[1..]);
    assert s.starts + [more[0].uid] + Uids(more[1..]) == s.starts + Uids(more);
  }

  /**
   * Adding components that are new and distinct never fails: each is
   * appended, attached to the actor and started, in order.
   */
  lemma {:induction false} AddManyDistinct(s: Slot, a: Id, more: seq<CompState>)
    requires NoDup(Uids(s.comps + more))
    ensures AddMany(s, a, more) == (Slot(s.comps + more, Attached(s.owner, Uids(more), a), s.starts + Uids(more)), true)
    decreases |more|
  {
    if |more| > 0 {
      FreshHead(s.comps, more);
      AddManyCons(s, a, more);
      AddManyDistinct(Stepped(s, a, more[0]), a, more[1..]);
      SteppedAll(s, a, more);
    } else {
      assert s.comps + more == s.comps && Uids(more) == [] && s.starts + [] == s.starts;
    }
  }

  /** A class given by name, or by the class itself; allowInheritance is getComponent's second argument. */
  datatype Query = ByName(name: string) | ByClass(cls: string, allowInheritance: bool)

  /** The first component satisfying p, as next(...) and the isinstance loop find it. */
  function FirstOfName(cs: seq<CompState>, name: string): (r: Option<CompState>)
    ensures r.Some? ==> r.value in cs && r.value.ctype == name
    ensures r.None? ==> forall c :: c in cs ==> c.ctype != name
  {
    if |cs| == 0 then None else if cs[0].ctype == name then Some(cs[0]) else FirstOfName(cs[1..], name)
  }

  function FirstInstance(cs: seq<CompState>, cls: string): (r: Option<CompState>)
    ensures r.Some? ==> r.value in cs && cls in r.value.mro
    ensures r.None? ==> forall c :: c in cs ==> cls !in c.mro
  {
    if |cs| == 0 then None else if cls in cs[0].mro then Some(cs[0]) else FirstInstance(cs[1..], cls)
  }

  /**
   * getComponent. By name: the first component whose class has that name,
   * and None for the empty name. By class: the first instance. The
   * allow_inheritance fallback calls issubclass on a component instance,
   * which raises TypeError; it is reached only when no instance matched
   * and there is at least one component.
   */
  function GetComponentIn(cs: seq<CompState>, q: Query): (r: Result<Option<CompState>>)
    ensures q.ByName? ==> r == Ok(if q.name == "" then None else FirstOfName(cs, q.name))
    ensures q.ByClass? && FirstInstance(cs, q.cls).Some? ==> r == Ok(FirstInstance(cs, q.cls))
    ensures q.ByClass? && FirstInstance(cs, q.cls).None? ==> (r.Err? <==> q.allowInheritance && |cs| > 0)
    ensures r.Ok? && r.value.Some? ==> r.value.value in cs
  {
    match q
    case ByName(name) => Ok(if name == "" then None else FirstOfName(cs, name))
    case ByClass(cls, inherit) =>
      var f := FirstInstance(cs, cls);
      if f.Some? then Ok(f)
      else if inherit && |cs| > 0 then Err(TypeError("issubclass() arg 1 must be a class"))
      else Ok(None)
  }

  /** `component.enabled`. */
  predicate Enabled(c: CompState)
  {
    "enabled" in c.fields && Truthy(c.fields["enabled"])
  }

  /** The components handleUpdate, handlePhysUpdate, handleLateUpdate and handleRender call, in list order. */
  function EnabledInOrder(cs: seq<CompState>): (r: seq<nat>)
    ensures forall u :: u in r <==> exists c :: c in cs && Enabled(c) && c.uid == u
    ensures |r| <= |cs|
  {
    if |cs| == 0 then []
    else (if Enabled(cs[0]) then [cs[0].uid] else []) + EnabledInOrder(cs[1..])
  }

  /**
   * handleEvent (the second definition, which is the one in force): the
   * enabled components are offered the event in order until one handles
   * it; `handles` are the components whose handle_event returns true.
   * The result is the components reached and whether one handled it.
   */
  function EventReach(cs: seq<CompState>, handles: set<nat>): (r: (seq<nat>, bool))
    ensures r.1 <==> exists c :: c in cs && Enabled(c) && c.uid in handles
    ensures forall u :: u in r.0 ==> exists c :: c in cs && Enabled(c) && c.uid == u
    ensures r.1 ==> |r.0| > 0 && r.0[|r.0| - 1] in handles && forall i :: 0 <= i < |r.0| - 1 ==> r.0[i] !in handles
    ensures !r.1 ==> r.0 == EnabledInOrder(cs)
  {
    if |cs| == 0 then ([], false)
    else if Enabled(cs[0]) && cs[0].uid in handles then ([cs[0].uid], true)
    else
      var t := EventReach(cs[1..], handles);
      (if Enabled(cs[0]) then [cs[0].uid] + t.0 else t.0, t.1)
  }

  /** screenPosition: the position minus the scene's world offset; without a scene it raises. */
  function ScreenPosition(t: Xform, worldOffset: Option<Vec>): (r: Result<Vec>)
    ensures worldOffset.None? <==> r.Err?
    ensures r.Ok? ==> r.value.x + worldOffset.value.x == t.position.x && r.value.y + worldOffset.value.y == t.position.y
  {
    if worldOffset.None? then Err(TypeError("'NoneType' object has no attribute 'worldOffset'"))
    else Ok(Vec(t.position.x - worldOffset.value.x, t.position.y - worldOffset.value.y))
  }

  // ---------------------------------------------------------------------
  // deserialize

  /** The set of a sequence of strings; None if one element is not a string. */
  function StrSet(items: seq<Value>): (r: Option<set<string>>)
    ensures r.Some? <==> forall i :: 0 <= i < |items| ==> items[i].VStr?
    ensures r.Some? ==> forall t :: t in r.value <==> VStr(t) in items
  {
    if |items| == 0 then Some({})
    else
      var rest := StrSet(items[1..]);
      if !items[0].VStr? || rest.None? then
        (assert rest.None? ==> exists i :: 0 <= i < |items[1..]| && !items[1..][i].VStr?; None)
      else Some({items[0].s} + rest.value)
  }

  /** set(v) for the tags: the strings of a list or tuple, a string's characters, a dict's keys; anything else raises. */
  function TagSet(v: Value): (r: Option<set<string>>)
    ensures v.VList? ==> r == StrSet(v.items)
  {
    match v
    case VList(items) => StrSet(items)
    case VTuple(elems) => StrSet(elems)
    case VStr(s) => Some(set i | 0 <= i < |s| :: [s[i]])
    case VDict(m) => Some(m.Keys)
    case _ => None
  }

  /** The result of deserialize: the new data, or the data at the point where it raised. */
  datatype Loaded = Loaded(data: ActorData, raised: bool)

  function Get(data: map<string, Value>, k: string, default: Value): Value
  {
    if k in data then data[k] else default
  }

  /** The name and tags deserialize sets first. */
  function NamedAndTagged(a: ActorData, data: map<string, Value>): (r: Loaded)
    ensures !r.raised ==> r.data.name == Get(data, "name", VStr("Actor")) && Some(r.data.tags) == TagSet(Get(data, "tags", VList([])))
    ensures r.data.comps == a.comps && r.data.pendingParent == a.pendingParent
  {
    var a1 := a.(name := Get(data, "name", VStr("Actor")));
    var t := TagSet(Get(data, "tags", VList([])));
    if t.None? then Loaded(a1, true) else Loaded(a1.(tags := t.value), false)
  }

  /**
   * Actor.deserialize as written: `Component.deserialize(compData)` calls
   * the instance method on the class with the data as `self` and no
   * `data`, which raises TypeError, so any non-empty component list fails
   * after the name and tags are set.
   */
  function LoadAsWritten(a: ActorData, data: map<string, Value>): (r: Loaded)
  {
    var n := NamedAndTagged(a, data);
    if n.raised then n
    else
      var list := Get(data, "components", VList([]));
      if !list.VList? then Loaded(n.data, true)
      else if |list.items| > 0 then Loaded(n.data, true)
      else Loaded(n.data.(comps := [], pendingParent := Some(Get(data, "parent_name", VNone)),
                          pendingChildren := Some(Get(data, "children_names", VList([])))), false)
  }

  /** Any actor whose data lists a component fails to load as written. */
  lemma ComponentsNeverLoad(a: ActorData, comp: Value)
    ensures var data := map["name" := VStr("Player"), "components" := VList([comp])];
            LoadAsWritten(a, data).raised && LoadAsWritten(a, data).data.comps == a.comps
  {
    var data := map["name" := VStr("Player"), "components" := VList([comp])];
    assert "tags" !in data;
  }

  /** Component.createFromData over a list of dicts, numbering the new components from `uid`. */
  function CreateAll(items: seq<Value>, classes: map<(string, string), ClassInfo>, uid: nat, env: Env): (r: Result<seq<CompState>>)
    ensures r.Ok? ==> |r.value| == |items|
    ensures r.Ok? ==> forall i :: 0 <= i < |items| ==> r.value[i].uid == uid + i
    ensures r.Ok? ==> forall i :: 0 <= i < |items| ==> items[i].VDict? && CreateFromData(items[i].entries, classes, uid + i, env) == Ok(r.value[i])
  {
    if |items| == 0 then Ok([])
    else if !items[0].VDict? then Err(AttributeError("object has no attribute 'get'"))
    else
      var c := CreateFromData(items[0].entries, classes, uid, env);
      if c.Err? then Err(c.error)
      else
        var rest := CreateAll(items[1..], classes, uid + 1, env);
        if rest.Err? then rest else Ok([c.value] + rest.value)
  }

  /** The components createFromData builds, in order, before the first one that raises. */
  function Built(items: seq<Value>, classes: map<(string, string), ClassInfo>, uid: nat, env: Env): (r: seq<CompState>)
    ensures |r| <= |items|
    ensures forall i :: 0 <= i < |r| ==> items[i].VDict? && CreateFromData(items[i].entries, classes, uid + i, env) == Ok(r[i])
    ensures |r| < |items| ==> !items[|r|].VDict? || CreateFromData(items[|r|].entries, classes, uid + |r|, env).Err?
  {
    if |items| == 0 then []
    else if !items[0].VDict? then []
    else
      var c := CreateFromData(items[0].entries, classes, uid, env);
      if c.Err? then [] else [c.value] + Built(items[1..], classes, uid + 1, env)
  }

  /** All the components are built exactly when the whole list loads, and then they are the loaded list. */
  lemma {:induction false} BuiltAll(items: seq<Value>, classes: map<(string, string), ClassInfo>, uid: nat, env: Env)
    ensures CreateAll(items, classes, uid, env).Ok? <==> |Built(items, classes, uid, env)| == |items|
    ensures CreateAll(items, classes, uid, env).Ok? ==> Built(items, classes, uid, env) == CreateAll(items, classes, uid, env).value
  {
    if |items| > 0 && items[0].VDict? && CreateFromData(items[0].entries, classes, uid, env).Ok? {
      BuiltAll(items[1..], classes, uid + 1, env);
    }
  }

  /**
   * The components createFromSerializedData has attached, and so started,
   * when it returns or raises: none if the tags raise, otherwise those
   * built before the first component that raises.
   */
  function Started(data: map<string, Value>, classes: map<(string, string), ClassInfo>, uid: nat, env: Env): (r: seq<CompState>)
    ensures forall i :: 0 <= i < |r| ==> r[i].uid == uid + i
    ensures var l := Load(NewActorData(VStr("Actor")), data, classes, uid, env);
            !l.raised ==> r == l.data.comps
  {
    var list := Get(data, "components", VList([]));
    if TagSet(Get(data, "tags", VList([]))).None? || !list.VList? then []
    else BuiltAll(list.items, classes, uid, env); Built(list.items, classes, uid, env)
  }

  /** Actor.deserialize as intended: each component is built with Component.createFromData. */
  function Load(a: ActorData, data: map<string, Value>, classes: map<(string, string), ClassInfo>, uid: nat, env: Env): (r: Loaded)
    ensures !r.raised ==> r.data.name == Get(data, "name", VStr("Actor")) && Some(r.data.tags) == TagSet(Get(data, "tags", VList([])))
    ensures !r.raised ==> r.data.pendingParent == Some(Get(data, "parent_name", VNone))
    ensures !r.raised ==> r.data.pendingChildren == Some(Get(data, "children_names", VList([])))
    ensures !r.raised ==> Get(data, "components", VList([])).VList? && CreateAll(Get(data, "components", VList([])).items, classes, uid, env) == Ok(r.data.comps)
    ensures r.data.transform == a.transform
  {
    var n := NamedAndTagged(a, data);
    if n.raised then n
    else
      var list := Get(data, "components", VList([]));
      if !list.VList? then Loaded(n.data, true)
      else
        var cs := CreateAll(list.items, classes, uid, env);
        if cs.Err? then Loaded(n.data, true)
        else Loaded(n.data.(comps := cs.value, pendingParent := Some(Get(data, "parent_name", VNone)),
                            pendingChildren := Some(Get(data, "children_names", VList([])))), false)
  }

  /** The loaded components are distinct objects. */
  lemma LoadedDistinct(a: ActorData, data: map<string, Value>, classes: map<(string, string), ClassInfo>, uid: nat, env: Env)
    requires !Load(a, data, classes, uid, env).raised
    ensures NoDup(Uids([] + Load(a, data, classes, uid, env).data.comps))
  {
    var cs := Load(a, data, classes, uid, env).data.comps;
    assert [] + cs == cs;
    assert forall i :: 0 <= i < |cs| ==> cs[i].uid == uid + i;
  }

  /** The actor's name in establishRelationshipsFromSerialization's name map: a later actor of the same name wins. */
  function NameMap(actors: map<Id, ActorData>, list: seq<Id>): (m: map<Value, Id>)
    requires forall a :: a in list ==> a in actors
    ensures forall v :: v in m ==> m[v] in list && actors[m[v]].name == v
    ensures forall a :: a in list ==> actors[a].name in m
  {
    if |list| == 0 then map[]
    else
      var last := list[|list| - 1];
      NameMap(actors, list[..|list| - 1])[actors[last].name := last]
  }

  /** The parent establishRelationshipsFromSerialization gives an actor, if it gives one. */
  function Wanted(d: ActorData, names: map<Value, Id>): (r: Option<Id>)
    ensures r.Some? <==> d.pendingParent.Some? && Truthy(d.pendingParent.value) && d.pendingParent.value in names
  {
    if d.pendingParent.Some? && Truthy(d.pendingParent.value) && d.pendingParent.value in names then Some(names[d.pendingParent.value]) else None
  }

  function Cleared(d: ActorData): (r: ActorData)
    ensures r.pendingParent.None? && r.pendingChildren.None?
    ensures r.name == d.name && r.tags == d.tags && r.comps == d.comps && r.transform == d.transform
  {
    d.(pendingParent := None, pendingChildren := None)
  }

  function Members(list: seq<Id>): (r: set<Id>)
    ensures forall x :: x in r <==> x in list
  {
    set x | x in list
  }

  lemma MembersSnoc(list: seq<Id>, i: nat)
    requires i < |list|
    ensures Members(list[..i + 1]) == Members(list[..i]) + {list[i]}
  {
    assert list[..i + 1] == list[..i] + [list[i]];
  }

  /** The actors' data after the loop has handled the actors in `done`. */
  ghost predicate ActorsAt(actors: map<Id, ActorData>, A0: map<Id, ActorData>, done: set<Id>)
  {
    actors.Keys == A0.Keys && forall x :: x in actors ==> actors[x] == if x in done then Cleared(A0[x]) else A0[x]
  }

  /** The parent links after the loop has handled the actors in `done`. */
  ghost predicate ParentsAt(parent: map<Id, Id>, P0: map<Id, Id>, A0: map<Id, ActorData>, names: map<Value, Id>, done: set<Id>, nodes: set<Id>)
  {
    forall x :: x in nodes ==>
      if x in done && x in A0 && Wanted(A0[x], names).Some? then x in parent && parent[x] == Wanted(A0[x], names).value
      else (x in parent <==> x in P0) && (x in parent ==> parent[x] == P0[x])
  }

  lemma ActorsStep(A: map<Id, ActorData>, A': map<Id, ActorData>, A0: map<Id, ActorData>, done: set<Id>, a: Id)
    requires ActorsAt(A, A0, done) && a in A && A' == A[a := Cleared(A[a])]
    ensures ActorsAt(A', A0, done + {a})
  {
    assert Cleared(Cleared(A0[a])) == Cleared(A0[a]);
  }

  lemma ParentsStep(P: map<Id, Id>, P': map<Id, Id>, P0: map<Id, Id>, A0: map<Id, ActorData>, A: map<Id, ActorData>,
                    names: map<Value, Id>, done: set<Id>, nodes: set<Id>, a: Id)
    requires ParentsAt(P, P0, A0, names, done, nodes) && ActorsAt(A, A0, done) && a in A && a in nodes
    requires Wanted(A[a], names).Some? ==> P' == P[a := Wanted(A[a], names).value]
    requires Wanted(A[a], names).None? ==> P' == P
    ensures ParentsAt(P', P0, A0, names, done + {a}, nodes)
  {
    if a in done {
      assert A[a] == Cleared(A0[a]);
    } else {
      assert A[a] == A0[a];
    }
  }

  // ---------------------------------------------------------------------
  // The arena

  class World {
    const tree: Forest
    var actors: map<Id, ActorData>
    /** Each component object's `actor` attribute: the actor it was last attached to, None once removed. */
    var owner: map<nat, Option<Id>>
    /** The components whose start() ran, in order (setActor calls it). */
    var starts: seq<nat>

    ghost predicate Valid()
      reads this, tree
    {
      tree.Valid() && actors.Keys == tree.nodes
    }

    constructor ()
      ensures Valid() && fresh(tree) && tree.nodes == {} && actors == map[] && owner == map[] && starts == []
    {
      tree := new Forest();
      actors := map[];
      owner := map[];
      starts := [];
    }

    /** Actor(name, components): a fresh actor, then addComponent for each component. */
    method NewActor(a: Id, name: Value, comps: seq<CompState>) returns (ok: bool)
      requires Valid() && a !in tree.nodes
      modifies this, tree
      ensures Valid()
      ensures tree.nodes == old(tree.nodes) + {a} && tree.parent == old(tree.parent) && tree.children == old(tree.children)[a := []]
      ensures var r := AddMany(Slot([], old(owner), old(starts)), a, comps);
              a in actors && actors == old(actors)[a := NewActorData(name).(comps := r.0.comps)]
              && owner == r.0.owner && starts == r.0.starts && ok == r.1
    {
      tree.AddNode(a);
      actors := actors[a := NewActorData(name)];
      ok := AddComponents(a, comps);
    }

    /**
     * createFromSerializedData: a new actor named by the data, with its
     * tags, each component built by Component.createFromData and added
     * with addComponent, and the names of its links stored for later. If
     * anything raises, no actor is returned and the arena is as it was, but
     * the components added before the one that raised stay attached to the
     * unreturned actor and have started.
     */
    method CreateFromSerializedData(a: Id, data: map<string, Value>, classes: map<(string, string), ClassInfo>, uid: nat, env: Env)
      returns (ok: bool)
      requires Valid() && a !in tree.nodes
      modifies this, tree
      ensures Valid()
      ensures var l := Load(NewActorData(VStr("Actor")), data, classes, uid, env);
              ok == !l.raised
              && (!ok ==> actors == old(actors) && tree.nodes == old(tree.nodes))
              && (ok ==> tree.nodes == old(tree.nodes) + {a} && tree.parent == old(tree.parent) && tree.children[a] == []
                         && actors == old(actors)[a := l.data])
      ensures var s := Started(data, classes, uid, env);
              starts == old(starts) + Uids(s) && owner == Attached(old(owner), Uids(s), a)
    {
      var l := Load(NewActorData(VStr("Actor")), data, classes, uid, env);
      if l.raised {
        var s := Started(data, classes, uid, env);
        starts := starts + Uids(s);
        owner := Attached(owner, Uids(s), a);
        return false;
      }
      var cs := l.data.comps;
      LoadedDistinct(NewActorData(VStr("Actor")), data, classes, uid, env);
      AddManyDistinct(Slot([], owner, starts), a, cs);
      var added := NewActor(a, l.data.name, cs);
      actors := actors[a := l.data];
      ok := true;
    }

    method SetName(a: Id, name: Value)
      requires Valid() && a in actors
      modifies this
      ensures Valid() && actors == old(actors)[a := old(actors[a]).(name := name)]
      ensures owner == old(owner) && starts == old(starts)
    {
      actors := actors[a := actors[a].(name := name)];
    }

    /**
     * addComponent: the assert refuses a component already in the list
     * (ok is false and nothing changes); otherwise it is appended and
     * setActor attaches it and runs start.
     */
    method AddComponent(a: Id, c: CompState) returns (ok: bool)
      requires Valid() && a in actors
      modifies this
      ensures Valid()
      ensures ok <==> c.uid !in Uids(old(actors[a].comps))
      ensures !ok ==> actors == old(actors) && owner == old(owner) && starts == old(starts)
      ensures ok ==> actors == old(actors)[a := old(actors[a]).(comps := old(actors[a].comps) + [c])]
      ensures ok ==> owner == old(owner)[c.uid := Some(a)] && starts == old(starts) + [c.uid]
      ensures (Slot(actors[a].comps, owner, starts), ok) == AddOne(Slot(old(actors[a].comps), old(owner), old(starts)), a, c)
    {
      if c.uid in Uids(actors[a].comps) {
        return false;
      }
      actors := actors[a := actors[a].(comps := actors[a].comps + [c])];
      owner := owner[c.uid := Some(a)];
      starts := starts + [c.uid];
      ok := true;
    }

    /** addComponents: one addComponent after another, stopping at the first that fails. */
    method AddComponents(a: Id, cs: seq<CompState>) returns (ok: bool)
      requires Valid() && a in actors
      modifies this
      ensures Valid()
      ensures var r := AddMany(Slot(old(actors[a].comps), old(owner), old(starts)), a, cs);
              actors == old(actors)[a := old(actors[a]).(comps := r.0.comps)]
              && owner == r.0.owner && starts == r.0.starts && ok == r.1
    {
      ghost var S0 := Slot(actors[a].comps, owner, starts);
      var i := 0;
      ok := true;
      while i < |cs|
        invariant 0 <= i <= |cs| && Valid() && a in actors
        invariant actors == old(actors)[a := old(actors[a]).(comps := actors[a].comps)]
        invariant AddMany(S0, a, cs) == AddMany(Slot(actors[a].comps, owner, starts), a, cs[i..])
      {
        var added := AddComponent(a, cs[i]);
        if !added {
          return false;
        }
        assert cs[i..][1..] == cs[i + 1..];
        i := i + 1;
      }
    }

    /** removeComponent: only an attached component is removed, and setActor(None) detaches it and runs start. */
    method RemoveComponent(a: Id, uid: nat)
      requires Valid() && a in actors
      modifies this
      ensures Valid()
      ensures uid !in Uids(old(actors[a].comps)) ==> actors == old(actors) && owner == old(owner) && starts == old(starts)
      ensures uid in Uids(old(actors[a].comps)) ==>
        actors == old(actors)[a := old(actors[a]).(comps := WithoutComp(old(actors[a].comps), uid))]
        && owner == old(owner)[uid := None] && starts == old(starts) + [uid]
    {
      if uid in Uids(actors[a].comps) {
        actors := actors[a := actors[a].(comps := WithoutComp(actors[a].comps, uid))];
        owner := owner[uid := None];
        starts := starts + [uid];
      }
    }

    /** addTag: set insertion. */
    method AddTag(a: Id, t: string)
      requires Valid() && a in actors
      modifies this
      ensures Valid() && actors == old(actors)[a := old(actors[a]).(tags := old(actors[a].tags) + {t})]
      ensures owner == old(owner) && starts == old(starts)
    {
      actors := actors[a := actors[a].(tags := actors[a].tags + {t})];
    }

    /** removeTag: set discard, so an absent tag is no error. */
    method RemoveTag(a: Id, t: string)
      requires Valid() && a in actors
      modifies this
      ensures Valid() && actors == old(actors)[a := old(actors[a]).(tags := old(actors[a].tags) - {t})]
      ensures owner == old(owner) && starts == old(starts)
    {
      actors := actors[a := actors[a].(tags := actors[a].tags - {t})];
    }

    /**
     * setParent: a leaves its old parent's list, takes the new parent, and
     * is appended to the new parent's list (it cannot already be there).
     */
    method SetParent(a: Id, p: Option<Id>)
      requires Valid() && a in tree.nodes && (p.Some? ==> p.value in tree.nodes)
      modifies tree
      ensures Valid() && tree.nodes == old(tree.nodes)
      ensures p.None? ==> tree.parent == old(tree.parent) - {a} && tree.children == Detached(old(tree.children), old(tree.parent), a)
      ensures p.Some? ==> (tree.parent, tree.children) == Adopted(old(tree.parent), old(tree.children), p.value, a)
      ensures p.Some? ==> forall q :: q in tree.nodes ==> (a in tree.children[q] <==> q == p.value)
    {
      if p.None? {
        tree.Detach(a);
      } else {
        tree.AddChild(p.value, a);
      }
    }

    /** addChild(child) is child.setParent(self). */
    method AddChild(p: Id, c: Id)
      requires Valid() && p in tree.nodes && c in tree.nodes
      modifies tree
      ensures Valid() && tree.nodes == old(tree.nodes)
      ensures c in tree.parent && tree.parent[c] == p && tree.parent == old(tree.parent)[c := p]
      ensures forall q :: q in tree.nodes ==> (c in tree.children[q] <==> q == p)
    {
      SetParent(c, Some(p));
    }

    /** removeChild: only a current child is detached. */
    method RemoveChild(p: Id, c: Id)
      requires Valid() && p in tree.nodes
      modifies tree
      ensures Valid() && tree.nodes == old(tree.nodes)
      ensures c in old(tree.children[p]) ==> tree.parent == old(tree.parent) - {c} && c !in tree.children[p]
      ensures c !in old(tree.children[p]) ==> tree.parent == old(tree.parent) && tree.children == old(tree.children)
    {
      if c in tree.children[p] {
        SetParent(c, None);
      }
    }

    /** getChildren: the children in order (a copy: the caller cannot change the list). */
    function GetChildren(a: Id): (r: seq<Id>)
      reads this, tree
      requires Valid() && a in tree.nodes
      ensures forall c :: c in r <==> c in tree.parent && tree.parent[c] == a
    {
      tree.children[a]
    }

    method SetPosition(a: Id, x: real, y: real)
      requires Valid() && a in actors
      modifies this
      ensures Valid() && actors == old(actors)[a := old(actors[a]).(transform := old(actors[a].transform).(position := Vec(x, y)))]
    {
      actors := actors[a := actors[a].(transform := actors[a].transform.(position := Vec(x, y)))];
    }

    method SetRotation(a: Id, rotation: Value)
      requires Valid() && a in actors
      modifies this
      ensures Valid() && actors == old(actors)[a := old(actors[a]).(transform := old(actors[a].transform).(rotation := rotation))]
    {
      actors := actors[a := actors[a].(transform := actors[a].transform.(rotation := rotation))];
    }

    method SetScale(a: Id, sx: real, sy: real)
      requires Valid() && a in actors
      modifies this
      ensures Valid() && actors == old(actors)[a := old(actors[a]).(transform := old(actors[a].transform).(scale := Vec(sx, sy)))]
    {
      actors := actors[a := actors[a].(transform := actors[a].transform.(scale := Vec(sx, sy)))];
    }

    /**
     * serialize: name, tags (in the order the set yields them, given as
     * `tagOrder`), each component's dict, the parent's name or None, and
     * the children's names.
     */
    function Serialize(a: Id, tagOrder: seq<string>, schemas: map<(string, string), Schema>, env: Env): (d: map<string, Value>)
      reads this, tree
      requires Valid() && a in actors
      requires forall c :: c in actors[a].comps ==> (c.cmodule, c.ctype) in schemas
      ensures d.Keys == {"name", "tags", "components", "parent_name", "children_names"}
      ensures d["name"] == actors[a].name
      ensures d["parent_name"] == if a in tree.parent then actors[tree.parent[a]].name else VNone
      ensures d["children_names"].VList? && |d["children_names"].items| == |tree.children[a]|
      ensures forall i :: 0 <= i < |tree.children[a]| ==> d["children_names"].items[i] == actors[tree.children[a][i]].name
      ensures d["components"].VList? && |d["components"].items| == |actors[a].comps|
    {
      var cs := actors[a].comps;
      var kids := tree.children[a];
      var A := actors;
      assert forall i :: 0 <= i < |kids| ==> kids[i] in tree.nodes;
      map["name" := actors[a].name,
          "tags" := VList(seq(|tagOrder|, i requires 0 <= i < |tagOrder| => VStr(tagOrder[i]))),
          "components" := VList(seq(|cs|, i requires 0 <= i < |cs| => VDict(WorldComponent.Serialize(cs[i], schemas[(cs[i].cmodule, cs[i].ctype)], env)))),
          "parent_name" := if a in tree.parent then actors[tree.parent[a]].name else VNone,
          "children_names" := VList(seq(|kids|, i requires 0 <= i < |kids| && kids[i] in A => A[kids[i]].name))]
    }

    /** deserialize, in the intended form (see Load); components are numbered from `uid`. */
    method DeserializeActor(a: Id, data: map<string, Value>, classes: map<(string, string), ClassInfo>, uid: nat, env: Env) returns (raised: bool)
      requires Valid() && a in actors
      modifies this
      ensures Valid()
      ensures var l := Load(old(actors[a]), data, classes, uid, env);
              actors == old(actors)[a := l.data] && raised == l.raised
      ensures owner == old(owner) && starts == old(starts)
    {
      var l := Load(actors[a], data, classes, uid, env);
      actors := actors[a := l.data];
      raised := l.raised;
    }

    /** clearSerializationData. */
    method ClearSerializationData(a: Id)
      requires Valid() && a in actors
      modifies this
      ensures Valid() && actors == old(actors)[a := Cleared(old(actors[a]))]
    {
      actors := actors[a := Cleared(actors[a])];
    }

    /**
     * establishRelationshipsFromSerialization: each listed actor whose
     * stored parent name is set and names a listed actor gets that actor
     * as parent; every other actor keeps its parent; the stored names are
     * deleted from every listed actor.
     */
    method EstablishRelationships(list: seq<Id>)
      requires Valid() && forall a :: a in list ==> a in actors
      modifies this, tree
      ensures Valid() && tree.nodes == old(tree.nodes)
      ensures ParentsAt(tree.parent, old(tree.parent), old(actors), NameMap(old(actors), list), Members(list), tree.nodes)
      ensures ActorsAt(actors, old(actors), Members(list))
      ensures owner == old(owner) && starts == old(starts)
    {
      var names := NameMap(actors, list);
      ghost var A0 := actors;
      ghost var P0 := tree.parent;
      ghost var done: set<Id> := {};
      var i := 0;
      while i < |list|
        invariant 0 <= i <= |list| && Valid() && tree.nodes == old(tree.nodes)
        invariant owner == old(owner) && starts == old(starts)
        invariant done == Members(list[..i])
        invariant ActorsAt(actors, A0, done)
        invariant ParentsAt(tree.parent, P0, A0, names, done, tree.nodes)
      {
        var a := list[i];
        ghost var P := tree.parent;
        ghost var A := actors;
        EstablishOne(a, names);
        ParentsStep(P, tree.parent, P0, A0, A, names, done, tree.nodes, a);
        ActorsStep(A, actors, A0, done, a);
        MembersSnoc(list, i);
        done := done + {a};
        i := i + 1;
      }
      assert list[..i] == list;
    }

    /** One round of the loop: set the parent the stored name asks for, then delete the stored names. */
    method EstablishOne(a: Id, names: map<Value, Id>)
      requires Valid() && a in actors && forall v :: v in names ==> names[v] in actors
      modifies this, tree
      ensures Valid() && tree.nodes == old(tree.nodes)
      ensures actors == old(actors)[a := Cleared(old(actors[a]))] && owner == old(owner) && starts == old(starts)
      ensures Wanted(old(actors[a]), names).Some? ==> tree.parent == old(tree.parent)[a := Wanted(old(actors[a]), names).value]
      ensures Wanted(old(actors[a]), names).None? ==> tree.parent == old(tree.parent)
    {
      var w := Wanted(actors[a], names);
      if w.Some? {
        SetParent(a, w);
      }
      actors := actors[a := Cleared(actors[a])];
    }
  }

  /** No two listed actors share a name. */
  predicate UniqueNames(actors: map<Id, ActorData>, list: seq<Id>)
    requires forall a :: a in list ==> a in actors
  {
    forall x, y :: x in list && y in list && actors[x].name == actors[y].name ==> x == y
  }

  /**
   * When names are unique, the parent establishRelationshipsFromSerialization
   * finds from a stored (truthy) parent name is the listed actor of that name.
   */
  lemma WantedFindsNamedParent(actors: map<Id, ActorData>, list: seq<Id>, x: Id, p: Id)
    requires forall a :: a in list ==> a in actors
    requires UniqueNames(actors, list) && x in actors && p in list
    requires actors[x].pendingParent == Some(actors[p].name) && Truthy(actors[p].name)
    ensures Wanted(actors[x], NameMap(actors, list)) == Some(p)
  {
    var m := NameMap(actors, list);
    assert actors[p].name in m;
  }

  /**
   * Loading what serialize wrote gives back the name, the tags and the
   * stored parent name; it raises exactly when one of the component
   * dicts cannot be rebuilt.
   */
  lemma SerializeThenLoad(w: World, a: Id, tagOrder: seq<string>, schemas: map<(string, string), Schema>, env: Env,
                          blank: ActorData, classes: map<(string, string), ClassInfo>, uid: nat)
    requires w.Valid() && a in w.actors
    requires forall c :: c in w.actors[a].comps ==> (c.cmodule, c.ctype) in schemas
    requires forall t :: t in w.actors[a].tags <==> t in tagOrder
    ensures var d := w.Serialize(a, tagOrder, schemas, env);
            var l := Load(blank, d, classes, uid, env);
            (l.raised <==> CreateAll(d["components"].items, classes, uid, env).Err?)
            && (!l.raised ==> l.data.name == w.actors[a].name && l.data.tags == w.actors[a].tags
                              && l.data.pendingParent == Some(d["parent_name"]) && |l.data.comps| == |w.actors[a].comps|)
  {
    var d := w.Serialize(a, tagOrder, schemas, env);
    var items := d["tags"].items;
    assert forall i :: 0 <= i < |items| ==> items[i] == VStr(tagOrder[i]);
    var ts := StrSet(items);
    assert ts.Some?;
    forall t ensures t in ts.value <==> t in w.actors[a].tags {
      if t in tagOrder {
        var k :| 0 <= k < |tagOrder| && tagOrder[k] == t;
        assert items[k] == VStr(t);
      }
      if VStr(t) in items {
        var k :| 0 <= k < |items| && items[k] == VStr(t);
        assert tagOrder[k] == t;
      }
    }
  }
}
