/**
 * EditorScene of editor/editor_scene.py: a scene being edited, with its
 * name, file path, dirty flag and metadata, and the dict form it is saved
 * in — actors with their components and children, and UI widgets.
 *
 * The engine scene it wraps is SceneStrict.StrictScene (engine/scene/scene.py);
 * the actor objects are values here, and the scene holds them by id. The
 * component and widget classes the loader can create are parameters.
 */
module EditorScenes {
  import opened Wrappers
  import opened Values
  import opened Hierarchy
  import opened EditorUtils
  import CoreActor
  import opened Scenes
  import opened SceneStrict

  // ---------------------------------------------------------------------
  // Actors and components as the editor saves them

  /**
   * A component: its class name and module, whether it is enabled, and its
   * other attributes (all those dir() lists that are not methods, besides
   * enabled and actor).
   */
  datatype Comp = Comp(kind: string, moduleName: string, enabled: bool, attrs: map<string, Value>)

  /**
   * An actor: name, tags (in the order its tag set is iterated), transform,
   * components and children.
   */
  datatype EActor = EActor(name: string, tags: seq<string>, position: (real, real), rotation: real, scale: (real, real),
                           comps: seq<Comp>, children: seq<EActor>)

  /** A component class the loader can create: its module and the attributes a fresh instance has. */
  datatype CompClass = CompClass(moduleName: string, attrs: map<string, Value>)

  /** The attribute names _serialize_actor leaves out of a component's properties. */
  const ActorSkip: set<string> := {"actor", "start", "update", "lateUpdate", "render"}

  /** Whether an attribute is saved as a property: public, not skipped, not callable. */
  predicate KeptProperty(k: string, v: Value, skip: set<string>)
  {
    !IsPrivate(k) && k !in skip && !v.VCallable?
  }

  /** The saved properties of an object: each kept attribute, through serialize_value. */
  function Properties(attrs: map<string, Value>, skip: set<string>, f: Value -> Value): (r: map<string, Value>)
    ensures forall k :: k in r <==> k in attrs && KeptProperty(k, attrs[k], skip)
  {
    map k | k in attrs && KeptProperty(k, attrs[k], skip) :: Serialize(attrs[k], f)
  }

  function Strs(s: seq<string>): (r: seq<Value>)
    ensures |r| == |s| && forall i :: 0 <= i < |s| ==> r[i] == VStr(s[i])
  {
    seq(|s|, i requires 0 <= i < |s| => VStr(s[i]))
  }

  /** list() of a Vector2. */
  function Vec(p: (real, real)): Value
  {
    VList([VFloat(p.0), VFloat(p.1)])
  }

  /** One entry of an actor's "components" list; dir() lists enabled, so it is among the properties too. */
  function ComponentData(c: Comp, f: Value -> Value): Value
  {
    VDict(map["type" := VStr(c.kind), "module" := VStr(c.moduleName), "enabled" := VBool(c.enabled),
              "properties" := VDict(Properties(c.attrs, ActorSkip, f)["enabled" := VBool(c.enabled)])])
  }

  function TransformData(a: EActor): Value
  {
    VDict(map["position" := Vec(a.position), "rotation" := VFloat(a.rotation), "scale" := Vec(a.scale)])
  }

  /** The "components" list of a saved actor. */
  function ComponentsData(cs: seq<Comp>, f: Value -> Value): (r: seq<Value>)
    ensures |r| == |cs| && forall i :: 0 <= i < |cs| ==> r[i] == ComponentData(cs[i], f)
  {
    seq(|cs|, i requires 0 <= i < |cs| => ComponentData(cs[i], f))
  }

  /** _serialize_actor, for an actor that has children: the children nest, serialized the same way. */
  function ActorData(a: EActor, f: Value -> Value): (r: Value)
    decreases a, 1
  {
    VDict(map["name" := VStr(a.name), "tags" := VList(Strs(a.tags)), "transform" := TransformData(a),
              "components" := VList(ComponentsData(a.comps, f)), "children" := VList(ChildrenData(a, f))])
  }

  /** The "children" list of a saved actor. */
  function ChildrenData(a: EActor, f: Value -> Value): (r: seq<Value>)
    ensures |r| == |a.children| && forall i :: 0 <= i < |a.children| ==> r[i] == ActorData(a.children[i], f)
    decreases a, 0
  {
    seq(|a.children|, i requires 0 <= i < |a.children| => ActorData(a.children[i], f))
  }

  /** The actors of a scene, serialized in order. */
  function ActorsData(actors: seq<EActor>, f: Value -> Value): (r: seq<Value>)
    ensures |r| == |actors| && forall i :: 0 <= i < |actors| ==> r[i] == ActorData(actors[i], f)
  {
    seq(|actors|, i requires 0 <= i < |actors| => ActorData(actors[i], f))
  }

  // ---------------------------------------------------------------------
  // Loading actors back

  /** dict.get(key, default). */
  function Get(m: map<string, Value>, key: string, default: Value): (r: Value)
    ensures key in m ==> r == m[key]
    ensures key !in m ==> r == default
  {
    if key in m then m[key] else default
  }

  /** tuple() of a saved Vector2: two numbers. */
  function Pair(v: Value): (r: Option<(real, real)>)
    ensures r.Some? <==> (v.VList? || v.VTuple?) && |Elements(v)| == 2 && IsNumber(Elements(v)[0]) && IsNumber(Elements(v)[1])
  {
    if (v.VList? || v.VTuple?) && |Elements(v)| == 2 && IsNumber(Elements(v)[0]) && IsNumber(Elements(v)[1]) then
      Some((AsReal(Elements(v)[0]), AsReal(Elements(v)[1])))
    else None
  }

  function Elements(v: Value): seq<Value>
    requires v.VList? || v.VTuple?
  {
    if v.VList? then v.items else v.elems
  }

  /** The tag loop: addTag for each string, in order; a tag already there is not added again. */
  function TagsFrom(items: seq<Value>, acc: seq<string>): (r: Option<seq<string>>)
    decreases |items|
  {
    if items == [] then Some(acc)
    else if !items[0].VStr? then None
    else TagsFrom(items[1..], CoreActor.InsertTag(acc, items[0].s))
  }

  /**
   * One entry of "components": None when looking at it raises (it is not a
   * dict, or its type cannot be hashed), which fails the whole actor;
   * Some(None) when the component is skipped with a warning.
   */
  function LoadComponent(cd: Value, registry: map<string, CompClass>): (r: Option<Option<Comp>>)
    ensures r.None? <==> !cd.VDict? || ("type" in cd.entries && (cd.entries["type"].VList? || cd.entries["type"].VDict?))
    ensures r.Some? && r.value.Some? ==> var c := r.value.value;
      "type" in cd.entries && cd.entries["type"] == VStr(c.kind) && c.kind in registry
      && c.moduleName == registry[c.kind].moduleName && c.attrs.Keys == registry[c.kind].attrs.Keys
  {
    if !cd.VDict? then None
    else
      var t := Get(cd.entries, "type", VNone);
      if t.VList? || t.VDict? then None
      else if !t.VStr? || t.s !in registry then Some(None)
      else
        var en := Get(cd.entries, "enabled", VBool(true));
        var props := Get(cd.entries, "properties", VDict(map[]));
        if !en.VBool? || !props.VDict? then Some(None)
        else Some(Some(Configured(t.s, registry[t.s], en.bval, props.entries)))
  }

  /**
   * A fresh component of the class, with enabled set, and then each saved
   * property it has set to the deserialized value; a property whose value
   * fails to deserialize is skipped.
   */
  function Configured(kind: string, cls: CompClass, enabled: bool, props: map<string, Value>): (c: Comp)
    ensures c.kind == kind && c.moduleName == cls.moduleName && c.attrs.Keys == cls.attrs.Keys
  {
    var e := if "enabled" in props && Deserialize(props["enabled"]).Some? && Deserialize(props["enabled"]).value.VBool?
      then Deserialize(props["enabled"]).value.bval else enabled;
    Comp(kind, cls.moduleName, e, Applied(cls.attrs, props))
  }

  /**
   * A fresh instance's attributes after each saved property it has (hasattr)
   * is set to its deserialized value; one that fails to deserialize is
   * skipped with a warning.
   */
  function Applied(init: map<string, Value>, props: map<string, Value>): (r: map<string, Value>)
    ensures r.Keys == init.Keys
    ensures forall k :: k in init && k in props && Deserialize(props[k]).Some? ==> r[k] == Deserialize(props[k]).value
    ensures forall k :: k in init && (k !in props || Deserialize(props[k]).None?) ==> r[k] == init[k]
  {
    map k | k in init :: if k in props && Deserialize(props[k]).Some? then Deserialize(props[k]).value else init[k]
  }

  /** The components created, in order; only meaningful when none of the entries raised. */
  function Created(loaded: seq<Option<Option<Comp>>>): seq<Comp>
  {
    if loaded == [] then []
    else (if loaded[0].Some? && loaded[0].value.Some? then [loaded[0].value.value] else []) + Created(loaded[1..])
  }

  /** The children loaded; a child that failed is left out. */
  function Present(children: seq<Option<EActor>>): seq<EActor>
  {
    if children == [] then []
    else (if children[0].Some? then [children[0].value] else []) + Present(children[1..])
  }

  /**
   * _deserialize_actor; None when it raises and returns None. With
   * canAddChild false, as for the actors of engine/actor/actor.py, any
   * child that loads makes actor.addChild raise.
   */
  function LoadActorWith(d: Value, registry: map<string, CompClass>, canAddChild: bool): (r: Option<EActor>)
    ensures r.Some? ==> d.VDict? && Get(d.entries, "name", VStr("Actor")) == VStr(r.value.name)
    decreases d, 1
  {
    if !d.VDict? then None
    else
      var m := d.entries;
      var name := Get(m, "name", VStr("Actor"));
      var tags := Get(m, "tags", VList([]));
      var tr := Get(m, "transform", VDict(map[]));
      var comps := Get(m, "components", VList([]));
      var kids := Get(m, "children", VList([]));
      if !name.VStr? || !tags.VList? || !tr.VDict? || !comps.VList? || !kids.VList? then None
      else
        var tagList := TagsFrom(tags.items, []);
        var pos := Pair(Get(tr.entries, "position", VList([VInt(0), VInt(0)])));
        var rot := Get(tr.entries, "rotation", VInt(0));
        var scale := Pair(Get(tr.entries, "scale", VList([VInt(1), VInt(1)])));
        var loaded := LoadedComponents(comps.items, registry);
        var children := if "children" in m then LoadedChildren(m["children"], registry, canAddChild) else [];
        if tagList.None? || pos.None? || !IsNumber(rot) || scale.None? then None
        else if AnyRaised(loaded) then None
        else if !canAddChild && AnyLoaded(children) then None
        else Some(EActor(name.s, tagList.value, pos.value, AsReal(rot), scale.value, Created(loaded), Present(children)))
  }

  /** Whether loading some component raised. */
  predicate AnyRaised(loaded: seq<Option<Option<Comp>>>)
  {
    exists i :: 0 <= i < |loaded| && loaded[i].None?
  }

  /** Whether some child loaded. */
  predicate AnyLoaded(children: seq<Option<EActor>>)
  {
    exists i :: 0 <= i < |children| && children[i].Some?
  }

  /** Each entry of "components", loaded. */
  function LoadedComponents(items: seq<Value>, registry: map<string, CompClass>): (r: seq<Option<Option<Comp>>>)
    ensures |r| == |items| && forall i :: 0 <= i < |items| ==> r[i] == LoadComponent(items[i], registry)
  {
    seq(|items|, i requires 0 <= i < |items| => LoadComponent(items[i], registry))
  }

  /** Each entry of "children", loaded. */
  function LoadedChildren(kids: Value, registry: map<string, CompClass>, canAddChild: bool): (r: seq<Option<EActor>>)
    requires kids.VList?
    ensures |r| == |kids.items| && forall i :: 0 <= i < |kids.items| ==> r[i] == LoadActorWith(kids.items[i], registry, canAddChild)
    decreases kids, 0
  {
    seq(|kids.items|, i requires 0 <= i < |kids.items| => LoadActorWith(kids.items[i], registry, canAddChild))
  }

  /** _deserialize_actor as written. */
  function LoadActorAsWritten(d: Value, registry: map<string, CompClass>): Option<EActor>
  {
    LoadActorWith(d, registry, false)
  }

  /** _deserialize_actor for actors that can take children. */
  function LoadActor(d: Value, registry: map<string, CompClass>): Option<EActor>
  {
    LoadActorWith(d, registry, true)
  }

  /** The saved form of a leaf actor with one child: loaded as written, the parent is dropped. */
  lemma ChildDropsParent(registry: map<string, CompClass>, f: Value -> Value)
    ensures var child := EActor("b", [], (0.0, 0.0), 0.0, (1.0, 1.0), [], []);
      var parent := EActor("a", [], (0.0, 0.0), 0.0, (1.0, 1.0), [], [child]);
      LoadActorAsWritten(ActorData(parent, f), registry).None? && LoadActor(ActorData(parent, f), registry) == Some(parent)
  {
    var child := EActor("b", [], (0.0, 0.0), 0.0, (1.0, 1.0), [], []);
    var parent := EActor("a", [], (0.0, 0.0), 0.0, (1.0, 1.0), [], [child]);
    assert Restorable(child, registry, f);
    ActorRoundTrip(parent, registry, f);
    ActorRoundTrip(child, registry, f);
    var cd := ActorData(child, f);
    assert cd.entries["children"] == VList([]);
    LoadWithoutChildren(cd, registry);
    var d := ActorData(parent, f);
    assert d.entries["children"] == VList([cd]);
    AnyChildDropsParent(d, registry, 0);
  }

  /** As written, a saved actor with any child that loads is itself never loaded. */
  lemma AnyChildDropsParent(d: Value, registry: map<string, CompClass>, i: nat)
    requires d.VDict? && "children" in d.entries && d.entries["children"].VList?
    requires i < |d.entries["children"].items| && LoadActorWith(d.entries["children"].items[i], registry, false).Some?
    ensures LoadActorAsWritten(d, registry).None?
  {
    var m := d.entries;
    var kids := LoadedChildren(m["children"], registry, false);
    assert kids[i].Some?;
    assert Get(m, "children", VList([])) == m["children"];
    assert AnyLoaded(kids);
  }

  /** Whether a loaded actor depends on being able to take children: not when it has none. */
  lemma LoadWithoutChildren(d: Value, registry: map<string, CompClass>)
    requires d.VDict? && ("children" !in d.entries || d.entries["children"] == VList([]))
    ensures LoadActorWith(d, registry, false) == LoadActorWith(d, registry, true)
  {
  }

  // ---------------------------------------------------------------------
  // The round trip

  /**
   * A component the loader gives back unchanged: its class is known and
   * has the same module and attributes, every saved property survives the
   * value codec, and every attribute not saved has the class's fresh value.
   */
  ghost predicate RestorableComp(c: Comp, registry: map<string, CompClass>, f: Value -> Value)
  {
    && c.kind in registry && registry[c.kind].moduleName == c.moduleName && registry[c.kind].attrs.Keys == c.attrs.Keys
    && "enabled" !in c.attrs
    && forall k :: k in c.attrs ==>
      if KeptProperty(k, c.attrs[k], ActorSkip) then Deserialize(Serialize(c.attrs[k], f)) == Some(c.attrs[k])
      else c.attrs[k] == registry[c.kind].attrs[k]
  }

  /** An actor the loader gives back unchanged: distinct tags, and restorable components and children. */
  ghost predicate Restorable(a: EActor, registry: map<string, CompClass>, f: Value -> Value)
  {
    && NoDup(a.tags)
    && (forall i :: 0 <= i < |a.comps| ==> RestorableComp(a.comps[i], registry, f))
    && (forall i :: 0 <= i < |a.children| ==> Restorable(a.children[i], registry, f))
  }

  lemma ComponentRoundTrip(c: Comp, registry: map<string, CompClass>, f: Value -> Value)
    requires RestorableComp(c, registry, f)
    ensures LoadComponent(ComponentData(c, f), registry) == Some(Some(c))
  {
    var p := Properties(c.attrs, ActorSkip, f)["enabled" := VBool(c.enabled)];
    var cls := registry[c.kind];
    assert ComponentData(c, f).entries["properties"] == VDict(p);
    var r := Configured(c.kind, cls, c.enabled, p);
    assert r.enabled == c.enabled;
    forall k | k in c.attrs
      ensures r.attrs[k] == c.attrs[k]
    {
      if KeptProperty(k, c.attrs[k], ActorSkip) {
        assert k in p && p[k] == Serialize(c.attrs[k], f);
      } else {
        assert k !in p;
      }
    }
    assert r.attrs == c.attrs;
  }

  lemma {:induction false} TagsRoundTrip(tags: seq<string>, acc: seq<string>)
    requires NoDup(acc + tags)
    ensures TagsFrom(Strs(tags), acc) == Some(acc + tags)
    decreases |tags|
  {
    if tags == [] {
      assert acc + tags == acc;
    } else {
      var items := Strs(tags);
      var t := tags[0];
      var next := acc + [t];
      assert items[0] == VStr(t);
      assert items[1..] == Strs(tags[1..]);
      assert t !in acc by {
        var whole := acc + tags;
        assert whole[|acc|] == t;
        forall j | 0 <= j < |acc|
          ensures acc[j] != t
        {
          assert whole[j] == acc[j];
        }
      }
      assert CoreActor.InsertTag(acc, t) == next;
      assert next + tags[1..] == acc + tags;
      TagsRoundTrip(tags[1..], next);
      assert TagsFrom(items, acc) == TagsFrom(items[1..], next);
    }
  }

  lemma {:induction false} CreatedAll(loaded: seq<Option<Option<Comp>>>, cs: seq<Comp>)
    requires |loaded| == |cs| && forall i :: 0 <= i < |cs| ==> loaded[i] == Some(Some(cs[i]))
    ensures Created(loaded) == cs
    decreases |cs|
  {
    if cs != [] {
      CreatedAll(loaded[1..], cs[1..]);
    }
  }

  lemma {:induction false} PresentAll(children: seq<Option<EActor>>, xs: seq<EActor>)
    requires |children| == |xs| && forall i :: 0 <= i < |xs| ==> children[i] == Some(xs[i])
    ensures Present(children) == xs
    decreases |xs|
  {
    if xs != [] {
      PresentAll(children[1..], xs[1..]);
    }
  }

  /** Loading a saved actor gives it back, with every component and child. */
  lemma {:induction false} ActorRoundTrip(a: EActor, registry: map<string, CompClass>, f: Value -> Value)
    requires Restorable(a, registry, f)
    ensures LoadActor(ActorData(a, f), registry) == Some(a)
    decreases a
  {
    var kids := VList(ChildrenData(a, f));
    var children := LoadedChildren(kids, registry, true);
    forall i | 0 <= i < |a.children| ensures children[i] == Some(a.children[i]) {
      ActorRoundTrip(a.children[i], registry, f);
    }
    PresentAll(children, a.children);
    ComponentsRoundTrip(a.comps, registry, f);
    TagsRoundTrip(a.tags, []);
    assert [] + a.tags == a.tags;
    LoadActorParts(a, registry, f);
  }

  /** The saved components of an actor all load, and give the same list back. */
  lemma ComponentsRoundTrip(cs: seq<Comp>, registry: map<string, CompClass>, f: Value -> Value)
    requires forall i :: 0 <= i < |cs| ==> RestorableComp(cs[i], registry, f)
    ensures var loaded := LoadedComponents(ComponentsData(cs, f), registry);
      (forall i :: 0 <= i < |cs| ==> loaded[i].Some?) && Created(loaded) == cs
  {
    var loaded := LoadedComponents(ComponentsData(cs, f), registry);
    forall i | 0 <= i < |cs| ensures loaded[i] == Some(Some(cs[i])) {
      ComponentRoundTrip(cs[i], registry, f);
    }
    CreatedAll(loaded, cs);
  }

  /** Unfolds LoadActor on a saved actor, given what its parts load to. */
  lemma LoadActorParts(a: EActor, registry: map<string, CompClass>, f: Value -> Value)
    requires TagsFrom(Strs(a.tags), []) == Some(a.tags)
    requires var loaded := LoadedComponents(ComponentsData(a.comps, f), registry);
      (forall i :: 0 <= i < |a.comps| ==> loaded[i].Some?) && Created(loaded) == a.comps
    requires Present(LoadedChildren(VList(ChildrenData(a, f)), registry, true)) == a.children
    ensures LoadActor(ActorData(a, f), registry) == Some(a)
  {
    var d := ActorData(a, f);
    ActorDataEntries(a, f);
    LoadFromEntries(d, registry, a);
  }

  /** The entries of a saved actor, one by one. */
  lemma ActorDataEntries(a: EActor, f: Value -> Value)
    ensures var m := ActorData(a, f).entries;
      && "name" in m && m["name"] == VStr(a.name)
      && "tags" in m && m["tags"] == VList(Strs(a.tags))
      && "transform" in m && m["transform"] == TransformData(a)
      && "components" in m && m["components"] == VList(ComponentsData(a.comps, f))
      && "children" in m && m["children"] == VList(ChildrenData(a, f))
  {
  }

  /** LoadActor on any dict whose entries load to the parts of an actor. */
  lemma LoadFromEntries(d: Value, registry: map<string, CompClass>, a: EActor)
    requires d.VDict? && "name" in d.entries && d.entries["name"] == VStr(a.name)
    requires "tags" in d.entries && d.entries["tags"].VList? && TagsFrom(d.entries["tags"].items, []) == Some(a.tags)
    requires "transform" in d.entries && d.entries["transform"] == TransformData(a)
    requires "components" in d.entries && d.entries["components"].VList?
    requires var loaded := LoadedComponents(d.entries["components"].items, registry);
      (forall i :: 0 <= i < |loaded| ==> loaded[i].Some?) && Created(loaded) == a.comps
    requires "children" in d.entries && d.entries["children"].VList?
    requires Present(LoadedChildren(d.entries["children"], registry, true)) == a.children
    ensures LoadActor(d, registry) == Some(a)
  {
    var t := TransformData(a).entries;
    assert Pair(t["position"]) == Some(a.position);
    assert Pair(t["scale"]) == Some(a.scale);
  }

  // ---------------------------------------------------------------------
  // UI widgets as the editor saves them

  /**
   * A widget: class name and module, name, rect (x, y, width, height),
   * visibility, enabled flag, its other attributes, and its children.
   */
  datatype EWidget = EWidget(kind: string, moduleName: string, name: string, rect: (int, int, int, int),
                             visible: bool, enabled: bool, attrs: map<string, Value>, children: seq<EWidget>)

  /** A widget class the loader can create: its module and the attributes a fresh instance has. */
  datatype WidgetClass = WidgetClass(moduleName: string, attrs: map<string, Value>)

  /** The attribute names _serialize_widget leaves out of the properties: it saves them itself. */
  const WidgetSkip: set<string> := {"parent", "children", "rect", "name", "visible", "enabled", "lambda_scripts"}

  /**
   * _serialize_widget. Widget of engine/ui/widget.py has no lambda_scripts,
   * so that entry is always empty.
   */
  function WidgetData(w: EWidget, f: Value -> Value): (r: Value)
    decreases w, 1
  {
    VDict(map["type" := VStr(w.kind), "module" := VStr(w.moduleName), "name" := VStr(w.name),
              "rect" := VList([VInt(w.rect.0), VInt(w.rect.1), VInt(w.rect.2), VInt(w.rect.3)]),
              "visible" := VBool(w.visible), "enabled" := VBool(w.enabled),
              "properties" := VDict(Properties(w.attrs, WidgetSkip, f)), "lambda_scripts" := VDict(map[]),
              "children" := VList(WidgetChildrenData(w, f))])
  }

  /** The "children" list of a saved widget. */
  function WidgetChildrenData(w: EWidget, f: Value -> Value): (r: seq<Value>)
    ensures |r| == |w.children| && forall i :: 0 <= i < |w.children| ==> r[i] == WidgetData(w.children[i], f)
    decreases w, 0
  {
    seq(|w.children|, i requires 0 <= i < |w.children| => WidgetData(w.children[i], f))
  }

  /** The root widgets of a scene, serialized in order. */
  function WidgetsData(ws: seq<EWidget>, f: Value -> Value): (r: seq<Value>)
    ensures |r| == |ws| && forall i :: 0 <= i < |ws| ==> r[i] == WidgetData(ws[i], f)
  {
    seq(|ws|, i requires 0 <= i < |ws| => WidgetData(ws[i], f))
  }

  /** pygame.Rect(*rect_data), for a list or tuple of four integers. */
  function RectFrom(v: Value): (r: Option<(int, int, int, int)>)
    ensures r.Some? <==> (v.VList? || v.VTuple?) && |Elements(v)| == 4 && forall i :: 0 <= i < 4 ==> Elements(v)[i].VInt?
  {
    if (v.VList? || v.VTuple?) && |Elements(v)| == 4 && forall i :: 0 <= i < 4 ==> Elements(v)[i].VInt? then
      var e := Elements(v);
      Some((e[0].i, e[1].i, e[2].i, e[3].i))
    else None
  }

  /**
   * _deserialize_widget; None when the type is unknown or building the
   * widget raises. Each child that loads is added with add_child.
   */
  function LoadWidget(d: Value, registry: map<string, WidgetClass>): (r: Option<EWidget>)
    ensures r.Some? ==> var w := r.value;
      d.VDict? && "type" in d.entries && d.entries["type"] == VStr(w.kind) && w.kind in registry
      && w.moduleName == registry[w.kind].moduleName && w.attrs.Keys == registry[w.kind].attrs.Keys
    decreases d, 1
  {
    if !d.VDict? then None
    else
      var m := d.entries;
      var t := Get(m, "type", VNone);
      var rect := RectFrom(Get(m, "rect", VList([VInt(0), VInt(0), VInt(100), VInt(100)])));
      var name := Get(m, "name", VStr(""));
      var vis := Get(m, "visible", VBool(true));
      var en := Get(m, "enabled", VBool(true));
      var props := Get(m, "properties", VDict(map[]));
      var kids := Get(m, "children", VList([]));
      if !t.VStr? || t.s !in registry || rect.None? || !name.VStr? || !vis.VBool? || !en.VBool? || !props.VDict? || !kids.VList? then None
      else
        var children := if "children" in m then LoadedWidgets(m["children"], registry) else [];
        Some(EWidget(t.s, registry[t.s].moduleName, name.s, rect.value, vis.bval, en.bval,
                     Applied(registry[t.s].attrs, props.entries), PresentWidgets(children)))
  }

  /** Each entry of a widget's "children", loaded. */
  function LoadedWidgets(kids: Value, registry: map<string, WidgetClass>): (r: seq<Option<EWidget>>)
    requires kids.VList?
    ensures |r| == |kids.items| && forall i :: 0 <= i < |kids.items| ==> r[i] == LoadWidget(kids.items[i], registry)
    decreases kids, 0
  {
    seq(|kids.items|, i requires 0 <= i < |kids.items| => LoadWidget(kids.items[i], registry))
  }

  /** The widgets loaded; one that failed is left out. */
  function PresentWidgets(ws: seq<Option<EWidget>>): seq<EWidget>
  {
    if ws == [] then []
    else (if ws[0].Some? then [ws[0].value] else []) + PresentWidgets(ws[1..])
  }

  /**
   * A widget the loader gives back unchanged: its class is known, with the
   * same module and attributes; no attribute shadows a field saved on its
   * own; every saved property survives the value codec, every other
   * attribute has the class's fresh value; and its children are restorable.
   */
  ghost predicate RestorableWidget(w: EWidget, registry: map<string, WidgetClass>, f: Value -> Value)
  {
    && w.kind in registry && registry[w.kind].moduleName == w.moduleName && registry[w.kind].attrs.Keys == w.attrs.Keys
    && (forall k :: k in w.attrs ==> k !in WidgetSkip)
    && (forall k :: k in w.attrs ==>
      if KeptProperty(k, w.attrs[k], WidgetSkip) then Deserialize(Serialize(w.attrs[k], f)) == Some(w.attrs[k])
      else w.attrs[k] == registry[w.kind].attrs[k])
    && (forall i :: 0 <= i < |w.children| ==> RestorableWidget(w.children[i], registry, f))
  }

  lemma {:induction false} PresentWidgetsAll(ws: seq<Option<EWidget>>, xs: seq<EWidget>)
    requires |ws| == |xs| && forall i :: 0 <= i < |xs| ==> ws[i] == Some(xs[i])
    ensures PresentWidgets(ws) == xs
    decreases |xs|
  {
    if xs != [] {
      PresentWidgetsAll(ws[1..], xs[1..]);
    }
  }

  /** The saved attributes of a restorable widget come back as they were. */
  lemma WidgetAttrsRoundTrip(w: EWidget, registry: map<string, WidgetClass>, f: Value -> Value)
    requires RestorableWidget(w, registry, f)
    ensures Applied(registry[w.kind].attrs, Properties(w.attrs, WidgetSkip, f)) == w.attrs
  {
    var p := Properties(w.attrs, WidgetSkip, f);
    var r := Applied(registry[w.kind].attrs, p);
    forall k | k in w.attrs
      ensures r[k] == w.attrs[k]
    {
      if KeptProperty(k, w.attrs[k], WidgetSkip) {
        assert k in p && p[k] == Serialize(w.attrs[k], f);
      } else {
        assert k !in p;
      }
    }
  }

  /** Loading a saved widget gives it back, with every attribute and child. */
  lemma {:induction false} WidgetRoundTrip(w: EWidget, registry: map<string, WidgetClass>, f: Value -> Value)
    requires RestorableWidget(w, registry, f)
    ensures LoadWidget(WidgetData(w, f), registry) == Some(w)
    decreases w
  {
    var kids := VList(WidgetChildrenData(w, f));
    var children := LoadedWidgets(kids, registry);
    forall i | 0 <= i < |w.children| ensures children[i] == Some(w.children[i]) {
      WidgetRoundTrip(w.children[i], registry, f);
    }
    PresentWidgetsAll(children, w.children);
    WidgetAttrsRoundTrip(w, registry, f);
    LoadWidgetParts(w, registry, f);
  }

  /** Unfolds LoadWidget on a saved widget, given what its parts load to. */
  lemma LoadWidgetParts(w: EWidget, registry: map<string, WidgetClass>, f: Value -> Value)
    requires w.kind in registry && registry[w.kind].moduleName == w.moduleName
    requires Applied(registry[w.kind].attrs, Properties(w.attrs, WidgetSkip, f)) == w.attrs
    requires PresentWidgets(LoadedWidgets(VList(WidgetChildrenData(w, f)), registry)) == w.children
    ensures LoadWidget(WidgetData(w, f), registry) == Some(w)
  {
    var d := WidgetData(w, f);
    WidgetDataEntries(w, f);
    LoadWidgetFromEntries(d, registry, w, Properties(w.attrs, WidgetSkip, f));
  }

  /** The entries of a saved widget. */
  lemma WidgetDataEntries(w: EWidget, f: Value -> Value)
    ensures var d := WidgetData(w, f);
      && d.VDict? && "type" in d.entries && d.entries["type"] == VStr(w.kind)
      && "rect" in d.entries && RectFrom(d.entries["rect"]) == Some(w.rect)
      && "name" in d.entries && d.entries["name"] == VStr(w.name)
      && "visible" in d.entries && d.entries["visible"] == VBool(w.visible)
      && "enabled" in d.entries && d.entries["enabled"] == VBool(w.enabled)
      && "properties" in d.entries && d.entries["properties"] == VDict(Properties(w.attrs, WidgetSkip, f))
      && "children" in d.entries && d.entries["children"] == VList(WidgetChildrenData(w, f))
  {
    var m := WidgetData(w, f).entries;
    assert m["rect"] == VList([VInt(w.rect.0), VInt(w.rect.1), VInt(w.rect.2), VInt(w.rect.3)]);
  }

  /** LoadWidget on any dict whose entries load to the parts of a widget. */
  lemma LoadWidgetFromEntries(d: Value, registry: map<string, WidgetClass>, w: EWidget, props: map<string, Value>)
    requires d.VDict? && "type" in d.entries && d.entries["type"] == VStr(w.kind)
    requires w.kind in registry && registry[w.kind].moduleName == w.moduleName
    requires "rect" in d.entries && RectFrom(d.entries["rect"]) == Some(w.rect)
    requires "name" in d.entries && d.entries["name"] == VStr(w.name)
    requires "visible" in d.entries && d.entries["visible"] == VBool(w.visible)
    requires "enabled" in d.entries && d.entries["enabled"] == VBool(w.enabled)
    requires "properties" in d.entries && d.entries["properties"] == VDict(props)
    requires Applied(registry[w.kind].attrs, props) == w.attrs
    requires "children" in d.entries && d.entries["children"].VList?
    requires PresentWidgets(LoadedWidgets(d.entries["children"], registry)) == w.children
    ensures LoadWidget(d, registry) == Some(w)
  {
  }

  // ---------------------------------------------------------------------
  // The whole scene

  /** serialize, with actors saved by ActorData; the engine scene has no lambda_scripts and no physicsSpace. */
  function SceneData(name: Value, metadata: Value, actors: seq<EActor>, roots: seq<EWidget>, f: Value -> Value): (r: Value)
    ensures r.VDict? && r.entries.Keys == {"metadata", "name", "actors", "ui", "lambda_scripts", "physics"}
    ensures r.entries["name"] == name && r.entries["metadata"] == metadata
    ensures r.entries["actors"].VList? && |r.entries["actors"].items| == |actors|
    ensures r.entries["ui"].VList? && |r.entries["ui"].items| == |roots|
  {
    VDict(map["metadata" := metadata, "name" := name, "actors" := VList(ActorsData(actors, f)),
              "ui" := VList(WidgetsData(roots, f)), "lambda_scripts" := VDict(map[]),
              "physics" := VDict(map["gravity" := VList([VInt(0), VInt(900)])])])
  }

  /**
   * serialize as written: the actors the editor creates are those of
   * engine/actor/actor.py, which have no `children`, so _serialize_actor
   * raises AttributeError on the first actor and serialize passes it on.
   */
  function SceneDataAsWritten(name: Value, metadata: Value, actors: seq<EActor>, roots: seq<EWidget>, f: Value -> Value)
    : Result<Value>
  {
    if actors == [] then Ok(SceneData(name, metadata, [], roots, f))
    else Err(AttributeError("'Actor' object has no attribute 'children'"))
  }

  /** As written, a scene saves exactly when it has no actor, and then as SceneData does. */
  lemma SerializeRaisesWithAnyActor(name: Value, metadata: Value, actors: seq<EActor>, roots: seq<EWidget>, f: Value -> Value)
    ensures SceneDataAsWritten(name, metadata, actors, roots, f).Ok? <==> actors == []
    ensures actors == [] ==> SceneDataAsWritten(name, metadata, actors, roots, f) == Ok(SceneData(name, metadata, actors, roots, f))
    ensures actors != [] ==> SceneDataAsWritten(name, metadata, actors, roots, f).error.AttributeError?
  {
  }

  /**
   * A for loop over a loaded value: a list or tuple gives its items. A dict
   * gives its keys and a string its characters, all strings, from which no
   * actor or widget loads, so they add nothing. Anything else raises
   * TypeError.
   */
  function Iterated(v: Value): (r: Option<seq<Value>>)
    ensures r.None? <==> !(v.VList? || v.VTuple? || v.VDict? || v.VStr?)
    ensures v.VList? ==> r == Some(v.items)
  {
    if v.VList? then Some(v.items)
    else if v.VTuple? then Some(v.elems)
    else if v.VDict? || v.VStr? then Some([])
    else None
  }

  function NotIterable(v: Value): Error
  {
    TypeError("'" + TypeName(v) + "' object is not iterable")
  }

  const DefaultMetadata: Value := VDict(map["version" := VStr("1.0"), "created_with" := VStr("Scene Editor"), "description" := VStr("")])

  function NamesOf(actors: seq<EActor>): (r: seq<string>)
    ensures |r| == |actors| && forall i :: 0 <= i < |actors| ==> r[i] == actors[i].name
  {
    seq(|actors|, i requires 0 <= i < |actors| => actors[i].name)
  }

  /** Each entry of the "actors" list, loaded. */
  function LoadedActors(items: seq<Value>, registry: map<string, CompClass>): (r: seq<Option<EActor>>)
    ensures |r| == |items| && forall i :: 0 <= i < |items| ==> r[i] == LoadActor(items[i], registry)
  {
    seq(|items|, i requires 0 <= i < |items| => LoadActor(items[i], registry))
  }

  /** Each entry of the "ui" list, loaded. */
  function LoadedRoots(items: seq<Value>, registry: map<string, WidgetClass>): (r: seq<Option<EWidget>>)
    ensures |r| == |items| && forall i :: 0 <= i < |items| ==> r[i] == LoadWidget(items[i], registry)
  {
    seq(|items|, i requires 0 <= i < |items| => LoadWidget(items[i], registry))
  }

  /**
   * The actor loop of deserialize, over the entries as loaded, from the
   * actors `acc` already added with the names `names` in the lookup: each
   * actor that loaded is added, until one whose name is taken makes
   * addActor raise; that name is the second component.
   */
  function AddLoaded(loaded: seq<Option<EActor>>, acc: seq<EActor>, names: set<string>): (seq<EActor>, Option<string>)
    decreases |loaded|
  {
    if loaded == [] then (acc, None)
    else if loaded[0].None? then AddLoaded(loaded[1..], acc, names)
    else if loaded[0].value.name in names then (acc, Some(loaded[0].value.name))
    else AddLoaded(loaded[1..], acc + [loaded[0].value], names + {loaded[0].value.name})
  }

  /** The loop keeps the actor names distinct and only ever appends. */
  lemma {:induction false} AddLoadedDistinct(loaded: seq<Option<EActor>>, acc: seq<EActor>, names: set<string>)
    requires NoDup(NamesOf(acc)) && forall i :: 0 <= i < |acc| ==> acc[i].name in names
    ensures NoDup(NamesOf(AddLoaded(loaded, acc, names).0))
    ensures |acc| <= |AddLoaded(loaded, acc, names).0| && AddLoaded(loaded, acc, names).0[..|acc|] == acc
    decreases |loaded|
  {
    if loaded != [] {
      if loaded[0].Some? && loaded[0].value.name !in names {
        var a := loaded[0].value;
        var acc' := acc + [a];
        forall i, j | 0 <= i < j < |acc'| ensures NamesOf(acc')[i] != NamesOf(acc')[j] {
          if j < |acc| {
            assert NamesOf(acc)[i] != NamesOf(acc)[j];
          }
        }
        AddLoadedDistinct(loaded[1..], acc', names + {a.name});
        var r := AddLoaded(loaded[1..], acc', names + {a.name}).0;
        assert r[..|acc|] == r[..|acc'|][..|acc|];
      } else if loaded[0].None? {
        AddLoadedDistinct(loaded[1..], acc, names);
      }
    }
  }

  /** Actors that all loaded, with distinct names none of which is taken, are all added, in order. */
  lemma {:induction false} AddLoadedAll(loaded: seq<Option<EActor>>, actors: seq<EActor>, acc: seq<EActor>, names: set<string>)
    requires |loaded| == |actors| && forall i :: 0 <= i < |actors| ==> loaded[i] == Some(actors[i])
    requires NoDup(NamesOf(actors)) && forall i :: 0 <= i < |actors| ==> actors[i].name !in names
    ensures AddLoaded(loaded, acc, names) == (acc + actors, None)
    decreases |actors|
  {
    if actors == [] {
      assert acc + actors == acc;
    } else {
      forall i, j | 0 <= i < j < |actors[1..]| ensures NamesOf(actors[1..])[i] != NamesOf(actors[1..])[j] {
        assert NamesOf(actors)[i + 1] != NamesOf(actors)[j + 1];
      }
      forall i | 0 <= i < |actors[1..]| ensures actors[1..][i].name !in names + {actors[0].name} {
        assert NamesOf(actors)[0] != NamesOf(actors)[i + 1];
      }
      AddLoadedAll(loaded[1..], actors[1..], acc + [actors[0]], names + {actors[0].name});
      assert acc + [actors[0]] + actors[1..] == acc + actors;
    }
  }

  /** The widget loop of deserialize: each widget that loaded is appended. */
  function AddWidgets(loaded: seq<Option<EWidget>>, acc: seq<EWidget>): (r: seq<EWidget>)
    ensures r == acc + PresentWidgets(loaded)
    decreases |loaded|
  {
    if loaded == [] then acc
    else
      var r := AddWidgets(loaded[1..], if loaded[0].Some? then acc + [loaded[0].value] else acc);
      assert (if loaded[0].Some? then [loaded[0].value] else []) + PresentWidgets(loaded[1..]) == PresentWidgets(loaded);
      r
  }

  /**
   * What deserialize leaves: the error it raises, if any; the actors and
   * root widgets of the scene; and whether it ran to mark_clean.
   */
  datatype SceneLoad = SceneLoad(err: Option<Error>, actors: seq<EActor>, widgets: seq<EWidget>, clean: bool)

  /** deserialize on a loaded file, as a function of the data. */
  function LoadScene(data: Value, registry: map<string, CompClass>, wregistry: map<string, WidgetClass>): (r: SceneLoad)
    ensures r.clean <==> r.err.None?
  {
    if !data.VDict? then SceneLoad(Some(AttributeError("'" + TypeName(data) + "' object has no attribute 'get'")), [], [], false)
    else LoadEntries(data.entries, registry, wregistry)
  }

  /** deserialize on a dict, once the scene has been emptied. */
  function LoadEntries(m: map<string, Value>, registry: map<string, CompClass>, wregistry: map<string, WidgetClass>): (r: SceneLoad)
    ensures r.clean <==> r.err.None?
  {
    var av := Get(m, "actors", VList([]));
    if Iterated(av).None? then SceneLoad(Some(NotIterable(av)), [], [], false)
    else
      var added := AddLoaded(LoadedActors(Iterated(av).value, registry), [], {});
      if added.1.Some? then
        SceneLoad(Some(ValueError("Actor with name '" + added.1.value + "' already exists in the scene.")), added.0, [], false)
      else
        var uv := Get(m, "ui", VList([]));
        if Iterated(uv).None? then SceneLoad(Some(NotIterable(uv)), added.0, [], false)
        else SceneLoad(None, added.0, PresentWidgets(LoadedRoots(Iterated(uv).value, wregistry)), true)
  }

  /** Whether a scene's contents load back: restorable actors with distinct names, restorable widgets. */
  ghost predicate RestorableScene(actors: seq<EActor>, roots: seq<EWidget>, registry: map<string, CompClass>,
                                  wregistry: map<string, WidgetClass>, f: Value -> Value)
  {
    && (forall i :: 0 <= i < |actors| ==> Restorable(actors[i], registry, f)) && NoDup(NamesOf(actors))
    && (forall i :: 0 <= i < |roots| ==> RestorableWidget(roots[i], wregistry, f))
  }

  /** A saved scene loads back cleanly, with the same actors and widgets. */
  lemma SceneRoundTrip(name: Value, metadata: Value, actors: seq<EActor>, roots: seq<EWidget>,
                       registry: map<string, CompClass>, wregistry: map<string, WidgetClass>, f: Value -> Value)
    requires RestorableScene(actors, roots, registry, wregistry, f)
    ensures LoadScene(SceneData(name, metadata, actors, roots, f), registry, wregistry) == SceneLoad(None, actors, roots, true)
  {
    var d := SceneData(name, metadata, actors, roots, f);
    assert d.entries["actors"] == VList(ActorsData(actors, f));
    assert d.entries["ui"] == VList(WidgetsData(roots, f));
    var loaded := LoadedActors(ActorsData(actors, f), registry);
    forall i | 0 <= i < |actors| ensures loaded[i] == Some(actors[i]) {
      ActorRoundTrip(actors[i], registry, f);
    }
    AddLoadedAll(loaded, actors, [], {});
    var roots' := LoadedRoots(WidgetsData(roots, f), wregistry);
    forall i | 0 <= i < |roots| ensures roots'[i] == Some(roots[i]) {
      WidgetRoundTrip(roots[i], wregistry, f);
    }
    PresentWidgetsAll(roots', roots);
    assert [] + actors == actors;
  }

  /** The objects of a list of ids. */
  function ObjectsOf(ids: seq<Id>, objects: map<Id, EActor>): (r: seq<EActor>)
    requires forall id :: id in ids ==> id in objects
    ensures |r| == |ids| && forall i :: 0 <= i < |ids| ==> r[i] == objects[ids[i]]
  {
    seq(|ids|, i requires 0 <= i < |ids| => objects[ids[i]])
  }

  /**
   * EditorScene: a name, the engine scene, the file it was last saved to or
   * loaded from, the dirty flag and the metadata. The engine scene holds
   * actors by id; `objects` maps each id to the actor, and `nextId` is the
   * next unused id. widgets and rootWidgets are the two lists of the
   * editor's stand-in UI manager (DummyUIManager of editor/editor_dummy.py).
   */
  class EditorScene {
    var name: Value
    const scene: StrictScene
    var objects: map<Id, EActor>
    var nextId: nat
    var widgets: seq<EWidget>
    var rootWidgets: seq<EWidget>
    var filePath: Option<string>
    var isDirty: bool
    var metadata: Value

    ghost predicate Valid()
      reads this, scene
    {
      && scene.Valid()
      && (forall id :: id in scene.actors ==> id in objects)
      && (forall id :: id in objects ==> id < nextId)
    }

    /** The fields other than the actors: what the actor loop leaves alone. */
    function Meta(): (Value, Value, Option<string>, bool, seq<EWidget>, seq<EWidget>, bool, bool)
      reads this, scene
    {
      (name, metadata, filePath, isDirty, widgets, rootWidgets, scene.active, scene.paused)
    }

    /** Whether every actor of the engine scene has its object. */
    predicate Known()
      reads this, scene
    {
      forall id :: id in scene.actors ==> id in objects
    }

    /** The actors of the engine scene, in order. */
    function Actors(): (r: seq<EActor>)
      reads this, scene
      requires Known()
      ensures r == ObjectsOf(scene.actors, objects)
    {
      ObjectsOf(scene.actors, objects)
    }

    /** EditorScene(name): an empty scene, clean, with no file and the default metadata. */
    constructor (name: string)
      ensures Valid() && fresh(scene)
      ensures this.name == VStr(name) && scene.actors == [] && scene.lookup == map[] && scene.byTag == map[]
      ensures scene.active && !scene.paused
      ensures widgets == [] && rootWidgets == [] && filePath == None && !isDirty && metadata == DefaultMetadata
    {
      this.name := VStr(name);
      scene := new StrictScene();
      objects := map[];
      nextId := 0;
      widgets, rootWidgets := [], [];
      filePath := None;
      isDirty := false;
      metadata := DefaultMetadata;
    }

    /** mark_dirty. */
    method MarkDirty()
      modifies this
      ensures isDirty
      ensures name == old(name) && objects == old(objects) && nextId == old(nextId) && widgets == old(widgets)
      ensures rootWidgets == old(rootWidgets) && filePath == old(filePath) && metadata == old(metadata)
    {
      isDirty := true;
    }

    /** mark_clean. */
    method MarkClean()
      modifies this
      ensures !isDirty
      ensures name == old(name) && objects == old(objects) && nextId == old(nextId) && widgets == old(widgets)
      ensures rootWidgets == old(rootWidgets) && filePath == old(filePath) && metadata == old(metadata)
    {
      isDirty := false;
    }

    /**
     * add_actor: the engine scene's addActor, which raises ValueError for a
     * name already present; only when it succeeds is the scene marked dirty.
     */
    method AddActor(a: EActor) returns (err: Option<Error>)
      requires Valid()
      modifies this, scene
      ensures Valid()
      ensures err.Some? <==> a.name in old(scene.lookup)
      ensures err.Some? ==> err.value == ValueError("Actor with name '" + a.name + "' already exists in the scene.")
      ensures err.Some? ==> Actors() == old(Actors()) && scene.lookup == old(scene.lookup) && isDirty == old(isDirty)
      ensures err.None? ==> Actors() == old(Actors()) + [a] && isDirty
      ensures err.None? ==> scene.lookup == old(scene.lookup)[a.name := old(nextId)]
      ensures err.None? ==> scene.byTag == AddTags(old(scene.byTag), old(nextId), a.tags)
      ensures name == old(name) && widgets == old(widgets) && rootWidgets == old(rootWidgets)
      ensures filePath == old(filePath) && metadata == old(metadata)
      ensures scene.active == old(scene.active) && scene.paused == old(scene.paused)
    {
      err := AddObject(a);
      if err.None? {
        isDirty := true;
      }
    }

    /** scene.addActor on a new actor object: a fresh id, and the object recorded when the call succeeds. */
    method AddObject(a: EActor) returns (err: Option<Error>)
      requires Valid()
      modifies this, scene
      ensures Valid()
      ensures err.Some? <==> a.name in old(scene.lookup)
      ensures err.Some? ==> err.value == ValueError("Actor with name '" + a.name + "' already exists in the scene.")
      ensures err.Some? ==> Actors() == old(Actors()) && scene.lookup == old(scene.lookup)
      ensures err.None? ==> Actors() == old(Actors()) + [a]
      ensures err.None? ==> scene.lookup == old(scene.lookup)[a.name := old(nextId)]
      ensures err.None? ==> scene.byTag == AddTags(old(scene.byTag), old(nextId), a.tags)
      ensures Meta() == old(Meta())
    {
      ghost var before := Actors();
      var id := nextId;
      nextId := nextId + 1;
      err := scene.AddActor(id, a.name, a.tags);
      if err.None? {
        objects := objects[id := a];
        assert scene.actors[|before|] == id;
        assert forall i :: 0 <= i < |before| ==> scene.actors[i] != id;
      }
    }

    /**
     * remove_actor: the engine scene's removeActor, which raises ValueError
     * for an unknown name, an actor not in the list, or a tag bucket that
     * lacks it; only when it succeeds is the scene marked dirty.
     */
    method RemoveActor(id: Id, a: EActor) returns (err: Option<Error>)
      requires Valid()
      modifies this, scene
      ensures Valid()
      ensures a.name !in old(scene.lookup) ==> err == Some(ValueError("Actor with name '" + a.name + "' does not exist in the scene."))
      ensures a.name in old(scene.lookup) && id !in old(scene.actors) ==> err == Some(RemoveMissing)
      ensures a.name in old(scene.lookup) && id in old(scene.actors) ==>
        scene.actors == RemoveFirst(old(scene.actors), id) && scene.lookup == old(scene.lookup) - {a.name}
      ensures err.Some? ==> err.value.ValueError? && isDirty == old(isDirty)
      ensures err.None? ==> isDirty
      ensures name == old(name) && objects == old(objects) && widgets == old(widgets) && rootWidgets == old(rootWidgets)
      ensures filePath == old(filePath) && metadata == old(metadata)
    {
      err := scene.RemoveActor(id, a.name, a.tags);
      assert forall x :: x in scene.actors ==> x in old(scene.actors);
      if err.None? {
        isDirty := true;
      }
    }

    /** serialize, with each actor saved by ActorData. */
    method Serialize(f: Value -> Value) returns (r: Value)
      requires Known()
      ensures r == SceneData(name, metadata, Actors(), rootWidgets, f)
    {
      r := SceneData(name, metadata, Actors(), rootWidgets, f);
    }

    /**
     * deserialize: the engine scene's actors, lookup and tag buckets and the
     * UI manager's lists are emptied; then the metadata (default {}) and
     * name (default "Untitled Scene") are set, the actors and widgets load,
     * and the scene is marked clean. An exception leaves what was done so
     * far and the dirty flag as it was.
     */
    method Deserialize(data: Value, registry: map<string, CompClass>, wregistry: map<string, WidgetClass>)
      returns (err: Option<Error>)
      requires Valid()
      modifies this, scene
      ensures Valid()
      ensures var o := LoadScene(data, registry, wregistry);
        && err == o.err && Actors() == o.actors && widgets == o.widgets && rootWidgets == o.widgets
        && isDirty == (if o.clean then false else old(isDirty))
      ensures data.VDict? ==> metadata == Get(data.entries, "metadata", VDict(map[]))
      ensures data.VDict? ==> name == Get(data.entries, "name", VStr("Untitled Scene"))
      ensures !data.VDict? ==> metadata == old(metadata) && name == old(name)
      ensures filePath == old(filePath) && scene.active == old(scene.active) && scene.paused == old(scene.paused)
    {
      scene.actors, scene.lookup, scene.byTag := [], map[], map[];
      widgets, rootWidgets := [], [];
      if !data.VDict? {
        return Some(AttributeError("'" + TypeName(data) + "' object has no attribute 'get'"));
      }
      metadata := Get(data.entries, "metadata", VDict(map[]));
      name := Get(data.entries, "name", VStr("Untitled Scene"));
      err := LoadContents(data.entries, registry, wregistry);
    }

    /** The actors and widgets deserialize loads into the emptied scene, then mark_clean. */
    method LoadContents(m: map<string, Value>, registry: map<string, CompClass>, wregistry: map<string, WidgetClass>)
      returns (err: Option<Error>)
      requires Valid() && scene.actors == [] && scene.lookup == map[] && widgets == [] && rootWidgets == []
      modifies this, scene
      ensures Valid()
      ensures var o := LoadEntries(m, registry, wregistry);
        && err == o.err && Actors() == o.actors && widgets == o.widgets && rootWidgets == o.widgets
        && isDirty == (if o.clean then false else old(isDirty))
      ensures name == old(name) && metadata == old(metadata)
      ensures filePath == old(filePath) && scene.active == old(scene.active) && scene.paused == old(scene.paused)
    {
      var av := Get(m, "actors", VList([]));
      var items := Iterated(av);
      if items.None? {
        return Some(NotIterable(av));
      }
      assert Actors() == [] && scene.lookup.Keys == {};
      err := AddActors(LoadedActors(items.value, registry));
      if err.Some? {
        return;
      }
      var uv := Get(m, "ui", VList([]));
      var ws := Iterated(uv);
      if ws.None? {
        return Some(NotIterable(uv));
      }
      AddWidgetList(LoadedRoots(ws.value, wregistry));
      isDirty := false;
    }

    /** The actor loop of deserialize: each entry that loads goes to the engine scene's addActor. */
    method AddActors(loaded: seq<Option<EActor>>) returns (err: Option<Error>)
      requires Valid()
      modifies this, scene
      ensures Valid()
      ensures var r := AddLoaded(loaded, old(Actors()), old(scene.lookup.Keys));
        && Actors() == r.0 && (err.Some? <==> r.1.Some?)
        && (r.1.Some? ==> err == Some(ValueError("Actor with name '" + r.1.value + "' already exists in the scene.")))
      ensures Meta() == old(Meta())
    {
      ghost var goal := AddLoaded(loaded, old(Actors()), old(scene.lookup.Keys));
      var i := 0;
      while i < |loaded|
        invariant 0 <= i <= |loaded| && Valid()
        invariant AddLoaded(loaded[i..], Actors(), scene.lookup.Keys) == goal
        invariant Meta() == old(Meta())
      {
        var a := loaded[i];
        ghost var before, keys := Actors(), scene.lookup.Keys;
        assert loaded[i..][0] == loaded[i] && loaded[i..][1..] == loaded[i + 1..];
        if a.Some? {
          err := AddObject(a.value);
          if err.Some? {
            return;
          }
          assert Actors() == before + [a.value] && scene.lookup.Keys == keys + {a.value.name};
        }
        i := i + 1;
      }
      err := None;
    }

    /** The widget loop of deserialize: each widget that loads goes to add_widget, and has no parent. */
    method AddWidgetList(loaded: seq<Option<EWidget>>)
      requires widgets == rootWidgets
      modifies this
      ensures widgets == rootWidgets == old(widgets) + PresentWidgets(loaded)
      ensures name == old(name) && objects == old(objects) && nextId == old(nextId)
      ensures filePath == old(filePath) && metadata == old(metadata) && isDirty == old(isDirty)
    {
      var i := 0;
      while i < |loaded|
        invariant 0 <= i <= |loaded| && widgets == rootWidgets
        invariant AddWidgets(loaded[i..], widgets) == AddWidgets(loaded, old(widgets))
        invariant name == old(name) && objects == old(objects) && nextId == old(nextId)
        invariant filePath == old(filePath) && metadata == old(metadata) && isDirty == old(isDirty)
      {
        var w := loaded[i];
        if w.Some? {
          widgets := widgets + [w.value];
          rootWidgets := rootWidgets + [w.value];
        }
        assert loaded[i..][1..] == loaded[i + 1..];
        i := i + 1;
      }
    }

    /** save_to_file: the saved data, then the file path recorded and the scene clean. */
    method SaveToFile(path: string, f: Value -> Value) returns (data: Value)
      requires Known()
      modifies this
      ensures data == old(SceneData(name, metadata, Actors(), rootWidgets, f))
      ensures filePath == Some(path) && !isDirty
      ensures name == old(name) && objects == old(objects) && nextId == old(nextId) && widgets == old(widgets)
      ensures rootWidgets == old(rootWidgets) && metadata == old(metadata)
    {
      data := Serialize(f);
      filePath := Some(path);
      isDirty := false;
    }

    /**
     * load_from_file, with the file's parsed contents (or the error reading
     * or parsing it raised) as a parameter: on success the file path is
     * recorded and the scene is clean.
     */
    method LoadFromFile(path: string, content: Result<Value>, registry: map<string, CompClass>,
                        wregistry: map<string, WidgetClass>) returns (err: Option<Error>)
      requires Valid()
      modifies this, scene
      ensures Valid()
      ensures content.Err? ==> err == Some(content.error) && filePath == old(filePath) && isDirty == old(isDirty)
      ensures content.Err? ==> Actors() == old(Actors()) && widgets == old(widgets) && name == old(name)
      ensures content.Ok? ==>
        (var o := LoadScene(content.value, registry, wregistry);
         && err == o.err && Actors() == o.actors && widgets == o.widgets && rootWidgets == o.widgets
         && (o.err.None? ==> filePath == Some(path) && !isDirty)
         && (o.err.Some? ==> filePath == old(filePath) && isDirty == old(isDirty)))
    {
      if content.Err? {
        return Some(content.error);
      }
      err := Deserialize(content.value, registry, wregistry);
      if err.None? {
        filePath := Some(path);
        isDirty := false;
      }
    }
  }
}
