/**
 * The standalone scene editor of editor/editor.py: its EditorScene (actors
 * looked up by name and indexed by tag, UI elements looked up by name,
 * lambda-script lists per lifecycle event, and the reset-then-load of
 * deserialize), the recent-files list of EditorSettings, and the
 * parent-chain test the actor tree uses before it re-parents an actor on
 * a drop.
 *
 * Actors and widgets are objects, because the scene renames them in place
 * and the lists and lookups hold them by identity. An actor's tags are a
 * set, so the tag loops visit them in no particular order; the model picks
 * the next tag nondeterministically.
 */
module Editor {
  import opened Wrappers
  import opened Values
  import opened Hierarchy
  import opened Naming
  import EditorUtils
  import ES = EditorScenes

  /** The lifecycle events a scene keeps lambda scripts for. */
  const EventTypes: set<string> := {"onEnter", "onExit", "onPause", "onResume", "update", "lateUpdate", "preRender", "postRender"}

  /** Scripts are kept for exactly the eight lifecycle events. */
  ghost predicate Lifecycle(scripts: map<string, seq<string>>)
  {
    scripts.Keys == EventTypes
  }

  /** The actor as the editor uses it: a name, a set of tags, a parent, and the scene it was added to. */
  class Actor {
    var name: string
    var tags: set<string>
    var parent: Actor?
    var scene: EditorScene?

    constructor (name: string, tags: set<string>)
      ensures this.name == name && this.tags == tags && parent == null && scene == null
    {
      this.name := name;
      this.tags := tags;
      parent := null;
      scene := null;
    }
  }

  /** What a saved UI element records: its name, its rect and its two flags. */
  datatype UIInfo = UIInfo(name: string, rect: (int, int, int, int), visible: Value, enabled: Value)

  /** A UI element: renamed in place when its name is taken. */
  class Widget {
    var name: string
    var rect: (int, int, int, int)
    var visible: Value
    var enabled: Value

    constructor (info: UIInfo)
      ensures name == info.name && rect == info.rect && visible == info.visible && enabled == info.enabled
    {
      name := info.name;
      rect := info.rect;
      visible := info.visible;
      enabled := info.enabled;
    }
  }

  // ---------------------------------------------------------------------
  // The tag index

  type Buckets = map<string, seq<Actor>>

  /** removeActor deletes a bucket once it is empty, and addActor never leaves one empty. */
  ghost predicate NonEmpty(b: Buckets)
  {
    forall t :: t in b ==> |b[t]| > 0
  }

  /** The index once the actor has joined the bucket of each tag of `tags`; a missing bucket is created first. */
  function Indexed(b: Buckets, a: Actor, tags: set<string>): Buckets
  {
    map t | t in b.Keys + tags :: (if t in b then b[t] else []) + (if t in tags then [a] else [])
  }

  /** The index once the actor has been taken out of the bucket of each tag of `tags`; emptied buckets go. */
  function Unindexed(b: Buckets, a: Actor, tags: set<string>): Buckets
  {
    map t | t in b && (t !in tags || |RemoveFirst(b[t], a)| > 0) :: if t in tags then RemoveFirst(b[t], a) else b[t]
  }

  lemma IndexedNone(b: Buckets, a: Actor)
    ensures Indexed(b, a, {}) == b
  {
    assert Indexed(b, a, {}).Keys == b.Keys;
    forall t | t in b ensures Indexed(b, a, {})[t] == b[t] {
      assert b[t] + [] == b[t];
    }
  }

  lemma UnindexedNone(b: Buckets, a: Actor)
    ensures Unindexed(b, a, {}) == b
  {
    assert Unindexed(b, a, {}).Keys == b.Keys;
  }

  /** One more tag for addActor's loop. */
  lemma IndexedStep(b: Buckets, a: Actor, done: set<string>, t: string)
    requires t !in done
    ensures var u := Indexed(b, a, done);
      Indexed(b, a, done + {t}) == u[t := (if t in u then u[t] else []) + [a]]
  {
    var u := Indexed(b, a, done);
    var l := Indexed(b, a, done + {t});
    var r := u[t := (if t in u then u[t] else []) + [a]];
    assert l.Keys == r.Keys;
    forall k | k in l ensures l[k] == r[k] {
    }
  }

  /** One more tag for removeActor's loop, when its bucket holds the actor. */
  lemma UnindexedStep(b: Buckets, a: Actor, done: set<string>, t: string)
    requires t !in done && t in b && a in b[t]
    ensures var u := Unindexed(b, a, done);
      t in u && u[t] == b[t]
      && Unindexed(b, a, done + {t}) == (var v := u[t := RemoveFirst(u[t], a)]; if |v[t]| == 0 then v - {t} else v)
  {
    var u := Unindexed(b, a, done);
    assert t in u;
    var v := u[t := RemoveFirst(u[t], a)];
    var l := Unindexed(b, a, done + {t});
    var r := if |v[t]| == 0 then v - {t} else v;
    assert l.Keys == r.Keys;
    forall k | k in l ensures l[k] == r[k] {
    }
  }

  /** A tag without a bucket changes nothing in removeActor's loop. */
  lemma UnindexedSkip(b: Buckets, a: Actor, done: set<string>, t: string)
    requires t !in b
    ensures Unindexed(b, a, done + {t}) == Unindexed(b, a, done)
  {
    var l := Unindexed(b, a, done + {t});
    var r := Unindexed(b, a, done);
    assert l.Keys == r.Keys;
  }

  /**
   * Joining the buckets of its tags puts the actor in each of them, creates
   * the missing ones, leaves the others alone and keeps every bucket
   * non-empty.
   */
  lemma IndexedMembers(b: Buckets, a: Actor, tags: set<string>)
    ensures Indexed(b, a, tags).Keys == b.Keys + tags
    ensures forall t :: t in tags ==> a in Indexed(b, a, tags)[t]
    ensures forall t, x :: t in b && x in b[t] ==> x in Indexed(b, a, tags)[t]
    ensures forall t :: t in b && t !in tags ==> Indexed(b, a, tags)[t] == b[t]
    ensures NonEmpty(b) ==> NonEmpty(Indexed(b, a, tags))
  {
    var r := Indexed(b, a, tags);
    forall t | t in tags ensures a in r[t] {
      assert r[t][|r[t]| - 1] == a;
    }
  }

  /**
   * Leaving the buckets of its tags takes one occurrence of the actor out of
   * each of them, deletes the buckets that become empty, creates none and
   * keeps every bucket non-empty.
   */
  lemma UnindexedMembers(b: Buckets, a: Actor, tags: set<string>)
    ensures Unindexed(b, a, tags).Keys <= b.Keys
    ensures forall t :: t in b && t !in tags ==> t in Unindexed(b, a, tags) && Unindexed(b, a, tags)[t] == b[t]
    ensures forall t :: t in tags && t in b && a in b[t] && |b[t]| > 1 ==> |Unindexed(b, a, tags)[t]| == |b[t]| - 1
    ensures forall t :: t in tags && t in b && NoDup(b[t]) && t in Unindexed(b, a, tags) ==> a !in Unindexed(b, a, tags)[t]
    ensures NonEmpty(b) ==> NonEmpty(Unindexed(b, a, tags))
  {
  }

  lemma LeftKeys(b: Buckets, a: Actor, tags: set<string>)
    requires NonEmpty(b)
    requires forall t :: t in tags ==> RemoveFirst(Indexed(b, a, tags)[t], a) == (if t in b then b[t] else [])
    ensures Unindexed(Indexed(b, a, tags), a, tags).Keys == b.Keys
  {
  }

  /** Removing an actor with the tags it was added with, when it was in no bucket, gives the index back. */
  lemma UnindexUndoesIndex(b: Buckets, a: Actor, tags: set<string>)
    requires NonEmpty(b)
    requires forall t :: t in b ==> a !in b[t]
    ensures Unindexed(Indexed(b, a, tags), a, tags) == b
  {
    var i := Indexed(b, a, tags);
    var l := Unindexed(i, a, tags);
    forall t | t in tags
      ensures RemoveFirst(i[t], a) == (if t in b then b[t] else [])
    {
      RemoveAppended(if t in b then b[t] else [], a);
    }
    LeftKeys(b, a, tags);
    forall t | t in l ensures l[t] == b[t] {
    }
  }

  // ---------------------------------------------------------------------
  // Saved UI elements

  /** The rect a saved element records when it records none. */
  const DefaultRect: Value := VList([VInt(0), VInt(0), VInt(100), VInt(30)])

  /** pygame.Rect(r[0], r[1], r[2], r[3]) for a saved rect: four integers read by index. */
  function RectOf(v: Value): (r: Option<(int, int, int, int)>)
    ensures (v.VList? || v.VTuple?) ==> (r.Some? <==> |ES.Elements(v)| >= 4 && forall i :: 0 <= i < 4 ==> IsIntLike(ES.Elements(v)[i]))
    ensures v.VRect? ==> r == Some((v.rx, v.ry, v.w, v.h))
    ensures !(v.VList? || v.VTuple? || v.VRect? || v.VColor?) ==> r.None?
  {
    if v.VRect? then Some((v.rx, v.ry, v.w, v.h))
    else if v.VColor? then Some((v.r, v.g, v.b, v.a))
    else if (v.VList? || v.VTuple?) && |ES.Elements(v)| >= 4 then
      var e := ES.Elements(v);
      if IsIntLike(e[0]) && IsIntLike(e[1]) && IsIntLike(e[2]) && IsIntLike(e[3]) then
        Some((AsInt(e[0]), AsInt(e[1]), AsInt(e[2]), AsInt(e[3])))
      else None
    else None
  }

  /** _serializeUIElement: the name, class, module, rect as a list, both flags and the element's scripts. */
  function UIData(w: UIInfo, cls: string, moduleName: string, scripts: Value): map<string, Value>
  {
    map["name" := VStr(w.name), "type" := VStr(cls), "module" := VStr(moduleName),
        "rect" := VList([VInt(w.rect.0), VInt(w.rect.1), VInt(w.rect.2), VInt(w.rect.3)]),
        "visible" := w.visible, "enabled" := w.enabled, "lambda_scripts" := scripts]
  }

  /**
   * _deserializeUIElement as evidently intended: a dict with a usable rect
   * (default 0, 0, 100, 30) gives an element named by "name" (default
   * "UIElement") with its two flags (default True); anything that raises on
   * the way gives None.
   */
  function UIFromData(d: Value): (r: Option<UIInfo>)
    ensures !d.VDict? ==> r.None?
    ensures d.VDict? ==> (r.Some? <==> RectOf(ES.Get(d.entries, "rect", DefaultRect)).Some? && ES.Get(d.entries, "name", VStr("UIElement")).VStr?)
    ensures r.Some? ==> r.value.visible == ES.Get(d.entries, "visible", VBool(true)) && r.value.enabled == ES.Get(d.entries, "enabled", VBool(true))
  {
    if !d.VDict? then None
    else
      var rect := RectOf(ES.Get(d.entries, "rect", DefaultRect));
      var name := ES.Get(d.entries, "name", VStr("UIElement"));
      if rect.None? || !name.VStr? then None
      else Some(UIInfo(name.s, rect.value, ES.Get(d.entries, "visible", VBool(true)), ES.Get(d.entries, "enabled", VBool(true))))
  }

  /**
   * _deserializeUIElement as written: it calls the Widget constructor, but
   * Widget declares render abstract (engine/ui/widget.py:193-196), so Python
   * refuses to instantiate it; the TypeError is caught and None comes back
   * for every input.
   */
  function UIFromDataAsWritten(d: Value): (r: Option<UIInfo>)
    ensures r.None?
  {
    None
  }

  /** A saved element loads back as itself. */
  lemma UIRoundTrip(w: UIInfo, cls: string, moduleName: string, scripts: Value)
    ensures UIFromData(VDict(UIData(w, cls, moduleName, scripts))) == Some(w)
  {
    var d := UIData(w, cls, moduleName, scripts);
    assert ES.Get(d, "rect", DefaultRect) == VList([VInt(w.rect.0), VInt(w.rect.1), VInt(w.rect.2), VInt(w.rect.3)]);
    assert ES.Get(d, "name", VStr("UIElement")) == VStr(w.name);
  }

  /** An empty dict gives the default element. */
  lemma UIDefaults()
    ensures UIFromData(VDict(map[])) == Some(UIInfo("UIElement", (0, 0, 100, 30), VBool(true), VBool(true)))
  {
    assert ES.Elements(DefaultRect) == [VInt(0), VInt(0), VInt(100), VInt(30)];
  }

  /** As written, not even an element the editor saved itself loads back. */
  lemma AsWrittenLosesSavedElement(w: UIInfo, cls: string, moduleName: string, scripts: Value)
    ensures UIFromDataAsWritten(VDict(UIData(w, cls, moduleName, scripts))).None?
    ensures UIFromData(VDict(UIData(w, cls, moduleName, scripts))).Some?
  {
    UIRoundTrip(w, cls, moduleName, scripts);
  }

  /** Whether `for x in v` runs: lists, tuples, dicts, strings and the pygame vector, colour and rect types iterate. */
  predicate Iterable(v: Value)
  {
    v.VList? || v.VTuple? || v.VDict? || v.VStr? || v.VVec2? || v.VColor? || v.VRect?
  }

  /**
   * The entries of a saved element list that can be dicts. Iterating a dict
   * or a string yields strings and iterating a vector, colour or rect yields
   * numbers; none of them is a dict, so none of them gives an element.
   */
  function UIEntries(v: Value): (r: seq<Value>)
    ensures (v.VList? || v.VTuple?) ==> r == ES.Elements(v)
    ensures !(v.VList? || v.VTuple?) ==> r == []
  {
    if v.VList? || v.VTuple? then ES.Elements(v) else []
  }

  /** The elements the entries give, in order, skipping those that give None. */
  function Parsed(entries: seq<Value>): (r: seq<UIInfo>)
    ensures |r| <= |entries|
    ensures forall w :: w in r ==> exists e :: e in entries && UIFromData(e) == Some(w)
  {
    if |entries| == 0 then []
    else
      var rest := Parsed(entries[1..]);
      var here := UIFromData(entries[0]);
      if here.Some? then [here.value] + rest else rest
  }

  /** The four entries deserialize reads from a saved scene, each with its default. */
  datatype SavedScene = SavedScene(actors: Value, uiElements: Value, active: Value, paused: Value)

  function ReadSaved(data: map<string, Value>): SavedScene
  {
    SavedScene(ES.Get(data, "actors", VList([])), ES.Get(data, "ui_elements", VList([])),
               ES.Get(data, "active", VBool(true)), ES.Get(data, "paused", VBool(false)))
  }

  /** The error the load loops raise when the saved value cannot be iterated. */
  function NotIterable(v: Value): Error
  {
    TypeError("'" + EditorUtils.TypeName(v) + "' object is not iterable")
  }

  /** The attributes of the Actor class editor.py imports (engine/actor/actor.py:3-66). */
  const ActorClassAttributes: set<string> := {"__init__", "setName", "addComponent", "removeComponent", "getComponent",
    "addTag", "removeTag", "handleUpdate", "update", "handleRender", "render"}

  /** Calling a class method of that Actor: None when it exists, else the AttributeError of the lookup. */
  function ActorClassCall(name: string): (r: Option<Error>)
    ensures r.None? <==> name in ActorClassAttributes
    ensures r.Some? ==> r.value.AttributeError?
  {
    if name in ActorClassAttributes then None else Some(AttributeError("type object 'Actor' has no attribute '" + name + "'"))
  }

  /** The class methods deserialize calls to build the actors and then to link them. */
  const BuildLoader := "createFromSerializedData"
  const LinkLoader := "establishRelationshipsFromSerialization"

  /** Neither class method deserialize calls to rebuild the actors exists on that Actor. */
  lemma ActorLoadersMissing()
    ensures ActorClassCall(BuildLoader).Some? && ActorClassCall(LinkLoader).Some?
  {
    assert forall m :: m in ActorClassAttributes ==> |m| < |BuildLoader| < |LinkLoader|;
  }

  /** An iterable saved list that yields no entry. */
  predicate NoEntries(v: Value)
  {
    v == VList([]) || v == VTuple([]) || v == VDict(map[]) || v == VStr("")
  }

  /**
   * The error deserialize raises as written once the scene is cleared: a
   * saved actor list that cannot be iterated raises TypeError; otherwise
   * createFromSerializedData is looked up for the first saved actor or,
   * with none, establishRelationshipsFromSerialization, and both lookups
   * fail.
   */
  function LoadErrorAsWritten(data: map<string, Value>): (r: Error)
    ensures Iterable(ReadSaved(data).actors) ==> r.AttributeError?
    ensures !Iterable(ReadSaved(data).actors) ==> r == NotIterable(ReadSaved(data).actors)
  {
    var actorsEntry := ReadSaved(data).actors;
    if !Iterable(actorsEntry) then NotIterable(actorsEntry)
    else
      var missing := if NoEntries(actorsEntry) then LinkLoader else BuildLoader;
      ActorLoadersMissing();
      ActorClassCall(missing).value
  }

  // ---------------------------------------------------------------------
  // The editor's scene

  class EditorScene {
    var actors: seq<Actor>
    var actorLookup: map<string, Actor>
    var byTag: Buckets
    var uiElements: seq<Widget>
    var uiLookup: map<string, Widget>
    var active: Value
    var paused: Value
    var lambdaScripts: map<string, seq<string>>

    /** No tag bucket is empty: addActor never leaves one empty and removeActor deletes those it empties. */
    ghost predicate Valid()
      reads this
    {
      NonEmpty(byTag)
    }

    /** What the actor operations leave alone: the UI elements, the flags and the scripts. */
    function NonActors(): (seq<Widget>, map<string, Widget>, Value, Value, map<string, seq<string>>)
      reads this
    {
      (uiElements, uiLookup, active, paused, lambdaScripts)
    }

    /** What the UI operations leave alone: the actors, the flags and the scripts. */
    function NonUI(): (seq<Actor>, map<string, Actor>, Buckets, Value, Value, map<string, seq<string>>)
      reads this
    {
      (actors, actorLookup, byTag, active, paused, lambdaScripts)
    }

    /** What the script operations leave alone. */
    function NonScripts(): (seq<Actor>, map<string, Actor>, Buckets, seq<Widget>, map<string, Widget>, Value, Value)
      reads this
    {
      (actors, actorLookup, byTag, uiElements, uiLookup, active, paused)
    }

    /** A fresh scene: nothing in it, active, not paused, no scripts. */
    constructor ()
      ensures Valid() && Lifecycle(lambdaScripts)
      ensures actors == [] && actorLookup == map[] && byTag == map[] && uiElements == [] && uiLookup == map[]
      ensures active == VBool(true) && paused == VBool(false)
      ensures forall e :: e in EventTypes ==> lambdaScripts[e] == []
    {
      actors := [];
      actorLookup := map[];
      byTag := map[];
      uiElements := [];
      uiLookup := map[];
      active := VBool(true);
      paused := VBool(false);
      lambdaScripts := map e | e in EventTypes :: [];
    }

    /**
     * addActor: an actor whose name is taken is renamed to name_N with the
     * smallest N >= 1 that is free; it then points at this scene, is
     * appended, becomes the entry for its name and joins the bucket of each
     * of its tags.
     */
    method AddActor(a: Actor)
      requires Valid()
      modifies this, a
      ensures Valid()
      ensures a.name !in old(actorLookup) && IsFirstFree(old(actorLookup).Keys, old(a.name), a.name)
      ensures a.scene == this && a.tags == old(a.tags) && a.parent == old(a.parent)
      ensures actors == old(actors) + [a] && actorLookup == old(actorLookup)[a.name := a]
      ensures byTag == Indexed(old(byTag), a, a.tags)
      ensures NonActors() == old(NonActors())
    {
      var name := UniqueName(actorLookup.Keys, a.name);
      a.name := name;
      a.scene := this;
      actors := actors + [a];
      actorLookup := actorLookup[a.name := a];
      JoinTags(a, a.tags);
    }

    /** addActor's tag loop: the actor joins the bucket of each tag, which is created when missing. */
    method JoinTags(a: Actor, tags: set<string>)
      requires NonEmpty(byTag)
      modifies this
      ensures byTag == Indexed(old(byTag), a, tags) && NonEmpty(byTag)
      ensures actors == old(actors) && actorLookup == old(actorLookup) && NonActors() == old(NonActors())
    {
      var rest := tags;
      IndexedNone(old(byTag), a);
      while rest != {}
        invariant rest <= tags
        invariant byTag == Indexed(old(byTag), a, tags - rest)
        invariant actors == old(actors) && actorLookup == old(actorLookup) && NonActors() == old(NonActors())
        decreases rest
      {
        var t :| t in rest;
        IndexedStep(old(byTag), a, tags - rest, t);
        var bucket := if t in byTag then byTag[t] else [];
        byTag := byTag[t := bucket + [a]];
        assert tags - (rest - {t}) == (tags - rest) + {t};
        rest := rest - {t};
      }
      assert tags - rest == tags;
      IndexedMembers(old(byTag), a, tags);
    }

    /** What removeActor needs to finish: the name is indexed, the actor is listed, and each bucket of its tags holds it. */
    ghost predicate Removable(a: Actor)
      reads this, a
    {
      a.name in actorLookup && a in actors && forall t :: t in a.tags && t in byTag ==> a in byTag[t]
    }

    /**
     * removeActor: ValueError for a name that is not indexed. Otherwise the
     * actor no longer points at the scene, leaves the list and the lookup,
     * and leaves the bucket of each of its tags, deleting buckets that
     * empty. list.remove raises ValueError when the actor is not in the
     * list, or not in the bucket of one of its tags; the steps before the
     * failing one stay done.
     */
    method RemoveActor(a: Actor) returns (err: Option<Error>)
      requires Valid()
      modifies this, a
      ensures Valid()
      ensures err.None? <==> old(Removable(a))
      ensures old(a.name) !in old(actorLookup) ==> err == Some(ValueError("Actor with name '" + a.name + "' does not exist in the scene.")) && unchanged(this, a)
      ensures old(a.name) in old(actorLookup) ==> a.scene == null
      ensures old(a.name) in old(actorLookup) && a !in old(actors) ==> err == Some(ValueError("list.remove(x): x not in list")) && unchanged(this)
      ensures old(a.name) in old(actorLookup) && a in old(actors) ==> actors == RemoveFirst(old(actors), a) && actorLookup == old(actorLookup) - {a.name}
      ensures err.None? ==> byTag == Unindexed(old(byTag), a, a.tags)
      ensures a.name == old(a.name) && a.tags == old(a.tags) && a.parent == old(a.parent)
      ensures NonActors() == old(NonActors())
    {
      if a.name !in actorLookup {
        return Some(ValueError("Actor with name '" + a.name + "' does not exist in the scene."));
      }
      a.scene := null;
      if a !in actors {
        return Some(ValueError("list.remove(x): x not in list"));
      }
      actors := RemoveFirst(actors, a);
      actorLookup := actorLookup - {a.name};
      var tags := a.tags;
      var rest := tags;
      UnindexedNone(old(byTag), a);
      while rest != {}
        invariant rest <= tags
        invariant forall t :: t in tags - rest && t in old(byTag) ==> a in old(byTag)[t]
        invariant byTag == Unindexed(old(byTag), a, tags - rest)
        invariant actors == RemoveFirst(old(actors), a) && actorLookup == old(actorLookup) - {a.name}
        invariant a.scene == null && a.name == old(a.name) && a.tags == tags && a.parent == old(a.parent)
        invariant NonEmpty(byTag) && NonActors() == old(NonActors())
        modifies this
        decreases rest
      {
        var t :| t in rest;
        assert tags - (rest - {t}) == (tags - rest) + {t};
        if t in byTag {
          if a !in byTag[t] {
            UnindexedMembers(old(byTag), a, tags - rest);
            return Some(ValueError("list.remove(x): x not in list"));
          }
          UnindexedStep(old(byTag), a, tags - rest, t);
          byTag := byTag[t := RemoveFirst(byTag[t], a)];
          if |byTag[t]| == 0 {
            byTag := byTag - {t};
          }
        } else {
          UnindexedSkip(old(byTag), a, tags - rest, t);
        }
        rest := rest - {t};
      }
      assert tags - rest == tags;
      UnindexedMembers(old(byTag), a, tags);
      err := None;
    }

    /** addUIElement: the same renaming as addActor, then append and index by name. */
    method AddUIElement(w: Widget)
      modifies this, w
      ensures w.name !in old(uiLookup) && IsFirstFree(old(uiLookup).Keys, old(w.name), w.name)
      ensures uiElements == old(uiElements) + [w] && uiLookup == old(uiLookup)[w.name := w]
      ensures w.rect == old(w.rect) && w.visible == old(w.visible) && w.enabled == old(w.enabled)
      ensures NonUI() == old(NonUI())
    {
      var name := UniqueName(uiLookup.Keys, w.name);
      w.name := name;
      uiElements := uiElements + [w];
      uiLookup := uiLookup[w.name := w];
    }

    /** removeUIElement: ValueError for a name that is not indexed or an element that is not listed; otherwise it leaves both. */
    method RemoveUIElement(w: Widget) returns (err: Option<Error>)
      modifies this
      ensures err.None? <==> w.name in old(uiLookup) && w in old(uiElements)
      ensures w.name !in old(uiLookup) ==> err == Some(ValueError("UI element with name '" + w.name + "' does not exist in the scene."))
      ensures w.name in old(uiLookup) && w !in old(uiElements) ==> err == Some(ValueError("list.remove(x): x not in list"))
      ensures err.Some? ==> uiElements == old(uiElements) && uiLookup == old(uiLookup)
      ensures err.None? ==> uiElements == RemoveFirst(old(uiElements), w) && uiLookup == old(uiLookup) - {w.name}
      ensures NonUI() == old(NonUI())
    {
      if w.name !in uiLookup {
        return Some(ValueError("UI element with name '" + w.name + "' does not exist in the scene."));
      }
      if w !in uiElements {
        return Some(ValueError("list.remove(x): x not in list"));
      }
      uiElements := RemoveFirst(uiElements, w);
      uiLookup := uiLookup - {w.name};
      err := None;
    }

    /** add_lambda_script: appends for a known event; for any other event only a warning is printed (known is false). */
    method AddLambdaScript(event: string, script: string) returns (known: bool)
      requires Lifecycle(lambdaScripts)
      modifies this
      ensures Lifecycle(lambdaScripts)
      ensures known <==> event in EventTypes
      ensures known ==> lambdaScripts == old(lambdaScripts)[event := old(lambdaScripts)[event] + [script]]
      ensures !known ==> lambdaScripts == old(lambdaScripts)
      ensures NonScripts() == old(NonScripts())
    {
      known := event in lambdaScripts;
      if known {
        lambdaScripts := lambdaScripts[event := lambdaScripts[event] + [script]];
      }
    }

    /** remove_lambda_script: removes the first copy of a present script and changes nothing otherwise. */
    method RemoveLambdaScript(event: string, script: string)
      requires Lifecycle(lambdaScripts)
      modifies this
      ensures Lifecycle(lambdaScripts)
      ensures event in EventTypes && script in old(lambdaScripts)[event] ==>
        lambdaScripts == old(lambdaScripts)[event := RemoveFirst(old(lambdaScripts)[event], script)]
      ensures !(event in EventTypes && script in old(lambdaScripts)[event]) ==> lambdaScripts == old(lambdaScripts)
      ensures NonScripts() == old(NonScripts())
    {
      if event in lambdaScripts && script in lambdaScripts[event] {
        lambdaScripts := lambdaScripts[event := RemoveFirst(lambdaScripts[event], script)];
      }
    }

    /** clear_lambda_scripts: empties the list of a known event. */
    method ClearLambdaScripts(event: string)
      requires Lifecycle(lambdaScripts)
      modifies this
      ensures Lifecycle(lambdaScripts)
      ensures event in EventTypes ==> lambdaScripts == old(lambdaScripts)[event := []]
      ensures event !in EventTypes ==> lambdaScripts == old(lambdaScripts)
      ensures NonScripts() == old(NonScripts())
    {
      if event in lambdaScripts {
        lambdaScripts := lambdaScripts[event := []];
      }
    }

    /** Every listed actor is found under its name and in the bucket of each of its tags. */
    ghost predicate Indexes(made: seq<Actor>, n: int, lookup: map<string, Actor>, buckets: Buckets)
      requires 0 <= n <= |made|
      reads made
    {
      forall j :: 0 <= j < n ==>
        made[j].scene == this && made[j].name in lookup && lookup[made[j].name] == made[j]
        && forall t :: t in made[j].tags ==> t in buckets && made[j] in buckets[t]
    }

    /** One step of the load loop: the i-th loaded actor is added, and the earlier ones stay indexed. */
    method AddLoaded(made: seq<Actor>, i: nat)
      requires Valid() && NoDup(made) && i < |made|
      requires |actorLookup| == i && Indexes(made, i, actorLookup, byTag)
      modifies this, made[i]
      ensures Valid()
      ensures actors == old(actors) + [made[i]] && |actorLookup| == i + 1 && Indexes(made, i + 1, actorLookup, byTag)
      ensures made[i].tags == old(made[i].tags) && made[i].parent == old(made[i].parent)
      ensures NonActors() == old(NonActors())
    {
      ghost var before := byTag;
      ghost var lookupBefore := actorLookup;
      AddActor(made[i]);
      IndexedMembers(before, made[i], made[i].tags);
      forall j | 0 <= j < i + 1
        ensures made[j].scene == this && made[j].name in actorLookup && actorLookup[made[j].name] == made[j]
        ensures forall t :: t in made[j].tags ==> t in byTag && made[j] in byTag[t]
      {
        if j < i {
          assert made[j] != made[i];
          assert made[j].name in lookupBefore && lookupBefore[made[j].name] == made[j];
        }
      }
    }

    /** Adds the loaded actors one by one to a scene that holds no actors. */
    method AddAll(made: seq<Actor>)
      requires Valid() && NoDup(made) && actors == [] && actorLookup == map[]
      modifies this, made
      ensures Valid()
      ensures actors == made && |actorLookup| == |made| && Indexes(made, |made|, actorLookup, byTag)
      ensures forall j :: 0 <= j < |made| ==> made[j].tags == old(made[j].tags) && made[j].parent == old(made[j].parent)
      ensures NonActors() == old(NonActors())
    {
      var i := 0;
      while i < |made|
        invariant 0 <= i <= |made|
        invariant Valid()
        invariant actors == made[..i] && |actorLookup| == i && Indexes(made, i, actorLookup, byTag)
        invariant forall j :: 0 <= j < |made| ==> made[j].tags == old(made[j].tags) && made[j].parent == old(made[j].parent)
        invariant NonActors() == old(NonActors())
      {
        AddLoaded(made, i);
        assert made[..i + 1] == made[..i] + [made[i]];
        i := i + 1;
      }
      assert made[..i] == made;
    }

    /** Adds a fresh element for each parsed entry, in order. */
    method AddParsed(infos: seq<UIInfo>) returns (ghost made: seq<Widget>)
      modifies this
      ensures |made| == |infos| && uiElements == old(uiElements) + made
      ensures |uiLookup| == |old(uiLookup)| + |infos|
      ensures forall j :: 0 <= j < |made| ==> (fresh(made[j]) && made[j].rect == infos[j].rect
        && made[j].visible == infos[j].visible && made[j].enabled == infos[j].enabled)
      ensures forall j :: 0 <= j < |made| ==> made[j].name in uiLookup && uiLookup[made[j].name] == made[j]
      ensures NonUI() == old(NonUI())
    {
      made := [];
      var i := 0;
      while i < |infos|
        invariant 0 <= i <= |infos| && |made| == i
        invariant uiElements == old(uiElements) + made
        invariant |uiLookup| == |old(uiLookup)| + i
        invariant forall j :: 0 <= j < i ==> (fresh(made[j]) && made[j].rect == infos[j].rect
          && made[j].visible == infos[j].visible && made[j].enabled == infos[j].enabled)
        invariant forall j :: 0 <= j < i ==> made[j].name in uiLookup && uiLookup[made[j].name] == made[j]
        invariant NonUI() == old(NonUI())
      {
        var w := new Widget(infos[i]);
        AddUIElement(w);
        made := made + [w];
        i := i + 1;
      }
    }

    /** Actor.createFromSerializedData for each entry: a fresh actor with the entry's name and tags. */
    static method Build(loaded: seq<(string, set<string>)>) returns (built: seq<Actor>)
      ensures |built| == |loaded| && NoDup(built)
      ensures forall j :: 0 <= j < |built| ==> fresh(built[j]) && built[j].tags == loaded[j].1 && built[j].parent == null
    {
      built := [];
      var i := 0;
      while i < |loaded|
        invariant 0 <= i <= |loaded| && |built| == i && NoDup(built)
        invariant forall j :: 0 <= j < i ==> fresh(built[j]) && built[j].tags == loaded[j].1 && built[j].parent == null
      {
        var a := new Actor(loaded[i].0, loaded[i].1);
        built := built + [a];
        i := i + 1;
      }
    }

    /** The actor half of deserialize, on a scene without actors. */
    method LoadActors(loaded: seq<(string, set<string>)>) returns (made: seq<Actor>)
      requires Valid() && actors == [] && actorLookup == map[]
      modifies this
      ensures Valid() && NonActors() == old(NonActors())
      ensures |made| == |loaded| && actors == made && |actorLookup| == |loaded| && Indexes(made, |made|, actorLookup, byTag)
      ensures forall j :: 0 <= j < |made| ==> fresh(made[j]) && made[j].tags == loaded[j].1 && made[j].parent == null
    {
      made := Build(loaded);
      AddAll(made);
    }

    /** The UI half of deserialize: one element per parsed entry, each under a name of its own. */
    method LoadUI(infos: seq<UIInfo>)
      requires Valid() && uiElements == [] && uiLookup == map[]
      modifies this
      ensures Valid()
      ensures |uiElements| == |infos| && |uiLookup| == |infos| && NonUI() == old(NonUI())
    {
      ghost var widgets := AddParsed(infos);
    }

    /** deserialize once the actors entry is known to be iterable: actors, then UI elements, then the flags. */
    method LoadRest(d: SavedScene, loaded: seq<(string, set<string>)>) returns (err: Option<Error>, ghost made: seq<Actor>)
      requires Valid() && Iterable(d.actors)
      requires actors == [] && actorLookup == map[] && uiElements == [] && uiLookup == map[]
      modifies this
      ensures Valid() && lambdaScripts == old(lambdaScripts)
      ensures err.None? <==> Iterable(d.uiElements)
      ensures |made| == |loaded| && actors == made && |actorLookup| == |loaded| && Indexes(made, |made|, actorLookup, byTag)
      ensures forall j :: 0 <= j < |made| ==> fresh(made[j]) && made[j].tags == loaded[j].1 && made[j].parent == null
      ensures !Iterable(d.uiElements) ==> err == Some(NotIterable(d.uiElements)) && uiElements == [] && uiLookup == map[]
      ensures !Iterable(d.uiElements) ==> active == old(active) && paused == old(paused)
      ensures err.None? ==> |uiElements| == |Parsed(UIEntries(d.uiElements))| && |uiLookup| == |uiElements|
      ensures err.None? ==> active == d.active && paused == d.paused
    {
      var built := LoadActors(loaded);
      made := built;
      if !Iterable(d.uiElements) {
        return Some(NotIterable(d.uiElements)), made;
      }
      LoadUI(Parsed(UIEntries(d.uiElements)));
      active := d.active;
      paused := d.paused;
      err := None;
    }

    /**
     * deserialize: the actors, the name lookup, the tag index, the UI
     * elements and their lookup are cleared first. The actors built from
     * the saved entries (`loaded`: the name and tags of each) are added one
     * by one, then an element for each entry that parses, and finally
     * active (default True) and paused (default False) are read. A saved
     * actor or element list that cannot be iterated raises TypeError, and
     * the steps after it do not happen.
     */
    method Deserialize(data: map<string, Value>, loaded: seq<(string, set<string>)>) returns (err: Option<Error>, ghost made: seq<Actor>)
      requires Valid()
      modifies this
      ensures Valid() && lambdaScripts == old(lambdaScripts)
      ensures var d := ReadSaved(data);
        err.None? <==> Iterable(d.actors) && Iterable(d.uiElements)
      ensures var d := ReadSaved(data);
        !Iterable(d.actors) ==> err == Some(NotIterable(d.actors)) && actors == [] && actorLookup == map[] && byTag == map[]
      ensures var d := ReadSaved(data);
        !Iterable(d.actors) ==> uiElements == [] && uiLookup == map[] && active == old(active) && paused == old(paused)
      ensures var d := ReadSaved(data);
        Iterable(d.actors) ==> |made| == |loaded| && actors == made && |actorLookup| == |loaded| && Indexes(made, |made|, actorLookup, byTag)
      ensures var d := ReadSaved(data);
        Iterable(d.actors) ==> forall j :: 0 <= j < |made| ==> fresh(made[j]) && made[j].tags == loaded[j].1 && made[j].parent == null
      ensures var d := ReadSaved(data);
        Iterable(d.actors) && !Iterable(d.uiElements) ==> err == Some(NotIterable(d.uiElements)) && uiElements == [] && uiLookup == map[]
      ensures var d := ReadSaved(data);
        Iterable(d.actors) && !Iterable(d.uiElements) ==> active == old(active) && paused == old(paused)
      ensures var d := ReadSaved(data);
        err.None? ==> |uiElements| == |Parsed(UIEntries(d.uiElements))| && |uiLookup| == |uiElements|
      ensures var d := ReadSaved(data);
        err.None? ==> active == d.active && paused == d.paused
    {
      var d := ReadSaved(data);
      actors := [];
      actorLookup := map[];
      byTag := map[];
      uiElements := [];
      uiLookup := map[];
      made := [];
      if !Iterable(d.actors) {
        return Some(NotIterable(d.actors)), made;
      }
      err, made := LoadRest(d, loaded);
    }

    /**
     * deserialize as written: the actors, their indexes, the UI elements
     * and their lookup are cleared, and then the first call to a missing
     * class method of the imported Actor raises AttributeError:
     * createFromSerializedData for the first saved actor or, with no saved
     * actor, establishRelationshipsFromSerialization. Nothing is restored
     * and the flags keep their values.
     */
    method DeserializeAsWritten(data: map<string, Value>) returns (err: Option<Error>)
      requires Valid()
      modifies this
      ensures Valid()
      ensures actors == [] && actorLookup == map[] && byTag == map[] && uiElements == [] && uiLookup == map[]
      ensures active == old(active) && paused == old(paused) && lambdaScripts == old(lambdaScripts)
      ensures err == Some(LoadErrorAsWritten(data))
    {
      var raised := LoadErrorAsWritten(data);
      actors, actorLookup, byTag := [], map[], map[];
      uiElements, uiLookup := [], map[];
      err := Some(raised);
    }
  }

  // ---------------------------------------------------------------------
  // Recent files

  /** addRecentFile on the stored list: the path moves to the front, its earlier copy goes, and ten entries at most stay. */
  function Recent(files: seq<Value>, path: string): seq<Value>
  {
    var rest := RemoveFirst(files, VStr(path));
    var r := [VStr(path)] + rest;
    if |r| <= 10 then r else r[..10]
  }

  /** The path heads the list, the list holds at most ten entries, and every other entry was there before. */
  lemma RecentFront(files: seq<Value>, path: string)
    ensures var r := Recent(files, path);
      1 <= |r| <= 10 && r[0] == VStr(path)
      && |r| == (if |files| + (if VStr(path) in files then 0 else 1) <= 10 then |files| + (if VStr(path) in files then 0 else 1) else 10)
      && forall x :: x in r ==> x == VStr(path) || x in files
  {
  }

  /** A list without repeats stays without repeats, so the path is listed exactly once. */
  lemma RecentNoDup(files: seq<Value>, path: string)
    requires NoDup(files)
    ensures NoDup(Recent(files, path))
  {
    var rest := RemoveFirst(files, VStr(path));
    var r := [VStr(path)] + rest;
    assert NoDup(rest) && VStr(path) !in rest;
    forall i, j | 0 <= i < j < |r| ensures r[i] != r[j] {
      if i == 0 {
        assert r[j] == rest[j - 1];
      } else {
        assert r[i] == rest[i - 1] && r[j] == rest[j - 1];
      }
    }
  }

  /** Adding the same path twice is adding it once. */
  lemma {:induction false} RecentIdempotent(files: seq<Value>, path: string)
    ensures Recent(Recent(files, path), path) == Recent(files, path)
  {
    var r := Recent(files, path);
    assert r[0] == VStr(path);
    assert RemoveFirst(r, VStr(path)) == r[1..];
    assert [VStr(path)] + r[1..] == r;
  }

  /** In a list of at most ten without repeats, the other entries keep their order behind the path. */
  lemma RecentKeepsOthers(files: seq<Value>, path: string)
    requires VStr(path) !in files && |files| < 10
    ensures Recent(files, path) == [VStr(path)] + files
  {
  }

  /** The editor's settings store, which keeps the recent-files list under "recentFiles". */
  class EditorSettings {
    var store: map<string, Value>

    constructor ()
      ensures store == map[]
    {
      store := map[];
    }

    /** getValue: the stored value or the default. */
    function GetValue(key: string, default: Value): (r: Value)
      reads this
      ensures key in store ==> r == store[key]
      ensures key !in store ==> r == default
    {
      if key in store then store[key] else default
    }

    method SetValue(key: string, value: Value)
      modifies this
      ensures store == old(store)[key := value]
    {
      store := store[key := value];
    }

    /** getRecentFiles: the stored list, or an empty one when nothing, or something other than a list, is stored. */
    function GetRecentFiles(): (r: seq<Value>)
      reads this
      ensures "recentFiles" in store && store["recentFiles"].VList? ==> r == store["recentFiles"].items
      ensures !("recentFiles" in store && store["recentFiles"].VList?) ==> r == []
    {
      var files := GetValue("recentFiles", VList([]));
      if files.VList? then files.items else []
    }

    /** addRecentFile: the path to the front, without its earlier copy, ten entries at most; other settings stay. */
    method AddRecentFile(path: string)
      modifies this
      ensures GetRecentFiles() == Recent(old(GetRecentFiles()), path)
      ensures store == old(store)["recentFiles" := VList(Recent(old(GetRecentFiles()), path))]
    {
      var recent := GetRecentFiles();
      if VStr(path) in recent {
        recent := RemoveFirst(recent, VStr(path));
      }
      recent := [VStr(path)] + recent;
      recent := if |recent| <= 10 then recent else recent[..10];
      SetValue("recentFiles", VList(recent));
    }
  }

  // ---------------------------------------------------------------------
  // Parent chains

  /** `chain` lists x's parent, its parent, and so on, up to an actor without a parent. */
  ghost predicate Chain(x: Actor, chain: seq<Actor>)
    reads x, chain
  {
    (|chain| == 0 ==> x.parent == null)
    && (|chain| > 0 ==> x.parent == chain[0] && chain[|chain| - 1].parent == null)
    && forall i :: 0 <= i < |chain| - 1 ==> chain[i].parent == chain[i + 1]
  }

  /** The rest of a chain is the chain of its first actor. */
  lemma ChainTail(x: Actor, chain: seq<Actor>)
    requires Chain(x, chain) && |chain| > 0
    ensures Chain(chain[0], chain[1..])
  {
  }

  /** An actor has one parent chain. */
  lemma {:induction false} ChainUnique(x: Actor, c1: seq<Actor>, c2: seq<Actor>)
    requires Chain(x, c1) && Chain(x, c2)
    ensures c1 == c2
    decreases |c1|
  {
    if |c1| > 0 && |c2| > 0 {
      ChainTail(x, c1);
      ChainTail(x, c2);
      ChainUnique(c1[0], c1[1..], c2[1..]);
      assert c1 == [c1[0]] + c1[1..];
      assert c2 == [c2[0]] + c2[1..];
    }
  }

  /** No actor with a finite parent chain is its own ancestor. */
  lemma NotOwnAncestor(x: Actor, chain: seq<Actor>)
    requires Chain(x, chain)
    ensures x !in chain
  {
    if x in chain {
      var k :| 0 <= k < |chain| && chain[k] == x;
      SuffixChain(x, chain, k);
      ChainUnique(x, chain, chain[k + 1..]);
    }
  }

  /** The chain of the k-th ancestor is what follows it. */
  lemma {:induction false} SuffixChain(x: Actor, chain: seq<Actor>, k: nat)
    requires Chain(x, chain) && k < |chain|
    ensures Chain(chain[k], chain[k + 1..])
    decreases k
  {
    if k > 0 {
      ChainTail(x, chain);
      SuffixChain(chain[0], chain[1..], k - 1);
      assert chain[1..][k - 1] == chain[k];
      assert chain[1..][k - 1 + 1..] == chain[k + 1..];
    }
  }

  /** _isDescendant: walks up the parent chain of `x` and answers whether `ancestor` is on it. */
  method IsDescendant(x: Actor, ancestor: Actor, ghost chain: seq<Actor>) returns (r: bool)
    requires Chain(x, chain)
    ensures r <==> ancestor in chain
  {
    var current := x.parent;
    ghost var i := 0;
    while current != null
      invariant 0 <= i <= |chain|
      invariant current == (if i < |chain| then chain[i] else null)
      invariant forall j :: 0 <= j < i ==> chain[j] != ancestor
      decreases |chain| - i
    {
      if current == ancestor {
        return true;
      }
      current := current.parent;
      i := i + 1;
    }
    return false;
  }

  /**
   * The drop guard as written: a drop on an actor re-parents the dragged one
   * under it unless the dragged actor is an ancestor of the target. The
   * target itself is not excluded.
   */
  method DropAllowedAsWritten(source: Actor, target: Actor?, ghost chain: seq<Actor>) returns (ok: bool)
    requires target != null ==> Chain(target, chain)
    ensures ok <==> target != null && source !in chain
  {
    ok := false;
    if target != null {
      var d := IsDescendant(target, source, chain);
      ok := !d;
    }
  }

  /** The drop guard as the comment intends it: neither the actor itself nor one of its descendants becomes its parent. */
  method DropAllowed(source: Actor, target: Actor?, ghost chain: seq<Actor>) returns (ok: bool)
    requires target != null ==> Chain(target, chain)
    ensures ok <==> target != null && target != source && source !in chain
  {
    ok := false;
    if target != null && target != source {
      var d := IsDescendant(target, source, chain);
      ok := !d;
    }
  }

  /** As written, dropping an actor on its own row makes it its own parent: the guard lets it through. */
  method SelfDropAsWritten(a: Actor, ghost chain: seq<Actor>) returns (ok: bool)
    requires Chain(a, chain)
    ensures ok
  {
    NotOwnAncestor(a, chain);
    ok := DropAllowedAsWritten(a, a, chain);
  }

  /** The intended guard refuses the same drop. */
  method SelfDropRefused(a: Actor, ghost chain: seq<Actor>) returns (ok: bool)
    requires Chain(a, chain)
    ensures !ok
  {
    ok := DropAllowed(a, a, chain);
  }
}
