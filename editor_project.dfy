/**
 * EditorProject of editor/editor_project.py: the scenes of a project, keyed
 * by id in insertion order, the active scene, the project settings and the
 * dirty flag, and the dict the project is saved as.
 *
 * The scenes are EditorScenes.EditorScene objects, held by reference. The
 * settings are the loaded value itself, so a file with odd settings gives
 * the errors Python's dict operations raise on it.
 */
module EditorProjects {
  import opened Wrappers
  import opened Values
  import opened Hierarchy
  import opened Naming
  import EditorUtils
  import ES = EditorScenes

  // ---------------------------------------------------------------------
  // Settings

  const DefaultEditorSettings: map<string, Value> :=
    map["auto_save" := VBool(true), "auto_save_interval" := VInt(300), "backup_count" := VInt(5)]

  const DefaultSettings: map<string, Value> :=
    map["version" := VStr("1.0"), "last_opened_scenes" := VList([]), "custom_component_paths" := VList([]),
        "custom_widget_paths" := VList([]), "editor_settings" := VDict(DefaultEditorSettings)]

  /** The keys of the default settings, in the order deserialize visits them. */
  const DefaultKeys: seq<string> := ["version", "last_opened_scenes", "custom_component_paths", "custom_widget_paths", "editor_settings"]

  /** The keys of the default editor_settings, in order. */
  const SubKeys: seq<string> := ["auto_save", "auto_save_interval", "backup_count"]

  /** Python's `sub in s` on strings: whether sub occurs in s. */
  predicate Occurs(sub: string, s: string)
    decreases |s|
  {
    if |s| < |sub| then false else s[..|sub|] == sub || Occurs(sub, s[1..])
  }

  /** `key in v` for a string key; None when v is no container and `in` raises TypeError. */
  function Contains(v: Value, key: string): (r: Option<bool>)
    ensures v.VDict? ==> r == Some(key in v.entries)
    ensures v.VList? ==> r == Some(VStr(key) in v.items)
  {
    match v
    case VDict(m) => Some(key in m)
    case VList(items) => Some(VStr(key) in items)
    case VTuple(elems) => Some(VStr(key) in elems)
    case VStr(s) => Some(Occurs(key, s))
    case _ => None
  }

  function TypeName(v: Value): string
  {
    EditorUtils.TypeName(v)
  }

  /** The TypeError of `key in v` on a value that is no container. */
  function InError(v: Value): Error
  {
    TypeError("argument of type '" + TypeName(v) + "' is not iterable")
  }

  /** The TypeError of `v[key] = x` for a string key on a value that is not a dict. */
  function AssignError(v: Value): Error
  {
    if v.VList? then TypeError("list indices must be integers or slices, not str")
    else TypeError("'" + TypeName(v) + "' object does not support item assignment")
  }

  /** The TypeError of reading `v[key]` for a string key on a value that is not a dict. */
  function SubscriptError(v: Value): Error
  {
    if v.VList? then TypeError("list indices must be integers or slices, not str")
    else if v.VTuple? then TypeError("tuple indices must be integers or slices, not str")
    else if v.VStr? then TypeError("string indices must be integers, not 'str'")
    else TypeError("'" + TypeName(v) + "' object is not subscriptable")
  }

  /**
   * The merge loop over keys on a value that is not a dict: the first key
   * not found in it raises on the assignment (or on `in` itself); if every
   * key is found, reading its editor_settings raises.
   */
  function TopError(s: Value, keys: seq<string>): Error
    decreases |keys|
  {
    if keys == [] then SubscriptError(s)
    else if Contains(s, keys[0]).None? then InError(s)
    else if Contains(s, keys[0]) == Some(false) then AssignError(s)
    else TopError(s, keys[1..])
  }

  /** The sub-key loop on an editor_settings that is not a dict: None when every sub-key is found in it. */
  function SubError(es: Value, keys: seq<string>): (r: Option<Error>)
    ensures r.None? <==> forall i :: 0 <= i < |keys| ==> Contains(es, keys[i]) == Some(true)
    decreases |keys|
  {
    if keys == [] then None
    else if Contains(es, keys[0]).None? then Some(InError(es))
    else if Contains(es, keys[0]) == Some(false) then Some(AssignError(es))
    else SubError(es, keys[1..])
  }

  /** A dict with each key of d that it lacks added with d's value. */
  function FillMissing(s: map<string, Value>, d: map<string, Value>): (r: map<string, Value>)
    ensures r.Keys == s.Keys + d.Keys
    ensures forall k :: k in s ==> r[k] == s[k]
    ensures forall k :: k in d && k !in s ==> r[k] == d[k]
  {
    map k | k in s.Keys + d.Keys :: if k in s then s[k] else d[k]
  }

  /**
   * The merge of deserialize: the settings after it and the error it
   * raises. Only editor_settings has a dict as its default, so only its
   * sub-keys are merged; it is the last key visited.
   */
  function Merge(s: Value): (r: (Value, Option<Error>))
  {
    if !s.VDict? then (s, Some(TopError(s, DefaultKeys)))
    else
      var top := FillMissing(s.entries, DefaultSettings);
      if "editor_settings" !in s.entries then (VDict(top), None)
      else
        var es := s.entries["editor_settings"];
        if es.VDict? then (VDict(top["editor_settings" := VDict(FillMissing(es.entries, DefaultEditorSettings))]), None)
        else (VDict(top), SubError(es, SubKeys))
  }

  /** A settings value that is not a dict always makes deserialize raise TypeError, and is left as it was. */
  lemma MergeNonDictRaises(s: Value)
    requires !s.VDict?
    ensures Merge(s).1.Some? && Merge(s).1.value.TypeError? && Merge(s).0 == s
  {
    TopErrorIsTypeError(s, DefaultKeys);
  }

  lemma {:induction false} TopErrorIsTypeError(s: Value, keys: seq<string>)
    ensures TopError(s, keys).TypeError?
    decreases |keys|
  {
    if keys != [] && Contains(s, keys[0]) == Some(true) {
      TopErrorIsTypeError(s, keys[1..]);
    }
  }

  /**
   * On a dict the merge adds every missing default key, overwrites no
   * present value, and adds the missing editor_settings sub-keys when
   * editor_settings is a dict; it raises only for an editor_settings that
   * is not a dict and lacks a sub-key.
   */
  lemma MergeFillsDefaults(s: map<string, Value>)
    ensures var r := Merge(VDict(s));
      && r.0.VDict?
      && r.0.entries.Keys == s.Keys + DefaultSettings.Keys
      && (forall k :: k in DefaultSettings && k !in s ==> r.0.entries[k] == DefaultSettings[k])
      && (forall k :: k in s && k != "editor_settings" ==> r.0.entries[k] == s[k])
      && (r.1.Some? <==> "editor_settings" in s && !s["editor_settings"].VDict?
                          && exists i :: 0 <= i < |SubKeys| && Contains(s["editor_settings"], SubKeys[i]) != Some(true))
  {
  }

  /** The merged editor_settings: a present dict keeps its values and gains the missing sub-keys; anything else stays. */
  lemma MergeEditorSettings(s: map<string, Value>)
    requires "editor_settings" in s
    ensures var es := s["editor_settings"];
      var r := Merge(VDict(s)).0.entries["editor_settings"];
      && (!es.VDict? ==> r == es)
      && (es.VDict? ==>
            && r.VDict? && r.entries.Keys == es.entries.Keys + DefaultEditorSettings.Keys
            && (forall k :: k in es.entries ==> r.entries[k] == es.entries[k])
            && (forall k :: k in DefaultEditorSettings && k !in es.entries ==> r.entries[k] == DefaultEditorSettings[k]))
  {
  }

  /** Merging settings that came out of a merge changes nothing more. */
  lemma MergeIdempotent(s: map<string, Value>)
    requires Merge(VDict(s)).1.None?
    ensures Merge(Merge(VDict(s)).0) == Merge(VDict(s))
  {
    var r := Merge(VDict(s)).0;
    assert "editor_settings" in r.entries;
    var es := r.entries["editor_settings"];
    if "editor_settings" in s && !s["editor_settings"].VDict? {
      assert es == s["editor_settings"];
      assert SubError(es, SubKeys).None?;
      assert FillMissing(r.entries, DefaultSettings) == r.entries;
    } else {
      assert es.VDict?;
      assert FillMissing(es.entries, DefaultEditorSettings) == es.entries;
      assert FillMissing(r.entries, DefaultSettings) == r.entries;
      assert r.entries["editor_settings" := es] == r.entries;
    }
  }

  /**
   * add_custom_component_path / add_custom_widget_path on the settings:
   * Ok(None) when the path is already listed, Ok(Some(s')) with the path
   * appended, or the error the lookup, `in` or append raises.
   */
  function PathAdded(settings: Value, key: string, path: string): (r: Result<Option<Value>>)
  {
    if !settings.VDict? then Err(SubscriptError(settings))
    else if key !in settings.entries then Err(KeyError("'" + key + "'"))
    else
      var v := settings.entries[key];
      var c := Contains(v, path);
      if c.None? then Err(InError(v))
      else if c == Some(true) then Ok(None)
      else if !v.VList? then Err(AttributeError("'" + TypeName(v) + "' object has no attribute 'append'"))
      else Ok(Some(VDict(settings.entries[key := VList(v.items + [VStr(path)])])))
  }

  /** A list of paths never gets a duplicate: the path is appended only when absent, and only to that entry. */
  lemma PathAddedNoDup(settings: map<string, Value>, key: string, path: string)
    requires key in settings && settings[key].VList? && NoDup(settings[key].items)
    ensures var r := PathAdded(VDict(settings), key, path);
      && r.Ok?
      && (r.value.None? <==> VStr(path) in settings[key].items)
      && (r.value.Some? ==> r.value.value.entries[key].items == settings[key].items + [VStr(path)]
                            && NoDup(r.value.value.entries[key].items)
                            && forall k :: k in settings && k != key ==> r.value.value.entries[k] == settings[k])
  {
    var items := settings[key].items;
    if VStr(path) !in items {
      var n := items + [VStr(path)];
      forall i, j | 0 <= i < j < |n| ensures n[i] != n[j] {
        if j < |items| {
          assert items[i] != items[j];
        } else {
          assert n[j] == VStr(path) && n[i] == items[i];
        }
      }
    }
  }

  /** Adding the same path twice has the effect of adding it once. */
  lemma PathAddedTwice(settings: map<string, Value>, key: string, path: string)
    requires key in settings && settings[key].VList?
    ensures var r := PathAdded(VDict(settings), key, path);
      r.Ok? && r.value.Some? ==> PathAdded(r.value.value, key, path) == Ok(None)
  {
    var r := PathAdded(VDict(settings), key, path);
    if r.Ok? && r.value.Some? {
      var n := settings[key].items + [VStr(path)];
      assert n[|n| - 1] == VStr(path);
    }
  }

  // ---------------------------------------------------------------------
  // The saved form

  /** The entry serialize writes for a scene. */
  function SceneInfo(name: Value, filePath: Option<string>, isDirty: bool): Value
  {
    VDict(map["name" := name, "file_path" := if filePath.Some? then VStr(filePath.value) else VNone,
              "is_dirty" := VBool(isDirty)])
  }

  /**
   * The placeholder deserialize makes from a scene entry: its name (default
   * the id), file path (when the entry's is truthy; Path() refuses a
   * non-string) and dirty flag (default False), or the error raised.
   */
  function Placeholder(id: string, info: Value): (r: Result<Info>)
  {
    if !info.VDict? then Err(AttributeError("'" + TypeName(info) + "' object has no attribute 'get'"))
    else
      var n := ES.Get(info.entries, "name", VStr(id));
      var fp := ES.Get(info.entries, "file_path", VNone);
      var d := ES.Get(info.entries, "is_dirty", VBool(false));
      if Truthy(fp) && !fp.VStr? then Err(TypeError("expected str, bytes or os.PathLike object, not " + TypeName(fp)))
      else Ok((n, if Truthy(fp) then Some(fp.s) else None, Truthy(d)))
  }

  /** A saved scene entry comes back as a placeholder with the same name, file path and dirty flag. */
  lemma PlaceholderRoundTrip(id: string, name: Value, filePath: Option<string>, isDirty: bool)
    requires filePath.None? || filePath.value != ""
    ensures Placeholder(id, SceneInfo(name, filePath, isDirty)) == Ok((name, filePath, isDirty))
  {
    var m := SceneInfo(name, filePath, isDirty).entries;
    assert m["name"] == name && m["is_dirty"] == VBool(isDirty);
  }

  /** A scene entry without fields gives a clean placeholder named after its id, with no file. */
  lemma PlaceholderDefaults(id: string)
    ensures Placeholder(id, VDict(map[])) == Ok((VStr(id), None, false))
  {
  }

  /** The dict serialize returns. */
  function ProjectData(name: Value, active: Value, infos: map<string, Value>, settings: Value): Value
  {
    VDict(map["name" := name, "active_scene" := active, "scenes" := VDict(infos), "settings" := settings])
  }

  /** The dict order after assigning each of keys: a new key goes last, a present one keeps its place. */
  function Appended(order: seq<string>, keys: seq<string>): seq<string>
    decreases |keys|
  {
    if keys == [] then order
    else Appended(if keys[0] in order then order else order + [keys[0]], keys[1..])
  }

  /** One assignment: a new key goes last. */
  function Step(order: seq<string>, k: string): seq<string>
  {
    if k in order then order else order + [k]
  }

  /** Assigning one key more is one more step at the end. */
  lemma {:induction false} AppendedSnoc(order: seq<string>, keys: seq<string>, k: string)
    ensures Appended(order, keys + [k]) == Step(Appended(order, keys), k)
    decreases |keys|
  {
    if keys == [] {
      assert Appended(Step(order, k), []) == Step(order, k);
    } else {
      assert (keys + [k])[0] == keys[0] && (keys + [k])[1..] == keys[1..] + [k];
      AppendedSnoc(Step(order, keys[0]), keys[1..], k);
    }
  }

  /** The ids among the first n keys. */
  function Prefix(keys: seq<string>, n: nat): set<string>
    requires n <= |keys|
  {
    if n == 0 then {} else Prefix(keys, n - 1) + {keys[n - 1]}
  }

  /** The ids among the first n keys are the elements of keys[..n]. */
  lemma {:induction false} PrefixMembers(keys: seq<string>, n: nat)
    requires n <= |keys|
    ensures forall k :: k in Prefix(keys, n) <==> k in keys[..n]
  {
    if n > 0 {
      PrefixMembers(keys, n - 1);
      assert keys[..n] == keys[..n - 1] + [keys[n - 1]];
    }
  }

  /** Updating a union at a key is updating its right-hand side there. */
  lemma UnionUpdate<K, V>(a: map<K, V>, m: map<K, V>, k: K, v: V)
    ensures (a + m)[k := v] == a + m[k := v]
  {
  }

  lemma KeysUpdate<K, V>(m: map<K, V>, k: K, v: V)
    ensures m[k := v].Keys == m.Keys + {k}
  {
  }

  /** Appending an absent element keeps a sequence free of duplicates. */
  lemma NoDupSnoc(s: seq<string>, x: string)
    requires NoDup(s) && x !in s
    ensures NoDup(s + [x])
  {
    var t := s + [x];
    forall i, j | 0 <= i < j < |t| ensures t[i] != t[j] {
      if j < |s| {
        assert s[i] != s[j];
      }
    }
  }

  /** Assigning keys keeps the order free of duplicates and lists exactly the old keys and the new ones. */
  lemma {:induction false} AppendedLists(order: seq<string>, keys: seq<string>)
    requires NoDup(order)
    ensures NoDup(Appended(order, keys))
    ensures forall k :: k in Appended(order, keys) <==> k in order || k in keys
    decreases |keys|
  {
    if keys != [] {
      var o := if keys[0] in order then order else order + [keys[0]];
      if keys[0] !in order {
        forall i, j | 0 <= i < j < |o| ensures o[i] != o[j] {
          if j < |order| {
            assert order[i] != order[j];
          }
        }
      }
      AppendedLists(o, keys[1..]);
      assert forall k :: k in keys <==> k == keys[0] || k in keys[1..];
    }
  }

  /** The fields of a placeholder scene: name, file path, dirty flag. */
  type Info = (Value, Option<string>, bool)

  /** The placeholder, or the error, of each saved scene entry. */
  function Placeholders(entries: map<string, Value>): (r: map<string, Result<Info>>)
    ensures r.Keys == entries.Keys
    ensures forall k :: k in entries ==> r[k] == Placeholder(k, entries[k])
  {
    map k | k in entries :: Placeholder(k, entries[k])
  }

  /** The index of the first scene entry whose placeholder raises, or |keys| when none does. */
  function FirstBad(keys: seq<string>, ps: map<string, Result<Info>>): (n: nat)
    requires forall i :: 0 <= i < |keys| ==> keys[i] in ps
    ensures n <= |keys|
    ensures forall i :: 0 <= i < n ==> ps[keys[i]].Ok?
    ensures n < |keys| ==> ps[keys[n]].Err?
    decreases |keys|
  {
    if keys == [] then 0
    else if ps[keys[0]].Err? then 0
    else 1 + FirstBad(keys[1..], ps)
  }

  /** The first bad entry is at i when every entry before it is good and the one at i (if any) is bad. */
  lemma {:induction false} FirstBadAt(keys: seq<string>, ps: map<string, Result<Info>>, i: nat)
    requires forall j :: 0 <= j < |keys| ==> keys[j] in ps
    requires i <= |keys|
    requires forall j :: 0 <= j < i ==> ps[keys[j]].Ok?
    requires i < |keys| ==> ps[keys[i]].Err?
    ensures FirstBad(keys, ps) == i
    decreases i
  {
    if i > 0 {
      FirstBadAt(keys[1..], ps, i - 1);
    }
  }

  /** The error deserialize raises on data, with `keys` the order of its saved scenes, or None. */
  function DeserializeError(data: Value, keys: seq<string>): Option<Error>
    requires data.VDict? && ES.Get(data.entries, "scenes", VDict(map[])).VDict? ==>
      forall k :: k in keys ==> k in ES.Get(data.entries, "scenes", VDict(map[])).entries
  {
    if !data.VDict? then Some(AttributeError("'" + TypeName(data) + "' object has no attribute 'get'"))
    else
      var merged := Merge(ES.Get(data.entries, "settings", VDict(map[])));
      var sd := ES.Get(data.entries, "scenes", VDict(map[]));
      if merged.1.Some? then merged.1
      else if !sd.VDict? then Some(AttributeError("'" + TypeName(sd) + "' object has no attribute 'items'"))
      else
        var ps := Placeholders(sd.entries);
        var n := FirstBad(keys, ps);
        if n < |keys| then Some(ps[keys[n]].error) else None
  }

  // ---------------------------------------------------------------------
  // The project

  class EditorProject {
    var name: Value
    var scenes: map<string, ES.EditorScene>
    /** The scene ids in the order the dict iterates them. */
    var order: seq<string>
    var active: Value
    var projectDir: Option<string>
    var settings: Value
    var isDirty: bool

    ghost predicate Valid()
      reads this
    {
      NoDup(order) && forall k :: k in order <==> k in scenes
    }

    /** EditorProject(name): no scenes, none active, the default settings, clean. */
    constructor (name: string)
      ensures Valid()
      ensures this.name == VStr(name) && scenes == map[] && order == [] && active == VNone && projectDir == None
      ensures settings == VDict(DefaultSettings) && !isDirty
    {
      this.name := VStr(name);
      scenes, order := map[], [];
      active := VNone;
      projectDir := None;
      settings := VDict(DefaultSettings);
      isDirty := false;
    }

    method MarkDirty()
      modifies this
      ensures isDirty
      ensures name == old(name) && scenes == old(scenes) && order == old(order) && active == old(active)
      ensures projectDir == old(projectDir) && settings == old(settings)
    {
      isDirty := true;
    }

    method MarkClean()
      modifies this
      ensures !isDirty
      ensures name == old(name) && scenes == old(scenes) && order == old(order) && active == old(active)
      ensures projectDir == old(projectDir) && settings == old(settings)
    {
      isDirty := false;
    }

    /**
     * add_scene: the id (by default the scene's name) is made free with the
     * counter loop, the scene is stored under it and the project is dirty;
     * the first scene added becomes the active one. A scene without a
     * string name can only be added under an explicit id here.
     */
    method AddScene(scene: ES.EditorScene, sceneId: Option<string>) returns (id: string)
      requires Valid() && (sceneId.Some? || scene.name.VStr?)
      modifies this
      ensures Valid()
      ensures var orig := if sceneId.Some? then sceneId.value else old(scene.name).s;
        id !in old(scenes) && IsFirstFree(old(scenes).Keys, orig, id)
      ensures scenes == old(scenes)[id := scene] && order == old(order) + [id] && isDirty
      ensures active == if old(active) == VNone then VStr(id) else old(active)
      ensures name == old(name) && projectDir == old(projectDir) && settings == old(settings)
    {
      var orig := if sceneId.Some? then sceneId.value else scene.name.s;
      id := UniqueName(scenes.Keys, orig);
      scenes := scenes[id := scene];
      order := order + [id];
      forall i, j | 0 <= i < j < |order| ensures order[i] != order[j] {
        if j < |order| - 1 {
          assert old(order)[i] != old(order)[j];
        }
      }
      isDirty := true;
      if active == VNone {
        active := VStr(id);
      }
    }

    /**
     * remove_scene: a known id is dropped and the project is dirty; when it
     * was the active scene, the first remaining scene becomes active, or
     * None when there is none. An unknown id changes nothing.
     */
    method RemoveScene(id: string)
      requires Valid()
      modifies this
      ensures Valid()
      ensures id !in old(scenes) ==> scenes == old(scenes) && order == old(order) && active == old(active) && isDirty == old(isDirty)
      ensures id in old(scenes) ==> scenes == old(scenes) - {id} && order == RemoveFirst(old(order), id) && isDirty
      ensures id in old(scenes) && old(active) == VStr(id) ==> active == if order == [] then VNone else VStr(order[0])
      ensures id in old(scenes) && old(active) == VStr(id) ==> (active == VNone <==> scenes == map[]) && (active.VStr? ==> active.s in scenes)
      ensures old(active) != VStr(id) ==> active == old(active)
      ensures name == old(name) && projectDir == old(projectDir) && settings == old(settings)
    {
      if id in scenes {
        scenes := scenes - {id};
        order := RemoveFirst(order, id);
        isDirty := true;
        if active == VStr(id) {
          if order == [] {
            active := VNone;
            assert scenes.Keys == {};
          } else {
            assert order[0] in order;
            active := VStr(order[0]);
          }
        }
      } else {
        assert id !in order;
      }
    }

    /** get_scene. */
    function GetScene(id: string): (r: Option<ES.EditorScene>)
      reads this
      ensures r.Some? <==> id in scenes
      ensures r.Some? ==> r.value == scenes[id]
    {
      if id in scenes then Some(scenes[id]) else None
    }

    /**
     * get_active_scene: None when the active id is falsy or unknown; an
     * unhashable active id (a list or dict from the file) raises TypeError.
     */
    function GetActiveScene(): (r: Result<Option<ES.EditorScene>>)
      reads this
      ensures !Truthy(active) ==> r == Ok(None)
      ensures r.Err? <==> Truthy(active) && (active.VList? || active.VDict?)
      ensures r.Ok? && r.value.Some? <==> active.VStr? && active.s != "" && active.s in scenes
      ensures r.Ok? && r.value.Some? ==> r.value.value == scenes[active.s]
    {
      if !Truthy(active) then Ok(None)
      else if active.VList? || active.VDict? then Err(TypeError("unhashable type: '" + TypeName(active) + "'"))
      else if active.VStr? && active.s in scenes then Ok(Some(scenes[active.s]))
      else Ok(None)
    }

    /** set_active_scene: an unknown id is ignored. */
    method SetActiveScene(id: string)
      modifies this
      ensures active == if id in old(scenes) then VStr(id) else old(active)
      ensures name == old(name) && scenes == old(scenes) && order == old(order) && isDirty == old(isDirty)
      ensures projectDir == old(projectDir) && settings == old(settings)
    {
      if id in scenes {
        active := VStr(id);
      }
    }

    /** The ids among `ids` whose scene is dirty, in order. */
    function DirtyIds(ids: seq<string>): (r: seq<string>)
      reads this, scenes.Values
      requires forall k :: k in ids ==> k in scenes
      decreases |ids|
    {
      if ids == [] then []
      else (if scenes[ids[0]].isDirty then [ids[0]] else []) + DirtyIds(ids[1..])
    }

    /** The dirty ids are exactly those among `ids` whose scene is dirty, and they keep their order. */
    lemma {:induction false} DirtyIdsMembers(ids: seq<string>)
      requires forall k :: k in ids ==> k in scenes
      ensures forall k :: k in DirtyIds(ids) <==> k in ids && scenes[k].isDirty
      ensures |DirtyIds(ids)| <= |ids|
      decreases |ids|
    {
      if ids != [] {
        DirtyIdsMembers(ids[1..]);
        assert forall k :: k in ids <==> k == ids[0] || k in ids[1..];
      }
    }

    /** get_dirty_scenes: the dirty scenes' ids, in the dict's order. */
    method GetDirtyScenes() returns (r: seq<string>)
      requires Valid()
      ensures r == DirtyIds(order)
      ensures forall k :: k in r <==> k in scenes && scenes[k].isDirty
    {
      r := [];
      var i := 0;
      while i < |order|
        invariant 0 <= i <= |order|
        invariant r + DirtyIds(order[i..]) == DirtyIds(order)
      {
        assert order[i..][1..] == order[i + 1..];
        var here := if scenes[order[i]].isDirty then [order[i]] else [];
        assert DirtyIds(order[i..]) == here + DirtyIds(order[i + 1..]);
        assert r + (here + DirtyIds(order[i + 1..])) == (r + here) + DirtyIds(order[i + 1..]);
        r := r + here;
        i := i + 1;
      }
      assert order[i..] == [];
      DirtyIdsMembers(order);
    }

    /** has_unsaved_changes: the project or some scene is dirty. */
    method HasUnsavedChanges() returns (r: bool)
      requires Valid()
      ensures r <==> isDirty || exists k :: k in scenes && scenes[k].isDirty
    {
      if isDirty {
        return true;
      }
      var d := GetDirtyScenes();
      if |d| > 0 {
        assert d[0] in d;
      }
      r := |d| > 0;
    }

    /** add_custom_component_path. */
    method AddCustomComponentPath(path: string) returns (err: Option<Error>)
      requires Valid()
      modifies this
      ensures Valid()
      ensures var r := PathAdded(old(settings), "custom_component_paths", path);
        && (err.Some? <==> r.Err?) && (r.Err? ==> err == Some(r.error))
        && settings == (if r.Ok? && r.value.Some? then r.value.value else old(settings))
        && isDirty == ((r.Ok? && r.value.Some?) || old(isDirty))
      ensures name == old(name) && scenes == old(scenes) && order == old(order) && active == old(active)
      ensures projectDir == old(projectDir)
    {
      err := AddPath("custom_component_paths", path);
    }

    /** add_custom_widget_path. */
    method AddCustomWidgetPath(path: string) returns (err: Option<Error>)
      requires Valid()
      modifies this
      ensures Valid()
      ensures var r := PathAdded(old(settings), "custom_widget_paths", path);
        && (err.Some? <==> r.Err?) && (r.Err? ==> err == Some(r.error))
        && settings == (if r.Ok? && r.value.Some? then r.value.value else old(settings))
        && isDirty == ((r.Ok? && r.value.Some?) || old(isDirty))
      ensures name == old(name) && scenes == old(scenes) && order == old(order) && active == old(active)
      ensures projectDir == old(projectDir)
    {
      err := AddPath("custom_widget_paths", path);
    }

    /** The shared body of the two: append when absent, and only then mark dirty. */
    method AddPath(key: string, path: string) returns (err: Option<Error>)
      requires Valid()
      modifies this
      ensures Valid()
      ensures var r := PathAdded(old(settings), key, path);
        && (err.Some? <==> r.Err?) && (r.Err? ==> err == Some(r.error))
        && settings == (if r.Ok? && r.value.Some? then r.value.value else old(settings))
        && isDirty == ((r.Ok? && r.value.Some?) || old(isDirty))
      ensures name == old(name) && scenes == old(scenes) && order == old(order) && active == old(active)
      ensures projectDir == old(projectDir)
    {
      var r := PathAdded(settings, key, path);
      if r.Err? {
        return Some(r.error);
      }
      err := None;
      if r.value.Some? {
        settings := r.value.value;
        isDirty := true;
      }
    }

    /** The entry of each scene in the saved dict. */
    function SceneInfos(): (r: map<string, Value>)
      reads this, scenes.Values
      ensures r.Keys == scenes.Keys
      ensures forall k :: k in scenes ==> r[k] == SceneInfo(scenes[k].name, scenes[k].filePath, scenes[k].isDirty)
    {
      map k | k in scenes :: SceneInfo(scenes[k].name, scenes[k].filePath, scenes[k].isDirty)
    }

    /** serialize: name, active scene, each scene's name, file path and dirty flag, and the settings. */
    method Serialize() returns (r: Value)
      ensures r == ProjectData(name, active, SceneInfos(), settings)
    {
      r := ProjectData(name, active, SceneInfos(), settings);
    }

    /**
     * deserialize: name (default "Untitled Project"), active scene (default
     * None) and settings (default {}) are read, the settings are merged with
     * the defaults, and a placeholder scene is made for each saved entry,
     * replacing a scene of the same id. `keys` is the order in which the
     * saved "scenes" dict is iterated. An error leaves what was done before
     * it.
     */
    method Deserialize(data: Value, keys: seq<string>) returns (err: Option<Error>)
      requires Valid()
      requires data.VDict? && ES.Get(data.entries, "scenes", VDict(map[])).VDict? ==>
        NoDup(keys) && forall k :: k in keys <==> k in ES.Get(data.entries, "scenes", VDict(map[])).entries
      modifies this
      ensures Valid()
      ensures !data.VDict? ==> err == Some(AttributeError("'" + TypeName(data) + "' object has no attribute 'get'"))
      ensures !data.VDict? ==> name == old(name) && active == old(active) && settings == old(settings) && scenes == old(scenes) && order == old(order)
      ensures data.VDict? ==> name == ES.Get(data.entries, "name", VStr("Untitled Project"))
      ensures data.VDict? ==> active == ES.Get(data.entries, "active_scene", VNone)
      ensures data.VDict? ==> (settings, Merge(ES.Get(data.entries, "settings", VDict(map[]))).1) == Merge(ES.Get(data.entries, "settings", VDict(map[])))
      ensures data.VDict? && Merge(ES.Get(data.entries, "settings", VDict(map[]))).1.Some? ==>
        err == Merge(ES.Get(data.entries, "settings", VDict(map[]))).1 && scenes == old(scenes) && order == old(order)
      ensures data.VDict? && Merge(ES.Get(data.entries, "settings", VDict(map[]))).1.None? && !ES.Get(data.entries, "scenes", VDict(map[])).VDict? ==>
        err == Some(AttributeError("'" + TypeName(ES.Get(data.entries, "scenes", VDict(map[]))) + "' object has no attribute 'items'"))
        && scenes == old(scenes) && order == old(order)
      ensures data.VDict? && Merge(ES.Get(data.entries, "settings", VDict(map[]))).1.None? && ES.Get(data.entries, "scenes", VDict(map[])).VDict? ==>
        Placed(keys, Placeholders(ES.Get(data.entries, "scenes", VDict(map[])).entries), old(scenes), old(order), err)
      ensures err == DeserializeError(data, keys)
      ensures data.VDict? && Merge(ES.Get(data.entries, "settings", VDict(map[]))).1.None? && ES.Get(data.entries, "scenes", VDict(map[])).VDict? ==>
        var entries := ES.Get(data.entries, "scenes", VDict(map[])).entries;
        forall k :: k in Prefix(keys, FirstBad(keys, Placeholders(entries))) ==> k in scenes && fresh(scenes[k])
      ensures isDirty == old(isDirty) && projectDir == old(projectDir)
    {
      if !data.VDict? {
        return Some(AttributeError("'" + TypeName(data) + "' object has no attribute 'get'"));
      }
      name := ES.Get(data.entries, "name", VStr("Untitled Project"));
      active := ES.Get(data.entries, "active_scene", VNone);
      var merged := Merge(ES.Get(data.entries, "settings", VDict(map[])));
      settings := merged.0;
      if merged.1.Some? {
        return merged.1;
      }
      var sd := ES.Get(data.entries, "scenes", VDict(map[]));
      if !sd.VDict? {
        return Some(AttributeError("'" + TypeName(sd) + "' object has no attribute 'items'"));
      }
      err := PlaceScenes(Placeholders(sd.entries), keys);
    }

    /**
     * load_from_file, with the parsed file (or the error reading or parsing
     * it raised) and the file's directory as parameters: after a successful
     * deserialize the project directory is recorded and the project is clean.
     */
    method LoadFromFile(content: Result<Value>, dir: string, keys: seq<string>) returns (err: Option<Error>)
      requires Valid()
      requires content.Ok? && content.value.VDict? && ES.Get(content.value.entries, "scenes", VDict(map[])).VDict? ==>
        NoDup(keys) && forall k :: k in keys <==> k in ES.Get(content.value.entries, "scenes", VDict(map[])).entries
      modifies this
      ensures Valid()
      ensures content.Err? ==> err == Some(content.error) && scenes == old(scenes) && settings == old(settings)
      ensures content.Err? ==> name == old(name) && active == old(active) && order == old(order)
      ensures content.Ok? ==> err == DeserializeError(content.value, keys)
      ensures content.Ok? && !content.value.VDict? ==>
        name == old(name) && active == old(active) && settings == old(settings) && scenes == old(scenes) && order == old(order)
      ensures content.Ok? && content.value.VDict? ==>
        var entries := content.value.entries;
        && name == ES.Get(entries, "name", VStr("Untitled Project"))
        && active == ES.Get(entries, "active_scene", VNone)
        && settings == Merge(ES.Get(entries, "settings", VDict(map[]))).0
      ensures content.Ok? && content.value.VDict? ==>
        var entries := content.value.entries;
        Merge(ES.Get(entries, "settings", VDict(map[]))).1.None? && ES.Get(entries, "scenes", VDict(map[])).VDict? ==>
        Placed(keys, Placeholders(ES.Get(entries, "scenes", VDict(map[])).entries), old(scenes), old(order), err)
      ensures content.Ok? && content.value.VDict? ==>
        var entries := content.value.entries;
        Merge(ES.Get(entries, "settings", VDict(map[]))).1.Some? || !ES.Get(entries, "scenes", VDict(map[])).VDict? ==>
        scenes == old(scenes) && order == old(order)
      ensures err.None? ==> projectDir == Some(dir) && !isDirty
      ensures err.Some? ==> projectDir == old(projectDir) && isDirty == old(isDirty)
    {
      if content.Err? {
        return Some(content.error);
      }
      err := Deserialize(content.value, keys);
      if err.None? {
        projectDir := Some(dir);
        MarkClean();
      }
    }

    /** create_new_scene: an empty scene under its name, made free. */
    method CreateNewScene(name: string) returns (id: string)
      requires Valid()
      modifies this
      ensures Valid()
      ensures id !in old(scenes) && IsFirstFree(old(scenes).Keys, name, id)
      ensures id in scenes && fresh(scenes[id]) && scenes[id].name == VStr(name) && scenes[id].Known() && scenes[id].Actors() == []
      ensures scenes == old(scenes)[id := scenes[id]] && order == old(order) + [id] && isDirty
      ensures active == if old(active) == VNone then VStr(id) else old(active)
    {
      var scene := new ES.EditorScene(name);
      id := AddScene(scene, None);
    }

    /**
     * The copy duplicate_scene makes from a scene's saved form: a new scene
     * deserializes it and is then renamed, loses its file path and is dirty;
     * None when deserializing raises.
     */
    static method Copy(data: Value, newName: string, registry: map<string, ES.CompClass>,
                       wregistry: map<string, ES.WidgetClass>) returns (r: Option<ES.EditorScene>)
      ensures var o := ES.LoadScene(data, registry, wregistry);
        && (r.None? <==> o.err.Some?)
        && (r.Some? ==> var c := r.value;
              && fresh(c) && c.name == VStr(newName) && c.filePath == None && c.isDirty
              && c.Known() && c.Actors() == o.actors && c.widgets == o.widgets
              && (data.VDict? ==> c.metadata == ES.Get(data.entries, "metadata", VDict(map[]))))
    {
      var copy := new ES.EditorScene(newName);
      var e := copy.Deserialize(data, registry, wregistry);
      if e.Some? {
        return None;
      }
      copy.name := VStr(newName);
      copy.filePath := None;
      copy.MarkDirty();
      r := Some(copy);
    }

    /**
     * duplicate_scene: the copy is added under its new name made free; an
     * unknown id, or an error while copying, gives None and changes nothing.
     */
    method DuplicateScene(id: string, newName: string, f: Value -> Value, registry: map<string, ES.CompClass>,
                          wregistry: map<string, ES.WidgetClass>) returns (r: Option<string>)
      requires Valid() && (id in scenes ==> scenes[id].Known())
      modifies this
      ensures Valid()
      ensures id !in old(scenes) ==> r.None?
      ensures id in old(scenes) ==>
        var orig := old(scenes)[id];
        var data := old(ES.SceneData(orig.name, orig.metadata, orig.Actors(), orig.rootWidgets, f));
        (r.None? <==> ES.LoadScene(data, registry, wregistry).err.Some?)
      ensures r.None? ==> scenes == old(scenes) && order == old(order) && active == old(active) && isDirty == old(isDirty)
      ensures r.Some? ==>
        && r.value !in old(scenes) && IsFirstFree(old(scenes).Keys, newName, r.value)
        && r.value in scenes && fresh(scenes[r.value]) && scenes[r.value].name == VStr(newName)
        && scenes == old(scenes)[r.value := scenes[r.value]] && order == old(order) + [r.value] && isDirty
    {
      if id !in scenes {
        return None;
      }
      var data := scenes[id].Serialize(f);
      var copy := Copy(data, newName, registry, wregistry);
      if copy.None? {
        return None;
      }
      var nid := AddScene(copy.value, None);
      r := Some(nid);
    }

    /**
     * What the placeholder loop leaves, from the scenes and order before
     * it: each entry before the first bad one has its placeholder, later
     * ones are not reached, the other scenes are as they were, and the
     * error is that of the first bad entry.
     */
    ghost predicate Placed(keys: seq<string>, ps: map<string, Result<Info>>, scenes0: map<string, ES.EditorScene>,
                           order0: seq<string>, err: Option<Error>)
      reads this`scenes, this`order, scenes.Values
      requires forall i :: 0 <= i < |keys| ==> keys[i] in ps
    {
      var n := FirstBad(keys, ps);
      var done := Prefix(keys, n);
      && (err.Some? <==> n < |keys|)
      && (n < |keys| ==> err == Some(ps[keys[n]].error))
      && scenes.Keys == scenes0.Keys + done
      && order == Appended(order0, keys[..n])
      && (forall k :: k in done ==> k in ps && ps[k].Ok? && Fields(scenes[k]) == ps[k].value)
      && (forall k :: k in scenes0 && k !in done ==> scenes[k] == scenes0[k])
    }

    /** The fields a placeholder sets. */
    static function Fields(s: ES.EditorScene): Info
      reads s
    {
      (s.name, s.filePath, s.isDirty)
    }

    /** The placeholder scene: EditorScene(name) with its file path and dirty flag set. */
    static method NewPlaceholder(p: Info) returns (s: ES.EditorScene)
      ensures fresh(s) && Fields(s) == p
    {
      s := new ES.EditorScene("");
      s.name, s.filePath, s.isDirty := p.0, p.1, p.2;
    }

    /** One placeholder stored under its id: a new id goes last in the order. */
    method PlaceOne(k: string, p: Info) returns (s: ES.EditorScene)
      requires Valid()
      modifies this
      ensures Valid()
      ensures fresh(s) && Fields(s) == p
      ensures scenes == old(scenes)[k := s] && order == Step(old(order), k)
      ensures name == old(name) && active == old(active) && settings == old(settings)
      ensures isDirty == old(isDirty) && projectDir == old(projectDir)
    {
      s := NewPlaceholder(p);
      if k !in scenes {
        NoDupSnoc(order, k);
        order := order + [k];
      }
      scenes := scenes[k := s];
    }

    /** The placeholder loop of deserialize: each placeholder is a new scene. */
    method PlaceScenes(ps: map<string, Result<Info>>, keys: seq<string>) returns (err: Option<Error>)
      requires Valid() && forall k :: k in keys ==> k in ps
      modifies this
      ensures Valid()
      ensures Placed(keys, ps, old(scenes), old(order), err)
      ensures forall k :: k in Prefix(keys, FirstBad(keys, ps)) ==> k in scenes && fresh(scenes[k])
      ensures name == old(name) && active == old(active) && settings == old(settings)
      ensures isDirty == old(isDirty) && projectDir == old(projectDir)
    {
      var i := 0;
      ghost var made: map<string, ES.EditorScene> := map[];
      while i < |keys| && ps[keys[i]].Ok?
        invariant 0 <= i <= |keys|
        invariant Valid()
        invariant made.Keys == Prefix(keys, i)
        invariant scenes == old(scenes) + made
        invariant order == Appended(old(order), keys[..i])
        invariant forall k :: k in made ==> k in ps && ps[k].Ok? && fresh(made[k]) && Fields(made[k]) == ps[k].value
        invariant name == old(name) && active == old(active) && settings == old(settings)
        invariant isDirty == old(isDirty) && projectDir == old(projectDir)
      {
        var k := keys[i];
        assert keys[..i + 1] == keys[..i] + [k];
        AppendedSnoc(old(order), keys[..i], k);
        var s := PlaceOne(k, ps[k].value);
        UnionUpdate(old(scenes), made, k, s);
        KeysUpdate(made, k, s);
        made := made[k := s];
        i := i + 1;
      }
      err := if i < |keys| then Some(ps[keys[i]].error) else None;
      PlacedAt(keys, ps, old(scenes), old(order), i, err, made);
    }

    /** The loop's state at its exit is what Placed describes. */
    lemma PlacedAt(keys: seq<string>, ps: map<string, Result<Info>>, scenes0: map<string, ES.EditorScene>,
                   order0: seq<string>, i: nat, err: Option<Error>, made: map<string, ES.EditorScene>)
      requires (forall k :: k in keys ==> k in ps) && i <= |keys|
      requires i < |keys| ==> ps[keys[i]].Err? && err == Some(ps[keys[i]].error)
      requires i == |keys| ==> err == None
      requires made.Keys == Prefix(keys, i) && scenes == scenes0 + made && order == Appended(order0, keys[..i])
      requires forall k :: k in made ==> k in ps && ps[k].Ok? && Fields(made[k]) == ps[k].value
      ensures FirstBad(keys, ps) == i
      ensures Placed(keys, ps, scenes0, order0, err)
    {
      PrefixMembers(keys, i);
      forall j | 0 <= j < i
        ensures ps[keys[j]].Ok?
      {
        assert keys[j] in keys[..i];
      }
      FirstBadAt(keys, ps, i);
    }
  }
}
