/**
 * engine/core/world/component.py: the component base class of the world
 * package and its dictionary form: the class's module and name, then each
 * attribute of the instance dict that the class's exclude / include /
 * custom tables let through.
 *
 * The serialization registry the code imports from the enclosing package
 * (engine/core/__init__.py is not part of this model), the per-class
 * custom codecs, Python's str() of an unsupported value and the
 * isinstance test for Component values are inputs (Env, Schema).
 */
module WorldComponent {
  import opened Wrappers
  import opened Values

  /** One entry of serialization_registry: a type, its isinstance test and its json codec. */
  datatype RegEntry = RegEntry(typeName: string, isInstance: Value -> bool, toJson: Value -> Value, fromJson: Value -> Value)

  /** What the value codec consults besides the value. */
  datatype Env = Env(registry: seq<RegEntry>, isComponent: Value -> bool, strOf: Value -> string)

  /** An entry of `__serialization_custom__`: to_json, and from_json unless that is None. */
  datatype Custom = Custom(toJson: Value -> Value, hasFromJson: bool, fromJson: Value -> Value)

  /** The class-level tables `__serialization_exclude__`, `__serialization_include__` and `__serialization_custom__`. */
  datatype Schema = Schema(exclude: seq<string>, includeOnly: Option<seq<string>>, custom: map<string, Custom>)

  /** A component: its identity, its class (module, name, and the names along its MRO) and its instance dict without `actor`. */
  datatype CompState = CompState(uid: nat, cmodule: string, ctype: string, mro: seq<string>, fields: map<string, Value>)

  // ---------------------------------------------------------------------
  // _serialize_value / _deserialize_value

  /** The first registry entry whose type the value is an instance of. */
  function FirstMatch(registry: seq<RegEntry>, v: Value): (r: Option<nat>)
    ensures r.Some? ==> r.value < |registry| && registry[r.value].isInstance(v)
    ensures r.Some? ==> forall j :: 0 <= j < r.value ==> !registry[j].isInstance(v)
    ensures r.None? ==> forall j :: 0 <= j < |registry| ==> !registry[j].isInstance(v)
  {
    if |registry| == 0 then None
    else if registry[0].isInstance(v) then Some(0)
    else
      var t := FirstMatch(registry[1..], v);
      if t.Some? then Some(t.value + 1) else None
  }

  /** The first registry entry of the given type name. */
  function FirstNamed(registry: seq<RegEntry>, name: Value): (r: Option<nat>)
    ensures r.Some? ==> r.value < |registry| && name == VStr(registry[r.value].typeName)
    ensures r.Some? ==> forall j :: 0 <= j < r.value ==> name != VStr(registry[j].typeName)
    ensures r.None? ==> forall j :: 0 <= j < |registry| ==> name != VStr(registry[j].typeName)
  {
    if |registry| == 0 then None
    else if name == VStr(registry[0].typeName) then Some(0)
    else
      var t := FirstNamed(registry[1..], name);
      if t.Some? then Some(t.value + 1) else None
  }

  /** int, float, str, bool, list, dict or None: what _serialize_value passes through. */
  predicate IsPlain(v: Value)
  {
    v.VNone? || v.VBool? || v.VInt? || v.VFloat? || v.VStr? || v.VList? || v.VDict?
  }

  /** A dict carrying the `__type__` tag the decoder looks for. */
  predicate IsTagged(v: Value)
  {
    v.VDict? && "__type__" in v.entries
  }

  /** The tagged form of a value of a registered type. */
  function Tagged(e: RegEntry, v: Value): Value
  {
    VDict(map["__type__" := VStr(e.typeName), "value" := e.toJson(v)])
  }

  /** _serialize_value. */
  function SerializeValue(v: Value, env: Env): (r: Value)
    ensures FirstMatch(env.registry, v).Some? ==> r == Tagged(env.registry[FirstMatch(env.registry, v).value], v)
    ensures FirstMatch(env.registry, v).None? && env.isComponent(v) ==> r == VNone
    ensures FirstMatch(env.registry, v).None? && !env.isComponent(v) && IsPlain(v) ==> r == v
    ensures FirstMatch(env.registry, v).None? && !env.isComponent(v) && !IsPlain(v) ==> r == VStr(env.strOf(v))
  {
    var m := FirstMatch(env.registry, v);
    if m.Some? then Tagged(env.registry[m.value], v)
    else if env.isComponent(v) then VNone
    else if IsPlain(v) then v
    else VStr(env.strOf(v))
  }

  /** _deserialize_value; None is the KeyError of a tagged dict without "value". */
  function DeserializeValue(v: Value, env: Env): (r: Option<Value>)
    ensures !IsTagged(v) ==> r == Some(v)
    ensures IsTagged(v) && FirstNamed(env.registry, v.entries["__type__"]).None? ==> r == Some(v)
  {
    if IsTagged(v) then
      var e := FirstNamed(env.registry, v.entries["__type__"]);
      if e.None? then Some(v)
      else if "value" in v.entries then Some(env.registry[e.value].fromJson(v.entries["value"]))
      else None
    else Some(v)
  }

  /** A codec that reads back what it writes. */
  ghost predicate RoundTrips(e: RegEntry)
  {
    forall x :: e.fromJson(e.toJson(x)) == x
  }

  /** Registry type names are distinct. */
  predicate DistinctNames(registry: seq<RegEntry>)
  {
    forall i, j :: 0 <= i < j < |registry| ==> registry[i].typeName != registry[j].typeName
  }

  /**
   * The value codec is a round trip for a value of a registered type whose
   * codec reads back what it writes, and for a plain value that is not
   * itself a tagged dict.
   */
  lemma ValueRoundTrip(v: Value, env: Env)
    requires DistinctNames(env.registry)
    requires forall i :: 0 <= i < |env.registry| ==> RoundTrips(env.registry[i])
    requires FirstMatch(env.registry, v).Some? || (!env.isComponent(v) && IsPlain(v) && !IsTagged(v))
    ensures DeserializeValue(SerializeValue(v, env), env) == Some(v)
  {
    var m := FirstMatch(env.registry, v);
    if m.Some? {
      var e := env.registry[m.value];
      var t := Tagged(e, v);
      var n := FirstNamed(env.registry, t.entries["__type__"]);
      assert n.Some? && n.value == m.value by {
        assert t.entries["__type__"] == VStr(e.typeName);
        if n.None? || n.value != m.value {
          assert false;
        }
      }
      assert RoundTrips(e);
    }
  }

  // ---------------------------------------------------------------------
  // serialize / deserialize

  /** The attributes serialize writes: never `actor`, nothing excluded, and only included ones when there is an include list. */
  predicate Selected(k: string, s: Schema)
  {
    k != "actor" && k !in s.exclude && (s.includeOnly.None? || k in s.includeOnly.value)
  }

  /** How one selected attribute is written. */
  function Field(k: string, v: Value, s: Schema, env: Env): Value
  {
    if k in s.custom then VDict(map["__custom__" := VBool(true), "value" := s.custom[k].toJson(v)])
    else SerializeValue(v, env)
  }

  /** Component.serialize. */
  function Serialize(c: CompState, s: Schema, env: Env): (d: map<string, Value>)
    ensures "module" in d && "type" in d
    ensures "actor" !in d
    ensures forall k :: k in d && k != "module" && k != "type" ==> k in c.fields && Selected(k, s)
    ensures forall k :: k in c.fields && Selected(k, s) ==> k in d && d[k] == Field(k, c.fields[k], s, env)
    ensures ("module" !in c.fields || !Selected("module", s)) ==> d["module"] == VStr(c.cmodule)
    ensures ("type" !in c.fields || !Selected("type", s)) ==> d["type"] == VStr(c.ctype)
  {
    var written := set k | k in c.fields && Selected(k, s);
    map k | k in written + {"module", "type"} ::
      if k in written then Field(k, c.fields[k], s, env)
      else if k == "module" then VStr(c.cmodule) else VStr(c.ctype)
  }

  /** What deserialize does with one key: set it, skip it, or raise. */
  datatype Step = Set(v: Value) | Skip | Raise

  /** `value.get("__custom__")` is truthy. */
  predicate MarkedCustom(v: Value)
  {
    v.VDict? && "__custom__" in v.entries && Truthy(v.entries["__custom__"])
  }

  function StepFor(k: string, v: Value, s: Schema, env: Env): (r: Step)
    ensures k == "type" || k == "module" ==> r == Skip
    ensures k != "type" && k != "module" && !MarkedCustom(v) ==>
      r == (if DeserializeValue(v, env).Some? then Set(DeserializeValue(v, env).value) else Raise)
    ensures k != "type" && k != "module" && MarkedCustom(v) && (k !in s.custom || !s.custom[k].hasFromJson) ==> r == Skip
  {
    if k == "type" || k == "module" then Skip
    else if MarkedCustom(v) then
      if k in s.custom && s.custom[k].hasFromJson then
        if "value" in v.entries then Set(s.custom[k].fromJson(v.entries["value"])) else Raise
      else Skip
    else
      var d := DeserializeValue(v, env);
      if d.Some? then Set(d.value) else Raise
  }

  /**
   * Component.deserialize: every key of the data other than "type" and
   * "module" is set, decoded; a custom-marked entry goes through its
   * from_json and is skipped when there is none. None: some step raised.
   */
  function Deserialize(fields: map<string, Value>, data: map<string, Value>, s: Schema, env: Env): (r: Option<map<string, Value>>)
    ensures r.None? <==> exists k :: k in data && StepFor(k, data[k], s, env).Raise?
    ensures r.Some? ==> forall k :: k !in data && k in fields ==> k in r.value && r.value[k] == fields[k]
    ensures r.Some? ==> forall k :: k in r.value ==> k in fields || k in data
    ensures r.Some? ==> forall k :: k in data && StepFor(k, data[k], s, env).Set? ==> k in r.value && r.value[k] == StepFor(k, data[k], s, env).v
    ensures r.Some? ==> forall k :: k in fields && k in data && StepFor(k, data[k], s, env).Skip? ==> k in r.value && r.value[k] == fields[k]
  {
    if exists k :: k in data && StepFor(k, data[k], s, env).Raise? then None
    else
      Some(map k | k in fields.Keys + data.Keys && (k in fields || StepFor(k, data[k], s, env).Set?) ::
        if k in data && StepFor(k, data[k], s, env).Set? then StepFor(k, data[k], s, env).v else fields[k])
  }

  /** "type" and "module" in the data are never written into the component. */
  lemma DeserializeIgnoresClassKeys(fields: map<string, Value>, data: map<string, Value>, s: Schema, env: Env)
    requires Deserialize(fields, data, s, env).Some?
    ensures var r := Deserialize(fields, data, s, env).value;
            ("type" in r <==> "type" in fields) && ("type" in fields ==> r["type"] == fields["type"])
            && ("module" in r <==> "module" in fields) && ("module" in fields ==> r["module"] == fields["module"])
  {
  }

  /**
   * A component with plain attributes, no custom codec and an empty
   * registry: a fresh instance of its class that deserializes its
   * dictionary holds every serialized attribute with the same value.
   */
  lemma SerializeThenDeserialize(c: CompState, s: Schema, env: Env, blank: map<string, Value>)
    requires env.registry == [] && s.custom == map[]
    requires forall k :: k in c.fields ==> IsPlain(c.fields[k]) && !env.isComponent(c.fields[k]) && !IsTagged(c.fields[k]) && !MarkedCustom(c.fields[k])
    ensures var r := Deserialize(blank, Serialize(c, s, env), s, env);
            r.Some? && forall k :: k in c.fields && Selected(k, s) && k != "type" && k != "module" ==> k in r.value && r.value[k] == c.fields[k]
  {
    var d := Serialize(c, s, env);
    forall k | k in d
      ensures !StepFor(k, d[k], s, env).Raise?
    {
      if k != "type" && k != "module" {
        assert k in c.fields && Selected(k, s);
        assert d[k] == c.fields[k];
      }
    }
    forall k | k in c.fields && Selected(k, s) && k != "type" && k != "module"
      ensures StepFor(k, d[k], s, env) == Set(c.fields[k])
    {
      assert d[k] == c.fields[k];
    }
  }

  // ---------------------------------------------------------------------
  // createFromData

  /** What importing the class gives: whether it is a Component subclass, its MRO, its tables and a fresh instance dict. */
  datatype ClassInfo = ClassInfo(isComponent: bool, mro: seq<string>, schema: Schema, defaults: map<string, Value>)

  /** A `type` or `module` entry that is there and truthy, as data.get(...) followed by `if not ...` requires. */
  predicate Present(data: map<string, Value>, k: string)
  {
    k in data && Truthy(data[k])
  }

  /**
   * Whether the import of a module succeeds: `__main__` is taken from
   * sys.modules, any other module imports when `classes` lists a class of it.
   */
  predicate Imports(classes: map<(string, string), ClassInfo>, m: string)
  {
    m == "__main__" || exists k :: k in classes && k.0 == m
  }

  /**
   * Component.createFromData. `classes` maps (module, class name) to what
   * the import finds; a module that does not import, or a class the module
   * lacks, is the ImportError or AttributeError the code turns into
   * ValueError. A `module` that is not a string makes import_module raise
   * AttributeError (it has no startswith), also turned into ValueError. A
   * `type` that is not a string reaches getattr only once the module has
   * imported, and then raises TypeError, which is not caught.
   */
  function CreateFromData(data: map<string, Value>, classes: map<(string, string), ClassInfo>, uid: nat, env: Env): (r: Result<CompState>)
    ensures !Present(data, "type") ==> r.Err? && r.error.ValueError?
    ensures Present(data, "type") && !Present(data, "module") ==> r.Err? && r.error.ValueError?
    ensures r.Ok? ==> data["type"] == VStr(r.value.ctype) && data["module"] == VStr(r.value.cmodule)
    ensures r.Ok? ==> (r.value.cmodule, r.value.ctype) in classes && classes[(r.value.cmodule, r.value.ctype)].isComponent
    ensures Present(data, "type") && Present(data, "module") && data["type"].VStr? && data["module"].VStr?
            && (data["module"].s, data["type"].s) in classes && !classes[(data["module"].s, data["type"].s)].isComponent
            ==> r.Err? && r.error.ValueError?
    ensures Present(data, "type") && Present(data, "module") && !data["module"].VStr? ==> r.Err? && r.error.ValueError?
    ensures Present(data, "type") && Present(data, "module") && data["module"].VStr? && !data["type"].VStr?
            ==> r.Err? && (r.error.TypeError? <==> Imports(classes, data["module"].s)) && (r.error.ValueError? <==> !Imports(classes, data["module"].s))
  {
    if !Present(data, "type") then Err(ValueError("Serialized data must contain a 'type' field."))
    else if !Present(data, "module") then Err(ValueError("Serialized data must contain a 'module' field."))
    else if !data["module"].VStr? then Err(ValueError("Cannot find component class: object has no attribute 'startswith'"))
    else if !Imports(classes, data["module"].s) then Err(ValueError("Cannot find component class: No module named " + data["module"].s))
    else if !data["type"].VStr? then Err(TypeError("attribute name must be string"))
    else
      var key := (data["module"].s, data["type"].s);
      if key !in classes then Err(ValueError("Cannot find component class"))
      else if !classes[key].isComponent then Err(ValueError("Class is not a Component subclass"))
      else
        var info := classes[key];
        var f := Deserialize(info.defaults, data, info.schema, env);
        if f.None? then Err(KeyError("value"))
        else Ok(CompState(uid, key.0, key.1, info.mro, f.value))
  }

  /** A component rebuilt from its own dictionary is of the same class. */
  lemma CreateFromOwnData(c: CompState, classes: map<(string, string), ClassInfo>, uid: nat, env: Env)
    requires (c.cmodule, c.ctype) in classes && classes[(c.cmodule, c.ctype)].isComponent
    requires c.cmodule != "" && c.ctype != ""
    requires "module" !in c.fields && "type" !in c.fields
    ensures var r := CreateFromData(Serialize(c, classes[(c.cmodule, c.ctype)].schema, env), classes, uid, env);
            r.Ok? ==> r.value.cmodule == c.cmodule && r.value.ctype == c.ctype && r.value.uid == uid
  {
  }
}
