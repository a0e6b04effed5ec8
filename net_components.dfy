/**
 * The synchronisation half of engine/networking/network_components.py:
 * which components a NetworkComponent syncs, the snapshot it compares to
 * decide whether to send, how a received update is applied, and the
 * PriorityNetworkComponent's timing.
 *
 * Messages the code hands to the network manager are recorded as
 * `Outgoing` values; the clock, uuid4 and the component classes that a
 * dynamic import would find are parameters.
 */
module NetComponents {
  import opened Wrappers
  import opened Values
  import opened Hierarchy
  import opened CoreActor
  import opened NetSerialization
  import opened Networking

  // ---------------------------------------------------------------------
  // Which components are synced

  /** sync_mode with its black- and whitelist of component class names. */
  datatype SyncPolicy = SyncPolicy(mode: string, blacklist: set<string>, whitelist: set<string>)

  /** should_sync_component. */
  predicate ShouldSync(p: SyncPolicy, c: Comp)
  {
    c.ctype != NetworkComponentType && (if p.mode == "blacklist" then c.ctype !in p.blacklist else c.ctype in p.whitelist)
  }

  /**
   * add_to_blacklist stops a class from syncing in blacklist mode and
   * changes nothing in whitelist mode; add_to_whitelist is the mirror image.
   */
  lemma ListAdditions(p: SyncPolicy, c: Comp, t: string)
    ensures ShouldSync(p.(blacklist := p.blacklist + {t}), c) <==> ShouldSync(p, c) && (p.mode != "blacklist" || c.ctype != t)
    ensures ShouldSync(p.(whitelist := p.whitelist + {t}), c) <==>
      ShouldSync(p, c) || (p.mode != "blacklist" && c.ctype == t && c.ctype != NetworkComponentType)
  {
  }

  /** The class names on a component list. */
  function Types(list: seq<Comp>): set<string>
  {
    set i | 0 <= i < |list| :: list[i].ctype
  }

  /** _capture_component_states: class name to serialize_component, for every synced component; a later one of the same name wins. */
  function States(p: SyncPolicy, list: seq<Comp>): (r: map<string, Value>)
    ensures r.Keys <= Types(list)
    ensures NetworkComponentType !in r
  {
    if |list| == 0 then map[]
    else
      var rest := States(p, list[..|list| - 1]);
      var c := list[|list| - 1];
      if ShouldSync(p, c) then rest[c.ctype := SerializeComponent(c)] else rest
  }

  /** The captured class names are exactly those of the synced components. */
  lemma {:induction false} StatesKeys(p: SyncPolicy, list: seq<Comp>)
    ensures States(p, list).Keys == set i | 0 <= i < |list| && ShouldSync(p, list[i]) :: list[i].ctype
    decreases |list|
  {
    if |list| > 0 {
      var init := list[..|list| - 1];
      StatesKeys(p, init);
      var want := set i | 0 <= i < |list| && ShouldSync(p, list[i]) :: list[i].ctype;
      var before := set i | 0 <= i < |init| && ShouldSync(p, init[i]) :: init[i].ctype;
      assert forall i :: 0 <= i < |init| ==> init[i] == list[i];
      var c := list[|list| - 1];
      assert want == before + (if ShouldSync(p, c) then {c.ctype} else {});
    }
  }

  /** In blacklist mode every class but the blacklisted ones and the NetworkComponent is captured. */
  lemma BlacklistCaptures(p: SyncPolicy, list: seq<Comp>)
    requires p.mode == "blacklist"
    ensures States(p, list).Keys == Types(list) - p.blacklist - {NetworkComponentType}
  {
    StatesKeys(p, list);
  }

  /** In whitelist mode exactly the whitelisted classes present, never the NetworkComponent, are captured. */
  lemma WhitelistCaptures(p: SyncPolicy, list: seq<Comp>)
    requires p.mode != "blacklist"
    ensures States(p, list).Keys == (Types(list) * p.whitelist) - {NetworkComponentType}
  {
    StatesKeys(p, list);
  }

  /** Each captured state is the serialization of a synced component of that class. */
  lemma {:induction false} StatesValue(p: SyncPolicy, list: seq<Comp>, k: string)
    requires k in States(p, list)
    ensures exists i :: 0 <= i < |list| && list[i].ctype == k && ShouldSync(p, list[i]) && States(p, list)[k] == SerializeComponent(list[i])
    decreases |list|
  {
    var init := list[..|list| - 1];
    var c := list[|list| - 1];
    if !(ShouldSync(p, c) && c.ctype == k) {
      StatesValue(p, init, k);
      var i :| 0 <= i < |init| && init[i].ctype == k && ShouldSync(p, init[i]) && States(p, init)[k] == SerializeComponent(init[i]);
      assert list[i] == init[i];
    }
  }

  /** With one component per class, the state captured for a class is that component's serialization. */
  lemma CapturedIsSerialized(p: SyncPolicy, cs: Components, t: string)
    requires InSync(cs) && t in cs.byType && ShouldSync(p, cs.byType[t])
    ensures t in States(p, cs.list) && States(p, cs.list)[t] == SerializeComponent(cs.byType[t])
  {
    StatesKeys(p, cs.list);
    var j :| 0 <= j < |cs.list| && cs.list[j] == cs.byType[t];
    assert cs.list[j].ctype == t;
    StatesValue(p, cs.list, t);
  }

  /** The component list of an update message: every synced component, in list order. */
  function SyncedList(p: SyncPolicy, list: seq<Comp>): (r: seq<Value>)
    ensures |r| <= |list|
  {
    if |list| == 0 then []
    else
      var rest := SyncedList(p, list[..|list| - 1]);
      var c := list[|list| - 1];
      if ShouldSync(p, c) then rest + [SerializeComponent(c)] else rest
  }

  // ---------------------------------------------------------------------
  // Messages handed to the network manager

  datatype Route = ToAll(exclude: Option<string>) | ToServer | ToClient(client: string)

  datatype Outgoing = Outgoing(route: Route, mtype: MessageType, data: Value)

  /** A server broadcasts (to all but `exclude`); a client sends to the server. */
  function RouteFor(isServer: bool, exclude: Option<string>): Route
  {
    if isServer then ToAll(exclude) else ToServer
  }

  function UpdatePayload(networkId: string, ownerId: string, p: SyncPolicy, a: NetActor): (r: Value)
    ensures r.VDict? && r.entries.Keys == {"network_id", "actor_id", "owner_id", "components", "transform"}
  {
    VDict(map["network_id" := VStr(networkId), "actor_id" := VStr(a.id), "owner_id" := VStr(ownerId),
              "components" := VList(SyncedList(p, a.comps.list)), "transform" := TransformValue(a)])
  }

  // ---------------------------------------------------------------------
  // Applying a received update

  /**
   * Decoding each received attribute the component already has with the
   * list codec; `skip` names attributes left alone. Err when the codec
   * raises for one of them.
   */
  function DecodeInto(attrs: map<string, Value>, data: map<string, Value>, skip: set<string>): (r: Result<map<string, Value>>)
    ensures r.Ok? ==> r.value.Keys == attrs.Keys
    ensures r.Ok? ==> forall k :: k in attrs && (k !in data || k in skip) ==> r.value[k] == attrs[k]
    ensures r.Ok? ==> forall k :: k in attrs && k in data && k !in skip ==> Decode(data[k]) == Ok(r.value[k])
    ensures r.Err? <==> exists k :: k in data && k in attrs && k !in skip && Decode(data[k]).Err?
  {
    if exists k :: k in data && k in attrs && k !in skip && Decode(data[k]).Err? then Err(ColorError)
    else Ok(map k | k in attrs :: if k in data && k !in skip then Decode(data[k]).value else attrs[k])
  }

  const SpriteType := "SpriteComponent"

  /**
   * The SpriteComponent case of apply_component_update: surface and rect
   * are not taken from the data; when size, color or alpha arrived, a new
   * surface of the (truncated) size is made and rect becomes its bounds.
   */
  function ApplySprite(c: Comp, data: map<string, Value>): (r: Result<Comp>)
    ensures r.Ok? ==> r.value.uid == c.uid && r.value.ctype == c.ctype && r.value.enabled == c.enabled
  {
    var decoded := DecodeInto(c.attrs, data, {"surface", "rect"});
    if decoded.Err? then Err(decoded.error)
    else
      var attrs := decoded.value;
      var touched := ("size" in data && "size" in c.attrs) || ("color" in data && "color" in c.attrs) || ("alpha" in data && "alpha" in c.attrs);
      if !(touched && "size" in attrs && "color" in attrs) then Ok(c.(attrs := attrs))
      else if !attrs["size"].VVec2? then Err(TypeError("size"))
      else
        var w := Trunc(attrs["size"].x);
        var h := Trunc(attrs["size"].y);
        if w < 0 || h < 0 then Err(ValueError("Invalid resolution for Surface"))
        else Ok(c.(attrs := attrs["surface" := VOpaque("Surface")]["rect" := VRect(0, 0, w, h)]))
  }

  /** apply_component_update's attribute loop as written: every class goes through the list codec. */
  function ApplyDataAsWritten(c: Comp, data: map<string, Value>): (r: Result<Comp>)
    ensures r.Ok? ==> r.value.uid == c.uid && r.value.ctype == c.ctype && r.value.enabled == c.enabled
    ensures c.ctype != SpriteType ==> (r.Err? <==> exists k :: k in data && k in c.attrs && Decode(data[k]).Err?)
    ensures c.ctype != SpriteType && r.Ok? ==>
      r.value.attrs.Keys == c.attrs.Keys && forall k :: k in c.attrs && k in data ==> Decode(data[k]) == Ok(r.value.attrs[k])
  {
    if c.ctype == SpriteType then ApplySprite(c, data)
    else
      var decoded := DecodeInto(c.attrs, data, {});
      if decoded.Err? then Err(decoded.error) else Ok(c.(attrs := decoded.value))
  }

  /**
   * The attribute loop as intended: the data came from the component's own
   * serialize_for_network, so it is read back with the matching
   * deserialize_from_network; only the SpriteComponent, which sends lists,
   * goes through the list codec.
   */
  function ApplyData(c: Comp, data: map<string, Value>): (r: Result<Comp>)
    ensures c.ctype != SpriteType ==> r == Ok(c.(attrs := DeserializeFromNetwork(c.attrs, data)))
  {
    if c.ctype == SpriteType then ApplySprite(c, data)
    else Ok(c.(attrs := DeserializeFromNetwork(c.attrs, data)))
  }

  /** A velocity the owner holds as a Vector2. */
  function Mover(v: Value): Comp
  {
    Comp(0, "MoverComponent", "game.components", true, map["velocity" := v])
  }

  /** The tagged dict the default serializer makes of Vector2(1, 2). */
  function TaggedVector(): Value
  {
    VDict(map["__type__" := VStr("Vector2"), "x" := VFloat(1.0), "y" := VFloat(2.0)])
  }

  lemma MoverSendsTaggedVector()
    ensures SerializeComponent(Mover(VVec2(1.0, 2.0))).entries["data"].entries == map["velocity" := TaggedVector()]
  {
    assert EncodeT(VVec2(1.0, 2.0)) == TaggedVector();
    assert SerializeForNetwork(map["velocity" := VVec2(1.0, 2.0)]) == map["velocity" := TaggedVector()];
  }

  lemma ListCodecKeepsTaggedVector()
    ensures Decode(TaggedVector()) == Ok(TaggedVector())
  {
    var m := TaggedVector().entries;
    assert forall k :: k in m ==> Decode(m[k]) == Ok(m[k]);
    assert (map k | k in m :: Decode(m[k]).value) == m;
  }

  /** As written, the replica's Vector2 attribute becomes the tagged dict the owner sent. */
  lemma TaggedVectorArrivesAsDict()
    ensures var data := SerializeComponent(Mover(VVec2(1.0, 2.0))).entries["data"].entries;
      ApplyDataAsWritten(Mover(VVec2(0.0, 0.0)), data) == Ok(Mover(TaggedVector()))
  {
    MoverSendsTaggedVector();
    ListCodecKeepsTaggedVector();
    var attrs := Mover(VVec2(0.0, 0.0)).attrs;
    var data := map["velocity" := TaggedVector()];
    var none: set<string> := {};
    assert forall k :: k in data ==> k == "velocity";
    assert !exists k :: k in data && k in attrs && k !in none && Decode(data[k]).Err?;
    var r := DecodeInto(attrs, data, none);
    assert r.Ok?;
    assert r.value["velocity"] == TaggedVector();
    assert r.value == data;
    assert Mover(VVec2(0.0, 0.0)).(attrs := data) == Mover(TaggedVector());
  }

  /** With the intended rule, every attribute the owner sent arrives as the owner's value. */
  lemma ApplyDataReplicates(src: Comp, dst: Comp, k: string)
    requires dst.ctype != SpriteType
    requires k in dst.attrs && k in src.attrs && TypePlain(src.attrs[k])
    ensures var r := ApplyData(dst, SerializeComponent(src).entries["data"].entries);
      r.Ok? && (k in SerializeForNetwork(src.attrs) ==> r.value.attrs[k] == src.attrs[k])
      && (k !in SerializeForNetwork(src.attrs) ==> r.value.attrs[k] == dst.attrs[k])
  {
    SyncReplicates(src.attrs, dst.attrs, k);
  }

  /** The component of that class replaced in place; dict and list stay in step and list order is kept. */
  function ReplaceComponent(cs: Components, c: Comp): (r: Components)
    requires InSync(cs) && c.ctype in cs.byType
    ensures InSync(r)
    ensures r.byType == cs.byType[c.ctype := c]
    ensures |r.list| == |cs.list| && forall i :: 0 <= i < |cs.list| ==> r.list[i] == if cs.list[i].ctype == c.ctype then c else cs.list[i]
  {
    var list := seq(|cs.list|, i requires 0 <= i < |cs.list| => if cs.list[i].ctype == c.ctype then c else cs.list[i]);
    ReplacedInSync(cs, c, list);
    Components(cs.byType[c.ctype := c], list)
  }

  lemma ReplacedInSync(cs: Components, c: Comp, list: seq<Comp>)
    requires InSync(cs) && c.ctype in cs.byType
    requires |list| == |cs.list| && forall i :: 0 <= i < |cs.list| ==> list[i] == if cs.list[i].ctype == c.ctype then c else cs.list[i]
    ensures InSync(Components(cs.byType[c.ctype := c], list))
  {
    var m := cs.byType[c.ctype := c];
    ReplacedNoDup(cs, c, list);
    ReplacedListed(cs, c, list);
    ReplacedCovered(cs, c, list, m);
  }

  lemma ReplacedNoDup(cs: Components, c: Comp, list: seq<Comp>)
    requires InSync(cs) && c.ctype in cs.byType
    requires |list| == |cs.list| && forall i :: 0 <= i < |cs.list| ==> list[i] == if cs.list[i].ctype == c.ctype then c else cs.list[i]
    ensures NoDup(list)
  {
    forall i, j | 0 <= i < j < |list| ensures list[i] != list[j] {
      assert cs.list[i] == cs.byType[cs.list[i].ctype];
      assert cs.list[j] == cs.byType[cs.list[j].ctype];
      assert list[i].ctype == cs.list[i].ctype && list[j].ctype == cs.list[j].ctype;
    }
  }

  lemma ReplacedListed(cs: Components, c: Comp, list: seq<Comp>)
    requires InSync(cs) && c.ctype in cs.byType
    requires |list| == |cs.list| && forall i :: 0 <= i < |cs.list| ==> list[i] == if cs.list[i].ctype == c.ctype then c else cs.list[i]
    ensures forall i :: 0 <= i < |list| ==> list[i].ctype in cs.byType[c.ctype := c] && cs.byType[c.ctype := c][list[i].ctype] == list[i]
  {
  }

  lemma ReplacedCovered(cs: Components, c: Comp, list: seq<Comp>, m: map<string, Comp>)
    requires InSync(cs) && c.ctype in cs.byType && m == cs.byType[c.ctype := c]
    requires |list| == |cs.list| && forall i :: 0 <= i < |cs.list| ==> list[i] == if cs.list[i].ctype == c.ctype then c else cs.list[i]
    ensures forall t :: t in m ==> m[t].ctype == t && m[t] in list
  {
    forall t | t in m ensures m[t].ctype == t && m[t] in list {
      var j :| 0 <= j < |cs.list| && cs.list[j] == cs.byType[t];
      assert list[j] == m[t];
    }
  }

  /** One entry of the components list of an update, applied to the actor. */
  function ApplyOne(p: SyncPolicy, a: NetActor, cd: Value): (r: (NetActor, Option<Error>))
    requires InSync(a.comps)
    ensures InSync(r.0.comps)
    ensures r.0.id == a.id && r.0.comps.byType.Keys == a.comps.byType.Keys
  {
    if !cd.VDict? then (a, Some(TypeError("component_data")))
    else if "type" !in cd.entries then (a, Some(KeyError("type")))
    else
      var t := cd.entries["type"];
      if !t.VStr? || t.s !in a.comps.byType || !ShouldSync(p, a.comps.byType[t.s]) then (a, None)
      else if "data" !in cd.entries then (a, Some(KeyError("data")))
      else if !cd.entries["data"].VDict? then (a, Some(TypeError("data")))
      else
        var c := a.comps.byType[t.s];
        match ApplyData(c, cd.entries["data"].entries)
        case Err(e) => (a, Some(e))
        case Ok(c') => (a.(comps := ReplaceComponent(a.comps, c')), None)
  }

  /** The update's component entries applied in order, stopping at the first that raises. */
  function ApplyAll(p: SyncPolicy, a: NetActor, items: seq<Value>): (r: (NetActor, Option<Error>))
    requires InSync(a.comps)
    ensures InSync(r.0.comps) && r.0.id == a.id
  {
    if |items| == 0 then (a, None)
    else
      var prev := ApplyAll(p, a, items[..|items| - 1]);
      if prev.1.Some? then prev else ApplyOne(p, prev.0, items[|items| - 1])
  }

  /** Once an entry has raised, the later ones are never applied. */
  lemma {:induction false} ErrorStops(p: SyncPolicy, a: NetActor, items: seq<Value>, i: nat)
    requires InSync(a.comps) && i <= |items| && ApplyAll(p, a, items[..i]).1.Some?
    ensures ApplyAll(p, a, items) == ApplyAll(p, a, items[..i])
    decreases |items| - i
  {
    if i < |items| {
      assert items[..i + 1][..i] == items[..i];
      ErrorStops(p, a, items, i + 1);
    } else {
      assert items[..i] == items;
    }
  }

  /** The transform part of an update: position, rotation, then scale, stopping at the first that raises. */
  function ApplyTransform(a: NetActor, t: Value): (r: (NetActor, Option<Error>))
    ensures r.0.comps == a.comps && r.0.id == a.id
    ensures r.1.None? ==> VecField(t, "local_position") == Ok(r.0.position) && VecField(t, "local_scale") == Ok(r.0.scale)
  {
    var pos := VecField(t, "local_position");
    if pos.Err? then (a, Some(pos.error))
    else
      var a1 := a.(position := pos.value);
      var rot := Field(t, "local_rotation");
      if rot.Err? || !IsNumber(rot.value) then (a1, Some(TypeError("local_rotation")))
      else
        var a2 := a1.(rotation := AsReal(rot.value));
        var scale := VecField(t, "local_scale");
        if scale.Err? then (a2, Some(scale.error)) else (a2.(scale := scale.value), None)
  }

  /** apply_component_update on an attached actor: transform, then components. */
  function ApplyUpdate(p: SyncPolicy, a: NetActor, comps: Value, t: Value): (r: (NetActor, Option<Error>))
    requires InSync(a.comps)
    ensures InSync(r.0.comps) && r.0.id == a.id
  {
    var moved := ApplyTransform(a, t);
    if moved.1.Some? then moved
    else if !comps.VList? then (moved.0, Some(TypeError("components")))
    else ApplyAll(p, moved.0, comps.items)
  }

  // ---------------------------------------------------------------------
  // NetworkComponent

  /** The fields of a NetworkComponent, as the actor manager keeps them. */
  datatype NcState = NcState(networkId: string, ownerId: string, policy: SyncPolicy, lastSyncTime: real,
                             lastStates: map<string, Value>, spawned: bool)

  /** `owner_id or "server"`. */
  function OrServer(owner: Option<string>): (r: string)
    ensures r != ""
    ensures owner.Some? && owner.value != "" ==> r == owner.value
  {
    if owner.Some? && owner.value != "" then owner.value else "server"
  }

  /** A new NetworkComponent: nothing listed, nothing captured, not spawned. */
  function NewNc(id: string, owner: Option<string>, mode: string): NcState
  {
    NcState(id, OrServer(owner), SyncPolicy(mode, {}, {}), 0.0, map[], false)
  }

  class NetworkComponent {
    var networkId: string
    var ownerId: string
    var syncMode: string
    var blacklist: set<string>
    var whitelist: set<string>
    var lastSyncTime: real
    var lastStates: map<string, Value>
    var spawned: bool
    const syncRate: real := 20.0

    function Policy(): SyncPolicy
      reads this
    {
      SyncPolicy(syncMode, blacklist, whitelist)
    }

    function Snap(): NcState
      reads this
    {
      NcState(networkId, ownerId, Policy(), lastSyncTime, lastStates, spawned)
    }

    /** `id` is the uuid4 drawn for network_id. */
    constructor(id: string, owner: Option<string>, mode: string)
      ensures Snap() == NewNc(id, owner, mode)
    {
      networkId := id;
      ownerId := OrServer(owner);
      syncMode := mode;
      blacklist := {};
      whitelist := {};
      lastSyncTime := 0.0;
      lastStates := map[];
      spawned := false;
    }

    /** Only "blacklist" and "whitelist" are accepted. */
    method SetSyncMode(mode: string)
      modifies this
      ensures mode == "blacklist" || mode == "whitelist" ==> Snap() == old(Snap()).(policy := old(Policy()).(mode := mode))
      ensures !(mode == "blacklist" || mode == "whitelist") ==> Snap() == old(Snap())
    {
      if mode == "blacklist" || mode == "whitelist" {
        syncMode := mode;
      }
    }

    method AddToBlacklist(t: string)
      modifies this
      ensures Snap() == old(Snap()).(policy := old(Policy()).(blacklist := old(blacklist) + {t}))
    {
      blacklist := blacklist + {t};
    }

    method RemoveFromBlacklist(t: string)
      modifies this
      ensures Snap() == old(Snap()).(policy := old(Policy()).(blacklist := old(blacklist) - {t}))
    {
      blacklist := blacklist - {t};
    }

    method AddToWhitelist(t: string)
      modifies this
      ensures Snap() == old(Snap()).(policy := old(Policy()).(whitelist := old(whitelist) + {t}))
    {
      whitelist := whitelist + {t};
    }

    method RemoveFromWhitelist(t: string)
      modifies this
      ensures Snap() == old(Snap()).(policy := old(Policy()).(whitelist := old(whitelist) - {t}))
    {
      whitelist := whitelist - {t};
    }

    /** The loop shared by the capture and the change check: the current state of every synced component. */
    method CollectStates(list: seq<Comp>) returns (m: map<string, Value>)
      ensures m == States(Policy(), list)
    {
      m := map[];
      for i := 0 to |list|
        invariant m == States(Policy(), list[..i])
      {
        assert list[..i + 1][..i] == list[..i];
        if ShouldSync(Policy(), list[i]) {
          m := m[list[i].ctype := SerializeComponent(list[i])];
        }
      }
      assert list[..|list|] == list;
    }

    /** _capture_component_states; `actor` is the attached actor's component list. */
    method CaptureStates(actor: Option<seq<Comp>>)
      modifies this
      ensures Snap() == old(Snap()).(lastStates := if actor.None? then map[] else States(old(Policy()), actor.value))
    {
      lastStates := map[];
      if actor.None? {
        return;
      }
      lastStates := CollectStates(actor.value);
    }

    /** _has_components_changed. */
    method HasComponentsChanged(actor: Option<seq<Comp>>) returns (changed: bool)
      ensures changed <==> actor.Some? && States(Policy(), actor.value) != lastStates
    {
      if actor.None? {
        return false;
      }
      var current := CollectStates(actor.value);
      changed := current != lastStates;
    }

    /** The loop of _send_component_update that lists the synced components. */
    method CollectUpdates(list: seq<Comp>) returns (s: seq<Value>)
      ensures s == SyncedList(Policy(), list)
    {
      s := [];
      for i := 0 to |list|
        invariant s == SyncedList(Policy(), list[..i])
      {
        assert list[..i + 1][..i] == list[..i];
        if ShouldSync(Policy(), list[i]) {
          s := s + [SerializeComponent(list[i])];
        }
      }
      assert list[..|list|] == list;
    }

    /** _send_component_update: a server broadcasts to all but the owner, a client sends to the server. */
    method SendComponentUpdate(actor: Option<NetActor>, connected: bool, isServer: bool) returns (out: Option<Outgoing>)
      ensures actor.None? || !connected ==> out == None
      ensures actor.Some? && connected ==>
        out == Some(Outgoing(RouteFor(isServer, Some(ownerId)), ComponentUpdate, UpdatePayload(networkId, ownerId, Policy(), actor.value)))
    {
      if actor.None? || !connected {
        return None;
      }
      var list := CollectUpdates(actor.value.comps.list);
      var payload := VDict(map["network_id" := VStr(networkId), "actor_id" := VStr(actor.value.id), "owner_id" := VStr(ownerId),
                               "components" := VList(list), "transform" := TransformValue(actor.value)]);
      out := Some(Outgoing(RouteFor(isServer, Some(ownerId)), ComponentUpdate, payload));
    }

    /**
     * update: while connected and at most sync_rate times a second, an
     * update is sent when the synced state differs from the last capture,
     * and the capture is then renewed.
     */
    method Update(now: real, connected: bool, isServer: bool, actor: Option<NetActor>) returns (out: Option<Outgoing>)
      modifies this
      ensures !connected || now - old(lastSyncTime) < 1.0 / syncRate ==> out == None && Snap() == old(Snap())
      ensures connected && now - old(lastSyncTime) >= 1.0 / syncRate ==>
        var changed := actor.Some? && States(old(Policy()), actor.value.comps.list) != old(lastStates);
        out == (if changed then Some(Outgoing(RouteFor(isServer, Some(ownerId)), ComponentUpdate,
                                              UpdatePayload(networkId, ownerId, Policy(), actor.value))) else None)
        && Snap() == old(Snap()).(lastSyncTime := now,
                                  lastStates := if changed then States(old(Policy()), actor.value.comps.list) else old(lastStates))
    {
      out := None;
      if !connected {
        return;
      }
      if now - lastSyncTime < 1.0 / syncRate {
        return;
      }
      lastSyncTime := now;
      var list := if actor.Some? then Some(actor.value.comps.list) else None;
      var changed := HasComponentsChanged(list);
      if changed {
        out := SendComponentUpdate(actor, connected, isServer);
        CaptureStates(list);
      }
    }

    /** The loop of apply_component_update over the received component entries. */
    method ApplyComponents(a: NetActor, items: seq<Value>) returns (r: NetActor, err: Option<Error>)
      requires InSync(a.comps)
      ensures (r, err) == ApplyAll(Policy(), a, items)
    {
      r, err := a, None;
      var i := 0;
      while i < |items| && err.None?
        invariant 0 <= i <= |items|
        invariant (r, err) == ApplyAll(Policy(), a, items[..i])
        decreases |items| - i
      {
        assert items[..i + 1][..i] == items[..i];
        var step := ApplyOne(Policy(), r, items[i]);
        r, err := step.0, step.1;
        i := i + 1;
      }
      if err.Some? {
        ErrorStops(Policy(), a, items, i);
      } else {
        assert items[..i] == items;
      }
    }

    /**
     * apply_component_update: the attached actor takes the received
     * transform and component data; when nothing raised, the capture is
     * renewed from the updated components.
     */
    method ApplyComponentUpdate(actor: Option<NetActor>, comps: Value, t: Value) returns (r: Option<NetActor>, err: Option<Error>)
      requires actor.Some? ==> InSync(actor.value.comps)
      modifies this
      ensures actor.None? ==> r == None && err == None && Snap() == old(Snap())
      ensures actor.Some? ==> (r == Some(ApplyUpdate(old(Policy()), actor.value, comps, t).0)
        && err == ApplyUpdate(old(Policy()), actor.value, comps, t).1)
      ensures actor.Some? && err.None? ==> Snap() == old(Snap()).(lastStates := States(old(Policy()), r.value.comps.list))
      ensures actor.Some? && err.Some? ==> Snap() == old(Snap())
    {
      if actor.None? {
        return None, None;
      }
      var a, e := ApplyTransform(actor.value, t).0, ApplyTransform(actor.value, t).1;
      if e.None? {
        if !comps.VList? {
          e := Some(TypeError("components"));
        } else {
          a, e := ApplyComponents(a, comps.items);
        }
      }
      r, err := Some(a), e;
      if e.None? {
        CaptureStates(Some(a.comps.list));
      }
    }
  }

  // ---------------------------------------------------------------------
  // PriorityNetworkComponent

  /** NetworkPriority; its values are those the code compares against and parses. */
  datatype Priority = Instant | High | Medium | Low

  function PriorityValue(p: Priority): string
  {
    match p
    case Instant => "instant"
    case High => "high"
    case Medium => "medium"
    case Low => "low"
  }

  /** NetworkPriority(v), falling back to MEDIUM where it raises ValueError. */
  function ParsePriority(v: Value): (p: Priority)
    ensures forall q :: v == VStr(PriorityValue(q)) ==> p == q
    ensures p != Medium ==> v == VStr(PriorityValue(p))
  {
    if v == VStr("instant") then Instant
    else if v == VStr("high") then High
    else if v == VStr("low") then Low
    else Medium
  }

  /** The sync interval of each priority, in seconds. */
  function Interval(p: Priority): (r: real)
    ensures r >= 0.0
    ensures p == Instant <==> r == 0.0
  {
    match p
    case Instant => 0.0
    case High => 1.0 / 60.0
    case Medium => 1.0 / 20.0
    case Low => 1.0 / 5.0
  }

  /** A higher priority never waits longer. */
  lemma IntervalsOrdered()
    ensures Interval(Instant) < Interval(High) < Interval(Medium) < Interval(Low)
  {
  }

  class PriorityNetworkComponent {
    var priority: Priority
    var lastSyncTime: real
    var syncInterval: real
    var forceUpdate: bool

    constructor(p: Option<Priority>)
      ensures priority == p.GetOr(Medium) && syncInterval == Interval(priority)
      ensures lastSyncTime == 0.0 && !forceUpdate
    {
      priority := p.GetOr(Medium);
      lastSyncTime := 0.0;
      forceUpdate := false;
      syncInterval := Interval(p.GetOr(Medium));
    }

    /** should_sync: instant or forced syncs happen at once and clear the force; otherwise the interval must have passed. */
    method ShouldSync(now: real) returns (b: bool)
      modifies this
      ensures b <==> old(priority) == Instant || old(forceUpdate) || now - old(lastSyncTime) >= old(syncInterval)
      ensures !forceUpdate
      ensures priority == old(priority) && lastSyncTime == old(lastSyncTime) && syncInterval == old(syncInterval)
    {
      if priority == Instant || forceUpdate {
        forceUpdate := false;
        return true;
      }
      b := now - lastSyncTime >= syncInterval;
    }

    method MarkForSync()
      modifies this
      ensures forceUpdate
      ensures priority == old(priority) && lastSyncTime == old(lastSyncTime) && syncInterval == old(syncInterval)
    {
      forceUpdate := true;
    }

    method OnSyncCompleted(now: real)
      modifies this
      ensures lastSyncTime == now
      ensures priority == old(priority) && forceUpdate == old(forceUpdate) && syncInterval == old(syncInterval)
    {
      lastSyncTime := now;
    }

    function SerializeForNetwork(): map<string, Value>
      reads this
    {
      map["update_priority" := VStr(PriorityValue(priority)), "last_sync_time" := VFloat(lastSyncTime)]
    }

    /**
     * deserialize_from_network: an unknown or missing priority becomes
     * MEDIUM, a missing time 0.0. The sync interval is not recomputed.
     */
    method DeserializeFromNetwork(data: map<string, Value>)
      modifies this
      ensures priority == ParsePriority(if "update_priority" in data then data["update_priority"] else VStr("medium"))
      ensures "last_sync_time" !in data ==> lastSyncTime == 0.0
      ensures "last_sync_time" in data && IsNumber(data["last_sync_time"]) ==> lastSyncTime == AsReal(data["last_sync_time"])
      ensures "last_sync_time" in data && !IsNumber(data["last_sync_time"]) ==> lastSyncTime == old(lastSyncTime)
      ensures syncInterval == old(syncInterval) && forceUpdate == old(forceUpdate)
    {
      priority := ParsePriority(if "update_priority" in data then data["update_priority"] else VStr("medium"));
      if "last_sync_time" !in data {
        lastSyncTime := 0.0;
      } else if IsNumber(data["last_sync_time"]) {
        lastSyncTime := AsReal(data["last_sync_time"]);
      }
    }
  }

  /** The priority survives serialize_for_network then deserialize_from_network. */
  lemma PriorityRoundTrip(p: Priority)
    ensures ParsePriority(VStr(PriorityValue(p))) == p
  {
  }
}
