/**
 * The per-object half of engine/network_component.py: who has authority to
 * send an object's state, which attributes of which components are sent,
 * how a received state is applied to the local actor, and the
 * NetworkComponent's spawn, destroy and timed update.
 *
 * The network manager is seen only through what this file asks of it (its
 * mode, whether it has a server, its client's id). What is handed to
 * broadcast_message or send_message is returned as `Sent` values. The clock
 * is the `now` parameter. An exception that reaches the caller is reported
 * as "raised", with the state as it was before the call.
 */
module NetworkSync {
  import opened Wrappers
  import opened Values
  import CoreActor
  import NetSerialization

  type Vec = CoreActor.Vec

  // ---------------------------------------------------------------------
  // Ownership and authority

  /** NetworkOwnership. */
  datatype Ownership = ServerOwned | ClientOwned | LocalOnly

  /** The enum's value. */
  function OwnershipValue(o: Ownership): string
  {
    match o
    case ServerOwned => "server"
    case ClientOwned => "client"
    case LocalOnly => "local"
  }

  /** NetworkOwnership(v): ValueError for anything but one of the three values. */
  function ParseOwnership(v: Value): (r: Result<Ownership>)
    ensures r.Ok? ==> v == VStr(OwnershipValue(r.value))
    ensures r.Err? <==> forall o: Ownership :: v != VStr(OwnershipValue(o))
    ensures r.Err? ==> r.error.ValueError?
  {
    if v == VStr("server") then Ok(ServerOwned)
    else if v == VStr("client") then Ok(ClientOwned)
    else if v == VStr("local") then Ok(LocalOnly)
    else Err(ValueError("not a valid NetworkOwnership"))
  }

  lemma OwnershipRoundTrip(o: Ownership)
    ensures ParseOwnership(VStr(OwnershipValue(o))) == Ok(o)
  {
  }

  /**
   * The network manager as this file uses it: its mode, whether it has a
   * server, and the client_id of its client when it has one.
   */
  datatype Manager = Manager(mode: string, hasServer: bool, client: Option<string>)

  /** The id a client-mode manager compares owners with ("" without a client). */
  function LocalClientId(m: Manager): string
  {
    m.client.GetOr("")
  }

  /** _should_send_updates. */
  predicate ShouldSendUpdates(mgr: Option<Manager>, ownership: Ownership, ownerId: Value)
  {
    match mgr
    case None => false
    case Some(m) =>
      if m.mode == "server" then ownership == ServerOwned || ownership == LocalOnly
      else if m.mode == "client" then ownership == ClientOwned && ownerId == VStr(LocalClientId(m))
      else false
  }

  /** A server and a client never both claim authority over one object. */
  lemma ServerAndClientNeverBothSend(server: Manager, client: Manager, o: Ownership, ownerId: Value)
    requires server.mode == "server" && client.mode == "client"
    ensures !(ShouldSendUpdates(Some(server), o, ownerId) && ShouldSendUpdates(Some(client), o, ownerId))
  {
  }

  /** Two clients with different ids never both claim authority over one object. */
  lemma ClientsNeverBothSend(c1: Manager, c2: Manager, o: Ownership, ownerId: Value)
    requires c1.mode == "client" && c2.mode == "client"
    requires LocalClientId(c1) != LocalClientId(c2)
    ensures !(ShouldSendUpdates(Some(c1), o, ownerId) && ShouldSendUpdates(Some(c2), o, ownerId))
  {
  }

  /** The side an object names as its owner does send: the server for server and local objects, the owning client for client objects. */
  lemma OwnerSends(m: Manager, o: Ownership, ownerId: Value)
    requires m.mode == "server" ==> o != ClientOwned
    requires m.mode == "client" ==> o == ClientOwned && ownerId.VStr? && m.client == Some(ownerId.s)
    requires m.mode == "server" || m.mode == "client"
    ensures ShouldSendUpdates(Some(m), o, ownerId)
  {
  }

  /** Without a manager, or in any other mode, nothing is sent. */
  lemma NoManagerNoAuthority(mgr: Option<Manager>, o: Ownership, ownerId: Value)
    requires mgr.None? || (mgr.value.mode != "server" && mgr.value.mode != "client")
    ensures !ShouldSendUpdates(mgr, o, ownerId)
  {
  }

  // ---------------------------------------------------------------------
  // Messages

  /** The message types this file sends (ACTOR_SYNC, ACTOR_SPAWN, ACTOR_DESTROY). */
  datatype SyncMessage = ActorSync | ActorSpawn | ActorDestroy

  /** broadcast_message on the server (skipping `exclude`), or send_message on the client. */
  datatype Route = Broadcast(exclude: seq<string>) | ToServer

  datatype Sent = Sent(route: Route, mtype: SyncMessage, data: Value)

  /** A server-mode manager with a server broadcasts; a client-mode manager with a client sends; otherwise nothing goes out. */
  function Emit(m: Manager, mtype: SyncMessage, data: Value): (r: seq<Sent>)
    ensures |r| <= 1
    ensures |r| == 1 <==> (m.mode == "server" && m.hasServer) || (m.mode == "client" && m.client.Some?)
    ensures forall i :: 0 <= i < |r| ==> r[i].mtype == mtype && r[i].data == data
    ensures |r| == 1 ==> (r[0].route == ToServer <==> m.mode == "client")
  {
    if m.mode == "server" && m.hasServer then [Sent(Broadcast([]), mtype, data)]
    else if m.mode == "client" && m.client.Some? then [Sent(ToServer, mtype, data)]
    else []
  }

  // ---------------------------------------------------------------------
  // Serializing one component

  /** The kind of the opaque values pygame draws into. */
  const SurfaceKind := "Surface"

  /** pickle.dumps succeeds: nothing callable and nothing opaque inside. */
  predicate Picklable(v: Value)
  {
    match v
    case VCallable(_) => false
    case VOpaque(_) => false
    case VList(items) => forall i :: 0 <= i < |items| ==> Picklable(items[i])
    case VTuple(elems) => forall i :: 0 <= i < |elems| ==> Picklable(elems[i])
    case VDict(m) => forall k :: k in m ==> Picklable(m[k])
    case VObject(_, attrs) => forall k :: k in attrs ==> Picklable(attrs[k])
    case _ => true
  }

  /** What _serialize_component stores for one attribute value: pygame values as tuples, other values only when they pickle. */
  function WireForm(v: Value): (r: Option<Value>)
    ensures v.VCallable? || v.VOpaque? ==> r.None?
    ensures r.Some? && !(v.VVec2? || v.VColor? || v.VRect?) ==> r.value == v
  {
    match v
    case VVec2(x, y) => Some(VTuple([VFloat(x), VFloat(y)]))
    case VColor(r, g, b, a) => Some(VTuple([VInt(r), VInt(g), VInt(b), VInt(a)]))
    case VRect(x, y, w, h) => Some(VTuple([VInt(x), VInt(y), VInt(w), VInt(h)]))
    case _ => if Picklable(v) then Some(v) else None
  }

  /** The names skipped before the value is looked at. */
  predicate Skipped(name: string, v: Value, blacklist: set<string>)
  {
    IsPrivate(name) || name in blacklist || name == "actor" || name == "game" || v.VCallable?
  }

  /** _serialize_component over a component's attributes, with the variable blacklist of its type. */
  function ComponentData(attrs: map<string, Value>, blacklist: set<string>): (r: map<string, Value>)
    ensures forall k :: k in r ==> k in attrs && !IsPrivate(k) && k !in blacklist && k != "actor" && k != "game"
    ensures forall k :: k in r ==> !attrs[k].VCallable? && attrs[k] != VOpaque(SurfaceKind)
    ensures forall k :: k in attrs && !Skipped(k, attrs[k], blacklist) && WireForm(attrs[k]).Some? ==> k in r && r[k] == WireForm(attrs[k]).value
  {
    map k | k in attrs && !Skipped(k, attrs[k], blacklist) && WireForm(attrs[k]).Some? :: WireForm(attrs[k]).value
  }

  /** The loop of _serialize_component. */
  method SerializeComponent(attrs: map<string, Value>, blacklist: set<string>) returns (data: map<string, Value>)
    ensures data == ComponentData(attrs, blacklist)
  {
    data := map[];
    var todo := attrs.Keys;
    while todo != {}
      invariant todo <= attrs.Keys
      invariant data == map k | k in attrs.Keys - todo && !Skipped(k, attrs[k], blacklist) && WireForm(attrs[k]).Some? :: WireForm(attrs[k]).value
      decreases |todo|
    {
      var k :| k in todo;
      var v := attrs[k];
      if !Skipped(k, v, blacklist) {
        var w := WireForm(v);
        if w.Some? {
          data := data[k := w.value];
        }
      }
      todo := todo - {k};
    }
  }

  // ---------------------------------------------------------------------
  // Applying received component data

  /** What _apply_component_data does with one received value. */
  datatype Assign = Assign(v: Value) | Skip | Raise

  predicate IsSequence(v: Value)
  {
    v.VList? || v.VTuple?
  }

  function ItemsOf(v: Value): seq<Value>
    requires IsSequence(v)
  {
    if v.VList? then v.items else v.elems
  }

  /**
   * A current Vector2, Color or Rect given a list or tuple is rebuilt from
   * its first items; an item missing raises IndexError, which is not caught;
   * an item of the wrong type raises TypeError or ValueError, which is
   * caught and the attribute skipped. Anything else is set as received.
   */
  function ApplyValue(current: Value, v: Value): (r: Assign)
    ensures !(current.VVec2? || current.VColor? || current.VRect?) || !IsSequence(v) ==> r == Assign(v)
    ensures r.Raise? ==> IsSequence(v) && |ItemsOf(v)| < (if current.VVec2? then 2 else 4)
    ensures r.Assign? && IsSequence(v) && current.VVec2? ==> r.v.VVec2?
    ensures r.Assign? && IsSequence(v) && current.VColor? ==> r.v.VColor? && WellFormed(r.v)
    ensures r.Assign? && IsSequence(v) && current.VRect? ==> r.v.VRect?
  {
    if !IsSequence(v) || !(current.VVec2? || current.VColor? || current.VRect?) then Assign(v)
    else
      var xs := ItemsOf(v);
      if current.VVec2? then
        if |xs| < 2 then Raise
        else if IsNumber(xs[0]) && IsNumber(xs[1]) then Assign(VVec2(AsReal(xs[0]), AsReal(xs[1])))
        else Skip
      else if |xs| < 4 then Raise
      else if !(IsIntLike(xs[0]) && IsIntLike(xs[1]) && IsIntLike(xs[2]) && IsIntLike(xs[3])) then Skip
      else if current.VRect? then Assign(VRect(AsInt(xs[0]), AsInt(xs[1]), AsInt(xs[2]), AsInt(xs[3])))
      else if IsByte(AsInt(xs[0])) && IsByte(AsInt(xs[1])) && IsByte(AsInt(xs[2])) && IsByte(AsInt(xs[3])) then
        Assign(VColor(AsInt(xs[0]), AsInt(xs[1]), AsInt(xs[2]), AsInt(xs[3])))
      else Skip
  }

  /** An attribute whose received value raises. */
  predicate Raises(attrs: map<string, Value>, data: map<string, Value>, blacklist: set<string>, k: string)
  {
    k in data && k !in blacklist && k in attrs && ApplyValue(attrs[k], data[k]).Raise?
  }

  /** The attributes after the received values named in `keys` are applied. */
  function Written(attrs: map<string, Value>, data: map<string, Value>, blacklist: set<string>, keys: set<string>): map<string, Value>
  {
    map k | k in attrs :: if k in keys && k in data && k !in blacklist && ApplyValue(attrs[k], data[k]).Assign? then ApplyValue(attrs[k], data[k]).v else attrs[k]
  }

  /**
   * _apply_component_data: None when one of the values raises. Only
   * attributes the component has are touched and blacklisted ones never.
   */
  function ApplyData(attrs: map<string, Value>, data: map<string, Value>, blacklist: set<string>): (r: Option<map<string, Value>>)
    ensures r.None? <==> exists k :: Raises(attrs, data, blacklist, k)
    ensures r.Some? ==> r.value.Keys == attrs.Keys
    ensures r.Some? ==> forall k :: k in attrs && (k in blacklist || k !in data) ==> r.value[k] == attrs[k]
    ensures r.Some? ==> forall k :: k in attrs && k in data && k !in blacklist && ApplyValue(attrs[k], data[k]).Assign? ==> r.value[k] == ApplyValue(attrs[k], data[k]).v
    ensures r.Some? ==> forall k :: k in attrs && k in data && ApplyValue(attrs[k], data[k]).Skip? ==> r.value[k] == attrs[k]
  {
    if exists k | k in data :: Raises(attrs, data, blacklist, k) then None
    else Some(Written(attrs, data, blacklist, data.Keys))
  }

  /** The loop of _apply_component_data. */
  method ApplyComponentData(attrs: map<string, Value>, data: map<string, Value>, blacklist: set<string>) returns (r: Option<map<string, Value>>)
    ensures r == ApplyData(attrs, data, blacklist)
  {
    var acc := attrs;
    var todo := data.Keys;
    while todo != {}
      invariant todo <= data.Keys
      invariant forall k :: k in data.Keys - todo ==> !Raises(attrs, data, blacklist, k)
      invariant acc == Written(attrs, data, blacklist, data.Keys - todo)
      decreases |todo|
    {
      var k :| k in todo;
      if k !in blacklist && k in acc {
        assert acc[k] == attrs[k];
        var a := ApplyValue(acc[k], data[k]);
        if a.Raise? {
          return None;
        }
        WrittenStep(attrs, data, blacklist, data.Keys - todo, k);
        if a.Assign? {
          acc := acc[k := a.v];
        }
      } else {
        WrittenStep(attrs, data, blacklist, data.Keys - todo, k);
      }
      assert data.Keys - (todo - {k}) == (data.Keys - todo) + {k};
      todo := todo - {k};
    }
    assert data.Keys - todo == data.Keys;
    r := Some(acc);
  }

  /** Applying one more received value changes at most that attribute. */
  lemma WrittenStep(attrs: map<string, Value>, data: map<string, Value>, blacklist: set<string>, done: set<string>, k: string)
    requires k in data && k !in done
    ensures var before := Written(attrs, data, blacklist, done);
            var after := Written(attrs, data, blacklist, done + {k});
            if k in attrs && k !in blacklist && ApplyValue(attrs[k], data[k]).Assign? then after == before[k := ApplyValue(attrs[k], data[k]).v]
            else after == before
  {
  }

  /** A pygame value and the value built from its tuple are of the same kind. */
  predicate SameKind(a: Value, b: Value)
  {
    a.VVec2? == b.VVec2? && a.VColor? == b.VColor? && a.VRect? == b.VRect?
  }

  /** A sent value, applied to an attribute of the same kind, is the sender's value again. */
  lemma WireRoundTrip(v: Value, current: Value)
    requires WireForm(v).Some? && WellFormed(v) && SameKind(v, current)
    ensures ApplyValue(current, WireForm(v).value) == Assign(v)
  {
  }

  /**
   * Receiving a component's serialized data: every attribute both sides
   * have, that neither blacklists, takes the sender's value; every other
   * attribute of the receiver keeps its own.
   */
  lemma {:induction false} ComponentSyncRoundTrip(src: map<string, Value>, dst: map<string, Value>, sendBlacklist: set<string>, recvBlacklist: set<string>)
    requires forall k :: k in src && k in dst ==> SameKind(src[k], dst[k]) && WellFormed(src[k])
    ensures ApplyData(dst, ComponentData(src, sendBlacklist), recvBlacklist).Some?
    ensures forall k :: k in dst ==>
      ApplyData(dst, ComponentData(src, sendBlacklist), recvBlacklist).value[k]
      == if k in ComponentData(src, sendBlacklist) && k !in recvBlacklist then src[k] else dst[k]
  {
    var data := ComponentData(src, sendBlacklist);
    forall k | k in data && k in dst
      ensures ApplyValue(dst[k], data[k]) == Assign(src[k])
    {
      WireRoundTrip(src[k], dst[k]);
    }
    assert !exists k :: Raises(dst, data, recvBlacklist, k);
  }

  // ---------------------------------------------------------------------
  // The actor as this file sees it

  /** A component: its class name, its module and its attributes (enabled among them). */
  datatype Part = Part(ctype: string, cmodule: string, attrs: map<string, Value>)

  /**
   * An actor: the fields the sync reads and writes. active, enabled, tags
   * and the rotation take whatever a received state holds.
   */
  datatype Body = Body(id: string, name: Value, active: Value, enabled: Value, tags: Value,
                       position: Vec, rotation: Value, scale: Vec, parts: seq<Part>)

  /** s[:8]. */
  function Head8(s: string): (r: string)
    ensures |r| == if |s| < 8 then |s| else 8
    ensures r <= s
  {
    s[..if |s| < 8 then |s| else 8]
  }

  /** Actor(name): "Actor_" and the id's first eight characters when the name is falsy. */
  function NewBody(id: string, name: Value): (b: Body)
    ensures b.id == id && b.parts == []
    ensures b.active == VBool(true) && b.enabled == VBool(true) && b.tags == VList([])
    ensures Truthy(name) ==> b.name == name
    ensures !Truthy(name) ==> b.name == VStr("Actor_" + Head8(id))
  {
    Body(id, if Truthy(name) then name else VStr("Actor_" + Head8(id)),
         VBool(true), VBool(true), VList([]), CoreActor.Vec(0.0, 0.0), VFloat(0.0), CoreActor.Vec(1.0, 1.0), [])
  }

  /** The variable blacklist of one component type. */
  function VarsFor(blacklistedVariables: map<string, set<string>>, ctype: string): set<string>
  {
    if ctype in blacklistedVariables then blacklistedVariables[ctype] else {}
  }

  /** Whether one component is a candidate for the state: not a blacklisted type, not a NetworkComponent. */
  predicate Candidate(p: Part, blacklistedComponents: set<string>)
  {
    p.ctype !in blacklistedComponents && p.ctype != NetSerialization.NetworkComponentType
  }

  function ComponentEntry(p: Part, data: map<string, Value>): Value
  {
    VDict(map["type" := VStr(p.ctype), "module" := VStr(p.cmodule), "data" := VDict(data)])
  }

  /**
   * The components part of _serialize_actor_state for the first `n` parts:
   * every candidate with data to send, by class name (a later one of the
   * same name wins).
   */
  function ComponentEntries(parts: seq<Part>, blacklistedComponents: set<string>, blacklistedVariables: map<string, set<string>>): (r: map<string, Value>)
    ensures forall t :: t in r ==> t !in blacklistedComponents && t != NetSerialization.NetworkComponentType
    decreases |parts|
  {
    if |parts| == 0 then map[]
    else
      var rest := ComponentEntries(parts[..|parts| - 1], blacklistedComponents, blacklistedVariables);
      var p := parts[|parts| - 1];
      var data := ComponentData(p.attrs, VarsFor(blacklistedVariables, p.ctype));
      if Candidate(p, blacklistedComponents) && data != map[] then rest[p.ctype := ComponentEntry(p, data)]
      else rest
  }

  /** Every entry of the state comes from a candidate component of that class. */
  lemma {:induction false} ComponentEntriesFromParts(parts: seq<Part>, blacklistedComponents: set<string>, blacklistedVariables: map<string, set<string>>, t: string)
    requires t in ComponentEntries(parts, blacklistedComponents, blacklistedVariables)
    ensures exists i :: 0 <= i < |parts| && parts[i].ctype == t && Candidate(parts[i], blacklistedComponents)
    decreases |parts|
  {
    var init := parts[..|parts| - 1];
    var p := parts[|parts| - 1];
    if p.ctype == t && Candidate(p, blacklistedComponents) {
      assert parts[|parts| - 1].ctype == t;
    } else {
      ComponentEntriesFromParts(init, blacklistedComponents, blacklistedVariables, t);
      var i :| 0 <= i < |init| && init[i].ctype == t && Candidate(init[i], blacklistedComponents);
      assert parts[i] == init[i];
    }
  }

  /** A component of a candidate type with something to send is in the state. */
  lemma {:induction false} ComponentEntriesIncludes(parts: seq<Part>, blacklistedComponents: set<string>, blacklistedVariables: map<string, set<string>>, i: nat)
    requires i < |parts| && Candidate(parts[i], blacklistedComponents)
    requires ComponentData(parts[i].attrs, VarsFor(blacklistedVariables, parts[i].ctype)) != map[]
    ensures parts[i].ctype in ComponentEntries(parts, blacklistedComponents, blacklistedVariables)
    decreases |parts|
  {
    var init := parts[..|parts| - 1];
    var p := parts[|parts| - 1];
    var rest := ComponentEntries(init, blacklistedComponents, blacklistedVariables);
    var data := ComponentData(p.attrs, VarsFor(blacklistedVariables, p.ctype));
    assert ComponentEntries(parts, blacklistedComponents, blacklistedVariables)
        == if Candidate(p, blacklistedComponents) && data != map[] then rest[p.ctype := ComponentEntry(p, data)] else rest;
    if i < |parts| - 1 {
      assert init[i] == parts[i];
      ComponentEntriesIncludes(init, blacklistedComponents, blacklistedVariables, i);
    }
  }

  /** tags.copy(): a list or a dict copies; anything else has no copy() and raises. */
  function TagsCopy(tags: Value): (r: Option<Value>)
    ensures r.Some? <==> tags.VList? || tags.VDict?
    ensures r.Some? ==> r.value == tags
  {
    if tags.VList? || tags.VDict? then Some(tags) else None
  }

  function VecValue(v: Vec): Value
  {
    VTuple([VFloat(v.x), VFloat(v.y)])
  }

  /** _serialize_actor_state for an attached actor. */
  function ActorState(b: Body, networkId: string, syncTransform: bool, blacklistedComponents: set<string>, blacklistedVariables: map<string, set<string>>): (r: Option<Value>)
    ensures r.Some? <==> b.tags.VList? || b.tags.VDict?
    ensures r.Some? ==> r.value.VDict? && "components" in r.value.entries && r.value.entries["components"].VDict?
    ensures r.Some? ==> ("transform" in r.value.entries <==> syncTransform)
  {
    match TagsCopy(b.tags)
    case None => None
    case Some(tags) =>
      var base := map["network_id" := VStr(networkId), "actor_id" := VStr(b.id), "actor_name" := b.name,
                       "active" := b.active, "enabled" := b.enabled, "tags" := tags,
                       "components" := VDict(ComponentEntries(b.parts, blacklistedComponents, blacklistedVariables))];
      if syncTransform then
        Some(VDict(base["transform" := VDict(map["position" := VecValue(b.position), "rotation" := b.rotation, "scale" := VecValue(b.scale)])]))
      else Some(VDict(base))
  }

  /** The state never names a blacklisted component type or a NetworkComponent. */
  lemma ActorStateOmitsBlacklisted(b: Body, networkId: string, syncTransform: bool, blacklistedComponents: set<string>, blacklistedVariables: map<string, set<string>>, t: string)
    requires ActorState(b, networkId, syncTransform, blacklistedComponents, blacklistedVariables).Some?
    requires t in blacklistedComponents || t == NetSerialization.NetworkComponentType
    ensures t !in ActorState(b, networkId, syncTransform, blacklistedComponents, blacklistedVariables).value.entries["components"].entries
  {
  }

  // ---------------------------------------------------------------------
  // Applying a received state

  /** pygame.Vector2(v[0], v[1]): None when it raises. */
  function VecOf(v: Value): (r: Option<Vec>)
    ensures v.VVec2? ==> r == Some(CoreActor.Vec(v.x, v.y))
  {
    if v.VVec2? then Some(CoreActor.Vec(v.x, v.y))
    else if IsSequence(v) && |ItemsOf(v)| >= 2 && IsNumber(ItemsOf(v)[0]) && IsNumber(ItemsOf(v)[1]) then
      Some(CoreActor.Vec(AsReal(ItemsOf(v)[0]), AsReal(ItemsOf(v)[1])))
    else None
  }

  /** d.get(k, default). */
  function Get(d: map<string, Value>, k: string, default: Value): Value
  {
    if k in d then d[k] else default
  }

  /** The transform part of _deserialize_actor_state. */
  function ApplyTransform(b: Body, t: Value): (r: Option<Body>)
    ensures r.Some? ==> r.value == b.(position := r.value.position, rotation := r.value.rotation, scale := r.value.scale)
  {
    if !t.VDict? then None
    else
      var pos := VecOf(Get(t.entries, "position", VTuple([VInt(0), VInt(0)])));
      var scale := VecOf(Get(t.entries, "scale", VTuple([VInt(1), VInt(1)])));
      if pos.None? || scale.None? then None
      else Some(b.(position := pos.value, rotation := Get(t.entries, "rotation", VInt(0)), scale := scale.value))
  }

  /** The index of the first part of class `name`. */
  function FirstOfType(parts: seq<Part>, name: string): (r: Option<nat>)
    ensures r.Some? ==> r.value < |parts| && parts[r.value].ctype == name
    ensures r.Some? ==> forall j :: 0 <= j < r.value ==> parts[j].ctype != name
    ensures r.None? ==> forall j :: 0 <= j < |parts| ==> parts[j].ctype != name
    decreases |parts|
  {
    if |parts| == 0 then None
    else if parts[0].ctype == name then Some(0)
    else
      match FirstOfType(parts[1..], name)
      case None => None
      case Some(i) => Some(i + 1)
  }

  /** The search loop of _update_component_from_data. */
  method FindComponent(parts: seq<Part>, name: string) returns (r: Option<nat>)
    ensures r == FirstOfType(parts, name)
  {
    var i := 0;
    while i < |parts|
      invariant 0 <= i <= |parts|
      invariant forall j :: 0 <= j < i ==> parts[j].ctype != name
    {
      if parts[i].ctype == name {
        FirstIsUnique(parts, name, i);
        return Some(i);
      }
      i := i + 1;
    }
    r := None;
    FirstIsUnique(parts, name, |parts|);
  }

  /** The first match is determined by where the class name first occurs. */
  lemma FirstIsUnique(parts: seq<Part>, name: string, i: nat)
    requires i <= |parts| && forall j :: 0 <= j < i ==> parts[j].ctype != name
    requires i < |parts| ==> parts[i].ctype == name
    ensures FirstOfType(parts, name) == if i < |parts| then Some(i) else None
  {
    var r := FirstOfType(parts, name);
    if r.Some? {
      assert !(r.value < i);
    }
  }

  /** Two component lists with the same class names, position by position. */
  predicate SameTypes(p: seq<Part>, q: seq<Part>)
  {
    |p| == |q| && forall i :: 0 <= i < |p| ==> p[i].ctype == q[i].ctype
  }

  lemma FirstOfTypeSameTypes(p: seq<Part>, q: seq<Part>, name: string)
    requires SameTypes(p, q)
    ensures FirstOfType(p, name) == FirstOfType(q, name)
  {
    var r := FirstOfType(p, name);
    if r.Some? {
      FirstIsUnique(q, name, r.value);
    } else {
      FirstIsUnique(q, name, |q|);
    }
  }

  /** The effect of one entry of the received components on the component list. */
  datatype Change = Untouched | Rewrite(index: nat, attrs: map<string, Value>) | Fails

  /** _update_component_from_data for one class name. */
  function PartChange(parts: seq<Part>, name: string, info: Value, blacklistedVariables: map<string, set<string>>): (r: Change)
    ensures r.Rewrite? ==> FirstOfType(parts, name) == Some(r.index) && r.index < |parts|
    ensures r.Rewrite? ==> r.attrs.Keys == parts[r.index].attrs.Keys
    ensures r.Rewrite? ==> forall k :: k in VarsFor(blacklistedVariables, name) && k in r.attrs ==> r.attrs[k] == parts[r.index].attrs[k]
    ensures FirstOfType(parts, name).None? ==> r == Untouched
  {
    match FirstOfType(parts, name)
    case None => Untouched
    case Some(i) =>
      if !info.VDict? then Fails
      else
        var data := Get(info.entries, "data", VDict(map[]));
        if !data.VDict? then Fails
        else
          match ApplyData(parts[i].attrs, data.entries, VarsFor(blacklistedVariables, name))
          case None => Fails
          case Some(a) => Rewrite(i, a)
  }

  /** The component list after the entries named in `names` are applied. */
  function Overlay(parts: seq<Part>, comps: map<string, Value>, blacklistedVariables: map<string, set<string>>, names: set<string>): (r: seq<Part>)
    ensures SameTypes(parts, r)
  {
    seq(|parts|, i requires 0 <= i < |parts| =>
      var n := parts[i].ctype;
      if n in names && n in comps then
        match PartChange(parts, n, comps[n], blacklistedVariables)
        case Rewrite(j, a) => if j == i then parts[i].(attrs := a) else parts[i]
        case _ => parts[i]
      else parts[i])
  }

  /**
   * The components loop of _deserialize_actor_state: None when one entry
   * raises. Each entry rewrites at most the first component of its class;
   * every other component is left as it was.
   */
  function UpdateComponents(parts: seq<Part>, comps: map<string, Value>, blacklistedVariables: map<string, set<string>>): (r: Option<seq<Part>>)
    ensures r.None? <==> exists n :: n in comps && PartChange(parts, n, comps[n], blacklistedVariables).Fails?
    ensures r.Some? ==> SameTypes(parts, r.value)
    ensures r.Some? ==> forall i :: 0 <= i < |parts| && (parts[i].ctype !in comps || FirstOfType(parts, parts[i].ctype) != Some(i)) ==> r.value[i] == parts[i]
  {
    if exists n :: n in comps && PartChange(parts, n, comps[n], blacklistedVariables).Fails? then None
    else Some(Overlay(parts, comps, blacklistedVariables, comps.Keys))
  }

  /** The loop over the received components. */
  method ApplyComponents(parts: seq<Part>, comps: map<string, Value>, blacklistedVariables: map<string, set<string>>) returns (r: Option<seq<Part>>)
    ensures r == UpdateComponents(parts, comps, blacklistedVariables)
  {
    var acc := parts;
    var todo := comps.Keys;
    while todo != {}
      invariant todo <= comps.Keys
      invariant forall n :: n in comps.Keys - todo ==> !PartChange(parts, n, comps[n], blacklistedVariables).Fails?
      invariant acc == Overlay(parts, comps, blacklistedVariables, comps.Keys - todo)
      decreases |todo|
    {
      var n :| n in todo;
      var next := ApplyEntry(parts, comps, blacklistedVariables, comps.Keys - todo, acc, n);
      if next.None? {
        return None;
      }
      acc := next.value;
      assert comps.Keys - (todo - {n}) == (comps.Keys - todo) + {n};
      todo := todo - {n};
    }
    assert comps.Keys - todo == comps.Keys;
    r := Some(acc);
  }

  /** _update_component_from_data for one received entry, on the list as it stands after the entries in `done`. */
  method ApplyEntry(parts: seq<Part>, comps: map<string, Value>, blacklistedVariables: map<string, set<string>>, done: set<string>, acc: seq<Part>, n: string)
    returns (r: Option<seq<Part>>)
    requires n in comps && n !in done && acc == Overlay(parts, comps, blacklistedVariables, done)
    ensures r.None? <==> PartChange(parts, n, comps[n], blacklistedVariables).Fails?
    ensures r.Some? ==> r.value == Overlay(parts, comps, blacklistedVariables, done + {n})
  {
    var idx := FindComponent(acc, n);
    FirstOfTypeSameTypes(acc, parts, n);
    OverlayStep(parts, comps, blacklistedVariables, done, n);
    if idx.None? {
      return Some(acc);
    }
    var i := idx.value;
    var info := comps[n];
    if !info.VDict? {
      return None;
    }
    var data := Get(info.entries, "data", VDict(map[]));
    if !data.VDict? {
      return None;
    }
    assert acc[i] == parts[i];
    var a := ApplyComponentData(acc[i].attrs, data.entries, VarsFor(blacklistedVariables, n));
    if a.None? {
      return None;
    }
    r := Some(acc[i := acc[i].(attrs := a.value)]);
  }

  /** Adding one name to the overlay changes at most the first part of that class. */
  lemma OverlayStep(parts: seq<Part>, comps: map<string, Value>, blacklistedVariables: map<string, set<string>>, names: set<string>, n: string)
    requires n in comps && n !in names
    ensures var before := Overlay(parts, comps, blacklistedVariables, names);
            var after := Overlay(parts, comps, blacklistedVariables, names + {n});
            match PartChange(parts, n, comps[n], blacklistedVariables)
            case Rewrite(i, a) => after == before[i := before[i].(attrs := a)]
            case _ => after == before
  {
  }

  /** _deserialize_actor_state for an attached actor: None when it raises. */
  function ApplyState(b: Body, state: Value, syncTransform: bool, blacklistedVariables: map<string, set<string>>): (r: Option<Body>)
    ensures r.Some? ==> r.value.id == b.id && r.value.name == b.name && SameTypes(b.parts, r.value.parts)
    ensures r.Some? ==> !syncTransform ==> r.value.position == b.position && r.value.rotation == b.rotation && r.value.scale == b.scale
    ensures r.Some? ==> state.VDict? && r.value.active == Get(state.entries, "active", VBool(true))
    ensures r.Some? ==> state.VDict? && r.value.enabled == Get(state.entries, "enabled", VBool(true))
    ensures r.Some? ==> state.VDict? && r.value.tags == Get(state.entries, "tags", VList([]))
  {
    if !state.VDict? then None
    else
      var st := state.entries;
      var b1 := b.(active := Get(st, "active", VBool(true)), enabled := Get(st, "enabled", VBool(true)), tags := Get(st, "tags", VList([])));
      var b2 := if syncTransform && "transform" in st then ApplyTransform(b1, st["transform"]) else Some(b1);
      var comps := Get(st, "components", VDict(map[]));
      if b2.None? || !comps.VDict? then None
      else
        match UpdateComponents(b2.value.parts, comps.entries, blacklistedVariables)
        case None => None
        case Some(ps) => Some(b2.value.(parts := ps))
  }

  /**
   * A freshly made actor (no components yet, as the client-side spawn
   * handler makes one) takes the sender's active, enabled, tags and
   * transform from the state the sender serialized.
   */
  lemma SpawnedActorMirrorsSender(src: Body, dst: Body, networkId: string, blacklistedComponents: set<string>, sendVars: map<string, set<string>>, recvVars: map<string, set<string>>)
    requires ActorState(src, networkId, true, blacklistedComponents, sendVars).Some?
    requires dst.parts == []
    ensures var r := ApplyState(dst, ActorState(src, networkId, true, blacklistedComponents, sendVars).value, true, recvVars);
            r.Some? && r.value == dst.(active := src.active, enabled := src.enabled, tags := src.tags,
                                       position := src.position, rotation := src.rotation, scale := src.scale)
  {
    var state := ActorState(src, networkId, true, blacklistedComponents, sendVars).value;
    var st := state.entries;
    var t := VDict(map["position" := VecValue(src.position), "rotation" := src.rotation, "scale" := VecValue(src.scale)]);
    assert st["transform"] == t;
    var b1 := dst.(active := src.active, enabled := src.enabled, tags := src.tags);
    assert b1 == dst.(active := Get(st, "active", VBool(true)), enabled := Get(st, "enabled", VBool(true)), tags := Get(st, "tags", VList([])));
    var b2 := b1.(position := src.position, rotation := src.rotation, scale := src.scale);
    assert ApplyTransform(b1, t) == Some(b2);
    var comps := st["components"].entries;
    assert UpdateComponents([], comps, recvVars) == Some([]) by {
      assert !exists n :: n in comps && PartChange([], n, comps[n], recvVars).Fails?;
      assert Overlay([], comps, recvVars, comps.Keys) == [];
    }
    assert ApplyState(dst, state, true, recvVars) == Some(b2);
  }

  // ---------------------------------------------------------------------
  // The NetworkComponent's state

  datatype SyncState = SyncState(
    networkId: string, ownerId: Value, ownership: Ownership,
    syncTransform: bool, syncRate: real, lastSyncTime: real, forceSync: bool,
    blacklistedComponents: set<string>, blacklistedVariables: map<string, set<string>>,
    lastSyncedState: Value, dirtyComponents: set<string>,
    isSpawned: bool, pendingDestroy: bool, actor: Option<Body>)

  /** A new NetworkComponent; `networkId` is the uuid4 it draws. */
  function NewSync(networkId: string, ownerId: Value, ownership: Ownership, syncTransform: bool, syncRate: real): (s: SyncState)
    ensures s.networkId == networkId && s.ownerId == ownerId && s.ownership == ownership
    ensures s.lastSyncTime == 0.0 && !s.forceSync && !s.isSpawned && !s.pendingDestroy && s.actor.None?
    ensures s.blacklistedComponents == {} && s.blacklistedVariables == map[] && s.dirtyComponents == {}
    ensures s.lastSyncedState == VDict(map[])
  {
    SyncState(networkId, ownerId, ownership, syncTransform, syncRate, 0.0, false, {}, map[], VDict(map[]), {}, false, false, None)
  }

  function ShouldSend(s: SyncState, mgr: Option<Manager>): bool
  {
    ShouldSendUpdates(mgr, s.ownership, s.ownerId)
  }

  /** _serialize_actor_state: {} without an actor; None when it raises. */
  function StateOf(s: SyncState): (r: Option<Value>)
    ensures s.actor.None? ==> r == Some(VDict(map[]))
  {
    match s.actor
    case None => Some(VDict(map[]))
    case Some(b) => ActorState(b, s.networkId, s.syncTransform, s.blacklistedComponents, s.blacklistedVariables)
  }

  /** _deserialize_actor_state: nothing without an actor; None when it raises. */
  function Deserialized(s: SyncState, state: Value): (r: Option<SyncState>)
    ensures s.actor.None? ==> r == Some(s)
    ensures r.Some? ==> r.value == s.(actor := r.value.actor) && r.value.actor.Some? == s.actor.Some?
  {
    match s.actor
    case None => Some(s)
    case Some(b) =>
      match ApplyState(b, state, s.syncTransform, s.blacklistedVariables)
      case None => None
      case Some(b2) => Some(s.(actor := Some(b2)))
  }

  function BlacklistComponentSpec(s: SyncState, t: string): SyncState
  {
    s.(blacklistedComponents := s.blacklistedComponents + {t})
  }

  function WhitelistComponentSpec(s: SyncState, t: string): SyncState
  {
    s.(blacklistedComponents := s.blacklistedComponents - {t})
  }

  function BlacklistVariableSpec(s: SyncState, t: string, v: string): SyncState
  {
    s.(blacklistedVariables := s.blacklistedVariables[t := VarsFor(s.blacklistedVariables, t) + {v}])
  }

  /** whitelist_variable changes nothing for a type without a variable blacklist. */
  function WhitelistVariableSpec(s: SyncState, t: string, v: string): SyncState
  {
    if t in s.blacklistedVariables then s.(blacklistedVariables := s.blacklistedVariables[t := s.blacklistedVariables[t] - {v}])
    else s
  }

  /** After blacklist_variable, that variable of that type is never serialized. */
  lemma BlacklistedVariableNeverSent(s: SyncState, t: string, v: string, attrs: map<string, Value>)
    ensures v !in ComponentData(attrs, VarsFor(BlacklistVariableSpec(s, t, v).blacklistedVariables, t))
  {
  }

  /** Whitelisting a variable undoes blacklisting it, leaving the type's other blacklisted variables. */
  lemma WhitelistUndoesBlacklistVariable(s: SyncState, t: string, v: string)
    ensures VarsFor(WhitelistVariableSpec(BlacklistVariableSpec(s, t, v), t, v).blacklistedVariables, t) == VarsFor(s.blacklistedVariables, t) - {v}
    ensures forall u :: u != t ==> VarsFor(WhitelistVariableSpec(BlacklistVariableSpec(s, t, v), t, v).blacklistedVariables, u) == VarsFor(s.blacklistedVariables, u)
  {
  }

  /** After blacklist_component the type leaves the state; whitelist_component lets it back in. */
  lemma BlacklistComponentHides(s: SyncState, t: string, b: Body)
    requires ActorState(b, s.networkId, s.syncTransform, s.blacklistedComponents, s.blacklistedVariables).Some?
    ensures var s2 := BlacklistComponentSpec(s, t);
            t !in ActorState(b, s2.networkId, s2.syncTransform, s2.blacklistedComponents, s2.blacklistedVariables).value.entries["components"].entries
    ensures WhitelistComponentSpec(BlacklistComponentSpec(s, t), t).blacklistedComponents == s.blacklistedComponents - {t}
  {
  }

  // ---------------------------------------------------------------------
  // Spawn, destroy and update

  /** One step of the component: its new state and what it sent. */
  datatype Step = Step(state: SyncState, sent: seq<Sent>)

  /** _spawn_on_network; None when serializing the state raises. */
  function Spawn(s: SyncState, mgr: Option<Manager>): (r: Option<Step>)
    ensures mgr.None? || s.isSpawned ==> r == Some(Step(s, []))
    ensures r.Some? && mgr.Some? ==> r.value.state == s.(isSpawned := true)
    ensures r.Some? ==> forall i :: 0 <= i < |r.value.sent| ==> r.value.sent[i].mtype == ActorSpawn
  {
    if mgr.None? || s.isSpawned then Some(Step(s, []))
    else
      match StateOf(s)
      case None => None
      case Some(st) =>
        var data := VDict(map["network_id" := VStr(s.networkId), "owner_id" := s.ownerId,
                              "ownership" := VStr(OwnershipValue(s.ownership)), "actor_state" := st]);
        Some(Step(s.(isSpawned := true), Emit(mgr.value, ActorSpawn, data)))
  }

  /** _destroy_on_network. */
  function Destroy(s: SyncState, mgr: Option<Manager>): (r: Step)
    ensures mgr.None? || !s.isSpawned ==> r == Step(s, [])
    ensures mgr.Some? ==> r.state == s.(isSpawned := false)
    ensures forall i :: 0 <= i < |r.sent| ==> r.sent[i] .mtype == ActorDestroy && r.sent[i].data == VDict(map["network_id" := VStr(s.networkId)])
  {
    if mgr.None? || !s.isSpawned then Step(s, [])
    else Step(s.(isSpawned := false), Emit(mgr.value, ActorDestroy, VDict(map["network_id" := VStr(s.networkId)])))
  }

  /** Spawning twice sends once. */
  lemma SpawnIsIdempotent(s: SyncState, mgr: Option<Manager>)
    requires Spawn(s, mgr).Some?
    ensures Spawn(Spawn(s, mgr).value.state, mgr) == Some(Step(Spawn(s, mgr).value.state, []))
  {
  }

  /** A destroy after a spawn clears is_spawned, and is sent exactly when the spawn was. */
  lemma SpawnThenDestroy(s: SyncState, m: Manager)
    requires !s.isSpawned && Spawn(s, Some(m)).Some?
    ensures var after := Destroy(Spawn(s, Some(m)).value.state, Some(m));
            after.state == s && |after.sent| == |Spawn(s, Some(m)).value.sent|
  {
  }

  /** The component's part of on_added: its new state, what it sent, and whether spawning raised. */
  datatype Hooked = Hooked(state: SyncState, sent: seq<Sent>, raised: bool)

  /** on_added on the component: it takes the actor, then spawns when it has authority. */
  function AddedStep(s: SyncState, body: Body, mgr: Option<Manager>): (r: Hooked)
    ensures r.state == s.(actor := Some(body), isSpawned := r.state.isSpawned)
    ensures r.raised ==> r.state == s.(actor := Some(body)) && r.sent == []
    ensures !ShouldSend(s, mgr) ==> r == Hooked(s.(actor := Some(body)), [], false)
  {
    var s1 := s.(actor := Some(body));
    if ShouldSend(s1, mgr) then
      match Spawn(s1, mgr)
      case None => Hooked(s1, [], true)
      case Some(st) => Hooked(st.state, st.sent, false)
    else Hooked(s1, [], false)
  }

  /** on_removed on the component: destroy on the network when it has authority, then drop the actor. */
  function RemovedStep(s: SyncState, mgr: Option<Manager>): (r: Step)
    ensures r.state.actor.None?
    ensures ShouldSend(s, mgr) ==> r == Step(Destroy(s, mgr).state.(actor := None), Destroy(s, mgr).sent)
    ensures !ShouldSend(s, mgr) ==> r == Step(s.(actor := None), [])
  {
    var st := if ShouldSend(s, mgr) then Destroy(s, mgr) else Step(s, []);
    Step(st.state.(actor := None), st.sent)
  }

  /** Whether update() finds a sync due; None when 1.0 / sync_rate raises. */
  function Due(s: SyncState, now: real): (r: Option<bool>)
    ensures r.None? <==> !s.forceSync && s.syncRate == 0.0
    ensures s.forceSync || |s.dirtyComponents| > 0 ==> r.GetOr(true)
  {
    if s.forceSync then Some(true)
    else if s.syncRate == 0.0 then None
    else Some(now - s.lastSyncTime >= 1.0 / s.syncRate || |s.dirtyComponents| > 0)
  }

  function SyncData(s: SyncState, state: Value, now: real): Value
  {
    VDict(map["network_id" := VStr(s.networkId), "actor_state" := state, "timestamp" := VFloat(now)])
  }

  /** update(); None when it raises. */
  function UpdateStep(s: SyncState, now: real, mgr: Option<Manager>): (r: Option<Step>)
  {
    if !ShouldSend(s, mgr) then Some(Step(s, []))
    else
      match Due(s, now)
      case None => None
      case Some(due) =>
        if !due then Some(Step(s, []))
        else
          SyncIfChanged(s, now, mgr.value)
  }

  /** The part of update() once a sync is due: send when forced or changed. */
  function SyncIfChanged(s: SyncState, now: real, m: Manager): (r: Option<Step>)
  {
    match StateOf(s)
    case None => None
    case Some(cur) =>
      if s.forceSync || cur != s.lastSyncedState then
        Some(Step(s.(lastSyncedState := cur, lastSyncTime := now, forceSync := false, dirtyComponents := {}),
                  Emit(m, ActorSync, SyncData(s, cur, now))))
      else Some(Step(s, []))
  }

  /** Without authority, update changes nothing and sends nothing. */
  lemma UpdateNeedsAuthority(s: SyncState, now: real, mgr: Option<Manager>)
    requires !ShouldSend(s, mgr)
    ensures UpdateStep(s, now, mgr) == Some(Step(s, []))
  {
  }

  /**
   * update sends only when a sync is due and the state was forced or
   * changed; after it does, the snapshot is the state sent, force_sync is
   * off and no component is dirty.
   */
  lemma UpdateSendsOnlyWhenDueAndChanged(s: SyncState, now: real, mgr: Option<Manager>)
    requires UpdateStep(s, now, mgr).Some?
    ensures var r := UpdateStep(s, now, mgr).value;
            r.state != s || |r.sent| > 0 ==>
              ShouldSend(s, mgr) && Due(s, now) == Some(true) && StateOf(s).Some? &&
              (s.forceSync || StateOf(s).value != s.lastSyncedState) &&
              r.state == s.(lastSyncedState := StateOf(s).value, lastSyncTime := now, forceSync := false, dirtyComponents := {}) &&
              r.sent == Emit(mgr.value, ActorSync, SyncData(s, StateOf(s).value, now))
  {
  }

  /** A forced update with authority and a route sends the current state. */
  lemma ForcedUpdateSends(s: SyncState, now: real, m: Manager)
    requires s.forceSync && ShouldSend(s, Some(m)) && StateOf(s).Some?
    requires (m.mode == "server" && m.hasServer) || (m.mode == "client" && m.client.Some?)
    ensures UpdateStep(s, now, Some(m)).Some?
    ensures UpdateStep(s, now, Some(m)).value.sent == Emit(m, ActorSync, SyncData(s, StateOf(s).value, now))
    ensures |UpdateStep(s, now, Some(m)).value.sent| == 1
  {
  }

  /** A second update at the same moment, with nothing changed in between, sends nothing and changes nothing. */
  lemma UpdateSettles(s: SyncState, now: real, mgr: Option<Manager>)
    requires s.syncRate != 0.0 && UpdateStep(s, now, mgr).Some?
    ensures var s2 := UpdateStep(s, now, mgr).value.state;
            UpdateStep(s2, now, mgr) == Some(Step(s2, []))
  {
    var r := UpdateStep(s, now, mgr).value;
    var s2 := r.state;
    if ShouldSend(s, mgr) && s2 != s {
      assert StateOf(s2) == StateOf(s);
    }
  }

  // ---------------------------------------------------------------------
  // The component

  class NetworkComponent {
    var networkId: string
    var ownerId: Value
    var ownership: Ownership
    var syncTransform: bool
    var syncRate: real
    var lastSyncTime: real
    var forceSync: bool
    var blacklistedComponents: set<string>
    var blacklistedVariables: map<string, set<string>>
    var lastSyncedState: Value
    var dirtyComponents: set<string>
    var isSpawned: bool
    var pendingDestroy: bool
    /** Component.actor. */
    var actor: Option<Body>

    function Snap(): SyncState
      reads this
    {
      SyncState(networkId, ownerId, ownership, syncTransform, syncRate, lastSyncTime, forceSync,
                blacklistedComponents, blacklistedVariables, lastSyncedState, dirtyComponents,
                isSpawned, pendingDestroy, actor)
    }

    /** `id` is the uuid4 drawn for network_id. */
    constructor(id: string, owner: Value, own: Ownership, transform: bool, rate: real)
      ensures Snap() == NewSync(id, owner, own, transform, rate)
    {
      networkId := id;
      ownerId := owner;
      ownership := own;
      syncTransform := transform;
      syncRate := rate;
      lastSyncTime := 0.0;
      forceSync := false;
      blacklistedComponents := {};
      blacklistedVariables := map[];
      lastSyncedState := VDict(map[]);
      dirtyComponents := {};
      isSpawned := false;
      pendingDestroy := false;
      actor := None;
    }

    method BlacklistComponent(t: string)
      modifies this
      ensures Snap() == BlacklistComponentSpec(old(Snap()), t)
    {
      blacklistedComponents := blacklistedComponents + {t};
    }

    method BlacklistVariable(t: string, v: string)
      modifies this
      ensures Snap() == BlacklistVariableSpec(old(Snap()), t, v)
    {
      if t !in blacklistedVariables {
        blacklistedVariables := blacklistedVariables[t := {}];
      }
      blacklistedVariables := blacklistedVariables[t := blacklistedVariables[t] + {v}];
    }

    method WhitelistComponent(t: string)
      modifies this
      ensures Snap() == WhitelistComponentSpec(old(Snap()), t)
    {
      blacklistedComponents := blacklistedComponents - {t};
    }

    method WhitelistVariable(t: string, v: string)
      modifies this
      ensures Snap() == WhitelistVariableSpec(old(Snap()), t, v)
    {
      if t in blacklistedVariables {
        blacklistedVariables := blacklistedVariables[t := blacklistedVariables[t] - {v}];
      }
    }

    method ForceSyncNextUpdate()
      modifies this
      ensures Snap() == old(Snap()).(forceSync := true)
    {
      forceSync := true;
    }

    method MarkComponentDirty(t: string)
      modifies this
      ensures Snap() == old(Snap()).(dirtyComponents := old(dirtyComponents) + {t})
    {
      dirtyComponents := dirtyComponents + {t};
    }

    /** The component loop of _serialize_actor_state. */
    method SerializeComponents(parts: seq<Part>) returns (m: map<string, Value>)
      ensures m == ComponentEntries(parts, blacklistedComponents, blacklistedVariables)
    {
      m := map[];
      for i := 0 to |parts|
        invariant m == ComponentEntries(parts[..i], blacklistedComponents, blacklistedVariables)
      {
        assert parts[..i + 1][..i] == parts[..i];
        var p := parts[i];
        if Candidate(p, blacklistedComponents) {
          var data := SerializeComponent(p.attrs, VarsFor(blacklistedVariables, p.ctype));
          if data != map[] {
            m := m[p.ctype := ComponentEntry(p, data)];
          }
        }
      }
      assert parts[..|parts|] == parts;
    }

    /** _serialize_actor_state; None when tags.copy() raises. */
    method SerializeActorState() returns (r: Option<Value>)
      ensures r == StateOf(Snap())
    {
      if actor.None? {
        return Some(VDict(map[]));
      }
      var b := actor.value;
      var tags := TagsCopy(b.tags);
      if tags.None? {
        return None;
      }
      var comps := SerializeComponents(b.parts);
      var state := map["network_id" := VStr(networkId), "actor_id" := VStr(b.id), "actor_name" := b.name,
                        "active" := b.active, "enabled" := b.enabled, "tags" := tags.value,
                        "components" := VDict(comps)];
      if syncTransform {
        state := state["transform" := VDict(map["position" := VecValue(b.position), "rotation" := b.rotation, "scale" := VecValue(b.scale)])];
      }
      r := Some(VDict(state));
    }

    /** _deserialize_actor_state; on `raised` nothing is applied. */
    method DeserializeActorState(state: Value) returns (raised: bool)
      modifies this
      ensures raised <==> Deserialized(old(Snap()), state).None?
      ensures Snap() == if raised then old(Snap()) else Deserialized(old(Snap()), state).value
    {
      if actor.None? {
        return false;
      }
      var b := actor.value;
      if !state.VDict? {
        return true;
      }
      var st := state.entries;
      var b1 := b.(active := Get(st, "active", VBool(true)), enabled := Get(st, "enabled", VBool(true)), tags := Get(st, "tags", VList([])));
      if syncTransform && "transform" in st {
        var t := ApplyTransform(b1, st["transform"]);
        if t.None? {
          return true;
        }
        b1 := t.value;
      }
      var comps := Get(st, "components", VDict(map[]));
      if !comps.VDict? {
        return true;
      }
      var ps := ApplyComponents(b1.parts, comps.entries, blacklistedVariables);
      if ps.None? {
        return true;
      }
      actor := Some(b1.(parts := ps.value));
      raised := false;
    }

    method SpawnOnNetwork(mgr: Option<Manager>) returns (sent: seq<Sent>, raised: bool)
      modifies this
      ensures raised <==> Spawn(old(Snap()), mgr).None?
      ensures !raised ==> Snap() == Spawn(old(Snap()), mgr).value.state && sent == Spawn(old(Snap()), mgr).value.sent
      ensures raised ==> Snap() == old(Snap()) && sent == []
    {
      if mgr.None? || isSpawned {
        return [], false;
      }
      var st := SerializeActorState();
      if st.None? {
        return [], true;
      }
      var data := VDict(map["network_id" := VStr(networkId), "owner_id" := ownerId,
                            "ownership" := VStr(OwnershipValue(ownership)), "actor_state" := st.value]);
      sent := Emit(mgr.value, ActorSpawn, data);
      isSpawned := true;
      raised := false;
    }

    method DestroyOnNetwork(mgr: Option<Manager>) returns (sent: seq<Sent>)
      modifies this
      ensures Snap() == Destroy(old(Snap()), mgr).state && sent == Destroy(old(Snap()), mgr).sent
    {
      if mgr.None? || !isSpawned {
        return [];
      }
      sent := Emit(mgr.value, ActorDestroy, VDict(map["network_id" := VStr(networkId)]));
      isSpawned := false;
    }

    /** The component's part of on_added. */
    method Hook(body: Body, mgr: Option<Manager>) returns (sent: seq<Sent>, raised: bool)
      modifies this
      ensures Hooked(Snap(), sent, raised) == AddedStep(old(Snap()), body, mgr)
    {
      actor := Some(body);
      sent := [];
      raised := false;
      if ShouldSendUpdates(mgr, ownership, ownerId) {
        sent, raised := SpawnOnNetwork(mgr);
      }
    }

    /** The component's part of on_removed. */
    method Unhook(mgr: Option<Manager>) returns (sent: seq<Sent>)
      modifies this
      ensures Step(Snap(), sent) == RemovedStep(old(Snap()), mgr)
    {
      sent := [];
      if ShouldSendUpdates(mgr, ownership, ownerId) {
        sent := DestroyOnNetwork(mgr);
      }
      actor := None;
    }

    /** update(dt); `now` is time.time(). */
    method Update(now: real, mgr: Option<Manager>) returns (sent: seq<Sent>, raised: bool)
      modifies this
      ensures raised <==> UpdateStep(old(Snap()), now, mgr).None?
      ensures !raised ==> Snap() == UpdateStep(old(Snap()), now, mgr).value.state && sent == UpdateStep(old(Snap()), now, mgr).value.sent
      ensures raised ==> Snap() == old(Snap())
    {
      if !ShouldSendUpdates(mgr, ownership, ownerId) {
        return [], false;
      }
      if !forceSync && syncRate == 0.0 {
        return [], true;
      }
      var due := forceSync || now - lastSyncTime >= 1.0 / syncRate || |dirtyComponents| > 0;
      if !due {
        return [], false;
      }
      sent, raised := SyncIfChangedNow(now, mgr.value);
    }

    /** The sending half of update(). */
    method SyncIfChangedNow(now: real, m: Manager) returns (sent: seq<Sent>, raised: bool)
      modifies this
      ensures raised <==> SyncIfChanged(old(Snap()), now, m).None?
      ensures !raised ==> Snap() == SyncIfChanged(old(Snap()), now, m).value.state && sent == SyncIfChanged(old(Snap()), now, m).value.sent
      ensures raised ==> Snap() == old(Snap())
    {
      var cur := SerializeActorState();
      if cur.None? {
        return [], true;
      }
      sent := [];
      raised := false;
      if forceSync || cur.value != lastSyncedState {
        sent := Emit(m, ActorSync, SyncData(Snap(), cur.value, now));
        lastSyncedState := cur.value;
        lastSyncTime := now;
        forceSync := false;
        dirtyComponents := {};
      }
    }
  }
}
