/**
 * The class-level half of engine/network_component.py: the map of
 * networked components by network_id, registering on on_added and
 * unregistering on on_removed, the handlers the server and the client
 * install for sync, spawn and destroy messages, and the lookups.
 *
 * The actors a client-side destroy message destroys are recorded, by id,
 * in `destroyed`; everything handed to the network is appended to
 * `outbox`.
 */
module NetworkSyncRegistry {
  import opened Wrappers
  import opened Values
  import opened NetworkSync

  /** The registry's state as a value: components by network_id, the manager, what was sent and what was destroyed. */
  datatype NetState = NetState(table: map<string, SyncState>, manager: Option<Manager>, outbox: seq<Sent>, destroyed: seq<string>)

  /** Each component is registered under its own network_id. */
  predicate KeysMatch(n: NetState)
  {
    forall k :: k in n.table ==> n.table[k].networkId == k
  }

  /** A handler's effect; on `raised` the registry keeps what was done before the exception. */
  datatype After = After(net: NetState, raised: bool)

  /**
   * message.data.get('network_id') as a registry key: None when it raises
   * (the data is not a dict, or the id is unhashable); Some(None) for an
   * id no string key can equal.
   */
  function LookupId(data: Value): (r: Option<Option<string>>)
    ensures r.Some? ==> data.VDict?
    ensures r.Some? && r.value.Some? ==> "network_id" in data.entries && data.entries["network_id"] == VStr(r.value.value)
  {
    if !data.VDict? then None
    else
      var v := Get(data.entries, "network_id", VNone);
      if v.VList? || v.VDict? then None
      else if v.VStr? then Some(Some(v.s)) else Some(None)
  }

  /** The registered key named by the data, if any. */
  function Known(n: NetState, data: Value): (r: Option<string>)
    ensures r.Some? ==> r.value in n.table && LookupId(data) == Some(Some(r.value))
  {
    match LookupId(data)
    case Some(Some(k)) => if k in n.table then Some(k) else None
    case _ => None
  }

  /** The server's broadcast of a received message to every client but the sender. */
  function Relay(mgr: Option<Manager>, clientId: string, mtype: SyncMessage, data: Value): (r: seq<Sent>)
    ensures |r| <= 1
    ensures |r| == 1 <==> mgr.Some? && mgr.value.hasServer
    ensures |r| == 1 ==> r[0] == Sent(Broadcast([clientId]), mtype, data)
  {
    if mgr.Some? && mgr.value.hasServer then [Sent(Broadcast([clientId]), mtype, data)] else []
  }

  // ---------------------------------------------------------------------
  // Registering and unregistering

  /** on_added: the component takes the actor, is registered under its network_id and spawns when it has authority. */
  function Attach(n: NetState, c: SyncState, body: Body): (r: After)
    ensures c.networkId in r.net.table && r.net.table[c.networkId].actor == Some(body)
    ensures r.net.table == n.table[c.networkId := r.net.table[c.networkId]]
    ensures r.net.manager == n.manager && r.net.destroyed == n.destroyed
    ensures r.net.table[c.networkId] == c.(actor := Some(body), isSpawned := r.net.table[c.networkId].isSpawned)
  {
    var h := AddedStep(c, body, n.manager);
    After(n.(table := n.table[c.networkId := h.state], outbox := n.outbox + h.sent), h.raised)
  }

  /** The registry after on_removed, and the component after it. */
  datatype Detached = Detached(net: NetState, comp: SyncState)

  /** on_removed: destroy on the network when it has authority, unregister, drop the actor. */
  function Detach(n: NetState, c: SyncState): (r: Detached)
    ensures r.net.table == n.table - {c.networkId}
    ensures r.comp.actor.None? && !(c.isSpawned && ShouldSend(c, n.manager) && r.comp.isSpawned)
    ensures r.net.manager == n.manager && r.net.destroyed == n.destroyed
  {
    var u := RemovedStep(c, n.manager);
    Detached(n.(table := n.table - {c.networkId}, outbox := n.outbox + u.sent), u.state)
  }

  /** get_networked_actor. */
  function ActorOf(n: NetState, networkId: string): (r: Option<Body>)
    ensures networkId !in n.table ==> r.None?
  {
    if networkId in n.table then n.table[networkId].actor else None
  }

  /** After on_added the actor is found under the component's network_id. */
  lemma AttachThenFind(n: NetState, c: SyncState, body: Body)
    ensures ActorOf(Attach(n, c, body).net, c.networkId) == Some(body)
  {
  }

  /** After on_removed the network_id finds nothing, and every other registration is as it was. */
  lemma DetachThenFind(n: NetState, c: SyncState, k: string)
    ensures ActorOf(Detach(n, c).net, c.networkId).None?
    ensures k != c.networkId ==> ActorOf(Detach(n, c).net, k) == ActorOf(n, k)
  {
  }

  /** Registering and unregistering keep every component under its own id. */
  lemma AttachDetachKeepKeys(n: NetState, c: SyncState, body: Body)
    requires KeysMatch(n)
    ensures KeysMatch(Attach(n, c, body).net)
    ensures KeysMatch(Detach(n, c).net)
  {
  }

  /** spawn_networked_actor: a new component (network_id `uuid`) on `body`. */
  function SpawnNetworked(n: NetState, body: Body, ownerId: Value, ownership: Ownership, uuid: string): (r: After)
    ensures uuid in r.net.table && r.net.table[uuid].ownerId == ownerId && r.net.table[uuid].ownership == ownership
    ensures r.net.table[uuid].actor == Some(body)
  {
    Attach(n, NewSync(uuid, ownerId, ownership, true, 20.0), body)
  }

  /** New networked actors with authority are spawned: a server-owned one on a server with a server object is broadcast once. */
  lemma ServerSpawnBroadcasts(n: NetState, body: Body, uuid: string)
    requires n.manager.Some? && n.manager.value.mode == "server" && n.manager.value.hasServer
    requires body.tags.VList?
    ensures var r := SpawnNetworked(n, body, VStr("server"), ServerOwned, uuid);
            !r.raised && r.net.table[uuid].isSpawned && |r.net.outbox| == |n.outbox| + 1
            && r.net.outbox[|n.outbox|].mtype == ActorSpawn && r.net.outbox[|n.outbox|].route == Broadcast([])
  {
  }

  // ---------------------------------------------------------------------
  // The handlers

  datatype Handler = SyncOnServer | SpawnOnServer | DestroyOnServer | SyncOnClient | SpawnOnClient | DestroyOnClient

  predicate ServerSide(h: Handler)
  {
    h == SyncOnServer || h == SpawnOnServer || h == DestroyOnServer
  }

  /** set_network_manager: the handlers installed on the manager's server or client. */
  function InstalledHandlers(mgr: Option<Manager>): (r: map<SyncMessage, Handler>)
    ensures r == map[] || r.Keys == {ActorSync, ActorSpawn, ActorDestroy}
    ensures forall t :: t in r ==> mgr.Some? && (ServerSide(r[t]) <==> mgr.value.mode == "server")
    ensures r != map[] <==> mgr.Some? && ((mgr.value.mode == "server" && mgr.value.hasServer) || (mgr.value.mode == "client" && mgr.value.client.Some?))
  {
    match mgr
    case None => map[]
    case Some(m) =>
      if m.mode == "server" && m.hasServer then map[ActorSync := SyncOnServer, ActorSpawn := SpawnOnServer, ActorDestroy := DestroyOnServer]
      else if m.mode == "client" && m.client.Some? then map[ActorSync := SyncOnClient, ActorSpawn := SpawnOnClient, ActorDestroy := DestroyOnClient]
      else map[]
  }

  /** Which registered component a received message is for, or whether the handler stops first (and raises). */
  datatype Target = Ignore(raised: bool) | At(key: string)

  /** A received actor_state applied to the component under `k`; on an exception nothing changes. */
  function Applied(n: NetState, k: string, state: Value): (r: After)
    requires k in n.table
    ensures r.net.manager == n.manager && r.net.outbox == n.outbox && r.net.destroyed == n.destroyed
    ensures r.raised ==> r.net == n
    ensures !r.raised ==> k in r.net.table && r.net.table == n.table[k := r.net.table[k]]
  {
    match Deserialized(n.table[k], state)
    case None => After(n, true)
    case Some(c2) => After(n.(table := n.table[k := c2]), false)
  }

  /** The checks of _handle_actor_sync_server before the state is applied. */
  function SyncServerTarget(n: NetState, clientId: string, data: Value): (r: Target)
    ensures r.At? ==> r.key in n.table && data.VDict? && "actor_state" in data.entries
  {
    if LookupId(data).None? then Ignore(true)
    else
      match Known(n, data)
      case None => Ignore(false)
      case Some(k) =>
        if n.table[k].ownerId != VStr(clientId) then Ignore(false)
        else if "actor_state" !in data.entries then Ignore(true)
        else At(k)
  }

  /** _handle_actor_sync_server: applied and relayed only from the owner. */
  function SyncServer(n: NetState, clientId: string, data: Value): (r: After)
  {
    match SyncServerTarget(n, clientId, data)
    case Ignore(raised) => After(n, raised)
    case At(k) =>
      var a := Applied(n, k, data.entries["actor_state"]);
      if a.raised then a
      else After(a.net.(outbox := a.net.outbox + Relay(n.manager, clientId, ActorSync, data)), false)
  }

  /** The checks of _handle_actor_sync_client before the state is applied. */
  function SyncClientTarget(n: NetState, data: Value): (r: Target)
    ensures r.At? ==> r.key in n.table && data.VDict? && "actor_state" in data.entries
  {
    if LookupId(data).None? then Ignore(true)
    else
      match Known(n, data)
      case None => Ignore(false)
      case Some(k) =>
        if ShouldSend(n.table[k], n.manager) then Ignore(false)
        else if "actor_state" !in data.entries then Ignore(true)
        else At(k)
  }

  /** _handle_actor_sync_client: applied only to objects this side does not send. */
  function SyncClient(n: NetState, data: Value): (r: After)
  {
    match SyncClientTarget(n, data)
    case Ignore(raised) => After(n, raised)
    case At(k) => Applied(n, k, data.entries["actor_state"])
  }

  /** _handle_actor_spawn_server: forwarded to every other client. */
  function SpawnServer(n: NetState, clientId: string, data: Value): (r: After)
    ensures !r.raised && r.net == n.(outbox := n.outbox + Relay(n.manager, clientId, ActorSpawn, data))
  {
    After(n.(outbox := n.outbox + Relay(n.manager, clientId, ActorSpawn, data)), false)
  }

  /** What _handle_actor_spawn_client makes of a message: nothing (raising or not), or a component, its new actor and the state to apply. */
  datatype SpawnPlan = Refuse(raised: bool) | Create(comp: SyncState, body: Body, state: Value)

  /** The parsing half of _handle_actor_spawn_client; `actorId` is the id the new Actor draws. */
  function SpawnClientPlan(n: NetState, data: Value, actorId: string): (r: SpawnPlan)
    ensures r.Create? ==> data.VDict? && "network_id" in data.entries && data.entries["network_id"] == VStr(r.comp.networkId)
    ensures r.Create? ==> r.comp.networkId !in n.table && r.body.id == actorId
    ensures r.Create? ==> r.comp == NewSync(r.comp.networkId, Get(data.entries, "owner_id", VStr("server")), r.comp.ownership, true, 20.0).(isSpawned := true)
    ensures r.Create? ==> ParseOwnership(Get(data.entries, "ownership", VStr("server"))) == Ok(r.comp.ownership)
  {
    if !data.VDict? then Refuse(true)
    else
      var nid := Get(data.entries, "network_id", VNone);
      if nid.VList? || nid.VDict? then Refuse(true)
      else if nid.VStr? && nid.s in n.table then Refuse(false)
      else
        var actorState := Get(data.entries, "actor_state", VDict(map[]));
        if !nid.VStr? || !actorState.VDict? then Refuse(true)
        else
          var name := Get(actorState.entries, "actor_name", VStr("NetworkedActor_" + Head8(nid.s)));
          match ParseOwnership(Get(data.entries, "ownership", VStr("server")))
          case Err(_) => Refuse(true)
          case Ok(own) =>
            Create(NewSync(nid.s, Get(data.entries, "owner_id", VStr("server")), own, true, 20.0).(isSpawned := true),
                   NewBody(actorId, name), actorState)
  }

  /**
   * _handle_actor_spawn_client: a new actor with a new, already spawned
   * component under the received network_id, registered, then given the
   * received state.
   */
  function SpawnClient(n: NetState, data: Value, actorId: string): (r: After)
  {
    match SpawnClientPlan(n, data, actorId)
    case Refuse(raised) => After(n, raised)
    case Create(c, body, state) => Spawned(n, c, body, state)
  }

  /** The new component registered on its actor, then given the received state. */
  function Spawned(n: NetState, c: SyncState, body: Body, state: Value): (r: After)
    ensures r.net.manager == n.manager && r.net.destroyed == n.destroyed
    ensures c.networkId in r.net.table && r.net.table == n.table[c.networkId := r.net.table[c.networkId]]
  {
    var a := Attach(n, c, body);
    if a.raised then a else Applied(a.net, c.networkId, state)
  }

  /** _handle_actor_destroy_server: forwarded only from the owner. */
  function DestroyServer(n: NetState, clientId: string, data: Value): (r: After)
    ensures r.net.table == n.table && r.net.destroyed == n.destroyed
  {
    if LookupId(data).None? then After(n, true)
    else
      match Known(n, data)
      case None => After(n, false)
      case Some(k) =>
        if n.table[k].ownerId != VStr(clientId) then After(n, false)
        else After(n.(outbox := n.outbox + Relay(n.manager, clientId, ActorDestroy, data)), false)
  }

  /** The checks of _handle_actor_destroy_client: a registered component that has an actor. */
  function DestroyClientTarget(n: NetState, data: Value): (r: Target)
    ensures r.At? ==> r.key in n.table && n.table[r.key].actor.Some? && Known(n, data) == Some(r.key)
    ensures r.Ignore? ==> (r.raised <==> LookupId(data).None?)
  {
    if LookupId(data).None? then Ignore(true)
    else
      match Known(n, data)
      case None => Ignore(false)
      case Some(k) => if n.table[k].actor.None? then Ignore(false) else At(k)
  }

  /** _handle_actor_destroy_client: the actor of a known component is destroyed, which removes the component. */
  function DestroyClient(n: NetState, data: Value): (r: After)
  {
    match DestroyClientTarget(n, data)
    case Ignore(raised) => After(n, raised)
    case At(k) =>
      var c := n.table[k];
      var d := Detach(n, c);
      After(d.net.(destroyed := d.net.destroyed + [c.actor.value.id]), false)
  }

  /** A sync reaches the server's state, and is relayed, only from the owner the component names. */
  lemma SyncServerOwnerOnly(n: NetState, clientId: string, data: Value)
    requires SyncServer(n, clientId, data).net != n
    ensures Known(n, data).Some? && n.table[Known(n, data).value].ownerId == VStr(clientId)
  {
  }

  /** The owner's sync is applied and relayed to everyone but the owner. */
  lemma SyncServerAppliesOwnerUpdate(n: NetState, clientId: string, data: Value, k: string)
    requires Known(n, data) == Some(k) && n.table[k].ownerId == VStr(clientId)
    requires "actor_state" in data.entries && Deserialized(n.table[k], data.entries["actor_state"]).Some?
    ensures var r := SyncServer(n, clientId, data);
            !r.raised && r.net.table == n.table[k := Deserialized(n.table[k], data.entries["actor_state"]).value]
            && r.net.outbox == n.outbox + Relay(n.manager, clientId, ActorSync, data)
  {
  }

  /** A client never overwrites an object it has authority over. */
  lemma SyncClientKeepsOwnObjects(n: NetState, data: Value, k: string)
    requires Known(n, data) == Some(k) && ShouldSend(n.table[k], n.manager)
    ensures SyncClient(n, data) == After(n, false)
  {
  }

  /** A spawn for a network_id already registered is ignored. */
  lemma SpawnClientIgnoresKnown(n: NetState, data: Value, actorId: string)
    requires Known(n, data).Some?
    ensures SpawnClient(n, data, actorId) == After(n, false)
  {
  }

  /**
   * A spawn for a new network_id that does not raise registers a component
   * under it with the received owner and ownership, already spawned (so it
   * sends nothing back), whose actor has the new id.
   */
  lemma SpawnClientRegisters(n: NetState, data: Value, actorId: string)
    requires !SpawnClient(n, data, actorId).raised && SpawnClient(n, data, actorId).net != n
    ensures data.VDict? && "network_id" in data.entries && data.entries["network_id"].VStr?
    ensures var k := data.entries["network_id"].s;
            var r := SpawnClient(n, data, actorId).net;
            k !in n.table && k in r.table && r.table == n.table[k := r.table[k]]
            && r.table[k].ownerId == Get(data.entries, "owner_id", VStr("server"))
            && ParseOwnership(Get(data.entries, "ownership", VStr("server"))) == Ok(r.table[k].ownership)
            && r.table[k].isSpawned && r.table[k].actor.Some? && r.table[k].actor.value.id == actorId
            && r.outbox == n.outbox && r.destroyed == n.destroyed
  {
    var k := data.entries["network_id"].s;
    var actorState := Get(data.entries, "actor_state", VDict(map[]));
    var name := Get(actorState.entries, "actor_name", VStr("NetworkedActor_" + Head8(k)));
    var own := ParseOwnership(Get(data.entries, "ownership", VStr("server"))).value;
    var c := NewSync(k, Get(data.entries, "owner_id", VStr("server")), own, true, 20.0).(isSpawned := true);
    var c1 := c.(actor := Some(NewBody(actorId, name)));
    assert Spawn(c1, n.manager) == Some(Step(c1, []));
    assert Attach(n, c, NewBody(actorId, name)).net == n.(table := n.table[k := c1]);
  }

  /** A destroy is forwarded only from the owner. */
  lemma DestroyServerOwnerOnly(n: NetState, clientId: string, data: Value)
    requires |DestroyServer(n, clientId, data).net.outbox| > |n.outbox|
    ensures Known(n, data).Some? && n.table[Known(n, data).value].ownerId == VStr(clientId)
  {
  }

  /** A destroy for a registered component with an actor unregisters it and destroys that actor. */
  lemma DestroyClientRemoves(n: NetState, data: Value, k: string)
    requires Known(n, data) == Some(k) && n.table[k].actor.Some?
    ensures var r := DestroyClient(n, data).net;
            r.table == n.table - {n.table[k].networkId}
            && r.destroyed == n.destroyed + [n.table[k].actor.value.id]
  {
  }

  /** Both sync handlers keep every component under its own network_id. */
  lemma SyncKeepsKeys(n: NetState, clientId: string, data: Value)
    requires KeysMatch(n)
    ensures KeysMatch(SyncServer(n, clientId, data).net) && KeysMatch(SyncClient(n, data).net)
  {
  }

  /** Both spawn handlers keep every component under its own network_id. */
  lemma SpawnKeepsKeys(n: NetState, clientId: string, data: Value, actorId: string)
    requires KeysMatch(n)
    ensures KeysMatch(SpawnServer(n, clientId, data).net) && KeysMatch(SpawnClient(n, data, actorId).net)
  {
    var p := SpawnClientPlan(n, data, actorId);
    if p.Create? {
      AttachDetachKeepKeys(n, p.comp, p.body);
    }
  }

  /** Both destroy handlers keep every component under its own network_id. */
  lemma DestroyKeepsKeys(n: NetState, clientId: string, data: Value)
    requires KeysMatch(n)
    ensures KeysMatch(DestroyServer(n, clientId, data).net) && KeysMatch(DestroyClient(n, data).net)
  {
    var t := DestroyClientTarget(n, data);
    if t.At? {
      AttachDetachKeepKeys(n, n.table[t.key], n.table[t.key].actor.value);
    }
  }

  // ---------------------------------------------------------------------
  // The registry

  class NetworkedActors {
    /** NetworkComponent._networked_actors. */
    var table: map<string, NetworkComponent>
    /** NetworkComponent._network_manager. */
    var manager: Option<Manager>
    var outbox: seq<Sent>
    var destroyed: seq<string>

    ghost predicate Valid()
      reads this`table, table.Values
    {
      forall k :: k in table ==> table[k].networkId == k
    }

    /** The registered components as values. */
    function Components(): map<string, SyncState>
      reads this`table, table.Values
    {
      map k | k in table :: table[k].Snap()
    }

    function Snapshot(): NetState
      reads this, table.Values
    {
      NetState(Components(), manager, outbox, destroyed)
    }

    constructor()
      ensures Valid() && Snapshot() == NetState(map[], None, [], [])
    {
      table := map[];
      manager := None;
      outbox := [];
      destroyed := [];
    }

    method SetNetworkManager(m: Option<Manager>) returns (installed: map<SyncMessage, Handler>)
      requires Valid()
      modifies this
      ensures Valid() && Snapshot() == old(Snapshot()).(manager := m) && installed == InstalledHandlers(m)
    {
      manager := m;
      installed := InstalledHandlers(m);
    }

    /** A registered component changed in place, keeping its network_id: the snapshot changes only at its key. */
    twostate lemma OneChanged(k: string)
      requires old(Valid()) && k in old(table) && table == old(table)
      requires forall o :: o in old(table.Values) && o != old(table[k]) ==> unchanged(o)
      requires table[k].networkId == k
      ensures Valid()
      ensures Snapshot().table == old(Snapshot().table)[k := table[k].Snap()]
    {
      ghost var after := Snapshot().table;
      ghost var want := old(Snapshot().table)[k := table[k].Snap()];
      forall j | j in table && j != k
        ensures table[j] != table[k] && after[j] == want[j]
      {
        assert table[j] in old(table.Values);
      }
      assert after.Keys == want.Keys;
    }

    /** `c` registered under its network_id: the snapshot changes only at that key. */
    twostate lemma PutOne(c: NetworkComponent)
      requires old(Valid()) && old(allocated(c)) && c.networkId == old(c.networkId)
      requires table == old(table)[c.networkId := c]
      requires forall o :: o in old(table.Values) && o != c ==> unchanged(o)
      ensures Valid()
      ensures Snapshot().table == old(Snapshot().table)[c.networkId := c.Snap()]
    {
      ghost var after := Snapshot().table;
      ghost var want := old(Snapshot().table)[c.networkId := c.Snap()];
      forall j | j in table && j != c.networkId
        ensures table[j] == old(table[j]) && table[j] != c && after[j] == want[j]
      {
        assert old(table[j]) in old(table.Values);
      }
      assert after.Keys == want.Keys;
    }

    /** on_added. */
    method OnAdded(c: NetworkComponent, body: Body) returns (raised: bool)
      requires Valid()
      modifies this, c
      ensures Valid() && c.networkId == old(c.networkId) && c.networkId in table && table[c.networkId] == c
      ensures After(Snapshot(), raised) == Attach(old(Snapshot()), old(c.Snap()), body)
    {
      var sent;
      sent, raised := c.Hook(body, manager);
      table := table[c.networkId := c];
      outbox := outbox + sent;
      PutOne(c);
    }

    /** on_removed. */
    method OnRemoved(c: NetworkComponent)
      requires Valid()
      modifies this, c
      ensures Valid()
      ensures Snapshot() == Detach(old(Snapshot()), old(c.Snap())).net
      ensures c.Snap() == Detach(old(Snapshot()), old(c.Snap())).comp
    {
      // Unregistering first changes no value the destroy step reads.
      ghost var n0 := Snapshot();
      Unregister(c);
      ghost var t1 := Components();
      assert t1 == n0.table - {old(c.networkId)};
      var sent := c.Unhook(manager);
      assert Components() == t1;
      outbox := outbox + sent;
      assert Snapshot() == NetState(t1, n0.manager, n0.outbox + sent, n0.destroyed);
    }

    /** The component's key removed from the registry. */
    method Unregister(c: NetworkComponent)
      requires Valid()
      modifies this`table
      ensures Valid() && c !in table.Values
      ensures Components() == old(Components()) - {c.networkId}
    {
      ghost var before := Components();
      table := table - {c.networkId};
      forall j | j in table
        ensures table[j] != c && Components()[j] == before[j]
      {
      }
    }

    /** spawn_networked_actor; `uuid` is the uuid4 the new component draws. */
    method SpawnNetworkedActor(body: Body, ownerId: Value, ownership: Ownership, uuid: string) returns (c: NetworkComponent, raised: bool)
      requires Valid()
      modifies this
      ensures fresh(c) && Valid()
      ensures After(Snapshot(), raised) == SpawnNetworked(old(Snapshot()), body, ownerId, ownership, uuid)
    {
      c := new NetworkComponent(uuid, ownerId, ownership, true, 20.0);
      raised := OnAdded(c, body);
    }

    /** get_networked_actor. */
    function GetNetworkedActor(networkId: string): (r: Option<Body>)
      reads this, table.Values
      ensures r == ActorOf(Snapshot(), networkId)
    {
      if networkId in table then table[networkId].actor else None
    }

    /** The received state applied to the component registered under `k`. */
    method ApplyStateAt(k: string, state: Value) returns (raised: bool)
      requires Valid() && k in table
      modifies table[k]
      ensures Valid() && After(Snapshot(), raised) == Applied(old(Snapshot()), k, state)
    {
      raised := table[k].DeserializeActorState(state);
      OneChanged(k);
    }

    method HandleActorSyncServer(clientId: string, data: Value) returns (raised: bool)
      requires Valid()
      modifies this, table.Values
      ensures Valid() && After(Snapshot(), raised) == SyncServer(old(Snapshot()), clientId, data)
    {
      ghost var n0 := Snapshot();
      match SyncServerTarget(Snapshot(), clientId, data)
      case Ignore(r) =>
        raised := r;
      case At(k) =>
        ghost var a := Applied(n0, k, data.entries["actor_state"]);
        ghost var relay := Relay(n0.manager, clientId, ActorSync, data);
        assert SyncServer(n0, clientId, data) == if a.raised then a else After(a.net.(outbox := a.net.outbox + relay), false);
        raised := ApplyStateAt(k, data.entries["actor_state"]);
        assert After(Snapshot(), raised) == a;
        if !raised {
          ghost var t1 := Components();
          outbox := outbox + Relay(manager, clientId, ActorSync, data);
          assert Components() == t1;
          assert Snapshot() == a.net.(outbox := a.net.outbox + relay);
        }
    }

    method HandleActorSyncClient(data: Value) returns (raised: bool)
      requires Valid()
      modifies this, table.Values
      ensures Valid() && After(Snapshot(), raised) == SyncClient(old(Snapshot()), data)
    {
      match SyncClientTarget(Snapshot(), data)
      case Ignore(r) =>
        raised := r;
      case At(k) =>
        raised := ApplyStateAt(k, data.entries["actor_state"]);
    }

    method HandleActorSpawnServer(clientId: string, data: Value) returns (raised: bool)
      requires Valid()
      modifies this
      ensures Valid() && After(Snapshot(), raised) == SpawnServer(old(Snapshot()), clientId, data)
    {
      outbox := outbox + Relay(manager, clientId, ActorSpawn, data);
      raised := false;
    }

    /** `actorId` is the uuid4 the new Actor draws. */
    method HandleActorSpawnClient(data: Value, actorId: string) returns (raised: bool)
      requires Valid()
      modifies this, table.Values
      ensures Valid() && After(Snapshot(), raised) == SpawnClient(old(Snapshot()), data, actorId)
    {
      match SpawnClientPlan(Snapshot(), data, actorId)
      case Refuse(r) =>
        raised := r;
      case Create(s, body, state) =>
        raised := SpawnComponent(s, body, state);
    }

    /** A new component with the state `s` describes added to `body`, then given `state`. */
    method SpawnComponent(s: SyncState, body: Body, state: Value) returns (raised: bool)
      requires Valid()
      requires s == NewSync(s.networkId, s.ownerId, s.ownership, true, 20.0).(isSpawned := true)
      modifies this, table.Values
      ensures Valid() && After(Snapshot(), raised) == Spawned(old(Snapshot()), s, body, state)
    {
      // The component draws a uuid4 of its own, which is overwritten at once.
      var c := new NetworkComponent(s.networkId, s.ownerId, s.ownership, true, 20.0);
      c.isSpawned := true;
      ghost var n1 := Snapshot();
      assert c.Snap() == s && n1 == old(Snapshot());
      raised := OnAdded(c, body);
      assert After(Snapshot(), raised) == Attach(n1, s, body);
      if !raised {
        raised := ApplyStateAt(c.networkId, state);
      }
    }

    method HandleActorDestroyServer(clientId: string, data: Value) returns (raised: bool)
      requires Valid()
      modifies this
      ensures Valid() && After(Snapshot(), raised) == DestroyServer(old(Snapshot()), clientId, data)
    {
      var id := LookupId(data);
      if id.None? {
        return true;
      }
      if id.value.None? || id.value.value !in table {
        return false;
      }
      var k := id.value.value;
      if table[k].ownerId == VStr(clientId) {
        outbox := outbox + Relay(manager, clientId, ActorDestroy, data);
      }
      raised := false;
    }

    method HandleActorDestroyClient(data: Value) returns (raised: bool)
      requires Valid()
      modifies this, table.Values
      ensures Valid() && After(Snapshot(), raised) == DestroyClient(old(Snapshot()), data)
    {
      ghost var n0 := Snapshot();
      match DestroyClientTarget(Snapshot(), data)
      case Ignore(r) =>
        raised := r;
      case At(k) =>
        var c := table[k];
        var actorId := c.actor.value.id;
        ghost var d := Detach(n0, n0.table[k]);
        assert c.Snap() == n0.table[k];
        OnRemoved(c);
        assert Snapshot() == d.net;
        destroyed := destroyed + [actorId];
        assert Snapshot() == d.net.(destroyed := d.net.destroyed + [actorId]);
        raised := false;
    }
  }
}
