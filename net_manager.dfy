/**
 * The NetworkedActorManager of engine/networking/network_components.py:
 * the registry of networked actors (network id to actor and to owner),
 * spawning and destroying them, and the handlers for spawn, destroy,
 * component-update and full-sync messages.
 *
 * An actor's NetworkComponent is kept beside it as an NcState; what the
 * manager sends is recorded in `outbox`, the actors it adds to the current
 * scene in `scene`, and the actors whose destroy() it calls in `destroyed`.
 */
module NetManager {
  import opened Wrappers
  import opened Values
  import opened Hierarchy
  import opened CoreActor
  import opened NetSerialization
  import opened Networking
  import opened NetComponents

  /** A networked actor and its NetworkComponent. */
  datatype Tracked = Tracked(actor: NetActor, nc: NcState)

  /** The owner the registry records and the one the NetworkComponent holds (`owner_id or "server"`). */
  predicate OwnerAgrees(owner: string, ncOwner: string)
  {
    ncOwner == owner || (owner == "" && ncOwner == "server")
  }

  /** networked_actors, actor_owners, and the insertion order of networked_actors. */
  datatype Registry = Registry(networked: map<string, Tracked>, owners: map<string, string>, order: seq<string>)

  function EmptyRegistry(): Registry
  {
    Registry(map[], map[], [])
  }

  /**
   * The two maps have the same keys, the order lists each key once, and
   * each entry's NetworkComponent is spawned under its own key.
   */
  ghost predicate RegOk(r: Registry)
  {
    r.networked.Keys == r.owners.Keys && NoDup(r.order)
    && (forall i :: 0 <= i < |r.order| ==> r.order[i] in r.networked)
    && (forall k :: k in r.networked ==> k in r.order)
    && (forall k :: k in r.networked ==> Fits(k, r.networked[k], r.owners[k]))
  }

  /** An entry a registry may hold under nid. */
  ghost predicate Fits(nid: string, t: Tracked, owner: string)
  {
    t.nc.networkId == nid && t.nc.spawned && OwnerAgrees(owner, t.nc.ownerId) && InSync(t.actor.comps)
  }

  /** Both maps set at nid; a new key goes to the end of the order, a known one keeps its place. */
  function Register(r: Registry, nid: string, t: Tracked, owner: string): (r': Registry)
    ensures r'.networked == r.networked[nid := t] && r'.owners == r.owners[nid := owner]
    ensures nid in r.order ==> r'.order == r.order
    ensures nid !in r.order ==> r'.order == r.order + [nid]
  {
    Registry(r.networked[nid := t], r.owners[nid := owner], if nid in r.order then r.order else r.order + [nid])
  }

  lemma RegisterOk(r: Registry, nid: string, t: Tracked, owner: string)
    requires RegOk(r) && Fits(nid, t, owner)
    ensures RegOk(Register(r, nid, t, owner))
  {
  }

  /** The entry under a registered id replaced, owner and order kept. */
  function Replace(r: Registry, nid: string, t: Tracked): (r': Registry)
    ensures r'.networked == r.networked[nid := t] && r'.owners == r.owners && r'.order == r.order
  {
    r.(networked := r.networked[nid := t])
  }

  lemma ReplaceOk(r: Registry, nid: string, t: Tracked)
    requires RegOk(r) && nid in r.networked && Fits(nid, t, r.owners[nid])
    ensures RegOk(Replace(r, nid, t))
  {
  }

  /** Both maps lose nid. */
  function Forget(r: Registry, nid: string): (r': Registry)
    ensures r'.networked == r.networked - {nid} && r'.owners == r.owners - {nid}
    ensures r'.order == RemoveFirst(r.order, nid)
  {
    Registry(r.networked - {nid}, r.owners - {nid}, RemoveFirst(r.order, nid))
  }

  lemma ForgetOk(r: Registry, nid: string)
    requires RegOk(r)
    ensures RegOk(Forget(r, nid))
  {
    var o := RemoveFirst(r.order, nid);
    forall i | 0 <= i < |o| ensures o[i] in r.networked - {nid} {
      assert o[i] in o;
    }
  }

  /** Forgetting an id just registered for the first time restores the registry. */
  lemma ForgetUndoesRegister(r: Registry, nid: string, t: Tracked, owner: string)
    requires RegOk(r) && nid !in r.networked
    ensures Forget(Register(r, nid, t, owner), nid) == r
  {
    assert nid !in r.order;
    RemoveAppended(r.order, nid);
    assert r.networked[nid := t] - {nid} == r.networked;
    assert r.owners[nid := owner] - {nid} == r.owners;
  }

  /** The NetworkComponent a received actor gets: the sent id and owner, spawned, its states captured on adding. */
  function FreshNc(nid: string, owner: string, a: NetActor): (nc: NcState)
    ensures nc.networkId == nid && nc.spawned && OwnerAgrees(owner, nc.ownerId)
  {
    NewNc(nid, Some(owner), "blacklist").(spawned := true, lastStates := States(SyncPolicy("blacklist", {}, {}), a.comps.list))
  }

  /** One element of the actors list of a full-sync message. */
  function SyncEntry(nid: string, a: NetActor, owners: map<string, string>): Value
  {
    VDict(map["network_id" := VStr(nid), "owner_id" := VStr(if nid in owners then owners[nid] else "server"),
              "actor_data" := SerializeActor(a)])
  }

  /** _send_full_sync_to_client's list: one entry per networked actor, in registry order. */
  function SyncEntries(ids: seq<string>, r: Registry): (s: seq<Value>)
    requires forall i :: 0 <= i < |ids| ==> ids[i] in r.networked
    ensures |s| == |ids|
  {
    seq(|ids|, i requires 0 <= i < |ids| => SyncEntry(ids[i], r.networked[ids[i]].actor, r.owners))
  }

  /** Reading one full-sync entry: its id, owner and actor. */
  function ReadEntry(item: Value, classes: map<(string, string), map<string, Value>>, uuid: string, uid: nat): (r: Result<(string, string, NetActor)>)
    ensures r.Ok? ==> InSync(r.value.2.comps)
  {
    var nid := StrField(item, "network_id");
    var owner := StrField(item, "owner_id");
    var data := Field(item, "actor_data");
    if nid.Err? then Err(nid.error)
    else if owner.Err? then Err(owner.error)
    else if data.Err? then Err(data.error)
    else
      match DeserializeActor(data.value, classes, uuid, uid)
      case Err(e) => Err(e)
      case Ok(a) => Ok((nid.value, owner.value, a))
  }

  /** What receiving a list of full-sync entries has done so far. */
  datatype Intake = Intake(reg: Registry, added: seq<string>, err: Option<Error>)

  /** Each full-sync entry read on its own; entry i draws uuid uuids(i). */
  function ReadAll(items: seq<Value>, classes: map<(string, string), map<string, Value>>, uuids: nat -> string, uid: nat): (es: seq<Result<(string, string, NetActor)>>)
    ensures |es| == |items|
    ensures forall j :: 0 <= j < |es| && es[j].Ok? ==> InSync(es[j].value.2.comps)
  {
    var es := seq(|items|, i requires 0 <= i < |items| => ReadEntry(items[i], classes, uuids(i), uid));
    assert forall j :: 0 <= j < |es| ==> es[j] == ReadEntry(items[j], classes, uuids(j), uid);
    es
  }

  /** The registration loop of _handle_full_sync_data over entries already read, stopping at the first that raised. */
  function RegisterAll(r: Registry, es: seq<Result<(string, string, NetActor)>>): (got: Intake)
  {
    if |es| == 0 then Intake(r, [], None)
    else
      var prev := RegisterAll(r, es[..|es| - 1]);
      if prev.err.Some? then prev
      else
        match es[|es| - 1]
        case Err(e) => prev.(err := Some(e))
        case Ok(entry) => Admit(prev, entry)
  }

  /** A received entry registered under its id, with its owner and a fresh spawned NetworkComponent. */
  function Admit(prev: Intake, entry: (string, string, NetActor)): Intake
  {
    Intake(Register(prev.reg, entry.0, Received(entry), entry.1), prev.added + [entry.2.id], None)
  }

  function Received(entry: (string, string, NetActor)): (t: Tracked)
    ensures t.actor == entry.2 && t.nc == FreshNc(entry.0, entry.1, entry.2)
  {
    Tracked(entry.2, FreshNc(entry.0, entry.1, entry.2))
  }

  /** Receiving a list of full-sync entries into a registry. */
  function ReceiveAll(r: Registry, items: seq<Value>, classes: map<(string, string), map<string, Value>>, uuids: nat -> string, uid: nat): Intake
  {
    RegisterAll(r, ReadAll(items, classes, uuids, uid))
  }

  lemma {:induction false} RegisterStops(r: Registry, es: seq<Result<(string, string, NetActor)>>, i: nat)
    requires i <= |es| && RegisterAll(r, es[..i]).err.Some?
    ensures RegisterAll(r, es) == RegisterAll(r, es[..i])
    decreases |es| - i
  {
    if i < |es| {
      TakeTake(es, i);
      RegisterStops(r, es, i + 1);
    } else {
      TakeAll(es);
    }
  }

  lemma TakeAll<T>(s: seq<T>)
    ensures s[..|s|] == s
  {
  }

  lemma TakeTake<T>(s: seq<T>, i: nat)
    requires i < |s|
    ensures s[..i + 1][..i] == s[..i]
  {
  }

  /** One more entry that was read, after a prefix that raised nothing, is registered. */
  lemma StepOk(r: Registry, es: seq<Result<(string, string, NetActor)>>, i: nat, entry: (string, string, NetActor))
    requires i < |es| && RegisterAll(r, es[..i]).err.None? && es[i] == Ok(entry)
    ensures RegisterAll(r, es[..i + 1]) == Admit(RegisterAll(r, es[..i]), entry)
  {
    TakeTake(es, i);
  }

  /** One more entry that raised, after a prefix that raised nothing, stops the loop with that error. */
  lemma StepFails(r: Registry, es: seq<Result<(string, string, NetActor)>>, i: nat, e: Error)
    requires i < |es| && RegisterAll(r, es[..i]).err.None? && es[i] == Err(e)
    ensures RegisterAll(r, es[..i + 1]) == RegisterAll(r, es[..i]).(err := Some(e))
  {
    TakeTake(es, i);
  }

  lemma ReadAllPrefix(items: seq<Value>, classes: map<(string, string), map<string, Value>>, uuids: nat -> string, uid: nat, n: nat)
    requires n <= |items|
    ensures ReadAll(items, classes, uuids, uid)[..n] == ReadAll(items[..n], classes, uuids, uid)
  {
  }

  /** The actor fields that survive serialize_actor and deserialize_actor. */
  predicate SameFields(b: NetActor, a: NetActor)
  {
    b.id == a.id && b.name == a.name && b.active == a.active && b.enabled == a.enabled && b.tags == a.tags
    && b.position == a.position && b.rotation == a.rotation && b.scale == a.scale
  }

  /** A full-sync entry reads back as its id, its owner and the actor's own fields. */
  lemma ReadSyncEntry(nid: string, a: NetActor, owners: map<string, string>, classes: map<(string, string), map<string, Value>>, uuid: string, uid: nat)
    requires nid in owners && a.name != ""
    ensures var e := ReadEntry(SyncEntry(nid, a, owners), classes, uuid, uid);
      e.Ok? && e.value.0 == nid && e.value.1 == owners[nid] && SameFields(e.value.2, a)
  {
    ActorRoundTrip(a, classes, uuid, uid);
    var item := SyncEntry(nid, a, owners);
    assert StrField(item, "network_id") == Ok(nid);
    assert StrField(item, "owner_id") == Ok(owners[nid]);
    assert Field(item, "actor_data") == Ok(SerializeActor(a));
  }

  /**
   * What a client holds after receiving the full sync of ids from registry
   * r: exactly those ids, in that order, with r's owners and the actors'
   * own fields.
   */
  ghost predicate Mirrors(got: Intake, ids: seq<string>, r: Registry)
  {
    got.err.None? && got.reg.order == ids && got.reg.networked.Keys == got.reg.owners.Keys
    && (forall k :: k in got.reg.networked <==> k in ids)
    && (forall k :: k in got.reg.owners ==> k in r.owners && got.reg.owners[k] == r.owners[k])
    && (forall k :: k in got.reg.networked ==> k in r.networked && SameFields(got.reg.networked[k].actor, r.networked[k].actor))
  }

  lemma MirrorStep(prev: Intake, init: seq<string>, entry: (string, string, NetActor), r: Registry)
    requires Mirrors(prev, init, r) && entry.0 !in init && entry.0 in r.networked && entry.0 in r.owners
    requires entry.1 == r.owners[entry.0] && SameFields(entry.2, r.networked[entry.0].actor)
    ensures var (nid, owner, a) := entry;
      Mirrors(Intake(Register(prev.reg, nid, Tracked(a, FreshNc(nid, owner, a)), owner), prev.added + [a.id], None), init + [nid], r)
  {
  }

  lemma NoDupInit(ids: seq<string>)
    requires NoDup(ids) && |ids| > 0
    ensures NoDup(ids[..|ids| - 1]) && ids[|ids| - 1] !in ids[..|ids| - 1]
  {
    var init := ids[..|ids| - 1];
    forall i | 0 <= i < |init| ensures init[i] != ids[|ids| - 1] { assert init[i] == ids[i]; }
  }

  lemma SyncEntriesSnoc(ids: seq<string>, r: Registry, i: nat)
    requires i < |ids| && forall j :: 0 <= j < |ids| ==> ids[j] in r.networked
    ensures SyncEntries(ids[..i + 1], r) == SyncEntries(ids[..i], r) + [SyncEntry(ids[i], r.networked[ids[i]].actor, r.owners)]
  {
  }

  lemma SyncEntriesPrefix(ids: seq<string>, r: Registry, n: nat)
    requires n <= |ids| && forall i :: 0 <= i < |ids| ==> ids[i] in r.networked
    ensures SyncEntries(ids, r)[..n] == SyncEntries(ids[..n], r)
  {
  }

  lemma ReadSyncAt(ids: seq<string>, r: Registry, classes: map<(string, string), map<string, Value>>, uuids: nat -> string, uid: nat, n: nat)
    requires n < |ids| && forall i :: 0 <= i < |ids| ==> ids[i] in r.networked && ids[i] in r.owners && r.networked[ids[i]].actor.name != ""
    ensures var e := ReadAll(SyncEntries(ids, r), classes, uuids, uid)[n];
      e.Ok? && e.value.0 == ids[n] && e.value.1 == r.owners[ids[n]] && SameFields(e.value.2, r.networked[ids[n]].actor)
  {
    var items := SyncEntries(ids, r);
    var a := r.networked[ids[n]].actor;
    assert items[n] == SyncEntry(ids[n], a, r.owners);
    ReadSyncEntry(ids[n], a, r.owners, classes, uuids(n), uid);
  }

  /** The loop of _send_full_sync_to_client that builds the actors list. */
  method CollectSyncEntries(r: Registry) returns (entries: seq<Value>)
    requires forall j :: 0 <= j < |r.order| ==> r.order[j] in r.networked
    ensures entries == SyncEntries(r.order, r)
  {
    entries := [];
    for i := 0 to |r.order|
      invariant entries == SyncEntries(r.order[..i], r)
    {
      SyncEntriesSnoc(r.order, r, i);
      var nid := r.order[i];
      entries := entries + [SyncEntry(nid, r.networked[nid].actor, r.owners)];
    }
    TakeAll(r.order);
  }

  /** Receiving the full-sync entries of a list of distinct registered ids mirrors them. */
  lemma {:induction false} MirrorIds(ids: seq<string>, r: Registry, classes: map<(string, string), map<string, Value>>, uuids: nat -> string, uid: nat)
    requires NoDup(ids)
    requires forall i :: 0 <= i < |ids| ==> ids[i] in r.networked && ids[i] in r.owners && r.networked[ids[i]].actor.name != ""
    ensures Mirrors(ReceiveAll(EmptyRegistry(), SyncEntries(ids, r), classes, uuids, uid), ids, r)
    decreases |ids|
  {
    if |ids| > 0 {
      var n := |ids| - 1;
      var init := ids[..n];
      var nid := ids[n];
      NoDupInit(ids);
      MirrorIds(init, r, classes, uuids, uid);
      var items := SyncEntries(ids, r);
      SyncEntriesPrefix(ids, r, n);
      var es := ReadAll(items, classes, uuids, uid);
      ReadAllPrefix(items, classes, uuids, uid, n);
      var prev := RegisterAll(EmptyRegistry(), es[..n]);
      ReadSyncAt(ids, r, classes, uuids, uid, n);
      var entry := es[n].value;
      StepOk(EmptyRegistry(), es, n, entry);
      TakeAll(es);
      MirrorStep(prev, init, entry, r);
      assert init + [nid] == ids;
    }
  }

  /** A full sync sent from a registry and received into an empty one reproduces the registry's ids, order and owners. */
  lemma FullSyncMirrors(r: Registry, classes: map<(string, string), map<string, Value>>, uuids: nat -> string, uid: nat)
    requires RegOk(r) && forall k :: k in r.networked ==> r.networked[k].actor.name != ""
    ensures var got := ReceiveAll(EmptyRegistry(), SyncEntries(r.order, r), classes, uuids, uid);
      got.err.None? && got.reg.order == r.order && got.reg.owners == r.owners && got.reg.networked.Keys == r.networked.Keys
      && (forall k :: k in r.networked ==> SameFields(got.reg.networked[k].actor, r.networked[k].actor))
  {
    MirrorIds(r.order, r, classes, uuids, uid);
    MirrorsWhole(ReceiveAll(EmptyRegistry(), SyncEntries(r.order, r), classes, uuids, uid), r);
  }

  lemma MirrorsWhole(got: Intake, r: Registry)
    requires RegOk(r) && Mirrors(got, r.order, r)
    ensures got.reg.networked.Keys == r.networked.Keys && got.reg.owners == r.owners
  {
    assert got.reg.networked.Keys == r.networked.Keys;
  }

  /** The actors a full sync destroys: every registered one, in registry order. */
  function RegisteredActorIds(r: Registry): (s: seq<string>)
    requires RegOk(r)
    ensures |s| == |r.order|
  {
    seq(|r.order|, i requires 0 <= i < |r.order| => r.networked[r.order[i]].actor.id)
  }

  /** What the handlers need from the network manager and the clock. */
  datatype Env = Env(isServer: bool, isClient: bool, clientId: string, hasScene: bool,
                     classes: map<(string, string), map<string, Value>>, uuids: nat -> string, uid: nat)

  class NetworkedActorManager {
    var networked: map<string, Tracked>
    var owners: map<string, string>
    var order: seq<string>
    var scene: seq<string>
    var destroyed: seq<string>
    var outbox: seq<Outgoing>

    function Reg(): Registry
      reads this`networked, this`owners, this`order
    {
      Registry(networked, owners, order)
    }

    ghost predicate Valid()
      reads this`networked, this`owners, this`order
    {
      RegOk(Reg())
    }

    constructor()
      ensures Valid() && Reg() == EmptyRegistry() && scene == [] && destroyed == [] && outbox == []
    {
      networked, owners, order := map[], map[], [];
      scene, destroyed, outbox := [], [], [];
    }

    /** Registers an entry, adds `added` to the scene and sends `relay`. */
    method RegisterActor(nid: string, t: Tracked, owner: string, added: seq<string>, relay: seq<Outgoing>)
      requires Valid() && Fits(nid, t, owner)
      modifies this
      ensures Valid() && Reg() == Register(old(Reg()), nid, t, owner)
      ensures scene == old(scene) + added && destroyed == old(destroyed) && outbox == old(outbox) + relay
    {
      RegisterOk(Reg(), nid, t, owner);
      var r := Register(Reg(), nid, t, owner);
      networked, owners, order := r.networked, r.owners, r.order;
      scene, outbox := scene + added, outbox + relay;
    }

    /** Forgets an id, destroys the actor `gone` and sends `relay`. */
    method ForgetActor(nid: string, gone: string, relay: seq<Outgoing>)
      requires Valid()
      modifies this
      ensures Valid() && Reg() == Forget(old(Reg()), nid)
      ensures scene == old(scene) && destroyed == old(destroyed) + [gone] && outbox == old(outbox) + relay
    {
      ForgetOk(Reg(), nid);
      var r := Forget(Reg(), nid);
      networked, owners, order := r.networked, r.owners, r.order;
      destroyed, outbox := destroyed + [gone], outbox + relay;
    }

    /**
     * spawn_network_actor: refused when not connected; otherwise the
     * actor's NetworkComponent (a new one drawing network id `freshId`
     * when it has none) takes the owner, is registered, spawned and
     * announced.
     */
    method SpawnNetworkActor(a: NetActor, nc: Option<NcState>, ownerId: Option<string>, connected: bool, env: Env, freshId: string)
      returns (ok: bool, spawnedNc: NcState)
      requires Valid() && InSync(a.comps)
      modifies this
      ensures Valid()
      ensures ok == connected
      ensures !connected ==> Reg() == old(Reg()) && scene == old(scene) && destroyed == old(destroyed) && outbox == old(outbox)
      ensures connected ==>
        var owner := OwnerFor(ownerId, env);
        spawnedNc == SpawnedNc(a, nc, owner, freshId)
        && Reg() == Register(old(Reg()), spawnedNc.networkId, Tracked(a, spawnedNc), owner)
        && scene == old(scene) + (if env.hasScene then [a.id] else []) && destroyed == old(destroyed)
        && outbox == old(outbox) + [Outgoing(RouteFor(env.isServer, None), SpawnActor, SpawnPayload(spawnedNc.networkId, owner, a))]
    {
      if !connected {
        return false, NewNc(freshId, None, "blacklist");
      }
      var owner := OwnerFor(ownerId, env);
      spawnedNc := SpawnedNc(a, nc, owner, freshId);
      RegisterActor(spawnedNc.networkId, Tracked(a, spawnedNc), owner, if env.hasScene then [a.id] else [],
                    [Outgoing(RouteFor(env.isServer, None), SpawnActor, SpawnPayload(spawnedNc.networkId, owner, a))]);
      ok := true;
    }

    /** destroy_network_actor: only a spawned actor is announced, forgotten and destroyed. */
    method DestroyNetworkActor(a: NetActor, nc: Option<NcState>, env: Env) returns (ok: bool)
      requires Valid()
      modifies this
      ensures Valid()
      ensures ok <==> nc.Some? && nc.value.spawned
      ensures !ok ==> Reg() == old(Reg()) && scene == old(scene) && destroyed == old(destroyed) && outbox == old(outbox)
      ensures ok ==> (Reg() == Forget(old(Reg()), nc.value.networkId) && scene == old(scene)
        && destroyed == old(destroyed) + [a.id]
        && outbox == old(outbox) + [Outgoing(RouteFor(env.isServer, None), DestroyActor,
             VDict(map["network_id" := VStr(nc.value.networkId), "actor_id" := VStr(a.id)]))])
    {
      if nc.None? || !nc.value.spawned {
        return false;
      }
      var nid := nc.value.networkId;
      ForgetActor(nid, a.id, [Outgoing(RouteFor(env.isServer, None), DestroyActor, VDict(map["network_id" := VStr(nid), "actor_id" := VStr(a.id)]))]);
      ok := true;
    }

    /** request_full_sync: only a client asks. */
    method RequestFullSync(env: Env)
      modifies this
      ensures Reg() == old(Reg()) && scene == old(scene) && destroyed == old(destroyed)
      ensures outbox == old(outbox) + (if env.isClient then [Outgoing(ToServer, FullSyncRequest, VDict(map["client_id" := VStr(env.clientId)]))] else [])
    {
      if env.isClient {
        outbox := outbox + [Outgoing(ToServer, FullSyncRequest, VDict(map["client_id" := VStr(env.clientId)]))];
      }
    }

    /**
     * _handle_spawn_actor: an id already registered is ignored; otherwise
     * the actor is rebuilt, given a spawned NetworkComponent, registered,
     * and relayed by a server to everyone but the sender.
     */
    method HandleSpawnActor(data: Value, sender: string, env: Env) returns (err: Option<Error>)
      requires Valid()
      modifies this
      ensures Valid() && destroyed == old(destroyed)
      ensures var nid := StrField(data, "network_id");
        var owner := StrField(data, "owner_id");
        var actorData := Field(data, "actor_data");
        if nid.Err? || owner.Err? || actorData.Err? then
          err == Some(if nid.Err? then nid.error else if owner.Err? then owner.error else actorData.error)
          && Reg() == old(Reg()) && scene == old(scene) && outbox == old(outbox)
        else if nid.value in old(networked) then
          err.None? && Reg() == old(Reg()) && scene == old(scene) && outbox == old(outbox)
        else
          match DeserializeActor(actorData.value, env.classes, env.uuids(0), env.uid)
          case Err(e) => err == Some(e) && Reg() == old(Reg()) && scene == old(scene) && outbox == old(outbox)
          case Ok(a) =>
            err.None? && Reg() == Register(old(Reg()), nid.value, Tracked(a, FreshNc(nid.value, owner.value, a)), owner.value)
            && scene == old(scene) + (if env.hasScene then [a.id] else [])
            && outbox == old(outbox) + (if env.isServer then [Outgoing(ToAll(Some(sender)), SpawnActor, data)] else [])
    {
      var nid := StrField(data, "network_id");
      var owner := StrField(data, "owner_id");
      var actorData := Field(data, "actor_data");
      if nid.Err? {
        return Some(nid.error);
      }
      if owner.Err? {
        return Some(owner.error);
      }
      if actorData.Err? {
        return Some(actorData.error);
      }
      if nid.value in networked {
        return None;
      }
      var a := DeserializeActor(actorData.value, env.classes, env.uuids(0), env.uid);
      if a.Err? {
        return Some(a.error);
      }
      RegisterActor(nid.value, Tracked(a.value, FreshNc(nid.value, owner.value, a.value)), owner.value,
                    if env.hasScene then [a.value.id] else [],
                    if env.isServer then [Outgoing(ToAll(Some(sender)), SpawnActor, data)] else []);
      err := None;
    }

    /** _handle_destroy_actor: a registered id is forgotten, its actor destroyed, and a server relays the message. */
    method HandleDestroyActor(data: Value, sender: string, env: Env) returns (err: Option<Error>)
      requires Valid()
      modifies this
      ensures Valid() && scene == old(scene)
      ensures err.Some? <==> Field(data, "network_id").Err?
      ensures var nid := Field(data, "network_id");
        if nid.Ok? && nid.value.VStr? && nid.value.s in old(networked) then
          Reg() == Forget(old(Reg()), nid.value.s) && destroyed == old(destroyed) + [old(networked)[nid.value.s].actor.id]
          && outbox == old(outbox) + (if env.isServer then [Outgoing(ToAll(Some(sender)), DestroyActor, data)] else [])
        else Reg() == old(Reg()) && destroyed == old(destroyed) && outbox == old(outbox)
    {
      var nid := Field(data, "network_id");
      if nid.Err? {
        return Some(nid.error);
      }
      err := None;
      if nid.value.VStr? && nid.value.s in networked {
        ForgetActor(nid.value.s, networked[nid.value.s].actor.id,
                    if env.isServer then [Outgoing(ToAll(Some(sender)), DestroyActor, data)] else []);
      }
    }

    /**
     * _handle_component_update: applied only to a registered actor whose
     * NetworkComponent is owned by someone else; a server relays the
     * message unless applying it raised.
     */
    method HandleComponentUpdate(data: Value, sender: string, env: Env) returns (err: Option<Error>)
      requires Valid()
      modifies this
      ensures Valid() && scene == old(scene) && destroyed == old(destroyed) && owners == old(owners) && order == old(order)
      ensures var nid := Field(data, "network_id");
        var comps := Field(data, "components");
        var transform := Field(data, "transform");
        if nid.Err? || comps.Err? || transform.Err? then
          err == Some(if nid.Err? then nid.error else if comps.Err? then comps.error else transform.error)
          && networked == old(networked) && outbox == old(outbox)
        else
          (Foreign(nid.value, old(networked), env.clientId) ==>
            var u := Updated(old(networked)[nid.value.s], comps.value, transform.value);
            networked == old(networked)[nid.value.s := u.0] && err == u.1)
          && (!Foreign(nid.value, old(networked), env.clientId) ==> networked == old(networked) && err.None?)
          && outbox == old(outbox) + (if err.None? && env.isServer then [Outgoing(ToAll(Some(sender)), ComponentUpdate, data)] else [])
    {
      var nid := Field(data, "network_id");
      var comps := Field(data, "components");
      var transform := Field(data, "transform");
      if nid.Err? {
        return Some(nid.error);
      }
      if comps.Err? {
        return Some(comps.error);
      }
      if transform.Err? {
        return Some(transform.error);
      }
      err := ApplyIfForeign(nid.value, comps.value, transform.value, env.clientId,
                            if env.isServer then [Outgoing(ToAll(Some(sender)), ComponentUpdate, data)] else []);
    }

    /** The part of _handle_component_update after the fields are read. */
    method ApplyIfForeign(nid: Value, comps: Value, transform: Value, clientId: string, relay: seq<Outgoing>) returns (err: Option<Error>)
      requires Valid()
      modifies this`networked, this`outbox
      ensures Valid() && owners == old(owners) && order == old(order)
      ensures Foreign(nid, old(networked), clientId) ==>
        var u := Updated(old(networked)[nid.s], comps, transform);
        networked == old(networked)[nid.s := u.0] && err == u.1
      ensures !Foreign(nid, old(networked), clientId) ==> networked == old(networked) && err.None?
      ensures outbox == old(outbox) + (if err.None? then relay else [])
    {
      err := None;
      if Foreign(nid, networked, clientId) {
        err := UpdateActor(nid.s, comps, transform);
      }
      if err.None? {
        outbox := outbox + relay;
      }
    }

    /** Applies a component update to the entry under a registered id. */
    method UpdateActor(nid: string, comps: Value, transform: Value) returns (err: Option<Error>)
      requires Valid() && nid in networked
      modifies this`networked
      ensures Valid() && owners == old(owners) && order == old(order)
      ensures var u := Updated(old(networked)[nid], comps, transform);
        networked == old(networked)[nid := u.0] && err == u.1
    {
      var u := Updated(networked[nid], comps, transform);
      ReplaceOk(Reg(), nid, u.0);
      networked := networked[nid := u.0];
      err := u.1;
    }

    /** _send_full_sync_to_client: every registered actor with its id and owner, in registry order. */
    method SendFullSyncTo(client: string)
      requires Valid()
      modifies this
      ensures Valid() && Reg() == old(Reg()) && scene == old(scene) && destroyed == old(destroyed)
      ensures outbox == old(outbox) + [Outgoing(ToClient(client), FullSyncData, VDict(map["actors" := VList(SyncEntries(order, Reg()))]))]
    {
      var entries := CollectSyncEntries(Reg());
      outbox := outbox + [Outgoing(ToClient(client), FullSyncData, VDict(map["actors" := VList(entries)]))];
    }

    /** _handle_full_sync_request: only a server answers, to the sender. */
    method HandleFullSyncRequest(sender: string, env: Env)
      requires Valid()
      modifies this
      ensures Valid() && Reg() == old(Reg()) && scene == old(scene) && destroyed == old(destroyed)
      ensures outbox == old(outbox) + (if env.isServer then [Outgoing(ToClient(sender), FullSyncData, VDict(map["actors" := VList(SyncEntries(order, Reg()))]))] else [])
    {
      if env.isServer {
        SendFullSyncTo(sender);
      }
    }

    /** The loop of _handle_full_sync_data that destroys every registered actor. */
    method DestroyAll()
      requires Valid()
      modifies this
      ensures Valid() && Reg() == old(Reg()) && scene == old(scene) && outbox == old(outbox)
      ensures destroyed == old(destroyed) + RegisteredActorIds(Reg())
    {
      var r := Reg();
      var gone := RegisteredActorIds(r);
      for i := 0 to |r.order|
        invariant Reg() == r && scene == old(scene) && outbox == old(outbox)
        invariant destroyed == old(destroyed) + gone[..i]
      {
        assert gone[..i + 1] == gone[..i] + [r.networked[r.order[i]].actor.id];
        destroyed := destroyed + [r.networked[r.order[i]].actor.id];
      }
      assert gone[..|r.order|] == gone;
    }

    /** The loop of _handle_full_sync_data that registers the received actors. */
    method ReceiveActors(items: seq<Value>, env: Env) returns (err: Option<Error>)
      requires Valid()
      modifies this
      ensures Valid() && destroyed == old(destroyed) && outbox == old(outbox)
      ensures var got := ReceiveAll(old(Reg()), items, env.classes, env.uuids, env.uid);
        Reg() == got.reg && err == got.err && scene == old(scene) + (if env.hasScene then got.added else [])
    {
      err := RegisterEntries(ReadAll(items, env.classes, env.uuids, env.uid), env.hasScene);
    }

    /** The same loop over the entries as read; the first that raised stops it. */
    method RegisterEntries(es: seq<Result<(string, string, NetActor)>>, hasScene: bool) returns (err: Option<Error>)
      requires Valid() && forall j :: 0 <= j < |es| && es[j].Ok? ==> InSync(es[j].value.2.comps)
      modifies this
      ensures Valid() && destroyed == old(destroyed) && outbox == old(outbox)
      ensures var got := RegisterAll(old(Reg()), es);
        Reg() == got.reg && err == got.err && scene == old(scene) + (if hasScene then got.added else [])
    {
      err := None;
      var added: seq<string> := [];
      ghost var got := Intake(Reg(), [], None);
      var i := 0;
      while i < |es| && err.None?
        invariant 0 <= i <= |es| && Valid()
        invariant got == RegisterAll(old(Reg()), es[..i])
        invariant Reg() == got.reg && added == got.added && err == got.err
        invariant scene == old(scene) + (if hasScene then added else [])
        invariant destroyed == old(destroyed) && outbox == old(outbox)
        decreases |es| - i
      {
        var entry := es[i];
        if entry.Err? {
          StepFails(old(Reg()), es, i, entry.error);
          err := Some(entry.error);
          got := got.(err := err);
        } else {
          StepOk(old(Reg()), es, i, entry.value);
          var e := entry.value;
          RegisterActor(e.0, Received(e), e.1, if hasScene then [e.2.id] else [], []);
          added := added + [e.2.id];
          got := Admit(got, e);
        }
        i := i + 1;
      }
      if err.Some? {
        RegisterStops(old(Reg()), es, i);
      } else {
        TakeAll(es);
      }
    }

    /**
     * _handle_full_sync_data: every registered actor is destroyed, both
     * maps are cleared, and each received entry is registered in turn.
     */
    method HandleFullSyncData(data: Value, env: Env) returns (err: Option<Error>)
      requires Valid()
      modifies this
      ensures Valid() && outbox == old(outbox)
      ensures !data.VDict? ==> err.Some? && Reg() == old(Reg()) && scene == old(scene) && destroyed == old(destroyed)
      ensures data.VDict? ==> destroyed == old(destroyed) + RegisteredActorIds(old(Reg()))
      ensures data.VDict? && ActorsList(data).Some? ==>
        var got := ReceiveAll(EmptyRegistry(), ActorsList(data).value, env.classes, env.uuids, env.uid);
        Reg() == got.reg && err == got.err && scene == old(scene) + (if env.hasScene then got.added else [])
      ensures data.VDict? && ActorsList(data).None? ==> err.Some? && Reg() == EmptyRegistry() && scene == old(scene)
    {
      if !data.VDict? {
        return Some(TypeError("data"));
      }
      DestroyAll();
      networked, owners, order := map[], map[], [];
      var items := ActorsList(data);
      if items.None? {
        return Some(TypeError("actors"));
      }
      err := ReceiveActors(items.value, env);
    }

    /**
     * enhanced_handle_message: spawn, destroy, component update,
     * full-sync data and full-sync request go to this manager; every other
     * type is left to the network manager's own handler.
     */
    method HandleMessage(m: Message, sender: string, env: Env) returns (handled: bool, err: Option<Error>)
      requires Valid()
      modifies this
      ensures Valid()
      ensures handled <==> m.mtype in {SpawnActor, DestroyActor, ComponentUpdate, FullSyncData, FullSyncRequest}
      ensures !handled ==> Reg() == old(Reg()) && scene == old(scene) && destroyed == old(destroyed) && outbox == old(outbox)
      ensures !handled ==> err.None?
      ensures m.mtype == SpawnActor ==>
        destroyed == old(destroyed) &&
        var nid := StrField(m.data, "network_id");
        var owner := StrField(m.data, "owner_id");
        var actorData := Field(m.data, "actor_data");
        if nid.Err? || owner.Err? || actorData.Err? then
          err == Some(if nid.Err? then nid.error else if owner.Err? then owner.error else actorData.error)
          && Reg() == old(Reg()) && scene == old(scene) && outbox == old(outbox)
        else if nid.value in old(networked) then
          err.None? && Reg() == old(Reg()) && scene == old(scene) && outbox == old(outbox)
        else
          match DeserializeActor(actorData.value, env.classes, env.uuids(0), env.uid)
          case Err(e) => err == Some(e) && Reg() == old(Reg()) && scene == old(scene) && outbox == old(outbox)
          case Ok(a) =>
            err.None? && Reg() == Register(old(Reg()), nid.value, Tracked(a, FreshNc(nid.value, owner.value, a)), owner.value)
            && scene == old(scene) + (if env.hasScene then [a.id] else [])
            && outbox == old(outbox) + (if env.isServer then [Outgoing(ToAll(Some(sender)), SpawnActor, m.data)] else [])
      ensures m.mtype == DestroyActor ==>
        scene == old(scene) && (err.Some? <==> Field(m.data, "network_id").Err?) &&
        var nid := Field(m.data, "network_id");
        if nid.Ok? && nid.value.VStr? && nid.value.s in old(networked) then
          Reg() == Forget(old(Reg()), nid.value.s) && destroyed == old(destroyed) + [old(networked)[nid.value.s].actor.id]
          && outbox == old(outbox) + (if env.isServer then [Outgoing(ToAll(Some(sender)), DestroyActor, m.data)] else [])
        else Reg() == old(Reg()) && destroyed == old(destroyed) && outbox == old(outbox)
      ensures m.mtype == ComponentUpdate ==>
        scene == old(scene) && destroyed == old(destroyed) && owners == old(owners) && order == old(order) &&
        var nid := Field(m.data, "network_id");
        var comps := Field(m.data, "components");
        var transform := Field(m.data, "transform");
        if nid.Err? || comps.Err? || transform.Err? then
          err == Some(if nid.Err? then nid.error else if comps.Err? then comps.error else transform.error)
          && networked == old(networked) && outbox == old(outbox)
        else
          (Foreign(nid.value, old(networked), env.clientId) ==>
            var u := Updated(old(networked)[nid.value.s], comps.value, transform.value);
            networked == old(networked)[nid.value.s := u.0] && err == u.1)
          && (!Foreign(nid.value, old(networked), env.clientId) ==> networked == old(networked) && err.None?)
          && outbox == old(outbox) + (if err.None? && env.isServer then [Outgoing(ToAll(Some(sender)), ComponentUpdate, m.data)] else [])
      ensures m.mtype == FullSyncData ==>
        outbox == old(outbox) &&
        (!m.data.VDict? ==> err.Some? && Reg() == old(Reg()) && scene == old(scene) && destroyed == old(destroyed)) &&
        (m.data.VDict? ==> destroyed == old(destroyed) + RegisteredActorIds(old(Reg()))) &&
        (m.data.VDict? && ActorsList(m.data).Some? ==>
          var got := ReceiveAll(EmptyRegistry(), ActorsList(m.data).value, env.classes, env.uuids, env.uid);
          Reg() == got.reg && err == got.err && scene == old(scene) + (if env.hasScene then got.added else [])) &&
        (m.data.VDict? && ActorsList(m.data).None? ==> err.Some? && Reg() == EmptyRegistry() && scene == old(scene))
      ensures m.mtype == FullSyncRequest ==>
        err.None? && Reg() == old(Reg()) && scene == old(scene) && destroyed == old(destroyed)
        && outbox == old(outbox) + (if env.isServer then [Outgoing(ToClient(sender), FullSyncData, VDict(map["actors" := VList(SyncEntries(old(order), old(Reg())))]))] else [])
    {
      handled, err := true, None;
      match m.mtype
      case SpawnActor => err := HandleSpawnActor(m.data, sender, env);
      case DestroyActor => err := HandleDestroyActor(m.data, sender, env);
      case ComponentUpdate => err := HandleComponentUpdate(m.data, sender, env);
      case FullSyncData => err := HandleFullSyncData(m.data, env);
      case FullSyncRequest => HandleFullSyncRequest(sender, env);
      case _ => handled := false;
    }
  }

  /**
   * A component update applied to a tracked actor: the actor after
   * apply_component_update, and the NetworkComponent's captured states
   * renewed when nothing raised.
   */
  function Updated(t: Tracked, comps: Value, transform: Value): (r: (Tracked, Option<Error>))
    requires InSync(t.actor.comps)
    ensures InSync(r.0.actor.comps) && r.0.actor.id == t.actor.id
    ensures r.0.nc.networkId == t.nc.networkId && r.0.nc.ownerId == t.nc.ownerId && r.0.nc.spawned == t.nc.spawned
    ensures r.0.nc.policy == t.nc.policy && r.0.nc.lastSyncTime == t.nc.lastSyncTime
    ensures r.1.None? ==> r.0.nc.lastStates == States(t.nc.policy, r.0.actor.comps.list)
    ensures r.1.Some? ==> r.0.nc == t.nc
  {
    var applied := ApplyUpdate(t.nc.policy, t.actor, comps, transform);
    var nc := if applied.1.None? then t.nc.(lastStates := States(t.nc.policy, applied.0.comps.list)) else t.nc;
    (Tracked(applied.0, nc), applied.1)
  }

  /** The id names a registered actor whose NetworkComponent another peer owns. */
  predicate Foreign(nid: Value, networked: map<string, Tracked>, clientId: string)
  {
    nid.VStr? && nid.s in networked && networked[nid.s].nc.ownerId != clientId
  }

  /** The owner spawn_network_actor records: the one given, else "server" on a server and the client id on a client. */
  function OwnerFor(ownerId: Option<string>, env: Env): (r: string)
    ensures r == "server" || Some(r) == ownerId || (!env.isServer && r == env.clientId)
    ensures (ownerId.Some? ==> ownerId.value != "") && env.clientId != "" ==> r != ""
  {
    if ownerId.Some? then ownerId.value else if env.isServer then "server" else env.clientId
  }

  /** The NetworkComponent after spawn_network_actor: a new one (states captured on adding) or the existing one, with the owner, spawned. */
  function SpawnedNc(a: NetActor, nc: Option<NcState>, owner: string, freshId: string): (r: NcState)
    ensures r.spawned && OwnerAgrees(owner, r.ownerId)
    ensures nc.Some? ==> r == nc.value.(ownerId := owner, spawned := true)
  {
    if nc.None? then NewNc(freshId, Some(owner), "blacklist").(lastStates := States(SyncPolicy("blacklist", {}, {}), a.comps.list), spawned := true)
    else nc.value.(ownerId := owner, spawned := true)
  }

  /** The spawn message's data: what _handle_spawn_actor reads back from it is what was sent. */
  function SpawnPayload(nid: string, owner: string, a: NetActor): (r: Value)
    ensures StrField(r, "network_id") == Ok(nid) && StrField(r, "owner_id") == Ok(owner)
    ensures Field(r, "actor_data") == Ok(SerializeActor(a))
  {
    VDict(map["network_id" := VStr(nid), "owner_id" := VStr(owner), "actor_data" := SerializeActor(a)])
  }

  /** message.data.get('actors', []) as the loop iterates it; None where iterating raises TypeError. */
  function ActorsList(data: Value): (r: Option<seq<Value>>)
    requires data.VDict?
    ensures "actors" !in data.entries ==> r == Some([])
    ensures r.None? ==> "actors" in data.entries && !data.entries["actors"].VList? && !data.entries["actors"].VTuple?
    ensures r.Some? && |r.value| > 0 ==> data.entries["actors"].VList? || data.entries["actors"].VTuple?
  {
    var v := if "actors" in data.entries then data.entries["actors"] else VList([]);
    match v
    case VList(items) => Some(items)
    case VTuple(elems) => Some(elems)
    case VDict(m) => if |m| == 0 then Some([]) else None
    case VStr(s) => if s == "" then Some([]) else None
    case _ => None
  }
}
