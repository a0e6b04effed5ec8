/**
 * engine/networking.py: network roles and message types, the message
 * container and its dict form, and the NetworkManager's connection
 * bookkeeping, routing and sending. Sockets and threads are replaced by
 * each connection's outbound queue; the clock and uuid4 are parameters.
 */
module Networking {
  import opened Wrappers
  import opened Values

  datatype Role = Server | Client | NoRole

  datatype MessageType =
    | ConnectRequest | ConnectResponse | Disconnect
    | SpawnActor | DestroyActor | ActorUpdate
    | ComponentUpdate | ComponentAdd | ComponentRemove
    | SceneChange | FullSyncRequest | FullSyncData
    | Ping | Pong

  /** The enum value each message type is sent as. */
  function TypeValue(t: MessageType): string
  {
    match t
    case ConnectRequest => "connect_request"
    case ConnectResponse => "connect_response"
    case Disconnect => "disconnect"
    case SpawnActor => "spawn_actor"
    case DestroyActor => "destroy_actor"
    case ActorUpdate => "actor_update"
    case ComponentUpdate => "component_update"
    case ComponentAdd => "component_add"
    case ComponentRemove => "component_remove"
    case SceneChange => "scene_change"
    case FullSyncRequest => "full_sync_request"
    case FullSyncData => "full_sync_data"
    case Ping => "ping"
    case Pong => "pong"
  }

  /** MessageType(s): the type whose value is s, None where Python raises ValueError. */
  function ParseType(s: string): (r: Option<MessageType>)
    ensures forall t :: r == Some(t) <==> TypeValue(t) == s
  {
    if s == "connect_request" then Some(ConnectRequest)
    else if s == "connect_response" then Some(ConnectResponse)
    else if s == "disconnect" then Some(Disconnect)
    else if s == "spawn_actor" then Some(SpawnActor)
    else if s == "destroy_actor" then Some(DestroyActor)
    else if s == "actor_update" then Some(ActorUpdate)
    else if s == "component_update" then Some(ComponentUpdate)
    else if s == "component_add" then Some(ComponentAdd)
    else if s == "component_remove" then Some(ComponentRemove)
    else if s == "scene_change" then Some(SceneChange)
    else if s == "full_sync_request" then Some(FullSyncRequest)
    else if s == "full_sync_data" then Some(FullSyncData)
    else if s == "ping" then Some(Ping)
    else if s == "pong" then Some(Pong)
    else None
  }

  /** A NetworkMessage; sender_id and timestamp are whatever the dict held. */
  datatype Message = Message(mtype: MessageType, data: Value, senderId: Value, timestamp: Value, id: string)

  /** The NetworkMessage constructor: a missing or falsy timestamp becomes the clock, and the id is a fresh uuid. */
  function NewMessage(t: MessageType, data: Value, senderId: Value, timestamp: Value, now: real, id: string): (m: Message)
    ensures m.mtype == t && m.data == data && m.senderId == senderId && m.id == id
    ensures Truthy(timestamp) ==> m.timestamp == timestamp
    ensures !Truthy(timestamp) ==> m.timestamp == VFloat(now)
  {
    Message(t, data, senderId, if Truthy(timestamp) then timestamp else VFloat(now), id)
  }

  /** NetworkMessage.to_dict. */
  function ToDict(m: Message): (r: Value)
    ensures r.VDict? && r.entries.Keys == {"type", "data", "sender_id", "timestamp", "id"}
  {
    VDict(map["type" := VStr(TypeValue(m.mtype)), "data" := m.data, "sender_id" := m.senderId,
              "timestamp" := m.timestamp, "id" := VStr(m.id)])
  }

  /** dict.get(key) with the default None. */
  function Get(m: map<string, Value>, k: string): (r: Value)
    ensures k in m ==> r == m[k]
    ensures k !in m ==> r == VNone
  {
    if k in m then m[k] else VNone
  }

  /** NetworkMessage.from_dict, with the exception Python would raise. */
  function FromDict(d: Value, now: real, id: string): (r: Result<Message>)
    ensures r.Ok? <==> (d.VDict? && "type" in d.entries && "data" in d.entries && d.entries["type"].VStr?
      && ParseType(d.entries["type"].s).Some?)
    ensures r.Ok? ==> TypeValue(r.value.mtype) == d.entries["type"].s && r.value.data == d.entries["data"] && r.value.id == id
  {
    if !d.VDict? then Err(TypeError("message"))
    else if "type" !in d.entries then Err(KeyError("type"))
    else if !d.entries["type"].VStr? || ParseType(d.entries["type"].s).None? then Err(ValueError("type"))
    else if "data" !in d.entries then Err(KeyError("data"))
    else Ok(NewMessage(ParseType(d.entries["type"].s).value, d.entries["data"], Get(d.entries, "sender_id"),
                       Get(d.entries, "timestamp"), now, id))
  }

  /** from_dict(to_dict(m)) keeps type, data, sender and a truthy timestamp; the id is always fresh. */
  lemma MessageRoundTrip(m: Message, now: real, id: string)
    requires Truthy(m.timestamp)
    ensures FromDict(ToDict(m), now, id) == Ok(m.(id := id))
  {
    assert ParseType(TypeValue(m.mtype)) == Some(m.mtype);
  }

  /** A message stamped 0.0 comes back stamped with the receiver's clock. */
  lemma ZeroTimestampIsRestamped(m: Message, now: real, id: string)
    requires m.timestamp == VFloat(0.0)
    ensures FromDict(ToDict(m), now, id).Ok?
    ensures FromDict(ToDict(m), now, id).value.timestamp == VFloat(now)
  {
    assert ParseType(TypeValue(m.mtype)) == Some(m.mtype);
  }

  // ---------------------------------------------------------------------
  // Connections

  /** An outbound queue entry; Shutdown is the None that stops the send thread. */
  datatype QueueItem = Send(msg: Message) | Shutdown

  /** A NetworkClient: its current id, whether it is connected, its last pong and its outbound queue. */
  datatype Conn = Conn(clientId: string, connected: bool, lastPing: real, queue: seq<QueueItem>)

  function NewConn(id: string, now: real): Conn
  {
    Conn(id, true, now, [])
  }

  /** NetworkClient.send_message: the message is queued only while connected. */
  function SendOn(c: Conn, m: Message): (r: Conn)
    ensures r.clientId == c.clientId && r.connected == c.connected && r.lastPing == c.lastPing
    ensures c.connected ==> r.queue == c.queue + [Send(m)]
    ensures !c.connected ==> r == c
  {
    if c.connected then c.(queue := c.queue + [Send(m)]) else c
  }

  /** NetworkClient.disconnect: no longer connected, and the shutdown signal is queued. */
  function Disconnected(c: Conn): (r: Conn)
    ensures !r.connected && r.queue == c.queue + [Shutdown] && r.clientId == c.clientId
  {
    c.(connected := false, queue := c.queue + [Shutdown])
  }

  /** No two client ids share one connection. */
  predicate Injective(clients: map<string, nat>)
  {
    forall k, k' :: k in clients && k' in clients && clients[k] == clients[k'] ==> k == k'
  }

  /** The connection h is registered under some id other than `exclude`. */
  predicate Targeted(clients: map<string, nat>, h: nat, exclude: Option<string>)
  {
    exists id :: id in clients && clients[id] == h && Some(id) != exclude
  }

  /** A message queued on every registered connection except the excluded id's. */
  function BroadcastTo(clients: map<string, nat>, conns: map<nat, Conn>, m: Message, exclude: Option<string>): (r: map<nat, Conn>)
    ensures r.Keys == conns.Keys
  {
    map h | h in conns :: if Targeted(clients, h, exclude) then SendOn(conns[h], m) else conns[h]
  }

  /** Each registered client but the excluded one is sent the message; the excluded one is not. */
  lemma BroadcastReaches(clients: map<string, nat>, conns: map<nat, Conn>, m: Message, exclude: Option<string>, id: string)
    requires Injective(clients) && id in clients && clients[id] in conns
    ensures Some(id) != exclude ==> BroadcastTo(clients, conns, m, exclude)[clients[id]] == SendOn(conns[clients[id]], m)
    ensures Some(id) == exclude ==> BroadcastTo(clients, conns, m, exclude)[clients[id]] == conns[clients[id]]
  {
    var h := clients[id];
    if Some(id) != exclude {
      assert Targeted(clients, h, exclude);
    }
  }

  /** A connection that is not a registered client receives nothing from a broadcast. */
  lemma BroadcastSkipsStrangers(clients: map<string, nat>, conns: map<nat, Conn>, m: Message, exclude: Option<string>, h: nat)
    requires h in conns && h !in clients.Values
    ensures BroadcastTo(clients, conns, m, exclude)[h] == conns[h]
  {
    assert !Targeted(clients, h, exclude) by {
      forall id | id in clients ensures clients[id] != h {
        assert clients[id] in clients.Values;
      }
    }
  }

  /** Every registered connection is told to shut down; the others are left alone. */
  function DisconnectAll(clients: map<string, nat>, conns: map<nat, Conn>): (r: map<nat, Conn>)
    ensures r.Keys == conns.Keys
    ensures forall h :: h in conns && h in clients.Values ==> r[h] == Disconnected(conns[h])
    ensures forall h :: h in conns && h !in clients.Values ==> r[h] == conns[h]
  {
    map h | h in conns :: if h in clients.Values then Disconnected(conns[h]) else conns[h]
  }

  /** The periodic ping: a client not heard from for more than five seconds is pinged. */
  function PingStale(clients: map<string, nat>, conns: map<nat, Conn>, now: real, pingId: nat -> string): (r: map<nat, Conn>)
    ensures r.Keys == conns.Keys
    ensures forall h :: h in conns && h in clients.Values && now - conns[h].lastPing > 5.0 ==>
      r[h] == SendOn(conns[h], PingMessage(now, pingId(h)))
    ensures forall h :: h in conns && !(h in clients.Values && now - conns[h].lastPing > 5.0) ==> r[h] == conns[h]
  {
    map h | h in conns :: if h in clients.Values && now - conns[h].lastPing > 5.0 then SendOn(conns[h], PingMessage(now, pingId(h))) else conns[h]
  }

  function PingMessage(now: real, id: string): Message
  {
    NewMessage(Ping, VDict(map["timestamp" := VFloat(now)]), VNone, VNone, now, id)
  }

  // ---------------------------------------------------------------------
  // Dropping a client

  /**
   * _on_client_disconnected as written: the entry under the connection's
   * current client_id is removed.
   */
  function DropAsWritten(clients: map<string, nat>, c: Conn): (r: map<string, nat>)
    ensures r.Keys == clients.Keys - {c.clientId}
  {
    if c.clientId in clients then clients - {c.clientId} else clients
  }

  /** A connection accepted under a server-chosen id, which then announced its own id. */
  lemma RenamedClientIsNeverDropped()
    ensures var clients := map["k1" := 0];
      var c := Conn("c1", false, 0.0, []);
      DropAsWritten(clients, c) == clients && 0 in DropAsWritten(clients, c).Values
  {
    var clients := map["k1" := 0];
    assert clients["k1"] == 0;
  }

  /** The intended rule: whatever id it is registered under, the connection's entry goes. */
  function DropConnection(clients: map<string, nat>, h: nat): (r: map<string, nat>)
    ensures forall k :: k in r <==> k in clients && clients[k] != h
    ensures forall k :: k in r ==> r[k] == clients[k]
    ensures h !in r.Values
  {
    map k | k in clients && clients[k] != h :: clients[k]
  }

  /** Dropping a registered connection frees exactly one slot. */
  lemma DropFreesOneSlot(clients: map<string, nat>, h: nat)
    requires Injective(clients) && h in clients.Values
    ensures |DropConnection(clients, h)| == |clients| - 1
  {
    var k :| k in clients && clients[k] == h;
    assert DropConnection(clients, h).Keys == clients.Keys - {k};
  }

  // ---------------------------------------------------------------------
  // The manager

  /** Every field of a NetworkManager that its methods change. */
  datatype NetState = NetState(
    role: Role, maxPlayers: int, isRunning: bool, lastUpdateTime: real,
    hasServerSocket: bool, hasClientSocket: bool,
    clients: map<string, nat>, conns: map<nat, Conn>, serverConn: Option<nat>)

  /** Client entries and the server connection name known connections, one per id. */
  predicate Wired(s: NetState)
  {
    (forall k :: k in s.clients ==> s.clients[k] in s.conns) && Injective(s.clients)
    && (s.serverConn.Some? ==> s.serverConn.value in s.conns)
  }

  class NetworkManager {
    var role: Role
    var maxPlayers: int
    var isRunning: bool
    var lastUpdateTime: real
    var hasServerSocket: bool
    var hasClientSocket: bool
    /** The clients dict: client id to connection. */
    var clients: map<string, nat>
    /** Every connection object, by handle. */
    var conns: map<nat, Conn>
    /** server_client, on a client. */
    var serverConn: Option<nat>
    const clientId: string
    const updateRate: real := 20.0

    function Snap(): NetState
      reads this
    {
      NetState(role, maxPlayers, isRunning, lastUpdateTime, hasServerSocket, hasClientSocket, clients, conns, serverConn)
    }

    predicate Valid()
      reads this
    {
      Wired(Snap())
    }

    constructor(id: string)
      ensures Valid() && clientId == id
      ensures Snap() == NetState(NoRole, 4, false, 0.0, false, false, map[], map[], None)
    {
      role := NoRole;
      maxPlayers := 4;
      isRunning := false;
      lastUpdateTime := 0.0;
      hasServerSocket := false;
      hasClientSocket := false;
      clients := map[];
      conns := map[];
      serverConn := None;
      clientId := id;
    }

    predicate IsServer()
      reads this
    {
      role == Server
    }

    predicate IsClient()
      reads this
    {
      role == Client
    }

    /** A server while running; a client while its server connection is up; otherwise never. */
    predicate IsConnected()
      reads this
      ensures role == NoRole ==> !IsConnected()
      ensures IsServer() ==> (IsConnected() <==> isRunning)
    {
      if role == Server then isRunning
      else if role == Client then serverConn.Some? && serverConn.value in conns && conns[serverConn.value].connected
      else false
    }

    method SetMaxPlayers(n: int)
      modifies this
      ensures Snap() == old(Snap()).(maxPlayers := n)
    {
      maxPlayers := n;
    }

    /** host: `bound` says whether the socket could be bound. */
    method Host(bound: bool) returns (ok: bool)
      modifies this
      ensures ok <==> old(role) == NoRole && bound
      ensures ok ==> Snap() == old(Snap()).(role := Server, isRunning := true, hasServerSocket := true)
      ensures !ok ==> Snap() == old(Snap())
    {
      if role != NoRole {
        return false;
      }
      if !bound {
        return false;
      }
      hasServerSocket := true;
      role := Server;
      isRunning := true;
      ok := true;
    }

    /**
     * connect: `reached` says whether the server accepted the socket; the
     * new connection gets handle h, and the connect request carries this
     * manager's client id.
     */
    method Connect(reached: bool, h: nat, now: real, msgId: string) returns (ok: bool)
      requires Valid() && h !in conns
      modifies this
      ensures Valid()
      ensures ok <==> old(role) == NoRole && reached
      ensures !ok ==> Snap() == old(Snap())
      ensures ok ==> Snap() == old(Snap()).(role := Client, isRunning := true, hasClientSocket := true, serverConn := Some(h),
        conns := old(conns)[h := SendOn(NewConn("server", now), ConnectRequestMessage(clientId, now, msgId))])
    {
      if role != NoRole {
        return false;
      }
      if !reached {
        return false;
      }
      hasClientSocket := true;
      conns := conns[h := NewConn("server", now)];
      serverConn := Some(h);
      role := Client;
      isRunning := true;
      conns := conns[h := SendOn(conns[h], ConnectRequestMessage(clientId, now, msgId))];
      ok := true;
    }

    /** disconnect: a no-op unless running; always ends with role NONE. */
    method Disconnect(now: real, msgId: string)
      requires Valid()
      modifies this
      ensures Valid()
      ensures !old(isRunning) ==> Snap() == old(Snap())
      ensures old(isRunning) ==> role == NoRole && !isRunning
      ensures old(isRunning) && old(role) == Server ==>
        Snap() == old(Snap()).(role := NoRole, isRunning := false, clients := map[],
          conns := DisconnectAll(old(clients), old(conns)), hasServerSocket := false)
      ensures old(isRunning) && old(role) == Client ==>
        Snap() == old(Snap()).(role := NoRole, isRunning := false, serverConn := None, hasClientSocket := false,
          conns := if old(serverConn).Some?
            then old(conns)[old(serverConn).value := Disconnected(SendOn(old(conns)[old(serverConn).value],
              NewMessage(MessageType.Disconnect, VDict(map["client_id" := VStr(clientId)]), VNone, VNone, now, msgId)))]
            else old(conns))
      ensures old(isRunning) && old(role) == NoRole ==> Snap() == old(Snap()).(isRunning := false)
    {
      if !isRunning {
        return;
      }
      isRunning := false;
      if role == Server {
        conns := DisconnectAll(clients, conns);
        clients := map[];
        hasServerSocket := false;
      } else if role == Client {
        if serverConn.Some? {
          var h := serverConn.value;
          var bye := NewMessage(MessageType.Disconnect, VDict(map["client_id" := VStr(clientId)]), VNone, VNone, now, msgId);
          conns := conns[h := Disconnected(SendOn(conns[h], bye))];
          serverConn := None;
        }
        hasClientSocket := false;
      }
      role := NoRole;
    }

    /**
     * One turn of _listen_for_connections: a full server closes the new
     * socket; otherwise the connection is registered under a fresh id.
     */
    method AcceptConnection(h: nat, newId: string, now: real) returns (accepted: bool)
      requires Valid() && h !in conns
      modifies this
      ensures Valid()
      ensures accepted <==> |old(clients)| < old(maxPlayers) - 1
      ensures !accepted ==> Snap() == old(Snap())
      ensures accepted ==> Snap() == old(Snap()).(clients := old(clients)[newId := h], conns := old(conns)[h := NewConn(newId, now)])
      ensures accepted ==> |clients| <= maxPlayers - 1
    {
      if |clients| >= maxPlayers - 1 {
        return false;
      }
      conns := conns[h := NewConn(newId, now)];
      clients := clients[newId := h];
      accepted := true;
    }

    /** _handle_message: each message type goes to its handler. */
    method HandleMessage(m: Message, sender: nat, now: real, msgId: string)
      requires Valid() && sender in conns
      modifies this
      ensures Valid()
      ensures m.mtype == ConnectRequest || m.mtype == MessageType.Disconnect || m.mtype == Ping || m.mtype == Pong || Snap() == old(Snap())
      ensures m.mtype == ConnectRequest ==>
        var id := ClaimedId(m);
        if old(role) == Server && id.Some? then
          Snap() == old(Snap()).(conns := old(conns)[sender := SendOn(old(conns)[sender].(clientId := id.value),
            ConnectResponseMessage(id.value, now, msgId))])
        else Snap() == old(Snap())
      ensures m.mtype == MessageType.Disconnect ==>
        var id := ClaimedId(m);
        if id.Some? && id.value in old(clients) then Snap() == old(Snap()).(clients := DropConnection(old(clients), old(clients)[id.value]))
        else Snap() == old(Snap())
      ensures m.mtype == Ping ==>
        Snap() == old(Snap()).(conns := old(conns)[sender := SendOn(old(conns)[sender],
          NewMessage(Pong, VDict(map["timestamp" := m.timestamp]), VNone, VNone, now, msgId))])
      ensures m.mtype == Pong ==> Snap() == old(Snap()).(conns := old(conns)[sender := old(conns)[sender].(lastPing := now)])
    {
      match m.mtype
      case ConnectRequest => HandleConnectRequest(m, sender, now, msgId);
      case Disconnect => HandleDisconnect(m);
      case Ping => HandlePing(m, sender, now, msgId);
      case Pong => HandlePong(sender, now);
      // spawn, destroy, actor and component updates and full sync data are
      // handled by the networked actor manager; full_sync_request and
      // scene_change reach only hooks that this class leaves empty
      case _ =>
    }

    /**
     * _handle_connect_request: on a server, a request naming a client id
     * renames the sender and answers it. The clients dict keeps the id
     * the connection was accepted under.
     */
    method HandleConnectRequest(m: Message, sender: nat, now: real, msgId: string)
      requires Valid() && sender in conns
      modifies this
      ensures Valid()
      ensures var id := ClaimedId(m);
        if old(role) == Server && id.Some? then
          Snap() == old(Snap()).(conns := old(conns)[sender := SendOn(old(conns)[sender].(clientId := id.value),
            ConnectResponseMessage(id.value, now, msgId))])
        else Snap() == old(Snap())
    {
      if role != Server {
        return;
      }
      var id := ClaimedId(m);
      if id.Some? {
        conns := conns[sender := SendOn(conns[sender].(clientId := id.value), ConnectResponseMessage(id.value, now, msgId))];
      }
    }

    /** _handle_disconnect: the named client, when registered, is dropped. */
    method HandleDisconnect(m: Message)
      requires Valid()
      modifies this
      ensures Valid()
      ensures var id := ClaimedId(m);
        if id.Some? && id.value in old(clients) then Snap() == old(Snap()).(clients := DropConnection(old(clients), old(clients)[id.value]))
        else Snap() == old(Snap())
    {
      var id := ClaimedId(m);
      if id.Some? && id.value in clients {
        OnClientDisconnected(clients[id.value]);
      }
    }

    /** _on_client_disconnected, dropping the connection's own entry (see DropAsWritten). */
    method OnClientDisconnected(h: nat)
      requires Valid()
      modifies this
      ensures Valid()
      ensures Snap() == old(Snap()).(clients := DropConnection(old(clients), h))
    {
      clients := DropConnection(clients, h);
    }

    /** _handle_ping: the sender is answered with a pong carrying the ping's timestamp. */
    method HandlePing(m: Message, sender: nat, now: real, msgId: string)
      requires Valid() && sender in conns
      modifies this
      ensures Valid()
      ensures Snap() == old(Snap()).(conns := old(conns)[sender := SendOn(old(conns)[sender],
        NewMessage(Pong, VDict(map["timestamp" := m.timestamp]), VNone, VNone, now, msgId))])
    {
      var pong := NewMessage(Pong, VDict(map["timestamp" := m.timestamp]), VNone, VNone, now, msgId);
      conns := conns[sender := SendOn(conns[sender], pong)];
    }

    /** _handle_pong: the sender's last ping time becomes now. */
    method HandlePong(sender: nat, now: real)
      requires Valid() && sender in conns
      modifies this
      ensures Valid()
      ensures Snap() == old(Snap()).(conns := old(conns)[sender := old(conns)[sender].(lastPing := now)])
    {
      conns := conns[sender := conns[sender].(lastPing := now)];
    }

    /** broadcast_message: every client but the excluded one on a server, the server on a client. */
    method BroadcastMessage(m: Message, exclude: Option<string>)
      requires Valid()
      modifies this
      ensures Valid()
      ensures old(role) == Server ==> Snap() == old(Snap()).(conns := BroadcastTo(old(clients), old(conns), m, exclude))
      ensures old(role) == Client && old(serverConn).Some? ==>
        Snap() == old(Snap()).(conns := old(conns)[old(serverConn).value := SendOn(old(conns)[old(serverConn).value], m)])
      ensures old(role) == NoRole || (old(role) == Client && old(serverConn).None?) ==> Snap() == old(Snap())
    {
      if role == Server {
        conns := BroadcastTo(clients, conns, m, exclude);
      } else if role == Client && serverConn.Some? {
        conns := conns[serverConn.value := SendOn(conns[serverConn.value], m)];
      }
    }

    /** send_to_server: only a client with a server connection sends. */
    method SendToServer(m: Message)
      requires Valid()
      modifies this
      ensures Valid()
      ensures old(role) == Client && old(serverConn).Some? ==>
        Snap() == old(Snap()).(conns := old(conns)[old(serverConn).value := SendOn(old(conns)[old(serverConn).value], m)])
      ensures !(old(role) == Client && old(serverConn).Some?) ==> Snap() == old(Snap())
    {
      if role == Client && serverConn.Some? {
        conns := conns[serverConn.value := SendOn(conns[serverConn.value], m)];
      }
    }

    /** send_to_client: only a server sends, and only to a registered id. */
    method SendToClient(id: string, m: Message)
      requires Valid()
      modifies this
      ensures Valid()
      ensures old(role) == Server && id in old(clients) ==>
        Snap() == old(Snap()).(conns := old(conns)[old(clients)[id] := SendOn(old(conns)[old(clients)[id]], m)])
      ensures !(old(role) == Server && id in old(clients)) ==> Snap() == old(Snap())
    {
      if role == Server && id in clients {
        conns := conns[clients[id] := SendOn(conns[clients[id]], m)];
      }
    }

    /** update: at most update_rate times a second, ping whoever has been silent for five seconds. */
    method Update(now: real, pingId: nat -> string)
      requires Valid()
      modifies this
      ensures Valid()
      ensures now - old(lastUpdateTime) < 1.0 / updateRate ==> Snap() == old(Snap())
      ensures now - old(lastUpdateTime) >= 1.0 / updateRate && old(role) == Server ==>
        Snap() == old(Snap()).(lastUpdateTime := now, conns := PingStale(old(clients), old(conns), now, pingId))
      ensures (now - old(lastUpdateTime) >= 1.0 / updateRate && old(role) == Client && old(serverConn).Some?
        && now - old(conns)[old(serverConn).value].lastPing > 5.0) ==>
        Snap() == old(Snap()).(lastUpdateTime := now, conns := old(conns)[old(serverConn).value :=
          SendOn(old(conns)[old(serverConn).value], PingMessage(now, pingId(old(serverConn).value)))])
      ensures (now - old(lastUpdateTime) >= 1.0 / updateRate && old(role) != Server
        && !(old(role) == Client && old(serverConn).Some? && now - old(conns)[old(serverConn).value].lastPing > 5.0)) ==>
        Snap() == old(Snap()).(lastUpdateTime := now)
    {
      if now - lastUpdateTime < 1.0 / updateRate {
        return;
      }
      lastUpdateTime := now;
      if role == Server {
        conns := PingStale(clients, conns, now, pingId);
      } else if role == Client && serverConn.Some? {
        var h := serverConn.value;
        if now - conns[h].lastPing > 5.0 {
          conns := conns[h := SendOn(conns[h], PingMessage(now, pingId(h)))];
        }
      }
    }
  }

  /** The client_id a message's data names, when it is a non-empty string. */
  function ClaimedId(m: Message): (r: Option<string>)
    ensures r.Some? ==> r.value != "" && m.data.VDict? && Get(m.data.entries, "client_id") == VStr(r.value)
  {
    if m.data.VDict? && "client_id" in m.data.entries && m.data.entries["client_id"].VStr? && m.data.entries["client_id"].s != ""
    then Some(m.data.entries["client_id"].s) else None
  }

  function ConnectRequestMessage(id: string, now: real, msgId: string): Message
  {
    NewMessage(ConnectRequest, VDict(map["client_id" := VStr(id)]), VNone, VNone, now, msgId)
  }

  function ConnectResponseMessage(id: string, now: real, msgId: string): Message
  {
    NewMessage(ConnectResponse, VDict(map["accepted" := VBool(true), "server_id" := VStr("server"), "client_id" := VStr(id)]),
               VNone, VNone, now, msgId)
  }

  /**
   * A server that accepted a client and was then told the client's own id
   * keeps the accepted entry when that client goes: the slot is never
   * freed under the as-written rule, and is freed under DropConnection.
   */
  lemma RenameThenDisconnectLeaksSlot(clients: map<string, nat>, conns: map<nat, Conn>, key: string, claimed: string, now: real, msgId: string)
    requires Injective(clients) && key in clients && clients[key] in conns && claimed != key && claimed !in clients
    ensures var h := clients[key];
      var renamed := SendOn(conns[h].(clientId := claimed), ConnectResponseMessage(claimed, now, msgId));
      key in DropAsWritten(clients, renamed) && key !in DropConnection(clients, h)
  {
  }
}
