/**
 * engine/network_utils.py: the networked scene change, the roster of
 * connected players, the traffic counters and settings of the optimizer,
 * the bounded message log of the debugger with its statistics and
 * diagnosis, and the priority table of the custom-message helper.
 *
 * The network manager is the one of engine/networking.py. What that file
 * does not have (a game object, send_custom_message,
 * register_custom_handler, NetworkPriority) is seen only through what is
 * asked of it: the game's load_scene calls and the custom sends are
 * recorded as events; the clock is a `now` parameter.
 */
module NetworkUtils {
  import opened Wrappers
  import opened Values
  import opened Hierarchy
  import opened Networking
  import NetComponents

  // ---------------------------------------------------------------------
  // NetworkedSceneManager

  /** What the scene manager asks of the game and of the actor manager. */
  datatype SceneEvent = LoadScene(name: string) | RequestFullSync

  /** change_scene_networked succeeds only on a connected server. */
  predicate MayChangeScene(role: Role, connected: bool)
  {
    connected && role == Server
  }

  /** The message a scene change broadcasts. */
  function SceneChangeMessage(sceneName: string, now: real, msgId: string): (m: Message)
    ensures m.mtype == SceneChange && m.data == VDict(map["scene_name" := VStr(sceneName)])
  {
    NewMessage(SceneChange, VDict(map["scene_name" := VStr(sceneName)]), VNone, VNone, now, msgId)
  }

  /** _on_scene_changed: the game loads the scene, and a client then asks for a full sync. */
  function SceneChangedEvents(hasGame: bool, role: Role, sceneName: string): (r: seq<SceneEvent>)
    ensures !hasGame ==> r == []
    ensures RequestFullSync in r <==> hasGame && role == Client
    ensures hasGame ==> |r| > 0 && r[0] == LoadScene(sceneName)
  {
    if !hasGame then []
    else [LoadScene(sceneName)] + (if role == Client then [RequestFullSync] else [])
  }

  /** A server or a role-less manager never asks for a full sync after a scene change. */
  lemma OnlyClientsResync(hasGame: bool, role: Role, sceneName: string)
    requires role != Client
    ensures SceneChangedEvents(hasGame, role, sceneName) == if hasGame then [LoadScene(sceneName)] else []
  {
  }

  class NetworkedSceneManager {
    const manager: NetworkManager
    /** Whether the manager has a game attached. */
    const hasGame: bool
    var events: seq<SceneEvent>

    constructor(m: NetworkManager, game: bool)
      ensures manager == m && hasGame == game && events == []
    {
      manager := m;
      hasGame := game;
      events := [];
    }

    /** change_scene_networked. */
    method ChangeSceneNetworked(sceneName: string, now: real, msgId: string) returns (ok: bool)
      requires manager.Valid()
      modifies this, manager
      ensures manager.Valid()
      ensures ok <==> old(MayChangeScene(manager.role, manager.IsConnected()))
      ensures !ok ==> manager.Snap() == old(manager.Snap()) && events == old(events)
      ensures ok ==> manager.Snap() == old(manager.Snap()).(conns := BroadcastTo(old(manager.clients), old(manager.conns), SceneChangeMessage(sceneName, now, msgId), None))
      ensures ok ==> events == old(events) + if hasGame then [LoadScene(sceneName)] else []
    {
      if !manager.IsConnected() {
        return false;
      }
      if !manager.IsServer() {
        return false;
      }
      manager.BroadcastMessage(SceneChangeMessage(sceneName, now, msgId), None);
      if hasGame {
        events := events + [LoadScene(sceneName)];
      }
      ok := true;
    }

    /** _on_scene_changed. */
    method OnSceneChanged(sceneName: string)
      modifies this
      ensures events == old(events) + SceneChangedEvents(hasGame, manager.role, sceneName)
    {
      if hasGame {
        events := events + [LoadScene(sceneName)];
        if manager.IsClient() {
          events := events + [RequestFullSync];
        }
      }
    }
  }

  // ---------------------------------------------------------------------
  // PlayerManager

  type PlayerData = map<string, Value>

  /** The players dict: its keys in insertion order, and each player's data. */
  datatype Roster = Roster(order: seq<string>, data: map<string, PlayerData>)

  /** The order lists each key of the dict exactly once. */
  ghost predicate RosterValid(r: Roster)
  {
    NoDup(r.order) && forall k :: k in r.order <==> k in r.data
  }

  /** players[id] = d: a new key goes to the end, an existing one keeps its place. */
  function Put(r: Roster, id: string, d: PlayerData): (r2: Roster)
    ensures id in r2.data && r2.data == r.data[id := d]
    ensures RosterValid(r) ==> RosterValid(r2)
    ensures id in r.data && RosterValid(r) ==> r2.order == r.order
  {
    if id in r.order then Roster(r.order, r.data[id := d])
    else Roster(r.order + [id], r.data[id := d])
  }

  /** get_player_count. */
  function PlayerCount(role: Role, r: Roster): int
  {
    match role
    case Server => |r.data| + 1
    case Client => |r.data|
    case NoRole => 0
  }

  /** get_player_list: the player ids in order, then "server" on a server. */
  function PlayerList(role: Role, r: Roster): (ids: seq<string>)
    ensures forall k :: k in r.order ==> k in ids
    ensures forall k :: k in ids ==> k in r.order || (k == "server" && role == Server)
    ensures role == Server <==> |ids| > 0 && ids[|ids| - 1] == "server" && |ids| == |r.order| + 1
  {
    r.order + if role == Server then ["server"] else []
  }

  /** is_room_full. */
  predicate RoomFull(role: Role, r: Roster, maxPlayers: int)
  {
    PlayerCount(role, r) >= maxPlayers
  }

  /** set_player_data: merged into an existing player's data, else stored as a copy. */
  function SetPlayerData(r: Roster, id: string, d: PlayerData): (r2: Roster)
    ensures RosterValid(r) ==> RosterValid(r2)
  {
    Put(r, id, if id in r.data then r.data[id] + d else d)
  }

  /** The data _on_client_connected records for a new player. */
  function ConnectedData(id: string, now: real): PlayerData
  {
    map["id" := VStr(id), "connected_at" := VFloat(now), "ping" := VFloat(0.0)]
  }

  /** _on_client_connected. */
  function PlayerJoined(r: Roster, id: string, now: real): (r2: Roster)
    ensures RosterValid(r) ==> RosterValid(r2)
    ensures id in r2.data && "id" in r2.data[id] && r2.data[id]["id"] == VStr(id)
  {
    Put(r, id, ConnectedData(id, now))
  }

  /** _on_client_disconnected: the entry goes if it is there. */
  function PlayerLeft(r: Roster, id: string): (r2: Roster)
    ensures RosterValid(r) ==> RosterValid(r2)
    ensures r2.data == r.data - {id}
    ensures id !in r.data ==> r2 == r
  {
    if id in r.data then Roster(RemoveFirst(r.order, id), r.data - {id}) else r
  }

  /** A NoDup list has as many elements as its set. */
  lemma {:induction false} NoDupCard(s: seq<string>)
    requires NoDup(s)
    ensures |set x | x in s| == |s|
  {
    if |s| > 0 {
      NoDupTail(s);
      NoDupCard(s[1..]);
      assert (set x | x in s) == {s[0]} + (set x | x in s[1..]);
    }
  }

  /** On a server or a client the player list is as long as the count says. */
  lemma CountMatchesList(role: Role, r: Roster)
    requires RosterValid(r) && role != NoRole
    ensures |PlayerList(role, r)| == PlayerCount(role, r)
  {
    NoDupCard(r.order);
    assert r.data.Keys == set x | x in r.order;
  }

  /** Merging keeps what the new data does not mention and takes what it does; a new player gets the data as given. */
  lemma SetThenGet(r: Roster, id: string, d: PlayerData, k: string)
    ensures var got := SetPlayerData(r, id, d).data[id];
            (k in d ==> k in got && got[k] == d[k])
            && (k !in d && id in r.data && k in r.data[id] ==> k in got && got[k] == r.data[id][k])
            && (id !in r.data ==> got == d)
  {
  }

  /** set_player_data leaves every other player as it was. */
  lemma SetKeepsOthers(r: Roster, id: string, d: PlayerData, other: string)
    requires other != id
    ensures other in SetPlayerData(r, id, d).data <==> other in r.data
    ensures other in r.data ==> SetPlayerData(r, id, d).data[other] == r.data[other]
  {
  }

  lemma {:induction false} RemoveLastAdded(s: seq<string>, id: string)
    requires id !in s
    ensures RemoveFirst(s + [id], id) == s
  {
    if |s| > 0 {
      assert (s + [id])[1..] == s[1..] + [id];
      RemoveLastAdded(s[1..], id);
    }
  }

  /** A client that connects and disconnects again leaves the roster as it found it. */
  lemma ConnectThenDisconnect(r: Roster, id: string, now: real)
    requires RosterValid(r) && id !in r.data
    ensures PlayerLeft(PlayerJoined(r, id, now), id) == r
  {
    RemoveLastAdded(r.order, id);
  }

  /** A new client raises the count by one on a server or a client. */
  lemma ConnectCounts(role: Role, r: Roster, id: string, now: real)
    requires id !in r.data && role != NoRole
    ensures PlayerCount(role, PlayerJoined(r, id, now)) == PlayerCount(role, r) + 1
  {
    assert PlayerJoined(r, id, now).data.Keys == r.data.Keys + {id};
  }

  /** "server" is listed exactly on a server, unless a player is called "server". */
  lemma ServerListedOnlyOnServer(role: Role, r: Roster)
    requires RosterValid(r) && "server" !in r.data
    ensures "server" in PlayerList(role, r) <==> role == Server
  {
  }

  class PlayerManager {
    const manager: NetworkManager
    var order: seq<string>
    var players: map<string, PlayerData>

    function Players(): Roster
      reads this
    {
      Roster(order, players)
    }

    ghost predicate Valid()
      reads this
    {
      RosterValid(Players())
    }

    constructor(m: NetworkManager)
      ensures Valid() && manager == m && Players() == Roster([], map[])
    {
      manager := m;
      order := [];
      players := map[];
    }

    function GetPlayerCount(): (n: int)
      reads this, manager
      ensures n == PlayerCount(manager.role, Players())
    {
      if manager.IsServer() then |players| + 1
      else if manager.IsClient() then |players|
      else 0
    }

    function GetMaxPlayers(): int
      reads manager
    {
      manager.maxPlayers
    }

    function IsRoomFull(): (full: bool)
      reads this, manager
      ensures full <==> RoomFull(manager.role, Players(), manager.maxPlayers)
    {
      GetPlayerCount() >= GetMaxPlayers()
    }

    function GetPlayerList(): (ids: seq<string>)
      reads this, manager
      ensures ids == PlayerList(manager.role, Players())
    {
      if manager.IsServer() then order + ["server"] else order
    }

    method SetPlayerDataOf(id: string, d: PlayerData)
      requires Valid()
      modifies this
      ensures Valid() && Players() == SetPlayerData(old(Players()), id, d)
    {
      if id in players {
        players := players[id := players[id] + d];
      } else {
        players := players[id := d];
        order := order + [id];
      }
    }

    function GetPlayerData(id: string): (r: Option<PlayerData>)
      reads this
      ensures r.Some? <==> id in Players().data
      ensures r.Some? ==> r.value == Players().data[id]
    {
      if id in players then Some(players[id]) else None
    }

    /** _on_client_connected; `now` is time.time(). */
    method OnClientConnected(id: string, now: real)
      requires Valid()
      modifies this
      ensures Valid() && Players() == PlayerJoined(old(Players()), id, now)
    {
      if id !in players {
        order := order + [id];
      }
      players := players[id := ConnectedData(id, now)];
    }

    method OnClientDisconnected(id: string)
      requires Valid()
      modifies this
      ensures Valid() && Players() == PlayerLeft(old(Players()), id)
    {
      if id in players {
        order := RemoveFirst(order, id);
        players := players - {id};
      }
    }
  }

  // ---------------------------------------------------------------------
  // NetworkOptimizer

  /** get_network_stats. */
  datatype TrafficStats = TrafficStats(bytesSent: int, bytesReceived: int, messagesSent: int, messagesReceived: int,
                                       connectedClients: int, isServer: bool, isConnected: bool)

  /** A client counts its single connection to the server. */
  function ConnectedClients(role: Role, clients: map<string, nat>): (n: int)
    ensures role != Server ==> n == 1
    ensures role == Server ==> n == |clients|
  {
    if role == Server then |clients| else 1
  }

  class NetworkOptimizer {
    const manager: NetworkManager
    var bytesSent: int
    var bytesReceived: int
    var messagesSent: int
    var messagesReceived: int
    var compressionEnabled: bool
    var deltaCompression: bool

    constructor(m: NetworkManager)
      ensures manager == m && bytesSent == 0 && bytesReceived == 0 && messagesSent == 0 && messagesReceived == 0
      ensures !compressionEnabled && deltaCompression
    {
      manager := m;
      bytesSent := 0;
      bytesReceived := 0;
      messagesSent := 0;
      messagesReceived := 0;
      compressionEnabled := false;
      deltaCompression := true;
    }

    method EnableCompression(enabled: bool)
      modifies this
      ensures compressionEnabled == enabled && deltaCompression == old(deltaCompression)
      ensures bytesSent == old(bytesSent) && bytesReceived == old(bytesReceived)
      ensures messagesSent == old(messagesSent) && messagesReceived == old(messagesReceived)
    {
      compressionEnabled := enabled;
    }

    method EnableDeltaCompression(enabled: bool)
      modifies this
      ensures deltaCompression == enabled && compressionEnabled == old(compressionEnabled)
      ensures bytesSent == old(bytesSent) && bytesReceived == old(bytesReceived)
      ensures messagesSent == old(messagesSent) && messagesReceived == old(messagesReceived)
    {
      deltaCompression := enabled;
    }

    function GetNetworkStats(): (s: TrafficStats)
      reads this, manager
      ensures s.isServer <==> manager.IsServer()
      ensures s.isConnected <==> manager.IsConnected()
      ensures s.connectedClients == ConnectedClients(manager.role, manager.clients)
      ensures s.bytesSent == bytesSent && s.messagesSent == messagesSent
      ensures s.bytesReceived == bytesReceived && s.messagesReceived == messagesReceived
    {
      TrafficStats(bytesSent, bytesReceived, messagesSent, messagesReceived,
                   if manager.IsServer() then |manager.clients| else 1, manager.IsServer(), manager.IsConnected())
    }

    /** optimize_message: both passes hand the message back unchanged. */
    method OptimizeMessage(m: Message) returns (r: Message)
      ensures r == m
    {
      r := m;
      if compressionEnabled {
        r := CompressMessage(r);
      }
      if deltaCompression && r.mtype == ComponentUpdate {
        r := DeltaCompressComponents(r);
      }
    }

    method CompressMessage(m: Message) returns (r: Message)
      ensures r == m
    {
      r := m;
    }

    method DeltaCompressComponents(m: Message) returns (r: Message)
      ensures r == m
    {
      r := m;
    }
  }

  // ---------------------------------------------------------------------
  // NetworkDebugger

  /** One log entry; `size` is len(str(message.to_dict())), which is not modelled. */
  datatype LogEntry = LogEntry(timestamp: real, direction: string, peer: string, mtype: string, size: nat, data: Value)

  /** Python's s[-n:]: the last n items; all of them when n is 0, and all but the first -n when n is negative. */
  function PySuffix<T>(s: seq<T>, n: int): (r: seq<T>)
    ensures |r| <= |s| && r == s[|s| - |r|..]
    ensures n > 0 ==> |r| == if n < |s| then n else |s|
    ensures n == 0 ==> r == s
    ensures n < 0 ==> |r| == if -n < |s| then |s| + n else 0
  {
    if n > 0 then (if n < |s| then s[|s| - n..] else s)
    else if n == 0 then s
    else if -n < |s| then s[-n..] else []
  }

  /** log_message: the entry appended, then the log cut to its last max_log_size entries when longer. */
  function Logged(log: seq<LogEntry>, e: LogEntry, maxLogSize: int): (r: seq<LogEntry>)
    ensures var l := log + [e]; |r| <= |l| && r == l[|l| - |r|..]
    ensures maxLogSize > 0 ==> |r| == if |log| + 1 <= maxLogSize then |log| + 1 else maxLogSize
  {
    var l := log + [e];
    if |l| > maxLogSize then PySuffix(l, maxLogSize) else l
  }

  /** With a positive bound the log never grows past it, and the newest entry is always kept last. */
  lemma LogStaysBounded(log: seq<LogEntry>, e: LogEntry, maxLogSize: int)
    requires maxLogSize > 0
    ensures |Logged(log, e, maxLogSize)| <= maxLogSize
    ensures var r := Logged(log, e, maxLogSize); |r| > 0 && r[|r| - 1] == e
  {
    var l := log + [e];
    var r := Logged(log, e, maxLogSize);
    assert r[|r| - 1] == l[|l| - 1];
  }

  /** A bound of 0 keeps every entry: s[-0:] is the whole list. */
  lemma ZeroBoundKeepsAll(log: seq<LogEntry>, e: LogEntry)
    ensures Logged(log, e, 0) == log + [e]
  {
  }

  /** get_recent_messages(count). */
  function Recent(log: seq<LogEntry>, count: int): (r: seq<LogEntry>)
    ensures count > 0 ==> |r| == (if count < |log| then count else |log|) && r == log[|log| - |r|..]
  {
    PySuffix(log, count)
  }

  /** get_recent_messages(0) gives the whole log, not an empty list. */
  lemma RecentZeroIsWholeLog(log: seq<LogEntry>)
    ensures Recent(log, 0) == log
  {
  }

  /** The number of entries going in direction d. */
  function CountDirection(log: seq<LogEntry>, d: string): (n: nat)
    ensures n <= |log|
  {
    if |log| == 0 then 0
    else (if log[0].direction == d then 1 else 0) + CountDirection(log[1..], d)
  }

  function TotalSize(log: seq<LogEntry>): nat
  {
    if |log| == 0 then 0 else log[0].size + TotalSize(log[1..])
  }

  /** get_message_stats. */
  datatype MessageStats = MessageStats(totalMessages: nat, sentMessages: nat, receivedMessages: nat, totalBytes: nat, averageMessageSize: real)

  /** None is the empty dict an empty log gives. */
  function Stats(log: seq<LogEntry>): (r: Option<MessageStats>)
    ensures r.None? <==> |log| == 0
    ensures r.Some? ==> r.value.totalMessages == |log| && r.value.averageMessageSize == r.value.totalBytes as real / |log| as real
  {
    if |log| == 0 then None
    else
      var total := TotalSize(log);
      Some(MessageStats(|log|, CountDirection(log, "sent"), CountDirection(log, "received"), total, total as real / |log| as real))
  }

  /** An entry is counted as sent or as received, never both. */
  lemma {:induction false} SentAndReceivedApart(log: seq<LogEntry>)
    ensures CountDirection(log, "sent") + CountDirection(log, "received") <= |log|
  {
    if |log| > 0 {
      SentAndReceivedApart(log[1..]);
    }
  }

  /** The statistics never count more sent and received messages than there are. */
  lemma StatsConsistent(log: seq<LogEntry>)
    requires |log| > 0
    ensures var s := Stats(log).value;
            s.sentMessages + s.receivedMessages <= s.totalMessages
            && s.averageMessageSize * s.totalMessages as real == s.totalBytes as real
  {
    SentAndReceivedApart(log);
  }

  /** A connection issue diagnose_connection_issues reports; the report's wording is not modelled. */
  datatype Issue = NotConnected | HighRate(rate: real) | LargeMessages(count: nat) | HighPing(seconds: real)

  function CountLarge(log: seq<LogEntry>): (n: nat)
    ensures n <= |log|
  {
    if |log| == 0 then 0 else (if log[0].size > 1024 then 1 else 0) + CountLarge(log[1..])
  }

  /** The rate over the last 50 entries, when there are 50 and they span some time. */
  function RecentRate(recent: seq<LogEntry>): (r: Option<real>)
    ensures r.Some? ==> |recent| >= 50 && recent[|recent| - 1].timestamp - recent[0].timestamp > 0.0
  {
    if |recent| >= 50 then
      var span := recent[|recent| - 1].timestamp - recent[0].timestamp;
      if span > 0.0 then Some(|recent| as real / span) else None
    else None
  }

  /** The list [i] when b holds, else []. */
  function When(b: bool, i: Issue): (r: seq<Issue>)
    ensures |r| <= 1
  {
    if b then [i] else []
  }

  /**
   * diagnose_connection_issues; `lastPing` is the last_ping of the
   * manager's server connection when it is a client that has one.
   */
  function Diagnose(connected: bool, log: seq<LogEntry>, lastPing: Option<real>, now: real): (issues: seq<Issue>)
    ensures |issues| <= 4
  {
    var recent := Recent(log, 50);
    var rate := RecentRate(recent);
    var large := CountLarge(recent);
    When(!connected, NotConnected)
    + When(rate.Some? && rate.value > 100.0, HighRate(rate.GetOr(0.0)))
    + When(large > 0, LargeMessages(large))
    + When(lastPing.Some? && now - lastPing.GetOr(0.0) > 10.0, HighPing(now - lastPing.GetOr(0.0)))
  }

  /** The report names the missing connection exactly when there is none. */
  lemma DiagnoseNotConnected(connected: bool, log: seq<LogEntry>, lastPing: Option<real>, now: real)
    ensures NotConnected in Diagnose(connected, log, lastPing, now) <==> !connected
  {
    DiagnoseParts(connected, log, lastPing, now);
  }

  /** Large messages among the last 50 are reported, with their number, exactly when there are some. */
  lemma DiagnoseLarge(connected: bool, log: seq<LogEntry>, lastPing: Option<real>, now: real, c: nat)
    ensures LargeMessages(c) in Diagnose(connected, log, lastPing, now) <==> c > 0 && c == CountLarge(Recent(log, 50))
  {
    DiagnoseParts(connected, log, lastPing, now);
  }

  /** A high rate is reported exactly when the last 50 entries came at more than 100 a second. */
  lemma DiagnoseRate(connected: bool, log: seq<LogEntry>, lastPing: Option<real>, now: real, x: real)
    ensures HighRate(x) in Diagnose(connected, log, lastPing, now) <==> x > 100.0 && RecentRate(Recent(log, 50)) == Some(x)
  {
    DiagnoseParts(connected, log, lastPing, now);
  }

  /** A high ping is reported exactly when the server last answered more than ten seconds ago. */
  lemma DiagnosePing(connected: bool, log: seq<LogEntry>, lastPing: Option<real>, now: real, s: real)
    ensures HighPing(s) in Diagnose(connected, log, lastPing, now) <==> s > 10.0 && lastPing.Some? && s == now - lastPing.value
  {
    DiagnoseParts(connected, log, lastPing, now);
  }

  /** Every issue in the report, with the condition that puts it there. */
  lemma DiagnoseParts(connected: bool, log: seq<LogEntry>, lastPing: Option<real>, now: real)
    ensures var recent := Recent(log, 50);
            var rate := RecentRate(recent);
            var large := CountLarge(recent);
            forall x :: x in Diagnose(connected, log, lastPing, now) <==>
              (x == NotConnected && !connected)
              || (rate.Some? && rate.value > 100.0 && x == HighRate(rate.value))
              || (large > 0 && x == LargeMessages(large))
              || (lastPing.Some? && now - lastPing.value > 10.0 && x == HighPing(now - lastPing.value))
  {
  }

  /** The last ping of a client's server connection, if it has one. */
  function ServerPing(role: Role, serverConn: Option<nat>, conns: map<nat, Conn>): Option<real>
  {
    if role == Client && serverConn.Some? && serverConn.value in conns then Some(conns[serverConn.value].lastPing) else None
  }

  /** Only a client with a server connection can be told its ping is high. */
  lemma DiagnosePingOnlyClient(connected: bool, log: seq<LogEntry>, role: Role, serverConn: Option<nat>, conns: map<nat, Conn>, now: real)
    ensures forall s :: HighPing(s) in Diagnose(connected, log, ServerPing(role, serverConn, conns), now) ==>
              role == Client && serverConn.Some? && s > 10.0
  {
    forall s | HighPing(s) in Diagnose(connected, log, ServerPing(role, serverConn, conns), now)
      ensures role == Client && serverConn.Some? && s > 10.0
    {
      DiagnosePing(connected, log, ServerPing(role, serverConn, conns), now, s);
    }
  }

  class NetworkDebugger {
    const manager: NetworkManager
    var messageLog: seq<LogEntry>
    var maxLogSize: int

    constructor(m: NetworkManager)
      ensures manager == m && messageLog == [] && maxLogSize == 1000
    {
      manager := m;
      messageLog := [];
      maxLogSize := 1000;
    }

    /** log_message; `now` is time.time() and `size` the length of the message's printed dict. */
    method LogMessage(m: Message, direction: string, peer: string, size: nat, now: real)
      modifies this
      ensures maxLogSize == old(maxLogSize)
      ensures messageLog == Logged(old(messageLog), LogEntry(now, direction, peer, TypeValue(m.mtype), size, m.data), maxLogSize)
    {
      messageLog := messageLog + [LogEntry(now, direction, peer, TypeValue(m.mtype), size, m.data)];
      if |messageLog| > maxLogSize {
        messageLog := PySuffix(messageLog, maxLogSize);
      }
    }

    function GetRecentMessages(count: int): (r: seq<LogEntry>)
      reads this
      ensures r == Recent(messageLog, count)
    {
      PySuffix(messageLog, count)
    }

    function GetMessageStats(): (r: Option<MessageStats>)
      reads this
      ensures r == Stats(messageLog)
    {
      Stats(messageLog)
    }

    /** diagnose_connection_issues; `now` is time.time(). */
    function DiagnoseConnectionIssues(now: real): (issues: seq<Issue>)
      reads this, manager
      ensures |issues| <= 4
      ensures NotConnected in issues <==> !manager.IsConnected()
      ensures forall s :: HighPing(s) in issues ==> manager.IsClient() && s > 10.0
    {
      DiagnoseNotConnected(manager.IsConnected(), messageLog, ServerPing(manager.role, manager.serverConn, manager.conns), now);
      DiagnosePingOnlyClient(manager.IsConnected(), messageLog, manager.role, manager.serverConn, manager.conns, now);
      Diagnose(manager.IsConnected(), messageLog, ServerPing(manager.role, manager.serverConn, manager.conns), now)
    }
  }

  // ---------------------------------------------------------------------
  // CustomMessageHelper

  type Priority = NetComponents.Priority

  /** What send hands to send_custom_message. */
  datatype CustomSend = CustomSend(eventType: string, data: Value, priority: Priority, senderName: Option<string>)

  /** The priority send uses: the registered one, MEDIUM for an unregistered event type. */
  function PriorityFor(registered: map<string, Priority>, eventType: string): (p: Priority)
    ensures eventType in registered ==> p == registered[eventType]
    ensures eventType !in registered ==> p == NetComponents.Medium
  {
    if eventType in registered then registered[eventType] else NetComponents.Medium
  }

  /** register_handler: the given priority, MEDIUM when none is given. */
  function Registered(registered: map<string, Priority>, eventType: string, priority: Option<Priority>): (r: map<string, Priority>)
    ensures r.Keys == registered.Keys + {eventType}
    ensures PriorityFor(r, eventType) == priority.GetOr(NetComponents.Medium)
    ensures forall t :: t != eventType && t in registered ==> r[t] == registered[t]
  {
    registered[eventType := priority.GetOr(NetComponents.Medium)]
  }

  /** setup_common_handlers: chat is instant, game events and player actions high, lobby updates medium. */
  function CommonHandlers(registered: map<string, Priority>): (r: map<string, Priority>)
    ensures PriorityFor(r, "chat") == NetComponents.Instant
    ensures PriorityFor(r, "game_event") == NetComponents.High && PriorityFor(r, "player_action") == NetComponents.High
    ensures PriorityFor(r, "lobby_update") == NetComponents.Medium
  {
    Registered(Registered(Registered(Registered(registered, "chat", Some(NetComponents.Instant)),
      "game_event", Some(NetComponents.High)), "player_action", Some(NetComponents.High)), "lobby_update", Some(NetComponents.Medium))
  }

  /** Registering one event type changes the priority of no other. */
  lemma RegisterKeepsOthers(registered: map<string, Priority>, eventType: string, priority: Option<Priority>, other: string)
    requires other != eventType
    ensures PriorityFor(Registered(registered, eventType, priority), other) == PriorityFor(registered, other)
  {
  }

  class CustomMessageHelper {
    /** registered_handlers, reduced to each event type's priority; the handler functions are not modelled. */
    var registered: map<string, Priority>
    /** Every send_custom_message call, in order. */
    var sent: seq<CustomSend>

    constructor()
      ensures registered == map[] && sent == []
    {
      registered := map[];
      sent := [];
    }

    method RegisterHandler(eventType: string, priority: Option<Priority>)
      modifies this
      ensures registered == Registered(old(registered), eventType, priority) && sent == old(sent)
    {
      registered := registered[eventType := priority.GetOr(NetComponents.Medium)];
    }

    method Send(eventType: string, data: Value, senderName: Option<string>)
      modifies this
      ensures registered == old(registered)
      ensures sent == old(sent) + [CustomSend(eventType, data, PriorityFor(registered, eventType), senderName)]
    {
      var p := if eventType in registered then registered[eventType] else NetComponents.Medium;
      sent := sent + [CustomSend(eventType, data, p, senderName)];
    }

    method BroadcastChat(senderName: string, message: string)
      modifies this
      ensures registered == old(registered)
      ensures sent == old(sent) + [CustomSend("chat", VDict(map["message" := VStr(message)]), PriorityFor(registered, "chat"), Some(senderName))]
    {
      Send("chat", VDict(map["message" := VStr(message)]), Some(senderName));
    }

    method BroadcastGameEvent(eventName: string, eventData: Value, senderName: Option<string>)
      modifies this
      ensures registered == old(registered)
      ensures sent == old(sent) + [CustomSend("game_event", VDict(map["event" := VStr(eventName), "data" := eventData]), PriorityFor(registered, "game_event"), senderName)]
    {
      Send("game_event", VDict(map["event" := VStr(eventName), "data" := eventData]), senderName);
    }

    method BroadcastPlayerAction(action: string, actionData: Value, playerName: string)
      modifies this
      ensures registered == old(registered)
      ensures sent == old(sent) + [CustomSend("player_action", VDict(map["action" := VStr(action), "data" := actionData]), PriorityFor(registered, "player_action"), Some(playerName))]
    {
      Send("player_action", VDict(map["action" := VStr(action), "data" := actionData]), Some(playerName));
    }

    method SetupCommonHandlers()
      modifies this
      ensures registered == CommonHandlers(old(registered)) && sent == old(sent)
    {
      RegisterHandler("chat", Some(NetComponents.Instant));
      RegisterHandler("game_event", Some(NetComponents.High));
      RegisterHandler("player_action", Some(NetComponents.High));
      RegisterHandler("lobby_update", Some(NetComponents.Medium));
    }
  }
}
