/**
 * LobbyScene of game/scenes/lobby.py: the roster of players waiting for a
 * game, a chat log bounded to its newest twenty lines, and the custom
 * messages the lobby exchanges through the network manager.
 *
 * The network manager is reduced to whether the scene has one, whether it
 * is a server and whether it is connected; what the lobby asks it to send
 * is recorded in order in `sent`, and the scene changes it asks of the game
 * in `navigation`. The label widgets that show the roster are left out, but
 * not the fact that refreshing them needs the ui manager that on_enter
 * creates: before on_enter, every handler that refreshes the roster raises
 * AttributeError. time.strftime("%H:%M") is the `stamp` parameter.
 */
module Lobby {
  import opened Wrappers
  import opened Strings

  /** The number of chat lines kept. */
  const ChatLimit: nat := 20

  // pygame 2 key codes.
  const KeyEscape: int := 27
  const KeyF1: int := 1073741882

  /** NetworkPriority members the lobby uses. */
  datatype Priority = Instant | High

  /** The dict of a custom message. */
  datatype Payload =
    | PlayerName(name: string)
    | Roster(players: seq<string>, maxPlayers: int)
    | ShutdownReason(reason: string)
    | StartScene(scene: string)

  /** A call to send_custom_message (kind, data, priority, sender) or to send_chat_message. */
  datatype Message =
    | Custom(kind: string, data: Payload, priority: Priority, sender: Option<string>)
    | ChatLine(author: string, text: string)

  /** A call to game.pop_scene() or game.load_scene(name). */
  datatype Navigation = PopScene | LoadScene(name: string)

  /** What get_network_manager() returns when on_enter runs. */
  datatype ManagerView = ManagerView(isServer: bool, isConnected: bool)

  /** The error update_players_list raises before on_enter has created the ui manager. */
  const NoUiManager: Error := AttributeError("'NoneType' object has no attribute 'find_widget'")

  /** One line of the chat log: f"[{timestamp}] {sender}: {message}". */
  function Line(stamp: string, sender: string, message: string): string
  {
    "[" + stamp + "] " + sender + ": " + message
  }

  /** The log once trimmed: chat_messages[-20:] when it holds more than twenty lines. */
  function Newest(log: seq<string>): (r: seq<string>)
    ensures |r| <= ChatLimit && |r| <= |log|
  {
    if |log| > ChatLimit then log[|log| - ChatLimit..] else log
  }

  /** The log after add_chat_message has run for each line in turn. */
  function Appended(log: seq<string>, lines: seq<string>): seq<string>
    decreases |lines|
  {
    if lines == [] then log else Appended(Newest(log + [lines[0]]), lines[1..])
  }

  /** Trimming looks only at the last twenty lines: any longer suffix trims to the same log. */
  lemma NewestOfSuffix(s: seq<string>, k: nat)
    requires k <= |s| && |s| - k >= ChatLimit
    ensures Newest(s[k..]) == Newest(s)
  {
    assert s[k..][|s| - k - ChatLimit..] == s[|s| - ChatLimit..];
  }

  /** Trimming before more lines arrive loses nothing that trimming afterwards would keep. */
  lemma NewestAbsorbs(h: seq<string>, t: seq<string>)
    ensures Newest(Newest(h) + t) == Newest(h + t)
  {
    if |h| > ChatLimit {
      var k := |h| - ChatLimit;
      assert (h + t)[k..] == Newest(h) + t;
      NewestOfSuffix(h + t, k);
    }
  }

  /**
   * The bounded log is always the newest twenty lines of the whole history:
   * adding lines one at a time, trimming after each, ends where trimming the
   * full history once would.
   */
  lemma {:induction false} AppendedIsNewest(log: seq<string>, lines: seq<string>)
    requires |log| <= ChatLimit
    ensures Appended(log, lines) == Newest(log + lines)
    decreases |lines|
  {
    if lines != [] {
      var x, rest := lines[0], lines[1..];
      var next := Newest(log + [x]);
      var whole := (log + [x]) + rest;
      assert whole == log + lines by {
        assert lines == [x] + rest;
      }
      calc {
        Appended(log, lines);
        Appended(next, rest);
        { AppendedIsNewest(next, rest); }
        Newest(next + rest);
        { NewestAbsorbs(log + [x], rest); }
        Newest(whole);
      }
    }
  }

  /** The newest line is always the last one added. */
  lemma NewestEndsWith(log: seq<string>, x: string)
    ensures var r := Newest(log + [x]); |r| > 0 && r[|r| - 1] == x
  {
  }

  /** The distinct names of xs outside seen, in order of first appearance. */
  function Unseen(xs: seq<string>, seen: set<string>): (r: seq<string>)
    ensures forall n :: n in r <==> n in xs && n !in seen
    ensures forall i, j :: 0 <= i < j < |r| ==> r[i] != r[j]
  {
    if xs == [] then []
    else if xs[0] in seen then Unseen(xs[1..], seen)
    else [xs[0]] + Unseen(xs[1..], seen + {xs[0]})
  }

  function Members(xs: seq<string>): set<string>
  {
    set n | n in xs
  }

  /** The System lines announcing each name but one's own, with the given ending. */
  function Announcements(stamp: string, names: seq<string>, me: string, ending: string): (r: seq<string>)
    ensures |r| <= |names|
  {
    if names == [] then []
    else (if names[0] != me then [Line(stamp, "System", names[0] + ending)] else [])
         + Announcements(stamp, names[1..], me, ending)
  }

  /** The lines a client shows for a roster change: joins first, then departures, never about itself. */
  function ChangeLines(stamp: string, before: seq<string>, after: seq<string>, me: string): seq<string>
  {
    Announcements(stamp, Unseen(after, Members(before)), me, " joined the lobby")
    + Announcements(stamp, Unseen(before, Members(after)), me, " left the lobby")
  }

  /** list.remove: the first occurrence of x is gone. */
  function RemoveFirst(xs: seq<string>, x: string): (r: seq<string>)
    requires x in xs
    ensures |r| == |xs| - 1
    ensures multiset(r) == multiset(xs) - multiset{x}
  {
    assert xs == [xs[0]] + xs[1..];
    if xs[0] == x then xs[1..] else [xs[0]] + RemoveFirst(xs[1..], x)
  }

  /** Without repeats in the roster, leaving removes the player entirely and keeps everyone else. */
  lemma {:induction false} RemoveFirstLeaves(xs: seq<string>, x: string)
    requires x in xs
    requires forall i, j :: 0 <= i < j < |xs| ==> xs[i] != xs[j]
    ensures x !in RemoveFirst(xs, x)
    ensures forall n :: n != x ==> (n in RemoveFirst(xs, x) <==> n in xs)
  {
    var rest := xs[1..];
    assert xs == [xs[0]] + rest;
    if xs[0] == x {
      forall i | 0 <= i < |rest| ensures rest[i] != x {
        assert rest[i] == xs[i + 1] && xs[0] != xs[i + 1];
      }
    } else {
      forall i, j | 0 <= i < j < |rest| ensures rest[i] != rest[j] {
        assert rest[i] == xs[i + 1] && rest[j] == xs[j + 1];
      }
      RemoveFirstLeaves(rest, x);
    }
  }

  class LobbyScene {
    var players: seq<string>
    var chat: seq<string>
    var currentMessage: string
    var isHost: bool
    var maxPlayers: int
    var playerName: string
    /** Whether on_enter has created the ui manager. */
    var hasUi: bool
    /** Whether network_manager is set, and whether it is connected. */
    var hasManager: bool
    var connected: bool
    /** Whether the scene belongs to a game (self.game). */
    var hasGame: bool
    /** The demo timer, absent until the first update. */
    var demoTimer: Option<real>
    var sent: seq<Message>
    var navigation: seq<Navigation>

    ghost predicate Valid()
      reads this
    {
      |chat| <= ChatLimit
    }

    /** LobbyScene(): Player1 alone, four places, no chat, not the host. */
    constructor (hasGame: bool)
      ensures Valid()
      ensures players == ["Player1"] && chat == [] && currentMessage == ""
      ensures !isHost && maxPlayers == 4 && playerName == "Player1"
      ensures !hasUi && !hasManager && !connected && this.hasGame == hasGame && demoTimer.None?
      ensures sent == [] && navigation == []
    {
      players := ["Player1"];
      chat := [];
      currentMessage := "";
      isHost := false;
      maxPlayers := 4;
      playerName := "Player1";
      hasUi := false;
      hasManager := false;
      connected := false;
      this.hasGame := hasGame;
      demoTimer := None;
      sent := [];
      navigation := [];
    }

    /** add_chat_message: the line joins the log, which keeps only its newest twenty lines. */
    method AddChatMessage(stamp: string, sender: string, message: string)
      requires Valid()
      modifies this`chat
      ensures Valid()
      ensures chat == Newest(old(chat) + [Line(stamp, sender, message)])
    {
      Push(Line(stamp, sender, message));
    }

    /** The append and trim of add_chat_message, for a finished line. */
    method Push(line: string)
      requires Valid()
      modifies this`chat
      ensures Valid()
      ensures chat == Newest(old(chat) + [line])
    {
      chat := chat + [line];
      if |chat| > ChatLimit {
        chat := chat[|chat| - ChatLimit..];
      }
    }

    /** The for loops that add one chat line per name. */
    method AddChatLines(lines: seq<string>)
      requires Valid()
      modifies this`chat
      ensures Valid()
      ensures chat == Newest(old(chat) + lines)
    {
      ghost var start := chat;
      var i := 0;
      while i < |lines|
        invariant 0 <= i <= |lines| && Valid()
        invariant chat == Newest(start + lines[..i])
      {
        Push(lines[i]);
        NewestAbsorbs(start + lines[..i], [lines[i]]);
        assert start + lines[..i + 1] == start + lines[..i] + [lines[i]];
        i := i + 1;
      }
      assert lines[..i] == lines;
    }

    /**
     * on_enter: the host keeps its own name on the roster (a client starts
     * with none), the ui is created, and the welcome lines are shown. A host
     * that is not connected yet starts hosting, and stops being the host if
     * that fails; a connected client asks for the lobby state and announces
     * itself. Without a network manager the scene takes the host's part and
     * then fails on the manager's is_connected.
     */
    method OnEnter(stamp: string, manager: Option<ManagerView>, hostStarts: bool) returns (err: Option<Error>)
      requires Valid()
      modifies this`hasManager, this`connected, this`isHost, this`players, this`hasUi, this`chat, this`sent
      ensures Valid()
      ensures hasUi && hasManager == manager.Some?
      ensures var host := manager.None? || manager.value.isServer;
        players == (if !host then [] else if old(playerName) in old(players) then old(players) else [old(playerName)])
      ensures err.Some? <==> manager.None?
      ensures manager.None? ==> (isHost && !connected && sent == old(sent)
        && chat == Newest(old(chat) + [Line(stamp, "System", WelcomeText),
                                       Line(stamp, "System", HostText)]))
      ensures manager.Some? && manager.value.isServer && manager.value.isConnected ==>
        isHost && connected && sent == old(sent)
      ensures manager.Some? && manager.value.isServer && !manager.value.isConnected ==>
        isHost == hostStarts && connected == hostStarts && sent == old(sent)
      ensures manager.Some? && !manager.value.isServer ==>
        !isHost && connected == manager.value.isConnected
        && sent == old(sent) + if manager.value.isConnected then
             [Custom("lobby_state_request", PlayerName(playerName), High, Some(playerName)),
              Custom("player_join", PlayerName(playerName), High, Some(playerName))]
           else []
    {
      hasManager := manager.Some?;
      connected := manager.Some? && manager.value.isConnected;
      isHost := manager.None? || manager.value.isServer;
      if isHost {
        if playerName !in players {
          players := [playerName];
        }
      } else {
        players := [];
      }
      hasUi := true;
      ghost var before := chat;
      AddChatMessage(stamp, "System", WelcomeText);
      if isHost {
        err := EnterAsHost(stamp, hostStarts);
        ChatTwice(before, Line(stamp, "System", WelcomeText),
                  Line(stamp, "System", HostText));
      } else {
        EnterAsClient(stamp);
        err := None;
      }
    }

    /** The host's part of on_enter: start hosting unless connected already. */
    method EnterAsHost(stamp: string, hostStarts: bool) returns (err: Option<Error>)
      requires Valid() && isHost
      modifies this`chat, this`connected, this`isHost
      ensures Valid()
      ensures !hasManager ==> (err == Some(AttributeError("'NoneType' object has no attribute 'is_connected'"))
        && isHost && connected == old(connected)
        && chat == Newest(old(chat) + [Line(stamp, "System", HostText)]))
      ensures hasManager && old(connected) ==> err.None? && isHost && connected
      ensures hasManager && !old(connected) ==> err.None? && isHost == hostStarts && connected == hostStarts
    {
      AddChatMessage(stamp, "System", HostText);
      if !hasManager {
        return Some(AttributeError("'NoneType' object has no attribute 'is_connected'"));
      }
      err := None;
      if !connected {
        if !hostStarts {
          AddChatMessage(stamp, "System", "Failed to start server! Another host may be running.");
          isHost := false;
        } else {
          connected := true;
          AddChatMessage(stamp, "System", "Server started successfully on port 7777.");
        }
      }
    }

    /** The client's part of on_enter: a connected client asks for the lobby state, then announces itself. */
    method EnterAsClient(stamp: string)
      requires Valid()
      modifies this`chat, this`sent
      ensures Valid()
      ensures sent == old(sent) + if hasManager && connected then
        [Custom("lobby_state_request", PlayerName(playerName), High, Some(playerName)),
         Custom("player_join", PlayerName(playerName), High, Some(playerName))] else []
    {
      AddChatMessage(stamp, "System", "Waiting for host to start the game...");
      if hasManager && connected {
        sent := sent + [Custom("lobby_state_request", PlayerName(playerName), High, Some(playerName)),
                        Custom("player_join", PlayerName(playerName), High, Some(playerName))];
      }
    }

    /** on_network_chat_message: a line from someone else is shown ("" without a message); one's own is not echoed. */
    method OnNetworkChatMessage(stamp: string, message: Option<string>, sender: string)
      requires Valid()
      modifies this`chat
      ensures Valid()
      ensures sender == playerName ==> chat == old(chat)
      ensures sender != playerName ==> chat == Newest(old(chat) + [Line(stamp, sender, message.GetOr(""))])
    {
      var text := message.GetOr("");
      if sender != playerName {
        AddChatMessage(stamp, sender, text);
      }
    }

    /**
     * on_network_player_joined: only the host keeps the roster. A name not
     * on it yet (the sender's, unless the message names one) is appended,
     * announced and broadcast as the new roster; a known name changes
     * nothing, and so does any join on a client.
     */
    method OnNetworkPlayerJoined(stamp: string, name: Option<string>, sender: string) returns (err: Option<Error>)
      requires Valid()
      modifies this`players, this`chat, this`sent
      ensures Valid()
      ensures var p := name.GetOr(sender);
        if old(isHost) && p !in old(players) then
          players == old(players) + [p]
          && (hasUi ==> err.None? && chat == Newest(old(chat) + [Line(stamp, "System", p + " joined the lobby")])
                        && sent == old(sent) + if hasManager then [Custom("lobby_update", Roster(players, maxPlayers), High, Some("Server"))] else [])
          && (!hasUi ==> err == Some(NoUiManager) && chat == old(chat) && sent == old(sent))
        else
          players == old(players) && chat == old(chat) && sent == old(sent) && err.None?
    {
      var p := name.GetOr(sender);
      err := None;
      if isHost && p !in players {
        players := players + [p];
        if !hasUi {
          return Some(NoUiManager);
        }
        AddChatMessage(stamp, "System", p + " joined the lobby");
        if hasManager {
          sent := sent + [Custom("lobby_update", Roster(players, maxPlayers), High, Some("Server"))];
        }
      }
    }

    /**
     * on_network_player_left: on the host, a name on the roster (the
     * sender's, unless the message names one) loses its first entry, is
     * announced and the new roster broadcast; otherwise nothing changes.
     */
    method OnNetworkPlayerLeft(stamp: string, name: Option<string>, sender: string) returns (err: Option<Error>)
      requires Valid()
      modifies this`players, this`chat, this`sent
      ensures Valid()
      ensures var p := name.GetOr(sender);
        if old(isHost) && p in old(players) then
          players == RemoveFirst(old(players), p)
          && (hasUi ==> err.None? && chat == Newest(old(chat) + [Line(stamp, "System", p + " left the lobby")])
                        && sent == old(sent) + if hasManager then [Custom("lobby_update", Roster(players, maxPlayers), High, Some("Server"))] else [])
          && (!hasUi ==> err == Some(NoUiManager) && chat == old(chat) && sent == old(sent))
        else
          players == old(players) && chat == old(chat) && sent == old(sent) && err.None?
    {
      var p := name.GetOr(sender);
      err := None;
      if isHost && p in players {
        players := RemoveFirst(players, p);
        if !hasUi {
          return Some(NoUiManager);
        }
        AddChatMessage(stamp, "System", p + " left the lobby");
        if hasManager {
          sent := sent + [Custom("lobby_update", Roster(players, maxPlayers), High, Some("Server"))];
        }
      }
    }

    /**
     * on_network_lobby_update: a roster from "Server" replaces the local one,
     * and a client announces who joined and who left, never itself; a
     * max_players entry is taken from any sender.
     */
    method OnNetworkLobbyUpdate(stamp: string, roster: Option<seq<string>>, newMax: Option<int>, sender: string)
      returns (err: Option<Error>)
      requires Valid()
      modifies this`players, this`chat, this`maxPlayers
      ensures Valid()
      ensures var accepted := sender == "Server" && roster.Some?;
        players == (if accepted then roster.value else old(players))
        && (err.Some? <==> accepted && !hasUi)
        && (err.Some? ==> err.value == NoUiManager && chat == old(chat) && maxPlayers == old(maxPlayers))
        && (err.None? ==> maxPlayers == newMax.GetOr(old(maxPlayers)))
        && (err.None? && accepted && !isHost ==> chat == Newest(old(chat) + ChangeLines(stamp, old(players), players, playerName)))
        && (err.None? && !(accepted && !isHost) ==> chat == old(chat))
    {
      err := None;
      if sender == "Server" && roster.Some? {
        var before := players;
        players := roster.value;
        if !hasUi {
          return Some(NoUiManager);
        }
        if !isHost {
          AddChatLines(ChangeLines(stamp, before, players, playerName));
        }
      }
      if newMax.Some? {
        maxPlayers := newMax.value;
      }
    }

    /** on_lobby_state_request: a host with a network manager sends its roster; nothing else happens. */
    method OnLobbyStateRequest()
      modifies this`sent
      ensures sent == old(sent) + if isHost && hasManager then [Custom("lobby_update", Roster(players, maxPlayers), High, Some("Server"))] else []
    {
      if isHost && hasManager {
        sent := sent + [Custom("lobby_update", Roster(players, maxPlayers), High, Some("Server"))];
      }
    }

    /** on_lobby_shutdown: a client shows the reason, disconnects and goes back; the host ignores it. */
    method OnLobbyShutdown(stamp: string, reason: Option<string>)
      requires Valid()
      modifies this`chat, this`connected, this`navigation
      ensures Valid()
      ensures old(isHost) ==> chat == old(chat) && connected == old(connected) && navigation == old(navigation)
      ensures !old(isHost) ==> (chat == Newest(old(chat) + [Line(stamp, "System", "Lobby closed: " + reason.GetOr("Unknown reason"))])
        && connected == (old(connected) && !hasManager)
        && navigation == old(navigation) + if hasGame then [PopScene] else [])
    {
      if !isHost {
        AddChatMessage(stamp, "System", "Lobby closed: " + reason.GetOr("Unknown reason"));
        if hasManager {
          connected := false;
        }
        if hasGame {
          navigation := navigation + [PopScene];
        }
      }
    }

    /** on_network_game_start: the start is announced and the game scene loaded. */
    method OnNetworkGameStart(stamp: string)
      requires Valid()
      modifies this`chat, this`navigation
      ensures Valid()
      ensures chat == Newest(old(chat) + [Line(stamp, "System", "Host is starting the game!")])
      ensures navigation == old(navigation) + if hasGame then [LoadScene("game")] else []
    {
      AddChatMessage(stamp, "System", "Host is starting the game!");
      if hasGame {
        navigation := navigation + [LoadScene("game")];
      }
    }

    /** check_network_connection: a client whose manager has lost the connection says so and goes back. */
    method CheckNetworkConnection(stamp: string)
      requires Valid()
      modifies this`chat, this`navigation
      ensures Valid()
      ensures var lost := !isHost && hasManager && !connected;
        (lost ==> chat == Newest(old(chat) + [Line(stamp, "System", "Lost connection to host")])
                  && navigation == old(navigation) + if hasGame then [PopScene] else [])
        && (!lost ==> chat == old(chat) && navigation == old(navigation))
    {
      if !isHost && hasManager && !connected {
        AddChatMessage(stamp, "System", "Lost connection to host");
        if hasGame {
          navigation := navigation + [PopScene];
        }
      }
    }

    /** on_chat_changed: the text of the chat input. */
    method OnChatChanged(text: string)
      modifies this`currentMessage
      ensures currentMessage == text
    {
      currentMessage := text;
    }

    /**
     * send_chat_message: a message that is not blank is shown at once, sent
     * when connected, and the input cleared; a blank one is neither shown
     * nor sent.
     */
    method SendChatMessage(stamp: string) returns (err: Option<Error>)
      requires Valid()
      modifies this`chat, this`sent, this`currentMessage
      ensures Valid()
      ensures Strip(old(currentMessage)) == "" ==> chat == old(chat) && sent == old(sent) && currentMessage == old(currentMessage) && err.None?
      ensures Strip(old(currentMessage)) != "" ==>
        chat == Newest(old(chat) + [Line(stamp, playerName, old(currentMessage))])
        && sent == old(sent) + (if hasManager && connected then [ChatLine(playerName, old(currentMessage))] else [])
        && (hasUi ==> currentMessage == "" && err.None?)
        && (!hasUi ==> currentMessage == old(currentMessage) && err == Some(NoUiManager))
    {
      err := None;
      if Strip(currentMessage) != "" {
        AddChatMessage(stamp, playerName, currentMessage);
        if hasManager && connected {
          sent := sent + [ChatLine(playerName, currentMessage)];
        }
        if !hasUi {
          return Some(NoUiManager);
        }
        currentMessage := "";
      }
    }

    /** on_start_clicked: only the host starts the game, telling the clients when connected. */
    method OnStartClicked(stamp: string)
      requires Valid()
      modifies this`chat, this`sent, this`navigation
      ensures Valid()
      ensures !isHost ==> chat == old(chat) && sent == old(sent) && navigation == old(navigation)
      ensures isHost ==> (chat == Newest(old(chat) + [Line(stamp, "System", "Host is starting the game!")])
        && sent == old(sent) + (if hasManager && connected then [Custom("game_start", StartScene("game"), High, None)] else [])
        && navigation == old(navigation) + if hasGame then [LoadScene("game")] else [])
    {
      if isHost {
        AddChatMessage(stamp, "System", "Host is starting the game!");
        if hasManager && connected {
          sent := sent + [Custom("game_start", StartScene("game"), High, None)];
        }
        if hasGame {
          navigation := navigation + [LoadScene("game")];
        }
      }
    }

    /** shutdown_lobby: a connected host tells the clients, at instant priority, and disconnects. */
    method ShutdownLobby(stamp: string)
      requires Valid()
      modifies this`chat, this`sent, this`connected
      ensures Valid()
      ensures chat == Newest(old(chat) + [Line(stamp, "System", "Lobby closed by host")])
      ensures connected == (old(connected) && !hasManager)
      ensures sent == old(sent) + if hasManager && old(connected) then
        [Custom("lobby_shutdown", ShutdownReason("Host left the lobby"), Instant, Some("Server"))] else []
    {
      if hasManager && connected {
        sent := sent + [Custom("lobby_shutdown", ShutdownReason("Host left the lobby"), Instant, Some("Server"))];
        connected := false;
      }
      AddChatMessage(stamp, "System", "Lobby closed by host");
    }

    /** on_leave_clicked: the host shuts the lobby down; a connected client says goodbye and disconnects; then back. */
    method OnLeaveClicked(stamp: string)
      requires Valid()
      modifies this`chat, this`sent, this`connected, this`navigation
      ensures Valid()
      ensures navigation == old(navigation) + if hasGame then [PopScene] else []
      ensures isHost ==> (connected == (old(connected) && !hasManager) && chat == Newest(old(chat) + [Line(stamp, "System", "Lobby closed by host")])
        && sent == old(sent) + if hasManager && old(connected) then
             [Custom("lobby_shutdown", ShutdownReason("Host left the lobby"), Instant, Some("Server"))] else [])
      ensures !isHost ==> (chat == old(chat) && connected == (old(connected) && !hasManager)
        && sent == old(sent) + if hasManager && old(connected) then
             [Custom("player_leave", PlayerName(playerName), High, Some(playerName))] else [])
    {
      if isHost {
        ShutdownLobby(stamp);
      } else if hasManager && connected {
        sent := sent + [Custom("player_leave", PlayerName(playerName), High, Some(playerName))];
        connected := false;
      }
      if hasGame {
        navigation := navigation + [PopScene];
      }
    }

    /** on_exit: still connected, the host shuts the lobby down and a client says goodbye and disconnects. */
    method OnExit(stamp: string)
      requires Valid()
      modifies this`chat, this`sent, this`connected
      ensures Valid()
      ensures !(hasManager && old(connected)) ==> chat == old(chat) && sent == old(sent) && connected == old(connected)
      ensures hasManager && old(connected) ==> !connected
      ensures hasManager && old(connected) && isHost ==>
        chat == Newest(old(chat) + [Line(stamp, "System", "Lobby closed by host")])
        && sent == old(sent) + [Custom("lobby_shutdown", ShutdownReason("Host left the lobby"), Instant, Some("Server"))]
      ensures hasManager && old(connected) && !isHost ==>
        chat == old(chat) && sent == old(sent) + [Custom("player_leave", PlayerName(playerName), High, Some(playerName))]
    {
      if hasManager && connected {
        if isHost {
          ShutdownLobby(stamp);
        } else {
          sent := sent + [Custom("player_leave", PlayerName(playerName), High, Some(playerName))];
          connected := false;
        }
      }
    }

    /** simulate_player_join: a new name joins only while there is room. */
    method SimulatePlayerJoin(stamp: string, name: string) returns (err: Option<Error>)
      requires Valid()
      modifies this`players, this`chat
      ensures Valid()
      ensures var joins := |old(players)| < maxPlayers && name !in old(players);
        (joins ==> players == old(players) + [name]
                   && (hasUi ==> err.None? && chat == Newest(old(chat) + [Line(stamp, "System", name + " joined the lobby")]))
                   && (!hasUi ==> err == Some(NoUiManager) && chat == old(chat)))
        && (!joins ==> players == old(players) && chat == old(chat) && err.None?)
    {
      err := None;
      if |players| < maxPlayers && name !in players {
        players := players + [name];
        if !hasUi {
          return Some(NoUiManager);
        }
        AddChatMessage(stamp, "System", name + " joined the lobby");
      }
    }

    /** simulate_player_leave: a name on the roster loses its first entry. */
    method SimulatePlayerLeave(stamp: string, name: string) returns (err: Option<Error>)
      requires Valid()
      modifies this`players, this`chat
      ensures Valid()
      ensures name in old(players) ==> (players == RemoveFirst(old(players), name)
        && (hasUi ==> err.None? && chat == Newest(old(chat) + [Line(stamp, "System", name + " left the lobby")]))
        && (!hasUi ==> err == Some(NoUiManager) && chat == old(chat)))
      ensures name !in old(players) ==> players == old(players) && chat == old(chat) && err.None?
    {
      err := None;
      if name in players {
        players := RemoveFirst(players, name);
        if !hasUi {
          return Some(NoUiManager);
        }
        AddChatMessage(stamp, "System", name + " left the lobby");
      }
    }

    /**
     * update: a client checks its connection; then the demo timer runs,
     * and while not connected, once it passes ten seconds with fewer than
     * three players, a player named after the next place joins.
     */
    method Update(stamp: string, dt: real) returns (err: Option<Error>)
      requires Valid()
      modifies this`players, this`chat, this`navigation, this`demoTimer
      ensures Valid()
      ensures old(demoTimer).None? ==> demoTimer == Some(0.0) && players == old(players) && err.None?
      ensures old(demoTimer).Some? && !(hasManager && connected) && old(demoTimer).value + dt > 10.0 && |old(players)| < 3 ==>
        (err.None? ==> demoTimer == Some(0.0))
        && (|old(players)| < maxPlayers && ("Player" + NatToString(|old(players)| + 1)) !in old(players) ==>
              players == old(players) + ["Player" + NatToString(|old(players)| + 1)])
      ensures old(demoTimer).Some? && !(!(hasManager && connected) && old(demoTimer).value + dt > 10.0 && |old(players)| < 3) ==>
        demoTimer == Some(old(demoTimer).value + dt) && players == old(players) && err.None?
      ensures var lost := !isHost && hasManager && !connected;
        var timer := if old(demoTimer).Some? then old(demoTimer).value + dt else 0.0;
        var fires := !(hasManager && connected) && timer > 10.0 && |old(players)| < 3;
        var name := "Player" + NatToString(|old(players)| + 1);
        var joins := fires && |old(players)| < maxPlayers && name !in old(players);
        var warned := if lost then Newest(old(chat) + [Line(stamp, "System", "Lost connection to host")]) else old(chat);
        && navigation == old(navigation) + (if lost && hasGame then [PopScene] else [])
        && players == (if joins then old(players) + [name] else old(players))
        && chat == (if joins && hasUi then Newest(warned + [Line(stamp, "System", name + " joined the lobby")]) else warned)
        && err == (if joins && !hasUi then Some(NoUiManager) else None)
        && demoTimer == Some(if fires && err.None? then 0.0 else timer)
    {
      err := None;
      if !isHost {
        CheckNetworkConnection(stamp);
      }
      if demoTimer.Some? {
        demoTimer := Some(demoTimer.value + dt);
      } else {
        demoTimer := Some(0.0);
      }
      if !(hasManager && connected) {
        if demoTimer.value > 10.0 && |players| < 3 {
          err := SimulatePlayerJoin(stamp, "Player" + NatToString(|players| + 1));
          if err.Some? {
            return;
          }
          demoTimer := Some(0.0);
        }
      }
    }

    /**
     * handle_event for keys the ui did not take: Escape goes back, F1
     * starts the game on the host.
     */
    method HandleKey(key: int, uiHandled: bool)
      modifies this`navigation
      ensures var taken := hasUi && uiHandled;
        navigation == old(navigation)
          + if !taken && hasGame && key == KeyEscape then [PopScene]
            else if !taken && hasGame && key == KeyF1 && isHost then [LoadScene("game")]
            else []
    {
      if hasUi && uiHandled {
        return;
      }
      if key == KeyEscape {
        if hasGame {
          navigation := navigation + [PopScene];
        }
      } else if key == KeyF1 && isHost {
        if hasGame {
          navigation := navigation + [LoadScene("game")];
        }
      }
    }
  }

  /** Two lines added in turn are the two newest lines of the history. */
  lemma ChatTwice(log: seq<string>, a: string, b: string)
    requires |log| <= ChatLimit
    ensures Newest(Newest(log + [a]) + [b]) == Newest(log + [a, b])
  {
    NewestAbsorbs(log + [a], [b]);
    assert log + [a] + [b] == log + [a, b];
  }

  /** The first lines on_enter shows. */
  const WelcomeText := "Welcome to the lobby!"
  const HostText := "You are the host. Click 'Start Game' when ready."

  /** A client never announces its own arrival or departure. */
  lemma {:induction false} NoSelfAnnouncement(stamp: string, names: seq<string>, me: string, ending: string)
    ensures Line(stamp, "System", me + ending) !in Announcements(stamp, names, me, ending)
    decreases |names|
  {
    if names != [] {
      NoSelfAnnouncement(stamp, names[1..], me, ending);
      if names[0] != me {
        var l := Line(stamp, "System", names[0] + ending);
        var m := Line(stamp, "System", me + ending);
        assert l != m by {
          if |names[0]| == |me| {
            assert l[|l| - |ending| - |me|..|l| - |ending|] == names[0];
            assert m[|m| - |ending| - |me|..|m| - |ending|] == me;
          } else {
            assert |l| != |m|;
          }
        }
      }
    }
  }

  /** Every other name that arrives or leaves in a roster change is announced. */
  lemma {:induction false} AnnouncedAll(stamp: string, names: seq<string>, me: string, ending: string, n: string)
    requires n in names && n != me
    ensures Line(stamp, "System", n + ending) in Announcements(stamp, names, me, ending)
    decreases |names|
  {
    if names[0] != n {
      AnnouncedAll(stamp, names[1..], me, ending, n);
    }
  }
}
