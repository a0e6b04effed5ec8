/**
 * JoinLobbyScene of game/scenes/join_lobby.py: two text fields for the
 * server's address and port, checked before a connection is attempted.
 *
 * The checks are the function Validate, with int() of a stripped string as
 * ParseInt. The text fields themselves are TextInputs.TextInput widgets; what
 * on_connect_pressed reads from them (get_text(), or None before on_enter)
 * is a parameter. The port field is a TextInput restricted to digits and
 * five characters, and the lemmas about it are stated over the functions
 * TextInput.insert_text and delete_char are proved against. The network
 * manager's connect_to_server answer is the `succeeds` parameter; the calls
 * made to it are recorded in `attempts`, and the scene changes asked of the
 * game in `navigation`.
 */
module JoinLobby {
  import opened Wrappers
  import opened Strings
  import TextInputs
  import Lobby

  /** The lowest and the highest port on_connect_pressed accepts. */
  const MinPort: int := 1
  const MaxPort: int := 65535

  /** port_input.allowed_chars and port_input.max_length. */
  const PortChars: set<char> := {'0', '1', '2', '3', '4', '5', '6', '7', '8', '9'}
  const PortMaxLength: int := 5

  /** The texts the two fields start with. */
  const InitialIp: string := "localhost"
  const InitialPort: string := "12345"

  /** A pygame.Color, without its alpha. */
  datatype Rgb = Rgb(r: int, g: int, b: int)

  /** The status label's colours: Label's default white, light red for errors, light green otherwise. */
  const White: Rgb := Rgb(255, 255, 255)
  const ErrorColor: Rgb := Rgb(255, 100, 100)
  const OkColor: Rgb := Rgb(100, 255, 100)

  /** A call to network_manager.connect_to_server(ip, port, name). */
  datatype Attempt = Attempt(ip: string, port: int, name: string)

  /** The checks' verdict: the address and port to use, or the message shown instead. */
  datatype Check = Accepted(ip: string, port: int) | Rejected(message: string)

  /** The body of a decimal literal int() accepts: digits in groups joined by single underscores. */
  predicate Grouped(s: string)
  {
    && |s| > 0 && IsDigit(s[0]) && IsDigit(s[|s| - 1])
    && (forall i :: 0 <= i < |s| ==> IsDigit(s[i]) || s[i] == '_')
    && (forall i :: 0 <= i < |s| - 1 ==> s[i] == '_' ==> s[i + 1] != '_')
  }

  /** The digits of s, its underscores dropped. */
  function Ungrouped(s: string): (r: string)
    requires forall i :: 0 <= i < |s| ==> IsDigit(s[i]) || s[i] == '_'
    ensures AllDigits(r) && |r| <= |s|
  {
    if |s| == 0 then []
    else
      var rest := Ungrouped(s[1..]);
      var r := (if s[0] == '_' then [] else [s[0]]) + rest;
      assert forall i :: 0 <= i < |r| ==> IsDigit(r[i]) by {
        forall i | 0 <= i < |r| ensures IsDigit(r[i]) {
          if s[0] != '_' && i > 0 {
            assert r[i] == rest[i - 1];
          }
        }
      }
      r
  }

  /**
   * int(s) in base 10 for a string already stripped: an optional sign and
   * grouped digits; None stands for the ValueError raised on anything else.
   */
  function ParseInt(s: string): (r: Option<int>)
    ensures r.Some? ==> |s| > 0
  {
    if |s| > 0 && (s[0] == '+' || s[0] == '-') then
      match Unsigned(s[1..])
      case None => None
      case Some(n) => Some(if s[0] == '-' then -(n as int) else n as int)
    else Unsigned(s)
  }

  /** The value of grouped digits, and None for anything else. */
  function Unsigned(s: string): (r: Option<nat>)
    ensures r.Some? <==> Grouped(s)
  {
    if Grouped(s) then Some(DigitsValue(Ungrouped(s))) else None
  }

  /**
   * on_connect_pressed's checks, in order: a blank address, a blank port,
   * a port int() rejects, a port out of range. The address is used stripped,
   * the port as the number int() reads.
   */
  function Validate(ipText: string, portText: string): (r: Check)
    ensures r.Accepted? ==> r.ip == Strip(ipText) && MinPort <= r.port <= MaxPort
  {
    var ip := Strip(ipText);
    var port := Strip(portText);
    if ip == "" then Rejected("Please enter an IP address")
    else if port == "" then Rejected("Please enter a port number")
    else match ParseInt(port)
      case None => Rejected("Port must be a valid number")
      case Some(p) =>
        if p < MinPort || p > MaxPort then Rejected("Port must be between 1 and 65535")
        else Accepted(ip, p)
  }

  /** f"Connecting to {ip_address}:{port}...": the port as str() writes the number read. */
  function ConnectingText(t: Check): string
    requires t.Accepted?
  {
    "Connecting to " + t.ip + ":" + IntToString(t.port) + "..."
  }

  /** f"Failed to connect to {ip_address}:{port}". */
  function FailedText(t: Check): string
    requires t.Accepted?
  {
    "Failed to connect to " + t.ip + ":" + IntToString(t.port)
  }

  /** A string of digits has no underscores to drop. */
  lemma {:induction false} UngroupedDigits(s: string)
    requires AllDigits(s)
    ensures Ungrouped(s) == s
    decreases |s|
  {
    if |s| > 0 {
      UngroupedDigits(s[1..]);
      assert [s[0]] + s[1..] == s;
    }
  }

  /** int() of plain digits is their decimal value. */
  lemma ParseDigits(s: string)
    requires AllDigits(s) && |s| > 0
    ensures ParseInt(s) == Some(DigitsValue(s) as int)
  {
    UngroupedDigits(s);
    assert Grouped(s);
    assert Unsigned(s) == Some(DigitsValue(s));
  }

  /** int() of a minus sign and digits is the negated value of the digits. */
  lemma ParseNegative(s: string)
    requires |s| > 1 && s[0] == '-' && AllDigits(s[1..])
    ensures ParseInt(s) == Some(-(DigitsValue(s[1..]) as int))
  {
    UngroupedDigits(s[1..]);
    assert Grouped(s[1..]);
  }

  /** int(str(i)) == i. */
  lemma ParseIntToString(i: int)
    ensures ParseInt(IntToString(i)) == Some(i)
  {
    if i < 0 {
      var s := IntToString(i);
      assert s[1..] == NatToString(-i);
      ParseNegative(s);
      DigitsValueOfNatToString(-i);
    } else {
      ParseDigits(NatToString(i));
      DigitsValueOfNatToString(i);
    }
  }

  /** int() accepts only signs, digits and underscores, and at least one digit. */
  lemma ParseIntAlphabet(s: string)
    requires ParseInt(s).Some?
    ensures forall i :: 0 <= i < |s| ==> IsDigit(s[i]) || s[i] == '_' || (i == 0 && (s[i] == '+' || s[i] == '-'))
    ensures exists i :: 0 <= i < |s| && IsDigit(s[i])
  {
    if s[0] == '+' || s[0] == '-' {
      assert Grouped(s[1..]);
      assert forall i :: 1 <= i < |s| ==> s[i] == s[1..][i - 1];
      assert IsDigit(s[1]);
    } else {
      assert IsDigit(s[0]);
    }
  }

  /** Underscores are accepted only between digits, one at a time. */
  lemma UnderscoreExamples()
    ensures ParseInt("8_080") == Some(8080)
    ensures ParseInt("8__080") == None && ParseInt("_80") == None && ParseInt("80_") == None
    ensures ParseInt("+80") == Some(80) && ParseInt("-80") == Some(-80) && ParseInt("+") == None
  {
    assert Grouped("8_080");
    assert Ungrouped("8_080") == "8080";
    assert DigitsValue("8080") == 8080 by {
      assert "8080"[..3] == "808" && "808"[..2] == "80" && "80"[..1] == "8";
    }
    assert !Grouped("8__080") by { assert "8__080"[1] == '_' && "8__080"[2] == '_'; }
    assert "+80"[1..] == "80" && "-80"[1..] == "80";
    ParseDigits("80");
    assert Ungrouped("80") == "80";
  }

  /** The checks accept exactly a non-blank address with a port int() reads as 1 to 65535. */
  lemma ValidateAccepts(ipText: string, portText: string)
    ensures Validate(ipText, portText).Accepted? <==>
      Strip(ipText) != "" && ParseInt(Strip(portText)).Some?
      && MinPort <= ParseInt(Strip(portText)).value <= MaxPort
    ensures Validate(ipText, portText).Accepted? ==>
      Validate(ipText, portText).port == ParseInt(Strip(portText)).value
  {
  }

  /** A blank address is refused whatever the port; a blank port is refused next. */
  lemma BlankRejected(ipText: string, portText: string)
    ensures (forall i :: 0 <= i < |ipText| ==> IsSpace(ipText[i])) ==>
      Validate(ipText, portText) == Rejected("Please enter an IP address")
    ensures (exists i :: 0 <= i < |ipText| && !IsSpace(ipText[i])) && (forall i :: 0 <= i < |portText| ==> IsSpace(portText[i])) ==>
      Validate(ipText, portText) == Rejected("Please enter a port number")
  {
    StripEmptyIffBlank(ipText);
    StripEmptyIffBlank(portText);
  }

  /** A port that reads as a number outside 1..65535 is refused with the range message. */
  lemma OutOfRangeRejected(ipText: string, portText: string, n: int)
    requires Strip(ipText) != "" && ParseInt(Strip(portText)) == Some(n)
    ensures Validate(ipText, portText).Accepted? <==> MinPort <= n <= MaxPort
    ensures !(MinPort <= n <= MaxPort) ==> Validate(ipText, portText) == Rejected("Port must be between 1 and 65535")
  {
  }

  /**
   * What the port field can hold is always a number: only the range check
   * can refuse it (a port of 0, or above 65535).
   */
  lemma PortFieldAlwaysNumber(ipText: string, t: string)
    requires AllDigits(t) && 0 < |t| <= PortMaxLength
    ensures Validate(ipText, t) != Rejected("Port must be a valid number")
    ensures Strip(ipText) != "" ==> (Validate(ipText, t).Accepted? <==> MinPort <= DigitsValue(t) <= MaxPort)
  {
    StripKeeps(t);
    ParseDigits(t);
  }

  /** A string with no whitespace at either end is its own strip(). */
  lemma StripKeeps(s: string)
    requires |s| > 0 && !IsSpace(s[0]) && !IsSpace(s[|s| - 1])
    ensures Strip(s) == s
  {
    assert TrimLeft(s) == s;
  }

  /** The characters of port_input.allowed_chars are the decimal digits. */
  lemma PortCharsAreDigits(c: char)
    ensures c in PortChars <==> IsDigit(c)
  {
  }

  /**
   * insert_text on the port field keeps it a string of at most five digits:
   * the filter lets only digits through and the clipping keeps the length.
   */
  lemma PortFieldInsert(text: string, cursor: int, s: string)
    requires AllDigits(text) && |text| <= PortMaxLength && 0 <= cursor <= |text|
    ensures var t := TextInputs.Clipped(text, TextInputs.Filtered(s, Some(PortChars)), Some(PortMaxLength));
      var r := TextInputs.Inserted(text, cursor, t).0;
      AllDigits(r) && |r| <= PortMaxLength
  {
    var f := TextInputs.Filtered(s, Some(PortChars));
    var t := TextInputs.Clipped(text, f, Some(PortMaxLength));
    TextInputs.ClippedKeepsLimit(text, f, PortMaxLength);
    assert forall c :: c in t ==> c in f;
    var r := TextInputs.Inserted(text, cursor, t).0;
    assert r == text[..cursor] + t + text[cursor..];
    forall i | 0 <= i < |r| ensures IsDigit(r[i]) {
      if i < cursor {
        assert r[i] == text[i];
      } else if i < cursor + |t| {
        assert r[i] == t[i - cursor] && t[i - cursor] in t;
      } else {
        assert r[i] == text[i - |t|];
      }
    }
  }

  /** delete_char on the port field keeps it a string of at most five digits. */
  lemma PortFieldDelete(text: string, cursor: int, direction: int)
    requires AllDigits(text) && |text| <= PortMaxLength && 0 <= cursor <= |text|
    ensures var r := TextInputs.Deleted(text, cursor, direction).0;
      AllDigits(r) && |r| <= |text|
  {
    var r := TextInputs.Deleted(text, cursor, direction).0;
    if direction == -1 && cursor > 0 {
      forall i | 0 <= i < |r| ensures IsDigit(r[i]) {
        if i < cursor - 1 { assert r[i] == text[i]; } else { assert r[i] == text[i + 1]; }
      }
    } else if direction == 1 && cursor < |text| {
      forall i | 0 <= i < |r| ensures IsDigit(r[i]) {
        if i < cursor { assert r[i] == text[i]; } else { assert r[i] == text[i + 1]; }
      }
    }
  }

  /** The port the field starts with passes every check: any non-blank address is accepted with port 12345. */
  lemma InitialPortAccepted(ipText: string)
    requires Strip(ipText) != ""
    ensures Validate(ipText, InitialPort) == Accepted(Strip(ipText), 12345)
  {
    InitialPortValue();
    StripKeeps(InitialPort);
    ParseDigits(InitialPort);
  }

  /** The port field starts as five digits worth 12345. */
  lemma InitialPortValue()
    ensures AllDigits(InitialPort) && |InitialPort| <= PortMaxLength && DigitsValue(InitialPort) == 12345
  {
    assert InitialPort[..4] == "1234" && "1234"[..3] == "123" && "123"[..2] == "12" && "12"[..1] == "1";
  }

  class JoinLobbyScene {
    /** Whether on_enter has created the ui manager and the two fields (ip_input and port_input). */
    var hasInputs: bool
    /** Whether the scene belongs to a game, and whether that game has a network manager. */
    var hasGame: bool
    var hasManager: bool
    /** The status label's text and colour. */
    var statusText: string
    var statusColor: Rgb
    var attempts: seq<Attempt>
    var navigation: seq<Lobby.Navigation>

    /** JoinLobbyScene(): no ui and no fields yet. */
    constructor (hasGame: bool, hasManager: bool)
      ensures !hasInputs && this.hasGame == hasGame && this.hasManager == hasManager
      ensures statusText == "" && statusColor == White && attempts == [] && navigation == []
    {
      hasInputs := false;
      this.hasGame := hasGame;
      this.hasManager := hasManager;
      statusText := "";
      statusColor := White;
      attempts := [];
      navigation := [];
    }

    /** on_enter: the ui manager, the two fields and an empty white status label. */
    method OnEnter()
      modifies this`hasInputs, this`statusText, this`statusColor
      ensures hasInputs && statusText == "" && statusColor == White
    {
      hasInputs := true;
      statusText := "";
      statusColor := White;
    }

    /** show_status: the label shows the message, light red for an error and light green otherwise. */
    method ShowStatus(message: string, error: bool)
      requires hasInputs
      modifies this`statusText, this`statusColor
      ensures statusText == message && statusColor == (if error then ErrorColor else OkColor)
    {
      statusText := message;
      statusColor := if error then ErrorColor else OkColor;
    }

    /**
     * on_connect_pressed with the fields' texts (None before on_enter). A
     * refused check shows its message in red and goes no further; an
     * accepted one tries to connect when the game has a network manager and
     * goes on to the lobby when that succeeds, or, without a manager, goes
     * straight to the lobby.
     */
    method OnConnectPressed(ipText: Option<string>, portText: Option<string>, succeeds: bool)
      requires ipText.Some? || portText.Some? ==> hasInputs
      modifies this`statusText, this`statusColor, this`attempts, this`navigation
      ensures ipText.None? || portText.None? ==>
        statusText == old(statusText) && statusColor == old(statusColor)
        && attempts == old(attempts) && navigation == old(navigation)
      ensures ipText.Some? && portText.Some? ==>
        var c := Validate(ipText.value, portText.value);
        && (c.Rejected? ==>
              statusText == c.message && statusColor == ErrorColor
              && attempts == old(attempts) && navigation == old(navigation))
        && (c.Accepted? && hasGame && hasManager ==>
              attempts == old(attempts) + [Attempt(c.ip, c.port, "player")]
              && statusText == (if succeeds then "Connected successfully!" else FailedText(c))
              && statusColor == (if succeeds then OkColor else ErrorColor)
              && navigation == old(navigation) + (if succeeds then [Lobby.LoadScene("lobby")] else []))
        && (c.Accepted? && !(hasGame && hasManager) ==>
              attempts == old(attempts)
              && statusText == "Network manager not available, proceeding to lobby for testing"
              && statusColor == OkColor
              && navigation == old(navigation) + (if hasGame then [Lobby.LoadScene("lobby")] else []))
    {
      if ipText.None? || portText.None? {
        return;
      }
      var c := Validate(ipText.value, portText.value);
      if c.Rejected? {
        ShowStatus(c.message, true);
      } else {
        Connect(c, succeeds);
      }
    }

    /** The rest of on_connect_pressed once the checks have passed. */
    method Connect(c: Check, succeeds: bool)
      requires hasInputs && c.Accepted?
      modifies this`statusText, this`statusColor, this`attempts, this`navigation
      ensures hasGame && hasManager ==>
        attempts == old(attempts) + [Attempt(c.ip, c.port, "player")]
        && statusText == (if succeeds then "Connected successfully!" else FailedText(c))
        && statusColor == (if succeeds then OkColor else ErrorColor)
        && navigation == old(navigation) + (if succeeds then [Lobby.LoadScene("lobby")] else [])
      ensures !(hasGame && hasManager) ==>
        attempts == old(attempts)
        && statusText == "Network manager not available, proceeding to lobby for testing"
        && statusColor == OkColor
        && navigation == old(navigation) + (if hasGame then [Lobby.LoadScene("lobby")] else [])
    {
      ShowStatus(ConnectingText(c), false);
      if hasGame && hasManager {
        attempts := attempts + [Attempt(c.ip, c.port, "player")];
        if succeeds {
          ShowStatus("Connected successfully!", false);
          navigation := navigation + [Lobby.LoadScene("lobby")];
        } else {
          ShowStatus(FailedText(c), true);
        }
      } else {
        ShowStatus("Network manager not available, proceeding to lobby for testing", false);
        if hasGame {
          navigation := navigation + [Lobby.LoadScene("lobby")];
        }
      }
    }

    /** on_back_clicked: back to the previous scene. */
    method OnBackClicked()
      modifies this`navigation
      ensures navigation == old(navigation) + if hasGame then [Lobby.PopScene] else []
    {
      if hasGame {
        navigation := navigation + [Lobby.PopScene];
      }
    }

    /** handle_event for a key press the ui manager did or did not take: Escape goes back. */
    method HandleKey(key: int, uiHandled: bool)
      modifies this`navigation
      ensures navigation == old(navigation)
        + if !(hasInputs && uiHandled) && key == Lobby.KeyEscape && hasGame then [Lobby.PopScene] else []
    {
      if hasInputs && uiHandled {
        return;
      }
      if key == Lobby.KeyEscape && hasGame {
        navigation := navigation + [Lobby.PopScene];
      }
    }
  }

  /** No connection is attempted unless every check passes, and then with what the checks read. */
  lemma AttemptOnlyWhenAccepted(ipText: string, portText: string, a: Attempt)
    requires a.ip == Strip(ipText) && Validate(ipText, portText) == Accepted(a.ip, a.port)
    ensures Strip(ipText) != "" && Strip(portText) != ""
    ensures ParseInt(Strip(portText)) == Some(a.port) && MinPort <= a.port <= MaxPort
  {
  }
}
