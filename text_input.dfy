/**
 * TextInput of engine/ui/builtin/textInput.py (engine/rendering/ui.py
 * holds the same class): a one-line editor with a cursor, focus, an
 * optional maximum length and an optional set of allowed characters.
 *
 * The events it emits go through Widget.emit_event, which Widgets.Emit
 * models; here they are recorded in order as UIEvents. Font metrics are
 * the `widthOf` parameter (font.size(c)[0]); str.isprintable is the
 * `printable` flag of a KeyDown event.
 */
module TextInputs {
  import opened Wrappers
  import opened Hierarchy
  import opened Widgets

  // pygame 2 key codes.
  const KeyBackspace: int := 8
  const KeyReturn: int := 13
  const KeyDelete: int := 127
  const KeyRight: int := 1073741903
  const KeyLeft: int := 1073741904
  const KeyHome: int := 1073741898
  const KeyEnd: int := 1073741901
  const KeyKeypadEnter: int := 1073741912

  /** The inner padding, in pixels, before the first character. */
  const Padding: int := 8

  /** Python's s[:k]: k characters, or all but the last -k when k is negative. */
  function PyPrefix(s: string, k: int): (r: string)
    ensures r <= s
    ensures 0 <= k ==> |r| == if k < |s| then k else |s|
    ensures k < 0 ==> |r| == if |s| + k > 0 then |s| + k else 0
  {
    if 0 <= k then (if k < |s| then s[..k] else s)
    else if |s| + k > 0 then s[..|s| + k] else []
  }

  /** ''.join(c for c in s if c in allowed): the characters of s that are allowed, in order. */
  function Keep(s: string, allowed: set<char>): (r: string)
    ensures |r| <= |s|
    ensures forall c :: c in r <==> c in s && c in allowed
  {
    if |s| == 0 then []
    else (if s[0] in allowed then [s[0]] else []) + Keep(s[1..], allowed)
  }

  /** The allowed_chars filter; None and the empty set (both false in Python) let everything through. */
  function Filtered(s: string, allowed: Option<set<char>>): (r: string)
    ensures allowed.None? || allowed.value == {} ==> r == s
    ensures allowed.Some? && allowed.value != {} ==> forall c :: c in r <==> c in s && c in allowed.value
  {
    if allowed.Some? && allowed.value != {} then Keep(s, allowed.value) else s
  }

  /** Whether the max_length test applies: a limit other than None and 0, already exceeded together with t. */
  predicate OverLimit(text: string, t: string, maxLength: Option<int>)
  {
    maxLength.Some? && maxLength.value != 0 && |text| + |t| > maxLength.value
  }

  /** The part of t that insert_text keeps as written: t[:max_length - len(text)], negative bound and all. */
  function ClippedAsWritten(text: string, t: string, maxLength: Option<int>): (r: string)
    ensures r <= t
    ensures !OverLimit(text, t, maxLength) ==> r == t
    ensures OverLimit(text, t, maxLength) && |text| <= maxLength.value ==> |text| + |r| == maxLength.value
    ensures OverLimit(text, t, maxLength) && maxLength.value < |text| ==>
      |r| == if |t| + maxLength.value - |text| > 0 then |t| + maxLength.value - |text| else 0
  {
    if OverLimit(text, t, maxLength) then PyPrefix(t, maxLength.value - |text|) else t
  }

  /** The part of t that fits: as written, except that no room left means nothing is kept. */
  function Clipped(text: string, t: string, maxLength: Option<int>): (r: string)
    ensures r <= t
    ensures !OverLimit(text, t, maxLength) ==> r == t
    ensures OverLimit(text, t, maxLength) ==> |text| + |r| <= maxLength.value || r == []
  {
    if OverLimit(text, t, maxLength) then
      (if maxLength.value - |text| > 0 then PyPrefix(t, maxLength.value - |text|) else [])
    else t
  }

  /** Within the limit, the corrected clipping is the one written. */
  lemma ClippedAgrees(text: string, t: string, maxLength: Option<int>)
    requires maxLength.Some? ==> |text| <= maxLength.value
    ensures Clipped(text, t, maxLength) == ClippedAsWritten(text, t, maxLength)
  {
  }

  /** A positive limit is never passed by more text: with a length in the limit, the text stays in it. */
  lemma ClippedKeepsLimit(text: string, t: string, m: int)
    requires 0 < m
    ensures |text| <= m ==> |text| + |Clipped(text, t, Some(m))| <= m
    ensures m <= |text| ==> Clipped(text, t, Some(m)) == []
  {
  }

  /**
   * As written, a text already longer than max_length (set_text does not
   * check the limit) still grows: with "abcdef" and a limit of 3, inserting
   * "wxyz" keeps "wxyz"[:-3], the "w".
   */
  lemma OverlongTextStillGrows()
    ensures ClippedAsWritten("abcdef", "wxyz", Some(3)) == "w"
    ensures Clipped("abcdef", "wxyz", Some(3)) == ""
  {
    assert OverLimit("abcdef", "wxyz", Some(3));
    assert PyPrefix("wxyz", 3 - 6) == "wxyz"[..1];
  }

  /** The text and cursor once t is inserted at the cursor: the cursor ends just after it. */
  function Inserted(text: string, cursor: int, t: string): (r: (string, int))
    requires 0 <= cursor <= |text|
    ensures |r.0| == |text| + |t| && r.1 == cursor + |t|
    ensures r.0[..cursor] == text[..cursor] && r.0[cursor..r.1] == t && r.0[r.1..] == text[cursor..]
  {
    (text[..cursor] + t + text[cursor..], cursor + |t|)
  }

  /**
   * delete_char's edit: backspace (-1) drops the character before the
   * cursor and moves it back, delete (1) drops the one under it; at the ends
   * of the text, or for any other direction, nothing changes.
   */
  function Deleted(text: string, cursor: int, direction: int): (r: (string, int))
    requires 0 <= cursor <= |text|
    ensures 0 <= r.1 <= |r.0|
    ensures direction == -1 && cursor > 0 ==> r.0 == text[..cursor - 1] + text[cursor..] && r.1 == cursor - 1
    ensures direction == 1 && cursor < |text| ==> r.0 == text[..cursor] + text[cursor + 1..] && r.1 == cursor
    ensures !(direction == -1 && cursor > 0) && !(direction == 1 && cursor < |text|) ==> r == (text, cursor)
  {
    if direction == -1 && cursor > 0 then (text[..cursor - 1] + text[cursor..], cursor - 1)
    else if direction == 1 && cursor < |text| then (text[..cursor] + text[cursor + 1..], cursor)
    else (text, cursor)
  }

  /** Backspace undoes the insertion of one character. */
  lemma InsertThenBackspace(text: string, cursor: int, c: char)
    requires 0 <= cursor <= |text|
    ensures var (t1, c1) := Inserted(text, cursor, [c]); Deleted(t1, c1, -1) == (text, cursor)
  {
    var (t1, c1) := Inserted(text, cursor, [c]);
    assert t1[..c1 - 1] == text[..cursor];
    assert t1[c1..] == text[cursor..];
    assert text[..cursor] + text[cursor..] == text;
  }

  /** Delete, with the cursor left in front of the inserted character, undoes it too. */
  lemma InsertThenDelete(text: string, cursor: int, c: char)
    requires 0 <= cursor <= |text|
    ensures var (t1, _) := Inserted(text, cursor, [c]); Deleted(t1, cursor, 1) == (text, cursor)
  {
    var (t1, c1) := Inserted(text, cursor, [c]);
    assert t1[..cursor] == text[..cursor];
    assert t1[cursor + 1..] == text[cursor..];
    assert text[..cursor] + text[cursor..] == text;
  }

  /** move_cursor: left (-1) stops at 0, any other direction moves right and stops at the end. */
  function Moved(text: string, cursor: int, direction: int): (r: int)
    requires 0 <= cursor <= |text|
    ensures 0 <= r <= |text|
    ensures direction == -1 ==> r == if cursor > 0 then cursor - 1 else 0
    ensures direction != -1 ==> r == if cursor < |text| then cursor + 1 else |text|
  {
    if direction == -1 then (if cursor - 1 > 0 then cursor - 1 else 0)
    else if |text| < cursor + 1 then |text| else cursor + 1
  }

  /**
   * Where a click puts the cursor: after every character whose middle is
   * left of the click, stopping at the first whose middle is right of it.
   */
  function ClickIndex(text: string, widthOf: char -> nat, relX: int): (r: nat)
    ensures r <= |text|
  {
    if |text| == 0 then 0
    else if widthOf(text[0]) / 2 > relX then 0
    else 1 + ClickIndex(text[1..], widthOf, relX - widthOf(text[0]))
  }

  /** A click further right never puts the cursor further left. */
  lemma {:induction false} ClickIndexMonotone(text: string, widthOf: char -> nat, relX: int, relX': int)
    requires relX <= relX'
    ensures ClickIndex(text, widthOf, relX) <= ClickIndex(text, widthOf, relX')
  {
    if |text| > 0 && widthOf(text[0]) / 2 <= relX {
      ClickIndexMonotone(text[1..], widthOf, relX - widthOf(text[0]), relX' - widthOf(text[0]));
    }
  }

  /** The loop of handle_event that places the cursor from the click's x offset. */
  method CursorFromClick(text: string, widthOf: char -> nat, relX: int) returns (pos: nat)
    ensures pos == ClickIndex(text, widthOf, relX)
  {
    var textWidth := 0;
    pos := 0;
    var i := 0;
    while i < |text|
      invariant 0 <= i <= |text| && pos == i
      invariant ClickIndex(text, widthOf, relX) == i + ClickIndex(text[i..], widthOf, relX - textWidth)
    {
      assert text[i..][1..] == text[i + 1..];
      var charWidth := widthOf(text[i]);
      if textWidth + charWidth / 2 > relX {
        break;
      }
      textWidth := textWidth + charWidth;
      pos := i + 1;
      i := i + 1;
    }
  }

  /** The keys handle_event treats specially while focused; any other key inserts its printable text. */
  const NamedKeys := {KeyBackspace, KeyDelete, KeyLeft, KeyRight, KeyHome, KeyEnd, KeyReturn, KeyKeypadEnter}

  class TextInput {
    const id: Id
    var rect: Rect
    var visible: bool
    var enabled: bool
    var text: string
    var placeholder: string
    var cursor: int
    var focused: bool
    var cursorVisible: bool
    var blinkTime: real
    var blinkInterval: real
    var maxLength: Option<int>
    var allowedChars: Option<set<char>>
    var emitted: seq<UIEvent>

    /** The cursor is always between 0 and the length of the text. */
    ghost predicate Valid()
      reads this
    {
      0 <= cursor <= |text|
    }

    /** TextInput(rect, initial_text, placeholder): the cursor at the end, unfocused, no limits. */
    constructor (id: Id, rect: Rect, initialText: string, placeholder: string)
      ensures Valid() && this.id == id && this.rect == rect && visible && enabled
      ensures text == initialText && cursor == |initialText| && this.placeholder == placeholder
      ensures !focused && cursorVisible && blinkTime == 0.0 && blinkInterval == 0.5
      ensures maxLength.None? && allowedChars.None? && emitted == []
    {
      this.id := id;
      this.rect := rect;
      visible, enabled := true, true;
      text := initialText;
      this.placeholder := placeholder;
      cursor := |initialText|;
      focused := false;
      cursorVisible := true;
      blinkTime, blinkInterval := 0.0, 0.5;
      maxLength, allowedChars := None, None;
      emitted := [];
    }

    /** set_focus: focus_gained or focus_lost only when the focus changes. */
    method SetFocus(f: bool)
      modifies this
      ensures focused == f && text == old(text) && cursor == old(cursor)
      ensures emitted == old(emitted) + if old(focused) == f then [] else [UIEvent(if f then "focus_gained" else "focus_lost", id, NoData)]
      ensures rect == old(rect) && visible == old(visible) && enabled == old(enabled)
      ensures maxLength == old(maxLength) && allowedChars == old(allowedChars) && cursorVisible == old(cursorVisible)
      ensures placeholder == old(placeholder) && blinkTime == old(blinkTime) && blinkInterval == old(blinkInterval)
    {
      if focused != f {
        focused := f;
        emitted := emitted + [UIEvent(if f then "focus_gained" else "focus_lost", id, NoData)];
      }
    }

    /**
     * insert_text: nothing when disabled; otherwise the allowed characters
     * that fit are inserted at the cursor, the cursor moves past them and
     * text_changed is emitted, unless nothing was left to insert.
     */
    method InsertText(s: string)
      requires Valid()
      modifies this
      ensures Valid() && focused == old(focused) && rect == old(rect)
      ensures var t := Clipped(old(text), Filtered(s, old(allowedChars)), old(maxLength));
        if !old(enabled) || t == [] then text == old(text) && cursor == old(cursor) && emitted == old(emitted)
        else (text, cursor) == Inserted(old(text), old(cursor), t) && emitted == old(emitted) + [UIEvent("text_changed", id, TextData(text))]
      ensures visible == old(visible) && enabled == old(enabled) && maxLength == old(maxLength) && allowedChars == old(allowedChars)
      ensures cursorVisible == old(cursorVisible) && placeholder == old(placeholder) && blinkTime == old(blinkTime) && blinkInterval == old(blinkInterval)
    {
      if !enabled {
        return;
      }
      var t := Filtered(s, allowedChars);
      t := Clipped(text, t, maxLength);
      if t != [] {
        text, cursor := Inserted(text, cursor, t).0, Inserted(text, cursor, t).1;
        emitted := emitted + [UIEvent("text_changed", id, TextData(text))];
      }
    }

    /**
     * delete_char: nothing when disabled or when the text is empty;
     * otherwise the Deleted edit, and text_changed even when nothing was removed.
     */
    method DeleteChar(direction: int)
      requires Valid()
      modifies this
      ensures Valid() && focused == old(focused) && rect == old(rect)
      ensures !old(enabled) || old(text) == [] ==> text == old(text) && cursor == old(cursor) && emitted == old(emitted)
      ensures old(enabled) && old(text) != [] ==>
        (text, cursor) == Deleted(old(text), old(cursor), direction) && emitted == old(emitted) + [UIEvent("text_changed", id, TextData(text))]
      ensures visible == old(visible) && enabled == old(enabled) && maxLength == old(maxLength) && allowedChars == old(allowedChars)
      ensures cursorVisible == old(cursorVisible) && placeholder == old(placeholder) && blinkTime == old(blinkTime) && blinkInterval == old(blinkInterval)
    {
      if !enabled || text == [] {
        return;
      }
      var r := Deleted(text, cursor, direction);
      text, cursor := r.0, r.1;
      emitted := emitted + [UIEvent("text_changed", id, TextData(text))];
    }

    method MoveCursor(direction: int)
      requires Valid()
      modifies this
      ensures Valid() && cursor == Moved(old(text), old(cursor), direction)
      ensures text == old(text) && focused == old(focused) && emitted == old(emitted) && rect == old(rect)
      ensures visible == old(visible) && enabled == old(enabled) && maxLength == old(maxLength) && allowedChars == old(allowedChars)
      ensures cursorVisible == old(cursorVisible) && placeholder == old(placeholder) && blinkTime == old(blinkTime) && blinkInterval == old(blinkInterval)
    {
      cursor := Moved(text, cursor, direction);
    }

    /** set_text: the cursor is kept, or pulled back to the new end; text_changed is emitted. */
    method SetText(t: string)
      requires Valid()
      modifies this
      ensures Valid() && text == t && cursor == (if old(cursor) < |t| then old(cursor) else |t|)
      ensures emitted == old(emitted) + [UIEvent("text_changed", id, TextData(t))]
      ensures focused == old(focused) && rect == old(rect) && visible == old(visible) && enabled == old(enabled)
    {
      text := t;
      cursor := if cursor < |t| then cursor else |t|;
      emitted := emitted + [UIEvent("text_changed", id, TextData(text))];
    }

    /** clear: set_text(""), which puts the cursor at 0. */
    method Clear()
      requires Valid()
      modifies this
      ensures Valid() && text == [] && cursor == 0
      ensures emitted == old(emitted) + [UIEvent("text_changed", id, TextData([]))]
      ensures focused == old(focused)
    {
      SetText([]);
    }

    /**
     * handle_event: a left press inside the rect focuses the input, places
     * the cursor and is taken; a left press elsewhere drops the focus. While
     * focused, every key press is taken: backspace, delete, the arrows, HOME,
     * END, RETURN and keypad ENTER edit or move; any other printable key
     * inserts its text.
     */
    method HandleEvent(e: Event, widthOf: char -> nat) returns (handled: bool)
      requires Valid()
      modifies this
      ensures Valid() && rect == old(rect) && visible == old(visible) && enabled == old(enabled)
      ensures !old(visible) || !old(enabled) ==> !handled && text == old(text) && cursor == old(cursor) && focused == old(focused) && emitted == old(emitted)
      ensures old(visible) && old(enabled) && e.ButtonDown? && e.button == LeftButton && CollidePoint(old(rect), e.x, e.y) ==>
        handled && focused && text == old(text) && cursor == ClickIndex(old(text), widthOf, e.x - old(rect).x - Padding)
        && emitted == old(emitted) + (if old(focused) then [] else [UIEvent("focus_gained", id, NoData)])
      ensures old(visible) && old(enabled) && e.ButtonDown? && e.button == LeftButton && !CollidePoint(old(rect), e.x, e.y) ==>
        !handled && !focused && text == old(text) && cursor == old(cursor)
        && emitted == old(emitted) + (if old(focused) then [UIEvent("focus_lost", id, NoData)] else [])
      ensures old(visible) && old(enabled) && e.KeyDown? ==> handled == old(focused)
      ensures old(visible) && old(enabled) && e.KeyDown? && old(focused) && e.key == KeyHome ==> cursor == 0 && text == old(text) && emitted == old(emitted)
      ensures old(visible) && old(enabled) && e.KeyDown? && old(focused) && e.key == KeyEnd ==> cursor == |text| && text == old(text) && emitted == old(emitted)
      ensures old(visible) && old(enabled) && e.KeyDown? && old(focused) && (e.key == KeyReturn || e.key == KeyKeypadEnter) ==>
        !focused && text == old(text) && cursor == old(cursor)
        && emitted == old(emitted) + [UIEvent("enter_pressed", id, TextData(old(text))), UIEvent("focus_lost", id, NoData)]
      ensures old(visible) && old(enabled) && e.KeyDown? && old(focused) && e.key == KeyBackspace && old(text) != [] ==>
        (text, cursor) == Deleted(old(text), old(cursor), -1)
      ensures old(visible) && old(enabled) && e.KeyDown? && old(focused) && e.key == KeyDelete && old(text) != [] ==>
        (text, cursor) == Deleted(old(text), old(cursor), 1)
      ensures old(visible) && old(enabled) && (e.Motion? || e.ButtonUp? || e.OtherEvent? || (e.ButtonDown? && e.button != LeftButton)) ==>
        !handled && text == old(text) && cursor == old(cursor) && focused == old(focused) && emitted == old(emitted)
      ensures old(visible) && old(enabled) && e.KeyDown? && !old(focused) ==>
        text == old(text) && cursor == old(cursor) && focused == old(focused) && emitted == old(emitted)
      ensures old(visible) && old(enabled) && e.KeyDown? && old(focused) && (e.key == KeyBackspace || e.key == KeyDelete) ==>
        focused && (if old(text) == [] then text == old(text) && cursor == old(cursor) && emitted == old(emitted)
        else emitted == old(emitted) + [UIEvent("text_changed", id, TextData(text))])
      ensures old(visible) && old(enabled) && e.KeyDown? && old(focused) && (e.key == KeyLeft || e.key == KeyRight) ==>
        focused && text == old(text) && emitted == old(emitted) && cursor == Moved(old(text), old(cursor), if e.key == KeyLeft then -1 else 1)
      ensures old(visible) && old(enabled) && e.KeyDown? && old(focused) && (e.key == KeyHome || e.key == KeyEnd) ==> focused
      ensures old(visible) && old(enabled) && e.KeyDown? && old(focused) && !(e.key in NamedKeys) ==>
        focused && var t := Clipped(old(text), Filtered(e.text, old(allowedChars)), old(maxLength));
        if |e.text| == 0 || !e.printable || t == [] then text == old(text) && cursor == old(cursor) && emitted == old(emitted)
        else (text, cursor) == Inserted(old(text), old(cursor), t) && emitted == old(emitted) + [UIEvent("text_changed", id, TextData(text))]
      ensures maxLength == old(maxLength) && allowedChars == old(allowedChars) && cursorVisible == old(cursorVisible)
      ensures placeholder == old(placeholder) && blinkTime == old(blinkTime) && blinkInterval == old(blinkInterval)
    {
      if !visible || !enabled {
        return false;
      }
      if e.ButtonDown? && e.button == LeftButton {
        if CollidePoint(rect, e.x, e.y) {
          SetFocus(true);
          var pos := CursorFromClick(text, widthOf, e.x - rect.x - Padding);
          cursor := pos;
          return true;
        } else {
          SetFocus(false);
        }
      }
      if focused && e.KeyDown? {
        if e.key == KeyBackspace {
          DeleteChar(-1);
        } else if e.key == KeyDelete {
          DeleteChar(1);
        } else if e.key == KeyLeft {
          MoveCursor(-1);
        } else if e.key == KeyRight {
          MoveCursor(1);
        } else if e.key == KeyHome {
          cursor := 0;
        } else if e.key == KeyEnd {
          cursor := |text|;
        } else if e.key == KeyReturn || e.key == KeyKeypadEnter {
          emitted := emitted + [UIEvent("enter_pressed", id, TextData(text))];
          SetFocus(false);
        } else if |e.text| > 0 && e.printable {
          InsertText(e.text);
        }
        return true;
      }
      return false;
    }

    /** The blink of update: while focused the cursor toggles each interval; unfocused it is hidden. */
    method Update(dt: real)
      modifies this
      ensures text == old(text) && cursor == old(cursor) && focused == old(focused) && emitted == old(emitted)
      ensures blinkInterval == old(blinkInterval)
      ensures !focused ==> !cursorVisible && blinkTime == old(blinkTime)
      ensures focused && old(blinkTime) + dt >= blinkInterval ==> cursorVisible == !old(cursorVisible) && blinkTime == 0.0
      ensures focused && old(blinkTime) + dt < blinkInterval ==> cursorVisible == old(cursorVisible) && blinkTime == old(blinkTime) + dt
    {
      if focused {
        blinkTime := blinkTime + dt;
        if blinkTime >= blinkInterval {
          cursorVisible := !cursorVisible;
          blinkTime := 0.0;
        }
      } else {
        cursorVisible := false;
      }
    }
  }
}
