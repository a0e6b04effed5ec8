/**
 * The Widget base class of engine/ui/widget.py, whose tree, handler,
 * geometry and mouse code engine/rendering/ui.py repeats line for line
 * and engine/ui.py repeats with one difference: there a widget handles
 * its own mouse press or release before its children see the event.
 *
 * Widgets live in one arena: the links are a Hierarchy.Forest, every
 * widget's other fields a W value. Handlers are Python callables compared
 * by identity, here ids; emit_event records each handler call and the
 * offer to the parent (Widget.handle_child_event, which does nothing)
 * instead of running them. Every Python call of find_child,
 * handle_event, update, contains_point, get_world_rect and
 * get_content_rect takes one level of the interpreter's recursion budget
 * `fuel`; running out is a RecursionError. Nothing keeps the links
 * acyclic, so a cycle ends in that error.
 */
module Widgets {
  import opened Wrappers
  import opened Hierarchy
  import Games

  /** pygame.Rect: integer left, top, width and height. */
  datatype Rect = Rect(x: int, y: int, width: int, height: int)

  /** Rect.collidepoint: the left and top edges are inside, the right and bottom edges are not. */
  predicate CollidePoint(r: Rect, px: int, py: int)
  {
    r.x <= px < r.x + r.width && r.y <= py < r.y + r.height
  }

  datatype WidgetState = Normal | Hover | Pressed | Disabled

  /** The pygame events the widgets look at, with the integer pixel positions pygame reports. */
  datatype Event =
    | Motion(x: int, y: int)
    | ButtonDown(button: int, x: int, y: int)
    | ButtonUp(button: int, x: int, y: int)
    | KeyDown(key: int, text: string, printable: bool)
    | OtherEvent

  const LeftButton: int := 1

  /** The payload of a UIEvent. */
  datatype Data = NoData | EventData(event: Event) | TextData(text: string) | ValueData(value: real)

  /** UIEvent: its type, the widget that emitted it and its payload. */
  datatype UIEvent = UIEvent(kind: string, widget: Id, data: Data)

  /** One step of emit_event: a handler called with the event, or the parent offered it. */
  datatype Note = Ran(handler: Games.Handler, event: UIEvent) | Offered(parent: Id, event: UIEvent)

  /** A widget's fields other than its links. */
  datatype W = W(name: string, rect: Rect, padding: Rect, visible: bool, enabled: bool, state: WidgetState,
                 mouseInside: bool, mousePressed: bool, handlers: map<string, seq<Games.Handler>>)

  /** Widget.__init__: visible, enabled, NORMAL, no padding, no handlers, mouse neither inside nor pressed. */
  function NewWidget(name: string, rect: Rect): (w: W)
    ensures w.name == name && w.rect == rect && w.padding == Rect(0, 0, 0, 0)
    ensures w.visible && w.enabled && w.state == Normal && !w.mouseInside && !w.mousePressed && w.handlers == map[]
  {
    W(name, rect, Rect(0, 0, 0, 0), true, true, Normal, false, false, map[])
  }

  /** Every parent link is between widgets of the arena. */
  predicate ParentsIn(ws: map<Id, W>, parent: map<Id, Id>)
  {
    forall c :: c in parent ==> c in ws && parent[c] in ws
  }

  /** Every child list belongs to a widget of the arena and names widgets of it. */
  predicate KidsIn(ws: map<Id, W>, children: map<Id, seq<Id>>)
  {
    children.Keys == ws.Keys && forall p, c :: p in children && c in children[p] ==> c in ws
  }

  /** Every link names a widget of the arena. */
  predicate Wf(ws: map<Id, W>, parent: map<Id, Id>, children: map<Id, seq<Id>>)
  {
    ParentsIn(ws, parent) && KidsIn(ws, children)
  }

  lemma LinkedWf(ws: map<Id, W>, parent: map<Id, Id>, children: map<Id, seq<Id>>)
    requires Linked(ws.Keys, parent, children)
    ensures Wf(ws, parent, children)
  {
  }

  /** Two arenas that differ at most in the widgets' hover, press and visual state. */
  predicate SameShape(ws: map<Id, W>, ws': map<Id, W>)
  {
    ws'.Keys == ws.Keys
    && forall u :: u in ws ==>
      ws'[u].name == ws[u].name && ws'[u].rect == ws[u].rect && ws'[u].padding == ws[u].padding
      && ws'[u].visible == ws[u].visible && ws'[u].enabled == ws[u].enabled && ws'[u].handlers == ws[u].handlers
  }

  // ---------------------------------------------------------------------
  // Geometry: get_world_rect, get_content_rect, contains_point

  /** get_world_rect: the own rect, moved by the parent's content rect when there is a parent. */
  function WorldRect(ws: map<Id, W>, parent: map<Id, Id>, w: Id, fuel: nat): (r: Option<Rect>)
    requires ParentsIn(ws, parent)
    requires w in ws
    ensures r.Some? ==> r.value.width == ws[w].rect.width && r.value.height == ws[w].rect.height
    ensures r.Some? && w !in parent ==> r.value == ws[w].rect
    ensures fuel > 0 && w !in parent ==> r.Some?
    decreases fuel
  {
    if fuel == 0 then None
    else if w in parent then
      match ContentRect(ws, parent, parent[w], fuel - 1)
      case None => None
      case Some(pr) => Some(Rect(pr.x + ws[w].rect.x, pr.y + ws[w].rect.y, ws[w].rect.width, ws[w].rect.height))
    else Some(ws[w].rect)
  }

  /** A rect shrunk by a padding rect, whose right edge is its left plus its width. */
  function Inset(r: Rect, p: Rect): Rect
  {
    Rect(r.x + p.x, r.y + p.y, r.width - p.x - (p.x + p.width), r.height - p.y - (p.y + p.height))
  }

  /** get_content_rect: the world rect minus the padding. */
  function ContentRect(ws: map<Id, W>, parent: map<Id, Id>, w: Id, fuel: nat): (r: Option<Rect>)
    requires ParentsIn(ws, parent)
    requires w in ws
    ensures r.Some? ==> r.value.width == ws[w].rect.width - ws[w].padding.x - (ws[w].padding.x + ws[w].padding.width)
    ensures r.Some? ==> r.value.height == ws[w].rect.height - ws[w].padding.y - (ws[w].padding.y + ws[w].padding.height)
    ensures fuel > 1 && w !in parent ==> r == Some(Inset(ws[w].rect, ws[w].padding))
    decreases fuel
  {
    if fuel == 0 then None
    else match WorldRect(ws, parent, w, fuel - 1)
      case None => None
      case Some(r) => Some(Inset(r, ws[w].padding))
  }

  /** contains_point: collidepoint on the world rect. */
  function ContainsPoint(ws: map<Id, W>, parent: map<Id, Id>, w: Id, x: int, y: int, fuel: nat): (r: Option<bool>)
    requires ParentsIn(ws, parent)
    requires w in ws
    ensures r == Some(true) ==> ws[w].rect.width > 0 && ws[w].rect.height > 0
    ensures fuel > 1 && w !in parent ==> r == Some(CollidePoint(ws[w].rect, x, y))
  {
    if fuel == 0 then None
    else match WorldRect(ws, parent, w, fuel - 1)
      case None => None
      case Some(r) => Some(CollidePoint(r, x, y))
  }

  /** A larger recursion budget gives the same world rect; the budget only decides whether one is found. */
  lemma {:induction false} WorldRectMoreFuel(ws: map<Id, W>, parent: map<Id, Id>, w: Id, fuel: nat, more: nat)
    requires ParentsIn(ws, parent) && w in ws && fuel <= more
    requires WorldRect(ws, parent, w, fuel).Some?
    ensures WorldRect(ws, parent, w, more) == WorldRect(ws, parent, w, fuel)
    decreases fuel
  {
    if w in parent {
      ContentRectMoreFuel(ws, parent, parent[w], fuel - 1, more - 1);
    }
  }

  lemma {:induction false} ContentRectMoreFuel(ws: map<Id, W>, parent: map<Id, Id>, w: Id, fuel: nat, more: nat)
    requires ParentsIn(ws, parent) && w in ws && fuel <= more
    requires ContentRect(ws, parent, w, fuel).Some?
    ensures ContentRect(ws, parent, w, more) == ContentRect(ws, parent, w, fuel)
    decreases fuel
  {
    WorldRectMoreFuel(ws, parent, w, fuel - 1, more - 1);
  }

  /** Hover and press state play no part in where a widget is. */
  lemma {:induction false} WorldRectShape(ws: map<Id, W>, ws': map<Id, W>, parent: map<Id, Id>, w: Id, fuel: nat)
    requires ParentsIn(ws, parent) && SameShape(ws, ws') && w in ws
    ensures ParentsIn(ws', parent)
    ensures WorldRect(ws', parent, w, fuel) == WorldRect(ws, parent, w, fuel)
    ensures ContentRect(ws', parent, w, fuel) == ContentRect(ws, parent, w, fuel)
    decreases fuel
  {
    if fuel > 0 {
      WorldRectShape(ws, ws', parent, w, fuel - 1);
      if w in parent {
        WorldRectShape(ws, ws', parent, parent[w], fuel - 1);
      }
    }
  }

  // ---------------------------------------------------------------------
  // find_child

  /** The result of find_child: a widget, None, or a RecursionError. */
  datatype Search = Found(id: Id) | Absent | TooDeep

  /** find_child: the children in order, each one's own name before its descendants. */
  function FindChild(ws: map<Id, W>, children: map<Id, seq<Id>>, w: Id, name: string, fuel: nat): (r: Search)
    requires KidsIn(ws, children) && w in ws
    ensures r.Found? ==> r.id in ws && ws[r.id].name == name
    ensures fuel > 0 && children[w] == [] ==> r == Absent
    decreases fuel, 0
  {
    if fuel == 0 then TooDeep else FindAmong(ws, children, children[w], name, fuel - 1)
  }

  /** The loop of find_child over a list of widgets. */
  function FindAmong(ws: map<Id, W>, children: map<Id, seq<Id>>, kids: seq<Id>, name: string, fuel: nat): (r: Search)
    requires KidsIn(ws, children) && forall c :: c in kids ==> c in ws
    ensures r.Found? ==> r.id in ws && ws[r.id].name == name
    decreases fuel, 1, |kids|
  {
    if |kids| == 0 then Absent
    else if ws[kids[0]].name == name then Found(kids[0])
    else match FindChild(ws, children, kids[0], name, fuel)
      case Absent => FindAmong(ws, children, kids[1..], name, fuel)
      case r => r
  }

  /** The descendants of w in depth-first pre-order; None when the tree is deeper than the budget. */
  function Preorder(ws: map<Id, W>, children: map<Id, seq<Id>>, w: Id, fuel: nat): (r: Option<seq<Id>>)
    requires KidsIn(ws, children) && w in ws
    ensures r.Some? ==> forall x :: x in r.value ==> x in ws
    decreases fuel, 0
  {
    if fuel == 0 then None else PreorderAmong(ws, children, children[w], fuel - 1)
  }

  /** Each widget of the list followed by its descendants, in pre-order. */
  function PreorderAmong(ws: map<Id, W>, children: map<Id, seq<Id>>, kids: seq<Id>, fuel: nat): (r: Option<seq<Id>>)
    requires KidsIn(ws, children) && forall c :: c in kids ==> c in ws
    ensures r.Some? ==> forall x :: x in r.value ==> x in ws
    decreases fuel, 1, |kids|
  {
    if |kids| == 0 then Some([])
    else
      var here := Preorder(ws, children, kids[0], fuel);
      var rest := PreorderAmong(ws, children, kids[1..], fuel);
      if here.None? || rest.None? then None
      else Some([kids[0]] + here.value + rest.value)
  }

  /** The first widget of the list with the name, or Absent. */
  function FirstNamed(ws: map<Id, W>, s: seq<Id>, name: string): (r: Search)
    requires forall x :: x in s ==> x in ws
    ensures !r.TooDeep?
    ensures r.Found? ==> r.id in s && ws[r.id].name == name
    ensures r.Absent? <==> forall x :: x in s ==> ws[x].name != name
  {
    if |s| == 0 then Absent
    else if ws[s[0]].name == name then Found(s[0])
    else FirstNamed(ws, s[1..], name)
  }

  lemma {:induction false} FirstNamedAppend(ws: map<Id, W>, s: seq<Id>, t: seq<Id>, name: string)
    requires forall x :: x in s + t ==> x in ws
    ensures FirstNamed(ws, s + t, name) == if FirstNamed(ws, s, name).Absent? then FirstNamed(ws, t, name) else FirstNamed(ws, s, name)
  {
    if |s| > 0 {
      assert (s + t)[1..] == s[1..] + t;
      FirstNamedAppend(ws, s[1..], t, name);
    } else {
      assert s + t == t;
    }
  }

  /** find_child returns the first descendant in depth-first pre-order with the name, or None. */
  lemma {:induction false} FindFollowsPreorder(ws: map<Id, W>, children: map<Id, seq<Id>>, w: Id, name: string, fuel: nat)
    requires KidsIn(ws, children) && w in ws
    requires Preorder(ws, children, w, fuel).Some?
    ensures FindChild(ws, children, w, name, fuel) == FirstNamed(ws, Preorder(ws, children, w, fuel).value, name)
    decreases fuel, 0
  {
    FindAmongFollowsPreorder(ws, children, children[w], name, fuel - 1);
  }

  lemma {:induction false} FindAmongFollowsPreorder(ws: map<Id, W>, children: map<Id, seq<Id>>, kids: seq<Id>, name: string, fuel: nat)
    requires KidsIn(ws, children) && forall c :: c in kids ==> c in ws
    requires PreorderAmong(ws, children, kids, fuel).Some?
    ensures FindAmong(ws, children, kids, name, fuel) == FirstNamed(ws, PreorderAmong(ws, children, kids, fuel).value, name)
    decreases fuel, 1, |kids|
  {
    if |kids| > 0 {
      var a := Preorder(ws, children, kids[0], fuel).value;
      var b := PreorderAmong(ws, children, kids[1..], fuel).value;
      var s := [kids[0]] + a + b;
      assert PreorderAmong(ws, children, kids, fuel).value == s;
      FindFollowsPreorder(ws, children, kids[0], name, fuel);
      FindAmongFollowsPreorder(ws, children, kids[1..], name, fuel);
      assert s[1..] == a + b;
      FirstNamedAppend(ws, a, b, name);
    }
  }

  // ---------------------------------------------------------------------
  // update and lateUpdate

  /** The widgets whose update (or lateUpdate) runs, in order; an invisible widget stops the walk into its subtree. */
  function Updated(ws: map<Id, W>, children: map<Id, seq<Id>>, w: Id, fuel: nat): (r: Option<seq<Id>>)
    requires KidsIn(ws, children) && w in ws
    ensures r.Some? ==> (ws[w].visible <==> |r.value| > 0)
    ensures r.Some? && ws[w].visible ==> r.value[0] == w
    ensures fuel > 0 && !ws[w].visible ==> r == Some([])
    decreases fuel, 0
  {
    if fuel == 0 then None
    else if !ws[w].visible then Some([])
    else match UpdatedAmong(ws, children, children[w], fuel - 1)
      case None => None
      case Some(s) => Some([w] + s)
  }

  /** The loop of update over a list of widgets. */
  function UpdatedAmong(ws: map<Id, W>, children: map<Id, seq<Id>>, kids: seq<Id>, fuel: nat): Option<seq<Id>>
    requires KidsIn(ws, children) && forall c :: c in kids ==> c in ws
    decreases fuel, 1, |kids|
  {
    if |kids| == 0 then Some([])
    else match (Updated(ws, children, kids[0], fuel), UpdatedAmong(ws, children, kids[1..], fuel))
      case (Some(a), Some(b)) => Some(a + b)
      case _ => None
  }

  /** Only visible widgets are updated, and each of them is w or one of its descendants. */
  lemma {:induction false} UpdatedVisible(ws: map<Id, W>, children: map<Id, seq<Id>>, w: Id, fuel: nat)
    requires KidsIn(ws, children) && w in ws
    requires Updated(ws, children, w, fuel).Some?
    ensures forall x :: x in Updated(ws, children, w, fuel).value ==> x in ws && ws[x].visible
    ensures Preorder(ws, children, w, fuel).Some? ==>
      forall x :: x in Updated(ws, children, w, fuel).value ==> x == w || x in Preorder(ws, children, w, fuel).value
    decreases fuel, 0
  {
    if ws[w].visible {
      UpdatedAmongVisible(ws, children, children[w], fuel - 1);
    }
  }

  lemma {:induction false} UpdatedAmongVisible(ws: map<Id, W>, children: map<Id, seq<Id>>, kids: seq<Id>, fuel: nat)
    requires KidsIn(ws, children) && forall c :: c in kids ==> c in ws
    requires UpdatedAmong(ws, children, kids, fuel).Some?
    ensures forall x :: x in UpdatedAmong(ws, children, kids, fuel).value ==> x in ws && ws[x].visible
    ensures PreorderAmong(ws, children, kids, fuel).Some? ==>
      forall x :: x in UpdatedAmong(ws, children, kids, fuel).value ==> x in PreorderAmong(ws, children, kids, fuel).value
    decreases fuel, 1, |kids|
  {
    if |kids| > 0 {
      UpdatedVisible(ws, children, kids[0], fuel);
      UpdatedAmongVisible(ws, children, kids[1..], fuel);
    }
  }

  // ---------------------------------------------------------------------
  // Handlers and emit_event

  /** The handlers of the widget for the event type, called in registration order. */
  function Runs(hs: seq<Games.Handler>, ev: UIEvent): (r: seq<Note>)
    ensures |r| == |hs| && forall i :: 0 <= i < |hs| ==> r[i] == Ran(hs[i], ev)
  {
    if |hs| == 0 then [] else [Ran(hs[0], ev)] + Runs(hs[1..], ev)
  }

  /**
   * emit_event: every handler registered for the type is called with the
   * event, in registration order, and then the parent, if any, is offered it.
   */
  function Emit(ws: map<Id, W>, parent: map<Id, Id>, w: Id, kind: string, data: Data): (r: seq<Note>)
    requires w in ws
    ensures var hs := Games.Emitted(ws[w].handlers, kind);
      |r| == |hs| + (if w in parent then 1 else 0)
      && (forall i :: 0 <= i < |hs| ==> r[i] == Ran(hs[i], UIEvent(kind, w, data)))
      && (w in parent ==> r[|hs|] == Offered(parent[w], UIEvent(kind, w, data)))
  {
    var ev := UIEvent(kind, w, data);
    Runs(Games.Emitted(ws[w].handlers, kind), ev) + (if w in parent then [Offered(parent[w], ev)] else [])
  }

  /** The widget with a handler registered, through add_event_handler. */
  function WithHandler(me: W, kind: string, h: Games.Handler): W
  {
    me.(handlers := Games.AddHandler(me.handlers, kind, h))
  }

  /** The widget with a handler taken off, through remove_event_handler. */
  function WithoutHandler(me: W, kind: string, h: Games.Handler): W
  {
    me.(handlers := Games.RemoveHandler(me.handlers, kind, h))
  }

  /** Removing a handler just registered for the first time leaves every emit_event doing what it did before. */
  lemma RemoveUndoesAdd(ws: map<Id, W>, parent: map<Id, Id>, w: Id, kind: string, h: Games.Handler, other: string, data: Data)
    requires w in ws && h !in Games.Emitted(ws[w].handlers, kind)
    ensures var ws' := ws[w := WithoutHandler(WithHandler(ws[w], kind, h), kind, h)];
      Emit(ws', parent, w, other, data) == Emit(ws, parent, w, other, data)
  {
    Games.RemoveUndoesAddHandler(ws[w].handlers, kind, h, other);
  }

  /** A widget's handler for a type is called in every emit of that type, after the ones registered before it. */
  lemma AddedHandlerRunsLast(ws: map<Id, W>, parent: map<Id, Id>, w: Id, kind: string, h: Games.Handler, data: Data)
    requires w in ws
    ensures var ws' := ws[w := WithHandler(ws[w], kind, h)];
      var before := Games.Emitted(ws[w].handlers, kind);
      Emit(ws', parent, w, kind, data)[..|before|] == Emit(ws, parent, w, kind, data)[..|before|]
      && Emit(ws', parent, w, kind, data)[|before|] == Ran(h, UIEvent(kind, w, data))
  {
  }

  // ---------------------------------------------------------------------
  // handle_event

  /** How a handle_event call ended: True, False, or a RecursionError raised. */
  datatype Status = Handled | Passed | Raised

  /** The status and the arena and emit record left behind (a raise keeps what was done before it). */
  datatype Outcome = Outcome(status: Status, ws: map<Id, W>, log: seq<Note>)

  /** The arena with w's hover and press state replaced; its place and the rest of the arena stay. */
  function Restate(ws: map<Id, W>, w: Id, inside: bool, pressed: bool, state: WidgetState): (ws': map<Id, W>)
    requires w in ws
    ensures SameShape(ws, ws') && w in ws'
    ensures ws'[w].mouseInside == inside && ws'[w].mousePressed == pressed && ws'[w].state == state
    ensures forall u :: u in ws && u != w ==> ws'[u] == ws[u]
  {
    ws[w := ws[w].(mouseInside := inside, mousePressed := pressed, state := state)]
  }

  /** Motion: mouse_inside follows the mouse; entering shows HOVER, leaving NORMAL (PRESSED while held). Never taken. */
  function OwnMotion(ws: map<Id, W>, parent: map<Id, Id>, log: seq<Note>, w: Id, x: int, y: int, fuel: nat): (o: Outcome)
    requires ParentsIn(ws, parent) && w in ws
    ensures SameShape(ws, o.ws) && log <= o.log && o.status != Handled
    ensures forall u :: u in ws && u != w ==> o.ws[u] == ws[u]
  {
    var me := ws[w];
    match ContainsPoint(ws, parent, w, x, y, fuel)
    case None => Outcome(Raised, ws, log)
    case Some(inside) =>
      if inside && !me.mouseInside then
        Outcome(Passed, Restate(ws, w, true, me.mousePressed, Hover), log + Emit(ws, parent, w, "mouse_enter", NoData))
      else if !inside && me.mouseInside then
        Outcome(Passed, Restate(ws, w, false, me.mousePressed, if me.mousePressed then Pressed else Normal),
                log + Emit(ws, parent, w, "mouse_leave", NoData))
      else Outcome(Passed, ws, log)
  }

  /** A left press inside the widget presses it, shows PRESSED, emits mouse_down and is taken. */
  function OwnPress(ws: map<Id, W>, parent: map<Id, Id>, log: seq<Note>, w: Id, e: Event, fuel: nat): (o: Outcome)
    requires ParentsIn(ws, parent) && w in ws && e.ButtonDown?
    ensures SameShape(ws, o.ws) && log <= o.log
    ensures forall u :: u in ws && u != w ==> o.ws[u] == ws[u]
  {
    var me := ws[w];
    if e.button != LeftButton then Outcome(Passed, ws, log)
    else
      match ContainsPoint(ws, parent, w, e.x, e.y, fuel)
      case None => Outcome(Raised, ws, log)
      case Some(inside) =>
        if inside then Outcome(Handled, Restate(ws, w, me.mouseInside, true, Pressed), log + Emit(ws, parent, w, "mouse_down", EventData(e)))
        else Outcome(Passed, ws, log)
  }

  /**
   * The left release of a press ends it and is taken: inside, the widget
   * shows HOVER and emits clicked before mouse_up; outside, NORMAL and only
   * mouse_up. A release without a press is passed on untouched.
   */
  function OwnRelease(ws: map<Id, W>, parent: map<Id, Id>, log: seq<Note>, w: Id, e: Event, fuel: nat): (o: Outcome)
    requires ParentsIn(ws, parent) && w in ws && e.ButtonUp?
    ensures SameShape(ws, o.ws) && log <= o.log
    ensures forall u :: u in ws && u != w ==> o.ws[u] == ws[u]
    ensures e.button != LeftButton || !ws[w].mousePressed ==> o == Outcome(Passed, ws, log)
  {
    var me := ws[w];
    if e.button != LeftButton || !me.mousePressed then Outcome(Passed, ws, log)
    else
      match ContainsPoint(ws, parent, w, e.x, e.y, fuel)
      case None => Outcome(Raised, Restate(ws, w, me.mouseInside, false, me.state), log)
      case Some(inside) =>
        if inside then
          Outcome(Handled, Restate(ws, w, me.mouseInside, false, Hover),
                  log + Emit(ws, parent, w, "clicked", EventData(e)) + Emit(ws, parent, w, "mouse_up", EventData(e)))
        else Outcome(Handled, Restate(ws, w, me.mouseInside, false, Normal), log + Emit(ws, parent, w, "mouse_up", EventData(e)))
  }

  /** The widget's own part of handle_event; `fuel` is the budget of the calls it makes. */
  function Own(ws: map<Id, W>, parent: map<Id, Id>, log: seq<Note>, w: Id, e: Event, fuel: nat): (o: Outcome)
    requires ParentsIn(ws, parent) && w in ws
    ensures SameShape(ws, o.ws) && log <= o.log
    ensures forall u :: u in ws && u != w ==> o.ws[u] == ws[u]
    ensures e.Motion? ==> o.status != Handled
  {
    match e
    case Motion(x, y) => OwnMotion(ws, parent, log, w, x, y, fuel)
    case ButtonDown(_, _, _) => OwnPress(ws, parent, log, w, e, fuel)
    case ButtonUp(_, _, _) => OwnRelease(ws, parent, log, w, e, fuel)
    case _ => Outcome(Passed, ws, log)
  }

  /**
   * handle_event of engine/ui/widget.py and engine/rendering/ui.py: nothing
   * for an invisible or disabled widget; otherwise the children, last
   * first, and the widget's own part only when none of them took the event.
   */
  function Dispatch(ws: map<Id, W>, parent: map<Id, Id>, children: map<Id, seq<Id>>, log: seq<Note>, w: Id, e: Event, fuel: nat): (o: Outcome)
    requires Wf(ws, parent, children) && w in ws
    ensures o.ws.Keys == ws.Keys && log <= o.log
    ensures fuel > 0 && !(ws[w].visible && ws[w].enabled) ==> o == Outcome(Passed, ws, log)
    ensures e.Motion? ==> o.status != Handled
    decreases fuel, 0
  {
    if fuel == 0 then Outcome(Raised, ws, log)
    else if !ws[w].visible || !ws[w].enabled then Outcome(Passed, ws, log)
    else
      var o := DispatchAmong(ws, parent, children, log, children[w], e, fuel - 1);
      if o.status != Passed then o else Own(o.ws, parent, o.log, w, e, fuel - 1)
  }

  /** The loop of handle_event over a list of widgets, from the last to the first, stopping at the first that does not pass. */
  function DispatchAmong(ws: map<Id, W>, parent: map<Id, Id>, children: map<Id, seq<Id>>, log: seq<Note>, kids: seq<Id>, e: Event, fuel: nat): (o: Outcome)
    requires Wf(ws, parent, children) && forall c :: c in kids ==> c in ws
    ensures o.ws.Keys == ws.Keys && log <= o.log
    ensures e.Motion? ==> o.status != Handled
    decreases fuel, 1, |kids|
  {
    if |kids| == 0 then Outcome(Passed, ws, log)
    else
      var o := Dispatch(ws, parent, children, log, kids[|kids| - 1], e, fuel);
      if o.status != Passed then o else DispatchAmong(o.ws, parent, children, o.log, kids[..|kids| - 1], e, fuel)
  }

  /** handle_event of engine/ui.py: the widget's own part first, then the children, last first. */
  function DispatchSelfFirst(ws: map<Id, W>, parent: map<Id, Id>, children: map<Id, seq<Id>>, log: seq<Note>, w: Id, e: Event, fuel: nat): (o: Outcome)
    requires Wf(ws, parent, children) && w in ws
    ensures o.ws.Keys == ws.Keys && log <= o.log
    ensures fuel > 0 && !(ws[w].visible && ws[w].enabled) ==> o == Outcome(Passed, ws, log)
    ensures e.Motion? ==> o.status != Handled
    decreases fuel, 0
  {
    if fuel == 0 then Outcome(Raised, ws, log)
    else if !ws[w].visible || !ws[w].enabled then Outcome(Passed, ws, log)
    else
      var o := Own(ws, parent, log, w, e, fuel - 1);
      if o.status != Passed then o else DispatchAmongSelfFirst(o.ws, parent, children, o.log, children[w], e, fuel - 1)
  }

  function DispatchAmongSelfFirst(ws: map<Id, W>, parent: map<Id, Id>, children: map<Id, seq<Id>>, log: seq<Note>, kids: seq<Id>, e: Event, fuel: nat): (o: Outcome)
    requires Wf(ws, parent, children) && forall c :: c in kids ==> c in ws
    ensures o.ws.Keys == ws.Keys && log <= o.log
    ensures e.Motion? ==> o.status != Handled
    decreases fuel, 1, |kids|
  {
    if |kids| == 0 then Outcome(Passed, ws, log)
    else
      var o := DispatchSelfFirst(ws, parent, children, log, kids[|kids| - 1], e, fuel);
      if o.status != Passed then o else DispatchAmongSelfFirst(o.ws, parent, children, o.log, kids[..|kids| - 1], e, fuel)
  }

  /** One turn of the loop over the children: the last untried child, then the ones before it. */
  lemma AmongStep(ws: map<Id, W>, parent: map<Id, Id>, children: map<Id, seq<Id>>, o: Outcome, kids: seq<Id>, i: nat, e: Event, fuel: nat)
    requires Wf(ws, parent, children) && o.ws.Keys == ws.Keys && 0 < i <= |kids| && forall c :: c in kids ==> c in ws
    ensures Wf(o.ws, parent, children)
    ensures var r := Dispatch(o.ws, parent, children, o.log, kids[i - 1], e, fuel);
      DispatchAmong(o.ws, parent, children, o.log, kids[..i], e, fuel)
      == if r.status != Passed then r else DispatchAmong(r.ws, parent, children, r.log, kids[..i - 1], e, fuel)
  {
    assert kids[..i][..i - 1] == kids[..i - 1];
  }

  lemma AmongStepSelfFirst(ws: map<Id, W>, parent: map<Id, Id>, children: map<Id, seq<Id>>, o: Outcome, kids: seq<Id>, i: nat, e: Event, fuel: nat)
    requires Wf(ws, parent, children) && o.ws.Keys == ws.Keys && 0 < i <= |kids| && forall c :: c in kids ==> c in ws
    ensures Wf(o.ws, parent, children)
    ensures var r := DispatchSelfFirst(o.ws, parent, children, o.log, kids[i - 1], e, fuel);
      DispatchAmongSelfFirst(o.ws, parent, children, o.log, kids[..i], e, fuel)
      == if r.status != Passed then r else DispatchAmongSelfFirst(r.ws, parent, children, r.log, kids[..i - 1], e, fuel)
  {
    assert kids[..i][..i - 1] == kids[..i - 1];
  }

  /** handle_event of engine/ui/widget.py: the children first, then the widget's own part. */
  method Handle(ws: map<Id, W>, parent: map<Id, Id>, children: map<Id, seq<Id>>, log: seq<Note>, w: Id, e: Event, fuel: nat)
    returns (o: Outcome)
    requires Wf(ws, parent, children) && w in ws
    ensures o == Dispatch(ws, parent, children, log, w, e, fuel)
    decreases fuel, 0
  {
    if fuel == 0 {
      return Outcome(Raised, ws, log);
    }
    if !ws[w].visible || !ws[w].enabled {
      return Outcome(Passed, ws, log);
    }
    o := HandleAmong(ws, parent, children, log, children[w], e, fuel - 1);
    if o.status == Passed {
      o := Own(o.ws, parent, o.log, w, e, fuel - 1);
    }
  }

  /** The loop of handle_event over the children, last first, returning at the first that takes the event or raises. */
  method HandleAmong(ws: map<Id, W>, parent: map<Id, Id>, children: map<Id, seq<Id>>, log: seq<Note>, kids: seq<Id>, e: Event, fuel: nat)
    returns (o: Outcome)
    requires Wf(ws, parent, children) && forall c :: c in kids ==> c in ws
    ensures o == DispatchAmong(ws, parent, children, log, kids, e, fuel)
    decreases fuel, 1
  {
    var i := |kids|;
    o := Outcome(Passed, ws, log);
    assert kids[..i] == kids;
    while i > 0
      invariant 0 <= i <= |kids| && o.status == Passed && o.ws.Keys == ws.Keys
      invariant DispatchAmong(ws, parent, children, log, kids, e, fuel)
             == DispatchAmong(o.ws, parent, children, o.log, kids[..i], e, fuel)
    {
      AmongStep(ws, parent, children, o, kids, i, e, fuel);
      var r := Handle(o.ws, parent, children, o.log, kids[i - 1], e, fuel);
      if r.status != Passed {
        return r;
      }
      o := r;
      i := i - 1;
    }
  }

  /** handle_event of engine/ui.py: the widget's own part first, then the children. */
  method HandleSelfFirst(ws: map<Id, W>, parent: map<Id, Id>, children: map<Id, seq<Id>>, log: seq<Note>, w: Id, e: Event, fuel: nat)
    returns (o: Outcome)
    requires Wf(ws, parent, children) && w in ws
    ensures o == DispatchSelfFirst(ws, parent, children, log, w, e, fuel)
    decreases fuel, 0
  {
    if fuel == 0 {
      return Outcome(Raised, ws, log);
    }
    if !ws[w].visible || !ws[w].enabled {
      return Outcome(Passed, ws, log);
    }
    o := Own(ws, parent, log, w, e, fuel - 1);
    if o.status == Passed {
      o := HandleAmongSelfFirst(o.ws, parent, children, o.log, children[w], e, fuel - 1);
    }
  }

  method HandleAmongSelfFirst(ws: map<Id, W>, parent: map<Id, Id>, children: map<Id, seq<Id>>, log: seq<Note>, kids: seq<Id>, e: Event, fuel: nat)
    returns (o: Outcome)
    requires Wf(ws, parent, children) && forall c :: c in kids ==> c in ws
    ensures o == DispatchAmongSelfFirst(ws, parent, children, log, kids, e, fuel)
    decreases fuel, 1
  {
    var i := |kids|;
    o := Outcome(Passed, ws, log);
    assert kids[..i] == kids;
    while i > 0
      invariant 0 <= i <= |kids| && o.status == Passed && o.ws.Keys == ws.Keys
      invariant DispatchAmongSelfFirst(ws, parent, children, log, kids, e, fuel)
             == DispatchAmongSelfFirst(o.ws, parent, children, o.log, kids[..i], e, fuel)
    {
      AmongStepSelfFirst(ws, parent, children, o, kids, i, e, fuel);
      var r := HandleSelfFirst(o.ws, parent, children, o.log, kids[i - 1], e, fuel);
      if r.status != Passed {
        return r;
      }
      o := r;
      i := i - 1;
    }
  }

  /** find_child: the search of the children list. */
  method SearchChild(ws: map<Id, W>, children: map<Id, seq<Id>>, w: Id, name: string, fuel: nat) returns (r: Search)
    requires KidsIn(ws, children) && w in ws
    ensures r == FindChild(ws, children, w, name, fuel)
    decreases fuel, 0
  {
    if fuel == 0 {
      return TooDeep;
    }
    r := SearchAmong(ws, children, children[w], name, fuel - 1);
  }

  /** The loop of find_child: each widget's own name, then its search, returning at the first hit or error. */
  method SearchAmong(ws: map<Id, W>, children: map<Id, seq<Id>>, kids: seq<Id>, name: string, fuel: nat) returns (r: Search)
    requires KidsIn(ws, children) && forall c :: c in kids ==> c in ws
    ensures r == FindAmong(ws, children, kids, name, fuel)
    decreases fuel, 1
  {
    var i := 0;
    while i < |kids|
      invariant 0 <= i <= |kids|
      invariant FindAmong(ws, children, kids, name, fuel) == FindAmong(ws, children, kids[i..], name, fuel)
    {
      assert kids[i..][1..] == kids[i + 1..];
      if ws[kids[i]].name == name {
        return Found(kids[i]);
      }
      var found := SearchChild(ws, children, kids[i], name, fuel);
      if !found.Absent? {
        return found;
      }
      i := i + 1;
    }
    r := Absent;
  }

  // ---------------------------------------------------------------------
  // The mouse state machine over several events

  /** After a change of hover and press state, a widget is hit by the same points and emits to the same handlers. */
  lemma PressedShape(ws: map<Id, W>, parent: map<Id, Id>, ws': map<Id, W>, w: Id, x: int, y: int, fuel: nat, kind: string, data: Data)
    requires ParentsIn(ws, parent) && SameShape(ws, ws') && w in ws
    ensures ParentsIn(ws', parent) && w in ws'
    ensures ContainsPoint(ws', parent, w, x, y, fuel) == ContainsPoint(ws, parent, w, x, y, fuel)
    ensures Emit(ws', parent, w, kind, data) == Emit(ws, parent, w, kind, data)
  {
    if fuel > 0 {
      WorldRectShape(ws, ws', parent, w, fuel - 1);
    }
  }

  /**
   * A left press inside presses the widget (PRESSED); releasing it inside
   * then clicks it: mouse_down, clicked and mouse_up are emitted in that
   * order and the widget ends unpressed, in HOVER.
   */
  lemma PressReleaseInsideClicks(ws: map<Id, W>, parent: map<Id, Id>, log: seq<Note>, w: Id, x: int, y: int, x': int, y': int, fuel: nat)
    requires ParentsIn(ws, parent) && w in ws && !ws[w].mousePressed
    requires ContainsPoint(ws, parent, w, x, y, fuel) == Some(true) && ContainsPoint(ws, parent, w, x', y', fuel) == Some(true)
    ensures var press := ButtonDown(LeftButton, x, y);
      var release := ButtonUp(LeftButton, x', y');
      var down := Own(ws, parent, log, w, press, fuel);
      var up := Own(down.ws, parent, down.log, w, release, fuel);
      down.status == Handled && down.ws[w].mousePressed && down.ws[w].state == Pressed
      && up.status == Handled && !up.ws[w].mousePressed && up.ws[w].state == Hover
      && up.log == log + Emit(ws, parent, w, "mouse_down", EventData(press))
                       + Emit(ws, parent, w, "clicked", EventData(release)) + Emit(ws, parent, w, "mouse_up", EventData(release))
  {
    var press := ButtonDown(LeftButton, x, y);
    var release := ButtonUp(LeftButton, x', y');
    var down := Own(ws, parent, log, w, press, fuel);
    assert down == Outcome(Handled, Restate(ws, w, ws[w].mouseInside, true, Pressed), log + Emit(ws, parent, w, "mouse_down", EventData(press)));
    PressedShape(ws, parent, down.ws, w, x', y', fuel, "clicked", EventData(release));
    PressedShape(ws, parent, down.ws, w, x', y', fuel, "mouse_up", EventData(release));
  }

  /** Released outside, the same press does not click: only mouse_down and mouse_up, ending in NORMAL. */
  lemma PressReleaseOutsideDoesNotClick(ws: map<Id, W>, parent: map<Id, Id>, log: seq<Note>, w: Id, x: int, y: int, x': int, y': int, fuel: nat)
    requires ParentsIn(ws, parent) && w in ws && !ws[w].mousePressed
    requires ContainsPoint(ws, parent, w, x, y, fuel) == Some(true) && ContainsPoint(ws, parent, w, x', y', fuel) == Some(false)
    ensures var press := ButtonDown(LeftButton, x, y);
      var release := ButtonUp(LeftButton, x', y');
      var down := Own(ws, parent, log, w, press, fuel);
      var up := Own(down.ws, parent, down.log, w, release, fuel);
      up.status == Handled && !up.ws[w].mousePressed && up.ws[w].state == Normal
      && up.log == log + Emit(ws, parent, w, "mouse_down", EventData(press)) + Emit(ws, parent, w, "mouse_up", EventData(release))
  {
    var press := ButtonDown(LeftButton, x, y);
    var release := ButtonUp(LeftButton, x', y');
    var down := Own(ws, parent, log, w, press, fuel);
    assert down == Outcome(Handled, Restate(ws, w, ws[w].mouseInside, true, Pressed), log + Emit(ws, parent, w, "mouse_down", EventData(press)));
    PressedShape(ws, parent, down.ws, w, x', y', fuel, "mouse_up", EventData(release));
  }

  /**
   * A press over a widget and its only child: in engine/ui/widget.py the
   * child takes it and the parent is untouched; in engine/ui.py the parent
   * takes it and the child never sees it.
   */
  lemma ChildOrParentTakesPress(ws: map<Id, W>, parent: map<Id, Id>, children: map<Id, seq<Id>>, log: seq<Note>, p: Id, c: Id, x: int, y: int, fuel: nat)
    requires Wf(ws, parent, children) && p in ws && c in ws && p != c
    requires children[p] == [c] && children[c] == []
    requires ws[p].visible && ws[p].enabled && ws[c].visible && ws[c].enabled
    requires fuel >= 2
    requires ContainsPoint(ws, parent, c, x, y, fuel - 2) == Some(true)
    requires ContainsPoint(ws, parent, p, x, y, fuel - 1) == Some(true)
    ensures var o := Dispatch(ws, parent, children, log, p, ButtonDown(LeftButton, x, y), fuel);
      o.status == Handled && o.ws[c].mousePressed && o.ws[c].state == Pressed && o.ws[p] == ws[p]
    ensures var o := DispatchSelfFirst(ws, parent, children, log, p, ButtonDown(LeftButton, x, y), fuel);
      o.status == Handled && o.ws[p].mousePressed && o.ws[p].state == Pressed && o.ws[c] == ws[c]
  {
    var e := ButtonDown(LeftButton, x, y);
    assert [c][..0] == [];
    var oc := Dispatch(ws, parent, children, log, c, e, fuel - 1);
    assert DispatchAmong(ws, parent, children, log, children[c], e, fuel - 2) == Outcome(Passed, ws, log);
    assert oc == Own(ws, parent, log, c, e, fuel - 2);
    assert DispatchAmong(ws, parent, children, log, [c], e, fuel - 1) == oc;
  }

  // ---------------------------------------------------------------------
  // The widget objects

  /** All widgets: their links and their other fields, and the record of what emit_event called. */
  class WidgetTree {
    const depth: nat
    const tree: Forest
    var widgets: map<Id, W>
    var log: seq<Note>

    ghost predicate Valid()
      reads this, tree
    {
      tree.Valid() && tree.nodes == widgets.Keys
    }

    constructor (depth: nat)
      ensures Valid() && fresh(tree) && this.depth == depth
      ensures widgets == map[] && log == [] && tree.parent == map[] && tree.children == map[]
    {
      this.depth := depth;
      tree := new Forest();
      widgets := map[];
      log := [];
    }

    /** Widget(rect, name): a new widget without parent or children. */
    method AddWidget(id: Id, name: string, rect: Rect)
      requires Valid() && id !in widgets
      modifies this, tree
      ensures Valid()
      ensures widgets == old(widgets)[id := NewWidget(name, rect)] && log == old(log)
      ensures tree.parent == old(tree.parent) && tree.children == old(tree.children)[id := []]
    {
      tree.AddNode(id);
      widgets := widgets[id := NewWidget(name, rect)];
    }

    /** add_child: the child leaves its old parent's list, if any, and goes to the end of p's. */
    method AddChild(p: Id, c: Id)
      requires Valid() && p in widgets && c in widgets
      modifies tree
      ensures Valid()
      ensures (tree.parent, tree.children) == Adopted(old(tree.parent), old(tree.children), p, c)
      ensures forall q :: q in widgets ==> (c in tree.children[q] <==> q == p)
    {
      tree.AddChild(p, c);
    }

    /** remove_child: only a current child is affected; it loses its parent. */
    method RemoveChild(p: Id, c: Id)
      requires Valid() && p in widgets
      modifies tree
      ensures Valid()
      ensures c in old(tree.children[p]) ==> tree.parent == old(tree.parent) - {c} && tree.children == old(tree.children)[p := RemoveFirst(old(tree.children[p]), c)]
      ensures c !in old(tree.children[p]) ==> tree.parent == old(tree.parent) && tree.children == old(tree.children)
    {
      tree.RemoveChild(p, c);
    }

    /** find_child, within the interpreter's recursion budget. */
    method Find(w: Id, name: string) returns (r: Search)
      requires Valid() && w in widgets
      ensures r == FindChild(widgets, tree.children, w, name, depth)
    {
      LinkedWf(widgets, tree.parent, tree.children);
      r := SearchChild(widgets, tree.children, w, name, depth);
    }

    method AddEventHandler(w: Id, kind: string, h: Games.Handler)
      requires Valid() && w in widgets
      modifies this
      ensures Valid()
      ensures widgets == old(widgets)[w := WithHandler(old(widgets[w]), kind, h)] && log == old(log)
    {
      widgets := widgets[w := WithHandler(widgets[w], kind, h)];
    }

    method RemoveEventHandler(w: Id, kind: string, h: Games.Handler)
      requires Valid() && w in widgets
      modifies this
      ensures Valid()
      ensures widgets == old(widgets)[w := WithoutHandler(old(widgets[w]), kind, h)] && log == old(log)
    {
      widgets := widgets[w := WithoutHandler(widgets[w], kind, h)];
    }

    method EmitEvent(w: Id, kind: string, data: Data)
      requires Valid() && w in widgets
      modifies this
      ensures Valid()
      ensures widgets == old(widgets) && log == old(log) + Emit(widgets, tree.parent, w, kind, data)
    {
      log := log + Emit(widgets, tree.parent, w, kind, data);
    }

    /** handle_event of engine/ui/widget.py and engine/rendering/ui.py on the widget w; True when the event was taken. */
    method HandleEvent(w: Id, e: Event) returns (r: Result<bool>)
      requires Valid() && w in widgets
      modifies this
      ensures Valid()
      ensures var o := Dispatch(old(widgets), tree.parent, tree.children, old(log), w, e, depth);
        widgets == o.ws && log == o.log
        && r == if o.status == Raised then Err(RecursionError("maximum recursion depth exceeded")) else Ok(o.status == Handled)
    {
      LinkedWf(widgets, tree.parent, tree.children);
      var o := Handle(widgets, tree.parent, tree.children, log, w, e, depth);
      widgets, log := o.ws, o.log;
      r := if o.status == Raised then Err(RecursionError("maximum recursion depth exceeded")) else Ok(o.status == Handled);
    }

    /** handle_event of engine/ui.py on the widget w. */
    method HandleEventSelfFirst(w: Id, e: Event) returns (r: Result<bool>)
      requires Valid() && w in widgets
      modifies this
      ensures Valid()
      ensures var o := DispatchSelfFirst(old(widgets), tree.parent, tree.children, old(log), w, e, depth);
        widgets == o.ws && log == o.log
        && r == if o.status == Raised then Err(RecursionError("maximum recursion depth exceeded")) else Ok(o.status == Handled)
    {
      LinkedWf(widgets, tree.parent, tree.children);
      var o := HandleSelfFirst(widgets, tree.parent, tree.children, log, w, e, depth);
      widgets, log := o.ws, o.log;
      r := if o.status == Raised then Err(RecursionError("maximum recursion depth exceeded")) else Ok(o.status == Handled);
    }
  }
}
