/**
 * UIManager of engine/ui/uiManager.py (engine/rendering/ui.py and
 * engine/ui.py hold the same class): the list of root widgets, searched,
 * updated and offered events as a whole.
 *
 * The widgets themselves live in a Widgets.WidgetTree, whose recursion
 * budget stands for the interpreter's.
 */
module UIManagers {
  import opened Wrappers
  import opened Hierarchy
  import opened Widgets

  /** The widgets update visits from a list of roots, each root's walk in turn. */
  lemma UpdatedAmongSplit(ws: map<Id, W>, children: map<Id, seq<Id>>, kids: seq<Id>, i: nat, fuel: nat)
    requires KidsIn(ws, children) && forall c :: c in kids ==> c in ws
    requires i < |kids|
    ensures UpdatedAmong(ws, children, kids[i..], fuel) ==
      match (Updated(ws, children, kids[i], fuel), UpdatedAmong(ws, children, kids[i + 1..], fuel))
        case (Some(a), Some(b)) => Some(a + b)
        case _ => None
  {
    assert kids[i..][1..] == kids[i + 1..];
  }

  /** The loop of update over the root widgets: each root's walk in list order, stopping at the first that fails. */
  method UpdateAll(ws: map<Id, W>, children: map<Id, seq<Id>>, kids: seq<Id>, fuel: nat) returns (r: Option<seq<Id>>)
    requires KidsIn(ws, children) && forall c :: c in kids ==> c in ws
    ensures r == UpdatedAmong(ws, children, kids, fuel)
  {
    var acc: seq<Id> := [];
    var i := 0;
    assert kids[i..] == kids;
    while i < |kids|
      invariant 0 <= i <= |kids|
      invariant UpdatedAmong(ws, children, kids, fuel).None? <==> UpdatedAmong(ws, children, kids[i..], fuel).None?
      invariant UpdatedAmong(ws, children, kids[i..], fuel).Some? ==>
        UpdatedAmong(ws, children, kids, fuel).value == acc + UpdatedAmong(ws, children, kids[i..], fuel).value
    {
      UpdatedAmongSplit(ws, children, kids, i, fuel);
      var here := Updated(ws, children, kids[i], fuel);
      if here.None? {
        return None;
      }
      acc := acc + here.value;
      i := i + 1;
    }
    assert kids[i..] == [];
    assert acc + [] == acc;
    r := Some(acc);
  }

  class UIManager {
    const ui: WidgetTree
    var roots: seq<Id>
    var focused: Option<Id>

    ghost predicate Valid()
      reads this, ui, ui.tree
    {
      ui.Valid() && forall r :: r in roots ==> r in ui.widgets
    }

    /** UIManager(screen_size): no root widgets and no focus. */
    constructor (ui: WidgetTree)
      requires ui.Valid()
      ensures Valid() && this.ui == ui && roots == [] && focused.None?
    {
      this.ui := ui;
      roots := [];
      focused := None;
    }

    /** addWidget: the widget goes to the end of the list, in front of the others. */
    method AddWidget(w: Id)
      requires Valid() && w in ui.widgets
      modifies this
      ensures Valid() && roots == old(roots) + [w] && focused == old(focused)
    {
      roots := roots + [w];
    }

    /** removeWidget: the first occurrence leaves the list; a widget not in it changes nothing. */
    method RemoveWidget(w: Id)
      requires Valid()
      modifies this
      ensures Valid() && roots == RemoveFirst(old(roots), w) && focused == old(focused)
      ensures w !in old(roots) ==> roots == old(roots)
      ensures w in old(roots) ==> |roots| == |old(roots)| - 1
    {
      roots := RemoveFirst(roots, w);
    }

    /** findWidget: each root's own name, then its find_child, in list order. */
    method FindWidget(name: string) returns (r: Search)
      requires Valid()
      ensures r == FindAmong(ui.widgets, ui.tree.children, roots, name, ui.depth)
      ensures PreorderAmong(ui.widgets, ui.tree.children, roots, ui.depth).Some? ==>
        r == FirstNamed(ui.widgets, PreorderAmong(ui.widgets, ui.tree.children, roots, ui.depth).value, name)
    {
      LinkedWf(ui.widgets, ui.tree.parent, ui.tree.children);
      r := SearchAmong(ui.widgets, ui.tree.children, roots, name, ui.depth);
      if PreorderAmong(ui.widgets, ui.tree.children, roots, ui.depth).Some? {
        FindAmongFollowsPreorder(ui.widgets, ui.tree.children, roots, name, ui.depth);
      }
    }

    /**
     * update (and lateUpdate, which walks the same widgets): the widgets
     * whose update runs, root by root, or the RecursionError that stops it.
     */
    method Update() returns (r: Result<seq<Id>>)
      requires Valid()
      ensures var u := UpdatedAmong(ui.widgets, ui.tree.children, roots, ui.depth);
        (u.None? <==> r.Err?) && (u.Some? ==> r == Ok(u.value))
      ensures r.Ok? ==> forall x :: x in r.value ==> x in ui.widgets && ui.widgets[x].visible
    {
      LinkedWf(ui.widgets, ui.tree.parent, ui.tree.children);
      var u := UpdateAll(ui.widgets, ui.tree.children, roots, ui.depth);
      if u.None? {
        return Err(RecursionError("maximum recursion depth exceeded"));
      }
      UpdatedAmongVisible(ui.widgets, ui.tree.children, roots, ui.depth);
      r := Ok(u.value);
    }

    /** handleEvent: the roots from the last added to the first, stopping at the first that takes the event. */
    method HandleEvent(e: Event) returns (r: Result<bool>)
      requires Valid()
      modifies ui
      ensures Valid() && roots == old(roots)
      ensures var o := DispatchAmong(old(ui.widgets), ui.tree.parent, ui.tree.children, old(ui.log), roots, e, ui.depth);
        ui.widgets == o.ws && ui.log == o.log
        && r == if o.status == Raised then Err(RecursionError("maximum recursion depth exceeded")) else Ok(o.status == Handled)
    {
      LinkedWf(ui.widgets, ui.tree.parent, ui.tree.children);
      var o := HandleAmong(ui.widgets, ui.tree.parent, ui.tree.children, ui.log, roots, e, ui.depth);
      ui.widgets, ui.log := o.ws, o.log;
      r := if o.status == Raised then Err(RecursionError("maximum recursion depth exceeded")) else Ok(o.status == Handled);
    }

    /** handle_event of the manager of engine/ui.py, whose widgets try their own part before their children. */
    method HandleEventSelfFirst(e: Event) returns (r: Result<bool>)
      requires Valid()
      modifies ui
      ensures Valid() && roots == old(roots)
      ensures var o := DispatchAmongSelfFirst(old(ui.widgets), ui.tree.parent, ui.tree.children, old(ui.log), roots, e, ui.depth);
        ui.widgets == o.ws && ui.log == o.log
        && r == if o.status == Raised then Err(RecursionError("maximum recursion depth exceeded")) else Ok(o.status == Handled)
    {
      LinkedWf(ui.widgets, ui.tree.parent, ui.tree.children);
      var o := HandleAmongSelfFirst(ui.widgets, ui.tree.parent, ui.tree.children, ui.log, roots, e, ui.depth);
      ui.widgets, ui.log := o.ws, o.log;
      r := if o.status == Raised then Err(RecursionError("maximum recursion depth exceeded")) else Ok(o.status == Handled);
    }
  }
}
