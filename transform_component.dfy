/**
 * engine/component/builtin/transformComponent.py: a transform component
 * with its own parent/child links between transforms, a local offset,
 * rotation and scale on top of its actor's transform, and per-axis locks.
 *
 * The transforms live in one arena: the links are a Hierarchy.Forest,
 * each component's fields a TC value, and the actors' transforms the
 * `xf` map (two components may share an actor). Vector2.rotate is the
 * `rotate` parameter, Vector2.angle_to the `angleOf` parameter, and the
 * interpreter's recursion limit the `depth` bound.
 */
module TransformComponent {
  import opened Wrappers
  import opened Hierarchy

  datatype Vec = Vec(x: real, y: real)

  function Add(a: Vec, b: Vec): Vec { Vec(a.x + b.x, a.y + b.y) }
  function Sub(a: Vec, b: Vec): Vec { Vec(a.x - b.x, a.y - b.y) }
  function Neg(a: Vec): Vec { Vec(-a.x, -a.y) }

  /** An actor's own Transform. */
  datatype Xf = Xf(position: Vec, rotation: real, scale: Vec)

  /** A TransformComponent's fields other than its links; `actor` names an entry of the actor transform table. */
  datatype TC = TC(actor: Option<nat>, localPosition: Vec, localRotation: real, localScale: Vec,
                   lockX: bool, lockY: bool, lockRotation: bool, lockScale: bool)

  function NewTC(): (t: TC)
    ensures t.actor.None? && t.localPosition == Vec(0.0, 0.0) && t.localRotation == 0.0 && t.localScale == Vec(1.0, 1.0)
    ensures !t.lockX && !t.lockY && !t.lockRotation && !t.lockScale
  {
    TC(None, Vec(0.0, 0.0), 0.0, Vec(1.0, 1.0), false, false, false, false)
  }

  /** Every attached component's actor has a transform, and every link is between known components. */
  predicate Wf(comps: map<Id, TC>, xf: map<nat, Xf>, parent: map<Id, Id>)
  {
    (forall u :: u in comps && comps[u].actor.Some? ==> comps[u].actor.value in xf)
    && (forall u :: u in parent ==> u in comps && parent[u] in comps)
  }

  // ---------------------------------------------------------------------
  // get_world_position / get_world_rotation / get_world_scale

  /** get_world_position; None when the parent chain is deeper than `fuel` (a RecursionError). */
  function WorldPosition(comps: map<Id, TC>, xf: map<nat, Xf>, parent: map<Id, Id>, rotate: (Vec, real) -> Vec, t: Id, fuel: nat): (r: Option<Vec>)
    requires Wf(comps, xf, parent) && t in comps
    ensures r.None? <==> Chain(comps, parent, t, fuel).None?
    decreases fuel
  {
    if fuel == 0 then None
    else if comps[t].actor.None? then Some(Vec(0.0, 0.0))
    else if t in parent then
      var p := parent[t];
      var pw := WorldPosition(comps, xf, parent, rotate, p, fuel - 1);
      if pw.None? then None
      else if comps[p].actor.Some? then Some(Add(pw.value, rotate(comps[t].localPosition, xf[comps[p].actor.value].rotation)))
      else Some(Add(pw.value, comps[t].localPosition))
    else Some(Add(xf[comps[t].actor.value].position, comps[t].localPosition))
  }

  /** get_world_rotation. */
  function WorldRotation(comps: map<Id, TC>, xf: map<nat, Xf>, parent: map<Id, Id>, t: Id, fuel: nat): (r: Option<real>)
    requires Wf(comps, xf, parent) && t in comps
    ensures r.None? <==> Chain(comps, parent, t, fuel).None?
    decreases fuel
  {
    if fuel == 0 then None
    else if comps[t].actor.None? then Some(0.0)
    else
      var own := xf[comps[t].actor.value].rotation + comps[t].localRotation;
      if t in parent then
        var pr := WorldRotation(comps, xf, parent, parent[t], fuel - 1);
        if pr.None? then None else Some(own + pr.value)
      else Some(own)
  }

  /** get_world_scale. */
  function WorldScale(comps: map<Id, TC>, xf: map<nat, Xf>, parent: map<Id, Id>, t: Id, fuel: nat): (r: Option<Vec>)
    requires Wf(comps, xf, parent) && t in comps
    ensures r.None? <==> Chain(comps, parent, t, fuel).None?
    decreases fuel
  {
    if fuel == 0 then None
    else if comps[t].actor.None? then Some(Vec(1.0, 1.0))
    else
      var s := xf[comps[t].actor.value].scale;
      var own := Vec(s.x * comps[t].localScale.x, s.y * comps[t].localScale.y);
      if t in parent then
        var ps := WorldScale(comps, xf, parent, parent[t], fuel - 1);
        if ps.None? then None else Some(Vec(own.x * ps.value.x, own.y * ps.value.y))
      else Some(own)
  }

  /**
   * The components the recursion visits: t and its ancestors, up to the
   * first one without an actor (which is not included, since it answers
   * without looking further).
   */
  function Chain(comps: map<Id, TC>, parent: map<Id, Id>, t: Id, fuel: nat): Option<seq<Id>>
    requires t in comps && forall u :: u in parent ==> u in comps && parent[u] in comps
    decreases fuel
  {
    if fuel == 0 then None
    else if comps[t].actor.None? then Some([])
    else if t in parent then
      var up := Chain(comps, parent, parent[t], fuel - 1);
      if up.None? then None else Some([t] + up.value)
    else Some([t])
  }

  /** The rotations along a chain, each the actor's rotation plus the local rotation. */
  function RotationSum(comps: map<Id, TC>, xf: map<nat, Xf>, chain: seq<Id>): real
    requires forall i :: 0 <= i < |chain| ==> chain[i] in comps && comps[chain[i]].actor.Some? && comps[chain[i]].actor.value in xf
  {
    if |chain| == 0 then 0.0
    else xf[comps[chain[0]].actor.value].rotation + comps[chain[0]].localRotation + RotationSum(comps, xf, chain[1..])
  }

  lemma {:induction false} ChainAttached(comps: map<Id, TC>, xf: map<nat, Xf>, parent: map<Id, Id>, t: Id, fuel: nat)
    requires Wf(comps, xf, parent) && t in comps
    ensures var c := Chain(comps, parent, t, fuel);
            c.Some? ==> forall i :: 0 <= i < |c.value| ==> c.value[i] in comps && comps[c.value[i]].actor.Some? && comps[c.value[i]].actor.value in xf
    decreases fuel
  {
    if fuel > 0 && comps[t].actor.Some? && t in parent {
      ChainAttached(comps, xf, parent, parent[t], fuel - 1);
    }
  }

  /**
   * The world rotation is the sum of actor rotation plus local rotation
   * over the transform and its ancestors, stopping at the first one
   * without an actor; both fail together when the chain is too deep.
   */
  lemma {:induction false} WorldRotationIsChainSum(comps: map<Id, TC>, xf: map<nat, Xf>, parent: map<Id, Id>, t: Id, fuel: nat)
    requires Wf(comps, xf, parent) && t in comps
    ensures WorldRotation(comps, xf, parent, t, fuel).Some? <==> Chain(comps, parent, t, fuel).Some?
    ensures Chain(comps, parent, t, fuel).Some? ==>
              (ChainAttached(comps, xf, parent, t, fuel);
               WorldRotation(comps, xf, parent, t, fuel).value == RotationSum(comps, xf, Chain(comps, parent, t, fuel).value))
    decreases fuel
  {
    ChainAttached(comps, xf, parent, t, fuel);
    if fuel > 0 && comps[t].actor.Some? && t in parent {
      WorldRotationIsChainSum(comps, xf, parent, parent[t], fuel - 1);
      ChainAttached(comps, xf, parent, parent[t], fuel - 1);
      var up := Chain(comps, parent, parent[t], fuel - 1);
      if up.Some? {
        assert ([t] + up.value)[1..] == up.value;
      }
    }
  }

  /** The scales along a chain, each the actor's scale times the local scale, multiplied per axis. */
  function ScaleProduct(comps: map<Id, TC>, xf: map<nat, Xf>, chain: seq<Id>): Vec
    requires forall i :: 0 <= i < |chain| ==> chain[i] in comps && comps[chain[i]].actor.Some? && comps[chain[i]].actor.value in xf
  {
    if |chain| == 0 then Vec(1.0, 1.0)
    else
      var s := xf[comps[chain[0]].actor.value].scale;
      var l := comps[chain[0]].localScale;
      var rest := ScaleProduct(comps, xf, chain[1..]);
      Vec(s.x * l.x * rest.x, s.y * l.y * rest.y)
  }

  /** The world scale is the per-axis product of actor scale times local scale over the same chain. */
  lemma {:induction false} WorldScaleIsChainProduct(comps: map<Id, TC>, xf: map<nat, Xf>, parent: map<Id, Id>, t: Id, fuel: nat)
    requires Wf(comps, xf, parent) && t in comps
    ensures WorldScale(comps, xf, parent, t, fuel).Some? <==> Chain(comps, parent, t, fuel).Some?
    ensures Chain(comps, parent, t, fuel).Some? ==>
              (ChainAttached(comps, xf, parent, t, fuel);
               WorldScale(comps, xf, parent, t, fuel).value == ScaleProduct(comps, xf, Chain(comps, parent, t, fuel).value))
    decreases fuel
  {
    ChainAttached(comps, xf, parent, t, fuel);
    if fuel > 0 && comps[t].actor.Some? {
      var s := xf[comps[t].actor.value].scale;
      var l := comps[t].localScale;
      if t in parent {
        WorldScaleIsChainProduct(comps, xf, parent, parent[t], fuel - 1);
        ChainAttached(comps, xf, parent, parent[t], fuel - 1);
        var up := Chain(comps, parent, parent[t], fuel - 1);
        if up.Some? {
          assert ([t] + up.value)[1..] == up.value;
          var ps := WorldScale(comps, xf, parent, parent[t], fuel - 1).value;
          assert s.x * l.x * ps.x == (s.x * l.x) * ps.x;
        }
      } else {
        assert [t][1..] == [];
      }
    }
  }

  /**
   * Changing the local position of a component that is not on the chain
   * of p leaves p's world position alone.
   */
  lemma {:induction false} WorldPositionFrame(comps: map<Id, TC>, xf: map<nat, Xf>, parent: map<Id, Id>, rotate: (Vec, real) -> Vec,
                                              p: Id, fuel: nat, t: Id, v: Vec)
    requires Wf(comps, xf, parent) && p in comps && t in comps
    requires Chain(comps, parent, p, fuel).Some? && t !in Chain(comps, parent, p, fuel).value
    ensures Wf(comps[t := comps[t].(localPosition := v)], xf, parent)
    ensures WorldPosition(comps[t := comps[t].(localPosition := v)], xf, parent, rotate, p, fuel) == WorldPosition(comps, xf, parent, rotate, p, fuel)
    decreases fuel
  {
    var c := comps[t := comps[t].(localPosition := v)];
    assert Wf(c, xf, parent);
    if comps[p].actor.Some? {
      assert p != t;
      if p in parent {
        var up := Chain(comps, parent, parent[p], fuel - 1);
        assert Chain(comps, parent, p, fuel).value == [p] + up.value;
        WorldPositionFrame(comps, xf, parent, rotate, parent[p], fuel - 1, t, v);
      }
    }
  }

  // ---------------------------------------------------------------------
  // set_world_position

  /** The component and actor tables after set_world_position; None is a RecursionError from the parent lookup. */
  datatype Placed = Placed(comps: map<Id, TC>, xf: map<nat, Xf>)

  /**
   * set_world_position as written: with a parent, the local position is
   * the difference to the parent's world position, ignoring the parent's
   * rotation that get_world_position applies to it.
   */
  function SetWorldAsWritten(comps: map<Id, TC>, xf: map<nat, Xf>, parent: map<Id, Id>, rotate: (Vec, real) -> Vec, t: Id, w: Vec, fuel: nat): (r: Option<Placed>)
    requires Wf(comps, xf, parent) && t in comps
    ensures r.Some? ==> Wf(r.value.comps, r.value.xf, parent) && r.value.comps.Keys == comps.Keys
    ensures r.Some? ==> forall u :: u in comps && u != t ==> r.value.comps[u] == comps[u]
    ensures r.Some? ==> r.value.comps[t].(localPosition := comps[t].localPosition) == comps[t]
    ensures r.None? <==> comps[t].actor.Some? && t in parent && Chain(comps, parent, parent[t], fuel).None?
    ensures t in parent ==> r.Some? ==> r.value.xf == xf
  {
    if comps[t].actor.None? then Some(Placed(comps, xf))
    else if t in parent then
      var pw := WorldPosition(comps, xf, parent, rotate, parent[t], fuel);
      if pw.None? then None
      else Some(Placed(comps[t := comps[t].(localPosition := Sub(w, pw.value))], xf))
    else
      var a := comps[t].actor.value;
      Some(Placed(comps[t := comps[t].(localPosition := Vec(0.0, 0.0))], xf[a := xf[a].(position := w)]))
  }

  /**
   * A child of a transform turned half a turn, whose parent sits at the
   * origin, is asked to go to (1, 0) and ends up at (-1, 0).
   */
  lemma SetWorldIgnoresParentRotation(rotate: (Vec, real) -> Vec)
    requires rotate(Vec(1.0, 0.0), 180.0) == Vec(-1.0, 0.0)
    ensures var comps := map[0 := NewTC().(actor := Some(0)), 1 := NewTC().(actor := Some(1))];
            var xf := map[0 := Xf(Vec(0.0, 0.0), 180.0, Vec(1.0, 1.0)), 1 := Xf(Vec(5.0, 5.0), 0.0, Vec(1.0, 1.0))];
            var parent := map[1 := 0];
            var r := SetWorldAsWritten(comps, xf, parent, rotate, 1, Vec(1.0, 0.0), 2);
            r.Some? && Wf(r.value.comps, r.value.xf, parent)
            && WorldPosition(r.value.comps, r.value.xf, parent, rotate, 1, 3) == Some(Vec(-1.0, 0.0))
  {
    var comps := map[0 := NewTC().(actor := Some(0)), 1 := NewTC().(actor := Some(1))];
    var xf := map[0 := Xf(Vec(0.0, 0.0), 180.0, Vec(1.0, 1.0)), 1 := Xf(Vec(5.0, 5.0), 0.0, Vec(1.0, 1.0))];
    var parent := map[1 := 0];
    assert WorldPosition(comps, xf, parent, rotate, 0, 2) == Some(Vec(0.0, 0.0));
    var c2 := comps[1 := comps[1].(localPosition := Vec(1.0, 0.0))];
    assert WorldPosition(c2, xf, parent, rotate, 0, 2) == Some(Vec(0.0, 0.0));
  }

  /**
   * set_world_position as intended: with a parent that has an actor, the
   * offset is turned back by the parent's rotation, so that
   * get_world_position reads back the position set.
   */
  function SetWorld(comps: map<Id, TC>, xf: map<nat, Xf>, parent: map<Id, Id>, rotate: (Vec, real) -> Vec, t: Id, w: Vec, fuel: nat): (r: Option<Placed>)
    requires Wf(comps, xf, parent) && t in comps
    ensures r.Some? ==> Wf(r.value.comps, r.value.xf, parent) && r.value.comps.Keys == comps.Keys
    ensures r.Some? ==> forall u :: u in comps && u != t ==> r.value.comps[u] == comps[u]
    ensures r.Some? ==> r.value.comps[t].(localPosition := comps[t].localPosition) == comps[t]
    ensures comps[t].actor.None? ==> r == Some(Placed(comps, xf))
    ensures comps[t].actor.Some? && t !in parent ==>
              (r.Some? && r.value.comps[t].localPosition == Vec(0.0, 0.0)
               && r.value.xf == xf[comps[t].actor.value := xf[comps[t].actor.value].(position := w)])
    ensures t in parent ==> r.Some? ==> r.value.xf == xf
  {
    if comps[t].actor.None? then Some(Placed(comps, xf))
    else if t in parent then
      var p := parent[t];
      var pw := WorldPosition(comps, xf, parent, rotate, p, fuel);
      if pw.None? then None
      else
        var local := if comps[p].actor.Some? then rotate(Sub(w, pw.value), -xf[comps[p].actor.value].rotation) else Sub(w, pw.value);
        Some(Placed(comps[t := comps[t].(localPosition := local)], xf))
    else
      var a := comps[t].actor.value;
      Some(Placed(comps[t := comps[t].(localPosition := Vec(0.0, 0.0))], xf[a := xf[a].(position := w)]))
  }

  /** Turning by -a and then by a is no turn: what Vector2.rotate promises. */
  ghost predicate Inverts(rotate: (Vec, real) -> Vec)
  {
    forall v, a, b :: a + b == 0.0 ==> rotate(rotate(v, a), b) == v
  }

  /**
   * Setting the world position of an attached transform and reading it
   * back gives the position set, provided the transform is not its own
   * ancestor.
   */
  lemma SetThenGetWorld(comps: map<Id, TC>, xf: map<nat, Xf>, parent: map<Id, Id>, rotate: (Vec, real) -> Vec, t: Id, w: Vec, fuel: nat)
    requires Wf(comps, xf, parent) && t in comps && comps[t].actor.Some? && Inverts(rotate)
    requires t in parent ==> Chain(comps, parent, parent[t], fuel).Some? && t !in Chain(comps, parent, parent[t], fuel).value
    ensures var r := SetWorld(comps, xf, parent, rotate, t, w, fuel);
            r.Some? ==> WorldPosition(r.value.comps, r.value.xf, parent, rotate, t, fuel + 1) == Some(w)
  {
    var r := SetWorld(comps, xf, parent, rotate, t, w, fuel);
    if r.Some? && t in parent {
      var p := parent[t];
      var pw := WorldPosition(comps, xf, parent, rotate, p, fuel);
      var local := r.value.comps[t].localPosition;
      WorldPositionFrame(comps, xf, parent, rotate, p, fuel, t, local);
      assert r.value.comps == comps[t := comps[t].(localPosition := local)];
      assert r.value.xf == xf;
      assert WorldPosition(r.value.comps, xf, parent, rotate, p, fuel) == pw;
      if comps[p].actor.Some? {
        var a := xf[comps[p].actor.value].rotation;
        assert local == rotate(Sub(w, pw.value), -a);
        assert rotate(rotate(Sub(w, pw.value), -a), a) == Sub(w, pw.value);
        assert WorldPosition(r.value.comps, r.value.xf, parent, rotate, t, fuel + 1) == Some(Add(pw.value, rotate(local, a)));
      } else {
        assert WorldPosition(r.value.comps, r.value.xf, parent, rotate, t, fuel + 1) == Some(Add(pw.value, local));
      }
    }
  }

  /** Where move_to sends the transform, given its current world position; None when both axes are locked. */
  function MoveTarget(c: TC, current: Vec, target: Vec): (r: Option<Vec>)
    ensures c.lockX && c.lockY <==> r.None?
    ensures r.Some? && !c.lockX ==> r.value.x == target.x
    ensures r.Some? && !c.lockY ==> r.value.y == target.y
    ensures r.Some? && c.lockX ==> r.value.x == current.x
    ensures r.Some? && c.lockY ==> r.value.y == current.y
  {
    if !c.lockX && !c.lockY then Some(target)
    else if !c.lockX then Some(Vec(target.x, current.y))
    else if !c.lockY then Some(Vec(current.x, target.y))
    else None
  }

  /**
   * move_to with one axis locked: the transform reaches the target on the
   * free axis and keeps its world coordinate on the locked one.
   */
  lemma MoveKeepsLockedAxis(comps: map<Id, TC>, xf: map<nat, Xf>, parent: map<Id, Id>, rotate: (Vec, real) -> Vec, t: Id, target: Vec, fuel: nat)
    requires Wf(comps, xf, parent) && t in comps && comps[t].actor.Some? && Inverts(rotate)
    requires t in parent ==> Chain(comps, parent, parent[t], fuel).Some? && t !in Chain(comps, parent, parent[t], fuel).value
    requires comps[t].lockX != comps[t].lockY && WorldPosition(comps, xf, parent, rotate, t, fuel + 1).Some?
    ensures var cur := WorldPosition(comps, xf, parent, rotate, t, fuel + 1).value;
            var r := SetWorld(comps, xf, parent, rotate, t, MoveTarget(comps[t], cur, target).value, fuel);
            r.Some? ==>
              var now := WorldPosition(r.value.comps, r.value.xf, parent, rotate, t, fuel + 1);
              now.Some? && (comps[t].lockX ==> now.value == Vec(cur.x, target.y)) && (comps[t].lockY ==> now.value == Vec(target.x, cur.y))
  {
    var cur := WorldPosition(comps, xf, parent, rotate, t, fuel + 1).value;
    SetThenGetWorld(comps, xf, parent, rotate, t, MoveTarget(comps[t], cur, target).value, fuel);
  }

  // ---------------------------------------------------------------------
  // The arena

  class Transforms {
    const tree: Forest
    var comps: map<Id, TC>
    var xf: map<nat, Xf>
    /** Vector2.rotate, in degrees. */
    const rotate: (Vec, real) -> Vec
    /** Vector2.angle_to(Vector2(1, 0)). */
    const angleOf: Vec -> real
    /** How deep the parent recursion may go before the interpreter gives up. */
    const depth: nat

    ghost predicate Valid()
      reads this, tree
    {
      tree.Valid() && comps.Keys == tree.nodes && Wf(comps, xf, tree.parent)
    }

    constructor (rotate: (Vec, real) -> Vec, angleOf: Vec -> real, depth: nat)
      ensures Valid() && fresh(tree) && tree.nodes == {} && comps == map[] && xf == map[]
      ensures this.rotate == rotate && this.angleOf == angleOf && this.depth == depth
    {
      tree := new Forest();
      comps := map[];
      xf := map[];
      this.rotate := rotate;
      this.angleOf := angleOf;
      this.depth := depth;
    }

    /** TransformComponent(): a detached transform with no actor. */
    method NewTransform(t: Id)
      requires Valid() && t !in tree.nodes
      modifies this, tree
      ensures Valid() && comps == old(comps)[t := NewTC()] && xf == old(xf)
      ensures tree.nodes == old(tree.nodes) + {t} && tree.parent == old(tree.parent) && tree.children == old(tree.children)[t := []]
    {
      tree.AddNode(t);
      comps := comps[t := NewTC()];
    }

    /** setActor. */
    method Attach(t: Id, a: Option<nat>)
      requires Valid() && t in comps && (a.Some? ==> a.value in xf)
      modifies this
      ensures Valid() && comps == old(comps)[t := old(comps[t]).(actor := a)] && xf == old(xf)
    {
      comps := comps[t := comps[t].(actor := a)];
    }

    /** set_parent: leave the old parent's list, take the new parent, and join its list once. */
    method SetParent(t: Id, p: Option<Id>)
      requires Valid() && t in tree.nodes && (p.Some? ==> p.value in tree.nodes)
      modifies tree
      ensures Valid() && tree.nodes == old(tree.nodes)
      ensures p.None? ==> tree.parent == old(tree.parent) - {t} && tree.children == Detached(old(tree.children), old(tree.parent), t)
      ensures p.Some? ==> (tree.parent, tree.children) == Adopted(old(tree.parent), old(tree.children), p.value, t)
      ensures p.Some? ==> forall q :: q in tree.nodes ==> (t in tree.children[q] <==> q == p.value)
    {
      if p.None? {
        tree.Detach(t);
      } else {
        tree.AddChild(p.value, t);
      }
    }

    /** add_child(c) is c.set_parent(self). */
    method AddChild(p: Id, c: Id)
      requires Valid() && p in tree.nodes && c in tree.nodes
      modifies tree
      ensures Valid() && tree.nodes == old(tree.nodes)
      ensures c in tree.parent && tree.parent == old(tree.parent)[c := p]
      ensures forall q :: q in tree.nodes ==> (c in tree.children[q] <==> q == p)
    {
      SetParent(c, Some(p));
    }

    /** remove_child: only a current child is detached. */
    method RemoveChild(p: Id, c: Id)
      requires Valid() && p in tree.nodes
      modifies tree
      ensures Valid() && tree.nodes == old(tree.nodes)
      ensures c in old(tree.children[p]) ==> tree.parent == old(tree.parent) - {c} && c !in tree.children[p]
      ensures c !in old(tree.children[p]) ==> tree.parent == old(tree.parent) && tree.children == old(tree.children)
    {
      if c in tree.children[p] {
        SetParent(c, None);
      }
    }

    function GetWorldPosition(t: Id): (r: Option<Vec>)
      reads this, tree
      requires Valid() && t in comps
      ensures comps[t].actor.None? && depth > 0 ==> r == Some(Vec(0.0, 0.0))
      ensures comps[t].actor.Some? && t !in tree.parent && depth > 0 ==> r == Some(Add(xf[comps[t].actor.value].position, comps[t].localPosition))
    {
      WorldPosition(comps, xf, tree.parent, rotate, t, depth)
    }

    function GetWorldRotation(t: Id): (r: Option<real>)
      reads this, tree
      requires Valid() && t in comps
      ensures r.Some? <==> Chain(comps, tree.parent, t, depth).Some?
      ensures r.Some? ==> (ChainAttached(comps, xf, tree.parent, t, depth); r.value == RotationSum(comps, xf, Chain(comps, tree.parent, t, depth).value))
    {
      WorldRotationIsChainSum(comps, xf, tree.parent, t, depth);
      WorldRotation(comps, xf, tree.parent, t, depth)
    }

    /** set_world_position; ok is false when looking up the parent's world position overflows the recursion. */
    method SetWorldPosition(t: Id, w: Vec) returns (ok: bool)
      requires Valid() && t in comps
      modifies this
      ensures Valid()
      ensures var r := SetWorld(old(comps), old(xf), tree.parent, rotate, t, w, depth);
              ok == r.Some? && (ok ==> comps == r.value.comps && xf == r.value.xf) && (!ok ==> comps == old(comps) && xf == old(xf))
    {
      var r := SetWorld(comps, xf, tree.parent, rotate, t, w, depth);
      if r.None? {
        return false;
      }
      comps := r.value.comps;
      xf := r.value.xf;
      ok := true;
    }

    /**
     * move_to: with no lock, straight to the target; with one axis locked,
     * that axis keeps the current world coordinate; with both, nothing.
     */
    method MoveTo(t: Id, target: Vec) returns (ok: bool)
      requires Valid() && t in comps
      modifies this
      ensures Valid()
      ensures old(comps[t]).lockX && old(comps[t]).lockY ==> ok && comps == old(comps) && xf == old(xf)
      ensures !old(comps[t]).lockX && !old(comps[t]).lockY ==>
                var r := SetWorld(old(comps), old(xf), tree.parent, rotate, t, target, depth);
                ok == r.Some? && (ok ==> comps == r.value.comps && xf == r.value.xf)
      ensures old(comps[t]).lockX != old(comps[t]).lockY ==>
                var cur := WorldPosition(old(comps), old(xf), tree.parent, rotate, t, depth);
                (cur.None? ==> !ok && comps == old(comps) && xf == old(xf))
                && (cur.Some? ==> var r := SetWorld(old(comps), old(xf), tree.parent, rotate, t, MoveTarget(old(comps[t]), cur.value, target).value, depth);
                                  ok == r.Some? && (ok ==> comps == r.value.comps && xf == r.value.xf))
    {
      var c := comps[t];
      if !c.lockX && !c.lockY {
        ok := SetWorldPosition(t, target);
      } else if !c.lockX || !c.lockY {
        var cur := WorldPosition(comps, xf, tree.parent, rotate, t, depth);
        if cur.None? {
          return false;
        }
        ok := SetWorldPosition(t, MoveTarget(c, cur.value, target).value);
      } else {
        ok := true;
      }
    }

    /** rotate_to: a locked rotation, or no actor, changes nothing; otherwise the actor's rotation is set. */
    method RotateTo(t: Id, angle: real)
      requires Valid() && t in comps
      modifies this
      ensures Valid() && comps == old(comps)
      ensures old(comps[t]).lockRotation || old(comps[t]).actor.None? ==> xf == old(xf)
      ensures !old(comps[t]).lockRotation && old(comps[t]).actor.Some? ==>
                var a := old(comps[t]).actor.value; xf == old(xf)[a := old(xf[a]).(rotation := angle)]
    {
      if !comps[t].lockRotation && comps[t].actor.Some? {
        var a := comps[t].actor.value;
        xf := xf[a := xf[a].(rotation := angle)];
      }
    }

    /** scale_to: a locked scale, or no actor, changes nothing; otherwise the actor's scale is set. */
    method ScaleTo(t: Id, scale: Vec)
      requires Valid() && t in comps
      modifies this
      ensures Valid() && comps == old(comps)
      ensures old(comps[t]).lockScale || old(comps[t]).actor.None? ==> xf == old(xf)
      ensures !old(comps[t]).lockScale && old(comps[t]).actor.Some? ==>
                var a := old(comps[t]).actor.value; xf == old(xf)[a := old(xf[a]).(scale := scale)]
    {
      if !comps[t].lockScale && comps[t].actor.Some? {
        var a := comps[t].actor.value;
        xf := xf[a := xf[a].(scale := scale)];
      }
    }

    /**
     * look_at: unless the rotation is locked or there is no actor, turn
     * towards the target when it is not the current world position.
     */
    method LookAt(t: Id, target: Vec) returns (ok: bool)
      requires Valid() && t in comps
      modifies this
      ensures Valid() && comps == old(comps)
      ensures old(comps[t]).lockRotation || old(comps[t]).actor.None? ==> ok && xf == old(xf)
      ensures !old(comps[t]).lockRotation && old(comps[t]).actor.Some? ==>
                var cur := WorldPosition(old(comps), old(xf), tree.parent, rotate, t, depth);
                var a := old(comps[t]).actor.value;
                ok == cur.Some?
                && (cur.None? || cur.value == target ==> xf == old(xf))
                && (cur.Some? && cur.value != target ==> xf == old(xf)[a := old(xf[a]).(rotation := angleOf(Sub(target, cur.value)))])
    {
      if comps[t].lockRotation || comps[t].actor.None? {
        return true;
      }
      var cur := WorldPosition(comps, xf, tree.parent, rotate, t, depth);
      if cur.None? {
        return false;
      }
      var d := Sub(target, cur.value);
      if d != Vec(0.0, 0.0) {
        RotateTo(t, angleOf(d));
      }
      ok := true;
    }
  }
}
