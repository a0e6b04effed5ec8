/**
 * Parent/child links between scene objects (actors, transforms, widgets),
 * kept in one arena: `parent` maps a child to its parent and `children`
 * maps every node to its ordered list of children.
 */
module Hierarchy {
  import opened Wrappers

  type Id = nat

  predicate NoDup<T(==)>(s: seq<T>)
  {
    forall i, j :: 0 <= i < j < |s| ==> s[i] != s[j]
  }

  /** Python's list.remove(x) for an x that is present: drop its first occurrence. */
  function RemoveFirst<T(==)>(s: seq<T>, x: T): (r: seq<T>)
    ensures x !in s ==> r == s
    ensures x in s ==> |r| == |s| - 1
    ensures forall y :: y in r ==> y in s
    ensures forall y :: y in s && y != x ==> y in r
    ensures NoDup(s) ==> NoDup(r) && x !in r
  {
    if |s| == 0 then []
    else if s[0] == x then (NoDupTail(s); s[1..])
    else (NoDupTail(s); [s[0]] + RemoveFirst(s[1..], x))
  }

  lemma NoDupTail<T>(s: seq<T>)
    requires |s| > 0
    ensures NoDup(s) ==> NoDup(s[1..]) && s[0] !in s[1..]
  {
    if NoDup(s) {
      forall j | 0 <= j < |s| - 1 ensures s[1..][j] != s[0] {
        assert s[1..][j] == s[j + 1];
      }
    }
  }

  /** Removing an element just appended to a list that lacked it gives the list back. */
  lemma {:induction false} RemoveAppended<T>(s: seq<T>, x: T)
    requires x !in s
    ensures RemoveFirst(s + [x], x) == s
  {
    if |s| > 0 {
      assert (s + [x])[1..] == s[1..] + [x];
      RemoveAppended(s[1..], x);
    }
  }

  /** The children map once c has been taken out of its current parent's list. */
  function Detached(children: map<Id, seq<Id>>, parent: map<Id, Id>, c: Id): map<Id, seq<Id>>
  {
    if c in parent && parent[c] in children then children[parent[c] := RemoveFirst(children[parent[c]], c)]
    else children
  }

  /** parent and children describe the same links, and no list repeats a child. */
  ghost predicate Linked(nodes: set<Id>, parent: map<Id, Id>, children: map<Id, seq<Id>>)
  {
    children.Keys == nodes && parent.Keys <= nodes
    && (forall c :: c in parent ==> parent[c] in nodes && c in children[parent[c]])
    && (forall p, y :: p in children && y in children[p] ==> y in parent && parent[y] == p)
    && (forall p :: p in children ==> NoDup(children[p]))
  }

  /** The state AddChild produces, as a function of the state before. */
  function Adopted(parent: map<Id, Id>, children: map<Id, seq<Id>>, p: Id, c: Id): (map<Id, Id>, map<Id, seq<Id>>)
    requires p in children
  {
    var ch := Detached(children, parent, c);
    (parent[c := p], ch[p := (if p in ch then ch[p] else []) + [c]])
  }

  lemma {:induction false} AdoptedLinked(nodes: set<Id>, parent: map<Id, Id>, children: map<Id, seq<Id>>, p: Id, c: Id)
    requires Linked(nodes, parent, children) && p in nodes && c in nodes
    ensures Linked(nodes, Adopted(parent, children, p, c).0, Adopted(parent, children, p, c).1)
    ensures forall q :: q in nodes ==> (c in Adopted(parent, children, p, c).1[q] <==> q == p)
  {
    var ch := Detached(children, parent, c);
    DetachedLinked(nodes, parent, children, c);
    assert parent[c := p] == (parent - {c})[c := p];
    AttachLinked(nodes, parent - {c}, ch, p, c);
  }

  /** Appending a node without a parent to p's list, with p as its parent, keeps the links consistent. */
  lemma AttachLinked(nodes: set<Id>, parent: map<Id, Id>, children: map<Id, seq<Id>>, p: Id, c: Id)
    requires Linked(nodes, parent, children) && p in nodes && c in nodes && c !in parent
    ensures Linked(nodes, parent[c := p], children[p := children[p] + [c]])
    ensures forall q :: q in nodes ==> (c in children[p := children[p] + [c]][q] <==> q == p)
  {
    var parent', children' := parent[c := p], children[p := children[p] + [c]];
    var list := children[p] + [c];
    assert c !in children[p];
    assert NoDup(list) by {
      forall i, j | 0 <= i < j < |list| ensures list[i] != list[j] {
        if j == |list| - 1 { assert list[i] in children[p]; }
      }
    }
    forall q, y | q in children' && y in children'[q]
      ensures y in parent' && parent'[y] == q
    {
      if y != c {
        assert y in children[q];
      }
    }
    forall x | x in parent'
      ensures parent'[x] in nodes && x in children'[parent'[x]]
    {
      if x != c {
        assert x in children[parent[x]];
      }
    }
  }

  /** Taking c out of its parent's list, and dropping its parent, keeps the links consistent. */
  lemma DetachedLinked(nodes: set<Id>, parent: map<Id, Id>, children: map<Id, seq<Id>>, c: Id)
    requires Linked(nodes, parent, children)
    ensures Linked(nodes, parent - {c}, Detached(children, parent, c))
  {
    var parent', children' := parent - {c}, Detached(children, parent, c);
    if c in parent {
      var p := parent[c];
      var rest := RemoveFirst(children[p], c);
      assert children' == children[p := rest];
      assert NoDup(rest) && c !in rest;
      forall q, y | q in children' && y in children'[q]
        ensures y in parent' && parent'[y] == q
      {
        assert y in children[q];
        if q != p {
          assert y != c;
        }
      }
      forall x | x in parent'
        ensures parent'[x] in nodes && x in children'[parent'[x]]
      {
        assert x in children[parent[x]];
      }
    }
  }

  class Forest {
    var nodes: set<Id>
    var parent: map<Id, Id>
    var children: map<Id, seq<Id>>

    ghost predicate Valid()
      reads this
    {
      Linked(nodes, parent, children)
    }

    constructor ()
      ensures Valid() && nodes == {} && parent == map[] && children == map[]
    {
      nodes, parent, children := {}, map[], map[];
    }

    /** A freshly created object: no parent, no children. */
    method AddNode(n: Id)
      requires Valid() && n !in nodes
      modifies this
      ensures Valid()
      ensures nodes == old(nodes) + {n} && parent == old(parent) && children == old(children)[n := []]
    {
      nodes := nodes + {n};
      children := children[n := []];
    }

    /**
     * Make c a child of p: c leaves its old parent's list (if any), gets
     * p as parent and is appended to p's list.
     */
    method AddChild(p: Id, c: Id)
      requires Valid() && p in nodes && c in nodes
      modifies this
      ensures Valid()
      ensures nodes == old(nodes)
      ensures (parent, children) == Adopted(old(parent), old(children), p, c)
      ensures forall q :: q in nodes ==> (c in children[q] <==> q == p)
    {
      AdoptedLinked(nodes, parent, children, p, c);
      parent, children := Adopted(parent, children, p, c).0, Adopted(parent, children, p, c).1;
    }
    /** Only a current child is affected: it loses its parent and leaves p's list. */
    method RemoveChild(p: Id, c: Id)
      requires Valid() && p in nodes
      modifies this
      ensures Valid()
      ensures nodes == old(nodes)
      ensures c in old(children[p]) ==> parent == old(parent) - {c} && children == old(children)[p := RemoveFirst(old(children[p]), c)]
      ensures c !in old(children[p]) ==> parent == old(parent) && children == old(children)
    {
      if c in children[p] {
        DetachedLinked(nodes, parent, children, c);
        parent, children := parent - {c}, Detached(children, parent, c);
      }
    }

    /** Take c out of whatever list holds it, leaving it without a parent. */
    method Detach(c: Id)
      requires Valid()
      modifies this
      ensures Valid()
      ensures nodes == old(nodes)
      ensures parent == old(parent) - {c}
      ensures children == Detached(old(children), old(parent), c)
    {
      if c in parent {
        RemoveChild(parent[c], c);
      }
    }

    /** The parent of c, None for a root. */
    function ParentOf(c: Id): (r: Option<Id>)
      reads this
      requires Valid()
      ensures r.Some? <==> c in parent
      ensures r.Some? ==> r.value in nodes && c in children[r.value]
    {
      if c in parent then Some(parent[c]) else None
    }
  }

  /** parent[c] == p holds exactly when c is listed among p's children. */
  lemma ParentChildAgree(f: Forest, p: Id, c: Id)
    requires f.Valid() && p in f.nodes
    ensures (c in f.parent && f.parent[c] == p) <==> c in f.children[p]
  {
  }
}
