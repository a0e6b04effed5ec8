/**
 * engine/actor/actor.py with the component base of
 * engine/component/component.py: an actor holds a name, a set of tags
 * and an ordered list of component objects; a component knows the actor
 * it is attached to.
 */
module EngineActor {
  import opened Hierarchy

  /** A component object: whether it is enabled, the actor it is attached to, and the names along its class's MRO. */
  class Component {
    var enabled: bool
    var actor: Actor?
    const mro: seq<string>

    constructor (mro: seq<string>)
      ensures enabled && actor == null && this.mro == mro
    {
      enabled := true;
      actor := null;
      this.mro := mro;
    }
  }

  /** The first component whose class is, or derives from, `cls`. */
  function FirstInstance(cs: seq<Component>, cls: string): (r: Component?)
    ensures r != null ==> r in cs && cls in r.mro
    ensures r == null ==> forall c :: c in cs ==> cls !in c.mro
    ensures r != null ==> exists i :: 0 <= i < |cs| && cs[i] == r && forall j :: 0 <= j < i ==> cls !in cs[j].mro
  {
    if |cs| == 0 then null
    else if cls in cs[0].mro then cs[0]
    else
      var r := FirstInstance(cs[1..], cls);
      if r != null then
        ghost var i :| 0 <= i < |cs[1..]| && cs[1..][i] == r && forall j :: 0 <= j < i ==> cls !in cs[1..][j].mro;
        assert cs[i + 1] == r && forall j :: 0 <= j < i + 1 ==> cls !in cs[j].mro by {
          forall j | 0 < j < i + 1 ensures cls !in cs[j].mro { assert cs[j] == cs[1..][j - 1]; }
        }
        r
      else r
  }

  class Actor {
    var name: string
    var tags: set<string>
    var components: seq<Component>

    /** No component appears twice: addComponent's assert keeps it so. */
    predicate Valid()
      reads this
    {
      NoDup(components)
    }

    constructor (name: string)
      ensures Valid() && this.name == name && tags == {} && components == []
    {
      this.name := name;
      tags := {};
      components := [];
    }

    method SetName(name: string)
      modifies this
      ensures this.name == name && tags == old(tags) && components == old(components)
    {
      this.name := name;
    }

    /**
     * addComponent: a component already in the list fails the assert
     * (ok is false, nothing changes); otherwise it is attached to this
     * actor and appended.
     */
    method AddComponent(c: Component) returns (ok: bool)
      requires Valid()
      modifies this, c
      ensures Valid()
      ensures ok <==> c !in old(components)
      ensures ok ==> components == old(components) + [c] && c.actor == this && c.enabled == old(c.enabled)
      ensures !ok ==> components == old(components) && c.actor == old(c.actor) && c.enabled == old(c.enabled)
      ensures name == old(name) && tags == old(tags)
    {
      if c in components {
        return false;
      }
      c.actor := this;
      components := components + [c];
      ok := true;
    }

    /** removeComponent: only a present component is removed, and it is detached. */
    method RemoveComponent(c: Component)
      requires Valid()
      modifies this, c
      ensures Valid()
      ensures c in old(components) ==> components == RemoveFirst(old(components), c) && c !in components && c.actor == null
      ensures c !in old(components) ==> components == old(components) && c.actor == old(c.actor)
      ensures name == old(name) && tags == old(tags) && c.enabled == old(c.enabled)
    {
      if c in components {
        components := RemoveFirst(components, c);
        c.actor := null;
      }
    }

    /** getComponent: the first instance of the class, or null. */
    function GetComponent(cls: string): (r: Component?)
      reads this
      ensures r != null ==> r in components && cls in r.mro
      ensures r == null ==> forall c :: c in components ==> cls !in c.mro
    {
      FirstInstance(components, cls)
    }

    /** addTag: set insertion. */
    method AddTag(t: string)
      modifies this
      ensures tags == old(tags) + {t} && name == old(name) && components == old(components)
    {
      tags := tags + {t};
    }

    /** removeTag: set discard, so removing an absent tag is no error. */
    method RemoveTag(t: string)
      modifies this
      ensures tags == old(tags) - {t} && name == old(name) && components == old(components)
    {
      tags := tags - {t};
    }

    /** The components handleUpdate and handleRender call, in list order: the enabled ones. */
    function Active(): (r: seq<Component>)
      reads this, components
      ensures forall c :: c in r ==> c in components && c.enabled
      ensures forall c :: c in components && c.enabled ==> c in r
    {
      EnabledOf(components)
    }
  }

  function EnabledOf(cs: seq<Component>): (r: seq<Component>)
    reads cs
    ensures forall c :: c in r ==> c in cs && c.enabled
    ensures forall c :: c in cs && c.enabled ==> c in r
    ensures |r| <= |cs|
  {
    if |cs| == 0 then [] else (if cs[0].enabled then [cs[0]] else []) + EnabledOf(cs[1..])
  }
}
