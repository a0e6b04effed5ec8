/**
 * The Scene of engine/scene/scene.py: the same name lookup and tag index
 * as the other scenes, but adding a name already present and removing a
 * name not present raise ValueError, and so does Python's list.remove
 * when the actor is missing from the list or from a bucket of one of its
 * tags. The tags of an actor of engine/actor/actor.py are a set; the list
 * passed in is the order in which that set is iterated.
 */
module SceneStrict {
  import opened Wrappers
  import opened Hierarchy
  import opened Scenes

  const RemoveMissing := ValueError("list.remove(x): x not in list")

  /**
   * One step of removeActor's tag loop: a bucket that exists but lacks
   * the actor makes list.remove raise (None).
   */
  function StrictPull(b: Buckets, t: string, a: Id): (r: Option<Buckets>)
    ensures r.None? <==> t in b && a !in b[t]
    ensures r.Some? ==> r.value == Pull(b, t, a)
  {
    if t in b then (if a in b[t] then Some(Pull(b, t, a)) else None) else Some(b)
  }

  /** removeActor's tag loop: the index it reaches, and whether it stopped on a ValueError. */
  function StrictRemoveTags(b: Buckets, a: Id, tags: seq<string>): (Buckets, bool)
    decreases |tags|
  {
    if |tags| == 0 then (b, false)
    else
      match StrictPull(b, tags[0], a)
      case None => (b, true)
      case Some(b') => StrictRemoveTags(b', a, tags[1..])
  }

  /**
   * Over a tag list without repeats, the loop raises exactly when one of
   * the tags has a bucket without the actor; when it does not raise it
   * ends where the lenient removal of engine/core/scene.py ends.
   */
  lemma {:induction false} StrictRemoveTagsFails(b: Buckets, a: Id, tags: seq<string>)
    requires NoDup(tags)
    ensures StrictRemoveTags(b, a, tags).1 <==> exists t :: t in tags && t in b && a !in b[t]
    ensures !StrictRemoveTags(b, a, tags).1 ==> StrictRemoveTags(b, a, tags).0 == RemoveTags(b, a, tags)
    decreases |tags|
  {
    if |tags| > 0 {
      NoDupTail(tags);
      var t0 := tags[0];
      if t0 in b && a !in b[t0] {
        assert t0 in tags;
      } else {
        var b' := Pull(b, t0, a);
        assert forall t :: t in tags[1..] ==> (t in b' <==> t in b) && (t in b ==> b'[t] == b[t]);
        StrictRemoveTagsFails(b', a, tags[1..]);
        assert (exists t :: t in tags[1..] && t in b' && a !in b'[t]) <==> (exists t :: t in tags && t in b && a !in b[t]) by {
          if exists t :: t in tags && t in b && a !in b[t] {
            var t :| t in tags && t in b && a !in b[t];
            assert t != t0 && t in tags[1..];
          }
        }
      }
    }
  }

  /** The partial index a failed loop leaves is still free of empty buckets. */
  lemma {:induction false} StrictRemoveTagsNonEmpty(b: Buckets, a: Id, tags: seq<string>)
    requires NonEmpty(b)
    ensures NonEmpty(StrictRemoveTags(b, a, tags).0)
    decreases |tags|
  {
    if |tags| > 0 && StrictPull(b, tags[0], a).Some? {
      StrictRemoveTagsNonEmpty(Pull(b, tags[0], a), a, tags[1..]);
    }
  }

  class StrictScene {
    var actors: seq<Id>
    var lookup: map<string, Id>
    var byTag: Buckets
    var active: bool
    var paused: bool

    ghost predicate Valid()
      reads this
    {
      NonEmpty(byTag)
    }

    constructor ()
      ensures Valid() && actors == [] && lookup == map[] && byTag == map[] && active && !paused
    {
      actors := [];
      lookup := map[];
      byTag := map[];
      active := true;
      paused := false;
    }

    /**
     * addActor: a name already in the lookup raises ValueError and changes
     * nothing; otherwise the actor is appended, indexed under its name and
     * added to the bucket of each tag.
     */
    method AddActor(a: Id, aname: string, tags: seq<string>) returns (err: Option<Error>)
      requires Valid()
      modifies this
      ensures Valid()
      ensures err.Some? <==> aname in old(lookup)
      ensures err.Some? ==> err.value == ValueError("Actor with name '" + aname + "' already exists in the scene.")
      ensures err.Some? ==> actors == old(actors) && lookup == old(lookup) && byTag == old(byTag)
      ensures err.None? ==> actors == old(actors) + [a] && lookup == old(lookup)[aname := a]
      ensures err.None? ==> byTag == AddTags(old(byTag), a, tags)
      ensures active == old(active) && paused == old(paused)
    {
      if aname in lookup {
        return Some(ValueError("Actor with name '" + aname + "' already exists in the scene."));
      }
      actors := actors + [a];
      lookup := lookup[aname := a];
      var i := 0;
      while i < |tags|
        invariant 0 <= i <= |tags|
        invariant NonEmpty(byTag)
        invariant actors == old(actors) + [a] && lookup == old(lookup)[aname := a]
        invariant active == old(active) && paused == old(paused)
        invariant AddTags(old(byTag), a, tags) == AddTags(byTag, a, tags[i..])
      {
        var t := tags[i];
        assert tags[i..][1..] == tags[i + 1..];
        ghost var before := byTag;
        if t !in byTag {
          byTag := byTag[t := []];
        }
        byTag := byTag[t := byTag[t] + [a]];
        assert byTag == Push(before, t, a);
        i := i + 1;
      }
      err := None;
    }

    /**
     * removeActor: an unknown name raises ValueError; so does an actor
     * missing from the list, before anything changes. Otherwise the actor
     * leaves the list and the lookup, and the tag loop runs; a bucket that
     * lacks the actor raises ValueError there, leaving the buckets already
     * handled as they are.
     */
    method RemoveActor(a: Id, aname: string, tags: seq<string>) returns (err: Option<Error>)
      requires Valid()
      modifies this
      ensures Valid()
      ensures aname !in old(lookup) ==> err == Some(ValueError("Actor with name '" + aname + "' does not exist in the scene."))
      ensures aname in old(lookup) && a !in old(actors) ==> err == Some(RemoveMissing)
      ensures aname !in old(lookup) || a !in old(actors) ==> actors == old(actors) && lookup == old(lookup) && byTag == old(byTag)
      ensures aname in old(lookup) && a in old(actors) ==> actors == RemoveFirst(old(actors), a) && lookup == old(lookup) - {aname}
      ensures aname in old(lookup) && a in old(actors) ==>
        byTag == StrictRemoveTags(old(byTag), a, tags).0 && (err.Some? <==> StrictRemoveTags(old(byTag), a, tags).1)
      ensures err.Some? ==> err.value.ValueError?
      ensures active == old(active) && paused == old(paused)
    {
      if aname !in lookup {
        return Some(ValueError("Actor with name '" + aname + "' does not exist in the scene."));
      }
      if a !in actors {
        return Some(RemoveMissing);
      }
      actors := RemoveFirst(actors, a);
      lookup := lookup - {aname};
      var i := 0;
      while i < |tags|
        invariant 0 <= i <= |tags|
        invariant NonEmpty(byTag)
        invariant actors == RemoveFirst(old(actors), a) && lookup == old(lookup) - {aname}
        invariant active == old(active) && paused == old(paused)
        invariant StrictRemoveTags(old(byTag), a, tags) == StrictRemoveTags(byTag, a, tags[i..])
      {
        var t := tags[i];
        assert tags[i..][1..] == tags[i + 1..];
        if t in byTag {
          if a !in byTag[t] {
            return Some(RemoveMissing);
          }
          ghost var before := byTag;
          byTag := byTag[t := RemoveFirst(byTag[t], a)];
          if |byTag[t]| == 0 {
            byTag := byTag - {t};
          }
          assert byTag == Pull(before, t, a);
        }
        i := i + 1;
      }
      err := None;
    }

    /** The actors update (and render) hands the frame to: none while inactive or paused, otherwise all of them in order. */
    function UpdateTargets(): (r: seq<Id>)
      reads this
      ensures !active || paused ==> r == []
      ensures active && !paused ==> r == actors
    {
      if !active || paused then [] else actors
    }
  }
}
