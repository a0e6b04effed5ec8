/**
 * The Scene and SceneManager of engine/core/scene.py. The Scene and
 * SceneManager of engine/scene.py are the same code without the physics
 * world, so this module models both.
 *
 * A scene keeps its actors in order, looks them up by name, and indexes
 * them by tag, one bucket per tag. Actors are ids here. The name and the
 * tags of the actor being added or removed are passed in, as read from
 * the actor at the moment of the call.
 */
module Scenes {
  import opened Wrappers
  import opened Hierarchy

  type Buckets = map<string, seq<Id>>

  /** The set of strings in a list. */
  function Elems(s: seq<string>): (r: set<string>)
    ensures forall x :: x in r <==> x in s
  {
    if |s| == 0 then {} else {s[0]} + Elems(s[1..])
  }

  /** The tag index never keeps an empty bucket. */
  ghost predicate NonEmpty(b: Buckets)
  {
    forall t :: t in b ==> |b[t]| > 0
  }

  /** Every bucket lists each actor at most once. */
  ghost predicate BucketsNoDup(b: Buckets)
  {
    forall t :: t in b ==> NoDup(b[t])
  }

  /** One step of add_actor's tag loop: create the bucket if needed, then append. */
  function Push(b: Buckets, t: string, a: Id): Buckets
  {
    b[t := (if t in b then b[t] else []) + [a]]
  }

  /** add_actor's tag loop, tag by tag in the actor's order. */
  function AddTags(b: Buckets, a: Id, tags: seq<string>): Buckets
    decreases |tags|
  {
    if |tags| == 0 then b else AddTags(Push(b, tags[0], a), a, tags[1..])
  }

  /** One step of remove_actor's tag loop: only a bucket holding the actor changes, and it goes once empty. */
  function Pull(b: Buckets, t: string, a: Id): Buckets
  {
    if t in b && a in b[t] then
      var rest := RemoveFirst(b[t], a);
      if |rest| == 0 then b - {t} else b[t := rest]
    else b
  }

  /** remove_actor's tag loop. */
  function RemoveTags(b: Buckets, a: Id, tags: seq<string>): Buckets
    decreases |tags|
  {
    if |tags| == 0 then b else RemoveTags(Pull(b, tags[0], a), a, tags[1..])
  }

  /** The tag index after remove_actor has run on each actor of the list in turn. */
  function RemoveEach(b: Buckets, actors: seq<Id>, tagsOf: Id -> seq<string>): Buckets
  {
    if |actors| == 0 then b
    else RemoveTags(RemoveEach(b, actors[..|actors| - 1], tagsOf), actors[|actors| - 1], tagsOf(actors[|actors| - 1]))
  }

  /**
   * Adding an actor puts it at the end of the bucket of each of its tags,
   * creates the buckets that were missing and leaves the other buckets
   * alone; the index stays free of empty buckets.
   */
  lemma {:induction false} AddTagsIndexes(b: Buckets, a: Id, tags: seq<string>)
    ensures AddTags(b, a, tags).Keys == b.Keys + Elems(tags)
    ensures forall t :: t in tags ==> a in AddTags(b, a, tags)[t]
    ensures forall t :: t in b && t !in tags ==> AddTags(b, a, tags)[t] == b[t]
    ensures NonEmpty(b) ==> NonEmpty(AddTags(b, a, tags))
    decreases |tags|
  {
    if |tags| > 0 {
      var b' := Push(b, tags[0], a);
      AddTagsIndexes(b', a, tags[1..]);
      AddTagsKeeps(b', a, tags[1..], tags[0]);
      forall t | t in tags ensures a in AddTags(b, a, tags)[t] {
        if t !in tags[1..] {
          assert t == tags[0];
        }
      }
    }
  }

  /** The rest of the tag loop never takes an actor out of a bucket. */
  lemma {:induction false} AddTagsKeeps(b: Buckets, a: Id, tags: seq<string>, t: string)
    requires t in b && a in b[t]
    ensures t in AddTags(b, a, tags) && a in AddTags(b, a, tags)[t]
    decreases |tags|
  {
    if |tags| > 0 {
      AddTagsKeeps(Push(b, tags[0], a), a, tags[1..], t);
    }
  }

  /**
   * Removing an actor takes it out of the bucket of every tag it lists,
   * deletes the buckets that become empty, creates none and leaves the
   * other buckets alone; the index stays free of empty buckets.
   */
  lemma {:induction false} RemoveTagsUnindexes(b: Buckets, a: Id, tags: seq<string>)
    requires BucketsNoDup(b)
    ensures RemoveTags(b, a, tags).Keys <= b.Keys
    ensures forall t :: t in tags && t in RemoveTags(b, a, tags) ==> a !in RemoveTags(b, a, tags)[t]
    ensures forall t :: t in RemoveTags(b, a, tags) && t !in tags ==> RemoveTags(b, a, tags)[t] == b[t]
    ensures BucketsNoDup(RemoveTags(b, a, tags))
    ensures NonEmpty(b) ==> NonEmpty(RemoveTags(b, a, tags))
    decreases |tags|
  {
    if |tags| > 0 {
      var b' := Pull(b, tags[0], a);
      assert tags[0] in b' ==> a !in b'[tags[0]];
      RemoveTagsUnindexes(b', a, tags[1..]);
      RemoveTagsKeepsOut(b', a, tags[1..], tags[0]);
    }
  }

  /** Once an actor is out of a bucket, the rest of the removal loop keeps it out. */
  lemma {:induction false} RemoveTagsKeepsOut(b: Buckets, a: Id, tags: seq<string>, t: string)
    requires t in b ==> a !in b[t]
    ensures t in RemoveTags(b, a, tags) ==> a !in RemoveTags(b, a, tags)[t]
    decreases |tags|
  {
    if |tags| > 0 {
      RemoveTagsKeepsOut(Pull(b, tags[0], a), a, tags[1..], t);
    }
  }

  /** The index after a tag loop over a list without repeats, written bucket by bucket. */
  function Pushed(b: Buckets, a: Id, tags: set<string>): Buckets
  {
    map t | t in b.Keys + tags :: (if t in b then b[t] else []) + (if t in tags then [a] else [])
  }

  lemma {:induction false} AddTagsIsPushed(b: Buckets, a: Id, tags: seq<string>)
    requires NoDup(tags)
    ensures AddTags(b, a, tags) == Pushed(b, a, Elems(tags))
    decreases |tags|
  {
    if |tags| == 0 {
      PushedNone(b, a);
    } else {
      NoDupTail(tags);
      AddTagsIsPushed(Push(b, tags[0], a), a, tags[1..]);
      PushThenPushed(b, a, tags[0], Elems(tags[1..]));
      assert {tags[0]} + Elems(tags[1..]) == Elems(tags);
    }
  }

  lemma PushedNone(b: Buckets, a: Id)
    ensures Pushed(b, a, {}) == b
  {
    var p := Pushed(b, a, {});
    assert p.Keys == b.Keys;
    forall t | t in b ensures p[t] == b[t] {
    }
  }

  lemma PushThenPushed(b: Buckets, a: Id, t: string, tags: set<string>)
    requires t !in tags
    ensures Pushed(Push(b, t, a), a, tags) == Pushed(b, a, {t} + tags)
  {
    var l := Pushed(Push(b, t, a), a, tags);
    var r := Pushed(b, a, {t} + tags);
    assert l.Keys == r.Keys;
    forall u | u in l ensures l[u] == r[u] {
    }
  }

  /** Pulling an actor just pushed onto a bucket that lacked it restores the bucket, or drops the new one. */
  lemma PullPushed(b: Buckets, a: Id, t: string, tags: set<string>)
    requires NonEmpty(b) && t !in tags
    requires forall u :: u in b ==> a !in b[u]
    ensures Pull(Pushed(b, a, tags + {t}), t, a) == Pushed(b, a, tags)
  {
    var x := if t in b then b[t] else [];
    var p := Pushed(b, a, tags + {t});
    var q := Pushed(b, a, tags);
    assert p[t] == x + [a];
    RemoveAppended(x, a);
    var l := Pull(p, t, a);
    assert l.Keys == q.Keys;
    forall u | u in l ensures l[u] == q[u] {
    }
  }

  /**
   * Removing an actor with the tags it was added with, when no tag repeats
   * and the actor was in no bucket before, gives the tag index back.
   */
  lemma {:induction false} RemoveUndoesAdd(b: Buckets, a: Id, tags: seq<string>)
    requires NoDup(tags) && NonEmpty(b)
    requires forall t :: t in b ==> a !in b[t]
    ensures RemoveTags(AddTags(b, a, tags), a, tags) == b
  {
    AddTagsIsPushed(b, a, tags);
    PushedThenRemoved(b, a, tags, {});
    PushedNone(b, a);
    assert {} + Elems(tags) == Elems(tags);
  }

  /** Removing the listed tags one by one from an index holding them and `done`. */
  lemma {:induction false} PushedThenRemoved(b: Buckets, a: Id, tags: seq<string>, done: set<string>)
    requires NoDup(tags) && NonEmpty(b)
    requires forall t :: t in b ==> a !in b[t]
    requires forall t :: t in tags ==> t !in done
    ensures RemoveTags(Pushed(b, a, done + Elems(tags)), a, tags) == Pushed(b, a, done)
    decreases |tags|
  {
    if |tags| > 0 {
      NoDupTail(tags);
      var rest := done + Elems(tags[1..]);
      assert done + Elems(tags) == rest + {tags[0]};
      PullPushed(b, a, tags[0], rest);
      PushedThenRemoved(b, a, tags[1..], done);
    }
  }

  /** The actors of `s` that are in `on`, in order. */
  function Filter(s: seq<Id>, on: set<Id>): (r: seq<Id>)
    ensures forall x :: x in r <==> x in s && x in on
    ensures |r| <= |s|
    ensures NoDup(s) ==> NoDup(r)
  {
    if |s| == 0 then []
    else
      NoDupTail(s);
      (if s[0] in on then [s[0]] else []) + Filter(s[1..], on)
  }

  /** Every actor of a list kept by a filter that lets all of them through. */
  lemma {:induction false} FilterAll(s: seq<Id>, on: set<Id>)
    requires forall x :: x in s ==> x in on
    ensures Filter(s, on) == s
  {
    if |s| > 0 {
      FilterAll(s[1..], on);
    }
  }

  class Scene {
    var name: string
    var actors: seq<Id>
    var lookup: map<string, Id>
    var byTag: Buckets
    var active: bool
    var paused: bool

    /** add_actor's membership test keeps the list free of repeats; remove_actor deletes emptied buckets. */
    ghost predicate Valid()
      reads this
    {
      NoDup(actors) && NonEmpty(byTag)
    }

    constructor (name: string)
      ensures Valid() && this.name == name && actors == [] && lookup == map[] && byTag == map[]
      ensures active && !paused
    {
      this.name := name;
      actors := [];
      lookup := map[];
      byTag := map[];
      active := true;
      paused := false;
    }

    /**
     * add_actor: an actor already in the scene changes nothing. Otherwise
     * it is appended, becomes the entry for its name (replacing whatever
     * actor had that name) and joins the bucket of each of its tags.
     */
    method AddActor(a: Id, aname: string, tags: seq<string>)
      requires Valid()
      modifies this
      ensures Valid()
      ensures a in old(actors) ==> actors == old(actors) && lookup == old(lookup) && byTag == old(byTag)
      ensures a !in old(actors) ==> actors == old(actors) + [a] && lookup == old(lookup)[aname := a]
      ensures a !in old(actors) ==> byTag == AddTags(old(byTag), a, tags)
      ensures name == old(name) && active == old(active) && paused == old(paused)
    {
      if a !in actors {
        actors := actors + [a];
        lookup := lookup[aname := a];
        var i := 0;
        while i < |tags|
          invariant 0 <= i <= |tags|
          invariant NoDup(actors) && NonEmpty(byTag)
          invariant actors == old(actors) + [a] && lookup == old(lookup)[aname := a]
          invariant name == old(name) && active == old(active) && paused == old(paused)
          invariant AddTags(old(byTag), a, tags) == AddTags(byTag, a, tags[i..])
        {
          var t := tags[i];
          assert tags[i..][1..] == tags[i + 1..];
          ghost var before := byTag;
          if t !in byTag {
            byTag := byTag[t := []];
          }
          byTag := byTag[t := byTag[t] + [a]];
          assert byTag == Push(before, t, a);
          i := i + 1;
        }
      }
    }

    /**
     * remove_actor: an actor not in the scene changes nothing. Otherwise it
     * leaves the list, the entry under its current name goes (whichever
     * actor it names), and it leaves the bucket of each of its current tags.
     */
    method RemoveActor(a: Id, aname: string, tags: seq<string>)
      requires Valid()
      modifies this
      ensures Valid()
      ensures a !in old(actors) ==> actors == old(actors) && lookup == old(lookup) && byTag == old(byTag)
      ensures a in old(actors) ==> actors == RemoveFirst(old(actors), a) && a !in actors
      ensures a in old(actors) ==> lookup == old(lookup) - {aname} && byTag == RemoveTags(old(byTag), a, tags)
      ensures name == old(name) && active == old(active) && paused == old(paused)
    {
      if a in actors {
        actors := RemoveFirst(actors, a);
        if aname in lookup {
          lookup := lookup - {aname};
        }
        var i := 0;
        while i < |tags|
          invariant 0 <= i <= |tags|
          invariant NoDup(actors) && a !in actors && NonEmpty(byTag)
          invariant actors == RemoveFirst(old(actors), a) && lookup == old(lookup) - {aname}
          invariant name == old(name) && active == old(active) && paused == old(paused)
          invariant RemoveTags(old(byTag), a, tags) == RemoveTags(byTag, a, tags[i..])
        {
          var t := tags[i];
          assert tags[i..][1..] == tags[i + 1..];
          ghost var before := byTag;
          if t in byTag && a in byTag[t] {
            byTag := byTag[t := RemoveFirst(byTag[t], a)];
            if |byTag[t]| == 0 {
              byTag := byTag - {t};
            }
          }
          assert byTag == Pull(before, t, a);
          i := i + 1;
        }
      }
    }

    /** find_actor: the actor last indexed under the name, if any. */
    function FindActor(n: string): (r: Option<Id>)
      reads this
      ensures r.Some? <==> n in lookup
      ensures r.Some? ==> r.value == lookup[n]
    {
      if n in lookup then Some(lookup[n]) else None
    }

    /**
     * find_actors_with_tag: a copy of the tag's bucket, or the empty list;
     * since no bucket is kept empty, the list is empty exactly when the
     * tag has no bucket.
     */
    function FindActorsWithTag(t: string): (r: seq<Id>)
      reads this
      ensures t in byTag ==> r == byTag[t]
      ensures Valid() ==> (r == [] <==> t !in byTag)
    {
      if t in byTag then byTag[t] else []
    }

    /** find_actors_with_component: the scene's actors, in order, that have the component (those in `has`). */
    function FindActorsWithComponent(has: set<Id>): (r: seq<Id>)
      reads this
      ensures forall x :: x in r <==> x in actors && x in has
      ensures Valid() ==> NoDup(r)
    {
      Filter(actors, has)
    }

    /**
     * The actors whose update, fixed_update or handle_event runs: none
     * while the scene is paused, otherwise the active ones (those in `on`)
     * in list order.
     */
    function StepTargets(on: set<Id>): (r: seq<Id>)
      reads this
      ensures paused ==> r == []
      ensures !paused ==> forall x :: x in r <==> x in actors && x in on
    {
      if paused then [] else Filter(actors, on)
    }

    /** The actors render draws: the active ones in list order, paused or not. */
    function RenderTargets(on: set<Id>): (r: seq<Id>)
      reads this
      ensures forall x :: x in r <==> x in actors && x in on
      ensures (forall x :: x in actors ==> x in on) ==> r == actors
    {
      if forall x :: x in actors ==> x in on then (FilterAll(actors, on); Filter(actors, on))
      else Filter(actors, on)
    }

    /**
     * clear: destroy_actor, and so remove_actor, on each actor of a copy of
     * the list; the scene ends with no actors and a valid index.
     */
    method Clear(nameOf: Id -> string, tagsOf: Id -> seq<string>)
      requires Valid()
      modifies this
      ensures Valid() && actors == []
      ensures lookup == old(lookup) - (set a | a in old(actors) :: nameOf(a))
      ensures byTag == RemoveEach(old(byTag), old(actors), tagsOf)
      ensures name == old(name) && active == old(active) && paused == old(paused)
    {
      var snapshot := actors;
      var i := 0;
      while i < |snapshot|
        invariant 0 <= i <= |snapshot|
        invariant Valid() && actors == snapshot[i..]
        invariant lookup == old(lookup) - (set a | a in snapshot[..i] :: nameOf(a))
        invariant byTag == RemoveEach(old(byTag), snapshot[..i], tagsOf)
        invariant name == old(name) && active == old(active) && paused == old(paused)
      {
        var a := snapshot[i];
        assert actors[0] == a && actors[1..] == snapshot[i + 1..];
        RemoveActor(a, nameOf(a), tagsOf(a));
        assert snapshot[..i + 1][..i] == snapshot[..i];
        assert (set x | x in snapshot[..i + 1] :: nameOf(x)) == (set x | x in snapshot[..i] :: nameOf(x)) + {nameOf(a)};
        i := i + 1;
      }
      assert snapshot[..i] == snapshot;
    }

    /** on_enter (the later of the two definitions): active and not paused. */
    method OnEnter()
      modifies this
      ensures active && !paused
      ensures name == old(name) && actors == old(actors) && lookup == old(lookup) && byTag == old(byTag)
    {
      active := true;
      paused := false;
    }

    /** on_exit: inactive; the pause flag is kept. */
    method OnExit()
      modifies this
      ensures !active && paused == old(paused)
      ensures name == old(name) && actors == old(actors) && lookup == old(lookup) && byTag == old(byTag)
    {
      active := false;
    }

    /** on_pause: paused; the active flag is kept. */
    method OnPause()
      modifies this
      ensures paused && active == old(active)
      ensures name == old(name) && actors == old(actors) && lookup == old(lookup) && byTag == old(byTag)
    {
      paused := true;
    }

    /** on_resume: not paused; the active flag is kept. */
    method OnResume()
      modifies this
      ensures !paused && active == old(active)
      ensures name == old(name) && actors == old(actors) && lookup == old(lookup) && byTag == old(byTag)
    {
      paused := false;
    }
  }

  /**
   * Two actors added under the same name: removing the first deletes the
   * name's entry, which names the second, so the second is still in the
   * scene but find_actor no longer finds it.
   */
  method RemoveDropsSharedName() returns (found: Option<Id>, present: bool)
    ensures found == None && present
  {
    var s := new Scene("Scene");
    s.AddActor(1, "x", []);
    s.AddActor(2, "x", []);
    s.RemoveActor(1, "x", []);
    assert s.actors == RemoveFirst([1, 2], 1);
    found := s.FindActor("x");
    present := 2 in s.actors;
  }

  class SceneManager {
    var scenes: map<string, Scene>
    var current: Scene?
    var transitioning: bool
    var duration: real
    var time: real
    /** The scene the pending transition callback switches to. */
    var target: Option<string>

    constructor ()
      ensures scenes == map[] && current == null && !transitioning
      ensures duration == 0.0 && time == 0.0 && target == None
    {
      scenes := map[];
      current := null;
      transitioning := false;
      duration := 0.0;
      time := 0.0;
      target := None;
    }

    /** add_scene: registers, or replaces, the scene under the name. */
    method AddScene(n: string, s: Scene)
      modifies this
      ensures scenes == old(scenes)[n := s] && current == old(current)
      ensures transitioning == old(transitioning) && duration == old(duration) && time == old(time) && target == old(target)
    {
      scenes := scenes[n := s];
    }

    /** start_transition: the clock restarts and the callback will switch to the target. */
    method StartTransition(n: string, d: real)
      modifies this
      ensures transitioning && duration == d && time == 0.0 && target == Some(n)
      ensures scenes == old(scenes) && current == old(current)
    {
      transitioning := true;
      duration := d;
      time := 0.0;
      target := Some(n);
    }

    /**
     * switch_scene: exit the current scene, make the named one current (or
     * none when the name is unknown), enter it, and end any transition.
     */
    method SwitchScene(n: string)
      modifies this, current, scenes.Values
      ensures current == (if n in old(scenes) then old(scenes)[n] else null)
      ensures current != null ==> current.active && !current.paused
      ensures old(current) != null && old(current) != current ==> !old(current).active && old(current).paused == old(current.paused)
      ensures forall s: Scene :: s in old(scenes.Values) && s != old(current) && s != current ==> s.active == old(s.active) && s.paused == old(s.paused)
      ensures !transitioning && scenes == old(scenes)
      ensures duration == old(duration) && time == old(time) && target == old(target)
    {
      if current != null {
        current.OnExit();
      }
      current := if n in scenes then scenes[n] else null;
      if current != null {
        current.OnEnter();
      }
      transitioning := false;
    }

    /**
     * load_scene: an unknown name changes nothing; a positive duration
     * starts a transition; otherwise the switch is immediate.
     */
    method LoadScene(n: string, d: real)
      modifies this, current, scenes.Values
      ensures n !in old(scenes) ==> current == old(current) && transitioning == old(transitioning) && target == old(target) && time == old(time)
      ensures n in old(scenes) && d > 0.0 ==> transitioning && target == Some(n) && time == 0.0 && duration == d && current == old(current)
      ensures n in old(scenes) && d <= 0.0 ==> !transitioning && current == old(scenes)[n] && current.active && !current.paused
      ensures scenes == old(scenes)
    {
      if n !in scenes {
        return;
      }
      if d > 0.0 {
        StartTransition(n, d);
      } else {
        SwitchScene(n);
      }
    }

    /**
     * update: during a transition the clock advances by dt and, once it
     * reaches the duration, the callback switches scenes; otherwise the
     * current scene is the one updated (`delegated`).
     */
    method Update(dt: real) returns (delegated: Scene?)
      modifies this, current, scenes.Values
      ensures old(transitioning) ==> delegated == null
      ensures old(transitioning) && old(time) + dt < old(duration) ==> transitioning && time == old(time) + dt && current == old(current)
      ensures old(transitioning) && old(time) + dt >= old(duration) && old(target).Some? ==> !transitioning
      ensures old(transitioning) && old(time) + dt >= old(duration) && old(target).Some? ==>
        current == (if old(target).value in old(scenes) then old(scenes)[old(target).value] else null)
      ensures !old(transitioning) ==> delegated == old(current) && current == old(current) && time == old(time) && !transitioning
      ensures scenes == old(scenes)
    {
      delegated := null;
      if transitioning {
        time := time + dt;
        if time >= duration {
          if target.Some? {
            SwitchScene(target.value);
          }
        }
      } else if current != null {
        delegated := current;
      }
    }
  }
}
