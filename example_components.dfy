/**
 * The example components of editor/examples/custom_components.py: health
 * with regeneration, an inventory of counted items with a slot limit, named
 * timers, and a state machine with enter, update and exit hooks.
 *
 * A callback is modelled by whether it is set, and the calls made are
 * recorded in order. Exceptions a callback raises are caught and printed by
 * the source, so they change nothing here.
 */
module ExampleComponents {
  import opened Wrappers
  import HealthComponents

  // ---------------------------------------------------------------- health

  /** The health update leaves: regeneration heals rate * dt while below the maximum. */
  function Regenerated(current: real, maximum: real, rate: real, dt: real): (r: real)
    ensures rate <= 0.0 || maximum <= current ==> r == current
    ensures 0.0 <= dt && current <= maximum ==> current <= r <= maximum
  {
    if 0.0 < rate && current < maximum then
      assert 0.0 <= dt ==> 0.0 <= rate * dt;
      HealthComponents.Healed(current, rate * dt, maximum)
    else current
  }

  class HealthComponent {
    var maxHealth: real
    var currentHealth: real
    var regenerationRate: real

    /** Health between 0 and the maximum. */
    predicate InRange()
      reads this
    {
      0.0 <= currentHealth <= maxHealth
    }

    /** HealthComponent(): 100 of 100, no regeneration. */
    constructor ()
      ensures maxHealth == 100.0 && currentHealth == 100.0 && regenerationRate == 0.0
      ensures InRange()
    {
      maxHealth, currentHealth, regenerationRate := 100.0, 100.0, 0.0;
    }

    /** takeDamage: floored at 0; a non-negative amount keeps the health in range. */
    method TakeDamage(amount: real)
      modifies this
      ensures currentHealth == HealthComponents.Damaged(old(currentHealth), amount)
      ensures maxHealth == old(maxHealth) && regenerationRate == old(regenerationRate)
      ensures old(InRange()) && 0.0 <= amount ==> InRange()
    {
      currentHealth := if currentHealth - amount < 0.0 then 0.0 else currentHealth - amount;
    }

    /** heal: capped at the maximum; a non-negative amount keeps the health in range. */
    method Heal(amount: real)
      modifies this
      ensures currentHealth == HealthComponents.Healed(old(currentHealth), amount, maxHealth)
      ensures maxHealth == old(maxHealth) && regenerationRate == old(regenerationRate)
      ensures old(InRange()) && 0.0 <= amount ==> InRange()
    {
      currentHealth := if maxHealth < currentHealth + amount then maxHealth else currentHealth + amount;
    }

    /** isDead: health at or below 0. */
    function IsDead(): (r: bool)
      reads this
      ensures InRange() ==> (r <==> currentHealth == 0.0)
      ensures 0.0 < maxHealth ==> (r <==> HealthPercent() <= 0.0)
    {
      currentHealth <= 0.0
    }

    /** getHealthPercent of the current state. */
    function HealthPercent(): (r: real)
      reads this
      ensures r == HealthComponents.Percentage(currentHealth, maxHealth)
    {
      if 0.0 < maxHealth then currentHealth / maxHealth else 0.0
    }

    /** update: regeneration, through heal, while below the maximum. */
    method Update(dt: real)
      modifies this
      ensures currentHealth == Regenerated(old(currentHealth), maxHealth, regenerationRate, dt)
      ensures maxHealth == old(maxHealth) && regenerationRate == old(regenerationRate)
      ensures old(InRange()) && 0.0 <= dt ==> InRange()
    {
      if 0.0 < regenerationRate && currentHealth < maxHealth {
        Heal(regenerationRate * dt);
      }
    }
  }

  // ------------------------------------------------------------- inventory

  /** items.get(name, 0). */
  function Count(items: map<string, int>, name: string): (r: int)
    ensures name !in items ==> r == 0
    ensures (forall k :: k in items ==> 0 < items[k]) ==> (0 < r <==> name in items)
  {
    if name in items then items[name] else 0
  }

  /** hasItem: at least the quantity is held, a missing item counting as 0. */
  predicate Has(items: map<string, int>, name: string, quantity: int)
  {
    Count(items, name) >= quantity
  }

  /** addItem of a non-negative quantity keeps every hasItem that held. */
  lemma AddKeepsHas(items: map<string, int>, maxSlots: int, name: string, quantity: int, other: string, need: int)
    requires 0 <= quantity && Has(items, other, need) && Added(items, maxSlots, name, quantity).Some?
    ensures Has(Added(items, maxSlots, name, quantity).value, other, need)
  {
  }

  /** The items addItem leaves, or None when every slot is taken and the item is new. */
  function Added(items: map<string, int>, maxSlots: int, name: string, quantity: int): (r: Option<map<string, int>>)
    ensures r.None? <==> maxSlots <= |items| && name !in items
    ensures r.Some? ==> r.value.Keys == items.Keys + {name} && r.value[name] == Count(items, name) + quantity
    ensures r.Some? ==> forall k :: k in items && k != name ==> r.value[k] == items[k]
  {
    if maxSlots <= |items| && name !in items then None
    else Some(items[name := Count(items, name) + quantity])
  }

  /** The items removeItem leaves, or None for a missing item or too few of it; a count that reaches 0 drops the item. */
  function Removed(items: map<string, int>, name: string, quantity: int): (r: Option<map<string, int>>)
    ensures r.None? <==> name !in items || items[name] < quantity
    ensures r.Some? ==> (name in r.value <==> 0 < items[name] - quantity)
    ensures r.Some? && name in r.value ==> r.value[name] == items[name] - quantity
    ensures r.Some? ==> r.value.Keys <= items.Keys && forall k :: k in items && k != name ==> k in r.value && r.value[k] == items[k]
  {
    if name !in items || items[name] < quantity then None
    else if items[name] - quantity <= 0 then Some(items - {name})
    else Some(items[name := items[name] - quantity])
  }

  /** Every item held has a positive count. */
  predicate Positive(items: map<string, int>)
  {
    forall k :: k in items ==> 0 < items[k]
  }

  /** addItem never takes more slots than there are. */
  lemma AddKeepsSlots(items: map<string, int>, maxSlots: int, name: string, quantity: int)
    requires |items| <= maxSlots && Added(items, maxSlots, name, quantity).Some?
    ensures |Added(items, maxSlots, name, quantity).value| <= maxSlots
  {
    var r := Added(items, maxSlots, name, quantity).value;
    if name in items {
      assert r.Keys == items.Keys;
    } else {
      assert r.Keys == items.Keys + {name};
      assert |r.Keys| == |items.Keys| + 1;
    }
  }

  /** Adding positive quantities and removing keep every count positive. */
  lemma AddKeepsPositive(items: map<string, int>, maxSlots: int, name: string, quantity: int)
    requires Positive(items) && 0 < quantity && Added(items, maxSlots, name, quantity).Some?
    ensures Positive(Added(items, maxSlots, name, quantity).value)
  {
  }

  lemma RemoveKeepsPositive(items: map<string, int>, name: string, quantity: int)
    requires Positive(items) && Removed(items, name, quantity).Some?
    ensures Positive(Removed(items, name, quantity).value)
  {
  }

  /** Removing what was just added restores the inventory. */
  lemma AddThenRemove(items: map<string, int>, maxSlots: int, name: string, quantity: int)
    requires Positive(items) && 0 < quantity && Added(items, maxSlots, name, quantity).Some?
    ensures Removed(Added(items, maxSlots, name, quantity).value, name, quantity) == Some(items)
  {
    var a := Added(items, maxSlots, name, quantity).value;
    if name in items {
      assert a == items[name := items[name] + quantity];
      assert Removed(a, name, quantity) == Some(a[name := items[name]]);
      assert a[name := items[name]] == items;
    } else {
      assert a == items[name := quantity];
      assert Removed(a, name, quantity) == Some(a - {name});
      assert a - {name} == items;
    }
  }

  /** For a positive quantity, removeItem succeeds exactly when hasItem holds. */
  lemma HasIffRemovable(items: map<string, int>, name: string, quantity: int)
    requires 0 < quantity
    ensures Has(items, name, quantity) <==> Removed(items, name, quantity).Some?
  {
  }

  class InventoryComponent {
    var items: map<string, int>
    var maxSlots: int

    /** InventoryComponent(): no items and 20 slots. */
    constructor ()
      ensures items == map[] && maxSlots == 20
    {
      items, maxSlots := map[], 20;
    }

    /** addItem: False and no change when full and the item is new; otherwise the count grows by the quantity. */
    method AddItem(name: string, quantity: int) returns (r: bool)
      modifies this
      ensures r <==> Added(old(items), maxSlots, name, quantity).Some?
      ensures r ==> items == Added(old(items), maxSlots, name, quantity).value
      ensures !r ==> items == old(items)
      ensures maxSlots == old(maxSlots)
    {
      if |items| >= maxSlots && name !in items {
        return false;
      }
      items := items[name := Count(items, name) + quantity];
      return true;
    }

    /** removeItem: False and no change for a missing item or too few; otherwise the count drops, and the item goes at 0. */
    method RemoveItem(name: string, quantity: int) returns (r: bool)
      modifies this
      ensures r <==> Removed(old(items), name, quantity).Some?
      ensures r ==> items == Removed(old(items), name, quantity).value
      ensures !r ==> items == old(items)
      ensures maxSlots == old(maxSlots)
    {
      if name !in items || items[name] < quantity {
        return false;
      }
      items := items[name := items[name] - quantity];
      if items[name] <= 0 {
        items := items - {name};
      }
      return true;
    }
  }

  // ---------------------------------------------------------------- timers

  datatype Timer = Timer(duration: real, elapsed: real, callback: bool, repeat: bool, active: bool)

  /** An active timer reaches its duration on this update. */
  predicate Finishes(t: Timer, dt: real)
  {
    t.active && t.duration <= t.elapsed + dt
  }

  /** A finishing timer that does not repeat, removed at the end of the update. */
  predicate Done(t: Timer, dt: real)
  {
    Finishes(t, dt) && !t.repeat
  }

  /** A timer after the first loop of update: paused ones unchanged, repeating ones that finish back at 0. */
  function Advanced(t: Timer, dt: real): (r: Timer)
    ensures !t.active ==> r == t
    ensures t.active && !Finishes(t, dt) ==> r == t.(elapsed := t.elapsed + dt)
    ensures Finishes(t, dt) && t.repeat ==> r == t.(elapsed := 0.0)
    ensures r.duration == t.duration && r.callback == t.callback && r.repeat == t.repeat && r.active == t.active
  {
    if !t.active then t
    else if t.duration <= t.elapsed + dt && t.repeat then t.(elapsed := 0.0)
    else t.(elapsed := t.elapsed + dt)
  }

  function DoneNames(timers: map<string, Timer>, dt: real): set<string>
  {
    set n | n in timers && Done(timers[n], dt)
  }

  /**
   * The timers update leaves: paused timers as they were, finished
   * non-repeating timers gone, finished repeating timers reset to 0.
   */
  function Ticked(timers: map<string, Timer>, dt: real): (r: map<string, Timer>)
    ensures r.Keys == timers.Keys - DoneNames(timers, dt)
    ensures forall n :: n in timers && !timers[n].active ==> n in r && r[n] == timers[n]
    ensures forall n :: n in timers && Done(timers[n], dt) ==> n !in r
    ensures forall n :: n in timers && Finishes(timers[n], dt) && timers[n].repeat ==> n in r && r[n].elapsed == 0.0
    ensures forall n :: n in timers && timers[n].active && !Finishes(timers[n], dt) ==> n in r && r[n].elapsed == timers[n].elapsed + dt
  {
    map n | n in timers && !Done(timers[n], dt) :: Advanced(timers[n], dt)
  }

  /** getTimeRemaining: never negative, and 0 for an unknown timer. */
  function Remaining(timers: map<string, Timer>, name: string): (r: real)
    ensures 0.0 <= r
    ensures name !in timers ==> r == 0.0
    ensures name in timers && timers[name].elapsed <= timers[name].duration ==> r == timers[name].duration - timers[name].elapsed
  {
    if name in timers then
      var t := timers[name];
      if t.duration - t.elapsed < 0.0 then 0.0 else t.duration - t.elapsed
    else 0.0
  }

  /** isTimerFinished: a known timer whose elapsed time reached its duration. */
  predicate IsFinished(timers: map<string, Timer>, name: string)
  {
    name in timers && timers[name].elapsed >= timers[name].duration
  }

  /** A known timer is finished exactly when no time remains. */
  lemma FinishedIffNoneRemaining(timers: map<string, Timer>, name: string)
    requires name in timers
    ensures IsFinished(timers, name) <==> Remaining(timers, name) == 0.0
  {
  }

  function Names(s: seq<string>): set<string>
  {
    set x | x in s
  }

  lemma NamesAppend(s: seq<string>, name: string)
    ensures Names(s + [name]) == Names(s) + {name}
  {
  }

  predicate Distinct(s: seq<string>)
  {
    forall i, j :: 0 <= i < j < |s| ==> s[i] != s[j]
  }

  /** s without the names in gone, in order. */
  function Keep(s: seq<string>, gone: set<string>): (r: seq<string>)
    ensures forall x :: x in r <==> x in s && x !in gone
    ensures Distinct(s) ==> Distinct(r)
    decreases |s|
  {
    if s == [] then []
    else
      var rest := Keep(s[1..], gone);
      assert forall x :: x in s[1..] ==> x != s[0] || !Distinct(s);
      if s[0] in gone then rest else [s[0]] + rest
  }

  /** Dropping one more name from an already filtered list is filtering by both. */
  lemma {:induction false} KeepTwice(s: seq<string>, gone: set<string>, name: string)
    ensures Keep(Keep(s, gone), {name}) == Keep(s, gone + {name})
    decreases |s|
  {
    if s != [] {
      KeepTwice(s[1..], gone, name);
      if s[0] !in gone {
        assert ([s[0]] + Keep(s[1..], gone))[1..] == Keep(s[1..], gone);
      }
    }
  }

  /** The names of s, in order, whose timers run their callback on this update. */
  function Fired(s: seq<string>, timers: map<string, Timer>, dt: real): seq<string>
    decreases |s|
  {
    if s == [] then []
    else
      var last := s[|s| - 1];
      Fired(s[..|s| - 1], timers, dt) + (if last in timers then FiredOne(timers[last], last, dt) else [])
  }

  /** The name, when its timer runs its callback on this update. */
  function FiredOne(t: Timer, name: string, dt: real): seq<string>
  {
    if Finishes(t, dt) && t.callback then [name] else []
  }

  lemma FiredStep(s: seq<string>, name: string, timers: map<string, Timer>, dt: real)
    requires name in timers
    ensures Fired(s + [name], timers, dt) == Fired(s, timers, dt) + FiredOne(timers[name], name, dt)
  {
    assert (s + [name])[..|s|] == s;
  }

  /** The names of s, in order, whose timers are done on this update. */
  function Finished(s: seq<string>, timers: map<string, Timer>, dt: real): (r: seq<string>)
    ensures forall x :: x in r <==> x in s && x in timers && Done(timers[x], dt)
    decreases |s|
  {
    if s == [] then []
    else
      var last := s[|s| - 1];
      assert s == s[..|s| - 1] + [last];
      Finished(s[..|s| - 1], timers, dt) + (if last in timers && Done(timers[last], dt) then [last] else [])
  }

  lemma FinishedStep(s: seq<string>, name: string, timers: map<string, Timer>, dt: real)
    ensures Finished(s + [name], timers, dt) ==
      Finished(s, timers, dt) + if name in timers && Done(timers[name], dt) then [name] else []
  {
    assert (s + [name])[..|s|] == s;
  }

  class TimerComponent {
    var timers: map<string, Timer>
    /** The names in the order the dictionary iterates them: by first insertion. */
    var order: seq<string>
    /** The names whose callbacks have run, in order. */
    var fired: seq<string>

    ghost predicate Valid()
      reads this
    {
      Distinct(order) && Names(order) == timers.Keys
    }

    /** TimerComponent(): no timers. */
    constructor ()
      ensures Valid() && timers == map[] && order == [] && fired == []
    {
      timers, order, fired := map[], [], [];
    }

    /** addTimer: a fresh, active timer; a name already used keeps its place in the order. */
    method AddTimer(name: string, duration: real, callback: bool, repeat: bool)
      requires Valid()
      modifies this
      ensures Valid()
      ensures timers == old(timers)[name := Timer(duration, 0.0, callback, repeat, true)]
      ensures order == if name in old(timers) then old(order) else old(order) + [name]
      ensures fired == old(fired)
    {
      if name !in timers {
        order := order + [name];
      }
      timers := timers[name := Timer(duration, 0.0, callback, repeat, true)];
    }

    /** removeTimer: the timer goes, if there is one. */
    method RemoveTimer(name: string)
      requires Valid()
      modifies this
      ensures Valid()
      ensures timers == old(timers) - {name} && order == Keep(old(order), {name}) && fired == old(fired)
    {
      if name in timers {
        timers := timers - {name};
        order := Keep(order, {name});
      } else {
        assert Keep(order, {name}) == order by { KeepNothing(order, {name}); }
      }
    }

    /** pauseTimer: a known timer stops advancing. */
    method PauseTimer(name: string)
      requires Valid()
      modifies this
      ensures Valid() && order == old(order) && fired == old(fired)
      ensures name in old(timers) ==> timers == old(timers)[name := old(timers)[name].(active := false)]
      ensures name !in old(timers) ==> timers == old(timers)
    {
      if name in timers {
        timers := timers[name := timers[name].(active := false)];
      }
    }

    /** resumeTimer: a known timer advances again. */
    method ResumeTimer(name: string)
      requires Valid()
      modifies this
      ensures Valid() && order == old(order) && fired == old(fired)
      ensures name in old(timers) ==> timers == old(timers)[name := old(timers)[name].(active := true)]
      ensures name !in old(timers) ==> timers == old(timers)
    {
      if name in timers {
        timers := timers[name := timers[name].(active := true)];
      }
    }

    /**
     * update: every active timer advances in dictionary order, running its
     * callback when it finishes; repeating ones restart and the others are
     * removed afterwards.
     */
    method Update(dt: real)
      requires Valid()
      modifies this
      ensures Valid()
      ensures timers == Ticked(old(timers), dt)
      ensures order == Keep(old(order), DoneNames(old(timers), dt))
      ensures fired == old(fired) + Fired(old(order), old(timers), dt)
    {
      var finished := AdvanceAll(dt);
      RemoveAll(finished);
      assert Names(finished) == DoneNames(old(timers), dt);
      TickedIsAdvancedLessDone(old(timers), old(order), dt);
    }

    /** The second loop of update: removeTimer for each name in turn. */
    method RemoveAll(names: seq<string>)
      requires Valid()
      modifies this
      ensures Valid() && fired == old(fired)
      ensures timers == old(timers) - Names(names)
      ensures order == Keep(old(order), Names(names))
    {
      ghost var start, order0, fired0 := timers, order, fired;
      var j := 0;
      KeepNothing(order, {});
      assert Names(names[..0]) == {};
      while j < |names|
        invariant 0 <= j <= |names|
        invariant Valid()
        invariant timers == start - Names(names[..j])
        invariant order == Keep(order0, Names(names[..j]))
        invariant fired == fired0
      {
        ghost var removed := names[..j];
        RemoveStep(order0, start, removed, names[j]);
        assert names[..j + 1] == removed + [names[j]];
        RemoveTimer(names[j]);
        j := j + 1;
      }
      assert names[..j] == names;
    }

    /** What one turn of the second loop of update changes, stated on the state before all removals. */
    lemma RemoveStep(order0: seq<string>, start: map<string, Timer>, removed: seq<string>, name: string)
      ensures Keep(Keep(order0, Names(removed)), {name}) == Keep(order0, Names(removed + [name]))
      ensures (start - Names(removed)) - {name} == start - Names(removed + [name])
    {
      KeepTwice(order0, Names(removed), name);
      NamesAppend(removed, name);
    }

    /** The first loop of update: advance and fire, and collect the names of the timers that are done. */
    method AdvanceAll(dt: real) returns (finished: seq<string>)
      requires Valid()
      modifies this
      ensures Valid() && order == old(order)
      ensures timers == AdvancedAmong(old(timers), order, dt)
      ensures fired == old(fired) + Fired(order, old(timers), dt)
      ensures finished == Finished(order, old(timers), dt)
    {
      ghost var start, fired0 := timers, fired;
      var names := order;
      finished := [];
      var i := 0;
      while i < |names|
        invariant 0 <= i <= |names| && order == names
        invariant Distinct(names) && Names(names) == start.Keys
        invariant VisitedAll(start, fired0, names[..i], finished, dt)
      {
        ghost var visited := names[..i];
        assert names[..i + 1] == visited + [names[i]];
        NextUnvisited(names, i);
        finished := Visit(names[i], dt, start, fired0, visited, finished);
        i := i + 1;
      }
      assert names[..i] == names;
    }

    /** The state after the first loop of update has visited the names in visited. */
    ghost predicate VisitedAll(start: map<string, Timer>, fired0: seq<string>, visited: seq<string>,
                               finished: seq<string>, dt: real)
      reads this
    {
      && timers == AdvancedAmong(start, visited, dt)
      && fired == fired0 + Fired(visited, start, dt)
      && finished == Finished(visited, start, dt)
    }

    /** One turn of the first loop of update, on a timer not visited yet. */
    method Visit(name: string, dt: real, ghost start: map<string, Timer>, ghost fired0: seq<string>,
                 ghost visited: seq<string>, finished: seq<string>) returns (finished': seq<string>)
      requires name in start && name !in visited
      requires VisitedAll(start, fired0, visited, finished, dt)
      modifies this
      ensures order == old(order)
      ensures VisitedAll(start, fired0, visited + [name], finished', dt)
    {
      AdvancedAmongAt(start, visited, name, dt);
      FiredStep(visited, name, start, dt);
      FinishedStep(visited, name, start, dt);
      AdvancedAmongStep(start, visited, name, dt);
      var done := AdvanceOne(name, dt);
      finished' := if done then finished + [name] else finished;
    }

    /** The body of the first loop for one timer: true when it is done. */
    method AdvanceOne(name: string, dt: real) returns (done: bool)
      requires name in timers
      modifies this
      ensures order == old(order) && timers.Keys == old(timers).Keys
      ensures timers == old(timers)[name := Advanced(old(timers)[name], dt)]
      ensures fired == old(fired) + FiredOne(old(timers)[name], name, dt)
      ensures done == Done(old(timers)[name], dt)
    {
      done := false;
      var t := timers[name];
      if t.active {
        t := t.(elapsed := t.elapsed + dt);
        timers := timers[name := t];
        if t.duration <= t.elapsed {
          if t.callback {
            fired := fired + [name];
          }
          if t.repeat {
            timers := timers[name := t.(elapsed := 0.0)];
          } else {
            done := true;
          }
        }
      }
    }
  }

  /** In a list without repeats, the name at i is not among those before it. */
  lemma NextUnvisited(names: seq<string>, i: nat)
    requires Distinct(names) && i < |names|
    ensures names[i] in Names(names) && names[i] !in names[..i]
  {
    assert forall j :: 0 <= j < i ==> names[..i][j] == names[j] != names[i];
  }

  /** The timers after the first loop of update has visited the names in visited, one at a time. */
  function AdvancedAmong(timers: map<string, Timer>, visited: seq<string>, dt: real): (r: map<string, Timer>)
    ensures r.Keys == timers.Keys
    decreases |visited|
  {
    if visited == [] then timers
    else
      var last := visited[|visited| - 1];
      var before := AdvancedAmong(timers, visited[..|visited| - 1], dt);
      if last in timers then before[last := Advanced(timers[last], dt)] else before
  }

  lemma AdvancedAmongStep(timers: map<string, Timer>, visited: seq<string>, name: string, dt: real)
    requires name in timers
    ensures AdvancedAmong(timers, visited + [name], dt) == AdvancedAmong(timers, visited, dt)[name := Advanced(timers[name], dt)]
  {
    assert (visited + [name])[..|visited|] == visited;
  }

  /** A visited timer is advanced; the others are as they were. */
  lemma {:induction false} AdvancedAmongAt(timers: map<string, Timer>, visited: seq<string>, name: string, dt: real)
    requires name in timers
    ensures AdvancedAmong(timers, visited, dt)[name] == if name in visited then Advanced(timers[name], dt) else timers[name]
    decreases |visited|
  {
    if visited != [] {
      var front := visited[..|visited| - 1];
      assert visited == front + [visited[|visited| - 1]];
      AdvancedAmongAt(timers, front, name, dt);
    }
  }

  /** update's result is the first loop's, less the timers that are done. */
  lemma TickedIsAdvancedLessDone(timers: map<string, Timer>, order: seq<string>, dt: real)
    requires Names(order) == timers.Keys
    ensures Ticked(timers, dt) == AdvancedAmong(timers, order, dt) - DoneNames(timers, dt)
  {
    var left := AdvancedAmong(timers, order, dt) - DoneNames(timers, dt);
    forall n | n in left
      ensures left[n] == Advanced(timers[n], dt)
    {
      AdvancedAmongAt(timers, order, n, dt);
    }
  }

  /** Filtering by names that are not there changes nothing. */
  lemma {:induction false} KeepNothing(s: seq<string>, gone: set<string>)
    requires forall x :: x in s ==> x !in gone
    ensures Keep(s, gone) == s
    decreases |s|
  {
    if s != [] {
      KeepNothing(s[1..], gone);
      assert [s[0]] + s[1..] == s;
    }
  }

  // ----------------------------------------------------------------- states

  /** The hooks a state has set. */
  datatype Hooks = Hooks(enter: bool, update: bool, exit: bool)

  datatype StateCall = Exited(state: string) | Entered(state: string) | UpdatedIn(state: string, dt: real)

  /**
   * changeState: an unknown state or the current one changes nothing;
   * otherwise the old state's exit hook runs, then the new state's enter
   * hook. A current state missing from the table is the KeyError of the
   * lookup of its hooks.
   */
  function Change(current: string, states: map<string, Hooks>, target: string): (r: Result<(string, seq<StateCall>)>)
    ensures target !in states || target == current ==> r == Ok((current, []))
    ensures r.Err? <==> target in states && target != current && current !in states
    ensures r.Ok? ==> r.value.0 in states || r.value.0 == current
    ensures r.Ok? && r.value.0 != current ==> r.value.0 == target
    ensures r.Ok? && target in states && target != current ==>
      (r.value.0 == target
      && (Exited(current) in r.value.1 <==> states[current].exit)
      && (Entered(target) in r.value.1 <==> states[target].enter)
      && |r.value.1| <= 2)
  {
    if target !in states || target == current then Ok((current, []))
    else if current !in states then Err(KeyError(current))
    else
      Ok((target, (if states[current].exit then [Exited(current)] else []) + (if states[target].enter then [Entered(target)] else [])))
  }

  /** Changing to the state just entered does nothing more. */
  lemma ChangeIdempotent(current: string, states: map<string, Hooks>, target: string)
    requires current in states && Change(current, states, target).Ok?
    ensures var s := Change(current, states, target).value.0;
      s in states && Change(s, states, target) == Ok((s, []))
  {
  }

  class StateComponent {
    var currentState: string
    var states: map<string, Hooks>
    /** The hooks run so far, in order. */
    var calls: seq<StateCall>

    /** The current state has an entry in the table. */
    predicate Valid()
      reads this
    {
      currentState in states
    }

    /** StateComponent(): in "idle", the only state, which has no hooks. */
    constructor ()
      ensures Valid() && currentState == "idle" && states == map["idle" := Hooks(false, false, false)] && calls == []
    {
      currentState := "idle";
      states := map["idle" := Hooks(false, false, false)];
      calls := [];
    }

    /** addState: the state's hooks, replacing any it had. */
    method AddState(name: string, enter: bool, update: bool, exit: bool)
      modifies this
      ensures states == old(states)[name := Hooks(enter, update, exit)]
      ensures currentState == old(currentState) && calls == old(calls)
      ensures old(Valid()) ==> Valid()
    {
      states := states[name := Hooks(enter, update, exit)];
    }

    method ChangeState(target: string) returns (r: Result<bool>)
      modifies this
      ensures var c := Change(old(currentState), states, target);
        (r.Err? <==> c.Err?) && (c.Err? ==> r.error == c.error && currentState == old(currentState) && calls == old(calls))
        && (c.Ok? ==> currentState == c.value.0 && calls == old(calls) + c.value.1)
      ensures r.Ok? ==> (r.value <==> currentState != old(currentState))
      ensures states == old(states)
      ensures old(Valid()) ==> r.Ok? && Valid()
    {
      if target !in states {
        return Ok(false);
      }
      if target == currentState {
        return Ok(false);
      }
      if currentState !in states {
        return Err(KeyError(currentState));
      }
      if states[currentState].exit {
        calls := calls + [Exited(currentState)];
      }
      currentState := target;
      if states[target].enter {
        calls := calls + [Entered(target)];
      }
      return Ok(true);
    }

    /** update: the current state's update hook runs, if set. */
    method Update(dt: real) returns (r: Result<bool>)
      modifies this
      ensures currentState == old(currentState) && states == old(states)
      ensures currentState !in states ==> r == Err(KeyError(currentState)) && calls == old(calls)
      ensures currentState in states ==>
        (r == Ok(true) && calls == old(calls) + if states[currentState].update then [UpdatedIn(currentState, dt)] else [])
    {
      if currentState !in states {
        return Err(KeyError(currentState));
      }
      if states[currentState].update {
        calls := calls + [UpdatedIn(currentState, dt)];
      }
      return Ok(true);
    }
  }
}
