/**
 * The Game of engine/__init__.py: a singleton that owns the registered
 * scenes, the current scene and a stack of paused scenes, and a registry
 * of event handlers per event type. The frame loop's fixed-timestep
 * accumulator is modelled; the window, the clock, pygame's event queue
 * and the input, asset and network managers are not.
 *
 * Handlers are Python callables, compared by identity; here they are ids.
 */
module Games {
  import opened Wrappers
  import opened Hierarchy
  import opened Scenes

  type Handler = nat
  type Handlers = map<int, seq<Handler>>

  /** The handlers emit_event (and the frame loop) calls for an event type, in order of registration. */
  function Emitted<K(==,!new)>(reg: map<K, seq<Handler>>, t: K): seq<Handler>
  {
    if t in reg then reg[t] else []
  }

  /** add_event_handler: the handler goes to the end of its type's list, even when it is already there. */
  function AddHandler<K(==,!new)>(reg: map<K, seq<Handler>>, t: K, h: Handler): (r: map<K, seq<Handler>>)
    ensures Emitted(r, t) == Emitted(reg, t) + [h]
    ensures forall u :: u != t ==> Emitted(r, u) == Emitted(reg, u)
    ensures r.Keys == reg.Keys + {t}
  {
    reg[t := Emitted(reg, t) + [h]]
  }

  /**
   * remove_event_handler: only a registered handler is removed, its first
   * registration; an absent handler or type changes nothing. A list left
   * empty stays in the registry.
   */
  function RemoveHandler<K(==,!new)>(reg: map<K, seq<Handler>>, t: K, h: Handler): (r: map<K, seq<Handler>>)
    ensures Emitted(r, t) == RemoveFirst(Emitted(reg, t), h)
    ensures forall u :: u != t ==> Emitted(r, u) == Emitted(reg, u)
    ensures h !in Emitted(reg, t) ==> r == reg
    ensures r.Keys == reg.Keys
  {
    if t in reg && h in reg[t] then reg[t := RemoveFirst(reg[t], h)] else reg
  }

  /** Removing a handler just registered for the first time leaves every event calling what it called before. */
  lemma RemoveUndoesAddHandler<K(!new)>(reg: map<K, seq<Handler>>, t: K, h: Handler, u: K)
    requires h !in Emitted(reg, t)
    ensures Emitted(RemoveHandler(AddHandler(reg, t, h), t, h), u) == Emitted(reg, u)
  {
    RemoveAppended(Emitted(reg, t), h);
  }

  const FixedTimestep: real := 1.0 / 60.0
  /** The frame time is capped at this many seconds, against the spiral of death. */
  const MaxFrameTime: real := 0.25

  /**
   * The fixed-timestep part of one frame of run: the capped frame time is
   * added to the accumulator, and fixed steps are taken while a whole step
   * is left. The number of steps and the new accumulator are returned.
   * From an accumulator below one step, a frame takes at most 15 steps.
   */
  method FixedSteps(acc: real, frameTime: real) returns (steps: nat, rest: real)
    ensures var total := acc + (if frameTime < MaxFrameTime then frameTime else MaxFrameTime);
      rest == total - steps as real * FixedTimestep && (steps == 0 <==> total < FixedTimestep)
    ensures rest < FixedTimestep
    ensures steps > 0 ==> 0.0 <= rest
    ensures acc < FixedTimestep ==> steps <= 15
  {
    var capped := if frameTime < MaxFrameTime then frameTime else MaxFrameTime;
    var a := acc + capped;
    steps := 0;
    while a >= FixedTimestep
      invariant a == acc + capped - steps as real * FixedTimestep
      invariant steps > 0 ==> 0.0 <= a
      decreases (a * 60.0).Floor
    {
      a := a - FixedTimestep;
      steps := steps + 1;
    }
    rest := a;
  }

  class Game {
    var width: int
    var height: int
    var title: string
    var running: bool
    var scenes: map<string, Scene>
    var current: Scene?
    var stack: seq<Scene>
    var handlers: Handlers
    var accumulator: real

    /** The object __new__ allocates, before __init__ has set anything up. */
    constructor Blank()
      ensures scenes == map[] && current == null && stack == [] && handlers == map[] && !running
    {
      width := 0;
      height := 0;
      title := "";
      running := false;
      scenes := map[];
      current := null;
      stack := [];
      handlers := map[];
      accumulator := 0.0;
    }

    /** add_scene: registers, or replaces, the scene under the name. */
    method AddScene(n: string, s: Scene)
      modifies this
      ensures scenes == old(scenes)[n := s]
      ensures current == old(current) && stack == old(stack) && handlers == old(handlers)
    {
      scenes := scenes[n := s];
    }

    /**
     * load_scene: an unknown name changes nothing. Otherwise the current
     * scene is exited and the named one becomes current and is entered;
     * the stack is left as it is.
     */
    method LoadScene(n: string)
      modifies this, current, scenes.Values
      ensures n !in old(scenes) ==> unchanged(this) && unchanged(scenes.Values) && (current != null ==> unchanged(current))
      ensures n in old(scenes) ==> current == old(scenes)[n] && current.active && !current.paused
      ensures n in old(scenes) && old(current) != null && old(current) != current ==> !old(current).active
      ensures scenes == old(scenes) && stack == old(stack) && handlers == old(handlers)
      ensures forall s :: s in old(scenes).Values && s != old(current) && s != current ==> unchanged(s)
      ensures n in old(scenes) ==> current.name == old(scenes[n].name) && current.actors == old(scenes[n].actors)
      ensures width == old(width) && height == old(height) && title == old(title) && running == old(running) && accumulator == old(accumulator)
    {
      if n in scenes {
        if current != null {
          current.OnExit();
        }
        current := scenes[n];
        current.OnEnter();
      }
    }

    /**
     * push_scene: an unknown name changes nothing. Otherwise the current
     * scene, if any, goes on top of the stack and is paused, and the named
     * scene becomes current and is entered.
     */
    method PushScene(n: string)
      modifies this, current, scenes.Values
      ensures n !in old(scenes) ==> unchanged(this) && unchanged(scenes.Values) && (current != null ==> unchanged(current))
      ensures n in old(scenes) ==> current == old(scenes)[n] && current.active && !current.paused
      ensures n in old(scenes) ==> stack == old(stack) + (if old(current) != null then [old(current)] else [])
      ensures n in old(scenes) && old(current) != null && old(current) != current ==> old(current).paused && old(current).active == old(current.active)
      ensures scenes == old(scenes) && handlers == old(handlers)
      ensures forall s :: s in old(scenes).Values && s != old(current) && s != current ==> unchanged(s)
      ensures n in old(scenes) ==> current.name == old(scenes[n].name) && current.actors == old(scenes[n].actors)
      ensures width == old(width) && height == old(height) && title == old(title) && running == old(running) && accumulator == old(accumulator)
    {
      if n in scenes {
        if current != null {
          stack := stack + [current];
          current.OnPause();
        }
        current := scenes[n];
        current.OnEnter();
      }
    }

    /**
     * pop_scene: the current scene, if any, is exited; the top of the
     * stack is taken off, becomes current and is resumed, or, with an
     * empty stack, there is no current scene.
     */
    method PopScene()
      modifies this, current, stack
      ensures old(current) != null && old(current) != current ==> !old(current).active && old(current).paused == old(current.paused)
      ensures |old(stack)| == 0 ==> current == null && stack == []
      ensures |old(stack)| > 0 ==> current == old(stack)[|old(stack)| - 1] && stack == old(stack)[..|old(stack)| - 1]
      ensures |old(stack)| > 0 ==> !current.paused && (current != old(current) ==> current.active == old(stack[|stack| - 1].active))
      ensures scenes == old(scenes) && handlers == old(handlers)
    {
      if current != null {
        current.OnExit();
      }
      if |stack| > 0 {
        current := stack[|stack| - 1];
        stack := stack[..|stack| - 1];
        current.OnResume();
      } else {
        current := null;
      }
    }

    method AddEventHandler(t: int, h: Handler)
      modifies this
      ensures handlers == AddHandler(old(handlers), t, h)
      ensures scenes == old(scenes) && current == old(current) && stack == old(stack)
    {
      var list := if t in handlers then handlers[t] else [];
      handlers := handlers[t := list + [h]];
    }

    method RemoveEventHandler(t: int, h: Handler)
      modifies this
      ensures handlers == RemoveHandler(old(handlers), t, h)
      ensures scenes == old(scenes) && current == old(current) && stack == old(stack)
    {
      if t in handlers {
        if h in handlers[t] {
          handlers := handlers[t := RemoveFirst(handlers[t], h)];
        }
      }
    }

    /** quit: the frame loop stops after the current frame. */
    method Quit()
      modifies this
      ensures !running && scenes == old(scenes) && current == old(current) && stack == old(stack) && handlers == old(handlers)
    {
      running := false;
    }
  }

  /**
   * The class-level state behind the singleton: the one instance __new__
   * hands out, and whether __init__ has already run.
   */
  class GameClass {
    var instance: Game?
    var initialized: bool

    /** __init__ marks the class initialised only once the instance exists. */
    ghost predicate Valid()
      reads this
    {
      initialized ==> instance != null
    }

    constructor ()
      ensures Valid() && instance == null && !initialized
    {
      instance := null;
      initialized := false;
    }

    /**
     * Game(width, height, title): __new__ allocates only the first time and
     * otherwise returns the existing instance; __init__ sets the instance
     * up only once, so later arguments are ignored.
     */
    method Construct(width: int, height: int, title: string) returns (g: Game)
      requires Valid()
      modifies this, instance
      ensures Valid() && instance == g && initialized
      ensures old(instance) != null ==> g == old(instance)
      ensures old(instance) == null ==> fresh(g)
      ensures old(initialized) ==> g.width == old(instance.width) && g.height == old(instance.height) && g.title == old(instance.title)
      ensures old(initialized) ==> g.scenes == old(instance.scenes) && g.current == old(instance.current) && g.stack == old(instance.stack)
      ensures !old(initialized) ==> g.width == width && g.height == height && g.title == title && !g.running
      ensures !old(initialized) ==> g.scenes == map[] && g.current == null && g.stack == [] && g.handlers == map[]
    {
      if instance == null {
        instance := new Game.Blank();
      }
      g := instance;
      if initialized {
        return;
      }
      g.width := width;
      g.height := height;
      g.title := title;
      g.running := false;
      g.scenes := map[];
      g.current := null;
      g.stack := [];
      g.handlers := map[];
      g.accumulator := 0.0;
      initialized := true;
    }

    /** get_instance: the instance, built with the default arguments when there is none. */
    method GetInstance() returns (g: Game)
      requires Valid()
      modifies this, instance
      ensures Valid() && instance == g
      ensures old(instance) != null ==> g == old(instance)
      ensures old(instance) == null && !old(initialized) ==> g.width == 800 && g.height == 600 && g.title == "Wicked Wizard Game"
    {
      if instance == null {
        g := Construct(800, 600, "Wicked Wizard Game");
      } else {
        g := instance;
      }
    }

    /** has_instance. */
    predicate HasInstance()
      reads this
    {
      instance != null
    }
  }

  /** Pushing a scene and popping it again gives back the current scene and the stack. */
  method PushThenPop(g: Game, n: string)
    requires n in g.scenes && g.current != null && g.scenes[n] != g.current
    modifies g, g.current, g.scenes.Values, g.stack
    ensures g.current == old(g.current) && g.stack == old(g.stack)
    ensures g.current.active == old(g.current.active) && !g.current.paused
  {
    ghost var c := g.current;
    ghost var s := g.stack;
    g.PushScene(n);
    assert g.stack == s + [c];
    g.PopScene();
    assert g.stack == s;
  }
}
