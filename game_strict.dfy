/**
 * The Game of engine/game/game.py: the same singleton, scene stack and
 * event handler registry as engine/__init__.py, over the Scene of
 * engine/scene/scene.py, whose onEnter, onExit, onPause and onResume do
 * nothing. Loading, pushing and popping scenes therefore only move
 * references; no scene's flags change.
 */
module GameStrict {
  import opened Wrappers
  import opened Hierarchy
  import opened SceneStrict
  import Games

  class Game {
    var width: int
    var height: int
    var title: string
    var running: bool
    var scenes: map<string, StrictScene>
    var current: StrictScene?
    var stack: seq<StrictScene>
    var handlers: Games.Handlers

    /** The object __new__ allocates, before __init__ has set anything up. */
    constructor Blank()
      ensures scenes == map[] && current == null && stack == [] && handlers == map[] && !running
    {
      width := 0;
      height := 0;
      title := "";
      running := false;
      scenes := map[];
      current := null;
      stack := [];
      handlers := map[];
    }

    /** addScene: registers, or replaces, the scene under the name. */
    method AddScene(n: string, s: StrictScene)
      modifies this
      ensures scenes == old(scenes)[n := s]
      ensures current == old(current) && stack == old(stack) && handlers == old(handlers)
    {
      scenes := scenes[n := s];
    }

    /** loadScene: an unknown name changes nothing; otherwise the named scene becomes current. */
    method LoadScene(n: string)
      modifies this
      ensures current == (if n in old(scenes) then old(scenes)[n] else old(current))
      ensures scenes == old(scenes) && stack == old(stack) && handlers == old(handlers)
    {
      if n in scenes {
        current := scenes[n];
      }
    }

    /** pushScene: an unknown name changes nothing; otherwise the current scene, if any, is stacked and the named one becomes current. */
    method PushScene(n: string)
      modifies this
      ensures n !in old(scenes) ==> current == old(current) && stack == old(stack)
      ensures n in old(scenes) ==> current == old(scenes)[n]
      ensures n in old(scenes) ==> stack == old(stack) + (if old(current) != null then [old(current)] else [])
      ensures scenes == old(scenes) && handlers == old(handlers)
    {
      if n in scenes {
        if current != null {
          stack := stack + [current];
        }
        current := scenes[n];
      }
    }

    /** popScene: the top of the stack becomes current again, or there is no current scene. */
    method PopScene()
      modifies this
      ensures |old(stack)| == 0 ==> current == null && stack == []
      ensures |old(stack)| > 0 ==> current == old(stack)[|old(stack)| - 1] && stack == old(stack)[..|old(stack)| - 1]
      ensures scenes == old(scenes) && handlers == old(handlers)
    {
      if |stack| > 0 {
        current := stack[|stack| - 1];
        stack := stack[..|stack| - 1];
      } else {
        current := null;
      }
    }

    method AddEventHandler(t: int, h: Games.Handler)
      modifies this
      ensures handlers == Games.AddHandler(old(handlers), t, h)
      ensures scenes == old(scenes) && current == old(current) && stack == old(stack)
    {
      var list := if t in handlers then handlers[t] else [];
      handlers := handlers[t := list + [h]];
    }

    method RemoveEventHandler(t: int, h: Games.Handler)
      modifies this
      ensures handlers == Games.RemoveHandler(old(handlers), t, h)
      ensures scenes == old(scenes) && current == old(current) && stack == old(stack)
    {
      if t in handlers {
        if h in handlers[t] {
          handlers := handlers[t := RemoveFirst(handlers[t], h)];
        }
      }
    }
  }

  /** The class-level state behind the singleton. */
  class GameClass {
    var instance: Game?
    var initialized: bool

    ghost predicate Valid()
      reads this
    {
      initialized ==> instance != null
    }

    constructor ()
      ensures Valid() && instance == null && !initialized
    {
      instance := null;
      initialized := false;
    }

    /** Game(width, height, title): one instance, set up by the first call only. */
    method Construct(width: int, height: int, title: string) returns (g: Game)
      requires Valid()
      modifies this, instance
      ensures Valid() && instance == g && initialized
      ensures old(instance) != null ==> g == old(instance)
      ensures old(instance) == null ==> fresh(g)
      ensures old(initialized) ==> g.width == old(instance.width) && g.height == old(instance.height) && g.title == old(instance.title)
      ensures old(initialized) ==> g.scenes == old(instance.scenes) && g.current == old(instance.current) && g.stack == old(instance.stack)
      ensures !old(initialized) ==> g.width == width && g.height == height && g.title == title && !g.running
      ensures !old(initialized) ==> g.scenes == map[] && g.current == null && g.stack == [] && g.handlers == map[]
    {
      if instance == null {
        instance := new Game.Blank();
      }
      g := instance;
      if initialized {
        return;
      }
      g.width := width;
      g.height := height;
      g.title := title;
      g.running := false;
      g.scenes := map[];
      g.current := null;
      g.stack := [];
      g.handlers := map[];
      initialized := true;
    }
  }
}
