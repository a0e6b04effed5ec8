/**
 * FileAnimationComponent of engine/rendering/enhanced_animation.py: frame
 * sequences read from an animation file, played forward, looping or
 * ping-pong, with callbacks named by the sequence and property animations
 * scheduled alongside.
 *
 * The clock (time.time()) is the parameter `now`. The file's contents come
 * in already decoded, as a Value; frame_events, whose integer keys a
 * Value's dict cannot hold, come beside it. Callbacks are recorded by name
 * in `fired` rather than run.
 */
module Animations {
  import opened Wrappers
  import opened Values

  datatype Easing = Linear | EaseIn | EaseOut | EaseInOut | Bounce | Elastic | Sine | Cosine | SineWave | Pulse | SmoothStep
  {
    /** The enum member's value, as an animation file spells it. */
    function Name(): string
    {
      match this
      case Linear => "linear"
      case EaseIn => "ease_in"
      case EaseOut => "ease_out"
      case EaseInOut => "ease_in_out"
      case Bounce => "bounce"
      case Elastic => "elastic"
      case Sine => "sine"
      case Cosine => "cosine"
      case SineWave => "sine_wave"
      case Pulse => "pulse"
      case SmoothStep => "smooth_step"
    }
  }

  const EasingNames: set<string> :=
    {"linear", "ease_in", "ease_out", "ease_in_out", "bounce", "elastic", "sine", "cosine", "sine_wave", "pulse", "smooth_step"}

  /** EasingType(value), with the ValueError of anything that is not a member's value turned into LINEAR. */
  function EasingOf(v: Value): (r: Easing)
    ensures v.VStr? && v.s in EasingNames ==> r.Name() == v.s
    ensures !(v.VStr? && v.s in EasingNames) ==> r == Linear
  {
    if !v.VStr? then Linear
    else if v.s == "ease_in" then EaseIn
    else if v.s == "ease_out" then EaseOut
    else if v.s == "ease_in_out" then EaseInOut
    else if v.s == "bounce" then Bounce
    else if v.s == "elastic" then Elastic
    else if v.s == "sine" then Sine
    else if v.s == "cosine" then Cosine
    else if v.s == "sine_wave" then SineWave
    else if v.s == "pulse" then Pulse
    else if v.s == "smooth_step" then SmoothStep
    else Linear
  }

  /** Reading back a member's value gives that member. */
  lemma EasingRoundTrip(e: Easing)
    ensures EasingOf(VStr(e.Name())) == e
  {
  }

  /** A duration in seconds, or the float('inf') of a sine wave. */
  datatype Span = Seconds(secs: real) | Forever

  datatype PropertyAnimation = PropertyAnimation(
    target: string, startValue: Value, endValue: Value, duration: Span, easing: Easing,
    loop: bool, pingPong: bool, offset: real, frequency: Value, amplitude: Value, baseValue: Value)

  datatype Frame = Frame(
    source: string, duration: real, offsetX: int, offsetY: int, flipX: bool, flipY: bool,
    rectX: Option<int>, rectY: Option<int>, rectW: Option<int>, rectH: Option<int>,
    propertyAnimations: Option<seq<PropertyAnimation>>)

  datatype Sequence = Sequence(
    name: string, frames: seq<Frame>, loop: bool, pingPong: bool, nextAnimation: Option<string>,
    onStart: Option<string>, onEnd: Option<string>, onLoop: Option<string>,
    frameEvents: Option<map<int, string>>, propertyAnimations: Option<seq<PropertyAnimation>>)

  datatype AnimationSet = AnimationSet(name: Value, basePath: string, defaultAnimation: Option<string>, animations: map<string, Sequence>)

  /** An entry of active_property_animations: the animation and the time it starts. */
  datatype Scheduled = Scheduled(anim: PropertyAnimation, start: real)

  // ---------------------------------------------------------------------
  // Parsing. Any exception while parsing makes load_animation_file return
  // False, so every parse yields None for all of them alike.

  /** dict.get(key, default). */
  function Get(d: map<string, Value>, key: string, default: Value): (r: Value)
    ensures key in d ==> r == d[key]
    ensures key !in d ==> r == default
  {
    if key in d then d[key] else default
  }

  /** A field that must be a number: ints, bools and floats. */
  function NumberField(d: map<string, Value>, key: string, default: real): (r: Option<real>)
    ensures key !in d ==> r == Some(default)
    ensures key in d ==> (r.Some? <==> IsNumber(d[key]))
    ensures key in d && IsNumber(d[key]) ==> r == Some(AsReal(d[key]))
  {
    var v := Get(d, key, VFloat(default));
    if IsNumber(v) then Some(AsReal(v)) else None
  }

  function IntField(d: map<string, Value>, key: string, default: int): (r: Option<int>)
    ensures key !in d ==> r == Some(default)
    ensures key in d ==> (r.Some? <==> IsIntLike(d[key]))
    ensures key in d && IsIntLike(d[key]) ==> r == Some(AsInt(d[key]))
  {
    var v := Get(d, key, VInt(default));
    if IsIntLike(v) then Some(AsInt(v)) else None
  }

  /** A field that may be None: absent and None read as None. */
  function OptIntField(d: map<string, Value>, key: string): (r: Option<Option<int>>)
    ensures key !in d ==> r == Some(None)
    ensures key in d && d[key].VNone? ==> r == Some(None)
    ensures key in d && IsIntLike(d[key]) ==> r == Some(Some(AsInt(d[key])))
    ensures r.None? <==> key in d && !d[key].VNone? && !IsIntLike(d[key])
  {
    var v := Get(d, key, VNone);
    if v.VNone? then Some(None) else if IsIntLike(v) then Some(Some(AsInt(v))) else None
  }

  function OptStrField(d: map<string, Value>, key: string): (r: Option<Option<string>>)
    ensures key !in d ==> r == Some(None)
    ensures key in d && d[key].VNone? ==> r == Some(None)
    ensures key in d && d[key].VStr? ==> r == Some(Some(d[key].s))
    ensures r.None? <==> key in d && !d[key].VNone? && !d[key].VStr?
  {
    var v := Get(d, key, VNone);
    if v.VNone? then Some(None) else if v.VStr? then Some(Some(v.s)) else None
  }

  function StrField(d: map<string, Value>, key: string, default: string): (r: Option<string>)
    ensures key !in d ==> r == Some(default)
    ensures key in d ==> (r.Some? <==> d[key].VStr?)
    ensures key in d && d[key].VStr? ==> r == Some(d[key].s)
  {
    var v := Get(d, key, VStr(default));
    if v.VStr? then Some(v.s) else None
  }

  /** A flag the component only ever tests for truth. */
  function Flag(d: map<string, Value>, key: string, default: bool): (r: bool)
    ensures key !in d ==> r == default
    ensures key in d ==> r == Truthy(d[key])
  {
    Truthy(Get(d, key, VBool(default)))
  }

  /** _parse_property_animations for one entry: a dict with a string target; the other fields default. */
  function ParseProperty(v: Value): (r: Option<PropertyAnimation>)
    ensures r.Some? ==> v.VDict? && "target" in v.entries && v.entries["target"] == VStr(r.value.target)
    ensures r.Some? ==> r.value.easing == EasingOf(Get(v.entries, "easing", VStr("linear")))
    ensures r.Some? ==> r.value.startValue == Get(v.entries, "start_value", VInt(0)) && r.value.endValue == Get(v.entries, "end_value", VInt(1))
    ensures r.Some? && "duration" !in v.entries ==> r.value.duration == Seconds(1.0)
    ensures r.Some? && "offset" !in v.entries ==> r.value.offset == 0.0
    ensures r.Some? ==> r.value.loop == Flag(v.entries, "loop", false) && r.value.pingPong == Flag(v.entries, "ping_pong", false)
    ensures v.VDict? && "target" in v.entries && v.entries["target"].VStr?
      && NumberField(v.entries, "duration", 1.0).Some? && NumberField(v.entries, "offset", 0.0).Some?
      ==> r.Some?
  {
    if !v.VDict? then None
    else
      var d := v.entries;
      var duration := NumberField(d, "duration", 1.0);
      var offset := NumberField(d, "offset", 0.0);
      if "target" !in d || !d["target"].VStr? || duration.None? || offset.None? then None
      else Some(PropertyAnimation(d["target"].s, Get(d, "start_value", VInt(0)), Get(d, "end_value", VInt(1)),
        Seconds(duration.value), EasingOf(Get(d, "easing", VStr("linear"))), Flag(d, "loop", false),
        Flag(d, "ping_pong", false), offset.value, Get(d, "frequency", VNone), Get(d, "amplitude", VNone),
        Get(d, "base_value", VNone)))
  }

  /** The list of property animations: every entry parses, in order. */
  function ParseProperties(items: seq<Value>): (r: Option<seq<PropertyAnimation>>)
    ensures r.Some? <==> forall i :: 0 <= i < |items| ==> ParseProperty(items[i]).Some?
    ensures r.Some? ==> |r.value| == |items| && forall i :: 0 <= i < |items| ==> r.value[i] == ParseProperty(items[i]).value
  {
    if items == [] then Some([])
    else
      var head := ParseProperty(items[0]);
      var rest := ParseProperties(items[1..]);
      assert forall i :: 1 <= i < |items| ==> items[i] == items[1..][i - 1];
      if head.Some? && rest.Some? then Some([head.value] + rest.value) else None
  }

  /** A "property_animations" entry: iterating anything but a list of dicts fails. */
  function PropertyList(v: Value): (r: Option<seq<PropertyAnimation>>)
    ensures r.Some? ==> v.VList? && r == ParseProperties(v.items)
  {
    if v.VList? then ParseProperties(v.items) else None
  }

  /** The loop of _parse_property_animations. */
  method CollectProperties(items: seq<Value>) returns (r: Option<seq<PropertyAnimation>>)
    ensures r == ParseProperties(items)
  {
    var anims: seq<PropertyAnimation> := [];
    var i := 0;
    assert items[i..] == items;
    JoinedEmpty(ParseProperties(items));
    while i < |items|
      invariant 0 <= i <= |items|
      invariant ParseProperties(items) == Joined(anims, ParseProperties(items[i..]))
    {
      assert items[i..][1..] == items[i + 1..];
      var p := ParseProperty(items[i]);
      if p.None? {
        return None;
      }
      JoinedStep(anims, p.value, ParseProperties(items[i + 1..]));
      anims := anims + [p.value];
      i := i + 1;
    }
    assert items[i..] == [];
    assert anims + [] == anims;
    r := Some(anims);
  }

  /** What a prefix already built and a parse of the rest make together. */
  function Joined<T>(done: seq<T>, rest: Option<seq<T>>): Option<seq<T>>
  {
    if rest.Some? then Some(done + rest.value) else None
  }

  lemma JoinedEmpty<T>(rest: Option<seq<T>>)
    ensures Joined([], rest) == rest
  {
    if rest.Some? {
      assert [] + rest.value == rest.value;
    }
  }

  lemma JoinedStep<T>(done: seq<T>, x: T, rest: Option<seq<T>>)
    ensures Joined(done, if rest.Some? then Some([x] + rest.value) else None) == Joined(done + [x], rest)
  {
    if rest.Some? {
      assert done + ([x] + rest.value) == (done + [x]) + rest.value;
    }
  }

  /** A frame given as a bare string: that image, with every other field at its default. */
  function SimpleFrame(source: string): Frame
  {
    Frame(source, 0.1, 0, 0, false, false, None, None, None, None, None)
  }

  /** A frame given as a dict: "source" is required, the rest default. */
  function ParseFrameDict(d: map<string, Value>): (r: Option<Frame>)
    ensures r.Some? ==> "source" in d && d["source"] == VStr(r.value.source)
    ensures r.Some? && "property_animations" !in d ==> r.value.propertyAnimations.None?
    ensures r.Some? && "property_animations" in d ==> r.value.propertyAnimations == PropertyList(d["property_animations"])
    ensures r.Some? ==> r.value.flipX == Flag(d, "flip_x", false) && r.value.flipY == Flag(d, "flip_y", false)
    ensures d == map["source" := VStr("x")] ==> r == Some(SimpleFrame("x"))
  {
    var props := if "property_animations" in d then PropertyList(d["property_animations"]) else None;
    var duration := NumberField(d, "duration", 0.1);
    var ox := IntField(d, "offset_x", 0);
    var oy := IntField(d, "offset_y", 0);
    var rx := OptIntField(d, "rect_x");
    var ry := OptIntField(d, "rect_y");
    var rw := OptIntField(d, "rect_w");
    var rh := OptIntField(d, "rect_h");
    if "source" !in d || !d["source"].VStr? || ("property_animations" in d && props.None?)
      || duration.None? || ox.None? || oy.None? || rx.None? || ry.None? || rw.None? || rh.None? then None
    else Some(Frame(d["source"].s, duration.value, ox.value, oy.value, Flag(d, "flip_x", false), Flag(d, "flip_y", false),
      rx.value, ry.value, rw.value, rh.value, if "property_animations" in d then props else None))
  }

  /** The entries the frame loop looks at: strings and dicts, in order; everything else is skipped. */
  function Kept(items: seq<Value>): (r: seq<Value>)
    ensures |r| <= |items|
    ensures (forall i :: 0 <= i < |items| ==> items[i].VStr? || items[i].VDict?) ==> r == items
  {
    if items == [] then []
    else
      if items[0].VStr? || items[0].VDict? then [items[0]] + Kept(items[1..]) else Kept(items[1..])
  }

  /** The kept entries are exactly the strings and dicts among the items. */
  lemma {:induction false} KeptMembers(items: seq<Value>)
    ensures forall x :: x in Kept(items) <==> x in items && (x.VStr? || x.VDict?)
  {
    if items != [] {
      KeptMembers(items[1..]);
      assert forall x :: x in items <==> x == items[0] || x in items[1..];
    }
  }

  /** The frame of one kept entry, None for a dict that does not parse. */
  function FrameOf(v: Value): Option<Frame>
  {
    if v.VStr? then Some(SimpleFrame(v.s)) else if v.VDict? then ParseFrameDict(v.entries) else None
  }

  /** The frame loop of _parse_animation_sequence. */
  function ParseFrames(items: seq<Value>): (r: Option<seq<Frame>>)
    ensures r.Some? ==> |r.value| <= |items|
    ensures (forall i :: 0 <= i < |items| ==> !items[i].VDict?) ==> r.Some?
  {
    if items == [] then Some([])
    else
      var rest := ParseFrames(items[1..]);
      if items[0].VStr? || items[0].VDict? then
        var f := FrameOf(items[0]);
        if f.Some? && rest.Some? then Some([f.value] + rest.value) else None
      else rest
  }

  /** Frame parsing fails exactly when a dict entry does not parse. */
  lemma {:induction false} ParseFramesSucceeds(items: seq<Value>)
    ensures ParseFrames(items).Some? <==> forall i :: 0 <= i < |items| && items[i].VDict? ==> ParseFrameDict(items[i].entries).Some?
  {
    if items != [] {
      var rest := items[1..];
      ParseFramesSucceeds(rest);
      assert forall i :: 1 <= i < |items| ==> items[i] == rest[i - 1];
    }
  }

  /** The frames are the kept entries, each a string frame or a parsed dict. */
  lemma {:induction false} ParseFramesKeeps(items: seq<Value>)
    ensures ParseFrames(items).Some? ==> var fs := ParseFrames(items).value;
      |fs| == |Kept(items)| && forall j :: 0 <= j < |fs| ==> Some(fs[j]) == FrameOf(Kept(items)[j])
  {
    if items != [] {
      var rest := items[1..];
      ParseFramesKeeps(rest);
      if items[0].VStr? || items[0].VDict? {
        assert Kept(items) == [items[0]] + Kept(rest);
      } else {
        assert Kept(items) == Kept(rest);
      }
    }
  }

  /** The frame loop as the source writes it: strings become frames, dicts are parsed, anything else is skipped. */
  method CollectFrames(items: seq<Value>) returns (r: Option<seq<Frame>>)
    ensures r == ParseFrames(items)
  {
    var frames: seq<Frame> := [];
    var i := 0;
    assert items[i..] == items;
    JoinedEmpty(ParseFrames(items));
    while i < |items|
      invariant 0 <= i <= |items|
      invariant ParseFrames(items) == Joined(frames, ParseFrames(items[i..]))
    {
      assert items[i..][1..] == items[i + 1..];
      var v := items[i];
      if v.VStr? || v.VDict? {
        var f := FrameOf(v);
        if f.None? {
          return None;
        }
        JoinedStep(frames, f.value, ParseFrames(items[i + 1..]));
        frames := frames + [f.value];
      }
      i := i + 1;
    }
    assert items[i..] == [];
    assert frames + [] == frames;
    r := Some(frames);
  }

  /** _parse_animation_sequence: a dict whose fields default; loop is on and ping_pong off unless given. */
  function ParseSequence(name: string, v: Value, events: Option<map<int, string>>): (r: Option<Sequence>)
    ensures r.Some? ==> v.VDict? && r.value.name == name && r.value.frameEvents == events
    ensures r.Some? ==> r.value.loop == Flag(v.entries, "loop", true) && r.value.pingPong == Flag(v.entries, "ping_pong", false)
    ensures r.Some? ==> (Get(v.entries, "frames", VList([])).VList?
      && Some(r.value.frames) == ParseFrames(Get(v.entries, "frames", VList([])).items))
    ensures r.Some? && "property_animations" !in v.entries ==> r.value.propertyAnimations.None?
    ensures v == VDict(map[]) ==> r == Some(Sequence(name, [], true, false, None, None, None, None, events, None))
  {
    if !v.VDict? then None
    else
      var d := v.entries;
      var framesData := Get(d, "frames", VList([]));
      var frames := if framesData.VList? then ParseFrames(framesData.items) else None;
      var props := if "property_animations" in d then PropertyList(d["property_animations"]) else None;
      var next := OptStrField(d, "next_animation");
      var onStart := OptStrField(d, "on_start");
      var onEnd := OptStrField(d, "on_end");
      var onLoop := OptStrField(d, "on_loop");
      if frames.None? || ("property_animations" in d && props.None?) || next.None? || onStart.None? || onEnd.None? || onLoop.None? then None
      else Some(Sequence(name, frames.value, Flag(d, "loop", true), Flag(d, "ping_pong", false), next.value,
        onStart.value, onEnd.value, onLoop.value, events, if "property_animations" in d then props else None))
  }

  function EventsFor(events: map<string, map<int, string>>, name: string): Option<map<int, string>>
  {
    if name in events then Some(events[name]) else None
  }

  /** _parse_animation_data: a dict whose "animations" dict maps each name to a sequence that parses. */
  function ParseSet(doc: Value, events: map<string, map<int, string>>): (r: Option<AnimationSet>)
    ensures r.Some? ==> doc.VDict? && Get(doc.entries, "animations", VDict(map[])).VDict?
    ensures r.Some? ==> var m := Get(doc.entries, "animations", VDict(map[])).entries;
      r.value.animations.Keys == m.Keys
      && forall k :: k in m ==> Some(r.value.animations[k]) == ParseSequence(k, m[k], EventsFor(events, k))
    ensures r.Some? ==> r.value.name == Get(doc.entries, "name", VStr("Unknown"))
  {
    if !doc.VDict? then None
    else
      var d := doc.entries;
      var anims := Get(d, "animations", VDict(map[]));
      var basePath := StrField(d, "base_path", "");
      var default := OptStrField(d, "default_animation");
      if !anims.VDict? || basePath.None? || default.None? then None
      else if exists k :: k in anims.entries && ParseSequence(k, anims.entries[k], EventsFor(events, k)).None? then None
      else Some(AnimationSet(Get(d, "name", VStr("Unknown")), basePath.value, default.value,
        map k | k in anims.entries :: ParseSequence(k, anims.entries[k], EventsFor(events, k)).value))
  }

  // ---------------------------------------------------------------------
  // Property-animation bookkeeping: what one call of
  // _update_property_animations does to active_property_animations. The
  // values it writes through _set_property_value are not modelled.

  /** What an update does with one entry. */
  datatype Step = Wait | Restart(next: Scheduled) | Finish | Fail(error: Error)

  /** The start and end values trade places, as a ping-pong loop does on each pass. */
  function Swapped(a: PropertyAnimation): PropertyAnimation
  {
    a.(startValue := a.endValue, endValue := a.startValue)
  }

  function StepFor(e: Scheduled, now: real): (r: Step)
    ensures r.Fail? ==> r.error.ZeroDivisionError?
    ensures r.Restart? ==> r.next.start == now && e.anim.loop && r.next.anim == if e.anim.pingPong then Swapped(e.anim) else e.anim
    ensures r.Finish? || r.Restart? ==> (e.start <= now && e.anim.frequency.VNone? && e.anim.duration.Seconds?
      && 0.0 < e.anim.duration.secs <= now - e.start)
  {
    if now < e.start || !e.anim.frequency.VNone? || e.anim.duration.Forever? then Wait
    else if e.anim.duration.secs == 0.0 then Fail(ZeroDivisionError("float division by zero"))
    else if (now - e.start) / e.anim.duration.secs >= 1.0 then
      ReachedEnd(now - e.start, e.anim.duration.secs);
      if e.anim.loop then Restart(Scheduled(if e.anim.pingPong then Swapped(e.anim) else e.anim, now))
      else Finish
    else Wait
  }

  lemma ReachedEnd(elapsed: real, d: real)
    requires 0.0 <= elapsed && d != 0.0 && elapsed / d >= 1.0
    ensures 0.0 < d <= elapsed
  {
    var q := elapsed / d;
    assert q * d == elapsed;
    assert (q - 1.0) * d == elapsed - d;
    MulSign(q - 1.0, d);
  }

  lemma MulSign(a: real, b: real)
    requires 0.0 <= a
    ensures 0.0 <= b ==> 0.0 <= a * b
    ensures b <= 0.0 ==> a * b <= 0.0
  {
  }

  /** A sine wave has a frequency, so an update never ends it. */
  lemma SineWaveNeverEnds(target: string, baseValue: Value, amplitude: Value, frequency: real, start: real, now: real)
    ensures StepFor(Scheduled(PropertyAnimation(target, VInt(0), VInt(0), Forever, Linear,
      true, false, 0.0, VFloat(frequency), amplitude, baseValue), start), now) == Wait
  {
  }

  /** A restarted entry does not end again at the same instant. */
  lemma RestartWaits(e: Scheduled, now: real)
    requires StepFor(e, now).Restart?
    ensures StepFor(StepFor(e, now).next, now) == Wait
  {
  }

  /** The first entry equal to x leaves the list. */
  function RemoveFirst(s: seq<Scheduled>, x: Scheduled): (r: seq<Scheduled>)
    ensures x in s ==> multiset(r) == multiset(s) - multiset{x}
    ensures x !in s ==> r == s
  {
    if s == [] then []
    else if s[0] == x then
      assert s == [s[0]] + s[1..];
      s[1..]
    else
      assert s == [s[0]] + s[1..];
      [s[0]] + RemoveFirst(s[1..], x)
  }

  /** The first entry equal to x is replaced by y in its place. */
  function ReplaceFirst(s: seq<Scheduled>, x: Scheduled, y: Scheduled): (r: seq<Scheduled>)
    ensures x in s ==> multiset(r) == multiset(s) - multiset{x} + multiset{y} && |r| == |s|
    ensures x !in s ==> r == s
  {
    if s == [] then []
    else if s[0] == x then
      assert s == [s[0]] + s[1..];
      [y] + s[1..]
    else
      assert s == [s[0]] + s[1..];
      var rest := ReplaceFirst(s[1..], x, y);
      assert multiset([s[0]] + rest) == multiset{s[0]} + multiset(rest);
      if x in s then (
        assert x in s[1..];
        TradeOne(multiset{s[0]}, multiset(s[1..]), x, y);
        [s[0]] + rest
      ) else [s[0]] + rest
  }

  /** Trading one copy of x for y inside the second part of a union trades it in the union. */
  lemma TradeOne(a: multiset<Scheduled>, b: multiset<Scheduled>, x: Scheduled, y: Scheduled)
    requires x in b
    ensures a + (b - multiset{x} + multiset{y}) == (a + b) - multiset{x} + multiset{y}
  {
  }

  /** The list after an update, and the error that stopped it, if any. */
  datatype TickOut = TickOut(live: seq<Scheduled>, error: Option<Error>)

  /**
   * One update over the snapshot `snap` of the list, editing the live list:
   * finished entries are removed, looping ones restart at `now` in place.
   * A zero duration stops the update with the division's error.
   */
  function Tick(snap: seq<Scheduled>, live: seq<Scheduled>, now: real): (r: TickOut)
    ensures r.error.Some? <==> exists i :: 0 <= i < |snap| && StepFor(snap[i], now).Fail?
    ensures r.error.Some? ==> r.error.value.ZeroDivisionError?
  {
    if snap == [] then TickOut(live, None)
    else
      assert forall i :: 1 <= i < |snap| ==> snap[i] == snap[1..][i - 1];
      match StepFor(snap[0], now)
      case Wait => Tick(snap[1..], live, now)
      case Fail(err) => TickOut(live, Some(err))
      case Finish => Tick(snap[1..], RemoveFirst(live, snap[0]), now)
      case Restart(next) => Tick(snap[1..], ReplaceFirst(live, snap[0], next), now)
  }

  /** The entries an update leaves: the waiting ones as they were, the looping ones restarted, the finished ones gone. */
  function Settled(snap: seq<Scheduled>, now: real): (r: seq<Scheduled>)
    ensures forall x :: x in r ==> StepFor(x, now) == Wait
  {
    if snap == [] then []
    else
      match StepFor(snap[0], now)
      case Wait => [snap[0]] + Settled(snap[1..], now)
      case Restart(next) => RestartWaits(snap[0], now); [next] + Settled(snap[1..], now)
      case _ => Settled(snap[1..], now)
  }

  /**
   * Every entry an update meets is still in the live list, so removal and
   * replacement always find it; what remains, beside the entries `kept`
   * from earlier, is Settled.
   */
  lemma {:induction false} TickSettles(snap: seq<Scheduled>, live: seq<Scheduled>, kept: multiset<Scheduled>, now: real)
    requires multiset(live) == multiset(snap) + kept
    ensures Tick(snap, live, now).error.None? ==> multiset(Tick(snap, live, now).live) == multiset(Settled(snap, now)) + kept
  {
    if snap != [] {
      var e := snap[0];
      assert snap == [e] + snap[1..];
      assert multiset(snap) == multiset{e} + multiset(snap[1..]);
      assert e in multiset(live);
      var step := StepFor(e, now);
      if step.Wait? {
        assert Tick(snap, live, now) == Tick(snap[1..], live, now);
        assert Settled(snap, now) == [e] + Settled(snap[1..], now);
        TickSettles(snap[1..], live, kept + multiset{e}, now);
      } else if step.Finish? {
        assert Tick(snap, live, now) == Tick(snap[1..], RemoveFirst(live, e), now);
        assert Settled(snap, now) == Settled(snap[1..], now);
        TickSettles(snap[1..], RemoveFirst(live, e), kept, now);
      } else if step.Restart? {
        assert Tick(snap, live, now) == Tick(snap[1..], ReplaceFirst(live, e, step.next), now);
        assert Settled(snap, now) == [step.next] + Settled(snap[1..], now);
        TickSettles(snap[1..], ReplaceFirst(live, e, step.next), kept + multiset{step.next}, now);
      }
    }
  }

  /** After an update without error no entry is due: each is waiting, so none is left finished. */
  lemma UpdateLeavesNothingDue(active: seq<Scheduled>, now: real)
    requires Tick(active, active, now).error.None?
    ensures multiset(Tick(active, active, now).live) == multiset(Settled(active, now))
    ensures forall x :: x in Tick(active, active, now).live ==> StepFor(x, now) == Wait
  {
    TickSettles(active, active, multiset{}, now);
    forall x | x in Tick(active, active, now).live
      ensures StepFor(x, now) == Wait
    {
      assert x in multiset(Tick(active, active, now).live);
      assert x in multiset(Settled(active, now));
    }
  }

  /**
   * The update as written: a looping entry that reaches its end gets its
   * new start time first, and the list is then searched for the pair with
   * that new time, which it does not hold, so list.index raises. The swap
   * of a ping-pong entry has already happened on the shared object.
   */
  function TickAsWritten(snap: seq<Scheduled>, live: seq<Scheduled>, now: real): (r: TickOut)
    ensures r.error.Some? ==> r.error.value.ZeroDivisionError? || r.error.value.ValueError?
    ensures (forall i :: 0 <= i < |snap| ==> StepFor(snap[i], now).Wait?) ==> r == TickOut(live, None)
  {
    if snap == [] then TickOut(live, None)
    else
      assert forall i :: 1 <= i < |snap| ==> snap[i] == snap[1..][i - 1];
      match StepFor(snap[0], now)
      case Wait => TickAsWritten(snap[1..], live, now)
      case Fail(err) => TickOut(live, Some(err))
      case Finish => TickAsWritten(snap[1..], RemoveFirst(live, snap[0]), now)
      case Restart(next) =>
        var mutated := Scheduled(next.anim, snap[0].start);
        var live' := ReplaceFirst(live, snap[0], mutated);
        if next in live' then TickAsWritten(snap[1..], live', now)
        else TickOut(live', Some(ValueError("tuple not in list")))
  }

  /** A looping property animation that completes, alone in the list, makes the update raise. */
  lemma LoopingAnimationRaises(e: Scheduled, now: real)
    requires StepFor(e, now).Restart?
    ensures TickAsWritten([e], [e], now).error.Some? && TickAsWritten([e], [e], now).error.value.ValueError?
    ensures Tick([e], [e], now) == TickOut([StepFor(e, now).next], None)
  {
    var next := StepFor(e, now).next;
    assert next.start != e.start;
    assert ReplaceFirst([e], e, Scheduled(next.anim, e.start)) == [Scheduled(next.anim, e.start)];
  }

  /** stop_property_animations(target): exactly the entries with that target leave, the others stay in order. */
  function Without(s: seq<Scheduled>, target: string): (r: seq<Scheduled>)
    ensures forall x :: multiset(r)[x] == if x.anim.target == target then 0 else multiset(s)[x]
    ensures |r| <= |s|
  {
    if s == [] then []
    else
      assert s == [s[0]] + s[1..];
      if s[0].anim.target == target then Without(s[1..], target) else [s[0]] + Without(s[1..], target)
  }

  /** _start_property_animations: each of the sequence's property animations, starting after its offset. */
  function Started(s: Option<Sequence>, now: real): (r: seq<Scheduled>)
    ensures s.None? || s.value.propertyAnimations.None? ==> r == []
    ensures s.Some? && s.value.propertyAnimations.Some? ==> var ps := s.value.propertyAnimations.value;
      |r| == |ps| && forall i :: 0 <= i < |ps| ==> r[i] == Scheduled(ps[i], now + ps[i].offset)
  {
    if s.None? || s.value.propertyAnimations.None? then []
    else
      var ps := s.value.propertyAnimations.value;
      seq(|ps|, i requires 0 <= i < |ps| => Scheduled(ps[i], now + ps[i].offset))
  }

  // ---------------------------------------------------------------------
  // Frame advance.

  /** Where a frame step leaves the index and direction, whether playback stops, and the event it raises. */
  datatype Advance = Advance(index: int, direction: int, stops: bool, event: Option<string>)

  /** _advance_normal_frame: the next frame; past the end, back to 0 when looping, else the last frame and a stop. */
  function NormalAdvance(i: int, d: int, s: Sequence): (a: Advance)
    requires 0 <= i < |s.frames|
    ensures 0 <= a.index < |s.frames| && a.direction == d
    ensures i + 1 < |s.frames| ==> a == Advance(i + 1, d, false, None)
    ensures i + 1 == |s.frames| && s.loop ==> a == Advance(0, d, false, s.onLoop)
    ensures i + 1 == |s.frames| && !s.loop ==> a == Advance(i, d, true, s.onEnd)
  {
    var n := |s.frames|;
    if i + 1 < n then Advance(i + 1, d, false, None)
    else if s.loop then Advance(0, d, false, s.onLoop)
    else Advance(n - 1, d, true, s.onEnd)
  }

  /**
   * _advance_ping_pong_frame as written: past the end, a loop turns back
   * at len - 2, which for a single frame is -1, outside the frames.
   */
  function PingPongAsWritten(i: int, d: int, s: Sequence): (a: Advance)
    ensures |s.frames| >= 2 && 0 <= i < |s.frames| && (d == 1 || d == -1) ==> 0 <= a.index < |s.frames|
    ensures a.stops ==> a.event == s.onEnd && !s.loop
    ensures |s.frames| == 1 && s.loop && i + d >= 1 ==> a.index == -1
  {
    var n := |s.frames|;
    var j := i + d;
    if j >= n then
      if s.loop then Advance(n - 2, -1, false, s.onLoop) else Advance(n - 1, d, true, s.onEnd)
    else if j < 0 then
      if s.loop then Advance(1, 1, false, s.onLoop) else Advance(0, d, true, s.onEnd)
    else Advance(j, d, false, None)
  }

  lemma SingleFrameBounceLeavesFrames(s: Sequence)
    requires |s.frames| == 1 && s.loop
    ensures PingPongAsWritten(0, 1, s).index == -1
  {
  }

  /** _advance_ping_pong_frame with the bounce kept on the frames: a single frame bounces onto itself. */
  function PingPong(i: int, d: int, s: Sequence): (a: Advance)
    requires 0 <= i < |s.frames| && (d == 1 || d == -1)
    ensures 0 <= a.index < |s.frames| && (a.direction == 1 || a.direction == -1)
    ensures 0 <= i + d < |s.frames| ==> a == Advance(i + d, d, false, None)
    ensures 2 <= |s.frames| && s.loop && i + d == |s.frames| ==> a == Advance(|s.frames| - 2, -1, false, s.onLoop)
    ensures 2 <= |s.frames| && s.loop && i + d < 0 ==> a == Advance(1, 1, false, s.onLoop)
    ensures !s.loop && i + d == |s.frames| ==> a == Advance(|s.frames| - 1, d, true, s.onEnd)
    ensures !s.loop && i + d < 0 ==> a == Advance(0, d, true, s.onEnd)
    ensures 2 <= |s.frames| ==> a == PingPongAsWritten(i, d, s)
  {
    var n := |s.frames|;
    var j := i + d;
    if j >= n then
      if s.loop then Advance(if n >= 2 then n - 2 else 0, -1, false, s.onLoop) else Advance(n - 1, d, true, s.onEnd)
    else if j < 0 then
      if s.loop then Advance(if n >= 2 then 1 else 0, 1, false, s.onLoop) else Advance(0, d, true, s.onEnd)
    else Advance(j, d, false, None)
  }

  /** k ping-pong steps from frame i in direction d. */
  function PingPongRun(i: int, d: int, s: Sequence, k: nat): (r: (int, int))
    requires 0 <= i < |s.frames| && (d == 1 || d == -1)
    ensures 0 <= r.0 < |s.frames| && (r.1 == 1 || r.1 == -1)
    decreases k
  {
    if k == 0 then (i, d)
    else
      var a := PingPong(i, d, s);
      PingPongRun(a.index, a.direction, s, k - 1)
  }

  lemma {:induction false} PingPongRunForward(s: Sequence, i: nat, k: nat)
    requires 2 <= |s.frames| && s.loop && i + k < |s.frames|
    ensures PingPongRun(i, 1, s, k) == (i + k, 1)
    decreases k
  {
    if k > 0 {
      PingPongRunForward(s, i + 1, k - 1);
    }
  }

  lemma {:induction false} PingPongRunBackward(s: Sequence, i: nat, k: nat)
    requires 2 <= |s.frames| && s.loop && k <= i < |s.frames|
    ensures PingPongRun(i, -1, s, k) == (i - k, -1)
    decreases k
  {
    if k > 0 {
      PingPongRunBackward(s, i - 1, k - 1);
    }
  }

  /** Looping ping-pong from the first frame is back on it, heading backward, after one pass out and back: 2 * (len - 1) steps. */
  lemma PingPongRoundTrip(s: Sequence)
    requires 2 <= |s.frames| && s.loop
    ensures PingPongRun(0, 1, s, 2 * (|s.frames| - 1)) == (0, -1)
  {
    var n := |s.frames|;
    PingPongRunForward(s, 0, n - 1);
    PingPongRunSplit(0, 1, s, n - 1, n - 1);
    PingPongRunSplit(n - 1, 1, s, 1, n - 2);
    assert PingPong(n - 1, 1, s) == Advance(n - 2, -1, false, s.onLoop);
    assert PingPongRun(n - 1, 1, s, 1) == PingPongRun(n - 2, -1, s, 0);
    PingPongRunBackward(s, n - 2, n - 2);
  }

  lemma {:induction false} PingPongRunSplit(i: int, d: int, s: Sequence, k: nat, m: nat)
    requires 0 <= i < |s.frames| && (d == 1 || d == -1)
    ensures var mid := PingPongRun(i, d, s, k); PingPongRun(i, d, s, k + m) == PingPongRun(mid.0, mid.1, s, m)
    decreases k
  {
    if k > 0 {
      var a := PingPong(i, d, s);
      PingPongRunSplit(a.index, a.direction, s, k - 1, m);
    }
  }

  /** The callback a truthy event name fires: only a name with a registered callback. */
  function Fired(callbacks: set<string>, name: Option<string>): (r: seq<string>)
    ensures r == [] || (name.Some? && r == [name.value] && name.value in callbacks && name.value != "")
    ensures name.Some? && name.value != "" && name.value in callbacks ==> r == [name.value]
  {
    if name.Some? && name.value != "" && name.value in callbacks then [name.value] else []
  }

  /** The frame event of the frame being left: fired when the sequence names one for that index and it has a callback. */
  function FrameEvent(callbacks: set<string>, s: Sequence, i: int): (r: seq<string>)
    ensures r != [] ==> s.frameEvents.Some? && i in s.frameEvents.value && r == [s.frameEvents.value[i]]
  {
    if s.frameEvents.Some? && i in s.frameEvents.value && s.frameEvents.value[i] in callbacks
    then [s.frameEvents.value[i]] else []
  }

  predicate Known(set_: Option<AnimationSet>, name: string)
  {
    set_.Some? && name in set_.value.animations
  }

  /** Playback position and state. */
  datatype Pose = Pose(index: int, direction: int, playing: bool, paused: bool)

  /** What set_animation replaces. */
  datatype Track = Track(animation: Option<string>, sequence: Option<Sequence>, frameTime: real, startTime: real, active: seq<Scheduled>)

  class FileAnimationComponent {
    var animationSet: Option<AnimationSet>
    var currentAnimation: Option<string>
    var currentSequence: Option<Sequence>
    var index: int
    var frameTime: real
    var playing: bool
    var paused: bool
    var speed: real
    var direction: int
    var active: seq<Scheduled>
    var startTime: real
    var callbacks: set<string>
    var fired: seq<string>

    /** The direction is a unit step, and a sequence with frames is always on one of them. */
    predicate Valid()
      reads this
    {
      (direction == 1 || direction == -1)
      && (currentSequence.Some? && |currentSequence.value.frames| > 0 ==> 0 <= index < |currentSequence.value.frames|)
    }

    function PoseNow(): Pose
      reads this
    {
      Pose(index, direction, playing, paused)
    }

    function TrackNow(): Track
      reads this
    {
      Track(currentAnimation, currentSequence, frameTime, startTime, active)
    }

    function Library(): (Option<AnimationSet>, set<string>, real)
      reads this
    {
      (animationSet, callbacks, speed)
    }

    /** FileAnimationComponent() without a file: nothing loaded or playing, speed 1, forward. */
    constructor ()
      ensures Valid()
      ensures animationSet.None? && currentAnimation.None? && currentSequence.None?
      ensures index == 0 && frameTime == 0.0 && !playing && !paused && speed == 1.0 && direction == 1
      ensures active == [] && startTime == 0.0 && callbacks == {} && fired == []
    {
      animationSet, currentAnimation, currentSequence := None, None, None;
      index, frameTime, playing, paused := 0, 0.0, false, false;
      speed, direction := 1.0, 1;
      active, startTime := [], 0.0;
      callbacks, fired := {}, [];
    }

    /** The state set_animation leaves after starting `name` afresh. */
    ghost predicate Restarted(name: string, now: real, fired0: seq<string>)
      reads this
    {
      Known(animationSet, name)
      && var s := animationSet.value.animations[name];
      TrackNow() == Track(Some(name), Some(s), 0.0, now, Started(Some(s), now))
      && index == 0 && direction == 1 && fired == fired0 + Fired(callbacks, s.onStart)
    }

    /** _trigger_event: the callback of that name runs, if there is one. */
    method Trigger(name: string)
      modifies this
      ensures fired == old(fired) + (if name in callbacks then [name] else [])
      ensures TrackNow() == old(TrackNow()) && PoseNow() == old(PoseNow()) && Library() == old(Library())
      ensures animationSet == old(animationSet)
    {
      if name in callbacks {
        fired := fired + [name];
      }
    }

    /** An event field of the sequence: fired only when it is set and not empty. */
    method FireNamed(name: Option<string>)
      modifies this
      ensures fired == old(fired) + Fired(callbacks, name)
      ensures TrackNow() == old(TrackNow()) && PoseNow() == old(PoseNow()) && Library() == old(Library())
    {
      if name.Some? && name.value != "" {
        Trigger(name.value);
      }
    }

    /** add_event_callback: a later callback of the same name replaces the earlier. */
    method AddEventCallback(name: string)
      modifies this
      ensures callbacks == old(callbacks) + {name}
      ensures TrackNow() == old(TrackNow()) && PoseNow() == old(PoseNow()) && fired == old(fired)
      ensures animationSet == old(animationSet) && speed == old(speed)
    {
      callbacks := callbacks + {name};
    }

    /**
     * set_animation: False for an unknown name or no set; True without a
     * restart when asked not to restart the animation already playing;
     * otherwise the sequence starts from frame 0, forward, with its
     * property animations and its start event.
     */
    method SetAnimation(name: string, restart: bool, now: real) returns (ok: bool)
      requires Valid()
      modifies this
      ensures Valid() && Library() == old(Library()) && playing == old(playing) && paused == old(paused)
      ensures ok <==> Known(animationSet, name)
      ensures !ok || (!restart && old(currentAnimation) == Some(name) && old(playing)) ==>
        TrackNow() == old(TrackNow()) && PoseNow() == old(PoseNow()) && fired == old(fired)
      ensures ok && (restart || old(currentAnimation) != Some(name) || !old(playing)) ==> Restarted(name, now, old(fired))
    {
      if !Known(animationSet, name) {
        return false;
      }
      if !restart && currentAnimation == Some(name) && playing {
        return true;
      }
      var s := animationSet.value.animations[name];
      currentAnimation, currentSequence, index, frameTime, direction := Some(name), Some(s), 0, 0.0, 1;
      startTime, active := now, Started(currentSequence, now);
      FireNamed(s.onStart);
      return true;
    }

    /** play(name): sets the animation when a name is given, then plays unpaused either way. */
    method Play(name: Option<string>, now: real)
      requires Valid()
      modifies this
      ensures Valid() && Library() == old(Library()) && playing && !paused
      ensures name.None? || name.value == "" || !Known(animationSet, name.value) ==>
        TrackNow() == old(TrackNow()) && index == old(index) && direction == old(direction) && fired == old(fired)
      ensures name.Some? && name.value != "" && Known(animationSet, name.value) ==> Restarted(name.value, now, old(fired))
    {
      if name.Some? && name.value != "" {
        var _ := SetAnimation(name.value, true, now);
      }
      playing, paused := true, false;
    }

    /** stop: not playing, not paused, back on frame 0 with no time spent on it. */
    method Stop()
      requires Valid()
      modifies this
      ensures Valid() && Library() == old(Library())
      ensures !playing && !paused && index == 0 && frameTime == 0.0
      ensures direction == old(direction) && fired == old(fired)
      ensures TrackNow() == old(TrackNow()).(frameTime := 0.0)
    {
      playing, paused, index, frameTime := false, false, 0, 0.0;
    }

    method Pause()
      requires Valid()
      modifies this
      ensures Valid() && Library() == old(Library()) && TrackNow() == old(TrackNow()) && fired == old(fired)
      ensures PoseNow() == old(PoseNow()).(paused := true)
    {
      paused := true;
    }

    /** resume: unpauses only an animation that is playing. */
    method Resume()
      requires Valid()
      modifies this
      ensures Valid() && Library() == old(Library()) && TrackNow() == old(TrackNow()) && fired == old(fired)
      ensures PoseNow() == old(PoseNow()).(paused := old(paused) && !old(playing))
    {
      if playing {
        paused := false;
      }
    }

    /** get_current_frame: None without a sequence, without frames, or with the index outside them. */
    function CurrentFrame(): (r: Option<Frame>)
      reads this
      ensures r.Some? <==> currentSequence.Some? && 0 <= index < |currentSequence.value.frames|
      ensures r.Some? ==> r.value == currentSequence.value.frames[index]
      ensures Valid() && currentSequence.Some? && |currentSequence.value.frames| > 0 ==> r.Some?
    {
      if currentSequence.None? || |currentSequence.value.frames| == 0 then None
      else if 0 <= index < |currentSequence.value.frames| then Some(currentSequence.value.frames[index])
      else None
    }

    /** get_animation_names: exactly the names set_animation accepts. */
    function AnimationNames(): (r: set<string>)
      reads this
      ensures forall n :: n in r <==> Known(animationSet, n)
    {
      if animationSet.None? then {} else animationSet.value.animations.Keys
    }

    /** is_playing(name): playing, and, when a name is given, that animation. */
    function IsPlaying(name: Option<string>): (r: bool)
      reads this
      ensures r ==> playing
      ensures name.Some? && name.value != "" ==> (r <==> playing && currentAnimation == name)
      ensures name.None? || name == Some("") ==> r == playing
    {
      if name.Some? && name.value != "" then playing && currentAnimation == name else playing
    }

    /** The state a frame step leaves without a next animation: the advance's index, direction, stop and event. */
    ghost predicate Stepped(a: Advance, pose0: Pose, fired0: seq<string>, track0: Track)
      reads this
    {
      TrackNow() == track0 && PoseNow() == Pose(a.index, a.direction, pose0.playing && !a.stops, pose0.paused)
      && fired == fired0 + Fired(callbacks, a.event)
    }

    /** A normal step, which plays the sequence's next animation when it ends on one. */
    ghost predicate Advanced(a: Advance, s: Sequence, pose0: Pose, fired0: seq<string>, track0: Track, now: real)
      reads this
    {
      var f1 := fired0 + Fired(callbacks, a.event);
      if a.stops && s.nextAnimation.Some? && s.nextAnimation.value != "" then
        playing && !paused
        && if Known(animationSet, s.nextAnimation.value) then Restarted(s.nextAnimation.value, now, f1)
           else TrackNow() == track0 && index == a.index && direction == a.direction && fired == f1
      else Stepped(a, pose0, fired0, track0)
    }

    /** _advance_normal_frame. */
    method AdvanceNormal(now: real)
      requires Valid() && currentSequence.Some? && 0 <= index < |currentSequence.value.frames|
      modifies this
      ensures Valid() && Library() == old(Library())
      ensures Advanced(NormalAdvance(old(index), old(direction), old(currentSequence).value), old(currentSequence).value,
        old(PoseNow()), old(fired), old(TrackNow()), now)
    {
      var s := currentSequence.value;
      var a := NormalAdvance(index, direction, s);
      index := a.index;
      if a.stops {
        playing := false;
      }
      FireNamed(a.event);
      if a.stops && s.nextAnimation.Some? && s.nextAnimation.value != "" {
        Play(s.nextAnimation, now);
      }
    }

    /** _advance_ping_pong_frame, with the bounce of a single frame kept on it. */
    method AdvancePingPong()
      requires Valid() && currentSequence.Some? && 0 <= index < |currentSequence.value.frames|
      modifies this
      ensures Valid() && Library() == old(Library())
      ensures Stepped(PingPong(old(index), old(direction), old(currentSequence).value), old(PoseNow()), old(fired), old(TrackNow()))
    {
      var a := PingPong(index, direction, currentSequence.value);
      index, direction := a.index, a.direction;
      if a.stops {
        playing := false;
      }
      FireNamed(a.event);
    }

    /** The frame's event, then the advance of the sequence's mode. */
    method AdvanceFrame(now: real)
      requires Valid() && currentSequence.Some? && 0 <= index < |currentSequence.value.frames|
      modifies this
      ensures Valid() && Library() == old(Library())
      ensures var s := old(currentSequence).value; var f0 := old(fired) + FrameEvent(callbacks, s, old(index));
        (s.pingPong ==> Stepped(PingPong(old(index), old(direction), s), old(PoseNow()), f0, old(TrackNow())))
        && (!s.pingPong ==> Advanced(NormalAdvance(old(index), old(direction), s), s, old(PoseNow()), f0, old(TrackNow()), now))
    {
      var s := currentSequence.value;
      if s.frameEvents.Some? && index in s.frameEvents.value {
        Trigger(s.frameEvents.value[index]);
      }
      if s.pingPong {
        AdvancePingPong();
      } else {
        AdvanceNormal(now);
      }
    }

    /** _update_property_animations: the bookkeeping of Tick, over a copy of the list. */
    method UpdatePropertyAnimations(now: real) returns (err: Option<Error>)
      modifies this
      ensures var t := Tick(old(active), old(active), now); active == t.live && err == t.error
      ensures TrackNow() == old(TrackNow()).(active := active) && PoseNow() == old(PoseNow())
      ensures fired == old(fired) && Library() == old(Library())
    {
      var snap := active;
      var i := 0;
      while i < |snap|
        invariant 0 <= i <= |snap|
        invariant Tick(snap[i..], active, now) == Tick(snap, snap, now)
        invariant TrackNow() == old(TrackNow()).(active := active) && PoseNow() == old(PoseNow())
        invariant fired == old(fired) && Library() == old(Library())
      {
        assert snap[i..][0] == snap[i] && snap[i..][1..] == snap[i + 1..];
        var e := snap[i];
        var step := StepFor(e, now);
        if step.Fail? {
          return Some(step.error);
        } else if step.Finish? {
          active := RemoveFirst(active, e);
        } else if step.Restart? {
          active := ReplaceFirst(active, e, step.next);
        }
        i := i + 1;
      }
      assert snap[i..] == [];
      err := None;
    }

    /** add_property_animation: appended, starting now, not looping. */
    method AddPropertyAnimation(target: string, startValue: Value, endValue: Value, duration: real, easing: Easing, now: real)
      modifies this
      ensures active == old(active) + [Scheduled(PropertyAnimation(target, startValue, endValue, Seconds(duration), easing,
        false, false, 0.0, VNone, VNone, VNone), now)]
      ensures TrackNow() == old(TrackNow()).(active := active) && PoseNow() == old(PoseNow())
      ensures fired == old(fired) && Library() == old(Library())
    {
      active := active + [Scheduled(PropertyAnimation(target, startValue, endValue, Seconds(duration), easing,
        false, false, 0.0, VNone, VNone, VNone), now)];
    }

    /** add_sine_wave_animation: appended, starting now, with no end. */
    method AddSineWaveAnimation(target: string, baseValue: Value, amplitude: Value, frequency: real, now: real)
      modifies this
      ensures active == old(active) + [Scheduled(PropertyAnimation(target, VInt(0), VInt(0), Forever, Linear,
        true, false, 0.0, VFloat(frequency), amplitude, baseValue), now)]
      ensures TrackNow() == old(TrackNow()).(active := active) && PoseNow() == old(PoseNow())
      ensures fired == old(fired) && Library() == old(Library())
    {
      active := active + [Scheduled(PropertyAnimation(target, VInt(0), VInt(0), Forever, Linear,
        true, false, 0.0, VFloat(frequency), amplitude, baseValue), now)];
    }

    /** stop_property_animations: all of them without a target, else those with that target. */
    method StopPropertyAnimations(target: Option<string>)
      modifies this
      ensures target.None? ==> active == []
      ensures target.Some? ==> active == Without(old(active), target.value)
      ensures TrackNow() == old(TrackNow()).(active := active) && PoseNow() == old(PoseNow())
      ensures fired == old(fired) && Library() == old(Library())
    {
      if target.None? {
        active := [];
      } else {
        active := Without(active, target.value);
      }
    }

    /** Whether update does anything at all. */
    predicate Live()
      reads this
    {
      playing && !paused && currentSequence.Some?
    }

    /** What the frame part of update leaves, from the pose, events and track before it, on frame f of sequence s. */
    ghost predicate FrameTicked(f: Frame, s: Sequence, dt: real, now: real, pose0: Pose, fired0: seq<string>, track0: Track)
      reads this
    {
      var elapsed := track0.frameTime + dt * speed;
      var f0 := fired0 + FrameEvent(callbacks, s, pose0.index);
      0 <= pose0.index < |s.frames| && (pose0.direction == 1 || pose0.direction == -1)
      && if elapsed < f.duration then
        PoseNow() == pose0 && TrackNow() == track0.(frameTime := elapsed) && fired == fired0
      else if s.pingPong then
        Stepped(PingPong(pose0.index, pose0.direction, s), pose0, f0, track0.(frameTime := 0.0))
      else
        Advanced(NormalAdvance(pose0.index, pose0.direction, s), s, pose0, f0, track0.(frameTime := 0.0), now)
    }

    /** The frame part of update: the time on the frame grows; at its duration the frame's event fires and the sequence advances. */
    method StepFrame(dt: real, now: real)
      requires Valid() && currentSequence.Some? && CurrentFrame().Some?
      modifies this
      ensures Valid() && Library() == old(Library())
      ensures FrameTicked(old(CurrentFrame()).value, old(currentSequence).value, dt, now, old(PoseNow()), old(fired), old(TrackNow()))
    {
      var frame := CurrentFrame().value;
      frameTime := frameTime + dt * speed;
      if frameTime >= frame.duration {
        frameTime := 0.0;
        AdvanceFrame(now);
      }
    }

    /**
     * update(dt): nothing unless playing, unpaused and on a sequence; then
     * the property animations, and, on a current frame, the frame step.
     */
    method Update(dt: real, now: real) returns (err: Option<Error>)
      requires Valid()
      modifies this
      ensures Valid() && Library() == old(Library())
      ensures !old(Live()) ==> err.None? && unchanged(this)
      ensures old(Live()) ==> var t := Tick(old(active), old(active), now);
        err == t.error
        && (t.error.Some? || old(CurrentFrame()).None? ==>
          PoseNow() == old(PoseNow()) && TrackNow() == old(TrackNow()).(active := t.live) && fired == old(fired))
        && (t.error.None? && old(CurrentFrame()).Some? ==>
          FrameTicked(old(CurrentFrame()).value, old(currentSequence).value, dt, now, old(PoseNow()), old(fired),
            old(TrackNow()).(active := t.live)))
    {
      if !playing || paused || currentSequence.None? {
        return None;
      }
      err := UpdatePropertyAnimations(now);
      if err.Some? || CurrentFrame().None? {
        return;
      }
      StepFrame(dt, now);
    }

    /**
     * load_animation_file after the file is read: a document that does not
     * parse changes nothing; otherwise it becomes the set, and its default
     * animation, when it names one the set has, starts.
     */
    method LoadData(doc: Value, events: map<string, map<int, string>>, now: real) returns (ok: bool)
      requires Valid()
      modifies this
      ensures Valid() && callbacks == old(callbacks) && speed == old(speed)
      ensures ok <==> ParseSet(doc, events).Some?
      ensures !ok ==> unchanged(this)
      ensures ok ==> animationSet == ParseSet(doc, events) && playing == old(playing) && paused == old(paused)
      ensures ok ==> var d := animationSet.value.defaultAnimation;
        (d.Some? && d.value != "" && Known(animationSet, d.value) ==> Restarted(d.value, now, old(fired)))
        && (!(d.Some? && d.value != "" && Known(animationSet, d.value)) ==>
          TrackNow() == old(TrackNow()) && PoseNow() == old(PoseNow()) && fired == old(fired))
    {
      var parsed := ParseSet(doc, events);
      if parsed.None? {
        return false;
      }
      animationSet := parsed;
      var d := parsed.value.defaultAnimation;
      if d.Some? && d.value != "" && d.value in parsed.value.animations {
        var _ := SetAnimation(d.value, true, now);
      }
      return true;
    }
  }
}
