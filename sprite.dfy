/**
 * engine/components/sprite_component.py: a sprite drawn from an
 * asset-manager texture or from a procedurally filled rectangle, and the
 * few properties it sends over the network instead of pixels.
 *
 * Surfaces are values: filling one, and setting its alpha, make a new
 * value. Where the texture comes from is a parameter of each operation
 * that may load it (see TextureSource).
 */
module Sprite {
  import opened Wrappers
  import opened Values

  datatype Rgba = Rgba(r: int, g: int, b: int, a: int)
  datatype Vec = Vec(x: real, y: real)
  datatype Rect = Rect(x: int, y: int, w: int, h: int)

  /** A pygame Rect is false when its width or height is zero; None is false too. */
  predicate RectTrue(r: Option<Rect>)
  {
    r.Some? && r.value.w != 0 && r.value.h != 0
  }

  /** Where a surface came from: filled with a colour, loaded as a texture, or handed in by the caller. */
  datatype SurfaceKind = Procedural(fill: Rgba) | Texture(name: string) | External(handle: nat)

  /** A pygame Surface; `alpha` is the value given to set_alpha, None while it was never called. */
  datatype Surface = Surface(kind: SurfaceKind, width: int, height: int, alpha: Option<Value>)

  /**
   * What `self.game.asset_manager.get_texture(texture_id)` does for the
   * caller: there is no game or no asset manager; the call raises (the
   * AssetManager of engine/core/asset_manager.py has no get_texture, so
   * with the engine's own game it always raises); or it returns a surface
   * or None.
   */
  datatype TextureSource = NoAssets | Raises | Lookup(found: Option<Surface>)

  /** Every field of a SpriteComponent. */
  datatype Look = Look(color: Rgba, size: Vec, textureId: Value, surface: Option<Surface>, rect: Option<Rect>,
                       offset: Vec, flipX: Value, flipY: Value, alpha: Value)

  /** A state reached by a step that may raise; when it raised, the writes made before the error stay. */
  datatype Made = Made(look: Look, raised: bool)

  predicate IsRgba(c: Rgba)
  {
    IsByte(c.r) && IsByte(c.g) && IsByte(c.b) && IsByte(c.a)
  }

  /** surface.get_rect(). */
  function RectOf(s: Surface): (r: Rect)
    ensures r.x == 0 && r.y == 0 && r.w == s.width && r.h == s.height
  {
    Rect(0, 0, s.width, s.height)
  }

  /** `self.alpha != 255` is false exactly for an alpha equal to 255. */
  predicate IsOpaque(alpha: Value)
  {
    alpha == VInt(255) || alpha == VFloat(255.0)
  }

  // ---------------------------------------------------------------------
  // _create_surface

  /** The texture branch of _create_surface; Some is the early return after a texture was found. */
  function TryTexture(l: Look, tex: TextureSource): (r: Option<Look>)
    ensures r.Some? <==> Truthy(l.textureId) && tex.Lookup? && tex.found.Some?
    ensures r.Some? ==> r.value == l.(surface := tex.found, rect := Some(RectOf(tex.found.value)))
  {
    if Truthy(l.textureId) && tex.Lookup? && tex.found.Some? then
      Some(l.(surface := tex.found, rect := Some(RectOf(tex.found.value))))
    else None
  }

  /** The state _create_surface reaches after the texture branch when it found nothing. */
  function AfterLookup(l: Look, tex: TextureSource): (r: Look)
    ensures r == l || (r == l.(surface := None) && Truthy(l.textureId) && tex == Lookup(None))
  {
    if Truthy(l.textureId) && tex == Lookup(None) then l.(surface := None) else l
  }

  /** A solid rectangle of the sprite's size and colour; pygame refuses a negative size. */
  function Filled(l: Look): (m: Made)
    ensures m.raised <==> Trunc(l.size.x) < 0 || Trunc(l.size.y) < 0
    ensures m.raised ==> m.look == l
    ensures !m.raised ==> m.look.surface.Some? && m.look.surface.value.kind == Procedural(l.color)
    ensures !m.raised ==> m.look == l.(surface := m.look.surface, rect := Some(RectOf(m.look.surface.value)))
  {
    var w := Trunc(l.size.x);
    var h := Trunc(l.size.y);
    if w < 0 || h < 0 then Made(l, true)
    else
      var s := Surface(Procedural(l.color), w, h, None);
      Made(l.(surface := Some(s), rect := Some(RectOf(s))), false)
  }

  /** _create_surface as written: the rectangle is only made when there is no surface at all. */
  function CreateAsWritten(l: Look, tex: TextureSource): (m: Made)
    ensures TryTexture(l, tex).Some? ==> m == Made(TryTexture(l, tex).value, false)
    ensures m.look.color == l.color && m.look.size == l.size && m.look.alpha == l.alpha
    ensures l.surface.Some? && TryTexture(l, tex).None? && !(Truthy(l.textureId) && tex == Lookup(None)) ==> m == Made(l, false)
  {
    var t := TryTexture(l, tex);
    if t.Some? then Made(t.value, false)
    else
      var l1 := AfterLookup(l, tex);
      if l1.surface.None? then Filled(l1) else Made(l1, false)
  }

  /** A sprite that already has a solid surface keeps its old colour after set_color as written. */
  lemma ColourChangeNotShown()
    ensures var white := Rgba(255, 255, 255, 255);
            var red := Rgba(255, 0, 0, 255);
            var s := Surface(Procedural(white), 32, 32, None);
            var l := Look(white, Vec(32.0, 32.0), VNone, Some(s), Some(RectOf(s)), Vec(0.0, 0.0), VBool(false), VBool(false), VInt(255));
            var m := CreateAsWritten(l.(color := red), NoAssets);
            m.look.color == red && m.look.surface.value.kind == Procedural(white)
  {
  }

  /**
   * _create_surface as its documentation and its callers intend ("create
   * or recreate the surface based on current properties"): a solid
   * rectangle is remade from the current size and colour whenever the
   * sprite does not show a texture or a surface the caller handed in.
   */
  function Create(l: Look, tex: TextureSource): (m: Made)
    ensures TryTexture(l, tex).Some? ==> m == Made(TryTexture(l, tex).value, false)
    ensures m.look.color == l.color && m.look.size == l.size && m.look.textureId == l.textureId
    ensures m.look.offset == l.offset && m.look.flipX == l.flipX && m.look.flipY == l.flipY && m.look.alpha == l.alpha
  {
    var t := TryTexture(l, tex);
    if t.Some? then Made(t.value, false)
    else
      var l1 := AfterLookup(l, tex);
      if l1.surface.None? || l1.surface.value.kind.Procedural? then Filled(l1) else Made(l1, false)
  }

  /** Without a texture to show, a solid sprite's surface has its current colour and size afterwards. */
  lemma CreateShowsColour(l: Look, tex: TextureSource)
    requires TryTexture(l, tex).None?
    requires l.surface.None? || l.surface.value.kind.Procedural?
    requires Trunc(l.size.x) >= 0 && Trunc(l.size.y) >= 0
    ensures var m := Create(l, tex);
            !m.raised && m.look.surface.Some? && m.look.surface.value.kind == Procedural(l.color)
            && m.look.surface.value.width == Trunc(l.size.x) && m.look.surface.value.height == Trunc(l.size.y)
            && m.look.rect == Some(RectOf(m.look.surface.value))
  {
  }

  /** A texture that is found is always what the sprite shows. */
  lemma CreateShowsTexture(l: Look, s: Surface)
    requires Truthy(l.textureId)
    ensures Create(l, Lookup(Some(s))) == Made(l.(surface := Some(s), rect := Some(RectOf(s))), false)
  {
  }

  /** A surface the caller handed in is never replaced while no texture is found. */
  lemma CreateKeepsExternal(l: Look, tex: TextureSource)
    requires l.surface.Some? && l.surface.value.kind.External?
    requires TryTexture(l, tex).None? && !(Truthy(l.textureId) && tex == Lookup(None))
    ensures Create(l, tex) == Made(l, false)
  {
  }

  // ---------------------------------------------------------------------
  // The network form

  /** The list form of a colour and of a vector. */
  function ColourList(c: Rgba): Value
  {
    VList([VInt(c.r), VInt(c.g), VInt(c.b), VInt(c.a)])
  }

  function VecList(v: Vec): Value
  {
    VList([VFloat(v.x), VFloat(v.y)])
  }

  /** serialize_for_network: colour, size, texture id, offset, flips and alpha, never the surface. */
  function Wire(l: Look): (d: map<string, Value>)
    ensures d.Keys == {"color", "size", "texture_id", "offset", "flip_x", "flip_y", "alpha"}
  {
    map["color" := ColourList(l.color), "size" := VecList(l.size), "texture_id" := l.textureId,
        "offset" := VecList(l.offset), "flip_x" := l.flipX, "flip_y" := l.flipY, "alpha" := l.alpha]
  }

  /** The items `data[k][0]`, `data[k][1]`, … reach: those of a list or a tuple. */
  function Items(v: Value): seq<Value>
  {
    if v.VList? then v.items else if v.VTuple? then v.elems else []
  }

  /** pygame.Color(c[0], c[1], c[2], c[3]): four ints in 0..255, or an exception. */
  function ColourFrom(v: Value): (r: Option<Rgba>)
    ensures r.Some? ==> IsRgba(r.value)
  {
    var s := Items(v);
    if |s| >= 4 && IsIntLike(s[0]) && IsIntLike(s[1]) && IsIntLike(s[2]) && IsIntLike(s[3]) then
      var c := Rgba(AsInt(s[0]), AsInt(s[1]), AsInt(s[2]), AsInt(s[3]));
      if IsRgba(c) then Some(c) else None
    else None
  }

  /** pygame.Vector2(v[0], v[1]): two numbers, or an exception. */
  function VecFrom(v: Value): (r: Option<Vec>)
  {
    var s := Items(v);
    if |s| >= 2 && IsNumber(s[0]) && IsNumber(s[1]) then Some(Vec(AsReal(s[0]), AsReal(s[1]))) else None
  }

  lemma ColourListDecodes(c: Rgba)
    requires IsRgba(c)
    ensures ColourFrom(ColourList(c)) == Some(c)
  {
  }

  lemma VecListDecodes(v: Vec)
    ensures VecFrom(VecList(v)) == Some(v)
  {
  }

  /** The property assignments of deserialize_from_network, in its order, stopping at the first that raises. */
  function Received(l: Look, data: map<string, Value>): (m: Made)
    ensures m.raised <==>
      || ("color" in data && ColourFrom(data["color"]).None?)
      || ("size" in data && VecFrom(data["size"]).None?)
      || ("offset" in data && VecFrom(data["offset"]).None?)
    ensures !m.raised && "color" in data ==> ColourFrom(data["color"]) == Some(m.look.color)
    ensures !m.raised && "size" in data ==> VecFrom(data["size"]) == Some(m.look.size)
    ensures !m.raised && "offset" in data ==> VecFrom(data["offset"]) == Some(m.look.offset)
    ensures !m.raised && "alpha" in data ==> m.look.alpha == data["alpha"]
  {
    var c := if "color" in data then ColourFrom(data["color"]) else Some(l.color);
    if c.None? then Made(l, true)
    else
      var l1 := l.(color := c.value);
      var sz := if "size" in data then VecFrom(data["size"]) else Some(l.size);
      if sz.None? then Made(l1, true)
      else
        var l2 := l1.(size := sz.value, textureId := if "texture_id" in data then data["texture_id"] else l.textureId);
        var o := if "offset" in data then VecFrom(data["offset"]) else Some(l.offset);
        if o.None? then Made(l2, true)
        else
          Made(l2.(offset := o.value,
                   flipX := if "flip_x" in data then data["flip_x"] else l.flipX,
                   flipY := if "flip_y" in data then data["flip_y"] else l.flipY,
                   alpha := if "alpha" in data then data["alpha"] else l.alpha), false)
  }

  /** The surface, if any, with set_alpha applied when the alpha is not 255. */
  function WithAlpha(l: Look): (r: Look)
    ensures r.surface.Some? <==> l.surface.Some?
    ensures r.rect == l.rect
  {
    if l.surface.Some? && !IsOpaque(l.alpha) then l.(surface := Some(l.surface.value.(alpha := Some(l.alpha)))) else l
  }

  /** deserialize_from_network: the properties, then a new surface, then its alpha. */
  function Deserialized(l: Look, data: map<string, Value>, tex: TextureSource): (m: Made)
    ensures !m.raised ==> !Received(l, data).raised
    ensures var p := Received(l, data).look;
      m.look.color == p.color && m.look.size == p.size && m.look.offset == p.offset && m.look.alpha == p.alpha
    ensures !m.raised && m.look.surface.Some? && !IsOpaque(m.look.alpha) ==> m.look.surface.value.alpha == Some(m.look.alpha)
  {
    var p := Received(l, data);
    if p.raised then p
    else
      var c := Create(p.look, tex);
      if c.raised then c else Made(WithAlpha(c.look), false)
  }

  /** Only the properties whose keys the data carries change; the rest keep their values. */
  lemma ReceivedTouchesOnlyPresentKeys(l: Look, data: map<string, Value>)
    ensures var r := Received(l, data).look;
            ("color" !in data ==> r.color == l.color) && ("size" !in data ==> r.size == l.size)
            && ("texture_id" !in data ==> r.textureId == l.textureId) && ("offset" !in data ==> r.offset == l.offset)
            && ("flip_x" !in data ==> r.flipX == l.flipX) && ("flip_y" !in data ==> r.flipY == l.flipY)
            && ("alpha" !in data ==> r.alpha == l.alpha)
            && r.surface == l.surface && r.rect == l.rect
  {
  }

  /** Data without any of the keys changes no property, and is never refused. */
  lemma EmptyDataChangesNothing(l: Look, data: map<string, Value>)
    requires data.Keys !! {"color", "size", "texture_id", "offset", "flip_x", "flip_y", "alpha"}
    ensures Received(l, data) == Made(l, false)
  {
  }

  /** Whatever the receiver held, it ends with the sender's colour, size, texture id, offset, flips and alpha. */
  lemma NetworkRoundTrip(l: Look, receiver: Look, tex: TextureSource)
    requires IsRgba(l.color)
    ensures var m := Deserialized(receiver, Wire(l), tex).look;
            m.color == l.color && m.size == l.size && m.textureId == l.textureId && m.offset == l.offset
            && m.flipX == l.flipX && m.flipY == l.flipY && m.alpha == l.alpha
  {
    ColourListDecodes(l.color);
    VecListDecodes(l.size);
    VecListDecodes(l.offset);
    var p := Received(receiver, Wire(l));
    assert !p.raised;
  }

  // ---------------------------------------------------------------------
  // SpriteComponent

  class SpriteComponent {
    var color: Rgba
    var size: Vec
    var textureId: Value
    var surface: Option<Surface>
    var rect: Option<Rect>
    var offset: Vec
    var flipX: Value
    var flipY: Value
    var alpha: Value

    function Snap(): Look
      reads this
    {
      Look(color, size, textureId, surface, rect, offset, flipX, flipY, alpha)
    }

    /** A pygame Color always has byte-sized components. */
    predicate Valid()
      reads this
    {
      IsRgba(color)
    }

    method Restore(l: Look)
      modifies this
      ensures Snap() == l
    {
      color, size, textureId, surface, rect := l.color, l.size, l.textureId, l.surface, l.rect;
      offset, flipX, flipY, alpha := l.offset, l.flipX, l.flipY, l.alpha;
    }

    /**
     * The constructor: white and 32 by 32 unless given (a zero Vector2 is
     * false in Python, so it also gives 32 by 32), no offset, no flips,
     * alpha 255, then _create_surface. pygame refuses a negative size, so
     * callers must not pass one when a rectangle is to be made.
     */
    constructor(s: Option<Surface>, c: Option<Rgba>, sz: Option<Vec>, texture: Option<string>, tex: TextureSource)
      requires c.Some? ==> IsRgba(c.value)
      requires !Create(Initial(s, c, sz, texture), tex).raised
      ensures Valid() && Snap() == Create(Initial(s, c, sz, texture), tex).look
    {
      var l := Create(Initial(s, c, sz, texture), tex).look;
      color, size, textureId, surface, rect := l.color, l.size, l.textureId, l.surface, l.rect;
      offset, flipX, flipY, alpha := l.offset, l.flipX, l.flipY, l.alpha;
    }

    /** set_texture_id. */
    method SetTextureId(id: Value, tex: TextureSource) returns (raised: bool)
      requires Valid()
      modifies this
      ensures Valid()
      ensures Made(Snap(), raised) == Create(old(Snap()).(textureId := id), tex)
    {
      textureId := id;
      raised := CreateSurface(tex);
    }

    /** set_surface: the sprite shows the given surface and forgets its texture id. */
    method SetSurface(s: Surface)
      requires Valid()
      modifies this
      ensures Valid()
      ensures Snap() == old(Snap()).(surface := Some(s), rect := Some(RectOf(s)), textureId := VNone)
    {
      surface := Some(s);
      rect := Some(RectOf(s));
      textureId := VNone;
    }

    /** set_color: the surface is remade only when no texture id is set. */
    method SetColor(c: Rgba, tex: TextureSource) returns (raised: bool)
      requires Valid() && IsRgba(c)
      modifies this
      ensures Valid()
      ensures Truthy(old(textureId)) ==> Snap() == old(Snap()).(color := c) && !raised
      ensures !Truthy(old(textureId)) ==> Made(Snap(), raised) == Create(old(Snap()).(color := c), tex)
    {
      color := c;
      raised := false;
      if !Truthy(textureId) {
        raised := CreateSurface(tex);
      }
    }

    /** set_size. */
    method SetSize(sz: Vec, tex: TextureSource) returns (raised: bool)
      requires Valid()
      modifies this
      ensures Valid()
      ensures Made(Snap(), raised) == Create(old(Snap()).(size := sz), tex)
    {
      size := sz;
      raised := CreateSurface(tex);
    }

    /**
     * update: with an actor and a rect that is true (non-zero width and
     * height), the rect is centred on the actor's world position plus the
     * offset; otherwise nothing changes.
     */
    method Update(worldPosition: Option<Vec>)
      modifies this
      ensures worldPosition.None? || !RectTrue(old(rect)) ==> Snap() == old(Snap())
      ensures worldPosition.Some? && RectTrue(old(rect)) ==>
        Snap() == old(Snap()).(rect := Some(Centred(old(rect).value, Trunc(worldPosition.value.x + offset.x), Trunc(worldPosition.value.y + offset.y))))
    {
      if worldPosition.Some? && RectTrue(rect) {
        var p := worldPosition.value;
        rect := Some(Centred(rect.value, Trunc(p.x + offset.x), Trunc(p.y + offset.y)));
      }
    }

    /** serialize_for_network. */
    function SerializeForNetwork(): (d: map<string, Value>)
      reads this
      ensures d == Wire(Snap())
    {
      Wire(Snap())
    }

    /** deserialize_from_network. */
    method DeserializeFromNetwork(data: map<string, Value>, tex: TextureSource) returns (raised: bool)
      requires Valid()
      modifies this
      ensures Valid()
      ensures Made(Snap(), raised) == Deserialized(old(Snap()), data, tex)
    {
      var p := Received(Snap(), data);
      ReceivedKeepsColourValid(Snap(), data);
      Restore(p.look);
      if p.raised {
        return true;
      }
      raised := CreateSurface(tex);
      if !raised && surface.Some? && !IsOpaque(alpha) {
        surface := Some(surface.value.(alpha := Some(alpha)));
      }
    }

    /** _create_surface, in its intended form (see Create). */
    method CreateSurface(tex: TextureSource) returns (raised: bool)
      requires Valid()
      modifies this
      ensures Valid()
      ensures Made(Snap(), raised) == Create(old(Snap()), tex)
    {
      var m := Create(Snap(), tex);
      surface, rect := m.look.surface, m.look.rect;
      raised := m.raised;
    }
  }

  /** The fields before _create_surface runs in the constructor. */
  function Initial(s: Option<Surface>, c: Option<Rgba>, sz: Option<Vec>, texture: Option<string>): (l: Look)
    ensures l.surface == s && l.rect.None? && l.offset == Vec(0.0, 0.0) && IsOpaque(l.alpha)
    ensures l.color == c.GetOr(Rgba(255, 255, 255, 255))
    ensures sz.Some? && sz.value != Vec(0.0, 0.0) ==> l.size == sz.value
    ensures sz.None? || sz.value == Vec(0.0, 0.0) ==> l.size == Vec(32.0, 32.0)
  {
    Look(c.GetOr(Rgba(255, 255, 255, 255)),
         if sz.Some? && sz.value != Vec(0.0, 0.0) then sz.value else Vec(32.0, 32.0),
         if texture.Some? then VStr(texture.value) else VNone,
         s, None, Vec(0.0, 0.0), VBool(false), VBool(false), VInt(255))
  }

  /** rect.center = (cx, cy): pygame moves the corner to the centre minus half the size. */
  function Centred(r: Rect, cx: int, cy: int): (r2: Rect)
    ensures r2.w == r.w && r2.h == r.h
    ensures r2.x == cx - r.w / 2 && r2.y == cy - r.h / 2
  {
    Rect(cx - r.w / 2, cy - r.h / 2, r.w, r.h)
  }

  lemma ReceivedKeepsColourValid(l: Look, data: map<string, Value>)
    requires IsRgba(l.color)
    ensures IsRgba(Received(l, data).look.color)
  {
  }
}
