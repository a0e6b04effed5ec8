/**
 * The three asset managers (engine/core/asset_manager.py,
 * engine/resources/assetManager.py, engine/asset_manager.py). They share
 * their caches and loading rules and differ in the image formats they
 * accept and in what slicing an unknown spritesheet does.
 */
module Assets {
  import opened Wrappers
  import opened Strings
  import AssetCache

  /** Which of the three managers. */
  datatype ManagerVariant = CoreManager | ResourcesManager | EngineManager

  /** A loaded image, reduced to what slicing needs. */
  datatype Surface = Surface(id: nat, width: int, height: int)
  datatype Rect = Rect(x: int, y: int, w: int, h: int)

  /** Opaque handles for the objects pygame returns. */
  type Sound = nat
  type Font = nat
  type Json = nat

  function ImageFormats(f: ManagerVariant): set<string>
  {
    var common := {".png", ".jpg", ".jpeg", ".bmp", ".gif", ".tga"};
    if f == CoreManager then common + {".webp"} else common
  }

  function SoundFormats(): set<string> { {".wav", ".ogg", ".mp3"} }
  function FontFormats(): set<string> { {".ttf", ".otf"} }

  lemma WebpOnlyInCore(f: ManagerVariant)
    ensures ".webp" in ImageFormats(f) <==> f == CoreManager
    ensures ".png" in ImageFormats(f)
  {
  }

  /** f"{name}_{size}": the cache key of a font. */
  function FontKey(name: string, size: int): string
  {
    name + "_" + IntToString(size)
  }

  /** One name at two sizes, or two names, never share a font key. */
  lemma FontKeyInjective(n1: string, s1: int, n2: string, s2: int)
    ensures FontKey(n1, s1) == FontKey(n2, s2) ==> n1 == n2 && s1 == s2
  {
    JoinUnderscoreInjective(n1, IntToString(s1), n2, IntToString(s2));
    IntToStringInjective(s1, s2);
  }

  /** Index of the last c in s, or -1 (str.rfind). */
  function RFind(s: string, c: char): (i: int)
    ensures -1 <= i < |s|
    ensures i >= 0 ==> s[i] == c
    ensures forall j :: i < j < |s| ==> s[j] != c
  {
    if |s| == 0 then -1 else if s[|s| - 1] == c then |s| - 1 else RFind(s[..|s| - 1], c)
  }

  /** The final path component. */
  function BaseName(p: string): string
  {
    p[RFind(p, '/') + 1..]
  }

  /** PurePath.suffix: from the last dot of the final component, unless that dot leads or ends it. */
  function Suffix(p: string): (r: string)
    ensures r == "" || r[0] == '.'
  {
    var n := BaseName(p);
    var i := RFind(n, '.');
    if 0 < i < |n| - 1 then n[i..] else ""
  }

  function LowerChar(c: char): char
  {
    if 'A' <= c <= 'Z' then (c as int + 32) as char else c
  }

  function Lower(s: string): (r: string)
    ensures |r| == |s|
    ensures forall i :: 0 <= i < |s| ==> r[i] == LowerChar(s[i])
  {
    if |s| == 0 then "" else Lower(s[..|s| - 1]) + [LowerChar(s[|s| - 1])]
  }

  /** The probe order over a format set (Python leaves set order unspecified). */
  predicate Enumerates(order: seq<string>, exts: set<string>)
  {
    (forall e :: e in order ==> e in exts) && (forall e :: e in exts ==> e in order) && forall i, j :: 0 <= i < j < |order| ==> order[i] != order[j]
  }

  /** The first name + ext of the probe order that exists. */
  function FirstExisting(existing: set<string>, name: string, order: seq<string>): (r: Option<string>)
    ensures r.Some? ==> r.value in existing && exists e :: e in order && r.value == name + e
    ensures r.None? ==> forall e :: e in order ==> name + e !in existing
  {
    if |order| == 0 then None
    else if name + order[0] in existing then Some(name + order[0])
    else FirstExisting(existing, name, order[1..])
  }

  /**
   * _findAssetFile: a name that already carries a supported extension is
   * probed as it is and nothing else is tried; any other name is tried
   * with each supported extension in turn.
   */
  method FindAssetFile(existing: set<string>, name: string, exts: set<string>, order: seq<string>) returns (r: Option<string>)
    requires Enumerates(order, exts)
    ensures Lower(Suffix(name)) in exts ==> r == (if name in existing then Some(name) else None)
    ensures Lower(Suffix(name)) !in exts ==> r == FirstExisting(existing, name, order)
  {
    if Lower(Suffix(name)) in exts {
      if name in existing {
        return Some(name);
      }
      return None;
    }
    var i := 0;
    while i < |order|
      invariant 0 <= i <= |order|
      invariant FirstExisting(existing, name, order) == FirstExisting(existing, name, order[i..])
    {
      assert order[i..][1..] == order[i + 1..];
      if name + order[i] in existing {
        return Some(name + order[i]);
      }
      i := i + 1;
    }
    return None;
  }

  /** Offsets start, start + stride, ... while an extent of len still fits below limit. */
  function Steps(start: int, len: int, stride: int, limit: int): (r: seq<int>)
    requires stride > 0
    ensures forall v :: v in r ==> start <= v && v + len <= limit
    ensures |r| > 0 <==> start + len <= limit
    decreases if start + len <= limit then limit - len - start + 1 else 0
  {
    if start + len <= limit then [start] + Steps(start + stride, len, stride, limit) else []
  }

  /** One row of tiles at height y, left to right. */
  function Row(y: int, xs: seq<int>, tw: int, th: int): (r: seq<Rect>)
    ensures |r| == |xs|
  {
    if |xs| == 0 then [] else Row(y, xs[..|xs| - 1], tw, th) + [Rect(xs[|xs| - 1], y, tw, th)]
  }

  /** Every tile of a row is at height y, at one of the columns, of the tile size. */
  lemma {:induction false} RowTiles(y: int, xs: seq<int>, tw: int, th: int)
    ensures forall t :: t in Row(y, xs, tw, th) ==> t.y == y && t.x in xs && t.w == tw && t.h == th
    decreases |xs|
  {
    if |xs| > 0 {
      RowTiles(y, xs[..|xs| - 1], tw, th);
      assert forall x :: x in xs[..|xs| - 1] ==> x in xs;
    }
  }

  /** The tiles sliceSpritesheet cuts, row by row from the top. */
  function Grid(ys: seq<int>, xs: seq<int>, tw: int, th: int): (r: seq<Rect>)
  {
    if |ys| == 0 then [] else Grid(ys[..|ys| - 1], xs, tw, th) + Row(ys[|ys| - 1], xs, tw, th)
  }

  /** Every tile of a grid is on one of the rows and columns, of the tile size. */
  lemma {:induction false} GridTiles(ys: seq<int>, xs: seq<int>, tw: int, th: int)
    ensures forall t :: t in Grid(ys, xs, tw, th) ==> t.y in ys && t.x in xs && t.w == tw && t.h == th
    decreases |ys|
  {
    if |ys| > 0 {
      GridTiles(ys[..|ys| - 1], xs, tw, th);
      RowTiles(ys[|ys| - 1], xs, tw, th);
      assert forall y :: y in ys[..|ys| - 1] ==> y in ys;
    }
  }

  /** One more tile at the end of a row. */
  lemma RowAppend(y: int, xs: seq<int>, x: int, tw: int, th: int)
    ensures Row(y, xs + [x], tw, th) == Row(y, xs, tw, th) + [Rect(x, y, tw, th)]
  {
    assert (xs + [x])[..|xs|] == xs;
  }

  /** One more row at the bottom of a grid. */
  lemma GridAppend(ys: seq<int>, y: int, xs: seq<int>, tw: int, th: int)
    ensures Grid(ys + [y], xs, tw, th) == Grid(ys, xs, tw, th) + Row(y, xs, tw, th)
  {
    assert (ys + [y])[..|ys|] == ys;
  }

  /** The tiles of a width x height sheet, stepping by tile + spacing inside the margins. */
  function SheetTiles(width: int, height: int, tw: int, th: int, margin: int, spacing: int): seq<Rect>
    requires tw + spacing > 0 && th + spacing > 0
  {
    Grid(Steps(margin, th, th + spacing, height - margin), Steps(margin, tw, tw + spacing, width - margin), tw, th)
  }

  /** image.subsurface accepts a rectangle of non-negative size that lies inside the image. */
  predicate InsideImage(t: Rect, width: int, height: int)
  {
    0 <= t.x && 0 <= t.y && 0 <= t.w && 0 <= t.h && t.x + t.w <= width && t.y + t.h <= height
  }

  /** The error image.subsurface raises for a rectangle it refuses. */
  const OutsideSurface := ValueError("subsurface rectangle outside surface area")

  /** Every tile has the requested size and lies inside the margins of the sheet. */
  lemma SheetTilesInsideMargins(width: int, height: int, tw: int, th: int, margin: int, spacing: int)
    requires tw + spacing > 0 && th + spacing > 0
    ensures forall t :: t in SheetTiles(width, height, tw, th, margin, spacing) ==>
      margin <= t.x && t.x + tw <= width - margin && margin <= t.y && t.y + th <= height - margin
      && t.w == tw && t.h == th
  {
    GridTiles(Steps(margin, th, th + spacing, height - margin), Steps(margin, tw, tw + spacing, width - margin), tw, th);
  }
  /** With a margin and a tile size that are not negative, every tile can be cut from the image. */
  lemma TilesInsideImage(width: int, height: int, tw: int, th: int, margin: int, spacing: int)
    requires tw + spacing > 0 && th + spacing > 0
    requires 0 <= margin && 0 <= tw && 0 <= th
    ensures forall t :: t in SheetTiles(width, height, tw, th, margin, spacing) ==> InsideImage(t, width, height)
  {
    SheetTilesInsideMargins(width, height, tw, th, margin, spacing);
  }


  /** A sheet too small for one tile inside its margins yields no tiles. */
  lemma SheetTooSmallIsEmpty(width: int, height: int, tw: int, th: int, margin: int, spacing: int)
    requires tw + spacing > 0 && th + spacing > 0
    requires margin + th > height - margin || margin + tw > width - margin
    ensures SheetTiles(width, height, tw, th, margin, spacing) == []
  {
    var ys := Steps(margin, th, th + spacing, height - margin);
    var xs := Steps(margin, tw, tw + spacing, width - margin);
    if xs == [] {
      GridOfNoColumns(ys, tw, th);
    }
  }

  lemma {:induction false} GridOfNoColumns(ys: seq<int>, tw: int, th: int)
    ensures Grid(ys, [], tw, th) == []
  {
    if |ys| > 0 {
      GridOfNoColumns(ys[..|ys| - 1], tw, th);
    }
  }

  class AssetManager {
    const variant: ManagerVariant
    var images: AssetCache.Cache<Surface>
    var sounds: AssetCache.Cache<Sound>
    var fonts: AssetCache.Cache<Font>
    var data: map<string, Json>

    ghost predicate Valid()
      reads this
    {
      AssetCache.Valid(images) && AssetCache.Valid(sounds) && AssetCache.Valid(fonts)
    }

    constructor (f: ManagerVariant)
      ensures Valid() && variant == f
      ensures images == AssetCache.Empty() && sounds == AssetCache.Empty() && fonts == AssetCache.Empty() && data == map[]
    {
      variant := f;
      images, sounds, fonts, data := AssetCache.Empty(), AssetCache.Empty(), AssetCache.Empty(), map[];
    }

    /**
     * loadImage: a cached name is returned with its count bumped; otherwise
     * the file is probed and, when pygame decodes it, cached with count 1.
     * `existing` are the files of the image directory, `decoded` what
     * pygame.image.load yields (None when it raises pygame.error).
     */
    method LoadImage(name: string, existing: set<string>, order: seq<string>, decoded: Option<Surface>) returns (r: Option<Surface>)
      requires Valid() && Enumerates(order, ImageFormats(variant))
      modifies this`images
      ensures Valid()
      ensures name in old(images.entries) ==> r == Some(old(images.entries)[name]) && images == AssetCache.Hit(old(images), name).0
      ensures name !in old(images.entries) ==>
        (images, r) == AssetCache.Load(old(images), name, if FindFile(existing, name, ImageFormats(variant), order).Some? then decoded else None)
    {
      AssetCache.LoadKeepsValid(images, name, None);
      if name in images.entries {
        var (c, obj) := AssetCache.Hit(images, name);
        images := c;
        return Some(obj);
      }
      var path := FindAssetFile(existing, name, ImageFormats(variant), order);
      AssetCache.LoadKeepsValid(images, name, if path.Some? then decoded else None);
      if path.None? || decoded.None? {
        return None;
      }
      images := AssetCache.Store(images, name, decoded.value);
      return decoded;
    }

    /** loadSound: the same rule as images, over the sound formats. */
    method LoadSound(name: string, existing: set<string>, order: seq<string>, decoded: Option<Sound>) returns (r: Option<Sound>)
      requires Valid() && Enumerates(order, SoundFormats())
      modifies this`sounds
      ensures Valid()
      ensures (sounds, r) == AssetCache.Load(old(sounds), name, if FindFile(existing, name, SoundFormats(), order).Some? then decoded else None)
    {
      AssetCache.LoadKeepsValid(sounds, name, None);
      if name in sounds.entries {
        var (c, obj) := AssetCache.Hit(sounds, name);
        sounds := c;
        return Some(obj);
      }
      var path := FindAssetFile(existing, name, SoundFormats(), order);
      AssetCache.LoadKeepsValid(sounds, name, if path.Some? then decoded else None);
      if path.None? || decoded.None? {
        return None;
      }
      sounds := AssetCache.Store(sounds, name, decoded.value);
      return decoded;
    }

    /**
     * loadFont: keyed by FontKey(name, size). A miss always yields a font:
     * the system font when pygame knows the name, else the file font when
     * the file is found and loads, else pygame's default font.
     */
    method LoadFont(name: string, size: int, systemFonts: set<string>, existing: set<string>, order: seq<string>,
                    sysFont: Font, fileFont: Option<Font>, defaultFont: Font) returns (r: Font)
      requires Valid() && Enumerates(order, FontFormats())
      modifies this`fonts
      ensures Valid()
      ensures FontKey(name, size) in old(fonts.entries) ==> r == old(fonts.entries)[FontKey(name, size)] && fonts == AssetCache.Hit(old(fonts), FontKey(name, size)).0
      ensures FontKey(name, size) !in old(fonts.entries) ==>
        (r == (if name in systemFonts then sysFont
              else if FindFile(existing, name, FontFormats(), order).Some? && fileFont.Some? then fileFont.value
              else defaultFont)
         && fonts == AssetCache.Store(old(fonts), FontKey(name, size), r))
    {
      r := LoadFontAt(FontKey(name, size), name, systemFonts, existing, order, sysFont, fileFont, defaultFont);
    }

    /** The body of loadFont once the cache key is known. */
    method LoadFontAt(key: string, name: string, systemFonts: set<string>, existing: set<string>, order: seq<string>,
                      sysFont: Font, fileFont: Option<Font>, defaultFont: Font) returns (r: Font)
      requires Valid() && Enumerates(order, FontFormats())
      modifies this`fonts
      ensures Valid()
      ensures key in old(fonts.entries) ==> r == old(fonts.entries)[key] && fonts == AssetCache.Hit(old(fonts), key).0
      ensures key !in old(fonts.entries) ==>
        (r == (if name in systemFonts then sysFont
              else if FindFile(existing, name, FontFormats(), order).Some? && fileFont.Some? then fileFont.value
              else defaultFont)
         && fonts == AssetCache.Store(old(fonts), key, r))
    {
      AssetCache.LoadKeepsValid(fonts, key, None);
      if key in fonts.entries {
        var (c, obj) := AssetCache.Hit(fonts, key);
        fonts := c;
        return obj;
      }
      r := ChooseFont(name, systemFonts, existing, order, sysFont, fileFont, defaultFont);
      fonts := AssetCache.Store(fonts, key, r);
    }

    /** The font loadFont makes on a miss: pygame's system font, else the file's font, else the default. */
    static method ChooseFont(name: string, systemFonts: set<string>, existing: set<string>, order: seq<string>,
                             sysFont: Font, fileFont: Option<Font>, defaultFont: Font) returns (r: Font)
      requires Enumerates(order, FontFormats())
      ensures r == (if name in systemFonts then sysFont
                    else if FindFile(existing, name, FontFormats(), order).Some? && fileFont.Some? then fileFont.value
                    else defaultFont)
    {
      if name in systemFonts {
        r := sysFont;
      } else {
        var path := FindAssetFile(existing, name, FontFormats(), order);
        if path.Some? && fileFont.Some? {
          r := fileFont.value;
        } else {
          r := defaultFont;
        }
      }
    }

    /** loadData: a plain cache without counts; `parsed` is the JSON file's content when it exists and parses. */
    method LoadData(name: string, parsed: Option<Json>) returns (r: Option<Json>)
      modifies this`data
      ensures name in old(data) ==> r == Some(old(data)[name]) && data == old(data)
      ensures name !in old(data) ==> r == parsed && data == (if parsed.Some? then old(data)[name := parsed.value] else old(data))
    {
      if name in data {
        return Some(data[name]);
      }
      if parsed.Some? {
        data := data[name := parsed.value];
      }
      return parsed;
    }

    /** The getters look up without touching counts. */
    function GetImage(name: string): (r: Option<Surface>)
      reads this
      ensures r.Some? <==> name in images.entries
      ensures r.Some? ==> r.value == images.entries[name]
    {
      if name in images.entries then Some(images.entries[name]) else None
    }

    function GetFont(name: string, size: int): (r: Option<Font>)
      reads this
      ensures r.Some? <==> FontKey(name, size) in fonts.entries
    {
      if FontKey(name, size) in fonts.entries then Some(fonts.entries[FontKey(name, size)]) else None
    }

    method ReleaseImage(name: string)
      requires Valid()
      modifies this`images
      ensures Valid() && images == AssetCache.Release(old(images), name)
    {
      AssetCache.ReleaseKeepsValid(images, name);
      images := AssetCache.Release(images, name);
    }

    method ReleaseSound(name: string)
      requires Valid()
      modifies this`sounds
      ensures Valid() && sounds == AssetCache.Release(old(sounds), name)
    {
      AssetCache.ReleaseKeepsValid(sounds, name);
      sounds := AssetCache.Release(sounds, name);
    }

    method ReleaseFont(name: string, size: int)
      requires Valid()
      modifies this`fonts
      ensures Valid() && fonts == AssetCache.Release(old(fonts), FontKey(name, size))
    {
      AssetCache.ReleaseKeepsValid(fonts, FontKey(name, size));
      fonts := AssetCache.Release(fonts, FontKey(name, size));
    }

    /**
     * sliceSpritesheet over an image already loaded: the core manager
     * raises ValueError for an unknown image, the other two return [].
     * Nothing in the manager changes.
     */
    method SliceSpritesheet(imageName: string, tw: int, th: int, margin: int, spacing: int) returns (r: Result<seq<Rect>>)
      requires tw + spacing > 0 && th + spacing > 0
      ensures imageName !in images.entries ==> r == (if variant == CoreManager then Err(ValueError("Image '" + imageName + "' not found in assets.")) else Ok([]))
      ensures imageName in images.entries ==>
        var image := images.entries[imageName];
        var tiles := SheetTiles(image.width, image.height, tw, th, margin, spacing);
        r == if forall t :: t in tiles ==> InsideImage(t, image.width, image.height) then Ok(tiles) else Err(OutsideSurface)
    {
      var image := GetImage(imageName);
      if image.None? {
        if variant == CoreManager {
          return Err(ValueError("Image '" + imageName + "' not found in assets."));
        }
        return Ok([]);
      }
      var sprites := SliceSheet(image.value.width, image.value.height, tw, th, margin, spacing);
      // subsurface refuses the first tile that does not fit, and the list built so far is dropped
      if exists i :: 0 <= i < |sprites| && !InsideImage(sprites[i], image.value.width, image.value.height) {
        return Err(OutsideSurface);
      }
      return Ok(sprites);
    }

    /** The outer loop of sliceSpritesheet: the rows of tiles of a width x height sheet, top to bottom. */
    static method SliceSheet(w: int, h: int, tw: int, th: int, margin: int, spacing: int) returns (sprites: seq<Rect>)
      requires tw + spacing > 0 && th + spacing > 0
      ensures sprites == SheetTiles(w, h, tw, th, margin, spacing)
    {
      ghost var ys := Steps(margin, th, th + spacing, h - margin);
      ghost var xs := Steps(margin, tw, tw + spacing, w - margin);
      sprites := [];
      var y := margin;
      ghost var done: seq<int> := [];
      while y + th <= h - margin
        invariant ys == done + Steps(y, th, th + spacing, h - margin)
        invariant sprites == Grid(done, xs, tw, th)
        decreases if y + th <= h - margin then h - margin - th - y + 1 else 0
      {
        var cut := SliceRow(w, y, tw, th, margin, spacing);
        GridAppend(done, y, xs, tw, th);
        sprites := sprites + cut;
        done := done + [y];
        y := y + th + spacing;
      }
      assert done == ys;
    }

    /** The inner loop of sliceSpritesheet: one row of tiles at height y. */
    static method SliceRow(w: int, y: int, tw: int, th: int, margin: int, spacing: int) returns (sprites: seq<Rect>)
      requires tw + spacing > 0
      ensures sprites == Row(y, Steps(margin, tw, tw + spacing, w - margin), tw, th)
    {
      ghost var xs := Steps(margin, tw, tw + spacing, w - margin);
      sprites := [];
      var x := margin;
      ghost var done: seq<int> := [];
      while x + tw <= w - margin
        invariant xs == done + Steps(x, tw, tw + spacing, w - margin)
        invariant sprites == Row(y, done, tw, th)
        decreases if x + tw <= w - margin then w - margin - tw - x + 1 else 0
      {
        RowAppend(y, done, x, tw, th);
        sprites := sprites + [Rect(x, y, tw, th)];
        done := done + [x];
        x := x + tw + spacing;
      }
      assert done == xs;
    }

    /** cleanup drops every cache and every count. */
    method Cleanup()
      modifies this
      ensures Valid()
      ensures images == AssetCache.Empty() && sounds == AssetCache.Empty() && fonts == AssetCache.Empty() && data == map[]
    {
      images, sounds, fonts, data := AssetCache.Empty(), AssetCache.Empty(), AssetCache.Empty(), map[];
    }

    /** getMemoryUsage: the number of cached images, sounds, fonts and data files. */
    function MemoryUsage(): (r: (nat, nat, nat, nat))
      reads this
      ensures r == (|images.entries|, |sounds.entries|, |fonts.entries|, |data|)
    {
      (|images.entries|, |sounds.entries|, |fonts.entries|, |data|)
    }
  }

  /** FindAssetFile's outcome as a function, for use in contracts. */
  function FindFile(existing: set<string>, name: string, exts: set<string>, order: seq<string>): Option<string>
  {
    if Lower(Suffix(name)) in exts then (if name in existing then Some(name) else None)
    else FirstExisting(existing, name, order)
  }

}
