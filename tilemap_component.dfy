/**
 * TilemapComponent of game/components/tilemap_component.py: a grid of
 * tiles in rows, split into square chunks for collision and network sync.
 *
 * The pymunk bodies the component builds are modelled by the rectangles
 * of tiles they cover: _update_chunk_collision's greedy merge is the
 * method Merge, proved to partition the solid tiles of a chunk.
 */
module TilemapComponents {
  import opened Wrappers
  import opened Values

  datatype TileType = Empty | Solid | Platform | Ladder | Spike | Water | Ice
  {
    /** The Enum's value. */
    function Value(): (n: int)
      ensures 0 <= n <= 6
    {
      match this
      case Empty => 0
      case Solid => 1
      case Platform => 2
      case Ladder => 3
      case Spike => 4
      case Water => 5
      case Ice => 6
    }
  }

  /** TileType(n): the member with that value, or the ValueError of an unknown one. */
  function TileTypeOf(n: int): (r: Result<TileType>)
    ensures r.Ok? <==> 0 <= n <= 6
    ensures r.Ok? ==> r.value.Value() == n
    ensures r.Err? ==> r.error.ValueError?
  {
    if n == 0 then Ok(Empty)
    else if n == 1 then Ok(Solid)
    else if n == 2 then Ok(Platform)
    else if n == 3 then Ok(Ladder)
    else if n == 4 then Ok(Spike)
    else if n == 5 then Ok(Water)
    else if n == 6 then Ok(Ice)
    else Err(ValueError(IntText(n) + " is not a valid TileType"))
  }

  /** A rough decimal rendering, only used in error messages. */
  function IntText(n: int): string
  {
    if n < 0 then "-" + NatText(-n) else NatText(n)
  }

  function NatText(n: nat): string
    decreases n
  {
    var d := ["0", "1", "2", "3", "4", "5", "6", "7", "8", "9"][n % 10];
    if n < 10 then d else NatText(n / 10) + d
  }

  datatype TileData = TileData(tileType: TileType, textureId: Option<string>, collisionEnabled: bool, properties: map<string, Value>)

  /** TileData(tile_type, texture_id, collision_enabled, properties): collision defaults to "not EMPTY", properties to {}. */
  function NewTile(tileType: TileType, textureId: Option<string>, collisionEnabled: Option<bool>, properties: Option<map<string, Value>>)
    : (t: TileData)
    ensures t.tileType == tileType && t.textureId == textureId
    ensures t.collisionEnabled == if collisionEnabled.Some? then collisionEnabled.value else tileType != Empty
    ensures t.properties == if properties.Some? then properties.value else map[]
  {
    TileData(tileType, textureId,
      if collisionEnabled.Some? then collisionEnabled.value else tileType != Empty,
      if properties.Some? then properties.value else map[])
  }

  /**
   * The dict of to_dict and from_dict; a missing key is None. A texture
   * or collision flag stored as None reads like a missing one, as
   * data.get does.
   */
  datatype TileDict = TileDict(tileType: Option<int>, textureId: Option<string>, collisionEnabled: Option<bool>, properties: Option<map<string, Value>>)

  function ToDict(t: TileData): (d: TileDict)
    ensures d.tileType == Some(t.tileType.Value()) && d.textureId == t.textureId
    ensures d.collisionEnabled == Some(t.collisionEnabled) && d.properties == Some(t.properties)
  {
    TileDict(Some(t.tileType.Value()), t.textureId, Some(t.collisionEnabled), Some(t.properties))
  }

  /** from_dict: a missing type is EMPTY, an unknown type value is a ValueError. */
  function FromDict(d: TileDict): (r: Result<TileData>)
    ensures r.Ok? <==> TileTypeOf(if d.tileType.Some? then d.tileType.value else 0).Ok?
    ensures r.Ok? ==> r.value == NewTile(TileTypeOf(if d.tileType.Some? then d.tileType.value else 0).value,
                                         d.textureId, d.collisionEnabled, d.properties)
  {
    match TileTypeOf(if d.tileType.Some? then d.tileType.value else 0)
    case Err(e) => Err(e)
    case Ok(ty) => Ok(NewTile(ty, d.textureId, d.collisionEnabled, d.properties))
  }

  /** from_dict(to_dict(t)) is t: type, texture, collision flag and properties. */
  lemma FromDictToDict(t: TileData)
    ensures FromDict(ToDict(t)) == Ok(t)
  {
    match t.tileType
    case Empty =>
    case Solid =>
    case Platform =>
    case Ladder =>
    case Spike =>
    case Water =>
    case Ice =>
  }

  /** A dict with neither a type nor a collision flag gives an EMPTY tile without collision. */
  lemma MissingKeysDefault(d: TileDict)
    requires d.tileType.None? && d.collisionEnabled.None?
    ensures FromDict(d).Ok? && FromDict(d).value.tileType == Empty && !FromDict(d).value.collisionEnabled
  {
  }

  // ---------------------------------------------------------------------
  // The grid

  /** Python's range(n) has max(n, 0) elements. */
  function Count(n: int): nat
  {
    if n < 0 then 0 else n
  }

  /** height rows of width tiles each. */
  ghost predicate Shaped(tiles: seq<seq<TileData>>, width: int, height: int)
  {
    |tiles| == Count(height) && forall y :: 0 <= y < |tiles| ==> |tiles[y]| == Count(width)
  }

  /** get_tile: the tile when 0 <= x < width and 0 <= y < height, else None. */
  function TileAt(tiles: seq<seq<TileData>>, width: int, height: int, x: int, y: int): (r: Option<TileData>)
    requires Shaped(tiles, width, height)
    ensures r.Some? <==> 0 <= x < width && 0 <= y < height
  {
    if 0 <= x < width && 0 <= y < height then Some(tiles[y][x]) else None
  }

  /** The grid with the tile at (x, y) replaced, when (x, y) is on the grid. */
  function Put(tiles: seq<seq<TileData>>, width: int, height: int, x: int, y: int, t: TileData): (r: seq<seq<TileData>>)
    requires Shaped(tiles, width, height)
    ensures Shaped(r, width, height)
    ensures forall x', y' :: TileAt(r, width, height, x', y') == if x' == x && y' == y && 0 <= x < width && 0 <= y < height
      then Some(t) else TileAt(tiles, width, height, x', y')
  {
    if 0 <= x < width && 0 <= y < height then tiles[y := tiles[y][x := t]] else tiles
  }

  /** A tile the merge gives a collision shape: collision on and not EMPTY. */
  predicate Collides(t: TileData)
  {
    t.collisionEnabled && t.tileType != Empty
  }

  /** The tile at (x, y) exists, collides and has the type ty. */
  ghost predicate SolidOf(tiles: seq<seq<TileData>>, width: int, height: int, x: int, y: int, ty: TileType)
    requires Shaped(tiles, width, height)
  {
    var t := TileAt(tiles, width, height, x, y);
    t.Some? && t.value.collisionEnabled && t.value.tileType == ty
  }

  ghost predicate SolidAt(tiles: seq<seq<TileData>>, width: int, height: int, x: int, y: int)
    requires Shaped(tiles, width, height)
  {
    var t := TileAt(tiles, width, height, x, y);
    t.Some? && Collides(t.value)
  }

  /** get_chunk_bounds: the chunk's first tile and, clipped to the map, the tile after its last. */
  function ChunkBounds(width: int, height: int, chunkSize: int, cx: int, cy: int): (r: (int, int, int, int))
    ensures r.0 == cx * chunkSize && r.1 == cy * chunkSize
    ensures r.2 <= r.0 + chunkSize && r.3 <= r.1 + chunkSize && r.2 <= width && r.3 <= height
    ensures r.2 == r.0 + chunkSize || r.2 == width
    ensures r.3 == r.1 + chunkSize || r.3 == height
  {
    var sx := cx * chunkSize;
    var sy := cy * chunkSize;
    (sx, sy, if sx + chunkSize < width then sx + chunkSize else width, if sy + chunkSize < height then sy + chunkSize else height)
  }

  /** The chunk of a tile: Python's floor division by the chunk size. */
  function ChunkOf(x: int, y: int, chunkSize: nat): (r: (int, int))
    requires 0 < chunkSize
    ensures r.0 * chunkSize <= x < r.0 * chunkSize + chunkSize
    ensures r.1 * chunkSize <= y < r.1 * chunkSize + chunkSize
  {
    (x / chunkSize, y / chunkSize)
  }

  /** Every tile of the map lies in the bounds of its own chunk. */
  lemma TileInItsChunk(width: int, height: int, chunkSize: nat, x: int, y: int)
    requires 0 < chunkSize && 0 <= x < width && 0 <= y < height
    ensures var (cx, cy) := ChunkOf(x, y, chunkSize);
      var (sx, sy, ex, ey) := ChunkBounds(width, height, chunkSize, cx, cy);
      sx <= x < ex && sy <= y < ey
  {
  }

  // ---------------------------------------------------------------------
  // The greedy merge of _update_chunk_collision

  /** A rectangle of tiles, from (x, y), w wide and h high, all of the type tileType. */
  datatype Box = Box(x: int, y: int, w: nat, h: nat, tileType: TileType)

  predicate InBox(b: Box, x: int, y: int)
  {
    b.x <= x < b.x + b.w && b.y <= y < b.y + b.h
  }

  /** The area the merge walks: the first tile and the number of columns and rows. */
  datatype Area = Area(x0: int, y0: int, cols: nat, rows: nat)

  predicate InArea(a: Area, x: int, y: int)
  {
    a.x0 <= x < a.x0 + a.cols && a.y0 <= y < a.y0 + a.rows
  }

  /** A rectangle the merge may build: inside the area, and of tiles that all collide with its type. */
  ghost predicate GoodBox(tiles: seq<seq<TileData>>, width: int, height: int, a: Area, b: Box)
    requires Shaped(tiles, width, height)
  {
    1 <= b.w && 1 <= b.h && b.tileType != Empty
    && a.x0 <= b.x && b.x + b.w <= a.x0 + a.cols && a.y0 <= b.y && b.y + b.h <= a.y0 + a.rows
    && forall x, y :: InBox(b, x, y) ==> SolidOf(tiles, width, height, x, y, b.tileType)
  }

  ghost predicate Covered(boxes: seq<Box>, x: int, y: int)
  {
    exists i :: 0 <= i < |boxes| && InBox(boxes[i], x, y)
  }

  ghost predicate Disjoint(boxes: seq<Box>)
  {
    forall i, j, x, y :: 0 <= i < j < |boxes| && InBox(boxes[i], x, y) ==> !InBox(boxes[j], x, y)
  }

  /**
   * What the merge promises: every rectangle is good, no two share a tile,
   * and every colliding tile of the area is in one of them.
   */
  ghost predicate Partition(tiles: seq<seq<TileData>>, width: int, height: int, a: Area, boxes: seq<Box>)
    requires Shaped(tiles, width, height)
  {
    (forall i :: 0 <= i < |boxes| ==> GoodBox(tiles, width, height, a, boxes[i]))
    && Disjoint(boxes)
    && forall x, y :: InArea(a, x, y) && SolidAt(tiles, width, height, x, y) ==> Covered(boxes, x, y)
  }

  /** In a partition, the rectangles covering a tile are one and the same. */
  lemma CoveredOnce(tiles: seq<seq<TileData>>, width: int, height: int, a: Area, boxes: seq<Box>, x: int, y: int, i: nat, j: nat)
    requires Shaped(tiles, width, height) && Partition(tiles, width, height, a, boxes)
    requires i < |boxes| && j < |boxes| && InBox(boxes[i], x, y) && InBox(boxes[j], x, y)
    ensures i == j
  {
  }

  /** A tile in a rectangle of the partition collides, with the rectangle's type. */
  lemma CoveredCollides(tiles: seq<seq<TileData>>, width: int, height: int, a: Area, boxes: seq<Box>, x: int, y: int, i: nat)
    requires Shaped(tiles, width, height) && Partition(tiles, width, height, a, boxes)
    requires i < |boxes| && InBox(boxes[i], x, y)
    ensures SolidAt(tiles, width, height, x, y) && TileAt(tiles, width, height, x, y).value.tileType == boxes[i].tileType
  {
    assert GoodBox(tiles, width, height, a, boxes[i]);
  }

  lemma CoveredAppend(boxes: seq<Box>, b: Box)
    ensures forall x, y :: Covered(boxes + [b], x, y) <==> Covered(boxes, x, y) || InBox(b, x, y)
  {
    forall x, y
      ensures Covered(boxes + [b], x, y) <==> Covered(boxes, x, y) || InBox(b, x, y)
    {
      if Covered(boxes + [b], x, y) {
        var i :| 0 <= i < |boxes + [b]| && InBox((boxes + [b])[i], x, y);
        if i < |boxes| {
          assert InBox(boxes[i], x, y);
        }
      }
      if Covered(boxes, x, y) {
        var i :| 0 <= i < |boxes| && InBox(boxes[i], x, y);
        assert (boxes + [b])[i] == boxes[i];
      }
      if InBox(b, x, y) {
        assert (boxes + [b])[|boxes|] == b;
      }
    }
  }

  /** processed[r, c] tells exactly which tiles of the area the rectangles so far cover. */
  ghost predicate Marks(processed: array2<bool>, a: Area, boxes: seq<Box>)
    reads processed
    requires processed.Length0 == a.rows && processed.Length1 == a.cols
  {
    forall r, c :: 0 <= r < a.rows && 0 <= c < a.cols ==> (processed[r, c] <==> Covered(boxes, a.x0 + c, a.y0 + r))
  }

  /** Rows ly .. ly + h - 1, columns lx .. lx + w - 1 of the area: unprocessed tiles that collide with type ty. */
  ghost predicate Free(tiles: seq<seq<TileData>>, width: int, height: int, a: Area, processed: array2<bool>,
                       lx: nat, ly: nat, w: nat, h: nat, ty: TileType)
    reads processed
    requires Shaped(tiles, width, height) && processed.Length0 == a.rows && processed.Length1 == a.cols
  {
    lx + w <= a.cols && ly + h <= a.rows
    && forall r, c :: ly <= r < ly + h && lx <= c < lx + w ==>
         !processed[r, c] && SolidOf(tiles, width, height, a.x0 + c, a.y0 + r, ty)
  }

  /** The horizontal expansion: the run of free tiles of type ty right of (lx, ly), the first included. */
  method ExpandRight(tiles: seq<seq<TileData>>, width: int, height: int, a: Area, processed: array2<bool>,
                     lx: nat, ly: nat, ty: TileType) returns (w: nat)
    requires Shaped(tiles, width, height) && processed.Length0 == a.rows && processed.Length1 == a.cols
    requires Free(tiles, width, height, a, processed, lx, ly, 1, 1, ty)
    ensures 1 <= w && Free(tiles, width, height, a, processed, lx, ly, w, 1, ty)
  {
    w := 1;
    while lx + w < a.cols && !processed[ly, lx + w]
      invariant 1 <= w && Free(tiles, width, height, a, processed, lx, ly, w, 1, ty)
      decreases a.cols - w
    {
      var check := TileAt(tiles, width, height, a.x0 + lx + w, a.y0 + ly);
      if check.Some? && check.value.collisionEnabled && check.value.tileType == ty {
        assert SolidOf(tiles, width, height, a.x0 + (lx + w), a.y0 + ly, ty);
        w := w + 1;
      } else {
        break;
      }
    }
  }

  /** Whether row r, columns lx .. lx + w - 1, could join the rectangle: the loop over that row. */
  method RowFree(tiles: seq<seq<TileData>>, width: int, height: int, a: Area, processed: array2<bool>,
                 lx: nat, r: nat, w: nat, ty: TileType) returns (can: bool)
    requires Shaped(tiles, width, height) && processed.Length0 == a.rows && processed.Length1 == a.cols
    requires lx + w <= a.cols && r < a.rows
    ensures can == Free(tiles, width, height, a, processed, lx, r, w, 1, ty)
  {
    var k := 0;
    while k < w
      invariant 0 <= k <= w && Free(tiles, width, height, a, processed, lx, r, k, 1, ty)
    {
      if processed[r, lx + k] {
        assert !Free(tiles, width, height, a, processed, lx, r, w, 1, ty);
        return false;
      }
      var check := TileAt(tiles, width, height, a.x0 + lx + k, a.y0 + r);
      if check.None? || !check.value.collisionEnabled || check.value.tileType != ty {
        assert !SolidOf(tiles, width, height, a.x0 + lx + k, a.y0 + r, ty);
        return false;
      }
      assert SolidOf(tiles, width, height, a.x0 + (lx + k), a.y0 + r, ty);
      k := k + 1;
    }
    return true;
  }

  /** The vertical expansion: whole rows below, while each is free. */
  method ExpandDown(tiles: seq<seq<TileData>>, width: int, height: int, a: Area, processed: array2<bool>,
                    lx: nat, ly: nat, w: nat, ty: TileType) returns (h: nat)
    requires Shaped(tiles, width, height) && processed.Length0 == a.rows && processed.Length1 == a.cols
    requires Free(tiles, width, height, a, processed, lx, ly, w, 1, ty)
    ensures 1 <= h && Free(tiles, width, height, a, processed, lx, ly, w, h, ty)
  {
    h := 1;
    var can := true;
    while ly + h < a.rows && can
      invariant 1 <= h && Free(tiles, width, height, a, processed, lx, ly, w, h, ty)
      decreases a.rows - h, can
    {
      can := RowFree(tiles, width, height, a, processed, lx, ly + h, w, ty);
      if can {
        h := h + 1;
      }
    }
  }

  /** Mark all tiles in the rectangle as processed. */
  method MarkBox(processed: array2<bool>, lx: nat, ly: nat, w: nat, h: nat)
    requires ly + h <= processed.Length0 && lx + w <= processed.Length1
    modifies processed
    ensures forall r, c :: 0 <= r < processed.Length0 && 0 <= c < processed.Length1 ==>
      processed[r, c] == (old(processed[r, c]) || (ly <= r < ly + h && lx <= c < lx + w))
  {
    var i := 0;
    while i < h
      invariant 0 <= i <= h
      invariant forall r, c :: 0 <= r < processed.Length0 && 0 <= c < processed.Length1 ==>
        processed[r, c] == (old(processed[r, c]) || (ly <= r < ly + i && lx <= c < lx + w))
    {
      var j := 0;
      while j < w
        invariant 0 <= j <= w
        invariant forall r, c :: 0 <= r < processed.Length0 && 0 <= c < processed.Length1 ==>
          processed[r, c] == (old(processed[r, c]) || (ly <= r < ly + i && lx <= c < lx + w) || (r == ly + i && lx <= c < lx + j))
      {
        processed[ly + i, lx + j] := true;
        j := j + 1;
      }
      i := i + 1;
    }
  }

  /** Every colliding tile before (lx, ly) in row order is processed. */
  ghost predicate SweptTo(tiles: seq<seq<TileData>>, width: int, height: int, a: Area, processed: array2<bool>, lx: nat, ly: nat)
    reads processed
    requires Shaped(tiles, width, height) && processed.Length0 == a.rows && processed.Length1 == a.cols
  {
    forall r, c ::
      (0 <= r < a.rows && 0 <= c < a.cols && (r < ly || (r == ly && c < lx)) && SolidAt(tiles, width, height, a.x0 + c, a.y0 + r))
      ==> processed[r, c]
  }

  /** The rectangle found at (lx, ly) keeps the merge's invariant once it is marked and appended. */
  /** The rectangle at (lx, ly) of w by h was unprocessed in before, and every tile in it collides with type ty. */
  ghost predicate FreeBefore(tiles: seq<seq<TileData>>, width: int, height: int, a: Area, before: seq<seq<bool>>,
                             lx: nat, ly: nat, w: nat, h: nat, ty: TileType)
    requires Shaped(tiles, width, height)
  {
    forall r, c :: ly <= r < ly + h && lx <= c < lx + w ==>
      0 <= r < |before| && 0 <= c < |before[r]| && !before[r][c] && SolidOf(tiles, width, height, a.x0 + c, a.y0 + r, ty)
  }

  /** The facts BoxAdded needs about the grid before the new rectangle is marked. */
  lemma SnapshotFacts(tiles: seq<seq<TileData>>, width: int, height: int, a: Area, processed: array2<bool>, boxes: seq<Box>,
                      before: seq<seq<bool>>, lx: nat, ly: nat, w: nat, h: nat, ty: TileType)
    requires Shaped(tiles, width, height) && processed.Length0 == a.rows && processed.Length1 == a.cols
    requires before == Snapshot(processed)
    requires Free(tiles, width, height, a, processed, lx, ly, w, h, ty) && Marks(processed, a, boxes)
    ensures FreeBefore(tiles, width, height, a, before, lx, ly, w, h, ty)
    ensures forall r, c :: 0 <= r < a.rows && 0 <= c < a.cols ==> (before[r][c] <==> Covered(boxes, a.x0 + c, a.y0 + r))
  {
    forall r, c | ly <= r < ly + h && lx <= c < lx + w
      ensures !before[r][c] && SolidOf(tiles, width, height, a.x0 + c, a.y0 + r, ty)
    {
      assert before[r][c] == processed[r, c];
    }
    forall r, c | 0 <= r < a.rows && 0 <= c < a.cols
      ensures before[r][c] <==> Covered(boxes, a.x0 + c, a.y0 + r)
    {
      assert before[r][c] == processed[r, c];
    }
  }

  lemma BoxAdded(tiles: seq<seq<TileData>>, width: int, height: int, a: Area, before: seq<seq<bool>>, processed: array2<bool>,
                 boxes: seq<Box>, lx: nat, ly: nat, w: nat, h: nat, ty: TileType)
    requires Shaped(tiles, width, height) && processed.Length0 == a.rows && processed.Length1 == a.cols
    requires |before| == a.rows && forall r :: 0 <= r < a.rows ==> |before[r]| == a.cols
    requires 1 <= w && 1 <= h && ty != Empty && lx + w <= a.cols && ly + h <= a.rows
    requires FreeBefore(tiles, width, height, a, before, lx, ly, w, h, ty)
    requires forall r, c :: 0 <= r < a.rows && 0 <= c < a.cols ==> (before[r][c] <==> Covered(boxes, a.x0 + c, a.y0 + r))
    requires forall r, c :: 0 <= r < a.rows && 0 <= c < a.cols ==>
      processed[r, c] == (before[r][c] || (ly <= r < ly + h && lx <= c < lx + w))
    requires forall i :: 0 <= i < |boxes| ==> GoodBox(tiles, width, height, a, boxes[i])
    requires Disjoint(boxes)
    ensures var b := Box(a.x0 + lx, a.y0 + ly, w, h, ty);
      Marks(processed, a, boxes + [b]) && Disjoint(boxes + [b])
      && forall i :: 0 <= i < |boxes + [b]| ==> GoodBox(tiles, width, height, a, (boxes + [b])[i])
  {
    var b := Box(a.x0 + lx, a.y0 + ly, w, h, ty);
    CoveredAppend(boxes, b);
    assert GoodBox(tiles, width, height, a, b) by {
      forall x, y | InBox(b, x, y)
        ensures SolidOf(tiles, width, height, x, y, ty)
      {
        var r, c := y - a.y0, x - a.x0;
        assert ly <= r < ly + h && lx <= c < lx + w;
        assert !before[r][c];
        assert SolidOf(tiles, width, height, a.x0 + c, a.y0 + r, ty);
      }
    }
    forall i, j, x, y | 0 <= i < j < |boxes + [b]| && InBox((boxes + [b])[i], x, y)
      ensures !InBox((boxes + [b])[j], x, y)
    {
      if j == |boxes| {
        assert (boxes + [b])[i] == boxes[i];
        assert Covered(boxes, x, y);
        assert GoodBox(tiles, width, height, a, boxes[i]);
        assert before[y - a.y0][x - a.x0];
      } else if j < |boxes| {
        assert (boxes + [b])[i] == boxes[i] && (boxes + [b])[j] == boxes[j];
      }
    }
  }

  /** A copy of the marks, so that their state before a rectangle is added can be named. */
  ghost function Snapshot(processed: array2<bool>): (s: seq<seq<bool>>)
    reads processed
    ensures |s| == processed.Length0
    ensures forall r :: 0 <= r < |s| ==> |s[r]| == processed.Length1
    ensures forall r, c :: 0 <= r < processed.Length0 && 0 <= c < processed.Length1 ==> s[r][c] == processed[r, c]
  {
    seq(processed.Length0, r requires 0 <= r < processed.Length0 reads processed =>
      seq(processed.Length1, c requires 0 <= c < processed.Length1 reads processed => processed[r, c]))
  }

  /**
   * The loop of _update_chunk_collision: each unprocessed colliding tile,
   * in row order, starts a rectangle grown right and then down over free
   * tiles of its own type.
   */
  method Merge(tiles: seq<seq<TileData>>, width: int, height: int, a: Area) returns (boxes: seq<Box>)
    requires Shaped(tiles, width, height)
    ensures Partition(tiles, width, height, a, boxes)
  {
    var processed := new bool[a.rows, a.cols]((r, c) => false);
    boxes := [];
    var ly := 0;
    while ly < a.rows
      invariant 0 <= ly <= a.rows
      invariant Marks(processed, a, boxes) && SweptTo(tiles, width, height, a, processed, 0, ly)
      invariant (forall i :: 0 <= i < |boxes| ==> GoodBox(tiles, width, height, a, boxes[i])) && Disjoint(boxes)
    {
      var lx := 0;
      while lx < a.cols
        invariant 0 <= lx <= a.cols
        invariant Marks(processed, a, boxes) && SweptTo(tiles, width, height, a, processed, lx, ly)
        invariant (forall i :: 0 <= i < |boxes| ==> GoodBox(tiles, width, height, a, boxes[i])) && Disjoint(boxes)
      {
        boxes := MergeAt(tiles, width, height, a, processed, boxes, lx, ly);
        lx := lx + 1;
      }
      ly := ly + 1;
    }
    forall x, y | InArea(a, x, y) && SolidAt(tiles, width, height, x, y)
      ensures Covered(boxes, x, y)
    {
      assert processed[y - a.y0, x - a.x0];
    }
  }

  /** One turn of the merge loop, at (lx, ly): nothing, or a new rectangle starting there. */
  method MergeAt(tiles: seq<seq<TileData>>, width: int, height: int, a: Area, processed: array2<bool>, boxes: seq<Box>,
                 lx: nat, ly: nat) returns (boxes': seq<Box>)
    requires Shaped(tiles, width, height) && processed.Length0 == a.rows && processed.Length1 == a.cols
    requires lx < a.cols && ly < a.rows
    requires Marks(processed, a, boxes) && SweptTo(tiles, width, height, a, processed, lx, ly)
    requires (forall i :: 0 <= i < |boxes| ==> GoodBox(tiles, width, height, a, boxes[i])) && Disjoint(boxes)
    modifies processed
    ensures Marks(processed, a, boxes') && SweptTo(tiles, width, height, a, processed, lx + 1, ly)
    ensures (forall i :: 0 <= i < |boxes'| ==> GoodBox(tiles, width, height, a, boxes'[i])) && Disjoint(boxes')
    ensures lx + 1 == a.cols ==> SweptTo(tiles, width, height, a, processed, 0, ly + 1)
  {
    boxes' := boxes;
    if processed[ly, lx] {
      return;
    }
    var tile := TileAt(tiles, width, height, a.x0 + lx, a.y0 + ly);
    if tile.None? || !tile.value.collisionEnabled || tile.value.tileType == Empty {
      return;
    }
    var ty := tile.value.tileType;
    var w := ExpandRight(tiles, width, height, a, processed, lx, ly, ty);
    var h := ExpandDown(tiles, width, height, a, processed, lx, ly, w, ty);
    ghost var before := Snapshot(processed);
    SnapshotFacts(tiles, width, height, a, processed, boxes, before, lx, ly, w, h, ty);
    MarkBox(processed, lx, ly, w, h);
    forall r, c | 0 <= r < a.rows && 0 <= c < a.cols
      ensures processed[r, c] == (before[r][c] || (ly <= r < ly + h && lx <= c < lx + w))
    {
      assert before[r][c] == old(processed[r, c]);
    }
    var b := Box(a.x0 + lx, a.y0 + ly, w, h, ty);
    BoxAdded(tiles, width, height, a, before, processed, boxes, lx, ly, w, h, ty);
    boxes' := boxes + [b];
  }

  // ---------------------------------------------------------------------
  // The initial grid and the exported type values

  /** rows rows of cols copies of t. */
  function Filled(rows: nat, cols: nat, t: TileData): (r: seq<seq<TileData>>)
    ensures |r| == rows && forall y :: 0 <= y < rows ==> |r[y]| == cols
    ensures forall y, x :: 0 <= y < rows && 0 <= x < cols ==> r[y][x] == t
  {
    seq(rows, y => seq(cols, x => t))
  }

  /** _initialize_tiles: height rows, each of width copies of the default tile. */
  method InitialTiles(width: int, height: int, t: TileData) returns (tiles: seq<seq<TileData>>)
    ensures Shaped(tiles, width, height) && tiles == Filled(Count(height), Count(width), t)
  {
    tiles := [];
    var y := 0;
    while y < height
      invariant 0 <= y <= Count(height) && tiles == Filled(y, Count(width), t)
    {
      var row := [];
      var x := 0;
      while x < width
        invariant 0 <= x <= Count(width) && row == seq(x, _ => t)
      {
        row := row + [t];
        x := x + 1;
      }
      tiles := tiles + [row];
      y := y + 1;
    }
  }

  /** to_data_array: the type value of every tile, row by row. */
  method TypeValues(tiles: seq<seq<TileData>>, width: int, height: int) returns (data: seq<seq<int>>)
    requires Shaped(tiles, width, height)
    ensures |data| == Count(height) && forall y :: 0 <= y < |data| ==> |data[y]| == Count(width)
    ensures forall y, x :: 0 <= y < |data| && 0 <= x < Count(width) ==> data[y][x] == tiles[y][x].tileType.Value()
  {
    data := [];
    var y := 0;
    while y < height
      invariant 0 <= y <= Count(height) && |data| == y
      invariant forall y' :: 0 <= y' < y ==> |data[y']| == Count(width)
      invariant forall y', x :: 0 <= y' < y && 0 <= x < Count(width) ==> data[y'][x] == tiles[y'][x].tileType.Value()
    {
      var row := [];
      var x := 0;
      while x < width
        invariant 0 <= x <= Count(width) && |row| == x
        invariant forall x' :: 0 <= x' < x ==> row[x'] == tiles[y][x'].tileType.Value()
      {
        var tile := TileAt(tiles, width, height, x, y);
        row := row + [if tile.Some? then tile.value.tileType.Value() else 0];
        x := x + 1;
      }
      data := data + [row];
      y := y + 1;
    }
  }

  /** tile_mappings.get(id, default_tile). */
  function TileFor(mappings: map<int, TileData>, default: TileData, id: int): TileData
  {
    if id in mappings then mappings[id] else default
  }

  /** The grid load_from_data builds: each id's mapped tile, or the default for an unmapped id. */
  function Loaded(data: seq<seq<int>>, width: int, height: int, mappings: map<int, TileData>, default: TileData)
    : (r: seq<seq<TileData>>)
    requires |data| == Count(height) && forall y :: 0 <= y < |data| ==> Count(width) <= |data[y]|
    ensures Shaped(r, width, height)
    ensures forall y, x :: 0 <= y < Count(height) && 0 <= x < Count(width) ==> r[y][x] == TileFor(mappings, default, data[y][x])
  {
    seq(Count(height), y requires 0 <= y < Count(height) =>
      seq(Count(width), x requires 0 <= x < Count(width) => TileFor(mappings, default, data[y][x])))
  }

  /** A mapping that gives each type value a tile of that type makes export undo load. */
  lemma LoadThenExport(data: seq<seq<int>>, width: int, height: int, mappings: map<int, TileData>, default: TileData, y: int, x: int)
    requires |data| == Count(height) && forall y :: 0 <= y < |data| ==> Count(width) <= |data[y]|
    requires forall v :: v in mappings ==> mappings[v].tileType.Value() == v
    requires 0 <= y < Count(height) && 0 <= x < Count(width) && data[y][x] in mappings
    ensures Loaded(data, width, height, mappings, default)[y][x].tileType.Value() == data[y][x]
  {
  }

  // ---------------------------------------------------------------------
  // Network entries

  /** One element of a chunk's list in serialize_for_network: the position and to_dict of a tile. */
  datatype TileEntry = TileEntry(x: int, y: int, data: TileDict)

  /** The entries of row y, columns x0 .. x1 - 1: the tiles that exist there. */
  function RowEntries(tiles: seq<seq<TileData>>, width: int, height: int, y: int, x0: int, x1: int): (r: seq<TileEntry>)
    requires Shaped(tiles, width, height)
    decreases x1 - x0
  {
    if x1 <= x0 then []
    else
      var t := TileAt(tiles, width, height, x0, y);
      (if t.Some? then [TileEntry(x0, y, ToDict(t.value))] else []) + RowEntries(tiles, width, height, y, x0 + 1, x1)
  }

  /** An entry for a tile on the grid inside rows y0 .. y1 - 1 and columns x0 .. x1 - 1, with its position and to_dict. */
  ghost predicate EntryIn(tiles: seq<seq<TileData>>, width: int, height: int, e: TileEntry, y0: int, y1: int, x0: int, x1: int)
    requires Shaped(tiles, width, height)
  {
    y0 <= e.y < y1 && x0 <= e.x < x1
    && TileAt(tiles, width, height, e.x, e.y).Some? && e.data == ToDict(TileAt(tiles, width, height, e.x, e.y).value)
  }

  /** Each entry of a row is a tile on the grid in that row segment, with its position and to_dict. */
  lemma {:induction false} RowEntriesTiles(tiles: seq<seq<TileData>>, width: int, height: int, y: int, x0: int, x1: int)
    requires Shaped(tiles, width, height)
    ensures forall i :: 0 <= i < |RowEntries(tiles, width, height, y, x0, x1)| ==>
      EntryIn(tiles, width, height, RowEntries(tiles, width, height, y, x0, x1)[i], y, y + 1, x0, x1)
    decreases x1 - x0
  {
    if x0 < x1 {
      RowEntriesTiles(tiles, width, height, y, x0 + 1, x1);
      var t := TileAt(tiles, width, height, x0, y);
      var head := if t.Some? then [TileEntry(x0, y, ToDict(t.value))] else [];
      var rest := RowEntries(tiles, width, height, y, x0 + 1, x1);
      var r := head + rest;
      assert RowEntries(tiles, width, height, y, x0, x1) == r;
      forall i | 0 <= i < |r|
        ensures EntryIn(tiles, width, height, r[i], y, y + 1, x0, x1)
      {
        if i >= |head| {
          assert r[i] == rest[i - |head|];
          assert EntryIn(tiles, width, height, rest[i - |head|], y, y + 1, x0 + 1, x1);
        } else {
          assert r[i] == head[i];
        }
      }
    }
  }

  /** The entries of rows y0 .. y1 - 1, row by row. */
  function AreaEntries(tiles: seq<seq<TileData>>, width: int, height: int, y0: int, y1: int, x0: int, x1: int): (r: seq<TileEntry>)
    requires Shaped(tiles, width, height)
    decreases y1 - y0
  {
    if y1 <= y0 then [] else RowEntries(tiles, width, height, y0, x0, x1) + AreaEntries(tiles, width, height, y0 + 1, y1, x0, x1)
  }

  /** Each entry of an area is a tile on the grid inside it, with its position and to_dict. */
  lemma {:induction false} AreaEntriesTiles(tiles: seq<seq<TileData>>, width: int, height: int, y0: int, y1: int, x0: int, x1: int)
    requires Shaped(tiles, width, height)
    ensures forall i :: 0 <= i < |AreaEntries(tiles, width, height, y0, y1, x0, x1)| ==>
      EntryIn(tiles, width, height, AreaEntries(tiles, width, height, y0, y1, x0, x1)[i], y0, y1, x0, x1)
    decreases y1 - y0
  {
    if y0 < y1 {
      RowEntriesTiles(tiles, width, height, y0, x0, x1);
      AreaEntriesTiles(tiles, width, height, y0 + 1, y1, x0, x1);
      var row := RowEntries(tiles, width, height, y0, x0, x1);
      var rest := AreaEntries(tiles, width, height, y0 + 1, y1, x0, x1);
      var r := row + rest;
      forall i | 0 <= i < |r|
        ensures EntryIn(tiles, width, height, r[i], y0, y1, x0, x1)
      {
        if i < |row| {
          assert r[i] == row[i];
          assert EntryIn(tiles, width, height, row[i], y0, y0 + 1, x0, x1);
        } else {
          assert r[i] == rest[i - |row|];
          assert EntryIn(tiles, width, height, rest[i - |row|], y0 + 1, y1, x0, x1);
        }
      }
    }
  }

  /** The inner loop of serialize_for_network over one row of a chunk. */
  method CollectRow(tiles: seq<seq<TileData>>, width: int, height: int, y: int, x0: int, x1: int)
    returns (row: seq<TileEntry>)
    requires Shaped(tiles, width, height)
    ensures row == RowEntries(tiles, width, height, y, x0, x1)
  {
    row := [];
    var x := x0;
    while x < x1
      invariant row + RowEntries(tiles, width, height, y, x, x1) == RowEntries(tiles, width, height, y, x0, x1)
      decreases x1 - x
    {
      var t := TileAt(tiles, width, height, x, y);
      if t.Some? {
        row := row + [TileEntry(x, y, ToDict(t.value))];
      }
      x := x + 1;
    }
  }

  /** The loops of serialize_for_network over one chunk, row by row. */
  method CollectEntries(tiles: seq<seq<TileData>>, width: int, height: int, y0: int, y1: int, x0: int, x1: int)
    returns (entries: seq<TileEntry>)
    requires Shaped(tiles, width, height)
    ensures entries == AreaEntries(tiles, width, height, y0, y1, x0, x1)
  {
    entries := [];
    var y := y0;
    while y < y1
      invariant entries + AreaEntries(tiles, width, height, y, y1, x0, x1) == AreaEntries(tiles, width, height, y0, y1, x0, x1)
      decreases y1 - y
    {
      var row := CollectRow(tiles, width, height, y, x0, x1);
      assert AreaEntries(tiles, width, height, y, y1, x0, x1) == row + AreaEntries(tiles, width, height, y + 1, y1, x0, x1);
      entries := entries + row;
      y := y + 1;
    }
  }

  /** Setting each entry's tile in turn, as from_dict builds it; the first unknown type stops with its ValueError. */
  function ApplyEntries(tiles: seq<seq<TileData>>, width: int, height: int, entries: seq<TileEntry>): (r: Result<seq<seq<TileData>>>)
    requires Shaped(tiles, width, height)
    ensures r.Ok? ==> Shaped(r.value, width, height)
    ensures r.Err? ==> r.error.ValueError?
    decreases |entries|
  {
    if |entries| == 0 then Ok(tiles)
    else match FromDict(entries[0].data)
      case Err(e) => Err(e)
      case Ok(t) => ApplyEntries(Put(tiles, width, height, entries[0].x, entries[0].y, t), width, height, entries[1..])
  }

  lemma {:induction false} ApplyAppend(tiles: seq<seq<TileData>>, width: int, height: int, a: seq<TileEntry>, b: seq<TileEntry>)
    requires Shaped(tiles, width, height)
    ensures ApplyEntries(tiles, width, height, a + b) ==
      match ApplyEntries(tiles, width, height, a)
        case Err(e) => Err(e)
        case Ok(t) => ApplyEntries(t, width, height, b)
    decreases |a|
  {
    if |a| > 0 {
      assert (a + b)[0] == a[0] && (a + b)[1..] == a[1..] + b;
      match FromDict(a[0].data)
      case Err(_) =>
      case Ok(t) => ApplyAppend(Put(tiles, width, height, a[0].x, a[0].y, t), width, height, a[1..], b);
    } else {
      assert a + b == b;
    }
  }

  /** Applying a row's entries from a sender copies the sender's tiles of that row segment and keeps every other tile. */
  lemma {:induction false} ApplyRow(tiles: seq<seq<TileData>>, sender: seq<seq<TileData>>, width: int, height: int, y: int, x0: int, x1: int)
    requires Shaped(tiles, width, height) && Shaped(sender, width, height)
    ensures var r := ApplyEntries(tiles, width, height, RowEntries(sender, width, height, y, x0, x1));
      r.Ok? && forall x', y' :: (TileAt(r.value, width, height, x', y') ==
        if y' == y && x0 <= x' < x1 then TileAt(sender, width, height, x', y') else TileAt(tiles, width, height, x', y'))
    decreases x1 - x0
  {
    if x0 < x1 {
      var t := TileAt(sender, width, height, x0, y);
      var rest := RowEntries(sender, width, height, y, x0 + 1, x1);
      if t.Some? {
        FromDictToDict(t.value);
        var e := TileEntry(x0, y, ToDict(t.value));
        assert RowEntries(sender, width, height, y, x0, x1) == [e] + rest;
        ApplyAppend(tiles, width, height, [e], rest);
        assert ([e])[1..] == [];
        var tiles' := Put(tiles, width, height, x0, y, t.value);
        assert ApplyEntries(tiles, width, height, [e]) == ApplyEntries(tiles', width, height, []);
        ApplyRow(tiles', sender, width, height, y, x0 + 1, x1);
      } else {
        assert RowEntries(sender, width, height, y, x0, x1) == rest;
        ApplyRow(tiles, sender, width, height, y, x0 + 1, x1);
      }
    }
  }

  /**
   * The network round trip of a chunk: the entries serialize_for_network
   * sends for an area, applied by deserialize_from_network to a map of the
   * same size, give it the sender's tiles in that area and leave the rest.
   */
  lemma {:induction false} SyncRoundTrip(tiles: seq<seq<TileData>>, sender: seq<seq<TileData>>, width: int, height: int,
                                         y0: int, y1: int, x0: int, x1: int)
    requires Shaped(tiles, width, height) && Shaped(sender, width, height)
    ensures AreaSynced(tiles, sender, width, height, y0, y1, x0, x1)
    decreases y1 - y0
  {
    if y0 < y1 {
      var mid := SyncHead(tiles, sender, width, height, y0, y1, x0, x1);
      SyncRoundTrip(mid, sender, width, height, y0 + 1, y1, x0, x1);
    } else {
      assert AreaEntries(sender, width, height, y0, y1, x0, x1) == [];
    }
  }

  /**
   * Applying the entries the sender sends for rows y0 .. y1 - 1 and columns
   * x0 .. x1 - 1 succeeds and leaves the sender's tiles there and the old
   * tiles elsewhere.
   */
  ghost predicate AreaSynced(tiles: seq<seq<TileData>>, sender: seq<seq<TileData>>, width: int, height: int,
                             y0: int, y1: int, x0: int, x1: int)
    requires Shaped(tiles, width, height) && Shaped(sender, width, height)
  {
    var r := ApplyEntries(tiles, width, height, AreaEntries(sender, width, height, y0, y1, x0, x1));
    r.Ok? && Copied(r.value, tiles, sender, width, height, y0, y1, x0, x1)
  }

  /** The first row of an area applied gives the grid the remaining rows go to; once they are synced there, the area is. */
  lemma SyncHead(tiles: seq<seq<TileData>>, sender: seq<seq<TileData>>, width: int, height: int,
                 y0: int, y1: int, x0: int, x1: int) returns (mid: seq<seq<TileData>>)
    requires Shaped(tiles, width, height) && Shaped(sender, width, height) && y0 < y1
    ensures Shaped(mid, width, height)
    ensures AreaSynced(mid, sender, width, height, y0 + 1, y1, x0, x1) ==> AreaSynced(tiles, sender, width, height, y0, y1, x0, x1)
  {
    var row := RowEntries(sender, width, height, y0, x0, x1);
    var rest := AreaEntries(sender, width, height, y0 + 1, y1, x0, x1);
    ApplyRow(tiles, sender, width, height, y0, x0, x1);
    mid := ApplyEntries(tiles, width, height, row).value;
    ApplyAppend(tiles, width, height, row, rest);
    assert AreaEntries(sender, width, height, y0, y1, x0, x1) == row + rest;
    if AreaSynced(mid, sender, width, height, y0 + 1, y1, x0, x1) {
      var last := ApplyEntries(mid, width, height, rest).value;
      SyncCombine(tiles, mid, last, sender, width, height, y0, y1, x0, x1);
    }
  }

  /** Row y0 copied first and rows y0 + 1 .. y1 after it: together the rows y0 .. y1. */
  lemma SyncCombine(tiles: seq<seq<TileData>>, mid: seq<seq<TileData>>, last: seq<seq<TileData>>, sender: seq<seq<TileData>>,
                    width: int, height: int, y0: int, y1: int, x0: int, x1: int)
    requires Shaped(tiles, width, height) && Shaped(mid, width, height) && Shaped(last, width, height) && Shaped(sender, width, height)
    requires Copied(mid, tiles, sender, width, height, y0, y0 + 1, x0, x1)
    requires Copied(last, mid, sender, width, height, y0 + 1, y1, x0, x1)
    requires y0 < y1
    ensures Copied(last, tiles, sender, width, height, y0, y1, x0, x1)
  {
  }

  /** after holds the sender's tiles in rows y0 .. y1 - 1, columns x0 .. x1 - 1, and before's tiles elsewhere. */
  ghost predicate Copied(after: seq<seq<TileData>>, before: seq<seq<TileData>>, sender: seq<seq<TileData>>,
                         width: int, height: int, y0: int, y1: int, x0: int, x1: int)
    requires Shaped(after, width, height) && Shaped(before, width, height) && Shaped(sender, width, height)
  {
    forall x', y' :: (TileAt(after, width, height, x', y') ==
      if y0 <= y' < y1 && x0 <= x' < x1 then TileAt(sender, width, height, x', y') else TileAt(before, width, height, x', y'))
  }

  // ---------------------------------------------------------------------
  // Chunks

  /** The area _update_chunk_collision walks for a chunk: its bounds, clipped to the map. */
  function ChunkArea(width: int, height: int, chunkSize: int, k: (int, int)): (a: Area)
    ensures a.x0 == k.0 * chunkSize && a.y0 == k.1 * chunkSize
  {
    var (sx, sy, ex, ey) := ChunkBounds(width, height, chunkSize, k.0, k.1);
    Area(sx, sy, Count(ex - sx), Count(ey - sy))
  }

  lemma MulLess(a: int, b: int, c: int)
    requires a < b && 0 < c
    ensures a * c + c <= b * c
  {
    assert b * c - a * c == (b - a) * c;
    assert (b - a) * c >= c by { assert (b - a - 1) * c >= 0; }
  }

  /** The quotient of x by d is the only q with q * d <= x < q * d + d. */
  lemma DivUnique(x: int, d: int, q: int)
    requires 0 < d && q * d <= x < q * d + d
    ensures x / d == q
  {
    var q' := x / d;
    assert q' * d <= x < q' * d + d;
    if q' < q {
      MulLess(q', q, d);
    } else if q < q' {
      MulLess(q, q', d);
    }
  }

  /** A tile lies in the area of one chunk only: its own. */
  lemma InChunkArea(width: int, height: int, chunkSize: nat, k: (int, int), x: int, y: int)
    requires 0 < chunkSize && InArea(ChunkArea(width, height, chunkSize, k), x, y)
    ensures k == ChunkOf(x, y, chunkSize)
  {
    DivUnique(x, chunkSize, k.0);
    DivUnique(y, chunkSize, k.1);
  }

  /** Every tile of the map lies in the area of its chunk. */
  lemma OwnChunkArea(width: int, height: int, chunkSize: nat, x: int, y: int)
    requires 0 < chunkSize && 0 <= x < width && 0 <= y < height
    ensures InArea(ChunkArea(width, height, chunkSize, ChunkOf(x, y, chunkSize)), x, y)
  {
    TileInItsChunk(width, height, chunkSize, x, y);
  }

  /** The chunks _rebuild_collision visits: ceiling of the map's size over the chunk size, in each direction. */
  function ChunksAcross(n: int, chunkSize: nat): int
    requires 0 < chunkSize
  {
    (n + chunkSize - 1) / chunkSize
  }

  ghost function AllChunks(width: int, height: int, chunkSize: nat): set<(int, int)>
    requires 0 < chunkSize
  {
    set cx, cy | 0 <= cx < ChunksAcross(width, chunkSize) && 0 <= cy < ChunksAcross(height, chunkSize) :: (cx, cy)
  }

  /** The chunk of every tile of the map is one of those the rebuild visits. */
  lemma OwnChunkVisited(width: int, height: int, chunkSize: nat, x: int, y: int)
    requires 0 < chunkSize && 0 <= x < width && 0 <= y < height
    ensures ChunkOf(x, y, chunkSize) in AllChunks(width, height, chunkSize)
  {
    CeilingAbove(x, width, chunkSize);
    CeilingAbove(y, height, chunkSize);
  }

  lemma CeilingAbove(x: int, n: int, d: nat)
    requires 0 < d && 0 <= x < n
    ensures 0 <= x / d < ChunksAcross(n, d)
  {
    var q := x / d;
    var c := ChunksAcross(n, d);
    assert q * d + d <= x + d <= n + d - 1;
    assert n + d - 1 < c * d + d;
    if c <= q {
      if c < q { MulLess(c, q, d); }
    }
  }

  /** Same collision flag and type: the tiles look alike to the merge. */
  predicate SameKind(t: TileData, u: TileData)
  {
    t.collisionEnabled == u.collisionEnabled && t.tileType == u.tileType
  }

  /** Two grids of one size whose tiles look alike to the merge inside an area. */
  ghost predicate AlikeIn(tiles: seq<seq<TileData>>, tiles': seq<seq<TileData>>, width: int, height: int, a: Area)
    requires Shaped(tiles, width, height) && Shaped(tiles', width, height)
  {
    forall x, y :: InArea(a, x, y) && 0 <= x < width && 0 <= y < height ==> SameKind(tiles[y][x], tiles'[y][x])
  }

  /** A partition of an area depends only on what the merge sees there. */
  lemma PartitionFrame(tiles: seq<seq<TileData>>, tiles': seq<seq<TileData>>, width: int, height: int, a: Area, boxes: seq<Box>)
    requires Shaped(tiles, width, height) && Shaped(tiles', width, height)
    requires AlikeIn(tiles, tiles', width, height, a) && Partition(tiles, width, height, a, boxes)
    ensures Partition(tiles', width, height, a, boxes)
  {
    forall i | 0 <= i < |boxes|
      ensures GoodBox(tiles', width, height, a, boxes[i])
    {
      var b := boxes[i];
      forall x, y | InBox(b, x, y)
        ensures SolidOf(tiles', width, height, x, y, b.tileType)
      {
        assert SolidOf(tiles, width, height, x, y, b.tileType);
        assert InArea(a, x, y);
      }
    }
    forall x, y | InArea(a, x, y) && SolidAt(tiles', width, height, x, y)
      ensures Covered(boxes, x, y)
    {
      assert SolidAt(tiles, width, height, x, y);
    }
  }

  /** The collision map after a chunk's rectangles are replaced by a partition of its tiles. */
  ghost predicate ChunkRebuilt(tiles: seq<seq<TileData>>, width: int, height: int, chunkSize: int,
                               before: map<(int, int), seq<Box>>, after: map<(int, int), seq<Box>>, k: (int, int))
    requires Shaped(tiles, width, height)
  {
    k in after && after == before[k := after[k]]
    && Partition(tiles, width, height, ChunkArea(width, height, chunkSize, k), after[k])
  }

  /** The collision rectangles of each chunk in the map partition that chunk's current tiles. */
  ghost predicate Synced(tiles: seq<seq<TileData>>, width: int, height: int, chunkSize: int, collision: map<(int, int), seq<Box>>)
    requires Shaped(tiles, width, height)
  {
    forall k :: k in collision ==> Partition(tiles, width, height, ChunkArea(width, height, chunkSize, k), collision[k])
  }

  /**
   * Changing one tile leaves the rectangles of every other chunk valid,
   * and those of its own chunk too when the new tile looks alike to the
   * merge: which is why set_tile rebuilds only that chunk, and only then.
   */
  lemma PutKeepsOthers(tiles: seq<seq<TileData>>, width: int, height: int, chunkSize: nat,
                       collision: map<(int, int), seq<Box>>, x: int, y: int, t: TileData, k: (int, int))
    requires 0 < chunkSize && Shaped(tiles, width, height) && Synced(tiles, width, height, chunkSize, collision)
    requires 0 <= x < width && 0 <= y < height && k in collision
    requires k != ChunkOf(x, y, chunkSize) || SameKind(tiles[y][x], t)
    ensures Partition(Put(tiles, width, height, x, y, t), width, height, ChunkArea(width, height, chunkSize, k), collision[k])
  {
    var tiles' := Put(tiles, width, height, x, y, t);
    var a := ChunkArea(width, height, chunkSize, k);
    forall x', y' | InArea(a, x', y') && 0 <= x' < width && 0 <= y' < height
      ensures SameKind(tiles[y'][x'], tiles'[y'][x'])
    {
      assert TileAt(tiles', width, height, x', y') == if x' == x && y' == y then Some(t) else TileAt(tiles, width, height, x', y');
      if x' == x && y' == y && k != ChunkOf(x, y, chunkSize) {
        InChunkArea(width, height, chunkSize, k, x, y);
      }
    }
    PartitionFrame(tiles, tiles', width, height, a, collision[k]);
  }

  lemma PutKeepsSync(tiles: seq<seq<TileData>>, width: int, height: int, chunkSize: nat,
                     collision: map<(int, int), seq<Box>>, x: int, y: int, t: TileData)
    requires 0 < chunkSize && Shaped(tiles, width, height) && Synced(tiles, width, height, chunkSize, collision)
    requires 0 <= x < width && 0 <= y < height
    ensures var tiles' := Put(tiles, width, height, x, y, t);
      (SameKind(tiles[y][x], t) ==> Synced(tiles', width, height, chunkSize, collision))
      && Synced(tiles', width, height, chunkSize, collision - {ChunkOf(x, y, chunkSize)})
  {
    forall k | k in collision && (k != ChunkOf(x, y, chunkSize) || SameKind(tiles[y][x], t))
      ensures Partition(Put(tiles, width, height, x, y, t), width, height, ChunkArea(width, height, chunkSize, k), collision[k])
    {
      PutKeepsOthers(tiles, width, height, chunkSize, collision, x, y, t, k);
    }
  }

  /**
   * After a rebuild every colliding tile of the map is in a rectangle of
   * its own chunk, and a rectangle of any chunk holding it belongs to that
   * chunk: one shape per solid tile for the whole map.
   */
  lemma MapCovered(tiles: seq<seq<TileData>>, width: int, height: int, chunkSize: nat,
                   collision: map<(int, int), seq<Box>>, x: int, y: int)
    requires 0 < chunkSize && Shaped(tiles, width, height) && Synced(tiles, width, height, chunkSize, collision)
    requires AllChunks(width, height, chunkSize) <= collision.Keys && SolidAt(tiles, width, height, x, y)
    ensures ChunkOf(x, y, chunkSize) in collision && Covered(collision[ChunkOf(x, y, chunkSize)], x, y)
    ensures forall k, i :: k in collision && 0 <= i < |collision[k]| && InBox(collision[k][i], x, y) ==> k == ChunkOf(x, y, chunkSize)
  {
    OwnChunkVisited(width, height, chunkSize, x, y);
    OwnChunkArea(width, height, chunkSize, x, y);
    forall k, i | k in collision && 0 <= i < |collision[k]| && InBox(collision[k][i], x, y)
      ensures k == ChunkOf(x, y, chunkSize)
    {
      assert GoodBox(tiles, width, height, ChunkArea(width, height, chunkSize, k), collision[k][i]);
      InChunkArea(width, height, chunkSize, k, x, y);
    }
  }

  /** Two grids of one size that agree at every position are equal. */
  lemma GridsEqual(tiles: seq<seq<TileData>>, tiles': seq<seq<TileData>>, width: int, height: int)
    requires Shaped(tiles, width, height) && Shaped(tiles', width, height)
    requires forall x, y :: TileAt(tiles, width, height, x, y) == TileAt(tiles', width, height, x, y)
    ensures tiles == tiles'
  {
    forall y | 0 <= y < |tiles|
      ensures tiles[y] == tiles'[y]
    {
      forall x | 0 <= x < |tiles[y]|
        ensures tiles[y][x] == tiles'[y][x]
      {
        assert TileAt(tiles, width, height, x, y) == TileAt(tiles', width, height, x, y);
      }
    }
  }

  // ---------------------------------------------------------------------
  // Packets

  /** One entry of the packet's dirty_chunks: the chunk (its "x,y" key read back) and its tiles. */
  datatype ChunkPayload = ChunkPayload(key: (int, int), entries: seq<TileEntry>)

  /**
   * The dict serialize_for_network builds and deserialize_from_network
   * reads; a key the dict lacks is None.
   */
  datatype Packet = Packet(syncTiles: Option<bool>, width: Option<int>, height: Option<int>, tileSize: Option<int>,
                           chunkSize: Option<int>, collisionEnabled: Option<bool>, collisionType: Option<int>,
                           friction: Option<real>, elasticity: Option<real>, syncVersion: Option<int>,
                           dirtyChunks: Option<seq<ChunkPayload>>)

  /** What a component that does not sync tiles sends. */
  const NotSyncing: Packet := Packet(Some(false), None, None, None, None, None, None, None, None, None, None)

  function ChunkEntries(tiles: seq<seq<TileData>>, width: int, height: int, chunkSize: int, k: (int, int)): seq<TileEntry>
    requires Shaped(tiles, width, height)
  {
    var (sx, sy, ex, ey) := ChunkBounds(width, height, chunkSize, k.0, k.1);
    AreaEntries(tiles, width, height, sy, ey, sx, ex)
  }

  ghost predicate InChunk(width: int, height: int, chunkSize: int, k: (int, int), x: int, y: int)
  {
    var (sx, sy, ex, ey) := ChunkBounds(width, height, chunkSize, k.0, k.1);
    sx <= x < ex && sy <= y < ey
  }

  /** The entries of all chunks, chunk after chunk: the order deserialize_from_network sets them in. */
  function Flatten(ps: seq<ChunkPayload>): seq<TileEntry>
  {
    if |ps| == 0 then [] else ps[0].entries + Flatten(ps[1..])
  }

  function KeysOf(ps: seq<ChunkPayload>): set<(int, int)>
  {
    set i | 0 <= i < |ps| :: ps[i].key
  }

  ghost predicate Sent(ps: seq<ChunkPayload>, width: int, height: int, chunkSize: int, x: int, y: int)
  {
    exists i :: 0 <= i < |ps| && InChunk(width, height, chunkSize, ps[i].key, x, y)
  }

  /**
   * The network round trip of a packet: every tile in a chunk the sender
   * sent reads on the receiver as on the sender, and every other tile is
   * as the receiver had it.
   */
  lemma {:induction false} PacketRoundTrip(tiles: seq<seq<TileData>>, sender: seq<seq<TileData>>, width: int, height: int,
                                           chunkSize: int, ps: seq<ChunkPayload>)
    requires Shaped(tiles, width, height) && Shaped(sender, width, height)
    requires forall i :: 0 <= i < |ps| ==> ps[i].entries == ChunkEntries(sender, width, height, chunkSize, ps[i].key)
    ensures var r := ApplyEntries(tiles, width, height, Flatten(ps));
      r.Ok? && forall x, y :: (TileAt(r.value, width, height, x, y) ==
        if Sent(ps, width, height, chunkSize, x, y) then TileAt(sender, width, height, x, y) else TileAt(tiles, width, height, x, y))
    decreases |ps|
  {
    if |ps| > 0 {
      var (sx, sy, ex, ey) := ChunkBounds(width, height, chunkSize, ps[0].key.0, ps[0].key.1);
      ApplyAppend(tiles, width, height, ps[0].entries, Flatten(ps[1..]));
      SyncRoundTrip(tiles, sender, width, height, sy, ey, sx, ex);
      var mid := ApplyEntries(tiles, width, height, ps[0].entries).value;
      PacketRoundTrip(mid, sender, width, height, chunkSize, ps[1..]);
      forall x, y
        ensures Sent(ps, width, height, chunkSize, x, y) <==>
          InChunk(width, height, chunkSize, ps[0].key, x, y) || Sent(ps[1..], width, height, chunkSize, x, y)
      {
        if Sent(ps, width, height, chunkSize, x, y) {
          var i :| 0 <= i < |ps| && InChunk(width, height, chunkSize, ps[i].key, x, y);
          if i > 0 {
            assert ps[1..][i - 1] == ps[i];
          }
        }
        if Sent(ps[1..], width, height, chunkSize, x, y) {
          var i :| 0 <= i < |ps[1..]| && InChunk(width, height, chunkSize, ps[1..][i].key, x, y);
          assert ps[1..][i] == ps[i + 1];
        }
      }
      var r := ApplyEntries(mid, width, height, Flatten(ps[1..]));
      assert ApplyEntries(tiles, width, height, Flatten(ps)) == r;
      forall x, y
        ensures TileAt(r.value, width, height, x, y) ==
          if Sent(ps, width, height, chunkSize, x, y) then TileAt(sender, width, height, x, y) else TileAt(tiles, width, height, x, y)
      {
        assert TileAt(r.value, width, height, x, y) ==
          if Sent(ps[1..], width, height, chunkSize, x, y) then TileAt(sender, width, height, x, y) else TileAt(mid, width, height, x, y);
        assert TileAt(mid, width, height, x, y) ==
          if sy <= y < ey && sx <= x < ex then TileAt(sender, width, height, x, y) else TileAt(tiles, width, height, x, y);
      }
    }
  }

  /** The tile coordinate of a local position: Python's float floor division by the tile size. */
  function TileCoord(local: real, tileSize: int): (r: Result<int>)
    ensures tileSize == 0 <==> r.Err?
    ensures r.Err? ==> r.error.ZeroDivisionError?
    ensures r.Ok? && 0 < tileSize ==> (r.value * tileSize) as real <= local < ((r.value + 1) * tileSize) as real
  {
    if tileSize == 0 then Err(ZeroDivisionError("float divmod()"))
    else
      var q := (local / tileSize as real).Floor;
      if 0 < tileSize then
        FloorTimes(local, tileSize as real, q);
        Ok(q)
      else Ok(q)
  }

  lemma FloorTimes(n: real, d: real, q: int)
    requires 0.0 < d && q == (n / d).Floor
    ensures q as real * d <= n < (q + 1) as real * d
  {
    var f := n / d;
    assert f * d == n;
    assert q as real <= f < (q + 1) as real;
    assert (f - q as real) * d >= 0.0;
    assert ((q + 1) as real - f) * d > 0.0;
  }

  /**
   * The body of _update_chunk_collision on values: with live false (no
   * physics world, or collision off) the bodies stay; otherwise the chunk's
   * are replaced by a partition of its colliding tiles.
   */
  method ChunkCollision(tiles: seq<seq<TileData>>, width: int, height: int, chunkSize: int, live: bool,
                        collision: map<(int, int), seq<Box>>, k: (int, int)) returns (c: map<(int, int), seq<Box>>)
    requires Shaped(tiles, width, height)
    ensures !live ==> c == collision
    ensures live ==> ChunkRebuilt(tiles, width, height, chunkSize, collision, c, k)
    ensures Synced(tiles, width, height, chunkSize, collision) ==> Synced(tiles, width, height, chunkSize, c)
    ensures live && Synced(tiles, width, height, chunkSize, collision - {k}) ==> Synced(tiles, width, height, chunkSize, c)
  {
    if !live {
      return collision;
    }
    var boxes := Merge(tiles, width, height, ChunkArea(width, height, chunkSize, k));
    c := collision[k := boxes];
  }

  /**
   * What set_tile does to the tiles and the bodies at a position on the
   * map: the tile is replaced; when it now looks different to the merge
   * and the bodies are live, its chunk's bodies are rebuilt, otherwise
   * they stay; and bodies in sync with the tiles stay in sync.
   */
  ghost predicate Placed(tiles: seq<seq<TileData>>, collision: map<(int, int), seq<Box>>,
                         tiles': seq<seq<TileData>>, collision': map<(int, int), seq<Box>>,
                         width: int, height: int, chunkSize: nat, live: bool, x: int, y: int, t: TileData)
    requires 0 < chunkSize && Shaped(tiles, width, height) && 0 <= x < width && 0 <= y < height
  {
    Shaped(tiles', width, height) && tiles' == Put(tiles, width, height, x, y, t)
    && (!SameKind(tiles[y][x], t) && live ==> ChunkRebuilt(tiles', width, height, chunkSize, collision, collision', ChunkOf(x, y, chunkSize)))
    && (SameKind(tiles[y][x], t) || !live ==> collision' == collision)
    && (live && Synced(tiles, width, height, chunkSize, collision) ==> Synced(tiles', width, height, chunkSize, collision'))
  }

  /** The tile and collision part of set_tile for a position on the map. */
  method PlaceTile(tiles: seq<seq<TileData>>, width: int, height: int, chunkSize: nat, live: bool,
                   collision: map<(int, int), seq<Box>>, x: int, y: int, t: TileData)
    returns (tiles': seq<seq<TileData>>, c: map<(int, int), seq<Box>>)
    requires 0 < chunkSize && Shaped(tiles, width, height) && 0 <= x < width && 0 <= y < height
    ensures Placed(tiles, collision, tiles', c, width, height, chunkSize, live, x, y, t)
  {
    tiles' := Put(tiles, width, height, x, y, t);
    if Synced(tiles, width, height, chunkSize, collision) {
      PutKeepsSync(tiles, width, height, chunkSize, collision, x, y, t);
    }
    c := collision;
    if !SameKind(tiles[y][x], t) {
      c := ChunkCollision(tiles', width, height, chunkSize, live, collision, ChunkOf(x, y, chunkSize));
    }
  }

  /** The loops of _rebuild_collision on values: every chunk of the map, row of chunks by row of chunks. */
  method RebuildAll(tiles: seq<seq<TileData>>, width: int, height: int, chunkSize: nat) returns (c: map<(int, int), seq<Box>>)
    requires 0 < chunkSize && Shaped(tiles, width, height)
    ensures c.Keys == AllChunks(width, height, chunkSize) && Synced(tiles, width, height, chunkSize, c)
  {
    var nx := ChunksAcross(width, chunkSize);
    var ny := ChunksAcross(height, chunkSize);
    c := map[];
    var cy := 0;
    while cy < ny
      invariant 0 <= cy <= if ny < 0 then 0 else ny
      invariant forall k :: k in c <==> 0 <= k.0 < nx && 0 <= k.1 < cy
      invariant Synced(tiles, width, height, chunkSize, c)
    {
      var cx := 0;
      while cx < nx
        invariant 0 <= cx <= if nx < 0 then 0 else nx
        invariant forall k :: k in c <==> (0 <= k.0 < nx && 0 <= k.1 < cy) || (k.1 == cy && 0 <= k.0 < cx)
        invariant Synced(tiles, width, height, chunkSize, c)
      {
        c := ChunkCollision(tiles, width, height, chunkSize, true, c, (cx, cy));
        cx := cx + 1;
      }
      cy := cy + 1;
    }
    forall k | k in AllChunks(width, height, chunkSize)
      ensures k in c
    {
    }
    forall k | k in c
      ensures k in AllChunks(width, height, chunkSize)
    {
      assert k == (k.0, k.1);
    }
  }

  /** Every chunk of keys has rectangles, and they partition its tiles. */
  ghost predicate RebuiltOn(tiles: seq<seq<TileData>>, width: int, height: int, chunkSize: int,
                            c: map<(int, int), seq<Box>>, keys: set<(int, int)>)
    requires Shaped(tiles, width, height)
  {
    forall k :: k in keys ==> k in c && Partition(tiles, width, height, ChunkArea(width, height, chunkSize, k), c[k])
  }

  /** The loop of deserialize_from_network over the updated chunks, on values. */
  method RefreshAll(tiles: seq<seq<TileData>>, width: int, height: int, chunkSize: int, live: bool,
                    collision: map<(int, int), seq<Box>>, keys: set<(int, int)>) returns (c: map<(int, int), seq<Box>>)
    requires Shaped(tiles, width, height)
    ensures !live ==> c == collision
    ensures live ==> RebuiltOn(tiles, width, height, chunkSize, c, keys)
    ensures forall k :: k in collision && k !in keys ==> k in c && c[k] == collision[k]
    ensures Synced(tiles, width, height, chunkSize, collision) ==> Synced(tiles, width, height, chunkSize, c)
  {
    c := collision;
    if !live {
      return;
    }
    var rest := keys;
    while rest != {}
      invariant rest <= keys
      invariant RebuiltOn(tiles, width, height, chunkSize, c, keys - rest)
      invariant forall k :: k in collision && k !in keys - rest ==> k in c && c[k] == collision[k]
      invariant Synced(tiles, width, height, chunkSize, collision) ==> Synced(tiles, width, height, chunkSize, c)
      decreases |rest|
    {
      var k :| k in rest;
      ghost var before := c;
      c := ChunkCollision(tiles, width, height, chunkSize, true, c, k);
      assert c == before[k := c[k]];
      rest := rest - {k};
    }
  }

  /** The entries from chunk i on are chunk i's, then those of the chunks after it. */
  lemma FlattenAt(ps: seq<ChunkPayload>, i: nat)
    requires i < |ps|
    ensures Flatten(ps[i..]) == ps[i].entries + Flatten(ps[i + 1..])
  {
    assert ps[i..][0] == ps[i] && ps[i..][1..] == ps[i + 1..];
  }

  /** The keys of the first i + 1 chunks add chunk i's key. */
  lemma KeysOfNext(ps: seq<ChunkPayload>, i: nat)
    requires i < |ps|
    ensures KeysOf(ps[..i + 1]) == KeysOf(ps[..i]) + {ps[i].key}
  {
    assert ps[..i + 1] == ps[..i] + [ps[i]];
    KeysOfAppend(ps[..i], ps[i]);
  }

  lemma KeysOfAppend(ps: seq<ChunkPayload>, p: ChunkPayload)
    ensures KeysOf(ps + [p]) == KeysOf(ps) + {p.key}
  {
    var qs := ps + [p];
    forall k | k in KeysOf(qs)
      ensures k in KeysOf(ps) + {p.key}
    {
      var i :| 0 <= i < |qs| && qs[i].key == k;
      if i < |ps| {
        assert ps[i] == qs[i];
      }
    }
    forall k | k in KeysOf(ps) + {p.key}
      ensures k in KeysOf(qs)
    {
      if k == p.key {
        assert qs[|ps|] == p;
      } else {
        var i :| 0 <= i < |ps| && ps[i].key == k;
        assert qs[i] == ps[i];
      }
    }
  }

  /** No chunk is sent twice. */
  predicate DistinctKeys(ps: seq<ChunkPayload>)
  {
    forall i, j :: 0 <= i < j < |ps| ==> ps[i].key != ps[j].key
  }

  /** One more chunk, not sent yet, keeps the payloads distinct and each one its chunk's entries. */
  lemma PayloadAppend(tiles: seq<seq<TileData>>, width: int, height: int, chunkSize: int, ps: seq<ChunkPayload>, p: ChunkPayload)
    requires Shaped(tiles, width, height) && DistinctKeys(ps) && p.key !in KeysOf(ps)
    requires forall i :: 0 <= i < |ps| ==> ps[i].entries == ChunkEntries(tiles, width, height, chunkSize, ps[i].key)
    requires p.entries == ChunkEntries(tiles, width, height, chunkSize, p.key)
    ensures KeysOf(ps + [p]) == KeysOf(ps) + {p.key} && DistinctKeys(ps + [p])
    ensures forall i :: 0 <= i < |ps + [p]| ==> (ps + [p])[i].entries == ChunkEntries(tiles, width, height, chunkSize, (ps + [p])[i].key)
  {
    KeysOfAppend(ps, p);
    var qs := ps + [p];
    forall i, j | 0 <= i < j < |qs|
      ensures qs[i].key != qs[j].key
    {
      assert qs[i] == ps[i];
      if j < |ps| {
        assert qs[j] == ps[j];
      } else {
        assert ps[i].key in KeysOf(ps);
      }
    }
  }

  /** The loop of serialize_for_network over the dirty chunks, in the set's order. */
  method CollectChunks(tiles: seq<seq<TileData>>, width: int, height: int, chunkSize: int, chunks: set<(int, int)>)
    returns (ps: seq<ChunkPayload>)
    requires Shaped(tiles, width, height)
    ensures KeysOf(ps) == chunks && DistinctKeys(ps)
    ensures forall i :: 0 <= i < |ps| ==> ps[i].entries == ChunkEntries(tiles, width, height, chunkSize, ps[i].key)
  {
    ps := [];
    var rest := chunks;
    while rest != {}
      invariant rest <= chunks && KeysOf(ps) == chunks - rest && DistinctKeys(ps)
      invariant forall i :: 0 <= i < |ps| ==> ps[i].entries == ChunkEntries(tiles, width, height, chunkSize, ps[i].key)
      decreases |rest|
    {
      var k :| k in rest;
      var (sx, sy, ex, ey) := ChunkBounds(width, height, chunkSize, k.0, k.1);
      var entries := CollectEntries(tiles, width, height, sy, ey, sx, ex);
      PayloadAppend(tiles, width, height, chunkSize, ps, ChunkPayload(k, entries));
      ps := ps + [ChunkPayload(k, entries)];
      rest := rest - {k};
    }
  }

  class TilemapComponent {
    const width: int
    const height: int
    const tileSize: int
    const chunkSize: int
    const defaultTile: TileData
    var tiles: seq<seq<TileData>>
    var collisionEnabled: bool
    var collisionType: int
    var friction: real
    var elasticity: real
    /** The rectangles whose pymunk bodies and shapes collision_bodies and collision_shapes hold, by chunk. */
    var collision: map<(int, int), seq<Box>>
    /** Whether physics_world is set. */
    var physicsWorld: bool
    var syncTiles: bool
    var dirtyChunks: set<(int, int)>
    var lastSyncVersion: int
    var syncVersion: int
    /** _cache_dirty: the chunks whose render surface is stale. */
    var cacheDirty: set<(int, int)>

    ghost predicate Valid()
      reads this
    {
      Shaped(tiles, width, height) && 0 < chunkSize
    }

    /** The collision rectangles are up to date with the tiles. */
    ghost predicate InSync()
      reads this
      requires Valid()
    {
      Synced(tiles, width, height, chunkSize, collision)
    }

    /**
     * TilemapComponent(width, height, tile_size, default_tile, chunk_size):
     * every tile a copy of the default tile (an EMPTY one when none is
     * given), collision on with no bodies yet, sync on at version 0.
     */
    constructor (width: int, height: int, tileSize: int, defaultTile: Option<TileData>, chunkSize: int)
      requires 0 < chunkSize
      ensures Valid() && InSync()
      ensures this.width == width && this.height == height && this.tileSize == tileSize && this.chunkSize == chunkSize
      ensures this.defaultTile == if defaultTile.Some? then defaultTile.value else NewTile(Empty, None, None, None)
      ensures tiles == Filled(Count(height), Count(width), this.defaultTile)
      ensures collisionEnabled && collisionType == 1 && friction == 0.7 && elasticity == 0.0
      ensures collision == map[] && !physicsWorld
      ensures syncTiles && dirtyChunks == {} && lastSyncVersion == 0 && syncVersion == 0 && cacheDirty == {}
    {
      this.width, this.height, this.tileSize, this.chunkSize := width, height, tileSize, chunkSize;
      var d := if defaultTile.Some? then defaultTile.value else NewTile(Empty, None, None, None);
      this.defaultTile := d;
      var grid := InitialTiles(width, height, d);
      tiles := grid;
      collisionEnabled, collisionType, friction, elasticity := true, 1, 0.7, 0.0;
      collision, physicsWorld := map[], false;
      syncTiles, dirtyChunks, lastSyncVersion, syncVersion := true, {}, 0, 0;
      cacheDirty := {};
    }

    /**
     * _update_chunk_collision: without a physics world or with collision
     * off nothing changes; otherwise the chunk's bodies are replaced by a
     * partition of its colliding tiles.
     */
    method UpdateChunkCollision(k: (int, int))
      requires Valid()
      modifies this
      ensures Valid() && tiles == old(tiles)
      ensures !physicsWorld || !collisionEnabled ==> collision == old(collision)
      ensures physicsWorld && collisionEnabled ==> ChunkRebuilt(tiles, width, height, chunkSize, old(collision), collision, k)
      ensures old(InSync()) ==> InSync()
      ensures collisionEnabled == old(collisionEnabled) && collisionType == old(collisionType)
      ensures friction == old(friction) && elasticity == old(elasticity) && physicsWorld == old(physicsWorld)
      ensures syncTiles == old(syncTiles) && dirtyChunks == old(dirtyChunks) && cacheDirty == old(cacheDirty)
      ensures lastSyncVersion == old(lastSyncVersion) && syncVersion == old(syncVersion)
    {
      collision := ChunkCollision(tiles, width, height, chunkSize, physicsWorld && collisionEnabled, collision, k);
    }

    /**
     * set_tile: on the map, the tile is replaced, its chunk's render cache
     * marked, its chunk's collision rebuilt when the flag or the type
     * changed, and, when asked and syncing, the chunk marked for the
     * network under a new version. Off the map nothing changes.
     */
    method SetTile(x: int, y: int, t: TileData, syncNetwork: bool)
      requires Valid()
      modifies this
      ensures Valid()
      ensures !(0 <= x < width && 0 <= y < height) ==> unchanged(this)
      ensures 0 <= x < width && 0 <= y < height ==> cacheDirty == old(cacheDirty) + {ChunkOf(x, y, chunkSize as nat)}
      ensures 0 <= x < width && 0 <= y < height && syncNetwork && syncTiles ==>
        dirtyChunks == old(dirtyChunks) + {ChunkOf(x, y, chunkSize as nat)} && syncVersion == old(syncVersion) + 1
      ensures !(syncNetwork && syncTiles) ==> dirtyChunks == old(dirtyChunks) && syncVersion == old(syncVersion)
      ensures 0 <= x < width && 0 <= y < height ==>
        Placed(old(tiles), old(collision), tiles, collision, width, height, chunkSize, physicsWorld && collisionEnabled, x, y, t)
      ensures collisionEnabled == old(collisionEnabled) && collisionType == old(collisionType)
      ensures friction == old(friction) && elasticity == old(elasticity) && physicsWorld == old(physicsWorld)
      ensures syncTiles == old(syncTiles) && lastSyncVersion == old(lastSyncVersion)
    {
      if !(0 <= x < width && 0 <= y < height) {
        return;
      }
      var k := ChunkOf(x, y, chunkSize as nat);
      var marked := syncNetwork && syncTiles;
      var tiles', collision' := PlaceTile(tiles, width, height, chunkSize, physicsWorld && collisionEnabled, collision, x, y, t);
      tiles, cacheDirty, collision := tiles', cacheDirty + {k}, collision';
      dirtyChunks, syncVersion := if marked then dirtyChunks + {k} else dirtyChunks, if marked then syncVersion + 1 else syncVersion;
    }

    /** The collision and sync settings, which only deserialize_from_network changes. */
    ghost function Settings(): (bool, int, real, real, bool)
      reads this
    {
      (collisionEnabled, collisionType, friction, elasticity, syncTiles)
    }

    /** The network bookkeeping. */
    ghost function Versions(): (set<(int, int)>, int, int)
      reads this
    {
      (dirtyChunks, lastSyncVersion, syncVersion)
    }

    /**
     * _rebuild_collision: every body is removed; then, with a physics world
     * and collision on, every chunk of the map gets a partition of its
     * colliding tiles.
     */
    method RebuildCollision()
      requires Valid()
      modifies this
      ensures Valid() && tiles == old(tiles) && cacheDirty == old(cacheDirty) && physicsWorld == old(physicsWorld)
      ensures Settings() == old(Settings()) && Versions() == old(Versions())
      ensures physicsWorld && collisionEnabled ==>
        collision.Keys == AllChunks(width, height, chunkSize) && Synced(tiles, width, height, chunkSize, collision)
      ensures !(physicsWorld && collisionEnabled) ==> collision == map[]
    {
      collision := map[];
      if !physicsWorld || !collisionEnabled {
        return;
      }
      var c := RebuildAll(tiles, width, height, chunkSize);
      collision := c;
    }

    /** on_added: a game with a physics world gives the component one, and builds every chunk's bodies when collision is on. */
    method OnAdded(worldPresent: bool)
      requires Valid()
      modifies this
      ensures Valid() && tiles == old(tiles) && cacheDirty == old(cacheDirty)
      ensures Settings() == old(Settings()) && Versions() == old(Versions())
      ensures physicsWorld == (old(physicsWorld) || worldPresent)
      ensures worldPresent && collisionEnabled ==>
        collision.Keys == AllChunks(width, height, chunkSize) && Synced(tiles, width, height, chunkSize, collision)
      ensures !(worldPresent && collisionEnabled) ==> collision == old(collision)
    {
      if worldPresent {
        physicsWorld := true;
        if collisionEnabled {
          RebuildCollision();
        }
      }
    }

    /** on_removed (_cleanup_physics): every body goes; the physics world stays set. */
    method OnRemoved()
      requires Valid()
      modifies this
      ensures Valid() && collision == map[] && tiles == old(tiles) && cacheDirty == old(cacheDirty) && physicsWorld == old(physicsWorld)
      ensures Settings() == old(Settings()) && Versions() == old(Versions())
    {
      collision := map[];
    }

    /** update: a moved actor rebuilds the bodies when collision is on. */
    method Update(hasActor: bool, transformDirty: bool)
      requires Valid()
      modifies this
      ensures Valid() && tiles == old(tiles) && cacheDirty == old(cacheDirty) && physicsWorld == old(physicsWorld)
      ensures Settings() == old(Settings()) && Versions() == old(Versions())
      ensures hasActor && transformDirty && collisionEnabled && physicsWorld ==>
        collision.Keys == AllChunks(width, height, chunkSize) && Synced(tiles, width, height, chunkSize, collision)
      ensures hasActor && transformDirty && collisionEnabled && !physicsWorld ==> collision == map[]
      ensures !(hasActor && transformDirty && collisionEnabled) ==> collision == old(collision)
    {
      if hasActor && transformDirty && collisionEnabled {
        RebuildCollision();
      }
    }

    /**
     * get_tile_at_world_pos: None without an actor; otherwise the tile
     * whose square, relative to the actor's position, holds the point.
     */
    function GetTileAtWorldPos(actor: Option<(real, real)>, wx: real, wy: real): (r: Result<Option<TileData>>)
      reads this
      requires Valid()
      ensures actor.None? ==> r == Ok(None)
      ensures actor.Some? ==> (r.Err? <==> tileSize == 0)
      ensures r.Ok? && r.value.Some? && actor.Some? && 0 < tileSize ==>
        exists tx, ty :: 0 <= tx < width && 0 <= ty < height && r.value == Some(tiles[ty][tx])
          && (tx * tileSize) as real <= wx - actor.value.0 < ((tx + 1) * tileSize) as real
          && (ty * tileSize) as real <= wy - actor.value.1 < ((ty + 1) * tileSize) as real
    {
      if actor.None? then Ok(None)
      else
        var cx := TileCoord(wx - actor.value.0, tileSize);
        var cy := TileCoord(wy - actor.value.1, tileSize);
        // both coordinates divide by the tile size, so they fail together
        if cx.Err? then Err(cx.error)
        else Ok(TileAt(tiles, width, height, cx.value, cy.value))
    }

    /** set_tile_at_world_pos: set_tile at the tile whose square holds the point; nothing without an actor. */
    method SetTileAtWorldPos(actor: Option<(real, real)>, wx: real, wy: real, t: TileData, syncNetwork: bool) returns (r: Result<bool>)
      requires Valid()
      modifies this
      ensures Valid()
      ensures actor.None? ==> r == Ok(false) && unchanged(this)
      ensures actor.Some? ==> (r.Err? <==> tileSize == 0) && (r.Err? ==> r.error.ZeroDivisionError? && unchanged(this))
      ensures r == Ok(true) ==>
        tiles == Put(old(tiles), width, height, TileCoord(wx - actor.value.0, tileSize).value, TileCoord(wy - actor.value.1, tileSize).value, t)
      ensures Settings() == old(Settings()) && physicsWorld == old(physicsWorld)
    {
      if actor.None? {
        return Ok(false);
      }
      var cx := TileCoord(wx - actor.value.0, tileSize);
      var cy := TileCoord(wy - actor.value.1, tileSize);
      if cx.Err? {
        return Err(cx.error);
      }
      SetTile(cx.value, cy.value, t, syncNetwork);
      r := Ok(true);
    }

    /**
     * serialize_for_network: only the flag when not syncing; otherwise the
     * settings, the version, and for each dirty chunk, once, the entries of
     * its tiles.
     */
    method SerializeForNetwork() returns (p: Packet)
      requires Valid()
      ensures !syncTiles ==> p == NotSyncing
      ensures syncTiles ==>
        p.syncTiles == Some(true) && p.width == Some(width) && p.height == Some(height) && p.tileSize == Some(tileSize)
        && p.chunkSize == Some(chunkSize) && p.collisionEnabled == Some(collisionEnabled) && p.collisionType == Some(collisionType)
        && p.friction == Some(friction) && p.elasticity == Some(elasticity) && p.syncVersion == Some(syncVersion)
        && p.dirtyChunks.Some? && KeysOf(p.dirtyChunks.value) == dirtyChunks && DistinctKeys(p.dirtyChunks.value)
        && forall i :: 0 <= i < |p.dirtyChunks.value| ==>
             p.dirtyChunks.value[i].entries == ChunkEntries(tiles, width, height, chunkSize, p.dirtyChunks.value[i].key)
    {
      if !syncTiles {
        return NotSyncing;
      }
      var ps := CollectChunks(tiles, width, height, chunkSize, dirtyChunks);
      p := Packet(Some(syncTiles), Some(width), Some(height), Some(tileSize), Some(chunkSize), Some(collisionEnabled),
                  Some(collisionType), Some(friction), Some(elasticity), Some(syncVersion), Some(ps));
    }

    /** The inner loop of deserialize_from_network: each entry's tile set in turn, without network marks. */
    method ApplyChunk(es: seq<TileEntry>) returns (r: Result<bool>)
      requires Valid()
      modifies this
      ensures Valid() && Settings() == old(Settings()) && Versions() == old(Versions()) && physicsWorld == old(physicsWorld)
      ensures var a := ApplyEntries(old(tiles), width, height, es);
        (a.Ok? ==> r.Ok? && tiles == a.value) && (a.Err? ==> r == Err(a.error))
      ensures physicsWorld && collisionEnabled && Synced(old(tiles), width, height, chunkSize, old(collision)) ==>
        Synced(tiles, width, height, chunkSize, collision)
      ensures old(cacheDirty) <= cacheDirty
    {
      var j := 0;
      while j < |es|
        invariant 0 <= j <= |es| && Valid()
        invariant Settings() == old(Settings()) && Versions() == old(Versions()) && physicsWorld == old(physicsWorld)
        invariant ApplyEntries(old(tiles), width, height, es) == ApplyEntries(tiles, width, height, es[j..])
        invariant physicsWorld && collisionEnabled && Synced(old(tiles), width, height, chunkSize, old(collision)) ==>
          Synced(tiles, width, height, chunkSize, collision)
        invariant old(cacheDirty) <= cacheDirty
      {
        assert es[j..][0] == es[j] && es[j..][1..] == es[j + 1..];
        var t := FromDict(es[j].data);
        if t.Err? {
          return Err(t.error);
        }
        SetTile(es[j].x, es[j].y, t.value, false);
        j := j + 1;
      }
      return Ok(true);
    }

    /** The outer loop of deserialize_from_network: the chunks in order, and the set of those done. */
    method ApplyPayloads(ps: seq<ChunkPayload>) returns (r: Result<bool>, updated: set<(int, int)>)
      requires Valid()
      modifies this
      ensures Valid() && Settings() == old(Settings()) && Versions() == old(Versions()) && physicsWorld == old(physicsWorld)
      ensures var a := ApplyEntries(old(tiles), width, height, Flatten(ps));
        (a.Ok? ==> r.Ok? && tiles == a.value && updated == KeysOf(ps)) && (a.Err? ==> r == Err(a.error))
      ensures physicsWorld && collisionEnabled && Synced(old(tiles), width, height, chunkSize, old(collision)) ==>
        Synced(tiles, width, height, chunkSize, collision)
      ensures old(cacheDirty) <= cacheDirty
    {
      ghost var t0, c0, s0, v0, d0 := tiles, collision, Settings(), Versions(), cacheDirty;
      updated := {};
      var i := 0;
      assert ps[..0] == [];
      while i < |ps|
        invariant 0 <= i <= |ps|
        invariant Kept(t0, c0, s0, v0, old(physicsWorld), d0)
        invariant ApplyEntries(t0, width, height, Flatten(ps)) == ApplyEntries(tiles, width, height, Flatten(ps[i..]))
        invariant updated == KeysOf(ps[..i])
      {
        FlattenAt(ps, i);
        ApplyAppend(tiles, width, height, ps[i].entries, Flatten(ps[i + 1..]));
        var c := ApplyChunk(ps[i].entries);
        if c.Err? {
          return Err(c.error), updated;
        }
        KeysOfNext(ps, i);
        updated := updated + {ps[i].key};
        i := i + 1;
      }
      assert ps[i..] == [] && ps[..i] == ps;
      r := Ok(true);
    }

    /** What the chunk loop of deserialize_from_network keeps from the state it started in. */
    ghost predicate Kept(t0: seq<seq<TileData>>, c0: map<(int, int), seq<Box>>, s0: (bool, int, real, real, bool),
                         v0: (set<(int, int)>, int, int), pw0: bool, d0: set<(int, int)>)
      reads this
    {
      && Valid() && Shaped(t0, width, height) && Settings() == s0 && Versions() == v0 && physicsWorld == pw0 && d0 <= cacheDirty
      && (physicsWorld && collisionEnabled && Synced(t0, width, height, chunkSize, c0) ==>
          Synced(tiles, width, height, chunkSize, collision))
    }

    /** The dirty_chunks part of deserialize_from_network: the tiles in order, then the bodies of the chunks updated. */
    method SyncChunks(ps: seq<ChunkPayload>) returns (r: Result<bool>)
      requires Valid()
      modifies this
      ensures Valid() && Settings() == old(Settings()) && Versions() == old(Versions()) && physicsWorld == old(physicsWorld)
      ensures var a := ApplyEntries(old(tiles), width, height, Flatten(ps));
        (a.Ok? ==> r == Ok(true) && tiles == a.value) && (a.Err? ==> r == Err(a.error))
      ensures r.Ok? && physicsWorld && collisionEnabled ==> RebuiltOn(tiles, width, height, chunkSize, collision, KeysOf(ps))
      ensures physicsWorld && collisionEnabled && Synced(old(tiles), width, height, chunkSize, old(collision)) ==>
        Synced(tiles, width, height, chunkSize, collision)
      ensures old(cacheDirty) <= cacheDirty
    {
      var applied, updated := ApplyPayloads(ps);
      if applied.Err? {
        return Err(applied.error);
      }
      var c := RefreshAll(tiles, width, height, chunkSize, physicsWorld && collisionEnabled, collision, updated);
      collision := c;
      r := Ok(true);
    }

    /**
     * deserialize_from_network: nothing when the packet says it does not
     * sync; otherwise the settings it carries, then its chunks' tiles in
     * order (an unknown tile type stops with its ValueError), then the
     * bodies of those chunks, the version it carries and no dirty chunk.
     */
    method DeserializeFromNetwork(p: Packet) returns (r: Result<bool>)
      requires Valid()
      modifies this
      ensures Valid() && physicsWorld == old(physicsWorld) && syncTiles == old(syncTiles) && syncVersion == old(syncVersion)
      ensures p.syncTiles == Some(false) ==> r == Ok(false) && unchanged(this)
      ensures p.syncTiles != Some(false) ==>
        collisionEnabled == p.collisionEnabled.GetOr(old(collisionEnabled)) && collisionType == p.collisionType.GetOr(old(collisionType))
        && friction == p.friction.GetOr(old(friction)) && elasticity == p.elasticity.GetOr(old(elasticity))
      ensures p.syncTiles != Some(false) ==>
        var a := if p.dirtyChunks.Some? then ApplyEntries(old(tiles), width, height, Flatten(p.dirtyChunks.value)) else Ok(old(tiles));
        (a.Err? ==> r == Err(a.error) && dirtyChunks == old(dirtyChunks) && lastSyncVersion == old(lastSyncVersion))
        && (a.Ok? ==> r == Ok(true) && tiles == a.value && dirtyChunks == {} && lastSyncVersion == p.syncVersion.GetOr(old(lastSyncVersion)))
      ensures r == Ok(true) && p.dirtyChunks.Some? && physicsWorld && collisionEnabled ==>
        RebuiltOn(tiles, width, height, chunkSize, collision, KeysOf(p.dirtyChunks.value))
      ensures physicsWorld && collisionEnabled && Synced(old(tiles), width, height, chunkSize, old(collision)) ==>
        Synced(tiles, width, height, chunkSize, collision)
      ensures old(cacheDirty) <= cacheDirty
    {
      if p.syncTiles == Some(false) {
        return Ok(false);
      }
      collisionEnabled, collisionType, friction, elasticity :=
        p.collisionEnabled.GetOr(collisionEnabled), p.collisionType.GetOr(collisionType),
        p.friction.GetOr(friction), p.elasticity.GetOr(elasticity);
      assert tiles == old(tiles) && collision == old(collision);
      if p.dirtyChunks.Some? {
        var synced := SyncChunks(p.dirtyChunks.value);
        if synced.Err? {
          return synced;
        }
      }
      lastSyncVersion, dirtyChunks := p.syncVersion.GetOr(lastSyncVersion), {};
      r := Ok(true);
    }

    /**
     * load_from_data: the data must have one row per tile row and, in its
     * first row, one id per column (ValueError otherwise, IndexError for an
     * empty list); each tile becomes its id's mapped tile, row by row (a
     * short later row is an IndexError), and the bodies are rebuilt.
     */
    method LoadFromData(data: seq<seq<int>>, mappings: map<int, TileData>) returns (r: Result<bool>)
      requires Valid()
      modifies this
      ensures Valid() && Settings() == old(Settings()) && Versions() == old(Versions()) && physicsWorld == old(physicsWorld)
      ensures |data| != height ==> r == Err(ValueError("Tilemap data dimensions don't match component dimensions")) && unchanged(this)
      ensures |data| == height == 0 ==> r == Err(IndexError("list index out of range")) && unchanged(this)
      ensures |data| == height && 0 < |data| && |data[0]| != width ==>
        r == Err(ValueError("Tilemap data dimensions don't match component dimensions")) && unchanged(this)
      ensures r.Ok? <==> |data| == height && 0 < |data| && |data[0]| == width && forall y :: 0 <= y < |data| ==> width <= |data[y]|
      ensures r.Err? && |data| == height && 0 < |data| && |data[0]| == width ==> r == Err(IndexError("list index out of range"))
      ensures r.Ok? ==> tiles == Loaded(data, width, height, mappings, defaultTile)
      ensures r.Ok? && physicsWorld && collisionEnabled ==>
        collision.Keys == AllChunks(width, height, chunkSize) && Synced(tiles, width, height, chunkSize, collision)
      ensures r.Ok? && !(physicsWorld && collisionEnabled) ==> collision == map[]
      ensures old(cacheDirty) <= cacheDirty
    {
      if |data| != height {
        return Err(ValueError("Tilemap data dimensions don't match component dimensions"));
      }
      if |data| == 0 {
        return Err(IndexError("list index out of range"));
      }
      if |data[0]| != width {
        return Err(ValueError("Tilemap data dimensions don't match component dimensions"));
      }
      var y := 0;
      while y < height
        invariant 0 <= y <= height && Valid()
        invariant Settings() == old(Settings()) && Versions() == old(Versions()) && physicsWorld == old(physicsWorld)
        invariant old(cacheDirty) <= cacheDirty
        invariant forall y' :: 0 <= y' < y ==> width <= |data[y']|
        invariant forall y', x' :: 0 <= y' < y && 0 <= x' < width ==> tiles[y'][x'] == TileFor(mappings, defaultTile, data[y'][x'])
      {
        var x := 0;
        while x < width
          invariant 0 <= x <= width && Valid()
          invariant Settings() == old(Settings()) && Versions() == old(Versions()) && physicsWorld == old(physicsWorld)
          invariant old(cacheDirty) <= cacheDirty
          invariant x <= |data[y]|
          invariant forall y', x' :: 0 <= y' < y && 0 <= x' < width ==> tiles[y'][x'] == TileFor(mappings, defaultTile, data[y'][x'])
          invariant forall x' :: 0 <= x' < x ==> tiles[y][x'] == TileFor(mappings, defaultTile, data[y][x'])
        {
          if |data[y]| <= x {
            return Err(IndexError("list index out of range"));
          }
          ghost var before := tiles;
          SetTile(x, y, TileFor(mappings, defaultTile, data[y][x]), false);
          forall y', x' | 0 <= y' < height && 0 <= x' < width
            ensures tiles[y'][x'] == if y' == y && x' == x then TileFor(mappings, defaultTile, data[y][x]) else before[y'][x']
          {
            assert TileAt(tiles, width, height, x', y') == Some(tiles[y'][x']);
          }
          x := x + 1;
        }
        y := y + 1;
      }
      RebuildCollision();
      var loaded := Loaded(data, width, height, mappings, defaultTile);
      forall x', y'
        ensures TileAt(tiles, width, height, x', y') == TileAt(loaded, width, height, x', y')
      {
      }
      GridsEqual(tiles, loaded, width, height);
      r := Ok(true);
    }

    /** to_data_array: the type value of every tile, row by row. */
    method ToDataArray() returns (data: seq<seq<int>>)
      requires Valid()
      ensures |data| == Count(height) && forall y :: 0 <= y < |data| ==> |data[y]| == Count(width)
      ensures forall y, x :: 0 <= y < |data| && 0 <= x < Count(width) ==> data[y][x] == tiles[y][x].tileType.Value()
    {
      data := TypeValues(tiles, width, height);
    }
  }
}
