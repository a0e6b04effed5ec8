/**
 * Tilemap of game/components/tilemap.py: a registry of tile images by id
 * and a flat list of cells, the cell (x, y) at index x + y * width.
 *
 * As written the list starts empty and nothing fills it, so every cell a
 * bounds check lets through is missing from it. The corrected map starts
 * with one empty cell per position, which the class's main constructor
 * builds; the constructor AsWritten keeps the empty list.
 */
module SimpleTilemaps {
  import opened Wrappers

  datatype Tile = Tile(image: string)

  predicate InBounds(width: int, height: int, x: int, y: int)
  {
    0 <= x < width && 0 <= y < height
  }

  /** The index of a cell in the flat list: distinct cells of the grid get distinct indices below width * height. */
  function Index(width: int, x: int, y: int): int
  {
    x + y * width
  }

  lemma IndexInGrid(width: int, height: int, x: int, y: int)
    requires InBounds(width, height, x, y)
    ensures 0 <= Index(width, x, y) < width * height
  {
    assert 0 <= y * width by { MulNonNegative(y, width); }
    assert (y + 1) * width <= height * width by { MulMonotone(y + 1, height, width); }
  }

  lemma IndexInjective(width: int, height: int, x: int, y: int, x': int, y': int)
    requires InBounds(width, height, x, y) && InBounds(width, height, x', y')
    requires Index(width, x, y) == Index(width, x', y')
    ensures x == x' && y == y'
  {
    if y < y' {
      MulMonotone(y + 1, y', width);
    } else if y' < y {
      MulMonotone(y' + 1, y, width);
    }
  }

  lemma MulNonNegative(a: int, b: int)
    requires 0 <= a && 0 <= b
    ensures 0 <= a * b
  {
  }

  lemma MulMonotone(a: int, b: int, c: int)
    requires a <= b && 0 <= c
    ensures a * c <= b * c
  {
    assert b * c - a * c == (b - a) * c;
    MulNonNegative(b - a, c);
  }

  /** The cell list of the corrected map: one empty cell per position. */
  function Blank(width: int, height: int): (r: seq<Option<Tile>>)
    ensures |r| == if 0 < width && 0 < height then width * height else 0
    ensures forall i :: 0 <= i < |r| ==> r[i].None?
  {
    if 0 < width && 0 < height then Empties(width * height) else []
  }

  function Empties(n: nat): (r: seq<Option<Tile>>)
    ensures |r| == n && forall i :: 0 <= i < n ==> r[i].None?
  {
    if n == 0 then [] else Empties(n - 1) + [None]
  }

  /** get_tile: the cell, or an IndexError for a position outside the grid or an index past the list. */
  function Lookup(mapData: seq<Option<Tile>>, width: int, height: int, x: int, y: int): (r: Result<Option<Tile>>)
    ensures !InBounds(width, height, x, y) ==> r == Err(IndexError("Tile position out of bounds"))
    ensures r.Ok? <==> InBounds(width, height, x, y) && 0 <= Index(width, x, y) < |mapData|
    ensures r.Ok? ==> r.value == mapData[Index(width, x, y)]
  {
    if !InBounds(width, height, x, y) then Err(IndexError("Tile position out of bounds"))
    else if Index(width, x, y) < 0 || Index(width, x, y) >= |mapData| then Err(IndexError("list index out of range"))
    else Ok(mapData[Index(width, x, y)])
  }

  /** set_tile: an unregistered id is refused before the position is looked at. */
  function Store(mapData: seq<Option<Tile>>, tiles: map<string, Tile>, width: int, height: int, x: int, y: int, id: string)
    : (r: Result<seq<Option<Tile>>>)
    ensures id !in tiles ==> r.Err? && r.error.ValueError?
    ensures id in tiles && !InBounds(width, height, x, y) ==> r == Err(IndexError("Tile position out of bounds"))
    ensures r.Ok? <==> id in tiles && InBounds(width, height, x, y) && 0 <= Index(width, x, y) < |mapData|
    ensures r.Ok? ==> r.value == mapData[Index(width, x, y) := Some(tiles[id])]
  {
    if id !in tiles then Err(ValueError("Tile ID '" + id + "' not registered"))
    else if !InBounds(width, height, x, y) then Err(IndexError("Tile position out of bounds"))
    else if Index(width, x, y) < 0 || Index(width, x, y) >= |mapData| then Err(IndexError("list assignment index out of range"))
    else Ok(mapData[Index(width, x, y) := Some(tiles[id])])
  }

  /** As written, the empty list makes every in-bounds read and write fail. */
  lemma EmptyMapAlwaysFails(tiles: map<string, Tile>, width: int, height: int, x: int, y: int, id: string)
    requires InBounds(width, height, x, y)
    ensures Lookup([], width, height, x, y) == Err(IndexError("list index out of range"))
    ensures Store([], tiles, width, height, x, y, id).Err?
  {
  }

  /** The corrected map: a fresh cell reads as empty, and a cell reads back the tile last stored in it. */
  lemma BlankCellsAreEmpty(width: int, height: int, x: int, y: int)
    requires InBounds(width, height, x, y)
    ensures Lookup(Blank(width, height), width, height, x, y) == Ok(None)
  {
    IndexInGrid(width, height, x, y);
  }

  lemma StoreThenLookup(mapData: seq<Option<Tile>>, tiles: map<string, Tile>, width: int, height: int, x: int, y: int, id: string, x': int, y': int)
    requires |mapData| == width * height && id in tiles && InBounds(width, height, x, y) && InBounds(width, height, x', y')
    ensures Store(mapData, tiles, width, height, x, y, id).Ok?
    ensures var m := Store(mapData, tiles, width, height, x, y, id).value;
      Lookup(m, width, height, x', y') == if x == x' && y == y' then Ok(Some(tiles[id])) else Lookup(mapData, width, height, x', y')
  {
    IndexInGrid(width, height, x, y);
    IndexInGrid(width, height, x', y');
    if x != x' || y != y' {
      if Index(width, x, y) == Index(width, x', y') {
        IndexInjective(width, height, x, y, x', y');
      }
    }
  }

  class Tilemap {
    const width: int
    const height: int
    const tileSize: int
    var tiles: map<string, Tile>
    var mapData: seq<Option<Tile>>

    /** Tilemap(width, height, tile_size) as written: no registered tiles and an empty cell list. */
    constructor AsWritten(width: int, height: int, tileSize: int)
      ensures this.width == width && this.height == height && this.tileSize == tileSize
      ensures tiles == map[] && mapData == []
    {
      this.width, this.height, this.tileSize := width, height, tileSize;
      tiles := map[];
      mapData := [];
    }

    /** The corrected constructor: one empty cell per position. */
    constructor (width: int, height: int, tileSize: int)
      ensures this.width == width && this.height == height && this.tileSize == tileSize
      ensures tiles == map[] && mapData == Blank(width, height)
    {
      this.width, this.height, this.tileSize := width, height, tileSize;
      tiles := map[];
      mapData := Blank(width, height);
    }

    /** register_tile: the id now names a tile with the image, replacing any earlier one. */
    method RegisterTile(id: string, image: string)
      modifies this
      ensures tiles == old(tiles)[id := Tile(image)] && mapData == old(mapData)
    {
      tiles := tiles[id := Tile(image)];
    }

    method GetTile(x: int, y: int) returns (r: Result<Option<Tile>>)
      ensures r == Lookup(mapData, width, height, x, y)
    {
      if !(0 <= x < width && 0 <= y < height) {
        return Err(IndexError("Tile position out of bounds"));
      }
      var index := x + y * width;
      if index < 0 || index >= |mapData| {
        return Err(IndexError("list index out of range"));
      }
      r := Ok(mapData[index]);
    }

    method SetTile(x: int, y: int, id: string) returns (r: Result<bool>)
      modifies this
      ensures var s := Store(old(mapData), tiles, width, height, x, y, id);
        (r.Ok? <==> s.Ok?) && (s.Ok? ==> mapData == s.value) && (s.Err? ==> r == Err(s.error) && mapData == old(mapData))
      ensures tiles == old(tiles)
    {
      if id !in tiles {
        return Err(ValueError("Tile ID '" + id + "' not registered"));
      }
      if !(0 <= x < width && 0 <= y < height) {
        return Err(IndexError("Tile position out of bounds"));
      }
      var index := x + y * width;
      if index < 0 || index >= |mapData| {
        return Err(IndexError("list assignment index out of range"));
      }
      mapData := mapData[index := Some(tiles[id])];
      r := Ok(true);
    }
  }
}
