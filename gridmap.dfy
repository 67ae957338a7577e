/** The compiled-in grid map of the 2D ray caster and the way a position is
    turned into an index into it. */
module GridMap {

  const MapWidth: int := 5
  const MapHeight: int := 5
  const MapDepth: int := 3

  /** `worldMap`: three 5x5 layers stored row by row, x fastest, then the row,
      then the layer. 0 is an empty cell, any other value is a wall. The
      three layers are written out as they appear in the table. */
  const WorldMap: seq<int> := Layer0 + Layer1 + Layer2

  const Layer0: seq<int> := [
    1, 1, 1, 1, 1,
    1, 0, 0, 0, 1,
    1, 0, 0, 0, 1,
    1, 0, 0, 0, 1,
    1, 1, 1, 1, 1
  ]

  const Layer1: seq<int> := [
    1, 1, 1, 1, 1,
    1, 0, 0, 0, 1,
    1, 0, 0, 0, 1,
    1, 0, 0, 0, 1,
    1, 1, 1, 1, 1
  ]

  const Layer2: seq<int> := [
    1, 1, 1, 1, 1,
    1, 0, 0, 0, 1,
    1, 0, 0, 0, 1,
    1, 0, 0, 0, 1,
    1, 1, 1, 1, 1
  ]

  /** C++ `int(r)` on a floating-point value: truncation toward zero. */
  function Trunc(r: real): (t: int)
    ensures 0.0 <= r ==> t as real <= r < t as real + 1.0
    ensures r < 0.0 ==> t as real - 1.0 < r <= t as real
  {
    if r >= 0.0 then r.Floor else -((-r).Floor)
  }

  /** The index of the cell in column `c` and row `r` of the table. */
  function Cell(c: int, r: int): int
  {
    c + r * MapWidth
  }

  /** The index `int(x) + int(y) * MAP_WIDTH` every collision test reads. */
  function MapIndex(x: real, y: real): int
  {
    Cell(Trunc(x), Trunc(y))
  }

  /** Over the map's columns the index names the cell under the point: its
      column and its row can be read back from it. */
  lemma MapIndexCell(x: real, y: real)
    requires 0.0 <= x < MapWidth as real && 0.0 <= y
    ensures 0 <= MapIndex(x, y)
    ensures MapIndex(x, y) % MapWidth == Trunc(x) && MapIndex(x, y) / MapWidth == Trunc(y)
  {
    var c, r := Trunc(x), Trunc(y);
    assert (c + r * MapWidth) % MapWidth == c;
  }

  /** An index that the array `worldMap` actually has. */
  predicate InMap(world: seq<int>, i: int)
  {
    0 <= i < |world|
  }

  /** The size of `worldMap`: all three layers. */
  const MapSize: int := MapWidth * MapHeight * MapDepth

  /** A table of the map's size whose first layer has a wall all around the
      border and open cells in the 3x3 interior, as `worldMap` has. */
  ghost predicate Layout(world: seq<int>)
  {
    |world| == MapSize &&
    forall c, r :: 0 <= c < MapWidth && 0 <= r < MapHeight ==>
      (world[Cell(c, r)] == 0 <==> 1 <= c <= 3 && 1 <= r <= 3)
  }

  /** `worldMap` has that layout. */
  lemma WorldMapLayout()
    ensures Layout(WorldMap)
  {
    forall c, r | 0 <= c < MapWidth && 0 <= r < MapHeight
      ensures WorldMap[Cell(c, r)] == 0 <==> 1 <= c <= 3 && 1 <= r <= 3
    {
      CellAt(c, r);
    }
  }

  lemma CellAt(c: int, r: int)
    requires 0 <= c < MapWidth && 0 <= r < MapHeight
    ensures WorldMap[Cell(c, r)] == 0 <==> 1 <= c <= 3 && 1 <= r <= 3
  {
  }

  /** The layout read geometrically: a point over the first layer's 5x5
      square lies in an empty cell exactly when it is inside the open square
      [1, 4) x [1, 4). */
  lemma {:induction false} OpenExactlyInside(world: seq<int>, x: real, y: real)
    requires Layout(world)
    requires 0.0 <= x < 5.0 && 0.0 <= y < 5.0
    ensures InMap(world, MapIndex(x, y))
    ensures world[MapIndex(x, y)] == 0 <==> 1.0 <= x < 4.0 && 1.0 <= y < 4.0
  {
  }
}
