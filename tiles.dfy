/** Tile lookup: which tile of a wrapping background map lies under a
 * screen pixel, given the background's scroll offsets.
 */
module Tiles {
  import opened Bits

  /** A tile map as `tile_lookup` receives it: the tile indices in row-major
      order, with the map's width and height in tiles. */
  datatype TileMap = TileMap(cells: seq<Word>, width: int, height: int)
  {
    predicate Valid() {
      width > 0 && height > 0 && |cells| == width * height
    }
  }

  /** A row-major index of a cell inside the map lies inside the map. */
  lemma IndexInRange(col: int, row: int, width: int, height: int)
    requires 0 <= col < width && 0 <= row < height
    ensures 0 <= row * width + col < width * height
  {
    assert row * width >= 0;
    assert (row + 1) * width <= height * width by {
      MulAtLeast(height - row, width);
      assert (height - row) * width == height * width - row * width;
    }
  }

  /** The map column (or row) under a pixel coordinate: the coordinate
      divided by the 8-pixel tile size, rounded down as `>> 3` rounds a
      two's-complement `int`, then wrapped into `[0, n)`. */
  function Wrapped(pixel: int, n: int): (r: int)
    requires n > 0
    ensures 0 <= r < n
  {
    (pixel / 8) % n
  }

  /** The index of the cell under pixel (`x`, `y`) of the screen. */
  function CellIndex(m: TileMap, x: int, y: int, xscroll: int, yscroll: int): (r: int)
    requires m.Valid()
    ensures 0 <= r < |m.cells|
  {
    var col := Wrapped(x + xscroll, m.width);
    var row := Wrapped(y + yscroll, m.height);
    IndexInRange(col, row, m.width, m.height);
    row * m.width + col
  }

  /** The tile under pixel (`x`, `y`) of the screen. */
  function TileAt(m: TileMap, x: int, y: int, xscroll: int, yscroll: int): (r: Word)
    requires m.Valid()
    ensures r in m.cells
  {
    m.cells[CellIndex(m, x, y, xscroll, yscroll)]
  }

  /** `tile_lookup`: adds the scroll, converts pixels to tiles, wraps the
      tile coordinates into the map with the source's four loops and reads
      the cell.  The loops compute the Euclidean remainder. */
  method TileLookup(x: int, y: int, xscroll: int, yscroll: int, m: TileMap) returns (tile: Word)
    requires m.Valid()
    ensures tile == TileAt(m, x, y, xscroll, yscroll)
  {
    var w, h := m.width, m.height;
    var tx := x + xscroll;
    var ty := y + yscroll;
    tx := tx / 8;
    ty := ty / 8;
    ghost var cx, cy := tx, ty;
    // how many widths (heights) the loops have taken off
    ghost var kx, ky := 0, 0;
    while tx >= w
      invariant tx + kx * w == cx
      decreases tx
    {
      tx := tx - w;
      kx := kx + 1;
    }
    while ty >= h
      invariant ty + ky * h == cy
      decreases ty
    {
      ty := ty - h;
      ky := ky + 1;
    }
    while tx < 0
      invariant tx + kx * w == cx && tx < w
      decreases -tx
    {
      tx := tx + w;
      kx := kx - 1;
    }
    while ty < 0
      invariant ty + ky * h == cy && ty < h
      decreases -ty
    {
      ty := ty + h;
      ky := ky - 1;
    }
    Unwound(cx, w, kx, tx);
    Unwound(cy, h, ky, ty);
    assert tx == Wrapped(x + xscroll, m.width);
    assert ty == Wrapped(y + yscroll, m.height);
    IndexInRange(tx, ty, w, h);
    var index := ty * w + tx;
    assert index == CellIndex(m, x, y, xscroll, yscroll);
    tile := m.cells[index];
  }

  /** Taking `k` whole turns of `n` off `c` and landing in `[0, n)` leaves
      the Euclidean remainder of `c` by `n`. */
  lemma Unwound(c: int, n: int, k: int, t: int)
    requires n > 0 && 0 <= t < n && t + k * n == c
    ensures t == c % n
  {
    DivUnique(c, n, k, t);
  }

  /** Moving `i` whole map widths sideways (8 pixels per tile) and `j` whole
      map heights up or down lands on the same tile, whatever the signs and
      sizes of the coordinates. */
  lemma TileAtPeriodic(m: TileMap, x: int, y: int, xscroll: int, yscroll: int, i: int, j: int)
    requires m.Valid()
    ensures TileAt(m, x + 8 * m.width * i, y + 8 * m.height * j, xscroll, yscroll)
         == TileAt(m, x, y, xscroll, yscroll)
  {
    ShiftWholeTurns(x + xscroll, m.width, i);
    ShiftWholeTurns(y + yscroll, m.height, j);
    assert x + 8 * m.width * i + xscroll == (x + xscroll) + 8 * m.width * i;
    assert y + 8 * m.height * j + yscroll == (y + yscroll) + 8 * m.height * j;
  }

  lemma ShiftWholeTurns(p: int, n: int, i: int)
    requires n > 0
    ensures Wrapped(p + 8 * n * i, n) == Wrapped(p, n)
  {
    var q := p / 8;
    assert p == q * 8 + p % 8;
    assert p + 8 * n * i == (q + n * i) * 8 + p % 8;
    DivUnique(p + 8 * n * i, 8, q + n * i, p % 8);
    var r := q % n;
    assert q == (q / n) * n + r;
    assert q + n * i == (q / n + i) * n + r;
    DivUnique(q + n * i, n, q / n + i, r);
  }

  /** The wrapped column is the floor-divided coordinate when that already
      lies inside the map, so for on-map pixels no wrapping happens. */
  lemma WrappedInside(pixel: int, n: int)
    requires n > 0 && 0 <= pixel < 8 * n
    ensures Wrapped(pixel, n) == pixel / 8
  {
    DivUnique(pixel / 8, n, 0, pixel / 8);
  }
}
