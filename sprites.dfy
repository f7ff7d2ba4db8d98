/** The sprite attribute pool: 128 hardware sprites of four 16-bit attribute
 * words each, a counter of the slots handed out, and the routines that pack
 * and rewrite the bit fields of one sprite in place.
 *
 * Attribute layout used by the game (bit numbers in a 16-bit word):
 *   attr0: 0-7 y, 8-9 rendering mode, 10-11 gfx mode, 12 mosaic,
 *          13 colour mode (1 = 256 colours), 14-15 shape
 *   attr1: 0-8 x, 9-11 affine/unused, 12 horizontal flip, 13 vertical flip,
 *          14-15 size
 *   attr2: 0-9 tile index, 10-11 priority, 12-15 palette bank
 *   attr3: not written by the game
 */
module Sprites {
  import opened Bits

  const NumSprites := 128
  const ScreenWidth := 240
  const ScreenHeight := 160

  datatype Sprite = Sprite(attr0: Word, attr1: Word, attr2: Word, attr3: Word)

  /** The twelve width-by-height combinations a sprite can take. */
  datatype SpriteSize =
    | Size8x8 | Size16x16 | Size32x32 | Size64x64
    | Size16x8 | Size32x8 | Size32x16 | Size64x32
    | Size8x16 | Size8x32 | Size16x32 | Size32x64
  {
    /** Width in pixels, as the name of the size says. */
    function Width(): nat {
      match this
      case Size8x8 => 8     case Size16x16 => 16  case Size32x32 => 32  case Size64x64 => 64
      case Size16x8 => 16   case Size32x8 => 32   case Size32x16 => 32  case Size64x32 => 64
      case Size8x16 => 8    case Size8x32 => 8    case Size16x32 => 16  case Size32x64 => 32
    }

    /** Height in pixels, as the name of the size says. */
    function Height(): nat {
      match this
      case Size8x8 => 8     case Size16x16 => 16  case Size32x32 => 32  case Size64x64 => 64
      case Size16x8 => 8    case Size32x8 => 8    case Size32x16 => 16  case Size64x32 => 32
      case Size8x16 => 16   case Size8x32 => 32   case Size16x32 => 32  case Size32x64 => 64
    }
  }

  /** The pixel dimensions the hardware gives a sprite with the given shape
      bits (0 square, 1 wide, 2 tall) and size bits. */
  function HardwareDimensions(shape: nat, size: nat): (nat, nat)
    requires shape < 3 && size < 4
  {
    var base := [8, 16, 32, 64];
    if shape == 0 then (base[size], base[size])
    else if shape == 1 then [(16, 8), (32, 8), (32, 16), (64, 32)][size]
    else [(8, 16), (8, 32), (16, 32), (32, 64)][size]
  }

  /** The `switch` of `sprite_init`: the shape bits and size bits for each
      size. */
  function ShapeAndSize(size: SpriteSize): (r: (nat, nat))
    ensures r.0 < 3 && r.1 < 4
  {
    match size
    case Size8x8 => (0, 0)    case Size16x16 => (0, 1)  case Size32x32 => (0, 2)  case Size64x64 => (0, 3)
    case Size16x8 => (1, 0)   case Size32x8 => (1, 1)   case Size32x16 => (1, 2)  case Size64x32 => (1, 3)
    case Size8x16 => (2, 0)   case Size8x32 => (2, 1)   case Size16x32 => (2, 2)  case Size32x64 => (2, 3)
  }

  /** Each entry makes the hardware draw the size it is named after. */
  lemma ShapeAndSizeDimensions(size: SpriteSize)
    ensures var (shape, sz) := ShapeAndSize(size);
      HardwareDimensions(shape, sz) == (size.Width(), size.Height())
  {
  }

  /** Different sizes never share an encoding. */
  lemma ShapeAndSizeInjective(a: SpriteSize, b: SpriteSize)
    ensures ShapeAndSize(a) == ShapeAndSize(b) ==> a == b
  {
  }

  // ---------------------------------------------------------------------
  // Reading the fields back

  function YOf(s: Sprite): nat { s.attr0 % 0x100 }
  function XOf(s: Sprite): nat { s.attr1 % 0x200 }
  function ShapeOf(s: Sprite): nat { s.attr0 / 0x4000 }
  function SizeOf(s: Sprite): nat { s.attr1 / 0x4000 }
  function TileOf(s: Sprite): nat { s.attr2 % 0x400 }
  function PriorityOf(s: Sprite): nat { (s.attr2 / 0x400) % 4 }
  predicate ColorMode256(s: Sprite) { Bit(s.attr0, 13) }
  predicate HorizontalFlip(s: Sprite) { Bit(s.attr1, 12) }
  predicate VerticalFlip(s: Sprite) { Bit(s.attr1, 13) }

  // ---------------------------------------------------------------------
  // Writing the fields: the bodies follow the C expressions

  /** `attribute0` as `sprite_init` builds it: `y | (1 << 13) | (shape << 14)`
      cut to 16 bits.  The 256-colour bit is always set. */
  function InitAttr0(y: int, shape: nat): (r: Word)
    requires shape < 4
    ensures Bit(r, 13)
  {
    Pow2Values();
    OrBound(Low16(y), 0x2000, 16);
    OrBound(Or(Low16(y), 0x2000), shape * 0x4000, 16);
    BitOr(Low16(y), 0x2000, 13);
    BitOr(Or(Low16(y), 0x2000), shape * 0x4000, 13);
    BitOfPow2(13, 13);
    Or(Or(Low16(y), 0x2000), shape * 0x4000)
  }

  /** `attribute1` as `sprite_init` builds it:
      `x | (h << 12) | (v << 13) | (size << 14)` cut to 16 bits.  A set flag
      argument sets its flip bit. */
  function InitAttr1(x: int, h: nat, v: nat, sz: nat): (r: Word)
    requires h < 2 && v < 2 && sz < 4
    ensures h == 1 ==> Bit(r, 12)
    ensures v == 1 ==> Bit(r, 13)
  {
    Pow2Values();
    OrBound(Low16(x), h * 0x1000, 16);
    OrBound(Or(Low16(x), h * 0x1000), v * 0x2000, 16);
    OrBound(Or(Or(Low16(x), h * 0x1000), v * 0x2000), sz * 0x4000, 16);
    BitOr(Low16(x), h * 0x1000, 12);
    BitOr(Or(Low16(x), h * 0x1000), v * 0x2000, 12);
    BitOr(Or(Or(Low16(x), h * 0x1000), v * 0x2000), sz * 0x4000, 12);
    BitOfPow2(12, 12);
    BitOr(Or(Low16(x), h * 0x1000), v * 0x2000, 13);
    BitOr(Or(Or(Low16(x), h * 0x1000), v * 0x2000), sz * 0x4000, 13);
    BitOfPow2(13, 13);
    Or(Or(Or(Low16(x), h * 0x1000), v * 0x2000), sz * 0x4000)
  }

  /** `attribute2` as `sprite_init` builds it: `tile_index | (priority << 10)`
      cut to 16 bits (palette bank 0). */
  function InitAttr2(tileIndex: int, priority: int): Word
  {
    Pow2Values();
    OrBound(Low16(tileIndex), Low16(priority * 0x400), 16);
    Or(Low16(tileIndex), Low16(priority * 0x400))
  }

  /** The sprite `sprite_init` writes.  `x`, `y`, `tileIndex` and `priority`
      are not masked by the source: out of range they spill into the
      neighbouring fields.  `attr3` is left as it was. */
  function Packed(x: int, y: int, size: SpriteSize, hflip: bool, vflip: bool,
                  tileIndex: int, priority: int, attr3: Word): (r: Sprite)
    ensures ColorMode256(r)
    ensures hflip ==> HorizontalFlip(r)
    ensures vflip ==> VerticalFlip(r)
    ensures r.attr3 == attr3
  {
    var (shape, sz) := ShapeAndSize(size);
    var h := if hflip then 1 else 0;
    var v := if vflip then 1 else 0;
    Sprite(InitAttr0(y, shape), InitAttr1(x, h, v, sz), InitAttr2(tileIndex, priority), attr3)
  }

  /** `sprite_position`: `attr0 = (attr0 & 0xff00) | (y & 0xff)` and
      `attr1 = (attr1 & 0xfe00) | (x & 0x1ff)`.  The coordinates wrap modulo
      256 and 512; every other bit is kept. */
  function WithPosition(s: Sprite, x: int, y: int): (r: Sprite)
    ensures YOf(r) == y % 0x100 && r.attr0 / 0x100 == s.attr0 / 0x100
    ensures XOf(r) == x % 0x200 && r.attr1 / 0x200 == s.attr1 / 0x200
    ensures r.attr2 == s.attr2 && r.attr3 == s.attr3
  {
    Pow2Values();
    SetLowField(s.attr0, y, 8, 0x100, 0xff00, 0xff);
    SetLowField(s.attr1, x, 9, 0x200, 0xfe00, 0x1ff);
    s.(attr0 := Or(And(s.attr0, 0xff00), And(Low16(y), 0xff)),
       attr1 := Or(And(s.attr1, 0xfe00), And(Low16(x), 0x1ff)))
  }

  /** `sprite_move`: reads the stored coordinates back, adds the deltas and
      stores the sums as `sprite_position` does. */
  function Moved(s: Sprite, dx: int, dy: int): (r: Sprite)
    ensures YOf(r) == (YOf(s) + dy) % 0x100 && r.attr0 / 0x100 == s.attr0 / 0x100
    ensures XOf(r) == (XOf(s) + dx) % 0x200 && r.attr1 / 0x200 == s.attr1 / 0x200
    ensures r.attr2 == s.attr2 && r.attr3 == s.attr3
  {
    Pow2Values();
    AndLowMask(s.attr0, 8);
    AndLowMask(s.attr1, 9);
    WithPosition(s, And(s.attr1, 0x1ff) + dx, And(s.attr0, 0xff) + dy)
  }

  /** `sprite_set_horizontal_flip`: `attr1 |= 0x1000` or `attr1 &= 0xefff`. */
  function WithHorizontalFlip(s: Sprite, flip: bool): (r: Sprite)
    ensures HorizontalFlip(r) == flip
    ensures forall i: nat :: i != 12 ==> Bit(r.attr1, i) == Bit(s.attr1, i)
    ensures r.attr0 == s.attr0 && r.attr2 == s.attr2 && r.attr3 == s.attr3
  {
    Pow2Values();
    OrBound(s.attr1, 0x1000, 16);
    AndBound(s.attr1, 0xefff);
    SetBitFrame(s.attr1, 12);
    ClearBitFrame(s.attr1, 12, 16, 0xefff);
    s.(attr1 := if flip then Or(s.attr1, 0x1000) else And(s.attr1, 0xefff))
  }

  /** `sprite_set_vertical_flip`: `attr1 |= 0x2000` or `attr1 &= 0xdfff`. */
  function WithVerticalFlip(s: Sprite, flip: bool): (r: Sprite)
    ensures VerticalFlip(r) == flip
    ensures forall i: nat :: i != 13 ==> Bit(r.attr1, i) == Bit(s.attr1, i)
    ensures r.attr0 == s.attr0 && r.attr2 == s.attr2 && r.attr3 == s.attr3
  {
    Pow2Values();
    OrBound(s.attr1, 0x2000, 16);
    AndBound(s.attr1, 0xdfff);
    SetBitFrame(s.attr1, 13);
    ClearBitFrame(s.attr1, 13, 16, 0xdfff);
    s.(attr1 := if flip then Or(s.attr1, 0x2000) else And(s.attr1, 0xdfff))
  }

  /** `sprite_set_offset`: `attr2 = (attr2 & 0xfc00) | (offset & 0x3ff)`.
      The tile index becomes `offset` modulo 1024; the top six bits stay. */
  function WithOffset(s: Sprite, offset: int): (r: Sprite)
    ensures TileOf(r) == offset % 0x400 && r.attr2 / 0x400 == s.attr2 / 0x400
    ensures r.attr0 == s.attr0 && r.attr1 == s.attr1 && r.attr3 == s.attr3
  {
    Pow2Values();
    SetLowField(s.attr2, offset, 10, 0x400, 0xfc00, 0x3ff);
    s.(attr2 := Or(And(s.attr2, 0xfc00), And(Low16(offset), 0x3ff)))
  }

  /** The slot `sprite_clear` leaves behind: parked off-screen at x = 240,
      y = 160, with `attr2` and `attr3` untouched. */
  function Parked(s: Sprite): (r: Sprite)
    ensures XOf(r) == ScreenWidth && YOf(r) == ScreenHeight
    ensures r.attr2 == s.attr2 && r.attr3 == s.attr3
  {
    s.(attr0 := ScreenHeight, attr1 := ScreenWidth)
  }

  // ---------------------------------------------------------------------
  // Properties of the field writers

  /** With `y` inside its field, `attribute0` holds exactly `y`, the
      256-colour bit and the shape: `|` adds the disjoint fields. */
  lemma PackedAttr0(y: int, shape: nat)
    requires 0 <= y < 0x100 && shape < 4
    ensures InitAttr0(y, shape) == y + 0x2000 + shape * 0x4000
  {
    assert Low16(y) == y;
    Pow2Values();
    OrShifted(y, 1, 13, 0x2000);
    OrShifted(y + 0x2000, shape, 14, 0x4000);
  }

  /** With `x` inside its field, `attribute1` holds exactly `x`, the two
      flip bits and the size bits. */
  lemma PackedAttr1(x: int, h: nat, v: nat, sz: nat)
    requires 0 <= x < 0x200 && h < 2 && v < 2 && sz < 4
    ensures InitAttr1(x, h, v, sz) == x + h * 0x1000 + v * 0x2000 + sz * 0x4000
  {
    assert Low16(x) == x;
    Pow2Values();
    OrShifted(x, h, 12, 0x1000);
    OrShifted(x + h * 0x1000, v, 13, 0x2000);
    OrShifted(x + h * 0x1000 + v * 0x2000, sz, 14, 0x4000);
  }

  /** With the tile index and the priority inside their fields,
      `attribute2` holds exactly those, palette bank 0. */
  lemma PackedAttr2(tileIndex: int, priority: int)
    requires 0 <= tileIndex < 0x400 && 0 <= priority < 4
    ensures InitAttr2(tileIndex, priority) == tileIndex + priority * 0x400
  {
    assert Low16(tileIndex) == tileIndex;
    assert Low16(priority * 0x400) == priority * 0x400;
    Pow2Values();
    OrShifted(tileIndex, priority, 10, 0x400);
  }

  /** With every argument inside its field, `sprite_init` stores exactly
      the given values: reading the fields back returns them. */
  lemma PackedRoundTrip(x: int, y: int, size: SpriteSize, hflip: bool, vflip: bool,
                        tileIndex: int, priority: int, attr3: Word)
    requires 0 <= x < 0x200 && 0 <= y < 0x100 && 0 <= tileIndex < 0x400 && 0 <= priority < 4
    ensures var r := Packed(x, y, size, hflip, vflip, tileIndex, priority, attr3);
      && YOf(r) == y && XOf(r) == x && TileOf(r) == tileIndex && PriorityOf(r) == priority
      && (ShapeOf(r), SizeOf(r)) == ShapeAndSize(size)
      && HorizontalFlip(r) == hflip && VerticalFlip(r) == vflip && ColorMode256(r)
  {
    PackedAttr0RoundTrip(x, y, size, hflip, vflip, tileIndex, priority, attr3);
    PackedAttr1RoundTrip(x, y, size, hflip, vflip, tileIndex, priority, attr3);
    PackedAttr2RoundTrip(x, y, size, hflip, vflip, tileIndex, priority, attr3);
  }

  lemma PackedAttr0RoundTrip(x: int, y: int, size: SpriteSize, hflip: bool, vflip: bool,
                             tileIndex: int, priority: int, attr3: Word)
    requires 0 <= y < 0x100
    ensures var r := Packed(x, y, size, hflip, vflip, tileIndex, priority, attr3);
      YOf(r) == y && ShapeOf(r) == ShapeAndSize(size).0
  {
    Attr0RoundTrip(y, ShapeAndSize(size).0);
  }

  lemma PackedAttr1RoundTrip(x: int, y: int, size: SpriteSize, hflip: bool, vflip: bool,
                             tileIndex: int, priority: int, attr3: Word)
    requires 0 <= x < 0x200
    ensures var r := Packed(x, y, size, hflip, vflip, tileIndex, priority, attr3);
      XOf(r) == x && SizeOf(r) == ShapeAndSize(size).1
      && HorizontalFlip(r) == hflip && VerticalFlip(r) == vflip
  {
    Attr1RoundTrip(x, hflip, vflip, ShapeAndSize(size).1);
  }

  lemma PackedAttr2RoundTrip(x: int, y: int, size: SpriteSize, hflip: bool, vflip: bool,
                             tileIndex: int, priority: int, attr3: Word)
    requires 0 <= tileIndex < 0x400 && 0 <= priority < 4
    ensures var r := Packed(x, y, size, hflip, vflip, tileIndex, priority, attr3);
      TileOf(r) == tileIndex && PriorityOf(r) == priority
  {
    Attr2RoundTrip(tileIndex, priority);
  }

  lemma Attr0RoundTrip(y: int, shape: nat)
    requires 0 <= y < 0x100 && shape < 4
    ensures InitAttr0(y, shape) % 0x100 == y && InitAttr0(y, shape) / 0x4000 == shape
  {
    PackedAttr0(y, shape);
    Attr0Fields(InitAttr0(y, shape), y, shape);
  }

  lemma Attr1RoundTrip(x: int, hflip: bool, vflip: bool, sz: nat)
    requires 0 <= x < 0x200 && sz < 4
    ensures var w := InitAttr1(x, if hflip then 1 else 0, if vflip then 1 else 0, sz);
      w % 0x200 == x && w / 0x4000 == sz && Bit(w, 12) == hflip && Bit(w, 13) == vflip
  {
    var h, v := if hflip then 1 else 0, if vflip then 1 else 0;
    PackedAttr1(x, h, v, sz);
    Attr1Fields(InitAttr1(x, h, v, sz), x, h, v, sz);
  }

  lemma Attr2RoundTrip(tileIndex: int, priority: int)
    requires 0 <= tileIndex < 0x400 && 0 <= priority < 4
    ensures InitAttr2(tileIndex, priority) % 0x400 == tileIndex
    ensures (InitAttr2(tileIndex, priority) / 0x400) % 4 == priority
  {
    PackedAttr2(tileIndex, priority);
    DivUnique(InitAttr2(tileIndex, priority), 0x400, priority, tileIndex);
  }

  lemma Attr0Fields(w: nat, y: nat, shape: nat)
    requires y < 0x100 && shape < 4 && w == y + 0x2000 + shape * 0x4000
    ensures w % 0x100 == y && w / 0x4000 == shape
  {
    DivUnique(w, 0x100, 0x20 + 0x40 * shape, y);
    DivUnique(w, 0x4000, shape, y + 0x2000);
  }

  lemma Attr1Fields(w: nat, x: nat, h: nat, v: nat, sz: nat)
    requires x < 0x200 && h < 2 && v < 2 && sz < 4
    requires w == x + h * 0x1000 + v * 0x2000 + sz * 0x4000
    ensures w % 0x200 == x && w / 0x4000 == sz
    ensures Bit(w, 12) == (h == 1) && Bit(w, 13) == (v == 1)
  {
    Pow2Values();
    DivUnique(w, 0x200, 8 * h + 0x10 * v + 0x20 * sz, x);
    DivUnique(w, 0x4000, sz, x + h * 0x1000 + v * 0x2000);
    assert Bit(w, 12) == (h == 1) by {
      BitValue(w, 12, 0x1000);
      DivUnique(w, 0x1000, h + 2 * v + 4 * sz, x);
      DivUnique(h + 2 * v + 4 * sz, 2, v + 2 * sz, h);
    }
    assert Bit(w, 13) == (v == 1) by {
      BitValue(w, 13, 0x2000);
      DivUnique(w, 0x2000, v + 2 * sz, x + h * 0x1000);
      DivUnique(v + 2 * sz, 2, sz, v);
    }
  }

  lemma ModAdd(a: int, b: int, m: int)
    requires m > 0
    ensures (a % m + b) % m == (a + b) % m
  {
    var q := (a % m + b) / m;
    var r := (a % m + b) % m;
    assert a == (a / m) * m + a % m;
    assert a % m + b == q * m + r;
    assert a + b == (a / m + q) * m + r;
    DivUnique(a + b, m, a / m + q, r);
  }

  /** Two words agree when they agree below and above bit `k`. */
  lemma SameSplit(a: Word, b: Word, p: nat)
    requires p > 0 && a % p == b % p && a / p == b / p
    ensures a == b
  {
    assert a == (a / p) * p + a % p;
    assert b == (b / p) * p + b % p;
  }

  /** `sprite_position` called twice is the second call alone. */
  lemma PositionLastWins(s: Sprite, x1: int, y1: int, x2: int, y2: int)
    ensures WithPosition(WithPosition(s, x1, y1), x2, y2) == WithPosition(s, x2, y2)
  {
    var a, b := WithPosition(WithPosition(s, x1, y1), x2, y2), WithPosition(s, x2, y2);
    SameSplit(a.attr0, b.attr0, 0x100);
    SameSplit(a.attr1, b.attr1, 0x200);
  }

  /** Two calls of `sprite_move` are one move by the summed deltas. */
  lemma MovesCompose(s: Sprite, dx1: int, dy1: int, dx2: int, dy2: int)
    ensures Moved(Moved(s, dx1, dy1), dx2, dy2) == Moved(s, dx1 + dx2, dy1 + dy2)
  {
    var a, b := Moved(Moved(s, dx1, dy1), dx2, dy2), Moved(s, dx1 + dx2, dy1 + dy2);
    ModAdd(YOf(s) + dy1, dy2, 0x100);
    ModAdd(XOf(s) + dx1, dx2, 0x200);
    SameSplit(a.attr0, b.attr0, 0x100);
    SameSplit(a.attr1, b.attr1, 0x200);
  }

  /** `sprite_position` leaves the flips, the shape, the size, the colour
      mode, the tile and the priority as they were. */
  lemma PositionKeepsAttributes(s: Sprite, x: int, y: int)
    ensures var r := WithPosition(s, x, y);
      && HorizontalFlip(r) == HorizontalFlip(s) && VerticalFlip(r) == VerticalFlip(s)
      && ShapeOf(r) == ShapeOf(s) && SizeOf(r) == SizeOf(s) && ColorMode256(r) == ColorMode256(s)
      && TileOf(r) == TileOf(s) && PriorityOf(r) == PriorityOf(s)
  {
    var r := WithPosition(s, x, y);
    Pow2Values();
    SameAbove(r.attr0, s.attr0, 0x100, 0x40);
    SameAbove(r.attr1, s.attr1, 0x200, 0x20);
    SameBitAbove(r.attr0, s.attr0, 8, 13);
    SameBitAbove(r.attr1, s.attr1, 9, 12);
    SameBitAbove(r.attr1, s.attr1, 9, 13);
  }

  /** The last horizontal-flip write decides the bit; writing the same
      value twice is writing it once. */
  lemma HorizontalFlipLastWins(s: Sprite, f: bool, g: bool)
    ensures WithHorizontalFlip(WithHorizontalFlip(s, f), g) == WithHorizontalFlip(s, g)
  {
    var a, b := WithHorizontalFlip(WithHorizontalFlip(s, f), g), WithHorizontalFlip(s, g);
    forall i: nat ensures Bit(a.attr1, i) == Bit(b.attr1, i) {
    }
    BitsDetermine(a.attr1, b.attr1);
  }

  /** The last vertical-flip write decides the bit. */
  lemma VerticalFlipLastWins(s: Sprite, f: bool, g: bool)
    ensures WithVerticalFlip(WithVerticalFlip(s, f), g) == WithVerticalFlip(s, g)
  {
    var a, b := WithVerticalFlip(WithVerticalFlip(s, f), g), WithVerticalFlip(s, g);
    forall i: nat ensures Bit(a.attr1, i) == Bit(b.attr1, i) {
    }
    BitsDetermine(a.attr1, b.attr1);
  }

  /** The two flip setters touch different bits, so their order does not
      matter. */
  lemma FlipsCommute(s: Sprite, f: bool, g: bool)
    ensures WithVerticalFlip(WithHorizontalFlip(s, f), g) == WithHorizontalFlip(WithVerticalFlip(s, g), f)
  {
    var a, b := WithVerticalFlip(WithHorizontalFlip(s, f), g), WithHorizontalFlip(WithVerticalFlip(s, g), f);
    forall i: nat ensures Bit(a.attr1, i) == Bit(b.attr1, i) {
    }
    BitsDetermine(a.attr1, b.attr1);
  }

  /** `sprite_set_offset` called twice is the second call alone. */
  lemma OffsetLastWins(s: Sprite, o1: int, o2: int)
    ensures WithOffset(WithOffset(s, o1), o2) == WithOffset(s, o2)
  {
    var a, b := WithOffset(WithOffset(s, o1), o2), WithOffset(s, o2);
    SameSplit(a.attr2, b.attr2, 0x400);
  }

  // ---------------------------------------------------------------------
  // The pool

  /** `sprites[NUM_SPRITES]` and `next_sprite_index`.  A sprite handle is an
      index into `sprites`. */
  class SpritePool {
    var sprites: array<Sprite>
    var next: int

    ghost predicate Valid()
      reads this
    {
      sprites.Length == NumSprites && 0 <= next <= NumSprites
    }

    /** The pool at program start: static storage is zero. */
    constructor ()
      ensures Valid() && fresh(sprites) && next == 0
      ensures forall i :: 0 <= i < NumSprites ==> sprites[i] == Sprite(0, 0, 0, 0)
    {
      sprites := new Sprite[NumSprites](_ => Sprite(0, 0, 0, 0));
      next := 0;
    }

    /** `sprite_init`: claims the next slot and packs the attributes into
        it.  The slot must exist: the source does not check. */
    method Init(x: int, y: int, size: SpriteSize, hflip: bool, vflip: bool,
                tileIndex: int, priority: int) returns (index: int)
      requires Valid() && next < NumSprites
      modifies this, sprites
      ensures Valid() && sprites == old(sprites)
      ensures index == old(next) && next == old(next) + 1
      ensures sprites[..] == old(sprites[..])[index :=
        Packed(x, y, size, hflip, vflip, tileIndex, priority, old(sprites[index].attr3))]
    {
      index := next;
      next := next + 1;
      sprites[index] := Packed(x, y, size, hflip, vflip, tileIndex, priority, sprites[index].attr3);
    }

    /** `sprite_clear`: resets the counter and parks every slot off-screen. */
    method Clear()
      requires Valid()
      modifies this, sprites
      ensures Valid() && sprites == old(sprites) && next == 0
      ensures forall i :: 0 <= i < NumSprites ==> sprites[i] == Parked(old(sprites[i]))
    {
      next := 0;
      for i := 0 to NumSprites
        invariant sprites == old(sprites) && next == 0
        invariant forall j :: 0 <= j < i ==> sprites[j] == Parked(old(sprites[j]))
        invariant forall j :: i <= j < NumSprites ==> sprites[j] == old(sprites[j])
      {
        sprites[i] := sprites[i].(attr0 := ScreenHeight);
        sprites[i] := sprites[i].(attr1 := ScreenWidth);
      }
    }

    /** `sprite_position` on slot `index`. */
    method Position(index: int, x: int, y: int)
      requires Valid() && 0 <= index < NumSprites
      modifies sprites
      ensures sprites[..] == old(sprites[..])[index := WithPosition(old(sprites[index]), x, y)]
    {
      sprites[index] := WithPosition(sprites[index], x, y);
    }

    /** `sprite_move` on slot `index`. */
    method Move(index: int, dx: int, dy: int)
      requires Valid() && 0 <= index < NumSprites
      modifies sprites
      ensures sprites[..] == old(sprites[..])[index := Moved(old(sprites[index]), dx, dy)]
    {
      var y := And(sprites[index].attr0, 0xff);
      var x := And(sprites[index].attr1, 0x1ff);
      Position(index, x + dx, y + dy);
    }

    /** `sprite_set_vertical_flip` on slot `index`. */
    method SetVerticalFlip(index: int, flip: bool)
      requires Valid() && 0 <= index < NumSprites
      modifies sprites
      ensures sprites[..] == old(sprites[..])[index := WithVerticalFlip(old(sprites[index]), flip)]
    {
      sprites[index] := WithVerticalFlip(sprites[index], flip);
    }

    /** `sprite_set_horizontal_flip` on slot `index`. */
    method SetHorizontalFlip(index: int, flip: bool)
      requires Valid() && 0 <= index < NumSprites
      modifies sprites
      ensures sprites[..] == old(sprites[..])[index := WithHorizontalFlip(old(sprites[index]), flip)]
    {
      sprites[index] := WithHorizontalFlip(sprites[index], flip);
    }

    /** `sprite_set_offset` on slot `index`. */
    method SetOffset(index: int, offset: int)
      requires Valid() && 0 <= index < NumSprites
      modifies sprites
      ensures sprites[..] == old(sprites[..])[index := WithOffset(old(sprites[index]), offset)]
    {
      sprites[index] := WithOffset(sprites[index], offset);
    }
  }
}
