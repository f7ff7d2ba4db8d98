/** The koopas: two walking, falling, animated actors.  The player's koopa
 * (`struct Koopa`) walks and jumps; the second koopa (`struct Koopa2`)
 * walks left across the screen and wraps around.  Both structs have the
 * same fields, so one class models both, and the functions that differ
 * between the two (`koopa2_left`, `koopa2_update`) are separate members.
 *
 * Positions and velocities are kept in 1/256 pixel; `v >> 8` on a C `int`
 * rounds towards minus infinity, which is Dafny's `/` by a positive divisor.
 */
module Koopas {
  import opened Bits
  import opened Sprites
  import opened Tiles

  /** The fields of a koopa struct other than its sprite handle. */
  datatype Actor = Actor(x: int, y: int, yvel: int, gravity: int, frame: int,
                         animationDelay: int, counter: int, move: int,
                         border: int, falling: int)

  /** `v >> 8`: whole pixels, rounded down. */
  function Pixel(v: int): int { v / 256 }

  /** The player's koopa as `koopa_init` sets it up. */
  function PrimaryStart(): (r: Actor)
    ensures Pixel(r.x) == 100 && Pixel(r.y) == 113 && r.move == 0 && r.falling != 0
    ensures r.border <= Pixel(r.x) <= ScreenWidth - 16 - r.border
  {
    Actor(x := 100 * 256, y := 113 * 256, yvel := 0, gravity := 90, frame := 0,
          animationDelay := 6, counter := 0, move := 0, border := 70, falling := 20)
  }

  /** The second koopa as `koopa2_init` sets it up. */
  function SecondaryStart(): (r: Actor)
    ensures Pixel(r.x) == 100 && Pixel(r.y) == 113 && r.move != 0 && r.falling == 0
    ensures r.border <= Pixel(r.x) <= 200
  {
    Actor(x := 100 * 256, y := 113 * 256, yvel := 0, gravity := 50, frame := 0,
          animationDelay := 6, counter := 0, move := 3, border := -10, falling := 0)
  }

  // ---------------------------------------------------------------------
  // Walking

  /** `koopa_left` does not move once the koopa is left of its border. */
  predicate AtLeftEdge(a: Actor) { Pixel(a.x) < a.border }

  /** `koopa_right` does not move once the koopa is right of the mirrored
      border (the sprite is 16 pixels wide). */
  predicate AtRightEdge(a: Actor) { Pixel(a.x) > ScreenWidth - 16 - a.border }

  function MovedLeft(a: Actor): (r: Actor)
    ensures r.(x := a.x, move := a.move) == a
  {
    a.(move := 1, x := if AtLeftEdge(a) then a.x else a.x - 256)
  }

  function MovedRight(a: Actor): (r: Actor)
    ensures r.(x := a.x, move := a.move) == a
  {
    a.(move := 1, x := if AtRightEdge(a) then a.x else a.x + 256)
  }

  /** `koopa2_left`: the second koopa steps one pixel left, and from its
      border it reappears at pixel 200 (`100 << 9`). */
  function MovedLeft2(a: Actor, num: int): (r: Actor)
    ensures r.(x := a.x, move := a.move) == a
  {
    a.(move := 1 + num, x := if Pixel(a.x) == a.border then 100 * 512 else a.x - 256)
  }

  /** One pixel less, whatever the sub-pixel part. */
  lemma PixelStep(x: int, k: int)
    ensures Pixel(x + 256 * k) == Pixel(x) + k
  {
    DivUnique(x + 256 * k, 256, x / 256 + k, x % 256);
  }

  /** A step left never takes the koopa more than one pixel past its
      border, and it answers "at the edge" exactly when it did not move. */
  lemma LeftKeepsBorder(a: Actor)
    requires Pixel(a.x) >= a.border - 1
    ensures Pixel(MovedLeft(a).x) >= a.border - 1
    ensures MovedLeft(a).x == a.x <==> AtLeftEdge(a)
  {
    PixelStep(a.x, -1);
  }

  /** The same on the right-hand side. */
  lemma RightKeepsBorder(a: Actor)
    requires Pixel(a.x) <= ScreenWidth - 16 - a.border + 1
    ensures Pixel(MovedRight(a).x) <= ScreenWidth - 16 - a.border + 1
    ensures MovedRight(a).x == a.x <==> AtRightEdge(a)
  {
    PixelStep(a.x, 1);
  }

  /** Away from both edges, a step right undoes a step left. */
  lemma RightUndoesLeft(a: Actor)
    requires !AtLeftEdge(a) && !AtRightEdge(MovedLeft(a))
    ensures MovedRight(MovedLeft(a)) == a.(move := 1)
  {
  }

  /** `n` steps left in a row. */
  function LeftSteps(a: Actor, n: nat): Actor
  {
    if n == 0 then a else MovedLeft(LeftSteps(a, n - 1))
  }

  /** Holding left walks the koopa one pixel per step until it is one pixel
      past its border, and there it stays. */
  lemma {:induction false} HoldingLeft(a: Actor, n: nat)
    requires Pixel(a.x) >= a.border
    ensures var r := LeftSteps(a, n);
      Pixel(r.x) == (if Pixel(a.x) - n >= a.border - 1 then Pixel(a.x) - n else a.border - 1)
      && r.x % 256 == a.x % 256 && r.border == a.border
  {
    if n > 0 {
      HoldingLeft(a, n - 1);
      var r := LeftSteps(a, n - 1);
      PixelStep(r.x, -1);
    }
  }

  /** The second koopa stays between its border and pixel 200. */
  lemma Left2StaysOnTrack(a: Actor, num: int)
    requires a.border <= Pixel(a.x) <= 200
    ensures a.border <= Pixel(MovedLeft2(a, num).x) <= 200
  {
    PixelStep(a.x, -1);
    PixelStep(0, 200);
  }

  /** `k` calls of `koopa2_left` with the same speed argument. */
  function Left2Steps(a: Actor, num: int, k: nat): Actor
  {
    if k == 0 then a else MovedLeft2(Left2Steps(a, num, k - 1), num)
  }

  /** Until it reaches its border the second koopa walks exactly one pixel
      per call. */
  lemma {:induction false} Left2Walks(a: Actor, num: int, k: nat)
    requires Pixel(a.x) - k >= a.border
    ensures Left2Steps(a, num, k).x == a.x - 256 * k
    ensures Left2Steps(a, num, k).border == a.border
  {
    if k > 0 {
      Left2Walks(a, num, k - 1);
      PixelStep(a.x, -(k - 1));
    }
  }

  /** From pixel 200 the second koopa comes back to pixel 200 after
      `200 - border + 1` calls: its walk is a cycle. */
  lemma Left2Cycle(a: Actor, num: int)
    requires a.x == 100 * 512 && a.border <= 200
    ensures Left2Steps(a, num, 200 - a.border + 1).x == 100 * 512
  {
    var k := 200 - a.border;
    Left2Walks(a, num, k);
    PixelStep(a.x - 256 * k, 0);
    PixelStep(0, 200);
    assert Pixel(a.x - 256 * k) == a.border by {
      PixelStep(a.x, -k);
    }
  }

  // ---------------------------------------------------------------------
  // Stopping and jumping

  /** `koopa_stop`: not moving, first frame, counter at 7. */
  function Stopped(a: Actor): (r: Actor)
    ensures r.move == 0 && r.frame == 0
    ensures r.(move := a.move, frame := a.frame, counter := a.counter) == a
  {
    a.(move := 0, frame := 0, counter := 7)
  }

  /** `koopa_jump`: a koopa on the ground starts upwards; one in the air is
      left alone. */
  function Jumped(a: Actor): (r: Actor)
    ensures r.falling != 0
    ensures a.falling != 0 ==> r == a
    ensures r.(yvel := a.yvel, falling := a.falling) == a
  {
    if a.falling == 0 then a.(yvel := -1500, falling := 1) else a
  }

  /** Jumping twice in a row is jumping once. */
  lemma JumpIdempotent(a: Actor)
    ensures Jumped(Jumped(a)) == Jumped(a)
  {
  }

  // ---------------------------------------------------------------------
  // The per-frame update

  /** Euler step while falling: position first, then velocity. */
  function Fallen(a: Actor): (r: Actor)
    ensures r.(y := a.y, yvel := a.yvel) == a
  {
    if a.falling != 0 then a.(y := a.y + a.yvel, yvel := a.yvel + a.gravity) else a
  }

  /** `n` falling steps. */
  function FallSteps(a: Actor, n: nat): Actor
  {
    if n == 0 then a else Fallen(FallSteps(a, n - 1))
  }

  /** While falling, the velocity grows by `gravity` each frame and the
      position follows the discrete sum of the velocities. */
  lemma {:induction false} Falling(a: Actor, n: nat)
    requires a.falling != 0
    ensures var r := FallSteps(a, n);
      r.falling == a.falling && r.gravity == a.gravity
      && r.yvel == a.yvel + n * a.gravity
      && 2 * r.y == 2 * a.y + 2 * n * a.yvel + n * (n - 1) * a.gravity
  {
    if n > 0 {
      var m := n - 1;
      Falling(a, m);
      var r := FallSteps(a, m);
      assert FallSteps(a, n) == r.(y := r.y + r.yvel, yvel := r.yvel + r.gravity);
      FallArithmetic(m, a.y, a.yvel, a.gravity, r.y, r.yvel);
    }
  }

  /** The induction step of `Falling` on the numbers alone: one more
      frame adds the current velocity to the position and `gravity` to the
      velocity. */
  lemma FallArithmetic(m: int, y: int, yvel: int, gravity: int, ry: int, ryvel: int)
    requires ryvel == yvel + m * gravity
    requires 2 * ry == 2 * y + 2 * m * yvel + m * (m - 1) * gravity
    ensures ryvel + gravity == yvel + (m + 1) * gravity
    ensures 2 * (ry + ryvel) == 2 * y + 2 * (m + 1) * yvel + (m + 1) * (m + 1 - 1) * gravity
  {
    assert (m + 1) * gravity == m * gravity + gravity;
    assert 2 * (m + 1) * yvel == 2 * m * yvel + 2 * yvel;
    assert (m + 1) * (m + 1 - 1) == m * (m - 1) + 2 * m;
    assert (m * (m - 1) + 2 * m) * gravity == m * (m - 1) * gravity + 2 * (m * gravity);
  }

  /** `y &= ~0x7ff; y++`: down to the top of the 8-pixel (2048-unit) tile
      row, then one unit lower.  Clearing the low 11 bits of a
      two's-complement `int` is rounding down to a multiple of 2048. */
  function Snapped(y: int): (r: int)
    ensures r % 2048 == 1
    ensures y - 2046 <= r <= y + 1
  {
    y - y % 2048 + 1
  }

  /** For a non-negative 32-bit position the mask `~0x7ff` does keep the
      bits that rounding down keeps. */
  lemma SnapClearsLowBits(y: nat)
    requires y < Pow2(31)
    ensures And(y, Pow2(31) - Pow2(11)) + 1 == Snapped(y)
  {
    Pow2Values();
    assert Pow2(11) == 2048;
    AndHighMask(y, 11, 31, Pow2(31) - Pow2(11));
  }

  /** A koopa standing where it was snapped to stays there. */
  lemma SnapIdempotent(y: int)
    ensures Snapped(Snapped(y)) == Snapped(y)
  {
  }

  /** Landing on a solid tile, or starting to fall over an open one. */
  function Landed(a: Actor, solid: bool): (r: Actor)
    ensures solid ==> r.falling == 0 && r.yvel == 0 && r.y % 2048 == 1
    ensures !solid ==> r == a.(falling := 1)
    ensures r.(y := a.y, yvel := a.yvel, falling := a.falling) == a
  {
    if solid then a.(falling := 0, yvel := 0, y := Snapped(a.y)) else a.(falling := 1)
  }

  /** Whether this frame's animation step turns the frame over. */
  predicate TurnsFrame(a: Actor) {
    a.move != 0 && a.counter + 1 >= a.animationDelay
  }

  /** The animation step of the update. */
  function Animated(a: Actor): (r: Actor)
    ensures r.(frame := a.frame, counter := a.counter) == a
    ensures a.move == 0 ==> r == a
  {
    if a.move == 0 then a
    else if a.counter + 1 >= a.animationDelay then
      a.(frame := if a.frame + 16 > 16 then 0 else a.frame + 16, counter := 0)
    else a.(counter := a.counter + 1)
  }

  /** The frame shows one of the two walking images and the counter is
      non-negative. */
  predicate AnimationOk(a: Actor) {
    (a.frame == 0 || a.frame == 16) && a.counter >= 0
  }

  /** Every operation keeps the animation state well formed. */
  lemma AnimationOkKept(a: Actor, solid: bool, num: int)
    requires AnimationOk(a)
    ensures AnimationOk(Animated(a)) && AnimationOk(Fallen(a)) && AnimationOk(Landed(a, solid))
    ensures AnimationOk(MovedLeft(a)) && AnimationOk(MovedRight(a)) && AnimationOk(MovedLeft2(a, num))
    ensures AnimationOk(Stopped(a)) && AnimationOk(Jumped(a))
  {
  }

  /** The two koopas start with a well-formed animation state. */
  lemma StartsAnimationOk()
    ensures AnimationOk(PrimaryStart()) && AnimationOk(SecondaryStart())
  {
  }

  /** `k` animation steps. */
  function AnimateSteps(a: Actor, k: nat): Actor
  {
    if k == 0 then a else Animated(AnimateSteps(a, k - 1))
  }

  /** Counting up: before `animationDelay` steps only the counter moves. */
  lemma {:induction false} AnimationCounts(a: Actor, k: nat)
    requires a.move != 0 && a.counter == 0 && k < a.animationDelay
    ensures AnimateSteps(a, k) == a.(counter := k)
  {
    if k > 0 {
      AnimationCounts(a, k - 1);
    }
  }

  /** A moving koopa whose counter starts at 0 shows the other image after
      exactly `animationDelay` steps, with the counter back at 0. */
  lemma AnimationPeriod(a: Actor)
    requires a.move != 0 && a.counter == 0 && a.animationDelay >= 1
    requires a.frame == 0 || a.frame == 16
    ensures AnimateSteps(a, a.animationDelay) == a.(frame := 16 - a.frame)
  {
    AnimationCounts(a, a.animationDelay - 1);
  }

  /** Which tiles `koopa_update` treats as ground. */
  predicate SolidForPrimary(tile: Word) { tile > 510 }

  /** Which tiles `koopa2_update` treats as ground: the two small ranges are
      already inside the last test, so this is every tile up to 0x22b. */
  predicate SolidForSecondary(tile: Word)
    ensures SolidForSecondary(tile) <==> tile <= 0x22b
  {
    (tile >= 1 && tile <= 6) || (tile >= 12 && tile <= 17) || tile <= 0x022b
  }

  /** The two koopas agree on the ground only for tiles 511 to 555. */
  lemma SolidityDiffers(tile: Word)
    ensures SolidForPrimary(tile) && SolidForSecondary(tile) <==> 511 <= tile <= 555
    ensures SolidForPrimary(tile) || SolidForSecondary(tile)
  {
  }

  /** The tile under a koopa's feet: 8 pixels right of and 32 pixels below
      its top-left corner, on the unscrolled-vertically map. */
  function FootTile(a: Actor, m: TileMap, xscroll: int): Word
    requires m.Valid()
  {
    TileAt(m, Pixel(a.x) + 8, Pixel(a.y) + 32, xscroll, 0)
  }

  /** `koopa_update` on the player's koopa. */
  function Updated(a: Actor, m: TileMap, xscroll: int): (r: Actor)
    requires m.Valid()
    ensures r.(y := a.y, yvel := a.yvel, falling := a.falling, frame := a.frame, counter := a.counter) == a
  {
    var f := Fallen(a);
    Animated(Landed(f, SolidForPrimary(FootTile(f, m, xscroll))))
  }

  /** `koopa2_update` on the second koopa: the tile it tests is under the
      player's koopa's feet, not its own. */
  function Updated2(a: Actor, primary: Actor, m: TileMap, xscroll: int): (r: Actor)
    requires m.Valid()
    ensures r.(y := a.y, yvel := a.yvel, falling := a.falling, frame := a.frame, counter := a.counter) == a
  {
    Animated(Landed(Fallen(a), SolidForSecondary(FootTile(primary, m, xscroll))))
  }

  /** After an update the koopa is either on the ground, snapped to a tile
      row, or falling; only `x`-independent fields and `y` change. */
  lemma UpdateLandsOrFalls(a: Actor, m: TileMap, xscroll: int)
    requires m.Valid()
    ensures var r := Updated(a, m, xscroll);
      (r.falling == 0 && r.yvel == 0 && r.y % 2048 == 1) || r.falling == 1
    ensures Updated(a, m, xscroll).x == a.x && Updated(a, m, xscroll).move == a.move
  {
  }

  /** A koopa resting on the ground over a solid tile does not move
      vertically. */
  lemma RestingStaysPut(a: Actor, m: TileMap, xscroll: int)
    requires m.Valid() && a.falling == 0 && a.y % 2048 == 1
    requires SolidForPrimary(FootTile(a, m, xscroll))
    ensures Updated(a, m, xscroll).y == a.y && Updated(a, m, xscroll).falling == 0
  {
  }

  /** The second koopa lands or falls by where the player's koopa stands:
      two second koopas in different places, updated against the same
      player's koopa, make the same landing decision. */
  lemma SecondaryFollowsPrimary(a: Actor, b: Actor, primary: Actor, m: TileMap, xscroll: int)
    requires m.Valid()
    ensures Updated2(a, primary, m, xscroll).falling == Updated2(b, primary, m, xscroll).falling
  {
  }

  /** `check`: both `x` are shifted by 8 before the comparison, so the test
      is plain equality of both coordinates. */
  function Collide(p: Actor, s: Actor): (r: bool)
    ensures r <==> p.x == s.x && p.y == s.y
  {
    p.x * 256 == s.x * 256 && p.y == s.y
  }

  // ---------------------------------------------------------------------
  // The sprite a koopa drives

  /** The sprite after an update: a new offset if the frame turned over,
      then the koopa's pixel position. */
  function Drawn(s: Sprite, before: Actor, after: Actor): (r: Sprite)
    ensures XOf(r) == Pixel(after.x) % 0x200 && YOf(r) == Pixel(after.y) % 0x100
  {
    var t := if TurnsFrame(before) then WithOffset(s, after.frame) else s;
    WithPosition(t, Pixel(after.x), Pixel(after.y))
  }

  /** After an update the sprite shows the koopa's new image when the
      frame turned over, and its old image otherwise. */
  lemma DrawnImage(s: Sprite, before: Actor, after: Actor)
    ensures TurnsFrame(before) ==> TileOf(Drawn(s, before, after)) == after.frame % 0x400
    ensures !TurnsFrame(before) ==> TileOf(Drawn(s, before, after)) == TileOf(s)
  {
  }

  /** Drawing keeps the way the sprite faces, its shape and its size. */
  lemma DrawnKeepsLook(s: Sprite, before: Actor, after: Actor)
    ensures var r := Drawn(s, before, after);
      && HorizontalFlip(r) == HorizontalFlip(s) && VerticalFlip(r) == VerticalFlip(s)
      && ShapeOf(r) == ShapeOf(s) && SizeOf(r) == SizeOf(s) && r.attr3 == s.attr3
  {
    var t := if TurnsFrame(before) then WithOffset(s, after.frame) else s;
    PositionKeepsAttributes(t, Pixel(after.x), Pixel(after.y));
  }

  /** A koopa: the fields of `struct Koopa` (or `struct Koopa2`), with its
      sprite as a slot of the sprite pool. */
  class Koopa {
    const sprite: int
    var x: int
    var y: int
    var yvel: int
    var gravity: int
    var frame: int
    var animationDelay: int
    var counter: int
    var move: int
    var border: int
    var falling: int

    ghost predicate Valid() {
      0 <= sprite < NumSprites
    }

    function State(): Actor
      reads this
    {
      Actor(x, y, yvel, gravity, frame, animationDelay, counter, move, border, falling)
    }

    /** `koopa_init`: the player's koopa and a 16x32 sprite for it. */
    constructor Primary(pool: SpritePool)
      requires pool.Valid() && pool.next < NumSprites
      modifies pool, pool.sprites
      ensures Valid() && State() == PrimaryStart() && sprite == old(pool.next)
      ensures pool.Valid() && pool.sprites == old(pool.sprites) && pool.next == old(pool.next) + 1
      ensures pool.sprites[..] == old(pool.sprites[..])[sprite :=
        Packed(Pixel(x), Pixel(y), Size16x32, false, false, frame, 0, old(pool.sprites[..])[sprite].attr3)]
    {
      var a := PrimaryStart();
      x, y, yvel, gravity, border := a.x, a.y, a.yvel, a.gravity, a.border;
      frame, move, counter, falling, animationDelay := a.frame, a.move, a.counter, a.falling, a.animationDelay;
      var index := pool.Init(Pixel(a.x), Pixel(a.y), Size16x32, false, false, a.frame, 0);
      sprite := index;
    }

    /** `koopa2_init`: the second koopa and a 16x32 sprite for it. */
    constructor Secondary(pool: SpritePool)
      requires pool.Valid() && pool.next < NumSprites
      modifies pool, pool.sprites
      ensures Valid() && State() == SecondaryStart() && sprite == old(pool.next)
      ensures pool.Valid() && pool.sprites == old(pool.sprites) && pool.next == old(pool.next) + 1
      ensures pool.sprites[..] == old(pool.sprites[..])[sprite :=
        Packed(Pixel(x), Pixel(y), Size16x32, false, false, frame, 0, old(pool.sprites[..])[sprite].attr3)]
    {
      var a := SecondaryStart();
      x, y, yvel, gravity, border := a.x, a.y, a.yvel, a.gravity, a.border;
      frame, move, counter, falling, animationDelay := a.frame, a.move, a.counter, a.falling, a.animationDelay;
      var index := pool.Init(Pixel(a.x), Pixel(a.y), Size16x32, false, false, a.frame, 0);
      sprite := index;
    }

    /** `koopa_left`: face left and step left unless at the edge; answers
        1 at the edge. */
    method Left(pool: SpritePool) returns (atEdge: int)
      requires Valid() && pool.Valid()
      modifies this, pool.sprites
      ensures State() == MovedLeft(old(State()))
      ensures atEdge == if AtLeftEdge(old(State())) then 1 else 0
      ensures pool.sprites[..] == old(pool.sprites[..])[sprite :=
        WithHorizontalFlip(old(pool.sprites[sprite]), true)]
    {
      pool.SetHorizontalFlip(sprite, true);
      move := 1;
      if Pixel(x) < border {
        return 1;
      } else {
        x := x - 256;
        return 0;
      }
    }

    /** `koopa2_left`: face left, remember the speed in `move`, and step
        left or wrap around to pixel 200.  Always answers 0. */
    method Left2(pool: SpritePool, num: int) returns (atEdge: int)
      requires Valid() && pool.Valid()
      modifies this, pool.sprites
      ensures State() == MovedLeft2(old(State()), num) && atEdge == 0
      ensures pool.sprites[..] == old(pool.sprites[..])[sprite :=
        WithHorizontalFlip(old(pool.sprites[sprite]), true)]
    {
      pool.SetHorizontalFlip(sprite, true);
      move := 1 + num;
      if Pixel(x) == border {
        x := 100 * 512;
      } else {
        x := x - 256;
      }
      return 0;
    }

    /** `koopa_right` (and the identical `koopa2_right`): face right and
        step right unless at the edge; answers 1 at the edge. */
    method Right(pool: SpritePool) returns (atEdge: int)
      requires Valid() && pool.Valid()
      modifies this, pool.sprites
      ensures State() == MovedRight(old(State()))
      ensures atEdge == if AtRightEdge(old(State())) then 1 else 0
      ensures pool.sprites[..] == old(pool.sprites[..])[sprite :=
        WithHorizontalFlip(old(pool.sprites[sprite]), false)]
    {
      pool.SetHorizontalFlip(sprite, false);
      move := 1;
      if Pixel(x) > ScreenWidth - 16 - border {
        return 1;
      } else {
        x := x + 256;
        return 0;
      }
    }

    /** `koopa_stop` (and the identical `koopa2_stop`): stand still on the
        first image. */
    method Stop(pool: SpritePool)
      requires Valid() && pool.Valid()
      modifies this, pool.sprites
      ensures State() == Stopped(old(State()))
      ensures pool.sprites[..] == old(pool.sprites[..])[sprite := WithOffset(old(pool.sprites[sprite]), 0)]
    {
      move := 0;
      frame := 0;
      counter := 7;
      pool.SetOffset(sprite, frame);
    }

    /** `koopa_jump` (and the identical `koopa2_jump`). */
    method Jump()
      modifies this
      ensures State() == Jumped(old(State()))
    {
      if falling == 0 {
        yvel := -1500;
        falling := 1;
      }
    }

    /** The animation step and sprite placement that end both updates. */
    method Animate(pool: SpritePool)
      requires Valid() && pool.Valid()
      modifies this, pool.sprites
      ensures State() == Animated(old(State()))
      ensures pool.sprites[..] == old(pool.sprites[..])[sprite :=
        Drawn(old(pool.sprites[sprite]), old(State()), State())]
    {
      if move != 0 {
        counter := counter + 1;
        if counter >= animationDelay {
          frame := frame + 16;
          if frame > 16 {
            frame := 0;
          }
          pool.SetOffset(sprite, frame);
          counter := 0;
        }
      }
      pool.Position(sprite, Pixel(x), Pixel(y));
    }

    /** The falling step that begins both updates. */
    method Fall()
      modifies this
      ensures State() == Fallen(old(State()))
    {
      if falling != 0 {
        y := y + yvel;
        yvel := yvel + gravity;
      }
    }

    /** Landing on, or stepping off, the ground. */
    method Land(solid: bool)
      modifies this
      ensures State() == Landed(old(State()), solid)
    {
      if solid {
        falling := 0;
        yvel := 0;
        y := y - y % 2048;
        y := y + 1;
      } else {
        falling := 1;
      }
    }

    /** `koopa_update`: fall, probe the tile under the feet, land or fall,
        animate, and place the sprite. */
    method Update(pool: SpritePool, m: TileMap, xscroll: int)
      requires Valid() && pool.Valid() && m.Valid()
      modifies this, pool.sprites
      ensures State() == Updated(old(State()), m, xscroll)
      ensures pool.sprites[..] == old(pool.sprites[..])[sprite :=
        Drawn(old(pool.sprites[sprite]), old(State()), State())]
    {
      Fall();
      var tile := TileLookup(Pixel(x) + 8, Pixel(y) + 32, xscroll, 0, m);
      Land(tile > 510);
      Animate(pool);
    }

    /** `koopa2_update`: as `koopa_update`, but the tile probed is under the
        player's koopa's feet and the ground test is the second one. */
    method Update2(primary: Koopa, pool: SpritePool, m: TileMap, xscroll: int)
      requires Valid() && pool.Valid() && m.Valid() && primary != this
      modifies this, pool.sprites
      ensures State() == Updated2(old(State()), primary.State(), m, xscroll)
      ensures pool.sprites[..] == old(pool.sprites[..])[sprite :=
        Drawn(old(pool.sprites[sprite]), old(State()), State())]
    {
      Fall();
      var tile := TileLookup(Pixel(primary.x) + 8, Pixel(primary.y) + 32, xscroll, 0, m);
      Land((tile >= 1 && tile <= 6) || (tile >= 12 && tile <= 17) || tile <= 0x022b);
      Animate(pool);
    }
  }
}
