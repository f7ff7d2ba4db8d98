/** One round of the game: the setup at the top of `main` and one pass of
 * its inner loop.  The button is an input of each frame; waiting for the
 * vertical blank, the scroll registers, the DMA of the sprite table and the
 * delay are hardware effects and are not modelled.
 */
module Game {
  import opened Sprites
  import opened Tiles
  import opened Koopas

  /** The state the inner loop carries from frame to frame. */
  datatype Round = Round(primary: Actor, secondary: Actor, xscroll: int, speed: int)

  /** The round as the setup leaves it: both koopas initialised, the
      player's koopa stepped right once, no scroll, speed 1. */
  function Start(): (r: Round)
    ensures Pixel(r.primary.x) == 101 && r.primary.move == 1
    ensures r.secondary == SecondaryStart() && r.xscroll == 0 && r.speed == 1
  {
    Round(MovedRight(PrimaryStart()), SecondaryStart(), 0, 1)
  }

  /** One frame: update both koopas, on a press speed up and jump, walk the
      second koopa at the current speed, and scroll by the speed. */
  function Step(r: Round, m: TileMap, up: bool): (n: Round)
    requires m.Valid()
    ensures n.speed == r.speed + (if up then 1 else 0) && n.xscroll == r.xscroll + n.speed
    ensures n.primary.x == r.primary.x && n.secondary.border == r.secondary.border
  {
    var p := Updated(r.primary, m, r.xscroll);
    var s := Updated2(r.secondary, p, m, r.xscroll);
    var speed := if up then r.speed + 1 else r.speed;
    Round(if up then Jumped(p) else p, MovedLeft2(s, speed), r.xscroll + speed, speed)
  }

  /** The round ends when `check` sees the two koopas meet. */
  predicate Over(r: Round) {
    Collide(r.primary, r.secondary)
  }

  /** The frames of a round for the given button presses, until it is over. */
  function Frames(r: Round, m: TileMap, ups: seq<bool>): (e: Round)
    requires m.Valid()
    ensures Over(r) ==> e == r
    decreases |ups|
  {
    if |ups| == 0 || Over(r) then r else Frames(Step(r, m, ups[0]), m, ups[1..])
  }

  /** How many of the frames had the button pressed. */
  function Presses(ups: seq<bool>): nat
  {
    if |ups| == 0 then 0 else (if ups[0] then 1 else 0) + Presses(ups[1..])
  }

  /** One frame keeps the second koopa on its track and both animation
      states well formed. */
  lemma StepKeeps(r: Round, m: TileMap, up: bool)
    requires m.Valid()
    ensures r.secondary.border <= Pixel(r.secondary.x) <= 200 ==>
      Step(r, m, up).secondary.border <= Pixel(Step(r, m, up).secondary.x) <= 200
    ensures AnimationOk(r.primary) && AnimationOk(r.secondary) ==>
      AnimationOk(Step(r, m, up).primary) && AnimationOk(Step(r, m, up).secondary)
  {
  }

  /** Each press raises the speed by one, and the screen scrolls by at
      least one pixel per frame while the speed is positive. */
  lemma {:induction false} SpeedAndScroll(r: Round, m: TileMap, ups: seq<bool>)
    requires m.Valid() && r.speed >= 1
    ensures var e := Frames(r, m, ups);
      r.speed <= e.speed <= r.speed + Presses(ups) && e.xscroll >= r.xscroll
    ensures var e := Frames(r, m, ups);
      !Over(e) ==> e.speed == r.speed + Presses(ups) && e.xscroll >= r.xscroll + |ups|
    decreases |ups|
  {
    if |ups| > 0 && !Over(r) {
      var n := Step(r, m, ups[0]);
      assert Frames(r, m, ups) == Frames(n, m, ups[1..]);
      SpeedAndScroll(n, m, ups[1..]);
    }
  }

  /** No frame moves the player's koopa sideways: only the second koopa
      walks, towards it. */
  lemma {:induction false} PrimaryStaysInPlace(r: Round, m: TileMap, ups: seq<bool>)
    requires m.Valid()
    ensures Frames(r, m, ups).primary.x == r.primary.x
    decreases |ups|
  {
    if |ups| > 0 && !Over(r) {
      var n := Step(r, m, ups[0]);
      assert Frames(r, m, ups) == Frames(n, m, ups[1..]);
      PrimaryStaysInPlace(n, m, ups[1..]);
    }
  }

  /** The second koopa stays between its border and pixel 200 for the whole
      round. */
  lemma {:induction false} SecondaryStaysOnTrack(r: Round, m: TileMap, ups: seq<bool>)
    requires m.Valid() && r.secondary.border <= Pixel(r.secondary.x) <= 200
    ensures var s := Frames(r, m, ups).secondary;
      s.border == r.secondary.border && s.border <= Pixel(s.x) <= 200
    decreases |ups|
  {
    if |ups| > 0 && !Over(r) {
      var n := Step(r, m, ups[0]);
      assert Frames(r, m, ups) == Frames(n, m, ups[1..]);
      StepKeeps(r, m, ups[0]);
      SecondaryStaysOnTrack(n, m, ups[1..]);
    }
  }

  /** Both koopas keep a well-formed animation state for the whole round. */
  lemma {:induction false} AnimationStaysOk(r: Round, m: TileMap, ups: seq<bool>)
    requires m.Valid() && AnimationOk(r.primary) && AnimationOk(r.secondary)
    ensures AnimationOk(Frames(r, m, ups).primary) && AnimationOk(Frames(r, m, ups).secondary)
    decreases |ups|
  {
    if |ups| > 0 && !Over(r) {
      var n := Step(r, m, ups[0]);
      assert Frames(r, m, ups) == Frames(n, m, ups[1..]);
      StepKeeps(r, m, ups[0]);
      AnimationStaysOk(n, m, ups[1..]);
    }
  }

  /** The round starts with the second koopa on its track and both
      animation states well formed. */
  lemma StartIsOk()
    ensures var r := Start();
      r.secondary.border <= Pixel(r.secondary.x) <= 200
      && AnimationOk(r.primary) && AnimationOk(r.secondary) && r.speed == 1
  {
    PixelStep(0, 100);
  }

  /** The setup of a round in `main`: clear the sprites, create the two
      koopas in slots 0 and 1, step the player's koopa right. */
  method StartRound(pool: SpritePool) returns (koopa: Koopa, koopa2: Koopa, xscroll: int, speed: int)
    requires pool.Valid()
    modifies pool, pool.sprites
    ensures fresh(koopa) && fresh(koopa2) && koopa.Valid() && koopa2.Valid()
    ensures Round(koopa.State(), koopa2.State(), xscroll, speed) == Start()
    ensures koopa.sprite == 0 && koopa2.sprite == 1
    ensures pool.Valid() && pool.sprites == old(pool.sprites) && pool.next == 2
    ensures forall i :: 2 <= i < NumSprites ==> pool.sprites[i] == Parked(old(pool.sprites[i]))
    ensures pool.sprites[0] == WithHorizontalFlip(Packed(100, 113, Size16x32, false, false, 0, 0,
      old(pool.sprites[0].attr3)), false)
    ensures pool.sprites[1] == Packed(Pixel(koopa2.x), Pixel(koopa2.y), Size16x32,
      false, false, koopa2.frame, 0, old(pool.sprites[1].attr3))
  {
    pool.Clear();
    koopa := new Koopa.Primary(pool);
    koopa2 := new Koopa.Secondary(pool);
    xscroll := 0;
    var _ := koopa.Right(pool);
    speed := 1;
  }

  /** One pass of the inner loop of `main`, up to `check`.  `over` is
      whether the loop ends. */
  method PlayFrame(koopa: Koopa, koopa2: Koopa, pool: SpritePool, m: TileMap,
                   xscroll: int, speed: int, up: bool)
    returns (xscroll': int, speed': int, over: bool)
    requires koopa != koopa2 && koopa.Valid() && koopa2.Valid() && koopa.sprite != koopa2.sprite
    requires pool.Valid() && m.Valid()
    modifies koopa, koopa2, pool.sprites
    ensures Round(koopa.State(), koopa2.State(), xscroll', speed')
         == Step(Round(old(koopa.State()), old(koopa2.State()), xscroll, speed), m, up)
    ensures over == Over(Round(koopa.State(), koopa2.State(), xscroll', speed'))
    ensures var p := Updated(old(koopa.State()), m, xscroll);
      pool.sprites[koopa.sprite] == Drawn(old(pool.sprites[koopa.sprite]), old(koopa.State()), p)
    ensures var s := Updated2(old(koopa2.State()), Updated(old(koopa.State()), m, xscroll), m, xscroll);
      pool.sprites[koopa2.sprite] == WithHorizontalFlip(Drawn(old(pool.sprites[koopa2.sprite]), old(koopa2.State()), s), true)
    ensures forall i :: 0 <= i < NumSprites && i != koopa.sprite && i != koopa2.sprite ==>
      pool.sprites[i] == old(pool.sprites[i])
    ensures XOf(pool.sprites[koopa.sprite]) == Pixel(koopa.x) % 0x200
    ensures YOf(pool.sprites[koopa.sprite]) == Pixel(koopa.y) % 0x100
    ensures HorizontalFlip(pool.sprites[koopa2.sprite])
  {
    koopa.Update(pool, m, xscroll);
    koopa2.Update2(koopa, pool, m, xscroll);
    speed' := speed;
    if up {
      speed' := speed' + 1;
      koopa.Jump();
    }
    var _ := koopa2.Left2(pool, speed');
    xscroll' := xscroll + speed';
    over := Collide(koopa.State(), koopa2.State());
  }
}
