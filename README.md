# trex: sprites, tile lookup and koopas of a Game Boy Advance demo

`Final/trex.c` is a small side-scroller for the Game Boy Advance. Two koopas
stand on a scrolling tile map. The player's koopa jumps when UP is pressed.
The second koopa walks left one pixel per frame and wraps around at its
border. Every press raises the speed, and the screen scrolls by the speed
each frame. The round ends when the two meet. Under the register writes and DMA copies
there is a layer of integer and bit-field logic, and this project models
that layer:

- **Bits** (`bits.dfy`): 16-bit attribute words as integers in
  `[0, 0x10000)`. The C operators `&` and `|` are defined bit by bit
  (`And`, `Or`), with `Bit(w, i)` for `(w >> i) & 1`. Lemmas connect them
  with `% 2^k` and `/ 2^k`: a low mask keeps the remainder, a high mask
  rounds down, `|` of disjoint parts is `+`, and setting or clearing one
  bit keeps every other bit.
- **Sprites** (`sprites.dfy`): the pool of 128 sprites of four attribute
  words each, and the counter of slots handed out (`SpritePool`, a class
  over an `array`). Its methods are `sprite_init`, `sprite_clear`,
  `sprite_position`, `sprite_move`, the two flip setters and
  `sprite_set_offset`. Each is specified by a function on one `Sprite`
  value (`Packed`, `Parked`, `WithPosition`, `Moved`,
  `WithHorizontalFlip`, `WithVerticalFlip`, `WithOffset`). Those functions
  state which field changes and that the other bits stay. Lemmas show
  that reading the fields back returns what `sprite_init` stored, and
  that a second call of a setter overrides the first.
- **Tiles** (`tiles.dfy`): `tile_lookup` as a method with the source's
  four wrap-around loops. It is proved equal to the spec function
  `TileAt`, which uses floor division by 8 and the Euclidean remainder.
- **Koopas** (`koopas.dfy`): the koopa state as an `Actor` value, and a
  `Koopa` class whose fields are those of `struct Koopa` / `struct Koopa2`.
  The class methods are `koopa_init`, `koopa2_init`, `koopa_left`,
  `koopa2_left`, `koopa_right`, `koopa_stop`, `koopa_jump`,
  `koopa_update` and `koopa2_update`. Each method is proved to change the
  state as a spec function says (`MovedLeft`, `MovedLeft2`, `MovedRight`,
  `Stopped`, `Jumped`, `Updated`, `Updated2`), and the sprite slot as
  `WithHorizontalFlip`, `WithOffset` or `Drawn` says. `check` is
  `Collide`. Lemmas cover:
  - walking up to the border and stopping there;
  - the second koopa's wrap-around cycle;
  - the closed form of the Euler fall;
  - snapping to a tile row;
  - the two-image animation cycle;
  - the two ground tests.
- **Game** (`game.dfy`): the setup of a round and one pass of the inner
  loop of `main`, with the button as a boolean input. `Frames` runs a
  sequence of button states. Lemmas over any sequence of frames show:
  - each press adds one to the speed;
  - while the round is not over, the screen scrolls at least one pixel per
    frame;
  - the player's koopa never moves sideways;
  - the second koopa stays between its border and pixel 200;
  - both animation states stay well formed.

C semantics that matter here are written out:
- `v >> 8` and `v >> 3` on an `int` round towards minus infinity, which is
  Dafny's `/` by a positive divisor.
- `y &= ~0x7ff` rounds down to a multiple of 2048. `Snapped` is that
  rounding for every `y`; `SnapClearsLowBits` proves that the mask computes
  it for non-negative `y` below 2^31.
- Storing an `int` into an `unsigned short` keeps the value modulo 2^16
  (`Low16`).
- The fields `sprite_init` does not mask spill into their neighbours. The
  round trip is proved for arguments inside their fields.

In `koopa2_update` the ground test `tile <= 0x022b` already contains the
ranges 1-6 and 12-17 it is or-ed with, so the second koopa's ground test is
`tile <= 0x22b` (`SolidForSecondary`). `SolidityDiffers` shows where it
overlaps the player's koopa's test `tile > 510`.

## Model

| member | source | states |
|---|---|---|
| Sprites.ShapeAndSize | Final/trex.c:231-245 | the shape bits of every size fit their two-bit field below 3, and the size bits below 4 |
| Sprites.ShapeAndSizeDimensions | Final/trex.c:231-245 | each entry of the `sprite_init` size table makes the hardware draw a sprite of the width and height the size is named after |
| Sprites.ShapeAndSizeInjective | Final/trex.c:231-245 | no two sizes share shape and size bits |
| Sprites.InitAttr0 | Final/trex.c:251-256 | the `attribute0` that `sprite_init` builds always has the 256-colour bit (bit 13) set |
| Sprites.InitAttr1 | Final/trex.c:259-263 | the `attribute1` that `sprite_init` builds has bit 12 set when the horizontal flag is 1 and bit 13 set when the vertical flag is 1 |
| Sprites.InitAttr2 | Final/trex.c:266-268 | `attribute2` as `sprite_init` builds it: the tile index or-ed with the priority shifted left by 10, cut to 16 bits; `PackedAttr2` gives its value for in-range arguments |
| Sprites.Packed | Final/trex.c:224-272 | the sprite `sprite_init` writes has the 256-colour bit set, the flip bits set when asked, and `attribute3` unchanged |
| Sprites.PackedAttr0 | Final/trex.c:251-256 | with `y` below 256, `attribute0` is `y + 0x2000 + shape * 0x4000`: the `|` of the fields is their sum |
| Sprites.PackedAttr1 | Final/trex.c:259-263 | with `x` below 512, `attribute1` is `x + h * 0x1000 + v * 0x2000 + size * 0x4000` |
| Sprites.PackedAttr2 | Final/trex.c:266-268 | with the tile below 1024 and the priority below 4, `attribute2` is `tile + priority * 0x400` |
| Sprites.PackedRoundTrip | Final/trex.c:224-272 | with every argument inside its field, reading back y, x, tile, priority, shape, size, both flips and the colour mode from the written sprite returns exactly what was passed and the table entry for the size |
| Sprites.WithPosition | Final/trex.c:293-305 | `sprite_position` stores `y mod 256` and `x mod 512` and keeps the upper bits of both words and the other two words |
| Sprites.Moved | Final/trex.c:308-317 | `sprite_move` stores `(old y + dy) mod 256` and `(old x + dx) mod 512` and keeps every other bit |
| Sprites.WithHorizontalFlip | Final/trex.c:331-339 | the horizontal flip bit becomes the argument, every other bit of `attribute1` and the other words stay |
| Sprites.WithVerticalFlip | Final/trex.c:320-328 | the vertical flip bit becomes the argument, every other bit of `attribute1` and the other words stay |
| Sprites.WithOffset | Final/trex.c:342-348 | the tile index becomes `offset mod 1024`, the top six bits of `attribute2` and the other words stay |
| Sprites.Parked | Final/trex.c:286-289 | a cleared slot reads back x = 240 and y = 160, with `attribute2` and `attribute3` untouched |
| Sprites.PositionLastWins | Final/trex.c:293-305 | two `sprite_position` calls equal the second one alone (so it is idempotent) |
| Sprites.MovesCompose | Final/trex.c:308-317 | two `sprite_move` calls equal one move by the summed deltas |
| Sprites.PositionKeepsAttributes | Final/trex.c:293-305 | `sprite_position` keeps both flips, the shape, the size, the colour mode, the tile and the priority |
| Sprites.HorizontalFlipLastWins | Final/trex.c:331-339 | the last horizontal-flip write decides the sprite (idempotent) |
| Sprites.VerticalFlipLastWins | Final/trex.c:320-328 | the last vertical-flip write decides the sprite (idempotent) |
| Sprites.FlipsCommute | Final/trex.c:320-339 | the two flip setters can be called in either order |
| Sprites.OffsetLastWins | Final/trex.c:342-348 | two `sprite_set_offset` calls equal the second one alone |
| Sprites.SpritePool.constructor | Final/trex.c:204-205 | the pool starts with 128 zeroed slots and the counter at 0 |
| Sprites.SpritePool.Init | Final/trex.c:224-272 | `sprite_init` returns the old counter, increments it by one, and writes `Packed(...)` into that slot only, keeping its `attribute3` |
| Sprites.SpritePool.Clear | Final/trex.c:281-290 | the counter becomes 0 and every one of the 128 slots is `Parked` |
| Sprites.SpritePool.Position | Final/trex.c:293-305 | only the given slot changes, to `WithPosition` of its old value |
| Sprites.SpritePool.Move | Final/trex.c:308-317 | only the given slot changes, to `Moved` of its old value |
| Sprites.SpritePool.SetVerticalFlip | Final/trex.c:320-328 | only the given slot changes, to `WithVerticalFlip` of its old value |
| Sprites.SpritePool.SetHorizontalFlip | Final/trex.c:331-339 | only the given slot changes, to `WithHorizontalFlip` of its old value |
| Sprites.SpritePool.SetOffset | Final/trex.c:342-348 | only the given slot changes, to `WithOffset` of its old value |
| Bits.Low16Stores | Final/trex.c:251-268 | storing an `int` into an `unsigned short` keeps a value that fits, and otherwise differs from it by a multiple of 2^16 |
| Bits.SetLowField | Final/trex.c:296-304 | or-ing `a & high` with `v & low`, for complementary masks, keeps `a`'s bits above `k` and takes `v mod 2^k` below, and stays a 16-bit word |
| Bits.SetBitFrame | Final/trex.c:323 | or-ing `1 << k` into `w` sets bit `k` and keeps every other bit |
| Bits.ClearBitFrame | Final/trex.c:326 | `w & mask`, with the mask missing only bit `k`, clears bit `k` and keeps every other bit |
| Tiles.Wrapped | Final/trex.c:555-574 | a wrapped tile coordinate lies in `[0, n)` |
| Tiles.CellIndex | Final/trex.c:577 | the row-major index `y * w + x` lies inside the map |
| Tiles.TileAt | Final/trex.c:551-581 | the tile read at any pixel and scroll is one of the map's cells |
| Tiles.TileLookup | Final/trex.c:551-581 | the four loops end and the tile read is the one at column `floor((x + xscroll) / 8) mod w`, row `floor((y + yscroll) / 8) mod h` |
| Tiles.TileAtPeriodic | Final/trex.c:551-581 | moving by whole map widths or heights, in either direction, reads the same tile |
| Tiles.WrappedInside | Final/trex.c:555-574 | a pixel already on the map needs no wrapping |
| Koopas.PrimaryStart | Final/trex.c:425-436 | `koopa_init` puts the player's koopa at pixel (100, 113), standing still, falling, and inside both of its borders |
| Koopas.SecondaryStart | Final/trex.c:440-451 | `koopa2_init` puts the second koopa at pixel (100, 113), moving, on the ground, and between its border and pixel 200 |
| Koopas.MovedLeft | Final/trex.c:456-469 | `koopa_left` changes only `x` and `move` |
| Koopas.MovedRight | Final/trex.c:488-501 | `koopa_right` changes only `x` and `move` |
| Koopas.MovedLeft2 | Final/trex.c:472-486 | `koopa2_left` changes only `x` and `move` |
| Koopas.LeftKeepsBorder | Final/trex.c:462-468 | a step left goes at most one pixel past the border, and `x` stays put exactly when the koopa is left of its border |
| Koopas.RightKeepsBorder | Final/trex.c:494-500 | the same at the right-hand border `240 - 16 - border` |
| Koopas.RightUndoesLeft | Final/trex.c:456-501 | away from both borders, a step right undoes a step left |
| Koopas.HoldingLeft | Final/trex.c:456-469 | `n` steps left walk one pixel each until one pixel past the border, then stop, keeping the sub-pixel part |
| Koopas.Left2StaysOnTrack | Final/trex.c:472-486 | the second koopa stays between its border and pixel 200 |
| Koopas.Left2Walks | Final/trex.c:472-486 | until the border, each `koopa2_left` moves exactly 256 units |
| Koopas.Left2Cycle | Final/trex.c:478-482 | from pixel 200 the second koopa is back at pixel 200 after `200 - border + 1` calls |
| Koopas.Stopped | Final/trex.c:519-524 | `koopa_stop` sets `move` and `frame` to 0 and changes only `move`, `frame` and `counter` |
| Koopas.Jumped | Final/trex.c:535-549 | after a jump the koopa is in the air; a koopa already in the air is unchanged; only `yvel` and `falling` change |
| Koopas.JumpIdempotent | Final/trex.c:535-549 | jumping twice is jumping once |
| Koopas.Fallen | Final/trex.c:587-590 | the falling step changes only `y` and `yvel` |
| Koopas.Falling | Final/trex.c:587-590 | after `n` falling frames `yvel` has grown by `n * gravity` and `y` by `n * yvel + n(n-1)/2 * gravity` |
| Koopas.Snapped | Final/trex.c:605-607 | a snapped position is 1 modulo 2048 and lies within 2046 units below and 1 unit above the old one |
| Koopas.SnapClearsLowBits | Final/trex.c:605-607 | for a non-negative 32-bit `y`, `(y & ~0x7ff) + 1` is the snapped position |
| Koopas.SnapIdempotent | Final/trex.c:605-607 | snapping a snapped position changes nothing |
| Koopas.Landed | Final/trex.c:598-613 | on a solid tile the koopa stops falling with `yvel` 0 and `y` 1 modulo 2048; otherwise only `falling` becomes 1 |
| Koopas.Animated | Final/trex.c:617-627 | the animation step changes only `frame` and `counter`, and nothing at all when the koopa does not move |
| Koopas.AnimationOkKept | Final/trex.c:617-627 | every operation keeps `frame` in {0, 16} and `counter` non-negative |
| Koopas.StartsAnimationOk | Final/trex.c:426-453 | both koopas start with a well-formed animation state |
| Koopas.AnimationCounts | Final/trex.c:617-627 | before `animation_delay` steps only the counter moves |
| Koopas.AnimationPeriod | Final/trex.c:617-627 | a moving koopa switches image after exactly `animation_delay` steps and its counter is back at 0 |
| Koopas.SolidForPrimary | Final/trex.c:598 | `koopa_update`'s ground test: a tile index above 510 is ground |
| Koopas.SolidForSecondary | Final/trex.c:647-648 | the second koopa's ground test is exactly `tile <= 0x22b` |
| Koopas.SolidityDiffers | Final/trex.c:598-648 | the two ground tests agree only on tiles 511 to 555, and every tile is ground for at least one of them |
| Koopas.FootTile | Final/trex.c:593 | the tile probed under a koopa's feet: pixel `(x >> 8) + 8`, `(y >> 8) + 32` with the horizontal scroll and vertical scroll 0, as `tile_lookup` reads it (`TileLookup`) |
| Koopas.Updated | Final/trex.c:585-631 | `koopa_update` changes only `y`, `yvel`, `falling`, `frame` and `counter` |
| Koopas.Updated2 | Final/trex.c:635-681 | `koopa2_update` changes only `y`, `yvel`, `falling`, `frame` and `counter` |
| Koopas.UpdateLandsOrFalls | Final/trex.c:585-631 | after `koopa_update` the koopa is on the ground (snapped, no speed) or falling, with `x` and `move` unchanged |
| Koopas.RestingStaysPut | Final/trex.c:587-607 | a koopa resting snapped on solid ground stays where it is |
| Koopas.SecondaryFollowsPrimary | Final/trex.c:643-648 | the second koopa's landing decision depends only on where the player's koopa stands |
| Koopas.Collide | Final/trex.c:683-691 | `check` is true exactly when both `x` and both `y` are equal |
| Koopas.Drawn | Final/trex.c:624-630 | after an update the sprite shows the koopa's pixel position, `x >> 8` modulo 512 and `y >> 8` modulo 256 |
| Koopas.DrawnImage | Final/trex.c:617-627 | after an update the sprite shows the new image when the frame turned over, and the old one otherwise |
| Koopas.DrawnKeepsLook | Final/trex.c:617-630 | an update keeps the way the sprite faces, its shape, its size and `attribute3` |
| Koopas.Koopa.Primary | Final/trex.c:426-438 | `koopa_init`'s field values, and a 16x32 sprite at the koopa's pixel position in the next pool slot |
| Koopas.Koopa.Secondary | Final/trex.c:441-453 | `koopa2_init`'s field values, and a 16x32 sprite at the koopa's pixel position in the next pool slot |
| Koopas.Koopa.Left | Final/trex.c:456-469 | the state becomes `MovedLeft`, the answer is 1 exactly at the border, and the sprite faces left |
| Koopas.Koopa.Left2 | Final/trex.c:472-486 | the state becomes `MovedLeft2`, the answer is 0, and the sprite faces left |
| Koopas.Koopa.Right | Final/trex.c:488-516 | the state becomes `MovedRight`, the answer is 1 exactly at the border, and the sprite faces right |
| Koopas.Koopa.Stop | Final/trex.c:519-532 | the state becomes `Stopped` and the sprite shows tile 0 |
| Koopas.Koopa.Jump | Final/trex.c:535-549 | the state becomes `Jumped` |
| Koopas.Koopa.Fall | Final/trex.c:587-590 | the state becomes `Fallen` |
| Koopas.Koopa.Land | Final/trex.c:598-613 | the state becomes `Landed` for the given ground test |
| Koopas.Koopa.Animate | Final/trex.c:617-630 | the state becomes `Animated`, and the sprite becomes `Drawn` |
| Koopas.Koopa.Update | Final/trex.c:585-631 | the state becomes `Updated`: fall, probe under its own feet, land or fall, animate; the sprite becomes `Drawn` |
| Koopas.Koopa.Update2 | Final/trex.c:635-681 | the state becomes `Updated2`: the same steps, but probing under the player's koopa's feet with the second ground test |
| Game.Step | Final/trex.c:725-740 | a frame adds one to the speed on a press, scrolls by the new speed, and keeps the player's koopa's `x` and the second koopa's border |
| Game.Frames | Final/trex.c:725-761 | once the koopas have met, no further frame is played |
| Game.StepKeeps | Final/trex.c:725-740 | a frame keeps the second koopa on its track and both animation states well formed |
| Game.SpeedAndScroll | Final/trex.c:725-761 | over any frames the speed grows by at most the number of presses and the scroll never decreases; while the round is not over, the speed has grown by exactly the number of presses and the scroll by at least one pixel per frame |
| Game.PrimaryStaysInPlace | Final/trex.c:725-761 | over any frames the player's koopa never moves sideways |
| Game.SecondaryStaysOnTrack | Final/trex.c:725-761 | over any frames the second koopa stays between its border and pixel 200 |
| Game.AnimationStaysOk | Final/trex.c:725-761 | over any frames both animation states stay well formed |
| Game.Start | Final/trex.c:709-722 | after the setup the player's koopa has stepped one pixel right to pixel 101 and is moving, the second koopa is as `koopa2_init` left it, the scroll is 0 and the speed 1 |
| Game.StartIsOk | Final/trex.c:709-722 | the round starts with the second koopa on its track, both animations well formed and speed 1 |
| Game.StartRound | Final/trex.c:709-722 | the setup leaves the state `Start()`, the counter at 2 and every other slot parked; slot 0 holds the player's 16x32 sprite at pixel (100, 113) turned to face right by `koopa_right`, and slot 1 the second koopa's sprite as `koopa2_init` wrote it |
| Game.PlayFrame | Final/trex.c:725-754 | one pass of the inner loop takes the round to `Step` of the old round and reports `check`. Only the two koopas' sprite slots change. The player's sprite is `Drawn` at its koopa's position after `koopa_update`. The second sprite is `Drawn` at its koopa's position after `koopa2_update` and then flipped left. So it shows the position from before `koopa2_left` moved the koopa |

## Left out

- Register writes are not modelled: display control, background control, the scroll registers and palettes. The model keeps the scroll value but not the registers, including the second background's double rate.
- `wait_vblank` and `delay` are timing loops over hardware state and are not modelled.
- `memcpy16_dma` and `sprite_update_all` hand the sprite table to the DMA engine; the pool array stands in for that memory.
- `setup_background`, `setup_sprite_image`, `char_block` and `screen_block` are not modelled: they copy asset data from headers that are not part of this model, or compute hardware addresses. The tile map is a parameter (`TileMap`).
- `button_pressed` reads a hardware register. Its result for UP is the boolean input `up` of `PlayFrame`, and a sequence of them for `Frames`.
- The endless outer and inner `while (1)` loops of `main` are not modelled as loops. `StartRound`, `PlayFrame` and `Frames` cover one round. The restart after a collision and the interrupt handler are left out.
- 32-bit `int` overflow is not modelled. Positions, velocities, the scroll and the speed are unbounded integers. In particular, `Koopas.Collide` treats `x << 8` as exact, so two `x` values that differ by a multiple of 2^24 and would compare equal after wrap-around are unequal in the model.
- The unused second tile lookup in `koopa_update` (`tile2`, Final/trex.c:594) has no effect and is not modelled. The `koopa2` parameter of `koopa_update` is only used by it and is dropped.
- `koopa2_right`, `koopa2_stop` and `koopa2_jump` have the same bodies as `koopa_right`, `koopa_stop` and `koopa_jump`. One method of the shared `Koopa` class models each pair.
- Sprites.SpritePool.Init: requires a free slot (`next < 128`). The source does not check and writes past the array when all slots are taken; the model does not describe that out-of-bounds write.
- Sprites.PackedRoundTrip: holds only for arguments inside their fields. Out-of-range `x`, `y`, tile index or priority spill into the neighbouring fields, and the model computes that spill (`InitAttr0`, `InitAttr1`, `InitAttr2`) without a lemma about it.
