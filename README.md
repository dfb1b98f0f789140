# WalkTheDog character step, modelled in Dafny

This project models the per-tick core of the `WalkTheDog` game (`src/game.rs`):
a character that walks in two dimensions while a running animation loops.

- `Engine` (`engine.dfy`) abstracts what the game consumes from its engine: an
  integer `Point`, a sprite `Sheet` mapping cell names such as `"Run (3).png"` to
  cells, an opaque `Image` handle, and a `KeyState` holding the set of pressed key codes.
- `Format` (`format.dfy`) is the decimal rendering of an unsigned number that
  `format!("{}", …)` performs, with a parser as its partner and a round-trip proof.
- `Game` (`game.dfy`) holds the `WalkTheDog` class with fields `image`, `sheet`,
  `frame` (a `u8`) and `position`. It provides:
  - the constructor (`new`);
  - `Initialize`, which builds a loaded game from the two fetch results and keeps `frame` and `position`;
  - `Update`, the in-place tick;
  - `Draw`, the cell lookup that `draw` performs.
  Beside the class are the pure functions that specify these operations:
  - `NextFrame` and `FrameAfter` for the animation counter;
  - `Velocity`, `Moved` and `PositionAfter` for movement;
  - `SpriteIndex`, `FrameName` and `LookupCell` for picking the sprite cell.

The animation counter takes the values 0..23 and wraps back to 0. One sprite cell
covers three ticks, so the counter selects cells 1..8. Holding "D"/"A" moves x by
+3/−3 per tick, and holding "S"/"W" moves y by +3/−3. Opposite keys cancel.

## Model

| member | source | states |
|---|---|---|
| `Game.WalkTheDog.constructor` | src/game.rs:19-26 | a new game has no image and no sheet, counter 0 and position (0, 0) |
| `Game.WalkTheDog.Initialize` | src/game.rs:31-43 | a failed description fetch is reported first, then a failed image load; on success the new game holds the fetched sheet and `Some(image)` and carries over `frame` and `position` unchanged |
| `Game.WalkTheDog.FromParts` | src/game.rs:37-42 | the assembled game's `image`, `sheet`, `frame` and `position` are each exactly the argument given |
| `Game.WalkTheDog.Update` | src/game.rs:45-67 | the new position is the old one moved by `Velocity` of the held keys; the counter becomes `NextFrame` of the old one and is within 0..23 afterwards; `image` and `sheet` are unchanged |
| `Game.NextFrame` | src/game.rs:62-66 | after one tick the counter is at most 23 whatever it was; from 0..23 it advances by one modulo 24; from 23 or above it becomes 0 |
| `Game.FrameAfterIsModular` | src/game.rs:62-66 | from a counter in 0..23, `n` ticks leave it at `(frame + n) mod 24` and never outside 0..23 |
| `Game.CounterReturnsAfterWholeCycles` | src/game.rs:62-66 | the counter is back at its starting value after `n` ticks exactly when `n` is a multiple of 24 (so after 24 ticks) |
| `Game.Velocity` | src/game.rs:46-58 | Δx is +3 exactly when "D" is held without "A", −3 exactly when "A" is held without "D", and 0 exactly when both or neither are held; likewise Δy for "S" (+3) and "W" (−3) |
| `Game.StepIsBounded` | src/game.rs:46-61 | one tick changes each coordinate by at most 3, and with no key held the position is unchanged |
| `Game.DriftIsBounded` | src/game.rs:46-61 | over `n` ticks each coordinate drifts by at most `3n` |
| `Game.SteadyKeysMoveLinearly` | src/game.rs:46-61 | holding the same keys for `n` ticks moves the position by `n` times that tick's velocity |
| `Game.SpriteIndex` | src/game.rs:70 | the index `n` satisfies `3(n−1) ≤ frame < 3n`, so it is at least 1, and at most 8 when the counter is in 0..23 |
| `Game.FrameName` | src/game.rs:71 | the key is `"Run ("`, then the decimal digits of `n` with no leading zero (which read back as `n`), then `").png"` |
| `Game.FrameNameInjective` | src/game.rs:71 | two sprite indices give the same cell name exactly when they are equal (it follows from the name reading back its index) |
| `Game.SpriteNameIsSingleDigit` | src/game.rs:70-71 | for a counter in 0..23 the cell name is `"Run ("`, one digit from 1 to 8, then `").png"` |
| `Game.LookupCell` | src/game.rs:72-76 | the lookup succeeds exactly when the sheet is present and has the key, and then yields that key's cell; otherwise it fails with `CellNotFound` |
| `Game.CompleteSheetNeverMisses` | src/game.rs:70-76 | on a sheet holding all eight "Run" cells, the lookup for any counter in 0..23 succeeds |
| `Game.WalkTheDog.Draw` | src/game.rs:69-76 | the cell shown is the sheet's entry for `FrameName(SpriteIndex(frame))`, or `CellNotFound` when the sheet is absent or lacks it; it never fails when the counter is in range and the sheet holds all eight "Run" cells |
| `Format.DecimalString` | src/game.rs:71 | the rendering of a number is a non-empty string of decimal digits with no leading zero, and it is one character long exactly for numbers below 10 |
| `Format.DecimalRoundTrip` | src/game.rs:71 | reading back the decimal rendering gives the original number |

## Left out

- Asset loading (`browser::fetch_json`, `into_serde`, `engine::load_image`) is network I/O and foreign deserialisation. `Initialize` takes the outcome of each fetch as a parameter instead, with errors as strings.
- Rendering (`renderer.clear`, `renderer.draw_image` and the `f64` rectangles built for them) is canvas side effects and floating-point geometry. `Draw` stops at the selected cell.
- The `Game` trait object, `async_trait`, `HtmlImageElement` and `JsValue` are browser and wasm plumbing. The image is an opaque handle, and `Initialize` returns the new object directly rather than a boxed trait object.
- The `engine` module's `KeyState`, `Sheet`, `Point` and `Renderer` are not part of this model. Keys are a set of pressed codes, the sheet is a string-keyed map, and coordinates are unbounded integers. The source has no overflow guard on the position, and the model does not capture the width of the engine's `Point` fields.
- `Draw`: the source's `expect("Cell not found")` panics. The model returns `Failure(CellNotFound)` instead, so the fatal error is a value the caller can see.
