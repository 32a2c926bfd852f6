# MQ Asteroids core: screen manager and actor updates

This is a Dafny model of the two parts of the macroquad Asteroids prototype that are live code:

- **The screen manager** (`ScreenManager` in `src/screen.rs`). It holds one mandatory current screen and at most one previous screen.
  - `change_screen` keeps the outgoing screen as the previous one.
  - `revert_screen` restores the previous screen once and then empties the slot.
  - Each successful transition calls `display()` exactly once on the new current screen.
- **The per-frame `update` of the three actors** (`Ship`, `Bullet` and `Asteroid` in `src/main.rs`).
  - Each update applies an Euler step (`position += velocity`).
  - Ship and asteroid wrap each axis at the screen edges, using strict comparisons.
  - The ship's velocity is damped by 0.99 each frame.
  - The asteroid's rotation turns by 0.01 each frame, away from zero.
  - The bounding `Rect` is moved onto the new position.

## Files

- `geometry.dfy`, module `Geometry`: macroquad's `Vec2` and `Rect` as value records over `real`, with `+`, scalar `*` and `Rect::move_to`.
- `screens.dfy`, module `Screens`:
  - The screens, as the closed set of the two `GameScreen` implementers. Both are unit structs, so a screen is fully described by its variant.
  - The pure transition functions `Change` and `Revert`.
  - `Run`, a sequence of calls.
  - The `ScreenManager` class. Its methods update `currentScreen` and `previousScreen` in place. `display()` appends the displayed screen to a ghost log, `displayed`.
- `actors.dfy`, module `Actors`: the wrap rule, the spin rule, a pure step function per actor (`ShipStep`, `BulletStep`, `AsteroidStep`) with multi-frame lemmas, and the classes `Ship`, `Bullet` and `Asteroid`. Each class has an `Update` method that mutates its fields step by step, as the source does. Each `Update` is proved equal to that actor's step function.

`screen_width()` and `screen_height()` are calls into the window host, so they are the parameters `w` and `h` of each update. The bounds lemmas assume `w, h >= 0`. The update functions themselves are total.

Consequences of the code as written:

- A coordinate that goes below 0 is reset to exactly the screen extent, and a coordinate equal to the extent is left alone, because the test is a strict `>`. A wrapped coordinate therefore lies on the closed range `[0, w]`, and can sit exactly on `w`. `Actors.WrapLandsOnFarEdge` pins `-1 -> 640` on a 640-wide screen.
- `previous` is `None` after every revert, including a revert of the fresh manager `main` builds. That manager holds `Some(GameStartScreen)` as its previous screen, so reverting it empties the slot, keeps the start screen current and displays it once more (see `Screens.RevertOnInitial`).
- A ship at position (100, 100) with velocity (0, -5) on a 480-high screen does not wrap: after one update it is at (100, 95) with velocity (0, -4.95) (see `Actors.ShipSingleStepExample`).

## Model

| member | source | states |
|---|---|---|
| `Screens.Initial` | src/main.rs:208-211 | the manager `main` builds has the start screen as current and, again, as previous |
| `Screens.Change` | src/screen.rs:14-17 | after `change_screen(s)`, current is `s`, previous is `Some(old current)` and so never `None`, and exactly `[s]` is displayed |
| `Screens.Revert` | src/screen.rs:19-24 | with `Some(p)`: current becomes `p`, previous becomes `None`, `[p]` is displayed; with `None`: state unchanged and nothing displayed; previous is `None` afterwards on both paths |
| `Screens.RevertTwice` | src/screen.rs:19-24 | a second `revert_screen` in a row leaves the state unchanged and displays nothing |
| `Screens.ChangeThenRevert` | src/screen.rs:14-24 | `change_screen(s)` then `revert_screen()` restores the original current screen with an empty previous slot, displaying `s` then the restored screen |
| `Screens.RevertOnInitial` | src/screen.rs:19-24 | reverting the manager `main` builds keeps the start screen current, empties the previous slot and displays the start screen once |
| `Screens.RunShowsAtMostOnePerCall` | src/screen.rs:14-24 | over any sequence of calls, at most one screen is displayed per call, and exactly one per call when every call is a change |
| `Screens.RunDisplaysCurrent` | src/screen.rs:14-24 | after any sequence of calls, the last screen displayed is the current one, and a sequence that displayed nothing left the manager unchanged |
| `Screens.RunAppend` | src/screen.rs:14-24 | running two call sequences one after the other gives the same state and display log as running their concatenation |
| `Screens.RevertTwiceAfterAnyRun` | src/screen.rs:19-24 | after any history, two reverts in a row end in the same state and with the same display log as one revert |
| `Screens.ScreenManager.constructor` | src/screen.rs:8-11 | a manager with the given current and previous screens, having displayed nothing |
| `Screens.ScreenManager.Display` | src/screen.rs:16 | `display()` on the current screen appends that screen to the display log and changes no field |
| `Screens.ScreenManager.ChangeScreen` | src/screen.rs:14-17 | in place: current becomes the new screen, previous holds the outgoing screen, one display of the new screen is logged; agrees with `Change` |
| `Screens.ScreenManager.RevertScreen` | src/screen.rs:19-24 | in place: with a previous screen, restores it, empties the slot and logs one display of it; without one, nothing changes (log included); agrees with `Revert` |
| `Actors.WrapAxisCases` | src/main.rs:30-36 | for `WrapAxis`, the one-axis wrap used for x and y by both the ship (lines 30-44) and the asteroid (lines 93-107): the strict `>` test then the strict `<` test, so beyond the extent resets to exactly 0, below 0 resets to exactly the extent, a value in `[0, extent]` (the extent itself included) is kept, and the result lies in `[0, extent]` |
| `Actors.Wrap` | src/main.rs:29-44 | each axis is wrapped on its own; with `w, h >= 0` the result lies on the closed screen, and a position already on it is not moved |
| `Actors.SpinAway` | src/main.rs:109-113 | the asteroid's rotation keeps its sign class (`>= 0` or `< 0`) and its magnitude grows by exactly 0.01 |
| `Actors.ShipStep` | src/main.rs:26-48 | after `Ship::update`, the position is the wrapped Euler step and lies on screen when `w, h >= 0`; velocity is multiplied by 0.99; rotation is unchanged; the rect sits at the new position with its size kept |
| `Actors.DampingPowerBounds` | src/main.rs:46 | the accumulated damping factor `0.99^n` is positive, at most 1, below 1 after a frame, and strictly falling in `n` |
| `Actors.DampedIsPower` | src/main.rs:46 | damping a velocity by 0.99 for `n` frames is scaling it once by `0.99^n` |
| `Actors.ShipVelocityShrinks` | src/main.rs:46 | after `n > 0` ship updates, every non-zero velocity component is strictly smaller in magnitude than at the start |
| `Actors.ShipFramesDamped` | src/main.rs:26-48 | over `n` ship updates the velocity is the start velocity damped `n` times, and the rotation never changes |
| `Actors.ShipDampsGeometrically` | src/main.rs:26-48 | over `n` ship updates the velocity is `0.99^n` times the start velocity, and the rotation is unchanged |
| `Actors.ShipSlowsDown` | src/main.rs:46 | one ship update makes a moving ship strictly slower: no velocity component grows in magnitude and at least one shrinks; a ship at rest stays at rest |
| `Actors.ShipFramesLast` | src/main.rs:26-48 | `n + 1` ship updates are `n` updates followed by one more |
| `Actors.ShipStaysMoving` | src/main.rs:46 | damping never brings a non-zero velocity component to exactly zero, nor a zero one away from zero |
| `Actors.ShipKeepsSlowingDown` | src/main.rs:26-48 | with no thrust, a ship that starts moving is strictly slower after every frame than before it |
| `Actors.Ship.constructor` | src/main.rs:17-23 | a ship holding the given position, velocity, rotation and rect |
| `Actors.Ship.Update` | src/main.rs:26-48 | in place: the fields become `ShipStep` of the old ones, so the position is on screen when `w, h >= 0`, the velocity is damped by 0.99, the rotation is kept and the rect follows the position |
| `Actors.BulletStep` | src/main.rs:68-71 | after `Bullet::update`, position is `position + velocity` with no wrap; velocity, `created_at` and `collided` are unchanged; the rect sits at the new position with its size kept |
| `Actors.BulletTravelsStraight` | src/main.rs:68-71 | over `n` bullet updates the position is start plus `n` times the velocity, and velocity, `created_at` and `collided` never change |
| `Actors.Bullet.constructor` | src/main.rs:58-65 | a bullet holding the given fields |
| `Actors.Bullet.Update` | src/main.rs:68-71 | in place: position advances by velocity, the rect follows, nothing else changes; agrees with `BulletStep` |
| `Actors.AsteroidStep` | src/main.rs:89-116 | after `Asteroid::update`, the position is the wrapped Euler step and lies on screen when `w, h >= 0`; velocity (not damped), `collided` and `large` are unchanged; the rotation keeps its sign class and grows in magnitude by 0.01; the rect follows the position |
| `Actors.AsteroidSpinsSteadily` | src/main.rs:109-113 | after `n` asteroid updates the rotation is the start value plus `n * 0.01` if it started `>= 0`, and minus `n * 0.01` otherwise |
| `Actors.AsteroidKeepsCourse` | src/main.rs:89-116 | over `n` asteroid updates the velocity, `collided` and `large` never change, and after at least one update the asteroid is on screen |
| `Actors.Asteroid.constructor` | src/main.rs:78-86 | an asteroid holding the given fields |
| `Actors.Asteroid.Update` | src/main.rs:89-116 | in place: the fields become `AsteroidStep` of the old ones; rotation `>= 0` gains 0.01 and rotation `< 0` loses 0.01 |
| `Actors.WrapLandsOnFarEdge` | src/main.rs:34-36 | on a 640-wide screen, -1 wraps to exactly 640, 640 stays 640 and 641 wraps to 0 |
| `Actors.ShipSingleStepExample` | src/main.rs:26-48 | a ship at (100, 100) moving (0, -5) on a 640 x 480 screen ends at (100, 95) with velocity (0, -4.95) |

## Left out

- The commented-out gameplay in `main` (src/main.rs:257-328) is not live code and is not modelled. This covers thrust and turn input, firing with its 0.2 s cooldown, the bullet/asteroid overlap scan, splitting into `2..rng.gen_range(3..=8)` children, the 1.5 s bullet lifetime and the `retain` culling.
- `handle_controls` of both screens (src/main.rs:153-158, 179-184) is left out. Both poll the keyboard. The start screen's version discards its `Some` and always returns `None`. The gameplay screen's `Some(previous_screen)` does not type-check. The frame loop's call to it (src/main.rs:252-255) is left out with it.
- The `draw` and `display` bodies are left out, because they only render through macroquad. `display()` is modelled only as an entry in the ghost display log.
- The rest of `main`'s setup is left out: texture loading, the random spawn of eight asteroids, `conf()` and the async frame loop. Only the manager's initial value is modelled, as `Screens.Initial`.
- Each actor's `texture` reference is not a field of the model. Updates never read or change it.
- f32 arithmetic is modelled as exact `real` arithmetic, so rounding, NaN and overflow are not captured. In f32, a velocity component damped by `0.99` stops shrinking once it reaches a subnormal value of about 7e-44, where `x * 0.99` rounds back to `x`; it never reaches 0. `ShipStaysMoving` therefore also holds in f32, but `ShipKeepsSlowingDown` and `ShipVelocityShrinks` rely on exact reals: at that fixed point the ship is no longer strictly slower.
- The screen width and height are parameters, not the foreign calls `screen_width()` and `screen_height()`.
