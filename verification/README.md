# Phi frame loop, input aggregation and screens — a Dafny model

This project models the core of a small SDL2 game skeleton written in Rust:

- **Geometry** (`geometry.dfy`): `Rectangle`, `Rectangle::move_inside` (clamping a box
  into a parent box) and the precondition of `Rectangle::to_sdl`.
- **Input** (`input.dfy`): the `struct_events!` macro hand-expanded for the set that
  `src/phi/mod.rs` tracks — keys Escape, Up, Down, Left, Right, Space and the `quit`
  frame event. `Events` holds the per-frame snapshot `now` (`ImmediateEvents`) and the
  persistent held flags. `Handle` is one event of the pump loop, `Drain` the fold over
  a batch, `Pump` the whole `Events::pump` (fresh snapshot, then drain). A per-key
  reference semantics (`History`, `HeldAfter`, `NowAfter`) states the rising-edge,
  last-event-wins and isolation rules independently of `Handle`.
- **Views** (`views.dfy`): the four screens (`DefaultView`, `ViewA`, `ViewB`,
  `ShipView`) as a closed enum, `ViewAction` (`None` is named `Continue`), and
  `Render`, which returns the directive, the screen's new state and the draw calls it
  issued. A panic (`unwrap` of `None`, failed `assert!`) is a `Failure(Fault)`.
- **Phi** (`phi.dfy`): one iteration of the `spawn` loop as `Step` (tick gating against
  `interval = 1000 / 60 = 16` ms, the FPS window, pump, render with the constant
  elapsed time `0.01`, directive dispatch), and `Run`, the loop over a finite sequence
  of iterations whose inputs (tick, newly arrived events, output size) are parameters.

Coordinates are exact reals; the diagonal factor `1/sqrt(2)` is the constant
`DiagonalFactor`, of which the proofs use only `0 < DiagonalFactor` and
`2 * DiagonalFactor^2 <= 1`.

The model follows the code: a resize event records the renderer's output size at
the time it is handled and ignores the event's payload; Space is tracked besides the
movement keys and Escape; the frame interval is the integer 16 ms; a `ChangeView`
iteration presents nothing.

## Model

| member | source | states |
|---|---|---|
| `Geometry.MoveInside` | src/views/mod.rs:26-41 | `None` exactly when the box is wider or taller than the parent; otherwise the same width and height, lying inside the parent, with the coordinate unchanged on every axis where the box already fits (flush against the far edge included) |
| `Geometry.MoveInsideIsNearest` | src/views/mod.rs:34-39 | each coordinate is clamped to `[parent.x, parent.x + parent.w - w]`, so no position inside the parent is closer to the old one |
| `Geometry.MoveInsideIdempotent` | src/views/mod.rs:26-41 | clamping an already clamped box returns it unchanged |
| `Geometry.MoveInsideKeepsContained` | src/views/mod.rs:34-39 | a box already inside the parent is returned as is |
| `Geometry.ToSdl` | src/views/mod.rs:20-22 | the conversion panics exactly when the width or height is negative |
| `Input.NewImmediate` | src/phi/events.rs:16-24 | a fresh snapshot has no key transition, no quit and no resize |
| `Input.NewEvents` | src/phi/events.rs:33-39 | initially no key is held and the snapshot is empty |
| `Input.Handle` | src/phi/events.rs:49-82 | one event: a key's fields change only through an event about that key; a press records `Some(true)` only on the rising edge; a release always records `Some(false)`; quit is set by a quit event and never cleared; a resize stores the renderer's output size (lemmas `HandleKeyDown`, `HandleKeyUp`, `HandleIgnores`) |
| `Input.Drain` | src/phi/events.rs:44-83 | the loop over the batch keeps a set quit flag set and leaves every key without events in the batch untouched; its full per-key, quit and resize behaviour is stated by `DrainKey`, `DrainQuit`, `DrainResize` |
| `Input.Pump` | src/phi/events.rs:41-84 | after a pump, every key without events in the batch reads `None` and keeps its held flag; an empty batch gives an empty snapshot (full behaviour in `PumpKey`, `PumpFrameEvents`) |
| `Input.HandleKeyDown` | src/phi/events.rs:53-64 | a key-down sets held and records `Some(true)` only when the key was up; an already held key keeps its snapshot entry; no other key, quit or resize changes |
| `Input.HandleKeyUp` | src/phi/events.rs:66-75 | a key-up always records `Some(false)` and clears held; nothing else changes |
| `Input.HandleIgnores` | src/phi/events.rs:53-81 | untracked keycodes, key events without a keycode, other window events and other event kinds change nothing |
| `Input.DrainKey` | src/phi/events.rs:44-75 | after a batch, each key's held flag and snapshot entry equal the per-key reference: last event wins, a press reads `Some(true)` only if the key was up before it, events about other keys do not matter |
| `Input.DrainQuit` | src/phi/events.rs:76-79 | the quit flag ends true exactly when it was true or the batch holds a quit event; nothing clears it |
| `Input.DrainResize` | src/phi/events.rs:50-52 | any resize in the batch leaves the renderer's output size in the snapshot; without one the entry is unchanged |
| `Input.PumpEmpty` | src/phi/events.rs:41-44 | an empty batch leaves held unchanged and an empty snapshot |
| `Input.PumpForgetsSnapshot` | src/phi/events.rs:41-42 | a pump's result depends on the previous state only through the held flags |
| `Input.PumpKey` | src/phi/events.rs:41-75 | per key, a pump's result is the reference semantics started from an empty snapshot |
| `Input.PumpFrameEvents` | src/phi/events.rs:41-83 | after a pump, quit is set exactly when the batch holds a quit event, and resize is the output size exactly when it holds a resize |
| `Input.PressThenRelease` | src/phi/events.rs:55-71 | down then up in one batch reads `Some(false)` and leaves the key up |
| `Input.HeldAcrossTwoPumps` | src/phi/events.rs:42-60 | a key pressed and still held shows `Some(true)` in the first snapshot only, and stays held |
| `Views.NewShipView` | src/views/mod.rs:49-60 | the ship starts 32 x 32 |
| `Views.Render` | src/views/mod.rs:63-166 | quit or an Escape press gives `Quit` first, with no drawing and no state change; `Quit` only then; only `ViewA`/`ViewB` switch, on a Space press, to each other; only the ship changes state or panics, and a 32 x 32 ship panics exactly when the region is too small |
| `Views.Displacement` | src/views/mod.rs:75-90 | opposing keys cancel on each axis, and when both axes move they move equally far (signs and the diagonal factor in `DisplacementSigns`, `DiagonalNormalised`) |
| `Views.RenderShip` | src/views/mod.rs:69-103 | the ship frame fails exactly when the ship has a negative size (`NegativeSize`) or is larger than the movable region (`NoRoom`); otherwise it continues with the ship at its size, inside 70% of the width and the full height (see also `ShipFrame`) |
| `Views.DisplacementSigns` | src/views/mod.rs:80-90 | per axis the step is zero for both or neither opposing key, negative toward left/up, positive toward right/down |
| `Views.DiagonalNormalised` | src/views/mod.rs:75-90 | the diagonal factor applies exactly when both axes move; then both move by the same amount and the step is never longer than a straight one |
| `Views.UpLeftIsDiagonal` | src/views/mod.rs:76-90 | holding Up and Left moves by `-DiagonalFactor * speed * elapsed` on both axes |
| `Views.ShipFrame` | src/views/mod.rs:64-104 | without a quit the ship screen succeeds exactly when the ship fits the region, keeps its size, ends inside the region, draws itself at its old position, and lands where the keys moved it when that spot is inside |
| `Views.ShipFrameSized` | src/views/mod.rs:92-101 | the 32 x 32 ship survives a frame exactly when the region is at least 32 x 32 and then lies within `[0, 0.7 w] x [0, h]` |
| `Phi.Start` | src/phi/mod.rs:63-67 | the loop starts with a zero counter, nothing held, and a valid state for a valid view |
| `Phi.Step` | src/phi/mod.rs:69-92 | an iteration is delayed exactly when `dt < 16`, then sleeps until the interval ends and changes nothing; otherwise `before := now`, the FPS window advances or resets after more than 1000 ms, events are pumped before rendering, and validity is kept |
| `Phi.FpsBound` | src/phi/mod.rs:67-85 | the frame counter never exceeds 63, so the `u16` never overflows |
| `Phi.StepDispatch` | src/phi/mod.rs:87-92 | `Continue` presents the view's draw calls, `Quit` exits, `ChangeView` installs the new view alone and presents nothing |
| `Phi.QuitEventExits` | src/phi/mod.rs:87-90 | a quit event in the drained batch ends the loop whatever the view |
| `Phi.EscapePressExits` | src/phi/mod.rs:87-90 | an Escape press ends the loop; an Escape release is not a quit request |
| `Phi.SpaceSwapsViews` | src/phi/mod.rs:87-91 | a Space press on `ViewA` installs `ViewB` and vice versa |
| `Phi.RenderIgnoresMeasuredDt` | src/phi/mod.rs:70-88 | two processed iterations at different ticks render the same frame and view: the view sees the constant 0.01 s, not `dt` |
| `Phi.Run` | src/phi/mod.rs:69-94 | over any monotone tick sequence the state stays valid, and a panic happens only on an iteration whose region is too small for the ship |
| `Phi.RunNeverCrashesWithRoom` | src/views/mod.rs:94-101 | while every output leaves room for the ship, the loop never panics |

## Left out

- SDL initialisation, window and renderer construction and their `unwrap`s (src/phi/mod.rs:49-61): foreign setup whose failures are fatal before the loop starts.
- Drawing effects: `set_draw_color`, `clear`, `fill_rect` and `present` are recorded as a list of draw calls; their effect on pixels and their error results are not modelled.
- `Phi::output_size` and `renderer.output_size()`: the output size is an input of each iteration; its `unwrap` is not modelled.
- Geometry.ToSdl: the float-to-integer casts and `SdlRect::new(..).unwrap()` belong to the SDL crate; the drawable form is the rectangle unchanged.
- Real time: `timer.ticks()` is an input sequence of naturals required to be non-decreasing; `timer.delay` is the `wait` of a delayed iteration; the `u32` tick counter wrapping after about 49.7 days is not modelled.
- The `FPS:` console output: only the counter and window are modelled.
- IEEE-754 rounding and `sqrt`: coordinates are reals and the diagonal factor a constant, so exact equalities such as idempotence are proved for reals, not for `f64`.
- The unused `elapsed = dt / 1000` and `traveled` locals, which influence nothing.
- The macro machinery of `struct_events!`: only its expansion for the six keys and `quit` is modelled.
- src/main.rs is not part of this model: it only passes `ShipView::new` as the initial view, which `Phi.Start` takes as a parameter.
