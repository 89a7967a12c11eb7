# Galaxy drag animation — per-frame state model

This project models the state update under the canvas animation in
`script.js`. The pointer handlers form a drag state machine that latches a
target x. Each frame the galaxy icon eases toward that target by 0.25 and
snaps onto it once it is within one step. The icon's direction
(`left`/`right`/`still`) is derived from where it stands relative to the
target. Two lists of sine-wave ribbons move 0.75 per frame, and a new wave
is spawned on each side once the latest wave is a wavelength away from the
galaxy. The ring field grows every ring by one and drops the rings that lie
wholly beyond a canvas edge, and a timer appends new rings of radius 1.

Modules, one per component of the script:

- `Easing` (`easing.dfy`): `moveArrowX`, the easing rule. `animate` repeats
  it inline; here both use this one function. It also holds its iteration
  and the convergence proofs.
- `Galaxy` (`galaxy.dfy`): the `Direction` values, their derivation and the
  `GalaxyImage` object (x, y, direction).
- `Rings` (`rings.dfy`): `GalaxyCircles`, with the filter of one frame
  specified by `Survivors`. A ring record is referenced only by the field's
  list, so a ring is its radius.
- `Waves` (`waves.dfy`): the `Wave` object and the per-list move loop. A
  wave's y, direction, wavelength and amplitude are never reassigned, so
  they are `const` fields; only `x` changes.
- `Scene` (`scene.dfy`): the `game` object and `animate`. This is the class
  `Game` with the drag fields, the target, both wave lists with their latest
  waves, and the frame `Tick` (ease, derive direction, move waves,
  grow/filter rings, spawn).

Coordinates are Dafny `real`s. The constants 0.25, 0.75, 75 and 37.5 are
exact binary fractions. The canvas width and height are fixed when the game
starts.

Behaviour of the code that is easy to misread:
- A ring is dropped as soon as it lies wholly beyond ANY ONE edge. It does
  not have to be outside on all four sides.
- Waves are never removed.
- The easing speed is 0.25.
- `mouseup` before any `mousedown` finds no cursor position. In the script
  that handler throws after clearing the drag flag. The model therefore
  clears the flag and leaves the target unchanged.

## Model

| member | source | states |
|---|---|---|
| `Easing.MoveArrowX` | script.js:214-223 | The result is the target or exactly one step from the current x. With a positive step it lies between current and target (no overshoot). The remaining distance is the old distance minus one step when that exceeds a step, and 0 otherwise. The target is a fixed point. |
| `Easing.IterateDistance` | script.js:230-238 | After n frames of easing, the distance to the target is the initial distance less n steps, or 0 once n steps cover it. |
| `Easing.IterateBetween` | script.js:230-238 | Any number of easing frames leaves the icon between its start and the target. |
| `Easing.IterateLast` | script.js:230-238 | Easing for n + 1 frames is one more easing step from where n frames left the icon. |
| `Easing.ReachesTargetExactly` | script.js:230-238 | With a positive step the icon is on the target after n frames iff n >= ceil(\|target - start\| / step). So it arrives exactly then, not before, and stays. |
| `Galaxy.DirectionOf` | script.js:112-120 | The direction is `left` iff x > target, `right` iff x < target, and `still` iff they are equal. |
| `Galaxy.DirectionAfterStep` | script.js:230-240 | After one easing step the direction is `still` iff the icon was within one step of the target. Otherwise it keeps its sign, so the direction never flips. |
| `Galaxy.DirectionSettles` | script.js:230-241 | After n frames the derived direction is `still` iff n >= ceil(\|target - start\| / step). |
| `Galaxy.GalaxyImage.constructor` | script.js:80-85 | A new galaxy image stands at the given position, and its direction starts as `still`. |
| `Galaxy.GalaxyImage.UpdateDirection` | script.js:112-120 | Sets only the direction field, to the classification of x against the target. |
| `Rings.Survivors` | script.js:138-155 | One frame's filter never lengthens the list. Every survivor is at least 1 and not off-screen. |
| `Rings.SurvivorsAppend` | script.js:138-155 | The filter works ring by ring: survivors of a concatenation are the concatenated survivors. So survivors keep their original order. |
| `Rings.SurvivorsKeep` | script.js:147-154 | A ring is kept iff its grown radius is not wholly beyond the left, right, top or bottom edge. That is the four-way test `OffScreen` at script.js:148-152. |
| `Rings.SurvivorsGrown` | script.js:139-140 | Every survivor is some old ring's radius plus one. |
| `Rings.SurvivorsPositions` | script.js:138-155 | There is an increasing list of old positions such that the k-th survivor is the old ring at the k-th position grown by one. A position is listed iff its grown ring is not off-screen. So each surviving ring appears exactly once, in its old relative order. |
| `Rings.SurvivorsInsideCanvas` | script.js:148-152 | While the ring centre is on the canvas, nothing is dropped and ring i becomes old ring i plus one. |
| `Rings.GalaxyCircles.constructor` | script.js:123-125 | A new ring field is anchored to its galaxy and starts empty. |
| `Rings.GalaxyCircles.AddCircle` | script.js:127-129 | Appends exactly one ring of radius 1 at the end. |
| `Rings.GalaxyCircles.UpdateAndDraw` | script.js:131-156 | The loop leaves the ring list equal to `Survivors` of the old list. The centre is the galaxy's current centre: `GalaxyImage.CenterX`/`CenterY` are x + 50 and y + 50, as at script.js:135-136. |
| `Waves.Velocity` | script.js:166-172 | The per-frame displacement is +0.75 iff the direction is `right`, and -0.75 otherwise. |
| `Waves.SpawnWavelength` | script.js:268-299 | A spawned wave's wavelength is 37.5 iff the galaxy's direction equals the wave's side, and 75 otherwise. This covers the left side at lines 268-272 and the right side at lines 294-299. |
| `Waves.Wave.constructor` | script.js:159-164 | A new wave holds the given position, direction, wavelength and amplitude. |
| `Waves.Wave.Move` | script.js:166-172 | Only x changes, by the direction's displacement. y, direction, wavelength and amplitude are constant. |
| `Waves.MoveAll` | script.js:246-249 | For a list without repeats, every wave moves exactly once by its own displacement. |
| `Scene.Game.constructor` | script.js:338-351 | Start-up state: galaxy at (w/2-50, h/2-75) with direction `still`. One left wave is at w/2-50 and one right wave at w/2, both with wavelength 75, y h/2-25 and amplitude 15. There is one ring of radius 1, no target, no drag and no cursor. |
| `Scene.Game.MouseDown` | script.js:19-22 | Sets dragging and records the cursor. |
| `Scene.Game.MouseMove` | script.js:24-28 | Records the cursor only while dragging, and otherwise leaves it unchanged. It cannot touch the target. |
| `Scene.Game.MouseUp` | script.js:30-33 | Clears dragging and latches the target at the recorded cursor x. With no cursor recorded, the target is unchanged. |
| `Scene.Game.RunFrames` | script.js:226-241 | Over n consecutive frames with a target set, the galaxy's x is the n-th easing iterate. It stands on the target iff n >= ceil(\|target - start\| / 0.25). After at least one frame, its direction is `still` under the same condition. |
| `Scene.Game.Ease` | script.js:230-241 | With a target, x becomes one easing step and the direction is derived against the target. Without one, neither x nor the direction changes. |
| `Scene.Game.MoveWaves` | script.js:245-255 | Every left wave moves by -0.75 and every right wave by +0.75. No wave is moved twice, because the two lists cannot share a wave. |
| `Scene.Game.SpawnLeft` | script.js:261-288 | Appends at most one wave. It does so exactly when latest.x <= galaxy.x - latest.wavelength. The new wave is at the galaxy's x with the spawn wavelength and becomes the latest. Earlier waves are kept in order. |
| `Scene.Game.SpawnRight` | script.js:290-315 | The same on the right, with latest.x >= galaxy.x + latest.wavelength. |
| `Scene.Game.Tick` | script.js:226-315 | One frame in source order: ease and derive direction (only with a target), move every existing wave once, grow and filter the rings around the eased centre, then spawn per side. No wave is removed, so both lists are non-decreasing. The drag state and target are untouched, and the list invariants are preserved. |

## Left out

- Drawing is not modelled. This covers the planet and galaxy images, the rotated blit, the ring arcs, the sine ribbons and the drag line (`Earth`, `draw`, `stroke` calls). These are canvas calls with trigonometry.
- The rotation angle is not modelled. It only feeds drawing, and its 0.01 increment is not exactly representable.
- Wave colour is not modelled. It is constant payload and never read by the logic.
- Image loading and its load/error callbacks are not modelled (asynchronous I/O).
- `requestAnimationFrame` and `setInterval` are not modelled. A frame is an explicit `Game.Tick` call and a timer firing is an explicit `GalaxyCircles.AddCircle` call. The model has no wall-clock timing.
- DOM coordinate translation (`getBoundingClientRect`) and window sizing are not modelled. Cursor coordinates and the canvas size are parameters.
- `game.stop` only clears the canvas and is not modelled.
- IEEE-754 doubles are modelled as exact reals. NaN and infinities cannot arise from the modelled inputs. The model does not capture rounding of x ± 0.25 or x ± 0.75. That rounding happens when the exact sum needs more than 53 significant bits, for instance after snapping to an arbitrary cursor x and then crossing a power of two.
- The fallback spacing of 0 when there is no latest wave is never used and is not modelled. Both latest waves are set at start-up, and `Game.Valid` keeps them equal to the last element of their list.
- `Easing.MoveArrowX` promises nothing about a step size of zero or less beyond "target or one step away". The script only ever uses 0.25.
