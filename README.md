# Particle burst: a Dafny model of the particle store

`script.js` draws a burst of 450 coloured dots on each click. The dots fly
outwards, slow down, fall under gravity and fade out. This project models
the part of the script that holds state and logic. It verifies that model with
Dafny:

- the `Particle` class: its constructor, and `update()`, which draws the
  particle and then takes one integration step;
- `randomIntFromRange`, which picks one of the two cached sprites;
- the particle loop in `animate()`, which walks the `particles` array by
  index and either splices a particle out or updates it;
- the push loop in the click handler, which appends 450 particles at the
  click point;
- `init()`, which resets the array.

Modules, one per file:

- `RandomRange` (`random_range.dfy`): `randomIntFromRange` as a function of
  the `Math.random()` draw `r`.
- `Particles` (`particle.dfy`): the constants and the `Particle` class.
  - `Update` is proved against `Step`, a function on particle values. The
    closed form of `n` steps is proved about `Step`.
  - The drawing context is a `Canvas` whose ghost `log` records every draw
    call, so "draw, then step" is visible in the contracts.
- `Culling` (`culling.dfy`): what one pass of the `animate()` loop does to
  each particle, as a pure reference.
  - `Fates` gives every particle of the array, as it was when the pass began,
    one fate: `Updated`, `Removed`, or `Skipped`. `Skipped` is the particle
    that slides into the slot of a spliced one: the index still advances, so
    the loop passes over it.
  - `Kept` lists the positions that stay. `Tick` gives the values left in the
    store, and `Draws` the draw calls made.
  - The lemmas state what is removed, what is kept and in which order, and
    which particles are skipped.
- `Scenes` (`scene.dfy`): the script-level state as a `Scene` class, which
  holds the `particles` array, the mouse point and the drawing context.
  - `Animate` runs the source's index loop, splicing the array in place. It is
    proved to leave exactly `Pick(old array, Kept(...))`, with every object
    holding `Effect(old value, fate)` and the log extended by `Draws`.
  - `Click` and `Init` model the click handler and `init()`.

The loop walks forward by index and splices in place, so the particle that
slides into the vacated slot is passed over in that frame; the model
reproduces this. `Culling.SkippedLeftAlone` and `Culling.SkippedSurvives`
state the consequence: a particle right after a removed one stays in the
store, unchanged, whatever its alpha, even when it is dead itself.

`script.js:119-120` calls `Math.random()` once per velocity component, so
`BurstDraw` carries two draws, `randX` and `randY`.

## Model

| member | source | states |
|---|---|---|
| RandomRange.RandomIntFromRange | script.js:34-36 | for `min <= max` and a draw `r` in [0, 1) the result lies in [min, max] |
| RandomRange.RandomIntFromRangeSlice | script.js:34-36 | the result is `min + k` exactly when `r` falls in the k-th of the `max - min + 1` equal slices of [0, 1), so every value in the range is reachable and nothing else is |
| RandomRange.SpriteIndexInRange | script.js:117 | `randomIntFromRange(0, 1)` is 0 or 1, a valid index into the two-element sprite array, and is 0 exactly when the draw is below 0.5 |
| Particles.Particle.constructor | script.js:39-45 | the new particle holds exactly the given position, sprite and velocity, and alpha 1 |
| Particles.Particle.Draw | script.js:47-52 | appends one draw call carrying the particle's sprite, position and alpha to the context |
| Particles.Particle.Update | script.js:54-67 | draws the particle as it was, then `vx' = vx * FRICTION`, `vy' = vy * FRICTION + GRAVITY` (friction before gravity), `x' = x + vx'`, `y' = y + vy'`, `alpha' = alpha - 0.005 < alpha`, sprite unchanged; the new value is `Step` of the old |
| Particles.StepsClosedForm | script.js:57-66 | after n updates (exact arithmetic): `vx = 0.99^n vx0`; `vy` tends to the terminal speed 2 (`vy = 2 + 0.99^n (vy0 - 2)`); `x` and `y` are the matching geometric sums; alpha has dropped by exactly `0.005 n`; the sprite is unchanged |
| Particles.Spawned | script.js:113-122 | a spawned particle sits at the mouse point with alpha 1 and one of the two cached sprites |
| Particles.SpawnedSpeedBound | script.js:119-120 | when the direction factors are a cosine and a sine and the scales are draws in [0, 1), each velocity component is strictly between -POWER and POWER |
| Culling.FatesFrom | script.js:95-102 | one fate per particle from the examined index on, and the particle the loop examines is never skipped |
| Culling.Kept | script.js:95-101 | the kept positions are strictly ascending (survivors keep their relative order), and none of them is removed |
| Culling.KeptComplete | script.js:95-101 | every particle the pass does not remove is kept |
| Culling.Tick | script.js:95-101 | the store never grows in a pass |
| Culling.FateOf | script.js:95-101 | a removed particle had alpha below zero; an examined particle is removed exactly when its alpha is below zero and updated otherwise; a particle is skipped exactly when the one before it was removed |
| Culling.FatesFromShape | script.js:95-101 | the same three facts for the fates from any examined index on |
| Culling.FirstDeadFrom | script.js:95-101 | from an examined index up to the first dead particle, everything is updated and that particle is removed |
| Culling.FirstDeadIsRemoved | script.js:95-101 | the first particle with alpha below zero is always removed and all particles before it are updated, so a store holding a dead particle shrinks |
| Culling.LiveParticleKept | script.js:95-101 | a particle with alpha >= 0 is never removed: it is updated, or skipped because the particle before it was dead |
| Culling.SkippedLeftAlone | script.js:95-98 | the particle that slides into the slot of a removed one is neither updated nor removed in that pass, whatever its alpha |
| Culling.SkippedSurvives | script.js:95-98 | a particle right after a removed one is still in the store after the pass, with its values unchanged, whatever its alpha |
| Culling.DeadPairKeepsSecond | script.js:95-98 | a store of exactly two dead particles keeps the second, still dead, after one pass |
| Culling.DrawsAreLive | script.js:97-100 | a pass that updates only particles with alpha >= 0 draws only calls with alpha >= 0 |
| Culling.PassDrawsOnlyLive | script.js:97-100 | a particle with alpha below zero is never drawn: every draw call of a pass carries alpha >= 0 |
| Culling.ArrangedAfterRemoval | script.js:97-98 | `splice(i, 1)` of a dead particle removes it, draws nothing, and leaves the particle that slides into slot `i` to be passed over |
| Culling.ArrangedAfterUpdate | script.js:99-100 | updating a live particle keeps it in place and adds exactly one draw call with its values before the step |
| Scenes.Scene.constructor | script.js:7-10 | the mouse point starts at the centre of the window, the store is empty and the context has received no draws |
| Scenes.Scene.Init | script.js:79-86 | `init()` leaves the store empty whatever it held, and the mouse point unchanged |
| Scenes.Scene.Animate | script.js:95-102 | after the loop, the array is exactly the old objects at the `Kept` positions, in order and without repeats, and never longer than before; every old object holds `Effect(old value, fate)`, so it is updated at most once; the values left are `Tick` of the old values; the context has received exactly `Draws`, in array order |
| Scenes.Scene.Visit | script.js:97-101 | one iteration of the loop body advances the pass by the fate of the particle at index `i` (and by its skipped neighbour after a splice) |
| Scenes.Scene.SpliceStep | script.js:97-98 | `particles.splice(i, 1)` removes the dead particle at `i`; the next particle is passed over, and the pass accounts for both |
| Scenes.Scene.UpdateStep | script.js:99-100 | `particles[i].update()` steps that particle once and draws it, and changes no other particle |
| Scenes.Scene.PassComplete | script.js:95-102 | once the index runs off the end, every particle of the old array has met its fate and the store holds the values of `Tick` |
| Scenes.Scene.Click | script.js:109-124 | the mouse point moves to the click; the old particles stay as a prefix with their values unchanged; exactly 450 fresh particles are appended, the values `Burst` lists |
| Scenes.Burst | script.js:113-123 | one spawned particle per draw set, each at the click point with alpha 1 and a cached sprite |

## Left out

- Canvas rendering (`ctx.save`, `globalAlpha`, `drawImage`, `restore`) and the trail `fillRect` in `animate()` call a browser API whose source is not part of this model. `draw()` is modelled as an append to a ghost log of draw calls.
- `createCachedCanvases` only creates DOM canvases and draws vector shapes. A sprite is identified here by its fill colour.
- `requestAnimationFrame` scheduling and the `click`/`resize` listener wiring are host plumbing. `Animate`, `Click` and `Init` are the bodies those callbacks run.
- Canvas sizing in `init()` reads the DOM and is not modelled. The window size for the mouse start point is a constructor parameter.
- `Math.cos`, `Math.sin` and `Math.random` are not modelled. Their results come in as parameters (`BurstDraw`), one set per spawned particle. The angle `angleIncrement * i` behind each cosine and sine is therefore not checked.
- Particles.StepsClosedForm: positions, velocities and alpha are exact reals. IEEE-754 rounding is not modelled, so the closed forms, and any claim about the tick on which a particle dies, hold for exact arithmetic only.
- The velocity object `{x, y}` of a particle is flattened into the fields `vx` and `vy`. No two particles share a velocity object in the source, so no aliasing is lost.
- JavaScript's single-threaded event loop is not modelled: `Animate` and `Click` are separate method calls that never interleave.
