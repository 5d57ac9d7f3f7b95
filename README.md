# Particle network background — a Dafny model

The portfolio site draws an animated background on a full-viewport canvas.
About 80 particles drift at constant speed and bounce off the canvas edges.
Any two particles closer than 150 pixels are joined by a line that fades with
distance. The layer moves vertically with the page's scroll position
(parallax). This project models that component
(`src/components/ParticleNetwork.tsx`) and proves the properties its code
gives:

- `physics.dfy`, module `Physics`: the `Particle` record; the particle count
  `min(80, floor(innerWidth / 20))`; building a particle from five random
  numbers; one particle's move and bounce in a frame; the containment
  invariant that this move keeps.
- `frame.dfy`, module `Frame`: what one frame draws. The canvas calls are a
  returned list of `Circle` and `Line` records. `FrameCalls` is the reference
  definition of that list. The module also has the line opacity
  `0.2 * (1 - d / 150)` and the enumeration of the pairs a frame checks.
- `parallax.dfy`, module `Parallax`: the scroll-to-offset map, which takes
  [0, 1000] linearly onto [0, 300] and holds at the end values outside it.
- `field.dfy`, module `Field`: the component as a class `ParticleField`. Its
  fields are the particle list, the canvas width and height, and two flags
  for the host's event plumbing. Its methods are `Resize` (`resizeCanvas`),
  `Init` (the initialisation loop), `Step` (the `draw` frame step), `Mount`
  (the effect body) and `Unmount` (its cleanup). `DeliverResize` and
  `DeliverFrame` model the host delivering a resize event or a requested
  frame. `Step` runs `Sweep`, the outer per-particle `forEach`; one pass
  of its body is `Visit`, which moves particle i in place (`MoveAt`, `Move`)
  and checks it against `slice(i + 1)` (`ConnectAt`, `Connect`).

Modelling choices:

- JavaScript numbers are exact reals; the canvas size is a whole number of
  pixels (`nat`).
- `Math.random()` is an input sequence `rand`. Particle k takes draws 5k to
  5k+4, in the order the object literal evaluates them: x, y, vx, vy, radius.
  The bounds hold when every draw is in [0, 1) (`AllUnit`).
- `Math.sqrt` is a parameter `root`. The lemmas about distances assume
  `IsSqrt(root)`: it is a true square root on the non-negative reals.
- The particle list is a `seq<Particle>` field. `Init` empties it and
  appends, as the `push` loop does. `Step` replaces element i in place and
  leaves the later elements untouched until their turn. So particle i, once
  moved, is compared with particles j > i at their positions from the start
  of the frame, as in the code.
- `requestAnimationFrame` and the resize listener are two flags:
  `framePending` and `listening`.

What the code does at its edges, which the model keeps:

- `resizeCanvas` only overwrites the canvas width and height. Particles are
  generated once, on mount (`Field.ParticleField.Mount`), and a resize
  leaves them as they are (`Field.ParticleField.Resize`).
- Positions do not always stay within the canvas: after a bounce a particle
  is up to one move outside it, and it is drawn there. `Physics.Contained` is
  the invariant a frame keeps on a fixed canvas: every coordinate is inside
  the canvas, or one move away from it with its velocity already turned back
  (`Frame.StepAllPreservesContained`). After the canvas shrinks it can fail
  for good: a particle further out than one move flips its velocity every
  frame and never comes back (`Physics.Stranded`).
- The code has no guard against degenerate sizes. A width below 20 gives 0
  particles. A height of 0 puts every particle at y = 0, so the bound
  `y < height` is stated only for a positive height (`Physics.InitialBounds`).
- Velocities lie in [-0.25, 0.25) and radii in [1, 3). The right ends are
  open because `Math.random()` never returns 1.
- The `Particle` interface (lines 4-10 of the component) is the datatype
  `Physics.Particle`, with the same five fields.

## Model

| member | source | states |
|---|---|---|
| `Physics.ParticleCount` | src/components/ParticleNetwork.tsx:35 | the count is at most 80, count × 20 fits the viewport width, and it is 80 or the next count would not fit: min(80, floor(w / 20)) |
| `Physics.ParticleCountExamples` | src/components/ParticleNetwork.tsx:35 | 20 particles for width 400, 80 for 1600 and 1920, 0 for 19 |
| `Physics.SpawnAt` | src/components/ParticleNetwork.tsx:39-45 | definition: the k-th pushed particle, built by `Spawn` from draws 5k to 5k+4; its properties are in `Spawn` and `SpawnAll` |
| `Physics.Spawn` | src/components/ParticleNetwork.tsx:39-45 | a particle built from five draws in [0, 1) has 0 ≤ x < width, 0 ≤ y < height (y = 0 on a zero-height canvas), vx and vy in [-0.25, 0.25) and radius in [1, 3) |
| `Physics.SpawnAll` | src/components/ParticleNetwork.tsx:36-46 | `count` pushes onto an empty list give exactly `count` particles, the k-th built from draws 5k to 5k+4 |
| `Physics.SpawnAllBounds` | src/components/ParticleNetwork.tsx:38-46 | with all draws in [0, 1), every particle of an initialisation lies within the initial bounds |
| `Physics.Outside` | src/components/ParticleNetwork.tsx:57-58 | definition: the bounce test, a coordinate below 0 or above the extent; its use is stated in `StepParticleRules` |
| `Physics.StepParticle` | src/components/ParticleNetwork.tsx:53-58 | definition: one particle's move by its velocity and the sign flip of a component whose new coordinate is outside; its properties are in `StepParticleRules`, `StepPreservesContained`, `BounceOnce` and `Stranded`, and `Field.Move` is proved to compute it |
| `Physics.StepParticleRules` | src/components/ParticleNetwork.tsx:53-58 | a move adds the old velocity to the position and keeps the radius; each velocity component keeps its magnitude and is negated exactly when the new coordinate is outside [0, extent] |
| `Physics.InitialBoundsContained` | src/components/ParticleNetwork.tsx:40-44 | a particle within the initial bounds satisfies the containment invariant |
| `Physics.StepPreservesContained` | src/components/ParticleNetwork.tsx:53-58 | on a canvas of fixed size, a contained particle is still contained after its move |
| `Physics.BounceOnce` | src/components/ParticleNetwork.tsx:53-58 | a particle inside the canvas whose move crosses an edge is flipped once; the next move brings it back to its old x without a second flip |
| `Physics.Stranded` | src/components/ParticleNetwork.tsx:53-58 | a particle more than one move beyond the right edge flips every frame and returns to the same x and vx every two frames, so it never comes back inside |
| `Frame.Opacity` | src/components/ParticleNetwork.tsx:76 | definition: `0.2 * (1 - d / 150)`; its properties are in `OpacityRange` and `OpacityDecreasing` |
| `Frame.OpacityRange` | src/components/ParticleNetwork.tsx:76 | for 0 ≤ d < 150 the opacity is in (0, 0.2]; it is 0.2 at d = 0 and 0 at d = 150 |
| `Frame.OpacityDecreasing` | src/components/ParticleNetwork.tsx:76 | a larger distance gives a strictly smaller opacity |
| `Frame.Link` | src/components/ParticleNetwork.tsx:68-79 | definition: one pair check, a line record with the opacity of the distance when it is below 150, else nothing; its properties are in `LinkIff` |
| `Frame.LinkIff` | src/components/ParticleNetwork.tsx:68-79 | with a true square root, a pair check draws a line exactly when dx² + dy² < 150², and the line's opacity is then in (0, 0.2] |
| `Frame.Moved` | src/components/ParticleNetwork.tsx:52-58 | definition: the list part-way through a frame, the first i particles moved and the rest as the frame found them; its properties are in `MovedNext` and `MovedEnds` |
| `Frame.StepAll` | src/components/ParticleNetwork.tsx:52-58 | a frame keeps the number of particles |
| `Frame.MovedNext` | src/components/ParticleNetwork.tsx:52-58 | part-way through a frame, particle i and every later particle are still as the frame found them, and moving particle i in place gives the list with the first i + 1 moved |
| `Frame.StepAllPreservesContained` | src/components/ParticleNetwork.tsx:52-58 | a frame keeps every particle of a contained list contained |
| `Frame.Pairs` | src/components/ParticleNetwork.tsx:52-67 | definition: the pairs one frame checks, in checking order; its properties are in `PairsCount` and `PairsExactlyOnce` |
| `Frame.PairsUpTo` | src/components/ParticleNetwork.tsx:52-67 | definition: the checks made for the first i of n particles, each particle's `Row` in turn; its properties are in `PairsUpToCount`, `PairsUpToMembers` and `PairsUpToOrdered` |
| `Frame.Row` | src/components/ParticleNetwork.tsx:67 | the first k checks of particle i are (i, i+1), …, (i, i+k), k of them |
| `Frame.PairsUpToCount` | src/components/ParticleNetwork.tsx:52-67 | the first i of n particles make i(2n - i - 1)/2 checks between them |
| `Frame.PairsCount` | src/components/ParticleNetwork.tsx:52-67 | a frame over n particles makes n(n-1)/2 connection checks |
| `Frame.PairsExactlyOnce` | src/components/ParticleNetwork.tsx:52-67 | the pairs checked are exactly those with a < b < n, so never a particle against itself; they come in lexicographic order, so none repeats |
| `Frame.Links` | src/components/ParticleNetwork.tsx:67-80 | definition: one particle's checks against the particles after it, one `Link` each, in order; its properties are in `LinksLines`, `LinksNoCircles` and `LinksSlice`, and `Field.Connect` is proved to compute it |
| `Frame.CircleOf` | src/components/ParticleNetwork.tsx:61-64 | the circle record of particle j is at its moved position with its radius and carries index j |
| `Frame.Block` | src/components/ParticleNetwork.tsx:52-80 | definition: particle j's records in a frame, its circle then the lines of its checks; its properties are in `BlockLines` and `BlockCircles` |
| `Frame.FrameUpTo` | src/components/ParticleNetwork.tsx:52-81 | definition: the records of the first i particles of a frame, block after block; its properties are in `FrameUpToLines`, `FrameUpToCircles` and `FrameUpToFlatten` |
| `Frame.FrameCalls` | src/components/ParticleNetwork.tsx:52-81 | definition: the reference list of one frame's records, `FrameUpTo` over every particle; what it holds is stated in `FrameDraws`, and `Field.ParticleField.Step` is proved to produce it |
| `Frame.LinksSlice` | src/components/ParticleNetwork.tsx:67 | checking against `slice(i + 1)` gives the same records as checking against the list from index i + 1 on |
| `Frame.LinksLines` | src/components/ParticleNetwork.tsx:67-79 | the checks of particle i against the next k particles draw a line (a, b, o) exactly when a = i, i < b ≤ i + k and the check of the pair (i, b) draws it |
| `Frame.LinksNoCircles` | src/components/ParticleNetwork.tsx:67-79 | the connection checks draw no circles |
| `Frame.BlockLines` | src/components/ParticleNetwork.tsx:52-80 | the records of particle j hold a line (a, b, o) exactly when a = j < b < n and moved particle j is within reach of not-yet-moved particle b |
| `Frame.BlockCircles` | src/components/ParticleNetwork.tsx:52-64 | the records of particle j hold exactly one circle, at its new position with its radius |
| `Frame.FrameUpToLines` | src/components/ParticleNetwork.tsx:52-81 | the records of the first i particles hold a line (a, b, o) exactly when a < i, a < b < n and the check of moved a against unmoved b draws it |
| `Frame.FrameUpToCircles` | src/components/ParticleNetwork.tsx:52-81 | the records of the first i particles hold exactly the circles of those i particles |
| `Frame.FrameDraws` | src/components/ParticleNetwork.tsx:52-81 | a frame draws one circle per particle at its new position with its radius; it draws a line (a, b, o) exactly when a < b < n and moved particle a is within 150 of the not-yet-moved particle b; o is the opacity of that distance and lies in (0, 0.2] |
| `Parallax.Offset` | src/components/ParticleNetwork.tsx:17 | the offset is in [0, 300]; it is 0.3·s for s in [0, 1000], 0 for s ≤ 0 and 300 for s ≥ 1000 |
| `Parallax.OffsetMonotone` | src/components/ParticleNetwork.tsx:17 | scrolling further never decreases the offset |
| `Parallax.OffsetExamples` | src/components/ParticleNetwork.tsx:17 | offsets 0, 150, 300, 300 and 0 at scroll positions 0, 500, 1000, 2000 and -50 |
| `Field.ParticleField.constructor` | src/components/ParticleNetwork.tsx:13-15 | before mounting the list is empty, no listener is registered and no frame is requested |
| `Field.ParticleField.Resize` | src/components/ParticleNetwork.tsx:26-29 | the canvas takes the viewport's width and height; the particle list and the flags are unchanged |
| `Field.ParticleField.Init` | src/components/ParticleNetwork.tsx:35-46 | the new list is exactly `SpawnAll` for min(80, floor(innerWidth / 20)) particles on the current canvas, whatever it held before; with draws in [0, 1) every particle is within the initial bounds and the field is contained; the canvas size and flags are unchanged |
| `Field.Move` | src/components/ParticleNetwork.tsx:53-58 | the in-place field updates (x, y, then the two sign flips) compute `StepParticle` |
| `Field.Connect` | src/components/ParticleNetwork.tsx:67-80 | the checks of moved particle i against `slice(i + 1)` emit the line records `Links` defines and visit the pairs (i, i+1), …, (i, n-1) in order |
| `Field.ParticleField.Step` | src/components/ParticleNetwork.tsx:48-84 | the new list is every particle moved and bounced; the draw records are `FrameCalls` of the list at the start of the frame; the checks are `Pairs(n)`; the next frame is requested; the canvas size is unchanged; containment is kept |
| `Field.ParticleField.Sweep` | src/components/ParticleNetwork.tsx:52-81 | the `forEach` over the particles ends with every particle moved, the records `FrameCalls` defines for the list it started from, and all `Pairs(n)` checks, the canvas size and flags untouched |
| `Field.ParticleField.Visit` | src/components/ParticleNetwork.tsx:52-80 | one pass of the loop body advances the state from "first i particles done" to "first i + 1 done": list, records and checks |
| `Field.ParticleField.MoveAt` | src/components/ParticleNetwork.tsx:53-58 | particle i is replaced in place by its moved and bounced self; the particles after it are untouched |
| `Field.ParticleField.ConnectAt` | src/components/ParticleNetwork.tsx:67-80 | checking moved particle i against `slice(i + 1)` of the live list draws the lines of the checks against the particles as the frame found them |
| `Field.ParticleField.Mount` | src/components/ParticleNetwork.tsx:19-86 | with no canvas or no 2D context nothing changes and nothing is drawn; otherwise the canvas is sized to the viewport, the listener is registered, the particles are generated, the first frame is drawn and the next is requested |
| `Field.ParticleField.DeliverResize` | src/components/ParticleNetwork.tsx:26-32 | a resize event changes the canvas size only while the listener is registered, and never touches the particles |
| `Field.ParticleField.DeliverFrame` | src/components/ParticleNetwork.tsx:83 | with no frame requested nothing is drawn or changed; otherwise exactly one frame step runs and requests the next frame |
| `Field.ParticleField.Unmount` | src/components/ParticleNetwork.tsx:88-93 | afterwards no listener is registered and no frame is pending; particles and canvas size are unchanged |
| `Field.UnmountStopsEverything` | src/components/ParticleNetwork.tsx:88-93 | after teardown a delivered frame returns no draw records, and a delivered resize changes neither the canvas size nor the particles |

## Left out

- Canvas rendering (lines 49, 61-64 and 73-78): `clearRect`, paths, colours,
  line width and `stroke`. The draw records keep only the particle index,
  position and radius of a circle, and the index pair and opacity of a line.
- `requestAnimationFrame` and `cancelAnimationFrame` (lines 83, 90-92), and
  adding and removing the resize listener (lines 32, 89). They are host
  scheduling and become the flags `framePending` and `listening`. Frame ids
  and the timing of frames are not modelled.
- `useScroll`, `useTransform` and `motion.div` (lines 16-17, 97-107). They
  are library code. Only the clamped linear map `Parallax.Offset` is
  modelled; the scroll position is its input.
- Floating point: the model uses exact reals, so rounding, overflow, `NaN`
  and `-0` are not modelled. `Math.random` is an input sequence and
  `Math.sqrt` a parameter.
- Particle objects are values, not shared references. Nothing else refers
  to them, so updating the list element is the same as mutating the object.
- `Frame.FrameDraws`: states which records a frame contains. Their order is
  fixed by `Frame.FrameCalls`, which `Field.ParticleField.Step` produces
  exactly.
- The other components of the page (`Projects.tsx`, `Navigation.tsx`,
  `TechStack.tsx`, `About.tsx`, `Hero.tsx`, `Footer.tsx`) are static markup
  and animation settings passed to a library, and are not part of this
  model.
