# Particles: a verified model of the particle-simulation kernel

The page draws a decorative animated background. Coloured discs move across a canvas and bounce off its edges. Particles close to each other are joined by thin lines. Everything in `js/main.js` except the simulation kernel is DOM and canvas glue. This project models the kernel in Dafny:

- **`Kinematics`**: one frame of a particle's motion, as a pure function `Step` on a snapshot of its fields. The particle moves by `speed * direction` on each axis. Past an inset edge (radius plus shadow blur in from the canvas border) it turns back and gains `acceleration`, once per axis. On reaching `maxSpeed` it falls back to its initial speed `ispeed`. Lemmas state the bounce rule and the speed gain. They also show that over any run of frames, with any canvas sizes, the speed stays at most `maxSpeed`, both directions stay ±1 and the other fields never change.
- **`CanvasObjects`**: the type check every drawable object makes when constructed. Position, radius and shadow blur must be numeric and both colours must be strings; otherwise construction fails with "Incorrect data type".
- **`Particles`**: the `Particle` class. Its position, speed and directions are updated in place by `Update`, which is proved to change them exactly as `Step` says. The fields the constructor sets and nothing writes again (colours, blur, radius, initial and maximum speed, acceleration) are `const`. Particles share one `Area` (the canvas), whose size they read on every update.
- **`Settings`**: the shared configuration record and the eight random draws `fillStorage` makes per particle. It computes the constructor arguments from them and proves where a new particle starts. It also holds the two colour inputs, which accept a value only when it contains a `#RRGGBB` colour.
- **`HexColour`**: the case-insensitive, unanchored test `/#([0-9A-F]{2}){3}/i`, proved equal to "some position holds `#` and six hex digits".
- **`Links`**: the pair-selection rule of `bindParticles`. Particle `i` is linked to particle `k` (itself included) exactly when their distance is at most the bind distance. Each unordered pair is therefore drawn twice and no ordered pair repeats.
- **`Collection`**: the `ParticlesCollection` class. It fills, clears, resets and updates its `storage` in place, computes the links and runs one frame (update, then bind).

`Math.random()` results are parameters (a `Draws` record per particle, each draw in [0, 1)). Positions and speeds are exact `real`s. A particle's position is compared with the inset edges but never clamped. A frame can leave a particle outside the inset region, turned back towards it (`Kinematics.UpdateDoesNotClamp`). The update rule is the code's; it does not promise that positions stay inside the bounds.

## Model

| member | source | states |
|---|---|---|
| `HexColour.SearchFrom` | js/main.js:374 | scanning from index `i` finds a match exactly when `#` and six hex digits (either case) start at some index at or after `i` |
| `HexColour.Test` | js/main.js:374 | `hexRegExp.test(s)` holds exactly when `#` followed by six hex digits occurs anywhere in `s` |
| `HexColour.UnanchoredAccept` | js/main.js:374 | any text before or after a `#RRGGBB` colour still passes the test |
| `HexColour.AcceptedHasHash` | js/main.js:374 | every value that passes contains a `#` |
| `HexColour.ShortFormRejected` | js/main.js:374 | `#FFF` is rejected; lower-case `#ffffff` and a colour embedded in other text are accepted |
| `CanvasObjects.NewCanvasObject` | js/main.js:80-94 | construction fails exactly when x, y, radius or shadow blur is not numeric or either colour is not a string; otherwise the fields hold the given values |
| `Particles.Min` | js/main.js:149-150 | `Math.min`: the result is at most both arguments and is one of them |
| `Particles.XDirection` | js/main.js:154 | the X direction is -1 exactly when the draw is above 0.5, and 1 otherwise |
| `Particles.YDirection` | js/main.js:155 | the Y direction is -1 exactly when the draw is below 0.5, and 1 otherwise |
| `Particles.InitialState` | js/main.js:147-157 | a new particle starts with `speed == ispeed == min(speed, maxSpeed)`, directions ±1, and the checked position, radius, blur and colours |
| `Particles.Construct` | js/main.js:137-158 | constructing a particle fails exactly when its arguments fail the drawable-object check (the colour is used as both fill and shadow colour); a constructed particle satisfies the invariant and starts at `min(speed, maxSpeed)` |
| `Particles.Particle.constructor` | js/main.js:137-158 | sets every field as `InitialState` describes and establishes the particle invariant |
| `Particles.Particle.Create` | js/main.js:137-158 | `new Particle(...)` fails exactly when `Construct` fails; otherwise it returns a fresh valid particle on the given area whose fields are `Construct`'s result |
| `Particles.Particle.Update` | js/main.js:166-190 | changes the particle's fields exactly as `Kinematics.Step` on the area's current size, and keeps the invariant |
| `Kinematics.Crossings` | js/main.js:171-185 | the number of axes on which the moved particle is beyond an inset edge is at most two |
| `Kinematics.Step` | js/main.js:166-190 | the new position is the old one plus `speed * direction`; only position, speed and directions change; the new speed is below `maxSpeed` or equal to `ispeed` |
| `Kinematics.StepBounce` | js/main.js:171-185 | moved below `radius + sb` the direction becomes 1; otherwise, above `extent - radius - sb`, it becomes -1; otherwise it is unchanged; the same on both axes |
| `Kinematics.StepSpeedGain` | js/main.js:171-189 | the speed gains `acceleration` once per crossed axis, then becomes `ispeed` if the sum reaches `maxSpeed` |
| `Kinematics.StepKeepsInv` | js/main.js:166-190 | one update keeps `speed <= maxSpeed` and both directions in {-1, 1}; with non-negative acceleration the speed stays at least `ispeed` |
| `Kinematics.RunKeepsInv` | js/main.js:166-190 | over any sequence of frames and canvas sizes the invariant holds, and `ispeed`, `maxSpeed`, `acceleration`, `radius`, `sb`, `color` and `sc` never change |
| `Kinematics.UpdateDoesNotClamp` | js/main.js:167-185 | a valid particle can end a frame outside the inset region, heading back in |
| `Settings.Ceil` | js/main.js:222 | `Math.ceil`: the least integer not below the value |
| `Settings.ColourIndex` | js/main.js:219 | `~~(r * n)` for a non-negative product: the integer part of `r * n` |
| `Settings.ColourAt` | js/main.js:219 | indexing the colours list yields a string exactly when the index is inside it (otherwise `undefined`), and that string is one of the colours |
| `Settings.SpawnArgs` | js/main.js:209-224 | the arguments `fillStorage` builds always have numeric position, radius and blur (the configured one), pass the configured speed unchanged and a whole-number maximum speed; a colour, when present, is one of the configured colours |
| `Settings.ColourIndexInRange` | js/main.js:219 | `~~(Math.random() * colors.length)` indexes inside a non-empty colours list |
| `Settings.SpawnAccepted` | js/main.js:216-225 | a particle built by `fillStorage` passes construction exactly when the colours list is not empty |
| `Settings.SpawnPosition` | js/main.js:213-214 | with a non-empty colours list and a canvas wider and taller than `2 * maxR`, a new particle starts inside [maxR, width - maxR) x [maxR, height - maxR), whatever speed, acceleration and radius settings the sliders have left |
| `Settings.SpawnInRange` | js/main.js:216-224 | with a non-empty colours list, a new particle takes its colour from the list and the configured blur, has an integer maximum speed, and starts at `min(s, maxSpeed)`; when `s <= maxS` it starts at exactly `s` with maximum speed in [s, maxS + 1); when `0.5 <= maxAcc` its acceleration is in [0.5, maxAcc]; when `minR <= maxR` its radius is in [minR, maxR] |
| `Settings.DefaultConfigSpawn` | js/main.js:119-131 | with the starting configuration every particle is constructed, white, inside [7, width - 7) x [7, height - 7), at speed 3 with maximum speed in [3, 8), acceleration in [0.5, 1.5] and radius in [3.5, 7] |
| `Settings.OnColourInput` | js/main.js:390-395 | a value that passes the hex test replaces the first configured colour and nothing else; any other value leaves the configuration unchanged |
| `Settings.OnLineColourInput` | js/main.js:429-433 | a value that passes the hex test becomes the line colour and nothing else changes; any other value leaves the configuration unchanged |
| `Settings.ColourInputsUnanchored` | js/main.js:374-433 | text containing a colour anywhere is accepted whole by both inputs |
| `Settings.ColourInputsIgnoreNoHash` | js/main.js:374-433 | text without `#` is ignored by both inputs |
| `Links.Neighbours` | js/main.js:260-265 | the filter keeps at most one entry per stored particle |
| `Links.NeighboursBelow` | js/main.js:260-265 | every index the filter keeps is an index of the storage |
| `Links.NeighboursMember` | js/main.js:260-265 | the filter around a centre keeps index `k` exactly when `k` is stored and its point is within the distance of the centre |
| `Links.NeighboursIncreasing` | js/main.js:260-265 | the filter keeps indices in storage order, strictly increasing |
| `Links.PairsMembers` | js/main.js:267-269 | the inner loop draws a line from `i` to each filtered particle and to no other |
| `Links.LinksUpTo` | js/main.js:259-270 | every line drawn in the first `n` rounds of the outer loop starts at one of the first `n` particles |
| `Links.AllLinks` | js/main.js:256-271 | every line `bindParticles` draws starts at a stored particle |
| `Links.LinksUpToSpec` | js/main.js:259-270 | after `n` rounds of the outer loop, `(i, k)` has been drawn exactly when `i < n` and `k` is on `i`'s filtered list |
| `Links.LinkedIff` | js/main.js:256-271 | `(i, k)` is drawn exactly when both are stored, the distance is non-negative and their squared distance is at most its square, i.e. their Euclidean distance is at most it |
| `Links.LinksSymmetric` | js/main.js:256-271 | `(i, k)` is drawn exactly when `(k, i)` is, so each linked pair of distinct particles is drawn twice |
| `Links.SelfLinked` | js/main.js:256-271 | with a non-negative distance every particle is linked to itself |
| `Links.LinksUpToNoRepeats` | js/main.js:259-270 | when every filtered list is strictly increasing, the outer loop never draws the same ordered pair twice |
| `Links.LinksNoRepeats` | js/main.js:256-271 | no ordered pair is drawn twice |
| `Collection.DefaultBindDistance` | js/main.js:201 | the bind distance is the larger of `3.5 * n` and 100 |
| `Collection.InitialCount` | js/main.js:288-290 | the page starts with `~~(width / 50)` particles but never fewer than 15 |
| `Collection.ParticlesCollection.constructor` | js/main.js:196-201 | empty storage, the given count and area, the default bind distance |
| `Collection.ParticlesCollection.Create` | js/main.js:196-206 | constructing a collection succeeds exactly when there are no particles to make or the colours list is non-empty; it then holds exactly `n` fresh, valid particles, the `j`-th built from the `j`-th draws and the configuration on the given area |
| `Collection.ParticlesCollection.FillStorage` | js/main.js:208-229 | appends exactly `length` fresh particles, each as constructed from its draws and the configuration, keeping the old ones; with an empty colours list (and `length > 0`) it fails and storage is unchanged |
| `Collection.ParticlesCollection.ClearStorage` | js/main.js:231-233 | storage becomes empty; count and bind distance are kept |
| `Collection.ParticlesCollection.Reset` | js/main.js:235-238 | afterwards storage holds exactly `length` fresh particles built from the draws, or none if filling failed |
| `Collection.ParticlesCollection.UpdateParticles` | js/main.js:248-250 | every stored particle is updated exactly as `Step` says; the storage sequence and its length are unchanged and all particles stay valid |
| `Collection.ParticlesCollection.BindParticles` | js/main.js:256-271 | the lines drawn are exactly `Links.AllLinks` of the current positions, in drawing order |
| `Collection.ParticlesCollection.RequestActionFrame` | js/main.js:273-280 | one frame updates every particle and then links the updated positions with the collection's bind distance |

## Left out

- Canvas rendering (`draw`, `clear`, `setAreaStyle`, `clearParticles`, `drawParticles`, the stroke in `lineFromTo`): foreign canvas calls. `BindParticles` returns the pairs it would draw instead of drawing them.
- The DOM helpers and prototype patches (`createDOMElem`, `hasClass`, `clearCompletely`, `lineFromTo`), canvas creation and resize handling: browser glue. The canvas size is the `Area` object's `width` and `height`.
- Frame scheduling (`requestAnimationFrame`, `requestActionLoop`, `freeze`, the `loop` field): browser scheduling. `RequestActionFrame` keeps the order clear, update, draw, bind, without the clear and draw.
- The options panel: the toggle button, `setSliderValue`, mouse handlers, and the number, radius, distance, speed, line-width and rainbow inputs. These are event wiring. The colour and line-colour inputs are modelled only as their effect on the configuration. The `collection.reset()` that the colour input triggers is `Reset`, but the wiring between them is not modelled.
- `Vector` is not part of this model: distances are compared squared, which agrees with comparing `.length` for every bind distance.
- `Math.random`: draws are parameters. `FillStorage`, `Reset` and `Create` take one `Draws` record per particle, each draw in [0, 1) as `Math.random` guarantees.
- IEEE floating point: positions, speeds and sizes are exact reals.
- `~~` truncation to 32 bits is modelled as `Floor`. The two agree for every colour index the code can produce.
- `CanvasObjects.NewCanvasObject`: a numeric argument is a number or a value `isNaN` rejects. A string that JavaScript would coerce to a number is not distinguished.
- `canvasObject` is not a separate class: its fields and check are folded into `Particle`, which is the only kind of drawable object the kernel creates.
- Slider values (whatever the slider element's `value` yields) are not modelled as JavaScript values: `length` is a `nat` and the configuration fields are reals.
- `console.time` / `console.timeEnd`: logging.
