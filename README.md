# Heart fireworks and gesture stages, modelled in Dafny

The page runs two pieces of logic, and this project models both.

The first is a pool of 2000 heart particles. Each slot has a position, a
velocity and an alpha (life) value, kept in three flat buffers that are
updated in place. At start-up every slot is parked below the screen with
alpha 0. A firework burst writes 50 randomly picked slots. An animation
frame moves every live slot (alpha > 0) by its velocity, pulls its vertical
velocity down by gravity and fades its alpha. Dead slots are left alone.

The second is the stage logic run on each hand-tracking frame. From stage 1,
a pinch (thumb tip close to index tip) locks the stage, hides the first
question, and starts a firework show and a 15 s timer. When that timer
fires, stage 2 opens. From stage 2, a hand raised into the top 30% of the
frame moves straight to stage 3 and starts endless fireworks.

Files:

- `gesture.dfy` (module `Gesture`): the two gesture tests, as pure predicates.
- `particles.dfy` (module `Particles`): the slots as values. A burst and a
  physics step are functions on the sequence of slots, with the lemmas about
  them.
- `pool.dfy` (module `Pool`): class `HeartPool` over three `array<real>`
  buffers. Its initialisation loop, burst loop and physics loop are proved
  equal to the value model.
- `stages.dfy` (module `Stages`): the stage state, one function per event (a
  tracking frame, the 3 s show timer, the 15 s unlock timer), the
  reachable-state invariant, and lemmas about runs of events.
- `session.dfy` (module `Session`): class `Session`, whose fields are the
  program's module-level variables. Its callbacks are proved equal to the
  `Stages` functions.
- `scene.dfy` (module `Scene`): the wiring. An animation frame steps the
  pool. A tick of a running firework interval runs one burst.

Randomness and time are replaced by inputs:

- Each of the six `Math.random()` calls in one burst iteration becomes a
  caller-supplied real in [0, 1) (a `Draw`). The slot is
  `floor(pick * 2000)`, as in the code.
- Each timer callback is an event that the caller delivers. It can be
  delivered only while its timer is pending. The 15 s unlock is delivered
  only after the 3 s show has been cleared, because both timers are set at
  the same moment.

What the code does, and so what the model does:

- A single pinch frame, or a single raised-hand frame, triggers the
  transition at once. Nothing counts frames.
- Stage 2 has no open-hand check.
- A burst overwrites a picked slot even if it is still live.
- A dying slot is not moved back to the parked height. It freezes where
  it is (`DeathHeight`).
- The stage 2 to 3 transition also sets the lock, and the lock stays set.

The page's initial markup is not part of this model. The model assumes that
the loading screen and the stage-1 panel start visible and the other panels
start hidden.

## Model

| member | source | states |
|---|---|---|
| `Gesture.IsPinch` | script.js:150-152 | The pinch guard: squared thumb-to-index distance below 0.05 squared. A pinch implies each coordinate difference is below 0.05 |
| `Gesture.IsRaised` | script.js:173-176 | The raise guard: the middle-finger tip's y is below 0.3 |
| `Gesture.PinchIffDistanceBelow` | script.js:148-152 | For the Euclidean thumb-to-index distance d, the squared-distance pinch test holds exactly when d < 0.05 (both directions) |
| `Particles.Parked` | script.js:64-67 | After initialisation all 2000 slots have alpha 0 and y = -500, so none is live |
| `Particles.SlotOf` | script.js:110 | floor(random * 2000) is a valid slot index for every random value in [0, 1) |
| `Particles.Launched` | script.js:113-122 | A launched slot has alpha 1 and y = -20; for random values in [0, 1): x, z in [-5, 5), vx, vz in [-0.75, 0.75), vy in [0.5, 1.5) |
| `Particles.Spawn` | script.js:110-122 | One burst iteration: the picked slot becomes `Launched(d)`, live or not, and every other slot is unchanged |
| `Particles.BurstAll` | script.js:108-123 | The draws applied in order, each overwriting its slot; the pool keeps its 2000 slots |
| `Particles.LastPick` | script.js:108-110 | Gives the last draw that picks slot k, or -1 when no draw picks it |
| `Particles.BurstAt` | script.js:108-123 | After a burst, slot k holds the particle of the last draw that picked it, or its old contents if no draw picked it |
| `Particles.BurstLeavesOthers` | script.js:108-123 | A slot that no draw picks keeps its position, velocity and alpha |
| `Particles.BurstLaunchesPicked` | script.js:109-122 | A picked slot ends launched with all the bounds of `Launched`, whatever it held, live or dead: it is overwritten, not skipped |
| `Particles.BurstLiveBound` | script.js:108-123 | After a burst, every live slot was live before or was picked; a burst of n draws adds at most n live slots |
| `Particles.PickedSize` | script.js:108-110 | n draws pick at most n distinct slots |
| `Particles.Advance` | script.js:221-233 | One step of one slot. A dead slot is returned unchanged. A live one moves by its old velocity, then vy drops by 0.02 and alpha by 0.01. Alpha never rises |
| `Particles.StepAll` | script.js:220-234 | Every slot is advanced on its own, and the pool keeps its size |
| `Particles.StepSlot` | script.js:220-233 | One step leaves a dead slot unchanged. For a live slot it adds the pre-gravity velocity to the position, lowers only vy by 0.02 and lowers alpha by exactly 0.01. Alpha never rises |
| `Particles.StepLiveShrinks` | script.js:221-232 | A step never makes a dead slot live |
| `Particles.StepNAt` | script.js:220-234 | n steps of the pool are n steps of each slot on its own |
| `Particles.StepZero` | script.js:220-234 | Zero steps leave the pool unchanged (the base case of `StepN`) |
| `Particles.DeadStaysFrozen` | script.js:221 | A dead slot stays exactly as it is under any number of steps |
| `Particles.AlphaNonIncreasing` | script.js:232 | Alpha never increases over any number of steps |
| `Particles.AdvanceClosedForm` | script.js:222-232 | While a slot stays live, after n steps: position = p + n*v - (0, 0.01*n*(n-1), 0), vy lowered by 0.02*n, alpha lowered by 0.01*n |
| `Particles.DeadWithin` | script.js:221-232 | A slot whose alpha is at most 0.01*n is dead after n steps |
| `Particles.LaunchedLifetime` | script.js:220-232 | A launched slot is still live after 99 steps and dead after 100 |
| `Particles.PoolDeadAfter100` | script.js:220-232 | With no further bursts, a slot whose alpha is at most 1 is dead after 100 steps and frozen from then on |
| `Particles.AdvanceSplit` | script.js:220-234 | m + n steps are m steps followed by n steps |
| `Particles.DeathHeight` | script.js:220-233 | A launched slot dies at height 100*vy0 - 119, which lies in [-69, 31) and is never the parked height -500: nothing re-parks a slot when it dies |
| `Pool.View` | script.js:59-61 | Abstraction function, not a proved promise: slot k is entries 3k..3k+2 of the position and velocity buffers and entry k of the alpha buffer |
| `Pool.At` | script.js:222-226 | Layout of one slot: x, y, z at 3k, 3k+1, 3k+2 of the position buffer, the same for velocity, alpha at k |
| `Pool.HeartPool.constructor` | script.js:57-67 | Allocates zeroed buffers of 3*2000, 3*2000 and 2000 entries; afterwards the slots are `Parked()` |
| `Pool.HeartPool.Burst` | script.js:103-124 | Updates the buffers in place so that the slots become `BurstAll` of the old slots and the 50 draws |
| `Pool.HeartPool.Step` | script.js:217-234 | Updates the buffers in place so that the slots become `StepAll` of the old slots |
| `Stages.PinchCheck` | script.js:147-168 | The stage-1 block: when it fires, it locks, hides panel 1 and starts the show and the unlock timer. The stage never changes |
| `Stages.RaiseCheck` | script.js:172-186 | The stage-2 block: when it fires, it moves to stage 3, locks, swaps panel 2 for panel 3 and starts the endless fireworks. Otherwise it changes nothing |
| `Stages.OnResults` | script.js:138-188 | A frame never lowers the stage and always hides the loading screen. With no hand, while locked, or at stage 3, it changes nothing else |
| `Stages.OnShowEnd` | script.js:160 | Clearing the show stops it and leaves the stage and the lock as they were |
| `Stages.OnUnlock` | script.js:163-167 | The unlock timer sets stage 2, unlocks, shows panel 2, and the timer is no longer pending |
| `Stages.InitialInv` | script.js:129-130 | The start state is reachable-consistent |
| `Stages.ApplyKeepsInv` | script.js:138-188 | Every event keeps the reachable-state invariant (panels, lock and timers agree with the stage) |
| `Stages.AtMostOnePanel` | script.js:156-180 | In every reachable state at most one stage panel is visible |
| `Stages.PinchTransition` | script.js:147-167 | At stage 1, unlocked, a frame locks exactly when it has a pinching hand. The stage stays 1, panel 1 hides, and the show and the unlock timer start |
| `Stages.RaiseTransition` | script.js:172-185 | At stage 2, unlocked, a frame reaches stage 3 exactly when it has a raised hand. It then locks, hides panel 2, shows panel 3 and starts the endless fireworks. Otherwise only the loading screen changes |
| `Stages.RunMonotone` | script.js:163-181 | Over any run of events the stage never decreases and the invariant holds |
| `Stages.PastStageKept` | script.js:147-172 | Once a stage's transition has fired, no event undoes that |
| `Stages.FiresAt` | script.js:152-177 | A transition fires only from stage 1, leaving it locked, or from stage 2, moving to stage 3 |
| `Stages.NoRefire` | script.js:147-176 | Past a stage's transition, no run fires it again |
| `Stages.FiresAtMostOnce` | script.js:147-185 | In any run from a reachable state, each stage's transition fires at most once |
| `Stages.FullSession` | script.js:138-188 | A session of no-hand, pinch, show end, unlock and raise ends at stage 3, locked, with endless fireworks and only panel 3 visible |
| `Session.Session.constructor` | script.js:129-130 | The module-level variables start in the initial stage state |
| `Session.Session.OnResults` | script.js:138-188 | The tracking callback updates the variables in place to `Stages.OnResults` of the old state |
| `Session.Session.OnShowEnd` | script.js:160 | The clearing timer updates the variables to `Stages.OnShowEnd` of the old state |
| `Session.Session.OnUnlock` | script.js:163-167 | The unlock timer updates the variables to `Stages.OnUnlock` of the old state |
| `Scene.Scene.constructor` | script.js:57-67 | A fresh pool, all slots parked, and the initial stage state |
| `Scene.Scene.Animate` | script.js:210-234 | An animation frame steps the pool and leaves the stage state unchanged |
| `Scene.Scene.FireworkTick` | script.js:159-184 | A tick of a running firework interval runs one burst and leaves the stage state unchanged |

## Left out

- The heart texture drawn on a canvas (script.js:4-26): foreign drawing calls.
- The scene, camera, renderer and shader setup (script.js:31-100): the WebGL pipeline.
- The ambient dust, with random positions and a rotation each frame (script.js:46-53, 214): cosmetic only.
- The MediaPipe hand tracker, camera start-up and the camera error message (script.js:191-205): device I/O. Tracking frames are inputs.
- The resize handler, `requestAnimationFrame`, `renderer.render` and the `needsUpdate` flags (script.js:211, 235-246): rendering plumbing.
- The timer durations (100 ms, 3 s, 15 s, 50 ms) and how many bursts each interval fires: time is not modelled. A timer is an event. The only ordering kept is that the 3 s show clear comes before the 15 s unlock.
- `Math.random` statistics: random numbers are inputs in [0, 1).
- LaunchedLifetime: the buffers hold exact reals, not single-precision floats, so the lemma gives a lifetime of exactly 100 steps. In the program each fade is rounded to single precision: after 100 steps a launched slot's alpha is still about 6.6e-7, so it is still live after 100 steps and dead only after 101.
- PoolDeadAfter100: for the same reason, in single precision a slot launched with alpha 1 needs 101 steps, not 100, to die.
- DeathHeight: for the same reason, in single precision the slot dies one step later, at height 101*vy0 - 121 up to rounding, not 100*vy0 - 119.
- Landmarks other than the thumb, index and middle-finger tips (indices 4, 8, 12): the code reads no others.
