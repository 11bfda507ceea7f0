# FarmFun: the farm economy and the pig lifecycle

FarmFun is a small Bevy game. The player walks around a field, buys pigs for
money, and sells them again when their lifetime runs out. This project models
the game's one piece of real logic in `src/main.rs`, written in Dafny, and
proves properties of that model:

- the money balance (a Bevy resource that starts at 100);
- the pig record, with its one-shot lifetime timer, its repeating wander
  timer, its heading and its speed;
- the four systems that run every frame:
  - `spawn_pig`: buy a pig;
  - `pig_lifetime`: age the pigs and sell the ones whose lifetime is up;
  - `pig_wander`: re-draw a pig's heading once a second and move it;
  - `character_movement`: turn the W/S/D/A keys into the player's direction.

Layout:

- `timer.dfy`, module `Timers`: the timer the systems tick. Bevy's `Timer` is
  not part of this model, so it is modelled explicitly as elapsed time against
  a duration, in nanoseconds. A one-shot timer finishes when the elapsed time
  reaches the duration, then stays there. A repeating timer finishes each time
  it reaches a period and keeps the time past that period. `Reset` sets the
  elapsed time back to zero.
- `farm.dfy`, module `Farm`: the constants, the `Pig` record, specification
  functions for one frame of each system, lemmas about them, and the class
  `FarmState`. The class holds `money`, the sequence `pigs` and the player's
  position. Its methods `SpawnPig`, `LifetimeTick`, `WanderTick` and
  `MovePlayer` update that state in place, as the systems do.

`FarmState.Valid()` is the farm's invariant. It relies on two ghost counters,
`bought` and `sold`, and says:

- the balance equals `100 + 15 * sold - 10 * bought`;
- every pig bought is either still on the farm or has been sold;
- the balance stays above zero;
- every pig on the farm is alive: its lifetime timer has not finished.

Every method keeps this invariant. Because a pig is removed in the same pass
that credits its sale, a pig cannot be sold twice.

Modelling choices:

- Time is a number of nanoseconds. Bevy ticks timers with a `Duration`, and
  25 s and 1 s are exact in that unit.
- Money is an `int`. The source holds it in an `f32`. Every amount involved
  (100, 10 and 15) is a whole number, so the `int` model is exact while the
  balance stays below 2^24.
- Positions and headings are pairs of reals (`Vec2`). The source uses `Vec3`
  with `z` left at zero.
- Some values come from code this model cannot see, so they are parameters:
  - the random heading (`draws`). Its range, each component in [-1, 1), is a
    precondition on the value passed in.
  - the distance moved in one frame (`offset`, `offsets`). This is the heading
    normalized and scaled by speed and frame time, all in floating point.
- Bevy's `Commands` queues a spawn or a despawn and applies it at the next
  sync point. For these four unordered systems, that point comes after the
  whole frame's schedule. The model applies both at once: `SpawnPig` appends
  the pig when it returns, and `LifetimeTick` removes the sold pigs when it
  finishes.
- The source reads the player's position with `player.single()`, which panics
  unless there is exactly one player. The class holds exactly one player
  position, so that precondition holds by construction.

Behaviour of the code worth knowing, which the model follows:

- `pig_wander` takes at most one new heading per frame, even when a frame
  spans several periods, because `reset()` (`src/main.rs:153`) drops the
  overflow.
- Nothing orders `pig_lifetime` before `pig_wander` (`src/main.rs:39`), and
  despawns are deferred, so a pig sold in a frame may still be moved by that
  frame's wander step. The model makes no claim either way.
- The check is `money > 10` followed by `money -= 10` (`src/main.rs:107-108`),
  so a purchase can leave a balance below the price. Every reachable balance
  is a multiple of 5, so the lowest is 5. The model proves `money > 0`.

## Model

| member | source | states |
|---|---|---|
| Timers.FromDuration | src/main.rs:120-122 | a timer made from a positive duration starts well formed, unfinished and at elapsed zero, with the given duration and mode |
| Timers.Tick | src/main.rs:136-138 | ticking a well-formed timer keeps it well formed; it is finished exactly when elapsed plus delta reaches the duration; a one-shot timer's elapsed time is capped at the duration, a repeating timer's wraps modulo the period |
| Timers.Reset | src/main.rs:153 | after a reset the timer has nothing elapsed, is not finished, and keeps its duration and mode |
| Timers.OnceAccumulates | src/main.rs:136-138 | over any run of frames a one-shot timer is finished exactly when the time accumulated reaches its duration, and its elapsed time is that total capped at the duration |
| Farm.InputDirection | src/main.rs:72-85 | each axis component is -1, 0 or 1; y is 1 exactly for W without S and -1 exactly for S without W; x is 1 exactly for D without A and -1 exactly for A without D, so opposite keys cancel; the direction is non-zero exactly when the keys steer |
| Farm.NewPigWf | src/main.rs:113-124 | a bought pig stands at the player's position, is alive, is idle with a zero heading, has speed 50, and both its timers start at zero |
| Farm.SoldAfterLifetime | src/main.rs:135-140 | a bought pig's 25-second lifetime timer is finished after a run of frames exactly when their total time reaches 25 seconds |
| Farm.AgedWf | src/main.rs:136-138 | ageing a live pig changes only its lifetime timer; the pig is due for sale exactly when elapsed plus delta reaches 25 seconds, and otherwise remains a live pig |
| Farm.SurvivorsSpec | src/main.rs:135-143 | after a lifetime pass, the number of pigs kept plus the number sold is the number there were; no kept pig has a finished lifetime; every kept pig is an aged original; every original whose lifetime has not run out is kept; live pigs stay live |
| Farm.SalesPartition | src/main.rs:135-143 | counted with multiplicity, the aged pigs are exactly the pigs kept plus the pigs sold; every pig sold has a finished lifetime; the number of sales is the number of pigs sold |
| Farm.WanderStepSpec | src/main.rs:148-160 | a wander step keeps a live pig live and does not touch its lifetime; when the wander timer reaches its 1-second period, the heading becomes the drawn one and the timer restarts at zero, otherwise the heading stays and the timer accumulates the frame; a pig with a zero heading does not move |
| Farm.FarmState.constructor | src/main.rs:35 | a new game has a balance of 100 and no pigs, and the ledger invariant holds |
| Farm.FarmState.SpawnPig | src/main.rs:101-126 | without a fresh press of the buy key, or with a balance of 10 or less, nothing changes; otherwise the balance drops by exactly 10 and exactly one pig is appended at the player's position, with a 25 s one-shot lifetime, a 1 s repeating wander timer, a zero heading and speed 50; the ledger invariant is kept |
| Farm.FarmState.LifetimeTick | src/main.rs:129-145 | the pigs afterwards are the survivors of one frame of ageing, and the balance rises by 15 per pig sold; the ledger invariant is kept, so no remaining pig has a finished lifetime |
| Farm.FarmState.WanderTick | src/main.rs:147-162 | every pig is replaced by its wander step with its own draw and offset; the balance, the player and the number of pigs do not change; the ledger invariant is kept |
| Farm.FarmState.MovePlayer | src/main.rs:65-92 | the player moves by the offset exactly when the held keys give a non-zero direction, and otherwise stays where they are; money and pigs do not change |
| Farm.FirstSale | src/main.rs:101-143 | a new game with one pig bought, followed by one 25-second frame, ends with a balance of 105 and no pigs |

## Left out

- Engine setup: the app, window, camera, asset loading and sprite bundles in `main` and `setup` (`src/main.rs:20-63`). The only parts kept are the starting balance and the single player.
- Floating-point motion: `normalize()` and the position updates (`src/main.rs:88-89`, `157-159`). The distance moved is an injected `offset`. The model states only when a move happens: when the direction is non-zero.
- Randomness: `rand::thread_rng` and `gen_range` (`src/main.rs:151-152`). They become the injected draws, which are required to lie in [-1, 1).
- Player speed (`Player { speed: 100.0 }`) and pig speed as a factor of motion: these only scale the floating-point offset. The pig's speed of 50 is recorded and preserved.
- Transform rotation, scale and the `z` axis: a pig copies the whole player transform, but the model keeps only the position in the plane.
- System ordering, deferred spawn and deferred despawn: the systems run in any order within a frame, and spawns and despawns wait for the next sync point. The model appends a bought pig directly in `SpawnPig` and removes a sold pig directly at the end of `LifetimeTick`.
- Logging: the `info!` calls (`src/main.rs:109`, `142`).
- `f32` rounding of the balance: not modelled. The `int` balance matches the `f32` exactly while it stays below 2^24; beyond that the `f32` would start dropping units.
