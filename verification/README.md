# Pixel pony clap — a Dafny model

This project models the logic core of a small browser game in which a pony
runs through a side-scrolling level and jumps whenever the player claps.

- **Clap detector** (`clap.js`, `ClapDetector`). Once per animation frame it
  reads a window of microphone samples and measures the peak and the energy
  of that window. A window is *loud* when its peak exceeds
  `thr = threshold * sensitivity` and its RMS exceeds `floor + thr / 4`. A
  loud window fires one clap when a one-bit latch is armed and two timing
  gates are open: `cooldownMs` since the last clap and `minClapGapMs` since
  the last peak. Firing disarms the latch. Only a window that is not loud and
  has a peak below `0.55 * thr` re-arms it.
- **Level layout** (`main.js`, `_buildGround`, `_buildClouds`,
  `_buildObstacles`, `_makeObstacle`). The ground is built from 200 px
  segments, some of which are pits or rivers. There are 26 clouds, and grass
  or flower obstacles, each with an x interval "sensor". Every layout is
  decided by a seeded mulberry32 generator (`_mulberry32`).
- **Game rules** (`main.js`, `Play.update`, `_gameOver`, `_jump`, the
  `onClap` handler, `clamp`). The pony may run through a sensor only while it
  is in the air; doing so scores `10 + min(30, 2 * combo)`. Standing inside a
  sensor, or falling below y = 560, ends the game. Distance adds
  `220 * delta / 1000 * 0.06` per frame.

The modules are:

- `Mulberry` (mulberry.dfy): the generator. The state is a 32-bit word and
  the mixing is on `bv32`.
- `Clap` (clap.dfy): the detector's configuration and state, one tick, and
  the setters.
- `ClapRun` (clap_run.dfy): runs of calls folded over a detector, and the
  properties that only show across ticks.
- `Level` (level.dfy): each builder is a method following the source loop,
  proved equal to a closed-form layout that says which draw decides which
  piece.
- `Play` (play.dfy): the per-frame obstacle, scoring and fall rules.

Modelling choices:

- The clock (`performance.now()`) is a parameter of each tick.
- The microphone window is a `seq<real>`.
- The `onClap` callback becomes the `Signal` a tick returns.
- `Math.sqrt` is avoided. `rms > b` is decided as `sum / n > b * b` when
  `b >= 0`, and as true when `b < 0` (`Clap.RmsAboveIsSqrtComparison` shows
  the two agree). An empty window gives `sqrt(0 / 0)`, which is NaN in
  JavaScript, so it is never loud.
- A random generator is its infinite stream of draws, `nat -> real`.
- The physics engine's verdicts are inputs to each frame: the pony's
  position, `body.blocked.down` and the key state.

Points where the code differs from what its comments or names suggest; the
model follows the code:

- **Sensitivity direction.** The comment on clap.js:6 says a larger
  sensitivity is more sensitive, but `thr = threshold * sensitivity`
  (clap.js:88), so a higher sensitivity RAISES the trigger level and can
  only make windows quiet. See `Clap.HigherSensitivityIsStricter` and
  `Clap.SensitivityCanSilence`.
- **`stop()` clears only `_running`.** Latch and timestamps are not reset
  (clap.js:53-66), so a later `start()` resumes the same debounce.
- **`start()` sets `_running` before awaiting the microphone.**
  (clap.js:27-28)
- **The callback payload carries the effective level under the key `thr`**
  (clap.js:102).
- **The two timing gates collapse into one.** Both timestamps are always
  written together (clap.js:99-100), so `minClapGapMs` only matters when it
  exceeds `cooldownMs`. See `Clap.SingleGate` and `ClapRun.ClapsSpaced`.

## Model

| member | source | states |
|---|---|---|
| `Mulberry.Seed` | main.js:627 | `seed >>> 0` is the seed reduced modulo 2^32; it is the seed itself exactly when the seed is already an unsigned 32-bit word |
| `Mulberry.MixBits` | main.js:630-632 | the three shift-xor-multiply rounds on 32-bit words (`Math.imul` as wrapping bv32 multiplication, `>>>` as logical shift); a definition, pinned by the known answers `Mulberry.FirstDrawOfSeed42` and `Mulberry.SecondDrawOfSeed42` |
| `Mulberry.Advance` | main.js:629 | one state step adds 0x6D2B79F5 and wraps at 2^32; the state decreases exactly when the sum overflows |
| `Mulberry.ToUnit` | main.js:632 | the returned value is the unsigned mixed word divided by 2^32, hence in [0, 1) |
| `Mulberry.Output` | main.js:630-632 | every value a call returns lies in [0, 1) |
| `Mulberry.StateAfterClosedForm` | main.js:627-629 | after k calls the state is `seed + k * 0x6D2B79F5` modulo 2^32 |
| `Mulberry.Draw` | main.js:628-633 | the k-th call returns a value in [0, 1) |
| `Mulberry.SeedWraps` | main.js:627 | seeds that differ by 2^32 start from the same state word, so they give the same stream |
| `Mulberry.StreamInUnit` | main.js:626-634 | every draw of the stream of `_mulberry32(seed)` lies in [0, 1) |
| `Mulberry.StateAfterAdd` | main.js:628-629 | k calls followed by j calls equal k + j calls: the word is the generator's only state |
| `Mulberry.DrawShift` | main.js:628-633 | draw k + j of a generator equals draw j of a generator started from the state after k calls |
| `Mulberry.StateAfterPeriod` | main.js:629 | the state repeats after 2^32 calls |
| `Mulberry.DrawPeriod` | main.js:628-633 | the stream of draws is periodic with period 2^32 |
| `Mulberry.FirstDrawOfSeed42` | main.js:626-632 | known answer: the first call of `_mulberry32(42)` reaches state 1831565855, mixes it to 2581720956 and returns 2581720956 / 2^32 |
| `Mulberry.SecondDrawOfSeed42` | main.js:626-632 | known answer: the second call of `_mulberry32(42)` reaches state 3663131668, mixes it to 1925393290 and returns 1925393290 / 2^32 |
| `Mulberry.KnownState` | main.js:627-629 | any state word the closed form gives for k calls is the state the generator reaches after k calls |
| `Mulberry.Seed99Draw` | main.js:626-633 | draw k of `_mulberry32(99)` is the output of the state word after k + 1 calls |
| `Mulberry.Seed99Draw32` | main.js:626-633 | known answer: draw 32 of `_mulberry32(99)` is below 0.55 (state 312129784 mixes to 1278237150) |
| `Mulberry.Seed99Draw33` | main.js:626-633 | known answer: draw 33 of `_mulberry32(99)`, scaled by 90 and floored, is 21 (state 2143695597 mixes to 1040450815) |
| `Mulberry.Seed99Draw34` | main.js:626-633 | known answer: draw 34 of `_mulberry32(99)` is at least 0.55 (state 3975261410 mixes to 2966671880) |
| `Mulberry.Seed99Draw35` | main.js:626-633 | known answer: draw 35 of `_mulberry32(99)`, scaled by 90 and floored, is 35 (state 1511859927 mixes to 1692960689) |
| `Clap.Create` | clap.js:4-24 | each numeric option is taken verbatim and each non-number falls back to its default (1.0, 320, 80, 0.012, 0.06); the detector starts armed, with both timestamps 0, and not running |
| `Clap.SetSensitivity` | clap.js:68-70 | the stored sensitivity is v clamped to [0.2, 3.0] (v inside the range, 0.2 below it, 3.0 above it); every other tunable is unchanged |
| `Clap.SetSensitivityIdempotent` | clap.js:68-70 | calling the setter twice with the same value equals calling it once, and storing the stored sensitivity again changes nothing |
| `Clap.Start` | clap.js:26-28 | start only sets `_running` and leaves latch and timestamps as they were |
| `Clap.Stop` | clap.js:53-54 | stop clears `_running` and keeps latch and timestamps |
| `Clap.StopIdempotent` | clap.js:53-66 | stopping twice equals stopping once |
| `Clap.Peak` | clap.js:78-83 | the peak is non-negative, at least every sample's magnitude, and is 0 or the magnitude of some sample |
| `Clap.SumSq` | clap.js:77-82 | the sum of squares is non-negative |
| `Clap.Measure` | clap.js:77-84 | the single sample loop computes exactly the peak and the sum of squares of the window as characterized by `Clap.Peak` and `Clap.SumSq` |
| `Clap.RmsAboveIsSqrtComparison` | clap.js:85-91 | comparing the mean square with the squared bound decides `sqrt(sum / n) > bound` for every bound |
| `Clap.IsLoud` | clap.js:91 | the loudness test `peak > thr && rms > floor + thr * 0.25`, with the RMS comparison done on squares; a definition, characterized by `Clap.RmsAboveIsSqrtComparison` and `Clap.HigherSensitivityIsStricter` |
| `Clap.Rearms` | clap.js:107 | the re-arm test `!isLoud && peak < thr * 0.55`; a definition, whose effect on the latch `Clap.Tick` states |
| `Clap.Tick` | clap.js:72-109 | a stopped detector ignores the tick; a clap fires iff running, loud, armed and both gates open; firing sets both stamps to now, disarms and reports peak, mean square and thr; a quiet tick keeps the stamps; the latch is armed afterwards iff the window re-arms or it was armed and nothing fired; a window that re-arms never fires |
| `Clap.SingleGate` | clap.js:94-104 | while the two stamps agree they still agree after the tick, and a clap fires iff loud, armed, running and `now - lastClapAt >= max(cooldownMs, minClapGapMs)` |
| `Clap.HigherSensitivityIsStricter` | clap.js:88-91 | with a positive base threshold, a higher sensitivity gives a strictly higher thr and every window loud at the higher sensitivity is loud at the lower one |
| `Clap.SensitivityCanSilence` | clap.js:88-91 | with the game's threshold 0.055, peak 0.1 and RMS 0.05 is loud at sensitivity 1 and quiet at sensitivity 2 |
| `Clap.RmsGateRejectsThinPeak` | clap.js:88-91 | with the defaults thr is 0.06, and a window of peak 0.08 and RMS 0.02 is not loud because of the RMS gate |
| `ClapRun.Step` | clap.js:68-109 | only a tick can fire, and no call changes `cooldownMs` or `minClapGapMs` |
| `ClapRun.ReplayKeepsGates` | clap.js:68-70 | through any run of calls the two timing gates keep their constructor values |
| `ClapRun.ReplayKeepsSynced` | clap.js:19-100 | from construction on, `_lastClapAt == _lastPeakAt` after every call |
| `ClapRun.StampsHoldAfterClap` | clap.js:94-104 | after a clap, until the next one, both stamps hold the clap's clock reading |
| `ClapRun.StaysDisarmed` | clap.js:101-109 | after a clap the latch stays disarmed until a running tick meets the re-arm condition |
| `ClapRun.ClapsSpaced` | clap.js:94-104 | two consecutive claps are at least `max(cooldownMs, minClapGapMs)` apart on the clock, whatever the clock did between them |
| `ClapRun.RearmBetweenClaps` | clap.js:93-109 | between any two claps some running tick met the re-arm condition: a sustained loud sound claps once |
| `ClapRun.TwoClapRun` | clap.js:94-109 | with the defaults, a loud window at 400 ms claps, a silent window at 500 ms re-arms without clapping, and a loud window at 800 ms claps again |
| `ClapRun.LastClapNeverDecreases` | clap.js:95-100 | with a non-negative cooldown, `_lastClapAt` never decreases over a run, even if the clock goes backwards |
| `Level.CeilDiv` | main.js:228 | `Math.ceil(n / d)` is the q with `(q - 1) d < n <= q d` |
| `Level.SegmentCount` | main.js:228-232 | the loop makes `ceil((finishX + 900) / 200)` segments, none when that is not positive |
| `Level.Classify` | main.js:240-244 | a draw makes a gap iff below 0.23, and a river iff in [0.14, 0.23); every river is a gap |
| `Level.BuildGround` | main.js:223-253 | the loop, drawing only for segments away from both ends, builds exactly the closed-form ground in which middle segment i uses draw i - 3 |
| `Level.GroundShape` | main.js:226-253 | segment i sits at 200 i; hazards are 200 wide; nothing within 600 px of either end is a hazard; a middle segment is a pit, a river or ground exactly by its draw |
| `Level.ShippedGround` | main.js:228-236 | with finishX 5600 the ground has 33 segments and hazards only at indices 3 to 25 |
| `Level.BuildClouds` | main.js:318-331 | the loop builds exactly the 26 clouds in which cloud i uses draws 3i, 3i+1 and 3i+2 |
| `Level.CloudBounds` | main.js:318-331 | cloud i has x in [800 + 190 i, 959 + 190 i] and y in [190, 329]; it is a platform iff its third draw exceeds 0.35; platforms are 120 x 26 and the others 90 x 22 |
| `Level.SensorsOf` | main.js:404-405 | each obstacle's sensor keeps its kind and spans `[x - 12, x + 34]` |
| `Level.SensorsOrdered` | main.js:358-370 | within the regular group and within the sprint group, sensors are pairwise disjoint and in left-to-right order |
| `Level.ShippedSensorsOverlap` | main.js:356-370 | with seed 99, regular sensor 16 `[4849, 4895]` overlaps sprint sensor 0 `[4828, 4874]` and regular sensor 17 `[5123, 5169]` overlaps sprint sensor 2 `[5088, 5134]` |
| `Level.ShippedEntries` | main.js:356-370 | with seed 99, obstacles 16, 17, 18 and 20 are grass at 4861, a flower at 5135, a flower at 4840 and a flower at 5100 |
| `Level.ShippedRegular16` | main.js:358-365 | with seed 99, regular obstacle 16 is grass at 680 + 260 * 16 + 21 |
| `Level.ShippedRegular17` | main.js:358-365 | with seed 99, regular obstacle 17 is a flower at 680 + 260 * 17 + 35 |
| `Level.LayoutEntry` | main.js:354-371 | entry k of the obstacle list is regular obstacle k below the regular count and sprint obstacle k minus that count after it |
| `Level.RegularCount` | main.js:358 | the loop makes one regular obstacle per `x = 680 + 260 k` below `finishX - 260`, and no more |
| `Level.BuildObstacles` | main.js:354-371 | the loops build exactly the regular obstacles, obstacle k using draws 2k (kind) and 2k + 1 (offset), followed by five sprint obstacles |
| `Level.ObstacleShape` | main.js:354-371 | regular obstacle k lies in [680 + 260 k, 769 + 260 k] and is grass iff its first draw is below 0.55; sprint obstacle i is at `finishX - 760 + 130 i` and is a flower iff i is even |
| `Level.ShippedObstacles` | main.js:354-370 | with finishX 5600 there are 23 obstacles |
| `Level.ShippedLevel` | main.js:230-356 | the shipped seeds 42 (main.js:230), 7 (main.js:319) and 99 (main.js:356) give 33 segments, 26 clouds and 23 obstacles |
| `Level.MulberryInUnit` | main.js:626-634 | every mulberry32 stream meets the [0, 1) hypothesis of the layout lemmas |
| `Play.InitialWellFormed` | main.js:86-90 | the game `create` sets up (score 0, combo 0, nothing passed, not ended) is well formed for any sensor list |
| `Play.Clamp` | main.js:32 | the result lies in [a, b] when a <= b; it is n inside the range and the violated bound outside it; it is a when a > b |
| `Play.GameOver` | main.js:573-575 | game over ends the game and zeroes the combo, keeping score and passed sensors |
| `Play.Award` | main.js:501-502 | clearing a sensor is worth at most 40 points, at least 12 with an incremented combo, and exactly 40 from combo 15 on |
| `Play.Clear` | main.js:500-502 | clearing a sensor in the air marks it passed, raises the combo by one up to 999, adds 12 to 40 points and does not end the game |
| `Play.PassSensors` | main.js:492-505 | the obstacle loop from sensor i on; a definition, characterized by `Play.PassOnGround` (on the ground) and `Play.PassInAir` (in the air) |
| `Play.HitsExact` | main.js:492-495 | the sensors a frame reaches are exactly the unpassed ones whose interval contains the pony's x |
| `Play.PassOnGround` | main.js:492-498 | on the ground, reaching any unpassed sensor is game over with nothing else changed, and reaching none changes nothing |
| `Play.PassInAir` | main.js:492-505 | in the air exactly the reached sensors become passed; the combo grows by their number, capped at 999; each adds 12 to 40 points; the game goes on |
| `Play.Jump` | main.js:522-531 | a jump happens iff the game is running and the pony stands on something |
| `Play.OnClap` | main.js:128-131 | a clap jumps iff the game is running and the pony stands on something |
| `Play.Update` | main.js:482-486 | an ended game ignores the frame; a jump is requested iff space was just pressed, the pony stands on something and the game is running; a frame that ends the game zeroes the velocity again (main.js:580-581), so such a request does not lift the pony |
| `Play.UpdateOutcome` | main.js:482-514 | a frame keeps the game well formed and never unpasses a sensor; the game ends iff the pony is on the ground inside an unpassed sensor or below y 560; on-ground contact leaves combo 0 and passed unchanged; a frame that does not end the game adds exactly the reached sensors, none of them passed before, and grows the combo by their number capped at 999; a non-negative frame time never lowers the score |

## Left out

- Microphone and audio graph: `getUserMedia`, `AudioContext`, the analyser and `stop()`'s resource release. The window of samples is an input to a tick.
- The asynchronous failure path of `start()`. If the microphone is refused, `_running` stays true; the model only has the synchronous part.
- Scheduling: `requestAnimationFrame` and `performance.now()`. The clock is a tick parameter and a run is a sequence of calls.
- IEEE-754 arithmetic. Samples, scores and clock readings are exact reals. `Math.sqrt` is replaced by an exact comparison of squares, so rounding at the decision boundaries is not modelled.
- Clap.Tick: reports the mean square instead of its square root in the `onClap` payload, because `sqrt` has no exact real model here.
- Rendering, tweens, HUD text and the `stateText` callbacks: no effect on game state.
- The Phaser physics engine: gravity, collisions with ground and clouds, and the jump velocity. Its verdicts (`body.blocked.down`, the pony's x and y) are inputs to each frame.
- `_win` and the finish-flag overlap: physics-driven, outside the obstacle and score loop.
- Visual-only geometry: water and pit drawings, cloud shading, obstacle sprites beyond their x extent, and the pony.
- Non-numeric `sensitivity` passed to `setSensitivity`: the model takes a real. JavaScript's `Math.min`/`Math.max` convert other values to numbers (`null` stores 0.2, `"1.5"` stores 1.5, `true` stores 1), and values that cannot be converted (such as `undefined` or `"abc"`) give NaN.
- Play.PassInAir: states the set of passed sensors and the score bounds, not the exact score sum or the order in which sensors are passed.
- The `passed` set holds sensor objects in the source; the model uses their index in `obstacleGroup` order.
