# Tzynski music page: explosions, decoy ships and scoring

This project is a Dafny model of the game logic behind the Tzynski music page, with proofs about it. The page shows the title "TZYNSKI" as 3D letters and five small flying-saucer decoys. Clicking a letter makes it burst into fragments that fall under gravity and leave the scene once they drop below y = -10; two seconds later the letter reappears. The fly-back animation, in which fragments return to the letter and shrink, runs only for fragments still in the scene when the two seconds are up. A fragment starts at most 0.3 high with an upward speed of at most 0.2 per frame, so about 71 frames take it below -10: at 60 frames per second none is left to fly back, and the first reform-phase update finds the scene empty and just shows the letter. Clicking a decoy makes it burst into a cloud of particles, and a few seconds later it respawns at the edge of the play area. Letters are worth 10 points and decoys 100. The page shows the score and the high score as six-digit, zero-padded numbers.

The model has five modules:

- `Vectors` (`vectors.dfy`): the three-component vector arithmetic the code relies on (`add`, `lerp`, `multiplyScalar`, distances), over `real`. It also has `IsDraw`, which says what a value of `Math.random()` can be.
- `Explosion` (`explosion.dfy`): the class `ExplosionSystem`.
  - It holds a fixed `array<Fragment>`. Its methods update that array in place, and its two flags are `isReforming` and the letter's visibility.
  - Each branch of `update` is specified as a pure function applied to the array (`BurstAll` and `ReformAll`).
  - Lemmas prove the burst speed, the per-step reform contraction, geometric convergence over several steps, that the reform phase ends after finitely many updates, and that the in-scene count never increases.
- `Ships` (`spaceship.dfy`): the class `Spaceship`, which holds its particle sets (`ParticleSet`).
  - Each particle set holds three flat `array<real>` buffers, with item `i` at indices `3i`, `3i+1` and `3i+2`.
  - `explode` fills the buffers in one index loop. `update` adds the velocity buffer into the position buffer in place.
  - Spawn placement is given by functions, with lemmas for the bounds.
- `Scoring` (`scoring.dfy`): the pure rules. These are the decimal rendering and `padStart(6, '0')`, JavaScript's `%` in the progress counter, the letter layout formula, and the high-score rule.
- `Music` (`music_client.dfy`): the class `Game`.
  - Its fields are the score, the high score and the value last written to storage.
  - Its constructor sets up the ships and letters, and its methods implement `updateHighScore` and the click handler.
  - A click comes in as what the raycasts found, and the pure function `Dispatch` decides which object the click hits.

Every `Math.random()` value is a parameter whose precondition is that it lies in `[0, 1)`. The same goes for the results of `Vector3.length()` (given as `lengths`, related to the vector by `IsLengthOf`), raycasting (`textHit` and `shipHit`) and `parseInt` of the stored high score. Timer bodies are ordinary methods: `StartReform` and `FinishExplosion`.

## Model

| member | source | states |
|---|---|---|
| Vectors.LerpDistanceSq | app/music/ExplosionSystem.ts:78 | `lerp(target, t)` leaves `(1-t)^2` of the squared distance to the target |
| Explosion.RawDirection | app/music/ExplosionSystem.ts:51-55 | each component of the raw burst direction `2r - 1` lies in [-1, 1) |
| Explosion.Normalize | app/music/ExplosionSystem.ts:55 | `normalize()`: the vector divided by its length, or by 1 when the length is 0, so a zero vector stays zero; `NormalizeLength` proves the unit length of a nonzero one |
| Explosion.LaunchVelocity | app/music/ExplosionSystem.ts:51-55 | the burst velocity of one fragment: the raw direction normalised and scaled by 0.2; its speed is proved by `LaunchSpeed` |
| Explosion.Launched | app/music/ExplosionSystem.ts:44-58 | one fragment after `explode(origin)`: in the scene at `origin`, with reform target `origin`, scale 1 and its launch velocity |
| Explosion.LaunchAll | app/music/ExplosionSystem.ts:42-59 | `explode` produces one launched fragment per fragment slot, so the count is unchanged |
| Explosion.LaunchSpeed | app/music/ExplosionSystem.ts:51-57 | a launched velocity has squared length 0.04 (length 0.2) unless the raw direction is zero, in which case it is zero |
| Explosion.NormalizeLength | app/music/ExplosionSystem.ts:55 | normalising a nonzero vector by its length and scaling by `c` gives squared length `c*c` |
| Explosion.BurstStep | app/music/ExplosionSystem.ts:97-115 | one burst-phase update of one fragment: skipped when out of the scene; otherwise position plus velocity, then velocity.y minus 0.01, removed when the new y is below -10; its properties are proved by `BurstStepMembership` |
| Explosion.ReformStep | app/music/ExplosionSystem.ts:72-83 | one reform-phase update of one fragment: skipped when out of the scene; moved 10% towards its target and shrunk by 0.95 when farther than 0.01; removed otherwise; its properties are proved by `ReformStepProgress` |
| Explosion.BurstAll | app/music/ExplosionSystem.ts:96-116 | the burst step keeps the number of fragments |
| Explosion.ReformAll | app/music/ExplosionSystem.ts:71-84 | the reform step keeps the number of fragments |
| Explosion.BurstStepMembership | app/music/ExplosionSystem.ts:97-115 | a burst step removes a fragment exactly when its new y is below -10, never adds one, leaves fragments outside the scene untouched, and keeps target and scale |
| Explosion.ReformStepProgress | app/music/ExplosionSystem.ts:72-83 | a still-reforming fragment stays in the scene, its squared distance to the target is multiplied by 0.81 and its scale by 0.95; a fragment within 0.01 is removed; fragments outside the scene are untouched |
| Explosion.ReformedScale | app/music/ExplosionSystem.ts:71-84 | after `k` reform updates that all moved the fragment, it is still in the scene, its target is unchanged and its scale is `0.95^k` of the start |
| Explosion.ReformedDistance | app/music/ExplosionSystem.ts:71-84 | after `k` reform updates that all moved the fragment, its squared distance to the target is `0.81^k` of the start (the distance `0.9^k`) |
| Explosion.DistanceStep | app/music/ExplosionSystem.ts:78-79 | one reform update of a moving fragment turns a squared distance of `p` times a start value into `0.81 p` times it |
| Explosion.ReformEnds | app/music/ExplosionSystem.ts:71-84 | every fragment leaves the scene after some number of reform-phase updates: the distance shrinks geometrically until it is within 0.01, and the next update removes it |
| Explosion.ReformEndsBy | app/music/ExplosionSystem.ts:71-84 | once `n` exceeds `60000` times the starting squared distance, the fragment is out of the scene after `n + 1` reform-phase updates |
| Explosion.KeptMovingEnds | app/music/ExplosionSystem.ts:77-82 | a fragment that moved on each of its first `n` updates, with `n` that large, is within 0.01 of its target and is removed by the next update |
| Explosion.StoppedEnds | app/music/ExplosionSystem.ts:72-82 | a fragment that was not moved by some update is removed by it and stays out of the scene afterwards |
| Explosion.ReformBound | app/music/ExplosionSystem.ts:77 | after more than `60000 d0` moving updates, a squared distance `d0` has fallen to at most 0.01 squared |
| Explosion.DecayBound | app/music/ExplosionSystem.ts:78 | the contraction factor after `k` updates satisfies `0.81^k (1 + 0.19 k) <= 1` |
| Explosion.ReformStaysOut | app/music/ExplosionSystem.ts:72 | a fragment that has left the scene stays out under further reform-phase updates |
| Explosion.ReformPhaseEnds | app/music/ExplosionSystem.ts:69-91 | for every fragment array there is a number of reform-phase updates after which no fragment is in the scene, so the reform phase ends: `update` returns false and shows the letter |
| Explosion.ReformAllStep | app/music/ExplosionSystem.ts:69-91 | the array-wide reform update advances each fragment by one update, so `ReformPhaseEnds` applies to what `Update` computes |
| Explosion.InSceneCountMonotone | app/music/ExplosionSystem.ts:82 | if no fragment was added to the scene, the in-scene count did not rise |
| Explosion.InSceneCountZero | app/music/ExplosionSystem.ts:86-91 | the in-scene count is zero exactly when no fragment is in the scene |
| Explosion.BurstNeverAdds | app/music/ExplosionSystem.ts:111-113 | a burst-phase update never raises the in-scene count |
| Explosion.ReformNeverAdds | app/music/ExplosionSystem.ts:82 | a reform-phase update never raises the in-scene count |
| Explosion.ReformedMeansEmpty | app/music/ExplosionSystem.ts:69-91 | when no fragment is still far from its target, one reform update empties the scene |
| Explosion.ExplosionSystem.constructor | app/music/ExplosionSystem.ts:12-36 | a fresh array of exactly `fragmentCount` fragments, none in the scene; the letter visible; not reforming |
| Explosion.ExplosionSystem.Explode | app/music/ExplosionSystem.ts:38-60 | letter hidden, not reforming, every fragment in the scene at `position` with target `position`, scale 1 and its launch velocity; the released flag is unchanged |
| Explosion.ExplosionSystem.StartReform | app/music/ExplosionSystem.ts:62-64 | the timer body enters the reform phase and nothing else changes (letter visibility, released flag and fragments are kept) |
| Explosion.ExplosionSystem.Update | app/music/ExplosionSystem.ts:67-119 | reform phase: fragments become `ReformAll` of the old ones; the result is true iff some fragment was still far from its target; the phase ends and the letter is shown iff that result is false. Burst phase: fragments become `BurstAll`; the result is true iff some fragment is still in the scene. A false result means the scene is empty |
| Explosion.ExplosionSystem.Dispose | app/music/ExplosionSystem.ts:121-127 | every fragment leaves the scene and is otherwise unchanged; geometry and material are released |
| Ships.Side | app/music/Spaceship.ts:65 | `floor(r*4)` is one of the four sides 0..3 |
| Ships.SpawnPosition | app/music/Spaceship.ts:64-85 | the position `reset` sets, per side; its bounds are proved by `SpawnPlacement` and `SpawnInBounds` |
| Ships.SpawnHeading | app/music/Spaceship.ts:68-85 | the velocity `reset` sets in its `switch`, before the jitter; its direction and speed are proved by `SpawnPlacement` |
| Ships.Jitter | app/music/Spaceship.ts:87-88 | the two random nudges of velocity.y and velocity.z; their size is proved by `JitterBounds` |
| Ships.OutOfBounds | app/music/Spaceship.ts:157-159 | some coordinate exceeds 40 in absolute value; `SpawnInBounds` proves it false right after `reset` |
| Ships.SpawnPlacement | app/music/Spaceship.ts:64-85 | per side, the ship is on x = ±30 or y = ±30 with its other coordinates in [-5,5) or [-10,10), and the heading points to the centre along that axis with speed in [0.1, 0.2) |
| Ships.SpawnInBounds | app/music/Spaceship.ts:64-85 | after `reset` every coordinate is within 30, so the bounds test cannot fire |
| Ships.JitterBounds | app/music/Spaceship.ts:87-88 | the jitter keeps velocity.x and changes velocity.y and velocity.z by amounts in [-0.01, 0.01) |
| Ships.ParticleVelocity | app/music/Spaceship.ts:108-110 | every particle velocity component lies in [-0.15, 0.15) |
| Ships.ParticleColor | app/music/Spaceship.ts:112-114 | red and green lie in [0.5, 1) and blue is 1 |
| Ships.FlattenLength | app/music/Spaceship.ts:97-99 | a buffer of `n` items of size 3 has `3n` entries |
| Ships.FlattenItem | app/music/Spaceship.ts:102-115 | item `i` of the flat buffer, at indices `3i` to `3i+2`, is the `i`-th vector |
| Ships.VelocityBufferBounds | app/music/Spaceship.ts:108-110 | every entry of the velocity buffer lies in [-0.15, 0.15) |
| Ships.ColorBufferBounds | app/music/Spaceship.ts:112-114 | every colour item of the buffer has red and green in [0.5, 1) and blue 1 |
| Ships.StartPositions | app/music/Spaceship.ts:103-105 | every particle starts at the ship's position |
| Ships.FillBuffers | app/music/Spaceship.ts:97-115 | three fresh, distinct buffers of length `3n`, holding the ship position repeated, the particle velocities and the particle colours |
| Ships.FillParticle | app/music/Spaceship.ts:102-114 | one round of the fill loop: if the three buffers hold the first `i` position, velocity and colour items, afterwards they hold the first `i + 1` |
| Ships.PrefixStep | app/music/Spaceship.ts:103-105 | writing the three entries of item `i` extends the filled prefix of a flat buffer by that item |
| Ships.ParticleSet.constructor | app/music/Spaceship.ts:117-128 | a particle set over the three buffers, not yet in the scene |
| Ships.ParticleSet.Advance | app/music/Spaceship.ts:165-176 | for all `count` particles every position entry becomes its old value plus the matching velocity entry; only the position buffer is modified |
| Ships.Spaceship.constructor | app/music/Spaceship.ts:11-62 | rotation speed components `r*0.02 - 0.01`, position and velocity as `reset` gives them, not exploding, visible, no particles |
| Ships.Spaceship.Reset | app/music/Spaceship.ts:64-89 | position is `SpawnPosition` and velocity is `SpawnVelocity` (the heading plus jitter), and nothing else changes |
| Ships.Spaceship.Explode | app/music/Spaceship.ts:91-134 | nothing changes while already exploding; otherwise the ship is exploding and hidden, and exactly one fresh set of 50 particles is appended and added to the scene, with all particles at the ship's position and the velocity and colour buffers from the draws; the ship's motion is untouched |
| Ships.Spaceship.Update | app/music/Spaceship.ts:150-178 | while exploding, position, velocity and rotation are unchanged. Otherwise the position gains the velocity and the rotation the rotation speed, and `reset` runs iff some coordinate of the moved position exceeds 40 in absolute value, so the ship ends in bounds. Every particle position buffer in the current list gains its velocity buffer; nothing else may change (the frame is the ship and those position buffers), so velocity and colour buffers and particle sets already discarded by `FinishExplosion` are untouched |
| Ships.Spaceship.FinishExplosion | app/music/Spaceship.ts:136-147 | not exploding, visible, respawned by `reset`; every old particle set left the scene and was released; the list is empty |
| Ships.Spaceship.Dispose | app/music/Spaceship.ts:180-192 | the ship mesh and every particle set are released; the list, scene membership, motion and the particle buffers' contents are unchanged |
| Scoring.DecimalString | app/music/MusicClient.tsx:158 | `toString()` gives at least one digit and no leading zero except for 0 itself |
| Scoring.DecimalRoundTrip | app/music/MusicClient.tsx:158 | parsing the decimal string gives back the number |
| Scoring.ParseZeroPadded | app/music/MusicClient.tsx:158 | leading `'0'`s do not change the parsed value |
| Scoring.DigitCount | app/music/MusicClient.tsx:158 | a number has at most `k` digits exactly when it is below `10^k` |
| Scoring.PadStart | app/music/MusicClient.tsx:158 | the padded string has length max(width, length of `s`), ends with `s`, and all characters before it are `'0'` |
| Scoring.FormatScore | app/music/MusicClient.tsx:158 | `score.toString().padStart(6, '0')`; its meaning is proved by `FormatScoreMeaning` |
| Scoring.FormatScoreMeaning | app/music/MusicClient.tsx:158 | the displayed score has length `max(6, digits)`, the added characters are `'0'`, it ends in the digits, it parses back to the score, and its length is 6 exactly when the score is below 1000000 |
| Scoring.JsRemainder | app/music/MusicClient.tsx:186 | JavaScript's `% 100`: the result is in [0, 100) for a non-negative dividend and in (-100, 0] for a negative one, differs from the dividend by a multiple of 100, and a dividend already in range is returned unchanged |
| Scoring.NextProgress | app/music/MusicClient.tsx:186 | the interval step `(prev + 1) % 100` with JavaScript's `%`; its range is proved by `NextProgressRange` |
| Scoring.NextProgressRange | app/music/MusicClient.tsx:186 | from a counter in [0, 99] the next counter is in [0, 99]: one more, with 99 wrapping to 0 |
| Scoring.ProgressCountsModulo | app/music/MusicClient.tsx:183-188 | after `k` ticks from 0 the counter is `k mod 100` |
| Scoring.LetterX | app/music/MusicClient.tsx:365 | `index * 2.5 - count * 2.5 / 2`; the spacing and order are proved by `LetterSpacingHolds` and `TitleLayout` |
| Scoring.LetterSpacingHolds | app/music/MusicClient.tsx:365 | neighbouring letters are 2.5 apart and positions strictly increase with the index |
| Scoring.TitleLayout | app/music/MusicClient.tsx:334-366 | the title has 7 letters, the first at -8.75 and the last at 6.25, placed symmetrically about -1.25 |
| Scoring.RaisedHighScore | app/music/MusicClient.tsx:499-504 | the new high score is the larger of the two, and it differs from the old one exactly when the new score is strictly larger |
| Scoring.HighScoreIsMaximum | app/music/MusicClient.tsx:499-504 | after any sequence of updates the high score is at least the start and every offered score, and it equals one of them; it never decreases |
| Music.Dispatch | app/music/MusicClient.tsx:386-431 | a letter hit iff a letter mesh was hit whose index is not -1; a ship hit iff no letter mesh was hit and a ship was found |
| Music.TextTakesPriority | app/music/MusicClient.tsx:386-398 | when a letter mesh is under the ray the ships are not consulted, even when the index is -1 |
| Music.Points | app/music/MusicClient.tsx:390-430 | 10 for a letter, 100 for a ship that was not exploding, 0 otherwise |
| Music.PointsAreTens | app/music/MusicClient.tsx:390-430 | every click keeps the score a multiple of ten |
| Music.BuildShips | app/music/MusicClient.tsx:323-326 | five fresh, valid ships, not exploding, each placed by `reset` from its own draws; no two ships share an object |
| Music.BuildLetters | app/music/MusicClient.tsx:350-372 | one fresh explosion system of 30 fragments per title letter, letter `i` at `LetterX(i, 7)`, visible and not reforming; no two letters share a fragment array |
| Music.Game.constructor | app/music/MusicClient.tsx:323-371 | five fresh, valid ships placed by `reset`, each with its own objects (pairwise disjoint footprints); seven fresh explosion systems of 30 fragments with pairwise distinct fragment arrays, with letter `i` at `LetterX(i, 7)`; score 0; the high score is the saved one or 0 |
| Music.Game.UpdateHighScore | app/music/MusicClient.tsx:499-504 | the high score becomes the larger value, and the new score's decimal string is written out iff it was strictly larger; otherwise nothing changes |
| Music.Game.HandleClick | app/music/MusicClient.tsx:379-432 | a letter hit explodes that letter from the hit mesh's current position and adds 10. A hit on a ship that is not exploding explodes it and adds 100: the ship is hidden, its motion is untouched, and one fresh set of 50 particles is appended and put in the scene, with every particle at the ship's position and the velocity and colour buffers from the draws. A hit on an exploding ship, or no hit, leaves the ship, the score and the storage unchanged. After a scoring click the high score is raised with the new score, and the new score's decimal string is written out exactly when it exceeded the old high score. The high score never decreases, and `score <= highScore` is preserved. The game invariant (separate ships and letters) is kept, so the other ships and letters are unaffected |

## Left out

- Three.js rendering: meshes, geometries, materials, lights, the renderer, post-processing and raycasting are not modelled. Scene membership is a flag. Disposing a geometry or material is a `released` flag. Raycast results are inputs.
- Timers and the frame loop: `setTimeout`, `setInterval` and `requestAnimationFrame` are not modelled. Their bodies are the methods `StartReform`, `FinishExplosion` and the progress step. The animation loop that calls `update` on every system and ship each frame is not modelled.
- Floating point: coordinates are `real`, and `Float32Array` rounding and IEEE behaviour are not modelled.
- Scoring.DecimalString: scores are unbounded `nat`. A JavaScript number is an exact integer only up to 2^53, and its `toString()` switches to exponent notation from 1e21. So `DecimalString`, `DecimalRoundTrip` and `FormatScoreMeaning` describe the page only for scores below those bounds.
- `Vector3.length()` and `distanceTo`: these take a square root, which the model does not compute. A length is an input whose square equals the squared length, and the test `distance > 0.01` compares squared values, which is equivalent for non-negative distances.
- Fragment and ship rotation: the random fragment spin (ExplosionSystem.ts:28-32, 103-105) is not modelled. The ship's rotation is modelled as a vector sum, without any angle semantics.
- Ships.Spaceship.constructor: geometry construction and `scene.add` (Spaceship.ts:20-61) are not modelled.
- Fragment scale is one number, because the code only sets it uniformly (`set(1,1,1)` and `multiplyScalar`).
- Music.Game.constructor: the constructor takes the high score already read back. `localStorage.getItem` and `parseInt`, including the NaN that `parseInt` yields for a malformed entry, are not modelled. Storage writes are the `written` field. The font loader's asynchronous callback is not modelled: letters are built immediately.
- Music.Game.HandleClick: the letter's bobbing in the frame loop (MusicClient.tsx:452-458) is not modelled. The position of the letter mesh the ray hit, from which the burst starts and to which it reforms, is therefore an input (`hitPosition`).
- Music.Game.HandleClick: the model follows the `explode(scene)` signature of Spaceship.ts, because the call at MusicClient.tsx:424 passes no scene. As written, that call throws at Spaceship.ts:129, after `isExploding` is set and the ship hidden, so on the page a ship hit scores nothing, starts no timer and the ship never comes back; the model follows the intended behaviour (100 points and a respawn).
- Music.Game.HandleClick: the stale React closure through which `updateHighScore` sees `highScore` is not modelled: the rule uses the current high score, as written at 499-504. As written, the click handler is created in the first render's effect and sees that render's `highScore` of 0 (MusicClient.tsx:259), so every scoring click overwrites the saved high score, even with a lower score; the model follows the intended rule.
- React presentation (`CustomCursor`, `SocialLinks`, `AudioPlayer` markup, the visualiser bars) is not modelled, nor are the trigonometric animations, `SoundCloudPlayer.ts`, `page.tsx` and `Scoreboard.tsx`.
- `ExplosionSystem.explode` has no guard against being called twice, and each call starts another timer. The model keeps that behaviour: `Explode` has no guard, and a `StartReform` call stands for each timer that fires.
