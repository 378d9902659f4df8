# Galactica: a verified model of the per-frame simulation

This project models the simulation core of the Galactica browser shooter
(`script.js`). The player's ship moves inside an 800×600 arena and fires
bullets. Enemies spawn every 90 frames and descend. Bullet hits score 10
points and set off a burst of 20 particles. An enemy overlapping the ship
costs one life, and running out of lives resets the game.

The model has five modules:

- `Seqs` holds the list operations the game applies to its entity lists:
  the element-wise update of `forEach`, the survivors of `filter`, and
  `splice(i, 1)`, with their properties. The first two also come with
  the loop methods that compute them.
- `Entities` holds the constants and the entity records (player, bullet,
  enemy, particle, rectangle). It also holds the per-entity rules of a
  frame: `rectIntersect`, the move and clamp, the new bullet, ascent,
  descent, ageing, the spawned enemy, the spawn timer and the explosion
  burst.
- `Collision` models the collision pass literally, as functions that describe
  `update()`'s nested `forEach` loops:
  - each loop visits the indices below the length the array had when it
    started;
  - it skips an index that no longer exists;
  - it splices both arrays while they are being walked.

  An accounting relation then ties every score, lives and list change to
  the texts the pass shows.
- `Frame` holds the game state as a value, one call of `update()` as the
  function `Step`, `resetGame` as `Reset`, and the frame-level properties.
- `Game` holds the globals as one object (`class Game`). `update()` and
  the functions it calls are methods there that change the fields in
  place. Each method is proved against a function that specifies it:
  - the steps of `update()` against the matching `Frame` function, so
    `Update` is proved against `Step`;
  - `CreateExplosion` against `Entities.Burst`;
  - the inner collision loop `TestBullets` against `Collision.BulletsFrom`;
  - a single hit, `Hit`, against `Collision.Scored`;
  - `SpawnEnemy` and `RemovePair` against the new values of the fields
    they change, with every other field unchanged.

Some of the script's calls become parameters or outputs:

- The results of `Math.random()` during one frame are a parameter
  `draws: nat -> Unit`, a stream of reals in [0, 1). It is read in the
  order the script calls `Math.random()`:
  - `spawnEnemy` uses two draws: x, then speed;
  - each particle of `createExplosion` uses four: angle, speed, life,
    alpha.
- The lives text, the score text and the game-over alert become a list of
  events that `Update` returns, in the order the script produces them.

The collision pass keeps the script's literal splice behaviour. A
reader might expect each enemy to cost at most one life and to give at
most one score award per frame. The code does not keep that expectation,
and the model follows the code:

- `Collision.OneEnemyScoresTwice` shows one enemy scoring twice and an
  untouched enemy being removed.
- `Collision.CrashThenHitRemovesNeighbour` shows a bullet removing an
  enemy that touched nothing, after an enemy–ship crash.

## Model

| member | source | states |
|---|---|---|
| Entities.IntersectSymmetric | script.js:131-133 | the overlap test gives the same answer with its arguments swapped |
| Entities.TouchingDoesNotIntersect | script.js:131-133 | rectangles that only share an edge, or lie apart, never intersect (the comparisons are strict) |
| Entities.IntersectIffCommonPoint | script.js:131-133 | for rectangles of positive size, the test holds exactly when they share an interior point (both directions) |
| Entities.Clamp | script.js:64-65 | `max(0, min(hi, v))` lies in [0, hi], is `v` when `v` is in range, and otherwise is the bound `v` crossed |
| Entities.Move | script.js:58-65 | after the key-driven move and the clamp, the player lies inside the arena; size, speed and lives are unchanged |
| Entities.MoveCancels | script.js:58-61 | with opposite keys both held or both released, an in-arena player does not move |
| Entities.MoveRight | script.js:58-65 | holding only the right key moves the player right by exactly its speed, stopped at the right wall, with y unchanged |
| Entities.NewBullet | script.js:77-84 | the new bullet is 4×15 and moves at speed 10; it starts at the player's top edge, centred on the player |
| Entities.NewEnemy | script.js:41-51 | a spawned enemy has y = -50 and size 50×50, with 0 ≤ x < 750 and 2 ≤ speed < 4 |
| Entities.TickInRange | script.js:93-97 | from a timer in [0, 90), the next timer is in [0, 90); a spawn happens exactly when the timer was 89, which is exactly when it wraps to 0 |
| Entities.Cadence | script.js:92-97 | from a timer t in range, after n frames the timer is (t+n) mod 90 and exactly (t+n) div 90 enemies have spawned: one every 90th frame |
| Entities.Burst | script.js:136-150 | an explosion adds exactly 20 particles, all at the given point, each with life in [20, 50) |
| Seqs.Filter | script.js:73 | the survivors all pass the test, and each value occurs as often as in the input when it passes, and not at all when it fails |
| Seqs.FilterConcat | script.js:90 | filtering keeps the survivors in their original order: the filter of a concatenation is the concatenation of the filters |
| Seqs.FilterAllPass | script.js:101 | a list whose elements all pass is its own filter |
| Seqs.FilterInto | script.js:90 | the filter loop builds exactly `Filter(s, keep)` |
| Seqs.ForEachUpdate | script.js:68-72 | the forEach loop replaces every element by its update, so the result is `Map(s, f)` |
| Seqs.Splice | script.js:117-118 | `splice(i, 1)` shortens the list by one when i is an index and leaves it alone otherwise; elements before i stay put and later ones shift down by one |
| Seqs.SpliceMultiset | script.js:108 | the splice removes exactly the element at i, and nothing when i is past the end |
| Seqs.SpliceFirst | script.js:117 | splicing index 0 leaves the tail |
| Seqs.SpliceLast | script.js:118 | splicing the last index leaves the elements before it |
| Collision.BulletTestAccounted | script.js:112-121 | one bullet callback either changes nothing, or shows exactly one score text; in the second case it adds 10 points, removes one bullet and at most one enemy, and adds 20 particles with life in [20, 50) and 80 draws. Lives and lives texts are untouched |
| Collision.BulletsFromAccounted | script.js:112-121 | the whole inner loop keeps that accounting summed over its hits, and shows no lives text |
| Collision.PlayerTestAccounted | script.js:106-110 | the ship test shows no score text, so score, bullets, particles and cursor are untouched. It either changes nothing, or shows exactly one lives text, costing one life and at most one enemy |
| Collision.EnemyTestAccounted | script.js:104-122 | one outer callback keeps the accounting and shows at most one lives text |
| Collision.EnemiesFromAccounted | script.js:104-122 | the outer loop from index ei to n keeps the accounting and shows at most n - ei lives texts |
| Collision.CollisionAccounted | script.js:103-122 | the whole pass: score rises by 10 per score text, lives fall by 1 per lives text, and the bullets lost equal the hits. The enemies lost are at most hits plus crashes. Both lists only lose elements. Each hit adds 20 particles (old ones kept in front) and 80 draws. No game-over notice appears |
| Collision.CrashThenHitRemovesNeighbour | script.js:104-122 | concrete run: an enemy hits the ship and a bullet, and the second splice removes the other enemy, which touched nothing |
| Collision.OneEnemyScoresTwice | script.js:104-122 | concrete run: three bullets on one enemy; the second is skipped by the index shift, the third scores on the same enemy again, and the untouched enemy is removed |
| Frame.ShootStep | script.js:75-86 | only the bullets and keys change. A bullet is appended exactly when space is held and fewer than 5 bullets exist. It is `NewBullet(player)`, and the space key is then cleared. At most 5 bullets stay at most 5 |
| Frame.InitialInv | script.js:22-35 | the starting state satisfies the frame invariant |
| Frame.StepClampsPlayer | script.js:56-129 | after a frame, the player lies inside the arena whatever keys are held |
| Frame.StepLivesPositive | script.js:124-128 | after every frame the player has at least one life |
| Frame.StepBullets | script.js:75-90 | a frame adds at most one bullet, only by the shot, and clears the space key only then; at most 5 bullets stay at most 5 |
| Frame.StepTimer | script.js:92-97 | the spawn timer follows `Tick` on every frame, the reset included, and stays in [0, 90) |
| Frame.SpawnRule | script.js:92-97 | the spawn step appends exactly the enemy spawnEnemy builds from the first two draws, when the timer reaches 90, and nothing otherwise |
| Frame.NoEnemyLeaves | script.js:100-101 | when every enemy is still inside the arena after its descent, the enemy step keeps all of them, in order, each moved down by its speed |
| Frame.CollideStepAccounted | script.js:103-122 | the collision step shows no game over; score and lives move by 10 per score text and by 1 per lives text |
| Frame.StepScoring | script.js:56-129 | in a frame without a game over, the score rises by exactly 10 per score text and the lives fall by exactly 1 per lives text |
| Frame.StepGameOver | script.js:124-128 | in a frame with a game over, the last three events are the notice with the score reached, the score text and the lives text. Score is 0, lives are 3, and both lists are empty |
| Frame.EndOfFrame | script.js:124-128 | the end of a frame adds nothing while lives remain, and otherwise adds exactly the notice and the reset's texts |
| Frame.StepKeepsInv | script.js:56-129 | every frame keeps the invariant: player in the arena, lives ≥ 1, at most 5 bullets, timer in [0, 90), all particles alive |
| Frame.ResetIdempotent | script.js:212-219 | resetGame twice equals once; it restores lives to 3 and score to 0 and empties both lists. Position, particles, timer and keys are kept |
| Game.Game.constructor | script.js:22-35 | the initial globals are the state `Initial()`, which satisfies the invariant |
| Game.Game.Update | script.js:56-129 | one frame changes the fields to the state of `Step` and returns its events, and it keeps the invariant |
| Game.Game.MovePlayer | script.js:57-65 | the fields change exactly as `MoveStep` says |
| Game.Game.UpdateParticles | script.js:67-73 | the particles become the living ones after ageing; nothing else changes |
| Game.Game.Shoot | script.js:75-86 | the fields change exactly as `ShootStep` says |
| Game.Game.UpdateBullets | script.js:88-90 | the bullets become those still on screen after the ascent |
| Game.Game.SpawnTick | script.js:92-97 | the fields change as `SpawnStep` says, and the method reports how many draws it used |
| Game.Game.SpawnEnemy | script.js:41-51 | one enemy, `NewEnemy` of the next two draws, is appended; nothing else changes, and the cursor advances by 2 |
| Game.Game.UpdateEnemies | script.js:99-101 | the enemies become those still in the arena after the descent |
| Game.Game.CreateExplosion | script.js:136-150 | the particles gain exactly `Burst(x, y, …)` at the end, nothing else changes, and the cursor advances by 80 |
| Game.Game.DetectCollisions | script.js:103-122 | the loops leave the state and return the events of the literal pass `CollideStep` |
| Game.Game.TestBullets | script.js:112-121 | the inner loop leaves the pass state of `BulletsFrom` from index 0 over the starting bullet count |
| Game.Game.Hit | script.js:113-120 | a hit adds 10 points, the burst at the enemy's centre and a score text, and splices both lists |
| Game.Game.RemovePair | script.js:117-118 | the enemy at ei and the bullet at bi are spliced out; nothing else changes |
| Game.Game.CheckGameOver | script.js:124-128 | with no lives left, the notice with the score comes first, then the reset |
| Game.Game.ResetGame | script.js:212-219 | the fields change as `Reset` says, and the score and lives texts are shown in that order |

## Left out

- Drawing, the canvas, the images and `resizeCanvas` are output only, and nothing in the simulation depends on them.
- The key listeners: the held keys are the `keys` field, a set of key names the host fills in. A released key is absent. This matches a key stored as `false`, which the script treats like a missing one.
- `requestAnimationFrame` and `gameLoop`: the host calls `Update` once per frame.
- `alert` and the DOM writes of `updateScoreUI`/`updateLivesUI` become `GameOver`, `ScoreShown` and `LivesShown` events. The game-over alert blocking the page is not modelled.
- `Math.random()` itself: its results are the `draws` parameter, each in [0, 1).
- `Entities.Burst`: the particles' velocities (cosine and sine of a random angle) and colours are not modelled. A particle keeps the point where it was born and only ages, so particle drift is left out. The angle, speed and alpha draws are still consumed, so the position in the draw stream is exact.
- Bullet colour is not modelled, since only drawing reads it.
- `Seqs.ForEachUpdate` replaces list elements by updated values. JavaScript instead mutates shared objects in place. No other reference to those objects exists within a frame, so nothing observable differs.
- JavaScript numbers are doubles; the model uses exact reals and unbounded integers. Rounding, and the score or lives leaving the safe-integer range, are not modelled.
- `Collision.CollisionAccounted` does not promise at most one award per enemy per frame. The script's splice order breaks that promise, as `Collision.OneEnemyScoresTwice` shows, so the model states the looser accounting the code actually keeps.
