/** One call of script.js's update() as a function of the game state: the
    fixed order of its steps, the game-over reset, and what each frame keeps
    true of the state. */
module Frame {
  import opened Seqs
  import opened Entities
  import opened Collision

  /** The game's globals: player, bullets, enemies, score, held keys,
      particles and the spawn timer. */
  datatype State = State(player: Player, bullets: seq<Bullet>, enemies: seq<Enemy>, score: int,
                         keys: set<string>, particles: seq<Particle>, enemySpawnTimer: int)

  /** A frame's result: the new state and, in order, what it showed. */
  datatype Outcome = Outcome(state: State, events: seq<Event>)

  /** The state the script starts from. */
  function Initial(): State
  {
    State(Player(GAME_WIDTH / 2.0 - 25.0, GAME_HEIGHT - 80.0, 50.0, 50.0, 5.0, START_LIVES),
          [], [], 0, {}, [], 0)
  }

  function MoveStep(s: State): State
  {
    s.(player := Move(s.player, s.keys))
  }

  /** Every particle ages by one frame, then only the living ones are kept. */
  function ParticleStep(s: State): State
  {
    s.(particles := Filter(Map(s.particles, Age), Alive))
  }

  predicate ShotFired(s: State)
  {
    SHOOT_KEY in s.keys && |s.bullets| < MAX_BULLETS
  }

  /** The shot: with the space key held and fewer than 5 bullets, one bullet
      is appended and the key is cleared; otherwise nothing changes. */
  function ShootStep(s: State): (r: State)
    ensures r == s.(bullets := r.bullets, keys := r.keys)
    ensures |s.bullets| <= |r.bullets| <= |s.bullets| + 1 && r.bullets[..|s.bullets|] == s.bullets
    ensures |r.bullets| == |s.bullets| + 1 <==> SHOOT_KEY in s.keys && |s.bullets| < MAX_BULLETS
    ensures |r.bullets| == |s.bullets| + 1 ==> r.bullets[|s.bullets|] == NewBullet(s.player) && r.keys == s.keys - {SHOOT_KEY}
    ensures |r.bullets| == |s.bullets| ==> r.keys == s.keys
    ensures |s.bullets| <= MAX_BULLETS ==> |r.bullets| <= MAX_BULLETS
  {
    if ShotFired(s) then
      assert (s.bullets + [NewBullet(s.player)])[..|s.bullets|] == s.bullets;
      s.(bullets := s.bullets + [NewBullet(s.player)], keys := s.keys - {SHOOT_KEY})
    else
      assert s.bullets[..|s.bullets|] == s.bullets;
      s
  }

  /** Every bullet rises, then only those still on screen are kept. */
  function BulletStep(s: State): State
  {
    s.(bullets := Filter(Map(s.bullets, Ascend), OnScreen))
  }

  /** The timer advances; when it reaches the interval one enemy is spawned
      from the frame's first two random draws. */
  function SpawnStep(s: State, draws: Draws): State
  {
    s.(enemySpawnTimer := Tick(s.enemySpawnTimer),
       enemies := if SpawnDue(s.enemySpawnTimer) then s.enemies + [NewEnemy(draws(0), draws(1))]
                  else s.enemies)
  }

  /** The random draws used by the spawn step. */
  function SpawnCursor(s: State): nat
  {
    if SpawnDue(s.enemySpawnTimer) then 2 else 0
  }

  /** Every enemy descends, then only those not yet below the arena are kept. */
  function EnemyStep(s: State): State
  {
    s.(enemies := Filter(Map(s.enemies, Descend), InArena))
  }

  function PassOf(s: State, cursor: nat): Pass
  {
    Pass(s.player.lives, s.score, s.enemies, s.bullets, s.particles, cursor, [])
  }

  function CollideStep(s: State, cursor: nat, draws: Draws): Outcome
  {
    var r := CollisionPass(s.player.Bounds(), PassOf(s, cursor), draws);
    Outcome(s.(player := s.player.(lives := r.lives), score := r.score, enemies := r.enemies,
               bullets := r.bullets, particles := r.particles),
            r.events)
  }

  /** resetGame: lives back to 3, score to 0, no bullets and no enemies. */
  function Reset(s: State): State
  {
    s.(player := s.player.(lives := START_LIVES), score := 0, bullets := [], enemies := [])
  }

  /** What resetGame shows: the score text, then the lives text. */
  function ResetEvents(): seq<Event>
  {
    [ScoreShown(0), LivesShown(START_LIVES)]
  }

  /** The end-of-frame check: no lives left means the game-over notice with
      the final score, then the reset. */
  function GameOverStep(s: State): Outcome
  {
    if s.player.lives <= 0 then Outcome(Reset(s), [GameOver(s.score)] + ResetEvents())
    else Outcome(s, [])
  }

  /** update(), in its order: move, particles, shot, bullets, spawn, enemies,
      collisions, game over. */
  function Step(s: State, draws: Draws): Outcome
  {
    var c := CollideStep(Prepared(s, draws), SpawnCursor(s), draws);
    var g := GameOverStep(c.state);
    Outcome(g.state, c.events + g.events)
  }

  /** The state the collision pass starts from: all steps before it. */
  function Prepared(s: State, draws: Draws): State
  {
    EnemyStep(SpawnStep(BulletStep(ShootStep(ParticleStep(MoveStep(s)))), draws))
  }

  /** What holds of the state between frames. */
  ghost predicate Inv(s: State)
  {
    0.0 < s.player.width <= GAME_WIDTH && 0.0 < s.player.height <= GAME_HEIGHT &&
    0.0 <= s.player.x <= GAME_WIDTH - s.player.width &&
    0.0 <= s.player.y <= GAME_HEIGHT - s.player.height &&
    s.player.lives >= 1 &&
    |s.bullets| <= MAX_BULLETS &&
    0 <= s.enemySpawnTimer < ENEMY_SPAWN_INTERVAL &&
    forall i :: 0 <= i < |s.particles| ==> s.particles[i].life > 0.0
  }

  predicate NoGameOver(ev: seq<Event>)
  {
    forall i :: 0 <= i < |ev| ==> !ev[i].GameOver?
  }

  lemma InitialInv()
    ensures Inv(Initial())
  {
  }

  /** The player's position after a frame lies in the arena whatever keys are
      held: only the move step changes it, and it ends with the clamp. */
  lemma StepClampsPlayer(s: State, draws: Draws)
    requires s.player.width <= GAME_WIDTH && s.player.height <= GAME_HEIGHT
    ensures var p := Step(s, draws).state.player;
            0.0 <= p.x <= GAME_WIDTH - s.player.width && 0.0 <= p.y <= GAME_HEIGHT - s.player.height
            && p.width == s.player.width && p.height == s.player.height && p.speed == s.player.speed
  {
  }

  /** After every frame the player has at least one life: none left triggers the reset. */
  lemma StepLivesPositive(s: State, draws: Draws)
    ensures Step(s, draws).state.player.lives >= 1
  {
  }

  /** A frame adds a bullet only by the shot, so at most one, and only with
      the space key held and fewer than 5 bullets; the key is then cleared and
      no other key changes. Hence at most 5 bullets stay at most 5. */
  lemma StepBullets(s: State, draws: Draws)
    ensures var r := Step(s, draws).state;
            |r.bullets| <= |s.bullets| + (if SHOOT_KEY in s.keys && |s.bullets| < MAX_BULLETS then 1 else 0)
            && r.keys == (if SHOOT_KEY in s.keys && |s.bullets| < MAX_BULLETS then s.keys - {SHOOT_KEY} else s.keys)
    ensures |s.bullets| <= MAX_BULLETS ==> |Step(s, draws).state.bullets| <= MAX_BULLETS
  {
    var s3 := Prepared(s, draws);
    CollisionAccounted(s3.player.Bounds(), PassOf(s3, SpawnCursor(s)), draws);
  }

  /** The spawn timer follows Tick on every frame, the reset included, and so
      stays in [0, 90); an enemy is appended exactly when it wraps to 0. */
  lemma StepTimer(s: State, draws: Draws)
    ensures Step(s, draws).state.enemySpawnTimer == Tick(s.enemySpawnTimer)
    ensures 0 <= s.enemySpawnTimer < ENEMY_SPAWN_INTERVAL ==> 0 <= Step(s, draws).state.enemySpawnTimer < ENEMY_SPAWN_INTERVAL
  {
    if 0 <= s.enemySpawnTimer < ENEMY_SPAWN_INTERVAL {
      TickInRange(s.enemySpawnTimer);
    }
  }

  /** The spawn step appends exactly one enemy, the one spawnEnemy builds from
      the first two draws, when the timer reaches 90, and none otherwise. */
  lemma SpawnRule(s: State, draws: Draws)
    requires 0 <= s.enemySpawnTimer < ENEMY_SPAWN_INTERVAL
    ensures var r := SpawnStep(s, draws);
            (s.enemySpawnTimer == ENEMY_SPAWN_INTERVAL - 1 ==>
               r.enemies == s.enemies + [NewEnemy(draws(0), draws(1))] && r.enemySpawnTimer == 0) &&
            (s.enemySpawnTimer < ENEMY_SPAWN_INTERVAL - 1 ==>
               r.enemies == s.enemies && r.enemySpawnTimer == s.enemySpawnTimer + 1)
  {
  }

  /** A descent that leaves every enemy inside the arena drops none of them:
      the filter keeps the whole descended list, in order. */
  lemma NoEnemyLeaves(s: State)
    requires forall i :: 0 <= i < |s.enemies| ==> InArena(Descend(s.enemies[i]))
    ensures EnemyStep(s).enemies == Map(s.enemies, Descend)
    ensures |EnemyStep(s).enemies| == |s.enemies|
  {
    FilterAllPass(Map(s.enemies, Descend), InArena);
  }

  /** The collision step, read through its texts: the score rises by 10 per
      score text and the lives fall by 1 per lives text; no game-over notice. */
  lemma CollideStepAccounted(s: State, cursor: nat, draws: Draws)
    ensures var c := CollideStep(s, cursor, draws);
            NoGameOver(c.events) &&
            c.state.score == s.score + POINTS_PER_HIT * ScoreEvents(c.events) &&
            c.state.player.lives == s.player.lives - LivesEvents(c.events)
  {
    var st := PassOf(s, cursor);
    CollisionAccounted(s.player.Bounds(), st, draws);
    assert NoGameOver(CollisionPass(s.player.Bounds(), st, draws).events);
  }

  /** Score and lives within a frame without a game over: the score rises by
      exactly 10 per score text shown (one per bullet hit) and the lives fall
      by exactly 1 per lives text shown (one per player hit). */
  lemma StepScoring(s: State, draws: Draws)
    ensures var o := Step(s, draws);
            NoGameOver(o.events) ==>
              o.state.score == s.score + POINTS_PER_HIT * ScoreEvents(o.events) &&
              o.state.player.lives == s.player.lives - LivesEvents(o.events) &&
              s.score <= o.state.score && o.state.player.lives <= s.player.lives
  {
    var s3 := Prepared(s, draws);
    var c := CollideStep(s3, SpawnCursor(s), draws);
    CollideStepAccounted(s3, SpawnCursor(s), draws);
    EndOfFrame(c.events, c.state);
  }

  /** A frame with a game over: its last three events are the notice with the
      score reached, then the reset's score and lives texts, and the state is
      reset. */
  lemma StepGameOver(s: State, draws: Draws)
    ensures var o := Step(s, draws);
            !NoGameOver(o.events) ==>
              EndsWithGameOver(o.events, s.score, s.player.lives) &&
              o.state.score == 0 && o.state.player.lives == START_LIVES &&
              o.state.bullets == [] && o.state.enemies == []
  {
    var s3 := Prepared(s, draws);
    var c := CollideStep(s3, SpawnCursor(s), draws);
    CollideStepAccounted(s3, SpawnCursor(s), draws);
    EndOfFrame(c.events, c.state);
    if c.state.player.lives <= 0 {
      GameOverEvents(Step(s, draws).events, c.events, s.score, s.player.lives, c.state.score);
    }
  }

  /** A frame's events that end with the game over: texts of the collision
      pass that take lives to 0 or below, then the notice with the score they
      reach from `score`, then the reset's texts. */
  predicate EndsWithGameOver(ev: seq<Event>, score: int, lives: int)
  {
    var k := |ev|;
    k >= 3 && NoGameOver(ev[..k - 3]) &&
    lives - LivesEvents(ev[..k - 3]) <= 0 &&
    ev[k - 3..] == [GameOver(score + POINTS_PER_HIT * ScoreEvents(ev[..k - 3]))] + ResetEvents()
  }

  lemma GameOverEvents(ev: seq<Event>, head: seq<Event>, score: int, lives: int, fin: int)
    requires ev == head + [GameOver(fin)] + ResetEvents() && NoGameOver(head)
    requires fin == score + POINTS_PER_HIT * ScoreEvents(head) && lives - LivesEvents(head) <= 0
    ensures EndsWithGameOver(ev, score, lives)
  {
    assert ev[..|ev| - 3] == head;
    assert ev[|ev| - 3..] == [GameOver(fin)] + ResetEvents();
  }

  /** The events of a frame's end: none, or the notice and the reset's texts. */
  lemma EndOfFrame(ev: seq<Event>, t: State)
    requires NoGameOver(ev)
    ensures var g := GameOverStep(t); var e := ev + g.events; var k := |e|;
            (t.player.lives > 0 ==> e == ev && g.state == t) &&
            (t.player.lives <= 0 ==>
               k >= 3 && e[..k - 3] == ev && e[k - 3..] == [GameOver(t.score)] + ResetEvents() &&
               !NoGameOver(e) && g.state == Reset(t))
  {
    var g := GameOverStep(t);
    var e := ev + g.events;
    if t.player.lives > 0 {
      assert e == ev;
    } else {
      assert e[..|e| - 3] == ev;
      assert e[|ev|].GameOver?;
    }
  }

  /** Every frame keeps the state invariant. */
  lemma StepKeepsInv(s: State, draws: Draws)
    requires Inv(s)
    ensures Inv(Step(s, draws).state)
  {
    var s3 := Prepared(s, draws);
    var st := PassOf(s3, SpawnCursor(s));
    var r := CollisionPass(s3.player.Bounds(), st, draws);
    CollisionAccounted(s3.player.Bounds(), st, draws);
    StepClampsPlayer(s, draws);
    StepBullets(s, draws);
    StepTimer(s, draws);
    forall i | 0 <= i < |r.particles|
      ensures r.particles[i].life > 0.0
    {
      if i < |st.particles| {
        assert r.particles[i] == r.particles[..|st.particles|][i];
      }
    }
  }

  /** resetGame applied twice equals once; it restores lives and score,
      empties both lists, and keeps position, particles, timer and keys. */
  lemma ResetIdempotent(s: State)
    ensures Reset(Reset(s)) == Reset(s)
    ensures var r := Reset(s);
            r.player.lives == Initial().player.lives && r.score == Initial().score &&
            r.bullets == [] && r.enemies == [] &&
            r.player.x == s.player.x && r.player.y == s.player.y &&
            r.particles == s.particles && r.enemySpawnTimer == s.enemySpawnTimer && r.keys == s.keys
  {
  }
}
