/** The game's globals as one object, and update() with the functions it
    calls as methods that change them in place, each proved to do what the
    matching step of Frame.Step describes. */
module Game {
  import opened Seqs
  import opened Entities
  import opened Collision
  import opened Frame

  class Game {
    var player: Player
    var bullets: seq<Bullet>
    var enemies: seq<Enemy>
    var score: int
    /** The keys the host reports as held; update() clears the space key after a shot. */
    var keys: set<string>
    var particles: seq<Particle>
    var enemySpawnTimer: int

    ghost function Snapshot(): State
      reads this
    {
      State(player, bullets, enemies, score, keys, particles, enemySpawnTimer)
    }

    ghost predicate Valid()
      reads this
    {
      Inv(Snapshot())
    }

    /** What the collision pass works on, with its cursor and the texts shown so far. */
    ghost function Current(cursor: nat, events: seq<Event>): Pass
      reads this
    {
      Pass(player.lives, score, enemies, bullets, particles, cursor, events)
    }

    constructor ()
      ensures Snapshot() == Initial() && Valid()
    {
      player := Player(GAME_WIDTH / 2.0 - 25.0, GAME_HEIGHT - 80.0, 50.0, 50.0, 5.0, START_LIVES);
      bullets := [];
      enemies := [];
      score := 0;
      keys := {};
      particles := [];
      enemySpawnTimer := 0;
      InitialInv();
    }

    /** update(): one frame. `draws` are the frame's Math.random() results;
        the result is what the frame shows, in order. */
    method Update(draws: Draws) returns (events: seq<Event>)
      modifies this
      ensures Outcome(Snapshot(), events) == Step(old(Snapshot()), draws)
      ensures old(Valid()) ==> Valid()
    {
      ghost var s0 := Snapshot();
      MovePlayer();
      UpdateParticles();
      Shoot();
      UpdateBullets();
      var cursor := SpawnTick(draws);
      UpdateEnemies();
      assert Snapshot() == Prepared(s0, draws);
      events := DetectCollisions(draws, cursor);
      var tail := CheckGameOver();
      events := events + tail;
      if Inv(s0) {
        StepKeepsInv(s0, draws);
      }
    }

    /** The key-driven move, then the clamp into the arena. */
    method MovePlayer()
      modifies this
      ensures Snapshot() == MoveStep(old(Snapshot()))
    {
      var p := player;
      if Held(keys, "ArrowLeft", "a") { p := p.(x := p.x - p.speed); }
      if Held(keys, "ArrowRight", "d") { p := p.(x := p.x + p.speed); }
      if Held(keys, "ArrowUp", "w") { p := p.(y := p.y - p.speed); }
      if Held(keys, "ArrowDown", "s") { p := p.(y := p.y + p.speed); }
      p := p.(x := Clamp(p.x, GAME_WIDTH - p.width));
      p := p.(y := Clamp(p.y, GAME_HEIGHT - p.height));
      player := p;
    }

    method UpdateParticles()
      modifies this
      ensures Snapshot() == ParticleStep(old(Snapshot()))
    {
      particles := ForEachUpdate(particles, Age);
      particles := FilterInto(particles, Alive);
    }

    /** The shot, rate-limited by the cap and by clearing the space key. */
    method Shoot()
      modifies this
      ensures Snapshot() == ShootStep(old(Snapshot()))
    {
      if SHOOT_KEY in keys && |bullets| < MAX_BULLETS {
        bullets := bullets + [Bullet(player.x + player.width / 2.0 - 2.0, player.y, 4.0, 15.0, 10.0)];
        keys := keys - {SHOOT_KEY};
      }
    }

    method UpdateBullets()
      modifies this
      ensures Snapshot() == BulletStep(old(Snapshot()))
    {
      bullets := ForEachUpdate(bullets, Ascend);
      bullets := FilterInto(bullets, OnScreen);
    }

    /** The spawn timer; returns how many random draws the frame has used. */
    method SpawnTick(draws: Draws) returns (cursor: nat)
      modifies this
      ensures Snapshot() == SpawnStep(old(Snapshot()), draws)
      ensures cursor == SpawnCursor(old(Snapshot()))
    {
      cursor := 0;
      enemySpawnTimer := enemySpawnTimer + 1;
      if enemySpawnTimer >= ENEMY_SPAWN_INTERVAL {
        cursor := SpawnEnemy(draws, cursor);
        enemySpawnTimer := 0;
      }
    }

    /** spawnEnemy: appends one enemy built from draws `cursor` and `cursor + 1`. */
    method SpawnEnemy(draws: Draws, cursor: nat) returns (next: nat)
      modifies this
      ensures Snapshot() == old(Snapshot()).(enemies := old(enemies) + [NewEnemy(draws(cursor), draws(cursor + 1))])
      ensures next == cursor + 2
    {
      var size := ENEMY_SIZE;
      var x := draws(cursor) * (GAME_WIDTH - size);
      enemies := enemies + [Enemy(x, -size, size, size, 2.0 + draws(cursor + 1) * 2.0)];
      next := cursor + 2;
    }

    method UpdateEnemies()
      modifies this
      ensures Snapshot() == EnemyStep(old(Snapshot()))
    {
      enemies := ForEachUpdate(enemies, Descend);
      enemies := FilterInto(enemies, InArena);
    }

    /** createExplosion: appends 20 particles at (x, y). Each particle uses
        four draws; the first, second and fourth feed its velocity and colour,
        which are not modelled, and the third its life. */
    method CreateExplosion(x: real, y: real, draws: Draws, cursor: nat) returns (next: nat)
      modifies this
      ensures particles == old(particles) + Burst(x, y, draws, cursor)
      ensures player == old(player) && bullets == old(bullets) && enemies == old(enemies) && score == old(score)
      ensures keys == old(keys) && enemySpawnTimer == old(enemySpawnTimer)
      ensures next == cursor + PARTICLE_COUNT * DRAWS_PER_PARTICLE
    {
      next := cursor;
      for i := 0 to PARTICLE_COUNT
        invariant player == old(player) && bullets == old(bullets) && enemies == old(enemies) && score == old(score)
        invariant keys == old(keys) && enemySpawnTimer == old(enemySpawnTimer)
        invariant particles == old(particles) + Burst(x, y, draws, cursor)[..i]
        invariant next == cursor + DRAWS_PER_PARTICLE * i
      {
        particles := particles + [Particle(x, y, draws(next + 2) * 30.0 + 20.0)];
        next := next + DRAWS_PER_PARTICLE;
        assert Burst(x, y, draws, cursor)[..i + 1] == Burst(x, y, draws, cursor)[..i] + [BurstParticle(x, y, draws, cursor, i)];
      }
      assert Burst(x, y, draws, cursor)[..PARTICLE_COUNT] == Burst(x, y, draws, cursor);
    }

    /** The collision pass, splicing the lists while it walks them. */
    method DetectCollisions(draws: Draws, cursor0: nat) returns (events: seq<Event>)
      modifies this
      ensures Outcome(Snapshot(), events) == CollideStep(old(Snapshot()), cursor0, draws)
    {
      ghost var s0 := Snapshot();
      ghost var box := player.Bounds();
      ghost var target := CollisionPass(box, PassOf(s0, cursor0), draws);
      var cursor := cursor0;
      events := [];
      var n := |enemies|;
      var ei := 0;
      while ei < n
        invariant ei <= n
        invariant player == s0.player.(lives := player.lives) && keys == s0.keys
        invariant enemySpawnTimer == s0.enemySpawnTimer
        invariant EnemiesFrom(box, Current(cursor, events), ei, n, draws) == target
      {
        if ei < |enemies| {
          ghost var before := Current(cursor, events);
          var e := enemies[ei];
          if Intersect(player.Bounds(), e.Bounds()) {
            player := player.(lives := player.lives - 1);
            enemies := Splice(enemies, ei);
            events := events + [LivesShown(player.lives)];
          }
          assert Current(cursor, events) == PlayerTest(box, before, ei);
          cursor, events := TestBullets(e, ei, draws, cursor, events);
        }
        ei := ei + 1;
      }
    }

    /** The inner bullets.forEach for enemy `e`, read at index `ei`. */
    method TestBullets(e: Enemy, ei: nat, draws: Draws, cursor0: nat, events0: seq<Event>)
      returns (cursor: nat, events: seq<Event>)
      modifies this
      ensures Current(cursor, events) == BulletsFrom(e, ei, old(Current(cursor0, events0)), 0, |old(bullets)|, draws)
      ensures player == old(player) && keys == old(keys) && enemySpawnTimer == old(enemySpawnTimer)
    {
      ghost var start := Current(cursor0, events0);
      cursor, events := cursor0, events0;
      var m := |bullets|;
      var bi := 0;
      while bi < m
        invariant bi <= m
        invariant player == old(player) && keys == old(keys) && enemySpawnTimer == old(enemySpawnTimer)
        invariant BulletsFrom(e, ei, Current(cursor, events), bi, m, draws) == BulletsFrom(e, ei, start, 0, m, draws)
      {
        if bi < |bullets| {
          var b := bullets[bi];
          if Intersect(b.Bounds(), e.Bounds()) {
            cursor, events := Hit(e, ei, bi, draws, cursor, events);
          }
        }
        bi := bi + 1;
      }
    }

    /** A bullet hit inside the inner callback: score, burst, and the two splices. */
    method Hit(e: Enemy, ei: nat, bi: nat, draws: Draws, cursor0: nat, events0: seq<Event>)
      returns (cursor: nat, events: seq<Event>)
      requires bi < |bullets| && Intersect(bullets[bi].Bounds(), e.Bounds())
      modifies this
      ensures Current(cursor, events) == Scored(e, ei, old(Current(cursor0, events0)), bi, draws)
      ensures player == old(player) && keys == old(keys) && enemySpawnTimer == old(enemySpawnTimer)
    {
      score := score + POINTS_PER_HIT;
      cursor := CreateExplosion(e.x + e.width / 2.0, e.y + e.height / 2.0, draws, cursor0);
      RemovePair(ei, bi);
      events := events0 + [ScoreShown(score)];
    }

    /** The two `splice(i, 1)` calls of a bullet hit. */
    method RemovePair(ei: nat, bi: nat)
      modifies this
      ensures enemies == Splice(old(enemies), ei) && bullets == Splice(old(bullets), bi)
      ensures player == old(player) && particles == old(particles) && score == old(score)
      ensures keys == old(keys) && enemySpawnTimer == old(enemySpawnTimer)
    {
      enemies := Splice(enemies, ei);
      bullets := Splice(bullets, bi);
    }

    /** The game-over check: the notice with the score, then resetGame. */
    method CheckGameOver() returns (events: seq<Event>)
      modifies this
      ensures Outcome(Snapshot(), events) == GameOverStep(old(Snapshot()))
    {
      events := [];
      if player.lives <= 0 {
        events := [GameOver(score)];
        var shown := ResetGame();
        events := events + shown;
      }
    }

    /** resetGame: lives to 3, score to 0, both lists emptied, texts refreshed. */
    method ResetGame() returns (events: seq<Event>)
      modifies this
      ensures Snapshot() == Reset(old(Snapshot()))
      ensures events == ResetEvents()
    {
      player := player.(lives := START_LIVES);
      score := 0;
      bullets := [];
      enemies := [];
      events := [ScoreShown(score), LivesShown(player.lives)];
    }
  }
}
