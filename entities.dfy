/** The game's constants, its entity records and the per-entity rules of one
    frame of script.js: movement and clamping of the player, the shot, bullet
    ascent, enemy descent, particle ageing, enemy spawning and the explosion
    burst. */
module Entities {

  const GAME_WIDTH: real := 800.0
  const GAME_HEIGHT: real := 600.0
  /** Frames between two enemy spawns. */
  const ENEMY_SPAWN_INTERVAL: int := 90
  const ENEMY_SIZE: real := 50.0
  /** A shot is fired only while fewer bullets than this are in flight. */
  const MAX_BULLETS: int := 5
  const PARTICLE_COUNT: int := 20
  /** Math.random() calls made per particle of a burst: angle, speed, life, alpha. */
  const DRAWS_PER_PARTICLE: int := 4
  const POINTS_PER_HIT: int := 10
  const START_LIVES: int := 3
  /** The key identifier of the space bar. */
  const SHOOT_KEY: string := " "

  /** One result of Math.random(). */
  type Unit = r: real | 0.0 <= r < 1.0
  /** The successive results of Math.random() during one frame. */
  type Draws = nat -> Unit

  /** An axis-aligned rectangle: top-left corner and size. */
  datatype Rect = Rect(x: real, y: real, width: real, height: real)

  datatype Player = Player(x: real, y: real, width: real, height: real, speed: real, lives: int)
  {
    function Bounds(): Rect { Rect(x, y, width, height) }
  }

  datatype Bullet = Bullet(x: real, y: real, width: real, height: real, speed: real)
  {
    function Bounds(): Rect { Rect(x, y, width, height) }
  }

  datatype Enemy = Enemy(x: real, y: real, width: real, height: real, speed: real)
  {
    function Bounds(): Rect { Rect(x, y, width, height) }
  }

  /** An explosion particle; only its position of birth and its remaining life are kept. */
  datatype Particle = Particle(x: real, y: real, life: real)

  /** What the frame shows outside the canvas: the lives text, the score text
      and the game-over notification with the final score. */
  datatype Event = LivesShown(lives: int) | ScoreShown(score: int) | GameOver(finalScore: int)

  /** rectIntersect: strict overlap on both axes. */
  predicate Intersect(a: Rect, b: Rect)
  {
    a.x < b.x + b.width && a.x + a.width > b.x && a.y < b.y + b.height && a.y + a.height > b.y
  }

  /** An interior point of a rectangle (its boundary excluded). */
  predicate Inside(r: Rect, px: real, py: real)
  {
    r.x < px < r.x + r.width && r.y < py < r.y + r.height
  }

  lemma IntersectSymmetric(a: Rect, b: Rect)
    ensures Intersect(a, b) <==> Intersect(b, a)
  {
  }

  /** Rectangles that only share an edge, or lie apart, do not intersect. */
  lemma TouchingDoesNotIntersect(a: Rect, b: Rect)
    requires a.x + a.width <= b.x || b.x + b.width <= a.x || a.y + a.height <= b.y || b.y + b.height <= a.y
    ensures !Intersect(a, b)
  {
  }

  /** For rectangles of positive size, the overlap test holds exactly when the
      two rectangles have an interior point in common. */
  lemma IntersectIffCommonPoint(a: Rect, b: Rect)
    requires a.width > 0.0 && a.height > 0.0 && b.width > 0.0 && b.height > 0.0
    ensures Intersect(a, b) <==> exists px, py :: Inside(a, px, py) && Inside(b, px, py)
  {
    if Intersect(a, b) {
      var lx := Max(a.x, b.x);
      var hx := Min(a.x + a.width, b.x + b.width);
      var ly := Max(a.y, b.y);
      var hy := Min(a.y + a.height, b.y + b.height);
      var px, py := (lx + hx) / 2.0, (ly + hy) / 2.0;
      assert Inside(a, px, py) && Inside(b, px, py);
    }
  }

  function Min(a: real, b: real): real { if a <= b then a else b }
  function Max(a: real, b: real): real { if a >= b then a else b }

  /** Math.max(0, Math.min(hi, v)). */
  function Clamp(v: real, hi: real): (r: real)
    ensures 0.0 <= r
    ensures 0.0 <= hi ==> r <= hi
    ensures 0.0 <= v <= hi ==> r == v
    ensures 0.0 <= hi ==> (r == v || (v < 0.0 && r == 0.0) || (v > hi && r == hi))
  {
    Max(0.0, Min(hi, v))
  }

  predicate Held(keys: set<string>, arrow: string, letter: string)
  {
    arrow in keys || letter in keys
  }

  /** The player after the key-driven move and the clamp into the arena. */
  function Move(p: Player, keys: set<string>): (q: Player)
    ensures q.width == p.width && q.height == p.height && q.speed == p.speed && q.lives == p.lives
    ensures 0.0 <= q.x && 0.0 <= q.y
    ensures p.width <= GAME_WIDTH ==> q.x <= GAME_WIDTH - p.width
    ensures p.height <= GAME_HEIGHT ==> q.y <= GAME_HEIGHT - p.height
  {
    var x1 := if Held(keys, "ArrowLeft", "a") then p.x - p.speed else p.x;
    var x2 := if Held(keys, "ArrowRight", "d") then x1 + p.speed else x1;
    var y1 := if Held(keys, "ArrowUp", "w") then p.y - p.speed else p.y;
    var y2 := if Held(keys, "ArrowDown", "s") then y1 + p.speed else y1;
    p.(x := Clamp(x2, GAME_WIDTH - p.width), y := Clamp(y2, GAME_HEIGHT - p.height))
  }

  /** Opposite keys cancel, and with no movement key held an in-arena player stays put. */
  lemma MoveCancels(p: Player, keys: set<string>)
    requires 0.0 <= p.x <= GAME_WIDTH - p.width && 0.0 <= p.y <= GAME_HEIGHT - p.height
    requires Held(keys, "ArrowLeft", "a") <==> Held(keys, "ArrowRight", "d")
    requires Held(keys, "ArrowUp", "w") <==> Held(keys, "ArrowDown", "s")
    ensures Move(p, keys) == p
  {
  }

  /** Holding only the right key moves by exactly the speed until the right wall stops it. */
  lemma MoveRight(p: Player, keys: set<string>)
    requires Held(keys, "ArrowRight", "d")
    requires !Held(keys, "ArrowLeft", "a") && !Held(keys, "ArrowUp", "w") && !Held(keys, "ArrowDown", "s")
    requires 0.0 <= p.speed && 0.0 <= p.x <= GAME_WIDTH - p.width && 0.0 <= p.y <= GAME_HEIGHT - p.height
    ensures Move(p, keys).x == Min(p.x + p.speed, GAME_WIDTH - p.width)
    ensures Move(p, keys).y == p.y
  {
  }

  /** The bullet fired from the middle of the player's top edge. */
  function NewBullet(p: Player): (b: Bullet)
    ensures b.y == p.y && b.x + b.width / 2.0 == p.x + p.width / 2.0
    ensures b.width == 4.0 && b.height == 15.0 && b.speed == 10.0
  {
    Bullet(p.x + p.width / 2.0 - 2.0, p.y, 4.0, 15.0, 10.0)
  }

  /** One frame of bullet flight: up by its speed. */
  function Ascend(b: Bullet): Bullet { b.(y := b.y - b.speed) }
  /** A bullet is kept while its bottom edge is below the arena's top. */
  predicate OnScreen(b: Bullet) { b.y + b.height > 0.0 }

  /** One frame of enemy flight: down by its speed. */
  function Descend(e: Enemy): Enemy { e.(y := e.y + e.speed) }
  /** An enemy is kept while its top edge is above GAME_HEIGHT + its height. */
  predicate InArena(e: Enemy) { e.y < GAME_HEIGHT + e.height }

  /** One frame of particle life. */
  function Age(p: Particle): Particle { p.(life := p.life - 1.0) }
  predicate Alive(p: Particle) { p.life > 0.0 }

  /** spawnEnemy's new enemy, from the two Math.random() results it draws. */
  function NewEnemy(rx: Unit, rs: Unit): (e: Enemy)
    ensures e.y == -ENEMY_SIZE && e.width == ENEMY_SIZE && e.height == ENEMY_SIZE
    ensures 0.0 <= e.x < GAME_WIDTH - ENEMY_SIZE
    ensures 2.0 <= e.speed < 4.0
  {
    Enemy(rx * (GAME_WIDTH - ENEMY_SIZE), -ENEMY_SIZE, ENEMY_SIZE, ENEMY_SIZE, 2.0 + rs * 2.0)
  }

  /** The timer after one frame's increment and the reset at the interval. */
  function Tick(t: int): int
  {
    if t + 1 >= ENEMY_SPAWN_INTERVAL then 0 else t + 1
  }

  /** Whether this frame's increment reaches the interval, so an enemy spawns. */
  predicate SpawnDue(t: int)
  {
    t + 1 >= ENEMY_SPAWN_INTERVAL
  }

  lemma TickInRange(t: int)
    requires 0 <= t < ENEMY_SPAWN_INTERVAL
    ensures 0 <= Tick(t) < ENEMY_SPAWN_INTERVAL
    ensures SpawnDue(t) <==> t == ENEMY_SPAWN_INTERVAL - 1
    ensures SpawnDue(t) <==> Tick(t) == 0
  {
  }

  /** The timer after `n` frames. */
  function Ticks(t: int, n: nat): int
  {
    if n == 0 then t else Tick(Ticks(t, n - 1))
  }

  /** The number of enemies spawned during `n` frames. */
  function SpawnsIn(t: int, n: nat): nat
  {
    if n == 0 then 0 else SpawnsIn(t, n - 1) + (if SpawnDue(Ticks(t, n - 1)) then 1 else 0)
  }

  lemma DivModUnique(a: int, d: int, q: int)
    requires a == ENEMY_SPAWN_INTERVAL * d + q && 0 <= q < ENEMY_SPAWN_INTERVAL
    ensures a / ENEMY_SPAWN_INTERVAL == d && a % ENEMY_SPAWN_INTERVAL == q
  {
  }

  /** The spawn cadence: from a timer `t` in range, after `n` frames the timer
      is `(t + n) mod 90` and exactly `(t + n) div 90` enemies have spawned; in
      particular, from 0 one enemy spawns on every 90th frame. */
  lemma {:induction false} Cadence(t: int, n: nat)
    requires 0 <= t < ENEMY_SPAWN_INTERVAL
    ensures Ticks(t, n) == (t + n) % ENEMY_SPAWN_INTERVAL
    ensures SpawnsIn(t, n) == (t + n) / ENEMY_SPAWN_INTERVAL
  {
    if n == 0 {
      DivModUnique(t, 0, t);
    } else {
      Cadence(t, n - 1);
      var q := Ticks(t, n - 1);
      var d := SpawnsIn(t, n - 1);
      assert t + n - 1 == ENEMY_SPAWN_INTERVAL * d + q;
      if SpawnDue(q) {
        DivModUnique(t + n, d + 1, 0);
      } else {
        DivModUnique(t + n, d, q + 1);
      }
    }
  }

  /** createExplosion's 20 particles at (x, y); particle `i` takes its life
      from the third of its four Math.random() calls, counted from `cursor`. */
  function Burst(x: real, y: real, draws: Draws, cursor: nat): (ps: seq<Particle>)
    ensures |ps| == PARTICLE_COUNT
    ensures forall i :: 0 <= i < |ps| ==> ps[i].x == x && ps[i].y == y && 20.0 <= ps[i].life < 50.0
  {
    seq(PARTICLE_COUNT, i requires 0 <= i < PARTICLE_COUNT => BurstParticle(x, y, draws, cursor, i))
  }

  function BurstParticle(x: real, y: real, draws: Draws, cursor: nat, i: nat): Particle
  {
    Particle(x, y, draws(cursor + DRAWS_PER_PARTICLE * i + 2) * 30.0 + 20.0)
  }
}
