/** The collision pass of script.js's update(), exactly as the nested forEach
    loops run it: the outer loop over enemies and the inner loop over bullets
    each fix their length when they start, skip an index that no longer holds
    an element, and `splice` the arrays they walk while they walk them. */
module Collision {
  import opened Seqs
  import opened Entities

  /** The state the pass reads and writes: the player's lives, the score, the
      two lists it splices, the particles it appends to, the number of
      Math.random() results used so far this frame, and what it showed. */
  datatype Pass = Pass(lives: int, score: int, enemies: seq<Enemy>, bullets: seq<Bullet>,
                       particles: seq<Particle>, cursor: nat, events: seq<Event>)

  /** The number of score-text updates in `ev`. */
  function ScoreEvents(ev: seq<Event>): nat
  {
    if ev == [] then 0 else ScoreEvents(ev[..|ev| - 1]) + (if ev[|ev| - 1].ScoreShown? then 1 else 0)
  }

  /** The number of lives-text updates in `ev`. */
  function LivesEvents(ev: seq<Event>): nat
  {
    if ev == [] then 0 else LivesEvents(ev[..|ev| - 1]) + (if ev[|ev| - 1].LivesShown? then 1 else 0)
  }

  lemma CountAppend(ev: seq<Event>, e: Event)
    ensures ScoreEvents(ev + [e]) == ScoreEvents(ev) + (if e.ScoreShown? then 1 else 0)
    ensures LivesEvents(ev + [e]) == LivesEvents(ev) + (if e.LivesShown? then 1 else 0)
  {
    assert (ev + [e])[..|ev|] == ev;
  }

  /** The callback of the inner loop for bullet index `bi`, during the visit of
      enemy `e`, which the outer loop read at index `ei`. A hit scores, bursts
      at the centre of `e`, and splices index `ei` of the enemies (whatever
      stands there now) and index `bi` of the bullets. */
  function BulletTest(e: Enemy, ei: nat, st: Pass, bi: nat, draws: Draws): Pass
  {
    if bi < |st.bullets| && Intersect(st.bullets[bi].Bounds(), e.Bounds()) then Scored(e, ei, st, bi, draws) else st
  }

  /** A bullet hit: ten points, a burst at the enemy's centre, both splices
      and the new score text. */
  function Scored(e: Enemy, ei: nat, st: Pass, bi: nat, draws: Draws): Pass
  {
    var score := st.score + POINTS_PER_HIT;
    st.(score := score,
        particles := st.particles + Burst(e.x + e.width / 2.0, e.y + e.height / 2.0, draws, st.cursor),
        cursor := st.cursor + PARTICLE_COUNT * DRAWS_PER_PARTICLE,
        enemies := Splice(st.enemies, ei),
        bullets := Splice(st.bullets, bi),
        events := st.events + [ScoreShown(score)])
  }

  /** The inner loop from index `bi` on; `m` is the bullet count it started with. */
  function BulletsFrom(e: Enemy, ei: nat, st: Pass, bi: nat, m: nat, draws: Draws): Pass
    decreases m - bi
  {
    if bi >= m then st else BulletsFrom(e, ei, BulletTest(e, ei, st, bi, draws), bi + 1, m, draws)
  }

  /** The callback of the outer loop for enemy index `ei`: the player test,
      then the whole inner loop against the enemy read at `ei`. */
  function EnemyTest(player: Rect, st: Pass, ei: nat, draws: Draws): Pass
  {
    if ei >= |st.enemies| then st
    else
      var st1 := PlayerTest(player, st, ei);
      BulletsFrom(st.enemies[ei], ei, st1, 0, |st1.bullets|, draws)
  }

  /** The player test of the outer callback: a hit costs a life and splices the enemy. */
  function PlayerTest(player: Rect, st: Pass, ei: nat): Pass
    requires ei < |st.enemies|
  {
    if Intersect(player, st.enemies[ei].Bounds()) then
      st.(lives := st.lives - 1, enemies := Splice(st.enemies, ei),
          events := st.events + [LivesShown(st.lives - 1)])
    else st
  }

  /** The outer loop from index `ei` on; `n` is the enemy count it started with. */
  function EnemiesFrom(player: Rect, st: Pass, ei: nat, n: nat, draws: Draws): Pass
    decreases n - ei
  {
    if ei >= n then st else EnemiesFrom(player, EnemyTest(player, st, ei, draws), ei + 1, n, draws)
  }

  /** The whole collision pass. */
  function CollisionPass(player: Rect, st: Pass, draws: Draws): Pass
  {
    EnemiesFrom(player, st, 0, |st.enemies|, draws)
  }

  /** What a stretch of the pass does, counted by the texts it shows: every
      score update is one bullet hit, worth 10 points, one bullet removed, one
      burst of 20 particles with lives in [20, 50) and 80 random draws; every
      lives update is one life lost; each of these removes at most one enemy;
      and both lists only lose elements. */
  ghost predicate Accounted(a: Pass, b: Pass)
  {
    var hits := ScoreEvents(b.events) - ScoreEvents(a.events);
    var crashes := LivesEvents(b.events) - LivesEvents(a.events);
    hits >= 0 && crashes >= 0 &&
    b.score == a.score + POINTS_PER_HIT * hits &&
    b.lives == a.lives - crashes &&
    |b.bullets| == |a.bullets| - hits &&
    |a.enemies| - |b.enemies| <= hits + crashes &&
    multiset(b.enemies) <= multiset(a.enemies) &&
    multiset(b.bullets) <= multiset(a.bullets) &&
    |b.particles| == |a.particles| + PARTICLE_COUNT * hits &&
    b.particles[..|a.particles|] == a.particles &&
    (forall i :: |a.particles| <= i < |b.particles| ==> 20.0 <= b.particles[i].life < 50.0) &&
    b.cursor == a.cursor + PARTICLE_COUNT * DRAWS_PER_PARTICLE * hits &&
    |a.events| <= |b.events| && b.events[..|a.events|] == a.events &&
    (forall i :: |a.events| <= i < |b.events| ==> !b.events[i].GameOver?)
  }

  lemma AccountedRefl(a: Pass)
    ensures Accounted(a, a)
  {
    assert a.particles[..|a.particles|] == a.particles;
    assert a.events[..|a.events|] == a.events;
  }

  lemma AccountedTrans(a: Pass, b: Pass, c: Pass)
    requires Accounted(a, b) && Accounted(b, c)
    ensures Accounted(a, c)
  {
    var pa, pb, pc := a.particles, b.particles, c.particles;
    assert pc[..|pa|] == pb[..|pa|] == pa by {
      assert pc[..|pb|] == pb;
    }
    forall i | |pa| <= i < |pc|
      ensures 20.0 <= pc[i].life < 50.0
    {
      if i < |pb| {
        assert pc[i] == pc[..|pb|][i] == pb[i];
      }
    }
    var ea, eb, ec := a.events, b.events, c.events;
    assert ec[..|ea|] == eb[..|ea|] == ea by {
      assert ec[..|eb|] == eb;
    }
    forall i | |ea| <= i < |ec|
      ensures !ec[i].GameOver?
    {
      if i < |eb| {
        assert ec[i] == ec[..|eb|][i] == eb[i];
      }
    }
  }

  lemma BulletTestAccounted(e: Enemy, ei: nat, st: Pass, bi: nat, draws: Draws)
    ensures var r := BulletTest(e, ei, st, bi, draws);
            Accounted(st, r) && LivesEvents(r.events) == LivesEvents(st.events) && r.lives == st.lives
    ensures var r := BulletTest(e, ei, st, bi, draws);
            r == st || ScoreEvents(r.events) == ScoreEvents(st.events) + 1
  {
    var r := BulletTest(e, ei, st, bi, draws);
    if r == st {
      AccountedRefl(st);
    } else {
      CountAppend(st.events, ScoreShown(r.score));
      SpliceMultiset(st.enemies, ei);
      SpliceMultiset(st.bullets, bi);
      assert r.particles[..|st.particles|] == st.particles;
      assert r.events[..|st.events|] == st.events;
    }
  }

  lemma {:induction false} BulletsFromAccounted(e: Enemy, ei: nat, st: Pass, bi: nat, m: nat, draws: Draws)
    ensures var r := BulletsFrom(e, ei, st, bi, m, draws);
            Accounted(st, r) && LivesEvents(r.events) == LivesEvents(st.events) && r.lives == st.lives
    decreases m - bi
  {
    if bi >= m {
      AccountedRefl(st);
    } else {
      var st1 := BulletTest(e, ei, st, bi, draws);
      BulletTestAccounted(e, ei, st, bi, draws);
      BulletsFromAccounted(e, ei, st1, bi + 1, m, draws);
      AccountedTrans(st, st1, BulletsFrom(e, ei, st1, bi + 1, m, draws));
    }
  }

  lemma EnemyTestAccounted(player: Rect, st: Pass, ei: nat, draws: Draws)
    ensures var r := EnemyTest(player, st, ei, draws);
            Accounted(st, r) && LivesEvents(r.events) <= LivesEvents(st.events) + 1
  {
    if ei >= |st.enemies| {
      AccountedRefl(st);
    } else {
      var e := st.enemies[ei];
      var st1 := PlayerTest(player, st, ei);
      PlayerTestAccounted(player, st, ei);
      BulletsFromAccounted(e, ei, st1, 0, |st1.bullets|, draws);
      AccountedTrans(st, st1, BulletsFrom(e, ei, st1, 0, |st1.bullets|, draws));
    }
  }

  lemma PlayerTestAccounted(player: Rect, st: Pass, ei: nat)
    requires ei < |st.enemies|
    ensures var r := PlayerTest(player, st, ei);
            Accounted(st, r) && ScoreEvents(r.events) == ScoreEvents(st.events) && r.bullets == st.bullets
    ensures var r := PlayerTest(player, st, ei);
            r == st || LivesEvents(r.events) == LivesEvents(st.events) + 1
  {
    var r := PlayerTest(player, st, ei);
    if r == st {
      AccountedRefl(st);
    } else {
      CountAppend(st.events, LivesShown(st.lives - 1));
      SpliceMultiset(st.enemies, ei);
      assert r.particles[..|st.particles|] == st.particles;
      assert r.events[..|st.events|] == st.events;
    }
  }

  lemma {:induction false} EnemiesFromAccounted(player: Rect, st: Pass, ei: nat, n: nat, draws: Draws)
    requires ei <= n
    ensures var r := EnemiesFrom(player, st, ei, n, draws);
            Accounted(st, r) && LivesEvents(r.events) - LivesEvents(st.events) <= n - ei
    decreases n - ei
  {
    if ei == n {
      AccountedRefl(st);
    } else {
      var st1 := EnemyTest(player, st, ei, draws);
      EnemyTestAccounted(player, st, ei, draws);
      EnemiesFromAccounted(player, st1, ei + 1, n, draws);
      AccountedTrans(st, st1, EnemiesFrom(player, st1, ei + 1, n, draws));
    }
  }

  /** The pass as a whole: score rises by exactly 10 per bullet hit, lives fall
      by exactly 1 per player hit and at most once per enemy it started with,
      each hit removes its bullet and adds 20 particles. */
  lemma CollisionAccounted(player: Rect, st: Pass, draws: Draws)
    ensures var r := CollisionPass(player, st, draws);
            Accounted(st, r) && LivesEvents(r.events) - LivesEvents(st.events) <= |st.enemies|
  {
    EnemiesFromAccounted(player, st, 0, |st.enemies|, draws);
  }

  /** The literal splice order at work: the enemy that hits the player is
      spliced out first, and the bullet that also overlaps it then splices the
      enemy that has moved into its index, although that one touched nothing. */
  lemma CrashThenHitRemovesNeighbour(draws: Draws)
    ensures var player := Rect(100.0, 100.0, 50.0, 50.0);
            var e0 := Enemy(100.0, 100.0, 50.0, 50.0, 3.0);
            var e1 := Enemy(600.0, 100.0, 50.0, 50.0, 3.0);
            var b := Bullet(110.0, 110.0, 4.0, 15.0, 10.0);
            var r := CollisionPass(player, Pass(3, 0, [e0, e1], [b], [], 0, []), draws);
            !Intersect(player, e1.Bounds()) && !Intersect(b.Bounds(), e1.Bounds()) &&
            r.enemies == [] && r.bullets == [] && r.lives == 2 && r.score == 10 &&
            r.events == [LivesShown(2), ScoreShown(10)]
  {
    var player := Rect(100.0, 100.0, 50.0, 50.0);
    var e0 := Enemy(100.0, 100.0, 50.0, 50.0, 3.0);
    var e1 := Enemy(600.0, 100.0, 50.0, 50.0, 3.0);
    var b := Bullet(110.0, 110.0, 4.0, 15.0, 10.0);
    var st := Pass(3, 0, [e0, e1], [b], [], 0, []);
    var st1 := st.(lives := 2, enemies := [e1], events := [LivesShown(2)]);
    SpliceFirst(e0, [e1]);
    var st2 := BulletTest(e0, 0, st1, 0, draws);
    SpliceFirst(e1, []);
    SpliceFirst(b, []);
    assert st2.enemies == [] && st2.bullets == [] && st2.score == 10;
    assert st2.events == [LivesShown(2), ScoreShown(10)];
    assert BulletsFrom(e0, 0, st1, 1, 1, draws) == st1;
    assert EnemyTest(player, st, 0, draws) == BulletsFrom(e0, 0, st1, 0, 1, draws) == st2;
    assert EnemiesFrom(player, st2, 1, 2, draws) == st2;
  }

  /** The literal splice order at work: three bullets overlap one enemy; the
      first hit shifts the second bullet into the tested index, so it is
      skipped, and the third scores on the same enemy again and splices the
      other, untouched, enemy. */
  lemma OneEnemyScoresTwice(draws: Draws)
    ensures var player := Rect(0.0, 500.0, 50.0, 50.0);
            var e0 := Enemy(100.0, 100.0, 50.0, 50.0, 3.0);
            var e1 := Enemy(600.0, 100.0, 50.0, 50.0, 3.0);
            var b := Bullet(110.0, 110.0, 4.0, 15.0, 10.0);
            var r := CollisionPass(player, Pass(3, 0, [e0, e1], [b, b, b], [], 0, []), draws);
            !Intersect(b.Bounds(), e1.Bounds()) &&
            r.enemies == [] && r.bullets == [b] && r.lives == 3 && r.score == 20 &&
            r.events == [ScoreShown(10), ScoreShown(20)]
  {
    var player := Rect(0.0, 500.0, 50.0, 50.0);
    var e0 := Enemy(100.0, 100.0, 50.0, 50.0, 3.0);
    var b := Bullet(110.0, 110.0, 4.0, 15.0, 10.0);
    var st := Pass(3, 0, [e0, Enemy(600.0, 100.0, 50.0, 50.0, 3.0)], [b, b, b], [], 0, []);
    assert PlayerTest(player, st, 0) == st;
    var st1 := TwiceFirstHit(draws, st);
    var st2 := TwiceSecondHit(draws, st1);
    assert BulletTest(e0, 0, st2, 2, draws) == st2;
    assert BulletsFrom(e0, 0, st2, 2, 3, draws) == st2;
    assert BulletsFrom(e0, 0, st1, 1, 3, draws) == st2;
    assert EnemyTest(player, st, 0, draws) == BulletsFrom(e0, 0, st, 0, 3, draws) == st2;
    assert EnemiesFrom(player, st2, 1, 2, draws) == st2;
  }

  /** The first hit of the scenario above, at bullet index 0. */
  lemma TwiceFirstHit(draws: Draws, st: Pass) returns (st1: Pass)
    requires st.lives == 3 && st.score == 0 && st.events == []
    requires st.enemies == [Enemy(100.0, 100.0, 50.0, 50.0, 3.0), Enemy(600.0, 100.0, 50.0, 50.0, 3.0)]
    requires st.bullets == [Bullet(110.0, 110.0, 4.0, 15.0, 10.0), Bullet(110.0, 110.0, 4.0, 15.0, 10.0), Bullet(110.0, 110.0, 4.0, 15.0, 10.0)]
    ensures st1 == BulletTest(Enemy(100.0, 100.0, 50.0, 50.0, 3.0), 0, st, 0, draws)
    ensures st1.lives == 3 && st1.score == 10 && st1.events == [ScoreShown(10)]
    ensures st1.enemies == [Enemy(600.0, 100.0, 50.0, 50.0, 3.0)]
    ensures st1.bullets == [Bullet(110.0, 110.0, 4.0, 15.0, 10.0), Bullet(110.0, 110.0, 4.0, 15.0, 10.0)]
  {
    var e0 := Enemy(100.0, 100.0, 50.0, 50.0, 3.0);
    var b := Bullet(110.0, 110.0, 4.0, 15.0, 10.0);
    SpliceFirst(e0, [Enemy(600.0, 100.0, 50.0, 50.0, 3.0)]);
    SpliceFirst(b, [b, b]);
    st1 := BulletTest(e0, 0, st, 0, draws);
  }

  /** The second hit of the scenario above: the third bullet, now at index 1. */
  lemma TwiceSecondHit(draws: Draws, st1: Pass) returns (st2: Pass)
    requires st1.lives == 3 && st1.score == 10 && st1.events == [ScoreShown(10)]
    requires st1.enemies == [Enemy(600.0, 100.0, 50.0, 50.0, 3.0)]
    requires st1.bullets == [Bullet(110.0, 110.0, 4.0, 15.0, 10.0), Bullet(110.0, 110.0, 4.0, 15.0, 10.0)]
    ensures st2 == BulletTest(Enemy(100.0, 100.0, 50.0, 50.0, 3.0), 0, st1, 1, draws)
    ensures st2.lives == 3 && st2.score == 20 && st2.events == [ScoreShown(10), ScoreShown(20)]
    ensures st2.enemies == [] && st2.bullets == [Bullet(110.0, 110.0, 4.0, 15.0, 10.0)]
  {
    var b := Bullet(110.0, 110.0, 4.0, 15.0, 10.0);
    SpliceFirst(Enemy(600.0, 100.0, 50.0, 50.0, 3.0), []);
    SpliceLast([b], b);
    st2 := BulletTest(Enemy(100.0, 100.0, 50.0, 50.0, 3.0), 0, st1, 1, draws);
  }
}
