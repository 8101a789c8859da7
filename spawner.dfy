/** The wave spawner: the wave counter, the roster of live enemies, the
    number of enemies per wave, and the stats of each new enemy.

    Random.Range is replaced by caller-supplied draws, one per enemy
    created; the game manager's game-over flag is the parameter gameOver;
    the wave display is returned as the values UpdateWaveText receives.
    Instantiate is `new Enemy`; the enemy's transform becomes the index of
    the spawn point it was placed at. */
module WaveSpawner {
  import opened Living
  import opened HostileUnit

  // ---------------------------------------------------------------------
  // Stat interpolation

  /** The spawner's inspector ranges for enemy stats. */
  datatype StatRanges = StatRanges(
    healthMin: real, healthMax: real,
    damageMin: real, damageMax: real,
    speedMin: real, speedMax: real)

  predicate Ordered(g: StatRanges) {
    g.healthMin <= g.healthMax && g.damageMin <= g.damageMax && g.speedMin <= g.speedMax
  }

  function Clamp01(t: real): (r: real) {
    if t < 0.0 then 0.0 else if t > 1.0 then 1.0 else t
  }

  /** The span d scaled by c. */
  function Scale(d: real, c: real): (r: real) { d * c }

  /** A non-negative span scaled by a factor in [0, 1] stays within it. */
  lemma ScaleWithin(d: real, c: real)
    requires d >= 0.0 && 0.0 <= c <= 1.0
    ensures 0.0 <= Scale(d, c) <= d
  {
    assert d * c >= 0.0 * c;
    assert d * c <= d * 1.0;
  }

  /** Scaling a non-negative span by a larger factor gives no less. */
  lemma ScaleMonotone(d: real, c1: real, c2: real)
    requires d >= 0.0 && c1 <= c2
    ensures Scale(d, c1) <= Scale(d, c2)
  {
    assert d * c2 - d * c1 == d * (c2 - c1);
    assert d * (c2 - c1) >= 0.0 * (c2 - c1);
  }

  /** Mathf.Lerp, which clamps its parameter to [0, 1]. */
  function Lerp(a: real, b: real, t: real): (r: real)
    ensures t <= 0.0 ==> r == a
    ensures t >= 1.0 ==> r == b
    ensures 0.0 <= t <= 1.0 ==> r == a + (b - a) * t
    ensures a <= b ==> a <= r <= b
  {
    var c := Clamp01(t);
    if a <= b then ScaleWithin(b - a, c); a + Scale(b - a, c)
    else a + Scale(b - a, c)
  }

  /** With a <= b, a stronger intensity never gives a smaller stat. */
  lemma LerpMonotone(a: real, b: real, t1: real, t2: real)
    requires a <= b && t1 <= t2
    ensures Lerp(a, b, t1) <= Lerp(a, b, t2)
  {
    ScaleMonotone(b - a, Clamp01(t1), Clamp01(t2));
  }

  /** Health, damage and speed of an enemy of intensity t. */
  datatype Stats = Stats(health: real, damage: real, speed: real)

  function StatsAt(g: StatRanges, t: real): (s: Stats)
    ensures Ordered(g) ==>
      && g.healthMin <= s.health <= g.healthMax
      && g.damageMin <= s.damage <= g.damageMax
      && g.speedMin <= s.speed <= g.speedMax
  {
    Stats(Lerp(g.healthMin, g.healthMax, t), Lerp(g.damageMin, g.damageMax, t), Lerp(g.speedMin, g.speedMax, t))
  }

  /** All three stats come from one intensity, so a stronger enemy is at
      least as strong in every stat. */
  lemma {:induction false} StatsMonotone(g: StatRanges, t1: real, t2: real)
    requires Ordered(g) && t1 <= t2
    ensures StatsAt(g, t1).health <= StatsAt(g, t2).health
    ensures StatsAt(g, t1).damage <= StatsAt(g, t2).damage
    ensures StatsAt(g, t1).speed <= StatsAt(g, t2).speed
  {
    LerpMonotone(g.healthMin, g.healthMax, t1, t2);
    LerpMonotone(g.damageMin, g.damageMax, t1, t2);
    LerpMonotone(g.speedMin, g.speedMax, t1, t2);
  }

  // ---------------------------------------------------------------------
  // Enemies per wave

  /** n is x rounded to the nearest integer, a tie going to the even one
      (the rounding of Mathf.RoundToInt). */
  predicate RoundsHalfToEven(x: real, n: int) {
    var d := n as real - x;
    (-0.5 < d < 0.5) || ((d == 0.5 || d == -0.5) && n % 2 == 0)
  }

  /** A value halfway between m and m + 1 rounds to the even one. */
  lemma TieRoundsToEven(m: int)
    ensures RoundsHalfToEven(m as real + 0.5, if m % 2 == 0 then m else m + 1)
  {
    if m % 2 != 0 {
      assert (m + 1) % 2 == 0;
      assert (m + 1) as real - (m as real + 0.5) == 0.5;
    }
  }

  /** Mathf.RoundToInt(wave * 1.5f), over the integers. An even wave 2h
      gives exactly 3h; an odd wave 2h + 1 gives 3h + 1.5, halfway between
      3h + 1 and 3h + 2, and the even one of the two is taken. */
  function SpawnCount(wave: nat): (n: nat)
    ensures RoundsHalfToEven(wave as real * 1.5, n)
  {
    var h := wave / 2;
    if wave % 2 == 0 then
      assert wave as real * 1.5 == (3 * h) as real;
      3 * h
    else
      var m := 3 * h + 1;
      assert wave as real * 1.5 == m as real + 0.5;
      TieRoundsToEven(m);
      if m % 2 == 0 then m else m + 1
  }

  lemma SpawnCountsOfFirstWaves()
    ensures SpawnCount(1) == 2 && SpawnCount(2) == 3 && SpawnCount(3) == 4
    ensures SpawnCount(4) == 6 && SpawnCount(5) == 8
  {
  }

  /** Every wave after the first brings more enemies than the one before. */
  lemma SpawnCountGrows(wave: nat)
    requires wave >= 1
    ensures 1 <= SpawnCount(wave) < SpawnCount(wave + 1)
  {
  }

  // ---------------------------------------------------------------------
  // The roster

  predicate Distinct<T(==)>(s: seq<T>) {
    forall i, j :: 0 <= i < j < |s| ==> s[i] != s[j]
  }

  /** The position of the first occurrence of x in s. */
  function IndexOf<T(==)>(s: seq<T>, x: T): (i: nat)
    requires x in s
    ensures i < |s| && s[i] == x && x !in s[..i]
    decreases |s|
  {
    if s[0] == x then 0
    else
      var j := IndexOf(s[1..], x);
      assert s[..j + 1] == [s[0]] + s[1..][..j];
      j + 1
  }

  /** List.Remove: drop the first occurrence of x, if any. */
  function RemoveFirst<T(==)>(s: seq<T>, x: T): (r: seq<T>)
    ensures x !in s ==> r == s
    ensures x in s ==> r == s[..IndexOf(s, x)] + s[IndexOf(s, x) + 1..]
    decreases |s|
  {
    if s == [] then []
    else if s[0] == x then s[1..]
    else
      var r := [s[0]] + RemoveFirst(s[1..], x);
      assert x in s ==> IndexOf(s, x) == IndexOf(s[1..], x) + 1;
      r
  }

  /** In a roster without repeats, the death callback removes exactly the
      enemy that died: it is gone, every other enemy stays, and the roster
      is one shorter and still without repeats. */
  lemma {:induction false} RemoveFirstFromDistinct<T>(s: seq<T>, x: T)
    requires Distinct(s) && x in s
    ensures x !in RemoveFirst(s, x)
    ensures |RemoveFirst(s, x)| == |s| - 1
    ensures forall y :: y in s && y != x ==> y in RemoveFirst(s, x)
    ensures Distinct(RemoveFirst(s, x))
  {
    var i := IndexOf(s, x);
    var r := RemoveFirst(s, x);
    assert r == s[..i] + s[i + 1..];
    assert forall k :: 0 <= k < i ==> r[k] == s[k];
    assert forall k :: i <= k < |r| ==> r[k] == s[k + 1];
    forall y | y in s && y != x
      ensures y in r
    {
      var k :| 0 <= k < |s| && s[k] == y;
      if k < i { assert r[k] == y; } else { assert k > i && r[k - 1] == y; }
    }
  }

  // ---------------------------------------------------------------------
  // The spawner

  /** What Random.Range supplies to one CreateEnemy call. */
  datatype Draw = Draw(intensity: real, spawnIndex: int)

  /** The enemy prefab's settings before Setup. */
  datatype Prefab = Prefab(startingHealth: real, damage: real, timeBetAttack: real, colliderCount: nat)

  /** The arguments of UIManager.UpdateWaveText. */
  datatype WaveText = WaveText(wave: nat, remaining: nat)

  /** The onDeath subscribers CreateEnemy registers, in order. */
  const DeathSubscribers: seq<DeathHandler> := [RemoveFromRoster, DestroyAfter(10.0), AddScore(100)]

  class EnemySpawner {
    const prefab: Prefab
    const ranges: StatRanges
    const spawnPointCount: nat
    var enemies: seq<Enemy>
    var wave: nat

    ghost predicate Valid()
      reads this
    {
      spawnPointCount >= 1 && Distinct(enemies)
    }

    /** There are at least n draws, each naming an existing spawn point. */
    predicate DrawsFor(draws: seq<Draw>, n: nat) {
      |draws| >= n && forall i :: 0 <= i < |draws| ==> 0 <= draws[i].spawnIndex < spawnPointCount
    }

    /** e is the enemy CreateEnemy makes from draw d. */
    ghost predicate MadeFrom(e: Enemy, d: Draw)
      reads e, e.living
    {
      var stats := StatsAt(ranges, d.intensity);
      && e.spawnPoint == d.spawnIndex
      && e.living.startingHealth == stats.health && e.living.health == stats.health
      && e.damage == stats.damage && e.speed == stats.speed
      && e.timeBetAttack == prefab.timeBetAttack
      && !e.living.dead
      && e.living.onDeath == DeathSubscribers
    }

    constructor (prefab: Prefab, ranges: StatRanges, spawnPointCount: nat)
      requires spawnPointCount >= 1
      ensures Valid()
      ensures this.prefab == prefab && this.ranges == ranges && this.spawnPointCount == spawnPointCount
      ensures enemies == [] && wave == 0
    {
      this.prefab := prefab;
      this.ranges := ranges;
      this.spawnPointCount := spawnPointCount;
      enemies := [];
      wave := 0;
    }

    /** One frame. Returns the wave display update, None when the game is
        over. */
    method Update(gameOver: bool, draws: seq<Draw>) returns (ui: Option<WaveText>)
      requires Valid()
      requires !gameOver && |enemies| <= 0 ==> DrawsFor(draws, SpawnCount(wave + 1))
      modifies this
      ensures Valid()
      ensures gameOver ==> ui == None && wave == old(wave) && enemies == old(enemies)
      ensures !gameOver ==> ui == Some(WaveText(wave, |enemies|))
      ensures !gameOver && |old(enemies)| > 0 ==> wave == old(wave) && enemies == old(enemies)
      ensures !gameOver && |old(enemies)| <= 0 ==>
        && wave == old(wave) + 1
        && |enemies| == SpawnCount(wave)
        && forall i :: 0 <= i < |enemies| ==> fresh(enemies[i]) && MadeFrom(enemies[i], draws[i])
    {
      if gameOver {
        return None;
      }
      if |enemies| <= 0 {
        SpawnWave(draws);
      }
      ui := Some(WaveText(wave, |enemies|));
    }

    method SpawnWave(draws: seq<Draw>)
      requires Valid() && DrawsFor(draws, SpawnCount(wave + 1))
      modifies this
      ensures Valid()
      ensures wave == old(wave) + 1
      ensures |enemies| == |old(enemies)| + SpawnCount(wave)
      ensures enemies[..|old(enemies)|] == old(enemies)
      ensures forall i :: |old(enemies)| <= i < |enemies| ==>
        fresh(enemies[i]) && MadeFrom(enemies[i], draws[i - |old(enemies)|])
    {
      wave := wave + 1;
      var spawnCount := SpawnCount(wave);
      var i := 0;
      while i < spawnCount
        invariant 0 <= i <= spawnCount
        invariant Valid() && wave == old(wave) + 1
        invariant |enemies| == |old(enemies)| + i
        invariant enemies[..|old(enemies)|] == old(enemies)
        invariant forall k :: |old(enemies)| <= k < |enemies| ==>
          fresh(enemies[k]) && MadeFrom(enemies[k], draws[k - |old(enemies)|])
      {
        CreateEnemy(draws[i]);
        i := i + 1;
      }
    }

    method CreateEnemy(d: Draw)
      requires Valid() && 0 <= d.spawnIndex < spawnPointCount
      modifies this`enemies
      ensures Valid()
      ensures |enemies| == |old(enemies)| + 1 && enemies[..|old(enemies)|] == old(enemies)
      ensures fresh(enemies[|old(enemies)|]) && MadeFrom(enemies[|old(enemies)|], d)
    {
      var stats := StatsAt(ranges, d.intensity);
      var enemy := new Enemy(prefab.startingHealth, prefab.damage, prefab.timeBetAttack,
                             prefab.colliderCount, d.spawnIndex);
      enemy.Setup(stats.health, stats.damage, stats.speed);
      enemies := enemies + [enemy];
      enemy.living.onDeath := enemy.living.onDeath + [RemoveFromRoster];
      enemy.living.onDeath := enemy.living.onDeath + [DestroyAfter(10.0)];
      enemy.living.onDeath := enemy.living.onDeath + [AddScore(100)];
    }

    /** The first onDeath subscriber: `enemies.Remove(enemy)`. */
    method OnEnemyDeath(enemy: Enemy)
      requires Valid()
      modifies this`enemies
      ensures Valid()
      ensures enemies == RemoveFirst(old(enemies), enemy)
      ensures enemy !in enemies
      ensures forall e :: e in old(enemies) && e != enemy ==> e in enemies
    {
      if enemy in enemies {
        RemoveFirstFromDistinct(enemies, enemy);
      }
      enemies := RemoveFirst(enemies, enemy);
    }
  }
}
