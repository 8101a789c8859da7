# Zombie survival combat core, in Dafny

A model of the three gameplay state machines of a Unity top-down shooter,
with the engine taken out:

- **The gun** (`gun.dfy`, module `Weapon`): the `Ready` / `Empty` /
  `Reloading` state machine over a magazine (`magAmmo`, at most
  `magCapacity`) and a reserve (`ammoRemain`), fire-rate gating on the game
  clock (`lastFireTime + timeBetFire`), and a reload that refuses in three
  cases and, once begun, completes after `reloadTime`. The class `Gun` keeps
  the fields the source mutates; each method is specified by a transition
  function over a `Status` value, and the invariant (magazine in bounds,
  `Ready ⇒ magAmmo ≥ 1`, `Empty ⇒ magAmmo = 0`) is proved for every step and
  for every run of operations.
- **The enemy** (`enemy.dfy`, module `HostileUnit`): `hasTarget`, one
  iteration of the re-targeting coroutine (first live `LivingEntity` among the
  overlap query's colliders, in query order), the attack guard on contact
  (alive, cooldown elapsed, the contacted entity *is* the tracked target),
  `Setup`, and the components `Die` switches off.
- **The wave spawner** (`spawner.dfy`, module `WaveSpawner`): the wave counter,
  when a wave may begin (roster empty, game not over), the number of enemies
  per wave (`Mathf.RoundToInt(wave * 1.5f)`), the stats of each new enemy
  (`Mathf.Lerp` of three ranges by one intensity), the roster (one append per
  enemy created) and the death callback that removes an enemy from it.
- `living.dfy` (module `Living`) holds what the three share: the state of a
  `LivingEntity` that they read or write (health, dead flag, the `onDeath`
  subscriber list), the damage a component hands to one (`Hit`), and `Option`.

Engine services become inputs: `Time.time` is a parameter `now` (a real);
the gun's raycast is a `Ray` (miss, or a collider with or without an
`IDamageable`); the enemy's overlap query is a sequence of `LivingEntity?`
(null for a collider without one); `Random.Range` is a sequence of `Draw`s
supplied by the caller; the game-over flag is a parameter; the wave display
and the destination command are returned values. Coroutines become explicit
steps: `ReloadRoutine` is a begin step (`Reload`) and a completion step
(`ResumeReloadRoutine(now)`), and `UpdatePath` is one loop iteration per call
(`UpdatePathStep`).

Points where the code's behaviour is easy to misread, and which the model
follows as written:

- The code keeps a dead `targetEntity` until a tick finds a live one (the
  search leaves it unchanged when nothing qualifies), and the attack guard
  compares identity only, without re-checking `dead`. So a target that died
  is no longer chased (`hasTarget` is false) but is still attacked on
  contact (Enemy.cs:97-103 never clears the target, and the guard at
  Enemy.cs:161 tests only identity).
- `Reload` refuses on `ammoRemain <= 0` and `magAmmo >= magCapacity`, not on
  equality; the two agree under the invariant.
- `Mathf.Lerp` clamps its parameter to [0, 1], so every stat lies within its
  range whatever the intensity; `Lerp` models the clamp.
- `OnEnable` refills the magazine without taking from the reserve, so ammo
  is conserved only by runs without it (`RunConservesAmmo`).

## Model

| member | source | states |
|---|---|---|
| `Weapon.Enabled` | Assets/Scripts/Gun.cs:51-56 | OnEnable gives a full magazine, `Ready` and `lastFireTime = 0`, leaves `ammoRemain` as it was, and establishes the gun invariant |
| `Weapon.Gun.constructor` | Assets/Scripts/Gun.cs:51-56 | a new gun is in the OnEnable state and satisfies the invariant |
| `Weapon.Gun.OnEnable` | Assets/Scripts/Gun.cs:51-56 | the new state is `Enabled` of the old one; the invariant is kept |
| `Weapon.ShotHit` | Assets/Scripts/Gun.cs:72-82 | a shot damages something exactly when its ray struck a collider carrying an IDamageable, and then by exactly `damage` |
| `Weapon.AfterFire` | Assets/Scripts/Gun.cs:59-65 | nothing changes unless `Ready` and `now >= lastFireTime + timeBetFire`; a shot stamps `now`, takes exactly one round from the magazine, leaves the reserve alone, and ends `Empty` exactly when `magAmmo <= 0`, else `Ready`; total ammo drops by one per shot; the invariant is kept |
| `Weapon.Gun.Fire` | Assets/Scripts/Gun.cs:59-65 | the new state is `AfterFire` of the old one; damage is dealt only when the guard held |
| `Weapon.Gun.Shot` | Assets/Scripts/Gun.cs:68-95 | one round leaves the magazine, `Empty` when it reaches zero, and the hit is `ShotHit` of the ray |
| `Weapon.AfterReload` | Assets/Scripts/Gun.cs:121-128 | refused, with no change at all, when `Reloading`, `ammoRemain <= 0` or `magAmmo >= magCapacity`; otherwise `Reloading` at once with the ammunition untouched; a second reload while reloading is refused; the invariant is kept |
| `Weapon.Gun.Reload` | Assets/Scripts/Gun.cs:121-128 | returns whether the reload was accepted; the new state is `AfterReload` of the old one |
| `Weapon.Gun.BeginReloadRoutine` | Assets/Scripts/Gun.cs:132-139 | the coroutine's first half: `Reloading`, waiting from `now` |
| `Weapon.AmmoToFill` | Assets/Scripts/Gun.cs:141-145 | the amount loaded is `min(magCapacity - magAmmo, ammoRemain)`, never more than the room in the magazine nor than the reserve |
| `Weapon.ReloadFinished` | Assets/Scripts/Gun.cs:141-151 | completion loads `min(magCapacity - magAmmo, ammoRemain)`, preserves `magAmmo + ammoRemain`, keeps `magAmmo <= magCapacity` and `ammoRemain >= 0`, and sets `Ready`; from a pending reload it restores the invariant |
| `Weapon.Resumed` | Assets/Scripts/Gun.cs:139-151 | before `reloadStart + reloadTime`, or with no reload pending, nothing changes; afterwards the reload completes and the gun is `Ready` |
| `Weapon.Gun.ResumeReloadRoutine` | Assets/Scripts/Gun.cs:139-151 | reports whether the reload completed; the new state is `Resumed` of the old one; the invariant is kept |
| `Weapon.RunKeepsConsistent` | Assets/Scripts/Gun.cs:51-151 | every sequence of OnEnable, Fire, Reload and reload completions keeps `0 <= magAmmo <= magCapacity`, `ammoRemain >= 0`, `Ready ⇒ magAmmo >= 1`, `Empty ⇒ magAmmo == 0` |
| `Weapon.RunConservesAmmo` | Assets/Scripts/Gun.cs:59-151 | in a run without OnEnable, total ammo falls by exactly the number of shots fired |
| `Weapon.ReloadUninterruptible` | Assets/Scripts/Gun.cs:121-139 | while a reload waits, no Fire shoots and no Reload is accepted: the gun stays exactly as it is |
| `Weapon.RapidFireShootsOnce` | Assets/Scripts/Gun.cs:59-65 | two trigger pulls less than `timeBetFire` apart shoot at most once |
| `Weapon.SpacedFiresEmptyMagazine` | Assets/Scripts/Gun.cs:59-95 | as many pulls at the fire rate as rounds chambered shoot every time and leave the gun `Empty`, magazine 0, reserve unchanged |
| `Weapon.DrainThenReload` | Assets/Scripts/Gun.cs:59-151 | 25 rounds and 100 in reserve: 25 spaced shots give `Empty`, 0, 100; the reload is accepted and, after `reloadTime`, gives 25 and 75 |
| `HostileUnit.FirstLive` | Assets/Scripts/Enemy.cs:94-103 | the chosen candidate is the first, in query order, that has a LivingEntity which is not dead; none before it qualifies; none at all when it returns the length |
| `HostileUnit.Enemy.constructor` | Assets/Scripts/Enemy.cs:20-22 | a new enemy has the prefab's damage and attack interval, no target, every collider enabled, a running path finder |
| `HostileUnit.Enemy.Setup` | Assets/Scripts/Enemy.cs:51-60 | `startingHealth` and `health` both become `newHealth`, `damage` becomes `newDamage`, the path finder's speed `newSpeed` |
| `HostileUnit.Enemy.UpdatePathStep` | Assets/Scripts/Enemy.cs:26-108 | `hasTarget` (`HasTarget`) is true exactly when `targetEntity` is non-null and not dead; dead: the loop has ended and nothing changes; with `hasTarget`: resume and head for it, target unchanged; otherwise stop and take the first live candidate in query order, the target unchanged when none qualifies; after a tick of a live enemy, `hasTarget` holds exactly when it held before or some candidate was live |
| `HostileUnit.Enemy.OnTriggerStay` | Assets/Scripts/Enemy.cs:153-173 | an attack happens exactly when the enemy is not dead, `now >= lastAttackTime + timeBetAttack`, and the contacted LivingEntity is non-null and identical to `targetEntity`; it deals exactly `damage` to that target and no other; `lastAttackTime` becomes `now` only then |
| `HostileUnit.Enemy.Die` | Assets/Scripts/Enemy.cs:137-143 | every collider is disabled, the path finder is stopped and disabled |
| `WaveSpawner.Lerp` | Assets/Scripts/EnemySpawner.cs:68-70 | `min + (max - min)·t` for `t` in [0, 1], `min` below and `max` above, and always within [min, max] when `min <= max` |
| `WaveSpawner.LerpMonotone` | Assets/Scripts/EnemySpawner.cs:68-70 | a larger intensity never gives a smaller interpolated stat |
| `WaveSpawner.StatsAt` | Assets/Scripts/EnemySpawner.cs:68-70 | health, damage and speed, from one intensity, each lie within its range |
| `WaveSpawner.StatsMonotone` | Assets/Scripts/EnemySpawner.cs:68-70 | since all three stats use the same intensity, a stronger enemy is at least as strong in each |
| `WaveSpawner.SpawnCount` | Assets/Scripts/EnemySpawner.cs:53 | the count is `wave × 1.5` rounded to the nearest integer, a tie going to the even one |
| `WaveSpawner.SpawnCountsOfFirstWaves` | Assets/Scripts/EnemySpawner.cs:53 | waves 1 to 5 bring 2, 3, 4, 6 and 8 enemies |
| `WaveSpawner.SpawnCountGrows` | Assets/Scripts/EnemySpawner.cs:50-53 | every wave brings at least one enemy and more than the wave before |
| `WaveSpawner.IndexOf` | Assets/Scripts/EnemySpawner.cs:89 | the position of the first occurrence, with no occurrence before it |
| `WaveSpawner.RemoveFirst` | Assets/Scripts/EnemySpawner.cs:89 | `List.Remove` drops the first occurrence and keeps every other entry in order; without an occurrence the list is unchanged |
| `WaveSpawner.RemoveFirstFromDistinct` | Assets/Scripts/EnemySpawner.cs:83-89 | in a roster without repeats, removal takes out exactly the dead enemy, keeps every other one, shortens the roster by one and keeps it free of repeats |
| `WaveSpawner.EnemySpawner.constructor` | Assets/Scripts/EnemySpawner.cs:21-22 | an empty roster at wave 0 |
| `WaveSpawner.EnemySpawner.Update` | Assets/Scripts/EnemySpawner.cs:25-40 | game over: nothing changes and the display is not updated; roster non-empty: no wave; roster empty: the wave advances by one and the roster becomes exactly `SpawnCount(wave)` new enemies, each made from its draw; the display shows the wave and the roster size |
| `WaveSpawner.EnemySpawner.SpawnWave` | Assets/Scripts/EnemySpawner.cs:49-62 | `wave` goes up by exactly one and `SpawnCount(wave)` new enemies are appended after the old roster, the i-th made from the i-th draw |
| `WaveSpawner.EnemySpawner.CreateEnemy` | Assets/Scripts/EnemySpawner.cs:65-95 | exactly one new enemy is appended, with the interpolated stats of its intensity, the spawn point drawn, and the death subscribers remove, destroy after 10 s, add 100 score, in that order |
| `WaveSpawner.EnemySpawner.OnEnemyDeath` | Assets/Scripts/EnemySpawner.cs:89 | the roster becomes `RemoveFirst` of the old one: the dead enemy is gone, every other enemy stays, in order |

## Left out

- Weapon.Gun.constructor: requires `magCapacity >= 1` and a non-negative reserve; the invariant needs them (with a capacity of 0 the first shot would leave `magAmmo` at -1).
- Floating point: times, damage, health and speed are reals, so `Time.time` rounding and float `Lerp` error are not modelled; `wave * 1.5f` is exact for the wave numbers reachable in play.
- 32-bit integers: `magAmmo`, `ammoRemain` and `wave` are unbounded; their values stay far from overflow.
- `Gun.ShotEffect`, the muzzle and shell particles, audio and the line renderer; the raycast geometry (`fireDistance`, hit point and normal) is reduced to the `Ray` input.
- `Gun.Awake` (component look-ups) and the reload sound.
- The model assumes that the gun is disabled and re-enabled by deactivating and reactivating its GameObject, which stops its coroutines: `OnEnable` leaves the gun `Ready`, so a pending `ReloadRoutine` no longer completes (`Resumed` requires `Reloading`). How the gun gets disabled is not part of this model; the owning component is not among the modelled files.
- Disabling only the `Gun` component (`enabled = false`) is not modelled: Unity keeps that component's coroutines running, so a `ReloadRoutine` pending at the time would still complete after `OnEnable`, loading ammunition and setting `Ready` over whatever state the gun has by then, and a `Reload` accepted in between would start a second routine alongside it.
- `Enemy.Awake`, `Start` (starting the coroutine), `Update` (the animator's `HasTarget` flag), `OnDamage` (hit effect and sound), the skin colour in `Setup`, and the death animation and sound in `Die`.
- `NavMeshAgent.SetDestination` is the returned `Chase` command; the 0.25 s wait between iterations is the caller's schedule.
- `LivingEntity` itself is not part of this model: its `OnDamage` arithmetic, `RestoreHealth`, the `dead` transition in `base.Die`, and the raising of `onDeath` exactly once in subscription order. The model records the subscribers and their order, and models the roster-removal subscriber (`OnEnemyDeath`); `Destroy` and `AddScore` are only recorded.
- `Random.Range`, `Instantiate`, `Destroy`, `Color.Lerp`, the `GameManager` and `UIManager` singletons: replaced by caller-supplied draws, `new Enemy`, recorded subscribers, the `gameOver` parameter and the returned `WaveText`.
- WaveSpawner.EnemySpawner.constructor: requires at least one spawn point (and `Valid` keeps it). With an empty `spawnPoints` array the source's `SpawnWave` runs `wave++` (EnemySpawner.cs:50) and then fails at `spawnPoints[Random.Range(0, 0)]` (EnemySpawner.cs:75) before any enemy is added or the display updated, so each frame raises the wave by one with the roster still empty. That error path (an exception in every frame) is not modelled: the model has no notion of an aborted frame.
- WaveSpawner.EnemySpawner.Update: requires that the caller supply enough draws, each naming an existing spawn point, which is what `Random.Range(0, spawnPoints.Length)` guarantees when there is at least one spawn point.
- `PlayerMovement` (input-driven rigidbody motion) and `PlayerHealth` (UI slider, audio, animator around `LivingEntity`).
