/** An enemy: its periodic re-targeting, its attack on contact, its setup
    by the spawner and the components its death switches off.

    The enemy is a LivingEntity in the source; here it holds one (`living`)
    rather than inheriting from it. Targets are compared by reference, as
    in the source. The NavMeshAgent is reduced to its speed, its isStopped
    and enabled flags, and the destination command one targeting tick
    issues. The overlap query of a tick is the parameter `found`: for each
    collider it returned, in its order, that collider's LivingEntity
    component or null. */
module HostileUnit {
  import opened Living

  /** What one iteration of the UpdatePath loop does with the path finder. */
  datatype PathCommand =
    | LoopEnded                    // the enemy is dead: `while (!dead)` has exited
    | Chase(target: LivingEntity)  // resume and head for the target
    | Hold                         // stopped, having searched for a target

  /** The position of the first candidate that is a LivingEntity and not
      dead, or |cs| when there is none. */
  function FirstLive(cs: seq<LivingEntity?>): (i: nat)
    reads set c: LivingEntity | c in cs
    ensures i <= |cs|
    ensures i < |cs| ==> cs[i] != null && !cs[i].dead
    ensures forall j :: 0 <= j < i ==> cs[j] == null || cs[j].dead
    decreases |cs|
  {
    if cs == [] then 0
    else if cs[0] != null && !cs[0].dead then 0
    else 1 + FirstLive(cs[1..])
  }

  class Enemy {
    /** The LivingEntity part of this enemy: health and the dead flag. */
    const living: LivingEntity
    const timeBetAttack: real
    /** The enabled flag of each Collider component of the enemy. */
    const colliders: array<bool>
    /** The spawn point the enemy was instantiated at. */
    const spawnPoint: nat
    var damage: real
    var speed: real             // pathFinder.speed
    var isStopped: bool         // pathFinder.isStopped
    var pathFinderEnabled: bool // pathFinder.enabled
    var targetEntity: LivingEntity?
    var lastAttackTime: real

    /** Instantiation from the prefab. */
    constructor (startingHealth: real, damage: real, timeBetAttack: real, colliderCount: nat, spawnPoint: nat)
      ensures fresh(living) && fresh(colliders)
      ensures living.startingHealth == startingHealth && living.health == startingHealth
      ensures !living.dead && living.onDeath == []
      ensures this.damage == damage && this.timeBetAttack == timeBetAttack && this.spawnPoint == spawnPoint
      ensures colliders.Length == colliderCount && forall i :: 0 <= i < colliderCount ==> colliders[i]
      ensures !isStopped && pathFinderEnabled && targetEntity == null && lastAttackTime == 0.0
    {
      living := new LivingEntity(startingHealth);
      colliders := new bool[colliderCount](_ => true);
      this.damage := damage;
      this.timeBetAttack := timeBetAttack;
      this.spawnPoint := spawnPoint;
      speed := 0.0;
      isStopped := false;
      pathFinderEnabled := true;
      targetEntity := null;
      lastAttackTime := 0.0;
    }

    /** hasTarget: a target is tracked and it is not dead. */
    predicate HasTarget()
      reads this, targetEntity
    {
      targetEntity != null && !targetEntity.dead
    }

    /** Setup: the stats the spawner chose (the skin colour is not kept). */
    method Setup(newHealth: real, newDamage: real, newSpeed: real)
      modifies living, this`damage, this`speed
      ensures living.startingHealth == newHealth && living.health == newHealth
      ensures damage == newDamage && speed == newSpeed
      ensures living.dead == old(living.dead) && living.onDeath == old(living.onDeath)
    {
      living.startingHealth := newHealth;
      living.health := newHealth;
      damage := newDamage;
      speed := newSpeed;
    }

    /** One iteration of the UpdatePath coroutine, run every 0.25 s. */
    method UpdatePathStep(found: seq<LivingEntity?>) returns (cmd: PathCommand)
      modifies this`isStopped, this`targetEntity
      ensures living.dead ==>
        cmd == LoopEnded && isStopped == old(isStopped) && targetEntity == old(targetEntity)
      ensures !living.dead && old(HasTarget()) ==>
        cmd == Chase(old(targetEntity)) && !isStopped && targetEntity == old(targetEntity)
      ensures !living.dead && !old(HasTarget()) ==>
        && cmd == Hold && isStopped
        && targetEntity == (var i := FirstLive(found); if i < |found| then found[i] else old(targetEntity))
      ensures !living.dead ==> (HasTarget() <==> old(HasTarget()) || FirstLive(found) < |found|)
    {
      if living.dead {
        return LoopEnded;
      }
      if targetEntity != null && !targetEntity.dead {
        isStopped := false;
        return Chase(targetEntity);
      }
      isStopped := true;
      var i := 0;
      while i < |found|
        invariant 0 <= i <= |found|
        invariant forall j :: 0 <= j < i ==> found[j] == null || found[j].dead
        invariant targetEntity == old(targetEntity)
      {
        var livingEntity := found[i];
        if livingEntity != null && !livingEntity.dead {
          targetEntity := livingEntity;
          break;
        }
        i := i + 1;
      }
      cmd := Hold;
    }

    /** OnTriggerStay: `other` is the LivingEntity component (or null) of
        the collider in contact. Returns the damage dealt, if any. */
    method OnTriggerStay(now: real, other: LivingEntity?) returns (attack: Option<Hit>)
      modifies this`lastAttackTime
      ensures attack.Some? <==>
        !living.dead && now >= old(lastAttackTime) + timeBetAttack && other != null && other == targetEntity
      ensures attack.Some? ==> attack.value.target == targetEntity && attack.value.amount == damage
      ensures lastAttackTime == if attack.Some? then now else old(lastAttackTime)
    {
      attack := None;
      if !living.dead && now >= lastAttackTime + timeBetAttack {
        var attackTarget := other;
        if attackTarget != null && attackTarget == targetEntity {
          lastAttackTime := now;
          attack := Some(Hit(attackTarget, damage));
        }
      }
    }

    /** The enemy's own part of Die: every collider off, the path finder
        stopped and disabled. */
    method Die()
      modifies colliders, this`isStopped, this`pathFinderEnabled
      ensures forall i :: 0 <= i < colliders.Length ==> !colliders[i]
      ensures isStopped && !pathFinderEnabled
    {
      var i := 0;
      while i < colliders.Length
        invariant 0 <= i <= colliders.Length
        invariant forall j :: 0 <= j < i ==> !colliders[j]
      {
        colliders[i] := false;
        i := i + 1;
      }
      isStopped := true;
      pathFinderEnabled := false;
    }
  }

  /** A client: with nothing in range a new enemy stays targetless tick
      after tick; on the first tick after a live entity is in range, that
      entity becomes its target. */
  method TargetAcquiredOnceInRange(player: LivingEntity)
    requires !player.dead
  {
    var enemy := new Enemy(100.0, 20.0, 0.5, 2, 0);
    var k := 0;
    while k < 10
      invariant fresh(enemy) && fresh(enemy.living)
      invariant enemy.targetEntity == null && !enemy.living.dead
    {
      var cmd := enemy.UpdatePathStep([]);
      assert cmd == Hold;
      k := k + 1;
    }
    var cmd := enemy.UpdatePathStep([null, player]);
    assert cmd == Hold && enemy.targetEntity == player;
    cmd := enemy.UpdatePathStep([]);
    assert cmd == Chase(player);
  }
}
