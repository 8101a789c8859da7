/** The collaborators shared by the gun, the enemy and the spawner: the
    LivingEntity base class (health, dead flag, death-event subscribers)
    and the damage a component hands to it. Only the state these three
    components read or write is modelled; LivingEntity's own behaviour
    (OnDamage arithmetic, the dead transition, raising onDeath) is not. */
module Living {

  datatype Option<T> = None | Some(value: T)

  /** The callbacks this project subscribes to a LivingEntity's onDeath
      event, in the order they are subscribed. */
  datatype DeathHandler =
    | RemoveFromRoster          // the spawner drops the enemy from its list
    | DestroyAfter(delay: real) // the engine destroys the game object later
    | AddScore(points: int)     // the game manager adds to the score

  /** A living entity: the player or an enemy. The same object stands for
      the IDamageable a gun's ray can strike. */
  class LivingEntity {
    var startingHealth: real
    var health: real
    var dead: bool
    var onDeath: seq<DeathHandler>

    constructor (startingHealth: real)
      ensures this.startingHealth == startingHealth && health == startingHealth
      ensures !dead && onDeath == []
    {
      this.startingHealth := startingHealth;
      health := startingHealth;
      dead := false;
      onDeath := [];
    }
  }

  /** One call of OnDamage(amount, ...) on target; the hit point and the
      normal are presentation data and are not kept. */
  datatype Hit = Hit(target: LivingEntity, amount: real)
}
