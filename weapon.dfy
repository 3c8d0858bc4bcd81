/**
 * The player's melee weapon (`Weapon`): a trigger that forwards its damage
 * to an `Enemy`-tagged collider's `EnemyBehavior` and, when that leaves the
 * enemy at or below 0 health, disables the enemy's capsule collider.
 */
module Weapons {
  import opened Engine
  import Enemies

  class Weapon {
    const damage: real

    constructor (damage: real)
      ensures this.damage == damage
    {
      this.damage := damage;
    }

    /**
     * `OnTriggerEnter` for a collider with `tag`, whose game object carries
     * `enemy` and `capsule` (each null when that component is missing). The
     * health check reads the value `TakeDamage` has just written, since the
     * subtraction runs before the damage coroutine first yields.
     */
    method OnTriggerEnter(tag: string, enemy: Enemies.EnemyBehavior?, capsule: CapsuleCollider?)
      requires enemy != null ==> enemy.Valid()
      modifies enemy, capsule
      ensures enemy != null ==> enemy.Valid()
      ensures tag != EnemyTag || enemy == null ==>
        (enemy != null ==> unchanged(enemy)) && (capsule != null ==> unchanged(capsule))
      ensures tag == EnemyTag && enemy != null && old(enemy.canTakeDamage) ==>
        enemy.health == old(enemy.health) - damage && !enemy.canTakeDamage &&
        enemy.immunityLeft == Enemies.DamageCooldownTime &&
        enemy.deathPending == (enemy.health <= 0.0) &&
        (enemy.deathPending ==> enemy.deathIn == Enemies.DeathDelay)
      ensures tag == EnemyTag && enemy != null ==>
        enemy.canSeePlayer == old(enemy.canSeePlayer) && enemy.playerInAttackRange == old(enemy.playerInAttackRange) &&
        enemy.tracker == old(enemy.tracker) && enemy.attentionLevel == old(enemy.attentionLevel) &&
        enemy.fullyDetected == old(enemy.fullyDetected) &&
        enemy.alreadyAttacked == old(enemy.alreadyAttacked) && enemy.resetAttackIn == old(enemy.resetAttackIn) &&
        enemy.deaths == old(enemy.deaths)
      ensures tag == EnemyTag && enemy != null && !old(enemy.canTakeDamage) ==> unchanged(enemy)
      ensures tag == EnemyTag && enemy != null && capsule != null ==>
        capsule.enabled == (old(capsule.enabled) && enemy.health > 0.0)
    {
      if tag == EnemyTag {
        if enemy != null {
          enemy.TakeDamage(damage);
          if enemy.health <= 0.0 {
            if capsule != null {
              capsule.enabled := false;
            }
          }
        }
      }
    }
  }
}
