/**
 * The boss's health bar (`BossHealthbar`): its own copy of the boss's
 * health, clamped to [0, maxHealth] after every hit, with no shield and no
 * gate, and a fill value mirroring it.
 */
module BossHealth {
  import opened Engine

  /** The bar's health after one `TakeDamage(damage)`. */
  function BarAfterHit(health: real, max: real, damage: real): (r: real)
    requires 0.0 <= health <= max
    ensures 0.0 <= r <= max
    ensures 0.0 <= damage <= health ==> r == health - damage
    ensures damage >= health ==> r == 0.0
  {
    Clamp(health - damage, 0.0, max)
  }

  /** An empty bar stays empty under any non-negative damage. */
  lemma EmptyStaysEmpty(max: real, damage: real)
    requires 0.0 <= max && damage >= 0.0
    ensures BarAfterHit(0.0, max, damage) == 0.0
  {
  }

  class BossHealthbar {
    const maxHealth: real
    var currentHealth: real
    /** The `fillAmount` of the bar image. */
    var fill: real

    ghost predicate Valid()
      reads this
    {
      0.0 < maxHealth &&
      0.0 <= currentHealth <= maxHealth &&
      fill == currentHealth / maxHealth
    }

    /** `Start`: a full bar. */
    constructor (maxHealth: real)
      requires 0.0 < maxHealth
      ensures Valid()
      ensures this.maxHealth == maxHealth && currentHealth == maxHealth && fill == 1.0
    {
      this.maxHealth := maxHealth;
      currentHealth := maxHealth;
      fill := 1.0;
    }

    /** The bar's fill: the fraction of health left, always in [0, 1]. */
    function Fill(): (f: real)
      reads this
      requires Valid()
      ensures 0.0 <= f <= 1.0
      ensures f * maxHealth == currentHealth
    {
      fill
    }

    /** `TakeDamage`: subtract and clamp to [0, maxHealth]. */
    method TakeDamage(damage: real)
      requires Valid()
      modifies this
      ensures Valid()
      ensures currentHealth == BarAfterHit(old(currentHealth), maxHealth, damage)
    {
      currentHealth := currentHealth - damage;
      currentHealth := Clamp(currentHealth, 0.0, maxHealth);
      fill := currentHealth / maxHealth;
    }
  }
}
