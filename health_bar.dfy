/**
 * The player's health (`HealthBar`): a value kept in [0, maxHealth] by
 * clamping after every change, a fill value mirroring it, and a shield
 * object whose being active makes every hit a no-op.
 */
module PlayerHealth {
  import opened Engine

  /** Health after one `TakeDamage(damage)`. */
  function AfterDamage(health: real, max: real, damage: real, shielded: bool): (r: real)
    requires 0.0 <= health <= max
    ensures 0.0 <= r <= max
    ensures shielded ==> r == health
    ensures !shielded && 0.0 <= damage <= health ==> r == health - damage
    ensures !shielded && damage >= health ==> r == 0.0
    ensures !shielded && damage <= 0.0 ==> r >= health
  {
    if shielded then health else Clamp(health - damage, 0.0, max)
  }

  /** Health after one `Heal(amount)`. */
  function AfterHeal(health: real, max: real, amount: real): (r: real)
    requires 0.0 <= health <= max
    ensures 0.0 <= r <= max
    ensures 0.0 <= amount <= max - health ==> r == health + amount
    ensures amount >= max - health ==> r == max
    ensures amount >= 0.0 ==> r >= health
  {
    Clamp(health + amount, 0.0, max)
  }

  /** Health after `n` successive hits of `damage` each. */
  function AfterHits(health: real, max: real, damage: real, shielded: bool, n: nat): (r: real)
    requires 0.0 <= health <= max
    ensures 0.0 <= r <= max
    decreases n
  {
    if n == 0 then health else AfterHits(AfterDamage(health, max, damage, shielded), max, damage, shielded, n - 1)
  }

  /** The damage `n` hits of `damage` each add up to. */
  function TotalDamage(damage: real, n: nat): (r: real)
    ensures damage >= 0.0 ==> r >= 0.0
    decreases n
  {
    if n == 0 then 0.0 else damage + TotalDamage(damage, n - 1)
  }

  /** The total of `n` equal hits is `n` times one hit. */
  lemma {:induction false} TotalDamageIsProduct(damage: real, n: nat)
    ensures TotalDamage(damage, n) == (n as real) * damage
    decreases n
  {
    if n > 0 {
      TotalDamageIsProduct(damage, n - 1);
      assert (n as real) * damage == ((n - 1) as real) * damage + damage;
    }
  }

  /** `n` unshielded hits of a non-negative `damage` take `n * damage` off, stopping at 0. */
  lemma {:induction false} RepeatedHits(health: real, max: real, damage: real, n: nat)
    requires 0.0 <= health <= max && damage >= 0.0
    ensures AfterHits(health, max, damage, false, n) == Clamp(health - TotalDamage(damage, n), 0.0, max)
    decreases n
  {
    if n > 0 {
      var next := AfterDamage(health, max, damage, false);
      RepeatedHits(next, max, damage, n - 1);
      var rest := TotalDamage(damage, n - 1);
      assert TotalDamage(damage, n) == damage + rest;
      if health - damage < 0.0 {
        assert next == 0.0;
        assert Clamp(next - rest, 0.0, max) == 0.0;
      } else {
        assert next == health - damage;
      }
    }
  }

  /** While the shield stays up, no number of hits changes health. */
  lemma {:induction false} ShieldedHitsChangeNothing(health: real, max: real, damage: real, n: nat)
    requires 0.0 <= health <= max
    ensures AfterHits(health, max, damage, true, n) == health
    decreases n
  {
    if n > 0 {
      ShieldedHitsChangeNothing(health, max, damage, n - 1);
    }
  }

  /** Healing exactly what an unshielded hit took off restores health, when the hit did not bottom out. */
  lemma HealUndoesDamage(health: real, max: real, damage: real)
    requires 0.0 <= damage <= health <= max
    ensures AfterHeal(AfterDamage(health, max, damage, false), max, damage) == health
  {
  }

  /** Healing at full health is a no-op, and so is a hit while shielded. */
  lemma NoOpCases(max: real, amount: real, damage: real)
    requires 0.0 <= max && amount >= 0.0
    ensures AfterHeal(max, max, amount) == max
    ensures AfterDamage(max, max, damage, true) == max
  {
  }

  /** The test object's 1000-damage hit on a fresh 100-health bar leaves exactly 0. */
  lemma HealthTestVector()
    ensures AfterDamage(100.0, 100.0, 1000.0, false) == 0.0
  {
  }

  /** The player's health bar. */
  class HealthBar {
    const maxHealth: real
    var currentHealth: real
    /** The `fillAmount` of the health bar image. */
    var fill: real
    /** The shield `Blocking` switches on while blocking; null when none is assigned. */
    const shieldObject: GameObject?

    ghost predicate Valid()
      reads this
    {
      0.0 < maxHealth &&
      0.0 <= currentHealth <= maxHealth &&
      fill == currentHealth / maxHealth
    }

    /** Whether the shield object is assigned and active, the condition under which hits are ignored. */
    predicate Shielded()
      reads this, shieldObject
    {
      shieldObject != null && shieldObject.activeSelf
    }

    /** `Start`: full health and a full bar. */
    constructor (maxHealth: real, shieldObject: GameObject?)
      requires 0.0 < maxHealth
      ensures Valid()
      ensures this.maxHealth == maxHealth && this.shieldObject == shieldObject
      ensures currentHealth == maxHealth && fill == 1.0
    {
      this.maxHealth := maxHealth;
      this.shieldObject := shieldObject;
      currentHealth := maxHealth;
      fill := 1.0;
    }

    /** The bar's fill: the fraction of health left, always in [0, 1]. */
    function Fill(): (f: real)
      reads this
      requires Valid()
      ensures 0.0 <= f <= 1.0
      ensures f * maxHealth == currentHealth
    {
      fill
    }

    /** `TakeDamage`: ignored under an active shield, otherwise subtracted and clamped to [0, maxHealth]. */
    method TakeDamage(damage: real)
      requires Valid()
      modifies this
      ensures Valid()
      ensures currentHealth == AfterDamage(old(currentHealth), maxHealth, damage, Shielded())
      ensures Shielded() ==> fill == old(fill)
    {
      if shieldObject == null || !shieldObject.activeSelf {
        currentHealth := currentHealth - damage;
        currentHealth := Clamp(currentHealth, 0.0, maxHealth);
        UpdateHealthBar();
      }
    }

    /** `Heal`: added and clamped to [0, maxHealth], whatever the shield. */
    method Heal(amount: real)
      requires Valid()
      modifies this
      ensures Valid()
      ensures currentHealth == AfterHeal(old(currentHealth), maxHealth, amount)
    {
      currentHealth := currentHealth + amount;
      currentHealth := Clamp(currentHealth, 0.0, maxHealth);
      UpdateHealthBar();
    }

    /** `UpdateHealthBar`: the fill follows the health. */
    method UpdateHealthBar()
      requires 0.0 < maxHealth
      modifies this`fill
      ensures fill == currentHealth / maxHealth
    {
      fill := currentHealth / maxHealth;
    }
  }

  /** `HealthTest.OnCollisionEnter`: a player carrying a health bar takes the test object's damage. */
  method HealthTestCollision(tag: string, bar: HealthBar?, damageAmount: real)
    requires bar != null ==> bar.Valid()
    modifies bar
    ensures bar != null ==> bar.Valid()
    ensures bar != null && tag == PlayerTag ==>
      bar.currentHealth == AfterDamage(old(bar.currentHealth), bar.maxHealth, damageAmount, bar.Shielded())
    ensures bar != null && tag != PlayerTag ==> bar.currentHealth == old(bar.currentHealth)
  {
    if tag == PlayerTag && bar != null {
      bar.TakeDamage(damageAmount);
    }
  }
}
