/**
 * The boss's three abilities (`BossAbility`). Each one is started by an
 * animation event, waits a pre-hit delay (doubled while Sandy is active when
 * the event fires), then applies its damage to the player's health bar
 * according to a physics query that the model takes as an input: the tag of
 * the collider a ray hit (Red, Purple) or the tags of every collider in an
 * overlap sphere (Blue). Sandy also slows the Red and Purple particle
 * systems.
 */
module BossAbilities {
  import opened Engine
  import opened TimeDilation
  import opened PlayerHealth

  /** The `simulationSpeed` a particle system is given for a Sandy state. */
  function ParticleSpeed(active: bool): real
  {
    if active then 0.5 else 1.0
  }

  /**
   * `AdjustParticleSpeed` on an optional particle system, given by its
   * simulation speed (`None` when no system is assigned).
   */
  function Adjusted(particles: Option<real>, active: bool): (r: Option<real>)
    ensures r.None? <==> particles.None?
    ensures r.Some? ==> r.value == ParticleSpeed(active)
  {
    match particles
    case None => None
    case Some(_) => Some(ParticleSpeed(active))
  }

  /** Adjusting twice for the same state is the same as adjusting once. */
  lemma AdjustedIdempotent(particles: Option<real>, active: bool)
    ensures Adjusted(Adjusted(particles, active), active) == Adjusted(particles, active)
  {
  }

  /** How many of the overlap's colliders are tagged Player. */
  function PlayerHits(tags: seq<string>): (n: nat)
    ensures n <= |tags|
    decreases |tags|
  {
    if tags == [] then 0
    else PlayerHits(tags[..|tags| - 1]) + (if tags[|tags| - 1] == PlayerTag then 1 else 0)
  }

  /** No Player-tagged collider means no hit at all, and a Player-tagged one means at least one. */
  lemma {:induction false} PlayerHitsZero(tags: seq<string>)
    ensures PlayerHits(tags) == 0 <==> forall i :: 0 <= i < |tags| ==> tags[i] != PlayerTag
    decreases |tags|
  {
    if tags != [] {
      var front := tags[..|tags| - 1];
      PlayerHitsZero(front);
      assert forall i :: 0 <= i < |front| ==> front[i] == tags[i];
    }
  }

  /** One more hit after `n` hits. */
  lemma {:induction false} AfterHitsSnoc(health: real, max: real, damage: real, shielded: bool, n: nat)
    requires 0.0 <= health <= max
    ensures AfterHits(health, max, damage, shielded, n + 1)
         == AfterDamage(AfterHits(health, max, damage, shielded, n), max, damage, shielded)
    decreases n
  {
    if n > 0 {
      AfterHitsSnoc(AfterDamage(health, max, damage, shielded), max, damage, shielded, n - 1);
    }
  }

  class BossAbility {
    const redAbilityDamage: int
    const blueAbilityDamage: int
    const purpleAbilityDamage: int
    const redAbilityDelay: real
    const blueAbilityDelay: real
    const purpleAbilityDelay: real
    /** The player's health bar, found at `Start`; null when the player or its bar was missing. */
    const playerHealthBar: HealthBar?
    var isSandyActive: bool
    /** The `simulationSpeed` of the Red and Purple particle systems, `None` when unassigned. */
    var redParticleSpeed: Option<real>
    var purpleParticleSpeed: Option<real>

    /** `Start`, with the inspector defaults for damage and delays. */
    constructor (playerHealthBar: HealthBar?, redParticles: Option<real>, purpleParticles: Option<real>)
      ensures this.playerHealthBar == playerHealthBar
      ensures redAbilityDamage == 10 && blueAbilityDamage == 15 && purpleAbilityDamage == 20
      ensures redAbilityDelay == 0.5 && blueAbilityDelay == 0.5 && purpleAbilityDelay == 0.5
      ensures !isSandyActive
      ensures redParticleSpeed == redParticles && purpleParticleSpeed == purpleParticles
    {
      this.playerHealthBar := playerHealthBar;
      redAbilityDamage, blueAbilityDamage, purpleAbilityDamage := 10, 15, 20;
      redAbilityDelay, blueAbilityDelay, purpleAbilityDelay := 0.5, 0.5, 0.5;
      isSandyActive := false;
      redParticleSpeed, purpleParticleSpeed := redParticles, purpleParticles;
    }

    /** The wait `PerformRedAbility` starts with, read when the animation event fires. */
    function RedDelay(): real
      reads this
    {
      Scaled(redAbilityDelay, isSandyActive)
    }

    /** The wait `PerformBlueAbility` starts with. */
    function BlueDelay(): real
      reads this
    {
      Scaled(blueAbilityDelay, isSandyActive)
    }

    /** The wait `PerformPurpleAbility` starts with. */
    function PurpleDelay(): real
      reads this
    {
      Scaled(purpleAbilityDelay, isSandyActive)
    }

    /** `SetSandyState`: assign the flag, then adjust both particle systems to it. */
    method SetSandyState(isActive: bool)
      modifies this
      ensures isSandyActive == isActive
      ensures redParticleSpeed == Adjusted(old(redParticleSpeed), isActive)
      ensures purpleParticleSpeed == Adjusted(old(purpleParticleSpeed), isActive)
    {
      isSandyActive := isActive;
      redParticleSpeed := Adjusted(redParticleSpeed, isSandyActive);
      purpleParticleSpeed := Adjusted(purpleParticleSpeed, isSandyActive);
    }

    /**
     * The end of `PerformRedAbility`, once its delay is over: `hit` is the tag
     * of the collider the ray struck, if any. The player loses Red's damage
     * once when that collider is the player and the bar is known.
     */
    method PerformRedHit(hit: Option<string>)
      requires playerHealthBar != null ==> playerHealthBar.Valid()
      modifies playerHealthBar
      ensures playerHealthBar != null ==> playerHealthBar.Valid()
      ensures playerHealthBar != null ==>
        playerHealthBar.currentHealth ==
          if hit == Some(PlayerTag)
          then AfterDamage(old(playerHealthBar.currentHealth), playerHealthBar.maxHealth,
                           redAbilityDamage as real, playerHealthBar.Shielded())
          else old(playerHealthBar.currentHealth)
    {
      if hit.Some? {
        if hit.value == PlayerTag && playerHealthBar != null {
          playerHealthBar.TakeDamage(redAbilityDamage as real);
        }
      }
    }

    /**
     * The end of `PerformBlueAbility`: `hits` are the tags of the colliders in
     * the overlap sphere, in the order returned. Every Player-tagged one costs
     * the player Blue's damage.
     */
    method PerformBlueHits(hits: seq<string>)
      requires playerHealthBar != null ==> playerHealthBar.Valid()
      modifies playerHealthBar
      ensures playerHealthBar != null ==> playerHealthBar.Valid()
      ensures playerHealthBar != null ==>
        playerHealthBar.currentHealth ==
          AfterHits(old(playerHealthBar.currentHealth), playerHealthBar.maxHealth,
                    blueAbilityDamage as real, playerHealthBar.Shielded(), PlayerHits(hits))
    {
      for i := 0 to |hits|
        invariant playerHealthBar != null ==> playerHealthBar.Valid()
        invariant playerHealthBar != null ==>
          playerHealthBar.currentHealth ==
            AfterHits(old(playerHealthBar.currentHealth), playerHealthBar.maxHealth,
                      blueAbilityDamage as real, playerHealthBar.Shielded(), PlayerHits(hits[..i]))
      {
        assert hits[..i + 1][..i] == hits[..i];
        if hits[i] == PlayerTag && playerHealthBar != null {
          AfterHitsSnoc(old(playerHealthBar.currentHealth), playerHealthBar.maxHealth,
                        blueAbilityDamage as real, playerHealthBar.Shielded(), PlayerHits(hits[..i]));
          playerHealthBar.TakeDamage(blueAbilityDamage as real);
        }
      }
      assert hits[..|hits|] == hits;
    }

    /** The end of `PerformPurpleAbility`: as Red, with Purple's damage. */
    method PerformPurpleHit(hit: Option<string>)
      requires playerHealthBar != null ==> playerHealthBar.Valid()
      modifies playerHealthBar
      ensures playerHealthBar != null ==> playerHealthBar.Valid()
      ensures playerHealthBar != null ==>
        playerHealthBar.currentHealth ==
          if hit == Some(PlayerTag)
          then AfterDamage(old(playerHealthBar.currentHealth), playerHealthBar.maxHealth,
                           purpleAbilityDamage as real, playerHealthBar.Shielded())
          else old(playerHealthBar.currentHealth)
    {
      if hit.Some? {
        if hit.value == PlayerTag && playerHealthBar != null {
          playerHealthBar.TakeDamage(purpleAbilityDamage as real);
        }
      }
    }
  }

  /** Under Sandy every ability's pre-hit delay is exactly twice its delay without. */
  lemma DelaysDoubleUnderSandy(a: BossAbility)
    ensures !a.isSandyActive ==> a.RedDelay() == a.redAbilityDelay && a.BlueDelay() == a.blueAbilityDelay
                                 && a.PurpleDelay() == a.purpleAbilityDelay
    ensures a.isSandyActive ==> a.RedDelay() == 2.0 * a.redAbilityDelay && a.BlueDelay() == 2.0 * a.blueAbilityDelay
                                && a.PurpleDelay() == 2.0 * a.purpleAbilityDelay
  {
  }
}
