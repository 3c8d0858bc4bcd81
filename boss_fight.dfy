/**
 * The boss encounter (`BossFight`). One coroutine, `StateMachine`, senses
 * two ranges, and either chases for a frame, idles for a frame, or runs the
 * attack sequence: Red, Blue and Purple attacks (each a windup and a
 * cooldown), then a recharge, with attack-range checks after Red, after Blue
 * and after the recharge, and none between Purple and the recharge. The
 * sequence re-enters itself after a recharge while the target is in range;
 * since every nested copy ends as soon as the innermost one does, the model
 * treats the re-entry as a jump back to Red.
 *
 * The coroutine is modelled by where it is suspended and how long it still
 * waits there; `Tick` advances the clock and resumes it when the wait is
 * over. The physics range checks become the `Senses` of the frame in which
 * the coroutine resumes (all checks in one frame give the same answer).
 */
module Boss {
  import opened Engine
  import opened TimeDilation
  import BossHealth
  import BossAbilities

  /** Where the coroutine is suspended. */
  datatype Suspension =
    | Chasing          // `Chase` yielded for one frame
    | Idling           // the outer loop yielded for one frame
    | RedWindup | RedCooldown
    | BlueWindup | BlueCooldown
    | PurpleWindup | PurpleCooldown
    | Recharging

  /** The two `CheckSphere` results of one frame: sight range and attack range. */
  datatype Senses = Senses(inSight: bool, inAttack: bool)

  /** The inspector-configured waits of the attack sequence. */
  datatype Timings = Timings(redAttackCooldown: real, blueAttackCooldown: real,
                             purpleAttackCooldown: real, rechargeTime: real)

  /** The inspector defaults: 2 s, 1 s and 1 s cooldowns and a 5 s recharge. */
  const DefaultTimings: Timings := Timings(2.0, 1.0, 1.0, 5.0)

  /** The windups written into the attack sequence. */
  const RedWindupTime: real := 1.5
  const BlueWindupTime: real := 1.0
  const PurpleWindupTime: real := 1.0

  /** What one resumption leads to: the next suspension, its wait, and the `Run` animator flag. */
  datatype Step = Step(at: Suspension, wait: real, run: bool)

  /** One pass of the outer loop's body, up to its next yield. */
  function Sense(s: Senses, sandy: bool): Step
  {
    if s.inSight && !s.inAttack then Step(Chasing, 0.0, true)
    else if s.inAttack && s.inSight then Step(RedWindup, Scaled(RedWindupTime, sandy), false)
    else Step(Idling, 0.0, false)
  }

  /**
   * The code that runs when the coroutine resumes at `at`, up to its next
   * yield. Every wait is read with the Sandy state of that moment.
   */
  function Resume(at: Suspension, t: Timings, sandy: bool, s: Senses, run: bool): Step
  {
    match at
    case Chasing => Sense(s, sandy)
    case Idling => Sense(s, sandy)
    case RedWindup => Step(RedCooldown, Scaled(t.redAttackCooldown, sandy), run)
    case RedCooldown =>
      if !s.inAttack then Sense(s, sandy) else Step(BlueWindup, Scaled(BlueWindupTime, sandy), run)
    case BlueWindup => Step(BlueCooldown, Scaled(t.blueAttackCooldown, sandy), run)
    case BlueCooldown =>
      if !s.inAttack then Sense(s, sandy) else Step(PurpleWindup, Scaled(PurpleWindupTime, sandy), run)
    case PurpleWindup => Step(PurpleCooldown, Scaled(t.purpleAttackCooldown, sandy), run)
    case PurpleCooldown => Step(Recharging, Scaled(t.rechargeTime, sandy), run)
    case Recharging =>
      if s.inAttack then Step(RedWindup, Scaled(RedWindupTime, sandy), false) else Sense(s, sandy)
  }

  /**
   * The outer loop chases exactly when the target is in sight range but not
   * attack range, attacks exactly when it is in both, and otherwise (that is,
   * whenever it is out of sight range) idles with `Run` off.
   */
  lemma OuterLoopChoice(s: Senses, sandy: bool)
    ensures Sense(s, sandy).at == Chasing <==> s.inSight && !s.inAttack
    ensures Sense(s, sandy).at == RedWindup <==> s.inSight && s.inAttack
    ensures Sense(s, sandy).at == Idling <==> !s.inSight
    ensures Sense(s, sandy).run <==> Sense(s, sandy).at == Chasing
  {
  }

  /** The order the attack sequence is written in, as a relation between consecutive suspensions. */
  predicate Allowed(a: Suspension, b: Suspension)
  {
    (b == RedCooldown <==> a == RedWindup) &&
    (b == BlueWindup ==> a == RedCooldown) &&
    (b == BlueCooldown <==> a == BlueWindup) &&
    (b == PurpleWindup ==> a == BlueCooldown) &&
    (b == PurpleCooldown <==> a == PurpleWindup) &&
    (b == Recharging <==> a == PurpleCooldown) &&
    (b == RedWindup ==> a == Chasing || a == Idling || a == Recharging)
  }

  /** Every resumption moves along the written order; Purple's cooldown always leads to the recharge. */
  lemma ResumeAllowed(at: Suspension, t: Timings, sandy: bool, s: Senses, run: bool)
    ensures Allowed(at, Resume(at, t, sandy, s, run).at)
  {
  }

  /**
   * The range checks: Blue starts exactly when the check after Red passes,
   * Purple exactly when the check after Blue passes, and Red restarts after a
   * recharge exactly when the target is still in attack range.
   */
  lemma RangeChecks(at: Suspension, t: Timings, sandy: bool, s: Senses, run: bool)
    ensures at == RedCooldown ==> (Resume(at, t, sandy, s, run).at == BlueWindup <==> s.inAttack)
    ensures at == BlueCooldown ==> (Resume(at, t, sandy, s, run).at == PurpleWindup <==> s.inAttack)
    ensures at == Recharging ==> (Resume(at, t, sandy, s, run).at == RedWindup <==> s.inAttack)
    ensures at == PurpleCooldown ==> Resume(at, t, sandy, s, run).at == Recharging
  {
  }

  /** A wait read under Sandy is exactly twice the same wait read without it; nothing else differs. */
  lemma WaitsDoubleUnderSandy(at: Suspension, t: Timings, s: Senses, run: bool)
    ensures Resume(at, t, true, s, run).at == Resume(at, t, false, s, run).at
    ensures Resume(at, t, true, s, run).run == Resume(at, t, false, s, run).run
    ensures Resume(at, t, true, s, run).wait == 2.0 * Resume(at, t, false, s, run).wait
  {
  }

  /** The suspensions visited by successive resumptions, one per element of `inputs`. */
  function Trace(at: Suspension, t: Timings, sandy: bool, run: bool, inputs: seq<Senses>): (tr: seq<Suspension>)
    ensures |tr| == |inputs|
    decreases |inputs|
  {
    if inputs == [] then []
    else
      var next := Resume(at, t, sandy, inputs[0], run);
      [next.at] + Trace(next.at, t, sandy, next.run, inputs[1..])
  }

  /** Whatever the target does, every step of a run follows the written order. */
  lemma {:induction false} TraceAllowed(at: Suspension, t: Timings, sandy: bool, run: bool, inputs: seq<Senses>)
    ensures inputs != [] ==> Allowed(at, Trace(at, t, sandy, run, inputs)[0])
    ensures forall i :: 0 <= i < |inputs| - 1 ==>
      Allowed(Trace(at, t, sandy, run, inputs)[i], Trace(at, t, sandy, run, inputs)[i + 1])
    decreases |inputs|
  {
    if inputs != [] {
      var next := Resume(at, t, sandy, inputs[0], run);
      ResumeAllowed(at, t, sandy, inputs[0], run);
      TraceAllowed(next.at, t, sandy, next.run, inputs[1..]);
      var tr := Trace(at, t, sandy, run, inputs);
      var rest := Trace(next.at, t, sandy, next.run, inputs[1..]);
      assert tr == [next.at] + rest;
      forall i | 0 <= i < |inputs| - 1
        ensures Allowed(tr[i], tr[i + 1])
      {
        if i > 0 {
          assert tr[i] == rest[i - 1] && tr[i + 1] == rest[i];
        }
      }
    }
  }

  /** `n` frames with the target in both ranges. */
  function AlwaysInRange(n: nat): (r: seq<Senses>)
    ensures |r| == n
    ensures forall i :: 0 <= i < n ==> r[i] == Senses(true, true)
  {
    seq(n, _ => Senses(true, true))
  }

  /**
   * With the target continuously in range, an attack sequence started at
   * Red runs Red, Blue, Purple, the recharge, and Red again, in that order,
   * skipping nothing.
   */
  lemma ContinuousRangeCycle(t: Timings, sandy: bool, run: bool)
    ensures Trace(RedWindup, t, sandy, run, AlwaysInRange(7))
         == [RedCooldown, BlueWindup, BlueCooldown, PurpleWindup, PurpleCooldown, Recharging, RedWindup]
  {
    var inputs := AlwaysInRange(7);
    var s := Senses(true, true);
    assert inputs == [s, s, s, s, s, s, s];
    var r := false;
    assert Trace(Recharging, t, sandy, r, [s]) == [RedWindup];
    assert Trace(PurpleCooldown, t, sandy, r, [s, s]) == [Recharging, RedWindup];
    assert Trace(PurpleWindup, t, sandy, r, [s, s, s]) == [PurpleCooldown, Recharging, RedWindup];
    assert Trace(BlueCooldown, t, sandy, r, [s, s, s, s]) == [PurpleWindup, PurpleCooldown, Recharging, RedWindup];
    assert Trace(BlueWindup, t, sandy, r, [s, s, s, s, s])
        == [BlueCooldown, PurpleWindup, PurpleCooldown, Recharging, RedWindup];
    assert Trace(RedCooldown, t, sandy, r, [s, s, s, s, s, s])
        == [BlueWindup, BlueCooldown, PurpleWindup, PurpleCooldown, Recharging, RedWindup];
  }

  /** The boss's health after a run of hits: no clamp, so it goes below zero. */
  function HealthAfter(health: real, hits: seq<int>): real
    decreases |hits|
  {
    if hits == [] then health else HealthAfter(health - hits[0] as real, hits[1..])
  }

  /** The boss bar's health after the same hits, each forwarded to it. */
  function BarAfter(bar: real, max: real, hits: seq<int>): real
    requires 0.0 <= bar <= max
    decreases |hits|
  {
    if hits == [] then bar else BarAfter(BossHealth.BarAfterHit(bar, max, hits[0] as real), max, hits[1..])
  }

  /** How many `TriggerDeath` calls the hits cause: one for every hit that leaves health at or below 0. */
  function DeathsAfter(health: real, hits: seq<int>): nat
    decreases |hits|
  {
    if hits == [] then 0
    else
      var h := health - hits[0] as real;
      (if h <= 0.0 then 1 else 0) + DeathsAfter(h, hits[1..])
  }

  /** The sum of a run of hits. */
  function Sum(hits: seq<int>): int
    decreases |hits|
  {
    if hits == [] then 0 else hits[0] + Sum(hits[1..])
  }

  /** Health below 0 is cut off to 0. */
  function Floor0(x: real): (r: real)
    ensures r >= 0.0 && r >= x
    ensures x >= 0.0 ==> r == x
  {
    if x < 0.0 then 0.0 else x
  }

  /** Every hit takes its full amount off the boss's health: nothing clamps it or drops a hit. */
  lemma {:induction false} HealthIsUnclamped(health: real, hits: seq<int>)
    ensures HealthAfter(health, hits) == health - Sum(hits) as real
    decreases |hits|
  {
    if hits != [] {
      HealthIsUnclamped(health - hits[0] as real, hits[1..]);
    }
  }

  /**
   * With equal maxima, and the bar starting as the boss's health cut off at 0,
   * the bar stays exactly the boss's health cut off at 0 under any run of
   * non-negative hits, while the boss's own value goes negative.
   */
  lemma {:induction false} BarMirrorsBoss(health: real, max: real, hits: seq<int>)
    requires health <= max && 0.0 < max
    requires forall i :: 0 <= i < |hits| ==> hits[i] >= 0
    ensures BarAfter(Floor0(health), max, hits) == Floor0(HealthAfter(health, hits))
    decreases |hits|
  {
    if hits != [] {
      var h := health - hits[0] as real;
      assert BossHealth.BarAfterHit(Floor0(health), max, hits[0] as real) == Floor0(h);
      BarMirrorsBoss(h, max, hits[1..]);
    }
  }

  /** Deaths are not latched: once health is at or below 0, every further non-negative hit calls `TriggerDeath` again. */
  lemma {:induction false} DeathsNotLatched(health: real, hits: seq<int>)
    requires health <= 0.0
    requires forall i :: 0 <= i < |hits| ==> hits[i] >= 0
    ensures DeathsAfter(health, hits) == |hits|
    decreases |hits|
  {
    if hits != [] {
      DeathsNotLatched(health - hits[0] as real, hits[1..]);
    }
  }

  /**
   * There is no immunity window: four 10-point hits in quick succession take
   * 40 off a 100-health boss, and a further lethal hit triggers death.
   */
  lemma NoImmunityWindow()
    ensures HealthAfter(100.0, [10, 10, 10, 10]) == 60.0
    ensures DeathsAfter(100.0, [10, 10, 10, 10, 60]) == 1
    ensures DeathsAfter(100.0, [10, 10, 10, 10, 60, 10]) == 2
  {
  }

  class BossFight {
    const maxHealth: real
    const timings: Timings
    const ability: BossAbilities.BossAbility
    /** The boss health bar among the boss's children; null when there is none. */
    const healthbar: BossHealth.BossHealthbar?
    var currentHealth: real
    var isSandyActive: bool
    /** `agent.speed` of the navigation agent. */
    var agentSpeed: real
    /** `agent.enabled` and `capsuleCollider.enabled`. */
    var agentEnabled: bool
    var colliderEnabled: bool
    /** The animator's `Run` and `Dead` flags. */
    var run: bool
    var dead: bool
    /** How many times `TriggerDeath` has run. */
    var deaths: nat
    /** Where `StateMachine` is suspended, and how much of its wait is left. */
    var at: Suspension
    var waitLeft: real

    ghost predicate Valid()
      reads this, healthbar
    {
      healthbar != null ==> healthbar.Valid()
    }

    /**
     * The bar mirrors the boss: with equal maxima, the bar holds the boss's
     * health cut off at 0, and the boss's health has not risen above the maximum.
     */
    ghost predicate Mirrored()
      reads this, healthbar
    {
      healthbar != null && healthbar.maxHealth == maxHealth ==>
        currentHealth <= maxHealth && healthbar.currentHealth == Floor0(currentHealth)
    }

    /**
     * `Awake` and `Start`: full health, then `StateMachine` runs up to its first
     * yield with the first frame's senses.
     */
    constructor (maxHealth: real, timings: Timings, agentSpeed: real,
                 ability: BossAbilities.BossAbility, healthbar: BossHealth.BossHealthbar?, first: Senses)
      requires healthbar != null ==> healthbar.Valid() && healthbar.currentHealth == healthbar.maxHealth
      ensures Valid() && Mirrored()
      ensures this.maxHealth == maxHealth && this.timings == timings && this.agentSpeed == agentSpeed
      ensures this.ability == ability && this.healthbar == healthbar
      ensures currentHealth == maxHealth && !isSandyActive
      ensures agentEnabled && colliderEnabled && !dead && deaths == 0
      ensures Step(at, waitLeft, run) == Sense(first, false)
    {
      this.maxHealth := maxHealth;
      this.timings := timings;
      this.agentSpeed := agentSpeed;
      this.ability := ability;
      this.healthbar := healthbar;
      currentHealth := maxHealth;
      isSandyActive := false;
      agentEnabled, colliderEnabled, dead, deaths := true, true, false, 0;
      var first := Sense(first, false);
      at, waitLeft, run := first.at, first.wait, first.run;
    }

    /**
     * One frame of `dt` seconds: the current wait runs down, and when it is
     * over the coroutine resumes with this frame's senses.
     */
    method Tick(dt: real, s: Senses)
      requires dt >= 0.0
      modifies this
      ensures old(waitLeft) - dt <= 0.0 ==>
        Step(at, waitLeft, run) == Resume(old(at), timings, isSandyActive, s, old(run))
      ensures old(waitLeft) - dt > 0.0 ==>
        at == old(at) && waitLeft == old(waitLeft) - dt && run == old(run)
      ensures currentHealth == old(currentHealth) && isSandyActive == old(isSandyActive)
      ensures agentSpeed == old(agentSpeed) && agentEnabled == old(agentEnabled)
      ensures colliderEnabled == old(colliderEnabled) && dead == old(dead) && deaths == old(deaths)
    {
      waitLeft := waitLeft - dt;
      if waitLeft <= 0.0 {
        var next := Resume(at, timings, isSandyActive, s, run);
        at, waitLeft, run := next.at, next.wait, next.run;
      }
    }

    /** `HandleSandyActivated`: no guard, so every call halves the speed again. */
    method HandleSandyActivated()
      modifies this, ability
      ensures isSandyActive && agentSpeed == SpeedStep(old(agentSpeed), true)
      ensures ability.isSandyActive
      ensures ability.redParticleSpeed == BossAbilities.Adjusted(old(ability.redParticleSpeed), true)
      ensures ability.purpleParticleSpeed == BossAbilities.Adjusted(old(ability.purpleParticleSpeed), true)
      ensures currentHealth == old(currentHealth) && at == old(at) && waitLeft == old(waitLeft)
      ensures agentEnabled == old(agentEnabled) && colliderEnabled == old(colliderEnabled)
      ensures run == old(run) && dead == old(dead) && deaths == old(deaths)
    {
      isSandyActive := true;
      agentSpeed := agentSpeed * 0.5;
      ability.SetSandyState(true);
    }

    /** `HandleSandyDeactivated`: every call doubles the speed. */
    method HandleSandyDeactivated()
      modifies this, ability
      ensures !isSandyActive && agentSpeed == SpeedStep(old(agentSpeed), false)
      ensures !ability.isSandyActive
      ensures ability.redParticleSpeed == BossAbilities.Adjusted(old(ability.redParticleSpeed), false)
      ensures ability.purpleParticleSpeed == BossAbilities.Adjusted(old(ability.purpleParticleSpeed), false)
      ensures currentHealth == old(currentHealth) && at == old(at) && waitLeft == old(waitLeft)
      ensures agentEnabled == old(agentEnabled) && colliderEnabled == old(colliderEnabled)
      ensures run == old(run) && dead == old(dead) && deaths == old(deaths)
    {
      isSandyActive := false;
      agentSpeed := agentSpeed * 2.0;
      ability.SetSandyState(false);
    }

    /**
     * `TakeDamage`: the whole amount comes off, the bar is told, and a hit that
     * leaves health at or below 0 calls `TriggerDeath`, however many times
     * that has happened before.
     */
    method TakeDamage(damage: int)
      requires Valid()
      modifies this, healthbar
      ensures Valid()
      ensures currentHealth == old(currentHealth) - damage as real
      ensures healthbar != null ==>
        healthbar.currentHealth == BossHealth.BarAfterHit(old(healthbar.currentHealth), healthbar.maxHealth, damage as real)
      ensures deaths == old(deaths) + (if currentHealth <= 0.0 then 1 else 0)
      ensures currentHealth <= 0.0 ==> !agentEnabled && !colliderEnabled && dead
      ensures currentHealth > 0.0 ==>
        agentEnabled == old(agentEnabled) && colliderEnabled == old(colliderEnabled) && dead == old(dead)
      ensures damage >= 0 && old(Mirrored()) ==> Mirrored()
      ensures isSandyActive == old(isSandyActive) && agentSpeed == old(agentSpeed)
      ensures at == old(at) && waitLeft == old(waitLeft) && run == old(run)
    {
      currentHealth := currentHealth - damage as real;
      if healthbar != null {
        healthbar.TakeDamage(damage as real);
      }
      if currentHealth <= 0.0 {
        TriggerDeath();
      }
    }

    /** `TriggerDeath`: the agent and the collider are switched off. */
    method TriggerDeath()
      modifies this
      ensures !agentEnabled && !colliderEnabled && dead && deaths == old(deaths) + 1
      ensures currentHealth == old(currentHealth) && isSandyActive == old(isSandyActive)
      ensures agentSpeed == old(agentSpeed) && at == old(at) && waitLeft == old(waitLeft) && run == old(run)
    {
      dead := true;
      agentEnabled := false;
      colliderEnabled := false;
      deaths := deaths + 1;
    }

    /** `OnTriggerEnter`: a `BackstabKnife` contact deals 10; any other collider nothing. */
    method OnTriggerEnter(tag: string)
      requires Valid()
      modifies this, healthbar
      ensures Valid()
      ensures tag == BackstabKnifeTag ==> currentHealth == old(currentHealth) - 10.0
      ensures tag == BackstabKnifeTag ==> deaths == old(deaths) + (if currentHealth <= 0.0 then 1 else 0)
      ensures tag == BackstabKnifeTag && currentHealth <= 0.0 ==> !agentEnabled && !colliderEnabled && dead
      ensures tag != BackstabKnifeTag || currentHealth > 0.0 ==>
        agentEnabled == old(agentEnabled) && colliderEnabled == old(colliderEnabled) && dead == old(dead)
      ensures tag == BackstabKnifeTag && healthbar != null ==>
        healthbar.currentHealth == BossHealth.BarAfterHit(old(healthbar.currentHealth), healthbar.maxHealth, 10.0)
      ensures at == old(at) && waitLeft == old(waitLeft) && run == old(run)
      ensures isSandyActive == old(isSandyActive) && agentSpeed == old(agentSpeed)
      ensures tag != BackstabKnifeTag ==> currentHealth == old(currentHealth) && deaths == old(deaths)
      ensures tag != BackstabKnifeTag && healthbar != null ==> healthbar.currentHealth == old(healthbar.currentHealth)
      ensures old(Mirrored()) ==> Mirrored()
    {
      if tag == BackstabKnifeTag {
        TakeDamage(10);
      }
    }
  }
}
