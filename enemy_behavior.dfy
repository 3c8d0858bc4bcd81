/**
 * A regular enemy (`EnemyBehavior`). Every frame `Update` picks patrol,
 * chase or attack from two booleans: whether the enemy currently sees the
 * player and whether the player is in attack range. Every 0.2 s
 * `FieldOfViewCheck` recomputes the first of them from a physics query
 * (taken here as an input) and starts or cancels the attention tracker, a
 * coroutine that raises `attentionLevel` by 0.1 every 0.1 s until it reaches
 * `attentionTime` and then latches `fullyDetected`. Hits are gated by a 0.5 s
 * immunity window, attacks by `timeBetweenAttacks`, and a hit that leaves
 * health at or below 0 schedules a death 0.5 s later.
 *
 * Coroutines and `Invoke` calls are modelled by the time each still waits;
 * `Advance` runs the clock forward by one frame and fires what is due, each
 * pending wait resuming at most once per frame.
 */
module Enemies {
  import opened Engine

  /** The three behaviours `Update` can run. */
  datatype Action = Patrol | Chase | Attack

  /** The result of the overlap query that `FieldOfViewCheck` looks at: its first target. */
  datatype Target = Target(angle: real, obstructed: bool)

  /**
   * The attention coroutine: none running, one running that resumes in
   * `nextStepIn` seconds, or one that has finished but whose handle is still
   * kept (it is only cleared when sight is lost).
   */
  datatype Tracker = NoTracker | Tracking(nextStepIn: real) | Finished

  /** The increment of one attention step, and the wait between steps. */
  const AttentionStep: real := 0.1
  const AttentionInterval: real := 0.1
  /** The immunity window after an accepted hit, and the delay before a scheduled death. */
  const DamageCooldownTime: real := 0.5
  const DeathDelay: real := 0.5

  /**
   * Which of `Update`'s three independent branches run in one frame, in
   * source order.
   */
  function Branches(canSee: bool, inRange: bool): (r: seq<Action>)
    ensures |r| <= 1
    ensures Patrol in r <==> !canSee && !inRange
    ensures Chase in r <==> canSee && !inRange
    ensures Attack in r <==> canSee && inRange
    ensures r == [] <==> inRange && !canSee
  {
    (if !canSee && !inRange then [Patrol] else []) +
    (if canSee && !inRange then [Chase] else []) +
    (if inRange && canSee then [Attack] else [])
  }

  /**
   * Whether `FieldOfViewCheck` sees the player: a target exists, lies strictly
   * within half the view angle, and the ray to it is unobstructed.
   */
  predicate Visible(target: Option<Target>, viewAngle: real)
  {
    target.Some? && target.value.angle < viewAngle / 2.0 && !target.value.obstructed
  }

  /**
   * The attention coroutine run for `k` passes of its loop from `level`: the
   * level reached and whether it has left the loop (latching `fullyDetected`).
   * Each pass but the first follows a 0.1 s wait.
   */
  function Passes(level: real, attentionTime: real, k: nat): (r: (real, bool))
    decreases k
  {
    if k == 0 then (level, false)
    else if level < attentionTime then Passes(level + AttentionStep, attentionTime, k - 1)
    else (level, true)
  }

  /**
   * Detection takes exactly as many steps as it takes `i` tenths to reach
   * `attentionTime`: the first `n` passes raise the level to `n` tenths
   * without detecting, and the pass after them detects.
   */
  lemma {:induction false} PassesFrom(i: nat, n: nat, attentionTime: real)
    requires i <= n
    requires 0 < n && ((n - 1) as real) * AttentionStep < attentionTime <= (n as real) * AttentionStep
    ensures Passes((i as real) * AttentionStep, attentionTime, n - i) == ((n as real) * AttentionStep, false)
    ensures Passes((i as real) * AttentionStep, attentionTime, n - i + 1) == ((n as real) * AttentionStep, true)
    decreases n - i
  {
    if i < n {
      assert (i as real) * AttentionStep < attentionTime;
      assert (i as real) * AttentionStep + AttentionStep == ((i + 1) as real) * AttentionStep;
      PassesFrom(i + 1, n, attentionTime);
    }
  }

  /**
   * With the default `attentionTime` of 5 s, fifty steps of 0.1 bring the
   * level to exactly 5 without detecting, and the next pass latches detection.
   */
  lemma DefaultDetection()
    ensures Passes(0.0, 5.0, 50) == (5.0, false)
    ensures Passes(0.0, 5.0, 51) == (5.0, true)
  {
    PassesFrom(0, 50, 5.0);
  }

  class EnemyBehavior {
    /** The view `angle`, `attentionTime` and `timeBetweenAttacks` set in the inspector. */
    const viewAngle: real
    const attentionTime: real
    const timeBetweenAttacks: real
    var health: real
    var canSeePlayer: bool
    var playerInAttackRange: bool
    var attentionLevel: real
    var fullyDetected: bool
    var tracker: Tracker
    var canTakeDamage: bool
    /** Time left before `DamageCooldown` reopens the damage gate. */
    var immunityLeft: real
    var alreadyAttacked: bool
    /** Time left before the invoked `ResetAttack` runs. */
    var resetAttackIn: real
    /** An invoked `TriggerDeath` that has not run yet, and its time left. */
    var deathPending: bool
    var deathIn: real
    /** How many times `TriggerDeath` has run (each one a death event sent to the enemy's back). */
    var deaths: nat

    ghost predicate Valid()
      reads this
    {
      (canSeePlayer <==> !tracker.NoTracker?) &&
      (tracker.NoTracker? ==> attentionLevel == 0.0) &&
      0.0 <= attentionLevel &&
      (attentionLevel == 0.0 || attentionLevel < attentionTime + AttentionStep) &&
      (tracker.Finished? ==> fullyDetected && attentionLevel >= attentionTime) &&
      (!canTakeDamage ==> immunityLeft > 0.0) &&
      (deathPending ==> !canTakeDamage && deathIn == immunityLeft)
    }

    /** `Start`: nothing seen, no tracker, gates open. */
    constructor (health: real, viewAngle: real, attentionTime: real, timeBetweenAttacks: real)
      ensures Valid()
      ensures this.health == health && this.viewAngle == viewAngle
      ensures this.attentionTime == attentionTime && this.timeBetweenAttacks == timeBetweenAttacks
      ensures !canSeePlayer && !playerInAttackRange && tracker == NoTracker
      ensures attentionLevel == 0.0 && !fullyDetected
      ensures canTakeDamage && !alreadyAttacked && !deathPending && deaths == 0
    {
      this.health := health;
      this.viewAngle := viewAngle;
      this.attentionTime := attentionTime;
      this.timeBetweenAttacks := timeBetweenAttacks;
      canSeePlayer, playerInAttackRange := false, false;
      attentionLevel, fullyDetected, tracker := 0.0, false, NoTracker;
      canTakeDamage, immunityLeft := true, 0.0;
      alreadyAttacked, resetAttackIn := false, 0.0;
      deathPending, deathIn, deaths := false, 0.0, 0;
    }

    /**
     * One pass of the attention loop: take a step while the level is below
     * `attentionTime`, otherwise leave the loop and latch `fullyDetected`.
     */
    method AttentionLoop()
      requires 0.0 <= attentionLevel && (attentionLevel == 0.0 || attentionLevel < attentionTime + AttentionStep)
      modifies this`attentionLevel, this`fullyDetected, this`tracker
      ensures old(attentionLevel) < attentionTime ==>
        attentionLevel == old(attentionLevel) + AttentionStep && tracker == Tracking(AttentionInterval)
        && fullyDetected == old(fullyDetected)
      ensures old(attentionLevel) >= attentionTime ==>
        attentionLevel == old(attentionLevel) && tracker == Finished && fullyDetected
      ensures 0.0 <= attentionLevel && (attentionLevel == 0.0 || attentionLevel < attentionTime + AttentionStep)
    {
      if attentionLevel < attentionTime {
        attentionLevel := attentionLevel + AttentionStep;
        tracker := Tracking(AttentionInterval);
      } else {
        fullyDetected := true;
        tracker := Finished;
      }
    }

    /**
     * `FieldOfViewCheck` with the first target of the overlap query (if any).
     * Visibility becomes exactly `Visible(target, viewAngle)`; a tracker is
     * started only on a rising edge, and lost sight clears it and resets the
     * level to 0.
     */
    method FieldOfViewCheck(target: Option<Target>)
      requires Valid()
      modifies this
      ensures Valid()
      ensures canSeePlayer == Visible(target, viewAngle)
      ensures !canSeePlayer ==> tracker == NoTracker && attentionLevel == 0.0 && fullyDetected == old(fullyDetected)
      ensures canSeePlayer && old(canSeePlayer) ==>
        tracker == old(tracker) && attentionLevel == old(attentionLevel) && fullyDetected == old(fullyDetected)
      ensures canSeePlayer && !old(canSeePlayer) ==>
        old(tracker) == NoTracker &&
        (0.0 < attentionTime ==> tracker == Tracking(AttentionInterval) && attentionLevel == AttentionStep
                                 && fullyDetected == old(fullyDetected)) &&
        (attentionTime <= 0.0 ==> tracker == Finished && attentionLevel == 0.0 && fullyDetected)
      ensures old(fullyDetected) ==> fullyDetected
      ensures health == old(health) && playerInAttackRange == old(playerInAttackRange)
      ensures canTakeDamage == old(canTakeDamage) && immunityLeft == old(immunityLeft)
      ensures alreadyAttacked == old(alreadyAttacked) && resetAttackIn == old(resetAttackIn)
      ensures deathPending == old(deathPending) && deathIn == old(deathIn) && deaths == old(deaths)
    {
      if target.Some? {
        if target.value.angle < viewAngle / 2.0 {
          if !target.value.obstructed {
            if !canSeePlayer {
              canSeePlayer := true;
              if tracker == NoTracker {
                AttentionLoop();
              }
            }
          } else {
            canSeePlayer := false;
          }
        } else {
          canSeePlayer := false;
        }
      } else {
        canSeePlayer := false;
      }

      if !canSeePlayer && tracker != NoTracker {
        tracker := NoTracker;
        attentionLevel := 0.0;
      }
    }

    /**
     * `Update`, given the attack-range check of this frame. Returns the
     * branches that ran and whether an attack fired: only when none is
     * cooling down, after which `ResetAttack` is due in `timeBetweenAttacks`.
     */
    method Update(inAttackRange: bool) returns (ran: seq<Action>, attacked: bool)
      requires Valid()
      modifies this
      ensures Valid()
      ensures playerInAttackRange == inAttackRange
      ensures ran == Branches(canSeePlayer, inAttackRange)
      ensures attacked <==> Attack in ran && !old(alreadyAttacked)
      ensures attacked ==> alreadyAttacked && resetAttackIn == timeBetweenAttacks
      ensures !attacked ==> alreadyAttacked == old(alreadyAttacked) && resetAttackIn == old(resetAttackIn)
      ensures canSeePlayer == old(canSeePlayer) && tracker == old(tracker)
      ensures attentionLevel == old(attentionLevel) && fullyDetected == old(fullyDetected)
      ensures health == old(health) && canTakeDamage == old(canTakeDamage) && immunityLeft == old(immunityLeft)
      ensures deathPending == old(deathPending) && deathIn == old(deathIn) && deaths == old(deaths)
    {
      playerInAttackRange := inAttackRange;
      ran, attacked := [], false;
      if !canSeePlayer && !playerInAttackRange {
        ran := ran + [Patrol];
      }
      if canSeePlayer && !playerInAttackRange {
        ran := ran + [Chase];
      }
      if playerInAttackRange && canSeePlayer {
        ran := ran + [Attack];
        attacked := AttackPlayer();
      }
    }

    /** `AttackPlayer`: fire only when no attack is cooling down, then invoke `ResetAttack`. */
    method AttackPlayer() returns (fired: bool)
      modifies this`alreadyAttacked, this`resetAttackIn
      ensures fired == !old(alreadyAttacked)
      ensures alreadyAttacked
      ensures fired ==> resetAttackIn == timeBetweenAttacks
      ensures !fired ==> resetAttackIn == old(resetAttackIn)
    {
      fired := false;
      if !alreadyAttacked {
        fired := true;
        alreadyAttacked := true;
        resetAttackIn := timeBetweenAttacks;
      }
    }

    /**
     * `TakeDamage` together with the part of `DamageCooldown` that runs before
     * its first yield: a hit inside the immunity window changes nothing; an
     * accepted one subtracts exactly `damage`, closes the gate for 0.5 s, and
     * schedules a death in 0.5 s when health ends at or below 0.
     */
    method TakeDamage(damage: real)
      requires Valid()
      modifies this
      ensures Valid()
      ensures !old(canTakeDamage) ==> unchanged(this)
      ensures old(canTakeDamage) ==>
        health == old(health) - damage && !canTakeDamage && immunityLeft == DamageCooldownTime &&
        deathPending == (health <= 0.0) && (deathPending ==> deathIn == DeathDelay)
      ensures canSeePlayer == old(canSeePlayer) && playerInAttackRange == old(playerInAttackRange)
      ensures tracker == old(tracker) && attentionLevel == old(attentionLevel) && fullyDetected == old(fullyDetected)
      ensures alreadyAttacked == old(alreadyAttacked) && resetAttackIn == old(resetAttackIn)
      ensures deaths == old(deaths)
    {
      if canTakeDamage {
        canTakeDamage := false;
        health := health - damage;
        if health <= 0.0 {
          deathPending, deathIn := true, DeathDelay;
        }
        immunityLeft := DamageCooldownTime;
      }
    }

    /**
     * One frame of `dt` seconds: every pending wait runs down, and each one
     * that is over resumes once: the attention loop takes its next pass,
     * `DamageCooldown` reopens the gate, an invoked `TriggerDeath` runs, an
     * invoked `ResetAttack` clears the attack flag.
     */
    method Advance(dt: real)
      requires Valid() && dt >= 0.0
      modifies this
      ensures Valid()
      ensures old(tracker).Tracking? && old(tracker).nextStepIn - dt <= 0.0 ==>
        (old(attentionLevel) < attentionTime ==>
          attentionLevel == old(attentionLevel) + AttentionStep && tracker == Tracking(AttentionInterval)
          && fullyDetected == old(fullyDetected)) &&
        (old(attentionLevel) >= attentionTime ==>
          attentionLevel == old(attentionLevel) && tracker == Finished && fullyDetected)
      ensures old(tracker).Tracking? && old(tracker).nextStepIn - dt > 0.0 ==>
        tracker == Tracking(old(tracker).nextStepIn - dt) &&
        attentionLevel == old(attentionLevel) && fullyDetected == old(fullyDetected)
      ensures !old(tracker).Tracking? ==>
        tracker == old(tracker) && attentionLevel == old(attentionLevel) && fullyDetected == old(fullyDetected)
      ensures canTakeDamage == (old(canTakeDamage) || old(immunityLeft) - dt <= 0.0)
      ensures !canTakeDamage ==> immunityLeft == old(immunityLeft) - dt
      ensures deathPending == (old(deathPending) && old(deathIn) - dt > 0.0)
      ensures deaths == old(deaths) + (if old(deathPending) && old(deathIn) - dt <= 0.0 then 1 else 0)
      ensures alreadyAttacked == (old(alreadyAttacked) && old(resetAttackIn) - dt > 0.0)
      ensures old(alreadyAttacked) ==> resetAttackIn == old(resetAttackIn) - dt
      ensures !old(alreadyAttacked) ==> resetAttackIn == old(resetAttackIn)
      ensures canSeePlayer == old(canSeePlayer) && playerInAttackRange == old(playerInAttackRange)
      ensures health == old(health)
    {
      AdvanceAttention(dt);
      AdvanceDamageCooldown(dt);
      AdvanceDeath(dt);
      AdvanceAttackReset(dt);
    }

    /** The attention coroutine's share of `Advance`. */
    method AdvanceAttention(dt: real)
      requires 0.0 <= attentionLevel && (attentionLevel == 0.0 || attentionLevel < attentionTime + AttentionStep)
      modifies this`attentionLevel, this`fullyDetected, this`tracker
      ensures 0.0 <= attentionLevel && (attentionLevel == 0.0 || attentionLevel < attentionTime + AttentionStep)
      ensures tracker.NoTracker? <==> old(tracker).NoTracker?
      ensures old(tracker).Tracking? && old(tracker).nextStepIn - dt <= 0.0 ==>
        (old(attentionLevel) < attentionTime ==>
          attentionLevel == old(attentionLevel) + AttentionStep && tracker == Tracking(AttentionInterval)
          && fullyDetected == old(fullyDetected)) &&
        (old(attentionLevel) >= attentionTime ==>
          attentionLevel == old(attentionLevel) && tracker == Finished && fullyDetected)
      ensures old(tracker).Tracking? && old(tracker).nextStepIn - dt > 0.0 ==>
        tracker == Tracking(old(tracker).nextStepIn - dt) &&
        attentionLevel == old(attentionLevel) && fullyDetected == old(fullyDetected)
      ensures !old(tracker).Tracking? ==>
        tracker == old(tracker) && attentionLevel == old(attentionLevel) && fullyDetected == old(fullyDetected)
    {
      if tracker.Tracking? {
        var left := tracker.nextStepIn - dt;
        if left <= 0.0 {
          AttentionLoop();
        } else {
          tracker := Tracking(left);
        }
      }
    }

    /** `DamageCooldown`'s wait: the gate reopens when the window is over. */
    method AdvanceDamageCooldown(dt: real)
      modifies this`canTakeDamage, this`immunityLeft
      ensures canTakeDamage == (old(canTakeDamage) || old(immunityLeft) - dt <= 0.0)
      ensures !canTakeDamage ==> immunityLeft == old(immunityLeft) - dt
      ensures old(canTakeDamage) ==> immunityLeft == old(immunityLeft)
    {
      if !canTakeDamage {
        immunityLeft := immunityLeft - dt;
        if immunityLeft <= 0.0 {
          canTakeDamage := true;
        }
      }
    }

    /** The invoked `TriggerDeath`, once its delay is over. */
    method AdvanceDeath(dt: real)
      modifies this`deathPending, this`deathIn, this`deaths
      ensures deathPending == (old(deathPending) && old(deathIn) - dt > 0.0)
      ensures deaths == old(deaths) + (if old(deathPending) && old(deathIn) - dt <= 0.0 then 1 else 0)
      ensures old(deathPending) ==> deathIn == old(deathIn) - dt
      ensures !old(deathPending) ==> deathIn == old(deathIn)
    {
      if deathPending {
        deathIn := deathIn - dt;
        if deathIn <= 0.0 {
          deathPending := false;
          deaths := deaths + 1;
        }
      }
    }

    /** The invoked `ResetAttack`, once `timeBetweenAttacks` is over. */
    method AdvanceAttackReset(dt: real)
      modifies this`alreadyAttacked, this`resetAttackIn
      ensures alreadyAttacked == (old(alreadyAttacked) && old(resetAttackIn) - dt > 0.0)
      ensures old(alreadyAttacked) ==> resetAttackIn == old(resetAttackIn) - dt
      ensures !old(alreadyAttacked) ==> resetAttackIn == old(resetAttackIn)
    {
      if alreadyAttacked {
        resetAttackIn := resetAttackIn - dt;
        if resetAttackIn <= 0.0 {
          alreadyAttacked := false;
        }
      }
    }
  }
}
