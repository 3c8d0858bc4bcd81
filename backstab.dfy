/**
 * The backstab gate. An enemy's back carries a trigger zone (`EnemyBack`)
 * whose `canAttack` flag follows the player entering and leaving it. The
 * player's attack input (`PlayerAttack.Attack`) draws the hidden blade and
 * starts the backstab animation only while that flag is set; the
 * animation's kill event (`Kill`) checks the flag again, so a player who has
 * left the zone in between spares the enemy.
 */
module Backstab {
  import opened Engine

  /** A trigger event on the enemy's back zone. */
  datatype TriggerEvent = Enter(tag: string) | Exit(tag: string)

  /** `canAttack` after one trigger event: only the player's own events move it. */
  function AfterTrigger(canAttack: bool, e: TriggerEvent): (r: bool)
    ensures e.tag != PlayerTag ==> r == canAttack
    ensures e.tag == PlayerTag ==> r == e.Enter?
  {
    match e
    case Enter(tag) => if tag == PlayerTag then true else canAttack
    case Exit(tag) => if tag == PlayerTag then false else canAttack
  }

  /** `canAttack` after a run of trigger events, oldest first. */
  function AfterTriggers(canAttack: bool, events: seq<TriggerEvent>): bool
    decreases |events|
  {
    if events == [] then canAttack else AfterTriggers(AfterTrigger(canAttack, events[0]), events[1..])
  }

  /** Whether the player's latest event was an entry (`Some(true)`), an exit (`Some(false)`), or there was none. */
  function LastPlayerEvent(events: seq<TriggerEvent>): Option<bool>
    decreases |events|
  {
    if events == [] then None
    else
      match LastPlayerEvent(events[1..])
      case Some(entered) => Some(entered)
      case None => if events[0].tag == PlayerTag then Some(events[0].Enter?) else None
  }

  /**
   * `canAttack` is set exactly when the player's latest event was an entry;
   * with no player event it keeps its starting value, whatever other
   * colliders did.
   */
  lemma {:induction false} CanAttackFollowsLastPlayerEvent(canAttack: bool, events: seq<TriggerEvent>)
    ensures AfterTriggers(canAttack, events) ==
      match LastPlayerEvent(events)
      case Some(entered) => entered
      case None => canAttack
    decreases |events|
  {
    if events != [] {
      CanAttackFollowsLastPlayerEvent(AfterTrigger(canAttack, events[0]), events[1..]);
    }
  }

  /** The trigger zone on an enemy's back. */
  class EnemyBack {
    var canAttack: bool
    /** The animator's `Dead` flag. */
    var dead: bool

    constructor ()
      ensures !canAttack && !dead
    {
      canAttack := false;
      dead := false;
    }

    /** `OnTriggerEnter`. */
    method OnTriggerEnter(tag: string)
      modifies this
      ensures canAttack == AfterTrigger(old(canAttack), Enter(tag))
      ensures dead == old(dead)
    {
      if tag == PlayerTag {
        canAttack := true;
      }
    }

    /** `OnTriggerExit`. */
    method OnTriggerExit(tag: string)
      modifies this
      ensures canAttack == AfterTrigger(old(canAttack), Exit(tag))
      ensures dead == old(dead)
    {
      if tag == PlayerTag {
        canAttack := false;
      }
    }

    /** `TriggerDeath`: the death animation starts; the zone is left as it was. */
    method TriggerDeath()
      modifies this
      ensures dead && canAttack == old(canAttack)
    {
      dead := true;
    }
  }

  /** The player's backstab input, with the hidden blade's active state folded in. */
  class PlayerAttack {
    /** The enemy back the player is set up against; null when none is assigned. */
    const enemyBack: EnemyBack?
    /** Whether the hidden blade object is active. */
    var bladeActive: bool
    /** The animator's `Backstab` flag. */
    var backstab: bool

    /** `Awake` of the player and of the blade: the blade starts inactive. */
    constructor (enemyBack: EnemyBack?)
      ensures this.enemyBack == enemyBack
      ensures !bladeActive && !backstab
    {
      this.enemyBack := enemyBack;
      bladeActive := false;
      backstab := false;
    }

    /** `Attack`: blade out and backstab started only when the back zone allows it. */
    method Attack()
      modifies this
      ensures enemyBack != null && enemyBack.canAttack ==> bladeActive && backstab
      ensures !(enemyBack != null && enemyBack.canAttack) ==> unchanged(this)
    {
      if enemyBack != null && enemyBack.canAttack {
        bladeActive := true;
        backstab := true;
      }
    }

    /** `OnBackstabAnimationEnd`: blade away and backstab over, unconditionally. */
    method OnBackstabAnimationEnd()
      modifies this
      ensures !bladeActive && !backstab
    {
      bladeActive := false;
      backstab := false;
    }

    /** `Kill`: the enemy dies only if the zone still allows the attack at this moment. */
    method Kill()
      modifies enemyBack
      ensures enemyBack != null ==> enemyBack.canAttack == old(enemyBack.canAttack)
      ensures enemyBack != null ==> enemyBack.dead == (old(enemyBack.dead) || old(enemyBack.canAttack))
    {
      if enemyBack != null && enemyBack.canAttack {
        enemyBack.TriggerDeath();
      }
    }
  }
}
