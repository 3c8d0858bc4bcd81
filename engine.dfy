/**
 * The small part of the game engine that the gameplay scripts rely on:
 * optional references, `Mathf.Clamp`, collider tags, and the two component
 * kinds whose `enabled`/`activeSelf` flags the scripts switch.
 */
module Engine {

  /** A reference that may be unassigned (null) in the scene. */
  datatype Option<T> = None | Some(value: T)

  /** Collider tags compared by `CompareTag` in the scripts. */
  const PlayerTag: string := "Player"
  const EnemyTag: string := "Enemy"
  const BackstabKnifeTag: string := "BackstabKnife"

  /** Distance between two reals. */
  function Dist(a: real, b: real): real
  {
    if a >= b then a - b else b - a
  }

  /**
   * `Mathf.Clamp(value, min, max)`: the point of [min, max] nearest to
   * `value`.
   */
  function Clamp(value: real, min: real, max: real): (r: real)
    ensures min <= max ==> min <= r <= max
    ensures min <= max ==> forall y :: min <= y <= max ==> Dist(r, value) <= Dist(y, value)
    ensures min <= value <= max ==> r == value
  {
    if value < min then min else if value > max then max else value
  }

  /** The `activeSelf` flag of a scene object such as the player's shield. */
  class GameObject {
    var activeSelf: bool

    constructor (active: bool)
      ensures activeSelf == active
    {
      activeSelf := active;
    }
  }

  /** A capsule collider; only its `enabled` flag is used by the scripts. */
  class CapsuleCollider {
    var enabled: bool

    constructor ()
      ensures enabled
    {
      enabled := true;
    }
  }
}
