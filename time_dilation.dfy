/**
 * The "Sandy" ultimate as the boss sees it: every wait read while Sandy is
 * active lasts twice its base value, and each activation halves the
 * navigation agent's speed while each deactivation doubles it. Neither
 * handler is guarded, so the speed depends only on how many of each event
 * arrived, not on whether they alternate.
 */
module TimeDilation {

  /** A duration read while Sandy is `active` (base) or not. */
  function Scaled(base: real, active: bool): real
  {
    if active then base * 2.0 else base
  }

  /** Sandy doubles a wait exactly, and leaves it at its base value otherwise. */
  lemma ScaledDoubles(base: real)
    ensures Scaled(base, false) == base
    ensures Scaled(base, true) == 2.0 * Scaled(base, false)
    ensures base >= 0.0 ==> Scaled(base, false) <= Scaled(base, true)
  {
  }

  /** The agent speed after one handler call: `true` is an activation, `false` a deactivation. */
  function SpeedStep(speed: real, activated: bool): real
  {
    if activated then speed * 0.5 else speed * 2.0
  }

  /** The agent speed after a run of handler calls, oldest first. */
  function SpeedAfter(speed: real, events: seq<bool>): real
    decreases |events|
  {
    if events == [] then speed else SpeedAfter(SpeedStep(speed, events[0]), events[1..])
  }

  /** How many of `events` equal `e`. */
  function Occurrences(events: seq<bool>, e: bool): nat
  {
    if events == [] then 0 else (if events[0] == e then 1 else 0) + Occurrences(events[1..], e)
  }

  /** `speed` doubled `k` times, or halved `-k` times when `k` is negative. */
  function Rescaled(speed: real, k: int): real
    decreases if k < 0 then -k else k
  {
    if k == 0 then speed
    else if k > 0 then Rescaled(speed * 2.0, k - 1)
    else Rescaled(speed * 0.5, k + 1)
  }

  /** Halving first is the same as one doubling fewer. */
  lemma RescaledHalf(speed: real, k: int)
    ensures Rescaled(speed * 0.5, k) == Rescaled(speed, k - 1)
  {
    if k > 0 {
      assert speed * 0.5 * 2.0 == speed;
    }
  }

  /** Doubling first is the same as one doubling more. */
  lemma RescaledDouble(speed: real, k: int)
    ensures Rescaled(speed * 2.0, k) == Rescaled(speed, k + 1)
  {
    if k < 0 {
      assert speed * 2.0 * 0.5 == speed;
    }
  }

  /**
   * Closed form of the speed: it is the starting speed doubled once per
   * deactivation and halved once per activation, in whatever order they came.
   */
  lemma {:induction false} SpeedAfterCounts(speed: real, events: seq<bool>)
    ensures SpeedAfter(speed, events)
         == Rescaled(speed, Occurrences(events, false) - Occurrences(events, true))
    decreases |events|
  {
    if events != [] {
      var rest := events[1..];
      var k := Occurrences(rest, false) - Occurrences(rest, true);
      SpeedAfterCounts(SpeedStep(speed, events[0]), rest);
      if events[0] {
        RescaledHalf(speed, k);
      } else {
        RescaledDouble(speed, k);
      }
    }
  }

  /** Any run with as many deactivations as activations restores the speed exactly. */
  lemma BalancedRestoresSpeed(speed: real, events: seq<bool>)
    requires Occurrences(events, true) == Occurrences(events, false)
    ensures SpeedAfter(speed, events) == speed
  {
    SpeedAfterCounts(speed, events);
  }

  /** Activation is not idempotent: two activations in a row quarter the speed. */
  lemma DoubleActivationQuarters(speed: real)
    ensures SpeedAfter(speed, [true, true]) == speed / 4.0
    ensures SpeedAfter(speed, [true, false]) == speed
    ensures speed > 0.0 ==> SpeedAfter(speed, [true, true]) != SpeedAfter(speed, [true])
  {
    assert [true, true][1..] == [true];
    assert [true, false][1..] == [false];
  }
}
