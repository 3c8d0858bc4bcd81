/**
 * The player's Dash and Sandy cooldowns (`AbilityHandler`). Each is a flag
 * that gates its input, and a coroutine that clears the flag, sets the
 * indicator's fill to 0, then loops once per frame adding `Time.deltaTime` to
 * `elapsedTime` and showing `elapsedTime / cooldown` until `elapsedTime`
 * reaches the cooldown, when it sets the flag and a full fill again. The two
 * abilities run the same code on separate state.
 *
 * The coroutine is modelled by whether it is inside its loop and its
 * `elapsedTime`; `Perform` is the input callback together with the part of
 * the coroutine that runs before its first yield, and `Resume` is one later
 * frame. The indicator is an image whose `fillAmount` keeps values in [0, 1].
 */
module Abilities {
  import opened Engine

  /** The fill an indicator shows for `elapsed` seconds of a `duration`-second cooldown. */
  function Progress(elapsed: real, duration: real): (f: real)
    requires 0.0 < duration
    ensures 0.0 <= f <= 1.0
    ensures 0.0 <= elapsed <= duration ==> f * duration == elapsed
    ensures elapsed >= duration ==> f == 1.0
  {
    Clamp(elapsed / duration, 0.0, 1.0)
  }

  /** The part of a cooldown its gate depends on: the ability flag and the coroutine's `elapsedTime`. */
  datatype CooldownState = CooldownState(ready: bool, elapsed: real)

  /** One later frame of `dt` seconds, as the coroutine's loop takes it. */
  function ResumeStep(s: CooldownState, duration: real, dt: real): (r: CooldownState)
    ensures s.ready ==> r == s
    ensures r.elapsed >= s.elapsed <== dt >= 0.0
    ensures !s.ready ==> (r.ready <==> s.elapsed >= duration)
  {
    if s.ready then s
    else if s.elapsed < duration then CooldownState(false, s.elapsed + dt)
    else CooldownState(true, s.elapsed)
  }

  /** The state after later frames of the given lengths, oldest first. */
  function AfterFrames(s: CooldownState, duration: real, dts: seq<real>): CooldownState
    decreases |dts|
  {
    if dts == [] then s else AfterFrames(ResumeStep(s, duration, dts[0]), duration, dts[1..])
  }

  /** The summed length of frames. */
  function Total(dts: seq<real>): (t: real)
    ensures (forall i :: 0 <= i < |dts| ==> dts[i] >= 0.0) ==> t >= 0.0
    decreases |dts|
  {
    if dts == [] then 0.0 else dts[0] + Total(dts[1..])
  }

  lemma {:induction false} ReadyStaysReady(s: CooldownState, duration: real, dts: seq<real>)
    requires s.ready
    ensures AfterFrames(s, duration, dts) == s
    decreases |dts|
  {
    if dts != [] {
      ReadyStaysReady(ResumeStep(s, duration, dts[0]), duration, dts[1..]);
    }
  }

  /**
   * A cooldown coroutine that has spent `elapsed` seconds and is still
   * looping is ready after the frames `dts` exactly when the frames before
   * the last one bring it to the cooldown: the flag is set on the frame after
   * `elapsedTime` reaches the cooldown, never earlier and never later.
   */
  lemma {:induction false} ReadyWhenElapsed(elapsed: real, duration: real, dts: seq<real>)
    requires forall i :: 0 <= i < |dts| ==> dts[i] >= 0.0
    ensures AfterFrames(CooldownState(false, elapsed), duration, dts).ready <==>
      (|dts| > 0 && elapsed + Total(dts[..|dts| - 1]) >= duration)
    decreases |dts|
  {
    if dts != [] {
      var rest := dts[1..];
      if elapsed < duration {
        ReadyWhenElapsed(elapsed + dts[0], duration, rest);
        if |dts| > 1 {
          assert dts[..|dts| - 1][1..] == rest[..|rest| - 1];
        }
      } else {
        ReadyStaysReady(CooldownState(true, elapsed), duration, rest);
        assert Total(dts[..|dts| - 1]) >= 0.0;
      }
    }
  }

  /**
   * From the input that starts it, a cooldown whose first frame lasts
   * `dts[0]` and whose later frames last `dts[1..]` is usable again exactly
   * when the frames before the last add up to the cooldown.
   */
  lemma CooldownLastsItsDuration(duration: real, dts: seq<real>)
    requires 0.0 < duration
    requires |dts| > 0 && forall i :: 0 <= i < |dts| ==> dts[i] >= 0.0
    ensures AfterFrames(CooldownState(false, dts[0]), duration, dts[1..]).ready <==>
      Total(dts[..|dts| - 1]) >= duration
  {
    var rest := dts[1..];
    ReadyWhenElapsed(dts[0], duration, rest);
    if |dts| > 1 {
      assert dts[..|dts| - 1][1..] == rest[..|rest| - 1];
    } else {
      assert dts[..|dts| - 1] == [];
    }
  }

  /** One ability's cooldown. */
  class Cooldown {
    /** `dashCooldown` or `sandyCooldown`. */
    const duration: real
    /** `canDash` or `canSandy`. */
    var ready: bool
    /** Whether the cooldown coroutine is inside its loop. */
    var running: bool
    var elapsed: real
    /** The indicator's `fillAmount`. */
    var fill: real

    function State(): CooldownState
      reads this
    {
      CooldownState(ready, elapsed)
    }

    ghost predicate Valid()
      reads this
    {
      (ready <==> !running) &&
      (running ==> 0.0 < duration && 0.0 <= elapsed && fill == Progress(elapsed, duration)) &&
      (!running ==> fill == 1.0)
    }

    /** `Awake` and `OnEnable`: usable, with a full indicator. */
    constructor (duration: real)
      ensures Valid()
      ensures this.duration == duration && ready && fill == 1.0
    {
      this.duration := duration;
      ready, running := true, false;
      elapsed, fill := 0.0, 1.0;
    }

    /**
     * The input callback: ignored unless ready; otherwise the coroutine clears
     * the flag, empties the fill, and takes its first loop pass with this
     * frame's `dt` (or finishes at once when the cooldown is not positive).
     */
    method Perform(dt: real)
      requires Valid() && dt >= 0.0
      modifies this
      ensures Valid()
      ensures !old(ready) ==> unchanged(this)
      ensures old(ready) && 0.0 < duration ==>
        !ready && running && elapsed == dt && fill == Progress(dt, duration)
      ensures old(ready) && duration <= 0.0 ==> ready && fill == 1.0
    {
      if ready {
        ready := false;
        fill := 0.0;
        elapsed := 0.0;
        if elapsed < duration {
          elapsed := elapsed + dt;
          fill := Progress(elapsed, duration);
          running := true;
        } else {
          ready := true;
          fill := 1.0;
        }
      }
    }

    /**
     * One frame of the running coroutine: another loop pass while `elapsed`
     * is below the cooldown, otherwise leave the loop, set the flag and fill
     * the indicator.
     */
    method Resume(dt: real)
      requires Valid() && dt >= 0.0
      modifies this
      ensures Valid()
      ensures !old(running) ==> unchanged(this)
      ensures State() == ResumeStep(old(State()), duration, dt)
      ensures old(running) && old(elapsed) < duration ==>
        running && !ready && elapsed == old(elapsed) + dt && fill == Progress(elapsed, duration)
      ensures old(running) && old(elapsed) >= duration ==>
        !running && ready && fill == 1.0 && elapsed == old(elapsed)
    {
      if running {
        if elapsed < duration {
          elapsed := elapsed + dt;
          fill := Progress(elapsed, duration);
        } else {
          running := false;
          ready := true;
          fill := 1.0;
        }
      }
    }
  }

  class AbilityHandler {
    const dash: Cooldown
    const sandy: Cooldown

    ghost predicate Valid()
      reads this, dash, sandy
    {
      dash != sandy && dash.Valid() && sandy.Valid()
    }

    /** `Awake` and `OnEnable`, with the inspector's cooldowns (5 s and 10 s by default). */
    constructor (dashCooldown: real, sandyCooldown: real)
      ensures Valid() && fresh(dash) && fresh(sandy)
      ensures dash.duration == dashCooldown && sandy.duration == sandyCooldown
      ensures dash.ready && sandy.ready && dash.fill == 1.0 && sandy.fill == 1.0
    {
      dash := new Cooldown(dashCooldown);
      sandy := new Cooldown(sandyCooldown);
    }

    /** `OnDashPerformed` in a frame of `dt` seconds; the Sandy cooldown is untouched. */
    method OnDashPerformed(dt: real)
      requires Valid() && dt >= 0.0
      modifies dash
      ensures Valid()
      ensures !old(dash.ready) ==> unchanged(dash)
      ensures old(dash.ready) && 0.0 < dash.duration ==> !dash.ready && dash.elapsed == dt
      ensures old(dash.ready) && dash.duration <= 0.0 ==> dash.ready && dash.fill == 1.0
      ensures unchanged(sandy)
    {
      dash.Perform(dt);
    }

    /** `OnSandyPerformed` in a frame of `dt` seconds; the Dash cooldown is untouched. */
    method OnSandyPerformed(dt: real)
      requires Valid() && dt >= 0.0
      modifies sandy
      ensures Valid()
      ensures !old(sandy.ready) ==> unchanged(sandy)
      ensures old(sandy.ready) && 0.0 < sandy.duration ==> !sandy.ready && sandy.elapsed == dt
      ensures old(sandy.ready) && sandy.duration <= 0.0 ==> sandy.ready && sandy.fill == 1.0
      ensures unchanged(dash)
    {
      sandy.Perform(dt);
    }

    /** A later frame: each running cooldown coroutine resumes on its own state. */
    method Frame(dt: real)
      requires Valid() && dt >= 0.0
      modifies dash, sandy
      ensures Valid()
      ensures old(dash.running) && old(dash.elapsed) >= dash.duration ==> dash.ready && dash.fill == 1.0
      ensures old(sandy.running) && old(sandy.elapsed) >= sandy.duration ==> sandy.ready && sandy.fill == 1.0
      ensures old(dash.running) && old(dash.elapsed) < dash.duration ==> !dash.ready
      ensures old(sandy.running) && old(sandy.elapsed) < sandy.duration ==> !sandy.ready
      ensures dash.State() == ResumeStep(old(dash.State()), dash.duration, dt)
      ensures sandy.State() == ResumeStep(old(sandy.State()), sandy.duration, dt)
      ensures !old(dash.running) ==> unchanged(dash)
      ensures !old(sandy.running) ==> unchanged(sandy)
    {
      dash.Resume(dt);
      sandy.Resume(dt);
    }
  }
}
