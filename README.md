# Gameplay rules of a Unity action game, in Dafny

This project models the gameplay scripts of a third-person Unity action game. It covers these parts:

- **Regular enemy** (`EnemyBehavior`): each frame it chooses between patrol, chase and attack. A field-of-view check drives an attention accumulator that latches `fullyDetected`. It has a 0.5 s damage-immunity gate, a `timeBetweenAttacks` attack gate, and a death scheduled 0.5 s after a lethal hit.
- **Boss encounter**:
  - `BossFight`: a sense loop and the Red → Blue → Purple → recharge attack sequence with its range checks. The "Sandy" ultimate's handlers double every wait and halve or double the agent speed. Boss health is not clamped, and death is triggered on every lethal hit.
  - `BossAbility`: the pre-hit delays, the particle speeds, and the damage each ability deals given its hit result.
  - `BossHealthbar`: the clamped bar that mirrors the boss's health.
- **Player side**:
  - `AbilityHandler`: the Dash and Sandy cooldowns.
  - `EnemyBack` / `PlayerAttack`: the backstab gate, with the hidden blade folded in.
  - `Weapon`: melee hits.
  - `HealthBar`: the clamped, shield-gated player health, plus the `HealthTest` collision as a test vector.

Every engine query is a parameter of the step that uses it:

- the sight and attack-range `CheckSphere`s are `Senses` and `inAttackRange`;
- the overlap and raycast of the field-of-view check are a `Target` option;
- the abilities' ray and overlap hits are tag options or tag lists;
- collider tags are strings.

Coroutines, `Invoke` and `WaitForSeconds` become explicit state. Each model records where the coroutine is suspended and how long it still has to wait. A step method with the frame's `dt` runs the clock forward and resumes each due wait once. Health, speeds and times are `real`. Boss damage is `int`, as in the source.

Modules follow the scripts:

| module | file | models |
|---|---|---|
| `Engine` | engine.dfy | `Mathf.Clamp`, collider tags, `GameObject.activeSelf`, `CapsuleCollider.enabled` |
| `TimeDilation` | time_dilation.dfy | waits under Sandy; agent speed after a run of Sandy events |
| `PlayerHealth` | health_bar.dfy | `HealthBar`, `HealthTest` |
| `BossHealth` | boss_healthbar.dfy | `BossHealthbar` |
| `BossAbilities` | boss_ability.dfy | `BossAbility` |
| `Boss` | boss_fight.dfy | `BossFight` |
| `Enemies` | enemy_behavior.dfy | `EnemyBehavior` |
| `Backstab` | backstab.dfy | `EnemyBack`, `PlayerAttack`, `HiddenBlade` |
| `Weapons` | weapon.dfy | `Weapon` |
| `Abilities` | ability_handler.dfy | `AbilityHandler` |

Some behaviour of the code is easy to misread; the model keeps it as written:

- **The code does not guard Sandy activation.** Each `HandleSandyActivated` halves the agent speed again (`DoubleActivationQuarters`). Only equal numbers of activations and deactivations restore it (`BalancedRestoresSpeed`).
- **Regular enemies have no Sandy handling.** Their perception is never suppressed, and their timings are never rescaled.
- **Neither kind of enemy latches its death.** A regular enemy hit outside its immunity window at health ≤ 0 schedules another `TriggerDeath`. A boss `TakeDamage` at health ≤ 0 calls `TriggerDeath` again (`Boss.DeathsNotLatched`).
- **The boss has no immunity window** (`Boss.NoImmunityWindow`).
- **The player has no combo chain.** The only player attack input is the backstab gate; the weapon deals damage on contact.
- **Attention can overshoot.** The attention level can exceed `attentionTime` by less than one 0.1 step, because the loop tests before it adds. With the default of 5 s, detection comes on the pass after the level reaches 5 (`Enemies.DefaultDetection`).
- **The recharge restarts on range alone.** After a recharge the sequence restarts if the target is in attack range; sight range is not checked again. When no restart happens, the outer loop senses again in the same frame.

## Model

| member | source | states |
|---|---|---|
| Engine.Clamp | Assets/Scripts/HealthBar.cs:25 | The result lies in [min, max], is the point of that interval nearest to the value, and is the value itself when the value is already inside. |
| TimeDilation.Scaled | Assets/Scripts/BossFight.cs:136-166 | The `isSandyActive ? x * 2 : x` choice every wait is read with. Its properties are stated by `TimeDilation.ScaledDoubles`, `Boss.WaitsDoubleUnderSandy` and `BossAbilities.DelaysDoubleUnderSandy`. |
| TimeDilation.SpeedStep | Assets/Scripts/BossFight.cs:225-239 | One Sandy handler's effect on `agent.speed`: halved on activation, doubled on deactivation. Its properties are stated by `TimeDilation.SpeedAfterCounts`, `TimeDilation.BalancedRestoresSpeed` and `TimeDilation.DoubleActivationQuarters`. |
| TimeDilation.ScaledDoubles | Assets/Scripts/BossFight.cs:136-166 | A wait read under Sandy is exactly twice its base value; without Sandy it is the base value. |
| TimeDilation.SpeedAfterCounts | Assets/Scripts/BossFight.cs:225-239 | After any run of activations and deactivations, the agent speed is the starting speed doubled once per deactivation and halved once per activation, whatever the order. |
| TimeDilation.BalancedRestoresSpeed | Assets/Scripts/BossFight.cs:225-239 | Any run with as many deactivations as activations restores the speed exactly. |
| TimeDilation.DoubleActivationQuarters | Assets/Scripts/BossFight.cs:225-231 | Two activations quarter the speed and differ from one activation; an activation followed by a deactivation restores it. |
| PlayerHealth.AfterDamage | Assets/Scripts/HealthBar.cs:20-32 | Health after a hit stays in [0, max]. It is unchanged under an active shield, is `h - d` when `0 <= d <= h`, becomes 0 when `d >= h`, and does not fall under negative damage. |
| PlayerHealth.AfterHeal | Assets/Scripts/HealthBar.cs:35-40 | Health after a heal stays in [0, max]. It is `h + a` when that fits, is max when `a` reaches the headroom, and never falls for `a >= 0`. |
| PlayerHealth.RepeatedHits | Assets/Scripts/HealthBar.cs:22-26 | `n` unshielded hits of a non-negative `d` leave clamp(h − n·d, 0, max), with n·d as the running total. |
| PlayerHealth.TotalDamageIsProduct | Assets/Scripts/HealthBar.cs:24 | The running total of `n` equal hits is `n * d`. |
| PlayerHealth.ShieldedHitsChangeNothing | Assets/Scripts/HealthBar.cs:22-31 | While the shield is active, no number of hits changes health. |
| PlayerHealth.HealUndoesDamage | Assets/Scripts/HealthBar.cs:20-40 | Healing exactly what a non-bottoming unshielded hit removed restores the previous health. |
| PlayerHealth.NoOpCases | Assets/Scripts/HealthBar.cs:20-39 | Healing at full health is a no-op, and so is a shielded hit. |
| PlayerHealth.HealthTestVector | Assets/Scripts/HealthTest.cs:15-24 | The 1000-damage test hit on a full 100-health bar leaves exactly 0. |
| PlayerHealth.HealthBar.constructor | Assets/Scripts/HealthBar.cs:13-17 | Health starts at `maxHealth` and the fill at 1. |
| PlayerHealth.HealthBar.Fill | Assets/Scripts/HealthBar.cs:43-46 | The fill lies in [0, 1], and fill × max equals the current health. |
| PlayerHealth.HealthBar.TakeDamage | Assets/Scripts/HealthBar.cs:20-32 | The new health is `AfterDamage` of the old one, with the shield state read at the call. Under an active shield the fill is untouched. The invariant health ∈ [0, max] with fill = health/max is kept. |
| PlayerHealth.HealthBar.Heal | Assets/Scripts/HealthBar.cs:35-40 | The new health is `AfterHeal` of the old one, whatever the shield, and the invariant is kept. |
| PlayerHealth.HealthBar.UpdateHealthBar | Assets/Scripts/HealthBar.cs:43-46 | The fill becomes health / max, and only the fill changes. |
| PlayerHealth.HealthTestCollision | Assets/Scripts/HealthTest.cs:17-27 | A Player-tagged collider carrying a bar takes the test damage through `TakeDamage`. Any other collider leaves health as it was. |
| BossHealth.BarAfterHit | Assets/Scripts/BossHealthbar.cs:39-44 | The bar's health after a hit stays in [0, max]. It is `h - d` when `0 <= d <= h` and 0 when `d >= h`, with no shield or gate. |
| BossHealth.EmptyStaysEmpty | Assets/Scripts/BossHealthbar.cs:42 | An empty bar stays at 0 under any non-negative damage. |
| BossHealth.BossHealthbar.constructor | Assets/Scripts/BossHealthbar.cs:23-27 | The bar starts full: health `maxHealth`, fill 1. |
| BossHealth.BossHealthbar.Fill | Assets/Scripts/BossHealthbar.cs:47-50 | The fill lies in [0, 1], and fill × max equals the bar's health. |
| BossHealth.BossHealthbar.TakeDamage | Assets/Scripts/BossHealthbar.cs:39-44 | The new health is `BarAfterHit` of the old one, and the invariant is kept. |
| BossAbilities.Adjusted | Assets/Scripts/BossAbility.cs:110-117 | A missing particle system stays missing. A present one gets simulation speed 0.5 under Sandy and 1 otherwise. |
| BossAbilities.AdjustedIdempotent | Assets/Scripts/BossAbility.cs:102-117 | Adjusting twice for the same Sandy state equals adjusting once. |
| BossAbilities.PlayerHitsZero | Assets/Scripts/BossAbility.cs:77-84 | An overlap yields no Blue hit exactly when none of its colliders is tagged Player. |
| BossAbilities.AfterHitsSnoc | Assets/Scripts/BossAbility.cs:77-84 | One more Blue hit after `n` hits is one more `TakeDamage`. |
| BossAbilities.BossAbility.constructor | Assets/Scripts/BossAbility.cs:13-39 | Damages are 10/15/20, every delay is 0.5, and Sandy is off. The player bar is what `Start` found, null included. |
| BossAbilities.BossAbility.SetSandyState | Assets/Scripts/BossAbility.cs:102-117 | The flag is assigned, not toggled. Both particle systems get the speed for that state, and missing ones stay missing. |
| BossAbilities.BossAbility.PerformRedHit | Assets/Scripts/BossAbility.cs:57-70 | The player loses Red's damage once, through the bar's `TakeDamage`, exactly when the ray hit a Player-tagged collider and the bar is known. Otherwise health is unchanged. |
| BossAbilities.BossAbility.PerformBlueHits | Assets/Scripts/BossAbility.cs:72-85 | The player bar ends at `AfterHits` over as many Blue hits as the overlap has Player-tagged colliders. |
| BossAbilities.BossAbility.PerformPurpleHit | Assets/Scripts/BossAbility.cs:87-100 | As Red, with Purple's damage. |
| BossAbilities.BossAbility.RedDelay | Assets/Scripts/BossAbility.cs:59 | The wait `PerformRedAbility` starts with, read with the current Sandy state. Its values are stated by `BossAbilities.DelaysDoubleUnderSandy`. |
| BossAbilities.BossAbility.BlueDelay | Assets/Scripts/BossAbility.cs:74 | The wait `PerformBlueAbility` starts with. Its values are stated by `BossAbilities.DelaysDoubleUnderSandy`. |
| BossAbilities.BossAbility.PurpleDelay | Assets/Scripts/BossAbility.cs:89 | The wait `PerformPurpleAbility` starts with. Its values are stated by `BossAbilities.DelaysDoubleUnderSandy`. |
| BossAbilities.DelaysDoubleUnderSandy | Assets/Scripts/BossAbility.cs:59-89 | Each pre-hit delay is its base delay, or exactly twice it when Sandy is active. |
| Boss.Sense | Assets/Scripts/BossFight.cs:86-136 | One pass of the outer loop up to its next yield: chase for a frame with `Run` on, start Red's 1.5 s windup (read under Sandy), or idle for a frame with `Run` off. Its choice is stated by `Boss.OuterLoopChoice`. |
| Boss.Resume | Assets/Scripts/BossFight.cs:86-176 | What runs when the coroutine resumes at a suspension, up to its next yield, with the waits of `AttackSequence`. Its order, range checks and Sandy waits are stated by `Boss.ResumeAllowed`, `Boss.RangeChecks`, `Boss.WaitsDoubleUnderSandy`, `Boss.TraceAllowed` and `Boss.ContinuousRangeCycle`. |
| Boss.OuterLoopChoice | Assets/Scripts/BossFight.cs:93-105 | The outer loop chases iff in sight and not in attack range, and starts the sequence iff in both. It idles exactly when not in sight. `Run` is on only when chasing. |
| Boss.ResumeAllowed | Assets/Scripts/BossFight.cs:122-176 | Every resumption follows the written order. Each cooldown follows its own windup, Blue follows Red's cooldown, Purple follows Blue's cooldown, the recharge follows Purple's cooldown, and Red follows only the outer loop or a recharge. |
| Boss.RangeChecks | Assets/Scripts/BossFight.cs:140-175 | Blue starts iff the check after Red passes, and Purple iff the check after Blue passes. Purple's cooldown always leads to the recharge. Red restarts after a recharge iff the target is in attack range. |
| Boss.WaitsDoubleUnderSandy | Assets/Scripts/BossFight.cs:136-166 | With Sandy read as active, every resumption leads to the same place with exactly twice the wait. |
| Boss.TraceAllowed | Assets/Scripts/BossFight.cs:86-176 | For every run of sensed frames, each consecutive pair of suspensions follows the written order. |
| Boss.ContinuousRangeCycle | Assets/Scripts/BossFight.cs:133-175 | With the target always in range, the sequence visits Red's cooldown, Blue, Purple and the recharge, then Red again, in that order. |
| Boss.HealthIsUnclamped | Assets/Scripts/BossFight.cs:241-244 | After any run of hits, boss health is its start minus their sum: nothing is clamped or dropped. |
| Boss.BarMirrorsBoss | Assets/Scripts/BossFight.cs:243-249 | With equal maxima and non-negative hits, the bar equals max(0, boss health), while the boss value goes negative. |
| Boss.DeathsNotLatched | Assets/Scripts/BossFight.cs:251-254 | From health ≤ 0, every further non-negative hit calls `TriggerDeath` again. |
| Boss.NoImmunityWindow | Assets/Scripts/BossFight.cs:241-254 | Four quick 10-point hits take 40 off 100. A lethal hit then triggers one death, and one more hit a second. |
| Boss.BossFight.constructor | Assets/Scripts/BossFight.cs:68-71 | Health starts at `maxHealth` and Sandy is off. The state machine is where its first frame's sense pass leaves it. The bar mirrors the boss. |
| Boss.BossFight.Tick | Assets/Scripts/BossFight.cs:86-176 | When the wait runs out, the coroutine is where `Resume` takes it under the current Sandy state and this frame's senses. Otherwise only the wait shrinks. Health and flags are untouched. |
| Boss.BossFight.HandleSandyActivated | Assets/Scripts/BossFight.cs:225-231 | Sandy goes on and the speed is halved, with no guard. `BossAbility` gets the flag and its particle speeds. Nothing else changes. |
| Boss.BossFight.HandleSandyDeactivated | Assets/Scripts/BossFight.cs:233-239 | Sandy goes off and the speed doubles. `BossAbility` is told. Nothing else changes. |
| Boss.BossFight.TakeDamage | Assets/Scripts/BossFight.cs:241-255 | The full amount comes off, and the bar takes the same hit. A result ≤ 0 adds one death and disables the agent and the collider. Non-negative hits keep the bar mirroring the boss. |
| Boss.BossFight.TriggerDeath | Assets/Scripts/BossFight.cs:257-264 | `Dead` goes on, the agent and the collider go off, and the death count rises by one. |
| Boss.BossFight.OnTriggerEnter | Assets/Scripts/BossFight.cs:273-279 | A `BackstabKnife` contact costs exactly 10, and when that leaves health ≤ 0 it adds one death and disables the agent and the collider. The bar takes the same 10 through `BarAfterHit`, whatever its maximum. A knife hit that leaves health above 0, or any other tag, keeps those flags; any other tag changes neither health, deaths nor the bar. No tag moves the state machine, the Sandy flag or the agent speed. The mirror is kept. |
| Enemies.Branches | Assets/Scripts/EnemyBehavior.cs:197-201 | Patrol runs iff it cannot see and is not in range. Chase runs iff it sees and is not in range. Attack runs iff it sees and is in range. At most one runs. None runs exactly when in range but unseeing. |
| Enemies.PassesFrom | Assets/Scripts/EnemyBehavior.cs:143-154 | If `n` tenths is the first multiple of 0.1 at or above `attentionTime`, the loop reaches exactly `n` tenths without detecting. The next pass detects. |
| Enemies.DefaultDetection | Assets/Scripts/EnemyBehavior.cs:143-154 | With `attentionTime` 5, fifty steps reach 5 undetected, and the 51st pass detects. |
| Enemies.EnemyBehavior.constructor | Assets/Scripts/EnemyBehavior.cs:38-54 | It starts unseeing, with no tracker, attention 0, not detected, damage gate open, no attack cooling and no death pending. |
| Enemies.EnemyBehavior.AttentionLoop | Assets/Scripts/EnemyBehavior.cs:143-154 | One pass adds exactly 0.1 and waits 0.1 s when the level is below `attentionTime`. Otherwise it leaves the loop and latches `fullyDetected`. |
| Enemies.Visible | Assets/Scripts/EnemyBehavior.cs:87-125 | The condition under which the check sees the player: a target exists, its angle is below half the view angle, and the ray to it is unobstructed. `Enemies.EnemyBehavior.FieldOfViewCheck` states that visibility becomes exactly this, and that every other path clears it. |
| Enemies.EnemyBehavior.FieldOfViewCheck | Assets/Scripts/EnemyBehavior.cs:83-141 | Visibility becomes exactly "target exists, angle < view/2, unobstructed". A tracker starts only on a rising edge, when none exists. Lost sight clears the tracker and resets attention to exactly 0. `fullyDetected` is never cleared. |
| Enemies.EnemyBehavior.Update | Assets/Scripts/EnemyBehavior.cs:194-202 | The branches run are `Branches` of this frame's booleans. An attack fires iff Attack runs and none is cooling down. Firing schedules `ResetAttack` in `timeBetweenAttacks`. |
| Enemies.EnemyBehavior.AttackPlayer | Assets/Scripts/EnemyBehavior.cs:236-252 | It fires iff `alreadyAttacked` was false, and leaves it true. |
| Enemies.EnemyBehavior.TakeDamage | Assets/Scripts/EnemyBehavior.cs:259-280 | A hit with the gate closed changes nothing. An accepted hit subtracts exactly `damage` and closes the gate for 0.5 s. When health ends ≤ 0 it also schedules a death 0.5 s later, with no latch. |
| Enemies.EnemyBehavior.Advance | Assets/Scripts/EnemyBehavior.cs:143-293 | One frame: a due attention step runs one loop pass, and the gate reopens once 0.5 s have passed. A due death adds exactly one to the death count, and a due `ResetAttack` clears the attack flag. Nothing else clears it. While the flag is set, the time left to `ResetAttack` shrinks by the frame's length; otherwise it is unchanged. |
| Enemies.EnemyBehavior.AdvanceAttention | Assets/Scripts/EnemyBehavior.cs:143-154 | A running tracker whose 0.1 s wait is over takes one pass of the attention loop. Otherwise its wait shrinks by the frame's length. With no tracker, or a finished one, nothing changes. |
| Enemies.EnemyBehavior.AdvanceDamageCooldown | Assets/Scripts/EnemyBehavior.cs:278-279 | The gate is open afterwards iff it was open or the rest of the 0.5 s window has run out. |
| Enemies.EnemyBehavior.AdvanceDeath | Assets/Scripts/EnemyBehavior.cs:273-293 | A pending death fires exactly once, when its delay runs out. |
| Enemies.EnemyBehavior.AdvanceAttackReset | Assets/Scripts/EnemyBehavior.cs:250-257 | The attack flag is cleared exactly when the time left to `ResetAttack` runs out. That time shrinks by the frame's length while the flag is set and is unchanged otherwise, so the flag stays set for `timeBetweenAttacks`. |
| Backstab.AfterTrigger | Assets/Scripts/EnemyBack.cs:31-49 | A Player event sets `canAttack` to "it was an entry". Any other tag leaves it unchanged. |
| Backstab.CanAttackFollowsLastPlayerEvent | Assets/Scripts/EnemyBack.cs:31-49 | After any run of trigger events, `canAttack` is true iff the player's latest event was an entry. With no player event it keeps its start value. |
| Backstab.EnemyBack.constructor | Assets/Scripts/EnemyBack.cs:18 | `canAttack` starts false. |
| Backstab.EnemyBack.OnTriggerEnter | Assets/Scripts/EnemyBack.cs:31-37 | `canAttack` becomes `AfterTrigger` of an entry, and `Dead` is untouched. |
| Backstab.EnemyBack.OnTriggerExit | Assets/Scripts/EnemyBack.cs:43-49 | `canAttack` becomes `AfterTrigger` of an exit, and `Dead` is untouched. |
| Backstab.EnemyBack.TriggerDeath | Assets/Scripts/EnemyBack.cs:54-57 | `Dead` goes on, and `canAttack` is untouched. |
| Backstab.PlayerAttack.constructor | Assets/Scripts/HiddenBlade.cs:19-23 | The blade starts inactive, and `Backstab` off. |
| Backstab.PlayerAttack.Attack | Assets/Scripts/PlayerAttack.cs:43-58 | With a back zone that allows it, the blade activates and `Backstab` goes on. Otherwise nothing changes. |
| Backstab.PlayerAttack.OnBackstabAnimationEnd | Assets/Scripts/PlayerAttack.cs:63-71 | The blade goes inactive and `Backstab` off, always. |
| Backstab.PlayerAttack.Kill | Assets/Scripts/PlayerAttack.cs:76-82 | The enemy dies iff its zone allows the attack at that moment, so leaving in between spares it. `canAttack` is untouched. |
| Weapons.Weapon.OnTriggerEnter | Assets/Scripts/Weapon.cs:22-52 | Only an Enemy-tagged collider with an `EnemyBehavior` is affected. A closed gate changes nothing. An accepted hit subtracts the weapon's damage and opens the 0.5 s immunity window; it schedules a death 0.5 s later exactly when health ends ≤ 0. Sight, attention, the attack gate and the death count are untouched. The call disables the capsule when health is ≤ 0 right after it, and otherwise leaves it as it was. A missing enemy changes nothing. |
| Abilities.Progress | Assets/Scripts/AbilityHandler.cs:120-123 | The shown fill lies in [0, 1], is elapsed/cooldown while elapsed ≤ cooldown, and is 1 once elapsed reaches it. |
| Abilities.ResumeStep | Assets/Scripts/AbilityHandler.cs:117-131 | A ready cooldown is unchanged, and elapsed never decreases. A running one becomes ready exactly when its elapsed time has reached the cooldown. |
| Abilities.ReadyWhenElapsed | Assets/Scripts/AbilityHandler.cs:117-131 | A running cooldown is ready after a run of frames iff the frames before the last bring its elapsed time to the cooldown. |
| Abilities.CooldownLastsItsDuration | Assets/Scripts/AbilityHandler.cs:110-131 | From the press that starts it, a cooldown is usable again iff the frames before the last add up to its length: never earlier, never later. |
| Abilities.Cooldown.constructor | Assets/Scripts/AbilityHandler.cs:45-60 | Usable, with a full indicator. |
| Abilities.Cooldown.Perform | Assets/Scripts/AbilityHandler.cs:77-125 | A press while not ready changes nothing. Otherwise the flag clears, elapsed becomes this frame's `dt`, and the fill shows the progress. A non-positive cooldown is ready again at once with fill 1. |
| Abilities.Cooldown.Resume | Assets/Scripts/AbilityHandler.cs:117-131 | One frame moves the state by `ResumeStep`. The flag stays false while looping. On exit the flag is true and the fill 1. |
| Abilities.AbilityHandler.constructor | Assets/Scripts/AbilityHandler.cs:19-60 | Two separate cooldowns, both usable with full indicators. |
| Abilities.AbilityHandler.OnDashPerformed | Assets/Scripts/AbilityHandler.cs:77-83 | Gated on `canDash`; with a non-positive cooldown the press leaves it ready with fill 1. The Sandy cooldown is unchanged. |
| Abilities.AbilityHandler.OnSandyPerformed | Assets/Scripts/AbilityHandler.cs:90-96 | Gated on `canSandy`; with a non-positive cooldown the press leaves it ready with fill 1. The Dash cooldown is unchanged. |
| Abilities.AbilityHandler.Frame | Assets/Scripts/AbilityHandler.cs:102-172 | Each cooldown's flag and elapsed time move by one `ResumeStep` of its own. A finished one is ready with fill 1, an unfinished one stays not ready, and an idle one is unchanged. |

## Left out

- Physics queries (`CheckSphere`, `OverlapSphere`, `Raycast`, `Vector3.Angle`/`Distance`) are inputs of the steps. All range checks the boss makes in one frame are taken to give the same answer.
- Navigation, facing and walk points are left out, because they are engine calls, vector maths and randomness. This covers `SetDestination` in `Patroling`, `ChasePlayer` and `Chase`, `LookAt`/`Slerp`, and `Random.Range` in `SearchWalkPoint`.
- Animator flags, particles, audio, gizmos and logging are left out. Kept are `Run`, `Dead` and `Backstab`, the blade's active state, and the particle simulation speeds.
- `BossFight.DestroyAfterDelay` (loading scene 3 after 2 s) is left out, because it is scene lifecycle.
- The attention canvas and bar fill in `EnemyBehavior` are left out, because they are display only.
- `FOVRoutine`'s 0.2 s cadence is left out: the caller decides when `FieldOfViewCheck` runs.
- `EnemyBehavior.TriggerDeath` calls `FrontDeath` on `EnemyBack`, and `EnemyBack.cs` defines no such method. The model counts these calls as death events.
- `BossFight` subscribes to `AbilityHandler.OnSandyActivated`/`OnSandyDeactivated`, and `AbilityHandler.cs` declares neither event. The two handlers are modelled as calls from outside.
- `Blocking` appears only as the shield object's `activeSelf`. `GameManager`, the menus and the cutscene scripts are not part of this model.
- Floating-point rounding is not modelled: values are exact reals. Under single-precision floats, fifty additions of 0.1 need not land exactly on 5, so `Enemies.DefaultDetection` models exact rather than float steps.
- `PlayerHealth.HealthBar.constructor` and `BossHealth.BossHealthbar.constructor` require `maxHealth > 0`. The fill is a division by it, and the inspector default is 100.
- `BossAbilities.BossAbility.PerformRedHit`, `PerformBlueHits` and `PerformPurpleHit` model what each ability coroutine does after its delay. The delay itself is `RedDelay`/`BlueDelay`/`PurpleDelay`, read when the animation event fires. The caller runs the hit when that delay is over.
- `Abilities.Cooldown.Perform`: the indicator's fill is kept in [0, 1], because a UI image's fill amount is clamped to that range.
- `Enemies.EnemyBehavior.Advance` and `Boss.BossFight.Tick` resume each pending wait at most once per frame, as a coroutine does. A frame longer than several waits therefore does not run several steps at once.
- The single-threaded frame loop is not modelled as concurrency, because it has none.
