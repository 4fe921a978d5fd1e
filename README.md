# GP-559 character and weapon core, in Dafny

This project models the gameplay core of the GP-559 browser shooter:

- the player's layered state (grounding, movement, stance, weapon, lean) and the five controllers that change it;
- the weapon runtime: fire gating, hit classification, the reload timeline, recoil and aim-down-sights;
- the weapon definitions with their `||` defaulting;
- the Health component;
- the containers the game keeps its objects in: `SafeArray`, `EntityManager`, an entity's component list, `GameConfig`'s observers and the decal FIFO;
- the AI controller's bookkeeping;
- the input system's key, mouse and look handling.

Objects the JavaScript mutates in place are Dafny classes with `modifies` clauses. Each state-changing method is tied by its postcondition to a step function over values (`Player.Tick`, `AI.UpdateStep`, `SafeArrays.Pass`, `Decals.Push`, …). The lemmas about those functions carry the properties.

The outside world is passed in as parameters:

- the clock (`now`);
- the ground ray (`probe`) and the bullet ray (the hit collider);
- `Math.sin` (`sin`) and the ADS blend factor `1 - exp(-speed * dt)` (`k`);
- the sight's position in the weapon group's frame (`sightLocal`), which the scene graph computes;
- the AI's measurements of the point it moves toward (`Sensed`) and its random wander offset;
- the SafeArray callback's effect on the array (`fn`).

Exceptions the JavaScript raises are `Outcome`/`Result` values.

Behaviour the model keeps as the code has it:

- Only `ads` slows movement: `case ADS || RELOAD || FOCUS_HIPFIRE` is `case 'ads'`.
- Movement runs before stance in `PlayerController.update`.
- A jump has no cooldown and leaves horizontal velocity alone.
- With the rifle's windows, the magazine is visible at reload progress 0.5, because the insert window `[0.5, 0.75)` opens there.
- `SafeArray.isEmpty` is true when the array is NOT empty.
- `EntityManager.removeEntity` calls a method `SafeArray` lacks and throws.
- The decal list stores `{mesh, parent}` records, so evicting the oldest and `clearAll` throw. The thrown error ends `Weapon.fire` before the recoil is applied.
- RAGDOLL death calls `rigidBody.disable()`, which does not exist, whenever the entity has a RigidBody.
- `Health.die` sets `isDead` on the component, not on the entity. So the AI's deactivation latch sees only `isRagdoll` (or an `isDead` another system writes).
- The death animation name is written under the key `deathAnimationNAme`.
- `WeaponDefinition` builds no `ads` section, so the Weapon constructor as written throws a TypeError when it reads `definition.ads.sightNode`. The model gives the ADS settings as a separate record and describes the constructor that record makes possible.
- Given such a record, the constructor computes the sight alignment but leaves `isSightAlignmentCalculated` false, so the first aim recomputes it.
- Mouse button 1 (the middle button) is recorded as `rightclick`.
- `PlayerController.velocity` is never assigned.
- `PlayerController` has no `handleFire` method. So on every frame with the left button held, `InputSystem.update` throws `TypeError: controller.handleFire is not a function` once the player's move and aim calls are made.
- `Entity.update` calls each component's `update()` without the `deltaTime` it is given. The player's controllers therefore compute with `undefined`, which makes a reload timer and the lean amount `NaN`: a reload never ends and the lean amount stays `NaN`.

## Model

| member | source | states |
|---|---|---|
| PlayerState.GroundingFromTag | src/components/states/PlayerState.js:12-15 | the tag determines the grounding state: exactly "grounded" and "airborne" name a state, and each names exactly one |
| PlayerState.MovementFromTag | src/components/states/PlayerState.js:23-26 | "idle" and "moving" are the only movement tags, one state each |
| PlayerState.StanceFromTag | src/components/states/PlayerState.js:34-38 | "standing", "crouching" and "prone" are the only stance tags, one state each |
| PlayerState.WeaponFromTag | src/components/states/PlayerState.js:46-51 | "hipfire", "ads", "focus_hipfire" and "reload" are the only weapon tags, one state each |
| PlayerState.LeanFromTag | src/components/states/PlayerState.js:59-63 | "none", "left" and "right" are the only lean tags, one state each |
| PlayerState.TagsDistinct | src/components/states/PlayerState.js:12-63 | within every layer, different states have different string tags |
| Player.CrouchStance | src/components/controllers/StanceController.js:34-46 | off the ground the stance is unchanged; on it, crouching stands up and standing or prone crouches |
| Player.ProneStance | src/components/controllers/StanceController.js:51-61 | off the ground unchanged; on it, prone stands up and anything else goes prone |
| Player.StanceTogglesReturn | src/components/controllers/StanceController.js:39-60 | prone twice, or crouch twice, from standing on the ground returns to standing; crouch from prone crouches |
| Player.StanceStep | src/components/controllers/StanceController.js:23-29 | airborne forces standing; grounded leaves the frame untouched |
| Player.LeanLeftToggle | src/components/controllers/LeanController.js:60-66 | the result is left exactly when the lean was not left, and none exactly when it was |
| Player.LeanRightToggle | src/components/controllers/LeanController.js:71-77 | the mirror image of the left toggle |
| Player.LeanToggles | src/components/controllers/LeanController.js:60-77 | the same side twice restores none (and any state but the opposite side); the opposite side switches directly |
| Player.LeanTarget | src/components/controllers/LeanController.js:36-48 | the target lies in [-1, 1] and is 0 exactly for no lean |
| Player.LeanAmountStep | src/components/controllers/LeanController.js:50-54 | after an update the lean amount lies in [-1, 1] |
| Player.LeanNoOvershoot | src/components/controllers/LeanController.js:50-54 | with leanSpeed * dt in [0, 1], the amount moves toward its target and never passes it |
| Player.LeanStep | src/components/controllers/LeanController.js:35-55 | the lean update changes the lean amount and nothing else, the lean state included |
| Player.CameraOffsetFor | src/components/controllers/LeanController.js:83-89 | z is 0, x is zero exactly when the amount is, x and roll are in the fixed ratio leanDistance : maxLeanAngle, and both are bounded by them for amounts in [-1, 1] |
| Player.LeanController.GetCameraOffset | src/components/controllers/LeanController.js:83-89 | the offset is CameraOffsetFor the current lean amount, bounded by leanDistance and maxLeanAngle for amounts in [-1, 1] |
| Player.WeaponStep | src/components/controllers/WeaponController.js:33-51 | a running reload counts down and ends in hipfire with timer 0 (never ads) once it runs out; outside a reload the state is ads exactly when aiming, never focus-hipfire or reload; only the weapon state and timer change |
| Player.ReloadLock | src/components/controllers/WeaponController.js:34-43 | over n frames of dt, a reload stays locked (aim input ignored) while n * dt is below the timer, and ends in hipfire on the first frame that reaches it |
| Player.StanceSpeedModifier | src/components/controllers/MovementController.js:79-90 | the modifier is in (0, 1] and is 1 exactly for standing |
| Player.AimingSpeedModifier | src/components/controllers/MovementController.js:96-103 | the modifier is 0.5 exactly in ads and 1 in every other weapon state, reload and focus-hipfire included |
| Player.MoveSpeedBounds | src/components/controllers/MovementController.js:36-38 | the modified speed lies between a tenth of the base speed and the base speed, and equals it exactly when standing outside ads |
| Player.MovementStep | src/components/controllers/MovementController.js:30-65 | without a body nothing changes (the direction is kept); with one, moving exactly for a nonzero direction, horizontal velocity is direction times the modified speed or zero, vertical velocity is kept and the direction is cleared |
| Player.GroundingStep | src/components/controllers/GroundingController.js:25-36 | without a body nothing changes; with one, isGrounded is the probe (undefined without a physics world) and grounded exactly when the probe hit |
| Player.Tick | src/components/PlayerController.js:142-148 | an update never changes the lean side or the aim flag, always ends focus-hipfire, changes neither grounding nor velocity without a body, and leaves an airborne player standing |
| Player.AirborneStands | src/components/PlayerController.js:142-148 | after any update, an airborne player is standing |
| Player.MovingIffDirection | src/components/PlayerController.js:142-148 | after an update with a body, moving exactly when a nonzero direction was stored since the last update, and the direction is cleared |
| Player.SecondTickIdle | src/components/controllers/MovementController.js:64 | two updates with no move in between leave the player idle |
| Player.JumpThenTickStanding | src/components/controllers/GroundingController.js:38-49 | after a jump, an update that does not find ground keeps the player standing |
| Player.StanceController.Update | src/components/controllers/StanceController.js:23-29 | airborne sets standing, grounded leaves the stance |
| Player.StanceController.HandleCrouch | src/components/controllers/StanceController.js:34-46 | the stance becomes CrouchStance of grounding and old stance |
| Player.StanceController.HandleProne | src/components/controllers/StanceController.js:51-61 | the stance becomes ProneStance of grounding and old stance |
| Player.StanceController.ForceStanding | src/components/controllers/StanceController.js:66-68 | standing, whatever the grounding |
| Player.LeanController.constructor | src/components/controllers/LeanController.js:13 | the lean amount starts at 0 |
| Player.LeanController.Update | src/components/controllers/LeanController.js:35-55 | the amount becomes LeanAmountStep toward the state's target; the lean state is not written |
| Player.LeanController.HandleLeanLeft | src/components/controllers/LeanController.js:60-66 | the lean state becomes LeanLeftToggle of the old one |
| Player.LeanController.HandleLeanRight | src/components/controllers/LeanController.js:71-77 | the lean state becomes LeanRightToggle of the old one |
| Player.WeaponController.constructor | src/components/controllers/WeaponController.js:14-17 | not aiming, timer 0 |
| Player.WeaponController.Update | src/components/controllers/WeaponController.js:33-51 | weapon state and timer become those of WeaponStep |
| Player.WeaponController.HandleAim | src/components/controllers/WeaponController.js:56-60 | sets aiming unless reloading, when the flag is left as it was |
| Player.WeaponController.HandleAimRelease | src/components/controllers/WeaponController.js:65-67 | clears aiming |
| Player.WeaponController.HandleReload | src/components/controllers/WeaponController.js:72-85 | during a reload nothing changes (the timer is not reset); otherwise reload with the weapon's reloadTime, or 2.0 without a weapon, and the weapon's own reload is started; the weapon's ammunition and parts are untouched |
| Player.WeaponController.HandleFocusAim | src/components/controllers/WeaponController.js:90-94 | focus-hipfire unless reloading |
| Player.MovementController.constructor | src/components/controllers/MovementController.js:21-24 | the stored direction starts at zero |
| Player.MovementController.Update | src/components/controllers/MovementController.js:30-65 | the frame becomes MovementStep of the old one; the body's impulses and type are untouched |
| Player.MovementController.HandleMove | src/components/controllers/MovementController.js:71-73 | stores the direction and nothing else |
| Player.GroundingController.Update | src/components/controllers/GroundingController.js:25-36 | the frame becomes GroundingStep of the old one |
| Player.GroundingController.HandleJump | src/components/controllers/GroundingController.js:38-49 | grounded with a body: exactly one impulse (0, jumpForce, 0), airborne and standing; otherwise no state and no impulse changes; the body's velocity and type are never touched |
| Player.PlayerController.constructor | src/components/PlayerController.js:19-40 | grounded, idle, standing, hipfire, no lean, isGrounded true, velocity never set, fresh sub-controllers |
| Player.PlayerController.HandleMove | src/components/PlayerController.js:79-81 | only the stored direction changes |
| Player.PlayerController.HandleJump | src/components/PlayerController.js:86-88 | the jump rule, and nothing else changes: a refused jump applies no impulse, and velocity and body type are never touched |
| Player.PlayerController.HandleCrouch | src/components/PlayerController.js:93-95 | only the stance changes, to CrouchStance |
| Player.PlayerController.HandleProne | src/components/PlayerController.js:100-102 | only the stance changes, to ProneStance |
| Player.PlayerController.HandleLeanLeft | src/components/PlayerController.js:107-109 | only the lean state changes |
| Player.PlayerController.HandleLeanRight | src/components/PlayerController.js:114-116 | only the lean state changes |
| Player.PlayerController.HandleAim | src/components/PlayerController.js:121-123 | only the aiming flag changes, and not during a reload |
| Player.PlayerController.HandleAimRelease | src/components/PlayerController.js:128-130 | only the aiming flag changes, to false |
| Player.PlayerController.HandleReload | src/components/PlayerController.js:135-137 | during a reload nothing changes, the weapon's reload included; otherwise only the weapon state and timer change, and the weapon starts reloading; the weapon's ammunition and parts are untouched |
| Player.PlayerController.Update | src/components/PlayerController.js:142-148 | the frame becomes Tick of the old one: grounding, movement, stance, weapon, lean in that order; the body's impulses and type are untouched |
| WeaponRuntime.FireRateGate | src/components/Weapon.js:229-237 | after a shot at now, no shot is possible before now + fireRate |
| WeaponRuntime.LastRoundEmpties | src/components/Weapon.js:229-237 | with no round left the weapon cannot fire at any time |
| WeaponRuntime.FireRateReopens | src/components/Weapon.js:229-237 | with a round left, the weapon can fire again from `fireRate` seconds after a shot on |
| WeaponRuntime.CanFireAt | src/components/Weapon.js:229-237 | firing is allowed exactly when a round is left and the next-shot time `lastFireTime + fireRate` has come; reloading is not consulted |
| WeaponRuntime.IdentifyHitObject | src/components/Weapon.js:341-360 | no user data or no entity gives (null, static); entity type gives (null, entity); a mesh gives (mesh, type); otherwise (null, static) |
| WeaponRuntime.EntityHitsGetNoDecal | src/components/Weapon.js:341-360 | a hit classified as an entity is a surface the decal system skips |
| WeaponRuntime.DamageTarget | src/components/Weapon.js:262-271 | damage goes only to entity hits whose entity has Health |
| WeaponRuntime.Phase | src/components/Weapon.js:433-498 | inside a window [start, end) the phase lies in [0, 1) |
| WeaponRuntime.PhaseBounds | src/components/Weapon.js:433-498 | a fraction with numerator in [0, denominator) lies in [0, 1) |
| WeaponRuntime.HandleKind | src/components/Weapon.js:478-498 | the charge moves the charging handle when there is one, else the slide, else nothing |
| WeaponRuntime.DropPose | src/components/Weapon.js:433-457 | the drop starts at the cached pose, falls at most `magDropDistance` over phases in [0, 1], keeps depth and y-rotation, and is visible exactly below phase 0.9 |
| WeaponRuntime.InsertPose | src/components/Weapon.js:459-476 | the insert at phase p has the drop's pose at phase 1 - p, and the magazine is always shown |
| WeaponRuntime.ChargePose | src/components/Weapon.js:478-498 | the charge keeps rotation and visibility and changes only the coordinate on `chargeAxis` (z for any axis other than x and y) |
| WeaponRuntime.ReloadFrame | src/components/Weapon.js:415-498 | the windows are tested independently and applied in order: where the insert window is open the magazine takes the insert pose (back toward its cached place, `magDropDistance * (1 - phase)` below it) and is shown; otherwise the drop window gives the drop pose, hidden from phase 0.9; with neither the magazine is untouched; in the charge window the charging handle (else the slide) takes the charge pose, outside it that part is untouched; every other part is untouched |
| WeaponRuntime.Restored | src/components/Weapon.js:500-525 | the parts after finishing a reload: the same parts |
| WeaponRuntime.RestoredIsLoadPose | src/components/Weapon.js:500-525 | every part ends visible, and every cached part is back in its cached position and rotation |
| WeaponRuntime.DropInsertContinuity | src/components/Weapon.js:433-476 | the insert animation starts at the drop's final pose and ends at the cached pose |
| WeaponRuntime.ChargeMovesOneAxis | src/components/Weapon.js:415-498 | inside the charge window and outside both magazine windows, a reload frame changes only the charging handle (else the slide), and that part only along `chargeAxis` |
| WeaponRuntime.Ak47HalfwayMagazineShown | src/components/Weapon.js:423-425 | with the rifle's windows, the magazine is visible at progress 0.5 |
| WeaponRuntime.ReloadTick | src/components/Weapon.js:404-413 | not reloading: no change; progress reaching 1 ends the reload with a full magazine and progress 0; otherwise progress advances by the step |
| WeaponRuntime.ReloadCompletes | src/components/Weapon.js:404-413 | a running reload has finished, with a full magazine, after n frames once n * step covers the remaining progress |
| WeaponRuntime.IdleTicks | src/components/Weapon.js:404-405 | frames without a reload change nothing |
| WeaponRuntime.RecoilStep | src/components/Weapon.js:539-545 | a kick at or below 0 is left; a positive kick never goes negative, decays by the step or stops at 0, and never grows |
| WeaponRuntime.RecoilLinear | src/components/Weapon.js:539-545 | after n frames the kick is kick - n * decay, floored at 0 |
| WeaponRuntime.SightAlignment | src/components/Weapon.js:732-757 | without a sight the alignment is zero; with one, moving the weapon group by it puts the sight at the adjusted depth (`r.z + sight.z == adj.z`), laterally at the adjustment and 0.1 above it |
| WeaponRuntime.SightLateralIgnored | src/components/Weapon.js:741-749 | only the sight's depth is used: two sights at the same depth get the same alignment |
| WeaponRuntime.FullAimPlacesSight | src/components/Weapon.js:764-792 | fully aimed, the weapon offset is exactly the sight alignment, so the sight ends at the adjusted depth (on the camera plane without adjustment) |
| WeaponRuntime.AdsStep | src/components/Weapon.js:764-774 | the gap to the target shrinks by the factor (1 - k); with k in [0, 1] progress stays between its old value and the target |
| WeaponRuntime.AdsGeometric | src/components/Weapon.js:771-773 | after n frames the gap is (1 - k)^n times the first gap |
| WeaponRuntime.AdsStaysInUnit | src/components/Weapon.js:771-773 | starting in [0, 1] with k in [0, 1], ADS progress stays in [0, 1] |
| WeaponRuntime.Weapon.constructor | src/components/Weapon.js:114-180 | full magazine, nothing reloading, offsets at the hip position, load-time poses cached for every found part, sight alignment computed but not marked |
| WeaponRuntime.Weapon.CanFire | src/components/Weapon.js:229-237 | `canFire()` is CanFireAt on the weapon's ammunition, last shot time and fire rate, so a weapon that can fire has a round |
| WeaponRuntime.Weapon.Fire | src/components/Weapon.js:239-284 | a refused shot changes nothing, the target and its body included; an allowed shot spends a round and records the time; without a hit it succeeds and sets the recoil kick; a hit on a decal surface appends one fresh record attached to the hit object (or the scene) as Push does, other surfaces keep the decals; the target with Health takes Damaged; the shot fails exactly when the decal eviction throws or the target's fatal ragdoll death throws, and then the recoil is not set |
| WeaponRuntime.Weapon.StartReload | src/components/Weapon.js:388-399 | reloading afterwards; progress reset to 0 only if no reload was running |
| WeaponRuntime.Weapon.UpdateReloadAnimation | src/components/Weapon.js:404-431 | bookkeeping as ReloadTick; parts as ReloadFrame below completion, as Restored on completion, untouched when not reloading |
| WeaponRuntime.Weapon.FinishReload | src/components/Weapon.js:500-533 | not reloading, progress 0, full magazine, parts restored |
| WeaponRuntime.Weapon.UpdateRecoil | src/components/Weapon.js:539-545 | the kick becomes RecoilStep with decay dt * recoilRecoverySpeed |
| WeaponRuntime.Weapon.UpdateAds | src/components/Weapon.js:764-799 | progress becomes AdsStep toward 1 or 0; the alignment is computed on the first aim only; the offset is the blend of hip and sight positions, and equals the sight alignment at full progress |
| WeaponDefinitions.OrNumber | src/config/WeaponDefinitions.js:15-47 | a supplied nonzero number is kept; a missing or zero one becomes the default |
| WeaponDefinitions.OrInt | src/config/WeaponDefinitions.js:45 | the same for the magazine size |
| WeaponDefinitions.OrString | src/config/WeaponDefinitions.js:28 | a supplied non-empty string is kept; a missing or empty one becomes the default |
| WeaponDefinitions.PartName | src/config/WeaponDefinitions.js:6-12 | a part name is present exactly when supplied and non-empty |
| WeaponDefinitions.Build | src/config/WeaponDefinitions.js:2-48 | name and model path are copied, and every field with a nonzero default is nonzero |
| WeaponDefinitions.EmptyConfigDefaults | src/config/WeaponDefinitions.js:15-47 | an empty config gets the listed defaults (duration 2.0, magDropEnd 0.25, damage 35, fireRate 0.1, magazine 30, reloadTime 2.0) |
| WeaponDefinitions.SuppliedZeroIsDefault | src/config/WeaponDefinitions.js:16-25 | supplying 0 is the same as omitting the field, e.g. magDropRotation 0 gives 0.3 |
| WeaponDefinitions.SuppliedTruthyKept | src/config/WeaponDefinitions.js:42-46 | supplied nonzero stats are kept |
| WeaponDefinitions.Ak47Values | src/config/WeaponDefinitions.js:52-94 | the rifle's stats, windows, axis, recoil and parts, with body, stock and sights dropped |
| WeaponDefinitions.PistolValues | src/config/WeaponDefinitions.js:96-124 | the pistol's stats and the defaults it inherits (0.5, 0.3, 0.03, 'z') |
| HealthComponent.ExecuteDeathBehavior | src/components/Health.js:103-181 | which flags each death behaviour sets, the fallback of unknown behaviours to disappear, the throw of ragdoll with a RigidBody, and persist fixing the body; the animation name is written under `deathAnimationNAme` only by the death-animation behaviour with a non-empty name, the item list only by drop-items when one is supplied, and both are otherwise kept |
| HealthComponent.HandleDisappear | src/components/Health.js:129-131 | marks the entity for death and changes no other flag |
| HealthComponent.Damaged | src/components/Health.js:64-68 | health after damage is never negative and is 0 exactly when the damage is lethal |
| HealthComponent.Healed | src/components/Health.js:79-82 | health after healing never exceeds the maximum |
| HealthComponent.DamageThenHeal | src/components/Health.js:61-82 | healing by the amount of non-lethal damage restores the health |
| HealthComponent.Percentage | src/components/Health.js:187-189 | the percentage times the maximum is the current health; undefined exactly for a zero maximum |
| HealthComponent.PercentageIsFraction | src/components/Health.js:187-189 | between 0 and a positive maximum the percentage is in [0, 1] |
| HealthComponent.Health.HealthPercentage | src/components/Health.js:187-189 | the component's percentage is Percentage of its health, a fraction in [0, 1] while the health lies between 0 and a positive maximum |
| HealthComponent.Health.constructor | src/components/Health.js:40-54 | full health, maximum 100 and disappear by default, not dead |
| HealthComponent.Health.Die | src/components/Health.js:87-98 | idempotent: the first call sets isDead, calls the callback once and applies the death behaviour's flags; later calls change nothing; the body's type becomes fixed exactly on a first death with persist, and its velocity and impulses are never touched |
| HealthComponent.Health.TakeDamage | src/components/Health.js:61-73 | a dead entity takes no damage and reports false; non-lethal damage leaves flags and callback alone; lethal damage sets health 0, dies (callback once, death flags, persist fixes the body) and reports true or the death behaviour's error; the body's velocity and impulses are never touched |
| HealthComponent.Health.Heal | src/components/Health.js:79-82 | no effect when dead; otherwise Healed |
| SafeArrays.Pass | src/utils/SafeArray.js:47-51 | the pass visits at most the listed elements, and only elements of the list |
| SafeArrays.PassSkipsQueued | src/utils/SafeArray.js:47-51 | no element queued for removal is passed to the callback, and the removal queue only grows |
| SafeArrays.PassHonoursEarlierRemovals | src/utils/SafeArray.js:47-51 | an element the callback queues for removal is not visited later in the same pass |
| SafeArrays.PassVisitsFromList | src/utils/SafeArray.js:47-51 | every visited element comes from the array being iterated, so elements added during the pass are not visited |
| SafeArrays.QuietPassVisitsLive | src/utils/SafeArray.js:44-54 | with a callback that queues nothing, a pass visits exactly the elements outside the removal queue |
| SafeArrays.SafeArray.constructor | src/utils/SafeArray.js:12-16 | empty array and queues |
| SafeArrays.SafeArray.IsEmpty | src/utils/SafeArray.js:20-22 | true exactly when there is an element or a queued addition (the inverse of its name) |
| SafeArrays.SafeArray.Add | src/utils/SafeArray.js:29-31 | only the addition queue grows, by the element at its end |
| SafeArrays.SafeArray.Remove | src/utils/SafeArray.js:37-39 | only the removal queue grows |
| SafeArrays.SafeArray.AddQueued | src/utils/SafeArray.js:57-62 | queued additions are appended after the live elements in queue order, and the queue is emptied |
| SafeArrays.SafeArray.RemoveQueued | src/utils/SafeArray.js:65-70 | every occurrence of every queued element is dropped, the rest keep their order, and the queue is cleared |
| SafeArrays.SafeArray.ForEach | src/utils/SafeArray.js:44-54 | the callback sees the pass over the live list after queued adds and removals; afterwards additions made during the pass remain queued and every element removed during it is gone |
| SafeArrays.SafeArray.IterateLive | src/utils/SafeArray.js:47-51 | the loop's visits, queued additions and removal queue are exactly those of the specification pass over the live elements |
| JsArray.IndexOf | src/ecs/Entity.js:10 | the first index holding x, or -1 exactly when x is absent |
| JsArray.Without | src/utils/SafeArray.js:67 | the elements outside the removed set, in order |
| JsArray.WithoutAppend | src/utils/SafeArray.js:67 | filtering distributes over concatenation |
| EntityManagers.EntityManager.constructor | src/managers/EntityManager.js:9-11 | an empty registry |
| EntityManagers.EntityManager.CreateEntity | src/managers/EntityManager.js:19-23 | a fresh empty entity, only queued for addition |
| EntityManagers.EntityManager.RemoveEntity | src/managers/EntityManager.js:29-31 | always fails with a TypeError, as SafeArray has no removeEntity |
| EntityManagers.EntityManager.Update | src/managers/EntityManager.js:34-36 | updates exactly the live entities, after queued adds and removals, in order |
| Ecs.RemoveArrayElement | src/ecs/Entity.js:9-14 | absent: unchanged; present: the first occurrence is cut out and the rest keep their order |
| Ecs.AppendThenRemove | src/ecs/Entity.js:9-14 | removing what was just appended restores the list when it was absent, and the multiset always |
| Ecs.FirstOfType | src/ecs/Entity.js:66-68 | null exactly when no component has the type; otherwise the first one that has it |
| Ecs.Entity.constructor | src/ecs/Entity.js:34-39 | the name, no components, no flags |
| Ecs.Entity.AddComponent | src/ecs/Entity.js:47-51 | one fresh component of the type, owned by the entity, appended at the end and returned |
| Ecs.Entity.RemoveComponent | src/ecs/Entity.js:57-59 | the list becomes RemoveArrayElement of it |
| Ecs.Entity.GetComponent | src/ecs/Entity.js:66-68 | null exactly when no component has the type; otherwise the first component of that type in the list |
| Ecs.Entity.Update | src/ecs/Entity.js:71-75 | one update call per component in list order, each without deltaTime |
| GameConfiguration.Notify | src/config/GameConfig.js:14-16 | every callback, once each in registration order, called with the mode |
| GameConfiguration.ToggleStep | src/config/GameConfig.js:9-17 | flips the mode, keeps the callbacks, notifies all with the new mode |
| GameConfiguration.SetModeStep | src/config/GameConfig.js:23-34 | the mode becomes the argument; a change notifies everyone, setting the current mode is silent |
| GameConfiguration.ToggleTwice | src/config/GameConfig.js:9-17 | two toggles restore the state |
| GameConfiguration.SetModeIdempotent | src/config/GameConfig.js:23-34 | a second setMode with the same value changes nothing and notifies no one |
| GameConfiguration.OnThenOff | src/config/GameConfig.js:40-53 | registering then unregistering a new callback restores the list; the multiset is restored in any case |
| GameConfiguration.NotifyAppend | src/config/GameConfig.js:14-16 | a callback registered last is notified last |
| GameConfiguration.GameConfig.constructor | src/config/GameConfig.js:6-7 | full mode, no callbacks |
| GameConfiguration.GameConfig.NotifyAll | src/config/GameConfig.js:14-16 | the loop sends exactly Notify of the callbacks |
| GameConfiguration.GameConfig.ToggleMode | src/config/GameConfig.js:9-17 | state and notifications are those of ToggleStep |
| GameConfiguration.GameConfig.SetMode | src/config/GameConfig.js:23-34 | state and notifications are those of SetModeStep |
| GameConfiguration.GameConfig.OnModeChange | src/config/GameConfig.js:40-42 | appends, duplicates allowed |
| GameConfiguration.GameConfig.OffModeChange | src/config/GameConfig.js:48-53 | removes the first registration only, no-op for an unknown callback |
| Decals.Push | src/systems/DecalSystem.js:82-89 | below the cap the record is appended; at the cap the oldest is shifted off and disposing of it throws |
| Decals.Newest | src/systems/DecalSystem.js:19 | the newest records, never more than 100 |
| Decals.PushWindow | src/systems/DecalSystem.js:82-86 | one addition keeps exactly the newest 100 records |
| Decals.PushAllWindow | src/systems/DecalSystem.js:82-86 | after any number of additions the list is the newest 100 of everything added, oldest first, and never longer than 100 |
| Decals.NewestAppend | src/systems/DecalSystem.js:85-86 | trimming early does not change the final window |
| Decals.DecalSystem.constructor | src/systems/DecalSystem.js:17-30 | no decals |
| Decals.DecalSystem.AddDecal | src/systems/DecalSystem.js:39-91 | entity and dynamic surfaces add nothing; others append one fresh record with the hit object (or the scene) as parent, per Push |
| Decals.DecalSystem.ClearAll | src/systems/DecalSystem.js:96-103 | an empty list stays empty; a non-empty one throws and is left as it was |
| Physics.Clamp | src/components/controllers/LeanController.js:54 | the result lies in [lo, hi] and is x when x does |
| Physics.Lerp | src/components/Weapon.js:813-819 | t = 0 gives start, t = 1 gives end, t in [0, 1] stays between them |
| Physics.Halted | src/components/AIController.js:264-278 | horizontal velocity zero, vertical kept |
| AI.Stop | src/components/AIController.js:264-278 | with a body, horizontal velocity becomes zero; vertical is always kept; without a body nothing changes |
| AI.Towards | src/components/AIController.js:214-259 | reached exactly with a body within the reached distance (then stopped); without a body nothing changes; otherwise horizontal velocity moves toward direction * speed without passing it, vertical kept |
| AI.FullBlendReachesTarget | src/components/AIController.js:242-247 | a full blend sets horizontal velocity to the target velocity |
| AI.NextWaypoint | src/components/AIController.js:135-137 | the index stays in range, steps by one on arrival and wraps to 0 at the end |
| AI.AdvanceAlong | src/components/AIController.js:135-137 | before the end of the route, n arrivals advance the index by n |
| AI.AdvanceSplit | src/components/AIController.js:135-137 | arrivals compose additively |
| AI.PatrolReturns | src/components/AIController.js:135-137 | as many arrivals as waypoints bring the index back to where it started |
| AI.UpdateStep | src/components/AIController.js:87-114 | an inactive controller is untouched; a deactivating frame clears only isActive; the behaviour never changes and activity never returns; vertical velocity is kept; only patrol moves the waypoint index and only wander touches the wander timer and target |
| AI.PatrolStep | src/components/AIController.js:126-143 | only velocity and waypoint index change; with no route the body stops and the index stays; the index stays inside the route and moves only on arrival |
| AI.WanderStep | src/components/AIController.js:148-169 | only timer, target and velocity change; a target always exists afterwards, a missing one is drawn around the spawn point; the timer stays in [0, interval]; reaching the target runs the timer out |
| AI.PursueStep | src/components/AIController.js:174-206 | only velocity changes, vertically never; without a target the body stops; without a body nothing changes |
| AI.DeactivationLatch | src/components/AIController.js:88-93 | an inactive controller ignores every later frame; a dead or ragdolled entity deactivates it and nothing else changes |
| AI.WaypointIndexInRange | src/components/AIController.js:126-143 | the index stays inside the route, and only a patrol frame with waypoints moves it |
| AI.WanderTimerBounded | src/components/AIController.js:148-169 | with a non-negative frame time the wander timer stays in [0, interval] |
| AI.ReachedWanderRetargets | src/components/AIController.js:148-169 | reaching the wander target runs the timer out, so the next wander frame draws a new target |
| AI.ResetWanderRetargets | src/components/AIController.js:284-291 | after setBehavior the first wander frame draws a new target |
| AI.AIController.constructor | src/components/AIController.js:60-81 | idle by default; speed 2, detection 10, reached distance 1, interval 3 unless supplied nonzero; index 0, timer 0, no target, active |
| AI.AIController.StopMovement | src/components/AIController.js:264-278 | horizontal velocity zero and vertical kept when there is a body; the body's impulses and type are untouched |
| AI.AIController.MoveTowards | src/components/AIController.js:214-259 | result and velocity as Towards; the body's impulses and type are untouched |
| AI.AIController.Update | src/components/AIController.js:87-114 | the frame becomes UpdateStep of the old one, and the waypoint index stays valid; the body's impulses and type are untouched |
| AI.AIController.UpdatePatrol | src/components/AIController.js:126-143 | as PatrolStep; without waypoints the AI stops; the body's impulses and type are untouched |
| AI.AIController.UpdateWander | src/components/AIController.js:148-169 | as WanderStep; the body's impulses and type are untouched |
| AI.AIController.UpdatePursue | src/components/AIController.js:174-206 | without a target the AI stops; otherwise as Towards; the body's impulses and type are untouched |
| AI.AIController.SetBehavior | src/components/AIController.js:284-291 | the new behaviour, no wander target, timer 0 |
| AI.AIController.SetWaypoints | src/components/AIController.js:297-300 | the new route, index 0 |
| AI.AIController.SetTarget | src/components/AIController.js:306-308 | the new target |
| Input.LowerChar | src/systems/InputSystem.js:66 | upper-case ASCII letters map to lower case, everything else is kept |
| Input.Lower | src/systems/InputSystem.js:66 | the key lowered character by character |
| Input.LowerIdempotent | src/systems/InputSystem.js:66 | lowering twice is lowering once |
| Input.CommandFor | src/systems/InputSystem.js:178-193 | space, c, x, q, e and r give jump, crouch, prone, lean left, lean right and reload; p gives the ak47 spawn only with a spawner; every other key gives nothing |
| Input.KeyStep | src/systems/InputSystem.js:65-78 | keydown marks the key pressed and issues its command only if it was not pressed; keyup clears it; no other key changes |
| Input.HeldKeyIsSilent | src/systems/InputSystem.js:68-73 | repeated keydowns of a held key issue nothing |
| Input.PressHoldRelease | src/systems/InputSystem.js:65-78 | a press, any number of repeats and a release issue the key's command exactly once |
| Input.HeldThenReleased | src/systems/InputSystem.js:65-78 | repeats and the release of a held key issue nothing |
| Input.MovementKeys | src/systems/InputSystem.js:208-215 | w and s give -1 and +1 on z, a and d give -1 and +1 on x, and nothing on y |
| Input.NoNetInput | src/systems/InputSystem.js:209-215 | the input is zero exactly when each pair of opposite keys is both held or both released |
| Input.ControllerCalls | src/systems/InputSystem.js:128-146 | a move first and only for nonzero input, then aim or aim-release every frame, then fire exactly while the left button is held |
| Input.FireThrowsLast | src/systems/InputSystem.js:128-146 | with the left button held the fire call is the last one, so the move and the aim or aim-release are made before the throw and nothing else is skipped |
| Input.LookStep | src/systems/InputSystem.js:152-165 | without a camera nothing changes; with one the pitch ends in [-PI/2.5, PI/2.5], the yaw turns by the accumulated movement and the accumulators are reset |
| Input.LookStepIdempotent | src/systems/InputSystem.js:152-165 | a second look update with no mouse movement changes nothing |
| Input.PitchFollowsMouse | src/systems/InputSystem.js:157-161 | within the limits the pitch follows the mouse exactly |
| Input.InputSystem.constructor | src/systems/InputSystem.js:21-51 | no keys, zero accumulators and angles, pointer not locked, no spawner |
| Input.InputSystem.SetEntitySpawner | src/systems/InputSystem.js:57-59 | records the spawner |
| Input.InputSystem.OnKeyDown | src/systems/InputSystem.js:65-74 | keys and issued command as KeyStep |
| Input.InputSystem.OnKeyUp | src/systems/InputSystem.js:76-78 | keys as KeyStep |
| Input.InputSystem.OnPointerLockChange | src/systems/InputSystem.js:86-88 | records the lock |
| Input.InputSystem.OnMouseMove | src/systems/InputSystem.js:91-96 | the accumulators grow only while the pointer is locked |
| Input.InputSystem.OnMouseDown | src/systems/InputSystem.js:98-104 | button 1 presses 'rightclick', button 0 'leftclick', any other nothing |
| Input.InputSystem.OnMouseUp | src/systems/InputSystem.js:106-112 | button 1 releases 'rightclick', button 0 'leftclick' |
| Input.InputSystem.UpdateMouseLook | src/systems/InputSystem.js:152-173 | look angles and accumulators as LookStep |
| Input.InputSystem.Update | src/systems/InputSystem.js:122-147 | the look update; without a player controller no call and normal completion; with one, the calls of ControllerCalls for the pressed keys, and the frame throws the `handleFire` TypeError exactly when the left button is held, on the last call, after the move and aim calls |

## Left out

- Rendering and the scene graph are not modelled: meshes, materials, decal placement and orientation, `worldToLocal`, camera rotation, `findWeaponParts`' traversal, and the sight's world-to-local transform. The found parts, the sight node and its local depth are parameters.
- Rapier physics is not modelled. Raycasts are oracles (`probe`, the hit collider). A body keeps only its velocity, impulses and body type; integration is the engine's business.
- Weapon bob, sway and tilt, `applyMouseInput`, `Weapon.update`, mode switching (`handleModeChange`, `createPrototypeWeapon`), the ammo counter and `destroy` are not modelled. They are rendering or UI, and `Weapon.update` returns at once because `PlayerController.velocity` is never assigned.
- Part nodes are modelled as values in a map. Aliasing between the weapon's part objects and the scene is not modelled.
- `Date.now()`, `Math.random`, `Math.sin` and `Math.exp` are parameters (`now`, `randomOffset`, `sin`, `k`).
- The DOM side of the input system is not modelled: listener registration, pointer-lock requests and the context menu. The commands' delivery to each controller through `forEach` (and its `async` callback) is left out; the model returns the command issued.
- `WeaponRuntime.Weapon.constructor`: the original throws a TypeError at src/components/Weapon.js:167, because the built definition has no `ads` section; the model assumes an `ads` record is given and describes the constructor from there on.
- `WeaponRuntime.Weapon.Fire`: the callback side effects of a death caused by a shot are covered only as far as `Health.TakeDamage` states them.
- The `handleFire` TypeError leaves `InputSystem.update` through `SafeArray.forEach` before its closing removal pass (src/utils/SafeArray.js:53) and through `World.update`, so that frame's physics step and entity updates do not run. `World` is not part of this model; the model stops at the `Fail` outcome. With several player controllers only the first would receive its calls; the model covers the one player the scene creates.
- `Ecs.Entity.Update`: the model records that each call has no `deltaTime`; the `NaN` arithmetic that follows is not modelled, since the model's numbers are reals. `Player.Tick` and the controller methods take the `deltaTime` that `World.update` passes to `Entity.update`, as the controllers' code is written for.
- `Input.InputSystem.Update`: the normalisation and yaw rotation of the movement input are a parameter `heading`. The decision to send a move is taken on the raw key sum; normalising and rotating keep a nonzero vector nonzero.
- `Input.Lower`: only ASCII letters are lowered; JavaScript's full Unicode case mapping is not modelled.
- `Ecs.FirstOfType`: a component type is matched by its constructor's name only, so `instanceof`'s match of a subclass instance is not modelled: a query for the base class `Component`, which matches every component in the source, here matches only components created as plain `Component`. Every concrete component class extends `Component` directly.
- `Ecs.Entity.GetComponent`: the same exact-type matching as `Ecs.FirstOfType`.
- `AI.AIController.MoveTowards`: positions, the horizontal distance and the normalised direction are given per frame (`Sensed`), so the vector geometry of chase, flee and `moveTowards` is not modelled. The flee point 10 units away from the target is part of that measurement.
- `Player.PlayerController.constructor`: `stateStack`, `gravity` and the unused `velocity` are not fields of the model; `speed` and `jumpForce` are the module constants `Speed` and `JumpForce`.
- A RigidBody component without a `body` is not modelled: the player's controllers and the Weapon's users see either a body or no component.
- Floating point is modelled by `real`: no rounding, NaN or infinity. So `lerp`'s handling of non-numbers and division by a zero `maxHealth` are replaced by the `Percentage` option.
- The superseded state-pattern classes, command forwarders, the entity spawner, the UI, the physics system and the world loop are not part of this model.
