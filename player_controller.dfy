/**
 * The player's character controller. A `PlayerController` holds the five
 * state layers and owns one sub-controller per layer; input handlers
 * delegate to exactly one sub-controller, and `update` runs the
 * sub-controllers in the fixed order grounding, movement, stance, weapon,
 * lean.
 *
 * The sub-controllers keep their own fields and take the player they act
 * on as a parameter. The entity's RigidBody component is represented by
 * its physics body (or `null`), its Weapon component by the weapon (or
 * `null`), and the downward ground ray by the boolean `probe` it returns.
 *
 * Each `update` is specified by a step function over a `Frame`, the
 * values of every field the controllers read or write; `Tick` composes
 * the five steps, and the lemmas at the end state what the composition
 * guarantees.
 */
module Player {
  import opened Wrappers
  import opened Physics
  import opened PlayerState
  import WeaponRuntime

  /** Every field the controllers read or write, as values. */
  datatype Frame = Frame(
    groundingState: GroundingState, isGrounded: Option<bool>,
    movementState: MovementState, stanceState: StanceState,
    weaponState: WeaponState, leanState: LeanState,
    movementDirection: Vec3, velocity: Vec3,
    isAiming: bool, reloadTimer: real, leanAmount: real)

  /** What one frame's `update` depends on besides the frame itself. */
  datatype Env = Env(hasBody: bool, physicsWorld: bool, probe: bool, deltaTime: real)

  const Speed: real := 5.0
  const JumpForce: real := 10.0
  const Gravity: real := 9.81
  const LeanSpeed: real := 5.0
  const MaxLeanAngle: real := 0.3
  const LeanDistance: real := 0.5
  /** The reload time used when the player has no weapon. */
  const DefaultReloadTime: real := 2.0

  // ------------------------------------------------------- stance layer

  /** `handleCrouch`: only on the ground; crouching stands up, anything else crouches. */
  function CrouchStance(g: GroundingState, s: StanceState): (r: StanceState)
    ensures g != Grounded ==> r == s
    ensures g == Grounded ==> (r == Standing <==> s == Crouching)
    ensures g == Grounded ==> (r == Crouching <==> s != Crouching)
  {
    if g != Grounded then s
    else match s
      case Crouching => Standing
      case Standing => Crouching
      case Prone => Crouching
  }

  /** `handleProne`: only on the ground; prone stands up, anything else goes prone. */
  function ProneStance(g: GroundingState, s: StanceState): (r: StanceState)
    ensures g != Grounded ==> r == s
    ensures g == Grounded ==> (r == Standing <==> s == Prone)
    ensures g == Grounded ==> (r == Prone <==> s != Prone)
  {
    if g != Grounded then s
    else if s == Prone then Standing
    else Prone
  }

  /** Pressing prone twice, or crouch twice, from standing on the ground returns to standing. */
  lemma StanceTogglesReturn()
    ensures ProneStance(Grounded, ProneStance(Grounded, Standing)) == Standing
    ensures CrouchStance(Grounded, CrouchStance(Grounded, Standing)) == Standing
    ensures CrouchStance(Grounded, Prone) == Crouching
  {
  }

  /** `StanceController.update`: airborne forces standing. */
  function StanceStep(f: Frame): (r: Frame)
    ensures f.groundingState == Airborne ==> r == f.(stanceState := Standing)
    ensures f.groundingState == Grounded ==> r == f
  {
    if f.groundingState == Airborne then f.(stanceState := Standing) else f
  }

  // --------------------------------------------------------- lean layer

  /** `handleLeanLeft`: toggles between left and none; from right it goes straight to left. */
  function LeanLeftToggle(l: LeanState): (r: LeanState)
    ensures r == Left <==> l != Left
    ensures r == NoLean <==> l == Left
  {
    if l == Left then NoLean else Left
  }

  /** `handleLeanRight`: the mirror image of `LeanLeftToggle`. */
  function LeanRightToggle(l: LeanState): (r: LeanState)
    ensures r == Right <==> l != Right
    ensures r == NoLean <==> l == Right
  {
    if l == Right then NoLean else Right
  }

  /** The same side twice restores the starting state; the opposite side switches directly. */
  lemma LeanToggles(l: LeanState)
    ensures LeanLeftToggle(LeanLeftToggle(l)) == if l == Right then NoLean else l
    ensures LeanRightToggle(LeanRightToggle(l)) == if l == Left then NoLean else l
    ensures LeanLeftToggle(LeanLeftToggle(NoLean)) == NoLean
    ensures LeanRightToggle(LeanRightToggle(NoLean)) == NoLean
    ensures LeanRightToggle(LeanLeftToggle(NoLean)) == Right
    ensures LeanLeftToggle(LeanRightToggle(NoLean)) == Left
  {
  }

  /** The lean amount a lean state aims for. */
  function LeanTarget(l: LeanState): (t: real)
    ensures -1.0 <= t <= 1.0
    ensures t == 0.0 <==> l == NoLean
  {
    match l
    case Left => -1.0
    case Right => 1.0
    case NoLean => 0.0
  }

  /** `LeanController.update`: move toward the target by `leanSpeed * deltaTime` of the gap, then clamp. */
  function LeanAmountStep(amount: real, target: real, deltaTime: real): (r: real)
    ensures -1.0 <= r <= 1.0
  {
    Clamp(-1.0, 1.0, amount + (target - amount) * LeanSpeed * deltaTime)
  }

  /**
   * While `leanSpeed * deltaTime` is at most 1, the lean amount moves toward
   * its target without passing it.
   */
  lemma LeanNoOvershoot(amount: real, l: LeanState, deltaTime: real)
    requires -1.0 <= amount <= 1.0 && 0.0 <= LeanSpeed * deltaTime <= 1.0
    ensures var r := LeanAmountStep(amount, LeanTarget(l), deltaTime);
      && (amount <= LeanTarget(l) ==> amount <= r <= LeanTarget(l))
      && (LeanTarget(l) <= amount ==> LeanTarget(l) <= r <= amount)
  {
    var target := LeanTarget(l);
    var k := LeanSpeed * deltaTime;
    assert (target - amount) * LeanSpeed * deltaTime == (target - amount) * k;
    assert amount + (target - amount) * k == Lerp(amount, target, k);
  }

  function LeanStep(f: Frame, deltaTime: real): (r: Frame)
    ensures r == f.(leanAmount := r.leanAmount)
  {
    f.(leanAmount := LeanAmountStep(f.leanAmount, LeanTarget(f.leanState), deltaTime))
  }

  /** `getCameraOffset()`: `{x, z, roll}`. */
  datatype CameraOffset = CameraOffset(x: real, z: real, roll: real)

  function CameraOffsetFor(leanAmount: real): (o: CameraOffset)
    ensures o.z == 0.0
    ensures -1.0 <= leanAmount <= 1.0 ==> -LeanDistance <= o.x <= LeanDistance && -MaxLeanAngle <= o.roll <= MaxLeanAngle
    ensures leanAmount == 0.0 <==> o.x == 0.0
    ensures o.x * MaxLeanAngle == o.roll * LeanDistance
  {
    CameraOffset(leanAmount * LeanDistance, 0.0, leanAmount * MaxLeanAngle)
  }

  // ------------------------------------------------------- weapon layer

  /** `WeaponController.update`: a reload counts down and ends in hipfire; otherwise aiming decides. */
  function WeaponStep(f: Frame, deltaTime: real): (r: Frame)
    ensures r == f.(weaponState := r.weaponState, reloadTimer := r.reloadTimer)
    ensures f.weaponState == Reload && f.reloadTimer - deltaTime > 0.0 ==>
      r.weaponState == Reload && r.reloadTimer == f.reloadTimer - deltaTime
    ensures f.weaponState == Reload && f.reloadTimer - deltaTime <= 0.0 ==>
      r.weaponState == Hipfire && r.reloadTimer == 0.0
    ensures f.weaponState != Reload ==>
      r.reloadTimer == f.reloadTimer && (r.weaponState == Ads <==> f.isAiming) && r.weaponState != FocusHipfire && r.weaponState != Reload
  {
    if f.weaponState == Reload then
      var t := f.reloadTimer - deltaTime;
      if t <= 0.0 then f.(weaponState := Hipfire, reloadTimer := 0.0) else f.(reloadTimer := t)
    else f.(weaponState := if f.isAiming then Ads else Hipfire)
  }

  function WeaponSteps(f: Frame, deltaTime: real, n: nat): Frame
    decreases n
  {
    if n == 0 then f else WeaponSteps(WeaponStep(f, deltaTime), deltaTime, n - 1)
  }

  /**
   * A reload with `reloadTimer` left lasts while the frames so far sum to
   * less than the timer, ignoring aim input, and ends in hipfire (never
   * ADS) on the frame that uses it up.
   */
  lemma {:induction false} ReloadLock(f: Frame, deltaTime: real, n: nat)
    requires f.weaponState == Reload && deltaTime > 0.0
    ensures (n as real) * deltaTime < f.reloadTimer ==>
      WeaponSteps(f, deltaTime, n) == f.(reloadTimer := f.reloadTimer - (n as real) * deltaTime)
    ensures (n as real) * deltaTime >= f.reloadTimer && ((n - 1) as real) * deltaTime < f.reloadTimer && n > 0 ==>
      WeaponSteps(f, deltaTime, n) == f.(weaponState := Hipfire, reloadTimer := 0.0)
    decreases n
  {
    if n > 0 {
      var next := WeaponStep(f, deltaTime);
      FramesSplit(n, deltaTime);
      if f.reloadTimer - deltaTime > 0.0 {
        assert next == f.(reloadTimer := f.reloadTimer - deltaTime);
        ReloadLock(next, deltaTime, n - 1);
        if n > 1 {
          FramesSplit(n - 1, deltaTime);
        }
      } else if n > 1 {
        // The timer ran out on the first frame, so both antecedents fail.
        FramesOutlast(n, deltaTime, f.reloadTimer);
      }
    }
  }

  /** `n` frames are one frame plus `n - 1` frames. */
  lemma FramesSplit(n: nat, deltaTime: real)
    requires n > 0
    ensures ((n - 1) as real) * deltaTime == (n as real) * deltaTime - deltaTime
  {
  }

  /** When one frame covers `timer`, so do `n - 1` and `n` frames for every `n >= 2`. */
  lemma FramesOutlast(n: nat, deltaTime: real, timer: real)
    requires n > 1 && deltaTime > 0.0 && timer <= deltaTime
    ensures ((n - 1) as real) * deltaTime >= timer
    ensures (n as real) * deltaTime >= timer
  {
    var before := (n - 2) as real;
    ProductSign(before, deltaTime);
    FramesSplit(n - 1, deltaTime);
    FramesSplit(n, deltaTime);
  }

  // ----------------------------------------------------- movement layer

  /** `getStanceSpeedModifier()`. */
  function StanceSpeedModifier(s: StanceState): (m: real)
    ensures 0.0 < m <= 1.0
    ensures m == 1.0 <==> s == Standing
  {
    match s
    case Standing => 1.0
    case Crouching => 0.5
    case Prone => 0.2
  }

  /**
   * `getAimingSpeedModifier()`. Its case label `ADS || RELOAD || FOCUS_HIPFIRE`
   * evaluates to the ADS tag, so only ADS slows the player.
   */
  function AimingSpeedModifier(w: WeaponState): (m: real)
    ensures m == 0.5 <==> w == Ads
    ensures m == 1.0 <==> w != Ads
  {
    var caseTag := if Ads.Tag() != "" then Ads.Tag() else if Reload.Tag() != "" then Reload.Tag() else FocusHipfire.Tag();
    if w.Tag() == caseTag then 0.5 else 1.0
  }

  /** The horizontal speed for a stance and weapon state: `speed` times both modifiers. */
  function MoveSpeed(speed: real, s: StanceState, w: WeaponState): real {
    speed * StanceSpeedModifier(s) * AimingSpeedModifier(w)
  }

  /** The modifiers only ever slow the player, and never below a tenth of `speed`. */
  lemma MoveSpeedBounds(speed: real, s: StanceState, w: WeaponState)
    requires speed >= 0.0
    ensures speed * 0.1 <= MoveSpeed(speed, s, w) <= speed
    ensures MoveSpeed(speed, s, w) == speed <==> (s == Standing && w != Ads) || speed == 0.0
  {
    var m := StanceSpeedModifier(s) * AimingSpeedModifier(w);
    assert 0.1 <= m <= 1.0;
    assert MoveSpeed(speed, s, w) == speed * m;
    ProductSign(speed, m - 0.1);
    ProductSign(speed, 1.0 - m);
    if speed != 0.0 && m != 1.0 {
      assert speed * (1.0 - m) != 0.0;
    }
  }

  /**
   * `MovementController.update`: with a body, a nonzero stored direction
   * moves the player horizontally at the modified speed and an all-zero
   * one halts it; vertical velocity is kept and the direction is cleared.
   */
  function MovementStep(f: Frame, hasBody: bool): (r: Frame)
    ensures !hasBody ==> r == f
    ensures hasBody ==> r.movementDirection == Zero && r.velocity.y == f.velocity.y
    ensures hasBody ==> (r.movementState == Moving <==> !IsZero(f.movementDirection))
    ensures hasBody && IsZero(f.movementDirection) ==> r.velocity == Halted(f.velocity)
    ensures hasBody && !IsZero(f.movementDirection) ==>
      var s := MoveSpeed(Speed, f.stanceState, f.weaponState);
      r.velocity.x == f.movementDirection.x * s && r.velocity.z == f.movementDirection.z * s
    ensures r == f.(movementState := r.movementState, velocity := r.velocity, movementDirection := r.movementDirection)
  {
    if !hasBody then f
    else if !IsZero(f.movementDirection) then
      var s := MoveSpeed(Speed, f.stanceState, f.weaponState);
      f.(movementState := Moving,
         velocity := Vec3(f.movementDirection.x * s, f.velocity.y, f.movementDirection.z * s),
         movementDirection := Zero)
    else f.(movementState := Idle, velocity := Halted(f.velocity), movementDirection := Zero)
  }

  // ---------------------------------------------------- grounding layer

  /**
   * `GroundingController.update`: with a body, the probe decides; without
   * a physics world the probe yields `undefined`, which counts as airborne.
   */
  function GroundingStep(f: Frame, env: Env): (r: Frame)
    ensures !env.hasBody ==> r == f
    ensures env.hasBody ==> (r.groundingState == Grounded <==> env.physicsWorld && env.probe)
    ensures env.hasBody ==> r.isGrounded == (if env.physicsWorld then Some(env.probe) else None)
    ensures r == f.(groundingState := r.groundingState, isGrounded := r.isGrounded)
  {
    if !env.hasBody then f
    else
      var hit := if env.physicsWorld then Some(env.probe) else None;
      f.(isGrounded := hit, groundingState := if hit == Some(true) then Grounded else Airborne)
  }

  // --------------------------------------------------------- composition

  /** `PlayerController.update(deltaTime)`: grounding, movement, stance, weapon, lean. */
  function Tick(f: Frame, env: Env): (r: Frame)
    // Only the handlers change the lean side and the aim flag, and every update ends focus-hipfire.
    ensures r.leanState == f.leanState && r.isAiming == f.isAiming
    ensures r.weaponState != FocusHipfire
    ensures !env.hasBody ==> r.groundingState == f.groundingState && r.velocity == f.velocity
    ensures r.groundingState == Airborne ==> r.stanceState == Standing
  {
    var g := GroundingStep(f, env);
    var m := MovementStep(g, env.hasBody);
    var s := StanceStep(m);
    var w := WeaponStep(s, env.deltaTime);
    LeanStep(w, env.deltaTime)
  }

  /** After an update, an airborne player is standing, because stance runs after grounding. */
  lemma AirborneStands(f: Frame, env: Env)
    ensures Tick(f, env).groundingState == Airborne ==> Tick(f, env).stanceState == Standing
  {
  }

  /**
   * After an update with a body, the player is moving exactly when a nonzero
   * direction was stored since the previous update, and the stored
   * direction is cleared.
   */
  lemma MovingIffDirection(f: Frame, env: Env)
    requires env.hasBody
    ensures Tick(f, env).movementState == Moving <==> !IsZero(f.movementDirection)
    ensures Tick(f, env).movementDirection == Zero
  {
  }

  /** Two updates with no move input in between leave the player idle. */
  lemma SecondTickIdle(f: Frame, env: Env, env2: Env)
    requires env.hasBody && env2.hasBody
    ensures Tick(Tick(f, env), env2).movementState == Idle
  {
    MovingIffDirection(f, env);
    MovingIffDirection(Tick(f, env), env2);
  }

  /** Jumping from the ground; the update's stance step then keeps the player standing. */
  lemma JumpThenTickStanding(f: Frame, env: Env)
    requires !env.hasBody || !env.physicsWorld || !env.probe
    ensures Tick(f.(groundingState := Airborne, stanceState := Standing), env).stanceState == Standing
  {
  }

  // ----------------------------------------------------------- classes

  class StanceController {
    constructor() {}

    method Update(p: PlayerController)
      modifies p`stanceState
      ensures p.stanceState == if p.groundingState == Airborne then Standing else old(p.stanceState)
    {
      if p.groundingState == Airborne {
        if p.stanceState != Standing {
          p.stanceState := Standing;
        }
      }
    }

    method HandleCrouch(p: PlayerController)
      modifies p`stanceState
      ensures p.stanceState == CrouchStance(p.groundingState, old(p.stanceState))
    {
      if p.groundingState != Grounded {
        return;
      }
      if p.stanceState == Crouching {
        p.stanceState := Standing;
      } else if p.stanceState == Standing {
        p.stanceState := Crouching;
      } else if p.stanceState == Prone {
        p.stanceState := Crouching;
      }
    }

    method HandleProne(p: PlayerController)
      modifies p`stanceState
      ensures p.stanceState == ProneStance(p.groundingState, old(p.stanceState))
    {
      if p.groundingState != Grounded {
        return;
      }
      if p.stanceState == Prone {
        p.stanceState := Standing;
      } else {
        p.stanceState := Prone;
      }
    }

    method ForceStanding(p: PlayerController)
      modifies p`stanceState
      ensures p.stanceState == Standing
    {
      p.stanceState := Standing;
    }
  }

  class LeanController {
    var leanAmount: real

    constructor()
      ensures leanAmount == 0.0
    {
      leanAmount := 0.0;
    }

    method Update(p: PlayerController, deltaTime: real)
      modifies this
      ensures leanAmount == LeanAmountStep(old(leanAmount), LeanTarget(p.leanState), deltaTime)
    {
      var targetLean := 0.0;
      match p.leanState {
        case Left => targetLean := -1.0;
        case Right => targetLean := 1.0;
        case NoLean => targetLean := 0.0;
      }
      var leanDelta := (targetLean - leanAmount) * LeanSpeed * deltaTime;
      leanAmount := leanAmount + leanDelta;
      leanAmount := Clamp(-1.0, 1.0, leanAmount);
    }

    method HandleLeanLeft(p: PlayerController)
      modifies p`leanState
      ensures p.leanState == LeanLeftToggle(old(p.leanState))
    {
      if p.leanState == Left {
        p.leanState := NoLean;
      } else {
        p.leanState := Left;
      }
    }

    method HandleLeanRight(p: PlayerController)
      modifies p`leanState
      ensures p.leanState == LeanRightToggle(old(p.leanState))
    {
      if p.leanState == Right {
        p.leanState := NoLean;
      } else {
        p.leanState := Right;
      }
    }

    function GetCameraOffset(): (o: CameraOffset)
      reads this
      ensures o == CameraOffsetFor(leanAmount)
      ensures -1.0 <= leanAmount <= 1.0 ==> -LeanDistance <= o.x <= LeanDistance && -MaxLeanAngle <= o.roll <= MaxLeanAngle
    {
      CameraOffsetFor(leanAmount)
    }
  }

  class WeaponController {
    var isAiming: bool
    var reloadTimer: real

    constructor()
      ensures !isAiming && reloadTimer == 0.0
    {
      isAiming := false;
      reloadTimer := 0.0;
    }

    method Update(p: PlayerController, deltaTime: real)
      modifies this`reloadTimer, p`weaponState
      ensures p.weaponState == WeaponStep(old(p.Snapshot()), deltaTime).weaponState
      ensures reloadTimer == WeaponStep(old(p.Snapshot()), deltaTime).reloadTimer
      requires p.weaponController == this
    {
      if p.weaponState == Reload {
        reloadTimer := reloadTimer - deltaTime;
        if reloadTimer <= 0.0 {
          p.weaponState := Hipfire;
          reloadTimer := 0.0;
        }
        return;
      }
      if isAiming {
        p.weaponState := Ads;
      } else {
        p.weaponState := Hipfire;
      }
    }

    /** `handleAim()`: refused while reloading. */
    method HandleAim(p: PlayerController)
      modifies this`isAiming
      ensures isAiming == (old(isAiming) || p.weaponState != Reload)
    {
      if p.weaponState != Reload {
        isAiming := true;
      }
    }

    method HandleAimRelease()
      modifies this`isAiming
      ensures !isAiming
    {
      isAiming := false;
    }

    /**
     * `handleReload()`: ignored while reloading (the timer is not reset);
     * otherwise starts the reload with the weapon's reload time, or 2 s
     * without a weapon, and starts the weapon's own reload animation.
     */
    method HandleReload(p: PlayerController)
      modifies p`weaponState, this`reloadTimer, p.WeaponFrame()`isReloading, p.WeaponFrame()`reloadProgress
      ensures old(p.weaponState) == Reload ==>
        p.weaponState == Reload && reloadTimer == old(reloadTimer) &&
        (p.weapon != null ==> p.weapon.isReloading == old(p.weapon.isReloading) &&
                              p.weapon.reloadProgress == old(p.weapon.reloadProgress))
      ensures p.weapon != null ==> p.weapon.currentAmmo == old(p.weapon.currentAmmo) && p.weapon.parts == old(p.weapon.parts)
      ensures old(p.weaponState) != Reload ==>
        && p.weaponState == Reload
        && reloadTimer == (if p.weapon != null then p.weapon.definition.stats.reloadTime else DefaultReloadTime)
        && (p.weapon != null ==>
              p.weapon.isReloading && p.weapon.reloadProgress == (if old(p.weapon.isReloading) then old(p.weapon.reloadProgress) else 0.0))
    {
      if p.weaponState != Reload {
        p.weaponState := Reload;
        if p.weapon != null {
          reloadTimer := p.weapon.definition.stats.reloadTime;
          p.weapon.StartReload();
        } else {
          reloadTimer := DefaultReloadTime;
        }
      }
    }

    /** `handleFocusAim()`: focus hipfire unless reloading; the next update overwrites it. */
    method HandleFocusAim(p: PlayerController)
      modifies p`weaponState
      ensures p.weaponState == if old(p.weaponState) == Reload then Reload else FocusHipfire
    {
      if p.weaponState != Reload {
        p.weaponState := FocusHipfire;
      }
    }
  }

  class MovementController {
    var movementDirection: Vec3

    constructor()
      ensures movementDirection == Zero
    {
      movementDirection := Zero;
    }

    method Update(p: PlayerController)
      requires p.movementController == this
      modifies this, p`movementState, p.BodyFrame()`linvel
      ensures p.Snapshot() == MovementStep(old(p.Snapshot()), p.body != null)
      ensures p.body != null ==> p.body.impulses == old(p.body.impulses) && p.body.bodyType == old(p.body.bodyType)
    {
      if p.body == null {
        return;
      }
      if !IsZero(movementDirection) {
        p.movementState := Moving;
        var speed := Speed;
        speed := speed * StanceSpeedModifier(p.stanceState);
        speed := speed * AimingSpeedModifier(p.weaponState);
        var currentVel := p.body.linvel;
        p.body.linvel := Vec3(movementDirection.x * speed, currentVel.y, movementDirection.z * speed);
      } else {
        p.movementState := Idle;
        var currentVel := p.body.linvel;
        p.body.linvel := Vec3(0.0, currentVel.y, 0.0);
      }
      movementDirection := Zero;
    }

    /** `handleMove(direction)`: only stores the direction; velocity waits for the next update. */
    method HandleMove(direction: Vec3)
      modifies this
      ensures movementDirection == direction
    {
      movementDirection := direction;
    }
  }

  class GroundingController {
    constructor() {}

    /** `update(deltaTime)`, with `probe` the result of the downward ray. */
    method Update(p: PlayerController, probe: bool)
      modifies p`isGrounded, p`groundingState
      ensures p.Snapshot() == GroundingStep(old(p.Snapshot()), Env(p.body != null, p.physicsWorld, probe, 0.0))
    {
      if p.body == null {
        return;
      }
      p.isGrounded := if p.physicsWorld then Some(probe) else None;
      if p.isGrounded == Some(true) {
        p.groundingState := Grounded;
      } else {
        p.groundingState := Airborne;
      }
    }

    /**
     * `handleJump()`: only from the ground and with a body. One upward
     * impulse of `jumpForce`, airborne, standing; horizontal velocity and
     * everything else untouched, and no cooldown.
     */
    method HandleJump(p: PlayerController)
      modifies p`groundingState, p`stanceState, p.BodyFrame()`impulses
      ensures old(p.groundingState) == Grounded && p.body != null ==>
        && p.Snapshot() == old(p.Snapshot()).(groundingState := Airborne, stanceState := Standing)
        && p.body.impulses == old(p.body.impulses) + [Vec3(0.0, JumpForce, 0.0)]
      ensures old(p.groundingState) != Grounded || p.body == null ==>
        p.Snapshot() == old(p.Snapshot()) && (p.body != null ==> p.body.impulses == old(p.body.impulses))
      ensures p.body != null ==> p.body.linvel == old(p.body.linvel) && p.body.bodyType == old(p.body.bodyType)
    {
      if p.groundingState != Grounded {
        return;
      }
      if p.body == null {
        return;
      }
      p.body.impulses := p.body.impulses + [Vec3(0.0, JumpForce, 0.0)];
      p.groundingState := Airborne;
      p.stanceController.ForceStanding(p);
    }
  }

  class PlayerController {
    var groundingState: GroundingState
    var movementState: MovementState
    var stanceState: StanceState
    var weaponState: WeaponState
    var leanState: LeanState
    /** The last probe result; `None` is `undefined` (no physics world). */
    var isGrounded: Option<bool>
    /** Declared but never assigned: always `undefined`. */
    const velocity: Option<Vec3>

    /** The body of the entity's RigidBody component, or `null` without one. */
    const body: RigidBody?
    /** The entity's Weapon component, or `null` without one. */
    const weapon: WeaponRuntime.Weapon?
    /** Whether a physics world was given. */
    const physicsWorld: bool

    const groundingController: GroundingController
    const movementController: MovementController
    const stanceController: StanceController
    const weaponController: WeaponController
    const leanController: LeanController

    constructor(body: RigidBody?, weapon: WeaponRuntime.Weapon?, physicsWorld: bool)
      ensures groundingState == Grounded && movementState == Idle && stanceState == Standing
      ensures weaponState == Hipfire && leanState == NoLean && isGrounded == Some(true) && velocity == None
      ensures this.body == body && this.weapon == weapon && this.physicsWorld == physicsWorld
      ensures fresh(groundingController) && fresh(movementController) && fresh(stanceController)
      ensures fresh(weaponController) && fresh(leanController)
      ensures Snapshot() == Frame(Grounded, Some(true), Idle, Standing, Hipfire, NoLean, Zero,
                                  if body != null then body.linvel else Zero, false, 0.0, 0.0)
    {
      groundingState := Grounded;
      movementState := Idle;
      stanceState := Standing;
      weaponState := Hipfire;
      leanState := NoLean;
      isGrounded := Some(true);
      velocity := None;
      this.body := body;
      this.weapon := weapon;
      this.physicsWorld := physicsWorld;
      groundingController := new GroundingController();
      movementController := new MovementController();
      stanceController := new StanceController();
      weaponController := new WeaponController();
      leanController := new LeanController();
    }

    /** The values of every field the controllers read or write. */
    function Snapshot(): Frame
      reads this, movementController, weaponController, leanController, body
    {
      Frame(groundingState, isGrounded, movementState, stanceState, weaponState, leanState,
            movementController.movementDirection, if body != null then body.linvel else Zero,
            weaponController.isAiming, weaponController.reloadTimer, leanController.leanAmount)
    }

    /** The weapon whose reload `handleReload` starts, if any. */
    function WeaponFrame(): set<WeaponRuntime.Weapon>
      reads this
    {
      if weapon != null then {weapon} else {}
    }

    /** The body whose velocity and impulses the controllers set, if any. */
    function BodyFrame(): set<RigidBody>
      reads this
    {
      if body != null then {body} else {}
    }

    method HandleMove(direction: Vec3)
      modifies movementController
      ensures Snapshot() == old(Snapshot()).(movementDirection := direction)
    {
      movementController.HandleMove(direction);
    }

    method HandleJump()
      modifies this`groundingState, this`stanceState, BodyFrame()`impulses
      ensures old(groundingState) == Grounded && body != null ==>
        Snapshot() == old(Snapshot()).(groundingState := Airborne, stanceState := Standing) &&
        body.impulses == old(body.impulses) + [Vec3(0.0, JumpForce, 0.0)]
      ensures old(groundingState) != Grounded || body == null ==>
        Snapshot() == old(Snapshot()) && (body != null ==> body.impulses == old(body.impulses))
      ensures body != null ==> body.linvel == old(body.linvel) && body.bodyType == old(body.bodyType)
    {
      groundingController.HandleJump(this);
    }

    method HandleCrouch()
      modifies this`stanceState
      ensures Snapshot() == old(Snapshot()).(stanceState := CrouchStance(groundingState, old(stanceState)))
    {
      stanceController.HandleCrouch(this);
    }

    method HandleProne()
      modifies this`stanceState
      ensures Snapshot() == old(Snapshot()).(stanceState := ProneStance(groundingState, old(stanceState)))
    {
      stanceController.HandleProne(this);
    }

    method HandleLeanLeft()
      modifies this`leanState
      ensures Snapshot() == old(Snapshot()).(leanState := LeanLeftToggle(old(leanState)))
    {
      leanController.HandleLeanLeft(this);
    }

    method HandleLeanRight()
      modifies this`leanState
      ensures Snapshot() == old(Snapshot()).(leanState := LeanRightToggle(old(leanState)))
    {
      leanController.HandleLeanRight(this);
    }

    method HandleAim()
      modifies weaponController`isAiming
      ensures Snapshot() == old(Snapshot()).(isAiming := old(weaponController.isAiming) || weaponState != Reload)
    {
      weaponController.HandleAim(this);
    }

    method HandleAimRelease()
      modifies weaponController`isAiming
      ensures Snapshot() == old(Snapshot()).(isAiming := false)
    {
      weaponController.HandleAimRelease();
    }

    method HandleReload()
      modifies this`weaponState, weaponController`reloadTimer, WeaponFrame()`isReloading, WeaponFrame()`reloadProgress
      ensures old(weaponState) == Reload ==> Snapshot() == old(Snapshot())
      ensures old(weaponState) != Reload ==>
        Snapshot() == old(Snapshot()).(weaponState := Reload, reloadTimer :=
          if weapon != null then weapon.definition.stats.reloadTime else DefaultReloadTime)
      ensures weapon != null && old(weaponState) != Reload ==> weapon.isReloading
      ensures weapon != null && old(weaponState) == Reload ==>
        weapon.isReloading == old(weapon.isReloading) && weapon.reloadProgress == old(weapon.reloadProgress)
      ensures weapon != null ==> weapon.currentAmmo == old(weapon.currentAmmo) && weapon.parts == old(weapon.parts)
    {
      weaponController.HandleReload(this);
    }

    /** `update(deltaTime)`, with `probe` the ground ray's result for this frame. */
    method Update(deltaTime: real, probe: bool)
      modifies this`isGrounded, this`groundingState, this`movementState, this`stanceState, this`weaponState
      modifies movementController, weaponController`reloadTimer, leanController, BodyFrame()`linvel
      ensures Snapshot() == Tick(old(Snapshot()), Env(body != null, physicsWorld, probe, deltaTime))
      ensures body != null ==> body.impulses == old(body.impulses) && body.bodyType == old(body.bodyType)
    {
      groundingController.Update(this, probe);
      movementController.Update(this);
      stanceController.Update(this);
      weaponController.Update(this, deltaTime);
      leanController.Update(this, deltaTime);
    }
  }
}
