/**
 * The AI controller component: per-frame behaviour bookkeeping for a
 * non-player entity. Positions and distances belong to the scene graph,
 * so each frame the controller is given what it would measure about the
 * point it moves toward (the horizontal distance and the normalised
 * horizontal direction), and the random offset a wander retarget would
 * draw. Everything the controller keeps (behaviour, activity, waypoint
 * index, wander timer and target, body velocity) is modelled exactly.
 */
module AI {
  import opened Wrappers
  import opened Physics
  import Ecs
  import Defs = WeaponDefinitions

  /** `AIBehavior`; `Unknown` is any other string, which only logs a warning. */
  datatype Behavior = Idle | Patrol | Wander | Flee | Chase | Unknown(tag: string)

  /** The optional `config` object of the constructor; `None` is a missing field. */
  datatype AIConfig = AIConfig(
    target: Option<Ecs.Entity>, speed: Option<real>, detectionRange: Option<real>,
    waypoints: Option<seq<Vec3>>, waypointReachedDistance: Option<real>,
    wanderInterval: Option<real>)

  const NoConfig := AIConfig(None, None, None, None, None, None)

  /** The smoothing rate of `moveTowards`. */
  const Acceleration: real := 5.0

  /** The constants one controller runs with. */
  datatype Params = Params(speed: real, waypointReachedDistance: real, wanderInterval: real, spawnPosition: Vec3)

  /** What the controller measures about the point it moves toward this frame. */
  datatype Sensed = Sensed(distance: real, direction: Vec3)

  /** Everything one `update(deltaTime)` depends on besides the controller's own fields. */
  datatype AIEnv = AIEnv(
    deactivate: bool, hasBody: bool, hasTarget: bool, waypointCount: nat,
    deltaTime: real, sensed: Sensed, randomOffset: Vec3)

  /** The controller's mutable fields and the body's velocity, as values. */
  datatype AIFrame = AIFrame(
    behaviorType: Behavior, isActive: bool, currentWaypointIndex: nat,
    wanderTimer: real, wanderTarget: Option<Vec3>, velocity: Vec3)

  function Add(a: Vec3, b: Vec3): Vec3 {
    Vec3(a.x + b.x, a.y + b.y, a.z + b.z)
  }

  /** `stopMovement()`: with a body, horizontal velocity becomes zero. */
  function Stop(v: Vec3, hasBody: bool): (r: Vec3)
    ensures r.y == v.y
    ensures hasBody ==> r.x == 0.0 && r.z == 0.0
    ensures !hasBody ==> r == v
  {
    if hasBody then Halted(v) else v
  }

  /** The result of `moveTowards`: whether the point was reached, and the body's new velocity. */
  datatype Move = Move(reached: bool, velocity: Vec3)

  /**
   * `moveTowards(target, deltaTime)`: without a body, not reached and
   * nothing changes; within the reached distance, stop and report it;
   * otherwise blend horizontal velocity toward `direction * speed` by
   * `acceleration * deltaTime`, keeping vertical velocity.
   */
  function Towards(p: Params, hasBody: bool, v: Vec3, s: Sensed, deltaTime: real): (m: Move)
    ensures m.reached <==> hasBody && s.distance < p.waypointReachedDistance
    ensures m.velocity.y == v.y
    ensures !hasBody ==> m.velocity == v
    ensures m.reached ==> m.velocity == Halted(v)
    ensures hasBody && !m.reached && 0.0 <= Acceleration * deltaTime <= 1.0 ==>
      Between(m.velocity.x, v.x, s.direction.x * p.speed) && Between(m.velocity.z, v.z, s.direction.z * p.speed)
  {
    if !hasBody then Move(false, v)
    else if s.distance < p.waypointReachedDistance then Move(true, Halted(v))
    else
      var t := Acceleration * deltaTime;
      Move(false, Vec3(Lerp(v.x, s.direction.x * p.speed, t), v.y, Lerp(v.z, s.direction.z * p.speed, t)))
  }

  predicate Between(r: real, a: real, b: real) {
    (a <= b && a <= r <= b) || (b <= a && b <= r <= a)
  }

  /** With a full blend (`acceleration * deltaTime == 1`) the horizontal velocity is exactly the target one. */
  lemma FullBlendReachesTarget(p: Params, v: Vec3, s: Sensed, deltaTime: real)
    requires Acceleration * deltaTime == 1.0 && s.distance >= p.waypointReachedDistance
    ensures Towards(p, true, v, s, deltaTime).velocity == Vec3(s.direction.x * p.speed, v.y, s.direction.z * p.speed)
  {
  }

  /** The next waypoint index after a patrol frame. */
  function NextWaypoint(index: nat, count: nat, reached: bool): (r: nat)
    requires count > 0
    ensures index < count ==> r < count
    ensures !reached ==> r == index
    ensures reached && index + 1 < count ==> r == index + 1
    ensures reached && index + 1 == count ==> r == 0
  {
    if reached then (index + 1) % count else index
  }

  /** The index after `n` reached waypoints in a row. */
  function AdvanceWaypoint(index: nat, count: nat, n: nat): nat
    requires count > 0
    decreases n
  {
    if n == 0 then index else AdvanceWaypoint(NextWaypoint(index, count, true), count, n - 1)
  }

  /** Short of the end of the route, each arrival moves the index one waypoint on. */
  lemma {:induction false} AdvanceAlong(index: nat, count: nat, n: nat)
    requires index + n < count
    ensures AdvanceWaypoint(index, count, n) == index + n
    decreases n
  {
    if n > 0 {
      AdvanceAlong(index + 1, count, n - 1);
    }
  }

  /** Arrivals compose: `a` arrivals and then `b` more are `a + b` arrivals. */
  lemma {:induction false} AdvanceSplit(index: nat, count: nat, a: nat, b: nat)
    requires count > 0
    ensures AdvanceWaypoint(index, count, a + b) == AdvanceWaypoint(AdvanceWaypoint(index, count, a), count, b)
    decreases a
  {
    if a > 0 {
      AdvanceSplit(NextWaypoint(index, count, true), count, a - 1, b);
    }
  }

  /**
   * Every patrol route is a cycle: after as many arrivals as there are
   * waypoints, the index is back where it started.
   */
  lemma PatrolReturns(index: nat, count: nat)
    requires index < count
    ensures AdvanceWaypoint(index, count, count) == index
  {
    var toEnd := count - 1 - index;
    AdvanceSplit(index, count, toEnd, index + 1);
    AdvanceAlong(index, count, toEnd);
    assert AdvanceWaypoint(count - 1, count, index + 1) == AdvanceWaypoint(0, count, index);
    if index > 0 {
      AdvanceAlong(0, count, index);
    }
  }

  function PatrolStep(f: AIFrame, p: Params, env: AIEnv): (r: AIFrame)
    ensures r == f.(velocity := r.velocity, currentWaypointIndex := r.currentWaypointIndex)
    ensures r.velocity.y == f.velocity.y
    ensures env.waypointCount == 0 ==> r.currentWaypointIndex == f.currentWaypointIndex && r.velocity == Stop(f.velocity, env.hasBody)
    ensures env.waypointCount > 0 && f.currentWaypointIndex < env.waypointCount ==> r.currentWaypointIndex < env.waypointCount
    ensures !(env.hasBody && env.sensed.distance < p.waypointReachedDistance) ==> r.currentWaypointIndex == f.currentWaypointIndex
  {
    if env.waypointCount == 0 then f.(velocity := Stop(f.velocity, env.hasBody))
    else
      var m := Towards(p, env.hasBody, f.velocity, env.sensed, env.deltaTime);
      f.(velocity := m.velocity,
         currentWaypointIndex := NextWaypoint(f.currentWaypointIndex, env.waypointCount, m.reached))
  }

  /**
   * `updateWander(deltaTime)`: the timer advances; with no target or once
   * it reaches the interval, a new target is drawn around the spawn point
   * and the timer restarts; reaching the target runs the timer out.
   */
  function WanderStep(f: AIFrame, p: Params, env: AIEnv): (r: AIFrame)
    ensures r == f.(wanderTimer := r.wanderTimer, wanderTarget := r.wanderTarget, velocity := r.velocity)
    ensures r.velocity.y == f.velocity.y
    ensures r.wanderTarget.Some?
    ensures f.wanderTarget.None? ==> r.wanderTarget == Some(Add(p.spawnPosition, env.randomOffset))
    ensures 0.0 <= f.wanderTimer <= p.wanderInterval && env.deltaTime >= 0.0 ==> 0.0 <= r.wanderTimer <= p.wanderInterval
    ensures env.hasBody && env.sensed.distance < p.waypointReachedDistance ==> r.wanderTimer == p.wanderInterval
  {
    var t := f.wanderTimer + env.deltaTime;
    var retarget := f.wanderTarget.None? || t >= p.wanderInterval;
    var timer := if retarget then 0.0 else t;
    var target := if retarget then Some(Add(p.spawnPosition, env.randomOffset)) else f.wanderTarget;
    var m := Towards(p, env.hasBody, f.velocity, env.sensed, env.deltaTime);
    f.(wanderTimer := if m.reached then p.wanderInterval else timer, wanderTarget := target, velocity := m.velocity)
  }

  /** `updateChase` and `updateFlee`: stop without a target, otherwise move; the point differs, not the bookkeeping. */
  function PursueStep(f: AIFrame, p: Params, env: AIEnv): (r: AIFrame)
    ensures r == f.(velocity := r.velocity)
    ensures r.velocity.y == f.velocity.y
    ensures !env.hasTarget ==> r.velocity == Stop(f.velocity, env.hasBody)
    ensures !env.hasBody ==> r == f
  {
    if !env.hasTarget then f.(velocity := Stop(f.velocity, env.hasBody))
    else f.(velocity := Towards(p, env.hasBody, f.velocity, env.sensed, env.deltaTime).velocity)
  }

  /** `update(deltaTime)`. */
  function UpdateStep(f: AIFrame, p: Params, env: AIEnv): (r: AIFrame)
    ensures !f.isActive ==> r == f
    ensures f.isActive && env.deactivate ==> r == f.(isActive := false)
    ensures r.behaviorType == f.behaviorType && (r.isActive ==> f.isActive)
    ensures r.velocity.y == f.velocity.y
    ensures f.behaviorType != Patrol ==> r.currentWaypointIndex == f.currentWaypointIndex
    ensures f.behaviorType != Wander ==> r.wanderTimer == f.wanderTimer && r.wanderTarget == f.wanderTarget
  {
    if !f.isActive then f
    else if env.deactivate then f.(isActive := false)
    else match f.behaviorType
      case Idle => f.(velocity := Stop(f.velocity, env.hasBody))
      case Patrol => PatrolStep(f, p, env)
      case Wander => WanderStep(f, p, env)
      case Chase => PursueStep(f, p, env)
      case Flee => PursueStep(f, p, env)
      case Unknown(_) => f
  }

  function Updates(f: AIFrame, p: Params, envs: seq<AIEnv>): AIFrame
    decreases |envs|
  {
    if envs == [] then f else Updates(UpdateStep(f, p, envs[0]), p, envs[1..])
  }

  /**
   * The deactivation latch: an inactive controller ignores every later
   * frame, and a dead or ragdolled entity deactivates it and changes
   * nothing else.
   */
  lemma {:induction false} DeactivationLatch(f: AIFrame, p: Params, envs: seq<AIEnv>)
    ensures !f.isActive ==> Updates(f, p, envs) == f
    ensures f.isActive && envs != [] && envs[0].deactivate ==>
      Updates(f, p, envs) == f.(isActive := false)
    decreases |envs|
  {
    if envs != [] {
      if !f.isActive {
        DeactivationLatch(f, p, envs[1..]);
      } else if envs[0].deactivate {
        DeactivationLatch(f.(isActive := false), p, envs[1..]);
      }
    }
  }

  /** The waypoint index stays inside the route, and only patrol moves it. */
  lemma WaypointIndexInRange(f: AIFrame, p: Params, env: AIEnv)
    requires f.currentWaypointIndex < env.waypointCount || f.currentWaypointIndex == 0
    ensures var r := UpdateStep(f, p, env);
      && (r.currentWaypointIndex < env.waypointCount || r.currentWaypointIndex == 0)
      && (f.behaviorType != Patrol ==> r.currentWaypointIndex == f.currentWaypointIndex)
      && (env.waypointCount == 0 ==> r.currentWaypointIndex == f.currentWaypointIndex)
  {
  }

  /** With a non-negative frame time the wander timer stays within [0, interval]. */
  lemma WanderTimerBounded(f: AIFrame, p: Params, env: AIEnv)
    requires 0.0 <= f.wanderTimer <= p.wanderInterval && env.deltaTime >= 0.0
    ensures 0.0 <= UpdateStep(f, p, env).wanderTimer <= p.wanderInterval
  {
  }

  /**
   * Reaching the wander target runs the timer out, so the next wander
   * frame (with a non-negative frame time) draws a new target.
   */
  lemma ReachedWanderRetargets(f: AIFrame, p: Params, env: AIEnv, env2: AIEnv)
    requires f.isActive && !env.deactivate && !env2.deactivate && f.behaviorType == Wander
    requires env.hasBody && env.sensed.distance < p.waypointReachedDistance && env2.deltaTime >= 0.0
    ensures UpdateStep(f, p, env).wanderTimer == p.wanderInterval
    ensures UpdateStep(UpdateStep(f, p, env), p, env2).wanderTarget == Some(Add(p.spawnPosition, env2.randomOffset))
  {
  }

  /** After `setBehavior`, the first wander frame always draws a new target. */
  lemma ResetWanderRetargets(f: AIFrame, p: Params, env: AIEnv)
    requires f.isActive && !env.deactivate && f.wanderTarget.None? && f.behaviorType == Wander
    ensures UpdateStep(f, p, env).wanderTarget == Some(Add(p.spawnPosition, env.randomOffset))
  {
  }

  class AIController {
    const entity: Ecs.Entity
    /** Whether a physics world was given; the controller never uses it. */
    const physicsWorld: bool
    var behaviorType: Behavior
    var target: Ecs.Entity?
    const speed: real
    const detectionRange: real
    var waypoints: seq<Vec3>
    var currentWaypointIndex: nat
    const waypointReachedDistance: real
    const wanderInterval: real
    var wanderTimer: real
    var wanderTarget: Option<Vec3>
    var isActive: bool
    /** The entity's position when the controller was created. */
    const spawnPosition: Vec3

    /** The waypoint index always names a waypoint, or is 0 for an empty route. */
    ghost predicate Valid()
      reads this
    {
      currentWaypointIndex < |waypoints| || currentWaypointIndex == 0
    }

    /** `new AIController(entity, physicsWorld, behaviorType = IDLE, config = {})`; `||` defaults. */
    constructor(entity: Ecs.Entity, physicsWorld: bool, behaviorType: Option<Behavior>, config: AIConfig, spawnPosition: Vec3)
      ensures this.entity == entity && this.physicsWorld == physicsWorld && this.spawnPosition == spawnPosition
      ensures this.behaviorType == behaviorType.GetOr(Idle)
      ensures target == (if config.target.Some? then config.target.value else null)
      ensures speed == Defs.OrNumber(config.speed, 2.0)
      ensures detectionRange == Defs.OrNumber(config.detectionRange, 10.0)
      ensures waypoints == config.waypoints.GetOr([])
      ensures waypointReachedDistance == Defs.OrNumber(config.waypointReachedDistance, 1.0)
      ensures wanderInterval == Defs.OrNumber(config.wanderInterval, 3.0)
      ensures currentWaypointIndex == 0 && wanderTimer == 0.0 && wanderTarget.None? && isActive
      ensures Valid()
    {
      this.entity := entity;
      this.physicsWorld := physicsWorld;
      this.behaviorType := behaviorType.GetOr(Idle);
      target := if config.target.Some? then config.target.value else null;
      speed := Defs.OrNumber(config.speed, 2.0);
      detectionRange := Defs.OrNumber(config.detectionRange, 10.0);
      waypoints := config.waypoints.GetOr([]);
      currentWaypointIndex := 0;
      waypointReachedDistance := Defs.OrNumber(config.waypointReachedDistance, 1.0);
      wanderInterval := Defs.OrNumber(config.wanderInterval, 3.0);
      wanderTimer := 0.0;
      wanderTarget := None;
      isActive := true;
      this.spawnPosition := spawnPosition;
    }

    function Parameters(): Params
      reads this
    {
      Params(speed, waypointReachedDistance, wanderInterval, spawnPosition)
    }

    /** The physics body of the entity's first RigidBody component, or `null`. */
    function Body(): RigidBody?
      reads entity
    {
      var rb := entity.GetComponent(Ecs.RigidBodyType);
      if rb != null then rb.body else null
    }

    /** The body whose velocity the controller sets, if any. */
    function BodyFrame(): set<RigidBody>
      reads entity
    {
      if Body() != null then {Body()} else {}
    }

    function Snapshot(): AIFrame
      reads this, entity, BodyFrame()
    {
      AIFrame(behaviorType, isActive, currentWaypointIndex, wanderTimer, wanderTarget,
              if Body() != null then Body().linvel else Zero)
    }

    /** The environment of one frame, from the entity's flags and the frame's measurements. */
    function Env(deltaTime: real, sensed: Sensed, randomOffset: Vec3): AIEnv
      reads this, entity
    {
      AIEnv(entity.flags.isDead || entity.flags.isRagdoll, Body() != null, target != null,
            |waypoints|, deltaTime, sensed, randomOffset)
    }

    method StopMovement()
      modifies BodyFrame()`linvel
      ensures Body() != null ==> Body().linvel == Stop(old(Body().linvel), true)
      ensures Body() != null ==> Body().impulses == old(Body().impulses) && Body().bodyType == old(Body().bodyType)
    {
      var body := Body();
      if body == null {
        return;
      }
      var currentVel := body.linvel;
      body.linvel := Vec3(0.0, currentVel.y, 0.0);
    }

    method MoveTowards(sensed: Sensed, deltaTime: real) returns (reached: bool)
      modifies BodyFrame()`linvel
      ensures Body() != null ==> Body().impulses == old(Body().impulses) && Body().bodyType == old(Body().bodyType)
      ensures var m := Towards(Parameters(), Body() != null, old(Snapshot()).velocity, sensed, deltaTime);
        reached == m.reached && Snapshot() == old(Snapshot()).(velocity := m.velocity)
    {
      var body := Body();
      if body == null {
        return false;
      }
      if sensed.distance < waypointReachedDistance {
        StopMovement();
        return true;
      }
      var targetX, targetZ := sensed.direction.x * speed, sensed.direction.z * speed;
      var currentVel := body.linvel;
      var t := Acceleration * deltaTime;
      body.linvel := Vec3(Lerp(currentVel.x, targetX, t), currentVel.y, Lerp(currentVel.z, targetZ, t));
      reached := false;
    }

    /**
     * `update(deltaTime)`, given what the controller measures about the
     * point its behaviour moves toward and the offset a wander retarget
     * draws.
     */
    method Update(deltaTime: real, sensed: Sensed, randomOffset: Vec3)
      requires Valid()
      modifies this`isActive, this`currentWaypointIndex, this`wanderTimer, this`wanderTarget, BodyFrame()`linvel
      ensures Valid()
      ensures Body() != null ==> Body().impulses == old(Body().impulses) && Body().bodyType == old(Body().bodyType)
      ensures Snapshot() == UpdateStep(old(Snapshot()), Parameters(), old(Env(deltaTime, sensed, randomOffset)))
    {
      if !isActive {
        return;
      }
      if entity.flags.isDead || entity.flags.isRagdoll {
        isActive := false;
        return;
      }
      match behaviorType {
        case Idle =>
          StopMovement();
        case Patrol =>
          UpdatePatrol(deltaTime, sensed);
        case Wander =>
          UpdateWander(deltaTime, sensed, randomOffset);
        case Chase =>
          UpdatePursue(deltaTime, sensed);
        case Flee =>
          UpdatePursue(deltaTime, sensed);
        case Unknown(_) =>
      }
    }

    method UpdatePatrol(deltaTime: real, sensed: Sensed)
      requires Valid()
      modifies this`currentWaypointIndex, BodyFrame()`linvel
      ensures Valid()
      ensures Body() != null ==> Body().impulses == old(Body().impulses) && Body().bodyType == old(Body().bodyType)
      ensures Snapshot() == PatrolStep(old(Snapshot()), Parameters(), old(Env(deltaTime, sensed, Zero)))
    {
      if |waypoints| == 0 {
        StopMovement();
        return;
      }
      var reached := MoveTowards(sensed, deltaTime);
      if reached {
        currentWaypointIndex := (currentWaypointIndex + 1) % |waypoints|;
      }
    }

    method UpdateWander(deltaTime: real, sensed: Sensed, randomOffset: Vec3)
      modifies this`wanderTimer, this`wanderTarget, BodyFrame()`linvel
      ensures Body() != null ==> Body().impulses == old(Body().impulses) && Body().bodyType == old(Body().bodyType)
      ensures Snapshot() == WanderStep(old(Snapshot()), Parameters(), old(Env(deltaTime, sensed, randomOffset)))
    {
      wanderTimer := wanderTimer + deltaTime;
      if wanderTarget.None? || wanderTimer >= wanderInterval {
        wanderTimer := 0.0;
        wanderTarget := Some(Add(spawnPosition, randomOffset));
      }
      var reached := MoveTowards(sensed, deltaTime);
      if reached {
        wanderTimer := wanderInterval;
      }
    }

    /** `updateChase` and `updateFlee`; `sensed` is about the target, or the point away from it. */
    method UpdatePursue(deltaTime: real, sensed: Sensed)
      modifies BodyFrame()`linvel
      ensures Body() != null ==> Body().impulses == old(Body().impulses) && Body().bodyType == old(Body().bodyType)
      ensures Snapshot() == PursueStep(old(Snapshot()), Parameters(), old(Env(deltaTime, sensed, Zero)))
    {
      if target == null {
        StopMovement();
        return;
      }
      var _ := MoveTowards(sensed, deltaTime);
    }

    /** `setBehavior(newBehavior)`: also forgets the wander target and restarts its timer. */
    method SetBehavior(newBehavior: Behavior)
      modifies this`behaviorType, this`wanderTarget, this`wanderTimer
      ensures behaviorType == newBehavior && wanderTarget.None? && wanderTimer == 0.0
    {
      behaviorType := newBehavior;
      wanderTarget := None;
      wanderTimer := 0.0;
    }

    /** `setWaypoints(waypoints)`: a new route starts at its first waypoint. */
    method SetWaypoints(waypoints: seq<Vec3>)
      modifies this`waypoints, this`currentWaypointIndex
      ensures this.waypoints == waypoints && currentWaypointIndex == 0 && Valid()
    {
      this.waypoints := waypoints;
      currentWaypointIndex := 0;
    }

    method SetTarget(target: Ecs.Entity?)
      modifies this`target
      ensures this.target == target
    {
      this.target := target;
    }
  }
}
