/**
 * The Health component: hit points, death, and what happens to the entity
 * when it dies. Death is a one-way latch: it runs the death callback once
 * and then the configured death behaviour, which writes flags onto the
 * entity for other systems to act on.
 */
module HealthComponent {
  import opened Wrappers
  import Ecs
  import Physics

  /** `DeathBehavior`; `Other` is any string outside the table. */
  datatype DeathBehavior = Disappear | Ragdoll | DeathAnimation | DropItems | Persist | Other(tag: string)

  /** The `deathData` object's fields the behaviours read; `None` is a missing field. */
  datatype DeathData = DeathData(animationName: Option<string>, removeAfterAnimation: bool, items: Option<seq<string>>)

  /** What a death behaviour did: its completion, the entity's new flags, and whether it fixed the body. */
  datatype DeathEffect = DeathEffect(outcome: Outcome, flags: Ecs.EntityFlags, fixBody: bool)

  /** `rigidBody.disable()`: the RigidBody component has no such method. */
  const DisableError := TypeError("rigidBody.disable is not a function")

  /**
   * `executeDeathBehavior()`, given the death data, the entity's first
   * RigidBody component (or `null`) and its flags before the call.
   */
  function ExecuteDeathBehavior(b: DeathBehavior, data: Option<DeathData>, rigidBody: Ecs.Component?, f: Ecs.EntityFlags): (e: DeathEffect)
    ensures e.outcome.Fail? <==> b == Ragdoll && rigidBody != null
    ensures e.flags.markedForDeath <==>
      f.markedForDeath || b == Disappear || b == DropItems || b.Other? ||
      (b == DeathAnimation && data.Some? && data.value.removeAfterAnimation)
    ensures e.flags.isRagdoll <==> f.isRagdoll || (b == Ragdoll && rigidBody == null)
    ensures e.flags.isPersistent <==> f.isPersistent || b == Persist
    ensures e.fixBody <==> b == Persist && rigidBody != null && rigidBody.body != null
    ensures e.flags.isPlayingDeathAnimation <==> f.isPlayingDeathAnimation || b == DeathAnimation
    ensures e.flags.shouldDropItems <==> f.shouldDropItems || b == DropItems
    ensures e.flags.isDead == f.isDead
    // The animation name is written, under the misspelt key, only for a non-empty name.
    ensures e.flags.deathAnimationNAme ==
      if b == DeathAnimation && data.Some? && data.value.animationName.Some? && data.value.animationName.value != ""
      then data.value.animationName else f.deathAnimationNAme
    // Any supplied item list is written, an empty one included (an array is truthy).
    ensures e.flags.itemsToDrop ==
      if b == DropItems && data.Some? && data.value.items.Some? then data.value.items else f.itemsToDrop
  {
    match b
    case Disappear => DeathEffect(Pass, HandleDisappear(f), false)
    case Ragdoll =>
      if rigidBody != null then DeathEffect(Fail(DisableError), f, false)
      else DeathEffect(Pass, f.(isRagdoll := true), false)
    case DeathAnimation =>
      var named := data.Some? && data.value.animationName.Some? && data.value.animationName.value != "";
      var f1 := f.(isPlayingDeathAnimation := true);
      var f2 := if named then f1.(deathAnimationNAme := data.value.animationName) else f1;
      var f3 := if data.Some? && data.value.removeAfterAnimation then f2.(markedForDeath := true) else f2;
      DeathEffect(Pass, f3, false)
    case DropItems =>
      var f1 := f.(shouldDropItems := true);
      var f2 := if data.Some? && data.value.items.Some? then f1.(itemsToDrop := data.value.items) else f1;
      DeathEffect(Pass, f2.(markedForDeath := true), false)
    case Persist =>
      DeathEffect(Pass, f.(isPersistent := true), rigidBody != null && rigidBody.body != null)
    case Other(_) => DeathEffect(Pass, HandleDisappear(f), false)
  }

  function HandleDisappear(f: Ecs.EntityFlags): (g: Ecs.EntityFlags)
    ensures g.markedForDeath && g.(markedForDeath := f.markedForDeath) == f
  {
    f.(markedForDeath := true)
  }

  /** The health left after `amount` of damage: never negative, zero exactly when the damage is lethal. */
  function Damaged(current: real, amount: real): (r: real)
    ensures 0.0 <= r
    ensures r == 0.0 <==> current - amount <= 0.0
    ensures r != 0.0 ==> r == current - amount
  {
    if current - amount <= 0.0 then 0.0 else current - amount
  }

  /** The health after healing `amount`: never above `maxHealth`. */
  function Healed(current: real, amount: real, maxHealth: real): (r: real)
    ensures r <= maxHealth
    ensures r <= current + amount
    ensures r == current + amount || r == maxHealth
  {
    if current + amount < maxHealth then current + amount else maxHealth
  }

  /** Non-lethal damage is undone by healing the same amount. */
  lemma DamageThenHeal(current: real, amount: real, maxHealth: real)
    requires current <= maxHealth && current - amount > 0.0
    ensures Healed(Damaged(current, amount), amount, maxHealth) == current
  {
  }

  /** `currentHealth / maxHealth`, or `None` where the division gives NaN or an infinity. */
  function Percentage(current: real, maxHealth: real): (r: Option<real>)
    ensures r.None? <==> maxHealth == 0.0
    ensures r.Some? ==> r.value * maxHealth == current
  {
    if maxHealth == 0.0 then None else Some(current / maxHealth)
  }

  /** Between zero and full health the percentage is a fraction in [0, 1]. */
  lemma PercentageIsFraction(current: real, maxHealth: real)
    requires 0.0 < maxHealth && 0.0 <= current <= maxHealth
    ensures Percentage(current, maxHealth).Some?
    ensures 0.0 <= Percentage(current, maxHealth).value <= 1.0
  {
  }

  class Health {
    const entity: Ecs.Entity
    const maxHealth: real
    var currentHealth: real
    const deathBehavior: DeathBehavior
    /** Whether an `onDeathCallback` was given. */
    const hasDeathCallback: bool
    const deathData: Option<DeathData>
    var isDead: bool
    /** How many times `onDeathCallback(entity)` has been called. */
    var deathCallbackCalls: nat

    /** `new Health(entity, maxHealth = 100, deathBehavior = DISAPPEAR, onDeathCallback = null, deathData = null)`. */
    constructor(entity: Ecs.Entity, maxHealth: Option<real>, deathBehavior: Option<DeathBehavior>,
                hasDeathCallback: bool, deathData: Option<DeathData>)
      ensures this.entity == entity
      ensures this.maxHealth == maxHealth.GetOr(100.0) && currentHealth == this.maxHealth
      ensures this.deathBehavior == deathBehavior.GetOr(Disappear)
      ensures this.hasDeathCallback == hasDeathCallback && this.deathData == deathData
      ensures !isDead && deathCallbackCalls == 0
    {
      this.entity := entity;
      this.maxHealth := maxHealth.GetOr(100.0);
      currentHealth := maxHealth.GetOr(100.0);
      this.deathBehavior := deathBehavior.GetOr(Disappear);
      this.hasDeathCallback := hasDeathCallback;
      this.deathData := deathData;
      isDead := false;
      deathCallbackCalls := 0;
    }

    /** The body `handlePersist` may fix: that of the entity's first RigidBody component. */
    function RigidBody(): Ecs.Component?
      reads entity
    {
      entity.GetComponent(Ecs.RigidBodyType)
    }

    /** That component's physics body, or `null`. */
    function Body(): Physics.RigidBody?
      reads entity
    {
      var rb := RigidBody();
      if rb != null then rb.body else null
    }

    function BodyFrame(): set<Physics.RigidBody>
      reads entity
    {
      if Body() != null then {Body()} else {}
    }

    /**
     * `die()`: the first call sets `isDead`, calls the death callback once
     * and runs the death behaviour; later calls do nothing. Of the body,
     * only `handlePersist` touches anything, and only its type.
     */
    method Die() returns (outcome: Outcome)
      modifies this`isDead, this`deathCallbackCalls, entity`flags, BodyFrame()`bodyType
      ensures old(isDead) ==>
        outcome == Pass && isDead && deathCallbackCalls == old(deathCallbackCalls) && entity.flags == old(entity.flags)
      ensures !old(isDead) ==>
        && isDead
        && deathCallbackCalls == old(deathCallbackCalls) + (if hasDeathCallback then 1 else 0)
        && var e := ExecuteDeathBehavior(deathBehavior, deathData, old(RigidBody()), old(entity.flags));
           && outcome == e.outcome && entity.flags == e.flags
      ensures Body() != null ==>
        && Body().bodyType == (if !old(isDead) && deathBehavior == Persist then Physics.Fixed else old(Body().bodyType))
        && Body().linvel == old(Body().linvel) && Body().impulses == old(Body().impulses)
    {
      if isDead {
        return Pass;
      }
      isDead := true;
      if hasDeathCallback {
        deathCallbackCalls := deathCallbackCalls + 1;
      }
      var rb := RigidBody();
      var e := ExecuteDeathBehavior(deathBehavior, deathData, rb, entity.flags);
      entity.flags := e.flags;
      if e.fixBody {
        rb.body.bodyType := Physics.Fixed;
      }
      outcome := e.outcome;
    }

    /**
     * `takeDamage(amount)`: `Success(true)` when this damage killed the
     * entity, `Success(false)` otherwise, and an error when the death
     * behaviour throws. A dead entity takes no damage.
     */
    method TakeDamage(amount: real) returns (died: Result<bool>)
      modifies this`currentHealth, this`isDead, this`deathCallbackCalls, entity`flags, BodyFrame()`bodyType
      ensures old(isDead) ==>
        died == Success(false) && currentHealth == old(currentHealth) && isDead &&
        deathCallbackCalls == old(deathCallbackCalls) && entity.flags == old(entity.flags)
      ensures !old(isDead) ==> currentHealth == Damaged(old(currentHealth), amount)
      ensures !old(isDead) && currentHealth != 0.0 ==>
        died == Success(false) && !isDead && deathCallbackCalls == old(deathCallbackCalls) && entity.flags == old(entity.flags)
      ensures !old(isDead) && currentHealth == 0.0 ==>
        && isDead
        && deathCallbackCalls == old(deathCallbackCalls) + (if hasDeathCallback then 1 else 0)
        && var e := ExecuteDeathBehavior(deathBehavior, deathData, old(RigidBody()), old(entity.flags));
           && entity.flags == e.flags
           && died == (if e.outcome.Pass? then Success(true) else Failure(e.outcome.error))
      ensures Body() != null ==>
        && Body().bodyType ==
             (if !old(isDead) && currentHealth == 0.0 && deathBehavior == Persist then Physics.Fixed else old(Body().bodyType))
        && Body().linvel == old(Body().linvel) && Body().impulses == old(Body().impulses)
    {
      if isDead {
        return Success(false);
      }
      currentHealth := currentHealth - amount;
      if currentHealth <= 0.0 {
        currentHealth := 0.0;
        var outcome := Die();
        if outcome.Fail? {
          return Failure(outcome.error);
        }
        return Success(true);
      }
      died := Success(false);
    }

    /** `heal(amount)`: no effect once dead; otherwise capped at `maxHealth`. */
    method Heal(amount: real)
      modifies this`currentHealth
      ensures currentHealth == if isDead then old(currentHealth) else Healed(old(currentHealth), amount, maxHealth)
    {
      if isDead {
        return;
      }
      currentHealth := Healed(currentHealth, amount, maxHealth);
    }

    /** `getHealthPercentage()`. */
    function HealthPercentage(): (r: Option<real>)
      reads this
      ensures r == Percentage(currentHealth, maxHealth)
      ensures 0.0 < maxHealth && 0.0 <= currentHealth <= maxHealth ==> r.Some? && 0.0 <= r.value <= 1.0
    {
      if 0.0 < maxHealth && 0.0 <= currentHealth <= maxHealth then
        PercentageIsFraction(currentHealth, maxHealth);
        Percentage(currentHealth, maxHealth)
      else Percentage(currentHealth, maxHealth)
    }
  }
}
