/**
 * The registry of live entities, kept in a `SafeArray` so that entities
 * can be created and removed while the registry is being updated.
 */
module EntityManagers {
  import opened Wrappers
  import JsArray
  import Ecs
  import SafeArrays

  /** The message of the exception `removeEntity` raises. */
  const RemoveEntityError := TypeError("this.entities.removeEntity is not a function")

  /** `entity => entity.update()` queues nothing on the registry. */
  function UpdateEntity(e: Ecs.Entity): SafeArrays.Effect<Ecs.Entity> {
    SafeArrays.Effect([], {})
  }

  class EntityManager {
    const entities: SafeArrays.SafeArray<Ecs.Entity>

    constructor()
      ensures fresh(entities)
      ensures entities.items == [] && entities.addQueue == [] && entities.removeQueue == {}
    {
      entities := new SafeArrays.SafeArray();
    }

    /** Creates a fresh, empty entity and queues it for addition; it is live from the next update. */
    method CreateEntity(name: string) returns (entity: Ecs.Entity)
      modifies entities`addQueue
      ensures fresh(entity) && entity.name == name && entity.components == []
      ensures entities.addQueue == old(entities.addQueue) + [entity]
    {
      entity := new Ecs.Entity(name);
      entities.Add(entity);
    }

    /**
     * `removeEntity` calls a method the SafeArray does not have, so it
     * always throws and queues nothing.
     */
    method RemoveEntity(entity: Ecs.Entity) returns (outcome: Outcome)
      ensures outcome == Fail(RemoveEntityError)
    {
      outcome := Fail(RemoveEntityError);
    }

    /**
     * `update()`: every live entity, queued additions included and queued
     * removals excluded, is updated once, in registry order.
     */
    method Update() returns (updated: seq<Ecs.Entity>)
      modifies entities
      ensures var live := JsArray.Without(old(entities.items) + old(entities.addQueue), old(entities.removeQueue));
              && updated == live
              && entities.items == live
              && entities.addQueue == [] && entities.removeQueue == {}
    {
      ghost var live := JsArray.Without(entities.items + entities.addQueue, entities.removeQueue);
      updated := entities.ForEach(UpdateEntity);
      SafeArrays.QuietPassVisitsLive(live, {}, UpdateEntity);
      assert forall i :: 0 <= i < |live| ==> live[i] !in {};
    }
  }
}
