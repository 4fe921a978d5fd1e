/**
 * Entities and their component lists. An entity owns an ordered list of
 * components; components are found by type (first match) and removed by
 * identity (first occurrence). The flags other components write onto an
 * entity object at run time (`markedForDeath`, `isRagdoll`, ...) are
 * gathered in `EntityFlags`.
 */
module Ecs {
  import opened Wrappers
  import JsArray
  import Physics

  /** `removeArrayElement`: splice out the first occurrence of `x`, if any. */
  function RemoveArrayElement<T(==)>(s: seq<T>, x: T): (r: seq<T>)
    ensures x !in s ==> r == s
    ensures x in s ==> |r| == |s| - 1 && multiset(r) == multiset(s) - multiset{x}
    ensures x in s ==> exists i :: 0 <= i < |s| && s[i] == x && x !in s[..i] && r == s[..i] + s[i + 1..]
  {
    var i := JsArray.IndexOf(s, x);
    if i < 0 then s
    else
      assert s == s[..i] + [s[i]] + s[i + 1..];
      s[..i] + s[i + 1..]
  }

  /** Appending an element that was not there and then removing it restores the list. */
  lemma AppendThenRemove<T>(s: seq<T>, x: T)
    ensures x !in s ==> RemoveArrayElement(s + [x], x) == s
    ensures multiset(RemoveArrayElement(s + [x], x)) == multiset(s)
  {
    assert x in s + [x];
    if x !in s {
      assert JsArray.IndexOf(s + [x], x) == |s| by {
        assert (s + [x])[|s|] == x;
        assert (s + [x])[..|s|] == s;
      }
      assert (s + [x])[..|s|] == s;
    }
  }

  /** The constructor a component was created with; `instanceof` is modelled as equality of these, without subclasses. */
  datatype ComponentType = ComponentType(name: string)

  const RigidBodyType := ComponentType("RigidBody")

  /**
   * A component. `body` is the physics body a RigidBody component wraps
   * (its first constructor argument); other kinds carry `null`.
   */
  class Component {
    const entity: Entity
    const kind: ComponentType
    const body: Physics.RigidBody?

    constructor(entity: Entity, kind: ComponentType, body: Physics.RigidBody?)
      ensures this.entity == entity && this.kind == kind && this.body == body
    {
      this.entity := entity;
      this.kind := kind;
      this.body := body;
    }
  }

  /**
   * Properties other components attach to an entity object at run time;
   * `false`/`None` stand for a property never assigned. The animation
   * name is written under the misspelt key `deathAnimationNAme`.
   */
  datatype EntityFlags = EntityFlags(
    isDead: bool, markedForDeath: bool, isRagdoll: bool,
    isPlayingDeathAnimation: bool, deathAnimationNAme: Option<string>,
    shouldDropItems: bool, itemsToDrop: Option<seq<string>>,
    isPersistent: bool)

  const NoFlags := EntityFlags(false, false, false, false, None, false, None, false)

  /** One `component.update()` call; `deltaTime` is what the component receives. */
  datatype UpdateCall = UpdateCall(component: Component, deltaTime: Option<real>)

  /** The first component of the given type, or `null`. */
  function FirstOfType(cs: seq<Component>, kind: ComponentType): (c: Component?)
    ensures c == null <==> forall i :: 0 <= i < |cs| ==> cs[i].kind != kind
    ensures c != null ==> exists i :: 0 <= i < |cs| && cs[i] == c && c.kind == kind &&
                                     forall j :: 0 <= j < i ==> cs[j].kind != kind
  {
    if cs == [] then null
    else if cs[0].kind == kind then cs[0]
    else
      var c := FirstOfType(cs[1..], kind);
      assert forall i :: 1 <= i < |cs| ==> cs[i] == cs[1..][i - 1];
      c
  }

  class Entity {
    const name: string
    var components: seq<Component>
    var flags: EntityFlags

    /** `new Entity(parent, name)`; attaching the transform to `parent` is scene-graph work. */
    constructor(name: string)
      ensures this.name == name && components == [] && flags == NoFlags
    {
      this.name := name;
      components := [];
      flags := NoFlags;
    }

    /** Creates a component of the given type for this entity and appends it. */
    method AddComponent(kind: ComponentType, body: Physics.RigidBody?) returns (c: Component)
      modifies this`components
      ensures fresh(c) && c.entity == this && c.kind == kind && c.body == body
      ensures components == old(components) + [c]
    {
      c := new Component(this, kind, body);
      components := components + [c];
    }

    method RemoveComponent(c: Component)
      modifies this`components
      ensures components == RemoveArrayElement(old(components), c)
    {
      components := RemoveArrayElement(components, c);
    }

    function GetComponent(kind: ComponentType): (c: Component?)
      reads this
      ensures c == null <==> forall i :: 0 <= i < |components| ==> components[i].kind != kind
      ensures c != null ==> c in components && c.kind == kind
      ensures c != null ==> exists i :: 0 <= i < |components| && components[i] == c &&
                                        forall j :: 0 <= j < i ==> components[j].kind != kind
    {
      FirstOfType(components, kind)
    }

    /** `update()`: each component's `update()`, in list order, with no argument. */
    method Update() returns (calls: seq<UpdateCall>)
      ensures |calls| == |components|
      ensures forall i :: 0 <= i < |calls| ==> calls[i] == UpdateCall(components[i], None)
    {
      calls := [];
      for i := 0 to |components|
        invariant |calls| == i
        invariant forall k :: 0 <= k < i ==> calls[k] == UpdateCall(components[k], None)
      {
        calls := calls + [UpdateCall(components[i], None)];
      }
    }
  }
}
