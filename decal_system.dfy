/**
 * Bullet-hole decals: a bounded first-in-first-out list of records, each
 * pairing a decal mesh with the object it is attached to. Meshes, their
 * placement on the surface and the scene graph are not modelled; a decal
 * mesh is an object identity.
 *
 * The records stored are `{mesh, parent}` pairs rather than meshes, so the
 * clean-up code that calls `geometry.dispose()` on a record reads a
 * property of `undefined` and throws.
 */
module Decals {
  import opened Wrappers

  /** An object of the scene a bullet can hit. */
  class SceneNode {
    constructor() {}
  }

  /** A decal mesh. */
  class DecalMesh {
    constructor() {}
  }

  /** What a decal is attached to: the hit object, or the scene root when there is none. */
  datatype Parent = SceneRoot | Attached(node: SceneNode)

  datatype Decal = Decal(mesh: DecalMesh, parent: Parent)

  const MaxDecals: nat := 100

  /** `record.geometry.dispose()` on a `{mesh, parent}` record. */
  const DisposeError := TypeError("Cannot read properties of undefined (reading 'dispose')")

  /** Surfaces that never receive decals. */
  predicate Skipped(surfaceType: string) {
    surfaceType == "entity" || surfaceType == "dynamic"
  }

  /** The list after appending `d` and the completion of `addDecal`. */
  datatype Appended = Appended(decals: seq<Decal>, outcome: Outcome)

  /**
   * Appends `d`; when that takes the list over the cap, the oldest record is
   * shifted off the front and disposing of it throws.
   */
  function Push(decals: seq<Decal>, d: Decal): (r: Appended)
    ensures |decals| < MaxDecals ==> r == Appended(decals + [d], Pass)
    ensures |decals| >= MaxDecals ==> r == Appended(decals[1..] + [d], Fail(DisposeError))
  {
    var appended := decals + [d];
    if |appended| > MaxDecals then
      assert appended[1..] == decals[1..] + [d];
      Appended(appended[1..], Fail(DisposeError))
    else Appended(appended, Pass)
  }

  /** The list after a series of successful-or-failing additions, in order. */
  function PushAll(decals: seq<Decal>, added: seq<Decal>): seq<Decal>
    decreases |added|
  {
    if added == [] then decals
    else PushAll(Push(decals, added[0]).decals, added[1..])
  }

  /** The most recent `MaxDecals` records of `s`, oldest first. */
  function Newest(s: seq<Decal>): (r: seq<Decal>)
    ensures |r| == if |s| <= MaxDecals then |s| else MaxDecals
  {
    if |s| <= MaxDecals then s else s[|s| - MaxDecals..]
  }

  /** One addition keeps the window of the newest records. */
  lemma PushWindow(decals: seq<Decal>, d: Decal)
    requires |decals| <= MaxDecals
    ensures Push(decals, d).decals == Newest(decals + [d])
  {
    if |decals| == MaxDecals {
      assert (decals + [d])[1..] == decals[1..] + [d];
    }
  }

  /**
   * However many decals are added, the list holds the newest `MaxDecals` of
   * everything ever added, oldest first.
   */
  lemma {:induction false} PushAllWindow(decals: seq<Decal>, added: seq<Decal>)
    requires |decals| <= MaxDecals
    ensures PushAll(decals, added) == Newest(decals + added)
    ensures |PushAll(decals, added)| <= MaxDecals
    decreases |added|
  {
    if added != [] {
      var next := Push(decals, added[0]).decals;
      PushWindow(decals, added[0]);
      PushAllWindow(next, added[1..]);
      NewestAppend(decals, [added[0]], added[1..]);
      assert decals + [added[0]] + added[1..] == decals + added;
    }
  }

  /** Trimming to the window before appending more does not change the final window. */
  lemma NewestAppend(a: seq<Decal>, b: seq<Decal>, c: seq<Decal>)
    ensures Newest(Newest(a + b) + c) == Newest(a + b + c)
  {
    var s := a + b;
    if |s| > MaxDecals {
      var k := |s| - MaxDecals;
      assert s == s[..k] + s[k..];
      assert s + c == s[..k] + (s[k..] + c);
      if |s[k..] + c| > MaxDecals {
        assert (s + c)[|s + c| - MaxDecals..] == (s[k..] + c)[|s[k..] + c| - MaxDecals..];
      }
    }
  }

  class DecalSystem {
    var decals: seq<Decal>

    ghost predicate Valid()
      reads this
    {
      |decals| <= MaxDecals
    }

    constructor()
      ensures decals == [] && Valid()
    {
      decals := [];
    }

    /**
     * `addDecal(position, normal, hitObject, surfaceType)`. An absent
     * surface type defaults to 'static'. Entity and dynamic surfaces are
     * skipped; any other appends one fresh record, evicting the oldest
     * over the cap.
     */
    method AddDecal(hitObject: SceneNode?, surfaceType: Option<string>) returns (outcome: Outcome)
      requires Valid()
      modifies this
      ensures Valid()
      ensures Skipped(surfaceType.GetOr("static")) ==> decals == old(decals) && outcome == Pass
      ensures !Skipped(surfaceType.GetOr("static")) ==>
        && |decals| > 0
        && var d := decals[|decals| - 1];
           && fresh(d.mesh)
           && d.parent == (if hitObject == null then SceneRoot else Attached(hitObject))
           && Push(old(decals), d) == Appended(decals, outcome)
    {
      if Skipped(surfaceType.GetOr("static")) {
        return Pass;
      }
      var mesh := new DecalMesh();
      var parent := if hitObject == null then SceneRoot else Attached(hitObject);
      var d := Decal(mesh, parent);
      decals := decals + [d];
      outcome := Pass;
      if |decals| > MaxDecals {
        decals := decals[1..];
        outcome := Fail(DisposeError);
      }
    }

    /**
     * `clearAll()`: an empty list stays empty; otherwise disposing of the
     * first record throws before the list is reset, so it is left as it was.
     */
    method ClearAll() returns (outcome: Outcome)
      modifies this
      ensures old(decals) == [] ==> decals == [] && outcome == Pass
      ensures old(decals) != [] ==> decals == old(decals) && outcome == Fail(DisposeError)
    {
      if decals != [] {
        return Fail(DisposeError);
      }
      decals := [];
      outcome := Pass;
    }
  }
}
