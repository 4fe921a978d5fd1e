/**
 * The weapon held by the player: ammunition and rate of fire, hit
 * classification, the reload animation driven by the definition's phase
 * windows, recoil recovery and the aim-down-sights blend.
 *
 * Outside-world inputs are parameters: the current time `now` (seconds),
 * the collider the camera ray hit (if any), the ADS blend factor
 * `k = 1 - exp(-transitionSpeed * deltaTime)`, the sine function, and the
 * sight's position in the weapon group's local frame. Weapon parts are values
 * (position, rotation, visibility) keyed by part type, with their poses
 * at load time cached.
 */
module WeaponRuntime {
  import opened Wrappers
  import opened Physics
  import Defs = WeaponDefinitions
  import Decals
  import HealthComponent

  datatype PartKind = Magazine | ChargingHandle | Slide | Bolt | Trigger | Sight

  /** A weapon part: the fields of its scene node the animations write. */
  datatype Part = Part(position: Vec3, rotation: Vec3, visible: bool)

  /**
   * The aim-down-sights settings `definition.ads` is read for. The built
   * definition has no such section, so it is given separately.
   */
  datatype AdsConfig = AdsConfig(sightNode: Option<string>, transitionSpeed: real, offsetAdjustment: Vec3)

  /**
   * `collider.userData`, with the components of its entity the weapon looks
   * up already resolved: the mesh of its MeshInstance and its Health.
   */
  datatype UserData = UserData(
    entity: bool, surfaceType: Option<string>,
    mesh: Decals.SceneNode?, health: HealthComponent.Health?)

  datatype Collider = Collider(userData: Option<UserData>)

  /** `{object, type}` as `identifyHitObject` returns it. */
  datatype HitInfo = HitInfo(hitObject: Decals.SceneNode?, surfaceType: Option<string>)

  const WeaponOffset := Vec3(0.3, -0.2, -0.5)

  // ------------------------------------------------------------ firing

  /** `canFire()` at time `now`: a round left and the fire interval elapsed; reloading is not consulted. */
  predicate CanFireAt(ammo: int, lastFireTime: real, fireRate: real, now: real): (b: bool)
    ensures b <==> ammo >= 1 && lastFireTime + fireRate <= now
  {
    ammo > 0 && now - lastFireTime >= fireRate
  }

  /** With a round left, the gate reopens exactly `fireRate` after a shot, and stays open. */
  lemma FireRateReopens(ammo: int, fireRate: real, now: real, later: real)
    requires ammo > 0 && later >= now + fireRate
    ensures CanFireAt(ammo, now, fireRate, later)
  {
  }

  /** After a shot at `now`, no second shot is possible before `now + fireRate`. */
  lemma FireRateGate(ammo: int, fireRate: real, now: real, later: real)
    requires later - now < fireRate
    ensures !CanFireAt(ammo, now, fireRate, later)
  {
  }

  /** With no round left the weapon refuses to fire, whatever the time. */
  lemma LastRoundEmpties(fireRate: real, lastFireTime: real, now: real)
    ensures !CanFireAt(0, lastFireTime, fireRate, now)
  {
  }

  /** `identifyHitObject(collider)`. */
  function IdentifyHitObject(c: Collider): (h: HitInfo)
    ensures c.userData.None? || !c.userData.value.entity ==> h == HitInfo(null, Some("static"))
    ensures h.surfaceType == Some("entity") ==> h.hitObject == null
    ensures h.hitObject != null ==>
      c.userData.Some? && h.hitObject == c.userData.value.mesh && h.surfaceType == c.userData.value.surfaceType
    ensures h.surfaceType == Some("entity") <==>
              c.userData.Some? && c.userData.value.entity && c.userData.value.surfaceType == Some("entity")
  {
    if c.userData.None? || !c.userData.value.entity then HitInfo(null, Some("static"))
    else if c.userData.value.surfaceType == Some("entity") then HitInfo(null, Some("entity"))
    else if c.userData.value.mesh != null then HitInfo(c.userData.value.mesh, c.userData.value.surfaceType)
    else HitInfo(null, Some("static"))
  }

  /** A hit classified as an entity never receives a decal. */
  lemma EntityHitsGetNoDecal(c: Collider)
    requires IdentifyHitObject(c).surfaceType == Some("entity")
    ensures Decals.Skipped(IdentifyHitObject(c).surfaceType.GetOr("static"))
  {
  }

  /** The Health a shot at `c` damages, if any: only entity hits whose entity has one. */
  function DamageTarget(c: Collider): (h: HealthComponent.Health?)
    ensures h != null ==> IdentifyHitObject(c).surfaceType == Some("entity")
  {
    if IdentifyHitObject(c).surfaceType == Some("entity") then c.userData.value.health else null
  }

  // ------------------------------------------------------------ reload

  /** Every part except the sight has its load-time pose cached. */
  ghost predicate Cached(parts: map<PartKind, Part>, origPos: map<PartKind, Vec3>, origRot: map<PartKind, Vec3>) {
    forall k :: k in parts && k != Sight ==> k in origPos && k in origRot
  }

  /** A phase window `[start, end)`. */
  predicate InWindow(t: real, start: real, end: real) {
    start <= t < end
  }

  /** How far through its window the animation is. */
  function Phase(t: real, start: real, end: real): (phase: real)
    requires InWindow(t, start, end)
    ensures 0.0 <= phase < 1.0
  {
    PhaseBounds(t - start, end - start);
    (t - start) / (end - start)
  }

  lemma PhaseBounds(num: real, den: real)
    requires 0.0 <= num < den
    ensures 0.0 <= num / den < 1.0
  {
    var q := num / den;
    assert q * den == num;
    if q >= 1.0 {
      ProductSign(q - 1.0, den);
    }
    if q < 0.0 {
      ProductSign(q, den);
    }
  }

  /**
   * `animateMagazineDrop`: down and sideways with the phase, rotating;
   * hidden from phase 0.9. It starts from the cached pose, falls at most
   * `magDropDistance` for a phase in [0, 1], and leaves the depth and the
   * rotation about y as they were.
   */
  function DropPose(mag: Part, origPos: Vec3, origRot: Vec3, a: Defs.ReloadAnimation, phase: real): (r: Part)
    ensures r.visible <==> phase < 0.9
    ensures r.position.z == mag.position.z && r.rotation.y == mag.rotation.y
    ensures phase == 0.0 ==>
      r.position.x == origPos.x && r.position.y == origPos.y && r.rotation.x == origRot.x && r.rotation.z == origRot.z
    ensures 0.0 <= phase <= 1.0 && 0.0 <= a.magDropDistance ==>
      origPos.y - a.magDropDistance <= r.position.y <= origPos.y
  {
    DropBound(a.magDropDistance, phase);
    Part(
      mag.position.(x := origPos.x + a.magDropSideways * phase, y := origPos.y - a.magDropDistance * phase),
      mag.rotation.(x := origRot.x + PI * a.magDropRotation * phase, z := origRot.z + PI * a.magDropTwist * phase),
      phase < 0.9)
  }

  lemma DropBound(distance: real, phase: real)
    ensures 0.0 <= phase <= 1.0 && 0.0 <= distance ==> 0.0 <= distance * phase <= distance
  {
    if 0.0 <= phase <= 1.0 && 0.0 <= distance {
      ProductSign(phase, distance);
      ProductSign(1.0 - phase, distance);
    }
  }

  /** `animateMagazineInsert`: the drop run backwards, always visible. */
  function InsertPose(mag: Part, origPos: Vec3, origRot: Vec3, a: Defs.ReloadAnimation, phase: real): (r: Part)
    ensures r.visible
    ensures r.position == DropPose(mag, origPos, origRot, a, 1.0 - phase).position
    ensures r.rotation == DropPose(mag, origPos, origRot, a, 1.0 - phase).rotation
  {
    var back := 1.0 - phase;
    var rot := mag.rotation.(x := origRot.x + PI * a.magDropRotation * back, z := origRot.z + PI * a.magDropTwist * back);
    assert rot.x == DropPose(mag, origPos, origRot, a, back).rotation.x;
    assert rot.z == DropPose(mag, origPos, origRot, a, back).rotation.z;
    Part(
      mag.position.(x := origPos.x + a.magDropSideways * back, y := origPos.y - a.magDropDistance * back),
      rot,
      true)
  }

  /** `animateCharge`: the handle moves `chargeDistance * sin(phase * PI)` along one axis. */
  function ChargePose(handle: Part, origPos: Vec3, a: Defs.ReloadAnimation, phase: real, sin: real -> real): (r: Part)
    ensures r.rotation == handle.rotation && r.visible == handle.visible
    ensures a.chargeAxis == "x" ==> r.position.y == handle.position.y && r.position.z == handle.position.z
    ensures a.chargeAxis == "y" ==> r.position.x == handle.position.x && r.position.z == handle.position.z
    ensures a.chargeAxis != "x" && a.chargeAxis != "y" ==> r.position.x == handle.position.x && r.position.y == handle.position.y
  {
    var offset := a.chargeDistance * sin(phase * PI);
    if a.chargeAxis == "x" then handle.(position := handle.position.(x := origPos.x + offset))
    else if a.chargeAxis == "y" then handle.(position := handle.position.(y := origPos.y + offset))
    else handle.(position := handle.position.(z := origPos.z + offset))
  }

  /** The part the charge animation moves: the charging handle, else the slide. */
  function HandleKind(parts: map<PartKind, Part>): (k: Option<PartKind>)
    ensures k.Some? ==> k.value in parts && (k.value == ChargingHandle || k.value == Slide)
    ensures k.None? <==> ChargingHandle !in parts && Slide !in parts
    ensures ChargingHandle in parts ==> k == Some(ChargingHandle)
  {
    if ChargingHandle in parts then Some(ChargingHandle)
    else if Slide in parts then Some(Slide)
    else None
  }

  /**
   * One frame of `updateReloadAnimation` below completion at progress `t`:
   * the three windows are tested independently and applied in order, so a
   * later window overrides an earlier one where they overlap.
   */
  function ReloadFrame(parts: map<PartKind, Part>, origPos: map<PartKind, Vec3>, origRot: map<PartKind, Vec3>,
                       a: Defs.ReloadAnimation, t: real, sin: real -> real): (r: map<PartKind, Part>)
    requires Cached(parts, origPos, origRot)
    ensures r.Keys == parts.Keys
    ensures forall k :: k in parts && k != Magazine && k != ChargingHandle && k != Slide ==> r[k] == parts[k]
    ensures Magazine in parts && InWindow(t, a.magInsertStart, a.magInsertEnd) ==> r[Magazine].visible
    ensures Magazine in parts && InWindow(t, a.magDropStart, a.magDropEnd) && !InWindow(t, a.magInsertStart, a.magInsertEnd)
            ==> (r[Magazine].visible <==> Phase(t, a.magDropStart, a.magDropEnd) < 0.9)
    ensures Magazine in parts && !InWindow(t, a.magDropStart, a.magDropEnd) && !InWindow(t, a.magInsertStart, a.magInsertEnd)
            ==> r[Magazine] == parts[Magazine]
    // The insert window, where open, decides the magazine's pose; otherwise the drop window does.
    ensures Magazine in parts && InWindow(t, a.magInsertStart, a.magInsertEnd) ==>
      r[Magazine] == InsertPose(parts[Magazine], origPos[Magazine], origRot[Magazine], a, Phase(t, a.magInsertStart, a.magInsertEnd))
    ensures Magazine in parts && InWindow(t, a.magDropStart, a.magDropEnd) && !InWindow(t, a.magInsertStart, a.magInsertEnd) ==>
      r[Magazine] == DropPose(parts[Magazine], origPos[Magazine], origRot[Magazine], a, Phase(t, a.magDropStart, a.magDropEnd))
    // The charge moves the handle (else the slide) and no other part besides the magazine.
    ensures HandleKind(parts).Some? && InWindow(t, a.chargeStart, a.chargeEnd) ==>
      var h := HandleKind(parts).value;
      r[h] == ChargePose(parts[h], origPos[h], a, Phase(t, a.chargeStart, a.chargeEnd), sin)
    ensures HandleKind(parts).Some? && !InWindow(t, a.chargeStart, a.chargeEnd) ==>
      r[HandleKind(parts).value] == parts[HandleKind(parts).value]
    ensures forall k :: k in parts && k != Magazine && Some(k) != HandleKind(parts) ==> r[k] == parts[k]
  {
    var p1 := if Magazine in parts && InWindow(t, a.magDropStart, a.magDropEnd) then
                parts[Magazine := DropPose(parts[Magazine], origPos[Magazine], origRot[Magazine], a,
                                           Phase(t, a.magDropStart, a.magDropEnd))]
              else parts;
    var p2 := if Magazine in p1 && InWindow(t, a.magInsertStart, a.magInsertEnd) then
                p1[Magazine := InsertPose(p1[Magazine], origPos[Magazine], origRot[Magazine], a,
                                          Phase(t, a.magInsertStart, a.magInsertEnd))]
              else p1;
    var h := HandleKind(p2);
    if h.Some? && InWindow(t, a.chargeStart, a.chargeEnd) then
      p2[h.value := ChargePose(p2[h.value], origPos[h.value], a, Phase(t, a.chargeStart, a.chargeEnd), sin)]
    else p2
  }

  /** One part as `finishReload` leaves it: cached pose restored where there is one, and visible. */
  function RestorePart(p: Part, origPos: Option<Vec3>, origRot: Option<Vec3>): Part {
    Part(origPos.GetOr(p.position), origRot.GetOr(p.rotation), true)
  }

  function Lookup(m: map<PartKind, Vec3>, k: PartKind): Option<Vec3> {
    if k in m then Some(m[k]) else None
  }

  /** The parts after `finishReload`. */
  function Restored(parts: map<PartKind, Part>, origPos: map<PartKind, Vec3>, origRot: map<PartKind, Vec3>): (r: map<PartKind, Part>)
    ensures r.Keys == parts.Keys
  {
    map k | k in parts :: RestorePart(parts[k], Lookup(origPos, k), Lookup(origRot, k))
  }

  /**
   * Finishing a reload puts every cached part back in its load-time pose
   * and shows every part, however the animation left it.
   */
  lemma RestoredIsLoadPose(parts: map<PartKind, Part>, origPos: map<PartKind, Vec3>, origRot: map<PartKind, Vec3>)
    requires Cached(parts, origPos, origRot)
    ensures forall k :: k in parts ==> Restored(parts, origPos, origRot)[k].visible
    ensures forall k :: k in parts && k != Sight ==>
      Restored(parts, origPos, origRot)[k] == Part(origPos[k], origRot[k], true)
  {
  }

  /**
   * The insert animation starts where the drop animation ends: at phase 0
   * of the insert the magazine has the pose the drop gives at phase 1, and
   * at phase 1 of the insert it is back at its cached pose.
   */
  lemma DropInsertContinuity(mag: Part, origPos: Vec3, origRot: Vec3, a: Defs.ReloadAnimation)
    ensures InsertPose(mag, origPos, origRot, a, 0.0).position == DropPose(mag, origPos, origRot, a, 1.0).position
    ensures InsertPose(mag, origPos, origRot, a, 0.0).rotation == DropPose(mag, origPos, origRot, a, 1.0).rotation
    ensures var p := InsertPose(mag, origPos, origRot, a, 1.0);
      p.position.x == origPos.x && p.position.y == origPos.y &&
      p.rotation.x == origRot.x && p.rotation.z == origRot.z && p.visible
  {
  }

  /**
   * Inside the charge window and outside both magazine windows, a reload
   * frame moves the charging handle (else the slide) and nothing else, and
   * that part only along the configured axis.
   */
  lemma ChargeMovesOneAxis(parts: map<PartKind, Part>, origPos: map<PartKind, Vec3>, origRot: map<PartKind, Vec3>,
                           a: Defs.ReloadAnimation, t: real, sin: real -> real)
    requires Cached(parts, origPos, origRot)
    requires InWindow(t, a.chargeStart, a.chargeEnd)
    requires !InWindow(t, a.magDropStart, a.magDropEnd) && !InWindow(t, a.magInsertStart, a.magInsertEnd)
    ensures var r := ReloadFrame(parts, origPos, origRot, a, t, sin);
      forall k :: k in parts && Some(k) != HandleKind(parts) ==> r[k] == parts[k]
    ensures HandleKind(parts).Some? ==>
      var r := ReloadFrame(parts, origPos, origRot, a, t, sin);
      var h := HandleKind(parts).value;
      && r[h].rotation == parts[h].rotation && r[h].visible == parts[h].visible
      && (a.chargeAxis == "x" ==> r[h].position.y == parts[h].position.y && r[h].position.z == parts[h].position.z)
      && (a.chargeAxis == "y" ==> r[h].position.x == parts[h].position.x && r[h].position.z == parts[h].position.z)
      && (a.chargeAxis != "x" && a.chargeAxis != "y" ==> r[h].position.x == parts[h].position.x && r[h].position.y == parts[h].position.y)
  {
  }

  /**
   * With the rifle's windows, half way through a reload the insert window
   * `[0.5, 0.75)` has just opened, so the magazine is shown.
   */
  lemma Ak47HalfwayMagazineShown(parts: map<PartKind, Part>, origPos: map<PartKind, Vec3>, origRot: map<PartKind, Vec3>, sin: real -> real)
    requires Cached(parts, origPos, origRot) && Magazine in parts
    ensures ReloadFrame(parts, origPos, origRot, Defs.Ak47().reload, 0.5, sin)[Magazine].visible
  {
    Defs.Ak47Values();
  }

  /** The reload bookkeeping, as values: whether reloading, the progress and the rounds loaded. */
  datatype ReloadState = ReloadState(isReloading: bool, progress: real, ammo: int)

  /** The bookkeeping part of `updateReloadAnimation(deltaTime)`, with `step = deltaTime / duration`. */
  function ReloadTick(s: ReloadState, step: real, magazineSize: int): (r: ReloadState)
    ensures !s.isReloading ==> r == s
    ensures s.isReloading && s.progress + step >= 1.0 ==> r == ReloadState(false, 0.0, magazineSize)
    ensures s.isReloading && s.progress + step < 1.0 ==> r == s.(progress := s.progress + step)
  {
    if !s.isReloading then s
    else if s.progress + step >= 1.0 then ReloadState(false, 0.0, magazineSize)
    else s.(progress := s.progress + step)
  }

  function ReloadTicks(s: ReloadState, step: real, magazineSize: int, n: nat): ReloadState
    decreases n
  {
    if n == 0 then s else ReloadTicks(ReloadTick(s, step, magazineSize), step, magazineSize, n - 1)
  }

  /**
   * A reload in progress finishes, with a full magazine, once enough frames
   * have passed: `n` frames of `step` each, where the remaining progress is
   * at most `n * step`.
   */
  lemma {:induction false} ReloadCompletes(s: ReloadState, step: real, magazineSize: int, n: nat)
    requires s.isReloading && s.progress < 1.0 && step > 0.0
    requires s.progress + (n as real) * step >= 1.0
    ensures ReloadTicks(s, step, magazineSize, n) == ReloadState(false, 0.0, magazineSize)
    decreases n
  {
    assert n > 0;
    if s.progress + step >= 1.0 {
      IdleTicks(ReloadState(false, 0.0, magazineSize), step, magazineSize, n - 1);
    } else {
      assert ((n - 1) as real) * step == (n as real) * step - step;
      ReloadCompletes(s.(progress := s.progress + step), step, magazineSize, n - 1);
    }
  }

  lemma {:induction false} IdleTicks(s: ReloadState, step: real, magazineSize: int, n: nat)
    requires !s.isReloading
    ensures ReloadTicks(s, step, magazineSize, n) == s
    decreases n
  {
    if n > 0 {
      IdleTicks(s, step, magazineSize, n - 1);
    }
  }

  // ------------------------------------------------------------ recoil

  /** `updateRecoil` with `decay = deltaTime * recoilRecoverySpeed`. */
  function RecoilStep(kick: real, decay: real): (r: real)
    ensures kick <= 0.0 ==> r == kick
    ensures kick > 0.0 ==> r >= 0.0 && (r == 0.0 || r == kick - decay)
    ensures kick > 0.0 && decay >= 0.0 ==> r <= kick
  {
    if kick <= 0.0 then kick
    else if kick - decay < 0.0 then 0.0
    else kick - decay
  }

  function RecoilAfter(kick: real, decay: real, n: nat): real
    decreases n
  {
    if n == 0 then kick else RecoilAfter(RecoilStep(kick, decay), decay, n - 1)
  }

  /** Recoil recovers linearly: after `n` frames it is `kick - n * decay`, floored at zero. */
  lemma {:induction false} RecoilLinear(kick: real, decay: real, n: nat)
    requires kick >= 0.0 && decay >= 0.0
    ensures RecoilAfter(kick, decay, n) == if kick - (n as real) * decay < 0.0 then 0.0 else kick - (n as real) * decay
    decreases n
  {
    if n > 0 {
      var next := RecoilStep(kick, decay);
      RecoilLinear(next, decay, n - 1);
      assert ((n - 1) as real) * decay == (n as real) * decay - decay;
      if kick > 0.0 && kick - decay >= 0.0 {
        assert next == kick - decay;
      } else {
        assert next == 0.0;
        ProductSign(decay, (n - 1) as real);
      }
    }
  }

  // --------------------------------------------------------------- ADS

  /**
   * The weapon-group offset that lines the sight up with the camera, for a
   * sight at `sightLocal` in the group's frame: a generic zero offset without
   * a sight. With one, moving the group by the result puts the sight at the
   * adjusted depth `adj.z`, laterally at `adj.x` whatever the sight's own
   * lateral position, and 0.1 above the adjusted height.
   */
  function SightAlignment(hasSight: bool, sightLocal: Vec3, adj: Vec3): (r: Vec3)
    ensures !hasSight ==> r == Zero
    ensures hasSight ==> r.z + sightLocal.z == adj.z
    ensures hasSight ==> r.x == adj.x && r.y - adj.y == 0.1
  {
    if !hasSight then Vec3(0.0, 0.0, 0.0)
    else Vec3(0.0 + adj.x, 0.1 + adj.y, -sightLocal.z + adj.z)
  }

  /** Only the sight's depth matters: two sights at the same depth get the same alignment. */
  lemma SightLateralIgnored(s1: Vec3, s2: Vec3, adj: Vec3)
    requires s1.z == s2.z
    ensures SightAlignment(true, s1, adj) == SightAlignment(true, s2, adj)
  {
  }

  /**
   * Fully aimed, the weapon sits exactly at the sight alignment, so a sight
   * at `sightLocal` ends at the adjusted depth: on the camera's plane when
   * there is no adjustment.
   */
  lemma FullAimPlacesSight(hip: Vec3, sightLocal: Vec3, adj: Vec3)
    ensures BlendOffset(hip, SightAlignment(true, sightLocal, adj), 1.0) == SightAlignment(true, sightLocal, adj)
    ensures BlendOffset(hip, SightAlignment(true, sightLocal, adj), 1.0).z + sightLocal.z == adj.z
    ensures adj == Zero ==> BlendOffset(hip, SightAlignment(true, sightLocal, adj), 1.0).z + sightLocal.z == 0.0
  {
  }

  /** `adsProgress += (target - adsProgress) * k`. */
  function AdsStep(progress: real, target: real, k: real): (r: real)
    ensures target - r == (1.0 - k) * (target - progress)
    ensures 0.0 <= k <= 1.0 && progress <= target ==> progress <= r <= target
    ensures 0.0 <= k <= 1.0 && target <= progress ==> target <= r <= progress
  {
    Lerp(progress, target, k)
  }

  function AdsAfter(progress: real, target: real, k: real, n: nat): real
    decreases n
  {
    if n == 0 then progress else AdsAfter(AdsStep(progress, target, k), target, k, n - 1)
  }

  function Pow(b: real, n: nat): real
    decreases n
  {
    if n == 0 then 1.0 else b * Pow(b, n - 1)
  }

  /** The remaining distance to the ADS target shrinks geometrically, by `(1 - k)` per frame. */
  lemma {:induction false} AdsGeometric(progress: real, target: real, k: real, n: nat)
    ensures target - AdsAfter(progress, target, k, n) == Pow(1.0 - k, n) * (target - progress)
    decreases n
  {
    if n > 0 {
      var next := AdsStep(progress, target, k);
      PowStep(1.0 - k, n);
      AdsGeometric(next, target, k, n - 1);
      ScaleShrunk(Pow(1.0 - k, n - 1), 1.0 - k, target - progress, target - next);
    }
  }

  lemma PowStep(b: real, n: nat)
    requires n > 0
    ensures Pow(b, n) == b * Pow(b, n - 1)
  {
  }

  /** Scaling a gap that has already shrunk by `b` is scaling the old gap by `b * a`. */
  lemma ScaleShrunk(a: real, b: real, gap: real, shrunk: real)
    requires shrunk == b * gap
    ensures a * shrunk == (b * a) * gap
  {
  }

  /** With `k` in [0, 1] the ADS progress never leaves [0, 1] and never passes its target. */
  lemma {:induction false} AdsStaysInUnit(progress: real, target: real, k: real, n: nat)
    requires 0.0 <= k <= 1.0 && 0.0 <= progress <= 1.0 && (target == 0.0 || target == 1.0)
    ensures 0.0 <= AdsAfter(progress, target, k, n) <= 1.0
    decreases n
  {
    if n > 0 {
      AdsStaysInUnit(AdsStep(progress, target, k), target, k, n - 1);
    }
  }

  /** The weapon offset for a blend `t` between the hip position and the sight alignment. */
  function BlendOffset(from: Vec3, to: Vec3, t: real): Vec3 {
    Vec3(Lerp(from.x, to.x, t), Lerp(from.y, to.y, t), Lerp(from.z, to.z, t))
  }

  // ------------------------------------------------------------ weapon

  class Weapon {
    const definition: Defs.WeaponDefinition
    const ads: AdsConfig
    const decalSystem: Decals.DecalSystem
    const originalPositions: map<PartKind, Vec3>
    const originalRotations: map<PartKind, Vec3>
    const originalOffset: Vec3

    var parts: map<PartKind, Part>
    var currentAmmo: int
    var lastFireTime: real
    var isReloading: bool
    var reloadProgress: real
    var recoilKick: real
    var adsProgress: real
    var sightAlignmentOffset: Vec3
    var isSightAlignmentCalculated: bool
    var weaponOffset: Vec3

    ghost predicate Valid()
      reads this, decalSystem
    {
      && Defs.WellFormed(definition)
      // A negative magazineSize gets through `||` defaulting; the magazine then holds exactly that.
      && (0 <= currentAmmo <= definition.stats.magazineSize || currentAmmo == definition.stats.magazineSize)
      && Cached(parts, originalPositions, originalRotations)
      && decalSystem.Valid()
    }

    /**
     * The constructor, given the parts `findWeaponParts` located (none in
     * prototype mode) and the sight node found by name, if any. The magazine
     * starts full and the sight alignment is computed once here.
     */
    constructor(definition: Defs.WeaponDefinition, ads: AdsConfig, found: map<PartKind, Part>, sight: Option<Part>,
                sightLocal: Vec3, decalSystem: Decals.DecalSystem)
      requires Defs.WellFormed(definition) && Sight !in found && decalSystem.Valid()
      ensures Valid()
      ensures this.definition == definition && this.ads == ads && this.decalSystem == decalSystem
      ensures parts == if sight.Some? then found[Sight := sight.value] else found
      ensures originalPositions == map k | k in found :: found[k].position
      ensures originalRotations == map k | k in found :: found[k].rotation
      ensures currentAmmo == definition.stats.magazineSize && lastFireTime == 0.0
      ensures !isReloading && reloadProgress == 0.0 && recoilKick == 0.0 && adsProgress == 0.0
      ensures weaponOffset == WeaponOffset && originalOffset == WeaponOffset
      ensures sightAlignmentOffset == SightAlignment(sight.Some?, sightLocal, ads.offsetAdjustment)
      ensures !isSightAlignmentCalculated
    {
      this.definition := definition;
      this.ads := ads;
      this.decalSystem := decalSystem;
      originalPositions := map k | k in found :: found[k].position;
      originalRotations := map k | k in found :: found[k].rotation;
      originalOffset := WeaponOffset;
      parts := if sight.Some? then found[Sight := sight.value] else found;
      currentAmmo := definition.stats.magazineSize;
      lastFireTime := 0.0;
      isReloading := false;
      reloadProgress := 0.0;
      recoilKick := 0.0;
      adsProgress := 0.0;
      sightAlignmentOffset := SightAlignment(sight.Some?, sightLocal, ads.offsetAdjustment);
      isSightAlignmentCalculated := false;
      weaponOffset := WeaponOffset;
    }

    predicate CanFire(now: real): (b: bool)
      reads this
      ensures b <==> CanFireAt(currentAmmo, lastFireTime, definition.stats.fireRate, now)
      ensures b ==> currentAmmo >= 1
    {
      CanFireAt(currentAmmo, lastFireTime, definition.stats.fireRate, now)
    }

    /** The Health component a shot at `hit` damages and its entity, if any. */
    function TargetFrame(hit: Option<Collider>): set<object>
    {
      if hit.Some? && DamageTarget(hit.value) != null then
        var h := DamageTarget(hit.value);
        {h, h.entity}
      else {}
    }

    /** The physics body whose type a fatal shot may fix. */
    function TargetBodies(hit: Option<Collider>): set<RigidBody>
      reads if hit.Some? && DamageTarget(hit.value) != null then {DamageTarget(hit.value).entity} else {}
    {
      if hit.Some? && DamageTarget(hit.value) != null then DamageTarget(hit.value).BodyFrame() else {}
    }

    /**
     * `fire()` at time `now`, with the collider the camera ray hit. A
     * refused shot changes nothing. Otherwise one round is spent and the
     * time recorded; the hit gets a decal (unless it is an entity or
     * dynamic surface) and an entity hit with Health takes the weapon's
     * damage; finally the recoil kick is set. An exception from the decal
     * system or the death behaviour ends the shot before the recoil.
     */
    method Fire(now: real, hit: Option<Collider>) returns (outcome: Outcome)
      requires Valid()
      modifies this`currentAmmo, this`lastFireTime, this`recoilKick, decalSystem, TargetFrame(hit), TargetBodies(hit)`bodyType
      ensures Valid()
      ensures !old(CanFire(now)) ==>
        && outcome == Pass && currentAmmo == old(currentAmmo) && lastFireTime == old(lastFireTime)
        && recoilKick == old(recoilKick) && decalSystem.decals == old(decalSystem.decals)
        && (forall o :: o in TargetFrame(hit) ==> unchanged(o))
        && (forall b :: b in TargetBodies(hit) ==> b.bodyType == old(b.bodyType))
      ensures old(CanFire(now)) ==> currentAmmo == old(currentAmmo) - 1 && lastFireTime == now
      ensures old(CanFire(now)) && hit.None? ==> outcome == Pass && recoilKick == definition.fire.recoilAmount
      ensures old(CanFire(now)) && outcome.Pass? ==> recoilKick == definition.fire.recoilAmount
      ensures outcome.Fail? ==> recoilKick == old(recoilKick)
      ensures hit.None? ==> decalSystem.decals == old(decalSystem.decals)
      ensures hit.Some? && Decals.Skipped(IdentifyHitObject(hit.value).surfaceType.GetOr("static")) ==>
        decalSystem.decals == old(decalSystem.decals)
      ensures old(CanFire(now)) && hit.Some? && !Decals.Skipped(IdentifyHitObject(hit.value).surfaceType.GetOr("static")) ==>
        && |decalSystem.decals| > 0
        && var d := decalSystem.decals[|decalSystem.decals| - 1];
           && fresh(d.mesh)
           && d.parent == (if IdentifyHitObject(hit.value).hitObject == null then Decals.SceneRoot
                           else Decals.Attached(IdentifyHitObject(hit.value).hitObject))
           && Decals.Push(old(decalSystem.decals), d).decals == decalSystem.decals
      ensures outcome.Fail? <==>
        && old(CanFire(now)) && hit.Some?
        && ((!Decals.Skipped(IdentifyHitObject(hit.value).surfaceType.GetOr("static")) &&
             |old(decalSystem.decals)| >= Decals.MaxDecals) ||
            (DamageTarget(hit.value) != null && !old(DamageTarget(hit.value).isDead) &&
             HealthComponent.Damaged(old(DamageTarget(hit.value).currentHealth), definition.stats.damage) == 0.0 &&
             DamageTarget(hit.value).deathBehavior == HealthComponent.Ragdoll &&
             old(DamageTarget(hit.value).RigidBody()) != null))
      ensures old(CanFire(now)) && hit.Some? && DamageTarget(hit.value) != null && !old(DamageTarget(hit.value).isDead) ==>
        DamageTarget(hit.value).currentHealth == HealthComponent.Damaged(old(DamageTarget(hit.value).currentHealth), definition.stats.damage)
    {
      if !CanFire(now) {
        return Pass;
      }
      currentAmmo := currentAmmo - 1;
      lastFireTime := now;
      if hit.Some? {
        var info := IdentifyHitObject(hit.value);
        outcome := decalSystem.AddDecal(info.hitObject, info.surfaceType);
        if outcome.Fail? {
          return;
        }
        var target := DamageTarget(hit.value);
        if target != null {
          var died := target.TakeDamage(definition.stats.damage);
          if died.Failure? {
            return Fail(died.error);
          }
        }
      }
      recoilKick := definition.fire.recoilAmount;
      outcome := Pass;
    }

    /** `startReload()`: ignored while a reload is running, so progress is not reset. */
    method StartReload()
      modifies this`isReloading, this`reloadProgress
      ensures old(isReloading) ==> reloadProgress == old(reloadProgress)
      ensures !old(isReloading) ==> reloadProgress == 0.0
      ensures isReloading
    {
      if isReloading {
        return;
      }
      isReloading := true;
      reloadProgress := 0.0;
    }

    function ReloadStateOf(): ReloadState
      reads this
    {
      ReloadState(isReloading, reloadProgress, currentAmmo)
    }

    /**
     * `updateReloadAnimation(deltaTime)`, with `sin` for `Math.sin`. The
     * bookkeeping follows `ReloadTick`; below completion the parts take the
     * poses of `ReloadFrame`, and on completion those of `Restored`.
     */
    method UpdateReloadAnimation(deltaTime: real, sin: real -> real)
      requires Valid()
      modifies this`isReloading, this`reloadProgress, this`currentAmmo, this`parts
      ensures Valid()
      ensures ReloadStateOf() == ReloadTick(old(ReloadStateOf()), deltaTime / definition.reload.duration, definition.stats.magazineSize)
      ensures !old(isReloading) ==> parts == old(parts)
      ensures old(isReloading) && !isReloading ==> parts == Restored(old(parts), originalPositions, originalRotations)
      ensures isReloading ==> parts == ReloadFrame(old(parts), originalPositions, originalRotations, definition.reload, reloadProgress, sin)
    {
      if !isReloading {
        return;
      }
      reloadProgress := reloadProgress + deltaTime / definition.reload.duration;
      if reloadProgress >= 1.0 {
        FinishReload();
        return;
      }
      parts := ReloadFrame(parts, originalPositions, originalRotations, definition.reload, reloadProgress, sin);
    }

    /** `finishReload()`: a full magazine and every part back in its load-time pose, visible. */
    method FinishReload()
      requires Valid()
      modifies this`isReloading, this`reloadProgress, this`currentAmmo, this`parts
      ensures Valid()
      ensures !isReloading && reloadProgress == 0.0 && currentAmmo == definition.stats.magazineSize
      ensures parts == Restored(old(parts), originalPositions, originalRotations)
    {
      isReloading := false;
      currentAmmo := definition.stats.magazineSize;
      reloadProgress := 0.0;
      parts := Restored(parts, originalPositions, originalRotations);
    }

    /** `updateRecoil(deltaTime)`. */
    method UpdateRecoil(deltaTime: real)
      modifies this`recoilKick
      ensures recoilKick == RecoilStep(old(recoilKick), deltaTime * definition.fire.recoilRecoverySpeed)
    {
      if recoilKick <= 0.0 {
        return;
      }
      recoilKick := recoilKick - deltaTime * definition.fire.recoilRecoverySpeed;
      if recoilKick < 0.0 {
        recoilKick := 0.0;
      }
    }

    /**
     * `updateADS(deltaTime, isADS)`, with `k` the blend factor for this
     * frame and `sightLocal` the sight's current position in the weapon
     * group's frame. The sight alignment
     * is recomputed the first time the player aims, and never again.
     */
    method UpdateAds(isAds: bool, k: real, sightLocal: Vec3)
      modifies this`adsProgress, this`weaponOffset, this`sightAlignmentOffset, this`isSightAlignmentCalculated
      ensures adsProgress == AdsStep(old(adsProgress), if isAds then 1.0 else 0.0, k)
      ensures isSightAlignmentCalculated == (old(isSightAlignmentCalculated) || isAds)
      ensures sightAlignmentOffset ==
        if isAds && !old(isSightAlignmentCalculated) then SightAlignment(Sight in parts, sightLocal, ads.offsetAdjustment)
        else old(sightAlignmentOffset)
      ensures weaponOffset == BlendOffset(originalOffset, sightAlignmentOffset, adsProgress)
      ensures adsProgress == 1.0 ==> weaponOffset == sightAlignmentOffset
    {
      var target := if isAds then 1.0 else 0.0;
      if target > 0.0 && !isSightAlignmentCalculated {
        sightAlignmentOffset := SightAlignment(Sight in parts, sightLocal, ads.offsetAdjustment);
        isSightAlignmentCalculated := true;
      }
      adsProgress := adsProgress + (target - adsProgress) * k;
      weaponOffset := BlendOffset(originalOffset, sightAlignmentOffset, adsProgress);
    }
  }
}
