/**
 * Weapon archetypes. A `WeaponDefinition` is built once from a loosely
 * shaped configuration object, every field read through optional chaining
 * and defaulted with `||`. Because `||` tests truthiness, a supplied value
 * that is falsy (the number 0, the empty string) is replaced by the default
 * exactly like a missing one.
 */
module WeaponDefinitions {
  import opened Wrappers

  // ---------------------------------------------------------------- input

  /** The `reload` section of a configuration; `None` is a missing key. */
  datatype ReloadConfig = ReloadConfig(
    duration: Option<real>,
    magDropStart: Option<real>, magDropEnd: Option<real>,
    magInsertStart: Option<real>, magInsertEnd: Option<real>,
    chargeStart: Option<real>, chargeEnd: Option<real>,
    magDropDistance: Option<real>, magDropSideways: Option<real>,
    magDropRotation: Option<real>, magDropTwist: Option<real>,
    chargeDistance: Option<real>, chargeAxis: Option<string>)

  datatype FireConfig = FireConfig(
    recoilAmount: Option<real>, recoilRecoverySpeed: Option<real>,
    recoilVariation: Option<real>, horizontalRecoil: Option<real>,
    horizontalVariation: Option<real>, verticalRecoil: Option<real>,
    verticalVariation: Option<real>)

  datatype AnimationsConfig = AnimationsConfig(reload: Option<ReloadConfig>, fire: Option<FireConfig>)

  datatype StatsConfig = StatsConfig(
    damage: Option<real>, fireRate: Option<real>,
    magazineSize: Option<int>, reloadTime: Option<real>)

  /**
   * A configuration object. `parts` maps every key the configuration lists
   * (including keys the definition ignores) to a scene-graph node name.
   */
  datatype WeaponConfig = WeaponConfig(
    name: Option<string>, modelPath: Option<string>,
    parts: Option<map<string, string>>,
    animations: Option<AnimationsConfig>,
    stats: Option<StatsConfig>)

  const NoReload := ReloadConfig(None, None, None, None, None, None, None, None, None, None, None, None, None)
  const NoFire := FireConfig(None, None, None, None, None, None, None)
  const NoStats := StatsConfig(None, None, None, None)

  // --------------------------------------------------------------- output

  /** The part names the definition keeps; `None` is JavaScript `null`. */
  datatype PartNames = PartNames(
    magazine: Option<string>, chargingHandle: Option<string>, slide: Option<string>,
    bolt: Option<string>, trigger: Option<string>)

  datatype ReloadAnimation = ReloadAnimation(
    duration: real,
    magDropStart: real, magDropEnd: real,
    magInsertStart: real, magInsertEnd: real,
    chargeStart: real, chargeEnd: real,
    magDropDistance: real, magDropSideways: real,
    magDropRotation: real, magDropTwist: real,
    chargeDistance: real, chargeAxis: string)

  datatype FireAnimation = FireAnimation(
    recoilAmount: real, recoilRecoverySpeed: real,
    recoilVariation: real, horizontalRecoil: real,
    horizontalVariation: real, verticalRecoil: real,
    verticalVariation: real)

  datatype Stats = Stats(damage: real, fireRate: real, magazineSize: int, reloadTime: real)

  /** The built record. It has no `ads` section. */
  datatype WeaponDefinition = WeaponDefinition(
    name: Option<string>, modelPath: Option<string>,
    parts: PartNames, reload: ReloadAnimation, fire: FireAnimation, stats: Stats)

  // ------------------------------------------------------- `||` defaulting

  /** `value || d` for a number: 0 is falsy. */
  function OrNumber(value: Option<real>, d: real): (r: real)
    ensures value.Some? && value.value != 0.0 ==> r == value.value
    ensures value.None? || value.value == 0.0 ==> r == d
  {
    if value.Some? && value.value != 0.0 then value.value else d
  }

  function OrInt(value: Option<int>, d: int): (r: int)
    ensures value.Some? && value.value != 0 ==> r == value.value
    ensures value.None? || value.value == 0 ==> r == d
  {
    if value.Some? && value.value != 0 then value.value else d
  }

  /** `value || d` for a string: the empty string is falsy. */
  function OrString(value: Option<string>, d: string): (r: string)
    ensures value.Some? && value.value != "" ==> r == value.value
    ensures value.None? || value.value == "" ==> r == d
  {
    if value.Some? && value.value != "" then value.value else d
  }

  /** `parts?.[key] || null`. */
  function PartName(parts: Option<map<string, string>>, key: string): (r: Option<string>)
    ensures r.Some? <==> parts.Some? && key in parts.value && parts.value[key] != ""
    ensures r.Some? ==> r.value == parts.value[key]
  {
    if parts.Some? && key in parts.value && parts.value[key] != "" then Some(parts.value[key]) else None
  }

  // ----------------------------------------------------------------- build

  /** Every field whose default is nonzero (or nonempty) ends up nonzero (nonempty). */
  predicate WellFormed(d: WeaponDefinition) {
    && d.reload.duration != 0.0
    && d.reload.magDropEnd != 0.0 && d.reload.magInsertStart != 0.0 && d.reload.magInsertEnd != 0.0
    && d.reload.chargeStart != 0.0 && d.reload.chargeEnd != 0.0
    && d.reload.magDropDistance != 0.0 && d.reload.magDropRotation != 0.0
    && d.reload.chargeDistance != 0.0 && d.reload.chargeAxis != ""
    && d.fire.recoilAmount != 0.0 && d.fire.recoilRecoverySpeed != 0.0
    && d.stats.damage != 0.0 && d.stats.fireRate != 0.0
    && d.stats.magazineSize != 0 && d.stats.reloadTime != 0.0
  }

  function BuildReload(c: ReloadConfig): ReloadAnimation {
    ReloadAnimation(
      OrNumber(c.duration, 2.0),
      OrNumber(c.magDropStart, 0.0), OrNumber(c.magDropEnd, 0.25),
      OrNumber(c.magInsertStart, 0.4), OrNumber(c.magInsertEnd, 0.65),
      OrNumber(c.chargeStart, 0.65), OrNumber(c.chargeEnd, 0.85),
      OrNumber(c.magDropDistance, 0.5), OrNumber(c.magDropSideways, 0.0),
      OrNumber(c.magDropRotation, 0.3), OrNumber(c.magDropTwist, 0.0),
      OrNumber(c.chargeDistance, 0.03), OrString(c.chargeAxis, "z"))
  }

  function BuildFire(c: FireConfig): FireAnimation {
    FireAnimation(
      OrNumber(c.recoilAmount, 0.1), OrNumber(c.recoilRecoverySpeed, 5.0),
      OrNumber(c.recoilVariation, 0.2), OrNumber(c.horizontalRecoil, 0.05),
      OrNumber(c.horizontalVariation, 0.5), OrNumber(c.verticalRecoil, 0.08),
      OrNumber(c.verticalVariation, 0.3))
  }

  function BuildStats(c: StatsConfig): Stats {
    Stats(OrNumber(c.damage, 35.0), OrNumber(c.fireRate, 0.1),
          OrInt(c.magazineSize, 30), OrNumber(c.reloadTime, 2.0))
  }

  /** `new WeaponDefinition(config)`. */
  function Build(config: WeaponConfig): (d: WeaponDefinition)
    ensures WellFormed(d)
    ensures d.name == config.name && d.modelPath == config.modelPath
  {
    var anims := config.animations.GetOr(AnimationsConfig(None, None));
    WeaponDefinition(
      config.name, config.modelPath,
      PartNames(
        PartName(config.parts, "magazine"), PartName(config.parts, "chargingHandle"),
        PartName(config.parts, "slide"), PartName(config.parts, "bolt"),
        PartName(config.parts, "trigger")),
      BuildReload(anims.reload.GetOr(NoReload)),
      BuildFire(anims.fire.GetOr(NoFire)),
      BuildStats(config.stats.GetOr(NoStats)))
  }

  /** An empty configuration yields exactly the documented defaults. */
  lemma EmptyConfigDefaults()
    ensures var d := Build(WeaponConfig(None, None, None, None, None));
      && d.parts == PartNames(None, None, None, None, None)
      && d.reload == ReloadAnimation(2.0, 0.0, 0.25, 0.4, 0.65, 0.65, 0.85, 0.5, 0.0, 0.3, 0.0, 0.03, "z")
      && d.fire == FireAnimation(0.1, 5.0, 0.2, 0.05, 0.5, 0.08, 0.3)
      && d.stats == Stats(35.0, 0.1, 30, 2.0)
  {
  }

  /** A supplied 0 is discarded: it yields the same definition as omitting the key. */
  lemma SuppliedZeroIsDefault(c: ReloadConfig)
    ensures BuildReload(c.(magDropRotation := Some(0.0))) == BuildReload(c.(magDropRotation := None))
    ensures BuildReload(c.(magDropRotation := Some(0.0))).magDropRotation == 0.3
    ensures BuildReload(c.(duration := Some(0.0))).duration == 2.0
  {
  }

  /** A supplied truthy value is kept as given. */
  lemma SuppliedTruthyKept(c: WeaponConfig, s: StatsConfig)
    requires c.stats == Some(s)
    requires s.magazineSize.Some? && s.magazineSize.value != 0
    requires s.fireRate.Some? && s.fireRate.value != 0.0
    ensures Build(c).stats.magazineSize == s.magazineSize.value
    ensures Build(c).stats.fireRate == s.fireRate.value
  {
  }

  // ------------------------------------------------------------ instances

  const Ak47Config := WeaponConfig(
    Some("AK-47"), Some("/src/assets/models/weapons/Weapon_02.fbx"),
    Some(map["magazine" := "Weapon_02_2", "chargingHandle" := "Weapon_02_4", "body" := "Weapon_02",
             "stock" := "Weapon_02_7", "sights" := "Weapon_02_5"]),
    Some(AnimationsConfig(
      Some(ReloadConfig(Some(2.5), Some(0.0), Some(0.2), Some(0.5), Some(0.75), Some(0.75), Some(0.9),
                        Some(50.0), Some(5.0), Some(0.3), Some(0.1), Some(-4.0), Some("x"))),
      Some(FireConfig(Some(0.12), Some(1.0), Some(0.3), Some(0.05), Some(0.8), Some(0.08), Some(0.4))))),
    Some(StatsConfig(Some(35.0), Some(0.1), Some(30), Some(2.5))))

  const PistolConfig := WeaponConfig(
    Some("Pistol"), Some("/src/assets/models/weapons/Weapon_01.fbx"),
    Some(map["magazine" := "Pistol_Magazine", "slide" := "Pistol_Slide"]),
    Some(AnimationsConfig(
      Some(ReloadConfig(Some(1.5), Some(0.0), Some(0.3), Some(0.4), Some(0.7), Some(0.7), Some(0.9),
                        None, None, None, None, None, None)),
      Some(FireConfig(Some(0.08), Some(8.0), None, None, None, None, None)))),
    Some(StatsConfig(Some(25.0), Some(0.3), Some(12), Some(1.5))))

  function Ak47(): WeaponDefinition { Build(Ak47Config) }

  function Pistol(): WeaponDefinition { Build(PistolConfig) }

  /** The rifle: its stats and reload windows, with the unknown part keys dropped. */
  lemma Ak47Values()
    ensures Ak47().stats == Stats(35.0, 0.1, 30, 2.5)
    ensures Ak47().reload.duration == 2.5
    ensures Ak47().reload.magDropStart == 0.0 && Ak47().reload.magDropEnd == 0.2
    ensures Ak47().reload.magInsertStart == 0.5 && Ak47().reload.magInsertEnd == 0.75
    ensures Ak47().reload.chargeStart == 0.75 && Ak47().reload.chargeEnd == 0.9
    ensures Ak47().reload.magDropDistance == 50.0 && Ak47().reload.chargeAxis == "x"
    ensures Ak47().parts == PartNames(Some("Weapon_02_2"), Some("Weapon_02_4"), None, None, None)
    ensures Ak47().fire.recoilAmount == 0.12 && Ak47().fire.recoilRecoverySpeed == 1.0
  {
  }

  /** The pistol omits the reload magnitudes and so takes their defaults. */
  lemma PistolValues()
    ensures Pistol().stats == Stats(25.0, 0.3, 12, 1.5)
    ensures Pistol().reload.magDropDistance == 0.5
    ensures Pistol().reload.magDropRotation == 0.3
    ensures Pistol().reload.chargeDistance == 0.03
    ensures Pistol().reload.chargeAxis == "z"
    ensures Pistol().fire.recoilVariation == 0.2
    ensures Pistol().parts == PartNames(Some("Pistol_Magazine"), None, Some("Pistol_Slide"), None, None)
  {
  }
}
