/**
 * The five independent layers of a player's state. Each layer is a frozen
 * JavaScript object mapping names to string tags; here each is a datatype,
 * so a layer always holds exactly one of its values. `Tag` gives the string
 * the JavaScript compares, and the `...FromTag` functions invert it, which
 * shows that the tags inside one layer are pairwise distinct.
 */
module PlayerState {
  import opened Wrappers

  datatype GroundingState = Grounded | Airborne {
    function Tag(): string {
      match this
      case Grounded => "grounded"
      case Airborne => "airborne"
    }
  }

  datatype MovementState = Idle | Moving {
    function Tag(): string {
      match this
      case Idle => "idle"
      case Moving => "moving"
    }
  }

  datatype StanceState = Standing | Crouching | Prone {
    function Tag(): string {
      match this
      case Standing => "standing"
      case Crouching => "crouching"
      case Prone => "prone"
    }
  }

  datatype WeaponState = Hipfire | Ads | FocusHipfire | Reload {
    function Tag(): string {
      match this
      case Hipfire => "hipfire"
      case Ads => "ads"
      case FocusHipfire => "focus_hipfire"
      case Reload => "reload"
    }
  }

  datatype LeanState = NoLean | Left | Right {
    function Tag(): string {
      match this
      case NoLean => "none"
      case Left => "left"
      case Right => "right"
    }
  }

  function GroundingFromTag(s: string): (r: Option<GroundingState>)
    ensures forall g: GroundingState :: r == Some(g) <==> g.Tag() == s
  {
    if s == "grounded" then Some(Grounded)
    else if s == "airborne" then Some(Airborne)
    else None
  }

  function MovementFromTag(s: string): (r: Option<MovementState>)
    ensures forall m: MovementState :: r == Some(m) <==> m.Tag() == s
  {
    if s == "idle" then Some(Idle)
    else if s == "moving" then Some(Moving)
    else None
  }

  function StanceFromTag(s: string): (r: Option<StanceState>)
    ensures forall st: StanceState :: r == Some(st) <==> st.Tag() == s
  {
    if s == "standing" then Some(Standing)
    else if s == "crouching" then Some(Crouching)
    else if s == "prone" then Some(Prone)
    else None
  }

  function WeaponFromTag(s: string): (r: Option<WeaponState>)
    ensures forall w: WeaponState :: r == Some(w) <==> w.Tag() == s
  {
    if s == "hipfire" then Some(Hipfire)
    else if s == "ads" then Some(Ads)
    else if s == "focus_hipfire" then Some(FocusHipfire)
    else if s == "reload" then Some(Reload)
    else None
  }

  function LeanFromTag(s: string): (r: Option<LeanState>)
    ensures forall l: LeanState :: r == Some(l) <==> l.Tag() == s
  {
    if s == "none" then Some(NoLean)
    else if s == "left" then Some(Left)
    else if s == "right" then Some(Right)
    else None
  }

  /** Within every layer, two values with the same tag are the same value. */
  lemma TagsDistinct()
    ensures forall a: GroundingState, b: GroundingState :: a.Tag() == b.Tag() ==> a == b
    ensures forall a: MovementState, b: MovementState :: a.Tag() == b.Tag() ==> a == b
    ensures forall a: StanceState, b: StanceState :: a.Tag() == b.Tag() ==> a == b
    ensures forall a: WeaponState, b: WeaponState :: a.Tag() == b.Tag() ==> a == b
    ensures forall a: LeanState, b: LeanState :: a.Tag() == b.Tag() ==> a == b
  {
    forall a: GroundingState, b: GroundingState | a.Tag() == b.Tag() ensures a == b {
      var r := GroundingFromTag(a.Tag());
    }
    forall a: MovementState, b: MovementState | a.Tag() == b.Tag() ensures a == b {
      var r := MovementFromTag(a.Tag());
    }
    forall a: StanceState, b: StanceState | a.Tag() == b.Tag() ensures a == b {
      var r := StanceFromTag(a.Tag());
    }
    forall a: WeaponState, b: WeaponState | a.Tag() == b.Tag() ensures a == b {
      var r := WeaponFromTag(a.Tag());
    }
    forall a: LeanState, b: LeanState | a.Tag() == b.Tag() ensures a == b {
      var r := LeanFromTag(a.Tag());
    }
  }
}
