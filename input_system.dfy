/**
 * The input system: raw keyboard and mouse events become pressed-key
 * flags, look angles and commands for every player controller. Event
 * listeners are methods called with the event's data; the calls a player
 * controller receives are returned as values, in order.
 */
module Input {
  import opened Wrappers
  import opened Physics

  /** The commands `handleKeyDown` can build. */
  datatype Command = Jump | Crouch | Prone | LeanLeft | LeanRight | Reload | SpawnWeapon(weaponName: string)

  /** One call `update` makes on a player controller. */
  datatype ControllerCall = Move(direction: Vec3) | Aim | AimRelease | Fire

  /** `PlayerController` has no `handleFire` method, so the fire call throws. */
  const HandleFireError := TypeError("controller.handleFire is not a function")

  const MouseSensitivity: real := 0.005
  /** `Math.PI / 2.5`, the largest pitch magnitude. */
  const MaxPitch: real := PI / 2.5

  /** `toLowerCase` on the ASCII letters. */
  function LowerChar(c: char): (r: char)
    ensures 'A' <= c <= 'Z' ==> 'a' <= r <= 'z'
    ensures !('A' <= c <= 'Z') ==> r == c
  {
    if 'A' <= c <= 'Z' then (c as int - 'A' as int + 'a' as int) as char else c
  }

  function Lower(s: string): (r: string)
    ensures |r| == |s| && forall i :: 0 <= i < |s| ==> r[i] == LowerChar(s[i])
  {
    seq(|s|, i requires 0 <= i < |s| => LowerChar(s[i]))
  }

  lemma LowerIdempotent(s: string)
    ensures Lower(Lower(s)) == Lower(s)
  {
  }

  /** `keysPressed[key]`: a key never seen reads as `undefined`, which is falsy. */
  predicate Pressed(keys: map<string, bool>, key: string) {
    key in keys && keys[key]
  }

  /**
   * The `handleKeyDown` table: space, c, x, q, e and r each build one
   * command; p builds a spawn command only when a spawner is set; any
   * other key builds nothing.
   */
  function CommandFor(key: string, hasSpawner: bool): (c: Option<Command>)
    ensures c == Some(Jump) <==> key == " "
    ensures c == Some(Crouch) <==> key == "c"
    ensures c == Some(Prone) <==> key == "x"
    ensures c == Some(LeanLeft) <==> key == "q"
    ensures c == Some(LeanRight) <==> key == "e"
    ensures c == Some(Reload) <==> key == "r"
    ensures c.Some? && c.value.SpawnWeapon? <==> key == "p" && hasSpawner
    ensures c.Some? && c.value.SpawnWeapon? ==> c.value.weaponName == "ak47"
    ensures c.None? <==> key !in {" ", "c", "x", "q", "e", "r", "p"} || (key == "p" && !hasSpawner)
  {
    if key == " " then Some(Jump)
    else if key == "c" then Some(Crouch)
    else if key == "x" then Some(Prone)
    else if key == "q" then Some(LeanLeft)
    else if key == "e" then Some(LeanRight)
    else if key == "r" then Some(Reload)
    else if key == "p" && hasSpawner then Some(SpawnWeapon("ak47"))
    else None
  }

  /** A keyboard event, with the key as the browser reports it. */
  datatype KeyEvent = KeyDown(key: string) | KeyUp(key: string)

  /** The pressed flags and the command issued after one keyboard event. */
  datatype KeyResult = KeyResult(keys: map<string, bool>, issued: Option<Command>)

  /** The keydown and keyup listeners: a command only on a not-pressed to pressed edge. */
  function KeyStep(keys: map<string, bool>, e: KeyEvent, hasSpawner: bool): (r: KeyResult)
    ensures e.KeyDown? ==> Pressed(r.keys, Lower(e.key))
    ensures e.KeyUp? ==> !Pressed(r.keys, Lower(e.key)) && r.issued.None?
    ensures e.KeyDown? && Pressed(keys, Lower(e.key)) ==> r.issued.None?
    ensures e.KeyDown? && !Pressed(keys, Lower(e.key)) ==> r.issued == CommandFor(Lower(e.key), hasSpawner)
    ensures forall k :: k != Lower(e.key) ==> (Pressed(r.keys, k) <==> Pressed(keys, k))
  {
    var key := Lower(e.key);
    match e
    case KeyDown(_) =>
      KeyResult(keys[key := true], if !Pressed(keys, key) then CommandFor(key, hasSpawner) else None)
    case KeyUp(_) =>
      KeyResult(keys[key := false], None)
  }

  /** The commands a series of keyboard events issues, in order. */
  function KeyCommands(keys: map<string, bool>, events: seq<KeyEvent>, hasSpawner: bool): seq<Command>
    decreases |events|
  {
    if events == [] then []
    else
      var r := KeyStep(keys, events[0], hasSpawner);
      (if r.issued.Some? then [r.issued.value] else []) + KeyCommands(r.keys, events[1..], hasSpawner)
  }

  /** A held key, however often the browser repeats its keydown, issues nothing once pressed. */
  lemma {:induction false} HeldKeyIsSilent(keys: map<string, bool>, key: string, events: seq<KeyEvent>, hasSpawner: bool)
    requires Pressed(keys, Lower(key))
    requires forall i :: 0 <= i < |events| ==> events[i] == KeyDown(key)
    ensures KeyCommands(keys, events, hasSpawner) == []
    decreases |events|
  {
    if events != [] {
      var r := KeyStep(keys, events[0], hasSpawner);
      HeldKeyIsSilent(r.keys, key, events[1..], hasSpawner);
    }
  }

  /** Pressing a key, holding it and releasing it issues its command exactly once. */
  lemma PressHoldRelease(keys: map<string, bool>, key: string, repeats: seq<KeyEvent>, hasSpawner: bool)
    requires !Pressed(keys, Lower(key))
    requires forall i :: 0 <= i < |repeats| ==> repeats[i] == KeyDown(key)
    ensures var c := CommandFor(Lower(key), hasSpawner);
      KeyCommands(keys, [KeyDown(key)] + repeats + [KeyUp(key)], hasSpawner) == (if c.Some? then [c.value] else [])
  {
    var events := [KeyDown(key)] + repeats + [KeyUp(key)];
    var r := KeyStep(keys, KeyDown(key), hasSpawner);
    assert events[1..] == repeats + [KeyUp(key)];
    HeldThenReleased(r.keys, key, repeats, hasSpawner);
  }

  lemma {:induction false} HeldThenReleased(keys: map<string, bool>, key: string, repeats: seq<KeyEvent>, hasSpawner: bool)
    requires Pressed(keys, Lower(key))
    requires forall i :: 0 <= i < |repeats| ==> repeats[i] == KeyDown(key)
    ensures KeyCommands(keys, repeats + [KeyUp(key)], hasSpawner) == []
    decreases |repeats|
  {
    if repeats == [] {
      assert [KeyUp(key)][1..] == [];
    } else {
      var r := KeyStep(keys, repeats[0], hasSpawner);
      assert (repeats + [KeyUp(key)])[1..] == repeats[1..] + [KeyUp(key)];
      HeldThenReleased(r.keys, key, repeats[1..], hasSpawner);
    }
  }

  /** `getMovementInput` before normalising: w and s on z, a and d on x, opposite keys cancelling. */
  function MovementKeys(keys: map<string, bool>): (d: Vec3)
    ensures d.y == 0.0
    ensures d.z == (if Pressed(keys, "s") then 1.0 else 0.0) - (if Pressed(keys, "w") then 1.0 else 0.0)
    ensures d.x == (if Pressed(keys, "d") then 1.0 else 0.0) - (if Pressed(keys, "a") then 1.0 else 0.0)
  {
    var z1 := if Pressed(keys, "w") then -1.0 else 0.0;
    var x1 := if Pressed(keys, "a") then -1.0 else 0.0;
    var z2 := if Pressed(keys, "s") then z1 + 1.0 else z1;
    var x2 := if Pressed(keys, "d") then x1 + 1.0 else x1;
    Vec3(x2, 0.0, z2)
  }

  /** No net input is the zero vector: no keys, or each pair of opposite keys held together. */
  lemma NoNetInput(keys: map<string, bool>)
    ensures IsZero(MovementKeys(keys)) <==>
      (Pressed(keys, "w") <==> Pressed(keys, "s")) && (Pressed(keys, "a") <==> Pressed(keys, "d"))
  {
  }

  /**
   * The calls `update` makes on each player controller: a move only for
   * nonzero input, aim or aim-release every frame, and fire while the left
   * button is held. `heading` is the normalised input turned by the yaw.
   */
  function ControllerCalls(input: Vec3, heading: Vec3, isAiming: bool, isFiring: bool): (calls: seq<ControllerCall>)
    ensures |calls| == (if IsZero(input) then 0 else 1) + 1 + (if isFiring then 1 else 0)
    ensures calls[0].Move? <==> !IsZero(input)
    ensures forall i :: 1 <= i < |calls| ==> !calls[i].Move?
    ensures Aim in calls <==> isAiming
    ensures AimRelease in calls <==> !isAiming
    ensures Fire in calls <==> isFiring
    ensures !IsZero(input) ==> calls[0] == Move(heading)
  {
    (if !IsZero(input) then [Move(heading)] else [])
    + [if isAiming then Aim else AimRelease]
    + (if isFiring then [Fire] else [])
  }

  /**
   * A frame with the left button held: the move (if any) and the aim or
   * aim-release reach the controller, and the fire call comes last, so the
   * thrown `HandleFireError` leaves nothing else undelivered.
   */
  lemma FireThrowsLast(input: Vec3, heading: Vec3, isAiming: bool)
    ensures var calls := ControllerCalls(input, heading, isAiming, true);
      && calls[|calls| - 1] == Fire
      && Fire !in calls[..|calls| - 1]
      && (Aim in calls[..|calls| - 1] <==> isAiming)
      && (AimRelease in calls[..|calls| - 1] <==> !isAiming)
      && (!IsZero(input) ==> calls[0] == Move(heading))
  {
    var calls := ControllerCalls(input, heading, isAiming, true);
    assert calls[..|calls| - 1] == ControllerCalls(input, heading, isAiming, false);
  }

  /** Look angles and the mouse accumulators. */
  datatype Look = Look(yaw: real, pitch: real, mouseX: real, mouseY: real)

  /**
   * `updateMouseLook()`: without a camera nothing happens, so movement
   * keeps accumulating; otherwise the accumulated movement turns the view,
   * the pitch is clamped and the accumulators are reset.
   */
  function LookStep(l: Look, hasCamera: bool): (r: Look)
    ensures !hasCamera ==> r == l
    ensures hasCamera ==> -MaxPitch <= r.pitch <= MaxPitch && r.mouseX == 0.0 && r.mouseY == 0.0
    ensures hasCamera ==> r.yaw == l.yaw - l.mouseX * MouseSensitivity
  {
    if !hasCamera then l
    else
      var yaw := l.yaw - l.mouseX * MouseSensitivity;
      var pitch := l.pitch - l.mouseY * MouseSensitivity;
      Look(yaw, Clamp(-MaxPitch, MaxPitch, pitch), 0.0, 0.0)
  }

  /** A second look update with no mouse movement in between changes nothing. */
  lemma LookStepIdempotent(l: Look, hasCamera: bool)
    ensures LookStep(LookStep(l, hasCamera), hasCamera) == LookStep(l, hasCamera)
  {
  }

  /** Within the limits, the pitch follows the mouse exactly. */
  lemma PitchFollowsMouse(l: Look)
    requires -MaxPitch <= l.pitch - l.mouseY * MouseSensitivity <= MaxPitch
    ensures LookStep(l, true).pitch == l.pitch - l.mouseY * MouseSensitivity
  {
  }

  class InputSystem {
    var keysPressed: map<string, bool>
    var mouseX: real
    var mouseY: real
    var pitch: real
    var yaw: real
    var isPointerLocked: bool
    /** Whether a camera was given. */
    const hasCamera: bool
    /** Whether `setEntitySpawner` has been given a spawner. */
    var hasSpawner: bool

    constructor(hasCamera: bool)
      ensures keysPressed == map[] && mouseX == 0.0 && mouseY == 0.0 && pitch == 0.0 && yaw == 0.0
      ensures !isPointerLocked && this.hasCamera == hasCamera && !hasSpawner
    {
      keysPressed := map[];
      mouseX := 0.0;
      mouseY := 0.0;
      pitch := 0.0;
      yaw := 0.0;
      isPointerLocked := false;
      this.hasCamera := hasCamera;
      hasSpawner := false;
    }

    method SetEntitySpawner(present: bool)
      modifies this`hasSpawner
      ensures hasSpawner == present
    {
      hasSpawner := present;
    }

    /** The keydown listener; returns the command sent to every player controller, if any. */
    method OnKeyDown(rawKey: string) returns (issued: Option<Command>)
      modifies this`keysPressed
      ensures KeyResult(keysPressed, issued) == KeyStep(old(keysPressed), KeyDown(rawKey), hasSpawner)
    {
      var key := Lower(rawKey);
      issued := None;
      if !Pressed(keysPressed, key) {
        issued := CommandFor(key, hasSpawner);
      }
      keysPressed := keysPressed[key := true];
    }

    method OnKeyUp(rawKey: string)
      modifies this`keysPressed
      ensures keysPressed == KeyStep(old(keysPressed), KeyUp(rawKey), hasSpawner).keys
    {
      keysPressed := keysPressed[Lower(rawKey) := false];
    }

    method OnPointerLockChange(locked: bool)
      modifies this`isPointerLocked
      ensures isPointerLocked == locked
    {
      isPointerLocked := locked;
    }

    /** The mousemove listener: movement counts only while the pointer is locked. */
    method OnMouseMove(movementX: real, movementY: real)
      modifies this`mouseX, this`mouseY
      ensures isPointerLocked ==> mouseX == old(mouseX) + movementX && mouseY == old(mouseY) + movementY
      ensures !isPointerLocked ==> mouseX == old(mouseX) && mouseY == old(mouseY)
    {
      if isPointerLocked {
        mouseX := mouseX + movementX;
        mouseY := mouseY + movementY;
      }
    }

    /** The mousedown listener: button 1 (the middle button) is recorded as 'rightclick', button 0 as 'leftclick'. */
    method OnMouseDown(button: int)
      modifies this`keysPressed
      ensures keysPressed == if button == 1 then old(keysPressed)["rightclick" := true]
                             else if button == 0 then old(keysPressed)["leftclick" := true]
                             else old(keysPressed)
    {
      if button == 1 {
        keysPressed := keysPressed["rightclick" := true];
      } else if button == 0 {
        keysPressed := keysPressed["leftclick" := true];
      }
    }

    method OnMouseUp(button: int)
      modifies this`keysPressed
      ensures keysPressed == if button == 1 then old(keysPressed)["rightclick" := false]
                             else if button == 0 then old(keysPressed)["leftclick" := false]
                             else old(keysPressed)
    {
      if button == 1 {
        keysPressed := keysPressed["rightclick" := false];
      } else if button == 0 {
        keysPressed := keysPressed["leftclick" := false];
      }
    }

    function LookState(): Look
      reads this
    {
      Look(yaw, pitch, mouseX, mouseY)
    }

    method UpdateMouseLook()
      modifies this`yaw, this`pitch, this`mouseX, this`mouseY
      ensures LookState() == LookStep(old(LookState()), hasCamera)
    {
      if !hasCamera {
        return;
      }
      yaw := yaw - mouseX * MouseSensitivity;
      pitch := pitch - mouseY * MouseSensitivity;
      pitch := Clamp(-MaxPitch, MaxPitch, pitch);
      mouseX := 0.0;
      mouseY := 0.0;
    }

    /**
     * `update()`: the look update, then the calls made on the player
     * controller, if an entity has one. `heading` turns the raw key
     * direction into the normalised direction rotated by the yaw. With the
     * left button held the last call, `handleFire`, throws, and the
     * exception ends the frame.
     */
    method Update(heading: (Vec3, real) -> Vec3, hasController: bool) returns (calls: seq<ControllerCall>, outcome: Outcome)
      modifies this`yaw, this`pitch, this`mouseX, this`mouseY
      ensures LookState() == LookStep(old(LookState()), hasCamera)
      ensures !hasController ==> calls == [] && outcome == Pass
      ensures hasController ==>
        calls == ControllerCalls(MovementKeys(keysPressed), heading(MovementKeys(keysPressed), yaw),
                                 Pressed(keysPressed, "rightclick"), Pressed(keysPressed, "leftclick"))
      ensures outcome == (if hasController && Pressed(keysPressed, "leftclick") then Fail(HandleFireError) else Pass)
      ensures outcome.Fail? ==> |calls| > 0 && calls[|calls| - 1] == Fire && Fire !in calls[..|calls| - 1]
    {
      UpdateMouseLook();
      calls := [];
      outcome := Pass;
      if !hasController {
        return;
      }
      var movementInput := MovementKeys(keysPressed);
      var isAiming := Pressed(keysPressed, "rightclick");
      var isFiring := Pressed(keysPressed, "leftclick");
      if !IsZero(movementInput) {
        calls := calls + [Move(heading(movementInput, yaw))];
      }
      if isAiming {
        calls := calls + [Aim];
      } else {
        calls := calls + [AimRelease];
      }
      if isFiring {
        FireThrowsLast(movementInput, heading(movementInput, yaw), isAiming);
        calls := calls + [Fire];
        outcome := Fail(HandleFireError);
      }
    }
  }
}
