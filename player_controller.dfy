/**
  The first-person player controller (Assets/Scripts/Player/PlayerController.cs), without
  its physics: the pause toggle and the pause guard on Update, the jump guard, the pitch
  clamp, the walk/run speed choice, the run field-of-view requests, and ResetPosition.

  Physics queries and the character controller's motion are the engine's: grounding is an
  input to Update, the jump speed is a value fixed at construction, and the motion Update
  requests is returned rather than applied.
 */
module Player {
  import opened Mathf
  import opened CoreInput
  import opened PlayerServices

  // The defaults of PlayerMovementConfig.
  const WalkSpeed: real := 5.0
  const RunSpeed: real := 10.0
  const JumpHeight: real := 2.0
  const Gravity: real := -19.62
  const MouseSensitivity: real := 2.0
  const LookXLimit: real := 45.0

  /** Look input whose squared magnitude is below this is ignored. */
  const LookDeadZone: real := 0.01

  /** Field of view requested while running, and when running stops. */
  const RunFov: real := 70.0
  const WalkFov: real := 60.0

  function SqrMagnitude(v: Vec2): real {
    v.x * v.x + v.y * v.y
  }

  predicate Negligible(look: Vec2) {
    SqrMagnitude(look) < LookDeadZone
  }

  /** The pitch HandleRotation leaves: unchanged for a negligible look input, otherwise moved
      by the look's vertical component and clamped to [-LookXLimit, LookXLimit]. */
  function Pitch(rotationX: real, look: Vec2): (r: real)
    ensures Negligible(look) ==> r == rotationX
    ensures !Negligible(look) ==> -LookXLimit <= r <= LookXLimit
    ensures !Negligible(look) && -LookXLimit <= rotationX - look.y * MouseSensitivity <= LookXLimit ==>
      r == rotationX - look.y * MouseSensitivity
    ensures !Negligible(look) && rotationX - look.y * MouseSensitivity > LookXLimit ==> r == LookXLimit
    ensures !Negligible(look) && rotationX - look.y * MouseSensitivity < -LookXLimit ==> r == -LookXLimit
  {
    if Negligible(look) then rotationX
    else Clamp(rotationX - look.y * MouseSensitivity, -LookXLimit, LookXLimit)
  }

  /** The pitch after a sequence of look inputs, one per frame. */
  function PitchAfter(rotationX: real, looks: seq<Vec2>): real
    decreases |looks|
  {
    if looks == [] then rotationX else PitchAfter(Pitch(rotationX, looks[0]), looks[1..])
  }

  /** Once the pitch is within the limit, no sequence of look inputs takes it out. */
  lemma {:induction false} PitchStaysClamped(rotationX: real, looks: seq<Vec2>)
    requires -LookXLimit <= rotationX <= LookXLimit
    ensures -LookXLimit <= PitchAfter(rotationX, looks) <= LookXLimit
    decreases |looks|
  {
    if looks != [] {
      PitchStaysClamped(Pitch(rotationX, looks[0]), looks[1..]);
    }
  }

  /** The speed HandleMovement scales motion by: the run speed exactly when running. */
  function SpeedFor(running: bool): (r: real)
    ensures r == RunSpeed <==> running
    ensures r == WalkSpeed <==> !running
  {
    if running then RunSpeed else WalkSpeed
  }

  lemma SquareMonotone(a: real, b: real)
    requires 0.0 <= a && 0.0 <= b
    ensures a <= b ==> a * a <= b * b
  {
  }

  /** The speed of `sqrt(jumpHeight * -2 * gravity)` with the default configuration is about 8.859. */
  lemma JumpSpeedScenario(v: real)
    requires v >= 0.0 && v * v == JumpHeight * -2.0 * Gravity
    ensures 8.85 < v < 8.86
  {
    SquareMonotone(v, 8.85);
    SquareMonotone(8.86, v);
  }

  /** What Update asks the character controller to do with the horizontal input. */
  datatype MoveRequest = NoMove | MoveAt(speed: real)

  class PlayerController {
    const input: InputService?
    const camera: CameraService?
    const transform: Transform
    /** `Mathf.Sqrt(jumpHeight * -2 * gravity)`, the vertical speed a jump starts with. */
    const jumpSpeed: real

    var isPaused: bool
    var rotationX: real
    var velocityY: real
    var isGrounded: bool
    /** `Time.timeScale`, which only this controller writes. */
    var timeScale: real
    /** Whether the handlers are attached to the input service's events. */
    var subscribed: bool

    /** The camera objects the controller's calls may change. */
    ghost function CameraObjects(): set<object>
      reads camera
    {
      if camera == null then {} else camera.Objects()
    }

    /** The holder, if any, that rotation may change. */
    ghost function HolderObjects(): set<object>
      reads camera
    {
      if camera != null && camera.holder != null then {camera.holder} else {}
    }

    /** `IsRunning`: false when there is no input service. */
    predicate IsRunning()
      reads input
    {
      input != null && input.isRunning
    }

    /** `CurrentSpeed`: the run speed exactly when the input service reports running. */
    function CurrentSpeed(): (r: real)
      reads input
      ensures r == RunSpeed <==> IsRunning()
      ensures r == WalkSpeed <==> !IsRunning()
      ensures input == null ==> r == WalkSpeed
    {
      SpeedFor(IsRunning())
    }

    /** `Construct` with the injected services; every other field has its initial value. */
    constructor (transform: Transform, input: InputService?, camera: CameraService?, jumpSpeed: real)
      requires jumpSpeed >= 0.0 && jumpSpeed * jumpSpeed == JumpHeight * -2.0 * Gravity
      ensures this.transform == transform && this.input == input && this.camera == camera && this.jumpSpeed == jumpSpeed
      ensures !isPaused && rotationX == 0.0 && velocityY == 0.0 && !isGrounded && timeScale == 1.0 && !subscribed
    {
      this.transform := transform;
      this.input := input;
      this.camera := camera;
      this.jumpSpeed := jumpSpeed;
      isPaused := false;
      rotationX := 0.0;
      velocityY := 0.0;
      isGrounded := false;
      timeScale := 1.0;
      subscribed := false;
    }

    /** Attaches the handlers and switches the input service to gameplay. */
    method OnEnable()
      modifies this`subscribed, input
      ensures subscribed == (input != null)
      ensures input != null ==> input.State() == EnableGameplay(old(input.State())) && input.fired == old(input.fired)
      ensures input != null ==> input.Wiring() == old(input.Wiring())
    {
      SubscribeToEvents();
      if input != null {
        input.EnableGameplayInput();
      }
    }

    method OnDisable()
      modifies this`subscribed
      ensures !subscribed
    {
      UnsubscribeFromEvents();
    }

    method OnDestroy()
      modifies this`subscribed
      ensures !subscribed
    {
      UnsubscribeFromEvents();
    }

    method SubscribeToEvents()
      modifies this`subscribed
      ensures subscribed == (input != null)
    {
      subscribed := input != null;
    }

    /** Detaches the handlers; with no input service none were attached. */
    method UnsubscribeFromEvents()
      modifies this`subscribed
      ensures !subscribed
    {
      subscribed := false;
    }

    /** Start: has the camera follow the player's transform. */
    method Start()
      modifies CameraObjects()
      ensures camera != null ==>
        camera.holder != null && camera.holder.parent == transform
        && camera.holder.localPosition == HeadOffset && camera.holder.localPitch == 0.0
      ensures camera != null && old(camera.holder) != null ==> camera.holder == old(camera.holder)
      ensures camera != null && old(camera.holder) == null ==> fresh(camera.holder)
      ensures camera != null && camera.mainCamera != null ==>
        camera.mainCamera.parent == camera.holder && camera.mainCamera.localPosition == Origin
        && camera.mainCamera.localPitch == 0.0 && camera.mainCamera.fieldOfView == old(camera.mainCamera.fieldOfView)
    {
      if camera != null {
        camera.SetFollowTarget(transform);
      }
    }

    /** One frame. While paused nothing changes; otherwise grounding is refreshed, the speed is
        chosen, the pitch is updated and passed to the camera, and gravity is integrated. */
    method Update(grounded: bool, deltaTime: real) returns (request: MoveRequest)
      modifies this`isGrounded, this`rotationX, this`velocityY, HolderObjects()
      ensures old(isPaused) ==> request == NoMove && unchanged(this) && unchanged(HolderObjects())
      ensures !old(isPaused) ==> isGrounded == grounded && velocityY == old(velocityY) + Gravity * deltaTime
      ensures !old(isPaused) ==> request == if input == null then NoMove else MoveAt(SpeedFor(input.isRunning))
      ensures !old(isPaused) ==> rotationX == if input == null then old(rotationX) else Pitch(old(rotationX), input.lookInput)
      ensures !old(isPaused) && (input == null || Negligible(input.lookInput)) ==> unchanged(HolderObjects())
      ensures !old(isPaused) && input != null && !Negligible(input.lookInput) && camera != null && camera.holder != null ==>
        camera.holder.localPitch == rotationX && camera.holder.parent == old(camera.holder.parent)
        && camera.holder.localPosition == old(camera.holder.localPosition)
    {
      if isPaused {
        return NoMove;
      }
      isGrounded := grounded;
      request := HandleMovement();
      HandleRotation();
      ApplyGravity(deltaTime);
    }

    /** The walk or run speed the smoothed input is scaled by; nothing without an input service. */
    method HandleMovement() returns (request: MoveRequest)
      ensures request.MoveAt? <==> input != null
      ensures request.MoveAt? ==> (request.speed == RunSpeed <==> input.isRunning)
      ensures request.MoveAt? ==> request.speed == CurrentSpeed()
    {
      if input == null {
        return NoMove;
      }
      request := MoveAt(SpeedFor(input.isRunning));
    }

    /** Applies the look input to the pitch and forwards the clamped pitch to the camera. */
    method HandleRotation()
      modifies this`rotationX, HolderObjects()
      ensures rotationX == if input == null then old(rotationX) else Pitch(old(rotationX), input.lookInput)
      ensures (input == null || Negligible(input.lookInput)) ==> unchanged(HolderObjects())
      ensures input != null && !Negligible(input.lookInput) ==> -LookXLimit <= rotationX <= LookXLimit
      ensures input != null && !Negligible(input.lookInput) && camera != null && camera.holder != null ==>
        camera.holder.localPitch == rotationX && camera.holder.parent == old(camera.holder.parent)
        && camera.holder.localPosition == old(camera.holder.localPosition)
    {
      if input == null {
        return;
      }
      var look := input.lookInput;
      if SqrMagnitude(look) < LookDeadZone {
        return;
      }
      rotationX := rotationX - look.y * MouseSensitivity;
      rotationX := Clamp(rotationX, -LookXLimit, LookXLimit);
      if camera != null {
        camera.UpdateRotation(rotationX);
      }
    }

    method ApplyGravity(deltaTime: real)
      modifies this`velocityY
      ensures velocityY == old(velocityY) + Gravity * deltaTime
    {
      velocityY := velocityY + Gravity * deltaTime;
    }

    /** A jump starts only on the ground and while not paused. */
    method HandleJump()
      modifies this`velocityY
      ensures velocityY == if isGrounded && !isPaused then jumpSpeed else old(velocityY)
    {
      if isGrounded && !isPaused {
        velocityY := jumpSpeed;
      }
    }

    /** Requests the running field of view; without a camera service nothing happens. */
    method OnRunStarted()
      modifies CameraObjects()
      ensures camera != null && camera.mainCamera != null ==>
        camera.mainCamera.fieldOfView == RunFov
        && camera.mainCamera.parent == old(camera.mainCamera.parent)
        && camera.mainCamera.localPosition == old(camera.mainCamera.localPosition)
        && camera.mainCamera.localPitch == old(camera.mainCamera.localPitch)
      ensures camera != null ==> camera.holder == old(camera.holder)
      ensures camera != null && camera.holder != null ==> unchanged(camera.holder)
    {
      if camera != null {
        camera.SetFieldOfView(RunFov);
      }
    }

    /** Requests the walking field of view; without a camera service nothing happens. */
    method OnRunCanceled()
      modifies CameraObjects()
      ensures camera != null && camera.mainCamera != null ==>
        camera.mainCamera.fieldOfView == WalkFov
        && camera.mainCamera.parent == old(camera.mainCamera.parent)
        && camera.mainCamera.localPosition == old(camera.mainCamera.localPosition)
        && camera.mainCamera.localPitch == old(camera.mainCamera.localPitch)
      ensures camera != null ==> camera.holder == old(camera.holder)
      ensures camera != null && camera.holder != null ==> unchanged(camera.holder)
    {
      if camera != null {
        camera.SetFieldOfView(WalkFov);
      }
    }

    method OnMenuPressed()
      modifies this`isPaused, this`timeScale, input
      ensures isPaused == !old(isPaused)
      ensures isPaused ==> timeScale == 0.0 && (input != null ==> input.State() == EnableUI(old(input.State())))
      ensures !isPaused ==> timeScale == 1.0 && (input != null ==> input.State() == EnableGameplay(old(input.State())))
      ensures input != null ==> input.fired == old(input.fired) && input.Wiring() == old(input.Wiring())
    {
      TogglePause();
    }

    /** Pausing switches the input service to UI and stops time; resuming switches back to
        gameplay and restores normal time. */
    method TogglePause()
      modifies this`isPaused, this`timeScale, input
      ensures isPaused == !old(isPaused)
      ensures isPaused ==> timeScale == 0.0 && (input != null ==> input.State() == EnableUI(old(input.State())))
      ensures !isPaused ==> timeScale == 1.0 && (input != null ==> input.State() == EnableGameplay(old(input.State())))
      ensures input != null ==> input.fired == old(input.fired) && input.Wiring() == old(input.Wiring())
    {
      isPaused := !isPaused;
      if isPaused {
        if input != null {
          input.EnableUIInput();
        }
        timeScale := 0.0;
      } else {
        if input != null {
          input.EnableGameplayInput();
        }
        timeScale := 1.0;
      }
    }

    /** Moves the player to `position`, stops vertical motion, levels the pitch and resets the camera. */
    method ResetPosition(position: Vec3)
      modifies this`velocityY, this`rotationX, transform, CameraObjects()
      ensures transform.position == position && velocityY == 0.0 && rotationX == 0.0
      ensures camera != null ==> camera.holder == old(camera.holder)
      ensures camera != null && camera.holder != null ==>
        camera.holder.localPitch == 0.0 && camera.holder.parent == old(camera.holder.parent)
        && camera.holder.localPosition == old(camera.holder.localPosition)
      ensures camera != null && camera.mainCamera != null ==>
        camera.mainCamera.fieldOfView == camera.defaultFOV && camera.mainCamera.parent == old(camera.mainCamera.parent)
        && camera.mainCamera.localPosition == old(camera.mainCamera.localPosition)
        && camera.mainCamera.localPitch == old(camera.mainCamera.localPitch)
    {
      transform.position := position;
      velocityY := 0.0;
      rotationX := 0.0;
      if camera != null {
        camera.ResetCamera();
      }
    }

    /** An event of the input service reaching this controller: the handler attached to it
        runs if the controller is subscribed. JumpReleased has no handler here, and the
        interact handler only logs. */
    method Deliver(e: InputEvent)
      modifies this`velocityY, this`isPaused, this`timeScale, input, CameraObjects()
      ensures !old(subscribed) || e == JumpReleased || e == InteractPressed ==>
        velocityY == old(velocityY) && isPaused == old(isPaused) && timeScale == old(timeScale)
        && (input != null ==> unchanged(input))
        && (camera != null ==> camera.holder == old(camera.holder))
        && (camera != null && camera.holder != null ==> unchanged(camera.holder))
        && (camera != null && camera.mainCamera != null ==> unchanged(camera.mainCamera))
      ensures old(subscribed) && e == JumpPressed ==>
        velocityY == (if isGrounded && !old(isPaused) then jumpSpeed else old(velocityY))
        && isPaused == old(isPaused) && timeScale == old(timeScale)
        && (input != null ==> unchanged(input))
        && (camera != null ==> camera.holder == old(camera.holder))
        && (camera != null && camera.holder != null ==> unchanged(camera.holder))
        && (camera != null && camera.mainCamera != null ==> unchanged(camera.mainCamera))
      ensures old(subscribed) && (e == RunStarted || e == RunCanceled) ==>
        velocityY == old(velocityY) && isPaused == old(isPaused) && timeScale == old(timeScale)
        && (input != null ==> unchanged(input))
        && (camera != null ==> camera.holder == old(camera.holder))
        && (camera != null && camera.holder != null ==> unchanged(camera.holder))
      ensures old(subscribed) && (e == RunStarted || e == RunCanceled) && camera != null && camera.mainCamera != null ==>
        camera.mainCamera.fieldOfView == (if e == RunStarted then RunFov else WalkFov)
        && camera.mainCamera.parent == old(camera.mainCamera.parent)
        && camera.mainCamera.localPosition == old(camera.mainCamera.localPosition)
        && camera.mainCamera.localPitch == old(camera.mainCamera.localPitch)
      ensures old(subscribed) && e == MenuPressed ==>
        isPaused == !old(isPaused) && velocityY == old(velocityY)
        && (isPaused ==> timeScale == 0.0 && (input != null ==> input.State() == EnableUI(old(input.State()))))
        && (!isPaused ==> timeScale == 1.0 && (input != null ==> input.State() == EnableGameplay(old(input.State()))))
        && (input != null ==> input.fired == old(input.fired) && input.Wiring() == old(input.Wiring()))
        && (camera != null ==> camera.holder == old(camera.holder))
        && (camera != null && camera.holder != null ==> unchanged(camera.holder))
        && (camera != null && camera.mainCamera != null ==> unchanged(camera.mainCamera))
    {
      if !subscribed {
        return;
      }
      match e
      case JumpPressed => HandleJump();
      case RunStarted => OnRunStarted();
      case RunCanceled => OnRunCanceled();
      case MenuPressed => OnMenuPressed();
      case InteractPressed =>
      case JumpReleased =>
    }
  }

  /** Two menu presses from unpaused play pause and then resume: the paused flag and time
      scale are restored, and the input service ends in gameplay mode. */
  method MenuPressedTwice(p: PlayerController)
    requires !p.isPaused
    modifies p, p.input
    ensures !p.isPaused && p.timeScale == 1.0
    ensures p.input != null ==> p.input.State() == EnableGameplay(EnableUI(old(p.input.State())))
    ensures p.input != null ==> p.input.Wiring() == old(p.input.Wiring())
  {
    p.OnMenuPressed();
    assert p.isPaused && p.timeScale == 0.0;
    p.OnMenuPressed();
  }

  /** The whole path of two "Menu" presses: the service receives each callback and logs
      MenuPressed, which reaches the subscribed controller. Pausing switches the service to UI
      but leaves it subscribed, so the second press, if the engine delivers it, resumes play. */
  method MenuCallbacksPauseAndResume(p: PlayerController, v: Vec2)
    requires p.input != null && p.input.subscribed && p.subscribed && !p.isPaused
    modifies p, p.input, p.CameraObjects()
    ensures !p.isPaused && p.timeScale == 1.0
    ensures p.input != null && p.input.subscribed
    ensures p.input != null ==> p.input.fired == old(p.input.fired) + [MenuPressed, MenuPressed]
    ensures p.input != null ==> p.input.State() == EnableGameplay(EnableUI(old(p.input.State())))
  {
    var press := Callback("Menu", Performed, v);
    p.input.Receive(press);
    p.Deliver(MenuPressed);
    assert p.isPaused && p.timeScale == 0.0 && p.input.subscribed;
    p.input.Receive(press);
    p.Deliver(MenuPressed);
  }
}
