# The Time Thief: input, camera and player-controller state machines in Dafny

This project models the logic of a small Unity first-person scaffold:

- **CoreInput** (`input_service.dfy`) models the global input service. It holds two action maps: "Player" (gameplay) and "UI". It writes the cursor lock and visibility globals and caches the latest inputs (MoveInput, LookInput, IsJumping, IsRunning). It routes each action callback by name to a handler that updates the cache and fires the service's events.
  - The value layer is the specification. It has `Dispatch` for one callback, `Run` for a sequence of callbacks, and the four mode operations on a `Snapshot`.
  - `class InputService` mirrors the C# object. Its map operations, `Initialize`, `Receive` and `OnActionTriggered` are proved against the value layer. The setup steps, the `Handle*Input` handlers and `Dispose` state their effect on the fields directly.
  - Fired events go into the `fired` log, in order.
- **PlayerServices** (`camera_service.dfy`) models the camera service:
  - the main camera (possibly missing);
  - a holder created lazily and re-parented to the follow target;
  - the field of view captured at construction;
  - the field-of-view clamp to [30, 120].
- **Player** (`player_controller.dfy`) models the player controller without its physics:
  - the pause toggle, which switches input mode and time scale, and the pause guard on `Update`;
  - the jump guard;
  - the pitch clamp to ±45° and forwarding the pitch to the camera;
  - the walk/run speed choice;
  - the run field-of-view requests;
  - `ResetPosition`.
- **Mathf** (`mathf.dfy`) is Unity's `Mathf.Clamp`, on reals.

Floats are modelled as `real`. Vectors are `Vec2`/`Vec3` datatypes, and a rotation is modelled by its pitch angle, with identity being 0. Engine inputs become parameters:
- whether the actions asset loaded, and which maps it holds;
- `Camera.main`;
- the grounding test;
- `Time.deltaTime`.

The engine's delivery of a callback through the service's subscription is `InputService.Receive`. The delivery of a service event to a subscribed controller is `PlayerController.Deliver`.

The service has no input-mode enumeration. Gameplay and UI mode are the two map operations `EnableGameplayInput` and `EnableUIInput`. The gameplay/UI exclusion is proved for every sequence of the four map operations and of callbacks. `EnableAllInput`/`DisableAllInput` go through the engine's PlayerInput, whose effect on the maps is engine behaviour and is not modelled.

## Model

| member | source | states |
|---|---|---|
| Mathf.Clamp | Assets/Scripts/Player/PlayerController.cs:199 | The result lies in [min, max] when min <= max, equals the value when it is already in range, and is the point of the range nearest the value |
| CoreInput.Dispatch | Assets/Scripts/Core/Input/InputService.cs:96-181 | Includes `Route`, the switch on the action name. A callback fires at most one event, and fires exactly the events it triggers (per-event reference `Triggers`). Each cached value changes only through its own action. An unrecognised action name changes nothing and fires nothing |
| CoreInput.VectorSampleOverwrites | Assets/Scripts/Core/Input/InputService.cs:129-137 | A "Move"/"Look" sample overwrites its vector in every phase, fires nothing and changes nothing else |
| CoreInput.JumpEdges | Assets/Scripts/Core/Input/InputService.cs:139-151 | "Jump" performed sets IsJumping and fires one JumpPressed. Canceled clears it and fires one JumpReleased. Any other phase changes nothing |
| CoreInput.RunEdges | Assets/Scripts/Core/Input/InputService.cs:153-165 | "Run"/"Sprint" started or performed sets IsRunning and fires RunStarted. Canceled clears it and fires RunCanceled. Other phases change nothing |
| CoreInput.ButtonsOnlyFire | Assets/Scripts/Core/Input/InputService.cs:167-181 | "Menu"/"Pause" and "Interact" never change the cache. Performed fires only their own event; any other phase fires nothing |
| CoreInput.Run | Assets/Scripts/Core/Input/InputService.cs:96-127 | A sequence of callbacks fires at most one event per callback |
| CoreInput.RunPressFiresTwice | Assets/Scripts/Core/Input/InputService.cs:153-158 | A run press reported as started and then performed fires RunStarted twice |
| CoreInput.RunCache | Assets/Scripts/Core/Input/InputService.cs:129-165 | After any callback sequence, MoveInput/LookInput are the latest "Move"/"Look" samples. IsJumping/IsRunning follow the latest press or release of their button, or keep their old value if there was none |
| CoreInput.EventsMatchCallbacks | Assets/Scripts/Core/Input/InputService.cs:139-181 | Over any callback sequence, each event fires exactly as many times as there are callbacks that trigger it. There is no duplicate firing for a held button |
| CoreInput.EnableGameplay | Assets/Scripts/Core/Input/InputService.cs:184-194 | Includes `Enable`/`Disable`, the null-guarded `map?.Enable()`/`map?.Disable()` calls that all four map operations use. The gameplay map is enabled iff it exists, UI is not enabled, and the cursor is locked and hidden. The cache is unchanged and no map is created or lost |
| CoreInput.DisableGameplay | Assets/Scripts/Core/Input/InputService.cs:196-207 | The gameplay map is not enabled and the cache is cleared (zero vectors, not jumping, not running) whatever it held. UI and cursor are unchanged |
| CoreInput.EnableUI | Assets/Scripts/Core/Input/InputService.cs:209-219 | The UI map is enabled iff it exists, gameplay is not enabled, and the cursor is unlocked and visible. The cache is unchanged |
| CoreInput.DisableUI | Assets/Scripts/Core/Input/InputService.cs:221-225 | The UI map is not enabled and nothing else changes |
| CoreInput.ExclusionKept | Assets/Scripts/Core/Input/InputService.cs:184-225 | From a state where the maps are not both enabled, no sequence of the four map operations and callbacks enables both |
| CoreInput.MapsKeepPresence | Assets/Scripts/Core/Input/InputService.cs:186-223 | Map operations and callbacks never create or lose a map. A null map stays null, so enable and disable on it are no-ops |
| CoreInput.Initialized | Assets/Scripts/Core/Input/InputService.cs:35-86 | Includes `Find`, the `FindActionMap` lookup. Initialize ends in gameplay mode: gameplay is enabled iff found, UI is off, and the cursor is locked and hidden. With the asset missing, the maps are left as they were |
| CoreInput.InitializedStaysExclusive | Assets/Scripts/Core/Input/InputService.cs:41-42 | From the state Initialize leaves, no sequence of map operations and callbacks leaves both maps enabled |
| CoreInput.MissingAssetKeepsMapsNull | Assets/Scripts/Core/Input/InputService.cs:56-72 | With the actions asset missing, both maps stay null through every later enable/disable call |
| CoreInput.InputService.constructor | Assets/Scripts/Core/Input/InputService.cs:14-25 | A new service has no PlayerInput, no maps, zero vectors, false flags and an empty event log |
| CoreInput.InputService.Initialize | Assets/Scripts/Core/Input/InputService.cs:35-45 | The new state is `Initialized` of the old one. The PlayerInput exists and is subscribed, and no event fires |
| CoreInput.InputService.CreatePlayerInput | Assets/Scripts/Core/Input/InputService.cs:47-68 | A PlayerInput always exists afterwards, and the loaded asset, possibly missing, is recorded |
| CoreInput.InputService.SetupActionMaps | Assets/Scripts/Core/Input/InputService.cs:70-86 | With the asset missing, the maps are untouched. Otherwise each map is found (present, not enabled) or null |
| CoreInput.InputService.SubscribeToEvents | Assets/Scripts/Core/Input/InputService.cs:88-94 | The service is subscribed iff it was already subscribed or a PlayerInput exists |
| CoreInput.InputService.Receive | Assets/Scripts/Core/Input/InputService.cs:92 | While subscribed, a callback updates the cache as `Dispatch` says and appends its events to the log. Otherwise nothing changes |
| CoreInput.InputService.OnActionTriggered | Assets/Scripts/Core/Input/InputService.cs:96-127 | The cache becomes `Dispatch`'s and the fired events are appended to the log. Maps and cursor are unchanged |
| CoreInput.InputService.HandleMoveInput | Assets/Scripts/Core/Input/InputService.cs:129-132 | MoveInput becomes the sampled value |
| CoreInput.InputService.HandleLookInput | Assets/Scripts/Core/Input/InputService.cs:134-137 | LookInput becomes the sampled value |
| CoreInput.InputService.HandleJumpInput | Assets/Scripts/Core/Input/InputService.cs:139-151 | Performed sets IsJumping and logs JumpPressed. Canceled clears it and logs JumpReleased. Otherwise nothing changes |
| CoreInput.InputService.HandleRunInput | Assets/Scripts/Core/Input/InputService.cs:153-165 | Started or performed sets IsRunning and logs RunStarted. Canceled clears it and logs RunCanceled |
| CoreInput.InputService.HandleMenuInput | Assets/Scripts/Core/Input/InputService.cs:167-173 | Performed logs MenuPressed, and nothing else changes |
| CoreInput.InputService.HandleInteractInput | Assets/Scripts/Core/Input/InputService.cs:175-181 | Performed logs InteractPressed, and nothing else changes |
| CoreInput.InputService.EnableGameplayInput | Assets/Scripts/Core/Input/InputService.cs:184-194 | The new state is `EnableGameplay` of the old one, and only maps and cursor may change |
| CoreInput.InputService.DisableGameplayInput | Assets/Scripts/Core/Input/InputService.cs:196-207 | The new state is `DisableGameplay` of the old one |
| CoreInput.InputService.EnableUIInput | Assets/Scripts/Core/Input/InputService.cs:209-219 | The new state is `EnableUI` of the old one |
| CoreInput.InputService.DisableUIInput | Assets/Scripts/Core/Input/InputService.cs:221-225 | The new state is `DisableUI` of the old one, and only the UI map may change |
| CoreInput.InputService.Dispose | Assets/Scripts/Core/Input/InputService.cs:242-255 | With a PlayerInput, the service unsubscribes and destroys it. Without one, nothing happens |
| CoreInput.DisposeThenReceive | Assets/Scripts/Core/Input/InputService.cs:244-246 | After Dispose, a callback from the engine changes no state and fires no event |
| PlayerServices.ClampFov | Assets/Scripts/Player/Services/CameraService.cs:77-83 | The stored field of view lies in [30, 120], equals the request when it is in range, and is the nearest in-range value otherwise |
| PlayerServices.CameraHolder.constructor | Assets/Scripts/Player/Services/CameraService.cs:49-50 | A new holder is unparented, at the origin, unrotated |
| PlayerServices.CameraService.constructor | Assets/Scripts/Player/Services/CameraService.cs:14-36 | The default field of view is the main camera's own if one exists, else 60. No holder exists yet |
| PlayerServices.CameraService.SetFollowTarget | Assets/Scripts/Player/Services/CameraService.cs:38-67 | A null target changes nothing. Otherwise the holder is created only if none exists (else the same one is reused). It is parented to the target at (0, 1.6, 0), unrotated, and the camera is attached to it at zero offset |
| PlayerServices.CameraService.UpdateRotation | Assets/Scripts/Player/Services/CameraService.cs:69-75 | The holder's pitch becomes the given angle. With no holder, nothing happens |
| PlayerServices.CameraService.SetFieldOfView | Assets/Scripts/Player/Services/CameraService.cs:77-83 | The camera's field of view becomes the clamped request. With no camera, nothing happens |
| PlayerServices.CameraService.ResetCamera | Assets/Scripts/Player/Services/CameraService.cs:85-96 | The holder's pitch goes back to 0 and the field of view back to the default, each only if its object exists |
| PlayerServices.FollowTwice | Assets/Scripts/Player/Services/CameraService.cs:46-56 | Two follow calls use a single holder, left on the second target |
| Player.Pitch | Assets/Scripts/Player/PlayerController.cs:186-202 | A negligible look input (squared magnitude < 0.01) keeps the pitch. Otherwise the pitch lies in [-45, 45] and equals the moved pitch when that is within the limit. A moved pitch past the limit stops at exactly 45 or -45 |
| Player.PitchStaysClamped | Assets/Scripts/Player/PlayerController.cs:198-199 | Once within [-45, 45], the pitch stays there after any sequence of look inputs |
| Player.SpeedFor | Assets/Scripts/Player/PlayerController.cs:182 | The speed is the run speed iff running, and the walk speed iff not |
| Player.JumpSpeedScenario | Assets/Scripts/Player/PlayerController.cs:208 | With jump height 2 and gravity -19.62, the jump speed sqrt(78.48) lies in (8.85, 8.86) |
| Player.PlayerController.CurrentSpeed | Assets/Scripts/Player/PlayerController.cs:40-41 | The speed is the run speed iff the input service reports running, and the walk speed iff it does not. With no input service, IsRunning is false and the speed is the walk speed |
| Player.PlayerController.constructor | Assets/Scripts/Player/PlayerController.cs:27-56 | The injected services are kept. The controller starts unpaused, with zero pitch and velocity, not grounded, time scale 1 and no subscription |
| Player.PlayerController.OnEnable | Assets/Scripts/Player/PlayerController.cs:74-80 | The handlers are attached iff there is an input service. That service goes to gameplay mode, fires nothing, and keeps its PlayerInput, asset and subscription |
| Player.PlayerController.OnDisable | Assets/Scripts/Player/PlayerController.cs:82-87 | The handlers are detached, and input mode is left alone |
| Player.PlayerController.OnDestroy | Assets/Scripts/Player/PlayerController.cs:89-93 | The handlers are detached |
| Player.PlayerController.SubscribeToEvents | Assets/Scripts/Player/PlayerController.cs:118-134 | The handlers are attached iff there is an input service |
| Player.PlayerController.UnsubscribeFromEvents | Assets/Scripts/Player/PlayerController.cs:136-146 | No handler is attached afterwards |
| Player.PlayerController.Start | Assets/Scripts/Player/PlayerController.cs:110-116 | `Start` (PlayerController.cs:69-72) runs `InitializePlayer`. With a camera service, the holder (created only if none exists) is parented to the player's transform at head height, unrotated. The camera is attached to it at zero offset and keeps its field of view |
| Player.PlayerController.Update | Assets/Scripts/Player/PlayerController.cs:95-108 | While paused, nothing changes and no motion is requested. Otherwise grounding is refreshed, the speed is chosen, the pitch becomes `Pitch` of the look input, and gravity is integrated into the vertical velocity. A negligible or missing look input leaves the holder untouched. Otherwise the holder gets the new pitch and keeps its parent and offset |
| Player.PlayerController.HandleMovement | Assets/Scripts/Player/PlayerController.cs:164-184 | Motion is requested iff there is an input service, at the run speed iff that service reports running |
| Player.PlayerController.HandleRotation | Assets/Scripts/Player/PlayerController.cs:186-202 | The pitch becomes `Pitch` of the look input. A negligible input or a missing service leaves the camera untouched. Otherwise the pitch is within ±45, and the holder gets that same value and keeps its parent and offset |
| Player.PlayerController.ApplyGravity | Assets/Scripts/Player/PlayerController.cs:240-244 | The vertical velocity grows by gravity times the frame time |
| Player.PlayerController.HandleJump | Assets/Scripts/Player/PlayerController.cs:204-211 | The vertical velocity becomes the jump speed only when grounded and not paused. Otherwise it is unchanged |
| Player.PlayerController.OnRunStarted | Assets/Scripts/Player/PlayerController.cs:213-219 | The camera's field of view becomes 70, and its parent, offset and pitch are kept. The holder is untouched. With no camera service, nothing happens |
| Player.PlayerController.OnRunCanceled | Assets/Scripts/Player/PlayerController.cs:221-227 | The camera's field of view becomes 60, and its parent, offset and pitch are kept. The holder is untouched. With no camera service, nothing happens |
| Player.PlayerController.OnMenuPressed | Assets/Scripts/Player/PlayerController.cs:229-232 | A menu press toggles pause, with the effects of TogglePause. The input service keeps its PlayerInput, asset and subscription |
| Player.PlayerController.TogglePause | Assets/Scripts/Player/PlayerController.cs:246-262 | The paused flag flips. Pausing puts the input service in UI mode and sets time scale 0. Resuming puts it in gameplay mode and sets time scale 1. No input event fires, and the service keeps its PlayerInput, asset and subscription |
| Player.PlayerController.ResetPosition | Assets/Scripts/Player/PlayerController.cs:272-280 | The player is at the given position, the vertical velocity and pitch are zero, the holder's pitch is 0 and the camera's field of view is the default. The holder keeps its parent and offset, and the camera keeps its parent, offset and pitch |
| Player.PlayerController.Deliver | Assets/Scripts/Player/PlayerController.cs:118-134 | Only while subscribed does a handler run. JumpPressed runs the jump guard and changes nothing else. RunStarted/RunCanceled request field of view 70/60 and change nothing else. MenuPressed has TogglePause's effects on the flag, time scale and input mode, and leaves velocity and camera alone. JumpReleased and InteractPressed change nothing |
| Player.MenuPressedTwice | Assets/Scripts/Player/PlayerController.cs:246-262 | Two menu presses from unpaused play restore the paused flag and time scale 1, and leave the input service in gameplay mode with its subscription kept |
| Player.MenuCallbacksPauseAndResume | Assets/Scripts/Player/PlayerController.cs:229-262 | Two "Menu" callbacks, each received by the subscribed service and delivered to the subscribed controller, pause and then resume. The service stays subscribed while paused, logs two MenuPressed events, and ends in gameplay mode |

## Left out

- `EnableAllInput`/`DisableAllInput` (InputService.cs:227-235) call the engine's `PlayerInput.ActivateInput`/`DeactivateInput`. The engine then enables or disables the PlayerInput's current or default map, here "Player" (InputService.cs:65). So after `EnableAllInput` in UI mode both maps may be enabled. That engine behaviour is not modelled, and the gameplay/UI exclusion is proved only for the four map operations and callbacks. `GetPlayerInput` only returns the engine object and is not modelled either.
- In the code the controller's handlers run synchronously inside `OnActionTriggered`, so a "Menu"/"Pause" callback switches maps and cursor before the callback returns. The model splits this into `InputService.Receive`, which logs the event, followed by `PlayerController.Deliver`, which runs the handler.
- The installers (ProjectInstaller.cs, PlayerInstaller.cs) are dependency-injection wiring and scene lookup, and are not part of this model. Injection is the constructors' parameters.
- PlayerMovementConfig.cs is plain data. Its defaults are the constants of module Player (walk 5, run 10, jump height 2, gravity -19.62, sensitivity 2, pitch limit 45).
- Floating point: every float is a `real`, so there is no rounding. Gravity integration in `ApplyGravity` is exact real arithmetic.
- The jump speed `Mathf.Sqrt(jumpHeight * -2 * gravity)` is the constant `jumpSpeed`. The constructor requires it to be the non-negative square root.
- Physics and motion:
  - `Physics.CheckSphere` grounding is the `grounded` parameter of `Update`.
  - `Vector2.SmoothDamp` smoothing and the `CharacterController.Move` displacement are not modelled. `Update` returns the requested speed instead, so in the model the player's position changes only through `ResetPosition`.
  - The `IsMoving` property (smoothed input magnitude) is not modelled.
- Rotation:
  - The yaw rotation `_transform.Rotate` is not modelled.
  - Quaternions are modelled as a pitch angle with identity 0. `Quaternion.Euler(x, 0, 0)` also equals identity for x a multiple of 360, and the model does not capture that.
- Engine objects: GameObject creation and destruction, `DontDestroyOnLoad` and `Resources.Load` are not modelled. The loaded asset is a parameter, and destroying the PlayerInput object is a flag.
- `CameraTransform` (CameraService.cs:16) is a plain getter and is not modelled.
- `SetMovementEnabled` (PlayerController.cs:282-285) only sets the engine's `enabled` flag, whose effect is Unity's OnEnable/OnDisable lifecycle. It is not modelled.
- Unity lifecycle ordering is not modelled (Awake, Start, OnEnable, OnDisable and OnDestroy are separate methods the caller invokes). Controller subscription is a flag, not a count of attached delegates, so subscribing twice without unsubscribing is not modelled.
- Multicast handler order is not modelled. Events are a log of event kinds, and one controller is the only subscriber.
- Whether the engine delivers callbacks for actions of disabled maps is not modelled. `Receive` is gated only by the subscription.
- `Debug.Log` output and `ShowDebugInfo` ray drawing are not modelled.
- `Time.timeScale` is a field of the controller, its only writer. `Time.deltaTime` is a parameter.
- The cursor globals start as the constructor's arguments, since they are engine state.
- The [30, 120] field-of-view bound holds only right after `SetFieldOfView`. `ResetCamera` restores the camera's initial field of view, which need not lie in [30, 120], so no invariant keeps the field of view in range.
