/**
  The global input service (Assets/Scripts/Core/Input/InputService.cs).

  The service owns two action maps ("Player", the gameplay map, and "UI"), writes the
  engine's cursor globals, caches the latest sampled inputs (MoveInput, LookInput,
  IsJumping, IsRunning) and turns the engine's `onActionTriggered` callbacks into
  discrete events. The value layer below (Cache, Snapshot, Dispatch and the map
  operations) is the specification; class InputService is proved against it.
 */
module CoreInput {

  /** UnityEngine.Vector2, with its float components taken as reals. */
  datatype Vec2 = Vec2(x: real, y: real)

  const Zero: Vec2 := Vec2(0.0, 0.0)

  /** The phase of an action callback (InputActionPhase); `started`, `performed` and
      `canceled` on the callback context are tests of this phase. */
  datatype Phase = Disabled | Waiting | Started | Performed | Canceled

  /** One `onActionTriggered` callback: the action's name, its phase, and the Vector2
      that `ReadValue` would return (used only by "Move" and "Look"). */
  datatype Callback = Callback(action: string, phase: Phase, value: Vec2)

  /** The six events the service exposes. */
  datatype InputEvent = JumpPressed | JumpReleased | RunStarted | RunCanceled | MenuPressed | InteractPressed

  /** The handler the switch in `OnActionTriggered` selects. */
  datatype Handler = MoveHandler | LookHandler | JumpHandler | RunHandler | MenuHandler | InteractHandler | NoHandler

  /** The switch on the action's name; an unrecognised name selects no handler. */
  function Route(name: string): Handler {
    match name
    case "Move" => MoveHandler
    case "Look" => LookHandler
    case "Jump" => JumpHandler
    case "Run" => RunHandler
    case "Sprint" => RunHandler
    case "Menu" => MenuHandler
    case "Pause" => MenuHandler
    case "Interact" => InteractHandler
    case _ => NoHandler
  }

  /** Event by event, the callbacks that event is fired for: the reference the router is checked against. */
  predicate Triggers(cb: Callback, e: InputEvent) {
    match e
    case JumpPressed => cb.action == "Jump" && cb.phase == Performed
    case JumpReleased => cb.action == "Jump" && cb.phase == Canceled
    case RunStarted => (cb.action == "Run" || cb.action == "Sprint") && (cb.phase == Started || cb.phase == Performed)
    case RunCanceled => (cb.action == "Run" || cb.action == "Sprint") && cb.phase == Canceled
    case MenuPressed => (cb.action == "Menu" || cb.action == "Pause") && cb.phase == Performed
    case InteractPressed => cb.action == "Interact" && cb.phase == Performed
  }

  /** The cached input state: MoveInput, LookInput, IsJumping, IsRunning. */
  datatype Cache = Cache(move: Vec2, look: Vec2, jumping: bool, running: bool)

  /** The cache as a fresh service has it, and as DisableGameplayInput leaves it. */
  const Cleared: Cache := Cache(Zero, Zero, false, false)

  /** `OnActionTriggered` with its `Handle*Input` handlers: the new cache and the events fired.
      Each callback fires at most one event, exactly the events it triggers, and each cached
      value is changed only by its own action. */
  function Dispatch(c: Cache, cb: Callback): (r: (Cache, seq<InputEvent>))
    ensures |r.1| <= 1
    ensures forall e :: e in r.1 <==> Triggers(cb, e)
    ensures r.0.move != c.move ==> Route(cb.action) == MoveHandler
    ensures r.0.look != c.look ==> Route(cb.action) == LookHandler
    ensures r.0.jumping != c.jumping ==> Route(cb.action) == JumpHandler
    ensures r.0.running != c.running ==> Route(cb.action) == RunHandler
    ensures Route(cb.action) == NoHandler ==> r == (c, [])
  {
    match Route(cb.action)
    case MoveHandler => (c.(move := cb.value), [])
    case LookHandler => (c.(look := cb.value), [])
    case JumpHandler =>
      if cb.phase == Performed then (c.(jumping := true), [JumpPressed])
      else if cb.phase == Canceled then (c.(jumping := false), [JumpReleased])
      else (c, [])
    case RunHandler =>
      if cb.phase == Started || cb.phase == Performed then (c.(running := true), [RunStarted])
      else if cb.phase == Canceled then (c.(running := false), [RunCanceled])
      else (c, [])
    case MenuHandler => (c, if cb.phase == Performed then [MenuPressed] else [])
    case InteractHandler => (c, if cb.phase == Performed then [InteractPressed] else [])
    case NoHandler => (c, [])
  }

  /** A "Move" or "Look" sample overwrites its vector in every phase; nothing else changes and nothing fires. */
  lemma VectorSampleOverwrites(c: Cache, cb: Callback)
    ensures Route(cb.action) == MoveHandler ==> Dispatch(c, cb) == (c.(move := cb.value), [])
    ensures Route(cb.action) == LookHandler ==> Dispatch(c, cb) == (c.(look := cb.value), [])
  {
  }

  /** "Jump": performed presses, canceled releases, any other phase does nothing. */
  lemma JumpEdges(c: Cache, cb: Callback)
    requires cb.action == "Jump"
    ensures cb.phase == Performed ==> Dispatch(c, cb) == (c.(jumping := true), [JumpPressed])
    ensures cb.phase == Canceled ==> Dispatch(c, cb) == (c.(jumping := false), [JumpReleased])
    ensures cb.phase != Performed && cb.phase != Canceled ==> Dispatch(c, cb) == (c, [])
  {
  }

  /** "Run"/"Sprint": started or performed sets running and fires RunStarted, canceled clears it. */
  lemma RunEdges(c: Cache, cb: Callback)
    requires cb.action == "Run" || cb.action == "Sprint"
    ensures cb.phase == Started || cb.phase == Performed ==> Dispatch(c, cb) == (c.(running := true), [RunStarted])
    ensures cb.phase == Canceled ==> Dispatch(c, cb) == (c.(running := false), [RunCanceled])
    ensures cb.phase == Disabled || cb.phase == Waiting ==> Dispatch(c, cb) == (c, [])
  {
  }

  /** "Menu"/"Pause" and "Interact" never touch the cache; performed fires their own event only. */
  lemma ButtonsOnlyFire(c: Cache, cb: Callback)
    requires Route(cb.action) == MenuHandler || Route(cb.action) == InteractHandler
    ensures Dispatch(c, cb).0 == c
    ensures cb.phase == Performed ==> Dispatch(c, cb).1 == [if Route(cb.action) == MenuHandler then MenuPressed else InteractPressed]
    ensures cb.phase != Performed ==> Dispatch(c, cb).1 == []
  {
  }

  /** The cache and the log of fired events after a sequence of callbacks, in order. */
  function Run(c: Cache, cbs: seq<Callback>): (r: (Cache, seq<InputEvent>))
    ensures |r.1| <= |cbs|
    decreases |cbs|
  {
    if cbs == [] then (c, [])
    else
      var before := Run(c, cbs[..|cbs| - 1]);
      var step := Dispatch(before.0, cbs[|cbs| - 1]);
      (step.0, before.1 + step.1)
  }

  /** A press reported as started and then performed fires RunStarted twice. */
  lemma RunPressFiresTwice(c: Cache, name: string, v: Vec2)
    requires name == "Run" || name == "Sprint"
    ensures Run(c, [Callback(name, Started, v), Callback(name, Performed, v)]).1 == [RunStarted, RunStarted]
  {
  }

  /** The value of the latest callback routed to `h`, or `init` when there is none. */
  function LatestValue(init: Vec2, cbs: seq<Callback>, h: Handler): Vec2
    decreases |cbs|
  {
    if cbs == [] then init
    else if Route(cbs[|cbs| - 1].action) == h then cbs[|cbs| - 1].value
    else LatestValue(init, cbs[..|cbs| - 1], h)
  }

  /** Whether a button is held: the latest callback that triggers its press or its release
      decides, and with neither the flag keeps `init`. */
  function Held(init: bool, cbs: seq<Callback>, press: InputEvent, release: InputEvent): bool
    decreases |cbs|
  {
    if cbs == [] then init
    else if Triggers(cbs[|cbs| - 1], press) then true
    else if Triggers(cbs[|cbs| - 1], release) then false
    else Held(init, cbs[..|cbs| - 1], press, release)
  }

  /** After any sequence of callbacks, MoveInput and LookInput are the latest samples, and
      IsJumping and IsRunning follow the latest press or release of their button. */
  lemma {:induction false} RunCache(c: Cache, cbs: seq<Callback>)
    ensures Run(c, cbs).0 == Cache(LatestValue(c.move, cbs, MoveHandler),
                                   LatestValue(c.look, cbs, LookHandler),
                                   Held(c.jumping, cbs, JumpPressed, JumpReleased),
                                   Held(c.running, cbs, RunStarted, RunCanceled))
    decreases |cbs|
  {
    if cbs != [] {
      RunCache(c, cbs[..|cbs| - 1]);
    }
  }

  /** Occurrences of `e` in an event log. */
  function Count(es: seq<InputEvent>, e: InputEvent): nat
    decreases |es|
  {
    if es == [] then 0 else (if es[0] == e then 1 else 0) + Count(es[1..], e)
  }

  lemma {:induction false} CountAppend(a: seq<InputEvent>, b: seq<InputEvent>, e: InputEvent)
    ensures Count(a + b, e) == Count(a, e) + Count(b, e)
    decreases |a|
  {
    if a == [] {
      assert a + b == b;
    } else {
      assert (a + b)[1..] == a[1..] + b;
      CountAppend(a[1..], b, e);
    }
  }

  /** How many callbacks of a sequence trigger `e`. */
  function Occurrences(cbs: seq<Callback>, e: InputEvent): nat
    decreases |cbs|
  {
    if cbs == [] then 0
    else Occurrences(cbs[..|cbs| - 1], e) + (if Triggers(cbs[|cbs| - 1], e) then 1 else 0)
  }

  /** Every event fires exactly once per callback that triggers it: one JumpPressed per
      performed "Jump", one JumpReleased per canceled "Jump", and so on, never more. */
  lemma {:induction false} EventsMatchCallbacks(c: Cache, cbs: seq<Callback>, e: InputEvent)
    ensures Count(Run(c, cbs).1, e) == Occurrences(cbs, e)
    decreases |cbs|
  {
    if cbs != [] {
      var before := Run(c, cbs[..|cbs| - 1]);
      var step := Dispatch(before.0, cbs[|cbs| - 1]);
      EventsMatchCallbacks(c, cbs[..|cbs| - 1], e);
      CountAppend(before.1, step.1, e);
      if step.1 != [] {
        assert step.1 == [step.1[0]];
        assert Count(step.1, e) == if step.1[0] == e then 1 else 0;
      }
    }
  }

  /** An action map as the service holds it: null, or a map with its enabled flag. */
  datatype ActionMap = Absent | Present(enabled: bool)

  /** `map?.Enable()`: a missing map stays missing. */
  function Enable(m: ActionMap): ActionMap {
    if m.Present? then Present(true) else Absent
  }

  /** `map?.Disable()`. */
  function Disable(m: ActionMap): ActionMap {
    if m.Present? then Present(false) else Absent
  }

  predicate IsOn(m: ActionMap) {
    m == Present(true)
  }

  /** Everything the mode operations read or write: both maps, the cursor globals
      (`Cursor.lockState == Locked`, `Cursor.visible`) and the cached inputs. */
  datatype Snapshot = Snapshot(gameplay: ActionMap, ui: ActionMap, cursorLocked: bool, cursorVisible: bool, cache: Cache)

  /** The gameplay and UI maps are not both enabled. */
  predicate Exclusive(s: Snapshot) {
    !(IsOn(s.gameplay) && IsOn(s.ui))
  }

  /** EnableGameplayInput: gameplay on (if it exists), UI off, cursor locked and hidden, cache kept. */
  function EnableGameplay(s: Snapshot): (r: Snapshot)
    ensures r.gameplay.Present? == s.gameplay.Present? && r.ui.Present? == s.ui.Present?
    ensures IsOn(r.gameplay) == s.gameplay.Present?
    ensures !IsOn(r.ui)
    ensures r.cursorLocked && !r.cursorVisible
    ensures r.cache == s.cache
  {
    s.(gameplay := Enable(s.gameplay), ui := Disable(s.ui), cursorLocked := true, cursorVisible := false)
  }

  /** DisableGameplayInput: gameplay off and the cache cleared, whatever it held; nothing else changes. */
  function DisableGameplay(s: Snapshot): (r: Snapshot)
    ensures r.gameplay.Present? == s.gameplay.Present? && !IsOn(r.gameplay)
    ensures r.cache == Cleared
    ensures r.(gameplay := s.gameplay, cache := s.cache) == s
  {
    s.(gameplay := Disable(s.gameplay), cache := Cleared)
  }

  /** EnableUIInput: UI on (if it exists), gameplay off, cursor unlocked and shown, cache kept. */
  function EnableUI(s: Snapshot): (r: Snapshot)
    ensures r.gameplay.Present? == s.gameplay.Present? && r.ui.Present? == s.ui.Present?
    ensures IsOn(r.ui) == s.ui.Present?
    ensures !IsOn(r.gameplay)
    ensures !r.cursorLocked && r.cursorVisible
    ensures r.cache == s.cache
  {
    s.(ui := Enable(s.ui), gameplay := Disable(s.gameplay), cursorLocked := false, cursorVisible := true)
  }

  /** DisableUIInput: UI off; nothing else changes. */
  function DisableUI(s: Snapshot): (r: Snapshot)
    ensures r.ui.Present? == s.ui.Present? && !IsOn(r.ui)
    ensures r.(ui := s.ui) == s
  {
    s.(ui := Disable(s.ui))
  }

  /** What a caller can do to the service: the four mode operations, or the engine delivering a callback. */
  datatype Command = EnableGameplayInput | DisableGameplayInput | EnableUIInput | DisableUIInput | Deliver(cb: Callback)

  function Apply(s: Snapshot, cmd: Command): Snapshot {
    match cmd
    case EnableGameplayInput => EnableGameplay(s)
    case DisableGameplayInput => DisableGameplay(s)
    case EnableUIInput => EnableUI(s)
    case DisableUIInput => DisableUI(s)
    case Deliver(cb) => s.(cache := Dispatch(s.cache, cb).0)
  }

  function ApplyAll(s: Snapshot, cmds: seq<Command>): Snapshot
    decreases |cmds|
  {
    if cmds == [] then s else ApplyAll(Apply(s, cmds[0]), cmds[1..])
  }

  /** No sequence of mode operations and callbacks leaves both maps enabled, once they are not. */
  lemma {:induction false} ExclusionKept(s: Snapshot, cmds: seq<Command>)
    requires Exclusive(s)
    ensures Exclusive(ApplyAll(s, cmds))
    decreases |cmds|
  {
    if cmds != [] {
      ExclusionKept(Apply(s, cmds[0]), cmds[1..]);
    }
  }

  /** Enabling and disabling never create or lose a map: a missing map stays missing. */
  lemma {:induction false} MapsKeepPresence(s: Snapshot, cmds: seq<Command>)
    ensures ApplyAll(s, cmds).gameplay.Present? == s.gameplay.Present?
    ensures ApplyAll(s, cmds).ui.Present? == s.ui.Present?
    decreases |cmds|
  {
    if cmds != [] {
      MapsKeepPresence(Apply(s, cmds[0]), cmds[1..]);
    }
  }

  /** The Input Actions asset as `Resources.Load` finds it: missing, or loaded with or
      without each of the "Player" and "UI" maps. */
  datatype ActionAsset = Missing | Loaded(hasPlayerMap: bool, hasUIMap: bool)

  /** `FindActionMap`: a map the asset has is found, not yet enabled. */
  function Find(found: bool): ActionMap {
    if found then Present(false) else Absent
  }

  /** SetupActionMaps followed by EnableGameplayInput, as Initialize runs them. With the asset
      missing the maps are left as they were; otherwise each is found or null. Either way the
      service ends in gameplay mode. */
  function Initialized(s: Snapshot, asset: ActionAsset): (r: Snapshot)
    ensures Exclusive(r)
    ensures r.gameplay.Present? == (if asset.Loaded? then asset.hasPlayerMap else s.gameplay.Present?)
    ensures r.ui.Present? == (if asset.Loaded? then asset.hasUIMap else s.ui.Present?)
    ensures IsOn(r.gameplay) == r.gameplay.Present?
    ensures !IsOn(r.ui)
    ensures r.cursorLocked && !r.cursorVisible && r.cache == s.cache
  {
    var found := if asset.Loaded? then s.(gameplay := Find(asset.hasPlayerMap), ui := Find(asset.hasUIMap)) else s;
    EnableGameplay(found)
  }

  /** From the state Initialize leaves, nothing callers or the engine do enables both maps. */
  lemma InitializedStaysExclusive(s: Snapshot, asset: ActionAsset, cmds: seq<Command>)
    ensures Exclusive(ApplyAll(Initialized(s, asset), cmds))
  {
    ExclusionKept(Initialized(s, asset), cmds);
  }

  /** With the asset missing, a fresh service keeps both maps null through every later call. */
  lemma MissingAssetKeepsMapsNull(s: Snapshot, cmds: seq<Command>)
    requires s.gameplay == Absent && s.ui == Absent
    ensures ApplyAll(Initialized(s, Missing), cmds).gameplay == Absent
    ensures ApplyAll(Initialized(s, Missing), cmds).ui == Absent
  {
    MapsKeepPresence(Initialized(s, Missing), cmds);
  }

  /** The service object. Its fields mirror the source's: the two maps, the cursor globals
      it writes, the four cached inputs, whether its PlayerInput exists, is subscribed to and
      has been destroyed, and the loaded asset. `fired` logs every event invoked, in order. */
  class InputService {
    var actions: ActionAsset
    var gameplayMap: ActionMap
    var uiMap: ActionMap
    var cursorLocked: bool
    var cursorVisible: bool
    var moveInput: Vec2
    var lookInput: Vec2
    var isJumping: bool
    var isRunning: bool
    var fired: seq<InputEvent>
    var hasPlayerInput: bool
    var subscribed: bool
    var playerInputDestroyed: bool

    function State(): Snapshot
      reads this
    {
      Snapshot(gameplayMap, uiMap, cursorLocked, cursorVisible, Cache(moveInput, lookInput, isJumping, isRunning))
    }

    /** The PlayerInput's wiring: the loaded asset, and whether the PlayerInput exists, is
        subscribed to and has been destroyed. The map and cursor operations leave it alone. */
    function Wiring(): (ActionAsset, bool, bool, bool)
      reads this
    {
      (actions, hasPlayerInput, subscribed, playerInputDestroyed)
    }

    /** A service before Initialize: no PlayerInput, no maps, zero inputs; the cursor is as the engine has it. */
    constructor (cursorLocked: bool, cursorVisible: bool)
      ensures State() == Snapshot(Absent, Absent, cursorLocked, cursorVisible, Cleared)
      ensures actions == Missing && fired == [] && !hasPlayerInput && !subscribed && !playerInputDestroyed
    {
      actions := Missing;
      gameplayMap, uiMap := Absent, Absent;
      this.cursorLocked, this.cursorVisible := cursorLocked, cursorVisible;
      moveInput, lookInput := Zero, Zero;
      isJumping, isRunning := false, false;
      fired := [];
      hasPlayerInput, subscribed, playerInputDestroyed := false, false, false;
    }

    /** Creates the PlayerInput, finds the maps, subscribes, and enables gameplay input. */
    method Initialize(asset: ActionAsset)
      modifies this
      ensures State() == Initialized(old(State()), asset)
      ensures Exclusive(State())
      ensures actions == asset && fired == old(fired)
      ensures hasPlayerInput && subscribed && !playerInputDestroyed
    {
      CreatePlayerInput(asset);
      SetupActionMaps();
      SubscribeToEvents();
      EnableGameplayInput();
    }

    /** A new PlayerInput object always exists afterwards; the asset may be missing. */
    method CreatePlayerInput(asset: ActionAsset)
      modifies this`hasPlayerInput, this`playerInputDestroyed, this`actions
      ensures hasPlayerInput && !playerInputDestroyed && actions == asset
    {
      hasPlayerInput, playerInputDestroyed := true, false;
      actions := asset;
    }

    /** With no asset the maps are left untouched; otherwise each is looked up by name. */
    method SetupActionMaps()
      modifies this`gameplayMap, this`uiMap
      ensures actions.Missing? ==> gameplayMap == old(gameplayMap) && uiMap == old(uiMap)
      ensures actions.Loaded? ==> gameplayMap == Find(actions.hasPlayerMap) && uiMap == Find(actions.hasUIMap)
    {
      if actions.Missing? {
        return;
      }
      gameplayMap := Find(actions.hasPlayerMap);
      uiMap := Find(actions.hasUIMap);
    }

    method SubscribeToEvents()
      modifies this`subscribed
      ensures subscribed == (old(subscribed) || hasPlayerInput)
    {
      if !hasPlayerInput {
        return;
      }
      subscribed := true;
    }

    /** The engine raising `onActionTriggered`: the handler runs only while subscribed. */
    method Receive(cb: Callback)
      modifies this`moveInput, this`lookInput, this`isJumping, this`isRunning, this`fired
      ensures old(subscribed) ==> State() == old(State()).(cache := Dispatch(old(State()).cache, cb).0)
      ensures old(subscribed) ==> fired == old(fired) + Dispatch(old(State()).cache, cb).1
      ensures !old(subscribed) ==> State() == old(State()) && fired == old(fired)
    {
      if subscribed {
        OnActionTriggered(cb);
      }
    }

    /** Routes a callback by action name; unrecognised names are ignored. */
    method OnActionTriggered(cb: Callback)
      modifies this`moveInput, this`lookInput, this`isJumping, this`isRunning, this`fired
      ensures State() == old(State()).(cache := Dispatch(old(State()).cache, cb).0)
      ensures fired == old(fired) + Dispatch(old(State()).cache, cb).1
    {
      match cb.action
      case "Move" => HandleMoveInput(cb);
      case "Look" => HandleLookInput(cb);
      case "Jump" => HandleJumpInput(cb);
      case "Run" => HandleRunInput(cb);
      case "Sprint" => HandleRunInput(cb);
      case "Menu" => HandleMenuInput(cb);
      case "Pause" => HandleMenuInput(cb);
      case "Interact" => HandleInteractInput(cb);
      case _ =>
    }

    method HandleMoveInput(cb: Callback)
      modifies this`moveInput
      ensures moveInput == cb.value
    {
      moveInput := cb.value;
    }

    method HandleLookInput(cb: Callback)
      modifies this`lookInput
      ensures lookInput == cb.value
    {
      lookInput := cb.value;
    }

    method HandleJumpInput(cb: Callback)
      modifies this`isJumping, this`fired
      ensures cb.phase == Performed ==> isJumping && fired == old(fired) + [JumpPressed]
      ensures cb.phase == Canceled ==> !isJumping && fired == old(fired) + [JumpReleased]
      ensures cb.phase != Performed && cb.phase != Canceled ==> isJumping == old(isJumping) && fired == old(fired)
    {
      if cb.phase == Performed {
        isJumping := true;
        fired := fired + [JumpPressed];
      } else if cb.phase == Canceled {
        isJumping := false;
        fired := fired + [JumpReleased];
      }
    }

    method HandleRunInput(cb: Callback)
      modifies this`isRunning, this`fired
      ensures cb.phase == Started || cb.phase == Performed ==> isRunning && fired == old(fired) + [RunStarted]
      ensures cb.phase == Canceled ==> !isRunning && fired == old(fired) + [RunCanceled]
      ensures cb.phase == Disabled || cb.phase == Waiting ==> isRunning == old(isRunning) && fired == old(fired)
    {
      if cb.phase == Started || cb.phase == Performed {
        isRunning := true;
        fired := fired + [RunStarted];
      } else if cb.phase == Canceled {
        isRunning := false;
        fired := fired + [RunCanceled];
      }
    }

    method HandleMenuInput(cb: Callback)
      modifies this`fired
      ensures fired == old(fired) + (if cb.phase == Performed then [MenuPressed] else [])
    {
      if cb.phase == Performed {
        fired := fired + [MenuPressed];
      }
    }

    method HandleInteractInput(cb: Callback)
      modifies this`fired
      ensures fired == old(fired) + (if cb.phase == Performed then [InteractPressed] else [])
    {
      if cb.phase == Performed {
        fired := fired + [InteractPressed];
      }
    }

    method EnableGameplayInput()
      modifies this`gameplayMap, this`uiMap, this`cursorLocked, this`cursorVisible
      ensures State() == EnableGameplay(old(State()))
    {
      gameplayMap := Enable(gameplayMap);
      uiMap := Disable(uiMap);
      cursorLocked := true;
      cursorVisible := false;
    }

    method DisableGameplayInput()
      modifies this`gameplayMap, this`moveInput, this`lookInput, this`isJumping, this`isRunning
      ensures State() == DisableGameplay(old(State()))
    {
      gameplayMap := Disable(gameplayMap);
      moveInput := Zero;
      lookInput := Zero;
      isJumping := false;
      isRunning := false;
    }

    method EnableUIInput()
      modifies this`gameplayMap, this`uiMap, this`cursorLocked, this`cursorVisible
      ensures State() == EnableUI(old(State()))
    {
      uiMap := Enable(uiMap);
      gameplayMap := Disable(gameplayMap);
      cursorLocked := false;
      cursorVisible := true;
    }

    method DisableUIInput()
      modifies this`uiMap
      ensures State() == DisableUI(old(State()))
    {
      uiMap := Disable(uiMap);
    }

    /** Unsubscribes from the PlayerInput and destroys its object, if there is one. */
    method Dispose()
      modifies this`subscribed, this`playerInputDestroyed
      ensures hasPlayerInput ==> !subscribed && playerInputDestroyed
      ensures !hasPlayerInput ==> subscribed == old(subscribed) && playerInputDestroyed == old(playerInputDestroyed)
    {
      if hasPlayerInput {
        subscribed := false;
        playerInputDestroyed := true;
      }
    }
  }

  /** After Dispose, callbacks from the engine no longer reach the service. */
  method DisposeThenReceive(svc: InputService, cb: Callback)
    requires svc.hasPlayerInput
    modifies svc
    ensures svc.State() == old(svc.State()) && svc.fired == old(svc.fired)
  {
    svc.Dispose();
    svc.Receive(cb);
  }
}
