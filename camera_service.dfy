/**
  The first-person camera service (Assets/Scripts/Player/Services/CameraService.cs).

  The service holds the scene's main camera (or null), a camera holder that it creates
  lazily and parents to a follow target, and the field of view captured at construction.
  Rotations are modelled by their pitch angle, identity being 0.
 */
module PlayerServices {
  import opened Mathf

  /** UnityEngine.Vector3, with its float components taken as reals. */
  datatype Vec3 = Vec3(x: real, y: real, z: real)

  const Origin: Vec3 := Vec3(0.0, 0.0, 0.0)

  /** Head height at which the holder sits above its target. */
  const HeadOffset: Vec3 := Vec3(0.0, 1.6, 0.0)

  const MinFov: real := 30.0
  const MaxFov: real := 120.0

  /** The default field of view when no main camera is found. */
  const FallbackFov: real := 60.0

  /** A scene object's Transform, such as the player's; only its identity and position matter here. */
  class Transform {
    var position: Vec3

    constructor (position: Vec3)
      ensures this.position == position
    {
      this.position := position;
    }
  }

  /** The main camera: its field of view, and its own transform's parent, offset and pitch. */
  class Camera {
    var fieldOfView: real
    var parent: CameraHolder?
    var localPosition: Vec3
    var localPitch: real

    constructor (fieldOfView: real)
      ensures this.fieldOfView == fieldOfView && parent == null
    {
      this.fieldOfView := fieldOfView;
      parent := null;
      localPosition := Origin;
      localPitch := 0.0;
    }
  }

  /** The "CameraHolder" object: a new GameObject sits at the origin, unparented, unrotated. */
  class CameraHolder {
    var parent: Transform?
    var localPosition: Vec3
    var localPitch: real

    constructor ()
      ensures parent == null && localPosition == Origin && localPitch == 0.0
    {
      parent := null;
      localPosition := Origin;
      localPitch := 0.0;
    }
  }

  /** The field of view SetFieldOfView stores: the requested one, clamped to [30, 120]. */
  function ClampFov(fov: real): (r: real)
    ensures MinFov <= r <= MaxFov
    ensures MinFov <= fov <= MaxFov ==> r == fov
    ensures forall f :: MinFov <= f <= MaxFov ==> Distance(r, fov) <= Distance(f, fov)
  {
    Clamp(fov, MinFov, MaxFov)
  }

  class CameraService {
    const mainCamera: Camera?
    var holder: CameraHolder?
    const defaultFOV: real

    /** The objects the service may change: itself, its camera and its holder. */
    ghost function Objects(): set<object>
      reads this
    {
      {this} + (if mainCamera == null then {} else {mainCamera}) + (if holder == null then {} else {holder})
    }

    /** InitializeCamera: the default field of view is the camera's own when `Camera.main`
        exists, 60 otherwise. */
    constructor (sceneCamera: Camera?)
      ensures mainCamera == sceneCamera && holder == null
      ensures defaultFOV == if sceneCamera == null then FallbackFov else sceneCamera.fieldOfView
    {
      mainCamera := sceneCamera;
      holder := null;
      defaultFOV := if sceneCamera == null then FallbackFov else sceneCamera.fieldOfView;
    }

    /** Parents the holder, created on first use only, to `target` at head height and unrotated,
        and attaches the camera to it. A null target changes nothing. */
    method SetFollowTarget(target: Transform?)
      modifies this`holder, holder, mainCamera
      ensures target == null ==> holder == old(holder)
      ensures target == null && holder != null ==> unchanged(holder)
      ensures target == null && mainCamera != null ==> unchanged(mainCamera)
      ensures target != null ==> holder != null
      ensures target != null && old(holder) != null ==> holder == old(holder)
      ensures target != null && old(holder) == null ==> fresh(holder)
      ensures target != null ==> holder.parent == target && holder.localPosition == HeadOffset && holder.localPitch == 0.0
      ensures target != null && mainCamera != null ==>
        mainCamera.parent == holder && mainCamera.localPosition == Origin && mainCamera.localPitch == 0.0
        && mainCamera.fieldOfView == old(mainCamera.fieldOfView)
    {
      if target == null {
        return;
      }
      if holder == null {
        holder := new CameraHolder();
      }
      holder.parent := target;
      holder.localPosition := HeadOffset;
      holder.localPitch := 0.0;
      if mainCamera != null {
        mainCamera.parent := holder;
        mainCamera.localPosition := Origin;
        mainCamera.localPitch := 0.0;
      }
    }

    /** Sets the holder's pitch; without a holder it does nothing. */
    method UpdateRotation(xRotation: real)
      modifies holder
      ensures holder != null ==>
        (holder.localPitch == xRotation && holder.parent == old(holder.parent) && holder.localPosition == old(holder.localPosition))
    {
      if holder != null {
        holder.localPitch := xRotation;
      }
    }

    /** Stores the requested field of view clamped to [30, 120]; without a camera it does nothing. */
    method SetFieldOfView(fov: real)
      modifies mainCamera
      ensures mainCamera != null ==>
        (mainCamera.fieldOfView == ClampFov(fov) && mainCamera.parent == old(mainCamera.parent)
         && mainCamera.localPosition == old(mainCamera.localPosition) && mainCamera.localPitch == old(mainCamera.localPitch))
    {
      if mainCamera != null {
        mainCamera.fieldOfView := ClampFov(fov);
      }
    }

    /** Returns the holder to no pitch and the camera to the default field of view, each only if it exists. */
    method ResetCamera()
      modifies holder, mainCamera
      ensures holder != null ==>
        (holder.localPitch == 0.0 && holder.parent == old(holder.parent) && holder.localPosition == old(holder.localPosition))
      ensures mainCamera != null ==>
        (mainCamera.fieldOfView == defaultFOV && mainCamera.parent == old(mainCamera.parent)
         && mainCamera.localPosition == old(mainCamera.localPosition) && mainCamera.localPitch == old(mainCamera.localPitch))
    {
      if holder != null {
        holder.localPitch := 0.0;
      }
      if mainCamera != null {
        mainCamera.fieldOfView := defaultFOV;
      }
    }
  }

  /** Following two targets in turn uses a single holder, left on the second target. */
  method FollowTwice(cs: CameraService, first: Transform, second: Transform)
    modifies cs, cs.holder, cs.mainCamera
    ensures cs.holder != null && cs.holder.parent == second
    ensures old(cs.holder) != null ==> cs.holder == old(cs.holder)
  {
    cs.SetFollowTarget(first);
    ghost var h := cs.holder;
    cs.SetFollowTarget(second);
    assert cs.holder == h;
  }
}
