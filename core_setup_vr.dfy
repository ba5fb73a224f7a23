/**
 * The static references of the `VRSF.Core.SetupVR` variant of VRSF_Components,
 * used by the VRSF.Core systems: the camera rig and camera positions, which
 * objects are present, and the device that was loaded.
 */
module CoreSetupVR {
  import opened Types

  /**
   * Where SetCameraRigPosition puts the rig. With the camera offset the rig is
   * moved so that the camera (not the rig origin) lands above `newPos` in x and
   * z; `setYPos` decides whether y is taken from `newPos` or kept.
   */
  function RigPositionAfter(rig: Vec3, camera: Vec3, newPos: Vec3, useVRCameraOffset: bool, setYPos: bool): (p: Vec3)
    ensures !useVRCameraOffset && setYPos ==> p == newPos
    ensures !useVRCameraOffset ==> p.x == newPos.x && p.z == newPos.z
    ensures useVRCameraOffset ==> p.x == rig.x + newPos.x - camera.x && p.z == rig.z + newPos.z - camera.z
    ensures setYPos ==> p.y == newPos.y
    ensures !setYPos ==> p.y == rig.y
  {
    var target := if useVRCameraOffset then Vec3(rig.x + (newPos.x - camera.x), newPos.y, rig.z + (newPos.z - camera.z))
                  else newPos;
    if setYPos then target else Vec3(target.x, rig.y, target.z)
  }

  /** With the offset, the camera ends up exactly above `newPos` (the rig carries the camera along). */
  lemma OffsetPutsCameraOnTarget(rig: Vec3, camera: Vec3, newPos: Vec3, setYPos: bool)
    ensures var p := RigPositionAfter(rig, camera, newPos, true, setYPos);
            camera.x + (p.x - rig.x) == newPos.x && camera.z + (p.z - rig.z) == newPos.z
  {
  }

  /** The getter of SetupVRIsReady: the rig and the camera, and both controllers when they are used. */
  function ReadyFrom(hasCameraRig: bool, hasVRCamera: bool, hasLeft: bool, hasRight: bool, useControllers: bool): (ready: bool)
    ensures ready ==> hasCameraRig && hasVRCamera
    ensures ready && useControllers ==> hasLeft && hasRight
    ensures !useControllers ==> (ready <==> hasCameraRig && hasVRCamera)
    ensures hasCameraRig && hasVRCamera && hasLeft && hasRight ==> ready
  {
    if useControllers then hasCameraRig && hasVRCamera && hasLeft && hasRight
    else hasCameraRig && hasVRCamera
  }

  class VRSFComponents {
    var cameraRigPosition: Vec3
    var vrCameraPosition: Vec3
    var hasCameraRig: bool
    var hasVRCamera: bool
    var hasLeftController: bool
    var hasRightController: bool
    var deviceLoaded: Device
    /** `_setupVRIsReady`, the field behind the setter. */
    var setupVRIsReadyField: bool

    /** The static initialisers: no objects yet, device NULL, not ready. */
    constructor ()
      ensures !hasCameraRig && !hasVRCamera && !hasLeftController && !hasRightController
      ensures deviceLoaded == NullDevice && !setupVRIsReadyField
      ensures cameraRigPosition == Zero3 && vrCameraPosition == Zero3
    {
      cameraRigPosition, vrCameraPosition := Zero3, Zero3;
      hasCameraRig, hasVRCamera, hasLeftController, hasRightController := false, false, false, false;
      deviceLoaded := NullDevice;
      setupVRIsReadyField := false;
    }

    /** The SetupVRIsReady getter. */
    function SetupVRIsReady(useControllers: bool): bool
      reads this
    {
      ReadyFrom(hasCameraRig, hasVRCamera, hasLeftController, hasRightController, useControllers)
    }

    /** The setter only writes the private field, which the getter never reads. */
    method SetSetupVRIsReady(value: bool)
      modifies this`setupVRIsReadyField
      ensures setupVRIsReadyField == value
      ensures forall u: bool :: SetupVRIsReady(u) == old(SetupVRIsReady(u))
    {
      setupVRIsReadyField := value;
    }

    method SetCameraRigPosition(newPos: Vec3, useVRCameraOffset: bool, setYPos: bool)
      requires hasCameraRig && (useVRCameraOffset ==> hasVRCamera)
      modifies this`cameraRigPosition
      ensures cameraRigPosition == RigPositionAfter(old(cameraRigPosition), vrCameraPosition, newPos, useVRCameraOffset, setYPos)
    {
      var pos := newPos;
      if useVRCameraOffset {
        var y := pos.y;
        var cameraDirection := Vec3(pos.x - vrCameraPosition.x, 0.0, pos.z - vrCameraPosition.z);
        pos := Add3(cameraRigPosition, cameraDirection);
        pos := pos.(y := y);
      }
      cameraRigPosition := if setYPos then pos else Vec3(pos.x, cameraRigPosition.y, pos.z);
    }
  }
}
