/**
 * The static references of the older `VRSF.Utils` variant of VRSF_Components,
 * which the curve, step-by-step and Bezier teleporters use. Unlike the core
 * variant, SetCameraRigPosition applies no camera offset and ignores the user
 * height; the start position is corrected by the camera's local position on
 * OpenVR only.
 */
module UtilsSetupVR {
  import opened Types
  import CoreSetupVR

  /** Where SetCameraRigPosition puts the rig: `newPos`, or `newPos` with the rig's own y. */
  function RigPositionAfter(rig: Vec3, newPos: Vec3, setYPos: bool, userHeight: real): (p: Vec3)
    ensures p.x == newPos.x && p.z == newPos.z
    ensures setYPos ==> p == newPos
    ensures !setYPos ==> p.y == rig.y
  {
    if setYPos then newPos else Vec3(newPos.x, rig.y, newPos.z)
  }

  /** The user height parameter has no effect (the code that used it is commented out). */
  lemma UserHeightIgnored(rig: Vec3, newPos: Vec3, setYPos: bool, h1: real, h2: real)
    ensures RigPositionAfter(rig, newPos, setYPos, h1) == RigPositionAfter(rig, newPos, setYPos, h2)
  {
  }

  /** Where SetCameraRigPositionOnStart puts the rig. */
  function StartPosition(device: Device, newWorldPos: Vec3, cameraLocal: Vec3): (p: Vec3)
    ensures device == OpenVR ==> Add3(p, cameraLocal) == newWorldPos
    ensures device != OpenVR ==> p == newWorldPos
  {
    if device == OpenVR then Sub3(newWorldPos, cameraLocal) else newWorldPos
  }

  class VRSFComponents {
    var cameraRigPosition: Vec3
    var vrCameraLocalPosition: Vec3
    var hasCameraRig: bool
    var hasVRCamera: bool
    var hasLeftController: bool
    var hasRightController: bool
    var deviceLoaded: Device
    var setupVRIsReadyField: bool

    /** The static initialisers: no objects yet, device NULL, not ready. */
    constructor ()
      ensures !hasCameraRig && !hasVRCamera && !hasLeftController && !hasRightController
      ensures deviceLoaded == NullDevice && !setupVRIsReadyField
      ensures cameraRigPosition == Zero3 && vrCameraLocalPosition == Zero3
    {
      cameraRigPosition, vrCameraLocalPosition := Zero3, Zero3;
      hasCameraRig, hasVRCamera, hasLeftController, hasRightController := false, false, false, false;
      deviceLoaded := NullDevice;
      setupVRIsReadyField := false;
    }

    /** The SetupVRIsReady getter: the same null checks as the core variant. */
    function SetupVRIsReady(useControllers: bool): bool
      reads this
    {
      CoreSetupVR.ReadyFrom(hasCameraRig, hasVRCamera, hasLeftController, hasRightController, useControllers)
    }

    method SetSetupVRIsReady(value: bool)
      modifies this`setupVRIsReadyField
      ensures setupVRIsReadyField == value
      ensures forall u: bool :: SetupVRIsReady(u) == old(SetupVRIsReady(u))
    {
      setupVRIsReadyField := value;
    }

    method SetCameraRigPosition(newPos: Vec3, setYPos: bool, userHeight: real)
      requires hasCameraRig
      modifies this`cameraRigPosition
      ensures cameraRigPosition == RigPositionAfter(old(cameraRigPosition), newPos, setYPos, userHeight)
    {
      cameraRigPosition := if setYPos then newPos else Vec3(newPos.x, cameraRigPosition.y, newPos.z);
    }

    /**
     * The position part of SetupTransformFromContainer: only an instance tagged
     * CameraRig moves the rig, through SetCameraRigPositionOnStart.
     */
    method SetupTransformFromContainer(containerPosition: Vec3, tagContainsCameraRig: bool)
      requires tagContainsCameraRig ==> hasCameraRig && (deviceLoaded == OpenVR ==> hasVRCamera)
      modifies this`cameraRigPosition
      ensures tagContainsCameraRig ==> cameraRigPosition == StartPosition(deviceLoaded, containerPosition, vrCameraLocalPosition)
      ensures !tagContainsCameraRig ==> cameraRigPosition == old(cameraRigPosition)
    {
      if tagContainsCameraRig {
        SetCameraRigPositionOnStart(containerPosition);
      }
    }

    method SetCameraRigPositionOnStart(newWorldPos: Vec3)
      requires hasCameraRig && (deviceLoaded == OpenVR ==> hasVRCamera)
      modifies this`cameraRigPosition
      ensures cameraRigPosition == StartPosition(deviceLoaded, newWorldPos, vrCameraLocalPosition)
    {
      cameraRigPosition := if deviceLoaded == OpenVR then Sub3(newWorldPos, vrCameraLocalPosition) else newWorldPos;
    }
  }
}
