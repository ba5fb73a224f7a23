/**
 * BezierSetupSystem: the release logic of the Bezier-arc teleporter. While the
 * button is held the arc is displayed and the teleport layer is taken out of
 * both controllers' exclusion masks; on release the rig is moved to the ground
 * point (with a per-device height correction), the arc is hidden and the layer
 * is excluded again.
 *
 * Layer masks are sets of layer numbers (`AddToMask` adds, `RemoveFromMask`
 * removes). `LayerMask.NameToLayer("Teleport")` and whether InitializeValues
 * throws (a missing controller or line renderer) are parameters.
 */
module BezierSetup {
  import opened Types
  import opened BACGeneral
  import UtilsSetupVR

  /** The rig position after a release: the ground point, raised for every device but OpenVR. */
  function Destination(device: Device, groundPos: Vec3, cameraLocalY: real): (p: Vec3)
    ensures p.x == groundPos.x && p.z == groundPos.z
    ensures device == OpenVR ==> p == groundPos
    ensures device == OculusRift ==> p.y == groundPos.y + cameraLocalY
    ensures device != OpenVR && device != OculusRift ==> p.y == groundPos.y + 1.8
  {
    match device
    case OpenVR => groundPos
    case OculusRift => groundPos.(y := groundPos.y + cameraLocalY)
    case _ => groundPos.(y := groundPos.y + 1.8)
  }

  /** The part of the entity and of the controller parameters that the display toggling writes. */
  datatype Display = Display(arcEnabled: bool, markerActive: bool, displayActive: bool, pointerEnabled: bool,
                             rightExclusion: set<int>, leftExclusion: set<int>)

  /** The controller pointer is toggled only when the ray's hand has its pointer in use. */
  predicate PointerInUse(rayOrigin: Hand, usePointerLeft: bool, usePointerRight: bool)
  {
    (rayOrigin == Left && usePointerLeft) || (rayOrigin == Right && usePointerRight)
  }

  /** ToggleDisplay. */
  function Toggle(d: Display, active: bool, pointerInUse: bool, layer: int): (r: Display)
    ensures r.arcEnabled == active && r.markerActive == active && r.displayActive == active
    ensures pointerInUse ==> r.pointerEnabled == !active
    ensures !pointerInUse ==> r.pointerEnabled == d.pointerEnabled
    ensures active ==> r.rightExclusion == d.rightExclusion - {layer} && r.leftExclusion == d.leftExclusion - {layer}
    ensures active ==> layer !in r.rightExclusion && layer !in r.leftExclusion
    ensures !active ==> r.rightExclusion == d.rightExclusion && r.leftExclusion == d.leftExclusion
  {
    var masks := if active then d.(rightExclusion := d.rightExclusion - {layer}, leftExclusion := d.leftExclusion - {layer}) else d;
    masks.(arcEnabled := active, markerActive := active, displayActive := active,
           pointerEnabled := if pointerInUse then !active else d.pointerEnabled)
  }

  /** The display part of TeleportUser: hide, then exclude the teleport layer on both hands. */
  function Release(d: Display, pointerInUse: bool, layer: int): (r: Display)
    ensures !r.arcEnabled && !r.markerActive && !r.displayActive
    ensures pointerInUse ==> r.pointerEnabled
    ensures !pointerInUse ==> r.pointerEnabled == d.pointerEnabled
    ensures r.rightExclusion == d.rightExclusion + {layer} && r.leftExclusion == d.leftExclusion + {layer}
  {
    var hidden := Toggle(d, false, pointerInUse, layer);
    hidden.(rightExclusion := hidden.rightExclusion + {layer}, leftExclusion := hidden.leftExclusion + {layer})
  }

  /**
   * Holding the button then releasing it leaves both masks as they were except
   * that the teleport layer is now excluded, and the pointer back on when it is
   * toggled at all.
   */
  lemma HoldThenRelease(d: Display, pointerInUse: bool, layer: int)
    ensures var r := Release(Toggle(d, true, pointerInUse, layer), pointerInUse, layer);
            && r.rightExclusion == d.rightExclusion + {layer}
            && r.leftExclusion == d.leftExclusion + {layer}
            && !r.displayActive
            && (pointerInUse ==> r.pointerEnabled)
  {
    var held := Toggle(d, true, pointerInUse, layer);
    assert held.rightExclusion + {layer} == d.rightExclusion + {layer};
    assert held.leftExclusion + {layer} == d.leftExclusion + {layer};
  }

  /** After a release, showing the arc again gives the masks without the layer. */
  lemma ReleaseThenHold(d: Display, pointerInUse: bool, layer: int)
    ensures var r := Toggle(Release(d, pointerInUse, layer), true, pointerInUse, layer);
            && r.rightExclusion == d.rightExclusion - {layer}
            && r.leftExclusion == d.leftExclusion - {layer}
            && r.displayActive
            && (pointerInUse ==> !r.pointerEnabled)
  {
    var released := Release(d, pointerInUse, layer);
    assert released.rightExclusion - {layer} == d.rightExclusion - {layer};
    assert released.leftExclusion - {layer} == d.leftExclusion - {layer};
  }

  /**
   * How InitializeValues ends: it completes, or throws inside CheckHand, or
   * throws after storing the layer (no LineRenderer child), or throws after
   * disabling the arc (no TargetMarker).
   */
  datatype InitOutcome = Completes | ThrowsInCheckHand | ThrowsAfterLayer | ThrowsAfterArc

  /** What InitializeValues writes: the teleport layer, the arc, the target marker and the setup flag. */
  datatype InitState = InitState(teleportLayer: int, arcEnabled: bool, markerActive: bool, isSetup: bool)

  /** InitializeValues, as values: the writes made before the point where it ends. */
  function InitAfter(s: InitState, outcome: InitOutcome, nameToLayer: int): (r: InitState)
    // only a completed initialisation sets the entity up
    ensures r.isSetup <==> s.isSetup || outcome == Completes
    // a throw inside CheckHand writes nothing
    ensures outcome == ThrowsInCheckHand ==> r == s
    // past CheckHand the layer lookup is stored, even when it is -1
    ensures outcome != ThrowsInCheckHand ==> r.teleportLayer == nameToLayer
    // the arc is hidden unless the throw came before it
    ensures r.arcEnabled == if outcome == Completes || outcome == ThrowsAfterArc then false else s.arcEnabled
    // the marker is hidden only by a completed initialisation
    ensures r.markerActive == if outcome == Completes then false else s.markerActive
  {
    match outcome
    case ThrowsInCheckHand => s
    case ThrowsAfterLayer => s.(teleportLayer := nameToLayer)
    case ThrowsAfterArc => s.(teleportLayer := nameToLayer, arcEnabled := false)
    case Completes => InitState(nameToLayer, false, false, true)
  }

  /** One OnUpdate frame for one entity: only an entity not yet set up is initialised. */
  function InitFrame(s: InitState, outcome: InitOutcome, nameToLayer: int): InitState
  {
    if s.isSetup then s else InitAfter(s, outcome, nameToLayer)
  }

  /** The entity after a run of frames with the given outcomes. */
  function InitRun(s: InitState, outcomes: seq<InitOutcome>, nameToLayer: int): InitState
    decreases |outcomes|
  {
    if outcomes == [] then s else InitRun(InitFrame(s, outcomes[0], nameToLayer), outcomes[1..], nameToLayer)
  }

  /**
   * An entity is retried every frame until one initialisation completes, and
   * from then on OnUpdate leaves it alone.
   */
  lemma {:induction false} SetUpOnceCompleted(s: InitState, outcomes: seq<InitOutcome>, nameToLayer: int)
    ensures InitRun(s, outcomes, nameToLayer).isSetup <==> s.isSetup || Completes in outcomes
    ensures s.isSetup ==> InitRun(s, outcomes, nameToLayer) == s
    decreases |outcomes|
  {
    if outcomes != [] {
      SetUpOnceCompleted(InitFrame(s, outcomes[0], nameToLayer), outcomes[1..], nameToLayer);
      assert Completes in outcomes <==> outcomes[0] == Completes || Completes in outcomes[1..] by {
        assert outcomes == [outcomes[0]] + outcomes[1..];
      }
    }
  }

  /** SetupListenersResponses: show the arc while held, teleport on release, per selected kind. */
  function Register(t: EventTable, itype: InteractionType, id: nat): (r: EventTable)
    ensures HasFlag(itype, CLICK) ==> Listeners(r, IsClicking) == Listeners(t, IsClicking) + [BezierToggleDisplay(id)]
    ensures HasFlag(itype, CLICK) ==> Listeners(r, StopClicking) == Listeners(t, StopClicking) + [BezierTeleport(id)]
    ensures HasFlag(itype, TOUCH) ==> Listeners(r, IsTouching) == Listeners(t, IsTouching) + [BezierToggleDisplay(id)]
    ensures HasFlag(itype, TOUCH) ==> Listeners(r, StopTouching) == Listeners(t, StopTouching) + [BezierTeleport(id)]
    ensures forall ev: BACEvent :: ev.StartClicking? || ev.StartTouching? || !HasFlag(itype, FlagOf(ev)) ==>
              Listeners(r, ev) == Listeners(t, ev)
  {
    var t1 := if HasFlag(itype, CLICK)
              then AddListener(AddListener(t, IsClicking, BezierToggleDisplay(id)), StopClicking, BezierTeleport(id))
              else t;
    if HasFlag(itype, TOUCH)
    then AddListener(AddListener(t1, IsTouching, BezierToggleDisplay(id)), StopTouching, BezierTeleport(id))
    else t1
  }

  /** RemoveListenersOnEndApp: only the start events of the selected kinds are cleared. */
  function ClearStarts(t: EventTable, itype: InteractionType): (r: EventTable)
    ensures HasFlag(itype, CLICK) ==> Listeners(r, StartClicking) == []
    ensures HasFlag(itype, TOUCH) ==> Listeners(r, StartTouching) == []
    ensures forall ev: BACEvent :: !(ev.StartClicking? || ev.StartTouching?) || !HasFlag(itype, FlagOf(ev)) ==>
              Listeners(r, ev) == Listeners(t, ev)
  {
    var t1 := if HasFlag(itype, CLICK) then RemoveAllListeners(t, StartClicking) else t;
    if HasFlag(itype, TOUCH) then RemoveAllListeners(t1, StartTouching) else t1
  }

  /** The end-of-application removal misses every listener the setup added. */
  lemma ClearStartsKeepsSetup(t: EventTable, itype: InteractionType, id: nat)
    ensures forall ev: BACEvent :: Listeners(ClearStarts(Register(t, itype, id), itype), ev) == Listeners(Register(t, itype, id), ev)
                         || ev.StartClicking? || ev.StartTouching?
    ensures HasFlag(itype, CLICK) ==> BezierTeleport(id) in Listeners(ClearStarts(Register(t, itype, id), itype), StopClicking)
    ensures HasFlag(itype, TOUCH) ==> BezierTeleport(id) in Listeners(ClearStarts(Register(t, itype, id), itype), StopTouching)
  {
  }

  /** BezierTeleportCalculationComponent, with the target marker of BezierTeleportParametersComponent. */
  class BezierTeleportCalculationComponent {
    var isSetup: bool
    var groundDetected: bool
    var limitDetected: bool
    var groundPos: Vec3
    var arcRendererEnabled: bool
    var targetMarkerActive: bool
    var displayActive: bool
    var controllerPointerEnabled: bool
    /** The teleport layer InitializeValues looks up. */
    var teleportLayer: int
    /** RayOrigin of the entity's ScriptableRaycastComponent. */
    var rayOrigin: Hand

    /** The fields InitializeValues writes. */
    function Init(): InitState
      reads this
    {
      InitState(teleportLayer, arcRendererEnabled, targetMarkerActive, isSetup)
    }
  }

  /** The exclusion masks and pointer use of ControllersParametersVariable. */
  class ControllersParameters {
    var rightExclusionLayer: set<int>
    var leftExclusionLayer: set<int>
    var usePointerLeft: bool
    var usePointerRight: bool
  }

  function DisplayOf(c: BezierTeleportCalculationComponent, p: ControllersParameters): Display
    reads c, p
  {
    Display(c.arcRendererEnabled, c.targetMarkerActive, c.displayActive, c.controllerPointerEnabled,
            p.rightExclusionLayer, p.leftExclusionLayer)
  }

  class BezierSetupSystem {
    var enabled: bool

    method ToggleDisplay(c: BezierTeleportCalculationComponent, p: ControllersParameters, active: bool)
      modifies c`arcRendererEnabled, c`targetMarkerActive, c`displayActive, c`controllerPointerEnabled
      modifies p`rightExclusionLayer, p`leftExclusionLayer
      ensures DisplayOf(c, p) == Toggle(old(DisplayOf(c, p)), active, PointerInUse(c.rayOrigin, p.usePointerLeft, p.usePointerRight),
                                        c.teleportLayer)
    {
      if active {
        p.rightExclusionLayer := p.rightExclusionLayer - {c.teleportLayer};
        p.leftExclusionLayer := p.leftExclusionLayer - {c.teleportLayer};
      }
      c.arcRendererEnabled := active;
      c.targetMarkerActive := active;
      c.displayActive := active;
      if (c.rayOrigin == Left && p.usePointerLeft) || (c.rayOrigin == Right && p.usePointerRight) {
        c.controllerPointerEnabled := !active;
      }
    }

    method TeleportUser(c: BezierTeleportCalculationComponent, p: ControllersParameters, rig: UtilsSetupVR.VRSFComponents)
      requires c.groundDetected || c.limitDetected ==> rig.hasCameraRig && (rig.deviceLoaded == OculusRift ==> rig.hasVRCamera)
      modifies c`arcRendererEnabled, c`targetMarkerActive, c`displayActive, c`controllerPointerEnabled
      modifies p`rightExclusionLayer, p`leftExclusionLayer, rig`cameraRigPosition
      ensures c.groundDetected || c.limitDetected ==>
                rig.cameraRigPosition == Destination(rig.deviceLoaded, c.groundPos, rig.vrCameraLocalPosition.y)
      ensures !(c.groundDetected || c.limitDetected) ==> rig.cameraRigPosition == old(rig.cameraRigPosition)
      ensures DisplayOf(c, p) == Release(old(DisplayOf(c, p)), PointerInUse(c.rayOrigin, p.usePointerLeft, p.usePointerRight),
                                         c.teleportLayer)
    {
      MoveRig(c, rig);
      ToggleDisplay(c, p, false);
      p.rightExclusionLayer := p.rightExclusionLayer + {c.teleportLayer};
      p.leftExclusionLayer := p.leftExclusionLayer + {c.teleportLayer};
    }

    /** The first part of TeleportUser: the rig is moved only when the ground or the limit was detected. */
    method MoveRig(c: BezierTeleportCalculationComponent, rig: UtilsSetupVR.VRSFComponents)
      requires c.groundDetected || c.limitDetected ==> rig.hasCameraRig && (rig.deviceLoaded == OculusRift ==> rig.hasVRCamera)
      modifies rig`cameraRigPosition
      ensures c.groundDetected || c.limitDetected ==>
                rig.cameraRigPosition == Destination(rig.deviceLoaded, c.groundPos, rig.vrCameraLocalPosition.y)
      ensures !(c.groundDetected || c.limitDetected) ==> rig.cameraRigPosition == old(rig.cameraRigPosition)
    {
      if c.groundDetected || c.limitDetected {
        var newPos := c.groundPos;
        match rig.deviceLoaded {
          case OpenVR =>
            rig.cameraRigPosition := c.groundPos;
          case OculusRift =>
            newPos := newPos.(y := newPos.y + rig.vrCameraLocalPosition.y);
            rig.cameraRigPosition := newPos;
          case _ =>
            newPos := c.groundPos;
            newPos := newPos.(y := newPos.y + 1.8);
            rig.cameraRigPosition := newPos;
        }
      }
    }

    /**
     * InitializeValues. `nameToLayer` is the result of the layer lookup (-1 when
     * there is no Teleport layer, which is only logged); the exception is caught
     * and logged, so the writes made before it stay.
     */
    method InitializeValues(c: BezierTeleportCalculationComponent, outcome: InitOutcome, nameToLayer: int)
      modifies c`teleportLayer, c`arcRendererEnabled, c`targetMarkerActive, c`isSetup
      ensures c.Init() == InitAfter(old(c.Init()), outcome, nameToLayer)
    {
      if outcome == ThrowsInCheckHand {
        return;
      }
      c.teleportLayer := nameToLayer;
      if outcome == ThrowsAfterLayer {
        return;
      }
      c.arcRendererEnabled := false;
      if outcome == ThrowsAfterArc {
        return;
      }
      c.targetMarkerActive := false;
      c.isSetup := true;
    }

    /**
     * OnUpdate: every entity not yet set up is initialised again, and the system
     * stays enabled only if some entity was not set up at the start of the frame.
     * Each entity has its own calculation component.
     */
    method OnUpdate(entities: seq<BezierTeleportCalculationComponent>, outcomes: seq<InitOutcome>, nameToLayer: int)
      requires |outcomes| == |entities|
      requires forall i, j :: 0 <= i < |entities| && 0 <= j < |entities| && i != j ==> entities[i] != entities[j]
      modifies this`enabled, entities`teleportLayer, entities`arcRendererEnabled, entities`targetMarkerActive, entities`isSetup
      ensures enabled <==> exists i :: 0 <= i < |entities| && !old(entities[i].isSetup)
      ensures forall i :: 0 <= i < |entities| ==> entities[i].Init() == InitFrame(old(entities[i].Init()), outcomes[i], nameToLayer)
    {
      var entitiesNotSetup := false;
      var k := 0;
      while k < |entities|
        invariant 0 <= k <= |entities|
        invariant entitiesNotSetup <==> exists i :: 0 <= i < k && !old(entities[i].isSetup)
        invariant forall i :: 0 <= i < k ==> entities[i].Init() == InitFrame(old(entities[i].Init()), outcomes[i], nameToLayer)
        invariant forall i :: k <= i < |entities| ==> entities[i].Init() == old(entities[i].Init())
      {
        if !entities[k].isSetup {
          entitiesNotSetup := true;
          InitializeValues(entities[k], outcomes[k], nameToLayer);
        }
        k := k + 1;
      }
      enabled := entitiesNotSetup;
    }

    method OnSceneUnloaded()
      modifies this`enabled
      ensures enabled
    {
      enabled := true;
    }

    method SetupListenersResponses(id: nat, bac: BACGeneralComponent)
      modifies bac`events
      ensures bac.events == Register(old(bac.events), bac.interactionType, id)
    {
      if bac.interactionType & CLICK == CLICK {
        bac.events := AddListener(bac.events, IsClicking, BezierToggleDisplay(id));
        bac.events := AddListener(bac.events, StopClicking, BezierTeleport(id));
      }
      if bac.interactionType & TOUCH == TOUCH {
        bac.events := AddListener(bac.events, IsTouching, BezierToggleDisplay(id));
        bac.events := AddListener(bac.events, StopTouching, BezierTeleport(id));
      }
    }

    method RemoveListenersOnEndApp(bac: BACGeneralComponent)
      modifies bac`events
      ensures bac.events == ClearStarts(old(bac.events), bac.interactionType)
    {
      if bac.interactionType & CLICK == CLICK {
        bac.events := RemoveAllListeners(bac.events, StartClicking);
      }
      if bac.interactionType & TOUCH == TOUCH {
        bac.events := RemoveAllListeners(bac.events, StartTouching);
      }
    }
  }
}
