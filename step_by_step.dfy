/**
 * StepByStepSystem: each press of the BAC button moves the rig one step along
 * the ray, either at once on start (no BAC timer) or on release once the timer
 * is ready. The nav-mesh check `SBSCalculationsHelper.UserIsOnNavMesh` (its
 * verdict and the position it computes), the presence and readiness of the BAC
 * timer and the raycast test `RaycastHitIsOnUI` are parameters.
 */
module StepByStep {
  import opened Types
  import opened BACGeneral
  import TeleportGeneral
  import UtilsSetupVR

  /** Start and stop events of the kind a flag selects. */
  predicate StartOrStop(ev: BACEvent)
  {
    ev.StartClicking? || ev.StartTouching? || ev.StopClicking? || ev.StopTouching?
  }

  /** The delegate setup wires on a start or stop event. */
  function CallbackFor(id: nat, ev: BACEvent): Listener
  {
    if ev.StartClicking? || ev.StartTouching? then StepByStepStart(id) else StepByStepStop(id)
  }

  /** SetupListenersResponses: a new start and stop delegate on each selected kind, never de-duplicated. */
  function Register(t: EventTable, itype: InteractionType, id: nat): (r: EventTable)
    ensures forall ev :: StartOrStop(ev) && HasFlag(itype, FlagOf(ev)) ==>
              Listeners(r, ev) == Listeners(t, ev) + [CallbackFor(id, ev)]
    ensures forall ev :: !StartOrStop(ev) || !HasFlag(itype, FlagOf(ev)) ==> Listeners(r, ev) == Listeners(t, ev)
  {
    var t1 := if HasFlag(itype, CLICK)
              then AddListener(AddListener(t, StartClicking, StepByStepStart(id)), StopClicking, StepByStepStop(id))
              else t;
    if HasFlag(itype, TOUCH)
    then AddListener(AddListener(t1, StartTouching, StepByStepStart(id)), StopTouching, StepByStepStop(id))
    else t1
  }

  /** RemoveListeners: every listener of the selected start and stop events goes, not only this system's. */
  function ClearAll(t: EventTable, itype: InteractionType): (r: EventTable)
    ensures forall ev :: StartOrStop(ev) && HasFlag(itype, FlagOf(ev)) ==> Listeners(r, ev) == []
    ensures forall ev :: !StartOrStop(ev) || !HasFlag(itype, FlagOf(ev)) ==> Listeners(r, ev) == Listeners(t, ev)
  {
    var t1 := if HasFlag(itype, CLICK) then RemoveAllListeners(RemoveAllListeners(t, StartClicking), StopClicking) else t;
    if HasFlag(itype, TOUCH) then RemoveAllListeners(RemoveAllListeners(t1, StartTouching), StopTouching) else t1
  }

  /** `n` setups in a row (the start of the system, then one per scene unload). */
  function RegisterTimes(t: EventTable, itype: InteractionType, id: nat, n: nat): EventTable
    decreases n
  {
    if n == 0 then t else Register(RegisterTimes(t, itype, id, n - 1), itype, id)
  }

  /** After `n` setups each selected start and stop event holds `n` more copies of the delegate. */
  lemma {:induction false} RegisterTimesCount(t: EventTable, itype: InteractionType, id: nat, n: nat, ev: BACEvent)
    requires StartOrStop(ev) && HasFlag(itype, FlagOf(ev))
    ensures Count(Listeners(RegisterTimes(t, itype, id, n), ev), CallbackFor(id, ev))
            == Count(Listeners(t, ev), CallbackFor(id, ev)) + n
    decreases n
  {
    if n > 0 {
      var before := RegisterTimes(t, itype, id, n - 1);
      RegisterTimesCount(t, itype, id, n - 1, ev);
      CountAppend(Listeners(before, ev), [CallbackFor(id, ev)], CallbackFor(id, ev));
      assert [CallbackFor(id, ev)][1..] == [];
    }
  }

  /** Whatever the number of setups, RemoveListeners leaves the selected start and stop events empty. */
  lemma ClearAfterRegisterTimes(t: EventTable, itype: InteractionType, id: nat, n: nat, ev: BACEvent)
    requires StartOrStop(ev) && HasFlag(itype, FlagOf(ev))
    ensures Listeners(ClearAll(RegisterTimes(t, itype, id, n), itype), ev) == []
  {
  }

  /** The state the callbacks change: the entity's teleport state and the rig position. */
  datatype Step = Step(state: TeleportState, rig: Vec3)

  /** What the nav-mesh check reports: whether the user may land, and where. */
  datatype NavMesh = NavMesh(onNavMesh: bool, newUsersPos: Vec3)

  /** TeleportUser. */
  function Teleport(s: Step, nav: NavMesh): (r: Step)
    ensures r.state == None
    ensures nav.onNavMesh ==> r.rig == nav.newUsersPos
    ensures !nav.onNavMesh ==> r.rig == s.rig
  {
    Step(None, if nav.onNavMesh then UtilsSetupVR.RigPositionAfter(s.rig, nav.newUsersPos, true, 1.8) else s.rig)
  }

  /** OnStartInteractingCallback. */
  function Start(s: Step, hasTimer: bool, hitOnUI: bool, nav: NavMesh): (r: Step)
    ensures hasTimer ==> r == Step(Selecting, s.rig)
    ensures !hasTimer && hitOnUI ==> r == s
    ensures !hasTimer && !hitOnUI ==> r == Teleport(s, nav)
  {
    if hasTimer then s.(state := Selecting)
    else if !hitOnUI then Teleport(s, nav)
    else s
  }

  /** OnStopInteractingCallback. */
  function Stop(s: Step, hasTimer: bool, timerReady: bool, hitOnUI: bool, nav: NavMesh): (r: Step)
    ensures hasTimer && timerReady && !hitOnUI ==> r == Teleport(s, nav)
    ensures !(hasTimer && timerReady && !hitOnUI) ==> r == s
  {
    if hasTimer && timerReady && !hitOnUI then Teleport(s, nav) else s
  }

  /**
   * One press and release moves the rig at most once: with a timer the start
   * never moves it, without a timer the stop does nothing.
   */
  lemma PressMovesAtMostOnce(s: Step, hasTimer: bool, timerReady: bool, hitOnStart: bool, hitOnStop: bool,
                             navStart: NavMesh, navStop: NavMesh)
    ensures var mid := Start(s, hasTimer, hitOnStart, navStart);
            var end := Stop(mid, hasTimer, timerReady, hitOnStop, navStop);
            mid.rig == s.rig || end.rig == mid.rig
    ensures var mid := Start(s, hasTimer, hitOnStart, navStart);
            var end := Stop(mid, hasTimer, timerReady, hitOnStop, navStop);
            end.rig != s.rig ==> end.state == None
  {
  }

  class StepByStepSystem {

    method TeleportUser(general: TeleportGeneral.TeleportGeneralComponent, rig: UtilsSetupVR.VRSFComponents, nav: NavMesh)
      requires nav.onNavMesh ==> rig.hasCameraRig
      modifies general`currentTeleportState, rig`cameraRigPosition
      ensures Step(general.currentTeleportState, rig.cameraRigPosition)
              == Teleport(Step(old(general.currentTeleportState), old(rig.cameraRigPosition)), nav)
    {
      if nav.onNavMesh {
        rig.SetCameraRigPosition(nav.newUsersPos, true, 1.8);
      }
      general.currentTeleportState := None;
    }

    method OnStartInteractingCallback(general: TeleportGeneral.TeleportGeneralComponent, rig: UtilsSetupVR.VRSFComponents,
                                      hasTimer: bool, hitOnUI: bool, nav: NavMesh)
      requires nav.onNavMesh ==> rig.hasCameraRig
      modifies general`currentTeleportState, rig`cameraRigPosition
      ensures Step(general.currentTeleportState, rig.cameraRigPosition)
              == Start(Step(old(general.currentTeleportState), old(rig.cameraRigPosition)), hasTimer, hitOnUI, nav)
    {
      if hasTimer {
        general.SetTeleportState(Selecting);
      } else if !hitOnUI {
        TeleportUser(general, rig, nav);
      }
    }

    method OnStopInteractingCallback(general: TeleportGeneral.TeleportGeneralComponent, rig: UtilsSetupVR.VRSFComponents,
                                     hasTimer: bool, timerReady: bool, hitOnUI: bool, nav: NavMesh)
      requires nav.onNavMesh ==> rig.hasCameraRig
      modifies general`currentTeleportState, rig`cameraRigPosition
      ensures Step(general.currentTeleportState, rig.cameraRigPosition)
              == Stop(Step(old(general.currentTeleportState), old(rig.cameraRigPosition)), hasTimer, timerReady, hitOnUI, nav)
    {
      var userCanTeleport := hasTimer && timerReady && !hitOnUI;
      if userCanTeleport {
        TeleportUser(general, rig, nav);
      }
    }

    method SetupListenersResponses(id: nat, bac: BACGeneralComponent)
      modifies bac`events
      ensures bac.events == Register(old(bac.events), bac.interactionType, id)
    {
      if bac.interactionType & CLICK == CLICK {
        bac.events := AddListener(bac.events, StartClicking, StepByStepStart(id));
        bac.events := AddListener(bac.events, StopClicking, StepByStepStop(id));
      }
      if bac.interactionType & TOUCH == TOUCH {
        bac.events := AddListener(bac.events, StartTouching, StepByStepStart(id));
        bac.events := AddListener(bac.events, StopTouching, StepByStepStop(id));
      }
    }

    method RemoveListeners(bac: BACGeneralComponent)
      modifies bac`events
      ensures bac.events == ClearAll(old(bac.events), bac.interactionType)
    {
      if bac.interactionType & CLICK == CLICK {
        bac.events := RemoveAllListeners(bac.events, StartClicking);
        bac.events := RemoveAllListeners(bac.events, StopClicking);
      }
      if bac.interactionType & TOUCH == TOUCH {
        bac.events := RemoveAllListeners(bac.events, StartTouching);
        bac.events := RemoveAllListeners(bac.events, StopTouching);
      }
    }

    /**
     * OnSceneUnloaded (and OnStartRunning, which does the same): every entity of
     * the filter is set up once more. Each entity has its own BAC component.
     */
    method OnSceneUnloaded(bacs: seq<BACGeneralComponent>)
      requires forall i, j :: 0 <= i < |bacs| && 0 <= j < |bacs| && i != j ==> bacs[i] != bacs[j]
      modifies set b | b in bacs
      ensures forall i :: 0 <= i < |bacs| ==> bacs[i].events == Register(old(bacs[i].events), bacs[i].interactionType, i)
    {
      var k := 0;
      while k < |bacs|
        invariant 0 <= k <= |bacs|
        invariant forall i :: 0 <= i < k ==> bacs[i].events == Register(old(bacs[i].events), bacs[i].interactionType, i)
        invariant forall i :: k <= i < |bacs| ==> bacs[i].events == old(bacs[i].events)
      {
        SetupListenersResponses(k, bacs[k]);
        k := k + 1;
      }
    }
  }
}
