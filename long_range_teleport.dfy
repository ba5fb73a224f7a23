/**
 * LongRangeTeleportSystem: three delegates wired on the BAC events of the
 * entity. Start selects, every is-interacting frame advances the loading timer
 * and re-validates the target into the shared static `CanTeleport` and
 * `PointToGoTo`, and stop asks for the teleport when the shared flag allows it.
 *
 * `Time.deltaTime`, the raycast test `RaycastHitIsNotOnUI` and the nav-mesh
 * linecast (its `endOnNavmesh` result and the point it writes) are parameters.
 */
module LongRangeTeleport {
  import opened Types
  import opened BACGeneral
  import TeleportGeneral

  /** The three delegates, as stored in the action slots of TeleportGeneralComponent. */
  datatype Slots = Slots(start: Nullable<Listener>, isInteracting: Nullable<Listener>, stop: Nullable<Listener>)
  {
    predicate AllNull() { start.Null? && isInteracting.Null? && stop.Null? }
  }

  /** The delegates SetupListenersResponses creates for entity `id`. */
  function Delegates(id: nat): (s: Slots)
    ensures s.start.NonNull? && s.isInteracting.NonNull? && s.stop.NonNull?
    ensures s.start.value != s.isInteracting.value && s.isInteracting.value != s.stop.value && s.start.value != s.stop.value
  {
    Slots(NonNull(LongRangeStart(id)), NonNull(LongRangeIsInteracting(id)), NonNull(LongRangeStop(id)))
  }

  /** The events a flag wires: start, is and stop of clicking, or of touching. */
  function StartEvent(flag: InteractionType): BACEvent { if flag == CLICK then StartClicking else StartTouching }
  function IsEvent(flag: InteractionType): BACEvent { if flag == CLICK then IsClicking else IsTouching }
  function StopEvent(flag: InteractionType): BACEvent { if flag == CLICK then StopClicking else StopTouching }

  /** The slot wired on `ev`. */
  function SlotFor(s: Slots, ev: BACEvent): Nullable<Listener>
  {
    match ev
    case StartClicking => s.start
    case StartTouching => s.start
    case IsClicking => s.isInteracting
    case IsTouching => s.isInteracting
    case StopClicking => s.stop
    case StopTouching => s.stop
  }

  /** AddListenerExtend of a delegate slot on the three events of one flag. */
  function AddTriple(t: EventTable, flag: InteractionType, s: Slots): (r: EventTable)
    requires flag == CLICK || flag == TOUCH
    requires s.start.NonNull? && s.isInteracting.NonNull? && s.stop.NonNull?
    ensures forall ev :: FlagOf(ev) == flag ==> Listeners(r, ev) == Listeners(t, ev) + [SlotFor(s, ev).value]
    ensures forall ev :: FlagOf(ev) != flag ==> Listeners(r, ev) == Listeners(t, ev)
  {
    var t1 := AddListener(t, StartEvent(flag), s.start.value);
    var t2 := AddListener(t1, IsEvent(flag), s.isInteracting.value);
    AddListener(t2, StopEvent(flag), s.stop.value)
  }

  /** The registrations of the setup: one delegate per event, on the events the interaction type selects. */
  function Register(t: EventTable, itype: InteractionType, s: Slots): (r: EventTable)
    requires s.start.NonNull? && s.isInteracting.NonNull? && s.stop.NonNull?
    ensures forall ev :: HasFlag(itype, FlagOf(ev)) ==> Listeners(r, ev) == Listeners(t, ev) + [SlotFor(s, ev).value]
    ensures forall ev :: !HasFlag(itype, FlagOf(ev)) ==> Listeners(r, ev) == Listeners(t, ev)
  {
    var t1 := if HasFlag(itype, CLICK) then AddTriple(t, CLICK, s) else t;
    if HasFlag(itype, TOUCH) then AddTriple(t1, TOUCH, s) else t1
  }

  /**
   * RemoveListenerExtend of a slot: the delegate is taken off the event; a slot
   * that was never filled removes nothing.
   */
  function RemoveSlot(t: EventTable, ev: BACEvent, l: Nullable<Listener>): (r: EventTable)
    ensures l.NonNull? ==> Listeners(r, ev) == Without(Listeners(t, ev), l.value)
    ensures l.Null? ==> r == t
    ensures forall other :: other != ev ==> Listeners(r, other) == Listeners(t, other)
  {
    match l
    case Null => t
    case NonNull(d) => RemoveListener(t, ev, d)
  }

  function RemoveTriple(t: EventTable, flag: InteractionType, s: Slots): (r: EventTable)
    requires flag == CLICK || flag == TOUCH
    ensures forall ev :: FlagOf(ev) == flag && SlotFor(s, ev).NonNull? ==>
              Listeners(r, ev) == Without(Listeners(t, ev), SlotFor(s, ev).value)
    ensures forall ev :: FlagOf(ev) == flag && SlotFor(s, ev).Null? ==> Listeners(r, ev) == Listeners(t, ev)
    ensures forall ev :: FlagOf(ev) != flag ==> Listeners(r, ev) == Listeners(t, ev)
  {
    var t1 := RemoveSlot(t, StartEvent(flag), s.start);
    var t2 := RemoveSlot(t1, IsEvent(flag), s.isInteracting);
    var r := RemoveSlot(t2, StopEvent(flag), s.stop);
    RemoveTripleEvents(t, flag, s, t1, t2, r);
    r
  }

  /** The three removals of RemoveTriple, event by event. */
  lemma RemoveTripleEvents(t: EventTable, flag: InteractionType, s: Slots, t1: EventTable, t2: EventTable, r: EventTable)
    requires flag == CLICK || flag == TOUCH
    requires t1 == RemoveSlot(t, StartEvent(flag), s.start)
    requires t2 == RemoveSlot(t1, IsEvent(flag), s.isInteracting)
    requires r == RemoveSlot(t2, StopEvent(flag), s.stop)
    ensures forall ev :: FlagOf(ev) == flag ==> Listeners(r, ev) == RemoveFrom(Listeners(t, ev), SlotFor(s, ev))
    ensures forall ev :: FlagOf(ev) != flag ==> Listeners(r, ev) == Listeners(t, ev)
  {
    forall ev
      ensures FlagOf(ev) == flag ==> Listeners(r, ev) == RemoveFrom(Listeners(t, ev), SlotFor(s, ev))
      ensures FlagOf(ev) != flag ==> Listeners(r, ev) == Listeners(t, ev)
    {
      if ev == StartEvent(flag) {
        assert Listeners(r, ev) == Listeners(t1, ev);
      } else if ev == IsEvent(flag) {
        assert Listeners(r, ev) == Listeners(t2, ev) && Listeners(t1, ev) == Listeners(t, ev);
      } else if ev == StopEvent(flag) {
        assert Listeners(t2, ev) == Listeners(t, ev);
      } else {
        assert FlagOf(ev) != flag;
      }
    }
  }

  /** The listeners left once a slot's delegate, if any, is removed. */
  function RemoveFrom(ls: seq<Listener>, l: Nullable<Listener>): seq<Listener>
  {
    if l.NonNull? then Without(ls, l.value) else ls
  }

  /** RemoveListeners: the three stored delegates come off the events the same flags select. */
  function Unregister(t: EventTable, itype: InteractionType, s: Slots): (r: EventTable)
    ensures forall ev :: HasFlag(itype, FlagOf(ev)) && SlotFor(s, ev).NonNull? ==>
              Listeners(r, ev) == Without(Listeners(t, ev), SlotFor(s, ev).value)
    ensures forall ev :: HasFlag(itype, FlagOf(ev)) && SlotFor(s, ev).NonNull? ==> SlotFor(s, ev).value !in Listeners(r, ev)
    ensures forall ev :: !HasFlag(itype, FlagOf(ev)) || SlotFor(s, ev).Null? ==> Listeners(r, ev) == Listeners(t, ev)
  {
    var t1 := if HasFlag(itype, CLICK) then RemoveTriple(t, CLICK, s) else t;
    if HasFlag(itype, TOUCH) then RemoveTriple(t1, TOUCH, s) else t1
  }

  /** Removing a delegate appended to a list that did not hold it gives the list back. */
  lemma {:induction false} WithoutAppended(s: seq<Listener>, l: Listener)
    requires l !in s
    ensures Without(s + [l], l) == s
  {
    if s == [] {
      assert [] + [l] == [l];
      assert [l][1..] == [];
    } else {
      assert (s + [l])[1..] == s[1..] + [l];
      WithoutAppended(s[1..], l);
    }
  }

  /**
   * RemoveListeners undoes SetupListenersResponses: with the same interaction
   * type, every event ends with the listeners it had before the setup, provided
   * the entity's delegates were not registered there already.
   */
  lemma UnregisterUndoesRegister(t: EventTable, itype: InteractionType, id: nat)
    requires forall ev :: SlotFor(Delegates(id), ev).value !in Listeners(t, ev)
    ensures forall ev :: Listeners(Unregister(Register(t, itype, Delegates(id)), itype, Delegates(id)), ev) == Listeners(t, ev)
  {
    var s := Delegates(id);
    forall ev
      ensures Listeners(Unregister(Register(t, itype, s), itype, s), ev) == Listeners(t, ev)
    {
      if HasFlag(itype, FlagOf(ev)) {
        WithoutAppended(Listeners(t, ev), SlotFor(s, ev).value);
      }
    }
  }

  datatype SetupResult = SetupResult(slots: Slots, events: EventTable)

  /** SetupListenersResponses: only an entity whose three slots are all null is wired. */
  function Setup(id: nat, itype: InteractionType, slots: Slots, t: EventTable): (r: SetupResult)
    ensures slots.AllNull() ==> r.slots == Delegates(id) && r.events == Register(t, itype, Delegates(id))
    ensures !slots.AllNull() ==> r == SetupResult(slots, t)
    ensures !r.slots.AllNull()
  {
    if slots.AllNull() then SetupResult(Delegates(id), Register(t, itype, Delegates(id)))
    else SetupResult(slots, t)
  }

  /** A second setup (from Init, which runs on every OnSetupVRReady) adds no listener. */
  lemma SetupTwiceIsOnce(id: nat, itype: InteractionType, slots: Slots, t: EventTable)
    ensures var once := Setup(id, itype, slots, t);
            Setup(id, itype, once.slots, once.events) == once
  {
  }

  /** The part of the state the is-interacting callback writes. */
  datatype Validation = Validation(loadingTimer: real, canTeleport: bool, pointToGoTo: Vec3)

  /** One is-interacting frame as the engine reports it. */
  datatype Sample = Sample(deltaTime: real, hitNotOnUI: bool, endOnNavmesh: bool, linecastPoint: Vec3)

  /** OnIsInteractingCallback. */
  function IsInteractingStep(v: Validation, useLoadingTimer: bool, loadingTime: real, f: Sample): (r: Validation)
    ensures r.loadingTimer == v.loadingTimer + f.deltaTime
    ensures !f.hitNotOnUI ==> !r.canTeleport && r.pointToGoTo == v.pointToGoTo
    ensures f.hitNotOnUI ==> r.pointToGoTo == f.linecastPoint
    ensures f.hitNotOnUI && !useLoadingTimer ==> (r.canTeleport <==> f.endOnNavmesh)
    ensures f.hitNotOnUI && useLoadingTimer ==> (r.canTeleport <==> f.endOnNavmesh && r.loadingTimer > loadingTime)
    ensures r.canTeleport ==> f.hitNotOnUI && f.endOnNavmesh
  {
    var timer := v.loadingTimer + f.deltaTime;
    if f.hitNotOnUI then
      Validation(timer, if useLoadingTimer then f.endOnNavmesh && timer > loadingTime else f.endOnNavmesh, f.linecastPoint)
    else
      Validation(timer, false, v.pointToGoTo)
  }

  function IsInteractingRun(v: Validation, useLoadingTimer: bool, loadingTime: real, frames: seq<Sample>): Validation
    decreases |frames|
  {
    if frames == [] then v
    else IsInteractingRun(IsInteractingStep(v, useLoadingTimer, loadingTime, frames[0]), useLoadingTimer, loadingTime, frames[1..])
  }

  function TotalTime(frames: seq<Sample>): real
    decreases |frames|
  {
    if frames == [] then 0.0 else frames[0].deltaTime + TotalTime(frames[1..])
  }

  /**
   * Over a run of is-interacting frames the loading timer grows by exactly the
   * elapsed time, and the shared verdict is the last frame's alone: whatever was
   * decided before (by this entity or another) is overwritten.
   */
  lemma {:induction false} RunKeepsLastVerdict(v: Validation, useLoadingTimer: bool, loadingTime: real, frames: seq<Sample>)
    requires frames != []
    ensures IsInteractingRun(v, useLoadingTimer, loadingTime, frames).loadingTimer == v.loadingTimer + TotalTime(frames)
    ensures var last := frames[|frames| - 1];
            IsInteractingRun(v, useLoadingTimer, loadingTime, frames).canTeleport <==>
              last.hitNotOnUI && last.endOnNavmesh && (useLoadingTimer ==> v.loadingTimer + TotalTime(frames) > loadingTime)
    decreases |frames|
  {
    var next := IsInteractingStep(v, useLoadingTimer, loadingTime, frames[0]);
    if |frames| > 1 {
      RunKeepsLastVerdict(next, useLoadingTimer, loadingTime, frames[1..]);
      assert frames[1..][|frames[1..]| - 1] == frames[|frames| - 1];
    } else {
      assert frames[1..] == [];
    }
  }

  /** LongRangeTeleportComponent. */
  class LongRangeTeleportComponent {
    var loadingTimer: real
    var useLoadingTimer: bool
    var loadingTime: real
  }

  class LongRangeTeleportSystem {

    method SetupListenersResponses(id: nat, bac: BACGeneralComponent, general: TeleportGeneral.TeleportGeneralComponent)
      modifies bac`events, general`startInteractingAction, general`isInteractingAction, general`stopInteractingAction
      ensures var r := Setup(id, bac.interactionType,
                             Slots(old(general.startInteractingAction), old(general.isInteractingAction), old(general.stopInteractingAction)),
                             old(bac.events));
              && Slots(general.startInteractingAction, general.isInteractingAction, general.stopInteractingAction) == r.slots
              && bac.events == r.events
    {
      if general.startInteractingAction == Null && general.isInteractingAction == Null && general.stopInteractingAction == Null {
        var d := Delegates(id);
        general.startInteractingAction := d.start;
        general.isInteractingAction := d.isInteracting;
        general.stopInteractingAction := d.stop;
        if bac.interactionType & CLICK == CLICK {
          bac.events := AddTriple(bac.events, CLICK, d);
        }
        if bac.interactionType & TOUCH == TOUCH {
          bac.events := AddTriple(bac.events, TOUCH, d);
        }
      }
    }

    method RemoveListeners(bac: BACGeneralComponent, general: TeleportGeneral.TeleportGeneralComponent)
      modifies bac`events
      ensures bac.events == Unregister(old(bac.events), bac.interactionType,
                                       Slots(general.startInteractingAction, general.isInteractingAction, general.stopInteractingAction))
    {
      var s := Slots(general.startInteractingAction, general.isInteractingAction, general.stopInteractingAction);
      if bac.interactionType & CLICK == CLICK {
        bac.events := RemoveTriple(bac.events, CLICK, s);
      }
      if bac.interactionType & TOUCH == TOUCH {
        bac.events := RemoveTriple(bac.events, TOUCH, s);
      }
    }

    method OnStartInteractingCallback(general: TeleportGeneral.TeleportGeneralComponent)
      modifies general`currentTeleportState
      ensures general.currentTeleportState == Selecting
    {
      general.SetTeleportState(Selecting);
    }

    method OnIsInteractingCallback(lrt: LongRangeTeleportComponent, statics: TeleportGeneral.TeleportStatics, f: Sample)
      modifies lrt`loadingTimer, statics
      ensures var r := IsInteractingStep(Validation(old(lrt.loadingTimer), old(statics.canTeleport), old(statics.pointToGoTo)),
                                         lrt.useLoadingTimer, lrt.loadingTime, f);
              lrt.loadingTimer == r.loadingTimer && statics.canTeleport == r.canTeleport && statics.pointToGoTo == r.pointToGoTo
    {
      lrt.loadingTimer := lrt.loadingTimer + f.deltaTime;
      if f.hitNotOnUI {
        statics.pointToGoTo := f.linecastPoint;
        statics.canTeleport := if lrt.useLoadingTimer then f.endOnNavmesh && lrt.loadingTimer > lrt.loadingTime else f.endOnNavmesh;
      } else {
        statics.canTeleport := false;
      }
    }

    /**
     * OnStopInteractingCallback. `teleportRequested` stands for the
     * OnTeleportUser event TeleportUser raises.
     */
    method OnStopInteractingCallback(general: TeleportGeneral.TeleportGeneralComponent, statics: TeleportGeneral.TeleportStatics)
      returns (teleportRequested: bool)
      modifies general`currentTeleportState
      ensures teleportRequested == statics.canTeleport
      ensures teleportRequested ==> general.currentTeleportState == old(general.currentTeleportState)
      ensures !teleportRequested ==> general.currentTeleportState == None
    {
      if statics.canTeleport {
        teleportRequested := true;
      } else {
        teleportRequested := false;
        general.SetTeleportState(None);
      }
    }
  }
}
