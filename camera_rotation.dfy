/**
 * CameraRotationWithAccelerationSystem: while the BAC button of a rotation
 * entity is held, the camera rig turns around the eyes with a speed that
 * slides up and down instead of jumping. The frame time `Time.deltaTime`, the
 * raycast test `RaycastHitIsOnUI`, the thumbstick x axis and the eyes
 * position are parameters; `RotateAround` on the rig is returned as a value.
 */
module CameraRotation {
  import opened Types
  import opened BACGeneral

  /** A call of `CameraRig.transform.RotateAround(point, axis, angle)`. */
  datatype RigRotation = RigRotation(point: Vec3, axis: Vec3, angle: real)

  /** The fields of CameraRotationComponent the handler writes. */
  datatype Motion = Motion(currentSpeed: real, lastThumbPos: real)

  /** The motion after one call, and the rotation of the rig it performs, if any. */
  datatype MotionStep = MotionStep(motion: Motion, rotation: Nullable<RigRotation>)

  /** Below this speed a rotating user accelerates. */
  function SpeedCap(maxSpeed: real): real
  {
    maxSpeed / 20.0
  }

  /** The speed change of one call. */
  function SpeedDelta(dt: real, maxSpeed: real): real
  {
    dt * (maxSpeed / 50.0)
  }

  /**
   * HandleRotationWithAcceleration. The source also computes an
   * `isDecelerating` flag that nothing reads: every call that does not
   * accelerate slows down, whether the user is rotating or not.
   */
  function HandleRotationWithAcceleration(m: Motion, isRotating: bool, maxSpeed: real, dt: real, thumbX: real,
                                          hitOnUI: bool, eyes: Vec3): (r: MotionStep)
    // aiming at the UI: nothing changes and the rig does not turn
    ensures hitOnUI ==> r == MotionStep(m, Null)
    // the thumb position is recorded only while rotating
    ensures !hitOnUI ==> r.motion.lastThumbPos == if isRotating then thumbX else m.lastThumbPos
    // accelerate exactly when rotating below the cap, otherwise slow down, with no clamp at zero
    ensures !hitOnUI && isRotating && m.currentSpeed < SpeedCap(maxSpeed) ==>
              r.motion.currentSpeed == m.currentSpeed + SpeedDelta(dt, maxSpeed)
    ensures !hitOnUI && !(isRotating && m.currentSpeed < SpeedCap(maxSpeed)) ==>
              r.motion.currentSpeed == m.currentSpeed - SpeedDelta(dt, maxSpeed)
    // the rig turns exactly when the new speed is positive, about the vertical axis scaled by the thumb position
    ensures r.rotation.NonNull? <==> !hitOnUI && r.motion.currentSpeed > 0.0
    ensures r.rotation.NonNull? ==>
              r.rotation.value == RigRotation(eyes, Vec3(0.0, r.motion.lastThumbPos, 0.0), r.motion.currentSpeed)
  {
    if hitOnUI then MotionStep(m, Null)
    else
      var isAccelerating := isRotating && m.currentSpeed < SpeedCap(maxSpeed);
      var delta := SpeedDelta(dt, maxSpeed);
      var lastThumbPos := if isRotating then thumbX else m.lastThumbPos;
      var speed := m.currentSpeed + (if isAccelerating then delta else -delta);
      MotionStep(Motion(speed, lastThumbPos),
                 if speed > 0.0 then NonNull(RigRotation(eyes, Vec3(0.0, lastThumbPos, 0.0), speed)) else Null)
  }

  /** `n` calls off the UI with the same inputs, as while the button is held still. */
  function Repeat(m: Motion, isRotating: bool, maxSpeed: real, dt: real, thumbX: real, eyes: Vec3, n: nat): Motion
    decreases n
  {
    if n == 0 then m
    else Repeat(HandleRotationWithAcceleration(m, isRotating, maxSpeed, dt, thumbX, false, eyes).motion,
                isRotating, maxSpeed, dt, thumbX, eyes, n - 1)
  }

  /**
   * Without rotation the speed falls by the same amount on every call and is
   * never clamped: after `n` calls it is `n` deltas lower, below zero as soon
   * as it started at zero, and the thumb position stays as recorded.
   */
  lemma {:induction false} ReleasedSpeedFallsUnclamped(m: Motion, maxSpeed: real, dt: real, thumbX: real, eyes: Vec3, n: nat)
    ensures Repeat(m, false, maxSpeed, dt, thumbX, eyes, n).currentSpeed == m.currentSpeed - (n as real) * SpeedDelta(dt, maxSpeed)
    ensures Repeat(m, false, maxSpeed, dt, thumbX, eyes, n).lastThumbPos == m.lastThumbPos
    decreases n
  {
    if n > 0 {
      var next := HandleRotationWithAcceleration(m, false, maxSpeed, dt, thumbX, false, eyes).motion;
      ReleasedSpeedFallsUnclamped(next, maxSpeed, dt, thumbX, eyes, n - 1);
    }
  }

  /**
   * While rotating, the speed never climbs more than one delta past the cap:
   * it accelerates below the cap and slows down at or above it.
   */
  lemma {:induction false} HeldSpeedStaysNearCap(m: Motion, maxSpeed: real, dt: real, thumbX: real, eyes: Vec3, n: nat)
    requires SpeedDelta(dt, maxSpeed) >= 0.0
    requires m.currentSpeed <= SpeedCap(maxSpeed) + SpeedDelta(dt, maxSpeed)
    ensures Repeat(m, true, maxSpeed, dt, thumbX, eyes, n).currentSpeed <= SpeedCap(maxSpeed) + SpeedDelta(dt, maxSpeed)
    ensures n > 0 ==> Repeat(m, true, maxSpeed, dt, thumbX, eyes, n).lastThumbPos == thumbX
    decreases n
  {
    if n > 0 {
      var next := HandleRotationWithAcceleration(m, true, maxSpeed, dt, thumbX, false, eyes).motion;
      HeldSpeedStaysNearCap(next, maxSpeed, dt, thumbX, eyes, n - 1);
    }
  }

  /**
   * What Init reads of one entity: the acceleration flag, the action button,
   * and whether SetupListenersResponses throws for it.
   */
  datatype InitEntry = InitEntry(useAccelerationEffect: bool, actionButton: Button, setupThrows: bool)

  /** An entity Init goes past: no acceleration effect, the touchpad as action button, and a setup that completes. */
  predicate Passes(e: InitEntry)
  {
    !e.useAccelerationEffect && e.actionButton == Touchpad && !e.setupThrows
  }

  /** The entity at which Init stops, or the number of entities if it goes through all of them. */
  function InitStop(es: seq<InitEntry>): (n: nat)
    ensures n <= |es|
    ensures forall i :: 0 <= i < n ==> Passes(es[i])
    ensures n < |es| ==> !Passes(es[n])
  {
    if es == [] || !Passes(es[0]) then 0 else 1 + InitStop(es[1..])
  }

  /** The listener table after SetupListenersResponses, or the null dereference that aborts it. */
  datatype Wiring = Wired(table: EventTable) | NullReference

  /** When the setup as written dereferences a missing event: it only goes on when OnButtonIsClicking is null. */
  predicate SetupThrows(clickingIsNull: bool, touchingIsNull: bool, itype: InteractionType)
  {
    clickingIsNull && (HasFlag(itype, CLICK) || (HasFlag(itype, TOUCH) && touchingIsNull))
  }

  /**
   * SetupListenersResponses as written: the listeners are added only when
   * OnButtonIsClicking is null, and then on that null event.
   */
  function SetupListenersAsWritten(clickingIsNull: bool, touchingIsNull: bool, t: EventTable,
                                   itype: InteractionType, id: nat): (r: Wiring)
    // it throws exactly when it reaches a missing event
    ensures r.NullReference? <==> SetupThrows(clickingIsNull, touchingIsNull, itype)
    // the only listener it can add is the handler, on the touching event, and only when clicking is null
    ensures r.Wired? ==>
              && Listeners(r.table, IsTouching)
                 == Listeners(t, IsTouching) + (if clickingIsNull && HasFlag(itype, TOUCH) then [RotationWithAcceleration(id)] else [])
              && (forall ev :: ev != IsTouching ==> Listeners(r.table, ev) == Listeners(t, ev))
  {
    if !clickingIsNull then Wired(t)
    else if HasFlag(itype, CLICK) then NullReference
    else if HasFlag(itype, TOUCH) then
      (if touchingIsNull then NullReference else Wired(AddListener(t, IsTouching, RotationWithAcceleration(id))))
    else Wired(t)
  }

  /** As written, the handler is never registered on an event that exists, and a CLICK entity never gets it. */
  lemma AsWrittenNeverWiresLiveEvents(clickingIsNull: bool, touchingIsNull: bool, t: EventTable,
                                      itype: InteractionType, id: nat)
    ensures !clickingIsNull ==> SetupListenersAsWritten(clickingIsNull, touchingIsNull, t, itype, id) == Wired(t)
    ensures clickingIsNull && HasFlag(itype, CLICK) ==>
              SetupListenersAsWritten(clickingIsNull, touchingIsNull, t, itype, id) == NullReference
    ensures var r := SetupListenersAsWritten(clickingIsNull, touchingIsNull, t, itype, id);
            r.Wired? ==> Listeners(r.table, IsClicking) == Listeners(t, IsClicking)
  {
  }

  /**
   * SetupListenersResponses with the guard the code evidently intends
   * (`OnButtonIsClicking != null`): the handler is added to the held events
   * of the selected kinds.
   */
  function SetupListenersIntended(clickingIsNull: bool, touchingIsNull: bool, t: EventTable,
                                  itype: InteractionType, id: nat): Wiring
  {
    if clickingIsNull then Wired(t)
    else
      var t1 := if HasFlag(itype, CLICK) then AddListener(t, IsClicking, RotationWithAcceleration(id)) else t;
      if HasFlag(itype, TOUCH) then
        (if touchingIsNull then NullReference else Wired(AddListener(t1, IsTouching, RotationWithAcceleration(id))))
      else Wired(t1)
  }

  /** RemoveListeners: every listener of the selected held events goes, not only the handler. */
  function RemoveRotationListeners(t: EventTable, itype: InteractionType): (r: EventTable)
    ensures HasFlag(itype, CLICK) ==> Listeners(r, IsClicking) == []
    ensures HasFlag(itype, TOUCH) ==> Listeners(r, IsTouching) == []
    ensures forall ev :: !(ev == IsClicking && HasFlag(itype, CLICK)) && !(ev == IsTouching && HasFlag(itype, TOUCH))
                         ==> Listeners(r, ev) == Listeners(t, ev)
  {
    var t1 := if HasFlag(itype, CLICK) then RemoveAllListeners(t, IsClicking) else t;
    if HasFlag(itype, TOUCH) then RemoveAllListeners(t1, IsTouching) else t1
  }

  /**
   * With both events present the corrected setup adds the handler once to
   * each selected held event and to nothing else, and RemoveListeners then
   * empties exactly those events.
   */
  lemma SetupWiresSelectedEvents(t: EventTable, itype: InteractionType, id: nat)
    ensures SetupListenersIntended(false, false, t, itype, id).Wired?
    ensures var r := SetupListenersIntended(false, false, t, itype, id).table;
            && Listeners(r, IsClicking) == Listeners(t, IsClicking) + (if HasFlag(itype, CLICK) then [RotationWithAcceleration(id)] else [])
            && Listeners(r, IsTouching) == Listeners(t, IsTouching) + (if HasFlag(itype, TOUCH) then [RotationWithAcceleration(id)] else [])
            && (forall ev :: ev != IsClicking && ev != IsTouching ==> Listeners(r, ev) == Listeners(t, ev))
    ensures var r := RemoveRotationListeners(SetupListenersIntended(false, false, t, itype, id).table, itype);
            && (HasFlag(itype, CLICK) ==> Listeners(r, IsClicking) == [])
            && (HasFlag(itype, TOUCH) ==> Listeners(r, IsTouching) == [])
            && (forall ev :: ev != IsClicking && ev != IsTouching ==> Listeners(r, ev) == Listeners(t, ev))
  {
  }

  /**
   * As written, a setup followed by RemoveListeners leaves the table as a
   * RemoveListeners alone would: the only listener the setup can add is on
   * an event that RemoveListeners empties.
   */
  lemma RemoveUndoesSetupAsWritten(clickingIsNull: bool, touchingIsNull: bool, t: EventTable,
                                   itype: InteractionType, id: nat)
    requires !SetupThrows(clickingIsNull, touchingIsNull, itype)
    ensures forall ev :: Listeners(RemoveRotationListeners(SetupListenersAsWritten(clickingIsNull, touchingIsNull, t, itype, id).table, itype), ev)
                         == Listeners(RemoveRotationListeners(t, itype), ev)
  {
    var w := SetupListenersAsWritten(clickingIsNull, touchingIsNull, t, itype, id).table;
    forall ev
      ensures Listeners(RemoveRotationListeners(w, itype), ev) == Listeners(RemoveRotationListeners(t, itype), ev)
    {
      if ev == IsTouching && !HasFlag(itype, TOUCH) {
        assert !(clickingIsNull && HasFlag(itype, TOUCH));
      }
    }
  }

  /** CameraRotationComponent. */
  class CameraRotationComponent {
    const maxSpeed: real
    const useAccelerationEffect: bool
    /** Set by the input side of the rotation, which is not part of this model. */
    var isRotating: bool
    var currentSpeed: real
    var lastThumbPos: real

    /** A freshly added component, with the field initialisers of the source. */
    constructor ()
      ensures maxSpeed == 1.0 && useAccelerationEffect && currentSpeed == 0.0
    {
      maxSpeed := 1.0;
      useAccelerationEffect := true;
      currentSpeed := 0.0;
    }

    function CurrentMotion(): Motion
      reads this
    {
      Motion(currentSpeed, lastThumbPos)
    }
  }

  /** One entity of the system's filter. */
  class RotationFilter {
    const rotationComp: CameraRotationComponent
    const bacGeneral: BACGeneralComponent
    const bacCalculations: BACCalculationsComponent

    constructor (rotationComp: CameraRotationComponent, bacGeneral: BACGeneralComponent,
                 bacCalculations: BACCalculationsComponent)
      ensures this.rotationComp == rotationComp && this.bacGeneral == bacGeneral
      ensures this.bacCalculations == bacCalculations
    {
      this.rotationComp := rotationComp;
      this.bacGeneral := bacGeneral;
      this.bacCalculations := bacCalculations;
    }
  }

  /**
   * What Init reads of each entity; `clickingIsNull` and `touchingIsNull` say
   * which of its held events are missing.
   */
  function Entries(entities: seq<RotationFilter>, clickingIsNull: seq<bool>, touchingIsNull: seq<bool>): (r: seq<InitEntry>)
    requires |clickingIsNull| == |entities| && |touchingIsNull| == |entities|
    reads Bacs(entities)`actionButton, Bacs(entities)`interactionType
    ensures |r| == |entities|
    ensures forall i :: 0 <= i < |entities| ==>
              r[i] == InitEntry(entities[i].rotationComp.useAccelerationEffect, entities[i].bacGeneral.actionButton,
                                SetupThrows(clickingIsNull[i], touchingIsNull[i], entities[i].bacGeneral.interactionType))
  {
    if entities == [] then []
    else [InitEntry(entities[0].rotationComp.useAccelerationEffect, entities[0].bacGeneral.actionButton,
                    SetupThrows(clickingIsNull[0], touchingIsNull[0], entities[0].bacGeneral.interactionType))]
         + Entries(entities[1..], clickingIsNull[1..], touchingIsNull[1..])
  }

  /** Each entity's BAC. */
  function Bacs(entities: seq<RotationFilter>): (r: seq<BACGeneralComponent>)
    ensures |r| == |entities| && forall i :: 0 <= i < |entities| ==> r[i] == entities[i].bacGeneral
  {
    if entities == [] then [] else [entities[0].bacGeneral] + Bacs(entities[1..])
  }

  /** Each entity's BAC calculations component. */
  function Calcs(entities: seq<RotationFilter>): (r: seq<BACCalculationsComponent>)
    ensures |r| == |entities| && forall i :: 0 <= i < |entities| ==> r[i] == entities[i].bacCalculations
  {
    if entities == [] then [] else [entities[0].bacCalculations] + Calcs(entities[1..])
  }

  /** The listener table of each entity's BAC. */
  function Tables(entities: seq<RotationFilter>): (r: seq<EventTable>)
    reads Bacs(entities)
    ensures |r| == |entities| && forall i :: 0 <= i < |entities| ==> r[i] == entities[i].bacGeneral.events
  {
    if entities == [] then [] else [entities[0].bacGeneral.events] + Tables(entities[1..])
  }

  /** Whether each entity's BAC can be used. */
  function CanBeUsed(entities: seq<RotationFilter>): (r: seq<bool>)
    reads Calcs(entities)
    ensures |r| == |entities| && forall i :: 0 <= i < |entities| ==> r[i] == entities[i].bacCalculations.canBeUsed
  {
    if entities == [] then [] else [entities[0].bacCalculations.canBeUsed] + CanBeUsed(entities[1..])
  }

  /**
   * The listener tables after Init's first `k` entities: each of them has its
   * listeners set up as written, the others keep their tables.
   */
  ghost predicate WiredUpTo(entities: seq<RotationFilter>, clickingIsNull: seq<bool>, touchingIsNull: seq<bool>,
                            tables: seq<EventTable>, k: nat)
    reads Bacs(entities)
  {
    && |clickingIsNull| == |entities| && |touchingIsNull| == |entities| && |tables| == |entities|
    && k <= |entities|
    && (forall i :: 0 <= i < k ==>
          SetupListenersAsWritten(clickingIsNull[i], touchingIsNull[i], tables[i], entities[i].bacGeneral.interactionType, i)
          == Wired(entities[i].bacGeneral.events))
    && (forall i :: k <= i < |entities| ==> entities[i].bacGeneral.events == tables[i])
  }

  /**
   * The state of Init's loop after its first `k` entities: the entries and
   * the fields they come from are as at the start, the first `k` entities
   * have their listeners set up as written and the others keep their
   * tables, and only entity `k`, when `marked`, has lost `canBeUsed`.
   */
  ghost predicate InitReached(entities: seq<RotationFilter>, clickingIsNull: seq<bool>, touchingIsNull: seq<bool>,
                              entries: seq<InitEntry>, tables: seq<EventTable>, cans: seq<bool>, k: nat, marked: bool)
    reads Bacs(entities), Calcs(entities)
  {
    && |entries| == |entities| && |cans| == |entities|
    && WiredUpTo(entities, clickingIsNull, touchingIsNull, tables, k)
    && (forall i :: 0 <= i < |entities| ==>
          entries[i] == InitEntry(entities[i].rotationComp.useAccelerationEffect, entities[i].bacGeneral.actionButton,
                                  SetupThrows(clickingIsNull[i], touchingIsNull[i], entities[i].bacGeneral.interactionType)))
    && (forall i :: 0 <= i < |entities| ==>
          entities[i].bacCalculations.canBeUsed == if marked && i == k then false else cans[i])
  }

  /**
   * What Init promises, given each entity's entry, listener table and
   * `canBeUsed` at the start: it went through the entities before the first
   * one that does not pass (InitStop) and set up each one's listeners as
   * written, with its own index as handler; it faulted exactly when it
   * stopped at an entity with the touchpad and no acceleration effect (the
   * setup threw there); the stopping entity lost `canBeUsed` exactly when
   * its action button is not the touchpad, and nothing else changed.
   */
  ghost predicate InitDone(entities: seq<RotationFilter>, clickingIsNull: seq<bool>, touchingIsNull: seq<bool>,
                           es: seq<InitEntry>, tables: seq<EventTable>, cans: seq<bool>, wired: seq<nat>, faulted: bool)
    reads Bacs(entities), Calcs(entities)
  {
    && |es| == |entities| && |tables| == |entities| && |cans| == |entities|
    && |clickingIsNull| == |entities| && |touchingIsNull| == |entities|
    && var stop := InitStop(es);
       && |wired| == stop && (forall i :: 0 <= i < stop ==> wired[i] == i)
       && (faulted <==> stop < |entities| && !es[stop].useAccelerationEffect && es[stop].actionButton == Touchpad)
       && (forall i :: 0 <= i < |entities| ==>
             entities[i].bacCalculations.canBeUsed
             == if i == stop && !es[i].useAccelerationEffect && es[i].actionButton != Touchpad then false else cans[i])
       && (forall i :: 0 <= i < |entities| ==>
             if i < stop
             then SetupListenersAsWritten(clickingIsNull[i], touchingIsNull[i], tables[i],
                                          entities[i].bacGeneral.interactionType, i) == Wired(entities[i].bacGeneral.events)
             else entities[i].bacGeneral.events == tables[i])
  }

  /** Where Init's loop ends, its state is what Init promises. */
  lemma InitReachedEnd(entities: seq<RotationFilter>, clickingIsNull: seq<bool>, touchingIsNull: seq<bool>,
                       entries: seq<InitEntry>, tables: seq<EventTable>, cans: seq<bool>, k: nat, marked: bool,
                       wired: seq<nat>, faulted: bool)
    requires InitReached(entities, clickingIsNull, touchingIsNull, entries, tables, cans, k, marked)
    requires k == InitStop(entries) && |wired| == k && forall i :: 0 <= i < k ==> wired[i] == i
    requires marked <==> k < |entities| && !entries[k].useAccelerationEffect && entries[k].actionButton != Touchpad
    requires faulted <==> k < |entities| && !entries[k].useAccelerationEffect && entries[k].actionButton == Touchpad
    ensures InitDone(entities, clickingIsNull, touchingIsNull, entries, tables, cans, wired, faulted)
  {
  }

  /** Init's loop ends at the first entry that does not pass. */
  lemma InitStopsAt(es: seq<InitEntry>, k: nat)
    requires k <= InitStop(es) && k < |es| && !Passes(es[k])
    ensures InitStop(es) == k
  {
  }

  /** An entry that passes lets Init's loop go on past it. */
  lemma InitGoesPast(es: seq<InitEntry>, k: nat)
    requires k <= InitStop(es) && k < |es| && Passes(es[k])
    ensures k + 1 <= InitStop(es)
  {
  }

  /** When RemoveListeners dereferences a missing event: one of the selected held events is null. */
  predicate RemoveThrows(clickingIsNull: bool, touchingIsNull: bool, itype: InteractionType)
  {
    (HasFlag(itype, CLICK) && clickingIsNull) || (HasFlag(itype, TOUCH) && touchingIsNull)
  }

  class CameraRotationWithAccelerationSystem {

    method HandleRotationStep(rot: CameraRotationComponent, dt: real, thumbX: real, hitOnUI: bool, eyes: Vec3)
      returns (rotation: Nullable<RigRotation>)
      modifies rot`currentSpeed, rot`lastThumbPos
      ensures MotionStep(rot.CurrentMotion(), rotation)
              == HandleRotationWithAcceleration(old(rot.CurrentMotion()), rot.isRotating, rot.maxSpeed, dt, thumbX, hitOnUI, eyes)
    {
      rotation := Null;
      if !hitOnUI {
        var isAccelerating := rot.isRotating && rot.currentSpeed < rot.maxSpeed / 20.0;
        var maxSpeedTimeDeltaTime := dt * (rot.maxSpeed / 50.0);
        rot.lastThumbPos := if rot.isRotating then thumbX else rot.lastThumbPos;
        rot.currentSpeed := rot.currentSpeed + (if isAccelerating then maxSpeedTimeDeltaTime else -maxSpeedTimeDeltaTime);
        if rot.currentSpeed > 0.0 {
          rotation := NonNull(RigRotation(eyes, Vec3(0.0, rot.lastThumbPos, 0.0), rot.currentSpeed));
        }
      }
    }

    /**
     * SetupListenersResponses, as written; `clickingIsNull` and
     * `touchingIsNull` say which held events are missing. `faulted` when it
     * dereferences one, which happens before it adds anything.
     */
    method SetupListenersResponses(e: RotationFilter, id: nat, clickingIsNull: bool, touchingIsNull: bool)
      returns (faulted: bool)
      modifies e.bacGeneral`events
      ensures var w := SetupListenersAsWritten(clickingIsNull, touchingIsNull, old(e.bacGeneral.events),
                                               e.bacGeneral.interactionType, id);
              && (faulted <==> w.NullReference?)
              && e.bacGeneral.events == if w.Wired? then w.table else old(e.bacGeneral.events)
    {
      faulted := false;
      var bac := e.bacGeneral;
      if clickingIsNull {
        if HasFlag(bac.interactionType, CLICK) {
          faulted := true;
          return;
        }
        if HasFlag(bac.interactionType, TOUCH) {
          if touchingIsNull {
            faulted := true;
            return;
          }
          bac.events := AddListener(bac.events, IsTouching, RotationWithAcceleration(id));
        }
      }
    }

    /**
     * RemoveListeners: the selected held events lose all their listeners.
     * `faulted` when a selected event is missing; the clicking event is
     * emptied before the touching one is reached.
     */
    method RemoveListeners(e: RotationFilter, clickingIsNull: bool, touchingIsNull: bool) returns (faulted: bool)
      modifies e.bacGeneral`events
      ensures faulted <==> RemoveThrows(clickingIsNull, touchingIsNull, e.bacGeneral.interactionType)
      ensures !faulted ==> e.bacGeneral.events == RemoveRotationListeners(old(e.bacGeneral.events), e.bacGeneral.interactionType)
      ensures faulted ==>
                e.bacGeneral.events
                == if HasFlag(e.bacGeneral.interactionType, CLICK) && !clickingIsNull
                   then RemoveAllListeners(old(e.bacGeneral.events), IsClicking)
                   else old(e.bacGeneral.events)
    {
      faulted := false;
      var bac := e.bacGeneral;
      if HasFlag(bac.interactionType, CLICK) {
        if clickingIsNull {
          faulted := true;
          return;
        }
        bac.events := RemoveAllListeners(bac.events, IsClicking);
      }
      if HasFlag(bac.interactionType, TOUCH) {
        if touchingIsNull {
          faulted := true;
          return;
        }
        bac.events := RemoveAllListeners(bac.events, IsTouching);
      }
    }

    /**
     * One pass of Init's loop, on entity `k`: `stop` when Init returns there,
     * `faulted` when it returns by a null dereference.
     */
    method InitEntity(entities: seq<RotationFilter>, k: nat, clickingIsNull: seq<bool>, touchingIsNull: seq<bool>,
                      ghost entries: seq<InitEntry>, ghost tables: seq<EventTable>, ghost cans: seq<bool>)
      returns (stop: bool, faulted: bool)
      requires k < |entities|
      requires forall i, j :: 0 <= i < |entities| && 0 <= j < |entities| && i != j ==>
                 entities[i].bacCalculations != entities[j].bacCalculations
                 && entities[i].bacGeneral != entities[j].bacGeneral
      requires InitReached(entities, clickingIsNull, touchingIsNull, entries, tables, cans, k, false)
      modifies entities[k].bacCalculations`canBeUsed, entities[k].bacGeneral`events
      ensures stop <==> !Passes(entries[k])
      ensures faulted <==> stop && !entries[k].useAccelerationEffect && entries[k].actionButton == Touchpad
      ensures InitReached(entities, clickingIsNull, touchingIsNull, entries, tables, cans, if stop then k else k + 1,
                          stop && !entries[k].useAccelerationEffect && entries[k].actionButton != Touchpad)
    {
      var e := entities[k];
      stop, faulted := true, false;
      if e.rotationComp.useAccelerationEffect {
        return;
      }
      if e.bacGeneral.actionButton != Touchpad {
        e.bacCalculations.canBeUsed := false;
        return;
      }
      faulted := SetupListenersResponses(e, k, clickingIsNull[k], touchingIsNull[k]);
      stop := faulted;
    }

    /**
     * Init: `wired` are the entities whose listeners SetupListenersResponses
     * set up, in order, each with its own handler. The first entity with the
     * acceleration effect ends the loop; the first one whose action button
     * is not the touchpad is marked unusable and ends it too; a setup that
     * throws ends it with `faulted`.
     */
    method Init(entities: seq<RotationFilter>, clickingIsNull: seq<bool>, touchingIsNull: seq<bool>)
      returns (wired: seq<nat>, faulted: bool)
      requires |clickingIsNull| == |entities| && |touchingIsNull| == |entities|
      requires forall i, j :: 0 <= i < |entities| && 0 <= j < |entities| && i != j ==>
                 entities[i].bacCalculations != entities[j].bacCalculations
                 && entities[i].bacGeneral != entities[j].bacGeneral
      modifies Calcs(entities)`canBeUsed, Bacs(entities)`events
      ensures InitDone(entities, clickingIsNull, touchingIsNull, old(Entries(entities, clickingIsNull, touchingIsNull)),
                       old(Tables(entities)), old(CanBeUsed(entities)), wired, faulted)
    {
      ghost var entries := Entries(entities, clickingIsNull, touchingIsNull);
      ghost var tables := Tables(entities);
      ghost var cans := CanBeUsed(entities);
      wired := [];
      faulted := false;
      var k := 0;
      while k < |entities|
        invariant k <= InitStop(entries) && !faulted
        invariant |wired| == k && forall i :: 0 <= i < k ==> wired[i] == i
        invariant InitReached(entities, clickingIsNull, touchingIsNull, entries, tables, cans, k, false)
      {
        var halt;
        halt, faulted := InitEntity(entities, k, clickingIsNull, touchingIsNull, entries, tables, cans);
        if halt {
          InitStopsAt(entries, k);
          InitReachedEnd(entities, clickingIsNull, touchingIsNull, entries, tables, cans, k,
                         !entries[k].useAccelerationEffect && entries[k].actionButton != Touchpad, wired, faulted);
          return;
        }
        InitGoesPast(entries, k);
        wired := wired + [k];
        k := k + 1;
      }
      InitReachedEnd(entities, clickingIsNull, touchingIsNull, entries, tables, cans, k, false, wired, faulted);
    }
  }
}
