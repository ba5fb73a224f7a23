/**
 * TeleportUserSystem (the curve teleporter): every frame, each entity in the
 * Teleporting state either is moved at once (no fade component) or goes
 * through the fade: after half the fade duration the fade-out ends and the rig
 * is moved, after another half the fade-in ends and the state returns to None.
 * The clock (`Time.time`) is the parameter `now`.
 */
module TeleportUser {
  import opened Types
  import UtilsSetupVR

  /** The CameraFadeComponent fields this system reads and writes. */
  datatype Fade = Fade(timeMarker: real, fadingIn: bool, fadeDuration: real, state: TeleportState)

  /** The rig moves (`NonNull(point)`) or not (`Null`) in one step. */
  datatype FadeOutcome = FadeOutcome(entityState: TeleportState, fade: Fade, relocation: Nullable<Vec3>)

  /** Half of the fade duration has elapsed since the time marker. */
  predicate HalfElapsed(fade: Fade, now: real)
  {
    now - fade.timeMarker >= fade.fadeDuration / 2.0
  }

  /** HandleTeleportingState. */
  function FadeStep(entityState: TeleportState, fade: Fade, selectedPoint: Vec3, now: real): (r: FadeOutcome)
    // before the half-duration mark nothing changes
    ensures !HalfElapsed(fade, now) ==> r == FadeOutcome(entityState, fade, Null)
    // each crossing resets the marker and flips the phase, and keeps the duration
    ensures HalfElapsed(fade, now) ==>
              r.fade.timeMarker == now && r.fade.fadingIn == !fade.fadingIn && r.fade.fadeDuration == fade.fadeDuration
    // end of the fade-out: relocation to the selected point, states kept
    ensures HalfElapsed(fade, now) && !fade.fadingIn ==>
              r.relocation == NonNull(selectedPoint) && r.entityState == entityState && r.fade.state == fade.state
    // end of the fade-in: both states None, no relocation
    ensures HalfElapsed(fade, now) && fade.fadingIn ==>
              r.relocation == Null && r.entityState == None && r.fade.state == None
  {
    if now - fade.timeMarker >= fade.fadeDuration / 2.0 then
      var flipped := fade.(timeMarker := now, fadingIn := !fade.fadingIn);
      if fade.fadingIn then FadeOutcome(None, flipped.(state := None), Null)
      else FadeOutcome(entityState, flipped, NonNull(selectedPoint))
    else
      FadeOutcome(entityState, fade, Null)
  }

  /** One entity of the system's filter, as values. */
  datatype Entity = Entity(state: TeleportState, fade: Nullable<Fade>, selectedPoint: Vec3)

  datatype Frame = Frame(entity: Entity, relocation: Nullable<Vec3>)

  /** What OnUpdate does to one entity. */
  function EntityFrame(e: Entity, now: real): (r: Frame)
    // an entity that is not teleporting is left alone
    ensures e.state != Teleporting ==> r == Frame(e, Null)
    // without a fade the rig goes to the selected point and the state is kept
    ensures e.state == Teleporting && e.fade.Null? ==> r == Frame(e, NonNull(e.selectedPoint))
    // the selected point, and whether there is a fade component, never change
    ensures r.entity.selectedPoint == e.selectedPoint && r.entity.fade.Null? == e.fade.Null?
    // only the selected point is ever a destination
    ensures r.relocation.NonNull? ==> r.relocation.value == e.selectedPoint
  {
    if e.state != Teleporting then Frame(e, Null)
    else match e.fade
      case Null => Frame(e, NonNull(e.selectedPoint))
      case NonNull(f) =>
        var o := FadeStep(e.state, f, e.selectedPoint, now);
        Frame(Entity(o.entityState, NonNull(o.fade), e.selectedPoint), o.relocation)
  }

  /** The entity after a run of frames at the given times, and the relocations made. */
  datatype Trace = Trace(final: Entity, relocations: seq<Vec3>)

  function Run(e: Entity, times: seq<real>): (r: Trace)
    decreases |times|
  {
    if times == [] then Trace(e, [])
    else
      var f := EntityFrame(e, times[0]);
      var rest := Run(f.entity, times[1..]);
      Trace(rest.final, (if f.relocation.NonNull? then [f.relocation.value] else []) + rest.relocations)
  }

  /** How many relocations are still to come: one while fading out, none after. */
  function Pending(e: Entity): nat
  {
    if e.state == Teleporting && e.fade.NonNull? && !e.fade.value.fadingIn then 1 else 0
  }

  /**
   * With a fade component, a whole run of frames moves the rig at most once
   * per fade-out, always to the selected point.
   */
  lemma {:induction false} AtMostOneRelocation(e: Entity, times: seq<real>)
    requires e.fade.NonNull?
    ensures |Run(e, times).relocations| <= Pending(e)
    ensures forall p :: p in Run(e, times).relocations ==> p == e.selectedPoint
    decreases |times|
  {
    if times != [] {
      var f := EntityFrame(e, times[0]);
      AtMostOneRelocation(f.entity, times[1..]);
      if f.relocation.NonNull? {
        assert Pending(f.entity) == 0;
      } else {
        assert Pending(f.entity) <= Pending(e);
      }
    }
  }

  /**
   * Starting a fade-out, a crossing followed by another crossing gives exactly
   * one relocation, and leaves the entity and the fade in state None.
   */
  lemma TwoCrossings(e: Entity, t1: real, t2: real)
    requires e.state == Teleporting && e.fade.NonNull? && !e.fade.value.fadingIn
    requires HalfElapsed(e.fade.value, t1)
    requires t2 - t1 >= e.fade.value.fadeDuration / 2.0
    ensures Run(e, [t1, t2]).relocations == [e.selectedPoint]
    ensures Run(e, [t1, t2]).final.state == None && Run(e, [t1, t2]).final.fade.NonNull?
    ensures Run(e, [t1, t2]).final.fade.value.state == None
    ensures !Run(e, [t1, t2]).final.fade.value.fadingIn && Run(e, [t1, t2]).final.fade.value.timeMarker == t2
  {
    var f1 := EntityFrame(e, t1);
    assert f1.entity.fade.value.timeMarker == t1;
    assert [t1, t2][1..] == [t2];
    var f2 := EntityFrame(f1.entity, t2);
    assert Run(f1.entity, [t2]) == Trace(f2.entity, []) by {
      assert [t2][1..] == [];
    }
  }

  /** Without a fade component this system never ends the teleport, it keeps placing the rig. */
  lemma {:induction false} NoFadeStaysTeleporting(e: Entity, times: seq<real>)
    requires e.state == Teleporting && e.fade.Null?
    ensures Run(e, times).final == e
    ensures Run(e, times).relocations == seq(|times|, _ => e.selectedPoint)
    decreases |times|
  {
    if times != [] {
      NoFadeStaysTeleporting(e, times[1..]);
    }
  }

  /** CameraFadeComponent. */
  class FadeComponent {
    var teleportTimeMarker: real
    var fadingIn: bool
    var teleportFadeDuration: real
    var teleportState: TeleportState

    function Value(): Fade
      reads this
    {
      Fade(teleportTimeMarker, fadingIn, teleportFadeDuration, teleportState)
    }
  }

  /** The filter: TeleportCalculationsComponent, SceneObjectsComponent and PointerCalculationsComponent. */
  class TeleportUserEntity {
    var currentTeleportState: TeleportState
    var fadeComponent: FadeComponent?
    var selectedPoint: Vec3

    function Value(): Entity
      reads this, fadeComponent
    {
      Entity(currentTeleportState, if fadeComponent == null then Null else NonNull(fadeComponent.Value()), selectedPoint)
    }
  }

  class TeleportUserSystem {

    method HandleTeleportingState(e: TeleportUserEntity, rig: UtilsSetupVR.VRSFComponents, now: real)
      requires e.fadeComponent != null && rig.hasCameraRig
      modifies e`currentTeleportState, e.fadeComponent, rig`cameraRigPosition
      ensures var o := FadeStep(old(e.currentTeleportState), old(e.fadeComponent.Value()), e.selectedPoint, now);
              && e.currentTeleportState == o.entityState
              && e.fadeComponent.Value() == o.fade
              && rig.cameraRigPosition == (if o.relocation.NonNull? then o.relocation.value else old(rig.cameraRigPosition))
    {
      var fade := e.fadeComponent;
      if now - fade.teleportTimeMarker >= fade.teleportFadeDuration / 2.0 {
        if fade.fadingIn {
          e.currentTeleportState := None;
          fade.teleportState := None;
        } else {
          rig.SetCameraRigPosition(e.selectedPoint, true, 1.8);
        }
        fade.teleportTimeMarker := now;
        fade.fadingIn := !fade.fadingIn;
      }
    }

    /** The body of the OnUpdate loop for one entity. */
    method UpdateEntity(e: TeleportUserEntity, rig: UtilsSetupVR.VRSFComponents, now: real)
      requires rig.hasCameraRig
      modifies e`currentTeleportState, e.fadeComponent, rig`cameraRigPosition
      ensures var f := EntityFrame(old(e.Value()), now);
              && e.Value() == f.entity
              && rig.cameraRigPosition == (if f.relocation.NonNull? then f.relocation.value else old(rig.cameraRigPosition))
    {
      if e.currentTeleportState == Teleporting {
        if e.fadeComponent != null {
          HandleTeleportingState(e, rig, now);
        } else {
          rig.SetCameraRigPosition(e.selectedPoint, true, 1.8);
        }
      }
    }

    method OnUpdate(entities: seq<TeleportUserEntity>, rig: UtilsSetupVR.VRSFComponents, now: real)
      requires rig.hasCameraRig
      modifies set e | e in entities
      modifies set e | e in entities && e.fadeComponent != null :: e.fadeComponent
      modifies rig`cameraRigPosition
      ensures forall e :: e in entities ==> e.fadeComponent == old(e.fadeComponent) && e.selectedPoint == old(e.selectedPoint)
      ensures forall e :: e in entities && old(e.currentTeleportState) != Teleporting ==>
                e.currentTeleportState == old(e.currentTeleportState)
      ensures forall e :: e in entities && old(e.currentTeleportState) == Teleporting && e.fadeComponent == null ==>
                e.currentTeleportState == Teleporting
      ensures rig.cameraRigPosition == old(rig.cameraRigPosition)
              || exists e :: e in entities && old(e.currentTeleportState) == Teleporting && rig.cameraRigPosition == e.selectedPoint
      ensures |entities| == 1 ==>
                var f := EntityFrame(old(entities[0].Value()), now);
                && entities[0].Value() == f.entity
                && rig.cameraRigPosition == (if f.relocation.NonNull? then f.relocation.value else old(rig.cameraRigPosition))
    {
      var i := 0;
      while i < |entities|
        invariant 0 <= i <= |entities|
        invariant forall e :: e in entities ==> e.fadeComponent == old(e.fadeComponent) && e.selectedPoint == old(e.selectedPoint)
        invariant forall e :: e in entities && old(e.currentTeleportState) != Teleporting ==>
                    e.currentTeleportState == old(e.currentTeleportState)
        invariant forall e :: e in entities && old(e.currentTeleportState) == Teleporting && e.fadeComponent == null ==>
                    e.currentTeleportState == Teleporting
        invariant rig.cameraRigPosition == old(rig.cameraRigPosition)
                  || exists e :: e in entities && old(e.currentTeleportState) == Teleporting && rig.cameraRigPosition == e.selectedPoint
        invariant |entities| == 1 && i == 0 ==>
                    entities[0].Value() == old(entities[0].Value()) && rig.cameraRigPosition == old(rig.cameraRigPosition)
        invariant |entities| == 1 && i == 1 ==>
                    var f := EntityFrame(old(entities[0].Value()), now);
                    && entities[0].Value() == f.entity
                    && rig.cameraRigPosition == (if f.relocation.NonNull? then f.relocation.value else old(rig.cameraRigPosition))
      {
        var e := entities[i];
        ghost var before := rig.cameraRigPosition;
        UpdateEntity(e, rig, now);
        if rig.cameraRigPosition != before {
          assert e in entities && old(e.currentTeleportState) == Teleporting && rig.cameraRigPosition == e.selectedPoint;
        }
        i := i + 1;
      }
    }
  }
}
