/**
 * SingleControllerInputCaptureSystem: on the GearVR and the Oculus Go only the
 * back button of the single controller is captured. `Input.GetButtonDown` and
 * `GetButtonUp` of "BackButtonClick" are parameters; the BoolVariable writes
 * are returned in order, because listeners of the variable see each of them.
 */
module SingleControllerInput {
  import opened Types
  import CrossplatformInput

  /** The hand the events carry. */
  function HandOf(isRightHanded: bool): (h: Hand)
    ensures h == Right <==> isRightHanded
    ensures h == Left <==> !isRightHanded
  {
    if isRightHanded then Right else Left
  }

  /** The values written to `BackButtonClick`, in order, and the events raised. */
  datatype BackStep = BackStep(writes: seq<bool>, events: seq<ButtonEvent>)

  /** The value a variable holds after a sequence of writes. */
  function Final(v: bool, writes: seq<bool>): bool
  {
    if writes == [] then v else writes[|writes| - 1]
  }

  /** CheckControllerInput. */
  function CheckBack(isRightHanded: bool, down: bool, up: bool): (r: BackStep)
    // a press writes true then false and raises one click
    ensures down ==> r == BackStep([true, false], [ButtonClick(HandOf(isRightHanded), BackButton)])
    // a release (without a press) writes false and raises one unclick
    ensures !down && up ==> r == BackStep([false], [ButtonUnclick(HandOf(isRightHanded), BackButton)])
    // otherwise nothing
    ensures !down && !up ==> r == BackStep([], [])
  {
    var hand := HandOf(isRightHanded);
    if down then BackStep([true, false], [ButtonClick(hand, BackButton)])
    else if up then BackStep([false], [ButtonUnclick(hand, BackButton)])
    else BackStep([], [])
  }

  /** Whatever the frame, the flag is false at its end or unchanged, and at most one event is raised. */
  lemma BackFlagEndsFalse(v: bool, isRightHanded: bool, down: bool, up: bool)
    ensures var r := CheckBack(isRightHanded, down, up);
            (Final(v, r.writes) == false || r.writes == []) && |r.events| <= 1
    ensures var r := CheckBack(isRightHanded, down, up);
            r.events != [] <==> (down || up)
  {
  }

  /** The flag after a run of frames, each given as (down, up). */
  function RunBack(v: bool, isRightHanded: bool, frames: seq<(bool, bool)>): bool
    decreases |frames|
  {
    if frames == [] then v
    else RunBack(Final(v, CheckBack(isRightHanded, frames[0].0, frames[0].1).writes), isRightHanded, frames[1..])
  }

  /** Between frames the back flag is never left true: starting false, it stays false. */
  lemma {:induction false} BackFlagNeverHeld(v: bool, isRightHanded: bool, frames: seq<(bool, bool)>)
    requires !v
    ensures !RunBack(v, isRightHanded, frames)
    decreases |frames|
  {
    if frames != [] {
      var next := Final(v, CheckBack(isRightHanded, frames[0].0, frames[0].1).writes);
      assert !next;
      BackFlagNeverHeld(next, isRightHanded, frames[1..]);
    }
  }

  /** GoAndGearVRControllersInputCaptureComponent. */
  class GoAndGearVRControllersInputCaptureComponent {
    var backButtonClick: bool
    /** Set up with the controller; no system of the model changes it. */
    const isRightHanded: bool
  }

  /**
   * The events the first `k` entities raise in one frame, in entity order,
   * given each entity's handedness and whether its capture is set up.
   */
  function FrameEvents(comps: seq<GoAndGearVRControllersInputCaptureComponent>, setups: seq<bool>, down: bool, up: bool, k: nat)
    : seq<ButtonEvent>
    requires k <= |comps| == |setups|
  {
    if k == 0 then []
    else
      FrameEvents(comps, setups, down, up, k - 1)
      + (if setups[k - 1] then CheckBack(comps[k - 1].isRightHanded, down, up).events else [])
  }

  /**
   * One frame raises at most one back-button event per set-up entity: clicks on
   * a press, unclicks on a release, nothing when the button is idle.
   */
  lemma {:induction false} FrameEventsShape(comps: seq<GoAndGearVRControllersInputCaptureComponent>, setups: seq<bool>,
                                            down: bool, up: bool, k: nat)
    requires k <= |comps| == |setups|
    ensures |FrameEvents(comps, setups, down, up, k)| <= k
    ensures forall ev :: ev in FrameEvents(comps, setups, down, up, k) ==>
              ev.button == BackButton && (ev.ButtonClick? <==> down) && (ev.ButtonUnclick? <==> !down)
    ensures !down && !up ==> FrameEvents(comps, setups, down, up, k) == []
    decreases k
  {
    if k > 0 {
      FrameEventsShape(comps, setups, down, up, k - 1);
    }
  }

  /** The back flag of each component. */
  function Backs(comps: seq<GoAndGearVRControllersInputCaptureComponent>): (r: seq<bool>)
    reads set c | c in comps
    ensures |r| == |comps| && forall i :: 0 <= i < |comps| ==> r[i] == comps[i].backButtonClick
  {
    if comps == [] then [] else [comps[0].backButtonClick] + Backs(comps[1..])
  }

  /** The back flag of a component after a frame, from the flag it had before; checked or not. */
  function BackAfter(v: bool, isRightHanded: bool, checked: bool, down: bool, up: bool): bool
  {
    if checked then Final(v, CheckBack(isRightHanded, down, up).writes) else v
  }

  class SingleControllerInputCaptureSystem {
    var enabled: bool

    method CheckControllerInput(c: GoAndGearVRControllersInputCaptureComponent, down: bool, up: bool)
      returns (writes: seq<bool>, events: seq<ButtonEvent>)
      modifies c`backButtonClick
      ensures BackStep(writes, events) == CheckBack(c.isRightHanded, down, up)
      ensures c.backButtonClick == Final(old(c.backButtonClick), writes)
    {
      writes := [];
      events := [];
      var hand := if c.isRightHanded then Right else Left;
      if down {
        c.backButtonClick := true;
        writes := writes + [true];
        c.backButtonClick := false;
        writes := writes + [false];
        events := [ButtonClick(hand, BackButton)];
      } else if up {
        c.backButtonClick := false;
        writes := writes + [false];
        events := [ButtonUnclick(hand, BackButton)];
      }
    }

    /** The body of the OnUpdate loop for one entity. */
    method CheckEntity(c: GoAndGearVRControllersInputCaptureComponent, isSetup: bool, down: bool, up: bool)
      returns (events: seq<ButtonEvent>)
      modifies c`backButtonClick
      ensures events == if isSetup then CheckBack(c.isRightHanded, down, up).events else []
      ensures c.backButtonClick == BackAfter(old(c.backButtonClick), c.isRightHanded, isSetup, down, up)
    {
      events := [];
      if isSetup {
        var writes;
        writes, events := CheckControllerInput(c, down, up);
      }
    }

    /** OnUpdate: only with controllers in use, and only for entities whose input capture is set up. */
    method OnUpdate(useControllers: bool, comps: seq<GoAndGearVRControllersInputCaptureComponent>,
                    captures: seq<CrossplatformInput.CrossplatformInputCapture>, down: bool, up: bool)
      returns (events: seq<ButtonEvent>)
      requires |captures| == |comps|
      requires forall i, j :: 0 <= i < |comps| && 0 <= j < |comps| && i != j ==> comps[i] != comps[j]
      modifies set c | c in comps
      ensures events == if useControllers then FrameEvents(comps, CrossplatformInput.Setups(captures), down, up, |comps|) else []
      ensures forall i :: 0 <= i < |comps| ==>
                comps[i].backButtonClick
                == BackAfter(old(comps[i].backButtonClick), comps[i].isRightHanded, useControllers && captures[i].isSetup, down, up)
    {
      events := [];
      if useControllers {
        events := CheckEntities(comps, CrossplatformInput.Setups(captures), down, up);
      }
    }

    /** The OnUpdate loop over the entities; `setups[i]` says whether the i-th input capture is set up. */
    method CheckEntities(comps: seq<GoAndGearVRControllersInputCaptureComponent>, setups: seq<bool>, down: bool, up: bool)
      returns (events: seq<ButtonEvent>)
      requires |setups| == |comps|
      requires forall i, j :: 0 <= i < |comps| && 0 <= j < |comps| && i != j ==> comps[i] != comps[j]
      modifies set c | c in comps
      ensures events == FrameEvents(comps, setups, down, up, |comps|)
      ensures forall i :: 0 <= i < |comps| ==>
                comps[i].backButtonClick == BackAfter(old(comps[i].backButtonClick), comps[i].isRightHanded, setups[i], down, up)
    {
      events := [];
      ghost var before := Backs(comps);
      var k := 0;
      while k < |comps|
        invariant 0 <= k <= |comps|
        invariant events == FrameEvents(comps, setups, down, up, k)
        invariant forall i :: 0 <= i < k ==>
                    comps[i].backButtonClick == BackAfter(before[i], comps[i].isRightHanded, setups[i], down, up)
        invariant forall i :: k <= i < |comps| ==> comps[i].backButtonClick == before[i]
      {
        var raised := CheckEntity(comps[k], setups[k], down, up);
        events := events + raised;
        k := k + 1;
      }
    }

    /** CheckDevice: only the single-controller headsets keep the system on. */
    method CheckDevice(deviceLoaded: Device)
      modifies this`enabled
      ensures enabled <==> deviceLoaded == GearVR || deviceLoaded == OculusGo
    {
      enabled := deviceLoaded == GearVR || deviceLoaded == OculusGo;
    }
  }
}
