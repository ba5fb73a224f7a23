/**
 * OnColliderGazeClickSystem: the click of the gaze on the object it hits.
 * Each frame the click flag is reset when the gaze is not clicking, and the
 * click is then handled under the very same condition, which the reset has
 * just made false: as written, the system never handles a click.
 */
module GazeClick {
  import opened Types
  import opened Interactions
  import SimulatorGazeInput

  /** CheckResetClick: the click flag after the reset. */
  function CheckResetClick(useGaze: bool, gazeIsClicking: bool, hasClick: bool): (r: bool)
    ensures useGaze && !gazeIsClicking ==> !r
    ensures !(useGaze && !gazeIsClicking) ==> r == hasClick
  {
    if useGaze && !gazeIsClicking && hasClick then false else hasClick
  }

  /** The condition under which OnUpdate calls HandleClick. */
  predicate ClickGuard(useGaze: bool, gazeIsClicking: bool, hasClick: bool)
  {
    useGaze && !gazeIsClicking && hasClick
  }

  /** After the reset, the guard of HandleClick never holds. */
  lemma ResetDisablesClick(useGaze: bool, gazeIsClicking: bool, hasClick: bool)
    ensures !ClickGuard(useGaze, gazeIsClicking, CheckResetClick(useGaze, gazeIsClicking, hasClick))
    ensures CheckResetClick(useGaze, gazeIsClicking, CheckResetClick(useGaze, gazeIsClicking, hasClick))
            == CheckResetClick(useGaze, gazeIsClicking, hasClick)
  {
  }

  /**
   * The click flag after HandleClick and the events raised; `faulted` when
   * the hit's collider was destroyed, where reading its transform throws
   * after the flag was set.
   */
  datatype ClickStep = ClickStep(hasClick: bool, events: seq<InteractionEvent>, faulted: bool)

  /** HandleClick. */
  function HandleClick(hit: Hit): (r: ClickStep)
    // nothing hit: no click, nothing raised
    ensures hit.NullHit? ==> r == ClickStep(false, [], false)
    // a live collider: clicked, and its transform raised with the gaze as hand
    ensures hit.HitOn? && hit.collider.NonNull? ==>
              r == ClickStep(true, [ObjectWasClicked(Gaze, hit.collider.value)], false)
    // a destroyed collider: the flag is set, then the transform cannot be read
    ensures hit.HitOn? && hit.collider.Null? ==> r == ClickStep(true, [], true)
    // the flag says whether something was hit
    ensures r.hasClick <==> hit.HitOn?
  {
    match hit
    case NullHit => ClickStep(false, [], false)
    case HitOn(NonNull(t)) => ClickStep(true, [ObjectWasClicked(Gaze, t)], false)
    case HitOn(Null) => ClickStep(true, [], true)
  }

  /** OnColliderClickComponent, ScriptableRaycastComponent and ScriptableSingletonsComponent of one entity. */
  class GazeClickEntity {
    /** Configured with the entity; no system of the model changes them. */
    const isSetup: bool
    const checkRaycast: bool
  }

  /** Whether each entity runs the click checks, given whether the gaze is used. */
  function Running(useGaze: bool, comps: seq<GazeClickEntity>): (r: seq<bool>)
    ensures |r| == |comps|
    ensures forall i :: 0 <= i < |comps| ==> r[i] == (comps[i].isSetup && useGaze && comps[i].checkRaycast)
  {
    if comps == [] then []
    else [comps[0].isSetup && useGaze && comps[0].checkRaycast] + Running(useGaze, comps[1..])
  }

  class OnColliderGazeClickSystem {

    method CheckResetClickStep(iv: InteractionVariableContainer, useGaze: bool, inputs: SimulatorGazeInput.InputVariableContainer)
      modifies iv`hasClickSomethingGaze
      ensures iv.hasClickSomethingGaze == CheckResetClick(useGaze, inputs.gazeIsClicking, old(iv.hasClickSomethingGaze))
    {
      if useGaze && !inputs.gazeIsClicking && iv.hasClickSomethingGaze {
        iv.hasClickSomethingGaze := false;
      }
    }

    method HandleClickStep(iv: InteractionVariableContainer) returns (events: seq<InteractionEvent>, faulted: bool)
      modifies iv`hasClickSomethingGaze
      ensures ClickStep(iv.hasClickSomethingGaze, events, faulted) == HandleClick(iv.gazeHit)
    {
      events := [];
      faulted := false;
      if iv.gazeHit.NullHit? {
        iv.hasClickSomethingGaze := false;
      } else {
        iv.hasClickSomethingGaze := true;
        if iv.gazeHit.collider.Null? {
          faulted := true;
          return;
        }
        var objectClicked := iv.gazeHit.collider.value;
        events := [ObjectWasClicked(Gaze, objectClicked)];
      }
    }

    /**
     * OnUpdate: every running entity resets the click flag, then would handle
     * the click under the reset's own condition; no click event is ever raised
     * and the flag is untouched while the gaze is clicking.
     */
    method OnUpdate(useGaze: bool, comps: seq<GazeClickEntity>, iv: InteractionVariableContainer,
                    inputs: SimulatorGazeInput.InputVariableContainer)
      returns (events: seq<InteractionEvent>)
      modifies iv`hasClickSomethingGaze
      ensures events == []
      ensures iv.hasClickSomethingGaze
              == if CountTrue(Running(useGaze, comps), |comps|) > 0
                 then CheckResetClick(useGaze, inputs.gazeIsClicking, old(iv.hasClickSomethingGaze))
                 else old(iv.hasClickSomethingGaze)
      ensures inputs.gazeIsClicking ==> iv.hasClickSomethingGaze == old(iv.hasClickSomethingGaze)
    {
      events := [];
      ghost var before := iv.hasClickSomethingGaze;
      ghost var running := Running(useGaze, comps);
      var k := 0;
      while k < |comps|
        invariant 0 <= k <= |comps|
        invariant events == []
        invariant iv.hasClickSomethingGaze
                  == if CountTrue(running, k) > 0 then CheckResetClick(useGaze, inputs.gazeIsClicking, before) else before
      {
        if comps[k].isSetup && useGaze && comps[k].checkRaycast {
          assert CountTrue(running, k + 1) > 0;
          ResetDisablesClick(useGaze, inputs.gazeIsClicking, before);
          CheckResetClickStep(iv, useGaze, inputs);
          if useGaze && !inputs.gazeIsClicking && iv.hasClickSomethingGaze {
            // the reset just cleared the flag under this very condition
            assert false;
          }
        } else {
          assert CountTrue(running, k + 1) == CountTrue(running, k);
        }
        k := k + 1;
      }
    }
  }
}
