/**
 * FlyForwardSystem: every frame, each interacting fly entity decides from the
 * thumbstick whether the user flies forward or backward, and the first frame
 * of an interaction starts the flight timer. The thumbstick position of the
 * entity's Button Action Choser is a parameter; the other fly systems, which
 * set IsInteracting and advance the timer, are not part of this model.
 */
module FlyForward {

  /** The fields of FlyParametersComponent this system writes. */
  datatype FlyState = FlyState(flyForward: bool, wantToFly: bool, timeSinceStartFlying: real)

  /** CalculateFlyForward, for the thumbstick's vertical axis `thumbY`. */
  function CalculateFlyForward(s: FlyState, thumbY: real): (r: FlyState)
    // forward exactly when the thumb is not below the centre: zero counts as forward
    ensures r.flyForward <==> thumbY >= 0.0
    // after any call the user wants to fly; this system never clears it
    ensures r.wantToFly
    // the first call of an interaction restarts the timer, later calls leave it alone
    ensures !s.wantToFly ==> r.timeSinceStartFlying == 0.0
    ensures s.wantToFly ==> r.timeSinceStartFlying == s.timeSinceStartFlying
  {
    var forward := thumbY >= 0.0;
    if !s.wantToFly then FlyState(forward, true, 0.0) else s.(flyForward := forward)
  }

  /** The state after one call per frame of an interaction, with the thumbstick samples of those frames. */
  function FlyRun(s: FlyState, thumbYs: seq<real>): FlyState
    decreases |thumbYs|
  {
    if thumbYs == [] then s else FlyRun(CalculateFlyForward(s, thumbYs[0]), thumbYs[1..])
  }

  /**
   * Over an interaction of one frame or more, the timer is restarted once at
   * most: it is 0 if the user did not want to fly before, and untouched
   * otherwise; the direction is that of the last sample.
   */
  lemma {:induction false} FlyRunRestartsTimerOnce(s: FlyState, thumbYs: seq<real>)
    requires |thumbYs| >= 1
    ensures FlyRun(s, thumbYs).wantToFly
    ensures FlyRun(s, thumbYs).timeSinceStartFlying == if s.wantToFly then s.timeSinceStartFlying else 0.0
    ensures FlyRun(s, thumbYs).flyForward <==> thumbYs[|thumbYs| - 1] >= 0.0
    decreases |thumbYs|
  {
    var first := CalculateFlyForward(s, thumbYs[0]);
    if |thumbYs| > 1 {
      FlyRunRestartsTimerOnce(first, thumbYs[1..]);
      assert thumbYs[1..][|thumbYs[1..]| - 1] == thumbYs[|thumbYs| - 1];
    }
  }

  /** FlyParametersComponent. */
  class FlyParametersComponent {
    /** Set by the fly input systems, which are not part of this model. */
    const isInteracting: bool
    var flyForward: bool
    var wantToFly: bool
    var timeSinceStartFlying: real

    function State(): FlyState
      reads this
    {
      FlyState(flyForward, wantToFly, timeSinceStartFlying)
    }
  }

  /** What each component holds. */
  function States(comps: seq<FlyParametersComponent>): (r: seq<FlyState>)
    reads set c | c in comps
    ensures |r| == |comps| && forall i :: 0 <= i < |comps| ==> r[i] == comps[i].State()
  {
    if comps == [] then [] else [comps[0].State()] + States(comps[1..])
  }

  /** What one component holds after the frame: only an interacting one is updated. */
  function FlyAfter(s: FlyState, interacting: bool, thumbY: real): FlyState
  {
    if interacting then CalculateFlyForward(s, thumbY) else s
  }

  class FlyForwardSystem {

    method CalculateFlyForwardStep(c: FlyParametersComponent, thumbY: real)
      modifies c`flyForward, c`wantToFly, c`timeSinceStartFlying
      ensures c.State() == CalculateFlyForward(old(c.State()), thumbY)
    {
      c.flyForward := if thumbY >= 0.0 then true else false;
      if !c.wantToFly {
        c.timeSinceStartFlying := 0.0;
        c.wantToFly := true;
      }
    }

    /**
     * OnUpdate: `thumbYs[i]` is the thumbstick's vertical axis of the i-th
     * entity's Button Action Choser; every component is its entity's own.
     */
    method OnUpdate(comps: seq<FlyParametersComponent>, thumbYs: seq<real>)
      requires |thumbYs| == |comps|
      requires forall i, j :: 0 <= i < |comps| && 0 <= j < |comps| && i != j ==> comps[i] != comps[j]
      modifies set c | c in comps
      ensures forall i :: 0 <= i < |comps| ==> comps[i].State() == FlyAfter(old(comps[i].State()), comps[i].isInteracting, thumbYs[i])
    {
      ghost var before := States(comps);
      var k := 0;
      while k < |comps|
        invariant 0 <= k <= |comps|
        invariant forall i :: 0 <= i < k ==> comps[i].State() == FlyAfter(before[i], comps[i].isInteracting, thumbYs[i])
        invariant forall i :: k <= i < |comps| ==> comps[i].State() == before[i]
      {
        if comps[k].isInteracting {
          CalculateFlyForwardStep(comps[k], thumbYs[k]);
        }
        k := k + 1;
      }
    }
  }
}
