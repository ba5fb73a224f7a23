/**
 * SimulatorGazeInputCaptureSystem: with the simulator, the key mapped to the
 * gaze button clicks and touches the gaze at once. The gaze flags live in the
 * InputVariableContainer singleton, shared by every entity of the system.
 * `Input.GetKeyDown` and `GetKeyUp` of the mapped key are parameters.
 */
module SimulatorGazeInput {
  import opened Types

  datatype GazeFlags = GazeFlags(clicking: bool, touching: bool)

  datatype GazeStep = GazeStep(flags: GazeFlags, events: seq<ButtonEvent>)

  /** CheckGazeInputs. */
  function Step(f: GazeFlags, gazeButton: Button, keyDown: bool, keyUp: bool): (r: GazeStep)
    // a key press while not clicking: both flags on, a click then a touch event
    ensures !f.clicking && keyDown ==>
              r == GazeStep(GazeFlags(true, true), [ButtonClick(Gaze, gazeButton), ButtonTouch(Gaze, gazeButton)])
    // a key release while clicking: both flags off, an unclick then an untouch event
    ensures f.clicking && keyUp ==>
              r == GazeStep(GazeFlags(false, false), [ButtonUnclick(Gaze, gazeButton), ButtonUntouch(Gaze, gazeButton)])
    // anything else: no change, no event
    ensures !(!f.clicking && keyDown) && !(f.clicking && keyUp) ==> r == GazeStep(f, [])
    // after a transition the two flags agree
    ensures r.events != [] ==> r.flags.clicking == r.flags.touching && r.flags.clicking != f.clicking
  {
    if !f.clicking && keyDown then
      GazeStep(GazeFlags(true, true), [ButtonClick(Gaze, gazeButton), ButtonTouch(Gaze, gazeButton)])
    else if f.clicking && keyUp then
      GazeStep(GazeFlags(false, false), [ButtonUnclick(Gaze, gazeButton), ButtonUntouch(Gaze, gazeButton)])
    else
      GazeStep(f, [])
  }

  /**
   * Running the check a second time in the same frame (one more entity with
   * gaze checks on) changes nothing and raises nothing, unless the frame has
   * both a key press and a key release.
   */
  lemma SecondCheckIsSilent(f: GazeFlags, gazeButton: Button, keyDown: bool, keyUp: bool)
    requires !(keyDown && keyUp)
    ensures var once := Step(f, gazeButton, keyDown, keyUp);
            Step(once.flags, gazeButton, keyDown, keyUp) == GazeStep(once.flags, [])
  {
  }

  /** The effect of `n` checks in one frame, one after the other: the flags and all the events raised. */
  function Repeat(f: GazeFlags, gazeButton: Button, keyDown: bool, keyUp: bool, n: nat): GazeStep
    decreases n
  {
    if n == 0 then GazeStep(f, [])
    else
      var prev := Repeat(f, gazeButton, keyDown, keyUp, n - 1);
      var last := Step(prev.flags, gazeButton, keyDown, keyUp);
      GazeStep(last.flags, prev.events + last.events)
  }

  /**
   * However many entities check the gaze in one frame, the effect is that of
   * one check, unless the key went both down and up within the frame.
   */
  lemma {:induction false} RepeatIsOnce(f: GazeFlags, gazeButton: Button, keyDown: bool, keyUp: bool, n: nat)
    requires n >= 1 && !(keyDown && keyUp)
    ensures Repeat(f, gazeButton, keyDown, keyUp, n) == Step(f, gazeButton, keyDown, keyUp)
    decreases n
  {
    if n > 1 {
      RepeatIsOnce(f, gazeButton, keyDown, keyUp, n - 1);
      SecondCheckIsSilent(f, gazeButton, keyDown, keyUp);
      var once := Step(f, gazeButton, keyDown, keyUp);
      assert once.events + [] == once.events;
    } else {
      assert Repeat(f, gazeButton, keyDown, keyUp, 0) == GazeStep(f, []);
      assert [] + Step(f, gazeButton, keyDown, keyUp).events == Step(f, gazeButton, keyDown, keyUp).events;
    }
  }

  /** With a press and a release in the same frame, a second entity undoes what the first did. */
  lemma PressAndReleaseInOneFrame(gazeButton: Button)
    ensures Repeat(GazeFlags(false, false), gazeButton, true, true, 2).flags == GazeFlags(false, false)
    ensures |Repeat(GazeFlags(false, false), gazeButton, true, true, 2).events| == 4
  {
    assert Repeat(GazeFlags(false, false), gazeButton, true, true, 1).flags == GazeFlags(true, true);
  }

  /** The gaze BoolVariables of the InputVariableContainer singleton. */
  class InputVariableContainer {
    var gazeIsClicking: bool
    var gazeIsTouching: bool
  }

  /** SimulatorGazeInputCaptureComponent. */
  class SimulatorGazeInputCaptureComponent {
    var checkGazeInteractions: bool
  }

  class SimulatorGazeInputCaptureSystem {

    method CheckGazeInputs(c: InputVariableContainer, gazeButton: Button, keyDown: bool, keyUp: bool)
      returns (events: seq<ButtonEvent>)
      modifies c`gazeIsClicking, c`gazeIsTouching
      ensures GazeStep(GazeFlags(c.gazeIsClicking, c.gazeIsTouching), events)
              == Step(GazeFlags(old(c.gazeIsClicking), old(c.gazeIsTouching)), gazeButton, keyDown, keyUp)
    {
      events := [];
      if !c.gazeIsClicking && keyDown {
        c.gazeIsClicking := true;
        c.gazeIsTouching := true;
        events := [ButtonClick(Gaze, gazeButton), ButtonTouch(Gaze, gazeButton)];
      } else if c.gazeIsClicking && keyUp {
        c.gazeIsClicking := false;
        c.gazeIsTouching := false;
        events := [ButtonUnclick(Gaze, gazeButton), ButtonUntouch(Gaze, gazeButton)];
      }
    }

    /** CheckGazeClickButton: no gaze button configured turns the gaze checks off. */
    method CheckGazeClickButton(comp: SimulatorGazeInputCaptureComponent, gazeButton: Button)
      modifies comp
      ensures gazeButton == NoButton ==> !comp.checkGazeInteractions
      ensures gazeButton != NoButton ==> comp.checkGazeInteractions == old(comp.checkGazeInteractions)
    {
      if gazeButton == NoButton {
        comp.checkGazeInteractions := false;
      }
    }

    method OnStartRunning(comps: seq<SimulatorGazeInputCaptureComponent>, gazeButton: Button)
      modifies set c | c in comps
      ensures forall c :: c in comps ==> (gazeButton == NoButton ==> !c.checkGazeInteractions)
      ensures gazeButton != NoButton ==> forall c :: c in comps ==> c.checkGazeInteractions == old(c.checkGazeInteractions)
    {
      var k := 0;
      while k < |comps|
        invariant 0 <= k <= |comps|
        invariant forall i :: 0 <= i < k ==> (gazeButton == NoButton ==> !comps[i].checkGazeInteractions)
        invariant gazeButton != NoButton ==> forall c :: c in comps ==> c.checkGazeInteractions == old(c.checkGazeInteractions)
      {
        CheckGazeClickButton(comps[k], gazeButton);
        k := k + 1;
      }
    }

    /**
     * OnUpdate: the check runs once per entity whose gaze checks are on, and
     * only when controllers are used; all of them act on the shared flags.
     */
    method OnUpdate(useControllers: bool, comps: seq<SimulatorGazeInputCaptureComponent>, c: InputVariableContainer,
                    gazeButton: Button, keyDown: bool, keyUp: bool)
      returns (events: seq<ButtonEvent>)
      modifies c`gazeIsClicking, c`gazeIsTouching
      ensures var before := GazeFlags(old(c.gazeIsClicking), old(c.gazeIsTouching));
              GazeStep(GazeFlags(c.gazeIsClicking, c.gazeIsTouching), events)
              == (if useControllers then Repeat(before, gazeButton, keyDown, keyUp, Checking(comps)) else GazeStep(before, []))
      ensures useControllers && Checking(comps) >= 1 && !(keyDown && keyUp) ==>
                GazeStep(GazeFlags(c.gazeIsClicking, c.gazeIsTouching), events)
                == Step(GazeFlags(old(c.gazeIsClicking), old(c.gazeIsTouching)), gazeButton, keyDown, keyUp)
    {
      events := [];
      if useControllers {
        events := CheckEntities(comps, c, gazeButton, keyDown, keyUp);
        if Checking(comps) >= 1 && !(keyDown && keyUp) {
          RepeatIsOnce(GazeFlags(old(c.gazeIsClicking), old(c.gazeIsTouching)), gazeButton, keyDown, keyUp, Checking(comps));
        }
      }
    }

    /** The OnUpdate loop: one check per entity whose gaze checks are on. */
    method CheckEntities(comps: seq<SimulatorGazeInputCaptureComponent>, c: InputVariableContainer,
                         gazeButton: Button, keyDown: bool, keyUp: bool)
      returns (events: seq<ButtonEvent>)
      modifies c`gazeIsClicking, c`gazeIsTouching
      ensures GazeStep(GazeFlags(c.gazeIsClicking, c.gazeIsTouching), events)
              == Repeat(GazeFlags(old(c.gazeIsClicking), old(c.gazeIsTouching)), gazeButton, keyDown, keyUp, Checking(comps))
    {
      events := [];
      ghost var before := GazeFlags(c.gazeIsClicking, c.gazeIsTouching);
      ghost var checks := GazeChecks(comps);
      var k := 0;
      while k < |comps|
        invariant 0 <= k <= |comps|
        invariant GazeStep(GazeFlags(c.gazeIsClicking, c.gazeIsTouching), events)
                  == Repeat(before, gazeButton, keyDown, keyUp, Count(checks, k))
      {
        if comps[k].checkGazeInteractions {
          var raised := CheckGazeInputs(c, gazeButton, keyDown, keyUp);
          events := events + raised;
        }
        k := k + 1;
      }
    }
  }

  /** Whether each entity has its gaze checks on. */
  function GazeChecks(comps: seq<SimulatorGazeInputCaptureComponent>): (r: seq<bool>)
    reads set c | c in comps
    ensures |r| == |comps| && forall i :: 0 <= i < |comps| ==> r[i] == comps[i].checkGazeInteractions
  {
    if comps == [] then [] else [comps[0].checkGazeInteractions] + GazeChecks(comps[1..])
  }

  /** The number of `true` among the first `k` flags. */
  function Count(bs: seq<bool>, k: nat): nat
    requires k <= |bs|
  {
    if k == 0 then 0 else Count(bs, k - 1) + (if bs[k - 1] then 1 else 0)
  }

  /** The number of entities whose gaze checks are on. */
  function Checking(comps: seq<SimulatorGazeInputCaptureComponent>): nat
    reads set c | c in comps
  {
    Count(GazeChecks(comps), |comps|)
  }
}
