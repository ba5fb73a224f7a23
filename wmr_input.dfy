/**
 * WMRControllersInputCaptureSystem: the menu buttons of the Windows Mixed
 * Reality controllers. `Input.GetButtonDown` / `GetButtonUp` of the axes
 * "WMRMenuRight", "WMRGripClickRight", "WMRMenuLeft" and "WMRGripClickLeft"
 * are parameters.
 *
 * The source raises an unclick event when the menu button goes down and
 * clears the menu flag when the grip (not the menu) is released. `MenuStepAsWritten`
 * models that; `MenuStepIntended` is the evidently intended edge detector, and the
 * lemmas below set the two side by side.
 */
module WMRInput {
  import opened Types
  import CrossplatformInput

  /** The menu flag of one hand after a frame, and the event raised, if any. */
  datatype MenuStep = MenuStep(click: bool, event: Nullable<ButtonEvent>)

  /**
   * CheckRightControllerInput / CheckLeftControllerInput as written: the menu
   * press sets the flag and raises an unclick; the grip release clears it and
   * raises an unclick. The menu release is read by nobody.
   */
  function MenuStepAsWritten(hand: Hand, click: bool, menuDown: bool, menuUp: bool, gripUp: bool): (r: MenuStep)
    ensures menuDown ==> r == MenuStep(true, NonNull(ButtonUnclick(hand, Menu)))
    ensures !menuDown && gripUp ==> r == MenuStep(false, NonNull(ButtonUnclick(hand, Menu)))
    ensures !menuDown && !gripUp ==> r == MenuStep(click, Null)
    // never a click event, whatever the input
    ensures r.event.NonNull? ==> r.event.value.ButtonUnclick?
  {
    MenuStep(if menuDown then true else if gripUp then false else click, MenuEventAsWritten(hand, menuDown, gripUp))
  }

  /** The event of `MenuStepAsWritten`, which does not depend on the flag. */
  function MenuEventAsWritten(hand: Hand, menuDown: bool, gripUp: bool): Nullable<ButtonEvent>
  {
    if menuDown || gripUp then NonNull(ButtonUnclick(hand, Menu)) else Null
  }

  /**
   * The evidently intended detector, as the other input systems have it: the
   * menu press sets the flag and raises a click, the menu release clears it and
   * raises an unclick.
   */
  function MenuStepIntended(hand: Hand, click: bool, menuDown: bool, menuUp: bool): (r: MenuStep)
    ensures menuDown ==> r == MenuStep(true, NonNull(ButtonClick(hand, Menu)))
    ensures !menuDown && menuUp ==> r == MenuStep(false, NonNull(ButtonUnclick(hand, Menu)))
    ensures !menuDown && !menuUp ==> r == MenuStep(click, Null)
  {
    if menuDown then MenuStep(true, NonNull(ButtonClick(hand, Menu)))
    else if menuUp then MenuStep(false, NonNull(ButtonUnclick(hand, Menu)))
    else MenuStep(click, Null)
  }

  /** An event agrees with the flag it leaves: a click leaves it set, an unclick clear. */
  predicate Agrees(r: MenuStep)
  {
    r.event.NonNull? ==> (r.event.value.ButtonClick? <==> r.click) && (r.event.value.ButtonUnclick? <==> !r.click)
  }

  /** The intended detector's event always agrees with the flag. */
  lemma IntendedAgrees(hand: Hand, click: bool, menuDown: bool, menuUp: bool)
    ensures Agrees(MenuStepIntended(hand, click, menuDown, menuUp))
  {
  }

  /** As written, a menu press from rest sets the flag but raises an unclick. */
  lemma MenuPressRaisesUnclick(hand: Hand)
    ensures MenuStepAsWritten(hand, false, true, false, false) == MenuStep(true, NonNull(ButtonUnclick(hand, Menu)))
    ensures !Agrees(MenuStepAsWritten(hand, false, true, false, false))
  {
  }

  /** As written, releasing the menu leaves the flag set; only a grip release clears it. */
  lemma MenuReleaseKeepsFlag(hand: Hand)
    ensures MenuStepAsWritten(hand, true, false, true, false) == MenuStep(true, Null)
    ensures MenuStepIntended(hand, true, false, true) == MenuStep(false, NonNull(ButtonUnclick(hand, Menu)))
  {
  }

  /** The flag after a run of frames, each given as (menu down, menu up), and the events raised. */
  function Run(hand: Hand, click: bool, frames: seq<(bool, bool)>): (bool, seq<ButtonEvent>)
    decreases |frames|
  {
    if frames == [] then (click, [])
    else
      var r := MenuStepIntended(hand, click, frames[0].0, frames[0].1);
      var rest := Run(hand, r.click, frames[1..]);
      (rest.0, Raised(r.event) + rest.1)
  }

  /**
   * With the intended detector, the flag after any run is set exactly when the
   * last event raised was a click (and is the initial flag when none was raised).
   */
  lemma {:induction false} FlagFollowsLastEvent(hand: Hand, click: bool, frames: seq<(bool, bool)>)
    ensures var (c, events) := Run(hand, click, frames);
            (events == [] ==> c == click)
            && (events != [] ==> (c <==> events[|events| - 1].ButtonClick?))
    ensures forall ev :: ev in Run(hand, click, frames).1 ==> ev.button == Menu && ev.hand == hand
    decreases |frames|
  {
    if frames != [] {
      var r := MenuStepIntended(hand, click, frames[0].0, frames[0].1);
      FlagFollowsLastEvent(hand, r.click, frames[1..]);
      var rest := Run(hand, r.click, frames[1..]);
      if rest.1 == [] {
        assert Raised(r.event) + rest.1 == Raised(r.event);
      } else {
        var all := Raised(r.event) + rest.1;
        assert all[|all| - 1] == rest.1[|rest.1| - 1];
      }
    }
  }

  /** WMRControllersInputCaptureComponent. */
  class WMRControllersInputCaptureComponent {
    var rightMenuClick: bool
    var leftMenuClick: bool
  }

  /** The menu flags (right, left) of a component after a frame, from the flags it had before; checked or not. */
  function FlagAfter(f: (bool, bool), checked: bool, s: WMRSample): (bool, bool)
  {
    if checked then
      (MenuStepAsWritten(Right, f.0, s.menuDownRight, s.menuUpRight, s.gripUpRight).click,
       MenuStepAsWritten(Left, f.1, s.menuDownLeft, s.menuUpLeft, s.gripUpLeft).click)
    else f
  }

  /** The buttons one WMR frame reports. */
  datatype WMRSample = WMRSample(menuDownRight: bool, menuUpRight: bool, gripUpRight: bool,
                                 menuDownLeft: bool, menuUpLeft: bool, gripUpLeft: bool)

  /** The events of one set-up entity: the right controller's, then the left's. */
  function EntityEvents(s: WMRSample): seq<ButtonEvent>
  {
    Raised(MenuEventAsWritten(Right, s.menuDownRight, s.gripUpRight))
    + Raised(MenuEventAsWritten(Left, s.menuDownLeft, s.gripUpLeft))
  }

  /** The events the first `k` entities raise in one frame. */
  function FrameEvents(setups: seq<bool>, s: WMRSample, k: nat): seq<ButtonEvent>
    requires k <= |setups|
  {
    if k == 0 then [] else FrameEvents(setups, s, k - 1) + (if setups[k - 1] then EntityEvents(s) else [])
  }

  /** Every event of a WMR frame is a menu unclick, at most two per set-up entity. */
  lemma {:induction false} FrameEventsAreUnclicks(setups: seq<bool>, s: WMRSample, k: nat)
    requires k <= |setups|
    ensures |FrameEvents(setups, s, k)| <= 2 * k
    ensures forall ev :: ev in FrameEvents(setups, s, k) ==> ev == ButtonUnclick(ev.hand, Menu)
    decreases k
  {
    if k > 0 {
      FrameEventsAreUnclicks(setups, s, k - 1);
    }
  }

  class WMRControllersInputCaptureSystem {
    var enabled: bool

    method CheckRightControllerInput(c: WMRControllersInputCaptureComponent, menuDown: bool, menuUp: bool, gripUp: bool)
      returns (events: seq<ButtonEvent>)
      modifies c`rightMenuClick
      ensures c.rightMenuClick == MenuStepAsWritten(Right, old(c.rightMenuClick), menuDown, menuUp, gripUp).click
      ensures events == Raised(MenuEventAsWritten(Right, menuDown, gripUp))
    {
      events := [];
      if menuDown {
        c.rightMenuClick := true;
        events := [ButtonUnclick(Right, Menu)];
      } else if gripUp {
        c.rightMenuClick := false;
        events := [ButtonUnclick(Right, Menu)];
      }
    }

    method CheckLeftControllerInput(c: WMRControllersInputCaptureComponent, menuDown: bool, menuUp: bool, gripUp: bool)
      returns (events: seq<ButtonEvent>)
      modifies c`leftMenuClick
      ensures c.leftMenuClick == MenuStepAsWritten(Left, old(c.leftMenuClick), menuDown, menuUp, gripUp).click
      ensures events == Raised(MenuEventAsWritten(Left, menuDown, gripUp))
    {
      events := [];
      if menuDown {
        c.leftMenuClick := true;
        events := [ButtonUnclick(Left, Menu)];
      } else if gripUp {
        c.leftMenuClick := false;
        events := [ButtonUnclick(Left, Menu)];
      }
    }

    /** The body of the OnUpdate loop for one entity: right controller, then left. */
    method CheckEntity(c: WMRControllersInputCaptureComponent, isSetup: bool, s: WMRSample)
      returns (events: seq<ButtonEvent>)
      modifies c`rightMenuClick, c`leftMenuClick
      ensures events == if isSetup then EntityEvents(s) else []
      ensures Flag(c) == FlagAfter(old(Flag(c)), isSetup, s)
    {
      events := [];
      if isSetup {
        var right := CheckRightControllerInput(c, s.menuDownRight, s.menuUpRight, s.gripUpRight);
        var left := CheckLeftControllerInput(c, s.menuDownLeft, s.menuUpLeft, s.gripUpLeft);
        events := right + left;
      }
    }

    /** OnUpdate: only with controllers in use, and only for entities whose input capture is set up. */
    method OnUpdate(useControllers: bool, comps: seq<WMRControllersInputCaptureComponent>,
                    captures: seq<CrossplatformInput.CrossplatformInputCapture>, s: WMRSample)
      returns (events: seq<ButtonEvent>)
      requires |captures| == |comps|
      requires forall i, j :: 0 <= i < |comps| && 0 <= j < |comps| && i != j ==> comps[i] != comps[j]
      modifies set c | c in comps
      ensures events == if useControllers then FrameEvents(CrossplatformInput.Setups(captures), s, |comps|) else []
      ensures forall i :: 0 <= i < |comps| ==> Flag(comps[i]) == FlagAfter(old(Flag(comps[i])), useControllers && captures[i].isSetup, s)
    {
      events := [];
      if useControllers {
        events := CheckEntities(comps, CrossplatformInput.Setups(captures), s);
      }
    }

    /** The OnUpdate loop over the entities; `setups[i]` says whether the i-th input capture is set up. */
    method CheckEntities(comps: seq<WMRControllersInputCaptureComponent>, setups: seq<bool>, s: WMRSample)
      returns (events: seq<ButtonEvent>)
      requires |setups| == |comps|
      requires forall i, j :: 0 <= i < |comps| && 0 <= j < |comps| && i != j ==> comps[i] != comps[j]
      modifies set c | c in comps
      ensures events == FrameEvents(setups, s, |comps|)
      ensures forall i :: 0 <= i < |comps| ==> Flag(comps[i]) == FlagAfter(old(Flag(comps[i])), setups[i], s)
    {
      events := [];
      ghost var before := Flags(comps);
      var k := 0;
      while k < |comps|
        invariant 0 <= k <= |comps|
        invariant events == FrameEvents(setups, s, k)
        invariant forall i :: 0 <= i < k ==> Flag(comps[i]) == FlagAfter(before[i], setups[i], s)
        invariant forall i :: k <= i < |comps| ==> Flag(comps[i]) == before[i]
      {
        var raised := CheckEntity(comps[k], setups[k], s);
        events := events + raised;
        k := k + 1;
      }
    }

    /** CheckDevice: only a WMR headset keeps the system on. */
    method CheckDevice(deviceLoaded: Device)
      modifies this`enabled
      ensures enabled <==> deviceLoaded == WMR
    {
      enabled := deviceLoaded == WMR;
    }
  }

  /** The menu flags a component holds, right then left. */
  function Flag(c: WMRControllersInputCaptureComponent): (bool, bool)
    reads c
  {
    (c.rightMenuClick, c.leftMenuClick)
  }

  /** The menu flags of each component. */
  function Flags(comps: seq<WMRControllersInputCaptureComponent>): (r: seq<(bool, bool)>)
    reads set c | c in comps
    ensures |r| == |comps| && forall i :: 0 <= i < |comps| ==> r[i] == Flag(comps[i])
  {
    if comps == [] then [] else [Flag(comps[0])] + Flags(comps[1..])
  }
}
