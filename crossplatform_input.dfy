/**
 * CrossplatformRightInputCaptureSystem: every frame, the right controller's
 * trigger, thumbstick and grip samples are turned into the click and touch
 * BoolVariables and at most one transition event per button.
 *
 * The `Input.GetAxis`, `GetButtonDown` and `GetButtonUp` readings of the frame
 * are the fields of a `RightSample`. The BoolVariable dictionaries are maps
 * from variable name to value.
 */
module CrossplatformInput {
  import opened Types
  import ControllerInputToSO

  /** The click threshold of the trigger and the grip axes. */
  const ClickThreshold: real := 0.95

  /** A button's click and touch BoolVariables. */
  datatype ButtonState = ButtonState(click: bool, touch: bool)

  datatype ButtonStep = ButtonStep(state: ButtonState, event: Nullable<ButtonEvent>)

  /** The trigger: click above the threshold, unclick below it, touch edges otherwise. */
  function TriggerStep(s: ButtonState, axis: real, touchDown: bool, touchUp: bool): (r: ButtonStep)
    // a press past the threshold clicks and clears the touch
    ensures !s.click && axis > ClickThreshold ==>
              r == ButtonStep(ButtonState(true, false), NonNull(ButtonClick(Right, Trigger)))
    // dropping below the threshold unclicks, the touch is kept
    ensures s.click && axis < ClickThreshold ==>
              r == ButtonStep(ButtonState(false, s.touch), NonNull(ButtonUnclick(Right, Trigger)))
    // the click state changes only across the threshold; at exactly 0.95 it never changes
    ensures r.state.click != s.click ==> (if s.click then axis < ClickThreshold else axis > ClickThreshold)
    // a touch change without a click change is a touch edge
    ensures r.state.click == s.click && r.state.touch != s.touch ==> (touchDown || touchUp)
    ensures r.state.click == s.click && r.state.touch != s.touch ==>
              r.event == NonNull(if r.state.touch then ButtonTouch(Right, Trigger) else ButtonUntouch(Right, Trigger))
    // no change, no event
    ensures r.state == s ==> r.event.Null? || (r.event.value.ButtonTouch? && s.touch) || (r.event.value.ButtonUntouch? && !s.touch)
    ensures r.event.NonNull? ==> r.event.value.EventButton() == Trigger && r.event.value.hand == Right
  {
    if !s.click && axis > ClickThreshold then ButtonStep(ButtonState(true, false), NonNull(ButtonClick(Right, Trigger)))
    else if s.click && axis < ClickThreshold then ButtonStep(s.(click := false), NonNull(ButtonUnclick(Right, Trigger)))
    else if touchDown then ButtonStep(s.(touch := true), NonNull(ButtonTouch(Right, Trigger)))
    else if touchUp then ButtonStep(s.(touch := false), NonNull(ButtonUntouch(Right, Trigger)))
    else ButtonStep(s, Null)
  }

  /** The thumbstick: click edges first, then touch edges; a touch starts only when not clicked. */
  function ThumbStep(s: ButtonState, clickDown: bool, clickUp: bool, touchDown: bool, touchUp: bool): (r: ButtonStep)
    ensures clickDown ==> r == ButtonStep(s.(click := true), NonNull(ButtonClick(Right, Thumbstick)))
    ensures !clickDown && clickUp ==> r == ButtonStep(s.(click := false), NonNull(ButtonUnclick(Right, Thumbstick)))
    // a touch-start event needs the thumb not to be clicked
    ensures r.event.NonNull? && r.event.value.ButtonTouch? ==> !s.click && touchDown && !clickDown && !clickUp
    ensures r.state.touch != s.touch ==> !clickDown && !clickUp && r.state.click == s.click
    ensures r.state.touch && !s.touch ==> !s.click
    ensures !clickDown && !clickUp && !touchDown && !touchUp ==> r == ButtonStep(s, Null)
    ensures r.event.NonNull? ==> r.event.value.EventButton() == Thumbstick && r.event.value.hand == Right
  {
    if clickDown then ButtonStep(s.(click := true), NonNull(ButtonClick(Right, Thumbstick)))
    else if clickUp then ButtonStep(s.(click := false), NonNull(ButtonUnclick(Right, Thumbstick)))
    else if !s.click && touchDown then ButtonStep(s.(touch := true), NonNull(ButtonTouch(Right, Thumbstick)))
    else if touchUp then ButtonStep(s.(touch := false), NonNull(ButtonUntouch(Right, Thumbstick)))
    else ButtonStep(s, Null)
  }

  /** The grip has a click variable only; it clicks above the threshold and releases only at exactly 0. */
  function GripStep(click: bool, axis: real): (r: ButtonStep)
    ensures r.state.touch == false
    ensures !click && axis > ClickThreshold ==> r.state.click && r.event == NonNull(ButtonClick(Right, Grip))
    ensures click && axis == 0.0 ==> !r.state.click && r.event == NonNull(ButtonUnclick(Right, Grip))
    // hysteresis: a clicked grip anywhere above 0 stays clicked, silently
    ensures click && axis != 0.0 ==> r.state.click && r.event.Null?
    ensures !click && axis <= ClickThreshold ==> !r.state.click && r.event.Null?
  {
    if !click && axis > ClickThreshold then ButtonStep(ButtonState(true, false), NonNull(ButtonClick(Right, Grip)))
    else if click && axis == 0.0 then ButtonStep(ButtonState(false, false), NonNull(ButtonUnclick(Right, Grip)))
    else ButtonStep(ButtonState(click, false), Null)
  }

  /** Once clicked, the grip stays clicked through any run of non-zero axis samples. */
  function GripRun(click: bool, axes: seq<real>): bool
    decreases |axes|
  {
    if axes == [] then click else GripRun(GripStep(click, axes[0]).state.click, axes[1..])
  }

  lemma {:induction false} GripHeldUntilZero(axes: seq<real>)
    requires forall i :: 0 <= i < |axes| ==> axes[i] != 0.0
    ensures GripRun(true, axes)
    decreases |axes|
  {
    if axes != [] {
      GripHeldUntilZero(axes[1..]);
    }
  }

  /** The readings of one frame. */
  datatype RightSample = RightSample(
    triggerAxis: real, triggerTouchDown: bool, triggerTouchUp: bool,
    horizontal: real, vertical: real,
    thumbClickDown: bool, thumbClickUp: bool, thumbTouchDown: bool, thumbTouchUp: bool,
    gripAxis: real)

  /** The variable names the system looks up, which are those ControllerInputToSO gives. */
  lemma NamesAgreeWithTable()
    ensures ControllerInputToSO.GetClickVariableFor(Trigger) == NonNull("TriggerIsDown")
    ensures ControllerInputToSO.GetTouchVariableFor(Trigger) == NonNull("TriggerIsTouching")
    ensures ControllerInputToSO.GetClickVariableFor(Thumbstick) == NonNull("ThumbIsDown")
    ensures ControllerInputToSO.GetTouchVariableFor(Thumbstick) == NonNull("ThumbIsTouching")
    ensures ControllerInputToSO.GetClickVariableFor(Grip) == NonNull("GripIsDown")
  {
  }

  /** The dictionaries hold the variables the system reads (a missing one throws in the source). */
  predicate Keys(clickBools: map<string, bool>, touchBools: map<string, bool>)
  {
    "TriggerIsDown" in clickBools && "ThumbIsDown" in clickBools && "GripIsDown" in clickBools
    && "TriggerIsTouching" in touchBools && "ThumbIsTouching" in touchBools
  }

  /** A BoolVariable's value; a variable the dictionary lacks reads as false. */
  function Get(m: map<string, bool>, name: string): bool
  {
    if name in m then m[name] else false
  }

  /** The dictionaries after one CheckRightControllerInput, and the events raised. */
  datatype RightFrame = RightFrame(clickBools: map<string, bool>, touchBools: map<string, bool>, events: seq<ButtonEvent>)

  /** The trigger region on the dictionaries. */
  function TriggerFrame(clickBools: map<string, bool>, touchBools: map<string, bool>, f: RightSample): (r: RightFrame)
    ensures |r.events| <= 1
    ensures forall i :: 0 <= i < |r.events| ==> r.events[i].hand == Right && r.events[i].EventButton() == Trigger
  {
    var trig := TriggerStep(ButtonState(Get(clickBools, "TriggerIsDown"), Get(touchBools, "TriggerIsTouching")),
                            f.triggerAxis, f.triggerTouchDown, f.triggerTouchUp);
    RightFrame(clickBools["TriggerIsDown" := trig.state.click], touchBools["TriggerIsTouching" := trig.state.touch],
               Raised(trig.event))
  }

  /** The touchpad region on the dictionaries. */
  function ThumbFrame(clickBools: map<string, bool>, touchBools: map<string, bool>, f: RightSample): (r: RightFrame)
    ensures |r.events| <= 1
    ensures forall i :: 0 <= i < |r.events| ==> r.events[i].hand == Right && r.events[i].EventButton() == Thumbstick
  {
    var thumb := ThumbStep(ButtonState(Get(clickBools, "ThumbIsDown"), Get(touchBools, "ThumbIsTouching")),
                           f.thumbClickDown, f.thumbClickUp, f.thumbTouchDown, f.thumbTouchUp);
    RightFrame(clickBools["ThumbIsDown" := thumb.state.click], touchBools["ThumbIsTouching" := thumb.state.touch],
               Raised(thumb.event))
  }

  /** The grip region on the dictionaries. */
  function GripFrame(clickBools: map<string, bool>, touchBools: map<string, bool>, f: RightSample): (r: RightFrame)
    ensures |r.events| <= 1
    ensures forall i :: 0 <= i < |r.events| ==> r.events[i].hand == Right && r.events[i].EventButton() == Grip
  {
    var grip := GripStep(Get(clickBools, "GripIsDown"), f.gripAxis);
    RightFrame(clickBools["GripIsDown" := grip.state.click], touchBools, Raised(grip.event))
  }

  /**
   * CheckRightControllerInput on the dictionaries: trigger, then thumbstick,
   * then grip, each region reading what the one before wrote. Total for the
   * sake of the frame functions below; the methods only apply it to
   * dictionaries that hold the five variables.
   */
  function RightFrameStep(clickBools: map<string, bool>, touchBools: map<string, bool>, f: RightSample): (r: RightFrame)
  {
    var a := TriggerFrame(clickBools, touchBools, f);
    var b := ThumbFrame(a.clickBools, a.touchBools, f);
    var g := GripFrame(b.clickBools, b.touchBools, f);
    RightFrame(g.clickBools, g.touchBools, a.events + b.events + g.events)
  }

  /**
   * Every event of a frame is the right hand's, and each button raises one
   * event at most, so a frame raises three at most.
   */
  lemma RightFrameOneEventPerButton(clickBools: map<string, bool>, touchBools: map<string, bool>, f: RightSample)
    ensures var r := RightFrameStep(clickBools, touchBools, f);
            && |r.events| <= 3
            && (forall i :: 0 <= i < |r.events| ==> r.events[i].hand == Right)
            && (forall i, j :: 0 <= i < j < |r.events| ==> r.events[i].EventButton() != r.events[j].EventButton())
  {
    var a := TriggerFrame(clickBools, touchBools, f);
    var b := ThumbFrame(a.clickBools, a.touchBools, f);
    var g := GripFrame(b.clickBools, b.touchBools, f);
    var all := a.events + b.events + g.events;
    forall i | 0 <= i < |all|
      ensures all[i].hand == Right
      ensures all[i].EventButton() == (if i < |a.events| then Trigger else if i < |a.events| + |b.events| then Thumbstick else Grip)
    {
      if i >= |a.events| + |b.events| {
        assert all[i] == g.events[i - |a.events| - |b.events|];
      } else if i >= |a.events| {
        assert all[i] == b.events[i - |a.events|];
      }
    }
  }

  /** What one capture component holds. */
  datatype Captured = Captured(clickBools: map<string, bool>, touchBools: map<string, bool>, thumbPosition: Vec2)

  /** What a capture component holds after the frame, from what it held before; checked or not. */
  function CapturedAfter(c: Captured, checked: bool, f: RightSample): Captured
  {
    if checked then
      var r := RightFrameStep(c.clickBools, c.touchBools, f);
      Captured(r.clickBools, r.touchBools, Vec2(f.horizontal, f.vertical))
    else c
  }

  /** The events one capture component raises in a frame, checked or not. */
  function EntityEvents(c: Captured, checked: bool, f: RightSample): seq<ButtonEvent>
  {
    if checked then RightFrameStep(c.clickBools, c.touchBools, f).events else []
  }

  /** What each capture component holds after the frame, from what they held before. */
  function AfterAll(before: seq<Captured>, checked: seq<bool>, samples: seq<RightSample>): (r: seq<Captured>)
    requires |checked| == |before| && |samples| == |before|
    ensures |r| == |before|
  {
    if before == [] then []
    else [CapturedAfter(before[0], checked[0], samples[0])] + AfterAll(before[1..], checked[1..], samples[1..])
  }

  /** Each component's entry in AfterAll is what the frame makes of what it held. */
  lemma {:induction false} AfterAllAt(before: seq<Captured>, checked: seq<bool>, samples: seq<RightSample>, i: nat)
    requires |checked| == |before| && |samples| == |before| && i < |before|
    ensures AfterAll(before, checked, samples)[i] == CapturedAfter(before[i], checked[i], samples[i])
    decreases i
  {
    var head := CapturedAfter(before[0], checked[0], samples[0]);
    var tail := AfterAll(before[1..], checked[1..], samples[1..]);
    assert AfterAll(before, checked, samples) == [head] + tail;
    if i > 0 {
      AfterAllAt(before[1..], checked[1..], samples[1..], i - 1);
      assert before[1..][i - 1] == before[i] && checked[1..][i - 1] == checked[i] && samples[1..][i - 1] == samples[i];
      assert ([head] + tail)[i] == tail[i - 1];
    }
  }

  /** The events each capture component raises in the frame. */
  function EventsAll(before: seq<Captured>, checked: seq<bool>, samples: seq<RightSample>): (r: seq<seq<ButtonEvent>>)
    requires |checked| == |before| && |samples| == |before|
    ensures |r| == |before|
  {
    if before == [] then []
    else [EntityEvents(before[0], checked[0], samples[0])] + EventsAll(before[1..], checked[1..], samples[1..])
  }

  /** Each component's entry in EventsAll is what the frame makes it raise. */
  lemma {:induction false} EventsAllAt(before: seq<Captured>, checked: seq<bool>, samples: seq<RightSample>, i: nat)
    requires |checked| == |before| && |samples| == |before| && i < |before|
    ensures EventsAll(before, checked, samples)[i] == EntityEvents(before[i], checked[i], samples[i])
    decreases i
  {
    var head := EntityEvents(before[0], checked[0], samples[0]);
    var tail := EventsAll(before[1..], checked[1..], samples[1..]);
    assert EventsAll(before, checked, samples) == [head] + tail;
    if i > 0 {
      EventsAllAt(before[1..], checked[1..], samples[1..], i - 1);
      assert before[1..][i - 1] == before[i] && checked[1..][i - 1] == checked[i] && samples[1..][i - 1] == samples[i];
      assert ([head] + tail)[i] == tail[i - 1];
    }
  }

  /** The events of the first `k` capture components, in order. */
  function Concat(evs: seq<seq<ButtonEvent>>, k: nat): seq<ButtonEvent>
    requires k <= |evs|
  {
    if k == 0 then [] else Concat(evs, k - 1) + evs[k - 1]
  }

  /** The events of one capture component are the right hand's, three at most. */
  lemma EventsAllRightHanded(before: seq<Captured>, checked: seq<bool>, samples: seq<RightSample>, i: nat)
    requires |checked| == |before| && |samples| == |before| && i < |before|
    ensures var e := EventsAll(before, checked, samples)[i];
            |e| <= 3 && forall j :: 0 <= j < |e| ==> e[j].hand == Right
  {
    EventsAllAt(before, checked, samples, i);
    RightFrameOneEventPerButton(before[i].clickBools, before[i].touchBools, samples[i]);
  }

  /** Over a whole OnUpdate, every event raised is the right hand's, three at most per component. */
  lemma {:induction false} FrameEventsRightHanded(evs: seq<seq<ButtonEvent>>, before: seq<Captured>, checked: seq<bool>,
                                                  samples: seq<RightSample>, k: nat)
    requires |checked| == |before| && |samples| == |before| && evs == EventsAll(before, checked, samples) && k <= |before|
    ensures |Concat(evs, k)| <= 3 * k
    ensures forall i :: 0 <= i < |Concat(evs, k)| ==> Concat(evs, k)[i].hand == Right
    decreases k
  {
    if k > 0 {
      FrameEventsRightHanded(evs, before, checked, samples, k - 1);
      EventsAllRightHanded(before, checked, samples, k - 1);
      var prev: seq<ButtonEvent>, last: seq<ButtonEvent> := Concat(evs, k - 1), evs[k - 1];
      assert Concat(evs, k) == prev + last;
      forall i | 0 <= i < |prev + last|
        ensures (prev + last)[i].hand == Right
      {
        if i < |prev| {
          assert (prev + last)[i] == prev[i];
        } else {
          assert (prev + last)[i] == last[i - |prev|];
        }
      }
    }
  }

  /** CrossplatformInputCapture with its right-hand parameters. */
  class CrossplatformInputCapture {
    /** Set by the setup systems, which are not part of this model. */
    const isSetup: bool
    var clickBools: map<string, bool>
    var touchBools: map<string, bool>
    var thumbPosition: Vec2

    /** The dictionaries hold the variables the system reads. */
    predicate HasVariables()
      reads this
    {
      Keys(clickBools, touchBools)
    }

    function Holds(): Captured
      reads this
    {
      Captured(clickBools, touchBools, thumbPosition)
    }
  }

  class CrossplatformRightInputCaptureSystem {
    var enabled: bool

    /** The trigger region of CheckRightControllerInput. */
    method CheckTrigger(ic: CrossplatformInputCapture, f: RightSample) returns (events: seq<ButtonEvent>)
      requires "TriggerIsDown" in ic.clickBools && "TriggerIsTouching" in ic.touchBools
      modifies ic`clickBools, ic`touchBools
      ensures RightFrame(ic.clickBools, ic.touchBools, events) == TriggerFrame(old(ic.clickBools), old(ic.touchBools), f)
    {
      var tempClick := ic.clickBools["TriggerIsDown"];
      var tempTouch := ic.touchBools["TriggerIsTouching"];
      events := [];
      if !tempClick && f.triggerAxis > ClickThreshold {
        ic.clickBools := ic.clickBools["TriggerIsDown" := true];
        ic.touchBools := ic.touchBools["TriggerIsTouching" := false];
        events := [ButtonClick(Right, Trigger)];
      } else if tempClick && f.triggerAxis < ClickThreshold {
        ic.clickBools := ic.clickBools["TriggerIsDown" := false];
        ic.touchBools := ic.touchBools["TriggerIsTouching" := tempTouch];
        events := [ButtonUnclick(Right, Trigger)];
      } else if f.triggerTouchDown {
        ic.clickBools := ic.clickBools["TriggerIsDown" := tempClick];
        ic.touchBools := ic.touchBools["TriggerIsTouching" := true];
        events := [ButtonTouch(Right, Trigger)];
      } else if f.triggerTouchUp {
        ic.clickBools := ic.clickBools["TriggerIsDown" := tempClick];
        ic.touchBools := ic.touchBools["TriggerIsTouching" := false];
        events := [ButtonUntouch(Right, Trigger)];
      } else {
        ic.clickBools := ic.clickBools["TriggerIsDown" := tempClick];
        ic.touchBools := ic.touchBools["TriggerIsTouching" := tempTouch];
      }
    }

    /** The touchpad region of CheckRightControllerInput. */
    method CheckThumb(ic: CrossplatformInputCapture, f: RightSample) returns (events: seq<ButtonEvent>)
      requires "ThumbIsDown" in ic.clickBools && "ThumbIsTouching" in ic.touchBools
      modifies ic`clickBools, ic`touchBools, ic`thumbPosition
      ensures RightFrame(ic.clickBools, ic.touchBools, events) == ThumbFrame(old(ic.clickBools), old(ic.touchBools), f)
      ensures ic.thumbPosition == Vec2(f.horizontal, f.vertical)
    {
      ic.thumbPosition := Vec2(f.horizontal, f.vertical);
      var tempClick := ic.clickBools["ThumbIsDown"];
      var tempTouch := ic.touchBools["ThumbIsTouching"];
      events := [];
      if f.thumbClickDown {
        ic.clickBools := ic.clickBools["ThumbIsDown" := true];
        ic.touchBools := ic.touchBools["ThumbIsTouching" := tempTouch];
        events := [ButtonClick(Right, Thumbstick)];
      } else if f.thumbClickUp {
        ic.clickBools := ic.clickBools["ThumbIsDown" := false];
        ic.touchBools := ic.touchBools["ThumbIsTouching" := tempTouch];
        events := [ButtonUnclick(Right, Thumbstick)];
      } else if !tempClick && f.thumbTouchDown {
        ic.clickBools := ic.clickBools["ThumbIsDown" := tempClick];
        ic.touchBools := ic.touchBools["ThumbIsTouching" := true];
        events := [ButtonTouch(Right, Thumbstick)];
      } else if f.thumbTouchUp {
        ic.clickBools := ic.clickBools["ThumbIsDown" := tempClick];
        ic.touchBools := ic.touchBools["ThumbIsTouching" := false];
        events := [ButtonUntouch(Right, Thumbstick)];
      } else {
        ic.clickBools := ic.clickBools["ThumbIsDown" := tempClick];
        ic.touchBools := ic.touchBools["ThumbIsTouching" := tempTouch];
      }
    }

    /** The grip region of CheckRightControllerInput. */
    method CheckGrip(ic: CrossplatformInputCapture, f: RightSample) returns (events: seq<ButtonEvent>)
      requires "GripIsDown" in ic.clickBools
      modifies ic`clickBools
      ensures RightFrame(ic.clickBools, ic.touchBools, events) == GripFrame(old(ic.clickBools), ic.touchBools, f)
    {
      var tempClick := ic.clickBools["GripIsDown"];
      events := [];
      if !tempClick && f.gripAxis > ClickThreshold {
        ic.clickBools := ic.clickBools["GripIsDown" := true];
        events := [ButtonClick(Right, Grip)];
      } else if tempClick && f.gripAxis == 0.0 {
        ic.clickBools := ic.clickBools["GripIsDown" := false];
        events := [ButtonUnclick(Right, Grip)];
      } else {
        ic.clickBools := ic.clickBools["GripIsDown" := tempClick];
      }
    }

    /**
     * CheckRightControllerInput. `events` are the events raised, in order:
     * trigger, thumbstick, grip.
     */
    method CheckRightControllerInput(ic: CrossplatformInputCapture, f: RightSample) returns (events: seq<ButtonEvent>)
      requires ic.HasVariables()
      modifies ic`clickBools, ic`touchBools, ic`thumbPosition
      ensures RightFrame(ic.clickBools, ic.touchBools, events) == RightFrameStep(old(ic.clickBools), old(ic.touchBools), f)
      ensures ic.thumbPosition == Vec2(f.horizontal, f.vertical)
    {
      var e1 := CheckTrigger(ic, f);
      var e2 := CheckThumb(ic, f);
      var e3 := CheckGrip(ic, f);
      events := e1 + e2 + e3;
    }

    /** The body of the OnUpdate loop for one capture component. */
    method CheckEntity(ic: CrossplatformInputCapture, ghost before: seq<Captured>, ghost checked: seq<bool>,
                       samples: seq<RightSample>, k: nat)
      returns (events: seq<ButtonEvent>)
      requires |checked| == |before| && |samples| == |before| && k < |before|
      requires ic.HasVariables() && ic.Holds() == before[k] && checked[k] == ic.isSetup
      modifies ic`clickBools, ic`touchBools, ic`thumbPosition
      ensures ic.Holds() == AfterAll(before, checked, samples)[k]
      ensures events == EventsAll(before, checked, samples)[k]
    {
      AfterAllAt(before, checked, samples, k);
      EventsAllAt(before, checked, samples, k);
      var f := samples[k];
      events := [];
      if ic.isSetup {
        events := CheckRightControllerInput(ic, f);
      }
    }

    /** OnUpdate: only with controllers in use, and only for capture components that are set up. */
    method OnUpdate(useControllers: bool, entities: seq<CrossplatformInputCapture>, samples: seq<RightSample>)
      returns (events: seq<ButtonEvent>)
      requires |samples| == |entities|
      requires forall i, j :: 0 <= i < |entities| && 0 <= j < |entities| && i != j ==> entities[i] != entities[j]
      requires forall i :: 0 <= i < |entities| ==> Keys(entities[i].clickBools, entities[i].touchBools)
      modifies entities`clickBools, entities`touchBools, entities`thumbPosition
      ensures forall i :: 0 <= i < |entities| ==>
                entities[i].Holds()
                == if useControllers then AfterAll(old(HoldsAll(entities)), Setups(entities), samples)[i] else old(entities[i].Holds())
      ensures events
              == if useControllers then Concat(EventsAll(old(HoldsAll(entities)), Setups(entities), samples), |entities|) else []
    {
      events := [];
      ghost var before := HoldsAll(entities);
      ghost var setups := Setups(entities);
      if useControllers {
        ghost var after := AfterAll(before, setups, samples);
        ghost var raisedAll := EventsAll(before, setups, samples);
        var k := 0;
        while k < |entities|
          invariant 0 <= k <= |entities|
          invariant events == Concat(raisedAll, k)
          invariant forall i :: 0 <= i < k ==> entities[i].Holds() == after[i]
          invariant forall i :: k <= i < |entities| ==> entities[i].Holds() == before[i]
        {
          var raised := CheckEntity(entities[k], before, setups, samples, k);
          events := events + raised;
          k := k + 1;
        }
      }
    }

    /** CheckDevice, run when the VR setup is ready. */
    method CheckDevice(deviceLoaded: Device)
      modifies this`enabled
      ensures enabled <==> deviceLoaded != Simulator
    {
      enabled := deviceLoaded != Simulator;
    }
  }

  /** What each capture component holds. */
  function HoldsAll(entities: seq<CrossplatformInputCapture>): (r: seq<Captured>)
    reads set e | e in entities
    ensures |r| == |entities| && forall i :: 0 <= i < |entities| ==> r[i] == entities[i].Holds()
  {
    if entities == [] then [] else [entities[0].Holds()] + HoldsAll(entities[1..])
  }

  /** Whether each capture component is set up. */
  function Setups(entities: seq<CrossplatformInputCapture>): (r: seq<bool>)
    ensures |r| == |entities| && forall i :: 0 <= i < |entities| ==> r[i] == entities[i].isSetup
  {
    if entities == [] then [] else [entities[0].isSetup] + Setups(entities[1..])
  }
}
