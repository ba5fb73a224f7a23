/**
 * BACComponentsEditor: the inspector of a Button Action Choser. Each pass of
 * `OnInspectorGUI` writes back what the inspector widgets return and decides
 * `ParametersAreInvalid`. The widgets are not modelled: what each returns in a
 * pass is a parameter, given as a `Config` (one value per field it edits).
 * The two "thumb position is shown" flags persist between passes.
 */
module BACEditor {
  import opened Types
  import opened BACGeneral

  /** The fields of a BACGeneralComponent the inspector reads and writes. */
  datatype Config = Config(
    interactionType: InteractionType,
    hand: Hand,
    useGazeButton: bool,
    actionButton: Button,
    leftTouchThumb: ThumbPosition,
    rightTouchThumb: ThumbPosition,
    leftClickThumb: ThumbPosition,
    rightClickThumb: ThumbPosition,
    touchThreshold: real,
    clickThreshold: real)

  /** Which thumb position DisplayThumbPosition edits: the touch one or the click one. */
  datatype ThumbKind = TouchKind | ClickKind

  /** The configuration, the verdict, and the editor's two persistent flags. */
  datatype EditorState = EditorState(cfg: Config, invalid: bool, leftShown: bool, rightShown: bool)

  /** A BAC component as it is added: every field at its initial value. */
  const FreshConfig := Config(NONE_TYPE, NoHand, false, NoButton, THUMB_NONE, THUMB_NONE, THUMB_NONE, THUMB_NONE, 0.5, 0.5)

  /** The buttons the touch check accepts without a thumb position. */
  const TouchButtons: set<Button> := {AButton, BButton, XButton, YButton, Thumbrest}

  /** The interaction type, hand and gaze-button choice are left as they were. */
  predicate KeepsSelection(st: EditorState, r: EditorState)
  {
    r.cfg.interactionType == st.cfg.interactionType && r.cfg.hand == st.cfg.hand
    && r.cfg.useGazeButton == st.cfg.useGazeButton
  }

  /** A verdict that hides both thumb-position panels. */
  function Verdict(st: EditorState, invalid: bool): (r: EditorState)
    ensures r.cfg == st.cfg && r.invalid == invalid && !r.leftShown && !r.rightShown
  {
    st.(invalid := invalid, leftShown := false, rightShown := false)
  }

  /**
   * DisplayThumbPosition: for the left or right hand, the thumb position of the
   * given kind is edited and its panel marked shown; the threshold of that kind
   * is edited whatever the hand.
   */
  function ShowThumbPosition(st: EditorState, kind: ThumbKind, hand: Hand, gui: Config): (r: EditorState)
    ensures KeepsSelection(st, r) && r.cfg.actionButton == st.cfg.actionButton
    ensures r.invalid == st.invalid
    ensures r.leftShown == (st.leftShown || hand == Left) && r.rightShown == (st.rightShown || hand == Right)
    ensures kind == ClickKind ==> r.cfg.clickThreshold == gui.clickThreshold && r.cfg.touchThreshold == st.cfg.touchThreshold
    ensures kind == TouchKind ==> r.cfg.touchThreshold == gui.touchThreshold && r.cfg.clickThreshold == st.cfg.clickThreshold
    ensures r.cfg.leftClickThumb == if kind == ClickKind && hand == Left then gui.leftClickThumb else st.cfg.leftClickThumb
    ensures r.cfg.rightClickThumb == if kind == ClickKind && hand == Right then gui.rightClickThumb else st.cfg.rightClickThumb
    ensures r.cfg.leftTouchThumb == if kind == TouchKind && hand == Left then gui.leftTouchThumb else st.cfg.leftTouchThumb
    ensures r.cfg.rightTouchThumb == if kind == TouchKind && hand == Right then gui.rightTouchThumb else st.cfg.rightTouchThumb
  {
    var c := st.cfg;
    var click := kind == ClickKind;
    var touch := !click;
    EditorState(
      Config(c.interactionType, c.hand, c.useGazeButton, c.actionButton,
             if touch && hand == Left then gui.leftTouchThumb else c.leftTouchThumb,
             if touch && hand == Right then gui.rightTouchThumb else c.rightTouchThumb,
             if click && hand == Left then gui.leftClickThumb else c.leftClickThumb,
             if click && hand == Right then gui.rightClickThumb else c.rightClickThumb,
             if touch then gui.touchThreshold else c.touchThreshold,
             if click then gui.clickThreshold else c.clickThreshold),
      st.invalid, st.leftShown || hand == Left, st.rightShown || hand == Right)
  }

  /** HandleTouchDisplay. */
  function TouchCheck(st: EditorState, gui: Config): (r: EditorState)
    ensures KeepsSelection(st, r) && r.cfg.actionButton == st.cfg.actionButton
  {
    var b := st.cfg.actionButton;
    if b in TouchButtons then Verdict(st, false)
    else if b == Thumbstick then ShowThumbPosition(st, TouchKind, st.cfg.hand, gui)
    else Verdict(st, true)
  }

  /** HandleClickDisplay. */
  function ClickCheck(st: EditorState, gui: Config): (r: EditorState)
    ensures KeepsSelection(st, r) && r.cfg.actionButton == st.cfg.actionButton
  {
    match st.cfg.actionButton
    case AButton => Verdict(st, false)
    case BButton => Verdict(st, false)
    case XButton => Verdict(st, false)
    case YButton => Verdict(st, false)
    case Menu => if st.cfg.hand == Right then Verdict(st, false) else st
    case WheelButton => Verdict(st, false)
    case Thumbrest => Verdict(st, true)
    case Thumbstick => ShowThumbPosition(st, ClickKind, st.cfg.hand, gui)
    case NoButton => Verdict(st, true)
    case _ => Verdict(st, false)
  }

  /** The touch verdict: A, B, X, Y and THUMBREST pass; NONE and every other button but the thumbstick fail. */
  lemma TouchVerdicts(st: EditorState, gui: Config)
    ensures st.cfg.actionButton in TouchButtons ==> !TouchCheck(st, gui).invalid
    ensures st.cfg.actionButton !in TouchButtons && st.cfg.actionButton != Thumbstick ==> TouchCheck(st, gui).invalid
    ensures st.cfg.actionButton != Thumbstick ==> TouchCheck(st, gui).cfg == st.cfg
  {
  }

  /**
   * The click verdict: THUMBREST and NONE fail; MENU passes for the right hand
   * and leaves the state as it was for any other; every other button but the
   * thumbstick passes.
   */
  lemma ClickVerdicts(st: EditorState, gui: Config)
    ensures var b := st.cfg.actionButton;
            (b == Thumbrest || b == NoButton) ==> ClickCheck(st, gui).invalid
    ensures st.cfg.actionButton == Menu && st.cfg.hand != Right ==> ClickCheck(st, gui) == st
    ensures var b := st.cfg.actionButton;
            b !in {Thumbrest, NoButton, Thumbstick, Menu} ==> !ClickCheck(st, gui).invalid
    ensures st.cfg.actionButton == Menu && st.cfg.hand == Right ==> !ClickCheck(st, gui).invalid
  {
  }

  /**
   * With ALL the touch check runs first and the click check second, so the
   * click verdict wins, except for MENU with another hand than the right, where
   * the click check keeps the touch verdict (invalid).
   */
  lemma AllClickVerdictWins(st: EditorState, gui: Config)
    requires st.cfg.actionButton != Thumbstick
    ensures !(st.cfg.actionButton == Menu && st.cfg.hand != Right) ==>
              ClickCheck(TouchCheck(st, gui), gui) == ClickCheck(st, gui)
    ensures st.cfg.actionButton == Menu && st.cfg.hand != Right ==> ClickCheck(TouchCheck(st, gui), gui).invalid
  {
    TouchVerdicts(st, gui);
  }

  /** A thumb position is required, and missing, for the interaction type. */
  predicate ThumbMissing(t: InteractionType, touchThumb: ThumbPosition, clickThumb: ThumbPosition)
  {
    (t == CLICK && clickThumb == THUMB_NONE)
    || (t == TOUCH && touchThumb == THUMB_NONE)
    || (t == ALL && (touchThumb == THUMB_NONE || clickThumb == THUMB_NONE))
  }

  /** CheckThumbPos: the shown left panel decides; the right one only when the left is hidden. */
  function ThumbPosCheck(st: EditorState): (r: EditorState)
    ensures r.cfg == st.cfg && r.leftShown == st.leftShown && r.rightShown == st.rightShown
    ensures st.leftShown ==> (r.invalid <==> ThumbMissing(st.cfg.interactionType, st.cfg.leftTouchThumb, st.cfg.leftClickThumb))
    ensures !st.leftShown && st.rightShown ==>
              (r.invalid <==> ThumbMissing(st.cfg.interactionType, st.cfg.rightTouchThumb, st.cfg.rightClickThumb))
    ensures !st.leftShown && !st.rightShown ==> r == st
  {
    var c := st.cfg;
    if st.leftShown then st.(invalid := ThumbMissing(c.interactionType, c.leftTouchThumb, c.leftClickThumb))
    else if st.rightShown then st.(invalid := ThumbMissing(c.interactionType, c.rightTouchThumb, c.rightClickThumb))
    else st
  }

  /** The check the interaction type selects; an unknown type is invalid and clears the button. */
  function ButtonCheck(st: EditorState, gui: Config): (r: EditorState)
    ensures KeepsSelection(st, r)
  {
    var t := st.cfg.interactionType;
    if t == TOUCH then TouchCheck(st, gui)
    else if t == CLICK then ClickCheck(st, gui)
    else if t == ALL then ClickCheck(TouchCheck(st, gui), gui)
    else st.(invalid := true, cfg := st.cfg.(actionButton := NoButton))
  }

  /** The interaction type, the hand and the gaze-button choice written back (past both NONE checks). */
  function Select(st: EditorState, useGaze: bool, useControllers: bool, gui: Config): (r: EditorState)
    ensures r.cfg.interactionType == gui.interactionType && r.cfg.hand == gui.hand
    ensures r.cfg.useGazeButton == (useGaze && useControllers && gui.useGazeButton)
  {
    st.(cfg := st.cfg.(interactionType := gui.interactionType, hand := gui.hand,
                       useGazeButton := useGaze && useControllers && gui.useGazeButton))
  }

  /** The verdict before the thumb check: the gaze button passes, otherwise the action button is checked. */
  function Decide(st: EditorState, gui: Config): (r: EditorState)
    ensures KeepsSelection(st, r)
  {
    if st.cfg.useGazeButton then st.(invalid := false)
    else ButtonCheck(st.(cfg := st.cfg.(actionButton := gui.actionButton)), gui)
  }

  /** One OnInspectorGUI pass, as written. */
  function InspectorPass(st: EditorState, useGaze: bool, useControllers: bool, gui: Config): EditorState
  {
    if gui.interactionType == NONE_TYPE then st.(cfg := st.cfg.(interactionType := NONE_TYPE), invalid := true)
    else if gui.hand == NoHand then st.(cfg := st.cfg.(interactionType := gui.interactionType, hand := NoHand), invalid := true)
    else ThumbPosCheck(Decide(Select(st, useGaze, useControllers, gui), gui))
  }

  /** A NONE interaction type marks the configuration invalid and nothing else is read or written. */
  lemma NoneTypeStops(st: EditorState, useGaze: bool, useControllers: bool, gui: Config)
    requires gui.interactionType == NONE_TYPE
    ensures InspectorPass(st, useGaze, useControllers, gui)
            == EditorState(st.cfg.(interactionType := NONE_TYPE), true, st.leftShown, st.rightShown)
  {
  }

  /** A NONE hand marks the configuration invalid and nothing after the hand is read or written. */
  lemma NoHandStops(st: EditorState, useGaze: bool, useControllers: bool, gui: Config)
    requires gui.interactionType != NONE_TYPE && gui.hand == NoHand
    ensures InspectorPass(st, useGaze, useControllers, gui)
            == EditorState(st.cfg.(interactionType := gui.interactionType, hand := NoHand), true, st.leftShown, st.rightShown)
  {
  }

  /** The gaze button stays off unless both the gaze and the controllers are in use. */
  lemma GazeButtonNeedsBoth(st: EditorState, useGaze: bool, useControllers: bool, gui: Config)
    requires gui.interactionType != NONE_TYPE && gui.hand != NoHand
    ensures InspectorPass(st, useGaze, useControllers, gui).cfg.useGazeButton
            <==> useGaze && useControllers && gui.useGazeButton
  {
  }

  /** A freshly added component is invalid as long as its interaction type is left at NONE. */
  lemma FreshComponentIsInvalid(invalid: bool, leftShown: bool, rightShown: bool, useGaze: bool, useControllers: bool)
    ensures InspectorPass(EditorState(FreshConfig, invalid, leftShown, rightShown), useGaze, useControllers, FreshConfig).invalid
  {
  }

  /** Showing a panel twice shows it once. */
  lemma ShowTwice(x: EditorState, kind: ThumbKind, hand: Hand, gui: Config)
    ensures ShowThumbPosition(ShowThumbPosition(x, kind, hand, gui), kind, hand, gui) == ShowThumbPosition(x, kind, hand, gui)
  {
  }

  /** Showing a panel does not look at the verdict. */
  lemma ShowKeepsVerdict(x: EditorState, kind: ThumbKind, hand: Hand, gui: Config, v: bool)
    ensures ShowThumbPosition(x.(invalid := v), kind, hand, gui) == ShowThumbPosition(x, kind, hand, gui).(invalid := v)
  {
  }

  /** The touch and click panels are shown independently. */
  lemma ShowCommutes(x: EditorState, hand: Hand, gui: Config)
    ensures ShowThumbPosition(ShowThumbPosition(x, TouchKind, hand, gui), ClickKind, hand, gui)
            == ShowThumbPosition(ShowThumbPosition(x, ClickKind, hand, gui), TouchKind, hand, gui)
  {
  }

  /** The thumb check only sets the verdict, and only from the configuration when a panel is shown. */
  lemma ThumbFacts(z: EditorState, v: bool)
    ensures ThumbPosCheck(z) == z.(invalid := ThumbPosCheck(z).invalid)
    ensures ThumbPosCheck(ThumbPosCheck(z)) == ThumbPosCheck(z)
    ensures z.leftShown || z.rightShown ==> ThumbPosCheck(z.(invalid := v)) == ThumbPosCheck(z)
    ensures !z.leftShown && !z.rightShown ==> ThumbPosCheck(z.(invalid := v)) == z.(invalid := v)
  {
  }

  /** For a thumbstick, the thumb check after showing the panel is idempotent. */
  lemma ShowThenThumbIdempotent(x: EditorState, kind: ThumbKind, gui: Config)
    ensures var y := ThumbPosCheck(ShowThumbPosition(x, kind, x.cfg.hand, gui));
            ThumbPosCheck(ShowThumbPosition(y, kind, y.cfg.hand, gui)) == y
  {
    var h := x.cfg.hand;
    var s := ShowThumbPosition(x, kind, h, gui);
    var y := ThumbPosCheck(s);
    ThumbFacts(s, false);
    ShowKeepsVerdict(s, kind, h, gui, y.invalid);
    ShowTwice(x, kind, h, gui);
    assert ShowThumbPosition(y, kind, h, gui) == y;
  }

  /** The same for ALL, where the touch panel is shown, then the click panel. */
  lemma ShowBothThenThumbIdempotent(x: EditorState, gui: Config)
    ensures var y := ThumbPosCheck(ShowThumbPosition(ShowThumbPosition(x, TouchKind, x.cfg.hand, gui), ClickKind, x.cfg.hand, gui));
            ThumbPosCheck(ShowThumbPosition(ShowThumbPosition(y, TouchKind, y.cfg.hand, gui), ClickKind, y.cfg.hand, gui)) == y
  {
    var h := x.cfg.hand;
    var st := ShowThumbPosition(x, TouchKind, h, gui);
    var s := ShowThumbPosition(st, ClickKind, h, gui);
    var y := ThumbPosCheck(s);
    ThumbFacts(s, false);
    ShowKeepsVerdict(s, TouchKind, h, gui, y.invalid);
    ShowKeepsVerdict(ShowThumbPosition(s, TouchKind, h, gui), ClickKind, h, gui, y.invalid);
    ShowCommutes(st, h, gui);
    ShowTwice(x, TouchKind, h, gui);
    assert ShowThumbPosition(s, TouchKind, h, gui) == ShowThumbPosition(st, ClickKind, h, gui);
    ShowTwice(st, ClickKind, h, gui);
    assert ShowThumbPosition(ShowThumbPosition(y, TouchKind, h, gui), ClickKind, h, gui) == y;
  }

  /** A decision that only sets the verdict, followed by the thumb check, is idempotent. */
  lemma VerdictThenThumbIdempotent(x: EditorState, v: bool)
    ensures var y := ThumbPosCheck(x.(invalid := v));
            ThumbPosCheck(y.(invalid := v)) == y
  {
    ThumbFacts(x.(invalid := v), v);
    ThumbFacts(ThumbPosCheck(x.(invalid := v)), v);
  }

  /** The same for a verdict that also hides both panels. */
  lemma HiddenThenThumbIdempotent(x: EditorState, v: bool)
    ensures var y := ThumbPosCheck(Verdict(x, v));
            ThumbPosCheck(Verdict(y, v)) == y
  {
  }

  /** Deciding twice, with the thumb check after each, decides once: one case per interaction type. */
  lemma DecideIdempotent(x: EditorState, gui: Config)
    requires !x.cfg.useGazeButton ==> x.cfg.actionButton == gui.actionButton
    ensures var y := ThumbPosCheck(Decide(x, gui));
            ThumbPosCheck(Decide(y, gui)) == y
  {
    var t := x.cfg.interactionType;
    var b := x.cfg.actionButton;
    if x.cfg.useGazeButton {
      VerdictThenThumbIdempotent(x, false);
    } else {
      assert x.(cfg := x.cfg.(actionButton := gui.actionButton)) == x;
      if t == TOUCH {
        TouchIdempotent(x, gui);
      } else if t == CLICK {
        ClickIdempotent(x, gui);
      } else if t == ALL {
        AllIdempotent(x, gui);
      } else {
        var d := x.(cfg := x.cfg.(actionButton := NoButton));
        VerdictThenThumbIdempotent(d, true);
        var y := ThumbPosCheck(d.(invalid := true));
        assert y.(cfg := y.cfg.(actionButton := gui.actionButton)).(invalid := true, cfg := y.cfg) == y.(invalid := true);
      }
    }
  }

  lemma TouchIdempotent(x: EditorState, gui: Config)
    requires x.cfg.interactionType == TOUCH
    ensures var y := ThumbPosCheck(TouchCheck(x, gui));
            ThumbPosCheck(TouchCheck(y, gui)) == y
  {
    if x.cfg.actionButton == Thumbstick {
      ShowThenThumbIdempotent(x, TouchKind, gui);
    } else {
      HiddenThenThumbIdempotent(x, x.cfg.actionButton !in TouchButtons);
    }
  }

  lemma ClickIdempotent(x: EditorState, gui: Config)
    requires x.cfg.interactionType == CLICK
    ensures var y := ThumbPosCheck(ClickCheck(x, gui));
            ThumbPosCheck(ClickCheck(y, gui)) == y
  {
    var b := x.cfg.actionButton;
    if b == Thumbstick {
      ShowThenThumbIdempotent(x, ClickKind, gui);
    } else if b == Menu && x.cfg.hand != Right {
      ThumbFacts(x, false);
    } else {
      HiddenThenThumbIdempotent(x, b == Thumbrest || b == NoButton);
    }
  }

  lemma AllIdempotent(x: EditorState, gui: Config)
    requires x.cfg.interactionType == ALL
    ensures var y := ThumbPosCheck(ClickCheck(TouchCheck(x, gui), gui));
            ThumbPosCheck(ClickCheck(TouchCheck(y, gui), gui)) == y
  {
    var b := x.cfg.actionButton;
    if b == Thumbstick {
      AllThumbstickIdempotent(x, gui);
    } else if b == Menu && x.cfg.hand != Right {
      AllLeftMenuIdempotent(x, gui);
    } else {
      AllOtherIdempotent(x, gui);
    }
  }

  /** ALL with the thumbstick: both panels shown, then the thumb check. */
  lemma AllThumbstickIdempotent(x: EditorState, gui: Config)
    requires x.cfg.interactionType == ALL && x.cfg.actionButton == Thumbstick
    ensures var y := ThumbPosCheck(ClickCheck(TouchCheck(x, gui), gui));
            ThumbPosCheck(ClickCheck(TouchCheck(y, gui), gui)) == y
  {
    var h := x.cfg.hand;
    ShowBothThenThumbIdempotent(x, gui);
    assert TouchCheck(x, gui) == ShowThumbPosition(x, TouchKind, h, gui);
    var y := ThumbPosCheck(ClickCheck(TouchCheck(x, gui), gui));
    assert TouchCheck(y, gui) == ShowThumbPosition(y, TouchKind, h, gui);
  }

  /** ALL with the menu button of the left hand: the touch verdict (invalid) stays. */
  lemma AllLeftMenuIdempotent(x: EditorState, gui: Config)
    requires x.cfg.interactionType == ALL && x.cfg.actionButton == Menu && x.cfg.hand != Right
    ensures var y := ThumbPosCheck(ClickCheck(TouchCheck(x, gui), gui));
            ThumbPosCheck(ClickCheck(TouchCheck(y, gui), gui)) == y
  {
    HiddenThenThumbIdempotent(x, true);
    assert ClickCheck(TouchCheck(x, gui), gui) == Verdict(x, true);
    var y := ThumbPosCheck(Verdict(x, true));
    assert ClickCheck(TouchCheck(y, gui), gui) == Verdict(y, true);
  }

  /** ALL with any other button: the click verdict wins. */
  lemma AllOtherIdempotent(x: EditorState, gui: Config)
    requires x.cfg.interactionType == ALL && x.cfg.actionButton != Thumbstick
    requires !(x.cfg.actionButton == Menu && x.cfg.hand != Right)
    ensures var y := ThumbPosCheck(ClickCheck(TouchCheck(x, gui), gui));
            ThumbPosCheck(ClickCheck(TouchCheck(y, gui), gui)) == y
  {
    var b := x.cfg.actionButton;
    var v := b == Thumbrest || b == NoButton;
    AllClickVerdictWins(x, gui);
    HiddenThenThumbIdempotent(x, v);
    assert ClickCheck(x, gui) == Verdict(x, v);
    var y := ThumbPosCheck(Verdict(x, v));
    AllClickVerdictWins(y, gui);
    assert ClickCheck(y, gui) == Verdict(y, v);
  }

  /** Repainting the inspector with no edit changes nothing. */
  lemma RepaintIsIdempotent(st: EditorState, useGaze: bool, useControllers: bool, gui: Config)
    ensures var once := InspectorPass(st, useGaze, useControllers, gui);
            InspectorPass(once, useGaze, useControllers, gui) == once
  {
    if gui.interactionType != NONE_TYPE && gui.hand != NoHand {
      var x := Select(st, useGaze, useControllers, gui);
      var once := ThumbPosCheck(Decide(x, gui));
      assert Select(once, useGaze, useControllers, gui) == once;
      if x.cfg.useGazeButton {
        DecideIdempotent(x, gui);
      } else {
        DecideIdempotent(x.(cfg := x.cfg.(actionButton := gui.actionButton)), gui);
        assert Decide(x, gui) == Decide(x.(cfg := x.cfg.(actionButton := gui.actionButton)), gui);
      }
    }
  }

  /** An interaction type other than NONE, TOUCH, CLICK and ALL. */
  predicate UnknownType(t: InteractionType)
  {
    t != NONE_TYPE && t != TOUCH && t != CLICK && t != ALL
  }

  /**
   * As written, an unknown interaction type is marked invalid and its button
   * cleared, but a thumb-position panel left shown by an earlier pass then
   * overrides the verdict: the configuration comes out valid.
   */
  lemma UnknownTypePassesWithStalePanel(cfg: Config, gui: Config)
    requires UnknownType(gui.interactionType) && gui.hand != NoHand && !gui.useGazeButton
    ensures var r := InspectorPass(EditorState(cfg, true, false, false), true, true, gui);
            r.invalid && r.cfg.actionButton == NoButton
    ensures var r := InspectorPass(EditorState(cfg, true, true, false), true, true, gui);
            !r.invalid && r.cfg.actionButton == NoButton
  {
  }

  /**
   * As written, a right-hand thumbstick click with no right thumb position is
   * judged by the left panel an earlier left-hand pass left shown: it comes out
   * valid.
   */
  lemma RightThumbstickJudgedByLeftPanel(cfg: Config, gui: Config)
    requires gui.interactionType == CLICK && gui.hand == Right && gui.actionButton == Thumbstick && !gui.useGazeButton
    requires gui.rightClickThumb == THUMB_NONE && cfg.leftClickThumb != THUMB_NONE
    ensures InspectorPass(EditorState(cfg, false, false, false), true, true, gui).invalid
    ensures !InspectorPass(EditorState(cfg, false, true, false), true, true, gui).invalid
  {
  }

  /** Both thumb-position panels hidden. */
  function Hidden(st: EditorState): (r: EditorState)
    ensures r == st.(leftShown := false, rightShown := false)
  {
    st.(leftShown := false, rightShown := false)
  }

  /**
   * The evidently intended pass: the panel flags say what this pass shows, so
   * they start hidden; the branches that show a panel set its flag again.
   */
  function InspectorPassIntended(st: EditorState, useGaze: bool, useControllers: bool, gui: Config): EditorState
  {
    if gui.interactionType == NONE_TYPE then st.(cfg := st.cfg.(interactionType := NONE_TYPE), invalid := true)
    else if gui.hand == NoHand then st.(cfg := st.cfg.(interactionType := gui.interactionType, hand := NoHand), invalid := true)
    else ThumbPosCheck(Decide(Hidden(Select(st, useGaze, useControllers, gui)), gui))
  }

  /**
   * With the intended pass the verdict no longer depends on earlier passes:
   * the gaze button is valid and an unknown type invalid, with its button cleared.
   */
  lemma IntendedPassVerdicts(st: EditorState, useGaze: bool, useControllers: bool, gui: Config)
    requires gui.interactionType != NONE_TYPE && gui.hand != NoHand
    ensures var r := InspectorPassIntended(st, useGaze, useControllers, gui);
            r.cfg.useGazeButton ==> !r.invalid
    ensures var r := InspectorPassIntended(st, useGaze, useControllers, gui);
            UnknownType(gui.interactionType) && !r.cfg.useGazeButton ==> r.invalid && r.cfg.actionButton == NoButton
  {
  }

  /**
   * With the intended pass, a thumbstick of the left or right hand is invalid
   * exactly when that hand lacks a thumb position its interaction type requires.
   */
  lemma IntendedThumbstickVerdict(st: EditorState, useGaze: bool, useControllers: bool, gui: Config)
    requires gui.interactionType in {TOUCH, CLICK, ALL} && (gui.hand == Left || gui.hand == Right)
    requires gui.actionButton == Thumbstick
    ensures var r := InspectorPassIntended(st, useGaze, useControllers, gui);
            !r.cfg.useGazeButton && gui.hand == Left ==>
              (r.invalid <==> ThumbMissing(gui.interactionType, gui.leftTouchThumb, gui.leftClickThumb))
    ensures var r := InspectorPassIntended(st, useGaze, useControllers, gui);
            !r.cfg.useGazeButton && gui.hand == Right ==>
              (r.invalid <==> ThumbMissing(gui.interactionType, gui.rightTouchThumb, gui.rightClickThumb))
  {
    var x := Hidden(Select(st, useGaze, useControllers, gui));
    if !x.cfg.useGazeButton {
      var y := x.(cfg := x.cfg.(actionButton := gui.actionButton));
      var h := gui.hand;
      var t := gui.interactionType;
      var shown := if t == TOUCH then ShowThumbPosition(y, TouchKind, h, gui)
                   else if t == CLICK then ShowThumbPosition(y, ClickKind, h, gui)
                   else ShowThumbPosition(ShowThumbPosition(y, TouchKind, h, gui), ClickKind, h, gui);
      assert Decide(x, gui) == shown;
      assert shown.leftShown == (h == Left) && shown.rightShown == (h == Right);
    }
  }

  /** With no panel shown before, the intended pass agrees with the pass as written. */
  lemma IntendedAgreesWithoutPanels(st: EditorState, useGaze: bool, useControllers: bool, gui: Config)
    requires !st.leftShown && !st.rightShown
    ensures InspectorPassIntended(st, useGaze, useControllers, gui) == InspectorPass(st, useGaze, useControllers, gui)
  {
    var x := Select(st, useGaze, useControllers, gui);
    assert Hidden(x) == x;
  }

  /** The inspector of one BAC component. */
  class BACComponentsEditor {
    var leftThumbPosIsShown: bool
    var rightThumbPosIsShown: bool

    /** The state one pass reads: the component's fields, the verdict and the two panel flags. */
    function State(bac: BACGeneralComponent, bacCalc: BACCalculationsComponent): EditorState
      reads this, bac, bacCalc
    {
      EditorState(
        Config(bac.interactionType, bac.buttonHand, bac.useGazeButton, bac.actionButton,
               bac.leftTouchThumbPosition, bac.rightTouchThumbPosition,
               bac.leftClickThumbPosition, bac.rightClickThumbPosition,
               bac.touchThreshold, bac.clickThreshold),
        bacCalc.parametersAreInvalid, leftThumbPosIsShown, rightThumbPosIsShown)
    }

    method DisplayThumbPosition(bac: BACGeneralComponent, bacCalc: BACCalculationsComponent, kind: ThumbKind, hand: Hand,
                                gui: Config)
      modifies this, bac
      ensures State(bac, bacCalc) == ShowThumbPosition(old(State(bac, bacCalc)), kind, hand, gui)
      ensures bac.events == old(bac.events)
    {
      if kind == ClickKind {
        match hand {
          case Left =>
            bac.leftClickThumbPosition := gui.leftClickThumb;
            leftThumbPosIsShown := true;
          case Right =>
            bac.rightClickThumbPosition := gui.rightClickThumb;
            rightThumbPosIsShown := true;
          case _ =>
        }
        bac.clickThreshold := gui.clickThreshold;
      } else {
        match hand {
          case Left =>
            bac.leftTouchThumbPosition := gui.leftTouchThumb;
            leftThumbPosIsShown := true;
          case Right =>
            bac.rightTouchThumbPosition := gui.rightTouchThumb;
            rightThumbPosIsShown := true;
          case _ =>
        }
        bac.touchThreshold := gui.touchThreshold;
      }
    }

    /** Sets the verdict and hides both thumb-position panels. */
    method SetVerdict(bac: BACGeneralComponent, bacCalc: BACCalculationsComponent, invalid: bool)
      modifies this, bacCalc
      ensures State(bac, bacCalc) == Verdict(old(State(bac, bacCalc)), invalid)
      ensures bacCalc.canBeUsed == old(bacCalc.canBeUsed)
    {
      bacCalc.parametersAreInvalid := invalid;
      leftThumbPosIsShown := false;
      rightThumbPosIsShown := false;
    }

    method HandleTouchDisplay(bac: BACGeneralComponent, bacCalc: BACCalculationsComponent, gui: Config)
      modifies this, bac, bacCalc
      ensures State(bac, bacCalc) == TouchCheck(old(State(bac, bacCalc)), gui)
      ensures bac.events == old(bac.events) && bacCalc.canBeUsed == old(bacCalc.canBeUsed)
    {
      ghost var st := State(bac, bacCalc);
      match bac.actionButton {
        case AButton | BButton | XButton | YButton | Thumbrest =>
          assert TouchCheck(st, gui) == Verdict(st, false);
          SetVerdict(bac, bacCalc, false);
        case Thumbstick =>
          assert TouchCheck(st, gui) == ShowThumbPosition(st, TouchKind, st.cfg.hand, gui);
          DisplayThumbPosition(bac, bacCalc, TouchKind, bac.buttonHand, gui);
        case NoButton =>
          assert TouchCheck(st, gui) == Verdict(st, true);
          SetVerdict(bac, bacCalc, true);
        case _ =>
          assert TouchCheck(st, gui) == Verdict(st, true);
          SetVerdict(bac, bacCalc, true);
      }
    }

    method HandleClickDisplay(bac: BACGeneralComponent, bacCalc: BACCalculationsComponent, gui: Config)
      modifies this, bac, bacCalc
      ensures State(bac, bacCalc) == ClickCheck(old(State(bac, bacCalc)), gui)
      ensures bac.events == old(bac.events) && bacCalc.canBeUsed == old(bacCalc.canBeUsed)
    {
      match bac.actionButton {
        case AButton | BButton | XButton | YButton => SetVerdict(bac, bacCalc, false);
        case Menu =>
          if bac.buttonHand == Right {
            SetVerdict(bac, bacCalc, false);
          }
        case WheelButton => SetVerdict(bac, bacCalc, false);
        case Thumbrest => SetVerdict(bac, bacCalc, true);
        case Thumbstick => DisplayThumbPosition(bac, bacCalc, ClickKind, bac.buttonHand, gui);
        case NoButton => SetVerdict(bac, bacCalc, true);
        case _ => SetVerdict(bac, bacCalc, false);
      }
    }

    method CheckThumbPos(bac: BACGeneralComponent, bacCalc: BACCalculationsComponent)
      modifies bacCalc
      ensures State(bac, bacCalc) == ThumbPosCheck(old(State(bac, bacCalc)))
      ensures bacCalc.canBeUsed == old(bacCalc.canBeUsed)
    {
      if leftThumbPosIsShown {
        bacCalc.parametersAreInvalid :=
          ThumbMissing(bac.interactionType, bac.leftTouchThumbPosition, bac.leftClickThumbPosition);
      } else if rightThumbPosIsShown {
        bacCalc.parametersAreInvalid :=
          ThumbMissing(bac.interactionType, bac.rightTouchThumbPosition, bac.rightClickThumbPosition);
      }
    }

    /** The verdict before the thumb check: the gaze button, or the check the interaction type selects. */
    method CheckActionButton(bac: BACGeneralComponent, bacCalc: BACCalculationsComponent, gui: Config)
      modifies this, bac, bacCalc
      ensures State(bac, bacCalc) == Decide(old(State(bac, bacCalc)), gui)
      ensures bac.events == old(bac.events) && bacCalc.canBeUsed == old(bacCalc.canBeUsed)
    {
      if bac.useGazeButton {
        bacCalc.parametersAreInvalid := false;
      } else {
        bac.actionButton := gui.actionButton;
        var t := bac.interactionType;
        if t == TOUCH {
          HandleTouchDisplay(bac, bacCalc, gui);
        } else if t == CLICK {
          HandleClickDisplay(bac, bacCalc, gui);
        } else if t == ALL {
          HandleTouchDisplay(bac, bacCalc, gui);
          HandleClickDisplay(bac, bacCalc, gui);
        } else {
          bacCalc.parametersAreInvalid := true;
          bac.actionButton := NoButton;
        }
      }
    }

    /** OnInspectorGUI, with what each widget returns in this pass given by `gui`. */
    method OnInspectorGUI(bac: BACGeneralComponent, bacCalc: BACCalculationsComponent, useGaze: bool, useControllers: bool,
                          gui: Config)
      modifies this, bac, bacCalc
      ensures State(bac, bacCalc) == InspectorPass(old(State(bac, bacCalc)), useGaze, useControllers, gui)
      ensures bac.events == old(bac.events) && bacCalc.canBeUsed == old(bacCalc.canBeUsed)
    {
      bac.interactionType := gui.interactionType;
      if bac.interactionType == NONE_TYPE {
        bacCalc.parametersAreInvalid := true;
        return;
      }
      bac.buttonHand := gui.hand;
      if bac.buttonHand == NoHand {
        bacCalc.parametersAreInvalid := true;
        return;
      }
      if useGaze && useControllers {
        bac.useGazeButton := gui.useGazeButton;
      } else {
        bac.useGazeButton := false;
      }
      assert State(bac, bacCalc) == Select(old(State(bac, bacCalc)), useGaze, useControllers, gui);
      CheckActionButton(bac, bacCalc, gui);
      CheckThumbPos(bac, bacCalc);
    }
  }
}
