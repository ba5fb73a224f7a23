/**
 * ControllerInputToSO: the names of the click and touch BoolVariables of a
 * controller button, or `null` for a button that has none.
 */
module ControllerInputToSO {
  import opened Types

  /** The buttons that have a click variable. */
  const ClickButtons: set<Button> := {Trigger, Grip, Menu, Thumbstick, AButton, BButton, XButton, YButton, BackButton}

  /** The buttons that have a touch variable. */
  const TouchButtons: set<Button> := {Trigger, Thumbstick, AButton, BButton, XButton, YButton, Thumbrest}

  /** The A, B, X and Y buttons. */
  const FaceButtons: set<Button> := {AButton, BButton, XButton, YButton}

  predicate EndsWith(s: string, suffix: string)
  {
    |suffix| <= |s| && s[|s| - |suffix|..] == suffix
  }

  /** The name every variable of a button starts with. */
  function Stem(b: Button): string
  {
    match b
    case Trigger => "Trigger"
    case Grip => "Grip"
    case Menu => "Menu"
    case Thumbstick => "Thumb"
    case AButton => "AButton"
    case BButton => "BButton"
    case XButton => "XButton"
    case YButton => "YButton"
    case BackButton => "BackButton"
    case Thumbrest => "Thumbrest"
    case _ => ""
  }

  function GetClickVariableFor(input: Button): (r: Nullable<string>)
    ensures r.NonNull? <==> input in ClickButtons
  {
    match input
    case Trigger => NonNull("TriggerIsDown")
    case Grip => NonNull("GripIsDown")
    case Menu => NonNull("MenuIsDown")
    case Thumbstick => NonNull("ThumbIsDown")
    case AButton => NonNull("AButtonIsDown")
    case BButton => NonNull("BButtonIsDown")
    case XButton => NonNull("XButtonIsDown")
    case YButton => NonNull("YButtonIsDown")
    case BackButton => NonNull("BackButtonIsDown")
    case _ => Null
  }

  function GetTouchVariableFor(input: Button): (r: Nullable<string>)
    ensures r.NonNull? <==> input in TouchButtons
  {
    match input
    case Trigger => NonNull("TriggerIsTouching")
    case Thumbstick => NonNull("ThumbIsTouching")
    case AButton => NonNull("AButtonIsTouching")
    case BButton => NonNull("BButtonIsTouching")
    case XButton => NonNull("XButtonIsTouching")
    case YButton => NonNull("YButtonIsTouching")
    case Thumbrest => NonNull("ThumbrestIsTouching")
    case _ => Null
  }

  /** A stem followed by a suffix ends with that suffix. */
  lemma EndsWithAppend(stem: string, suffix: string)
    ensures EndsWith(stem + suffix, suffix)
  {
    assert (stem + suffix)[|stem|..] == suffix;
  }

  /** Every click name is the button's stem followed by "IsDown". */
  lemma ClickNamesFollowStem(b: Button)
    ensures b in ClickButtons ==> GetClickVariableFor(b) == NonNull(Stem(b) + "IsDown")
  {
    if b in FaceButtons {
      FaceClickNamesFollowStem(b);
    } else {
      match b {
        case Trigger => assert Stem(b) + "IsDown" == "TriggerIsDown";
        case Grip => assert Stem(b) + "IsDown" == "GripIsDown";
        case Menu => assert Stem(b) + "IsDown" == "MenuIsDown";
        case Thumbstick => assert Stem(b) + "IsDown" == "ThumbIsDown";
        case BackButton => assert Stem(b) + "IsDown" == "BackButtonIsDown";
        case _ =>
      }
    }
  }

  /** The same for the four face buttons. */
  lemma FaceClickNamesFollowStem(b: Button)
    requires b in FaceButtons
    ensures GetClickVariableFor(b) == NonNull(Stem(b) + "IsDown")
  {
    match b {
      case AButton => assert Stem(b) + "IsDown" == "AButtonIsDown";
      case BButton => assert Stem(b) + "IsDown" == "BButtonIsDown";
      case XButton => assert Stem(b) + "IsDown" == "XButtonIsDown";
      case YButton => assert Stem(b) + "IsDown" == "YButtonIsDown";
    }
  }

  /** Every click name ends with "IsDown". */
  lemma ClickNamesEndWithIsDown(b: Button)
    requires b in ClickButtons
    ensures EndsWith(GetClickVariableFor(b).value, "IsDown")
  {
    ClickNamesFollowStem(b);
    EndsWithAppend(Stem(b), "IsDown");
  }

  /** Every touch name is the button's stem followed by "IsTouching". */
  lemma TouchNamesFollowStem(b: Button)
    ensures b in TouchButtons ==> GetTouchVariableFor(b) == NonNull(Stem(b) + "IsTouching")
  {
    if b in FaceButtons {
      FaceTouchNamesFollowStem(b);
    } else {
      match b {
        case Trigger => assert Stem(b) + "IsTouching" == "TriggerIsTouching";
        case Thumbstick => assert Stem(b) + "IsTouching" == "ThumbIsTouching";
        case Thumbrest => assert Stem(b) + "IsTouching" == "ThumbrestIsTouching";
        case _ =>
      }
    }
  }

  /** The same for the four face buttons. */
  lemma FaceTouchNamesFollowStem(b: Button)
    requires b in FaceButtons
    ensures GetTouchVariableFor(b) == NonNull(Stem(b) + "IsTouching")
  {
    match b {
      case AButton => assert Stem(b) + "IsTouching" == "AButtonIsTouching";
      case BButton => assert Stem(b) + "IsTouching" == "BButtonIsTouching";
      case XButton => assert Stem(b) + "IsTouching" == "XButtonIsTouching";
      case YButton => assert Stem(b) + "IsTouching" == "YButtonIsTouching";
    }
  }

  /** Every touch name ends with "IsTouching". */
  lemma TouchNamesEndWithIsTouching(b: Button)
    requires b in TouchButtons
    ensures EndsWith(GetTouchVariableFor(b).value, "IsTouching")
  {
    TouchNamesFollowStem(b);
    EndsWithAppend(Stem(b), "IsTouching");
  }

  /** Two buttons never share a click name. */
  lemma ClickNamesInjective(a: Button, b: Button)
    requires GetClickVariableFor(a).NonNull? && GetClickVariableFor(a) == GetClickVariableFor(b)
    ensures a == b
  {
  }

  /** Two buttons never share a touch name. */
  lemma TouchNamesInjective(a: Button, b: Button)
    requires GetTouchVariableFor(a).NonNull? && GetTouchVariableFor(a) == GetTouchVariableFor(b)
    ensures a == b
  {
  }

  /** A click name is never a touch name. */
  lemma ClickAndTouchNamesDiffer(a: Button, b: Button)
    requires GetClickVariableFor(a).NonNull? && GetTouchVariableFor(b).NonNull?
    ensures GetClickVariableFor(a).value != GetTouchVariableFor(b).value
  {
  }

  /** GRIP, MENU and BACK_BUTTON can only be clicked; THUMBREST can only be touched. */
  lemma ClickOnlyAndTouchOnly()
    ensures forall b :: b in {Grip, Menu, BackButton} ==> GetClickVariableFor(b).NonNull? && GetTouchVariableFor(b).Null?
    ensures GetTouchVariableFor(Thumbrest).NonNull? && GetClickVariableFor(Thumbrest).Null?
  {
  }
}
