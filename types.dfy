/**
 * Values shared by the VRSF systems: Unity vectors, the VRSF enums that the
 * modelled systems read, the input events they raise and the listeners they
 * register on Button Action Choser (BAC) events.
 *
 * The enum declarations themselves live in files that are not part of this
 * model; only the members the modelled code mentions are listed.
 */
module Types {

  /** A C# reference or nullable value: `Null` is C#'s `null`. */
  datatype Nullable<+T> = Null | NonNull(value: T)

  /** UnityEngine.Vector3, with exact reals instead of floats. */
  datatype Vec3 = Vec3(x: real, y: real, z: real)

  const Zero3: Vec3 := Vec3(0.0, 0.0, 0.0)

  function Add3(a: Vec3, b: Vec3): (r: Vec3)
    ensures r.x == a.x + b.x && r.y == a.y + b.y && r.z == a.z + b.z
  {
    Vec3(a.x + b.x, a.y + b.y, a.z + b.z)
  }

  function Sub3(a: Vec3, b: Vec3): (r: Vec3)
    ensures Add3(r, b) == a
  {
    Vec3(a.x - b.x, a.y - b.y, a.z - b.z)
  }

  /** UnityEngine.Vector2 (thumbstick position). */
  datatype Vec2 = Vec2(x: real, y: real)

  /** UnityEngine.Color. */
  datatype Color = Color(r: real, g: real, b: real, a: real)

  const White: Color := Color(1.0, 1.0, 1.0, 1.0)

  /** EHand: NONE, LEFT, RIGHT, GAZE. */
  datatype Hand = NoHand | Left | Right | Gaze

  /** EDevice, the SDK loaded at start-up. */
  datatype Device = NullDevice | OpenVR | OculusRift | Simulator | GearVR | OculusGo | WMR

  /** EControllersButton. */
  datatype Button =
    | NoButton | Trigger | Grip | Menu | Thumbstick | Touchpad
    | AButton | BButton | XButton | YButton | BackButton | Thumbrest | WheelButton

  /** ETeleportState. */
  datatype TeleportState = None | Selecting | Teleporting

  /** EPointerState. */
  datatype PointerState = Off | On | Selectable

  /**
   * EControllerInteractionType is a flags enum (tested with `&`); the model
   * takes NONE = 0, TOUCH = 1, CLICK = 2 and ALL = TOUCH | CLICK.
   */
  type InteractionType = bv8

  const NONE_TYPE: InteractionType := 0
  const TOUCH: InteractionType := 1
  const CLICK: InteractionType := 2
  const ALL: InteractionType := 3

  /** `(type & flag) == flag`, the test every system uses before wiring a listener. */
  predicate HasFlag(t: InteractionType, flag: InteractionType)
  {
    t & flag == flag
  }

  /** EThumbPosition is a flags enum too; only its NONE value is tested. */
  type ThumbPosition = bv8

  const THUMB_NONE: ThumbPosition := 0

  /** The events raised by the input capture systems (`new ButtonClickEvent(hand, button)`, ...). */
  datatype ButtonEvent =
    | ButtonClick(hand: Hand, button: Button)
    | ButtonUnclick(hand: Hand, button: Button)
    | ButtonTouch(hand: Hand, button: Button)
    | ButtonUntouch(hand: Hand, button: Button)
  {
    function EventButton(): Button
    {
      match this
      case ButtonClick(_, b) => b
      case ButtonUnclick(_, b) => b
      case ButtonTouch(_, b) => b
      case ButtonUntouch(_, b) => b
    }
  }

  /** Turns the at-most-one event of a button into the events raised for it. */
  function Raised(e: Nullable<ButtonEvent>): (r: seq<ButtonEvent>)
    ensures |r| <= 1
    ensures e.Null? <==> r == []
    ensures e.NonNull? ==> r == [e.value]
  {
    match e
    case Null => []
    case NonNull(v) => [v]
  }

  /**
   * A raycast hit as the interaction systems see it: no hit at all, or a hit
   * whose collider is either destroyed (`Null`) or alive and identified by its
   * transform.
   */
  datatype Hit = NullHit | HitOn(collider: Nullable<nat>)

  /**
   * The delegates the teleport and rotation systems register on BAC events;
   * `entity` stands for the entity the delegate closes over.
   */
  datatype Listener =
    | LongRangeStart(entity: nat)
    | LongRangeIsInteracting(entity: nat)
    | LongRangeStop(entity: nat)
    | StepByStepStart(entity: nat)
    | StepByStepStop(entity: nat)
    | BezierToggleDisplay(entity: nat)
    | BezierTeleport(entity: nat)
    | RotationWithAcceleration(entity: nat)
    | Other(id: nat)
}
