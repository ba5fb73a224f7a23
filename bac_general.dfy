/**
 * The Button Action Choser configuration (BACGeneralComponent) with its six
 * UnityEvents, and the BACCalculationsComponent flags the editor and the
 * rotation system write.
 */
module BACGeneral {
  import opened Types

  /** The six UnityEvents of a BACGeneralComponent. */
  datatype BACEvent =
    | StartTouching | StopTouching | IsTouching
    | StartClicking | StopClicking | IsClicking
  {
    predicate IsClickEvent() { StartClicking? || StopClicking? || IsClicking? }
  }

  /** The interaction-type flag that selects `ev`: CLICK for the clicking events, TOUCH for the touching ones. */
  function FlagOf(ev: BACEvent): InteractionType
  {
    if ev.IsClickEvent() then CLICK else TOUCH
  }

  /** The listeners registered on each event, in registration order. */
  type EventTable = map<BACEvent, seq<Listener>>

  const EmptyTable: EventTable := map[]

  function Listeners(t: EventTable, ev: BACEvent): seq<Listener>
  {
    if ev in t then t[ev] else []
  }

  /** UnityEvent.AddListener: the delegate is appended, duplicates included. */
  function AddListener(t: EventTable, ev: BACEvent, l: Listener): (r: EventTable)
    ensures Listeners(r, ev) == Listeners(t, ev) + [l]
    ensures forall other :: other != ev ==> Listeners(r, other) == Listeners(t, other)
  {
    t[ev := Listeners(t, ev) + [l]]
  }

  /** UnityEvent.RemoveAllListeners. */
  function RemoveAllListeners(t: EventTable, ev: BACEvent): (r: EventTable)
    ensures Listeners(r, ev) == []
    ensures forall other :: other != ev ==> Listeners(r, other) == Listeners(t, other)
  {
    t[ev := []]
  }

  /** Every occurrence of `l` dropped, the other listeners kept in order. */
  function Without(s: seq<Listener>, l: Listener): (r: seq<Listener>)
    ensures l !in r
    ensures forall x :: x in r <==> x in s && x != l
    ensures |r| <= |s|
    ensures l !in s ==> r == s
  {
    if s == [] then []
    else if s[0] == l then Without(s[1..], l)
    else [s[0]] + Without(s[1..], l)
  }

  /** RemoveListenerExtend: every registration of that delegate is removed from the event. */
  function RemoveListener(t: EventTable, ev: BACEvent, l: Listener): (r: EventTable)
    ensures l !in Listeners(r, ev)
    ensures forall x :: x in Listeners(r, ev) <==> x in Listeners(t, ev) && x != l
    ensures forall other :: other != ev ==> Listeners(r, other) == Listeners(t, other)
  {
    t[ev := Without(Listeners(t, ev), l)]
  }

  /** Number of times `l` is registered in `s`. */
  function Count(s: seq<Listener>, l: Listener): nat
  {
    if s == [] then 0 else (if s[0] == l then 1 else 0) + Count(s[1..], l)
  }

  lemma {:induction false} CountAppend(s: seq<Listener>, t: seq<Listener>, l: Listener)
    ensures Count(s + t, l) == Count(s, l) + Count(t, l)
  {
    if s == [] {
      assert s + t == t;
    } else {
      assert (s + t)[1..] == s[1..] + t;
      CountAppend(s[1..], t, l);
    }
  }

  /** BACGeneralComponent: the configuration of one feature and its events. */
  class BACGeneralComponent {
    var interactionType: InteractionType
    var buttonHand: Hand
    var useGazeButton: bool
    var actionButton: Button
    var leftTouchThumbPosition: ThumbPosition
    var rightTouchThumbPosition: ThumbPosition
    var leftClickThumbPosition: ThumbPosition
    var rightClickThumbPosition: ThumbPosition
    var touchThreshold: real
    var clickThreshold: real
    var events: EventTable

    /** A freshly added component, with the field initialisers of the source. */
    constructor ()
      ensures interactionType == NONE_TYPE && buttonHand == NoHand && actionButton == NoButton
      ensures !useGazeButton
      ensures leftTouchThumbPosition == THUMB_NONE && rightTouchThumbPosition == THUMB_NONE
      ensures leftClickThumbPosition == THUMB_NONE && rightClickThumbPosition == THUMB_NONE
      ensures touchThreshold == 0.5 && clickThreshold == 0.5
      ensures forall ev :: Listeners(events, ev) == []
    {
      interactionType := NONE_TYPE;
      buttonHand := NoHand;
      useGazeButton := false;
      actionButton := NoButton;
      leftTouchThumbPosition := THUMB_NONE;
      rightTouchThumbPosition := THUMB_NONE;
      leftClickThumbPosition := THUMB_NONE;
      rightClickThumbPosition := THUMB_NONE;
      touchThreshold := 0.5;
      clickThreshold := 0.5;
      events := EmptyTable;
    }
  }

  /** BACCalculationsComponent: the verdict of the editor and the run-time usability flag. */
  class BACCalculationsComponent {
    var parametersAreInvalid: bool
    var canBeUsed: bool

    constructor (invalid: bool, usable: bool)
      ensures parametersAreInvalid == invalid && canBeUsed == usable
    {
      parametersAreInvalid := invalid;
      canBeUsed := usable;
    }
  }
}
