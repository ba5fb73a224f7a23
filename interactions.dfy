/**
 * The InteractionVariableContainer singleton: the raycast results of the
 * frame and the hover and click flags the interaction systems keep between
 * frames, and the events those systems raise. Transforms are identified by a
 * number; the raycast systems that fill the hits are not part of this model.
 */
module Interactions {
  import opened Types

  /** ERayOrigin. */
  datatype RayOrigin = NoOrigin | RightHand | LeftHand | Camera

  /** The events the hover and click systems raise, with the transform they concern. */
  datatype InteractionEvent =
    | ObjectWasHovered(origin: RayOrigin, hovered: Nullable<nat>)
    | RightOverObject(over: nat)
    | ObjectWasClicked(hand: Hand, clicked: nat)

  /** InteractionVariableContainer. */
  class InteractionVariableContainer {
    var isOverSomethingRight: bool
    var isOverSomethingLeft: bool
    var isOverSomethingGaze: bool
    var hasClickSomethingGaze: bool
    /** The last transform the gaze hovered, or null. */
    var previousGazeHit: Nullable<nat>
    /** The raycast hits of the frame, written by the raycast systems. */
    var rightHit: Hit
    var gazeHit: Hit
  }

  /** The number of `true` among the first `k` flags. */
  function CountTrue(bs: seq<bool>, k: nat): (n: nat)
    requires k <= |bs|
    ensures n <= k
  {
    if k == 0 then 0 else CountTrue(bs, k - 1) + (if bs[k - 1] then 1 else 0)
  }

  /** The count is zero exactly when none of the first `k` flags is set. */
  lemma {:induction false} CountTrueZero(bs: seq<bool>, k: nat)
    requires k <= |bs|
    ensures CountTrue(bs, k) == 0 <==> forall i :: 0 <= i < k ==> !bs[i]
    decreases k
  {
    if k > 0 {
      CountTrueZero(bs, k - 1);
    }
  }
}
