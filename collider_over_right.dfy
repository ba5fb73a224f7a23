/**
 * OnColliderOverRightSystem: whether the right-hand ray is over something.
 * Unlike the gaze, it keeps no previous target: a live hit raises
 * `RightOverObject` on every frame and for every entity that handles it.
 */
module ColliderOverRight {
  import opened Types
  import opened Interactions

  datatype OverStep = OverStep(isOver: bool, events: seq<InteractionEvent>)

  /** HandleOver. */
  function HandleOver(isOver: bool, hit: Hit): (r: OverStep)
    // nothing hit: not over, nothing raised
    ensures hit.NullHit? ==> r == OverStep(false, [])
    // a live collider: over it, and its transform raised
    ensures hit.HitOn? && hit.collider.NonNull? ==> r == OverStep(true, [RightOverObject(hit.collider.value)])
    // a destroyed collider: nothing changes
    ensures hit.HitOn? && hit.collider.Null? ==> r == OverStep(isOver, [])
    // the flag no longer depends on the frame before, except for a destroyed collider
    ensures !(hit.HitOn? && hit.collider.Null?) ==> r.isOver == hit.HitOn?
  {
    match hit
    case NullHit => OverStep(false, [])
    case HitOn(NonNull(t)) => OverStep(true, [RightOverObject(t)])
    case HitOn(Null) => OverStep(isOver, [])
  }

  /** Handling the same hit again gives the same flag and the same events. */
  lemma HandleOverAgain(isOver: bool, hit: Hit)
    ensures var once := HandleOver(isOver, hit);
            HandleOver(once.isOver, hit) == once
  {
  }

  /** Whether a hit is on a live collider. */
  predicate Live(hit: Hit)
  {
    hit.HitOn? && hit.collider.NonNull?
  }

  /** The flag after a run of frames, one hit per frame, and all the events raised. */
  function Run(isOver: bool, hits: seq<Hit>): OverStep
    decreases |hits|
  {
    if hits == [] then OverStep(isOver, [])
    else
      var first := HandleOver(isOver, hits[0]);
      var rest := Run(first.isOver, hits[1..]);
      OverStep(rest.isOver, first.events + rest.events)
  }

  /** The transforms of the live hits of a run, in order. */
  function LiveTargets(hits: seq<Hit>): (r: seq<nat>)
    ensures |r| <= |hits|
    decreases |hits|
  {
    if hits == [] then []
    else (if Live(hits[0]) then [hits[0].collider.value] else []) + LiveTargets(hits[1..])
  }

  /**
   * No de-duplication: over any run the events are exactly one RightOverObject
   * per live hit, in order, and the flag is the one the last hit that was not
   * on a destroyed collider decided.
   */
  lemma {:induction false} EveryLiveHitRaises(isOver: bool, hits: seq<Hit>)
    ensures var r := Run(isOver, hits);
            |r.events| == |LiveTargets(hits)|
            && forall i :: 0 <= i < |r.events| ==> r.events[i] == RightOverObject(LiveTargets(hits)[i])
    ensures var r := Run(isOver, hits);
            (forall i :: 0 <= i < |hits| ==> hits[i].HitOn? && hits[i].collider.Null?) ==> r.isOver == isOver
    ensures var r := Run(isOver, hits);
            hits != [] && !(hits[|hits| - 1].HitOn? && hits[|hits| - 1].collider.Null?) ==>
              r.isOver == hits[|hits| - 1].HitOn?
    decreases |hits|
  {
    if hits != [] {
      var first := HandleOver(isOver, hits[0]);
      EveryLiveHitRaises(first.isOver, hits[1..]);
      var rest := Run(first.isOver, hits[1..]);
      var head := if Live(hits[0]) then [hits[0].collider.value] else [];
      assert LiveTargets(hits) == head + LiveTargets(hits[1..]);
      assert |first.events| == |head|;
      forall i | 0 <= i < |first.events + rest.events|
        ensures (first.events + rest.events)[i] == RightOverObject(LiveTargets(hits)[i])
      {
        if i >= |first.events| {
          assert (first.events + rest.events)[i] == rest.events[i - |first.events|];
        }
      }
      if |hits| > 1 {
        assert hits[1..][|hits[1..]| - 1] == hits[|hits| - 1];
      }
    }
  }

  /** PointerRaycastComponent and ScriptableSingletonsComponent of one entity. */
  class RightOverEntity {
    /** Configured with the entity; no system of the model changes them. */
    const isSetup: bool
    const checkRaycast: bool
  }

  /** Whether each entity handles the right hover, given whether controllers are used. */
  function Handling(useControllers: bool, comps: seq<RightOverEntity>): (r: seq<bool>)
    ensures |r| == |comps|
    ensures forall i :: 0 <= i < |comps| ==> r[i] == (comps[i].isSetup && useControllers && comps[i].checkRaycast)
  {
    if comps == [] then []
    else [comps[0].isSetup && useControllers && comps[0].checkRaycast] + Handling(useControllers, comps[1..])
  }

  /** `n` copies of the events of one HandleOver. */
  function Copies(events: seq<InteractionEvent>, n: nat): (r: seq<InteractionEvent>)
    ensures |r| == n * |events|
  {
    if n == 0 then [] else Copies(events, n - 1) + events
  }

  class OnColliderOverRightSystem {

    method HandleOverStep(iv: InteractionVariableContainer) returns (events: seq<InteractionEvent>)
      modifies iv`isOverSomethingRight
      ensures OverStep(iv.isOverSomethingRight, events) == HandleOver(old(iv.isOverSomethingRight), iv.rightHit)
    {
      events := [];
      if iv.rightHit.NullHit? {
        iv.isOverSomethingRight := false;
      } else if iv.rightHit.collider.NonNull? {
        var hitTransform := iv.rightHit.collider.value;
        events := [RightOverObject(hitTransform)];
        iv.isOverSomethingRight := true;
      }
    }

    /**
     * OnUpdate: every entity that is set up and checks its raycast, with
     * controllers in use, handles the hover; the flag is that of one
     * HandleOver, and its event is raised once per handling entity.
     */
    method OnUpdate(useControllers: bool, comps: seq<RightOverEntity>, iv: InteractionVariableContainer)
      returns (events: seq<InteractionEvent>)
      modifies iv`isOverSomethingRight
      ensures var n := CountTrue(Handling(useControllers, comps), |comps|);
              var r := HandleOver(old(iv.isOverSomethingRight), iv.rightHit);
              iv.isOverSomethingRight == (if n > 0 then r.isOver else old(iv.isOverSomethingRight))
              && events == Copies(r.events, n)
    {
      events := [];
      ghost var before := iv.isOverSomethingRight;
      ghost var handling := Handling(useControllers, comps);
      ghost var r := HandleOver(before, iv.rightHit);
      var k := 0;
      while k < |comps|
        invariant 0 <= k <= |comps|
        invariant iv.isOverSomethingRight == if CountTrue(handling, k) > 0 then r.isOver else before
        invariant events == Copies(r.events, CountTrue(handling, k))
      {
        ghost var n := CountTrue(handling, k);
        if comps[k].isSetup && useControllers && comps[k].checkRaycast {
          assert CountTrue(handling, k + 1) == n + 1;
          HandleOverAgain(before, iv.rightHit);
          var raised := HandleOverStep(iv);
          events := events + raised;
          assert events == Copies(r.events, n + 1);
        } else {
          assert CountTrue(handling, k + 1) == n;
        }
        k := k + 1;
      }
    }
  }
}
