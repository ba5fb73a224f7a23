/**
 * OnColliderOverGazeSystem: whether the gaze is over something, with the
 * previously hovered transform remembered so that a hover event is raised
 * once per change of target rather than every frame.
 */
module ColliderOverGaze {
  import opened Types
  import opened Interactions

  /** The hover state the system keeps in the InteractionVariableContainer. */
  datatype HoverState = HoverState(isOver: bool, previous: Nullable<nat>)

  datatype HoverStep = HoverStep(state: HoverState, events: seq<InteractionEvent>)

  /** HandleOver. */
  function HandleOver(s: HoverState, hit: Hit): (r: HoverStep)
    // leaving: over something and nothing hit
    ensures s.isOver && hit.NullHit? ==>
              r == HoverStep(HoverState(false, Null), [ObjectWasHovered(Camera, Null)])
    // entering or changing target: a live collider whose transform is not the previous one
    ensures hit.HitOn? && hit.collider.NonNull? && hit.collider != s.previous ==>
              r == HoverStep(HoverState(true, hit.collider), [ObjectWasHovered(Camera, hit.collider)])
    // otherwise (not over and nothing hit, a destroyed collider, the same target): nothing
    ensures !(s.isOver && hit.NullHit?) && !(hit.HitOn? && hit.collider.NonNull? && hit.collider != s.previous) ==>
              r == HoverStep(s, [])
    // an event always announces the state it leaves
    ensures forall ev :: ev in r.events ==> ev == ObjectWasHovered(Camera, r.state.previous)
  {
    if s.isOver && hit.NullHit? then
      HoverStep(HoverState(false, Null), [ObjectWasHovered(Camera, Null)])
    else if hit.HitOn? && hit.collider.NonNull? && hit.collider != s.previous then
      HoverStep(HoverState(true, hit.collider), [ObjectWasHovered(Camera, hit.collider)])
    else
      HoverStep(s, [])
  }

  /** A remembered transform means the gaze is over it. */
  predicate Consistent(s: HoverState)
  {
    s.previous.NonNull? ==> s.isOver
  }

  /** HandleOver keeps the state consistent. */
  lemma HandleOverKeepsConsistent(s: HoverState, hit: Hit)
    requires Consistent(s)
    ensures Consistent(HandleOver(s, hit).state)
  {
  }

  /** Handling the same hit twice: the second time changes nothing and raises nothing. */
  lemma HandleOverIdempotent(s: HoverState, hit: Hit)
    ensures var once := HandleOver(s, hit);
            HandleOver(once.state, hit) == HoverStep(once.state, [])
  {
  }

  /** The state after a run of frames, one hit per frame, and all the events raised. */
  function Run(s: HoverState, hits: seq<Hit>): HoverStep
    decreases |hits|
  {
    if hits == [] then HoverStep(s, [])
    else
      var first := HandleOver(s, hits[0]);
      var rest := Run(first.state, hits[1..]);
      HoverStep(rest.state, first.events + rest.events)
  }

  /**
   * Looking at the same live transform for `n` consecutive frames raises at
   * most one hover event, on the first frame, and leaves the gaze over it.
   */
  lemma {:induction false} SteadyGazeHoversOnce(s: HoverState, t: nat, n: nat)
    requires Consistent(s) && n >= 1
    ensures var r := Run(s, seq(n, _ => HitOn(NonNull(t))));
            r.state == HoverState(true, NonNull(t))
            && r.events == (if s.previous == NonNull(t) then [] else [ObjectWasHovered(Camera, NonNull(t))])
    decreases n
  {
    var hits := seq(n, _ => HitOn(NonNull(t)));
    var first := HandleOver(s, hits[0]);
    if n > 1 {
      assert hits[1..] == seq(n - 1, _ => HitOn(NonNull(t)));
      SteadyGazeHoversOnce(first.state, t, n - 1);
      assert first.events + [] == first.events;
    } else {
      assert hits[1..] == [];
      assert first.events + [] == first.events;
    }
  }

  /**
   * Over any run of frames, every hover event announces the state at the time:
   * the last event raised names the transform remembered at the end.
   */
  lemma {:induction false} LastEventNamesPrevious(s: HoverState, hits: seq<Hit>)
    ensures var r := Run(s, hits);
            r.events != [] ==> r.events[|r.events| - 1] == ObjectWasHovered(Camera, r.state.previous)
    ensures var r := Run(s, hits);
            r.events == [] ==> r.state == s
    decreases |hits|
  {
    if hits != [] {
      var first := HandleOver(s, hits[0]);
      LastEventNamesPrevious(first.state, hits[1..]);
      var rest := Run(first.state, hits[1..]);
      if rest.events == [] {
        assert first.events + rest.events == first.events;
      } else {
        var all := first.events + rest.events;
        assert all[|all| - 1] == rest.events[|rest.events| - 1];
      }
    }
  }

  /** ControllersScriptableRaycastComponent: whether the entity's raycast is checked. */
  class ControllersScriptableRaycastComponent {
    /** Configured with the entity; no system of the model changes it. */
    const checkRaycast: bool
  }

  /** Whether each entity's raycast is checked. */
  function Checks(comps: seq<ControllersScriptableRaycastComponent>): (r: seq<bool>)
    ensures |r| == |comps| && forall i :: 0 <= i < |comps| ==> r[i] == comps[i].checkRaycast
  {
    if comps == [] then [] else [comps[0].checkRaycast] + Checks(comps[1..])
  }

  class OnColliderOverGazeSystem {

    method HandleOverStep(iv: InteractionVariableContainer) returns (events: seq<InteractionEvent>)
      modifies iv`isOverSomethingGaze, iv`previousGazeHit
      ensures HoverStep(HoverState(iv.isOverSomethingGaze, iv.previousGazeHit), events)
              == HandleOver(HoverState(old(iv.isOverSomethingGaze), old(iv.previousGazeHit)), iv.gazeHit)
    {
      events := [];
      if iv.isOverSomethingGaze && iv.gazeHit.NullHit? {
        iv.isOverSomethingGaze := false;
        iv.previousGazeHit := Null;
        events := [ObjectWasHovered(Camera, Null)];
      } else if iv.gazeHit.HitOn? && iv.gazeHit.collider.NonNull? && iv.gazeHit.collider != iv.previousGazeHit {
        var hitTransform := iv.gazeHit.collider;
        iv.previousGazeHit := hitTransform;
        iv.isOverSomethingGaze := true;
        events := [ObjectWasHovered(Camera, hitTransform)];
      }
    }

    /**
     * OnUpdate: with the gaze in use, HandleOver runs once per entity whose
     * raycast is checked; the frame has the effect of a single HandleOver.
     */
    method OnUpdate(useGaze: bool, comps: seq<ControllersScriptableRaycastComponent>, iv: InteractionVariableContainer)
      returns (events: seq<InteractionEvent>)
      modifies iv`isOverSomethingGaze, iv`previousGazeHit
      ensures var before := HoverState(old(iv.isOverSomethingGaze), old(iv.previousGazeHit));
              HoverStep(HoverState(iv.isOverSomethingGaze, iv.previousGazeHit), events)
              == if useGaze && CountTrue(Checks(comps), |comps|) > 0 then HandleOver(before, iv.gazeHit) else HoverStep(before, [])
    {
      events := [];
      ghost var before := HoverState(iv.isOverSomethingGaze, iv.previousGazeHit);
      ghost var checks := Checks(comps);
      if useGaze {
        var k := 0;
        while k < |comps|
          invariant 0 <= k <= |comps|
          invariant HoverStep(HoverState(iv.isOverSomethingGaze, iv.previousGazeHit), events)
                    == if CountTrue(checks, k) > 0 then HandleOver(before, iv.gazeHit) else HoverStep(before, [])
        {
          if comps[k].checkRaycast {
            HandleOverIdempotent(before, iv.gazeHit);
            var raised := HandleOverStep(iv);
            events := events + raised;
          }
          k := k + 1;
        }
      }
    }
  }
}
