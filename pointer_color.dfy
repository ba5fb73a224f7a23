/**
 * PointerColorSystems: the OFF / ON / SELECTABLE state of the right, left and
 * gaze pointers, and the colours painted on the hand pointers' line renderers
 * and on the gaze reticle's background and target images.
 *
 * The pointer states live in the ControllersParameters and GazeParameters
 * singletons, shared by every entity; the colours are per entity. An image
 * that is not assigned is `Null`.
 */
module PointerColor {
  import opened Types
  import opened Interactions

  // ---------------------------------------------------------------- hand pointers

  /** The pointer colours of the ControllersParameters singleton. */
  datatype ControllerColors = ControllerColors(onRight: Color, offRight: Color, selectableRight: Color,
                                               onLeft: Color, offLeft: Color, selectableLeft: Color)

  /** The three colours of one hand's pointer. */
  datatype HandColors = HandColors(on: Color, off: Color, selectable: Color)

  /** GetControllerColor: a hand other than left and right keeps the white defaults. */
  function GetControllerColor(hand: Hand, p: ControllerColors): (r: HandColors)
    ensures hand == Right ==> r == HandColors(p.onRight, p.offRight, p.selectableRight)
    ensures hand == Left ==> r == HandColors(p.onLeft, p.offLeft, p.selectableLeft)
    ensures hand != Right && hand != Left ==> r == HandColors(White, White, White)
  {
    match hand
    case Right => HandColors(p.onRight, p.offRight, p.selectableRight)
    case Left => HandColors(p.onLeft, p.offLeft, p.selectableLeft)
    case _ => HandColors(White, White, White)
  }

  /** The colour that shows a state. */
  function ColorOf(s: PointerState, c: HandColors): Color
  {
    match s
    case Off => c.off
    case On => c.on
    case Selectable => c.selectable
  }

  /**
   * The pointer state machine: OFF is kept, otherwise the state says whether
   * the ray is over something.
   */
  function NextPointerState(isOver: bool, s: PointerState): (r: PointerState)
    ensures r == Off <==> s == Off
    ensures s != Off ==> (r == Selectable <==> isOver) && (r == On <==> !isOver)
  {
    if s == Off then Off else if isOver then Selectable else On
  }

  /** The new state of a pointer, and the colour written to its material, if any. */
  datatype PointerStep = PointerStep(state: PointerState, color: Nullable<Color>)

  /** CheckPointerState. */
  function CheckPointerState(isOver: bool, s: PointerState, hand: Hand, p: ControllerColors): (r: PointerStep)
    // the state follows the state machine
    ensures r.state == NextPointerState(isOver, s)
    // a colour written is the colour of the new state, for that hand
    ensures r.color.NonNull? ==> r.color.value == ColorOf(r.state, GetControllerColor(hand, p))
    // a colour is written exactly on a change of state, and on every frame while OFF
    ensures r.color.Null? <==> (r.state == s && s != Off)
  {
    var colors := GetControllerColor(hand, p);
    if s == Off then PointerStep(Off, NonNull(colors.off))
    else if !isOver && s != On then PointerStep(On, NonNull(colors.on))
    else if isOver && s != Selectable then PointerStep(Selectable, NonNull(colors.selectable))
    else PointerStep(s, Null)
  }

  /** Checking twice with the same ray changes nothing more: same state, no other colour. */
  lemma CheckPointerStateIdempotent(isOver: bool, s: PointerState, hand: Hand, p: ControllerColors)
    ensures var once := CheckPointerState(isOver, s, hand, p);
            var twice := CheckPointerState(isOver, once.state, hand, p);
            twice.state == once.state && (twice.color.Null? || twice.color == once.color)
  {
  }

  /** A pointer's state after a run of frames, one ray result per frame. */
  function PointerRun(s: PointerState, overs: seq<bool>): PointerState
    decreases |overs|
  {
    if overs == [] then s else PointerRun(NextPointerState(overs[0], s), overs[1..])
  }

  /**
   * Over any run, OFF is never left and never entered, and a pointer that is
   * not OFF shows the last frame's ray only.
   */
  lemma {:induction false} PointerRunFollowsLastRay(s: PointerState, overs: seq<bool>)
    ensures PointerRun(s, overs) == Off <==> s == Off
    ensures s != Off && overs != [] ==>
              PointerRun(s, overs) == (if overs[|overs| - 1] then Selectable else On)
    decreases |overs|
  {
    if overs != [] {
      PointerRunFollowsLastRay(NextPointerState(overs[0], s), overs[1..]);
      if |overs| > 1 {
        assert overs[1..][|overs[1..]| - 1] == overs[|overs| - 1];
      }
    }
  }

  // ---------------------------------------------------------------- gaze reticle

  /** The reticle colours of the GazeParameters singleton. */
  datatype GazeColors = GazeColors(reticle: Color, reticleTarget: Color,
                                   offBackground: Color, offTarget: Color,
                                   onBackground: Color, onTarget: Color,
                                   selectableBackground: Color, selectableTarget: Color)

  /** The colours of the reticle's background and target images; `Null` when not assigned. */
  datatype Reticle = Reticle(background: Nullable<Color>, target: Nullable<Color>)

  /** Painting an image that may not be assigned. */
  function Paint(image: Nullable<Color>, c: Color): (r: Nullable<Color>)
    ensures r.Null? <==> image.Null?
    ensures image.NonNull? ==> r.value == c
  {
    if image.NonNull? then NonNull(c) else Null
  }

  /** The reticle colours that show a state. */
  function ReticleOf(s: PointerState, image: Reticle, g: GazeColors): Reticle
  {
    match s
    case Off => Reticle(Paint(image.background, g.offBackground), Paint(image.target, g.offTarget))
    case On => Reticle(Paint(image.background, g.onBackground), Paint(image.target, g.onTarget))
    case Selectable => Reticle(Paint(image.background, g.selectableBackground), Paint(image.target, g.selectableTarget))
  }

  datatype GazeStep = GazeStep(state: PointerState, reticle: Reticle)

  /** SetGazeColorState. */
  function SetGazeColorState(s: PointerState, isOver: bool, image: Reticle, g: GazeColors): (r: GazeStep)
    // the gaze follows the same state machine as the hands, so never leaves OFF
    ensures r.state == NextPointerState(isOver, s)
    // while OFF and on each change, the assigned images show the new state
    ensures s == Off || r.state != s ==> r.reticle == ReticleOf(r.state, image, g)
    // otherwise nothing is painted
    ensures s != Off && r.state == s ==> r.reticle == image
  {
    if s == Off then
      GazeStep(Off, Reticle(Paint(image.background, g.offBackground), Paint(image.target, g.offTarget)))
    else if !isOver && s != On then
      GazeStep(On, Reticle(Paint(image.background, g.onBackground), Paint(image.target, g.onTarget)))
    else if isOver && s != Selectable then
      GazeStep(Selectable, Reticle(Paint(image.background, g.selectableBackground), Paint(image.target, g.selectableTarget)))
    else
      GazeStep(s, image)
  }

  /**
   * The reset of CheckGazeState without gaze states, each image guarded by its
   * own null check: every assigned image takes its reticle colour.
   */
  function ResetReticle(image: Reticle, g: GazeColors): (r: Reticle)
    ensures r.background.Null? <==> image.background.Null?
    ensures r.target.Null? <==> image.target.Null?
    ensures r.background.NonNull? ==> r.background.value == g.reticle
    ensures r.target.NonNull? ==> r.target.value == g.reticleTarget
  {
    Reticle(Paint(image.background, g.reticle), Paint(image.target, g.reticleTarget))
  }

  /** The reset as written: it completes, or dereferences a missing target. */
  datatype ResetOutcome = Reset(reticle: Reticle) | NullReference

  /** A reticle the as-written reset cannot finish: a background without a target. */
  predicate HalfReticle(image: Reticle)
  {
    image.background.NonNull? && image.target.Null?
  }

  /** CheckGazeState without gaze states, as written: the target's write is guarded by the background's check. */
  function ResetReticleAsWritten(image: Reticle, g: GazeColors): (r: ResetOutcome)
    ensures r.NullReference? <==> HalfReticle(image)
  {
    var background := Paint(image.background, g.reticle);
    if image.background.NonNull? then
      (if image.target.Null? then NullReference else Reset(Reticle(background, NonNull(g.reticleTarget))))
    else Reset(Reticle(background, image.target))
  }

  /**
   * The images after the as-written reset, whether it completes or throws:
   * the throw comes after the background was painted.
   */
  function ResetWrites(image: Reticle, g: GazeColors): (r: Reticle)
    ensures ResetReticleAsWritten(image, g).Reset? ==> r == ResetReticleAsWritten(image, g).reticle
    ensures HalfReticle(image) ==> r == Reticle(NonNull(g.reticle), Null)
  {
    Reticle(Paint(image.background, g.reticle),
            if image.background.NonNull? then Paint(image.target, g.reticleTarget) else image.target)
  }

  /**
   * The as-written reset leaves an assigned target unpainted when there is no
   * background, and dereferences the missing target when there is only a
   * background; with both images or neither it agrees with ResetReticle.
   */
  lemma TargetResetGuardedByBackground(c: Color, g: GazeColors)
    requires c != g.reticleTarget
    ensures ResetReticleAsWritten(Reticle(Null, NonNull(c)), g) == Reset(Reticle(Null, NonNull(c)))
    ensures ResetReticle(Reticle(Null, NonNull(c)), g) == Reticle(Null, NonNull(g.reticleTarget))
    ensures ResetReticleAsWritten(Reticle(NonNull(c), Null), g) == NullReference
  {
  }

  /**
   * Where both images are assigned, or neither, the as-written reset completes
   * and paints what the intended one paints.
   */
  lemma ResetAgreesOnMatchingImages(image: Reticle, g: GazeColors)
    requires image.background.NonNull? == image.target.NonNull?
    ensures ResetReticleAsWritten(image, g) == Reset(ResetReticle(image, g))
    ensures ResetWrites(image, g) == ResetReticle(image, g)
  {
  }

  // ---------------------------------------------------------------- the system

  /** The ControllersParameters singleton: the hand pointer states and colours. */
  class ControllersParameters {
    var rightPointerState: PointerState
    var leftPointerState: PointerState
    /** Configuration; no system of the model changes it. */
    const useControllers: bool
    const colors: ControllerColors
  }

  /** The GazeParameters singleton: the gaze pointer state and reticle colours. */
  class GazeParameters {
    var gazePointerState: PointerState
    /** Configuration; no system of the model changes it. */
    const useGaze: bool
    const colors: GazeColors
  }

  /** ControllerPointerComponents: one entity's pointers and reticle. */
  class ControllerPointerComponents {
    /** Set by the pointer set-up, which is not part of this model. */
    const isSetup: bool
    const checkGazeStates: bool
    /** The material colours of the right and left line renderers. */
    var rightPointerColor: Color
    var leftPointerColor: Color
    var gazeBackground: Nullable<Color>
    var gazeTarget: Nullable<Color>
  }

  /** The three shared pointer states. */
  datatype Shared = Shared(right: PointerState, left: PointerState, gaze: PointerState)

  /** What the ray of each pointer is over, from the InteractionVariableContainer. */
  datatype Over = Over(right: bool, left: bool, gaze: bool)

  /** What one entity shows. */
  datatype Drawn = Drawn(right: Color, left: Color, reticle: Reticle)

  function DrawnOf(c: ControllerPointerComponents): Drawn
    reads c
  {
    Drawn(c.rightPointerColor, c.leftPointerColor, Reticle(c.gazeBackground, c.gazeTarget))
  }

  /** What each entity shows. */
  function DrawnAll(comps: seq<ControllerPointerComponents>): (r: seq<Drawn>)
    reads comps
    ensures |r| == |comps| && forall i :: 0 <= i < |comps| ==> r[i] == DrawnOf(comps[i])
  {
    if comps == [] then [] else [DrawnOf(comps[0])] + DrawnAll(comps[1..])
  }

  /** The colour a pointer shows after an optional write. */
  function Written(w: Nullable<Color>, c: Color): Color
  {
    if w.NonNull? then w.value else c
  }

  /** The shared states after one entity's update. */
  function SharedStep(isSetup: bool, checkGazeStates: bool, useControllers: bool, useGaze: bool, s: Shared, over: Over): Shared
  {
    if !isSetup then s
    else
      Shared(if useControllers then NextPointerState(over.right, s.right) else s.right,
             if useControllers then NextPointerState(over.left, s.left) else s.left,
             if useGaze && checkGazeStates then NextPointerState(over.gaze, s.gaze) else s.gaze)
  }

  /** What one entity shows after its update, from the shared states it found. */
  function EntityDrawn(isSetup: bool, checkGazeStates: bool, useControllers: bool, useGaze: bool,
                       s: Shared, over: Over, p: ControllerColors, g: GazeColors, d: Drawn): Drawn
  {
    if !isSetup then d
    else
      Drawn(if useControllers then Written(CheckPointerState(over.right, s.right, Right, p).color, d.right) else d.right,
            if useControllers then Written(CheckPointerState(over.left, s.left, Left, p).color, d.left) else d.left,
            if !useGaze then d.reticle
            else if checkGazeStates then SetGazeColorState(s.gaze, over.gaze, d.reticle, g).reticle
            else ResetWrites(d.reticle, g))
  }

  /** Whether one entity's update throws: a set-up entity resetting a background without a target. */
  predicate EntityFaults(isSetup: bool, checkGazeStates: bool, useGaze: bool, d: Drawn)
  {
    isSetup && useGaze && !checkGazeStates && HalfReticle(d.reticle)
  }

  /** The first entity from `i` on whose update throws, or the number of entities if none does. */
  function FirstFault(useGaze: bool, setups: seq<bool>, checks: seq<bool>, drawn: seq<Drawn>, i: nat): (r: nat)
    requires i <= |setups| && |checks| == |setups| && |drawn| == |setups|
    ensures i <= r <= |setups|
    ensures forall j :: i <= j < r ==> !EntityFaults(setups[j], checks[j], useGaze, drawn[j])
    ensures r < |setups| ==> EntityFaults(setups[r], checks[r], useGaze, drawn[r])
    decreases |setups| - i
  {
    if i == |setups| || EntityFaults(setups[i], checks[i], useGaze, drawn[i]) then i
    else FirstFault(useGaze, setups, checks, drawn, i + 1)
  }

  /** How many entities OnUpdate reaches: all of them, or up to and including the first that throws. */
  function Ran(useGaze: bool, setups: seq<bool>, checks: seq<bool>, drawn: seq<Drawn>): (r: nat)
    requires |checks| == |setups| && |drawn| == |setups|
    ensures r <= |setups|
    ensures r == |setups| <==> FirstFault(useGaze, setups, checks, drawn, 0) >= |setups| - 1
  {
    var f := FirstFault(useGaze, setups, checks, drawn, 0);
    if f < |setups| then f + 1 else |setups|
  }

  /** Whether each entity is set up. */
  function SetupFlags(comps: seq<ControllerPointerComponents>): (r: seq<bool>)
    ensures |r| == |comps| && forall i :: 0 <= i < |comps| ==> r[i] == comps[i].isSetup
  {
    if comps == [] then [] else [comps[0].isSetup] + SetupFlags(comps[1..])
  }

  /**
   * The shared states after the first `k` entities: one step of the state
   * machine for each pointer that any of them updated.
   */
  function SharedAfter(s0: Shared, over: Over, useControllers: bool, useGaze: bool,
                       setups: seq<bool>, gazeStates: seq<bool>, k: nat): Shared
    requires k <= |setups| && k <= |gazeStates|
  {
    Shared(if useControllers && CountTrue(setups, k) > 0 then NextPointerState(over.right, s0.right) else s0.right,
           if useControllers && CountTrue(setups, k) > 0 then NextPointerState(over.left, s0.left) else s0.left,
           if useGaze && CountTrue(gazeStates, k) > 0 then NextPointerState(over.gaze, s0.gaze) else s0.gaze)
  }

  /** One more entity's update takes the shared states of `k` entities to those of `k + 1`. */
  lemma SharedAfterStep(s0: Shared, over: Over, useControllers: bool, useGaze: bool,
                        setups: seq<bool>, gazeStates: seq<bool>, checkGazeStates: bool, k: nat)
    requires k < |setups| && k < |gazeStates|
    requires gazeStates[k] == (setups[k] && checkGazeStates)
    ensures SharedStep(setups[k], checkGazeStates, useControllers, useGaze,
                       SharedAfter(s0, over, useControllers, useGaze, setups, gazeStates, k), over)
            == SharedAfter(s0, over, useControllers, useGaze, setups, gazeStates, k + 1)
  {
    assert CountTrue(setups, k + 1) == CountTrue(setups, k) + (if setups[k] then 1 else 0);
    assert CountTrue(gazeStates, k + 1) == CountTrue(gazeStates, k) + (if gazeStates[k] then 1 else 0);
  }

  /** Whether each entity checks gaze states. */
  function CheckFlags(comps: seq<ControllerPointerComponents>): (r: seq<bool>)
    ensures |r| == |comps| && forall i :: 0 <= i < |comps| ==> r[i] == comps[i].checkGazeStates
  {
    if comps == [] then [] else [comps[0].checkGazeStates] + CheckFlags(comps[1..])
  }

  /** The shared states after the first `k` entities, one entity's update at a time. */
  function Replay(s0: Shared, over: Over, useControllers: bool, useGaze: bool,
                  setups: seq<bool>, checks: seq<bool>, k: nat): Shared
    requires k <= |setups| && k <= |checks|
  {
    if k == 0 then s0
    else SharedStep(setups[k - 1], checks[k - 1], useControllers, useGaze,
                    Replay(s0, over, useControllers, useGaze, setups, checks, k - 1), over)
  }

  /**
   * However many entities update the shared states, each pointer ends at
   * most one state-machine step on: the step its ray calls for, taken when
   * some entity updated it.
   */
  lemma {:induction false} ReplayIsSharedAfter(s0: Shared, over: Over, useControllers: bool, useGaze: bool,
                                               setups: seq<bool>, checks: seq<bool>, k: nat)
    requires k <= |setups| && |checks| == |setups|
    ensures Replay(s0, over, useControllers, useGaze, setups, checks, k)
            == SharedAfter(s0, over, useControllers, useGaze, setups, Both(setups, checks), k)
  {
    if k > 0 {
      ReplayIsSharedAfter(s0, over, useControllers, useGaze, setups, checks, k - 1);
      SharedAfterStep(s0, over, useControllers, useGaze, setups, Both(setups, checks), checks[k - 1], k - 1);
    }
  }

  /** Index by index, both flags. */
  function Both(xs: seq<bool>, ys: seq<bool>): (r: seq<bool>)
    requires |xs| == |ys|
    ensures |r| == |xs| && forall i :: 0 <= i < |xs| ==> r[i] == (xs[i] && ys[i])
  {
    if xs == [] then [] else [xs[0] && ys[0]] + Both(xs[1..], ys[1..])
  }

  /**
   * What the first `k` entities show after their updates, each from what it
   * showed before and the shared states the entities before it left.
   */
  function ShownAfter(s0: Shared, over: Over, useControllers: bool, useGaze: bool, p: ControllerColors, g: GazeColors,
                      setups: seq<bool>, checks: seq<bool>, drawn: seq<Drawn>, k: nat): (r: seq<Drawn>)
    requires k <= |setups| && k <= |checks| && k <= |drawn|
    ensures |r| == k
  {
    if k == 0 then []
    else ShownAfter(s0, over, useControllers, useGaze, p, g, setups, checks, drawn, k - 1)
         + [EntityDrawn(setups[k - 1], checks[k - 1], useControllers, useGaze,
                        Replay(s0, over, useControllers, useGaze, setups, checks, k - 1), over, p, g, drawn[k - 1])]
  }

  /** Entity `i` shows what the shared states it found called for; later entities do not change it. */
  lemma {:induction false} ShownAfterAt(s0: Shared, over: Over, useControllers: bool, useGaze: bool,
                                        p: ControllerColors, g: GazeColors,
                                        setups: seq<bool>, checks: seq<bool>, drawn: seq<Drawn>, k: nat, i: nat)
    requires k <= |setups| && k <= |checks| && k <= |drawn| && i < k
    ensures ShownAfter(s0, over, useControllers, useGaze, p, g, setups, checks, drawn, k)[i]
            == EntityDrawn(setups[i], checks[i], useControllers, useGaze,
                           Replay(s0, over, useControllers, useGaze, setups, checks, i), over, p, g, drawn[i])
  {
    if i < k - 1 {
      ShownAfterAt(s0, over, useControllers, useGaze, p, g, setups, checks, drawn, k - 1, i);
    }
  }

  /**
   * The entity loop after `k` entities: the shared states are the replay of
   * their updates, they show what the states each found called for, and the
   * rest are untouched.
   */
  ghost predicate Progressed(comps: seq<ControllerPointerComponents>, cp: ControllersParameters, gp: GazeParameters,
                             over: Over, s0: Shared, setups: seq<bool>, checks: seq<bool>,
                             drawn: seq<Drawn>, shown: seq<Drawn>, k: nat)
    reads comps, cp, gp
  {
    k <= |comps| && |setups| == |comps| && |checks| == |comps| && |drawn| == |comps|
    && Shared(cp.rightPointerState, cp.leftPointerState, gp.gazePointerState)
       == Replay(s0, over, cp.useControllers, gp.useGaze, setups, checks, k)
    && shown == ShownAfter(s0, over, cp.useControllers, gp.useGaze, cp.colors, gp.colors, setups, checks, drawn, k)
    && (forall i :: 0 <= i < k ==> DrawnOf(comps[i]) == shown[i])
    && (forall i :: k <= i < |comps| ==> DrawnOf(comps[i]) == drawn[i])
  }

  /** The entity loop stops after the first entity that throws, or at the end: it ran Ran entities. */
  lemma LoopStopsAfterFirstFault(useGaze: bool, setups: seq<bool>, checks: seq<bool>, drawn: seq<Drawn>, k: nat, faulted: bool)
    requires |checks| == |setups| && |drawn| == |setups| && k <= |setups|
    requires !faulted ==> k == |setups| && k <= FirstFault(useGaze, setups, checks, drawn, 0)
    requires faulted ==> k == FirstFault(useGaze, setups, checks, drawn, 0) + 1
    ensures k == Ran(useGaze, setups, checks, drawn)
    ensures faulted <==> FirstFault(useGaze, setups, checks, drawn, 0) < |setups|
  {
  }

  class PointerColorSystems {

    /**
     * CheckGazeState. Without gaze states the reset is the code as written:
     * `faulted` when it dereferences a missing target.
     */
    method CheckGazeState(comp: ControllerPointerComponents, gp: GazeParameters, isOverGaze: bool) returns (faulted: bool)
      modifies comp`gazeBackground, comp`gazeTarget, gp`gazePointerState
      ensures var before := Reticle(old(comp.gazeBackground), old(comp.gazeTarget));
              faulted <==> !comp.checkGazeStates && HalfReticle(before)
      ensures var before := Reticle(old(comp.gazeBackground), old(comp.gazeTarget));
              if comp.checkGazeStates then
                GazeStep(gp.gazePointerState, Reticle(comp.gazeBackground, comp.gazeTarget))
                == SetGazeColorState(old(gp.gazePointerState), isOverGaze, before, gp.colors)
              else
                gp.gazePointerState == old(gp.gazePointerState)
                && Reticle(comp.gazeBackground, comp.gazeTarget) == ResetWrites(before, gp.colors)
    {
      faulted := false;
      if comp.checkGazeStates {
        var r := SetGazeColorState(gp.gazePointerState, isOverGaze, Reticle(comp.gazeBackground, comp.gazeTarget), gp.colors);
        comp.gazeBackground, comp.gazeTarget := r.reticle.background, r.reticle.target;
        gp.gazePointerState := r.state;
      } else {
        if comp.gazeBackground.NonNull? {
          comp.gazeBackground := NonNull(gp.colors.reticle);
        }
        if comp.gazeBackground.NonNull? {
          if comp.gazeTarget.Null? {
            faulted := true;
            return;
          }
          comp.gazeTarget := NonNull(gp.colors.reticleTarget);
        }
      }
    }

    /** The body of the OnUpdate loop for one entity. */
    method CheckEntity(c: ControllerPointerComponents, cp: ControllersParameters, gp: GazeParameters, over: Over,
                       ghost s0: Shared, ghost setups: seq<bool>, ghost checks: seq<bool>, ghost drawn: seq<Drawn>, ghost k: nat)
      returns (faulted: bool)
      requires k < |setups| && k < |checks| && k < |drawn|
      requires setups[k] == c.isSetup && checks[k] == c.checkGazeStates && DrawnOf(c) == drawn[k]
      requires Shared(cp.rightPointerState, cp.leftPointerState, gp.gazePointerState)
               == Replay(s0, over, cp.useControllers, gp.useGaze, setups, checks, k)
      modifies c, cp, gp
      ensures faulted <==> EntityFaults(setups[k], checks[k], gp.useGaze, drawn[k])
      ensures Shared(cp.rightPointerState, cp.leftPointerState, gp.gazePointerState)
              == Replay(s0, over, cp.useControllers, gp.useGaze, setups, checks, k + 1)
      ensures ShownAfter(s0, over, cp.useControllers, gp.useGaze, cp.colors, gp.colors, setups, checks, drawn, k + 1)
              == ShownAfter(s0, over, cp.useControllers, gp.useGaze, cp.colors, gp.colors, setups, checks, drawn, k) + [DrawnOf(c)]
    {
      faulted := false;
      if c.isSetup {
        if cp.useControllers {
          var right := CheckPointerState(over.right, cp.rightPointerState, Right, cp.colors);
          cp.rightPointerState := right.state;
          c.rightPointerColor := Written(right.color, c.rightPointerColor);
          var left := CheckPointerState(over.left, cp.leftPointerState, Left, cp.colors);
          cp.leftPointerState := left.state;
          c.leftPointerColor := Written(left.color, c.leftPointerColor);
        }
        if gp.useGaze {
          faulted := CheckGazeState(c, gp, over.gaze);
        }
      }
    }

    /** CheckEntity on the `k`-th entity takes the entity loop from `k` entities to `k + 1`. */
    method CheckEntityAt(comps: seq<ControllerPointerComponents>, k: nat, cp: ControllersParameters, gp: GazeParameters,
                         over: Over, ghost s0: Shared, ghost setups: seq<bool>, ghost checks: seq<bool>,
                         ghost drawn: seq<Drawn>, ghost shown: seq<Drawn>)
      returns (faulted: bool)
      requires forall i, j :: 0 <= i < |comps| && 0 <= j < |comps| && i != j ==> comps[i] != comps[j]
      requires k < |comps| && |setups| == |comps| && |checks| == |comps| && |drawn| == |comps|
      requires setups[k] == comps[k].isSetup && checks[k] == comps[k].checkGazeStates
      requires Progressed(comps, cp, gp, over, s0, setups, checks, drawn, shown, k)
      modifies comps[k], cp, gp
      ensures faulted <==> EntityFaults(setups[k], checks[k], gp.useGaze, drawn[k])
      ensures Progressed(comps, cp, gp, over, s0, setups, checks, drawn, shown + [DrawnOf(comps[k])], k + 1)
    {
      faulted := CheckEntity(comps[k], cp, gp, over, s0, setups, checks, drawn, k);
    }

    /**
     * OnUpdate: each set-up entity updates the shared pointer states and its
     * own colours in turn, until an entity's reset throws, which ends the
     * frame (`faulted`). The shared states end as the replay over the
     * entities reached; those show what the states each of them found called
     * for, and the entities after a throw are untouched.
     */
    method OnUpdate(comps: seq<ControllerPointerComponents>, cp: ControllersParameters, gp: GazeParameters,
                    iv: InteractionVariableContainer) returns (faulted: bool)
      requires forall i, j :: 0 <= i < |comps| && 0 <= j < |comps| && i != j ==> comps[i] != comps[j]
      modifies comps, cp, gp
      ensures var n := Ran(gp.useGaze, SetupFlags(comps), CheckFlags(comps), old(DrawnAll(comps)));
              var over := Over(iv.isOverSomethingRight, iv.isOverSomethingLeft, iv.isOverSomethingGaze);
              var s0 := Shared(old(cp.rightPointerState), old(cp.leftPointerState), old(gp.gazePointerState));
              Shared(cp.rightPointerState, cp.leftPointerState, gp.gazePointerState)
              == Replay(s0, over, cp.useControllers, gp.useGaze, SetupFlags(comps), CheckFlags(comps), n)
      ensures var n := Ran(gp.useGaze, SetupFlags(comps), CheckFlags(comps), old(DrawnAll(comps)));
              var over := Over(iv.isOverSomethingRight, iv.isOverSomethingLeft, iv.isOverSomethingGaze);
              var s0 := Shared(old(cp.rightPointerState), old(cp.leftPointerState), old(gp.gazePointerState));
              var shown := ShownAfter(s0, over, cp.useControllers, gp.useGaze, cp.colors, gp.colors,
                                      SetupFlags(comps), CheckFlags(comps), old(DrawnAll(comps)), n);
              (forall i :: 0 <= i < n ==> DrawnOf(comps[i]) == shown[i])
              && (forall i :: n <= i < |comps| ==> DrawnOf(comps[i]) == old(DrawnAll(comps))[i])
      ensures faulted <==> FirstFault(gp.useGaze, SetupFlags(comps), CheckFlags(comps), old(DrawnAll(comps)), 0) < |comps|
    {
      var over := Over(iv.isOverSomethingRight, iv.isOverSomethingLeft, iv.isOverSomethingGaze);
      faulted := CheckEntities(comps, cp, gp, over, SetupFlags(comps), CheckFlags(comps));
    }

    /** The OnUpdate loop over the entities; a throw leaves it. */
    method CheckEntities(comps: seq<ControllerPointerComponents>, cp: ControllersParameters, gp: GazeParameters,
                         over: Over, ghost setups: seq<bool>, ghost checks: seq<bool>) returns (faulted: bool)
      requires forall i, j :: 0 <= i < |comps| && 0 <= j < |comps| && i != j ==> comps[i] != comps[j]
      requires |setups| == |comps| && forall i :: 0 <= i < |comps| ==> setups[i] == comps[i].isSetup
      requires |checks| == |comps| && forall i :: 0 <= i < |comps| ==> checks[i] == comps[i].checkGazeStates
      modifies comps, cp, gp
      ensures var n := Ran(gp.useGaze, setups, checks, old(DrawnAll(comps)));
              var s0 := Shared(old(cp.rightPointerState), old(cp.leftPointerState), old(gp.gazePointerState));
              Shared(cp.rightPointerState, cp.leftPointerState, gp.gazePointerState)
              == Replay(s0, over, cp.useControllers, gp.useGaze, setups, checks, n)
      ensures var n := Ran(gp.useGaze, setups, checks, old(DrawnAll(comps)));
              var s0 := Shared(old(cp.rightPointerState), old(cp.leftPointerState), old(gp.gazePointerState));
              var shown := ShownAfter(s0, over, cp.useControllers, gp.useGaze, cp.colors, gp.colors,
                                      setups, checks, old(DrawnAll(comps)), n);
              (forall i :: 0 <= i < n ==> DrawnOf(comps[i]) == shown[i])
              && (forall i :: n <= i < |comps| ==> DrawnOf(comps[i]) == old(DrawnAll(comps))[i])
      ensures faulted <==> FirstFault(gp.useGaze, setups, checks, old(DrawnAll(comps)), 0) < |comps|
    {
      ghost var s0 := Shared(cp.rightPointerState, cp.leftPointerState, gp.gazePointerState);
      ghost var drawn := DrawnAll(comps);
      ghost var shown: seq<Drawn> := [];
      ghost var first := FirstFault(gp.useGaze, setups, checks, drawn, 0);
      faulted := false;
      var k := 0;
      while k < |comps| && !faulted
        invariant 0 <= k <= |comps|
        invariant !faulted ==> k <= first
        invariant faulted ==> k == first + 1 && k <= |comps|
        invariant Progressed(comps, cp, gp, over, s0, setups, checks, drawn, shown, k)
      {
        faulted := CheckEntityAt(comps, k, cp, gp, over, s0, setups, checks, drawn, shown);
        shown := shown + [DrawnOf(comps[k])];
        k := k + 1;
      }
      LoopStopsAfterFirstFault(gp.useGaze, setups, checks, drawn, k, faulted);
    }
  }
}
