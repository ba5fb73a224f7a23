/**
 * TeleportGeneralComponent: the per-entity teleport state and action slots,
 * and the two static fields every teleport entity shares.
 */
module TeleportGeneral {
  import opened Types

  class TeleportGeneralComponent {
    var isUsingFadingEffect: bool
    var excludedLayers: set<int>
    var currentTeleportState: TeleportState
    /** The three delegates a long-range entity registers; null until SetupListenersResponses. */
    var startInteractingAction: Nullable<Listener>
    var stopInteractingAction: Nullable<Listener>
    var isInteractingAction: Nullable<Listener>

    /** A freshly added component: fading on, state None, no action created yet. */
    constructor ()
      ensures isUsingFadingEffect && excludedLayers == {}
      ensures currentTeleportState == None
      ensures startInteractingAction == Null && stopInteractingAction == Null && isInteractingAction == Null
    {
      isUsingFadingEffect := true;
      excludedLayers := {};
      currentTeleportState := None;
      startInteractingAction, stopInteractingAction, isInteractingAction := Null, Null, Null;
    }

    /**
     * TeleportUserSystem.SetTeleportState, which is not part of this model, is
     * taken to store the new state on the component.
     */
    method SetTeleportState(state: TeleportState)
      modifies this`currentTeleportState
      ensures currentTeleportState == state
    {
      currentTeleportState := state;
    }
  }

  /**
   * The static `CanTeleport` and `PointToGoTo`: one object, shared by every
   * teleport entity and system that is given it.
   */
  class TeleportStatics {
    var canTeleport: bool
    var pointToGoTo: Vec3

    constructor ()
      ensures canTeleport && pointToGoTo == Zero3
    {
      canTeleport := true;
      pointToGoTo := Zero3;
    }
  }
}
