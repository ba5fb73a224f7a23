# VRSF_Hybrid core, modelled in Dafny

VRSF_Hybrid is a virtual-reality framework for Unity built on the hybrid Entity Component System (ECS).
Its behaviour lives in per-frame *systems*. Each system walks the entities of its filter and reads the
controller and gaze inputs. It updates shared variable containers (click, touch and hover flags) and raises
events (`ButtonClickEvent`, `ObjectWasHoveredEvent`, …). It also moves the camera rig (teleport, fly, rotate)
and wires listeners onto the UnityEvents of the Button Action Choser components (BAC).

This project models those systems and the components they change. There is one Dafny module per source file:

- **Input capture.**
  - `CrossplatformInput` (right controller, the 0.95 click threshold and the grip released only at an axis of 0);
  - `SimulatorGazeInput` (the simulator's gaze key);
  - `SingleControllerInput` (the back button of Gear VR and Oculus Go);
  - `WMRInput` (the WMR menu buttons);
  - `ControllerInputToSO` (the table of variable names each button is read under).
- **Interactions.**
  - `ColliderOverGaze` (gaze hover, raised once per new target);
  - `ColliderOverRight` (right-controller hover, raised every frame);
  - `GazeClick` (gaze clicks);
  - `PointerColor` (the OFF/ON/SELECTABLE state machine and the colours of the pointers and the gaze reticle).
- **Moving around.**
  - `TeleportUser` (the fade-out/fade-in teleport and the single relocation it makes);
  - `LongRangeTeleport`, `StepByStep` and `BezierSetup` (the three teleporters, with their listener wiring and their
    validation of the destination);
  - `FlyForward`;
  - `CameraRotation` (rotation with acceleration).
- **Setup and components.**
  - `CoreSetupVR` and `UtilsSetupVR`, the two copies of the static `VRSF_Components`, which differ in how they
    place the rig;
  - `TeleportGeneral`;
  - `BACGeneral` (the listener table of a BAC);
  - `BACEditor` (the inspector that validates a BAC's parameters).

The state a source class changes in place is a Dafny `class` with those fields:

- ECS components;
- the `InputVariableContainer`;
- `VRSF_Components`;
- the inspector's thumb-panel flags.

Its methods carry `modifies` clauses. Each method's `ensures` ties the new state to a pure step function
(`FadeStep`, `TriggerStep`, `HandleOver`, `NextPointerState`, …). Lemmas about those functions state what the
source promises over runs of frames, for example:

- a teleport relocates the rig at most once;
- a steady gaze hovers once;
- a released rotation keeps slowing down;
- an unregistration undoes a registration;
- a repaint of the inspector is idempotent.

Systems that iterate over entities (`OnUpdate`) are `while` loops whose invariants relate the entities done so
far to a function of the initial state.

The `WMRInput` system methods, the `PointerColor` system methods and the `BACEditor` class model the code as
written. The corrected behaviour of each is stated beside it (see "## Findings"). In `PointerColor`, a reset of
a reticle that has a background but no target throws; the exception leaves the entity loop, so the entities
after it are not updated in that frame. `GazeClick.OnColliderGazeClickSystem.OnUpdate` also follows the
code: its reset sets the click flag to false under the same condition that guards `HandleClick`, so the click
handler is never reached from `OnUpdate`, and the system raises no event. `ResetDisablesClick` states this.

## Model

| member | source | states |
|---|---|---|
| TeleportUser.FadeStep | VRSF_Hybrid/Assets/Teleporter/Scripts/Systems/CurveTeleporter/TeleportUserSystem.cs:40-62 | before half the fade duration has passed nothing changes; each crossing puts the time marker at now and flips `_fadingIn`; the end of the fade-out relocates the rig to the selected point and keeps both states; the end of the fade-in sets the entity and fade states to None and relocates nothing |
| TeleportUser.EntityFrame | VRSF_Hybrid/Assets/Teleporter/Scripts/Systems/CurveTeleporter/TeleportUserSystem.cs:18-33 | an entity not Teleporting is left unchanged and the rig is not moved; without a fade component the rig goes to the selected point and the state stays Teleporting; a relocation is always to the selected point |
| TeleportUser.AtMostOneRelocation | VRSF_Hybrid/Assets/Teleporter/Scripts/Systems/CurveTeleporter/TeleportUserSystem.cs:45-60 | with a fade component, any run of frames relocates the rig at most once while fading out and never otherwise, always to the selected point |
| TeleportUser.TwoCrossings | VRSF_Hybrid/Assets/Teleporter/Scripts/Systems/CurveTeleporter/TeleportUserSystem.cs:45-60 | from fading out, two half-duration crossings give exactly one relocation and then state None on the entity and on the fade component, with the marker at the second crossing |
| TeleportUser.NoFadeStaysTeleporting | VRSF_Hybrid/Assets/Teleporter/Scripts/Systems/CurveTeleporter/TeleportUserSystem.cs:28-31 | without a fade component the entity stays Teleporting and every frame puts the rig on the selected point |
| TeleportUser.TeleportUserSystem.HandleTeleportingState | VRSF_Hybrid/Assets/Teleporter/Scripts/Systems/CurveTeleporter/TeleportUserSystem.cs:40-62 | the entity, its fade component and the rig end as FadeStep prescribes |
| TeleportUser.TeleportUserSystem.UpdateEntity | VRSF_Hybrid/Assets/Teleporter/Scripts/Systems/CurveTeleporter/TeleportUserSystem.cs:20-32 | one entity and the rig end as EntityFrame prescribes |
| TeleportUser.TeleportUserSystem.OnUpdate | VRSF_Hybrid/Assets/Teleporter/Scripts/Systems/CurveTeleporter/TeleportUserSystem.cs:16-34 | entities not Teleporting keep their state; entities without fade stay Teleporting; the rig is unmoved or on some Teleporting entity's selected point; with one entity, exactly EntityFrame |
| TeleportGeneral.TeleportGeneralComponent.constructor | VRSF_Hybrid/Assets/VRSF/Scripts/MoveAround/Teleport/Components/TeleportGeneralComponent.cs:13-49 | fading on by default, no excluded layer, state None, all three action slots null |
| TeleportGeneral.TeleportGeneralComponent.SetTeleportState | VRSF_Hybrid/Assets/VRSF/Scripts/MoveAround/Teleport/Components/TeleportGeneralComponent.cs:35 | the component's teleport state becomes the given state |
| TeleportGeneral.TeleportStatics.constructor | VRSF_Hybrid/Assets/VRSF/Scripts/MoveAround/Teleport/Components/TeleportGeneralComponent.cs:37-45 | the one shared CanTeleport starts true and PointToGoTo starts at zero |
| LongRangeTeleport.Delegates | VRSF_Hybrid/Assets/VRSF/Scripts/MoveAround/Teleport/Systems/LongRangeTeleporter/LongRangeTeleportSystem.cs:52-54 | setup creates three non-null, pairwise distinct delegates |
| LongRangeTeleport.AddTriple | VRSF_Hybrid/Assets/VRSF/Scripts/MoveAround/Teleport/Systems/LongRangeTeleporter/LongRangeTeleportSystem.cs:56-61 | each event of the flag's kind gets its slot's delegate appended; other events are unchanged |
| LongRangeTeleport.Register | VRSF_Hybrid/Assets/VRSF/Scripts/MoveAround/Teleport/Systems/LongRangeTeleporter/LongRangeTeleportSystem.cs:56-68 | click events get the delegates only with the CLICK flag, touch events only with the TOUCH flag; other events are unchanged |
| LongRangeTeleport.RemoveSlot | VRSF_Hybrid/Assets/VRSF/Scripts/MoveAround/Teleport/Systems/LongRangeTeleporter/LongRangeTeleportSystem.cs:78 | removing a slot's delegate removes it from that event only; a null slot removes nothing |
| LongRangeTeleport.RemoveTriple | VRSF_Hybrid/Assets/VRSF/Scripts/MoveAround/Teleport/Systems/LongRangeTeleporter/LongRangeTeleportSystem.cs:76-81 | each event of the flag's kind loses its slot's delegate; other events are unchanged |
| LongRangeTeleport.RemoveTripleEvents | VRSF_Hybrid/Assets/VRSF/Scripts/MoveAround/Teleport/Systems/LongRangeTeleporter/LongRangeTeleportSystem.cs:76-88 | three single-event removals amount to removing each slot's delegate from its event of the flag's kind |
| LongRangeTeleport.Unregister | VRSF_Hybrid/Assets/VRSF/Scripts/MoveAround/Teleport/Systems/LongRangeTeleporter/LongRangeTeleportSystem.cs:72-89 | exactly the stored delegates leave the events selected by the same flags; everything else is unchanged |
| LongRangeTeleport.WithoutAppended | VRSF_Hybrid/Assets/VRSF/Scripts/MoveAround/Teleport/Systems/LongRangeTeleporter/LongRangeTeleportSystem.cs:58-80 | removing a delegate appended to a list that lacked it gives the list back |
| LongRangeTeleport.UnregisterUndoesRegister | VRSF_Hybrid/Assets/VRSF/Scripts/MoveAround/Teleport/Systems/LongRangeTeleporter/LongRangeTeleportSystem.cs:46-89 | RemoveListeners after a first setup restores every event's listeners |
| LongRangeTeleport.Setup | VRSF_Hybrid/Assets/VRSF/Scripts/MoveAround/Teleport/Systems/LongRangeTeleporter/LongRangeTeleportSystem.cs:46-70 | only an entity whose three slots are all null is wired, with fresh delegates; afterwards the slots are never all null |
| LongRangeTeleport.SetupTwiceIsOnce | VRSF_Hybrid/Assets/VRSF/Scripts/MoveAround/Teleport/Systems/LongRangeTeleporter/LongRangeTeleportSystem.cs:50-69 | a second setup, as Init runs on every VR-ready event, adds no listener |
| LongRangeTeleport.IsInteractingStep | VRSF_Hybrid/Assets/VRSF/Scripts/MoveAround/Teleport/Systems/LongRangeTeleporter/LongRangeTeleportSystem.cs:120-138 | the loading timer grows by exactly deltaTime; off UI the point becomes the linecast point and CanTeleport is the nav-mesh verdict, with the loading timer also requiring timer > LoadingTime (strict); on UI or without a hit CanTeleport is false and the point is kept |
| LongRangeTeleport.RunKeepsLastVerdict | VRSF_Hybrid/Assets/VRSF/Scripts/MoveAround/Teleport/Systems/LongRangeTeleporter/LongRangeTeleportSystem.cs:120-138 | over a run the timer grows by the total frame time and CanTeleport is the last frame's verdict |
| LongRangeTeleport.LongRangeTeleportSystem.SetupListenersResponses | VRSF_Hybrid/Assets/VRSF/Scripts/MoveAround/Teleport/Systems/LongRangeTeleporter/LongRangeTeleportSystem.cs:46-70 | the slots and listeners end as Setup prescribes |
| LongRangeTeleport.LongRangeTeleportSystem.RemoveListeners | VRSF_Hybrid/Assets/VRSF/Scripts/MoveAround/Teleport/Systems/LongRangeTeleporter/LongRangeTeleportSystem.cs:72-89 | the listeners end as Unregister of the stored slots prescribes |
| LongRangeTeleport.LongRangeTeleportSystem.OnStartInteractingCallback | VRSF_Hybrid/Assets/VRSF/Scripts/MoveAround/Teleport/Systems/LongRangeTeleporter/LongRangeTeleportSystem.cs:111-115 | the teleport state becomes Selecting |
| LongRangeTeleport.LongRangeTeleportSystem.OnIsInteractingCallback | VRSF_Hybrid/Assets/VRSF/Scripts/MoveAround/Teleport/Systems/LongRangeTeleporter/LongRangeTeleportSystem.cs:120-138 | the timer and the shared CanTeleport and PointToGoTo end as IsInteractingStep prescribes |
| LongRangeTeleport.LongRangeTeleportSystem.OnStopInteractingCallback | VRSF_Hybrid/Assets/VRSF/Scripts/MoveAround/Teleport/Systems/LongRangeTeleporter/LongRangeTeleportSystem.cs:144-150 | a teleport is requested exactly when CanTeleport holds; otherwise the state becomes None |
| StepByStep.Register | VRSF_Hybrid/Assets/VRSF/Scripts/MoveAround/Teleport/Systems/SBS_Teleporter/StepByStepSystem.cs:57-71 | each selected start and stop event gets one more delegate appended, with no de-duplication; other events are unchanged |
| StepByStep.ClearAll | VRSF_Hybrid/Assets/VRSF/Scripts/MoveAround/Teleport/Systems/SBS_Teleporter/StepByStepSystem.cs:73-87 | every listener of the selected start and stop events goes, not only this system's |
| StepByStep.RegisterTimesCount | VRSF_Hybrid/Assets/VRSF/Scripts/MoveAround/Teleport/Systems/SBS_Teleporter/StepByStepSystem.cs:150-156 | after n setups each selected start and stop event holds n more copies of the delegate |
| StepByStep.ClearAfterRegisterTimes | VRSF_Hybrid/Assets/VRSF/Scripts/MoveAround/Teleport/Systems/SBS_Teleporter/StepByStepSystem.cs:73-87 | whatever the number of setups, RemoveListeners leaves the selected events empty |
| StepByStep.Teleport | VRSF_Hybrid/Assets/VRSF/Scripts/MoveAround/Teleport/Systems/SBS_Teleporter/StepByStepSystem.cs:95-103 | the state always ends None; the rig moves to the nav-mesh point only when the nav-mesh check succeeds |
| StepByStep.Start | VRSF_Hybrid/Assets/VRSF/Scripts/MoveAround/Teleport/Systems/SBS_Teleporter/StepByStepSystem.cs:115-126 | with a BAC timer the state becomes Selecting and nothing teleports; without one the user teleports iff the ray is not on UI |
| StepByStep.Stop | VRSF_Hybrid/Assets/VRSF/Scripts/MoveAround/Teleport/Systems/SBS_Teleporter/StepByStepSystem.cs:133-144 | teleports only with a timer that is ready and a ray off UI; otherwise nothing changes |
| StepByStep.PressMovesAtMostOnce | VRSF_Hybrid/Assets/VRSF/Scripts/MoveAround/Teleport/Systems/SBS_Teleporter/StepByStepSystem.cs:115-144 | a press and release moves the rig at most once, and after a move the state is None |
| StepByStep.StepByStepSystem.TeleportUser | VRSF_Hybrid/Assets/VRSF/Scripts/MoveAround/Teleport/Systems/SBS_Teleporter/StepByStepSystem.cs:95-103 | the state and the rig end as Teleport prescribes |
| StepByStep.StepByStepSystem.OnStartInteractingCallback | VRSF_Hybrid/Assets/VRSF/Scripts/MoveAround/Teleport/Systems/SBS_Teleporter/StepByStepSystem.cs:115-126 | the state and the rig end as Start prescribes |
| StepByStep.StepByStepSystem.OnStopInteractingCallback | VRSF_Hybrid/Assets/VRSF/Scripts/MoveAround/Teleport/Systems/SBS_Teleporter/StepByStepSystem.cs:133-144 | the state and the rig end as Stop prescribes |
| StepByStep.StepByStepSystem.SetupListenersResponses | VRSF_Hybrid/Assets/VRSF/Scripts/MoveAround/Teleport/Systems/SBS_Teleporter/StepByStepSystem.cs:57-71 | the listeners end as Register prescribes |
| StepByStep.StepByStepSystem.RemoveListeners | VRSF_Hybrid/Assets/VRSF/Scripts/MoveAround/Teleport/Systems/SBS_Teleporter/StepByStepSystem.cs:73-87 | the listeners end as ClearAll prescribes |
| StepByStep.StepByStepSystem.OnSceneUnloaded | VRSF_Hybrid/Assets/VRSF/Scripts/MoveAround/Teleport/Systems/SBS_Teleporter/StepByStepSystem.cs:150-156 | every BAC component is registered once more, so the delegates pile up across scene loads |
| BezierSetup.Destination | VRSF_Hybrid/Assets/VRSF/Scripts/MoveAround/Teleport/Systems/Bezier/BezierSetupSystem.cs:128-145 | OpenVR lands exactly on the ground point; Oculus Rift adds the camera's local y; any other device adds 1.8; x and z are the ground point's |
| BezierSetup.Toggle | VRSF_Hybrid/Assets/VRSF/Scripts/MoveAround/Teleport/Systems/Bezier/BezierSetupSystem.cs:170-185 | arc, marker and display flag become `active`; the pointer becomes `!active` only when the ray hand's pointer is in use; showing removes the teleport layer from both exclusion masks, hiding leaves the masks alone |
| BezierSetup.Release | VRSF_Hybrid/Assets/VRSF/Scripts/MoveAround/Teleport/Systems/Bezier/BezierSetupSystem.cs:148-151 | arc, marker and display are off and the teleport layer is added to both exclusion masks |
| BezierSetup.HoldThenRelease | VRSF_Hybrid/Assets/VRSF/Scripts/MoveAround/Teleport/Systems/Bezier/BezierSetupSystem.cs:148-185 | holding then releasing leaves both masks as before plus the teleport layer, the display off, and the pointer on when it is in use |
| BezierSetup.ReleaseThenHold | VRSF_Hybrid/Assets/VRSF/Scripts/MoveAround/Teleport/Systems/Bezier/BezierSetupSystem.cs:148-185 | showing the arc after a release leaves both masks without the teleport layer, the display on and the pointer off when it is in use |
| BezierSetup.Register | VRSF_Hybrid/Assets/VRSF/Scripts/MoveAround/Teleport/Systems/Bezier/BezierSetupSystem.cs:88-102 | each selected kind gets the display toggle on its held event and the teleport on its stop event; other events are unchanged |
| BezierSetup.ClearStarts | VRSF_Hybrid/Assets/VRSF/Scripts/MoveAround/Teleport/Systems/Bezier/BezierSetupSystem.cs:104-116 | only the start events of the selected kinds are cleared |
| BezierSetup.ClearStartsKeepsSetup | VRSF_Hybrid/Assets/VRSF/Scripts/MoveAround/Teleport/Systems/Bezier/BezierSetupSystem.cs:88-116 | the end-of-application removal changes only start events, so the teleport delegate stays on each selected stop event |
| BezierSetup.BezierSetupSystem.ToggleDisplay | VRSF_Hybrid/Assets/VRSF/Scripts/MoveAround/Teleport/Systems/Bezier/BezierSetupSystem.cs:170-185 | the display state ends as Toggle prescribes |
| BezierSetup.BezierSetupSystem.TeleportUser | VRSF_Hybrid/Assets/VRSF/Scripts/MoveAround/Teleport/Systems/Bezier/BezierSetupSystem.cs:124-152 | the rig moves to Destination only if ground or limit was detected; the display ends as Release prescribes |
| BezierSetup.BezierSetupSystem.MoveRig | VRSF_Hybrid/Assets/VRSF/Scripts/MoveAround/Teleport/Systems/Bezier/BezierSetupSystem.cs:128-146 | the rig moves to Destination only if ground or limit was detected, and is unchanged otherwise |
| BezierSetup.InitAfter | VRSF_Hybrid/Assets/VRSF/Scripts/MoveAround/Teleport/Systems/Bezier/BezierSetupSystem.cs:191-216 | only a completed initialisation sets the entity up; a throw in the hand check writes nothing; past it the layer lookup is stored even when it is -1; the arc is hidden by a completed run or a throw at the marker, and the marker only by a completed run |
| BezierSetup.SetUpOnceCompleted | VRSF_Hybrid/Assets/VRSF/Scripts/MoveAround/Teleport/Systems/Bezier/BezierSetupSystem.cs:52-69 | over frames, an entity is set up exactly when it already was or some initialisation completed, and a set-up entity is never changed again |
| BezierSetup.BezierSetupSystem.InitializeValues | VRSF_Hybrid/Assets/VRSF/Scripts/MoveAround/Teleport/Systems/Bezier/BezierSetupSystem.cs:191-216 | the layer, arc, marker and setup flag end as InitAfter prescribes for the point where the initialisation ends |
| BezierSetup.BezierSetupSystem.OnUpdate | VRSF_Hybrid/Assets/VRSF/Scripts/MoveAround/Teleport/Systems/Bezier/BezierSetupSystem.cs:52-69 | the system stays enabled iff some entity was not set up at the start of the frame; each entity already set up is left unchanged and each other one ends as InitAfter prescribes for its outcome |
| BezierSetup.BezierSetupSystem.OnSceneUnloaded | VRSF_Hybrid/Assets/VRSF/Scripts/MoveAround/Teleport/Systems/Bezier/BezierSetupSystem.cs:258-261 | the system is enabled again |
| BezierSetup.BezierSetupSystem.SetupListenersResponses | VRSF_Hybrid/Assets/VRSF/Scripts/MoveAround/Teleport/Systems/Bezier/BezierSetupSystem.cs:88-102 | the listeners end as Register prescribes |
| BezierSetup.BezierSetupSystem.RemoveListenersOnEndApp | VRSF_Hybrid/Assets/VRSF/Scripts/MoveAround/Teleport/Systems/Bezier/BezierSetupSystem.cs:104-116 | the listeners end as ClearStarts prescribes |
| CrossplatformInput.TriggerStep | VRSF_Hybrid/Assets/VRSF/Scripts/Core/Inputs/Systems/Crossplatform/CrossplatformRightInputCaptureSystem.cs:56-77 | not clicked and axis > 0.95 clicks, clears the touch and raises a click; clicked and axis < 0.95 unclicks; at exactly 0.95 the click never changes; touch edges otherwise; at most one right-hand trigger event |
| CrossplatformInput.ThumbStep | VRSF_Hybrid/Assets/VRSF/Scripts/Core/Inputs/Systems/Crossplatform/CrossplatformRightInputCaptureSystem.cs:87-107 | click edges first, then touch edges; a touch starts only when the thumb is not clicked; at most one right-hand thumbstick event |
| CrossplatformInput.GripStep | VRSF_Hybrid/Assets/VRSF/Scripts/Core/Inputs/Systems/Crossplatform/CrossplatformRightInputCaptureSystem.cs:114-123 | clicks above 0.95; releases only at an axis of exactly 0; a clicked grip with any other axis stays clicked with no event |
| CrossplatformInput.GripHeldUntilZero | VRSF_Hybrid/Assets/VRSF/Scripts/Core/Inputs/Systems/Crossplatform/CrossplatformRightInputCaptureSystem.cs:114-123 | a clicked grip stays clicked through any run of non-zero samples |
| CrossplatformInput.NamesAgreeWithTable | VRSF_Hybrid/Assets/VRSF/Scripts/Core/Inputs/Systems/Crossplatform/CrossplatformRightInputCaptureSystem.cs:52-111 | the variable names the system reads are those ControllerInputToSO gives for trigger, thumbstick and grip |
| CrossplatformInput.TriggerFrame | VRSF_Hybrid/Assets/VRSF/Scripts/Core/Inputs/Systems/Crossplatform/CrossplatformRightInputCaptureSystem.cs:51-78 | the trigger region raises at most one event, of the right trigger |
| CrossplatformInput.ThumbFrame | VRSF_Hybrid/Assets/VRSF/Scripts/Core/Inputs/Systems/Crossplatform/CrossplatformRightInputCaptureSystem.cs:80-108 | the touchpad region raises at most one event, of the right thumbstick |
| CrossplatformInput.GripFrame | VRSF_Hybrid/Assets/VRSF/Scripts/Core/Inputs/Systems/Crossplatform/CrossplatformRightInputCaptureSystem.cs:110-124 | the grip region raises at most one event, of the right grip |
| CrossplatformInput.RightFrameOneEventPerButton | VRSF_Hybrid/Assets/VRSF/Scripts/Core/Inputs/Systems/Crossplatform/CrossplatformRightInputCaptureSystem.cs:49-125 | a frame raises at most three events, all right-handed, no two of them for the same button |
| CrossplatformInput.AfterAllAt | VRSF_Hybrid/Assets/VRSF/Scripts/Core/Inputs/Systems/Crossplatform/CrossplatformRightInputCaptureSystem.cs:30-35 | each capture component's entry after the frame is what the frame makes of what it held |
| CrossplatformInput.EventsAllAt | VRSF_Hybrid/Assets/VRSF/Scripts/Core/Inputs/Systems/Crossplatform/CrossplatformRightInputCaptureSystem.cs:30-35 | each capture component's events are what the frame makes it raise |
| CrossplatformInput.EventsAllRightHanded | VRSF_Hybrid/Assets/VRSF/Scripts/Core/Inputs/Systems/Crossplatform/CrossplatformRightInputCaptureSystem.cs:49-125 | one component raises at most three events, all right-handed |
| CrossplatformInput.FrameEventsRightHanded | VRSF_Hybrid/Assets/VRSF/Scripts/Core/Inputs/Systems/Crossplatform/CrossplatformRightInputCaptureSystem.cs:25-37 | a whole OnUpdate raises at most three events per component, all right-handed |
| CrossplatformInput.CrossplatformRightInputCaptureSystem.CheckTrigger | VRSF_Hybrid/Assets/VRSF/Scripts/Core/Inputs/Systems/Crossplatform/CrossplatformRightInputCaptureSystem.cs:51-78 | the trigger variables and events end as TriggerFrame prescribes |
| CrossplatformInput.CrossplatformRightInputCaptureSystem.CheckThumb | VRSF_Hybrid/Assets/VRSF/Scripts/Core/Inputs/Systems/Crossplatform/CrossplatformRightInputCaptureSystem.cs:80-108 | the thumbstick variables and events end as ThumbFrame prescribes, and ThumbPosition is overwritten with the two axes |
| CrossplatformInput.CrossplatformRightInputCaptureSystem.CheckGrip | VRSF_Hybrid/Assets/VRSF/Scripts/Core/Inputs/Systems/Crossplatform/CrossplatformRightInputCaptureSystem.cs:110-124 | the grip variable and events end as GripFrame prescribes |
| CrossplatformInput.CrossplatformRightInputCaptureSystem.CheckRightControllerInput | VRSF_Hybrid/Assets/VRSF/Scripts/Core/Inputs/Systems/Crossplatform/CrossplatformRightInputCaptureSystem.cs:49-125 | the dictionaries and events end as the three regions in sequence prescribe; ThumbPosition holds the frame's axes |
| CrossplatformInput.CrossplatformRightInputCaptureSystem.CheckEntity | VRSF_Hybrid/Assets/VRSF/Scripts/Core/Inputs/Systems/Crossplatform/CrossplatformRightInputCaptureSystem.cs:32-34 | a set-up component is checked; one not set up is unchanged and raises nothing |
| CrossplatformInput.CrossplatformRightInputCaptureSystem.OnUpdate | VRSF_Hybrid/Assets/VRSF/Scripts/Core/Inputs/Systems/Crossplatform/CrossplatformRightInputCaptureSystem.cs:25-37 | with controllers in use each component ends as AfterAll prescribes and the events are all components' in order; otherwise nothing changes |
| CrossplatformInput.CrossplatformRightInputCaptureSystem.CheckDevice | VRSF_Hybrid/Assets/VRSF/Scripts/Core/Inputs/Systems/Crossplatform/CrossplatformRightInputCaptureSystem.cs:127-130 | enabled iff the loaded device is not the simulator |
| SimulatorGazeInput.Step | VRSF_Hybrid/Assets/VRSF/Scripts/Gaze/Systems/Inputs/SimulatorGazeInputCaptureSystem.cs:70-90 | key down while not clicking sets click and touch and raises click and touch; key up while clicking clears both and raises unclick and untouch; after any transition click equals touch |
| SimulatorGazeInput.SecondCheckIsSilent | VRSF_Hybrid/Assets/VRSF/Scripts/Gaze/Systems/Inputs/SimulatorGazeInputCaptureSystem.cs:70-90 | a second check in the same frame, without both key edges, changes nothing and raises nothing |
| SimulatorGazeInput.RepeatIsOnce | VRSF_Hybrid/Assets/VRSF/Scripts/Gaze/Systems/Inputs/SimulatorGazeInputCaptureSystem.cs:50-62 | without a press and a release in one frame, any number of checking entities act as one |
| SimulatorGazeInput.PressAndReleaseInOneFrame | VRSF_Hybrid/Assets/VRSF/Scripts/Gaze/Systems/Inputs/SimulatorGazeInputCaptureSystem.cs:50-90 | with a press and a release in one frame, a second entity undoes the first: flags back to false, four events |
| SimulatorGazeInput.SimulatorGazeInputCaptureSystem.CheckGazeInputs | VRSF_Hybrid/Assets/VRSF/Scripts/Gaze/Systems/Inputs/SimulatorGazeInputCaptureSystem.cs:70-90 | the gaze flags and events end as Step prescribes |
| SimulatorGazeInput.SimulatorGazeInputCaptureSystem.CheckGazeClickButton | VRSF_Hybrid/Assets/VRSF/Scripts/Gaze/Systems/Inputs/SimulatorGazeInputCaptureSystem.cs:96-102 | a NONE gaze button turns the gaze checks off; otherwise the flag is unchanged |
| SimulatorGazeInput.SimulatorGazeInputCaptureSystem.OnStartRunning | VRSF_Hybrid/Assets/VRSF/Scripts/Gaze/Systems/Inputs/SimulatorGazeInputCaptureSystem.cs:37-48 | every component is checked: a NONE gaze button turns all gaze checks off |
| SimulatorGazeInput.SimulatorGazeInputCaptureSystem.OnUpdate | VRSF_Hybrid/Assets/VRSF/Scripts/Gaze/Systems/Inputs/SimulatorGazeInputCaptureSystem.cs:50-62 | without controllers nothing happens; with them one Step per component whose gaze checks are on, which is exactly one Step when at least one checks and the key is not pressed and released in the same frame |
| SimulatorGazeInput.SimulatorGazeInputCaptureSystem.CheckEntities | VRSF_Hybrid/Assets/VRSF/Scripts/Gaze/Systems/Inputs/SimulatorGazeInputCaptureSystem.cs:55-60 | the flags and events end as one Step per checking component prescribes |
| SingleControllerInput.HandOf | VRSF_Hybrid/Assets/VRSF/Scripts/Core/Inputs/Systems/Oculus/Go_GearVR/SingleControllerInputCaptureSystem.cs:59-64 | events carry RIGHT iff the controller is right-handed, LEFT otherwise |
| SingleControllerInput.CheckBack | VRSF_Hybrid/Assets/VRSF/Scripts/Core/Inputs/Systems/Oculus/Go_GearVR/SingleControllerInputCaptureSystem.cs:51-67 | back down writes true then false and raises one click; back up writes false and raises one unclick; otherwise nothing |
| SingleControllerInput.BackFlagEndsFalse | VRSF_Hybrid/Assets/VRSF/Scripts/Core/Inputs/Systems/Oculus/Go_GearVR/SingleControllerInputCaptureSystem.cs:55-65 | after any check the flag is false unless nothing was written; an event is raised exactly on a back edge, and at most one |
| SingleControllerInput.BackFlagNeverHeld | VRSF_Hybrid/Assets/VRSF/Scripts/Core/Inputs/Systems/Oculus/Go_GearVR/SingleControllerInputCaptureSystem.cs:51-67 | starting false, the back flag is false after any run of frames |
| SingleControllerInput.FrameEventsShape | VRSF_Hybrid/Assets/VRSF/Scripts/Core/Inputs/Systems/Oculus/Go_GearVR/SingleControllerInputCaptureSystem.cs:25-39 | a frame raises at most one event per entity: back-button clicks on a press, unclicks otherwise, and nothing without an edge |
| SingleControllerInput.SingleControllerInputCaptureSystem.CheckControllerInput | VRSF_Hybrid/Assets/VRSF/Scripts/Core/Inputs/Systems/Oculus/Go_GearVR/SingleControllerInputCaptureSystem.cs:51-67 | the writes and events are those of CheckBack, and the flag holds the last write |
| SingleControllerInput.SingleControllerInputCaptureSystem.CheckEntity | VRSF_Hybrid/Assets/VRSF/Scripts/Core/Inputs/Systems/Oculus/Go_GearVR/SingleControllerInputCaptureSystem.cs:32-36 | a set-up entity is checked; one not set up is unchanged and raises nothing |
| SingleControllerInput.SingleControllerInputCaptureSystem.OnUpdate | VRSF_Hybrid/Assets/VRSF/Scripts/Core/Inputs/Systems/Oculus/Go_GearVR/SingleControllerInputCaptureSystem.cs:25-39 | only with controllers in use and only for set-up entities; the flags and events follow CheckBack |
| SingleControllerInput.SingleControllerInputCaptureSystem.CheckEntities | VRSF_Hybrid/Assets/VRSF/Scripts/Core/Inputs/Systems/Oculus/Go_GearVR/SingleControllerInputCaptureSystem.cs:30-37 | each entity's flag and the frame's events follow CheckBack for the set-up entities |
| SingleControllerInput.SingleControllerInputCaptureSystem.CheckDevice | VRSF_Hybrid/Assets/VRSF/Scripts/Core/Inputs/Systems/Oculus/Go_GearVR/SingleControllerInputCaptureSystem.cs:69-77 | enabled iff the device is Gear VR or Oculus Go |
| WMRInput.MenuStepAsWritten | VRSF_Hybrid/Assets/VRSF/Scripts/Core/Inputs/Systems/WMR/WMRControllersInputCaptureSystem.cs:51-65 | menu down sets the flag and raises an unclick; otherwise a grip release clears it and raises an unclick; every event is an unclick |
| WMRInput.MenuStepIntended | VRSF_Hybrid/Assets/VRSF/Scripts/Core/Inputs/Systems/WMR/WMRControllersInputCaptureSystem.cs:54-63 | menu down sets the flag and raises a click; menu up clears it and raises an unclick |
| WMRInput.IntendedAgrees | VRSF_Hybrid/Assets/VRSF/Scripts/Core/Inputs/Systems/WMR/WMRControllersInputCaptureSystem.cs:54-63 | with the intended detector every event agrees with the flag it leaves |
| WMRInput.MenuPressRaisesUnclick | VRSF_Hybrid/Assets/VRSF/Scripts/Core/Inputs/Systems/WMR/WMRControllersInputCaptureSystem.cs:54-58 | as written, a menu press from rest sets the flag but raises an unclick, which disagrees with the flag |
| WMRInput.MenuReleaseKeepsFlag | VRSF_Hybrid/Assets/VRSF/Scripts/Core/Inputs/Systems/WMR/WMRControllersInputCaptureSystem.cs:59-63 | as written, releasing the menu leaves the flag set, where the intended detector clears it |
| WMRInput.FlagFollowsLastEvent | VRSF_Hybrid/Assets/VRSF/Scripts/Core/Inputs/Systems/WMR/WMRControllersInputCaptureSystem.cs:51-84 | with the intended detector the flag after a run is what the last event says, and every event is this hand's menu |
| WMRInput.FrameEventsAreUnclicks | VRSF_Hybrid/Assets/VRSF/Scripts/Core/Inputs/Systems/WMR/WMRControllersInputCaptureSystem.cs:22-39 | every event of a frame is a menu unclick, at most two per set-up entity |
| WMRInput.WMRControllersInputCaptureSystem.CheckRightControllerInput | VRSF_Hybrid/Assets/VRSF/Scripts/Core/Inputs/Systems/WMR/WMRControllersInputCaptureSystem.cs:51-65 | only the right flag changes, as MenuStepAsWritten prescribes for the right hand |
| WMRInput.WMRControllersInputCaptureSystem.CheckLeftControllerInput | VRSF_Hybrid/Assets/VRSF/Scripts/Core/Inputs/Systems/WMR/WMRControllersInputCaptureSystem.cs:70-84 | only the left flag changes, as MenuStepAsWritten prescribes for the left hand |
| WMRInput.WMRControllersInputCaptureSystem.CheckEntity | VRSF_Hybrid/Assets/VRSF/Scripts/Core/Inputs/Systems/WMR/WMRControllersInputCaptureSystem.cs:29-36 | a set-up entity checks the right then the left controller; one not set up is unchanged |
| WMRInput.WMRControllersInputCaptureSystem.OnUpdate | VRSF_Hybrid/Assets/VRSF/Scripts/Core/Inputs/Systems/WMR/WMRControllersInputCaptureSystem.cs:22-39 | only with controllers in use and only for set-up entities; the flags and events follow the as-written detector |
| WMRInput.WMRControllersInputCaptureSystem.CheckEntities | VRSF_Hybrid/Assets/VRSF/Scripts/Core/Inputs/Systems/WMR/WMRControllersInputCaptureSystem.cs:27-37 | each entity's flags and the frame's events follow the as-written detector for set-up entities |
| WMRInput.WMRControllersInputCaptureSystem.CheckDevice | VRSF_Hybrid/Assets/VRSF/Scripts/Core/Inputs/Systems/WMR/WMRControllersInputCaptureSystem.cs:86-89 | enabled iff the device is WMR |
| ControllerInputToSO.GetClickVariableFor | VRSF_Hybrid/Assets/VRSF/Scripts/Utils/Static_Class/ControllerInputToSO.cs:6-38 | a click variable name exactly for TRIGGER, GRIP, MENU, THUMBSTICK, A/B/X/Y and BACK_BUTTON; null for every other button |
| ControllerInputToSO.GetTouchVariableFor | VRSF_Hybrid/Assets/VRSF/Scripts/Utils/Static_Class/ControllerInputToSO.cs:41-67 | a touch variable name exactly for TRIGGER, THUMBSTICK, A/B/X/Y and THUMBREST; null for every other button |
| ControllerInputToSO.ClickNamesFollowStem | VRSF_Hybrid/Assets/VRSF/Scripts/Utils/Static_Class/ControllerInputToSO.cs:8-37 | every click name is the button's stem followed by IsDown |
| ControllerInputToSO.FaceClickNamesFollowStem | VRSF_Hybrid/Assets/VRSF/Scripts/Utils/Static_Class/ControllerInputToSO.cs:22-29 | the same for the four face buttons |
| ControllerInputToSO.ClickNamesEndWithIsDown | VRSF_Hybrid/Assets/VRSF/Scripts/Utils/Static_Class/ControllerInputToSO.cs:10-32 | every defined click name ends in IsDown |
| ControllerInputToSO.TouchNamesFollowStem | VRSF_Hybrid/Assets/VRSF/Scripts/Utils/Static_Class/ControllerInputToSO.cs:43-66 | every touch name is the button's stem followed by IsTouching |
| ControllerInputToSO.FaceTouchNamesFollowStem | VRSF_Hybrid/Assets/VRSF/Scripts/Utils/Static_Class/ControllerInputToSO.cs:51-58 | the same for the four face buttons |
| ControllerInputToSO.TouchNamesEndWithIsTouching | VRSF_Hybrid/Assets/VRSF/Scripts/Utils/Static_Class/ControllerInputToSO.cs:45-61 | every defined touch name ends in IsTouching |
| ControllerInputToSO.ClickNamesInjective | VRSF_Hybrid/Assets/VRSF/Scripts/Utils/Static_Class/ControllerInputToSO.cs:10-32 | two buttons never share a click name |
| ControllerInputToSO.TouchNamesInjective | VRSF_Hybrid/Assets/VRSF/Scripts/Utils/Static_Class/ControllerInputToSO.cs:45-61 | two buttons never share a touch name |
| ControllerInputToSO.ClickAndTouchNamesDiffer | VRSF_Hybrid/Assets/VRSF/Scripts/Utils/Static_Class/ControllerInputToSO.cs:6-67 | no click name is a touch name |
| ControllerInputToSO.ClickOnlyAndTouchOnly | VRSF_Hybrid/Assets/VRSF/Scripts/Utils/Static_Class/ControllerInputToSO.cs:13-61 | GRIP, MENU and BACK_BUTTON have a click name and no touch name; THUMBREST has a touch name and no click name |
| BACGeneral.AddListener | VRSF_Hybrid/Assets/VRSF/Scripts/MoveAround/Teleport/Systems/SBS_Teleporter/StepByStepSystem.cs:62-69 | the delegate is appended to that event, duplicates included; other events are unchanged |
| BACGeneral.RemoveAllListeners | VRSF_Hybrid/Assets/VRSF/Scripts/MoveAround/Teleport/Systems/SBS_Teleporter/StepByStepSystem.cs:78-85 | that event is left with no listener; other events are unchanged |
| BACGeneral.Without | VRSF_Hybrid/Assets/VRSF/Scripts/MoveAround/Teleport/Systems/LongRangeTeleporter/LongRangeTeleportSystem.cs:78-87 | every occurrence of the delegate is dropped and the others are kept; a list without it is unchanged |
| BACGeneral.RemoveListener | VRSF_Hybrid/Assets/VRSF/Scripts/MoveAround/Teleport/Systems/LongRangeTeleporter/LongRangeTeleportSystem.cs:78-87 | the delegate is no longer registered on that event, the others are; other events are unchanged |
| BACGeneral.BACGeneralComponent.constructor | VRSF_Hybrid/Assets/VRSF/Scripts/Utils/Components/ButtonActionChoser/BACGeneralComponent.cs:11-41 | interaction type, hand, action button and the four thumb positions start at NONE, the gaze button off, both thresholds 0.5, no listener |
| BACEditor.Verdict | VRSF_Hybrid/Assets/VRSF/Scripts/Core/Utils/Editor/BACComponentsEditor.cs:154-156 | a verdict sets ParametersAreInvalid and hides both thumb panels, configuration unchanged |
| BACEditor.ShowThumbPosition | VRSF_Hybrid/Assets/VRSF/Scripts/Core/Utils/Editor/BACComponentsEditor.cs:267-308 | the thumb position of the given kind is edited for the left or right hand only, that hand's panel is marked shown, and the kind's threshold is edited whatever the hand |
| BACEditor.TouchCheck | VRSF_Hybrid/Assets/VRSF/Scripts/Core/Utils/Editor/BACComponentsEditor.cs:144-177 | keeps the interaction type, hand, gaze choice and button (the verdicts are stated by TouchVerdicts) |
| BACEditor.ClickCheck | VRSF_Hybrid/Assets/VRSF/Scripts/Core/Utils/Editor/BACComponentsEditor.cs:179-234 | keeps the interaction type, hand, gaze choice and button (the verdicts are stated by ClickVerdicts) |
| BACEditor.TouchVerdicts | VRSF_Hybrid/Assets/VRSF/Scripts/Core/Utils/Editor/BACComponentsEditor.cs:146-176 | A/B/X/Y/THUMBREST are valid; NONE and every other button but the thumbstick are invalid, configuration unchanged |
| BACEditor.ClickVerdicts | VRSF_Hybrid/Assets/VRSF/Scripts/Core/Utils/Editor/BACComponentsEditor.cs:181-233 | THUMBREST and NONE are invalid; MENU is valid for the right hand and leaves everything unchanged for another; every other non-thumbstick button is valid |
| BACEditor.AllClickVerdictWins | VRSF_Hybrid/Assets/VRSF/Scripts/Core/Utils/Editor/BACComponentsEditor.cs:121-125 | with ALL the click verdict wins, except MENU with a hand other than right, which stays invalid from the touch check |
| BACEditor.ThumbPosCheck | VRSF_Hybrid/Assets/VRSF/Scripts/Core/Utils/Editor/BACComponentsEditor.cs:347-379 | a shown left panel decides; the right panel only when the left is hidden; invalid iff a thumb position the type requires is NONE (both for ALL) |
| BACEditor.ButtonCheck | VRSF_Hybrid/Assets/VRSF/Scripts/Core/Utils/Editor/BACComponentsEditor.cs:111-132 | keeps the interaction type, hand and gaze choice (the verdicts are stated by the lemmas on the checks) |
| BACEditor.Select | VRSF_Hybrid/Assets/VRSF/Scripts/Core/Utils/Editor/BACComponentsEditor.cs:79-96 | the interaction type and hand are written back; the gaze button stays on only with both gaze and controllers in use |
| BACEditor.Decide | VRSF_Hybrid/Assets/VRSF/Scripts/Core/Utils/Editor/BACComponentsEditor.cs:98-133 | keeps the interaction type, hand and gaze choice (the verdicts are stated by the lemmas on the checks) |
| BACEditor.NoneTypeStops | VRSF_Hybrid/Assets/VRSF/Scripts/Core/Utils/Editor/BACComponentsEditor.cs:317-329 | a NONE interaction type marks the configuration invalid and nothing else is read or written |
| BACEditor.NoHandStops | VRSF_Hybrid/Assets/VRSF/Scripts/Core/Utils/Editor/BACComponentsEditor.cs:332-344 | a NONE hand marks it invalid and nothing after the hand is read or written |
| BACEditor.GazeButtonNeedsBoth | VRSF_Hybrid/Assets/VRSF/Scripts/Core/Utils/Editor/BACComponentsEditor.cs:88-96 | the gaze button is forced off unless both gaze and controllers are in use |
| BACEditor.FreshComponentIsInvalid | VRSF_Hybrid/Assets/VRSF/Scripts/Core/Utils/Editor/BACComponentsEditor.cs:317-329 | a freshly added component, whose interaction type is NONE, fails validation |
| BACEditor.ShowTwice | VRSF_Hybrid/Assets/VRSF/Scripts/Core/Utils/Editor/BACComponentsEditor.cs:267-308 | showing a thumb panel twice shows it once |
| BACEditor.ShowKeepsVerdict | VRSF_Hybrid/Assets/VRSF/Scripts/Core/Utils/Editor/BACComponentsEditor.cs:267-308 | showing a panel does not read or change the verdict |
| BACEditor.ShowCommutes | VRSF_Hybrid/Assets/VRSF/Scripts/Core/Utils/Editor/BACComponentsEditor.cs:267-308 | the touch and click panels are shown independently |
| BACEditor.ThumbFacts | VRSF_Hybrid/Assets/VRSF/Scripts/Core/Utils/Editor/BACComponentsEditor.cs:347-379 | the thumb check only sets the verdict, is idempotent, and overrides the verdict exactly when a panel is shown |
| BACEditor.ShowThenThumbIdempotent | VRSF_Hybrid/Assets/VRSF/Scripts/Core/Utils/Editor/BACComponentsEditor.cs:267-379 | for a thumbstick, showing the panel then the thumb check is idempotent |
| BACEditor.ShowBothThenThumbIdempotent | VRSF_Hybrid/Assets/VRSF/Scripts/Core/Utils/Editor/BACComponentsEditor.cs:121-125 | the same for ALL, touch panel then click panel |
| BACEditor.VerdictThenThumbIdempotent | VRSF_Hybrid/Assets/VRSF/Scripts/Core/Utils/Editor/BACComponentsEditor.cs:127-135 | a verdict followed by the thumb check is idempotent |
| BACEditor.HiddenThenThumbIdempotent | VRSF_Hybrid/Assets/VRSF/Scripts/Core/Utils/Editor/BACComponentsEditor.cs:154-156 | a verdict that hides both panels followed by the thumb check is idempotent |
| BACEditor.DecideIdempotent | VRSF_Hybrid/Assets/VRSF/Scripts/Core/Utils/Editor/BACComponentsEditor.cs:98-135 | deciding twice, each time followed by the thumb check, decides once |
| BACEditor.TouchIdempotent | VRSF_Hybrid/Assets/VRSF/Scripts/Core/Utils/Editor/BACComponentsEditor.cs:113-114 | for TOUCH, the touch check then the thumb check is idempotent |
| BACEditor.ClickIdempotent | VRSF_Hybrid/Assets/VRSF/Scripts/Core/Utils/Editor/BACComponentsEditor.cs:117-118 | for CLICK, the click check then the thumb check is idempotent |
| BACEditor.AllIdempotent | VRSF_Hybrid/Assets/VRSF/Scripts/Core/Utils/Editor/BACComponentsEditor.cs:121-125 | for ALL, both checks then the thumb check is idempotent |
| BACEditor.AllThumbstickIdempotent | VRSF_Hybrid/Assets/VRSF/Scripts/Core/Utils/Editor/BACComponentsEditor.cs:121-125 | for ALL with the thumbstick, both panels shown then the thumb check is idempotent |
| BACEditor.AllLeftMenuIdempotent | VRSF_Hybrid/Assets/VRSF/Scripts/Core/Utils/Editor/BACComponentsEditor.cs:121-125 | for ALL with MENU on a hand other than right the invalid touch verdict stays, and a second pass agrees |
| BACEditor.AllOtherIdempotent | VRSF_Hybrid/Assets/VRSF/Scripts/Core/Utils/Editor/BACComponentsEditor.cs:121-125 | for ALL with any other button the click verdict wins, and a second pass agrees |
| BACEditor.RepaintIsIdempotent | VRSF_Hybrid/Assets/VRSF/Scripts/Core/Utils/Editor/BACComponentsEditor.cs:66-142 | repainting the inspector with no edit changes nothing |
| BACEditor.UnknownTypePassesWithStalePanel | VRSF_Hybrid/Assets/VRSF/Scripts/Core/Utils/Editor/BACComponentsEditor.cs:127-135 | as written, an unknown type is invalid with its button cleared, but a panel left shown by an earlier pass makes it valid |
| BACEditor.RightThumbstickJudgedByLeftPanel | VRSF_Hybrid/Assets/VRSF/Scripts/Core/Utils/Editor/BACComponentsEditor.cs:349-364 | as written, a right-hand thumbstick click without a right thumb position is valid when an earlier pass left the left panel shown |
| BACEditor.IntendedPassVerdicts | VRSF_Hybrid/Assets/VRSF/Scripts/Core/Utils/Editor/BACComponentsEditor.cs:66-142 | with the intended pass the gaze button is valid and an unknown type invalid with its button cleared, whatever earlier passes showed |
| BACEditor.IntendedThumbstickVerdict | VRSF_Hybrid/Assets/VRSF/Scripts/Core/Utils/Editor/BACComponentsEditor.cs:347-379 | with the intended pass a thumbstick is invalid exactly when its own hand lacks a thumb position the type requires |
| BACEditor.IntendedAgreesWithoutPanels | VRSF_Hybrid/Assets/VRSF/Scripts/Core/Utils/Editor/BACComponentsEditor.cs:66-142 | with no panel shown before, the intended pass and the pass as written agree |
| BACEditor.BACComponentsEditor.DisplayThumbPosition | VRSF_Hybrid/Assets/VRSF/Scripts/Core/Utils/Editor/BACComponentsEditor.cs:267-308 | the component and the panel flags end as ShowThumbPosition prescribes; listeners unchanged |
| BACEditor.BACComponentsEditor.SetVerdict | VRSF_Hybrid/Assets/VRSF/Scripts/Core/Utils/Editor/BACComponentsEditor.cs:154-156 | the verdict is stored and both panel flags are cleared |
| BACEditor.BACComponentsEditor.HandleTouchDisplay | VRSF_Hybrid/Assets/VRSF/Scripts/Core/Utils/Editor/BACComponentsEditor.cs:144-177 | the component, verdict and panel flags end as TouchCheck prescribes |
| BACEditor.BACComponentsEditor.HandleClickDisplay | VRSF_Hybrid/Assets/VRSF/Scripts/Core/Utils/Editor/BACComponentsEditor.cs:179-234 | the component, verdict and panel flags end as ClickCheck prescribes |
| BACEditor.BACComponentsEditor.CheckThumbPos | VRSF_Hybrid/Assets/VRSF/Scripts/Core/Utils/Editor/BACComponentsEditor.cs:347-379 | the verdict ends as ThumbPosCheck prescribes |
| BACEditor.BACComponentsEditor.CheckActionButton | VRSF_Hybrid/Assets/VRSF/Scripts/Core/Utils/Editor/BACComponentsEditor.cs:98-133 | the component, verdict and panel flags end as Decide prescribes |
| BACEditor.BACComponentsEditor.OnInspectorGUI | VRSF_Hybrid/Assets/VRSF/Scripts/Core/Utils/Editor/BACComponentsEditor.cs:66-142 | the component, verdict and panel flags end as one pass as written (InspectorPass) prescribes |
| PointerColor.GetControllerColor | VRSF_Hybrid/Assets/VRSF/Scripts/Controllers/Systems/PointerColorSystems.cs:95-116 | the right or left hand's on/off/selectable colours; any other hand leaves all three white |
| PointerColor.NextPointerState | VRSF_Hybrid/Assets/VRSF/Scripts/Controllers/Systems/PointerColorSystems.cs:66-84 | OFF stays OFF and no other state becomes OFF; otherwise SELECTABLE exactly when the ray is over something, ON when it is not |
| PointerColor.CheckPointerState | VRSF_Hybrid/Assets/VRSF/Scripts/Controllers/Systems/PointerColorSystems.cs:58-85 | the new state is NextPointerState; a colour is written exactly when the state changes or is OFF, and it is the hand's colour for the new state |
| PointerColor.CheckPointerStateIdempotent | VRSF_Hybrid/Assets/VRSF/Scripts/Controllers/Systems/PointerColorSystems.cs:58-85 | for a fixed isOver, a second call keeps the state and writes no colour other than the first call's |
| PointerColor.PointerRunFollowsLastRay | VRSF_Hybrid/Assets/VRSF/Scripts/Controllers/Systems/PointerColorSystems.cs:66-84 | after a run of frames from a state other than OFF the pointer is SELECTABLE iff the last ray was over something; OFF stays OFF |
| PointerColor.Paint | VRSF_Hybrid/Assets/VRSF/Scripts/Controllers/Systems/PointerColorSystems.cs:145-149 | an assigned image takes the colour; a missing one stays missing |
| PointerColor.SetGazeColorState | VRSF_Hybrid/Assets/VRSF/Scripts/Controllers/Systems/PointerColorSystems.cs:140-173 | the gaze state follows NextPointerState; on a change, or in OFF, each assigned reticle image takes the new state's colour; otherwise the reticle is unchanged |
| PointerColor.ResetReticle | VRSF_Hybrid/Assets/VRSF/Scripts/Controllers/Systems/PointerColorSystems.cs:128-134 | each assigned reticle image takes its reticle colour, each missing one stays missing |
| PointerColor.TargetResetGuardedByBackground | VRSF_Hybrid/Assets/VRSF/Scripts/Controllers/Systems/PointerColorSystems.cs:130-133 | as written, a target without background keeps its colour and a background without target dereferences null |
| PointerColor.ResetAgreesOnMatchingImages | VRSF_Hybrid/Assets/VRSF/Scripts/Controllers/Systems/PointerColorSystems.cs:130-133 | with both images or neither, the as-written reset completes and paints what the intended one paints |
| PointerColor.ResetReticleAsWritten | VRSF_Hybrid/Assets/VRSF/Scripts/Controllers/Systems/PointerColorSystems.cs:130-133 | the as-written reset throws exactly on a background without a target |
| PointerColor.ResetWrites | VRSF_Hybrid/Assets/VRSF/Scripts/Controllers/Systems/PointerColorSystems.cs:130-133 | the images after the as-written reset: what it paints when it completes; on the throw, the background painted and the target still missing |
| PointerColor.FirstFault | VRSF_Hybrid/Assets/VRSF/Scripts/Controllers/Systems/PointerColorSystems.cs:19-40 | the first entity from i on whose update throws (set up, gaze used, no gaze states, a background without a target); no entity before it throws, and it is the number of entities when none does |
| PointerColor.Ran | VRSF_Hybrid/Assets/VRSF/Scripts/Controllers/Systems/PointerColorSystems.cs:19-40 | the entities a frame reaches: all of them exactly when none throws before the last |
| PointerColor.SharedAfterStep | VRSF_Hybrid/Assets/VRSF/Scripts/Controllers/Systems/PointerColorSystems.cs:19-40 | one more entity's update takes the shared states after k entities to those after k+1 |
| PointerColor.ReplayIsSharedAfter | VRSF_Hybrid/Assets/VRSF/Scripts/Controllers/Systems/PointerColorSystems.cs:19-40 | however many entities update the shared states, each pointer ends at most one state-machine step on, taken when some entity updated it |
| PointerColor.ShownAfterAt | VRSF_Hybrid/Assets/VRSF/Scripts/Controllers/Systems/PointerColorSystems.cs:19-40 | entity i shows what the states it found, after i entities, called for |
| PointerColor.PointerColorSystems.CheckGazeState | VRSF_Hybrid/Assets/VRSF/Scripts/Controllers/Systems/PointerColorSystems.cs:121-135 | with gaze states the reticle and gaze state follow SetGazeColorState; without, the gaze state is untouched, the reticle ends as ResetWrites and the call throws exactly on a background without a target |
| PointerColor.PointerColorSystems.CheckEntity | VRSF_Hybrid/Assets/VRSF/Scripts/Controllers/Systems/PointerColorSystems.cs:22-39 | nothing unless set up; hand states only with UseControllers, gaze only with UseGaze; the shared states take one more replay step; it throws exactly when the entity faults |
| PointerColor.PointerColorSystems.CheckEntityAt | VRSF_Hybrid/Assets/VRSF/Scripts/Controllers/Systems/PointerColorSystems.cs:19-40 | one more entity takes the loop's state from k entities to k+1, and the result says whether that entity threw |
| PointerColor.PointerColorSystems.OnUpdate | VRSF_Hybrid/Assets/VRSF/Scripts/Controllers/Systems/PointerColorSystems.cs:17-41 | the frame reaches the entities up to and including the first that throws; the shared states end as the replay over those, each of them shows what the states it found called for, the entities after a throw are untouched, and the result says whether one threw |
| PointerColor.PointerColorSystems.CheckEntities | VRSF_Hybrid/Assets/VRSF/Scripts/Controllers/Systems/PointerColorSystems.cs:19-40 | the same, for the loop over the entities, which a throw leaves |
| ColliderOverGaze.HandleOver | VRSF_Hybrid/Assets/VRSF/Scripts/Gaze/Systems/OnColliderOverGazeSystem.cs:50-69 | leaving (over and a null hit) clears over and the remembered transform and raises one hover with null; a live hit on a transform other than the remembered one remembers it, sets over and raises one hover; otherwise nothing; every event names the transform remembered afterwards |
| ColliderOverGaze.HandleOverKeepsConsistent | VRSF_Hybrid/Assets/VRSF/Scripts/Gaze/Systems/OnColliderOverGazeSystem.cs:53-68 | a remembered transform always means over |
| ColliderOverGaze.HandleOverIdempotent | VRSF_Hybrid/Assets/VRSF/Scripts/Gaze/Systems/OnColliderOverGazeSystem.cs:61 | handling the same hit twice: the second time changes nothing and raises nothing |
| ColliderOverGaze.SteadyGazeHoversOnce | VRSF_Hybrid/Assets/VRSF/Scripts/Gaze/Systems/OnColliderOverGazeSystem.cs:60-68 | looking at the same live transform for n frames leaves the gaze over it and raises one hover, or none if it was already remembered |
| ColliderOverGaze.LastEventNamesPrevious | VRSF_Hybrid/Assets/VRSF/Scripts/Gaze/Systems/OnColliderOverGazeSystem.cs:53-68 | over any run the last hover event names the transform remembered at the end; no event means no change |
| ColliderOverGaze.OnColliderOverGazeSystem.HandleOverStep | VRSF_Hybrid/Assets/VRSF/Scripts/Gaze/Systems/OnColliderOverGazeSystem.cs:50-69 | the hover state and events end as HandleOver prescribes |
| ColliderOverGaze.OnColliderOverGazeSystem.OnUpdate | VRSF_Hybrid/Assets/VRSF/Scripts/Gaze/Systems/OnColliderOverGazeSystem.cs:30-42 | with the gaze in use and some entity checking its raycast the frame acts as one HandleOver; otherwise nothing |
| ColliderOverRight.HandleOver | VRSF_Hybrid/Assets/VRSF/Scripts/VRInteraction/Systems/OnColliderOver/OnColliderOverRightSystem.cs:36-51 | a null hit clears the flag and raises nothing; a live collider sets it and raises its transform; a dead collider changes nothing |
| ColliderOverRight.HandleOverAgain | VRSF_Hybrid/Assets/VRSF/Scripts/VRInteraction/Systems/OnColliderOver/OnColliderOverRightSystem.cs:44-50 | handling the same hit again gives the same flag and the same events: no de-duplication |
| ColliderOverRight.EveryLiveHitRaises | VRSF_Hybrid/Assets/VRSF/Scripts/VRInteraction/Systems/OnColliderOver/OnColliderOverRightSystem.cs:36-51 | over a run every live hit raises its transform, in order, and the flag follows the last non-dead hit |
| ColliderOverRight.OnColliderOverRightSystem.HandleOverStep | VRSF_Hybrid/Assets/VRSF/Scripts/VRInteraction/Systems/OnColliderOver/OnColliderOverRightSystem.cs:36-51 | the flag and events end as HandleOver prescribes |
| ColliderOverRight.OnColliderOverRightSystem.OnUpdate | VRSF_Hybrid/Assets/VRSF/Scripts/VRInteraction/Systems/OnColliderOver/OnColliderOverRightSystem.cs:16-25 | each entity set up, with controllers in use and raycast checked, handles the hit once: its events repeat once per such entity |
| GazeClick.CheckResetClick | VRSF_Hybrid/Assets/VRSF/Scripts/Gaze/Systems/OnColliderGazeClickSystem.cs:44-48 | the click flag is false whenever the gaze is used and not clicking; otherwise unchanged |
| GazeClick.ResetDisablesClick | VRSF_Hybrid/Assets/VRSF/Scripts/Gaze/Systems/OnColliderGazeClickSystem.cs:28-33 | after the reset the HandleClick guard never holds, and a second reset keeps the flag |
| GazeClick.HandleClick | VRSF_Hybrid/Assets/VRSF/Scripts/Gaze/Systems/OnColliderGazeClickSystem.cs:56-70 | a null hit clears the flag; a live hit sets it and raises one click with the gaze hand; a dead collider sets it and throws |
| GazeClick.OnColliderGazeClickSystem.CheckResetClickStep | VRSF_Hybrid/Assets/VRSF/Scripts/Gaze/Systems/OnColliderGazeClickSystem.cs:44-48 | the flag ends as CheckResetClick prescribes |
| GazeClick.OnColliderGazeClickSystem.HandleClickStep | VRSF_Hybrid/Assets/VRSF/Scripts/Gaze/Systems/OnColliderGazeClickSystem.cs:56-70 | the flag and events end as HandleClick prescribes |
| GazeClick.OnColliderGazeClickSystem.OnUpdate | VRSF_Hybrid/Assets/VRSF/Scripts/Gaze/Systems/OnColliderGazeClickSystem.cs:21-36 | no click event is ever raised; the flag is reset as CheckResetClick says once some entity runs, and it is untouched while the gaze is clicking |
| FlyForward.CalculateFlyForward | VRSF_Hybrid/Assets/VRSF/Scripts/MoveAround/Fly/Systems/FlyForwardSystem.cs:37-47 | FlyForward iff thumb y >= 0 (zero counts as forward); WantToFly set; the timer reset to 0 only on the first call |
| FlyForward.FlyRunRestartsTimerOnce | VRSF_Hybrid/Assets/VRSF/Scripts/MoveAround/Fly/Systems/FlyForwardSystem.cs:37-47 | over an interaction the timer is reset only if the user was not already flying, WantToFly stays set and the direction follows the last sample |
| FlyForward.FlyForwardSystem.CalculateFlyForwardStep | VRSF_Hybrid/Assets/VRSF/Scripts/MoveAround/Fly/Systems/FlyForwardSystem.cs:37-47 | the component ends as CalculateFlyForward prescribes |
| FlyForward.FlyForwardSystem.OnUpdate | VRSF_Hybrid/Assets/VRSF/Scripts/MoveAround/Fly/Systems/FlyForwardSystem.cs:20-29 | only interacting entities are updated, each as CalculateFlyForward prescribes |
| CameraRotation.HandleRotationWithAcceleration | VRSF_Hybrid/Assets/VRSF/Scripts/MoveAround/Rotation/Systems/CameraRotationWithAccelerationSystem.cs:80-108 | on UI nothing changes; the thumb x is recorded only while rotating; the speed grows by dt*MaxSpeed/50 iff rotating below MaxSpeed/20 and otherwise falls by it with no clamp; the rig turns exactly when the new speed is positive |
| CameraRotation.ReleasedSpeedFallsUnclamped | VRSF_Hybrid/Assets/VRSF/Scripts/MoveAround/Rotation/Systems/CameraRotationWithAccelerationSystem.cs:86-98 | once released the speed keeps falling, below zero, and the rig stops turning |
| CameraRotation.HeldSpeedStaysNearCap | VRSF_Hybrid/Assets/VRSF/Scripts/MoveAround/Rotation/Systems/CameraRotationWithAccelerationSystem.cs:86-98 | while held the speed never exceeds the cap by more than one step |
| CameraRotation.InitStop | VRSF_Hybrid/Assets/VRSF/Scripts/MoveAround/Rotation/Systems/CameraRotationWithAccelerationSystem.cs:110-126 | Init passes exactly the leading entities without the acceleration effect whose button is the touchpad, and stops at the first other one |
| CameraRotation.AsWrittenNeverWiresLiveEvents | VRSF_Hybrid/Assets/VRSF/Scripts/MoveAround/Rotation/Systems/CameraRotationWithAccelerationSystem.cs:45-61 | as written, an existing held-click event never gets the handler, and a CLICK entity whose held-click event is missing fails with a null reference |
| CameraRotation.SetupWiresSelectedEvents | VRSF_Hybrid/Assets/VRSF/Scripts/MoveAround/Rotation/Systems/CameraRotationWithAccelerationSystem.cs:45-76 | with the intended guard the handler is added once to each selected held event and nothing else, and RemoveListeners then empties exactly those events |
| CameraRotation.CameraRotationComponent.constructor | VRSF_Hybrid/Assets/VRSF/Scripts/MoveAround/Rotation/Components/CameraRotationComponent.cs:10-14 | MaxSpeed 1, the acceleration effect on, current speed 0 |
| CameraRotation.CameraRotationWithAccelerationSystem.HandleRotationStep | VRSF_Hybrid/Assets/VRSF/Scripts/MoveAround/Rotation/Systems/CameraRotationWithAccelerationSystem.cs:80-108 | the component ends, and the rig rotation is returned, as HandleRotationWithAcceleration prescribes |
| CameraRotation.SetupListenersAsWritten | VRSF_Hybrid/Assets/VRSF/Scripts/MoveAround/Rotation/Systems/CameraRotationWithAccelerationSystem.cs:45-61 | as written, the setup throws exactly when OnButtonIsClicking is null and the entity selects CLICK, or selects TOUCH with OnButtonIsTouching null too; otherwise the only listener it can add is the handler on the touching event, and only when OnButtonIsClicking is null; every other event keeps its listeners |
| CameraRotation.RemoveRotationListeners | VRSF_Hybrid/Assets/VRSF/Scripts/MoveAround/Rotation/Systems/CameraRotationWithAccelerationSystem.cs:63-76 | the held-click event is emptied iff the entity selects CLICK, the held-touch event iff it selects TOUCH, and every other event keeps its listeners |
| CameraRotation.RemoveUndoesSetupAsWritten | VRSF_Hybrid/Assets/VRSF/Scripts/MoveAround/Rotation/Systems/CameraRotationWithAccelerationSystem.cs:45-76 | when the setup as written does not throw, setting up and then removing leaves every event with the listeners that removing alone leaves |
| CameraRotation.Entries | VRSF_Hybrid/Assets/VRSF/Scripts/MoveAround/Rotation/Systems/CameraRotationWithAccelerationSystem.cs:112-124 | the entry of each entity holds its acceleration flag, its action button and whether its setup throws |
| CameraRotation.CameraRotationWithAccelerationSystem.SetupListenersResponses | VRSF_Hybrid/Assets/VRSF/Scripts/MoveAround/Rotation/Systems/CameraRotationWithAccelerationSystem.cs:45-61 | `faulted` iff the setup as written throws; otherwise the BAC's listener table becomes the one SetupListenersAsWritten gives, and on a fault it is unchanged |
| CameraRotation.CameraRotationWithAccelerationSystem.RemoveListeners | VRSF_Hybrid/Assets/VRSF/Scripts/MoveAround/Rotation/Systems/CameraRotationWithAccelerationSystem.cs:63-76 | `faulted` iff a selected held event is null; without a fault the table becomes RemoveRotationListeners of the old one; on a fault only the held-click event has been emptied, and only when CLICK is selected and that event exists |
| CameraRotation.CameraRotationWithAccelerationSystem.InitEntity | VRSF_Hybrid/Assets/VRSF/Scripts/MoveAround/Rotation/Systems/CameraRotationWithAccelerationSystem.cs:112-124 | one pass on entity k: it stops iff the entry does not pass, faults iff it stopped with the touchpad and no acceleration effect, marks the entity unusable iff its button is not the touchpad, and otherwise wires it as written and moves the loop state to k+1 |
| CameraRotation.CameraRotationWithAccelerationSystem.Init | VRSF_Hybrid/Assets/VRSF/Scripts/MoveAround/Rotation/Systems/CameraRotationWithAccelerationSystem.cs:110-126 | the entities before InitStop of the starting entries are set up as written, in order, each with its own index as handler, and keep their CanBeUsed; `faulted` iff the loop stopped at a touchpad entity without acceleration effect, whose setup threw; the stopping entity loses CanBeUsed iff its button is not the touchpad; every later entity keeps its listener table and CanBeUsed |
| CoreSetupVR.RigPositionAfter | VRSF_Hybrid/Assets/VRSF/Scripts/Core/SetupVR/Static_Class/VRSF_Components.cs:62-75 | without offset and with setYPos the rig is exactly newPos; with the offset x = rig.x + newPos.x - cam.x and z likewise; y is newPos.y, or the rig's own y without setYPos |
| CoreSetupVR.OffsetPutsCameraOnTarget | VRSF_Hybrid/Assets/VRSF/Scripts/Core/SetupVR/Static_Class/VRSF_Components.cs:68-74 | with the offset the camera lands above newPos in x and z |
| CoreSetupVR.ReadyFrom | VRSF_Hybrid/Assets/VRSF/Scripts/Core/SetupVR/Static_Class/VRSF_Components.cs:80-88 | ready needs the rig and the camera, and both controllers when controllers are used; without controllers it is exactly rig and camera; with all four objects it is ready |
| CoreSetupVR.VRSFComponents.constructor | VRSF_Hybrid/Assets/VRSF/Scripts/Core/SetupVR/Static_Class/VRSF_Components.cs:13-28 | no rig, camera or controllers yet, device NULL, not ready, both positions at the origin |
| CoreSetupVR.VRSFComponents.SetSetupVRIsReady | VRSF_Hybrid/Assets/VRSF/Scripts/Core/SetupVR/Static_Class/VRSF_Components.cs:91 | the setter writes only the private field and the getter is unchanged |
| CoreSetupVR.VRSFComponents.SetCameraRigPosition | VRSF_Hybrid/Assets/VRSF/Scripts/Core/SetupVR/Static_Class/VRSF_Components.cs:62-75 | the rig ends at RigPositionAfter |
| UtilsSetupVR.RigPositionAfter | VRSF_Hybrid/Assets/VRSF/Scripts/SetupVR/Static_Class/VRSF_Components.cs:72-78 | x and z from newPos; with setYPos exactly newPos, otherwise the rig's own y |
| UtilsSetupVR.UserHeightIgnored | VRSF_Hybrid/Assets/VRSF/Scripts/SetupVR/Static_Class/VRSF_Components.cs:72-78 | the user height has no effect |
| UtilsSetupVR.StartPosition | VRSF_Hybrid/Assets/VRSF/Scripts/SetupVR/Static_Class/VRSF_Components.cs:58-62 | on OpenVR the rig plus the camera's local position lands on the target; otherwise the rig is the target |
| UtilsSetupVR.VRSFComponents.constructor | VRSF_Hybrid/Assets/VRSF/Scripts/SetupVR/Static_Class/VRSF_Components.cs:13-28 | no rig, camera or controllers yet, device NULL, not ready, both positions at the origin |
| UtilsSetupVR.VRSFComponents.SetSetupVRIsReady | VRSF_Hybrid/Assets/VRSF/Scripts/SetupVR/Static_Class/VRSF_Components.cs:94 | the setter writes only the private field and the getter is unchanged |
| UtilsSetupVR.VRSFComponents.SetCameraRigPosition | VRSF_Hybrid/Assets/VRSF/Scripts/SetupVR/Static_Class/VRSF_Components.cs:72-78 | the rig ends at RigPositionAfter |
| UtilsSetupVR.VRSFComponents.SetupTransformFromContainer | VRSF_Hybrid/Assets/VRSF/Scripts/SetupVR/Static_Class/VRSF_Components.cs:38-41 | only an instance tagged CameraRig moves the rig, to StartPosition |
| UtilsSetupVR.VRSFComponents.SetCameraRigPositionOnStart | VRSF_Hybrid/Assets/VRSF/Scripts/SetupVR/Static_Class/VRSF_Components.cs:58-62 | the rig ends at StartPosition |

## Left out

- Unity engine queries are parameters of the model:
  - `Input` axes and buttons;
  - raycast and linecast hits, and nav-mesh checks;
  - `LayerMask.NameToLayer`;
  - the BAC timer's readiness;
  - whether `InitializeValues` throws.
- The clock (`Time.deltaTime`, `Time.time`) is a parameter too.
- Floating-point numbers are `real`: rounding, NaN and infinities are not modelled.
- UnityEvents are a table from each BAC event to its listener list.
  - `AddListener` and `AddListenerExtend` append.
  - `RemoveListenerExtend` removes every occurrence of the delegate; its source is not part of this model.
  - Raised events are returned as a sequence, in raise order, instead of being broadcast.
- The interaction-type flags are taken as NONE = 0, TOUCH = 1, CLICK = 2 and ALL = 3, because the enum's declaration is not part of this model.
- Drawing: editor GUI layout, help boxes, warnings and the Unity events foldout are not modelled.
  - Each GUI field's edited value is an input (`gui`).
  - `ThumbKind` stands for `DisplayThumbPosition`'s interaction-type parameter, which is only ever TOUCH or CLICK.
- The transform hierarchy is not modelled.
  - Parenting, scale and rotation matrices are out.
  - A position is a `Vec3` and the rig's rotation a value passed back to the caller.
- The material colour write of `CheckPointerState` is returned as an optional colour rather than written into a renderer.
- The Bezier teleport layer is kept on the calculation component, while the source keeps it in the general teleport component. This does not change what is read or written.
- `TeleportUserSystem.SetTeleportState`'s body is not part of this model. It is taken to store the state in the entity's teleport component.
- The ECS scheduler is not modelled.
  - System ordering within a frame, `OnCreateManager` and `OnDestroyManager` are out.
  - The scene-loaded and VR-ready callbacks are methods the caller invokes.
- `SetupTransformFromContainer` of the Core copy of `VRSF_Components` is not part of this model.
- UI widgets, `PointerLength`, `ReticlePosition`, `OVRControllerSetup` and `SceneObjectsInit` are not part of this model.
- TeleportUser.TeleportUserSystem.OnUpdate: only for a single entity does its ensures state the whole frame (as `EntityFrame`). For several entities it states what each entity keeps and where the rig may end up, because entities can share a fade component and all share the rig.
- BACEditor.TouchCheck, BACEditor.ClickCheck, BACEditor.ButtonCheck and BACEditor.Decide: their own ensures only say that the selection is kept. The verdicts they reach are stated by `TouchVerdicts`, `ClickVerdicts`, `AllClickVerdictWins` and the idempotence lemmas.
- CrossplatformInput.CrossplatformRightInputCaptureSystem.CheckTrigger, CheckThumb, CheckGrip, CheckRightControllerInput and OnUpdate require the click and touch dictionaries to hold the keys they read. The source indexes those dictionaries directly, so a missing key throws `KeyNotFoundException`; that exception path is not modelled.
- TeleportUser.TeleportUserSystem.HandleTeleportingState, UpdateEntity and OnUpdate require a camera rig. The source moves the rig without a null check, so a missing rig throws; that path is not modelled. HandleTeleportingState also requires a fade component, which its only caller checks first.
- StepByStep.StepByStepSystem.TeleportUser, OnStartInteractingCallback and OnStopInteractingCallback require a camera rig whenever the target is on the nav mesh; the null-rig exception is not modelled.
- BezierSetup.BezierSetupSystem.TeleportUser and MoveRig require a camera rig (and, on the Oculus Rift, a VR camera) whenever ground or a limit was detected; the null-reference exception is not modelled.
- CoreSetupVR.VRSFComponents.SetCameraRigPosition, UtilsSetupVR.VRSFComponents.SetCameraRigPosition, SetupTransformFromContainer and SetCameraRigPositionOnStart require the camera rig (and the VR camera where they read it); the null-reference exception is not modelled.
- CameraRotation: whether a BAC's OnButtonIsClicking and OnButtonIsTouching events are null is an input to Init, SetupListenersResponses and RemoveListeners, not a state of the table.
- CameraRotation: `OnDestroyManager`'s loop over the entities is not modelled as a loop. RemoveListeners models one pass of it, on one entity.

## Findings

| source | as written | input that shows it | evidently intended | confidence | as-written member | corrected member |
|---|---|---|---|---|---|---|
| VRSF_Hybrid/Assets/VRSF/Scripts/Controllers/Systems/PointerColorSystems.cs:130-133 | the reticle target's colour reset is guarded by `GazeBackground != null` | a reticle with a target and no background keeps its old target colour; one with a background and no target dereferences null | each image guarded by its own null check | not executed | PointerColor.TargetResetGuardedByBackground | PointerColor.ResetReticle |
| VRSF_Hybrid/Assets/VRSF/Scripts/Core/Inputs/Systems/WMR/WMRControllersInputCaptureSystem.cs:54-63 | a menu press sets the click flag but raises `ButtonUnclickEvent`; the flag is cleared only by a grip-button release | menu pressed from rest: the flag is true, the event says unclick; menu released: the flag stays true | click raised on the menu press, unclick on the menu release, so the flag always agrees with the last event | not executed | WMRInput.MenuPressRaisesUnclick | WMRInput.FlagFollowsLastEvent |
| VRSF_Hybrid/Assets/VRSF/Scripts/Core/Utils/Editor/BACComponentsEditor.cs:127-135 | `_leftThumbPosIsShown` and `_rightThumbPosIsShown` persist across inspector passes and are not reset by the default or gaze branches before `CheckThumbPos` | an unknown interaction type after a pass that showed the left thumb panel is judged valid; a right-hand thumbstick click with no right thumb position is judged valid by the stale left panel | both panels hidden at the start of each pass, so each pass judges only what it shows | not executed | BACEditor.UnknownTypePassesWithStalePanel | BACEditor.IntendedPassVerdicts |
| VRSF_Hybrid/Assets/VRSF/Scripts/MoveAround/Rotation/Systems/CameraRotationWithAccelerationSystem.cs:49 | listeners are added only when `OnButtonIsClicking == null` | a BAC with a live `OnButtonIsClicking` never gets the rotation handler; a CLICK BAC whose event is null throws a null reference | `OnButtonIsClicking != null` | not executed | CameraRotation.AsWrittenNeverWiresLiveEvents | CameraRotation.SetupWiresSelectedEvents |
