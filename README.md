# Camera director, modelled in Dafny

A model of the `CameraDirector` class of the alt:V client script (`client.ts`;
`client.js` is its compiled JavaScript twin, with the same fields, methods and
control flow at other line numbers). The director is a small state machine over
five fields:

- `isDirectorMode`;
- `cameraPoints`, a list of at most ten saved poses;
- `camera`, the primary camera handle or null;
- `isPlayingSequence`;
- `cursorWasVisible`.

It drives the game engine through native calls:

- F5 enters or leaves free-fly director mode.
- H saves the camera's pose.
- O replays the saved poses through a chain of transient cameras.
- C clears the list.
- Every frame, held movement keys move the camera and the cursor offset turns it.

## Layout

All eight files form one program and are verified together, from this directory: `dafny verify *.dfy`. The proofs also fit a resource limit: `dafny verify --resource-limit 2000000 *.dfy`.

- `engine.dfy` (module `Engine`): the host engine as a class `Host`.
  - Every native or alt call with an effect is a method that appends an `Effect` to `trace`.
  - Camera creation returns `answer(k)` for the k-th creation, so any creation may return the falsy handle 0. `answer` is a parameter of the host.
  - Camera poses live in a map. An unknown handle reads as the zero pose.
  - Player position, held keys, cursor, screen size and cursor visibility are fields the director reads.
- `director_spec.dfy` (module `DirectorSpec`): the constants of the class, and one function per operation.
  - Each function goes from a snapshot `Sys` (the director's fields plus the host's) to the snapshot after the call.
  - The camera field is an `Option<int>`. `None` is null and `Some(0)` is the falsy handle left by a failed creation.
  - `Truthy` tests for a non-null, non-zero handle; the `null` tests compare with `None`.
- `camera_director.dfy` (module `Director`): the class `CameraDirector`, with the source's fields updated in place and its methods written as the source writes them.
  - playSequence's `for` loop is a `while` loop with invariants.
  - The per-frame `move` closure is a sequence of accumulator updates.
  - Every method that stands for a source method ensures `State() == DirectorSpec.Op(old(State()), ...)`:
    - the constructor is the exception, with its own initial state;
    - the four sections `Translate`, `Turn`, `RunWaypoints` and `ShowWaypoints` state their own contracts over the host's fields (see their rows).
- `traces.dfy` (module `Traces`): two readings of a trace.
  - `Keep`: the effects of one kind, in order.
  - `LiveAfter` and `FitsWithin`: the multiset of live camera handles after each effect, and a bound on it.
- `mode_props.dfy`, `waypoint_props.dfy`, `playback_props.dfy` and `freefly_props.dfy`: the properties of the four parts of the class, proved about the functions of `DirectorSpec`.

## Two details of the code the model keeps

- A failed entry into director mode emits `stateChanged` three times:
  - `true` in toggleDirectorMode (client.ts:40);
  - `false` in startDirectorMode's early return (client.ts:67-70);
  - `false` again in toggleDirectorMode's own check (client.ts:45-47).
- Failure is any falsy handle. Entry tests truthiness (`!this.camera`, client.ts:45, 67), so the handle 0 fails as well as null. The per-frame guard tests truthiness too (client.ts:82).
  - After a failed entry the field holds 0, not null.
  - The `=== null` and `!== null` tests (client.ts:127, 151, 227) would treat that 0 as a camera. A stop or a save never sees it: both run only in director mode, which a failed entry leaves off, and a successful entry overwrites the field (client.ts:58). `ModeProperties.KeyUpKeepsOwnership` and `ModeProperties.TickKeepsOwnership` prove that the mode always holds a truthy handle.
  - Only a playback suspended across a toggle-off and a failed toggle-on would hand back to 0 (client.ts:227-229). That interleaving is not modelled (see "Left out").

## Model

| member | source | states |
|---|---|---|
| Director.CameraDirector.constructor | client.ts:9-23 | a new director is outside director mode, with no waypoints, a null camera field, no playback running and the remembered cursor flag false |
| Director.CameraDirector.HandleKeyUp | client.ts:25-36 | the new state is the key router's result on the old state, with the router's properties in ModeProperties.KeyRouting |
| Director.CameraDirector.ToggleDirectorMode | client.ts:38-52 | the new state is the toggle's result: flip the mode and announce it; then enter (rolling back with a second `false` when the handle is falsy) or leave |
| Director.CameraDirector.StartDirectorMode | client.ts:54-79 | the new state is the entry's result: remember the cursor's visibility, create the primary camera at the player with zero rotation; on a falsy handle drop the mode and announce `false`, otherwise activate, render and hide controls, cursor, HUD and radar |
| Director.CameraDirector.HandleCameraMovement | client.ts:81-123 | one frame does nothing outside director mode or with a falsy handle; otherwise it moves and then turns the camera, as DirectorSpec.HandleCameraMovement says |
| Director.CameraDirector.Translate | client.ts:92-111 | the six bindings accumulate from the camera's position, and the position is written once, to the accumulated point, exactly when a binding fired; nothing else changes |
| Director.CameraDirector.Turn | client.ts:113-122 | a cursor off the screen centre writes the clamped mouse-look rotation and puts the cursor back at the centre; a centred cursor changes nothing |
| Director.CameraDirector.StopDirectorMode | client.ts:126-140 | the new state is the exit's result: release a non-null primary camera and null the field, re-show the cursor only if it was visible before and is hidden now, then restore HUD, radar and controls |
| Director.CameraDirector.SaveCurrentPoint | client.ts:142-162 | the new state is the save's result, and the waypoint list stays within its capacity of ten |
| Director.CameraDirector.ClearPoints | client.ts:164-171 | the new state is the clear's result: nothing while a playback runs, otherwise an empty list and `pointSaved(0)` |
| Director.CameraDirector.PlaySequence | client.ts:173-234 | the new state is the playback's result: the whole run, its camera creations and pose writes, the handback and the flag cleared again |
| Director.CameraDirector.RunWaypoints | client.ts:182-225 | the camera work of a playback appends exactly `Run` of the waypoints to the trace, makes one camera per waypoint and places each at its waypoint |
| Director.CameraDirector.ShowWaypoints | client.ts:198-222 | the dwell or the loop: one 3000 ms sleep for one waypoint; otherwise one segment per later waypoint (create, interpolate from the current camera, sleep, destroy the current camera), ending on the last waypoint's camera |
| DirectorSpec.ClampPitch | client.ts:118 | the clamped pitch lies in [-89, 89], equals its input inside that interval and saturates at the nearer bound outside it |
| ModeProperties.KeyRouting | client.ts:25-36 | key 116 always toggles; keys 72, 79 and 67 save, play and clear only in director mode; every other key leaves the state unchanged |
| ModeProperties.KeyUpKeepsOwnership | client.ts:38-70 | whenever director mode is on, the camera field holds a truthy handle, and every key keeps this: a failed entry leaves the mode off and a successful one stores the new handle |
| ModeProperties.TickKeepsOwnership | client.ts:81-123 | a frame keeps the link between director mode and a truthy camera field |
| ModeProperties.ToggleOutcome | client.ts:38-79 | a toggle ends in director mode exactly when it started outside it and the engine returned a truthy handle; entering stores the handle, even 0, and leaving nulls it |
| ModeProperties.EnterFails | client.ts:38-71 | entry with the handle 0 ends outside director mode with the field 0, emits `stateChanged` true, false, false, records only the creation besides, and leaves the cursor as it was |
| ModeProperties.EnterSucceeds | client.ts:54-79 | entry with a truthy handle creates the camera at the player with zero rotation; activates and renders it and switches off controls, cursor, HUD and radar, in that order; remembers the cursor's visibility; adds one live camera |
| ModeProperties.LeaveReleases | client.ts:126-140 | leaving deactivates, destroys and un-renders a non-null primary camera and nulls the field; re-shows the cursor exactly when it was visible before entry and is hidden now; always restores HUD, radar and controls last; changes nothing else |
| ModeProperties.LeaveLive | client.ts:126-132 | after leaving, the primary camera (when the field was not null) is no longer live and no other camera changed |
| ModeProperties.ReleaseLive | client.ts:127-132 | releasing the primary camera removes exactly that handle from the live cameras |
| ModeProperties.ToggleTwiceRestores | client.ts:38-140 | from an idle director, whether its field is null or holds the 0 a failed entry left, entering with a truthy handle and leaving again restores the mode, the null field, the cursor's visibility, the waypoints, the flag and the live cameras |
| WaypointProperties.SaveEffect | client.ts:142-162 | a save succeeds exactly when no playback runs, the list has fewer than ten entries and the field is not null; it then appends the camera's pose at the end and emits the new length; otherwise nothing changes and nothing is emitted |
| WaypointProperties.SaveTimesFills | client.ts:142-162 | n saves in a row keep the saved waypoints in front, append copies of the camera's pose, and stop at ten: the list ends with min(length + n, 10) entries |
| WaypointProperties.ClearEffect | client.ts:164-171 | a clear during a playback changes nothing; otherwise the list is empty, `pointSaved(0)` is emitted and nothing else changes |
| WaypointProperties.ToggleCounts | client.ts:38-140 | entering or leaving reports no waypoint count outside 0..10 |
| WaypointProperties.PlayCounts | client.ts:173-234 | a playback reports no waypoint count outside 0..10 |
| WaypointProperties.KeyUpKeepsBounded | client.ts:25-36 | after any key the list holds at most ten waypoints and every `pointSaved` count ever emitted lies in 0..10 |
| PlaybackProperties.PlayIdle | client.ts:174-177 | a play request while a playback is suspended, or with no waypoints, changes nothing, creates no camera and emits nothing |
| PlaybackProperties.PlayAppendsPlayback | client.ts:173-234 | otherwise the trace grows by exactly one `Playback`, one camera is created per waypoint, the flag ends cleared, and nothing else but the poses changes |
| PlaybackProperties.PlaybackEvents | client.ts:179-233 | a playback emits `playingSequence(true)` first, `playingSequence(false)` last, and no other event |
| PlaybackProperties.PlaybackActivations | client.ts:195-230 | a playback plainly activates its first transient camera and then the primary camera, the latter exactly when the field is not null |
| PlaybackProperties.PlaybackCreations | client.ts:182-215 | a playback over N waypoints creates N cameras, the i-th at waypoint i in recorded order with the engine's i-th handle |
| PlaybackProperties.PlaybackTransitions | client.ts:201-221 | it requests N-1 interpolated transitions of 3000 ms, the i-th from the camera of waypoint i into the camera of waypoint i+1; none for one waypoint |
| PlaybackProperties.PlaybackSleeps | client.ts:198-221 | it sleeps N-1 times for N ≥ 2 and once for N = 1, each time for 3000 ms |
| PlaybackProperties.PlaybackLive | client.ts:182-225 | the cameras live after a playback are those live before it, so every transient camera is destroyed; the live cameras never number more than two above those live before it |
| FreeFlyProperties.TickIdle | client.ts:82 | outside director mode, or with a falsy handle, a frame changes nothing |
| FreeFlyProperties.DisplaceSum | client.ts:95-109 | the six bindings land the camera at its position plus (W−S)·forward + (D−A)·right + (E−Q)·up, scaled by the move speed |
| FreeFlyProperties.DisplaceMoved | client.ts:92-109 | the frame counts as moved exactly when one of W, S, A, D, Q, E is held, even when opposite keys cancel |
| FreeFlyProperties.TickPosition | client.ts:84-111 | an active frame leaves the camera at its old position plus that summed offset |
| FreeFlyProperties.TickRotation | client.ts:113-122 | an active frame turns the camera exactly when the cursor is off the screen centre, to the mouse-look rotation, whose pitch stays within [-89, 89]; the cursor then goes back to the centre |
| FreeFlyProperties.TickFrame | client.ts:81-123 | an active frame changes no other camera's pose and adds no pose but its own camera's; it changes nothing outside the poses, the cursor and the trace |
| FreeFlyProperties.TickTrace | client.ts:111-121 | a frame only appends to the trace, and what it appends is exactly its engine writes |
| FreeFlyProperties.TickWrites | client.ts:111-121 | of what an active frame appends to the trace, it writes the position once, to the moved point, exactly when a movement key is held; and writes the rotation once, and re-centres the cursor once, exactly when the cursor is off centre |
| FreeFlyProperties.TickKeepsBounded | client.ts:81-123 | a frame keeps the waypoint list and emits no count, so the store invariant survives it |
| FreeFlyProperties.TickLive | client.ts:81-123 | a frame neither creates nor destroys a camera |

`client.js` holds the same members at other lines:

- constructor: lines 7-19;
- handleKeyUp: lines 20-30;
- toggleDirectorMode: lines 31-44;
- startDirectorMode: lines 45-60;
- handleCameraMovement: lines 61-97, with the move closure at 72-79, its six calls at 80-85 and the clamp at 92;
- stopDirectorMode: lines 98-111;
- saveCurrentPoint: lines 112-128;
- clearPoints: lines 129-135;
- playSequence: lines 136-168, with the loop at 151-158.

## Left out

- The forward and right vectors: their trigonometry is a parameter `basis` of the frame. The model keeps how the director uses them, not how they are computed.
- Floating point:
  - positions, rotations and cursor offsets are Dafny reals, so rounding and accumulation error are not modelled;
  - NaN is not modelled: a NaN cursor offset is falsy in the source's `deltaX || deltaY`, but here an offset is either zero or not.
- Scheduling:
  - `sleep` is a recorded `Slept(3000)` effect, and a playback runs to completion in one call;
  - not modelled is the interleaving of frames, key presses and a suspended playback, including a toggle-off in mid-playback (the toggle is the one operation not guarded by `isPlayingSequence`);
  - a director entered with the flag already set stands for a playback suspended at an await.
- The `.catch` on the play key only logs, and is left out.
- The export wiring is not modelled:
  - forwarding `stateChanged`, `pointSaved` and `playingSequence` to the web view;
  - the global singleton (client.ts:237-258).

  The inbound "clear points" request is the `ClearPoints` method itself.
- The constructor's registration of the key-up and per-frame handlers is not modelled; `HandleKeyUp` and `HandleCameraMovement` are called directly.
- Constant arguments of the native calls are not recorded in the trace. The field of view, 90, is recorded. The unrecorded ones are:
  - the camera kind, the active flag `true` and the rotation order 2 of every `createCamWithParams` (client.ts:58-65, 182-193, 204-215);
  - the easing flags of `setCamActiveWithInterp`;
  - the fixed flags of `renderScriptCams`;
  - the rotation order 2 of `setCamRot` (client.ts:120);
  - the `true` of every `destroyCam` (client.ts:129, 219, 225).

  Activation on creation is therefore not modelled. `IsActivation` and `PlaybackActivations` see only the explicit `setCamActive` calls.
- `ui/src/components/CameraDirectorUI.tsx` is not part of this model. It is a presentation overlay.
- A failed creation is still recorded. `createCamWithParams` stores a pose under the handle it answered, 0 included, and `LiveAfter` counts that 0 as a live camera until a destroy of 0. The source has no camera there. The live-camera lemmas are stated over the handles the model records, 0 included.
- The engine's pose store answers the zero pose for a handle it never created. The source's behaviour there is the engine's and is unknown.
- `Director.CameraDirector.RunWaypoints`, `ShowWaypoints`, `Translate` and `Turn` are sections of `playSequence` and `handleCameraMovement` written as their own methods. The calls between them are the source's calls in the source's order.
