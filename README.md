# Car controller: the view controller's state machine

This project models the core of `CarController/ViewController.swift`, the one view
controller of an iOS app that drives a remote-controlled car. The controller links
a game controller to a Bluetooth actuator board and runs a camera preview and
recorder beside it. The model covers four parts of it:

- **Bluetooth peripheral bookkeeping.** The discovery list is de-duplicated by
  identifier, and the first entry is always selected. Scanning stops and a
  connection attempt follows each new discovery. `didConnect` sets `bleConnected` and,
  when a peripheral is selected, `bleReady`. `didFailToConnect` and
  `didDisconnect` clear `bleConnected` only. The radio-state callback only starts
  a scan on power-on. `tryReconnect` clears
  the list and scans again. `initBLEControl` and `servoEnable` initialise the board
  and enable analog outputs 0 and 6.
- **Control de-duplication and gating.** `updateSteering` and `updateMotorSpeed`
  drop a sample equal to the previous one and remember every other sample. They
  write to servo 0 (through `0.5 * (x + 1)`) or PWM 6 only while the link is
  connected and ready. The game controller routes the left stick's y axis and the
  right stick's x axis to them.
- **Recording finish.** The finish callback chooses between save-then-cleanup and
  cleanup only. The nested cleanup removes the temporary file and retires the
  background-task identifier.
- **Camera setup and preview gating.** `initCamera` and `configureSession` settle
  the cached `setupResult`. Start and stop preview act only on success.
  `recordToggle` starts or stops a recording depending on the movie output.

Every command the controller sends to a collaborator is recorded, in order, in an
event log. This covers the radio stack, the board, the capture session, the save to
the photo library, the file manager and the background-task API. The two
authorization requests, for the camera and for the photo library, are not logged.
Only their answers enter the model, as inputs. Answers the platform gives
are parameters of the handlers: the camera authorization, the device probe, the
session's running flag, whether an output can be added, multitasking support, the
task identifier, HEVC availability, photo authorization, the save result and
whether the file exists.

Modules:

- `CarTypes` (`car_types.dfy`): the entities, the event log and `State`, the
  controller's fields as one value.
- `Connectivity` (`connectivity.dfy`): the Bluetooth handlers as functions on
  `State`, with lemmas about sequences of discoveries.
- `Controls` (`controls.dfy`): the steering and throttle handlers and the
  game-controller routing.
- `Capture` (`capture.dfy`): camera setup, preview, record toggle and recording
  finish.
- `Coordinator` (`coordinator.dfy`): every handler as one atomic step. It holds
  the invariant every step keeps, and it shows that the Bluetooth handlers and the
  camera handlers touch disjoint fields and commute.
- `Controller` (`controller.dfy`): the class `ViewController`. Its fields are the
  controller's fields, updated in place. Each handler is a method proved to move
  the fields exactly as the step function says and to keep the invariant.
  `didDiscover` keeps its scanning loop with an early return.

A reader of the code's comments and names might expect some things to behave
differently. The model follows what the code does:

- A new discovery re-selects `peripherals[0]` and re-issues stop-scan and connect on
  every new identifier, not only the first one.
- A radio state other than powered-on only changes a tint colour. It neither
  clears the list nor forces a disconnected state.
- The dedup compares against the last sample received, not the last one written. A
  value first seen while the link is down is therefore never sent after the link
  comes back (`Controls.SampleSeenWhileDownIsNotResent`).
- The handlers are not serialised on one queue:
  - The discovery, connect, fail and disconnect callbacks dispatch their bodies to
    the main queue. `didUpdateState` runs on the caller's thread.
  - `configureSession`, the preview actions and `addMovieFileOutput` run on the
    session queue.
  - `recordToggle` reads the recording flag on the caller's thread. It sends its
    start branch to the session queue and its stop branch to the main queue.
  - The finish handler runs on the capture delegate's queue, and its save-then-cleanup
    path runs in the Photos completion handlers.

  The model takes every handler body as one atomic step. It proves that the
  Bluetooth and control handlers and the camera handlers touch disjoint fields and
  commute (`Coordinator.HandlersCommute`).
- There is no connection-state enumeration or capture-state enumeration. The state
  is the flags and optional values the controller keeps.

## Model

| member | source | states |
|---|---|---|
| `CarTypes.Initial` | CarController/ViewController.swift:32-49 | The field initialisers: empty list, nothing selected, link down and not ready, both previous samples 0.0, setup `success`, session not running, no movie output, no background task, no file handed out, empty log |
| `Connectivity.HasIdentifier` | CarController/ViewController.swift:169-174 | The duplicate scan finds a match exactly when some entry of the list has the discovered identifier |
| `Connectivity.Discover` | CarController/ViewController.swift:167-187 | A known identifier leaves the whole state unchanged and logs nothing. A new one is appended at the end, the list stays free of duplicates, the selection stays the first entry, and the log gains stop-scan then a connect to `peripherals[0]`. No other field changes |
| `Connectivity.ServoEnable` | CarController/ViewController.swift:161-164 | With a control object, outputs 0 then 6 are switched to the given value. Without one, nothing happens |
| `Connectivity.InitBLEControl` | CarController/ViewController.swift:150-159 | Without a selection nothing happens. With one, the control object is built for the selected peripheral, the device is initialised with 8 outputs and 2 LCD lines, outputs 0 and 6 are enabled, and the link is marked ready |
| `Connectivity.DidConnect` | CarController/ViewController.swift:189-198 | The link is connected. With a selection, the log gains init then enable(0, true) then enable(6, true) and the link is ready. Without one, only `bleConnected` changes. No field other than the link flags, the control object and the log changes, so the list, the selection, the previous samples and the camera side are untouched. The connectivity invariant is kept |
| `Connectivity.TryReconnect` | CarController/ViewController.swift:239-243 | The list is emptied and the log gains stop-scan then start-scan. No other field changes |
| `Connectivity.TryReconnectForgetsList` | CarController/ViewController.swift:239-243 | The result of a reconnect does not depend on what the list held before |
| `Connectivity.DidFailToConnect` | CarController/ViewController.swift:200-209 | The link is down, the list is empty, and stop-scan comes before start-scan. The selection and `bleReady` are not modified |
| `Connectivity.DidDisconnect` | CarController/ViewController.swift:211-220 | The same recovery as a failed connection |
| `Connectivity.DidUpdateState` | CarController/ViewController.swift:222-237 | Powered-on adds exactly one start-scan and changes nothing else. Every other radio state changes nothing |
| `Connectivity.DiscoverAllKeeps` | CarController/ViewController.swift:167-187 | Over any sequence of discoveries the list stays duplicate-free and only grows. Every identifier seen is listed, and every listed entry was already there or was discovered. A non-empty list keeps its selection, and the link flags and camera fields do not change |
| `Connectivity.FirstDiscoveryWins` | CarController/ViewController.swift:175-185 | In a scan cycle starting from an empty list, the first discovery heads the list and remains the selected peripheral whatever follows, and every identifier appears exactly once |
| `Controls.ServoValue` | CarController/ViewController.swift:259 | The servo map is the inverse of `x = 2v - 1`, and sends the axis range -1..1 onto exactly 0..1 |
| `Controls.ServoValueEndpoints` | CarController/ViewController.swift:259 | -1, 0 and 1 map to 0, 0.5 and 1 |
| `Controls.LinkUpIsConnectedAndReady` | CarController/ViewController.swift:258-260 | Under the connectivity invariant a write reaches the board exactly when `bleConnected && bleReady` |
| `Controls.UpdateSteering` | CarController/ViewController.swift:253-261 | A repeat changes nothing. Otherwise the sample is remembered whatever the link state. Exactly one write, servo 0 at `ServoValue(x)`, happens if and only if the sample is new and the link is up. Nothing else changes |
| `Controls.UpdateMotorSpeed` | CarController/ViewController.swift:263-271 | The same rule for the throttle, with a raw write to PWM 6 |
| `Controls.RepeatedSampleWritesOnce` | CarController/ViewController.swift:253-271 | Two identical consecutive samples give the same state as one, so at most one write |
| `Controls.SampleSeenWhileDownIsNotResent` | CarController/ViewController.swift:253-261 | A steering value first seen while the link is down is not written then. After a connect brings the link up, the same value is dropped as a repeat |
| `Controls.GamepadValueChanged` | CarController/ViewController.swift:307-399 | The left stick's y goes to the motor, the right stick's x goes to the steering, and every other element changes nothing |
| `Controls.SamplesDroppedWhileDown` | CarController/ViewController.swift:253-271 | While the link is not connected and ready, a whole stream of controller input writes nothing, and only the remembered samples change. The remembered steering is the last one in the stream |
| `Capture.ConfigureSession` | CarController/ViewController.swift:111-148 | Unless setup is `success`, nothing happens. Otherwise setup stays `success` exactly when the camera input is added, and every failure path ends in `configurationFailed`. Configuration begins first and is committed last on every path |
| `Capture.InitCamera` | CarController/ViewController.swift:86-109 | Setup ends `success` exactly when it was, the camera is allowed and the input is added. Denial or refusal gives `notAuthorized` with no session calls |
| `Capture.AddMovieFileOutput` | CarController/ViewController.swift:408-426 | An output the session accepts is attached idle, with begin-configuration, add-output and commit-configuration logged in that order. Otherwise nothing changes |
| `Capture.StartCameraPreview` | CarController/ViewController.swift:488-531 | The session is started if and only if setup is `success`. The movie output changes only when the session accepts it. The other results only show their alert. The Bluetooth side is untouched |
| `Capture.StopCameraPreview` | CarController/ViewController.swift:533-544 | The session is stopped only on `success`. Otherwise nothing happens |
| `Capture.StartEvents` | CarController/ViewController.swift:559-578 | Starting logs the background task exactly when multitasking and HEVC exactly when available. It ends with the start of recording to the one fresh file |
| `Capture.RecordToggle` | CarController/ViewController.swift:547-589 | Without a movie output, nothing happens. An idle output starts recording to the next fresh file and takes the task when multitasking. A recording output is stopped. The Bluetooth side is untouched |
| `Capture.RecordingSucceeded` | CarController/ViewController.swift:450-455 | No error means success. An error carries its own finished-successfully flag |
| `Capture.CleanupState` | CarController/ViewController.swift:431-448 | Cleanup logs itself, then the removal when the file exists, then the end of the held task when it is valid. A held identifier becomes `.invalid` and an absent one stays absent. Nothing else changes |
| `Capture.RecordingEnded` | CarController/ViewController.swift:429 | By the time the finish of a recording to a file is reported, an output recording to that file is idle. Any other output is left as it is, and no other field changes |
| `Capture.FinishRecordingState` | CarController/ViewController.swift:429-484 | The finish handler saves exactly when the recording succeeded and photos are authorized, then cleans up. The output recording to the file is idle afterwards. Its result does not depend on what the save reports |
| `Capture.ToggleAfterRecordingEndedStarts` | CarController/ViewController.swift:547-578 | After a recording has ended by itself and its finish has been handled, the next toggle starts a new recording to a fresh file and stops nothing |
| `Capture.FinishCleansUpOnce` | CarController/ViewController.swift:457-480 | Every finish path cleans up exactly once. It saves exactly once on the authorized success path and never otherwise |
| `Capture.FinishOrder` | CarController/ViewController.swift:457-480 | The save comes first and cleanup right after it, only the recorded file is saved, and it is removed exactly when it exists |
| `Capture.Cleanup` | CarController/ViewController.swift:431-448 | Cleanup's first call is the cleanup itself. A held background-task identifier becomes `.invalid` and an absent one stays absent. Only the identifier and the log change |
| `Capture.DidFinishRecording` | CarController/ViewController.swift:429-484 | The first call of the finish handler is the save on the authorized success path and the cleanup otherwise. A held task identifier ends as `.invalid`, and an output recording to the reported file is idle afterwards |
| `Capture.FinishEndsHeldTask` | CarController/ViewController.swift:441-447 | A valid held task is ended exactly once and no other task is ended. With no task or an invalid one, none is ended |
| `Capture.RecordStartTargets` | CarController/ViewController.swift:574-577 | A start adds exactly its own file to the list of recording targets |
| `Capture.RecordStartUsesFreshFile` | CarController/ViewController.swift:430 | A new recording never reuses an earlier recording's file name |
| `Capture.PreviewRecordStopCycle` | CarController/ViewController.swift:488-589 | Start preview, toggle, toggle leaves an idle output with the session still running. A following stop preview stops the session |
| `Coordinator.InitialInv` | CarController/ViewController.swift:32-49 | The initial fields satisfy the controller invariant |
| `Coordinator.StepPreservesInv` | CarController/ViewController.swift:111-589 | Every handler keeps the invariant: no duplicate identifiers, the first entry selected, ready only with a control object, every channel command within the board's 8 outputs, and recording files numbered without reuse |
| `Coordinator.ConnectivityStepKeeps` | CarController/ViewController.swift:150-271 | The Bluetooth and control handlers keep the invariant |
| `Coordinator.CaptureStepKeeps` | CarController/ViewController.swift:86-589 | The camera handlers keep the invariant |
| `Coordinator.RunPreservesInv` | CarController/ViewController.swift:167-243 | Any sequence of handlers keeps the invariant, so the list never holds an identifier twice |
| `Coordinator.ConnectivityIsLocal` | CarController/ViewController.swift:150-271 | A Bluetooth or control handler leaves the camera fields alone and reads only the Bluetooth fields |
| `Coordinator.CaptureIsLocal` | CarController/ViewController.swift:86-589 | A camera handler leaves the Bluetooth fields alone and reads only the camera fields |
| `Coordinator.HandlersCommute` | CarController/ViewController.swift:86-589 | A Bluetooth or control handler and a camera handler reach the same fields in either order |
| `Controller.ViewController.constructor` | CarController/ViewController.swift:32-49 | The fields start at their initialisers and satisfy the invariant |
| `Controller.ViewController.DidDiscover` | CarController/ViewController.swift:167-187 | The scanning loop with early return moves the fields exactly as `Discover` and keeps the invariant |
| `Controller.ViewController.ServoEnable` | CarController/ViewController.swift:161-164 | The fields move exactly as `ServoEnable` |
| `Controller.ViewController.InitBLEControl` | CarController/ViewController.swift:150-159 | The fields move exactly as `InitBLEControl` |
| `Controller.ViewController.DidConnect` | CarController/ViewController.swift:189-198 | The fields move exactly as `DidConnect`, and the invariant is kept |
| `Controller.ViewController.TryReconnect` | CarController/ViewController.swift:239-243 | The fields move exactly as `TryReconnect`, and the invariant is kept |
| `Controller.ViewController.DidFailToConnect` | CarController/ViewController.swift:200-209 | The fields move exactly as `DidFailToConnect`, and the invariant is kept |
| `Controller.ViewController.DidDisconnect` | CarController/ViewController.swift:211-220 | The fields move exactly as `DidDisconnect`, and the invariant is kept |
| `Controller.ViewController.DidUpdateState` | CarController/ViewController.swift:222-237 | The fields move exactly as `DidUpdateState`, and the invariant is kept |
| `Controller.ViewController.UpdateSteering` | CarController/ViewController.swift:253-261 | The fields move exactly as `UpdateSteering`, and the invariant is kept |
| `Controller.ViewController.UpdateMotorSpeed` | CarController/ViewController.swift:263-271 | The fields move exactly as `UpdateMotorSpeed`, and the invariant is kept |
| `Controller.ViewController.GamepadValueChanged` | CarController/ViewController.swift:307-399 | The fields move exactly as the routing function says, and the invariant is kept |
| `Controller.ViewController.ConfigureSession` | CarController/ViewController.swift:111-148 | The fields move exactly as `ConfigureSession` |
| `Controller.ViewController.InitCamera` | CarController/ViewController.swift:86-109 | The fields move exactly as `InitCamera`, and the invariant is kept |
| `Controller.ViewController.AddMovieFileOutput` | CarController/ViewController.swift:408-426 | The fields move exactly as `AddMovieFileOutput`, with the configuration pair around the added output |
| `Controller.ViewController.StartCameraPreview` | CarController/ViewController.swift:488-531 | The fields move exactly as `StartCameraPreview`, and the invariant is kept |
| `Controller.ViewController.StartSession` | CarController/ViewController.swift:492-495 | The success branch of start preview moves the fields as `StartCameraPreview` does on `success` |
| `Controller.ViewController.StopCameraPreview` | CarController/ViewController.swift:533-544 | The fields move exactly as `StopCameraPreview`, and the invariant is kept |
| `Controller.ViewController.RecordToggle` | CarController/ViewController.swift:547-589 | The fields move exactly as `RecordToggle`, and the invariant is kept |
| `Controller.ViewController.ToggleDecision` | CarController/ViewController.swift:548-588 | The start-or-stop decision moves the fields as `RecordToggle` |
| `Controller.ViewController.BeginRecording` | CarController/ViewController.swift:559-578 | The background task is taken when multitasking, and recording starts to the next fresh file, with the calls of `StartEvents` |
| `Controller.ViewController.Cleanup` | CarController/ViewController.swift:431-448 | The fields move exactly as the cleanup function |
| `Controller.ViewController.RecordingEnded` | CarController/ViewController.swift:429 | The output's recording flag clears for the reported file, exactly as `Capture.RecordingEnded` |
| `Controller.ViewController.SaveThenCleanup` | CarController/ViewController.swift:450-480 | A successful recording with photo authorization is saved, then cleaned up. Every other case is cleaned up directly. The fields move as `Capture.Cleanup` says, after the save when there is one |
| `Controller.ViewController.FileOutputDidFinishRecording` | CarController/ViewController.swift:429-484 | The fields move exactly as `DidFinishRecording`, and the invariant is kept |

## Left out

- Dispatch queues and threads: each handler body is one atomic step. The queues and threads the handlers run on, interleavings between them and the `suspend`/`resume` of the session queue are not modelled. Only the disjointness of the two groups of handlers is captured, by `Coordinator.HandlersCommute`.
- The movie output's recording flag belongs to the platform. The model clears it when the toggle stops a recording and when the finish of the file it records to is reported. It does not model the delay between a stop request and the output actually stopping.
- UI: tint colours, button images and the preview view's visibility are presentation only. The two alerts of start preview are logged as `ShowAlert`.
- Button gates: the app disables two buttons to forbid some handler orders. The record button is disabled from a stop until the finish handler re-enables it. The stop-preview button is disabled from the start of a recording until its stop. So in the app the record toggle never runs between a stop and its finish, and the preview is never stopped while recording. The model does not keep these enable flags. Its handler sequences (`Coordinator.Run`) therefore include orders the app forbids, such as a second start before the first recording's finish, or a stop preview during a recording. Every property proved over all sequences still holds for the orders the app allows.
- BLEControlFramework and CoreBluetooth are foreign. A peripheral is an abstract identifier, the control object is the peripheral it was built for, and board writes are logged commands. `connectToPeripheral`'s Bool is not modelled, because the code only prints on `false`.
- `serial` is taken to be present. The code asserts this when the view loads, and every delegate callback comes from it.
- `deviceError`: it only prints and changes no state.
- AVFoundation: presets, stabilisation, orientation, the session's own running state and codec lists are foreign. They are taken as Boolean or enumerated inputs, such as the device probe, `running`, `canAddOutput` and `hevcAvailable`. `videoDeviceInput` is not kept.
- Photos, FileManager, UUID and temporary paths are I/O. Authorization, the save result and whether the file exists are inputs. A file name is `TempMovie(n)`, with a counter standing for the fresh UUID. A failed removal only prints, so it is not modelled.
- Floating point: axis values are `real`, so NaN (which never equals the previous sample) and the rounding of `0.5 * (x + 1)` are not modelled.
- Force unwraps that would crash the app are not modelled. These are the finished-successfully flag read from the error's user info, the preview orientation and the output's video connection read when recording starts (the connection only when HEVC is available), and the `.mov` path extension of the temporary file. The error is taken always to carry the flag.
- Game-controller plumbing: `initGameController`, the connect and disconnect notifications, the pause handler and the view lifecycle (`viewDidLoad`, `viewWillAppear`, `viewWillDisappear`) are platform plumbing. Only the routing of the two stick axes is kept.
- The unused `isRecording` field is not modelled. The movie output records whether it is recording.
- Capture.StartCameraPreview: on `success` its contract states only that the movie output changes when the session accepts one. The exact new output is stated by `Capture.AddMovieFileOutput`, which it calls.
- Capture.FinishEndsHeldTask: holds only because the finish handler and its Photos completion handlers are one atomic step. In the app the record button is re-enabled at once, so a new recording can set `backgroundRecordingID` on the session queue before the older recording's cleanup runs in the Photos handlers. That cleanup then ends the new recording's task and stores `.invalid`, and the older task is never ended. The model does not capture this interleaving.
- Authorization requests: the camera access request (made when the status is not determined) and the photo-library authorization request (made on every successful finish) are not logged; their answers are inputs. The log therefore does not tell a failed recording from a successful one without photo access: both log only the cleanup and what follows it. `Capture.RecordingSucceeded` and `Capture.FinishRecordingState` state which case applied.
