# BarcodeScanner decision logic in Dafny

This project models the decision logic of an iOS barcode-scanner screen. Two controllers hold it:

- **The scanner controller** (`BarcodeScannerViewController`) keeps a four-state `Status`: scanning, processing, unauthorized or not-found. It filters each camera frame's detections. It reports at most one code per frame to its code delegate. In one-shot mode it locks after a capture until the status next becomes scanning: a reset, the close button, a setup success or the end of the not-found message. It animates its message view between states, and it returns from not-found to scanning after 2.0 seconds.
- **The camera controller** (`CameraViewController`) owns the capture session and the torch. It hides or shows the focus view, the flash button and the settings button. It reports the result of the permission check to the scanner.

Besides these, the project models the value types the controllers use:

- the `Status`/`State` tables, in their current form and in the older `Sources/State.swift` form;
- the torch and flash modes, which cycle;
- the mapping from interface orientation to video orientation.

## Structure

| file | module | what it holds |
|---|---|---|
| wrappers.dfy | `Wrappers` | `Option`, Swift's optional |
| capture.dfy | `Capture` | symbologies, metadata objects, capture errors, the default allow-list |
| states.dfy | `States` | `State`, `Status`, the default messages |
| legacy_states.dfy | `LegacyStates` | the older `State`/`Status` with its `Info` texts and style table |
| torch_mode.dfy | `Torch` | `TorchMode`, `next`, `image`, `captureTorchMode` |
| flash_mode.dfy | `Flash` | `FlashMode`, `next`, `image`, `captureFlashMode` |
| orientation.dfy | `Orientation` | `captureOrientation` |
| scanner_machine.dfy | `ScannerMachine` | the scanner controller as a pure state machine: one function per handler |
| scanner_properties.dfy | `ScannerProperties` | lemmas about that machine |
| scanner.dfy | `Scanner` | class `ScannerController`: the handlers written step by step |
| camera_machine.dfy | `CameraMachine` | the camera controller as a pure state machine |
| camera_properties.dfy | `CameraProperties` | lemmas about that machine |
| camera.dfy | `Camera` | class `CameraController`: the handlers written step by step |

Each controller is a class whose fields are the controller's state. `Snapshot()` collects those fields into one value of the matching machine datatype. Every handler method states its whole effect on `Snapshot()`. Most state it as `Snapshot() == <Machine function>(old(Snapshot()), …)`. The property setters (`SetIsOneTimeSearch`, `SetMetadata`) and `AnimateFlash` state it as an update of one field of `old(Snapshot())`. The properties are proved as lemmas about the machine functions, so they hold for the methods too.

The model treats these as explicit events, each a method on the class:

- animation completions;
- the 2-second timer;
- the permission callback;
- frame delivery.

The scanner keeps its pending work in two queues:

- `pending` holds the animations whose completion block has not run. A completion may run in any order, and each takes the index of its animation.
- `timers` holds the scheduled returns to scanning. They all wait 2.0 seconds, so they fire oldest first.

Two abstractions stand in for what this model leaves out:

- The scanner's `capturing` flag records whether capture was last started or stopped. This stands in for the calls to the camera controller.
- A localised message is modelled as its localisation key.

### Behaviour worth knowing (the model follows the code)

- In `didOutput`, any non-nil string value is accepted, including an empty one. The check order is: machine-readable, then has a string, then allowed type.
- A transition is animated (0.5 s) when the new status is animated and either processing is entered or processing or not-found is left. Entering not-found is never animated. It also does not run `resetState`, so the lock and capture stay as they were.
- A second `resetWithError` does not restart the 2-second window. Nothing cancels timers: each call schedules its own return, and the first one fires 2.0 s after the first call (`ScannerProperties.SecondErrorDoesNotRestartWindow`).
- After permission is granted, a missing device (or the simulator) produces no error. Setup is still reported as successful (`CameraProperties.GrantedWithoutDeviceStillReportsSetup`).
- An accepted frame does not move the state to processing. The flash animation's completion does, and only in one-shot mode.
- The message passed to `resetWithError(message:)` is stored in the status but never shown, although the doc comment at `Sources/Controllers/BarcodeScannerViewController.swift:137` says it overrides the configured message. The message view receives only the state (:154 and :170), and nothing in the controller reads `status.text` (`ScannerProperties.OverrideMessageIsNotShown`).
- A `reset()` that the code delegate issues inside its `didCaptureCode` callback (:288) is undone in one-shot mode. The reset unlocks at once, but the flash completion that the same frame queued runs 0.2 s later and moves the scanner to processing, locked (:289, :222-227; `ScannerProperties.ResetInsideCaptureCallbackIsUndone`).
- Any change of status to scanning from a state other than processing or not-found clears the one-shot lock at once, so a setup success between two frames lets both be reported (`ScannerProperties.OneShotLockClearedBySetup`).
- Closing the screen while processing keeps the lock until the transition to scanning completes (`ScannerProperties.DismissWhileProcessing`). After that the scanner reports codes again.

## Model

| member | source | states |
|---|---|---|
| Capture.DefaultMetadataContents | Sources/BarcodeScannerController.swift:46-57 | the default allow-list holds the ten listed symbologies, including EAN-13 and QR; UPC-A is not in it |
| States.TextIsInjective | Sources/DataStructures/State.swift:44-59 | each state has its own localisation key: scanning `INFO_DESCRIPTION_TEXT`, processing `INFO_LOADING_TITLE`, unauthorized `ASK_FOR_PERMISSION_TEXT`, notFound `NO_PRODUCT_ERROR_TITLE`; equal messages mean equal states |
| States.NewStatusKeepsArguments | Sources/DataStructures/State.swift:26-28 | the stored state and animation flag are the arguments |
| States.NewStatusIsAnimatedByDefault | Sources/DataStructures/State.swift:26 | `animated` defaults to true and the text override to none |
| States.OverrideTextWins | Sources/DataStructures/State.swift:29 | a given text replaces the default message |
| States.DefaultTextIsStateText | Sources/DataStructures/State.swift:29 | without an override the text is the state's default localisation key, and that key identifies the state (distinct keys need not have distinct translations) |
| LegacyStates.TextTable | Sources/State.swift:44-59 | Scanning shows `Info.text`, Processing `Info.loadingText`, Unauthorized `Info.settingsText`, NotFound `Info.notFoundText` |
| LegacyStates.NewStatusContract | Sources/State.swift:26-30 | the stored state and flag are the arguments, `animated` defaults to true, and the text is the override or else the state's text |
| LegacyStates.StylesAlignmentAndFont | Sources/State.swift:62-93 | Processing and NotFound, and only they, are centred and use `loadingFont`; the other two are left-aligned |
| LegacyStates.StylesTint | Sources/State.swift:62-93 | only NotFound uses `notFoundTint`, only Processing uses `loadingTint`, Scanning and Unauthorized use `Info.tint` |
| Torch.Next | Sources/TorchMode.swift:11-22 | the next mode always differs from the current one, which for two modes fixes it |
| Torch.NextTable | Sources/TorchMode.swift:11-22 | On goes to Off and Off to On |
| Torch.NextIsInvolution | Sources/TorchMode.swift:11-22 | applying `next` twice is the identity |
| Torch.ImageTable | Sources/TorchMode.swift:25-36 | On shows "flashOn", Off shows "flashOff" |
| Torch.ToCapture | Sources/TorchMode.swift:39-50 | the device torch mode is never the automatic one |
| Torch.ToCaptureIsInjective | Sources/TorchMode.swift:39-50 | On maps to On and Off to Off, so distinct modes get distinct device modes |
| Flash.Next | Sources/FlashMode.swift:7-20 | the next mode always differs from the current one |
| Flash.NextTable | Sources/FlashMode.swift:7-20 | the cycle is On, Off, Auto, On |
| Flash.NextHasPeriodThree | Sources/FlashMode.swift:7-20 | three steps are the identity and two are not |
| Flash.ImageTable | Sources/FlashMode.swift:22-35 | the images are "flashOn", "flashOff" and "flashAuto" |
| Flash.ToCaptureIsBijective | Sources/FlashMode.swift:37-50 | the device flash mode keeps the case: injective and onto |
| Orientation.CaptureOrientationKeepsNames | Sources/UIInterfaceOrientation+Capture.swift:9-19 | the four named orientations map to their namesakes; any other maps to portrait |
| Orientation.CaptureOrientationIsOnto | Sources/UIInterfaceOrientation+Capture.swift:6-23 | the total mapping reaches each of the four video orientations, and only portrait is reached twice |
| ScannerProperties.LockedFrameIsIgnored | Sources/Controllers/BarcodeScannerViewController.swift:266 | a locked scanner ignores a frame: no callback, no change to status or lock |
| ScannerProperties.ReadableExactly | Sources/Controllers/BarcodeScannerViewController.swift:267-273 | a frame is discarded exactly when it is empty, or element 0 is not a machine-readable code, has no string value, or its type is not allowed; otherwise element 0's value and type are used |
| ScannerProperties.DiscardedFrameChangesNothing | Sources/Controllers/BarcodeScannerViewController.swift:267-273 | a discarded frame leaves the whole scanner, lock included, unchanged |
| ScannerProperties.OnlyFirstObjectMatters | Sources/Controllers/BarcodeScannerViewController.swift:269-273 | frames with the same first object have the same effect |
| ScannerProperties.AcceptedFrame | Sources/Controllers/BarcodeScannerViewController.swift:275-289 | an accepted frame locks iff one-shot, adds exactly one `didCaptureCode` with the normalised code, queues the flash, and changes nothing else |
| ScannerProperties.NormalizeUpcA | Sources/Controllers/BarcodeScannerViewController.swift:283-286 | an EAN-13 code starting with "0" is reported without that character as UPC-A |
| ScannerProperties.NormalizeKeepsOthers | Sources/Controllers/BarcodeScannerViewController.swift:279-286 | every other code is reported verbatim with its own type |
| ScannerProperties.NormalizeUndoesZeroPrefix | Sources/Controllers/BarcodeScannerViewController.swift:281-286 | normalising "0" followed by a UPC-A code, tagged EAN-13, gives back that code tagged UPC-A |
| ScannerProperties.NormalizeIsIdempotent | Sources/Controllers/BarcodeScannerViewController.swift:279-286 | normalising twice is normalising once |
| ScannerProperties.NormalizeExample | Sources/Controllers/BarcodeScannerViewController.swift:283-286 | "0012345678905"/EAN-13 becomes "012345678905"/UPC-A; "4006381333931"/EAN-13 is unchanged |
| ScannerProperties.FlashCompletion | Sources/Controllers/BarcodeScannerViewController.swift:222-227 | the flash completion sets `Status(processing)` exactly when it was started in one-shot mode; otherwise it only retires the animation |
| ScannerProperties.OneShotCaptureScenario | Sources/Controllers/BarcodeScannerViewController.swift:264-290 | a one-shot scanner seeing a QR code reports it once; after the flash it is processing, locked and not capturing |
| ScannerProperties.ResetInsideCaptureCallbackIsUndone | Sources/Controllers/BarcodeScannerViewController.swift:209-229 | a reset right after a one-shot report unlocks, but the flash completion then leaves the scanner processing and locked |
| ScannerProperties.OneShotLockClearedBySetup | Sources/Controllers/BarcodeScannerViewController.swift:193-200 | in one-shot mode a setup success between two frames clears the lock, so both codes are reported |
| ScannerProperties.LockedIgnoresEveryFrame | Sources/Controllers/BarcodeScannerViewController.swift:266 | a locked scanner is unchanged by any run of frames |
| ScannerProperties.OneShotReportsAtMostOnce | Sources/Controllers/BarcodeScannerViewController.swift:266-289 | in one-shot mode a run of frames adds at most one callback, that of the first accepted frame, and leaves the status alone |
| ScannerProperties.ContinuousReportsEveryFrame | Sources/Controllers/BarcodeScannerViewController.swift:266-289 | with one-shot off, a run of frames reports every accepted frame in order and never locks |
| ScannerProperties.DismissWhileProcessing | Sources/Controllers/BarcodeScannerViewController.swift:235-238 | closing while locked in processing reports the dismissal and no code from frames that arrive before the reset completes |
| ScannerProperties.ResetStateRule | Sources/Controllers/BarcodeScannerViewController.swift:193-200 | `resetState` sets locked iff processing and one-shot, capture on iff scanning, and nothing else |
| ScannerProperties.TransitionDurationPolicy | Sources/Controllers/BarcodeScannerViewController.swift:161-163 | the duration is 0.5 iff the new status is animated and the new state is processing or the old one processing or notFound; otherwise 0 |
| ScannerProperties.SetStatusRule | Sources/Controllers/BarcodeScannerViewController.swift:160-188 | entering a state other than notFound shows it and queues one transition; `resetState` runs at once unless the old state was processing or notFound, when it waits for the completion |
| ScannerProperties.ResetWithErrorRule | Sources/Controllers/BarcodeScannerViewController.swift:139-141 | `resetWithError(m)` stores `Status(notFound, text: m)`, shows notFound, schedules one return to `Status(scanning)` after 2.0 s, and leaves lock, capture, animations and callbacks unchanged |
| ScannerProperties.OverrideMessageIsNotShown | Sources/Controllers/BarcodeScannerViewController.swift:153-158 | with or without a message, `resetWithError` shows the same state and schedules the same return; the results differ only in the stored status |
| ScannerProperties.NotFoundReturnsToScanning | Sources/Controllers/BarcodeScannerViewController.swift:153-158 | when that timer fires the status is `Status(scanning)`, and a 0.5 s transition with a delayed reset is queued |
| ScannerProperties.ReturnToScanningUnlocks | Sources/Controllers/BarcodeScannerViewController.swift:164-181 | leaving processing or notFound for scanning clears the lock and starts capture when the transition completes |
| ScannerProperties.SecondErrorDoesNotRestartWindow | Sources/Controllers/BarcodeScannerViewController.swift:155-157 | two errors schedule two independent returns; the first fires while the second is still pending |
| ScannerProperties.ResetYieldsScanning | Sources/Controllers/BarcodeScannerViewController.swift:148-150 | `reset(animated:)` stores a scanning status with that flag, animated by default, and calls no delegate |
| ScannerProperties.CloseYieldsScanningAndDismisses | Sources/Controllers/BarcodeScannerViewController.swift:235-238 | the close button yields a scanning status and then exactly one dismissal callback |
| ScannerProperties.CameraOutcomes | Sources/Controllers/BarcodeScannerViewController.swift:244-254 | setup success yields scanning, setup failure yields unauthorized, and a capture error is only forwarded to the error delegate |
| ScannerProperties.PermissionDeniedAtStart | Sources/Controllers/BarcodeScannerViewController.swift:248-250 | refused permission at start-up leaves the scanner unauthorized, unlocked and not capturing |
| Scanner.ScannerController.constructor | Sources/Controllers/BarcodeScannerViewController.swift:36-71 | a new controller is scanning, one-shot, unlocked, with the default allow-list and nothing pending |
| Scanner.ScannerController.SetIsOneTimeSearch | Sources/Controllers/BarcodeScannerViewController.swift:36 | only the one-shot flag changes |
| Scanner.ScannerController.SetMetadata | Sources/Controllers/BarcodeScannerViewController.swift:44-48 | only the allow-list changes |
| Scanner.ScannerController.ResetState | Sources/Controllers/BarcodeScannerViewController.swift:193-200 | the new fields are `ResetState` of the old ones |
| Scanner.ScannerController.ChangeStatus | Sources/Controllers/BarcodeScannerViewController.swift:152-188 | the new fields are `ChangeStatus` of the old ones |
| Scanner.ScannerController.SetStatus | Sources/Controllers/BarcodeScannerViewController.swift:67-71 | storing a status and running its observer gives `SetStatus` of the old fields |
| Scanner.ScannerController.ResetWithError | Sources/Controllers/BarcodeScannerViewController.swift:139-141 | the new fields are `ResetWithError` of the old ones |
| Scanner.ScannerController.Reset | Sources/Controllers/BarcodeScannerViewController.swift:148-150 | the new fields are `Reset` of the old ones |
| Scanner.ScannerController.CloseButtonTapped | Sources/Controllers/BarcodeScannerViewController.swift:235-238 | scanning status, then the dismissal callback |
| Scanner.ScannerController.CameraDidSetup | Sources/Controllers/BarcodeScannerViewController.swift:244-246 | scanning status |
| Scanner.ScannerController.CameraDidFail | Sources/Controllers/BarcodeScannerViewController.swift:248-250 | unauthorized status |
| Scanner.ScannerController.CameraDidReceiveError | Sources/Controllers/BarcodeScannerViewController.swift:252-254 | the error goes to the error delegate and nothing else changes |
| Scanner.ScannerController.AnimateFlash | Sources/Controllers/BarcodeScannerViewController.swift:209-229 | one 0.2 s flash animation, remembering whether to enter processing, is queued |
| Scanner.ScannerController.CameraDidOutput | Sources/Controllers/BarcodeScannerViewController.swift:264-290 | the new fields are `CameraDidOutput` of the old ones |
| Scanner.ScannerController.AnimationCompleted | Sources/Controllers/BarcodeScannerViewController.swift:178-187 | the new fields are `AnimationCompleted` of the old ones: a delayed reset, or the flash's switch to processing |
| Scanner.ScannerController.TimerFired | Sources/Controllers/BarcodeScannerViewController.swift:155-157 | the oldest timer is removed and its status assigned |
| CameraProperties.TorchWithoutFlash | Sources/Controllers/CameraViewController.swift:47-50 | without a flash-capable device only `torchMode` changes: not the device, not the button image |
| CameraProperties.TorchWithFlash | Sources/Controllers/CameraViewController.swift:51-57 | with a flash, the device takes the mode if it can be locked, a failure is swallowed, and the button image shows the new mode either way |
| CameraProperties.StartCapturingRule | Sources/Controllers/CameraViewController.swift:120-129 | no-op in the simulator; otherwise torch off, session running, focus view and flash button shown |
| CameraProperties.StopCapturingRule | Sources/Controllers/CameraViewController.swift:131-140 | no-op in the simulator; otherwise torch off, session stopped, focus view and flash button hidden |
| CameraProperties.StartStopAreIdempotent | Sources/Controllers/CameraViewController.swift:120-140 | starting twice is starting once, stopping twice is stopping once |
| CameraProperties.TorchHandlers | Sources/Controllers/CameraViewController.swift:145-158 | a flash press sets `torchMode.next`; coming to the foreground sets Off and shows the focus view |
| CameraProperties.FlashButtonPressesParity | Sources/Controllers/CameraViewController.swift:156-158 | after k presses the torch mode is the starting one iff k is even, and the session is untouched |
| CameraProperties.PermissionResultRule | Sources/Controllers/CameraViewController.swift:164-179 | the settings button is hidden iff granted; on success the session is set up, then `didSetup` fires; on failure only `didFail` fires |
| CameraProperties.DeniedPermissionWiresNothing | Sources/Controllers/CameraViewController.swift:176-178 | refused permission adds no input and no output |
| CameraProperties.GrantedWithoutDeviceStillReportsSetup | Sources/Controllers/CameraViewController.swift:173-175 | without a device, or in the simulator, granted permission still reports a successful setup |
| CameraProperties.SetupSessionWithoutDevice | Sources/Controllers/CameraViewController.swift:184-186 | `setupSession` does nothing without a device or in the simulator |
| CameraProperties.SetupSessionWithDevice | Sources/Controllers/CameraViewController.swift:188-198 | a failed input goes to the delegate, and the output is still added with `metadataObjectTypes = metadata` |
| CameraProperties.MetadataForwarding | Sources/Controllers/CameraViewController.swift:344-348 | metadata objects go to the delegate unchanged and nothing else changes |
| CameraProperties.DisappearingStopsSession | Sources/Controllers/CameraViewController.swift:103-106 | `viewWillDisappear` always stops the session and changes nothing else |
| CameraProperties.TransitionShowsFocusView | Sources/Controllers/CameraViewController.swift:108-116 | a finished size transition shows the focus view, as appearing does, even after capture was stopped |
| CameraProperties.ViewDidLoadRule | Sources/Controllers/CameraViewController.swift:83-85 | loading the view sets the torch off and hides the focus view; a flash-capable device shows "flashOff" |
| Camera.CameraController.constructor | Sources/Controllers/CameraViewController.swift:20-47 | a new controller has torch Off, an empty allow-list, nothing running and nothing wired |
| Camera.CameraController.SetMetadata | Sources/Controllers/CameraViewController.swift:20 | only the allow-list changes |
| Camera.CameraController.SetTorchMode | Sources/Controllers/CameraViewController.swift:47-59 | the new fields are `AssignTorch` of the old ones |
| Camera.CameraController.ViewDidLoad | Sources/Controllers/CameraViewController.swift:83-85 | the new fields are `ViewDidLoad` of the old ones |
| Camera.CameraController.ViewDidAppear | Sources/Controllers/CameraViewController.swift:97-101 | the focus view is shown |
| Camera.CameraController.TransitionCompleted | Sources/Controllers/CameraViewController.swift:113-115 | the new fields are `TransitionCompleted` of the old ones: the focus view is shown |
| Camera.CameraController.ViewWillDisappear | Sources/Controllers/CameraViewController.swift:103-106 | the session stops |
| Camera.CameraController.StartCapturing | Sources/Controllers/CameraViewController.swift:120-129 | the new fields are `StartCapturing` of the old ones |
| Camera.CameraController.StopCapturing | Sources/Controllers/CameraViewController.swift:131-140 | the new fields are `StopCapturing` of the old ones |
| Camera.CameraController.AppWillEnterForeground | Sources/Controllers/CameraViewController.swift:145-148 | torch Off through the observer, focus view shown |
| Camera.CameraController.SettingsButtonPressed | Sources/Controllers/CameraViewController.swift:151-153 | the settings tap goes to the delegate |
| Camera.CameraController.FlashButtonPressed | Sources/Controllers/CameraViewController.swift:156-158 | the torch is assigned `next` of its mode through the observer |
| Camera.CameraController.SetupSession | Sources/Controllers/CameraViewController.swift:183-202 | the new fields are `SetupSession` of the old ones |
| Camera.CameraController.PermissionResult | Sources/Controllers/CameraViewController.swift:163-180 | the new fields are `PermissionResult` of the old ones |
| Camera.CameraController.MetadataOutput | Sources/Controllers/CameraViewController.swift:344-348 | the frame's objects go to the delegate |

## Left out

- Layout, styling and animation drawing are not modelled. This covers frames, constraints, blur, the focus-view and loading animations (`animateLoading` in the transition completion), and preview-layer orientation. Of a size transition only its completion is modelled, which shows the focus view (`CameraMachine.TransitionCompleted`). These are view plumbing with floating-point geometry. An animation is modelled only as a queued completion with its duration.
- AVFoundation and OS calls are not modelled. These are the device lookup, the session's input/output objects, `lockForConfiguration`, the permission service, and opening the settings URL (`cameraViewControllerDidTapSettingsButton`). They become booleans: device present, has a flash, simulator, device lockable, permission granted. The "input creation failed" outcome becomes an optional error.
- Dispatch queues and threads are not modelled. Each handler runs to completion as one event. The settings-button update that the source dispatches to the main queue is applied at once.
- The symbology raw-value strings are AVFoundation constants, so they are not modelled. Callbacks carry the symbology itself, and the source's `rawValue` of it is not modelled.
- Strings are sequences of characters. Swift's grapheme-cluster `hasPrefix`/`dropFirst` are taken as work on the first character. Nothing is lost by this: only an EAN-13 value, which is digits, is inspected character by character (`Sources/Controllers/BarcodeScannerViewController.swift:283-284`). Every other value, including free text from QR, PDF417 or Aztec codes, is passed through verbatim.
- The localisation bundle lookup is not modelled: a default message is its key. In the older state table, fonts and tints are named by the `Info` property they read, because UIFont and UIColor values are not modelled.
- Forwarding the scanner's `metadata` to the camera controller (its `didSet` and `viewDidLoad` wiring) is not modelled. The two controllers are separate objects here. The camera side is `Camera.CameraController.SetMetadata`, and the scanner's calls to start and stop capture are its `capturing` flag.
- Delegates are weak optionals called through `?.`. With no delegate set nothing is called. Both `outbox` fields record each call as if the delegate were set.
- The scanner's view-lifecycle methods are not modelled; they hold layout and child-controller wiring only, as does the header view controller.
