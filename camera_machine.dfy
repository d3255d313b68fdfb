/**
 * The capture and torch controller (Sources/Controllers/CameraViewController.swift)
 * as a pure state machine. The hardware is reduced to what the controller asks
 * of it: whether a device exists and has a flash, whether the code runs in the
 * simulator, whether the device can be locked for configuration, the outcome of
 * the permission check and of creating the device input.
 */
module CameraMachine {
  import opened Wrappers
  import opened Torch
  import opened Capture

  /** What the controller finds about the hardware it runs on; fixed for its lifetime. */
  datatype Environment = Environment(hasDevice: bool, hasFlash: bool, isSimulator: bool)

  /** The torch observer touches the device only when there is one and it has a flash. */
  predicate FlashCapable(env: Environment)
  {
    env.hasDevice && env.hasFlash
  }

  /** Calls the controller makes on its delegate. */
  datatype Event =
    | DidSetupCaptureSession
    | DidFailToSetupCaptureSession
    | DidReceiveError(error: CaptureError)
    | DidTapSettingsButton
    | DidOutput(objects: seq<MetadataObject>)

  datatype Camera = Camera(
    metadata: seq<ObjectType>,                 // symbologies the metadata output is to detect
    torchMode: TorchMode,                      // the controller's torch mode
    deviceTorch: CaptureTorchMode,             // the torch mode last applied to the device
    flashImage: Option<string>,                // the flash button's image, once one was set
    sessionRunning: bool,
    focusHidden: bool,
    flashButtonHidden: bool,
    settingsButtonHidden: bool,
    inputAdded: bool,                          // the device input was added to the session
    outputTypes: Option<seq<ObjectType>>,      // the metadata output's types, once it was added
    outbox: seq<Event>)                        // delegate calls made so far, oldest first

  /** A fresh controller: nothing is configured, hidden or running yet. */
  function Initial(): Camera
  {
    Camera([], TorchMode.Off, CaptureTorchMode.Off, None, false, false, false, false, false, None, [])
  }

  /**
   * Assigning `torchMode`: the observer applies the mode to a flash-capable
   * device (a failure to lock it for configuration is swallowed) and shows the
   * mode's image on the flash button.
   */
  function AssignTorch(env: Environment, c: Camera, mode: TorchMode, configurable: bool): Camera
  {
    if !FlashCapable(env) then c.(torchMode := mode)
    else c.(torchMode := mode,
            deviceTorch := if configurable then ToCapture(mode) else c.deviceTorch,
            flashImage := Some(Image(mode)))
  }

  /** `viewDidLoad`: the torch is set off and the focus view hidden; the permission check starts. */
  function ViewDidLoad(env: Environment, c: Camera, configurable: bool): Camera
  {
    AssignTorch(env, c, TorchMode.Off, configurable).(focusHidden := true)
  }

  /** `viewDidAppear`: the focus animation starts, which shows the focus view. */
  function ViewDidAppear(c: Camera): Camera
  {
    c.(focusHidden := false)
  }

  /** `viewWillDisappear`: the session stops. */
  function ViewWillDisappear(c: Camera): Camera
  {
    c.(sessionRunning := false)
  }

  /** The completion of a size transition (`viewWillTransition`) restarts the focus animation, which shows the focus view. */
  function TransitionCompleted(c: Camera): Camera
  {
    c.(focusHidden := false)
  }

  /** `startCapturing`. */
  function StartCapturing(env: Environment, c: Camera, configurable: bool): Camera
  {
    if env.isSimulator then c
    else AssignTorch(env, c, TorchMode.Off, configurable).(sessionRunning := true, focusHidden := false, flashButtonHidden := false)
  }

  /** `stopCapturing`. */
  function StopCapturing(env: Environment, c: Camera, configurable: bool): Camera
  {
    if env.isSimulator then c
    else AssignTorch(env, c, TorchMode.Off, configurable).(sessionRunning := false, focusHidden := true, flashButtonHidden := true)
  }

  /** `appWillEnterForeground`: the torch is set off and the focus animation restarts. */
  function AppWillEnterForeground(env: Environment, c: Camera, configurable: bool): Camera
  {
    AssignTorch(env, c, TorchMode.Off, configurable).(focusHidden := false)
  }

  /** `flashButtonDidPress`. */
  function FlashButtonPressed(env: Environment, c: Camera, configurable: bool): Camera
  {
    AssignTorch(env, c, Next(c.torchMode), configurable)
  }

  /** `settingsButtonDidPress`. */
  function SettingsButtonPressed(c: Camera): Camera
  {
    c.(outbox := c.outbox + [DidTapSettingsButton])
  }

  /**
   * `setupSession`: without a device, or in the simulator, nothing happens.
   * Otherwise the input is added, or its error goes to the delegate, and the
   * metadata output is added with the current symbologies either way.
   */
  function SetupSession(env: Environment, c: Camera, inputError: Option<CaptureError>): Camera
  {
    if !env.hasDevice || env.isSimulator then c
    else
      var c1 := match inputError
        case None => c.(inputAdded := true)
        case Some(e) => c.(outbox := c.outbox + [DidReceiveError(e)]);
      c1.(outputTypes := Some(c.metadata))
  }

  /** The result of the permission check started by `setupCamera`. */
  function PermissionResult(env: Environment, c: Camera, granted: bool, inputError: Option<CaptureError>): Camera
  {
    var c1 := c.(settingsButtonHidden := granted);
    if granted then
      var c2 := SetupSession(env, c1, inputError);
      c2.(outbox := c2.outbox + [DidSetupCaptureSession])
    else
      c1.(outbox := c1.outbox + [DidFailToSetupCaptureSession])
  }

  /** The metadata output delivers a frame's objects; they go to the delegate untouched. */
  function MetadataOutput(c: Camera, objects: seq<MetadataObject>): Camera
  {
    c.(outbox := c.outbox + [DidOutput(objects)])
  }

  /** `k` presses of the flash button. */
  function FlashButtonPresses(env: Environment, c: Camera, configurable: bool, k: nat): Camera
    decreases k
  {
    if k == 0 then c else FlashButtonPresses(env, FlashButtonPressed(env, c, configurable), configurable, k - 1)
  }
}
