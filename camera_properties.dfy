/** What the capture and torch controller guarantees, stated over `CameraMachine`. */
module CameraProperties {
  import opened Wrappers
  import opened Torch
  import opened Capture
  import opened CameraMachine

  /** Without a flash-capable device, assigning the torch mode touches neither the device nor the button. */
  lemma TorchWithoutFlash(env: Environment, c: Camera, mode: TorchMode, configurable: bool)
    requires !FlashCapable(env)
    ensures AssignTorch(env, c, mode, configurable) == c.(torchMode := mode)
  {
  }

  /**
   * With a flash-capable device the button always shows the new mode; the
   * device takes it only when it can be locked, and a failure is swallowed.
   */
  lemma TorchWithFlash(env: Environment, c: Camera, mode: TorchMode, configurable: bool)
    requires FlashCapable(env)
    ensures var r := AssignTorch(env, c, mode, configurable);
      && r.torchMode == mode
      && r.flashImage == Some(Image(mode))
      && (configurable ==> r.deviceTorch == ToCapture(mode))
      && (!configurable ==> r.deviceTorch == c.deviceTorch)
      && r == c.(torchMode := mode, deviceTorch := r.deviceTorch, flashImage := r.flashImage)
  {
  }

  /** `startCapturing` does nothing in the simulator; elsewhere it sets the torch off, runs the session and shows the focus view and flash button. */
  lemma StartCapturingRule(env: Environment, c: Camera, configurable: bool)
    ensures env.isSimulator ==> StartCapturing(env, c, configurable) == c
    ensures !env.isSimulator ==>
      StartCapturing(env, c, configurable) ==
      AssignTorch(env, c, TorchMode.Off, configurable).(sessionRunning := true, focusHidden := false, flashButtonHidden := false)
    ensures !env.isSimulator ==> var r := StartCapturing(env, c, configurable);
      r.torchMode == TorchMode.Off && r.sessionRunning && !r.focusHidden && !r.flashButtonHidden
  {
  }

  /** `stopCapturing` does nothing in the simulator; elsewhere it sets the torch off, stops the session and hides the focus view and flash button. */
  lemma StopCapturingRule(env: Environment, c: Camera, configurable: bool)
    ensures env.isSimulator ==> StopCapturing(env, c, configurable) == c
    ensures !env.isSimulator ==> var r := StopCapturing(env, c, configurable);
      r.torchMode == TorchMode.Off && !r.sessionRunning && r.focusHidden && r.flashButtonHidden
      && r.outbox == c.outbox && r.inputAdded == c.inputAdded && r.outputTypes == c.outputTypes
  {
  }

  /** Starting or stopping twice in a row is the same as doing it once. */
  lemma StartStopAreIdempotent(env: Environment, c: Camera, configurable: bool)
    ensures StartCapturing(env, StartCapturing(env, c, configurable), configurable) == StartCapturing(env, c, configurable)
    ensures StopCapturing(env, StopCapturing(env, c, configurable), configurable) == StopCapturing(env, c, configurable)
  {
  }

  /** A press moves the torch to the next mode; coming back to the foreground turns it off. */
  lemma TorchHandlers(env: Environment, c: Camera, configurable: bool)
    ensures FlashButtonPressed(env, c, configurable).torchMode == Next(c.torchMode)
    ensures FlashButtonPressed(env, c, configurable).torchMode != c.torchMode
    ensures AppWillEnterForeground(env, c, configurable).torchMode == TorchMode.Off
    ensures !AppWillEnterForeground(env, c, configurable).focusHidden
  {
  }

  /** After `k` presses the torch is back where it started exactly when `k` is even. */
  lemma {:induction false} FlashButtonPressesParity(env: Environment, c: Camera, configurable: bool, k: nat)
    ensures FlashButtonPresses(env, c, configurable, k).torchMode == if k % 2 == 0 then c.torchMode else Next(c.torchMode)
    ensures FlashButtonPresses(env, c, configurable, k).sessionRunning == c.sessionRunning
    decreases k
  {
    if k > 0 {
      var c1 := FlashButtonPressed(env, c, configurable);
      FlashButtonPressesParity(env, c1, configurable, k - 1);
      NextIsInvolution(c.torchMode);
    }
  }

  /**
   * The permission result: the settings button is hidden exactly when access
   * was granted; on success the session is set up and then the delegate hears
   * `didSetup`; on failure the delegate only hears `didFail`.
   */
  lemma PermissionResultRule(env: Environment, c: Camera, granted: bool, inputError: Option<CaptureError>)
    ensures PermissionResult(env, c, granted, inputError).settingsButtonHidden == granted
    ensures granted ==> var s := SetupSession(env, c.(settingsButtonHidden := true), inputError);
      PermissionResult(env, c, granted, inputError) == s.(outbox := s.outbox + [DidSetupCaptureSession])
    ensures !granted ==>
      PermissionResult(env, c, granted, inputError) ==
      c.(settingsButtonHidden := false, outbox := c.outbox + [DidFailToSetupCaptureSession])
  {
  }

  /** Refused permission never wires an output, so no frame can arrive. */
  lemma DeniedPermissionWiresNothing(env: Environment, c: Camera, inputError: Option<CaptureError>)
    ensures PermissionResult(env, c, false, inputError).outputTypes == c.outputTypes
    ensures PermissionResult(env, c, false, inputError).inputAdded == c.inputAdded
  {
  }

  /** `setupSession` does nothing without a device or in the simulator. */
  lemma SetupSessionWithoutDevice(env: Environment, c: Camera, inputError: Option<CaptureError>)
    requires !env.hasDevice || env.isSimulator
    ensures SetupSession(env, c, inputError) == c
  {
  }

  /**
   * Granted access is reported as a successful setup even when there is no
   * device, or in the simulator: nothing is wired and no error is sent.
   */
  lemma GrantedWithoutDeviceStillReportsSetup(env: Environment, c: Camera, inputError: Option<CaptureError>)
    requires !env.hasDevice || env.isSimulator
    ensures PermissionResult(env, c, true, inputError) ==
      c.(settingsButtonHidden := true, outbox := c.outbox + [DidSetupCaptureSession])
  {
  }

  /** With a device, a failed input goes to the delegate, and the output is still added with the current symbologies. */
  lemma SetupSessionWithDevice(env: Environment, c: Camera, inputError: Option<CaptureError>)
    requires env.hasDevice && !env.isSimulator
    ensures var r := SetupSession(env, c, inputError);
      && r.outputTypes == Some(c.metadata)
      && (inputError.None? ==> r.inputAdded && r.outbox == c.outbox)
      && (inputError.Some? ==> r.inputAdded == c.inputAdded && r.outbox == c.outbox + [DidReceiveError(inputError.value)])
  {
  }

  /** Frames are forwarded to the delegate unchanged, and nothing else changes. */
  lemma MetadataForwarding(c: Camera, objects: seq<MetadataObject>)
    ensures MetadataOutput(c, objects) == c.(outbox := c.outbox + [DidOutput(objects)])
    ensures MetadataOutput(c, objects).outbox[|c.outbox|] == DidOutput(objects)
  {
  }

  /** Leaving the screen always stops the session, and touches nothing else. */
  lemma DisappearingStopsSession(c: Camera)
    ensures !ViewWillDisappear(c).sessionRunning
    ensures ViewWillDisappear(c) == c.(sessionRunning := false)
  {
  }

  /**
   * A finished size transition shows the focus view again, exactly as the view
   * appearing does, even after `stopCapturing` hid it.
   */
  lemma TransitionShowsFocusView(env: Environment, c: Camera, configurable: bool)
    ensures TransitionCompleted(c) == ViewDidAppear(c)
    ensures !TransitionCompleted(StopCapturing(env, c, configurable)).focusHidden
  {
  }

  /** Loading the view turns the torch off and hides the focus view; a flash-capable device shows the off image, locked or not. */
  lemma ViewDidLoadRule(env: Environment, configurable: bool)
    ensures var r := ViewDidLoad(env, Initial(), configurable);
      && r.torchMode == TorchMode.Off && r.focusHidden
      && (FlashCapable(env) ==> r.flashImage == Some("flashOff"))
      && (!FlashCapable(env) ==> r.flashImage == None)
  {
  }
}
