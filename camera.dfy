/**
 * The capture and torch controller (Sources/Controllers/CameraViewController.swift)
 * as an object. `torchMode` is assigned through `SetTorchMode`, which runs the
 * property's observer; each handler is specified by the matching `CameraMachine` function.
 */
module Camera {
  import opened Wrappers
  import opened Torch
  import opened Capture
  import CameraMachine

  class CameraController {
    const env: CameraMachine.Environment
    var metadata: seq<ObjectType>
    var torchMode: TorchMode
    var deviceTorch: CaptureTorchMode
    var flashImage: Option<string>
    var sessionRunning: bool
    var focusHidden: bool
    var flashButtonHidden: bool
    var settingsButtonHidden: bool
    var inputAdded: bool
    var outputTypes: Option<seq<ObjectType>>
    var outbox: seq<CameraMachine.Event>

    /** The controller's fields as one value. */
    function Snapshot(): CameraMachine.Camera
      reads this
    {
      CameraMachine.Camera(metadata, torchMode, deviceTorch, flashImage, sessionRunning,
        focusHidden, flashButtonHidden, settingsButtonHidden, inputAdded, outputTypes, outbox)
    }

    constructor (env: CameraMachine.Environment)
      ensures this.env == env
      ensures Snapshot() == CameraMachine.Initial()
    {
      this.env := env;
      metadata := [];
      torchMode := TorchMode.Off;
      deviceTorch := CaptureTorchMode.Off;
      flashImage := None;
      sessionRunning := false;
      focusHidden := false;
      flashButtonHidden := false;
      settingsButtonHidden := false;
      inputAdded := false;
      outputTypes := None;
      outbox := [];
    }

    method SetMetadata(value: seq<ObjectType>)
      modifies this
      ensures Snapshot() == old(Snapshot()).(metadata := value)
    {
      metadata := value;
    }

    /** Assigning `torchMode`; `configurable` says whether the device can be locked for configuration. */
    method SetTorchMode(mode: TorchMode, configurable: bool)
      modifies this
      ensures Snapshot() == CameraMachine.AssignTorch(env, old(Snapshot()), mode, configurable)
    {
      torchMode := mode;
      if !(env.hasDevice && env.hasFlash) {
        return;
      }
      if configurable {
        deviceTorch := ToCapture(torchMode);
      }
      flashImage := Some(Image(torchMode));
    }

    method ViewDidLoad(configurable: bool)
      modifies this
      ensures Snapshot() == CameraMachine.ViewDidLoad(env, old(Snapshot()), configurable)
    {
      SetTorchMode(TorchMode.Off, configurable);
      focusHidden := true;
    }

    method ViewDidAppear()
      modifies this
      ensures Snapshot() == CameraMachine.ViewDidAppear(old(Snapshot()))
    {
      focusHidden := false;
    }

    /** The completion of `viewWillTransition(to:with:)`. */
    method TransitionCompleted()
      modifies this
      ensures Snapshot() == CameraMachine.TransitionCompleted(old(Snapshot()))
    {
      focusHidden := false;
    }

    method ViewWillDisappear()
      modifies this
      ensures Snapshot() == CameraMachine.ViewWillDisappear(old(Snapshot()))
    {
      sessionRunning := false;
    }

    method StartCapturing(configurable: bool)
      modifies this
      ensures Snapshot() == CameraMachine.StartCapturing(env, old(Snapshot()), configurable)
    {
      if env.isSimulator {
        return;
      }
      SetTorchMode(TorchMode.Off, configurable);
      sessionRunning := true;
      focusHidden := false;
      flashButtonHidden := false;
    }

    method StopCapturing(configurable: bool)
      modifies this
      ensures Snapshot() == CameraMachine.StopCapturing(env, old(Snapshot()), configurable)
    {
      if env.isSimulator {
        return;
      }
      SetTorchMode(TorchMode.Off, configurable);
      sessionRunning := false;
      focusHidden := true;
      flashButtonHidden := true;
    }

    method AppWillEnterForeground(configurable: bool)
      modifies this
      ensures Snapshot() == CameraMachine.AppWillEnterForeground(env, old(Snapshot()), configurable)
    {
      SetTorchMode(TorchMode.Off, configurable);
      focusHidden := false;
    }

    method FlashButtonPressed(configurable: bool)
      modifies this
      ensures Snapshot() == CameraMachine.FlashButtonPressed(env, old(Snapshot()), configurable)
    {
      SetTorchMode(Next(torchMode), configurable);
    }

    method SettingsButtonPressed()
      modifies this
      ensures Snapshot() == CameraMachine.SettingsButtonPressed(old(Snapshot()))
    {
      outbox := outbox + [CameraMachine.DidTapSettingsButton];
    }

    /** `setupSession`; `inputError` is what creating the device input threw, if anything. */
    method SetupSession(inputError: Option<CaptureError>)
      modifies this
      ensures Snapshot() == CameraMachine.SetupSession(env, old(Snapshot()), inputError)
    {
      if !env.hasDevice || env.isSimulator {
        return;
      }
      match inputError {
        case None => inputAdded := true;
        case Some(e) => outbox := outbox + [CameraMachine.DidReceiveError(e)];
      }
      outputTypes := Some(metadata);
    }

    /** The permission check's callback, with whether access was granted. */
    method PermissionResult(granted: bool, inputError: Option<CaptureError>)
      modifies this
      ensures Snapshot() == CameraMachine.PermissionResult(env, old(Snapshot()), granted, inputError)
    {
      settingsButtonHidden := granted;
      if granted {
        SetupSession(inputError);
        outbox := outbox + [CameraMachine.DidSetupCaptureSession];
      } else {
        outbox := outbox + [CameraMachine.DidFailToSetupCaptureSession];
      }
    }

    /** `metadataOutput(_:didOutput:from:)`. */
    method MetadataOutput(objects: seq<MetadataObject>)
      modifies this
      ensures Snapshot() == CameraMachine.MetadataOutput(old(Snapshot()), objects)
    {
      outbox := outbox + [CameraMachine.DidOutput(objects)];
    }
  }
}
