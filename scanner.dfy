/**
 * The barcode scanner controller (Sources/Controllers/BarcodeScannerViewController.swift)
 * as an object whose handlers update its fields in the order the source does.
 * Each public handler is specified by the matching `ScannerMachine` function.
 */
module Scanner {
  import opened Wrappers
  import opened States
  import opened Capture
  import ScannerMachine

  class ScannerController {
    var isOneTimeSearch: bool
    var metadata: seq<ObjectType>
    var status: Status
    var locked: bool
    var capturing: bool
    var shown: State
    var timers: seq<ScannerMachine.Timer>
    var pending: seq<ScannerMachine.Completion>
    var outbox: seq<ScannerMachine.Callback>

    /** The controller's fields as one value. */
    function Snapshot(): ScannerMachine.Machine
      reads this
    {
      ScannerMachine.Machine(isOneTimeSearch, metadata, status, locked, capturing, shown, timers, pending, outbox)
    }

    constructor ()
      ensures Snapshot() == ScannerMachine.Initial()
    {
      isOneTimeSearch := true;
      metadata := DefaultMetadata;
      status := NewStatus(Scanning);
      locked := false;
      capturing := false;
      shown := Scanning;
      timers := [];
      pending := [];
      outbox := [];
    }

    method SetIsOneTimeSearch(value: bool)
      modifies this
      ensures Snapshot() == old(Snapshot()).(isOneTimeSearch := value)
    {
      isOneTimeSearch := value;
    }

    method SetMetadata(value: seq<ObjectType>)
      modifies this
      ensures Snapshot() == old(Snapshot()).(metadata := value)
    {
      metadata := value;
    }

    /** `resetState`. */
    method ResetState()
      modifies this
      ensures Snapshot() == ScannerMachine.ResetState(old(Snapshot()))
    {
      locked := status.state == Processing && isOneTimeSearch;
      if status.state == Scanning {
        capturing := true;
      } else {
        capturing := false;
      }
    }

    /** `changeStatus(from:to:)`; the new status is already stored. */
    method ChangeStatus(oldValue: Status, newValue: Status)
      modifies this
      ensures Snapshot() == ScannerMachine.ChangeStatus(old(Snapshot()), oldValue, newValue)
    {
      if newValue.state == NotFound {
        shown := newValue.state;
        timers := timers + [ScannerMachine.Timer(ScannerMachine.NotFoundDisplayTime, NewStatus(Scanning))];
        return;
      }
      var duration := ScannerMachine.TransitionDuration(oldValue, newValue);
      var delayReset := ScannerMachine.DelaysReset(oldValue.state);
      if !delayReset {
        ResetState();
      }
      shown := newValue.state;
      pending := pending + [ScannerMachine.TransitionDone(duration, delayReset)];
    }

    /** Assigning `status`, which runs its observer. */
    method SetStatus(newValue: Status)
      modifies this
      ensures Snapshot() == ScannerMachine.SetStatus(old(Snapshot()), newValue)
    {
      var oldValue := status;
      status := newValue;
      ChangeStatus(oldValue, newValue);
    }

    method ResetWithError(message: Option<string> := None)
      modifies this
      ensures Snapshot() == ScannerMachine.ResetWithError(old(Snapshot()), message)
    {
      SetStatus(NewStatus(NotFound, text := message));
    }

    method Reset(animated: bool := true)
      modifies this
      ensures Snapshot() == ScannerMachine.Reset(old(Snapshot()), animated)
    {
      SetStatus(NewStatus(Scanning, animated));
    }

    /** `headerViewControllerDidTapCloseButton`. */
    method CloseButtonTapped()
      modifies this
      ensures Snapshot() == ScannerMachine.CloseButtonTapped(old(Snapshot()))
    {
      SetStatus(NewStatus(Scanning));
      outbox := outbox + [ScannerMachine.ScannerDidDismiss];
    }

    /** `cameraViewControllerDidSetupCaptureSession`. */
    method CameraDidSetup()
      modifies this
      ensures Snapshot() == ScannerMachine.CameraDidSetup(old(Snapshot()))
    {
      SetStatus(NewStatus(Scanning));
    }

    /** `cameraViewControllerDidFailToSetupCaptureSession`. */
    method CameraDidFail()
      modifies this
      ensures Snapshot() == ScannerMachine.CameraDidFail(old(Snapshot()))
    {
      SetStatus(NewStatus(Unauthorized));
    }

    /** `cameraViewController(_:didReceiveError:)`. */
    method CameraDidReceiveError(e: CaptureError)
      modifies this
      ensures Snapshot() == ScannerMachine.CameraDidReceiveError(old(Snapshot()), e)
    {
      outbox := outbox + [ScannerMachine.ScannerDidReceiveError(e)];
    }

    /** `animateFlash(whenProcessing:)`: the flash view fades out; its completion runs later. */
    method AnimateFlash(whenProcessing: bool)
      modifies this
      ensures Snapshot() == old(Snapshot()).(pending := old(pending) + [ScannerMachine.FlashDone(ScannerMachine.FlashAnimationDuration, whenProcessing)])
    {
      pending := pending + [ScannerMachine.FlashDone(ScannerMachine.FlashAnimationDuration, whenProcessing)];
    }

    /** `cameraViewController(_:didOutput:)`. */
    method CameraDidOutput(objects: seq<MetadataObject>)
      modifies this
      ensures Snapshot() == ScannerMachine.CameraDidOutput(old(Snapshot()), objects)
    {
      if locked {
        return;
      }
      if |objects| == 0 {
        return;
      }
      var first := objects[0];
      if !first.MachineReadableCode? || first.stringValue.None? || first.codeType !in metadata {
        return;
      }
      var code := first.stringValue.value;
      if isOneTimeSearch {
        locked := true;
      }
      var rawType := first.codeType;
      if first.codeType == EAN13 && |code| > 0 && code[0] == '0' {
        code := code[1..];
        rawType := UPCA;
      }
      outbox := outbox + [ScannerMachine.ScannerDidCaptureCode(code, rawType)];
      AnimateFlash(isOneTimeSearch);
    }

    /** The completion block of pending animation `i` runs. */
    method AnimationCompleted(i: nat)
      requires i < |pending|
      modifies this
      ensures Snapshot() == ScannerMachine.AnimationCompleted(old(Snapshot()), i)
    {
      var done := pending[i];
      pending := pending[..i] + pending[i + 1..];
      match done
      case TransitionDone(_, delayReset) =>
        if delayReset {
          ResetState();
        }
      case FlashDone(_, whenProcessing) =>
        if whenProcessing {
          SetStatus(NewStatus(Processing));
        }
    }

    /** The oldest pending return to scanning fires. */
    method TimerFired()
      requires |timers| > 0
      modifies this
      ensures Snapshot() == ScannerMachine.TimerFired(old(Snapshot()))
    {
      var target := timers[0].target;
      timers := timers[1..];
      SetStatus(target);
    }
  }
}
