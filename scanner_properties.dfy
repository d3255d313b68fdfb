/** What the scanner controller's handlers guarantee, stated over `ScannerMachine`. */
module ScannerProperties {
  import opened Wrappers
  import opened States
  import opened Capture
  import opened ScannerMachine

  // ---------------------------------------------------------------------------
  // One frame

  /** A locked scanner ignores every frame: no callback, no animation, no change at all. */
  lemma LockedFrameIsIgnored(m: Machine, objects: seq<MetadataObject>)
    requires m.locked
    ensures CameraDidOutput(m, objects) == m
  {
  }

  /** The four ways a frame is discarded; only its first object is looked at. */
  lemma ReadableExactly(objects: seq<MetadataObject>, metadata: seq<ObjectType>)
    ensures Readable(objects, metadata).None? <==>
      || |objects| == 0
      || !objects[0].MachineReadableCode?
      || objects[0].stringValue.None?
      || objects[0].codeType !in metadata
    ensures Readable(objects, metadata).Some? ==>
      Readable(objects, metadata).value == Detection(objects[0].stringValue.value, objects[0].codeType)
  {
  }

  /** A discarded frame leaves the scanner, its lock included, exactly as it was. */
  lemma DiscardedFrameChangesNothing(m: Machine, objects: seq<MetadataObject>)
    requires Readable(objects, m.metadata).None?
    ensures CameraDidOutput(m, objects) == m
  {
  }

  /** Frames that agree on their first object have the same effect, whatever follows it. */
  lemma OnlyFirstObjectMatters(m: Machine, objects: seq<MetadataObject>, others: seq<MetadataObject>)
    requires |objects| > 0 && |others| > 0 && objects[0] == others[0]
    ensures CameraDidOutput(m, objects) == CameraDidOutput(m, others)
  {
  }

  /**
   * An accepted frame locks the scanner exactly in one-shot mode, reports the
   * normalised code once, starts the flash animation and changes nothing else.
   */
  lemma AcceptedFrame(m: Machine, objects: seq<MetadataObject>)
    requires !m.locked && Readable(objects, m.metadata).Some?
    ensures var r := CameraDidOutput(m, objects);
      var n := Normalize(Readable(objects, m.metadata).value);
      && r.locked == m.isOneTimeSearch
      && r.outbox == m.outbox + [ScannerDidCaptureCode(n.code, n.codeType)]
      && r.pending == m.pending + [FlashDone(FlashAnimationDuration, m.isOneTimeSearch)]
      && r == m.(locked := r.locked, outbox := r.outbox, pending := r.pending)
  {
  }

  /** EAN-13 with a leading zero is UPC-A: the zero is dropped and the type re-tagged. */
  lemma NormalizeUpcA(code: string)
    requires |code| > 0 && code[0] == '0'
    ensures Normalize(Detection(code, EAN13)) == Detection(code[1..], UPCA)
  {
  }

  /** Every other code is reported verbatim with its own type. */
  lemma NormalizeKeepsOthers(d: Detection)
    requires d.codeType != EAN13 || |d.code| == 0 || d.code[0] != '0'
    ensures Normalize(d) == d
  {
  }

  /** Normalisation is a left inverse of the camera's "prefix a zero, tag EAN-13" encoding. */
  lemma NormalizeUndoesZeroPrefix(upca: string)
    ensures Normalize(Detection(['0'] + upca, EAN13)) == Detection(upca, UPCA)
  {
    assert (['0'] + upca)[1..] == upca;
  }

  /** Normalising twice is normalising once: a re-tagged code is no longer EAN-13. */
  lemma NormalizeIsIdempotent(d: Detection)
    ensures Normalize(Normalize(d)) == Normalize(d)
  {
  }

  lemma NormalizeExample()
    ensures Normalize(Detection("0012345678905", EAN13)) == Detection("012345678905", UPCA)
    ensures Normalize(Detection("4006381333931", EAN13)) == Detection("4006381333931", EAN13)
  {
    NormalizeUpcA("0012345678905");
    assert "0012345678905"[1..] == "012345678905";
  }

  /** The flash completion enters processing exactly in one-shot mode; otherwise it only retires the animation. */
  lemma FlashCompletion(m: Machine, i: nat)
    requires i < |m.pending| && m.pending[i].FlashDone?
    ensures var r := AnimationCompleted(m, i);
      var rest := m.(pending := Without(m.pending, i));
      && (m.pending[i].whenProcessing ==> r == SetStatus(rest, NewStatus(Processing)) && r.status == NewStatus(Processing))
      && (!m.pending[i].whenProcessing ==> r == rest)
  {
  }

  /**
   * Scenario: an unlocked one-shot scanner that is scanning sees a QR code. It
   * reports the code once, and when the flash completes it is processing, locked,
   * and has stopped capturing.
   */
  lemma OneShotCaptureScenario(m: Machine, code: string)
    requires m.isOneTimeSearch && !m.locked && m.status.state == Scanning && QR in m.metadata
    ensures var r := CameraDidOutput(m, [MachineReadableCode(QR, Some(code))]);
      && r.outbox == m.outbox + [ScannerDidCaptureCode(code, QR)]
      && r.locked
      && |r.pending| == |m.pending| + 1
      && var done := AnimationCompleted(r, |m.pending|);
         && done.status == NewStatus(Processing)
         && done.locked && !done.capturing
         && done.outbox == r.outbox
  {
  }

  /**
   * Scenario: a `reset()` issued from inside the code callback is undone. The
   * reset unlocks at once, but the flash animation queued by the same frame
   * completes afterwards and moves the scanner to processing, locked again.
   */
  lemma ResetInsideCaptureCallbackIsUndone(m: Machine, code: string)
    requires m.isOneTimeSearch && !m.locked && m.status.state == Scanning && QR in m.metadata
    ensures var r := Reset(CameraDidOutput(m, [MachineReadableCode(QR, Some(code))]));
      && !r.locked && r.status == NewStatus(Scanning)
      && |r.pending| == |m.pending| + 2 && r.pending[|m.pending|] == FlashDone(FlashAnimationDuration, true)
      && var done := AnimationCompleted(r, |m.pending|);
         && done.status == NewStatus(Processing)
         && done.locked && !done.capturing
  {
  }

  /**
   * Scenario: the one-shot lock lasts only until the status next becomes
   * scanning. A setup success between two frames clears it, so both frames are
   * reported.
   */
  lemma OneShotLockClearedBySetup(m: Machine, code: string)
    requires m.isOneTimeSearch && !m.locked && m.status.state == Scanning && QR in m.metadata
    ensures var frame := [MachineReadableCode(QR, Some(code))];
      var r := CameraDidOutput(CameraDidSetup(CameraDidOutput(m, frame)), frame);
      r.outbox == m.outbox + [ScannerDidCaptureCode(code, QR), ScannerDidCaptureCode(code, QR)]
  {
  }

  // ---------------------------------------------------------------------------
  // Runs of frames

  /** A locked scanner stays silent and unchanged however many frames arrive. */
  lemma {:induction false} LockedIgnoresEveryFrame(m: Machine, frames: seq<seq<MetadataObject>>)
    requires m.locked
    ensures DeliverFrames(m, frames) == m
    decreases |frames|
  {
    if |frames| > 0 {
      LockedFrameIsIgnored(m, frames[0]);
      LockedIgnoresEveryFrame(m, frames[1..]);
    }
  }

  /** In one-shot mode a run of frames yields at most one code: that of the first accepted frame. */
  lemma {:induction false} OneShotReportsAtMostOnce(m: Machine, frames: seq<seq<MetadataObject>>)
    requires m.isOneTimeSearch
    ensures var r := DeliverFrames(m, frames);
      && r.outbox == m.outbox + (if m.locked then [] else FirstReport(frames, m.metadata))
      && |r.outbox| <= |m.outbox| + 1
      && r.status == m.status
    decreases |frames|
  {
    if |frames| == 0 {
    } else if m.locked {
      LockedIgnoresEveryFrame(m, frames);
    } else {
      var m1 := CameraDidOutput(m, frames[0]);
      if Readable(frames[0], m.metadata).Some? {
        assert m1.locked;
        LockedIgnoresEveryFrame(m1, frames[1..]);
      } else {
        assert m1 == m;
      }
      OneShotReportsAtMostOnce(m1, frames[1..]);
    }
  }

  /** With one-shot mode off, every accepted frame of a run is reported, in order, and the scanner stays unlocked. */
  lemma {:induction false} ContinuousReportsEveryFrame(m: Machine, frames: seq<seq<MetadataObject>>)
    requires !m.isOneTimeSearch && !m.locked
    ensures var r := DeliverFrames(m, frames);
      && r.outbox == m.outbox + Reports(frames, m.metadata)
      && !r.locked
      && r.status == m.status && r.capturing == m.capturing && r.timers == m.timers
    decreases |frames|
  {
    if |frames| > 0 {
      var m1 := CameraDidOutput(m, frames[0]);
      assert m1.outbox == m.outbox + Report(frames[0], m.metadata);
      ContinuousReportsEveryFrame(m1, frames[1..]);
      assert m.outbox + Report(frames[0], m.metadata) + Reports(frames[1..], m.metadata)
          == m.outbox + Reports(frames, m.metadata);
    }
  }

  /**
   * Scenario: the close button is tapped while a one-shot capture is processing.
   * The dismissal is reported, and frames that arrive before the transition
   * completes are not reported.
   */
  lemma DismissWhileProcessing(m: Machine, frames: seq<seq<MetadataObject>>)
    requires m.status.state == Processing && m.locked
    ensures DeliverFrames(CloseButtonTapped(m), frames).outbox == m.outbox + [ScannerDidDismiss]
  {
    var c := CloseButtonTapped(m);
    assert c.locked;
    LockedIgnoresEveryFrame(c, frames);
  }

  // ---------------------------------------------------------------------------
  // Status transitions

  /** `resetState` derives the lock and the capture session from the current state, and nothing else. */
  lemma ResetStateRule(m: Machine)
    ensures var r := ResetState(m);
      && (r.locked <==> m.status.state == Processing && m.isOneTimeSearch)
      && (r.capturing <==> m.status.state == Scanning)
      && r == m.(locked := r.locked, capturing := r.capturing)
  {
  }

  /** The duration policy: half a second exactly when the new status is animated and processing is entered or processing or not-found is left. */
  lemma TransitionDurationPolicy(oldValue: Status, newValue: Status)
    ensures TransitionDuration(oldValue, newValue) == 0.5 <==>
      newValue.animated && (newValue.state == Processing || oldValue.state == Processing || oldValue.state == NotFound)
    ensures TransitionDuration(oldValue, newValue) == 0.5 || TransitionDuration(oldValue, newValue) == 0.0
  {
  }

  /**
   * Entering any state but not-found: the new status is stored and shown, one
   * transition is queued, and `resetState` runs at once unless the old state was
   * processing or not-found, in which case the lock and capture wait for the completion.
   */
  lemma SetStatusRule(m: Machine, s: Status)
    requires s.state != NotFound
    ensures var r := SetStatus(m, s);
      var delay := m.status.state == Processing || m.status.state == NotFound;
      && r.status == s && r.shown == s.state
      && r.pending == m.pending + [TransitionDone(TransitionDuration(m.status, s), delay)]
      && r.timers == m.timers && r.outbox == m.outbox
      && (delay ==> r.locked == m.locked && r.capturing == m.capturing)
      && (!delay ==> (r.locked <==> s.state == Processing && m.isOneTimeSearch) && (r.capturing <==> s.state == Scanning))
  {
  }

  /**
   * `resetWithError(m)`: the not-found status carries the override message (or
   * the default one), one unconditional return to scanning is scheduled in 2.0
   * seconds, and lock, capture, animations and callbacks are left alone.
   */
  lemma ResetWithErrorRule(m: Machine, message: Option<string>)
    ensures var r := ResetWithError(m, message);
      && r.status == NewStatus(NotFound, true, message)
      && r.status.text == (if message.Some? then message.value else Text(NotFound))
      && r.shown == NotFound
      && r.timers == m.timers + [Timer(2.0, NewStatus(Scanning))]
      && r == m.(status := r.status, shown := NotFound, timers := r.timers)
  {
  }

  /**
   * The override message is stored but never shown: the message view receives
   * only the state, so with or without a message the scanner shows and schedules
   * the same, and the two results differ in the stored status alone.
   */
  lemma OverrideMessageIsNotShown(m: Machine, message: string)
    ensures ResetWithError(m, Some(message)).shown == ResetWithError(m, None).shown
    ensures ResetWithError(m, Some(message)) == ResetWithError(m, None).(status := NewStatus(NotFound, true, Some(message)))
  {
  }

  /** When the timer fires, the scanner is scanning again, through an animated transition whose completion does the reset. */
  lemma NotFoundReturnsToScanning(m: Machine, message: Option<string>)
    requires m.timers == []
    ensures var r := TimerFired(ResetWithError(m, message));
      && r.status == NewStatus(Scanning) && r.shown == Scanning && r.timers == []
      && r.pending == m.pending + [TransitionDone(0.5, true)]
      && r.locked == m.locked && r.capturing == m.capturing
  {
  }

  /**
   * Once a transition out of processing or not-found has completed with the
   * scanner still scanning, the lock is clear and capture runs.
   */
  lemma ReturnToScanningUnlocks(m: Machine, s: Status)
    requires DelaysReset(m.status.state) && s.state == Scanning
    ensures var r := SetStatus(m, s);
      && |r.pending| == |m.pending| + 1
      && var done := AnimationCompleted(r, |m.pending|);
         !done.locked && done.capturing && done.status == s
  {
    var r := SetStatus(m, s);
    assert r.pending[|m.pending|] == TransitionDone(TransitionDuration(m.status, s), true);
  }

  /**
   * Timers are not cancelled: two not-found errors schedule two returns. The
   * first return leaves the second still pending, so it fires 2.0 seconds after
   * the first error, whatever its own message.
   */
  lemma SecondErrorDoesNotRestartWindow(m: Machine, first: Option<string>, second: Option<string>)
    requires m.timers == []
    ensures var r := TimerFired(ResetWithError(ResetWithError(m, first), second));
      && r.status == NewStatus(Scanning)
      && r.timers == [Timer(2.0, NewStatus(Scanning))]
  {
  }

  /** `reset(animated:)` yields a scanning status with the given animation flag. */
  lemma ResetYieldsScanning(m: Machine, animated: bool)
    ensures Reset(m, animated).status == NewStatus(Scanning, animated)
    ensures Reset(m).status.animated
    ensures Reset(m, animated).outbox == m.outbox
  {
  }

  /** The close button yields a scanning status and then fires the dismissal callback. */
  lemma CloseYieldsScanningAndDismisses(m: Machine)
    ensures CloseButtonTapped(m).status == NewStatus(Scanning)
    ensures CloseButtonTapped(m).outbox == m.outbox + [ScannerDidDismiss]
  {
  }

  /** Setup success yields scanning, failure yields unauthorized, and a capture error only reaches the error delegate. */
  lemma CameraOutcomes(m: Machine, e: CaptureError)
    ensures CameraDidSetup(m).status == NewStatus(Scanning) && CameraDidSetup(m).outbox == m.outbox
    ensures CameraDidFail(m).status == NewStatus(Unauthorized) && CameraDidFail(m).outbox == m.outbox
    ensures CameraDidReceiveError(m, e) == m.(outbox := m.outbox + [ScannerDidReceiveError(e)])
  {
  }

  /** Scenario: permission is refused at start-up. The scanner is unauthorized and does not capture. */
  lemma PermissionDeniedAtStart()
    ensures var r := CameraDidFail(Initial());
      r.status.state == Unauthorized && r.shown == Unauthorized && !r.capturing && !r.locked
  {
  }
}
