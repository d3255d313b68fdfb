/**
 * The decision logic of the barcode scanner controller
 * (Sources/Controllers/BarcodeScannerViewController.swift) as a pure state
 * machine. A `Machine` holds everything the controller's handlers read or write;
 * each handler is a function from the old machine to the new one. Work the source
 * defers (animation completions, the 2-second timer) is queued in the machine and
 * runs later as an event of its own.
 */
module ScannerMachine {
  import opened Wrappers
  import opened States
  import opened Capture

  /** Duration of an animated message-view transition, in seconds. */
  const TransitionAnimationDuration: real := 0.5
  /** Duration of the white flash shown on capture, in seconds. */
  const FlashAnimationDuration: real := 0.2
  /** How long the not-found message stays before the scanner returns to scanning, in seconds. */
  const NotFoundDisplayTime: real := 2.0

  /** Calls the controller makes on its code, error and dismissal delegates. */
  datatype Callback =
    | ScannerDidCaptureCode(code: string, codeType: ObjectType)
    | ScannerDidReceiveError(error: CaptureError)
    | ScannerDidDismiss

  /** A scheduled assignment of `target` to the status, `delay` seconds after it was scheduled. */
  datatype Timer = Timer(delay: real, target: Status)

  /** An animation whose completion block has not run yet, with what the block will do. */
  datatype Completion =
    | TransitionDone(duration: real, delayReset: bool)
    | FlashDone(duration: real, whenProcessing: bool)

  datatype Machine = Machine(
    isOneTimeSearch: bool,       // public: report one code, then wait for a reset
    metadata: seq<ObjectType>,   // public: the symbology allow-list
    status: Status,              // the current status
    locked: bool,                // when set, frames are ignored
    capturing: bool,             // whether capture was last started (true) or stopped (false)
    shown: State,                // the state the message view was last given
    timers: seq<Timer>,          // pending returns to scanning, oldest first
    pending: seq<Completion>,    // animations whose completion has not run
    outbox: seq<Callback>)       // delegate calls made so far, oldest first

  /** A freshly created controller, before any event. */
  function Initial(): Machine
  {
    Machine(true, DefaultMetadata, NewStatus(Scanning), false, false, Scanning, [], [], [])
  }

  // ---------------------------------------------------------------------------
  // Detection filter

  /** A code and its symbology as they are reported to the code delegate. */
  datatype Detection = Detection(code: string, codeType: ObjectType)

  /**
   * The guard of `didOutput`: the frame is used only when its FIRST object is a
   * machine-readable code that has a string value and an allowed symbology.
   */
  function Readable(objects: seq<MetadataObject>, metadata: seq<ObjectType>): Option<Detection>
  {
    if |objects| == 0 then None
    else match objects[0]
      case MachineReadableCode(t, Some(code)) => if t in metadata then Some(Detection(code, t)) else None
      case _ => None
  }

  /** The camera reports a UPC-A code as an EAN-13 code with a leading zero; undo that. */
  function Normalize(d: Detection): Detection
  {
    if d.codeType == EAN13 && |d.code| > 0 && d.code[0] == '0' then Detection(d.code[1..], UPCA) else d
  }

  /** The delegate call a frame produces when the scanner is unlocked: none or one. */
  function Report(objects: seq<MetadataObject>, metadata: seq<ObjectType>): seq<Callback>
  {
    match Readable(objects, metadata)
    case None => []
    case Some(d) => var n := Normalize(d); [ScannerDidCaptureCode(n.code, n.codeType)]
  }

  // ---------------------------------------------------------------------------
  // Status transitions

  /** `resetState`: the lock and the capture session follow the CURRENT status. */
  function ResetState(m: Machine): Machine
  {
    m.(locked := m.status.state == Processing && m.isOneTimeSearch,
       capturing := m.status.state == Scanning)
  }

  /** Whether leaving `oldState` postpones `resetState` to the transition's completion. */
  function DelaysReset(oldState: State): bool
  {
    oldState == Processing || oldState == NotFound
  }

  /** How long the message view takes to move into a state other than not-found. */
  function TransitionDuration(oldValue: Status, newValue: Status): real
  {
    var animatedTransition := newValue.state == Processing || oldValue.state == Processing || oldValue.state == NotFound;
    if newValue.animated && animatedTransition then TransitionAnimationDuration else 0.0
  }

  /** `changeStatus(from:to:)`, run by the `status` observer after the new value is stored. */
  function ChangeStatus(m: Machine, oldValue: Status, newValue: Status): Machine
  {
    if newValue.state == NotFound then
      m.(shown := NotFound, timers := m.timers + [Timer(NotFoundDisplayTime, NewStatus(Scanning))])
    else
      var delayReset := DelaysReset(oldValue.state);
      var m1 := if delayReset then m else ResetState(m);
      m1.(shown := newValue.state,
          pending := m1.pending + [TransitionDone(TransitionDuration(oldValue, newValue), delayReset)])
  }

  /** Assigning the `status` property: store, then run the observer. */
  function SetStatus(m: Machine, newValue: Status): Machine
  {
    ChangeStatus(m.(status := newValue), m.status, newValue)
  }

  // ---------------------------------------------------------------------------
  // Events

  /** `resetWithError(message:)`. */
  function ResetWithError(m: Machine, message: Option<string> := None): Machine
  {
    SetStatus(m, NewStatus(NotFound, text := message))
  }

  /** `reset(animated:)`. */
  function Reset(m: Machine, animated: bool := true): Machine
  {
    SetStatus(m, NewStatus(Scanning, animated))
  }

  /** The header's close button. */
  function CloseButtonTapped(m: Machine): Machine
  {
    var m1 := SetStatus(m, NewStatus(Scanning));
    m1.(outbox := m1.outbox + [ScannerDidDismiss])
  }

  /** The camera controller reports that permission was granted and the session was set up. */
  function CameraDidSetup(m: Machine): Machine
  {
    SetStatus(m, NewStatus(Scanning))
  }

  /** The camera controller reports that permission was refused. */
  function CameraDidFail(m: Machine): Machine
  {
    SetStatus(m, NewStatus(Unauthorized))
  }

  /** The camera controller forwards a capture error to the error delegate. */
  function CameraDidReceiveError(m: Machine, e: CaptureError): Machine
  {
    m.(outbox := m.outbox + [ScannerDidReceiveError(e)])
  }

  /** `cameraViewController(_:didOutput:)`: filter one frame, report its code, start the flash. */
  function CameraDidOutput(m: Machine, objects: seq<MetadataObject>): Machine
  {
    if m.locked then m
    else match Readable(objects, m.metadata)
      case None => m
      case Some(d) =>
        var n := Normalize(d);
        m.(locked := m.locked || m.isOneTimeSearch,
           outbox := m.outbox + [ScannerDidCaptureCode(n.code, n.codeType)],
           pending := m.pending + [FlashDone(FlashAnimationDuration, m.isOneTimeSearch)])
  }

  /** The pending animations without the one at `i`. */
  function Without(s: seq<Completion>, i: nat): (r: seq<Completion>)
    requires i < |s|
    ensures |r| == |s| - 1
  {
    s[..i] + s[i + 1..]
  }

  /** The completion block of pending animation `i` runs. */
  function AnimationCompleted(m: Machine, i: nat): Machine
    requires i < |m.pending|
  {
    var m1 := m.(pending := Without(m.pending, i));
    match m.pending[i]
    case TransitionDone(_, delayReset) => if delayReset then ResetState(m1) else m1
    case FlashDone(_, whenProcessing) => if whenProcessing then SetStatus(m1, NewStatus(Processing)) else m1
  }

  /** The oldest pending timer fires (all wait the same time, so they fire in the order scheduled). */
  function TimerFired(m: Machine): Machine
    requires |m.timers| > 0
  {
    SetStatus(m.(timers := m.timers[1..]), m.timers[0].target)
  }

  /** A run of frames with no other event in between. */
  function DeliverFrames(m: Machine, frames: seq<seq<MetadataObject>>): Machine
    decreases |frames|
  {
    if |frames| == 0 then m else DeliverFrames(CameraDidOutput(m, frames[0]), frames[1..])
  }

  /** The reports of every frame of a run, in order. */
  function Reports(frames: seq<seq<MetadataObject>>, metadata: seq<ObjectType>): seq<Callback>
    decreases |frames|
  {
    if |frames| == 0 then [] else Report(frames[0], metadata) + Reports(frames[1..], metadata)
  }

  /** The report of the first frame of a run that yields one, if any. */
  function FirstReport(frames: seq<seq<MetadataObject>>, metadata: seq<ObjectType>): (r: seq<Callback>)
    ensures |r| <= 1
    decreases |frames|
  {
    if |frames| == 0 then []
    else if Report(frames[0], metadata) != [] then Report(frames[0], metadata)
    else FirstReport(frames[1..], metadata)
  }
}
