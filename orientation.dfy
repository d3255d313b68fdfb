/** The mapping from the interface orientation to the video orientation (Sources/UIInterfaceOrientation+Capture.swift). */
module Orientation {

  /** `UIInterfaceOrientation`. */
  datatype InterfaceOrientation = Unknown | Portrait | PortraitUpsideDown | LandscapeLeft | LandscapeRight

  /** `AVCaptureVideoOrientation`. */
  datatype VideoOrientation = Portrait | PortraitUpsideDown | LandscapeRight | LandscapeLeft

  /** `captureOrientation`: each named orientation maps to its namesake; anything else to portrait. */
  function CaptureOrientation(o: InterfaceOrientation): VideoOrientation
  {
    match o
    case LandscapeLeft => VideoOrientation.LandscapeLeft
    case LandscapeRight => VideoOrientation.LandscapeRight
    case Portrait => VideoOrientation.Portrait
    case PortraitUpsideDown => VideoOrientation.PortraitUpsideDown
    case _ => VideoOrientation.Portrait
  }

  function InterfaceName(o: InterfaceOrientation): string
  {
    match o
    case Unknown => "unknown"
    case Portrait => "portrait"
    case PortraitUpsideDown => "portraitUpsideDown"
    case LandscapeLeft => "landscapeLeft"
    case LandscapeRight => "landscapeRight"
  }

  function VideoName(v: VideoOrientation): string
  {
    match v
    case Portrait => "portrait"
    case PortraitUpsideDown => "portraitUpsideDown"
    case LandscapeRight => "landscapeRight"
    case LandscapeLeft => "landscapeLeft"
  }

  /** A named orientation keeps its name; the unknown one falls back to portrait. */
  lemma CaptureOrientationKeepsNames(o: InterfaceOrientation)
    ensures o != InterfaceOrientation.Unknown ==> VideoName(CaptureOrientation(o)) == InterfaceName(o)
    ensures o == InterfaceOrientation.Unknown ==> CaptureOrientation(o) == VideoOrientation.Portrait
  {
  }

  /** The mapping reaches every video orientation, and only portrait has two preimages. */
  lemma CaptureOrientationIsOnto(v: VideoOrientation)
    ensures exists o :: o != InterfaceOrientation.Unknown && CaptureOrientation(o) == v
    ensures forall a, b :: CaptureOrientation(a) == CaptureOrientation(b) && a != b ==> CaptureOrientation(a) == VideoOrientation.Portrait
  {
    match v
    case Portrait => assert CaptureOrientation(InterfaceOrientation.Portrait) == v;
    case PortraitUpsideDown => assert CaptureOrientation(InterfaceOrientation.PortraitUpsideDown) == v;
    case LandscapeRight => assert CaptureOrientation(InterfaceOrientation.LandscapeRight) == v;
    case LandscapeLeft => assert CaptureOrientation(InterfaceOrientation.LandscapeLeft) == v;
  }
}
