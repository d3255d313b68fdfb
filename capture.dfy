/**
 * The AVFoundation values the scanner reads: the symbology of a detected code,
 * the metadata objects a frame delivers, and the errors the capture stack reports.
 */
module Capture {
  import opened Wrappers

  /** `AVMetadataObject.ObjectType`: the symbologies the component names, and any other type. */
  datatype ObjectType =
    | UPCE | Code39 | Code39Mod43 | EAN13 | EAN8 | Code93 | Code128
    | PDF417 | QR | Aztec | UPCA | Interleaved2of5 | ITF14 | DataMatrix | Face
    | Other(rawValue: string)

  /**
   * An `AVMetadataObject` from one frame: either a machine-readable code
   * (`AVMetadataMachineReadableCodeObject`, whose `stringValue` may be missing)
   * or some other kind of metadata, such as a face.
   */
  datatype MetadataObject =
    | MachineReadableCode(codeType: ObjectType, stringValue: Option<string>)
    | OtherObject(objectType: ObjectType)

  /** An error thrown by the capture stack, for instance when the device input cannot be created. */
  datatype CaptureError = CaptureError(description: string)

  /** The allow-list of symbologies the scanner detects unless its caller changes it. */
  const DefaultMetadata: seq<ObjectType> :=
    [UPCE, Code39, Code39Mod43, EAN13, EAN8, Code93, Code128, PDF417, QR, Aztec]

  lemma DefaultMetadataContents()
    ensures |DefaultMetadata| == 10
    ensures EAN13 in DefaultMetadata && QR in DefaultMetadata
    ensures UPCA !in DefaultMetadata && Face !in DefaultMetadata
  {
  }
}
