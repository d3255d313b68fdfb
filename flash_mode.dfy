/** The three-way photographic flash setting (Sources/FlashMode.swift). */
module Flash {

  datatype FlashMode = On | Off | Auto

  /** `AVCaptureFlashMode`. */
  datatype CaptureFlashMode = Off | On | Auto

  /** The mode after `m` in the cycle On, Off, Auto. */
  function Next(m: FlashMode): (r: FlashMode)
    ensures r != m
  {
    match m
    case On => FlashMode.Off
    case Off => FlashMode.Auto
    case Auto => FlashMode.On
  }

  lemma NextTable()
    ensures Next(FlashMode.On) == FlashMode.Off
    ensures Next(FlashMode.Off) == FlashMode.Auto
    ensures Next(FlashMode.Auto) == FlashMode.On
  {
  }

  /** `next` has period three: once round the cycle is the identity, and no shorter round trip is. */
  lemma NextHasPeriodThree(m: FlashMode)
    ensures Next(Next(Next(m))) == m
    ensures Next(Next(m)) != m
  {
  }

  function Image(m: FlashMode): string
  {
    match m
    case On => "flashOn"
    case Off => "flashOff"
    case Auto => "flashAuto"
  }

  lemma ImageTable()
    ensures Image(FlashMode.On) == "flashOn"
    ensures Image(FlashMode.Off) == "flashOff"
    ensures Image(FlashMode.Auto) == "flashAuto"
  {
  }

  /** `captureFlashMode`: the device setting of the same name. */
  function ToCapture(m: FlashMode): CaptureFlashMode
  {
    match m
    case On => CaptureFlashMode.On
    case Off => CaptureFlashMode.Off
    case Auto => CaptureFlashMode.Auto
  }

  /** `ToCapture` is a bijection: it is injective and every device setting is reached. */
  lemma ToCaptureIsBijective(a: FlashMode, b: FlashMode, c: CaptureFlashMode)
    ensures ToCapture(a) == ToCapture(b) ==> a == b
    ensures exists m :: ToCapture(m) == c
  {
    match c
    case On => assert ToCapture(FlashMode.On) == c;
    case Off => assert ToCapture(FlashMode.Off) == c;
    case Auto => assert ToCapture(FlashMode.Auto) == c;
  }
}
