/** The torch (continuous light) setting the flash button cycles through (Sources/TorchMode.swift). */
module Torch {

  datatype TorchMode = On | Off

  /** `AVCaptureTorchMode`, the device-level setting, which also has an automatic mode. */
  datatype CaptureTorchMode = Off | On | Auto

  /** The mode the flash button switches to. */
  function Next(m: TorchMode): (r: TorchMode)
    ensures r != m
  {
    match m
    case On => TorchMode.Off
    case Off => TorchMode.On
  }

  lemma NextTable()
    ensures Next(TorchMode.On) == TorchMode.Off
    ensures Next(TorchMode.Off) == TorchMode.On
  {
  }

  /** Pressing the button twice restores the mode. */
  lemma NextIsInvolution(m: TorchMode)
    ensures Next(Next(m)) == m
  {
  }

  /** Name of the button image that shows a mode. */
  function Image(m: TorchMode): string
  {
    match m
    case On => "flashOn"
    case Off => "flashOff"
  }

  lemma ImageTable()
    ensures Image(TorchMode.On) == "flashOn"
    ensures Image(TorchMode.Off) == "flashOff"
  {
  }

  /** `captureTorchMode`: the device setting for a mode; never the automatic one. */
  function ToCapture(m: TorchMode): (r: CaptureTorchMode)
    ensures r != CaptureTorchMode.Auto
  {
    match m
    case On => CaptureTorchMode.On
    case Off => CaptureTorchMode.Off
  }

  lemma ToCaptureIsInjective(a: TorchMode, b: TorchMode)
    ensures ToCapture(a) == ToCapture(b) ==> a == b
    ensures ToCapture(TorchMode.On) == CaptureTorchMode.On && ToCapture(TorchMode.Off) == CaptureTorchMode.Off
  {
  }
}
