/**
 * Orientation conversions of WorldAloud: from the UIKit image orientation to
 * the Core Graphics (EXIF) image orientation, and from the device's physical
 * orientation to the orientation a photo is tagged with and to the capture
 * connection's video orientation. Every one is a total switch over a finite
 * enumeration.
 */
module Orientation {
  import opened Options

  /** `UIImageOrientation` */
  datatype UIImageOrientation =
    | Up | Down | Left | Right | UpMirrored | DownMirrored | LeftMirrored | RightMirrored
  {
    predicate IsMirrored()
    {
      UpMirrored? || DownMirrored? || LeftMirrored? || RightMirrored?
    }

    /** The case's name as written in the framework. */
    function Name(): string
    {
      match this
      case Up => "up"
      case Down => "down"
      case Left => "left"
      case Right => "right"
      case UpMirrored => "upMirrored"
      case DownMirrored => "downMirrored"
      case LeftMirrored => "leftMirrored"
      case RightMirrored => "rightMirrored"
    }
  }

  /** `CGImagePropertyOrientation` */
  datatype CGImagePropertyOrientation =
    | Up | Down | Left | Right | UpMirrored | DownMirrored | LeftMirrored | RightMirrored
  {
    predicate IsMirrored()
    {
      UpMirrored? || DownMirrored? || LeftMirrored? || RightMirrored?
    }

    function Name(): string
    {
      match this
      case Up => "up"
      case Down => "down"
      case Left => "left"
      case Right => "right"
      case UpMirrored => "upMirrored"
      case DownMirrored => "downMirrored"
      case LeftMirrored => "leftMirrored"
      case RightMirrored => "rightMirrored"
    }
  }

  /** `UIDeviceOrientation` */
  datatype DeviceOrientation =
    | Unknown | Portrait | PortraitUpsideDown | LandscapeLeft | LandscapeRight | FaceUp | FaceDown

  /** `AVCaptureVideoOrientation` */
  datatype CaptureVideoOrientation =
    | Portrait | PortraitUpsideDown | LandscapeLeft | LandscapeRight

  /** The Core Graphics orientation named like a UIKit one; the left inverse
      of `CGOrientationFromUIImage`. */
  function UIOrientationFromCG(c: CGImagePropertyOrientation): (o: UIImageOrientation)
    ensures o.Name() == c.Name()
  {
    match c
    case Up => UIImageOrientation.Up
    case Down => UIImageOrientation.Down
    case Left => UIImageOrientation.Left
    case Right => UIImageOrientation.Right
    case UpMirrored => UIImageOrientation.UpMirrored
    case DownMirrored => UIImageOrientation.DownMirrored
    case LeftMirrored => UIImageOrientation.LeftMirrored
    case RightMirrored => UIImageOrientation.RightMirrored
  }

  /** `UIImageOrientation.getCGOrientationFromUIImage()`: every case goes to
      the case of the same name, so the mapping has a left inverse. */
  function CGOrientationFromUIImage(o: UIImageOrientation): (c: CGImagePropertyOrientation)
    ensures c.Name() == o.Name()
    ensures c.IsMirrored() == o.IsMirrored()
    ensures UIOrientationFromCG(c) == o
  {
    match o
    case Down => CGImagePropertyOrientation.Down
    case Left => CGImagePropertyOrientation.Left
    case Right => CGImagePropertyOrientation.Right
    case Up => CGImagePropertyOrientation.Up
    case DownMirrored => CGImagePropertyOrientation.DownMirrored
    case LeftMirrored => CGImagePropertyOrientation.LeftMirrored
    case RightMirrored => CGImagePropertyOrientation.RightMirrored
    case UpMirrored => CGImagePropertyOrientation.UpMirrored
  }

  /** Distinct UIKit orientations give distinct Core Graphics orientations. */
  lemma CGOrientationInjective(a: UIImageOrientation, b: UIImageOrientation)
    requires CGOrientationFromUIImage(a) == CGOrientationFromUIImage(b)
    ensures a == b
  {
  }

  /** The conversion reaches every Core Graphics orientation, so it is a
      bijection between the two enumerations. */
  lemma {:induction false} CGOrientationOnto(c: CGImagePropertyOrientation)
    ensures CGOrientationFromUIImage(UIOrientationFromCG(c)) == c
  {
    match c
    case Up =>
    case Down =>
    case Left =>
    case Right =>
    case UpMirrored =>
    case DownMirrored =>
    case LeftMirrored =>
    case RightMirrored =>
  }

  /** `UIDeviceOrientation.getUIImageOrientationFromDevice()`: the orientation
      a photo taken in device orientation `d` is tagged with. Never mirrored;
      each result's preimage is listed in both directions. */
  function ImageOrientationFromDevice(d: DeviceOrientation): (o: UIImageOrientation)
    ensures !o.IsMirrored()
    ensures o == UIImageOrientation.Right <==> d == DeviceOrientation.Portrait || d == DeviceOrientation.FaceUp
    ensures o == UIImageOrientation.Left <==> d == DeviceOrientation.PortraitUpsideDown || d == DeviceOrientation.FaceDown
    ensures o == UIImageOrientation.Up <==> d == DeviceOrientation.LandscapeLeft || d == DeviceOrientation.Unknown
    ensures o == UIImageOrientation.Down <==> d == DeviceOrientation.LandscapeRight
  {
    match d
    case Portrait | FaceUp => UIImageOrientation.Right
    case PortraitUpsideDown | FaceDown => UIImageOrientation.Left
    case LandscapeLeft => UIImageOrientation.Up
    case LandscapeRight => UIImageOrientation.Down
    case Unknown => UIImageOrientation.Up
  }

  /** `UIDeviceOrientation.getAVCaptureVideoOrientationFromDevice()`: absent
      exactly for `unknown`; the four upright orientations keep their name and
      lying flat (face up or down) counts as portrait. */
  function CaptureOrientationFromDevice(d: DeviceOrientation): (r: Option<CaptureVideoOrientation>)
    ensures r.None? <==> d == DeviceOrientation.Unknown
    ensures d == DeviceOrientation.FaceUp || d == DeviceOrientation.FaceDown
            ==> r == Some(CaptureVideoOrientation.Portrait)
    ensures d == DeviceOrientation.Portrait ==> r == Some(CaptureVideoOrientation.Portrait)
    ensures d == DeviceOrientation.PortraitUpsideDown ==> r == Some(CaptureVideoOrientation.PortraitUpsideDown)
    ensures d == DeviceOrientation.LandscapeLeft ==> r == Some(CaptureVideoOrientation.LandscapeLeft)
    ensures d == DeviceOrientation.LandscapeRight ==> r == Some(CaptureVideoOrientation.LandscapeRight)
  {
    match d
    case Portrait => Some(CaptureVideoOrientation.Portrait)
    case PortraitUpsideDown => Some(CaptureVideoOrientation.PortraitUpsideDown)
    case LandscapeLeft => Some(CaptureVideoOrientation.LandscapeLeft)
    case LandscapeRight => Some(CaptureVideoOrientation.LandscapeRight)
    case FaceDown => Some(CaptureVideoOrientation.Portrait)
    case FaceUp => Some(CaptureVideoOrientation.Portrait)
    case Unknown => None
  }

  /** The photo orientation each capture orientation stands for, read off the
      four upright device orientations of `ImageOrientationFromDevice`. */
  function ImageOrientationForCapture(c: CaptureVideoOrientation): (o: UIImageOrientation)
    ensures !o.IsMirrored()
  {
    match c
    case Portrait => UIImageOrientation.Right
    case PortraitUpsideDown => UIImageOrientation.Left
    case LandscapeLeft => UIImageOrientation.Up
    case LandscapeRight => UIImageOrientation.Down
  }

  /** The two device conversions agree (going through the capture orientation
      gives the photo orientation directly) for every device orientation that
      has a capture orientation except `faceDown`: that one is captured as
      portrait but tagged `.left`, the tag of upside-down portrait. */
  lemma {:induction false} DeviceConversionsAgree(d: DeviceOrientation)
    ensures (CaptureOrientationFromDevice(d).Some? &&
             ImageOrientationForCapture(CaptureOrientationFromDevice(d).value) == ImageOrientationFromDevice(d))
            <==> d != DeviceOrientation.Unknown && d != DeviceOrientation.FaceDown
  {
    match d
    case Unknown =>
    case Portrait =>
    case PortraitUpsideDown =>
    case LandscapeLeft =>
    case LandscapeRight =>
    case FaceUp =>
    case FaceDown =>
  }
}
