/** Exceptions of the Python source become values: a backend constructor that may
    raise returns a Result, an operation that may raise returns an Outcome. */
module Outcomes {

  /** The exceptions the modelled code raises or lets through. */
  datatype Error =
    | NotImplemented           // NotImplementedError raised by the libevdev capture and key combinations
    | DeviceCreationFailed     // libevdev could not create the uinput device (no access to /dev/uinput)
    | DisplayConnectionFailed  // the X11 backend could not be constructed

  datatype Result<+T> = Success(value: T) | Failure(error: Error)

  datatype Outcome = Pass | Fail(error: Error)

  datatype Option<+T> = None | Some(value: T)
}
