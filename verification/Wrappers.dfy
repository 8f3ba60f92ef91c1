/** An optional value, and the error values the modelled code returns. */
module Wrappers {

  datatype Option<+T> = None | Some(value: T)

  /** What a caller may do about an error; only `RetrySame` makes a client reconnect. */
  datatype Disposition = RetrySame | FallbackNext | Fatal

  datatype ErrorCode =
    | EnvironmentChanged | DeadlineExceeded | Cancelled | InvalidArgument | PermissionDenied
    | SessionNotFound | SessionExists | Overflowed | CapabilityUnavailable | InternalFault
    | ProtocolError | ProviderFailed | SubscriptionGone | OtherCode(number: nat)

  datatype Error = Error(code: ErrorCode, disposition: Disposition)

  datatype Result<+T> = Ok(value: T) | Err(error: Error)
}
