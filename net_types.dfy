/** Shared vocabulary of the networking layer: status enums, send types, bytes,
    32-bit integers and the error values that stand for the exceptions the
    source throws. */
module NetTypes {

  /** A C# `byte`. */
  type byte = x: int | 0 <= x < 0x100

  /** A C# `int` (32-bit two's complement). */
  const MinInt32: int := -0x8000_0000
  const MaxInt32: int := 0x7FFF_FFFF
  type int32 = x: int | MinInt32 <= x <= MaxInt32

  /** Identity of a transport object as the orchestrator sees it (an object reference in the source). */
  type TransportId = nat

  /** State of a local network or of one transport. */
  datatype LocalConnectionStatus = Stopped | Starting | Started

  /** State of one remote connection as a transport reports it. */
  datatype RemoteConnectionStatus = RemoteStarted | RemoteStopped

  /** Delivery guarantee requested for one send. */
  datatype SendType = Reliable | Unreliable

  datatype Option<+T> = None | Some(value: T)

  /** The exceptions thrown by the modelled code, one constructor per throw site kind. */
  datatype Error =
    | AlreadyStarting                 // InvalidOperationException "... is already starting."
    | AlreadyStarted                  // InvalidOperationException "... is already started."
    | NotReadyToSend                  // InvalidOperationException "... is not ready to send."
    | DuplicateKey                    // ArgumentException from Dictionary.Add
    | NotStopped                      // NetworkException from SetTransports
    | StoppedWhileStarting            // NetworkException from StartTransport
    | StartException(inner: Error)    // NetworkException wrapping a start failure
    | TransportStartFailed            // whatever a transport's own StartConnection threw
    | InvalidConnection               // NetworkException "Attempted to send data to invalid connection."
    | SendFailed(statusCode: int)     // NetworkException "Failed to send data: ..."
    | ConnectFailed                   // "Failed to connect."
    | ReadPastEnd                     // a reader ran out of bytes
    | NegativeCount                   // ArgumentOutOfRangeException from a list capacity
    | NullArgument                    // ArgumentNullException
    | EndpointNotFound(connectionType: string)
    | PortInUse(port: int)
    | AlreadyCreated                  // InvalidOperationException "Server has already been created."

  /** Completion of a `void` operation: it returned, or it threw. */
  datatype Outcome = Ok | Fail(error: Error)

  /** Completion of an operation that returns a value. */
  datatype Result<+T> = Success(value: T) | Failure(error: Error)
}
