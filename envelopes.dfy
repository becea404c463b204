/** The identifiers and message envelopes the pinger and the ponger exchange. */
module Envelopes {
  import opened Wrappers

  /** request_id_t is a 32-bit unsigned integer. */
  const RequestIdModulus: nat := 0x1_0000_0000
  const MaxRequestId: nat := RequestIdModulus - 1

  type RequestId = x: nat | x < RequestIdModulus

  /** Pre-increment of a request_id_t: unsigned arithmetic wraps past the largest value. */
  function Increment(last: RequestId): (next: RequestId)
    ensures last < MaxRequestId ==> next == last + 1 && next > last
    ensures last == MaxRequestId ==> next == 0
  {
    (last + 1) % RequestIdModulus
  }

  /** The empty payload structs `ping` and `pong`. */
  datatype Ping = Ping
  datatype Pong = Pong

  /** request_error_t. */
  datatype RequestError = Success | Timeout

  /** The message the armed timer delivers to the pinger. */
  datatype TimeoutSignal = TimeoutSignal(requestId: RequestId)

  /** The request envelope sent to the ponger. */
  datatype WrappedPing = WrappedPing(requestId: RequestId, payload: Ping)

  /** The reply envelope; `payload` is std::optional<pong>. */
  datatype WrappedPong = WrappedPong(requestId: RequestId, errorCode: RequestError, payload: Option<Pong>)
}
