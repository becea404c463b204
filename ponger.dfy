/** The ponger agent: a stateless reply rule for each wrapped_ping it receives. */
module Ponger {
  import opened Wrappers
  import opened Envelopes

  /**
   * The ponger's wrapped_ping handler. `rollAccepts` stands for the outcome of the
   * dice roll comparison (roll > 0.5); the reply, when there is one, is what the
   * ponger sends back to the pinger.
   */
  function OnPing(msg: WrappedPing, rollAccepts: bool): (reply: Option<WrappedPong>)
    ensures reply.Some? <==> rollAccepts
    ensures reply.Some? ==> reply.value.requestId == msg.requestId
    ensures reply.Some? ==> reply.value.errorCode == Success && reply.value.payload.Some?
  {
    if rollAccepts then Some(WrappedPong(msg.requestId, Success, Some(Pong))) else None
  }
}
