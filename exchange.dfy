/**
 * The exchange seen from the pinger: the runtime hands the pinger its inbound
 * messages (the ponger's reply, the timer's signal) one at a time, in whatever
 * order they arrive, and stops delivering once teardown has been requested.
 */
module Exchange {
  import opened Wrappers
  import opened Envelopes
  import Ponger
  import opened Pinger

  /** An inbound message of the pinger. */
  datatype Event = PongArrives(pong: WrappedPong) | TimeoutFires(signal: TimeoutSignal)

  /** The request id an inbound message carries. */
  function EventId(e: Event): RequestId {
    match e
    case PongArrives(cmd) => cmd.requestId
    case TimeoutFires(msg) => msg.requestId
  }

  /** Whether handling `e` announces success. */
  function AnnouncesSuccess(e: Event): bool {
    e.PongArrives? && e.pong.errorCode == Success
  }

  /** The subscribed handler for one inbound message. */
  function Handle(s: PingerState, e: Event): Result<PingerState, HandlerError> {
    match e
    case PongArrives(cmd) => OnPongStep(s, cmd)
    case TimeoutFires(msg) => Ok(OnTimeoutStep(s, msg))
  }

  /**
   * The runtime's sequential delivery: messages are handled in order until teardown
   * has been requested, after which none is delivered; an exception from a handler
   * ends the run. At most one outcome is announced from a state that has not
   * requested teardown.
   */
  function Dispatch(s: PingerState, events: seq<Event>): (r: Result<PingerState, HandlerError>)
    ensures s.deregistered ==> r == Ok(s)
    ensures !s.deregistered && events != [] ==> r == Handle(s, events[0])
    ensures r.Err? <==>
      !s.deregistered && events != [] && events[0].PongArrives? && events[0].pong.requestId !in s.requestMap
    ensures r.Ok? ==> r.value.deregistered == (s.deregistered || events != [])
    ensures r.Ok? && !s.deregistered ==>
      r.value.announced == s.announced + (if events == [] then [] else [Announcement(EventId(events[0]), AnnouncesSuccess(events[0]))])
    decreases |events|
  {
    if events == [] || s.deregistered then
      Ok(s)
    else
      match Handle(s, events[0])
      case Err(e) => Err(e)
      case Ok(s1) => Dispatch(s1, events[1..])
  }

  /**
   * The handlers applied to every message with no teardown in between: what the
   * pinger itself would do if the runtime kept delivering. Each handled message
   * appends one announcement.
   */
  function Unguarded(s: PingerState, events: seq<Event>): (r: Result<PingerState, HandlerError>)
    ensures r.Ok? ==> |r.value.announced| == |s.announced| + |events|
    ensures r.Ok? ==> r.value.announced[..|s.announced|] == s.announced
    decreases |events|
  {
    if events == [] then
      Ok(s)
    else
      match Handle(s, events[0])
      case Err(e) => Err(e)
      case Ok(s1) => Unguarded(s1, events[1..])
  }

  /** One handled message keeps the pinger's invariant. */
  lemma HandlePreservesValid(s: PingerState, e: Event)
    requires Valid(s)
    ensures Handle(s, e).Ok? ==> Valid(Handle(s, e).value)
  {
  }

  /** Any run of the runtime keeps the pinger's invariant. */
  lemma DispatchPreservesValid(s: PingerState, events: seq<Event>)
    requires Valid(s)
    ensures Dispatch(s, events).Ok? ==> Valid(Dispatch(s, events).value)
    decreases |events|
  {
  }

  /**
   * The race for one started request: whatever replies and timeout signals for it
   * arrive, in whatever order and however duplicated, the first one handled
   * resolves it. The run does not throw, empties request_map, requests teardown and
   * announces exactly one outcome, success exactly when the first message is a
   * SUCCESS pong; the timer is released exactly when a pong won.
   */
  lemma SingleRequestRace(timer: TimerHandle, events: seq<Event>)
    requires events != []
    requires forall i :: 0 <= i < |events| ==> EventId(events[i]) == 1
    ensures var r := Dispatch(StartStep(Initial(), timer), events);
      && r.Ok?
      && r.value.requestMap == map[]
      && r.value.deregistered
      && r.value.announced == [Announcement(1, AnnouncesSuccess(events[0]))]
      && r.value.released == (if events[0].PongArrives? then {timer} else {})
  {
  }

  /**
   * The messages reaching the pinger for its first request: the ponger's reply, if
   * it sent one, and the timer's signal, which comes first or second as the race
   * goes and after a handled reply may still come if cancellation was too late.
   */
  function Inbound(reply: Option<WrappedPong>, signal: TimeoutSignal, timeoutFirst: bool, lateSignal: bool): seq<Event> {
    match reply
    case None => [TimeoutFires(signal)]
    case Some(pong) =>
      if timeoutFirst then [TimeoutFires(signal), PongArrives(pong)]
      else if lateSignal then [PongArrives(pong), TimeoutFires(signal)]
      else [PongArrives(pong)]
  }

  /**
   * The whole exchange: the pinger starts, the ponger answers its ping or stays
   * silent, and the runtime delivers what arrives. Exactly one outcome is
   * announced for request 1: success exactly when the ponger replied and its reply
   * was handled before the timeout signal.
   */
  lemma ExchangeResolvesOnce(timer: TimerHandle, rollAccepts: bool, timeoutFirst: bool, lateSignal: bool)
    ensures var s1 := StartStep(Initial(), timer);
      var events := Inbound(Ponger.OnPing(s1.sent[0], rollAccepts), s1.armed[0].signal, timeoutFirst, lateSignal);
      var r := Dispatch(s1, events);
      && r.Ok?
      && r.value.requestMap == map[]
      && r.value.announced == [Announcement(1, rollAccepts && !timeoutFirst)]
  {
  }

  /**
   * Every reply the pinger can handle, the ponger's or its own timeout reply, has
   * a payload exactly when it reports SUCCESS.
   */
  lemma PayloadPresentIffSuccess(ping: WrappedPing, rollAccepts: bool, requestId: RequestId)
    ensures var reply := Ponger.OnPing(ping, rollAccepts);
      reply.Some? ==> (reply.value.payload.Some? <==> reply.value.errorCode == Success)
    ensures TimeoutReply(requestId).errorCode == Timeout && TimeoutReply(requestId).payload == None
    ensures TimeoutReply(requestId).requestId == requestId
  {
  }

  /**
   * Without the teardown the same two messages would be handled twice: a pong then
   * the late timeout announce two outcomes, and a timeout then the late pong
   * throws from map::at. Only the runtime's stop after teardown leaves one.
   */
  lemma TeardownIsTheOnlyGuard(timer: TimerHandle)
    ensures var s1 := StartStep(Initial(), timer);
      var pong := PongArrives(WrappedPong(1, Success, Some(Pong)));
      var signal := TimeoutFires(TimeoutSignal(1));
      && Unguarded(s1, [pong, signal]).Ok?
      && Unguarded(s1, [pong, signal]).value.announced == [Announcement(1, true), Announcement(1, false)]
      && Unguarded(s1, [signal, pong]) == Err(OutOfRange)
      && Dispatch(s1, [pong, signal]).Ok?
      && Dispatch(s1, [pong, signal]).value.announced == [Announcement(1, true)]
      && Dispatch(s1, [signal, pong]).Ok?
      && Dispatch(s1, [signal, pong]).value.announced == [Announcement(1, false)]
  {
    var s1 := StartStep(Initial(), timer);
    var pong := PongArrives(WrappedPong(1, Success, Some(Pong)));
    var signal := TimeoutFires(TimeoutSignal(1));
    assert s1.requestMap == map[1 := timer];
    var afterPong := Handle(s1, pong).value;
    assert afterPong.requestMap == map[];
    assert [pong, signal][1..] == [signal];
    assert [signal, pong][1..] == [pong];
    var afterBoth := Handle(afterPong, signal).value;
    assert Unguarded(afterBoth, []) == Ok(afterBoth);
    assert Unguarded(afterPong, [signal]) == Ok(afterBoth);
    var afterSignal := Handle(s1, signal).value;
    assert afterSignal.requestMap == map[];
    assert Handle(afterSignal, pong) == Err(OutOfRange);
  }

  /**
   * The runtime feeding an Agent its inbound messages through its handlers, one at
   * a time, until teardown is requested or a handler throws.
   */
  method Run(agent: Agent, events: seq<Event>) returns (r: Result<(), HandlerError>)
    modifies agent
    ensures r.Ok? <==> Dispatch(old(agent.State()), events).Ok?
    ensures r.Ok? ==> agent.State() == Dispatch(old(agent.State()), events).value
  {
    var i := 0;
    while i < |events| && !agent.deregistered
      invariant 0 <= i <= |events|
      invariant Dispatch(old(agent.State()), events) == Dispatch(agent.State(), events[i..])
    {
      assert events[i..][1..] == events[i + 1..];
      match events[i] {
        case PongArrives(cmd) =>
          var handled := agent.OnPong(cmd);
          if handled.Err? {
            return Err(handled.error);
          }
        case TimeoutFires(msg) =>
          agent.OnTimeout(msg);
      }
      i := i + 1;
    }
    return Ok(());
  }
}
