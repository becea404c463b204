/**
 * The pinger agent: mints request ids, sends wrapped_ping, arms a timeout per
 * request, keeps request_map from id to the owned timer handle, and resolves a
 * request when its pong or its timeout signal is handled.
 *
 * The agent's state is given as a value (PingerState) with one step function per
 * handler; the class Agent holds the same state in fields and its methods are
 * proved to follow those step functions.
 */
module Pinger {
  import opened Wrappers
  import opened Envelopes

  /** An opaque so_5::timer_id_t, as handed back by the timer service when it arms a timer. */
  datatype TimerHandle = TimerHandle(token: nat)

  /** An outbound record of a timer armed by the pinger: the signal it will deliver and its handle. */
  datatype ArmedTimer = ArmedTimer(signal: TimeoutSignal, handle: TimerHandle)

  /** What on_pong_delivery reports about a request: its id and whether it succeeded. */
  datatype Announcement = Announcement(requestId: RequestId, success: bool)

  /** The exception std::unordered_map::at throws for a key that is not there. */
  datatype HandlerError = OutOfRange

  /**
   * The pinger's state: the counter last_request, request_map, the handles on which
   * release() was called, the pings sent and timers armed (outbound records), the
   * announced outcomes, and whether teardown of the cooperation was requested.
   */
  datatype PingerState = PingerState(
    lastRequest: RequestId,
    requestMap: map<RequestId, TimerHandle>,
    released: set<TimerHandle>,
    sent: seq<WrappedPing>,
    armed: seq<ArmedTimer>,
    announced: seq<Announcement>,
    deregistered: bool)

  /** A freshly constructed pinger: last_request is 0 and nothing has happened yet. */
  function Initial(): PingerState {
    PingerState(0, map[], {}, [], [], [], false)
  }

  /**
   * The invariant of a pinger in service: every pending id was minted (it lies in
   * 1..lastRequest) and has its ping sent and its timer armed with the handle the
   * map owns; owned handles are unreleased and owned by one entry only; an outcome
   * has been announced exactly when teardown was requested.
   */
  ghost predicate Valid(s: PingerState) {
    && (forall id :: id in s.requestMap ==> 0 < id <= s.lastRequest)
    && (forall id :: id in s.requestMap ==> s.requestMap[id] !in s.released)
    && (forall id1, id2 :: id1 in s.requestMap && id2 in s.requestMap && id1 != id2 ==>
          s.requestMap[id1] != s.requestMap[id2])
    && (forall id :: id in s.requestMap ==> WrappedPing(id, Ping) in s.sent)
    && (forall id :: id in s.requestMap ==> ArmedTimer(TimeoutSignal(id), s.requestMap[id]) in s.armed)
    && (s.deregistered <==> s.announced != [])
  }

  /** A handle the timer service has not handed out before. */
  ghost predicate HandleIsNew(s: PingerState, timer: TimerHandle) {
    && timer !in s.released
    && forall i :: 0 <= i < |s.armed| ==> s.armed[i].handle != timer
  }

  lemma InitialIsValid()
    ensures Valid(Initial())
    ensures Initial().requestMap == map[] && !Initial().deregistered
  {
  }

  /** emplace: inserts the entry unless the key is already present. */
  function Emplace(m: map<RequestId, TimerHandle>, id: RequestId, timer: TimerHandle): map<RequestId, TimerHandle> {
    if id in m then m else m[id := timer]
  }

  /**
   * so_evt_start: increment last_request, send the ping for the new id, arm the
   * timeout for it (the timer service's handle is `timer`), register the entry.
   */
  function StartStep(s: PingerState, timer: TimerHandle): PingerState {
    var requestId := Increment(s.lastRequest);
    s.(lastRequest := requestId,
       sent := s.sent + [WrappedPing(requestId, Ping)],
       armed := s.armed + [ArmedTimer(TimeoutSignal(requestId), timer)],
       requestMap := Emplace(s.requestMap, requestId, timer))
  }

  /** on_pong_delivery: announce the outcome carried by `cmd` and request teardown. */
  function DeliveryStep(s: PingerState, cmd: WrappedPong): PingerState {
    s.(announced := s.announced + [Announcement(cmd.requestId, cmd.errorCode == Success)],
       deregistered := true)
  }

  /**
   * on_pong: look the id up with at (which throws for a missing id, before anything
   * changes), release its timer, erase the entry, deliver.
   */
  function OnPongStep(s: PingerState, cmd: WrappedPong): (r: Result<PingerState, HandlerError>)
    ensures r.Err? <==> cmd.requestId !in s.requestMap
    ensures r.Ok? ==> r.value.requestMap.Keys == s.requestMap.Keys - {cmd.requestId}
    ensures r.Ok? ==> forall id :: id in r.value.requestMap ==> r.value.requestMap[id] == s.requestMap[id]
    ensures r.Ok? ==> r.value.released == s.released + {s.requestMap[cmd.requestId]}
    ensures r.Ok? ==> r.value.announced == s.announced + [Announcement(cmd.requestId, cmd.errorCode == Success)]
    ensures r.Ok? ==> r.value.deregistered
    ensures r.Ok? ==> r.value.lastRequest == s.lastRequest && r.value.sent == s.sent && r.value.armed == s.armed
  {
    if cmd.requestId !in s.requestMap then
      Err(OutOfRange)
    else
      var timer := s.requestMap[cmd.requestId];
      Ok(DeliveryStep(s.(released := s.released + {timer}, requestMap := s.requestMap - {cmd.requestId}), cmd))
  }

  /** The reply the pinger builds for itself when a timeout signal arrives. */
  function TimeoutReply(requestId: RequestId): WrappedPong {
    WrappedPong(requestId, Timeout, None)
  }

  /**
   * on_timeout: erase the entry (a no-op when it is absent) and deliver a locally
   * built TIMEOUT reply, whether or not the id was pending.
   */
  function OnTimeoutStep(s: PingerState, msg: TimeoutSignal): (s': PingerState)
    ensures msg.requestId !in s'.requestMap
    ensures s'.requestMap.Keys == s.requestMap.Keys - {msg.requestId}
    ensures forall id :: id in s'.requestMap ==> s'.requestMap[id] == s.requestMap[id]
    ensures msg.requestId !in s.requestMap ==> s'.requestMap == s.requestMap
    ensures s'.announced == s.announced + [Announcement(msg.requestId, false)]
    ensures s'.deregistered
    ensures s'.released == s.released && s'.lastRequest == s.lastRequest && s'.sent == s.sent && s'.armed == s.armed
  {
    DeliveryStep(s.(requestMap := s.requestMap - {msg.requestId}), TimeoutReply(msg.requestId))
  }

  /**
   * Starting a request without wrap-around mints old last_request + 1, which no
   * pending entry holds; the ping and the armed timer carry that same id, the map
   * gains exactly that entry, and with a new handle the invariant is kept and the
   * registered handle is unreleased.
   */
  lemma StartRegistersFreshRequest(s: PingerState, timer: TimerHandle)
    requires Valid(s)
    requires s.lastRequest < MaxRequestId
    ensures var s' := StartStep(s, timer);
      && s'.lastRequest == s.lastRequest + 1
      && (forall id :: id in s.requestMap ==> id < s'.lastRequest)
      && s'.lastRequest !in s.requestMap
      && s'.requestMap == s.requestMap[s'.lastRequest := timer]
      && s'.sent[|s.sent|] == WrappedPing(s'.lastRequest, Ping)
      && s'.armed[|s.armed|] == ArmedTimer(TimeoutSignal(s'.lastRequest), timer)
      && s'.announced == s.announced && s'.deregistered == s.deregistered
    ensures HandleIsNew(s, timer) ==> Valid(StartStep(s, timer)) && timer !in StartStep(s, timer).released
  {
  }

  /**
   * When request_id_t wraps, the new id is 0; no pending entry holds 0, so emplace
   * still registers it. The invariant is lost: 0 is not a minted id in 1..lastRequest,
   * and earlier pending ids now exceed lastRequest, so the lemmas that assume Valid
   * say nothing after a wrap. The sample never gets there: so_evt_start runs once
   * per agent.
   */
  lemma StartWrapsToZero(s: PingerState, timer: TimerHandle)
    requires Valid(s)
    requires s.lastRequest == MaxRequestId
    ensures StartStep(s, timer).lastRequest == 0
    ensures StartStep(s, timer).requestMap == s.requestMap[0 := timer]
    ensures !Valid(StartStep(s, timer))
  {
  }

  /**
   * A pong for a pending id releases the handle the entry owned, which had not
   * been released before, so each handle is released at most once; the invariant
   * is kept.
   */
  lemma OnPongReleasesOwnedTimer(s: PingerState, cmd: WrappedPong)
    requires Valid(s)
    requires cmd.requestId in s.requestMap
    ensures s.requestMap[cmd.requestId] !in s.released
    ensures OnPongStep(s, cmd).Ok? && Valid(OnPongStep(s, cmd).value)
    ensures s.requestMap[cmd.requestId] !in OnPongStep(s, cmd).value.requestMap.Values
  {
  }

  /** A timeout signal, pending or not, keeps the invariant. */
  lemma OnTimeoutPreservesValid(s: PingerState, msg: TimeoutSignal)
    requires Valid(s)
    ensures Valid(OnTimeoutStep(s, msg))
  {
  }

  /**
   * The pinger agent as an object whose handlers update its fields in place.
   * The timer service, the ponger's mailbox and the console are not part of it:
   * a sent ping and an armed timer are appended to outbound records.
   */
  class Agent {
    var lastRequest: RequestId
    var requestMap: map<RequestId, TimerHandle>
    var released: set<TimerHandle>
    var sent: seq<WrappedPing>
    var armed: seq<ArmedTimer>
    var announced: seq<Announcement>
    var deregistered: bool

    /** The agent's fields as a value. */
    function State(): PingerState
      reads this
    {
      PingerState(lastRequest, requestMap, released, sent, armed, announced, deregistered)
    }

    constructor ()
      ensures State() == Initial()
      ensures Valid(State())
    {
      lastRequest := 0;
      requestMap := map[];
      released := {};
      sent := [];
      armed := [];
      announced := [];
      deregistered := false;
    }

    /** so_evt_start; `timer` is the handle the timer service returns for the armed timeout. */
    method SoEvtStart(timer: TimerHandle)
      modifies this
      ensures State() == StartStep(old(State()), timer)
    {
      lastRequest := Increment(lastRequest);
      var requestId := lastRequest;
      sent := sent + [WrappedPing(requestId, Ping)];
      armed := armed + [ArmedTimer(TimeoutSignal(requestId), timer)];
      if requestId !in requestMap {
        requestMap := requestMap[requestId := timer];
      }
    }

    /** on_pong; Err(OutOfRange) is the exception map::at throws, with nothing changed. */
    method OnPong(cmd: WrappedPong) returns (r: Result<(), HandlerError>)
      modifies this
      ensures r.Ok? <==> cmd.requestId in old(requestMap)
      ensures r.Err? ==> State() == old(State())
      ensures r.Ok? ==> OnPongStep(old(State()), cmd) == Ok(State())
    {
      if cmd.requestId !in requestMap {
        return Err(OutOfRange);
      }
      var timer := requestMap[cmd.requestId];
      released := released + {timer};
      requestMap := requestMap - {cmd.requestId};
      OnPongDelivery(cmd);
      r := Ok(());
    }

    /** on_pong_delivery. */
    method OnPongDelivery(cmd: WrappedPong)
      modifies this
      ensures State() == DeliveryStep(old(State()), cmd)
    {
      announced := announced + [Announcement(cmd.requestId, cmd.errorCode == Success)];
      deregistered := true;
    }

    /** on_timeout. */
    method OnTimeout(msg: TimeoutSignal)
      modifies this
      ensures State() == OnTimeoutStep(old(State()), msg)
    {
      var requestId := msg.requestId;
      requestMap := requestMap - {requestId};
      var cmd := TimeoutReply(requestId);
      OnPongDelivery(cmd);
    }
  }
}
