# Pinger/ponger request correlation

A Dafny model of the request/response sample built on SObjectizer agents. It covers two agents:

- The **pinger** mints a request id from its counter `last_request`. It sends a `wrapped_ping`, arms a timeout that delivers `timeout_signal`, and records the timer handle in `request_map` under that id.
- The **ponger** answers a `wrapped_ping` with a SUCCESS `wrapped_pong` only when its dice roll says so.

Both message handlers, `on_pong` and `on_timeout` (`so-sample.cpp`, lines 38-58), end in `on_pong_delivery`. `on_pong_delivery` announces the outcome and requests teardown of the cooperation.

Files:

- `wrappers.dfy`: `Option` (for `std::optional`) and `Result` (for a handler that throws).
- `envelopes.dfy`: `request_id_t` as a 32-bit unsigned value with a wrapping pre-increment, plus the message structs and `request_error_t`.
- `ponger.dfy`: the ponger's reply rule as a pure function of the ping and the roll's verdict.
- `pinger.dfy`: the pinger's state as a value (`PingerState`), one step function per handler, and the invariant `Valid`. It also holds the class `Agent`, whose fields the handlers update in place. Each method is proved to follow its step function.
- `exchange.dfy`: the runtime's sequential delivery of the pinger's inbound messages. `Dispatch` stops once teardown is requested. `Unguarded` does not stop, and is used to show what the teardown prevents. This file also holds the race lemmas and a driver loop that feeds an `Agent`.

Two behaviours of the code are easy to miss:

- A pong for an id that is no longer pending is not ignored. `on_pong` calls `request_map.at`, which throws `std::out_of_range`. The model returns `Err(OutOfRange)` and leaves the state unchanged.
- `on_timeout` erases the entry without checking for it and always announces TIMEOUT. The model does the same.

Only the runtime's teardown (line 49) prevents a second announcement. `TeardownIsTheOnlyGuard` shows this.

## Model

| member | source | states |
|---|---|---|
| `Envelopes.Increment` | blog/2019/10/05/request-response-message-exchange-pattern/so-sample.cpp:68 | `++last_request` on a `std::uint32_t`: it gives last + 1, and wraps to 0 past the largest id |
| `Ponger.OnPing` | blog/2019/10/05/request-response-message-exchange-pattern/so-sample.cpp:87-93 | a reply exists iff the roll accepts; a reply echoes the ping's request id, carries SUCCESS and has a payload; the ponger keeps no per-request state (it is a function) |
| `Pinger.InitialIsValid` | blog/2019/10/05/request-response-message-exchange-pattern/so-sample.cpp:34-36 | a new pinger (counter 0, empty map) satisfies the invariant and has not requested teardown |
| `Pinger.StartRegistersFreshRequest` | blog/2019/10/05/request-response-message-exchange-pattern/so-sample.cpp:67-74 | without wrap-around the new id is old `last_request` + 1 and exceeds every pending id, so it is not a key; the map gains exactly that entry; the ping sent and the armed timeout carry the same id; with a new handle the invariant holds and the handle is unreleased |
| `Pinger.StartWrapsToZero` | blog/2019/10/05/request-response-message-exchange-pattern/so-sample.cpp:68-73 | after 2^32 - 1 requests the id wraps to 0, which no pending entry holds, so `emplace` still registers it; the invariant does not survive the wrap (unreachable in the sample, which starts once per agent) |
| `Pinger.OnPongStep` | blog/2019/10/05/request-response-message-exchange-pattern/so-sample.cpp:38-50 | fails (`at` throws) iff the id is not in `request_map`; otherwise it releases that entry's handle, removes the id, leaves every other entry unchanged, appends one announcement (success iff `error_code` is SUCCESS) and requests teardown |
| `Pinger.OnPongReleasesOwnedTimer` | blog/2019/10/05/request-response-message-exchange-pattern/so-sample.cpp:38-42 | the released handle had not been released before and no remaining entry owns it, so each timer is released at most once; the invariant is kept |
| `Pinger.OnTimeoutStep` | blog/2019/10/05/request-response-message-exchange-pattern/so-sample.cpp:52-58 | the signalled id is absent afterwards and every other entry is unchanged; an absent id leaves the map unchanged; one TIMEOUT announcement is appended and teardown is requested in every case |
| `Pinger.OnTimeoutPreservesValid` | blog/2019/10/05/request-response-message-exchange-pattern/so-sample.cpp:52-57 | a timeout signal, whether its id is pending or not, keeps the invariant |
| `Pinger.Agent.constructor` | blog/2019/10/05/request-response-message-exchange-pattern/so-sample.cpp:61 | the agent starts in the initial state, which is valid |
| `Pinger.Agent.SoEvtStart` | blog/2019/10/05/request-response-message-exchange-pattern/so-sample.cpp:67-74 | the fields after `so_evt_start` are exactly `StartStep` of the fields before |
| `Pinger.Agent.OnPong` | blog/2019/10/05/request-response-message-exchange-pattern/so-sample.cpp:38-43 | succeeds iff the id was pending; on failure nothing changes; on success the fields are `OnPongStep` of the fields before |
| `Pinger.Agent.OnPongDelivery` | blog/2019/10/05/request-response-message-exchange-pattern/so-sample.cpp:45-50 | appends one announcement for the command's id, with success iff its code is SUCCESS, and sets the teardown flag |
| `Pinger.Agent.OnTimeout` | blog/2019/10/05/request-response-message-exchange-pattern/so-sample.cpp:52-58 | the fields after `on_timeout` are exactly `OnTimeoutStep` of the fields before |
| `Exchange.Dispatch` | blog/2019/10/05/request-response-message-exchange-pattern/so-sample.cpp:45-50 | once teardown is requested, nothing more changes; from a state before teardown, a non-empty run is the first message's handler result, adds exactly one announcement (the first message's outcome), and throws iff that message is a pong for an id not in `request_map` |
| `Exchange.Unguarded` | blog/2019/10/05/request-response-message-exchange-pattern/so-sample.cpp:38-58 | if the handlers were applied to every message, each message would append exactly one announcement and keep the earlier ones |
| `Exchange.HandlePreservesValid` | blog/2019/10/05/request-response-message-exchange-pattern/so-sample.cpp:65 | each subscribed handler keeps the invariant |
| `Exchange.DispatchPreservesValid` | blog/2019/10/05/request-response-message-exchange-pattern/so-sample.cpp:38-74 | every run of the runtime over any message sequence keeps the invariant |
| `Exchange.SingleRequestRace` | blog/2019/10/05/request-response-message-exchange-pattern/so-sample.cpp:38-57 | after one start, any non-empty sequence of replies and signals for that id, in any order and with duplicates, empties the map and sets the teardown flag without throwing. Exactly one outcome is announced, that of the first message; the timer is released iff a pong won |
| `Exchange.ExchangeResolvesOnce` | blog/2019/10/05/request-response-message-exchange-pattern/so-sample.cpp:67-93 | start, the ponger's answer or silence, and any arrival order together announce exactly one outcome for request 1; it is success iff the ponger replied and its reply was handled first |
| `Exchange.PayloadPresentIffSuccess` | blog/2019/10/05/request-response-message-exchange-pattern/so-sample.cpp:24-28 | the ponger's reply and the local timeout reply have a payload iff they report SUCCESS; the timeout reply carries the signalled id |
| `Exchange.TeardownIsTheOnlyGuard` | blog/2019/10/05/request-response-message-exchange-pattern/so-sample.cpp:38-57 | without teardown, a pong then a late timeout would announce twice, and a timeout then a late pong would throw from `at`; with teardown both orders announce once |
| `Exchange.Run` | blog/2019/10/05/request-response-message-exchange-pattern/so-sample.cpp:65 | feeding an `Agent` its messages through its handler methods ends in the state `Dispatch` gives, and fails iff `Dispatch` does |

## Left out

- The SObjectizer runtime (launching, cooperations, mailboxes, `send`, subscriptions, `set_ponger`, `main`): delivery is a message sequence, and the ponger's mailbox is an outbound record `sent`. The runtime stopping delivery after `so_deregister_agent_coop_normally` is an assumption built into `Dispatch`. Deregistration itself is only a flag.
- The timer service: the 200 ms delay, the zero period, and what best-effort cancellation in `timer_id_t::release` does. A handle is an opaque token. The handle `send_periodic` returns is a parameter of `SoEvtStart`. That it is new is the hypothesis `HandleIsNew`. `released` records only the explicit `release()` calls. The model does not cover the destruction of the `unique_ptr` when `on_timeout` erases an entry, or when `emplace` drops a duplicate key.
- Arrival timing: "no reply within the delay" appears only as the order in which the signal and the reply arrive.
- Randomness and floating point (`random_device`, `mt19937`, the 0.5 threshold): replaced by the boolean `rollAccepts`.
- Console output via `std::cout`.
- Concurrency between agents: each agent handles one message at a time; only the pinger's sequence of inbound messages is modelled.
- What the runtime does with the `std::out_of_range` that escapes `on_pong`: a throwing handler ends the run with `Err(OutOfRange)`.
