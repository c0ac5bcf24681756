# Kitsune transport core, bootstrap client and integration waits — a Dafny model

This project models four pieces of sequential logic from the Holochain / Kitsune
peer-to-peer stack and proves properties of them with Dafny 4.11.

- **`KitsuneTimeout`** (`timeout.dfy`, module `Timeout`): an absolute deadline
  created as "now + duration". It answers the time remaining (saturating at zero),
  whether it has expired, `ok()` (`Err(TimedOut)` once expired), and `mix`, the race
  of an operation against a timer armed to the deadline. Instants are natural
  numbers of nanoseconds; the current instant is a parameter of every query.
  `mix` is a function of when the operation completes (or that it never does),
  its result, and the instant `mix` was called.
- **tx2 backend contract** (`tx_backend.dfy`, module `TxBackend`): the traits
  `BackendAdapt`, `EndpointAdapt`, `ConRecvAdapt`, `ConAdapt` and
  `InChanRecvAdapt` have no bodies, so the module is a reference lifecycle
  machine that satisfies their doc comments. Endpoint and connection handles are
  classes with `open` flags and the sets of connections and channels they
  produced; the `Endpoint` and `Con` pairs are datatypes pairing a handle with
  its receiver. Receivers keep a queue of what the backend has discovered, and
  `next()` is two-phase: `Next` yields a pending item (or an error), and
  `Complete` turns the pending item into a connection or channel (or an error).
  Closing cascades endpoint → connections → channels. Every backend attempt
  (`bind`, `connect`, `out_chan`) is an input raced against its timeout with
  `Timeout.Mix`.
- **Bootstrap discovery client** (`bootstrap.dfy`, module `Bootstrap`): URL
  resolution (override, else `P2P_BOOTSTRAP_URL`, else the default server, with
  an empty variable meaning "disabled"), `do_api`, and the operations `put`, `now`
  and `random` with their fallbacks when discovery is disabled. The environment
  variable, the msgpack codec, the HTTP exchange and the wall clock are inputs.
  `DoApi` also returns the request it put on the network, so "sends nothing"
  and the request headers can be stated.
- **`WaitOps` and integration waits** (`wait_ops.dfy`, module `WaitOps`;
  `integration_wait.dfy`, module `IntegrationWait`): the op-count constants and
  `const fn`s, checked against an independent definition (a list of source-chain
  changes and the ops each produces), and the early-exit polling loops of
  `wait_for_integration`, `wait_for_integration_10s` and
  `wait_for_integration_with_others`, with the database reads given as input
  sequences.

`wrappers.dfy` holds the `Option` and `Result` datatypes.

Modelling choices:

- **`mix` ties.** When the operation completes at the very instant the timer fires,
  the operation wins. `futures::future::select` polls its left future (the operation)
  before the timer, so a model has to make some choice here, and this is it.
- **What a closed object answers.** The trait docs say that closing shuts down an
  endpoint, its connections and their channels. They do not say what later calls
  return. In the reference machine, `local_addr`, `remote_addr`, `connect`,
  `out_chan` and both phases of `next()` answer `Err(Closed)` on a closed endpoint or
  connection. So nothing is created under a closed object, and no call waits on one.
- **Pending receivers.** With nothing discovered, `Next` answers `Pending` (the future
  has not resolved). `Next` has no answer that means "no more items"; it never reports end of stream.
- **`P2P_BOOTSTRAP_URL`.** The variable is passed to each call. Because the variable
  is a `const Lazy`, every use builds a fresh `Lazy`, so the environment is read again
  on each `select_url`. `Unset` stands for every error of `std::env::var`: not present,
  and also not valid Unicode.
- **Unset `P2P_BOOTSTRAP_URL`.** An unset variable selects `https://bootstrap.holo.host`, so
  `now` and `random` still send a request (`Bootstrap.UnsetUsesDefaultServer`). Only the
  empty string disables discovery.

## Model

| member | source | states |
|---|---|---|
| `Timeout.New` | crates/kitsune_p2p/types/src/timeout.rs:9-11 | the deadline lies exactly `duration` after `now`; construction fails (the unwrap panic) exactly when `now + duration` passes the largest representable instant |
| `Timeout.FromMillis` | crates/kitsune_p2p/types/src/timeout.rs:14-16 | equals `New` of `millis` milliseconds, and a fresh one has exactly that many nanoseconds left |
| `Timeout.TimeRemaining` | crates/kitsune_p2p/types/src/timeout.rs:19-21 | before the deadline, `now` plus the result is the deadline; at or after it, the result is zero (never negative) |
| `Timeout.Check` | crates/kitsune_p2p/types/src/timeout.rs:29-35 | `ok()` is `Err(TimedOut)` iff expired and `Ok(())` iff not expired |
| `Timeout.IsExpired` | crates/kitsune_p2p/types/src/timeout.rs:23-26 | expired iff the deadline is at or before `now`, which with whole-number instants is exactly when `time_remaining` is zero |
| `Timeout.RemainingAfterWait` | crates/kitsune_p2p/types/src/timeout.rs:19-21 | waiting `w` takes exactly `w` off the remaining time, saturating at zero |
| `Timeout.ExpiryIsPermanent` | crates/kitsune_p2p/types/src/timeout.rs:24-35 | once expired, a timeout stays expired and `ok()` stays `Err(TimedOut)` |
| `Timeout.NewThenQuery` | crates/kitsune_p2p/types/src/timeout.rs:9-26 | a fresh timeout has exactly its duration left and is expired iff the duration is zero |
| `Timeout.BasicTimeout` | crates/kitsune_p2p/types/src/timeout.rs:63-67 | a fresh 40 ms timeout has at least a whole millisecond left and is not expired |
| `Timeout.ExpiredTimeout` | crates/kitsune_p2p/types/src/timeout.rs:69-75 | a 1 ms timeout checked at any instant at least 2 ms after creation has not a microsecond left and is expired |
| `Timeout.TimerFiresAt` | crates/kitsune_p2p/types/src/timeout.rs:48 | the timer armed by `mix` fires at the later of the deadline and the arming instant, never before either |
| `Timeout.TimerFiresAtDeadline` | crates/kitsune_p2p/types/src/timeout.rs:48 | armed before the deadline, the timer fires at the deadline itself, however early `mix` was called |
| `Timeout.Mix` | crates/kitsune_p2p/types/src/timeout.rs:46-54 | exactly one outcome: the operation's own result (an `Err` passed through unchanged) if it completes by the time the timer fires, otherwise `Err(TimedOut)` |
| `Timeout.MixDecidedByDeadline` | crates/kitsune_p2p/types/src/timeout.rs:46-54 | armed before the deadline, `mix` gives the operation's result iff it completes by the deadline, and `TimedOut` otherwise, including for an operation that never completes |
| `Timeout.MixOnExpired` | crates/kitsune_p2p/types/src/timeout.rs:48-53 | on an expired timeout, only an operation already done when `mix` is armed escapes `TimedOut` |
| `Timeout.MixTimedOutOnlyPastDeadline` | crates/kitsune_p2p/types/src/timeout.rs:50-53 | a `TimedOut` that the operation did not produce itself means the operation completed strictly after the deadline and after arming, or never |
| `TxBackend.ConAdapt.RemoteAddr` | crates/kitsune_p2p/types/src/tx2/tx_backend.rs:32-33 | fallible: the remote address while the connection is open, `Err(Closed)` after |
| `TxBackend.ConAdapt.OutChan` | crates/kitsune_p2p/types/src/tx2/tx_backend.rs:35-36 | one result per attempt, raced against the timeout: a fresh open outgoing channel added to this connection, or the attempt's error, or `TimedOut`, or `Closed` on a closed connection; the connection stays valid |
| `TxBackend.ConAdapt.Close` | crates/kitsune_p2p/types/src/tx2/tx_backend.rs:38-39 | the connection and all its channels are closed, its channel set is unchanged, and the result does not depend on the state before (idempotent) |
| `TxBackend.InChanRecvAdapt.Next` | crates/kitsune_p2p/types/src/tx2/tx_backend.rs:17-21 | phase one of `next(&mut self)`: the oldest discovered item, in order, or `Pending` when none is discovered yet (no end-of-stream answer); `Err(Closed)` once the connection is closed; a successful first phase hands out exactly one second-phase future |
| `TxBackend.InChanRecvAdapt.Complete` | crates/kitsune_p2p/types/src/tx2/tx_backend.rs:11-15 | phase two: only a future `Next` handed out can be awaited, and awaiting consumes it; it gives a fresh open incoming channel of the same connection, or the phase's error, or `Closed` |
| `TxBackend.EndpointAdapt.LocalAddr` | crates/kitsune_p2p/types/src/tx2/tx_backend.rs:61-62 | fallible: the bound address while the endpoint is open, `Err(Closed)` after |
| `TxBackend.EndpointAdapt.Connect` | crates/kitsune_p2p/types/src/tx2/tx_backend.rs:64-65 | one result per attempt, raced against the timeout: a fresh connection to `url`, paired with its own empty channel receiver and owned by the endpoint, or the error, or `Closed` on a closed endpoint |
| `TxBackend.EndpointAdapt.Close` | crates/kitsune_p2p/types/src/tx2/tx_backend.rs:67-68 | the endpoint, every connection and every channel of those connections are closed; nothing is added or removed |
| `TxBackend.ConRecvAdapt.Next` | crates/kitsune_p2p/types/src/tx2/tx_backend.rs:52-56 | phase one of `next(&mut self)`: the oldest discovered item, in order, or `Pending` (no end-of-stream answer); `Err(Closed)` once the endpoint is closed; a successful first phase hands out exactly one second-phase future |
| `TxBackend.ConRecvAdapt.Complete` | crates/kitsune_p2p/types/src/tx2/tx_backend.rs:46-50 | phase two: only a future `Next` handed out can be awaited, and awaiting consumes it; it gives a fresh `Con` pairing a handle with its receiver for the same connection and owned by the endpoint, or the handshake's error, or `Closed` |
| `TxBackend.Bind` | crates/kitsune_p2p/types/src/tx2/tx_backend.rs:71-81 | one result, raced against the timeout: a fresh open endpoint at the bound address with no connections, paired with its own empty receiver, or the error |
| `TxBackend.AcceptThenCloseScenario` | crates/kitsune_p2p/types/src/tx2/tx_backend.rs:46-73 | a connection accepted through both phases of `next()` has the remote the handshake reported and is closed when its endpoint closes |
| `TxBackend.CloseCascadeScenario` | crates/kitsune_p2p/types/src/tx2/tx_backend.rs:59-73 | after closing an endpoint, a connection and its outgoing and incoming channels obtained earlier are closed, and `local_addr`, `remote_addr`, `connect` and both receivers' `next` fail with `Closed` instead of waiting |
| `Bootstrap.BootstrapUrl` | crates/kitsune_p2p/kitsune_p2p/src/spawn/actor/bootstrap.rs:17-28 | disabled (`None`) iff the variable is set to the empty string; unset gives the default server; any other value is used verbatim; a configured URL is never empty |
| `Bootstrap.SelectUrl` | crates/kitsune_p2p/kitsune_p2p/src/spawn/actor/bootstrap.rs:35-44 | an override is returned unchanged, with no emptiness check; otherwise the configured value |
| `Bootstrap.DisabledExactlyWhenSetEmpty` | crates/kitsune_p2p/kitsune_p2p/src/spawn/actor/bootstrap.rs:17-44 | no URL is selected iff there is no override and the variable is set to the empty string |
| `Bootstrap.EmptyOverrideStillSends` | crates/kitsune_p2p/kitsune_p2p/src/spawn/actor/bootstrap.rs:35-37 | an empty override does not disable anything: a request to the empty URL is sent |
| `Bootstrap.UnsetUsesDefaultServer` | crates/kitsune_p2p/kitsune_p2p/src/spawn/actor/bootstrap.rs:26-27 | with the variable unset and no override, `now` posts to the default server |
| `Bootstrap.BuildRequest` | crates/kitsune_p2p/kitsune_p2p/src/spawn/actor/bootstrap.rs:55-59 | the request carries the encoded body to the selected URL, with the `X-Op` header set to the operation and the content type `application/octet` |
| `Bootstrap.ReadReply` | crates/kitsune_p2p/kitsune_p2p/src/spawn/actor/bootstrap.rs:60-72 | success iff a 2xx status with a readable, decodable body, and then the decoded value; a `Bootstrap` error iff a non-success status with a readable body, carrying that body; transport, body and decode errors unchanged |
| `Bootstrap.DoApi` | crates/kitsune_p2p/kitsune_p2p/src/spawn/actor/bootstrap.rs:46-76 | the input is encoded first, and an encode error surfaces even while disabled; with no URL the result is `Ok(None)` and nothing is sent; otherwise exactly one tagged request is sent and its reply read |
| `Bootstrap.DoApiNoneMeansDisabled` | crates/kitsune_p2p/kitsune_p2p/src/spawn/actor/bootstrap.rs:46-76 | `do_api` returns `Ok(None)` iff the input encodes and discovery is disabled |
| `Bootstrap.EncodeErrorWhileDisabled` | crates/kitsune_p2p/kitsune_p2p/src/spawn/actor/bootstrap.rs:51-53 | with discovery disabled, `put` of an unencodable record still fails with the codec error |
| `Bootstrap.OperationTags` | crates/kitsune_p2p/kitsune_p2p/src/spawn/actor/bootstrap.rs:30-33 | whatever is sent carries `X-Op: put` for `put`, `now` for `now` and `random` for `random` |
| `Bootstrap.Put` | crates/kitsune_p2p/kitsune_p2p/src/spawn/actor/bootstrap.rs:78-87 | fails iff `do_api` fails, with the same error; otherwise `Ok(())`, including when disabled |
| `Bootstrap.LocalMillis` | crates/kitsune_p2p/kitsune_p2p/src/spawn/actor/bootstrap.rs:93-96 | the whole milliseconds since the epoch as a u64; a clock before the epoch and a value beyond u64 are errors |
| `Bootstrap.Now` | crates/kitsune_p2p/kitsune_p2p/src/spawn/actor/bootstrap.rs:89-99 | the server's value when one came back, the local milliseconds when disabled, and `do_api`'s error unchanged |
| `Bootstrap.Random` | crates/kitsune_p2p/kitsune_p2p/src/spawn/actor/bootstrap.rs:107-119 | the decoded server list when one came back, the empty list when disabled, and `do_api`'s error unchanged |
| `Bootstrap.DisabledFallbacks` | crates/kitsune_p2p/kitsune_p2p/src/spawn/actor/bootstrap.rs:78-119 | with the variable set empty and the input encodable: no request is sent, `put` is `Ok(())`, `now` is the local clock and `random` is the empty list |
| `WaitOps.ColdStart` | crates/monolith/originals/holochain/src/test_utils.rs:372-376 | the op total of the genesis change alone |
| `WaitOps.Start` | crates/monolith/originals/holochain/src/test_utils.rs:378-381 | the op total of genesis followed by init |
| `WaitOps.StartWithCap` | crates/monolith/originals/holochain/src/test_utils.rs:383-386 | the op total of genesis, init and a capability grant |
| `WaitOps.Path` | crates/monolith/originals/holochain/src/test_utils.rs:388-393 | the op total of a root entry followed by one link and one entry per level |
| `WaitOps.StartCounts` | crates/monolith/originals/holochain/src/test_utils.rs:362-386 | `cold_start`, `start` and `start_with_cap` are 7, 9 and 11; `start` adds init to `cold_start` and `start_with_cap` adds the cap grant to `start` |
| `WaitOps.PathChangesOps` | crates/monolith/originals/holochain/src/test_utils.rs:392 | the change-list reference for a path of depth d totals `ENTRY + (LINK + ENTRY) * d` ops |
| `WaitOps.PathStep` | crates/monolith/originals/holochain/src/test_utils.rs:391-393 | `path(0)` is one entry and each level adds one link and one entry |
| `WaitOps.PathStrictlyIncreasing` | crates/monolith/originals/holochain/src/test_utils.rs:391-393 | deeper paths produce strictly more ops |
| `IntegrationWait.WaitForIntegration` | crates/monolith/originals/holochain/src/test_utils.rs:404-423 | at most `num_attempts` reads; returns right after the first read equal to the expected count, and otherwise after all attempts; no earlier read matched; one delay per non-matching read |
| `IntegrationWait.WaitForIntegration10s` | crates/monolith/originals/holochain/src/test_utils.rs:396-402 | at most 100 reads; integrated iff one of the first 100 reads matches, and then the first match ends it after 100 ms per earlier read; without a match all 100 reads are made and the full 10 000 ms slept |
| `IntegrationWait.WaitForIntegrationWithOthers` | crates/monolith/originals/holochain/src/test_utils.rs:425-458 | with the same other environments read at every attempt: panics ("LOST A VALUE") at the first attempt whose summed integrated count of the others drops below the previous attempt's; otherwise `last_total` is the last attempt's sum, and the loop ends at the first attempt whose own integrated count is the expected one, or after all attempts |
| `IntegrationWait.MonotoneFrom` | crates/monolith/originals/holochain/src/test_utils.rs:434-440 | with no loss after attempt j, the others' integrated total at any later attempt is at least the one at j |
| `IntegrationWait.NoLossMeansMonotone` | crates/monolith/originals/holochain/src/test_utils.rs:434-440 | over a run that raised no loss, the others' integrated totals never decrease |
| `IntegrationWait.DropIsReported` | crates/monolith/originals/holochain/src/test_utils.rs:434-440 | any drop between two attempts means a loss is detected at some attempt in between |

## Left out

- Real clocks, the tokio timer and `futures::select` scheduling. Time is a natural number of nanoseconds, and a race is a comparison of completion instants. Dropping the losing future is not modelled.
- The platform's largest `Instant` is a parameter (`maxInstant`), because it differs from platform to platform.
- Byte streams behind `InChan` and `OutChan` (`AsyncRead` and `AsyncWrite`). Only a channel's lifecycle is modelled: it is open, or closed by its connection.
- Concrete tx2 backends (in-memory, QUIC, proxy). A backend's behaviour is an input: the completion of each attempt, and the queue of discovered incoming items (`Deliver`). `TxBackend.Bind` takes the bound address from the attempt. The `url` it receives is the spec handed to the backend.
- Concurrency between tasks sharing an `Arc` handle. Every method runs as one atomic step.
- reqwest (`CLIENT`, sending, reading the body) and msgpack encoding are input functions. The `Bootstrap` error carries the response body bytes. The lossy UTF-8 decoding of `text()` is not modelled.
- The server's side of the bootstrap protocol (signature checks, `limit`, sampling) and the live-server tests (bootstrap.rs:121-261). These describe the server's behaviour, not the client's.
- `AgentInfoSigned` and its signing. The record is a type parameter handed to the encoder.
- `WaitOps.Path`: the model uses unbounded naturals. It does not model the `usize` overflow of `path` at depths beyond (2^64 - 4) / 6, which no caller reaches.
- `WaitOps.PathStrictlyIncreasing`: the model uses unbounded naturals. It does not model `usize` overflow of `path` at depths beyond (2^64 - 4) / 6, which no caller reaches.
- `IntegrationWait.WaitForIntegrationWithOthers`: the model uses unbounded naturals. It does not model `usize` overflow of the `sum()` of integrated counts, which would panic only beyond 2^64 ops.
- The LMDB reads in `count_integration` and `display_integration` are not modelled. They are inputs: the sequence of values successive reads return. Tracing output and its `Duration` arithmetic are left out too.
- The rest of test_utils.rs is test-harness plumbing and is not modelled: conductor and app setup, network spawning, the `meta_mock!` macro, fixture signing, zome-call construction and wasm cache warming. The same goes for the fixture generators and the test wasm.
