# bore server: tunnel broker model

This project models the sequential core of the `bore` relay server
(`src/server.rs`). The server hands a client a public TCP port that forwards
to the client's local service. The model covers:

- **Port allocation** (`create_listener`). A nonzero requested port must lie
  in the inclusive `port_range` and is bound exactly once. Port 0 ("any")
  tries up to 150 random ports of the range and keeps the first that binds.
  A bind failure becomes one of three fixed messages.
- **The two shared maps** the server owns. `conns` maps a connection id to a
  pending visitor stream. `port_owners` maps `(port, client address)` to the
  handle of the listener task serving it.
- **Dispatch on a control connection's first message** (`handle_connection`),
  after the optional authentication handshake.
- **The listener task's steps**: heartbeat, visitor accept, expiry timer,
  and the `Connection(id)` notice.

Modules:

- `Types`: ports (`u16`), 128-bit ids, socket addresses, `Option`, `Result`.
- `Protocol`: the client and server messages.
- `Allocator`: the value-level policy. `TryBind` is one bind with its error
  mapping. `BindFirst` is the random search. `Allocate` is the whole
  listener creation, used as the reference definition. The lemmas about them
  are here too.
- `Registry`: the `conns` map as a value. `Step` applies one visitor insert,
  client claim or timer expiry. `Run` replays any interleaving of them.
- `Broker`: the class `Server`. Its fields are the two maps plus what the
  model records about tasks: spawned tasks (`tasks`), aborted handles
  (`aborted`), tasks whose loop ended on its own (`finished`), and pending
  expiry timers (`timers`). Its methods are the operations. `Valid()` is the
  invariant they all preserve. It says:
  - every owner entry names a spawned task that was never aborted;
  - that task serves that very port for that very address;
  - no entry is ever under port 0;
  - every pending connection still has its expiry timer.

Inputs stand in for the environment:

- The operating system's bind is a `BindOracle`: the ports it refuses, each
  with a failure kind, and the nonzero port it picks when port 0 is bound.
- `fastrand` is a sequence of exactly 150 picks, all in the range.
- `peer_addr().ok()` is an `Option<SocketAddr>`.
- The handshake's verdict and the first message read are parameters.
- `peerOpen` says whether writes on the control stream succeed.
- `Uuid::new_v4` freshness is a precondition: the id has no pending timer.
- Timers, task aborts and task exits are explicit methods or recorded sets.

The any-port branch does not always keep to the range. Its comment at
`src/server.rs:102` says the client requests "any available port in range".
But `fastrand::u16(self.port_range.clone())` (`src/server.rs:112`) returns 0
when the range contains 0, and `try_bind(0)` (`src/server.rs:87`) then lets the
system choose the port, which may lie outside the range. The model follows the
code. `Allocator.ZeroPickEscapesRange` exhibits this case.
`Allocator.AllocatedPortInRange` proves that a range starting above 0 always
yields an in-range port.

## Model

| member | source | states |
|---|---|---|
| `Allocator.BindErrorMessage` | src/server.rs:89-93 | Every bind failure kind maps to one of the three fixed bind messages. |
| `Allocator.TryBind` | src/server.rs:86-94 | A bind succeeds exactly when the system does not refuse the port. It yields a nonzero local port, equal to the requested one unless 0 was asked for. A failure is one of the three fixed messages. |
| `Allocator.ErrorMessagesDistinct` | src/server.rs:89-93 | AddrInUse, PermissionDenied and any other kind map to three distinct messages. None of them equals the out-of-range or no-port message. |
| `Allocator.RandomPicksNeedNonEmptyRange` | src/server.rs:41 | Random picks can only exist when the range holds at least one port, which `Server::new` asserts. |
| `Allocator.RandomPicksDrawable` | src/server.rs:41 | Conversely, a non-empty range, which `Server::new` guarantees, can always supply 150 in-range picks. So the picks that `CreateListener`, `HandleHello` and `HandleConnection` require always exist for a valid server. |
| `Allocator.BindFirst` | src/server.rs:111-118 | The search tries a prefix of the picks, at most all of them. A success is the bind of the last port tried. A failure is "failed to find an available port" after every pick was tried. |
| `Allocator.Allocate` | src/server.rs:95-119 | Listener creation tries at most 150 ports. A success has a nonzero port. A failure is the out-of-range message, the no-port message or one of the three bind messages. |
| `Allocator.OutOfRangeRejected` | src/server.rs:95-99 | A nonzero port outside the range fails with "client port number not in allowed range", and no bind is tried. |
| `Allocator.SpecificPortBoundOnce` | src/server.rs:95-100 | A nonzero in-range port is bound exactly once, on that port, with no retry. The result is that listener or the mapped bind error. |
| `Allocator.BindFirstSucceedsOnFirstFree` | src/server.rs:111-118 | The search succeeds if and only if some pick is bindable. On success it tried the picks up to the first bindable one and returns that bind. On failure it tried every pick and reports "failed to find an available port". |
| `Allocator.BindFirstStopsAt` | src/server.rs:111-116 | If the picks before index i are refused and pick i is not, the search returns pick i's listener after trying exactly picks[..i+1]. |
| `Allocator.BindFirstExhausted` | src/server.rs:111-118 | If every pick is refused, the search tries them all and returns "failed to find an available port". |
| `Allocator.AnyPortAttemptsBounded` | src/server.rs:111-118 | Port 0 makes between 1 and 150 bind attempts, all on in-range ports. It fails if and only if all 150 picks are refused, and then made exactly 150 attempts. |
| `Allocator.FullRangeAlwaysFails` | src/server.rs:111-118 | When every port of the range is refused, asking for any port always fails with "failed to find an available port" after 150 attempts. |
| `Allocator.AllocatedPortOrigin` | src/server.rs:100-116 | A success comes from the last bind tried, on a port the system did not refuse, and the assigned port is nonzero. The port is the requested one, or a pick in the range, or the system's choice after a pick of 0. |
| `Allocator.AllocatedPortInRange` | src/server.rs:95-118 | With a range that excludes 0, every allocated port lies in the range. |
| `Allocator.ZeroPickEscapesRange` | src/server.rs:111-114 | With the range 0..=0, port 0 is bound as "any port" and the system's port 40000, outside the range, is assigned. |
| `Registry.Step` | src/server.rs:176-196 | An insert adds or replaces the entry and takes nothing. A claim or an expiry removes the id and returns its stream exactly when the id was pending. Every other entry is kept. |
| `Registry.Run` | src/server.rs:175-196 | Replaying events removes at most one entry per event, and only ids that were pending at the start or are inserted by some event. |
| `Registry.RemovalsBoundedByInserts` | src/server.rs:175-183 | Over any interleaving of inserts, claims and expiries, an id's removals plus its presence at the end never exceed its inserts plus its presence at the start. |
| `Registry.FreshIdRemovedAtMostOnce` | src/server.rs:175-183 | An id that was not pending and is inserted at most once is handed out at most once, whether by a claim or by its timer. |
| `Registry.ClaimAndExpiryExclusive` | src/server.rs:180 | A claim and an expiry of the same id, in either order, are both removals. Exactly one gets the stream when the id was pending, neither does otherwise, and afterwards the id is gone. |
| `Broker.Server.constructor` | src/server.rs:40-50 | Requires a non-empty range. It starts with empty maps, no tasks and no timers, and establishes the invariant. |
| `Broker.Server.CreateListener` | src/server.rs:85-120 | The loop's result and its list of tried ports equal `Allocate`. At most 150 binds are tried, all on in-range ports. An out-of-range port tries none, an in-range port tries only itself, and port 0 tries a prefix of the picks whose earlier entries were all refused. |
| `Broker.Server.HandleHello` | src/server.rs:140-193 | Order of effects: (1) removes and aborts the owner under (requested port, address); (2) allocates; (3) on failure replies `Error(msg)` and registers no task; (4) on success replies `Hello(port)`, spawns a fresh task and, when the address is known, records it as owner under (assigned port, address). A failed reply write ends the handler with an error before the spawn. Conns and timers are unchanged. No two live listeners share a port afterwards, provided they did not before and the system refuses the ports of the live listeners other than the one this `Hello` evicts. The evicted listener's port counts as free, so an evict-then-rebind of the same port is covered. |
| `Broker.Server.HelloLeavesOthers` | src/server.rs:141-147 | What `Hello` leaves alone: (1) with an unknown address, the owner table and the aborted set; (2) for `Hello(0)`, the aborted set; (3) every owner entry under another address, or under a port that is neither requested nor assigned. |
| `Broker.Server.EvictOwner` | src/server.rs:142-147 | Removes the entry under (requested port, address) if present and adds its handle to the aborted set. Everything else in the owner table is unchanged, no task becomes live, and the evicted task is no longer live. |
| `Broker.Server.SpawnListener` | src/server.rs:161-191 | The new task gets a fresh handle and is live. It is recorded as owner under (port, address) only when the address is known. |
| `Broker.Server.HandleAccept` | src/server.rs:194-206 | A claim removes the id if present and returns its stream. An absent id returns nothing, sends nothing, and the handler still ends cleanly. The owner table and tasks are untouched. |
| `Broker.Server.HandleConnection` | src/server.rs:122-209 | A failed handshake sends `Error(msg)` and changes nothing. A receive error fails the handler, and the stream ending, or `Authenticate` as the first message, closes it; either way both maps are unchanged. `Hello` and `Accept` have the effects above. The live-port property is preserved under the same assumption about the system as for `HandleHello`. |
| `Broker.Server.VisitorArrived` | src/server.rs:172-184 | A live listener inserts the visitor under a fresh id, schedules that id's expiry and announces `Connection(id)`. |
| `Broker.Server.Expire` | src/server.rs:177-183 | The timer removes the id only if it is still pending and returns the dropped stream. The timer is then gone. |
| `Broker.Server.Heartbeat` | src/server.rs:168-170 | A delivered heartbeat keeps the task live. A failed one ends it and leaves its owner entry in place. |
| `Broker.Server.AcceptFailed` | src/server.rs:172-173 | An accept error ends the listener task, because the source unwraps the result. |

## Left out

- Sockets, `TcpListener::bind`, `accept`, `peer_addr` and `local_addr` are not modelled; their results are inputs. A `local_addr()` failure after a successful bind is not modelled.
- The control-port accept loop `listen` and the fixed control-port bind are not modelled. They only spawn `handle_connection`.
- `tokio::spawn` and `abort` scheduling are not modelled. An abort is recorded in `aborted` and takes effect at once in the model; in the source it happens at the task's next suspension point. So the model treats an evicted listener's port as free for the bind that follows, while in the source the old socket may still hold it.
- Concurrency is not modelled: each method is treated as one atomic step. In the source only each individual map call is atomic, and a handler awaits partway through: the `Hello` branch awaits the bind and the replies between `port_owners.remove` and `port_owners.insert`. The model loses those interleavings, for example a second `Hello` arriving between another handler's remove and insert.
- The 500 ms accept timeout and the 10 s expiry delay are not modelled. The expiry is an explicit `Expire(id)` event, and the step that would follow a timeout is just the next heartbeat.
- The byte relay `proxy` and the `write_all` of residual read-buffer bytes after a claim are I/O. Their errors and the debug assertion on the write buffer are not modelled, so `HandleAccept` ends cleanly after a claim.
- `Delimited` framing, `recv_timeout` and the wire encoding are not modelled; the first message arrives already decoded as `Received`.
- `Authenticator::server_handshake` is reduced to its verdict: `Ok` or an error message.
- `fastrand`'s uniform distribution is not modelled. Neither is the probabilistic claim that 150 picks succeed with 99.999% probability when 15% of the range is free; it is real-valued.
- `tracing` logging is not modelled.
- `set_bind_addr` and `set_bind_tunnels` are not modelled: they are plain setters, and the bind addresses only reach the operating system.
