# wayland-rs core bookkeeping, modelled in Dafny

This project models three small pieces of logic from wayland-rs, the Rust implementation of the Wayland
display-server protocol:

- **The display dispatcher of the pure-Rust client.** Object id 1 is the `wl_display` object. Its
  dispatcher handles the two core events. `error` stores a protocol-error record in the connection's
  `last_error` slot, and `protocol_error()` reads that slot back. `delete_id` is the server's
  acknowledgement that an id is free. It sets the object's `server_destroyed` flag, and it removes the
  object from the map only if the client had already set `client_destroyed`. This two-flag rule keeps an
  id resolvable until both sides are done with it.
- **Per-client bookkeeping on the server (native-library backend).** Each connected client has a
  shared `ClientInternal` holding:
  - a liveness flag;
  - the ordered list of destructors, in a thread guard;
  - the user-data map;
  - the thread that hosts the display.
  
  Registering a destructor or creating a resource off that thread panics. When the C library destroys
  the client, the client is marked dead and every destructor runs once, in registration order.
- **`ThreadGuard` and `NoMessage`** from wayland-commons. A `ThreadGuard` is a value tagged with the
  thread that created it, and only that thread may access it. `NoMessage` is the empty message group.

The calling thread is an explicit `ThreadId` parameter. A Rust panic is the `Panic` outcome of
`Outcomes.Checked`. Shared `Arc` state becomes identities in maps: `InternalId` for a
`ClientInternal`, and the object id for a client-side object. Everything is sequential: the model
has no locks or atomics.

Modules (one file each): `Outcomes` (outcomes.dfy), `ThreadGuards` (thread_guard.dfy),
`MessageGroups` (message_group.dfy), `Display` (display.dfy) and `ServerClient` (client.dfy).

Two behaviours of the code worth noting:
- Every `error` event overwrites the `last_error` slot. The stored record is the latest error, not the
  first (`Display.LastErrorIsLatest`).
- `add_destructor` does not check liveness. A destructor registered after the client died is appended
  to the list, but it is never run: no destroy listener still reaches a dead client
  (`ServerClient.DeadClientHasNoListener`).

The server-side operations take `ServerClient.ValidServer` as a precondition. It says:
- every listener reaches the state of a live client;
- no two listeners share one state;
- every destructor list is owned by its client's safe thread.

This invariant holds in every reachable state: `EmptyServer` establishes it, and `FromPtr`, `AddDestructor` and
`DestroyClient` each re-establish it. `DestroyClient` also requires that the client pointer has a
registered listener, because the C library invokes the callback only through that listener.

## Model

| member | source | states |
|---|---|---|
| ThreadGuards.New | wayland-commons/src/lib.rs:151-158 | a new guard holds the given value and records the calling thread as its owner |
| ThreadGuards.NewOwnedByCreator | wayland-commons/src/lib.rs:151-158 | a new guard gives its value to the creating thread and to no other; `get` from any other thread panics |
| ThreadGuards.TryGet | wayland-commons/src/lib.rs:178-187 | shared access succeeds exactly on the owner thread and then yields the stored value |
| ThreadGuards.TryGetMut | wayland-commons/src/lib.rs:189-198 | mutable access succeeds under the same condition as shared access; on success, the caller's update applies to the stored value and the owner stays the same |
| ThreadGuards.Get | wayland-commons/src/lib.rs:162-168 | off the owner thread it panics with the guard's message; on the owner thread it agrees with `try_get` |
| ThreadGuards.GetMut | wayland-commons/src/lib.rs:170-176 | off the owner thread it panics; on the owner thread it agrees with `try_get_mut` |
| ThreadGuards.AccessKeepsOwner | wayland-commons/src/lib.rs:146-198 | access never changes the owner thread; a write through `get_mut` is what the next `get` returns; `get_mut` panics only where `get` would |
| MessageGroups.NoMessageMessages | wayland-commons/src/lib.rs:109 | the message table of `NoMessage` contains no message |
| MessageGroups.NoMessageChild | wayland-commons/src/lib.rs:120-122 | no opcode of `NoMessage` creates a child object |
| MessageGroups.NoMessageFromRaw | wayland-commons/src/lib.rs:123-125 | parsing any raw message as `NoMessage` fails |
| MessageGroups.NoMessageFromRawC | wayland-commons/src/lib.rs:129-135 | parsing any C-side message as `NoMessage` fails |
| Display.FromFd | wayland-client/src/rust_imp/display.rs:23-52 | a new display has only the `wl_display` object, at id 1, with the display dispatcher installed and neither destruction flag set; the proxy is id 1; no error is recorded |
| Display.Handle | wayland-client/src/rust_imp/display.rs:100-132 | `error` replaces the slot with a record of code, object id, interface and message, and leaves the map unchanged. `delete_id` leaves the slot unchanged and does nothing for an unknown id. For a known id it removes the object iff `client_destroyed` was set, otherwise it keeps the object with `server_destroyed` set. Every other entry is unchanged |
| Display.Dispatch | wayland-client/src/rust_imp/display.rs:88-136 | a message that does not parse gives `BadMsg` and leaves the state unchanged; a message that parses gives `Yes` and is handled |
| Display.LastProtocolError | wayland-client/src/rust_imp/display.rs:70-78 | returns a record exactly when the slot holds a protocol error, and that record is the one stored |
| Display.FromFdHasNoStaleEntries | wayland-client/src/rust_imp/display.rs:23-42 | a new display has no object with both destruction flags set |
| Display.DispatchAllKeepsNoStaleEntries | wayland-client/src/rust_imp/display.rs:120-132 | after any sequence of messages, no object in the map has both destruction flags set |
| Display.DispatchAllOnlyShrinks | wayland-client/src/rust_imp/display.rs:96-135 | the dispatcher never adds objects; a surviving object keeps its interface, version, dispatcher and `client_destroyed` flag |
| Display.RemovalNeedsClientDestroy | wayland-client/src/rust_imp/display.rs:123-131 | across any sequence of messages, an object leaves the map only if the client had already destroyed it |
| Display.DisplayObjectSurvives | wayland-client/src/rust_imp/display.rs:26-42 | whatever the server sends, id 1 stays in the map with the display dispatcher installed |
| Display.LastErrorIsLatest | wayland-client/src/rust_imp/display.rs:113-118 | after a sequence of messages, each parsed against the map current at its turn, the slot holds the last error parsed; if there was none, the slot is unchanged |
| Display.DeleteIdRemovesOnce | wayland-client/src/rust_imp/display.rs:122-131 | once `delete_id` has removed a client-destroyed object, a repeated `delete_id` for that id changes nothing |
| ServerClient.NewInternal | wayland-server/src/native_lib/client.rs:22-30 | a new client is alive; its safe thread is the creator; its destructor list is empty and only the creator may access it |
| ServerClient.FromPtr | wayland-server/src/native_lib/client.rs:43-75 | the first call for a pointer creates new state (alive, empty list, caller as safe thread) and registers it on a listener, leaving other clients unchanged; a later call returns the registered state and changes nothing |
| ServerClient.Alive | wayland-server/src/native_lib/client.rs:81-83 | a handle reports the liveness flag of the state it shares |
| ServerClient.Equals | wayland-server/src/native_lib/client.rs:85-87 | two handles are equal exactly when they share the same internal state, whatever client pointer they carry |
| ServerClient.EqualsIsEquivalence | wayland-server/src/native_lib/client.rs:81-87 | `equals` is reflexive, symmetric and transitive, and equal handles report the same liveness |
| ServerClient.FromPtrShares | wayland-server/src/native_lib/client.rs:43-87 | two `from_ptr` calls for one pointer, from any threads, return handles that `equals` relates; the second call changes nothing; the safe thread is the first caller's |
| ServerClient.Flush | wayland-server/src/native_lib/client.rs:89-97 | calls the C library to flush exactly when the client is alive |
| ServerClient.Kill | wayland-server/src/native_lib/client.rs:99-107 | calls the C library to destroy the client exactly when the client is alive |
| ServerClient.AddDestructor | wayland-server/src/native_lib/client.rs:113-130 | panics iff called off the safe thread, and then registers nothing; otherwise appends exactly one armed destructor at the end of the list and changes nothing else |
| ServerClient.AsI32 | wayland-server/src/native_lib/client.rs:149 | the version passed to the C library is the signed 32-bit value congruent to the unsigned one |
| ServerClient.CreateResource | wayland-server/src/native_lib/client.rs:132-154 | panics iff called off the safe thread, even for a dead client; on the safe thread it returns no resource iff the client is dead, otherwise a resource of this client with the version cast to `i32` |
| ServerClient.CallWrapper | wayland-server/src/native_lib/client.rs:118-129 | one call of a destructor wrapper runs its callback at most once and leaves the wrapper empty |
| ServerClient.WrapperRunsAtMostOnce | wayland-server/src/native_lib/client.rs:120-129 | however many times a wrapper is called, its callback runs at most once; an armed wrapper that is called runs exactly once |
| ServerClient.ArmedFiredInOrder | wayland-server/src/native_lib/client.rs:163-166 | when every wrapper is armed, draining runs exactly the registered callbacks, one run each, in list order |
| ServerClient.RunDestructors | wayland-server/src/native_lib/client.rs:163-166 | the drain loop calls each wrapper once, in list order, and produces the runs of the reference definition `Fired` |
| ServerClient.DestroyClient | wayland-server/src/native_lib/client.rs:157-169 | panics iff the guarded list is read off its owner thread. Otherwise the client is marked dead first, then every registered destructor runs once, in registration order, with the client's user-data map, and each sees the client already dead. The list is left empty, the listener is dropped, other clients are unchanged and the server invariant holds |
| ServerClient.DeadClientHasNoListener | wayland-server/src/native_lib/client.rs:157-169 | no destroy listener reaches a dead client, so its teardown cannot run again and a destructor added after its death never runs |
| ServerClient.DeadClientIsInert | wayland-server/src/native_lib/client.rs:89-141 | for a dead client, `flush` and `kill` make no call, and `create_resource` on the safe thread returns nothing |

## Left out

- wayland-client/src/native_lib/event_queue.rs: the libwayland-backed event queue, which is a different backend from the one modelled here. It maps non-negative return codes to success, and it passes the dispatch fallback to C callbacks through a lifetime-erasing `transmute`.
- wayland-client/src/native_lib/display.rs: the libwayland-backed display, a different backend from the one modelled here. It has its own small logic, none of it modelled:
  - a missing library becomes `NoWaylandLib`;
  - a null display pointer becomes `NoCompositorListening`;
  - an `EPROTO` error is turned into a protocol-error record with an empty message and a `"<unknown>"` interface fallback;
  - on drop it disconnects unless the display was supplied externally.
- wayland_client/sidebar-items.js: generated documentation data, not code.
- Locking and atomics: `Arc`/`Mutex`, the `C_SAFETY` lock, `RefCell` borrows and the `Acquire`/`Release` orderings of the liveness flag. The model is sequential state.
- `WAYLAND_DEBUG` logging and the `eprintln!` of protocol errors: diagnostic output only.
- `DisplayInner::flush`: a socket write plus the errno mapping of the `nix` crate (I/O).
- `create_event_queue`, `get_proxy`, `ClientInner::ptr` and `user_data_map`: accessors with no logic of their own.
- The object map, the wire codec and the generated `wl_display` event parser are not part of this model. The object map is a Dafny `map`. The parser is an opaque `Parser` parameter. It receives the object map as it stands when each message is parsed. An `error` event it returns already names the id and interface of its object argument.
- `Connection::new` and `ObjectMeta::new` are not part of this model. They are taken to start the map with only the display object at id 1, and to start both destruction flags as false.
- Setting `client_destroyed` when this side destroys a proxy is done outside the modelled files, so no operation here sets it.
  - `Display.DispatchAllOnlyShrinks` and `Display.RemovalNeedsClientDestroy` hold from any starting map.
  - `Display.DispatchAllKeepsNoStaleEntries` needs a starting map with no object that has both flags set. A stale entry already in the map is not removed by a run unless `delete_id` names it.
- The `Dispatched::NoDispatch` variant and the `unreachable!()` arm: the display dispatcher never produces either, because `wl_display` has exactly two events.
- `NoMessage::is_destructor`, `opcode`, `since`, `into_raw` and `as_raw_c_in`: these take an uninhabited value and cannot be called.
- `ResourceInner::init_from_c_ptr` and `wl_resource_create`: a created resource is just its client and version.
- The C library calling `client_destroy` synchronously from `wl_client_destroy`: `Kill` only records the call.
- A panic inside a user destructor while the list is draining: destructors are opaque callbacks that always return.
- ServerClient.DestroyClient: on a panic, it does not model that the liveness flag was already cleared. A panic inside this C callback aborts the process.
