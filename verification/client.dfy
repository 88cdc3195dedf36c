/** Server-side bookkeeping for one connected client (the native-library backend):
    liveness, the ordered destructor list, and the thread that owns the display. */
module ServerClient {
  import opened Outcomes
  import opened ThreadGuards

  /** Address of a `wl_client` in the C library. */
  type ClientPtr = nat
  /** Identity of one shared `ClientInternal` (the `Arc` it lives in). */
  type InternalId = nat
  /** Identity of a user-supplied destructor callback. */
  type CallbackId = nat
  /** Identity of a client's shared user-data map. */
  type UserDataId = nat

  /** The `FnMut` wrapper boxed around each registered `FnOnce` destructor: the callback
      is taken out of its slot on the first call. */
  datatype Wrapper = Wrapper(pending: Option<CallbackId>)

  /** One run of a user destructor: the user-data map it was handed, and the liveness
      its client reported while it ran. */
  datatype Invocation = Invocation(callback: CallbackId, userData: UserDataId, clientAlive: bool)

  /** `ClientInternal`: shared by every handle to the same client. */
  datatype ClientInternal = ClientInternal(
    alive: bool,
    userData: UserDataId,
    destructors: ThreadGuard<seq<Wrapper>>,
    safeThread: ThreadId)

  /** `ClientInner`: a handle, naming the C client and the shared internal state. */
  datatype ClientInner = ClientInner(ptr: ClientPtr, internal: InternalId)

  /** Calls into the C library that an operation makes. */
  datatype FfiCall = ClientFlush(ptr: ClientPtr) | ClientDestroy(ptr: ClientPtr)

  /** A resource created for a client, with the version as the C library receives it. */
  datatype Resource = Resource(client: ClientPtr, version: int)

  /** All client state of a server: the shared internals, the destroy listener that
      carries each registered client's internal state, the destructor runs so far, and
      the next unused internal identity. */
  datatype Server = Server(
    internals: map<InternalId, ClientInternal>,
    listeners: map<ClientPtr, InternalId>,
    log: seq<Invocation>,
    nextInternal: nat)

  const WrongThreadDestructor: string := "Can only add a destructor from the thread hosting the Display."
  const WrongThreadResource: string := "Can only create ressources from the thread hosting the Display."

  /** The invariant every reachable server keeps: every listener points at the existing
      state of a live client, no two listeners share one state (each first `from_ptr`
      makes its own), identities lie below the allocation counter, each destructor list
      is owned by its client's safe thread, and every registered destructor is still armed. */
  ghost predicate ValidServer(s: Server)
  {
    && (forall p :: p in s.listeners ==> s.listeners[p] in s.internals && s.internals[s.listeners[p]].alive)
    && (forall p, q :: p in s.listeners && q in s.listeners && p != q ==> s.listeners[p] != s.listeners[q])
    && (forall id :: id in s.internals ==> id < s.nextInternal)
    && (forall id :: id in s.internals ==> s.internals[id].destructors.thread == s.internals[id].safeThread)
    && (forall id :: id in s.internals ==> Armed(s.internals[id].destructors.val))
  }

  /** Every wrapper still holds its callback. */
  predicate Armed(ws: seq<Wrapper>)
  {
    forall k :: 0 <= k < |ws| ==> ws[k].pending.Some?
  }

  /** A handle whose internal state exists. */
  predicate ValidInner(s: Server, inner: ClientInner)
  {
    inner.internal in s.internals
  }

  /** A server with no client. */
  function EmptyServer(): (s: Server)
    ensures ValidServer(s)
    ensures s.listeners == map[] && s.log == []
  {
    Server(map[], map[], [], 0)
  }

  /** `ClientInternal::new`, run on thread `current`. */
  function NewInternal(current: ThreadId, userData: UserDataId): (i: ClientInternal)
    ensures i.alive
    ensures i.safeThread == current
    ensures TryGet(i.destructors, current) == Some([])
    ensures forall t :: t != current ==> TryGet(i.destructors, t).None?
  {
    ClientInternal(true, userData, New([], current), current)
  }

  /** `from_ptr`: the first call for a client pointer creates its internal state and
      registers it on a destroy listener; later calls find it there and share it. */
  function FromPtr(s: Server, ptr: ClientPtr, current: ThreadId): (r: (Server, ClientInner))
    requires ValidServer(s)
    ensures ValidServer(r.0) && ValidInner(r.0, r.1) && r.1.ptr == ptr
    ensures r.0.log == s.log
    ensures ptr in s.listeners ==> r.0 == s && r.1.internal == s.listeners[ptr]
    ensures ptr !in s.listeners ==>
              && r.1.internal !in s.internals
              && r.0.listeners == s.listeners[ptr := r.1.internal]
              && r.0.internals.Keys == s.internals.Keys + {r.1.internal}
              && (forall id :: id in s.internals ==> r.0.internals[id] == s.internals[id])
    ensures ptr !in s.listeners ==>
              var i := r.0.internals[r.1.internal];
              i.alive && i.safeThread == current && TryGet(i.destructors, current) == Some([])
  {
    if ptr in s.listeners then
      (s, ClientInner(ptr, s.listeners[ptr]))
    else
      var id := s.nextInternal;
      var s' := Server(s.internals[id := NewInternal(current, id)], s.listeners[ptr := id], s.log, id + 1);
      (s', ClientInner(ptr, id))
  }

  /** `alive`: the liveness flag of the shared state, seen through any handle to it. */
  function Alive(s: Server, inner: ClientInner): (r: bool)
    requires ValidInner(s, inner)
    ensures r <==> s.internals[inner.internal].alive
  {
    s.internals[inner.internal].alive
  }

  /** `equals`: two handles are equal when they share the same internal state, whatever
      client pointer they carry. */
  function Equals(a: ClientInner, b: ClientInner): (r: bool)
    ensures r <==> a.internal == b.internal
  {
    a.internal == b.internal
  }

  /** `equals` is an equivalence, and equal handles see the same liveness. */
  lemma EqualsIsEquivalence(s: Server, a: ClientInner, b: ClientInner, c: ClientInner)
    ensures Equals(a, a)
    ensures Equals(a, b) == Equals(b, a)
    ensures Equals(a, b) && Equals(b, c) ==> Equals(a, c)
    ensures Equals(a, b) && ValidInner(s, a) ==> ValidInner(s, b) && Alive(s, a) == Alive(s, b)
  {
  }

  /** Any two `from_ptr` calls for one client pointer, from any threads, give equal
      handles; the second call changes nothing, and the safe thread stays the first caller's. */
  lemma FromPtrShares(s: Server, ptr: ClientPtr, first: ThreadId, second: ThreadId)
    requires ValidServer(s)
    ensures var (s1, a) := FromPtr(s, ptr, first);
            var (s2, b) := FromPtr(s1, ptr, second);
            s2 == s1 && Equals(a, b) && a == b
    ensures ptr !in s.listeners ==>
              var (s1, a) := FromPtr(s, ptr, first);
              s1.internals[FromPtr(s1, ptr, second).1.internal].safeThread == first
  {
  }

  /** `flush`: reaches the C library only while the client is alive. */
  function Flush(s: Server, inner: ClientInner): (calls: seq<FfiCall>)
    requires ValidInner(s, inner)
    ensures calls == [] <==> !s.internals[inner.internal].alive
    ensures calls != [] ==> calls == [ClientFlush(inner.ptr)]
  {
    if !Alive(s, inner) then [] else [ClientFlush(inner.ptr)]
  }

  /** `kill`: asks the C library to destroy the client, only while it is alive. */
  function Kill(s: Server, inner: ClientInner): (calls: seq<FfiCall>)
    requires ValidInner(s, inner)
    ensures calls == [] <==> !s.internals[inner.internal].alive
    ensures calls != [] ==> calls == [ClientDestroy(inner.ptr)]
  {
    if !Alive(s, inner) then [] else [ClientDestroy(inner.ptr)]
  }

  /** Appends a new armed wrapper around `cb` to a destructor list. */
  function PushDestructor(cb: CallbackId): seq<Wrapper> -> seq<Wrapper>
  {
    ws => ws + [Wrapper(Some(cb))]
  }

  /** `add_destructor`: panics off the safe thread, registering nothing; otherwise
      appends one armed wrapper at the end of the list and changes nothing else. */
  function AddDestructor(s: Server, inner: ClientInner, current: ThreadId, cb: CallbackId): (r: Checked<Server>)
    requires ValidServer(s) && ValidInner(s, inner)
    ensures r.Panic? <==> current != s.internals[inner.internal].safeThread
    ensures r.Panic? ==> r.message == WrongThreadDestructor
    ensures r.Ok? ==> ValidServer(r.value) && r.value.internals.Keys == s.internals.Keys
    ensures r.Ok? ==>
              var i := s.internals[inner.internal];
              var i' := r.value.internals[inner.internal];
              && i'.destructors.val == i.destructors.val + [Wrapper(Some(cb))]
              && i' == i.(destructors := i'.destructors)
              && i'.destructors.thread == i.destructors.thread
              && (forall id :: id in s.internals && id != inner.internal ==> r.value.internals[id] == s.internals[id])
              && r.value.listeners == s.listeners && r.value.log == s.log
  {
    var i := s.internals[inner.internal];
    if i.safeThread != current then Panic(WrongThreadDestructor)
    else
      match GetMut(i.destructors, current, PushDestructor(cb))
      case Panic(m) => Panic(m)
      case Ok(g) => Ok(s.(internals := s.internals[inner.internal := i.(destructors := g)]))
  }

  /** `version as i32`: the two's-complement reading of a 32-bit unsigned version. */
  function AsI32(version: nat): (v: int)
    requires version < 0x1_0000_0000
    ensures -0x8000_0000 <= v < 0x8000_0000
    ensures (v - version) % 0x1_0000_0000 == 0
  {
    if version < 0x8000_0000 then version else version - 0x1_0000_0000
  }

  /** `create_resource`: the thread check comes first and panics off the safe thread,
      even for a dead client; on the safe thread there is no resource exactly when the
      client is dead. */
  function CreateResource(s: Server, inner: ClientInner, current: ThreadId, version: nat): (r: Checked<Option<Resource>>)
    requires ValidInner(s, inner)
    requires version < 0x1_0000_0000
    ensures r.Panic? <==> current != s.internals[inner.internal].safeThread
    ensures r.Panic? ==> r.message == WrongThreadResource
    ensures r.Ok? ==> (r.value.None? <==> !s.internals[inner.internal].alive)
    ensures r.Ok? && r.value.Some? ==>
              && r.value.value.client == inner.ptr
              && (r.value.value.version - version) % 0x1_0000_0000 == 0
              && -0x8000_0000 <= r.value.value.version < 0x8000_0000
  {
    if s.internals[inner.internal].safeThread != current then Panic(WrongThreadResource)
    else if !Alive(s, inner) then Ok(None)
    else Ok(Some(Resource(inner.ptr, AsI32(version))))
  }

  /** The runs a list of wrappers makes when each is called once, in list order, while
      the client reports liveness `alive`. */
  function Fired(ws: seq<Wrapper>, userData: UserDataId, alive: bool): seq<Invocation>
    decreases |ws|
  {
    if |ws| == 0 then []
    else
      Fired(ws[..|ws| - 1], userData, alive)
      + match ws[|ws| - 1].pending
        case Some(cb) => [Invocation(cb, userData, alive)]
        case None => []
  }

  /** One call of a destructor wrapper: `Option::take` empties the slot, and the user
      callback runs only if the slot was still full. */
  function CallWrapper(w: Wrapper, userData: UserDataId, alive: bool): (r: (Wrapper, seq<Invocation>))
    ensures r.0.pending.None?
    ensures |r.1| <= 1
    ensures r.1 == Fired([w], userData, alive)
  {
    match w.pending
    case Some(cb) => (Wrapper(None), [Invocation(cb, userData, alive)])
    case None => (w, [])
  }

  /** The runs made by calling one wrapper `n` times in a row. */
  function CallRepeatedly(w: Wrapper, userData: UserDataId, alive: bool, n: nat): seq<Invocation>
    decreases n
  {
    if n == 0 then []
    else
      var (w', out) := CallWrapper(w, userData, alive);
      out + CallRepeatedly(w', userData, alive, n - 1)
  }

  /** However many times a wrapper is called, its callback runs at most once, and
      exactly once for an armed wrapper called at least once. */
  lemma {:induction false} WrapperRunsAtMostOnce(w: Wrapper, userData: UserDataId, alive: bool, n: nat)
    ensures |CallRepeatedly(w, userData, alive, n)| <= 1
    ensures n > 0 && w.pending.Some? ==>
              CallRepeatedly(w, userData, alive, n) == [Invocation(w.pending.value, userData, alive)]
    ensures w.pending.None? ==> CallRepeatedly(w, userData, alive, n) == []
    decreases n
  {
    if n > 0 {
      var (w', out) := CallWrapper(w, userData, alive);
      WrapperRunsAtMostOnce(w', userData, alive, n - 1);
    }
  }

  /** For armed wrappers, the runs are exactly the registered callbacks, in order. */
  lemma {:induction false} ArmedFiredInOrder(ws: seq<Wrapper>, userData: UserDataId, alive: bool)
    requires Armed(ws)
    ensures |Fired(ws, userData, alive)| == |ws|
    ensures forall k :: 0 <= k < |ws| ==>
              Fired(ws, userData, alive)[k] == Invocation(ws[k].pending.value, userData, alive)
    decreases |ws|
  {
    if |ws| > 0 {
      ArmedFiredInOrder(ws[..|ws| - 1], userData, alive);
    }
  }

  /** The `drain(..)` loop of `client_destroy`: calls each wrapper once, in order, while
      the client reports liveness `alive`. */
  method RunDestructors(ws: seq<Wrapper>, userData: UserDataId, alive: bool) returns (fired: seq<Invocation>)
    ensures fired == Fired(ws, userData, alive)
  {
    fired := [];
    var i := 0;
    while i < |ws|
      invariant 0 <= i <= |ws|
      invariant fired == Fired(ws[..i], userData, alive)
    {
      var (_, out) := CallWrapper(ws[i], userData, alive);
      assert ws[..i + 1][..i] == ws[..i];
      fired := fired + out;
      i := i + 1;
    }
    assert ws[..|ws|] == ws;
  }

  /** Empties a destructor list. */
  function Clear(ws: seq<Wrapper>): seq<Wrapper>
  {
    []
  }

  /** `client_destroy`, the destroy-listener callback run by the C library on thread
      `current`: marks the client dead, then runs every registered destructor once, in
      registration order, each with the client's user-data map and each seeing the
      client already dead, leaves the list empty and drops the listener. Reading the
      list off the owning thread panics. */
  method DestroyClient(s: Server, ptr: ClientPtr, current: ThreadId) returns (r: Checked<Server>)
    requires ValidServer(s) && ptr in s.listeners
    ensures r.Panic? <==> current != s.internals[s.listeners[ptr]].safeThread
    ensures r.Panic? ==> r.message == WrongThread
    ensures r.Ok? ==> ValidServer(r.value) && r.value.internals.Keys == s.internals.Keys
    ensures r.Ok? ==>
              var id := s.listeners[ptr];
              var i := s.internals[id];
              var i' := r.value.internals[id];
              && !i'.alive
              && i'.destructors.val == []
              && i'.destructors.thread == i.destructors.thread
              && i'.userData == i.userData && i'.safeThread == i.safeThread
              && (forall other :: other in s.internals && other != id ==> r.value.internals[other] == s.internals[other])
    ensures r.Ok? ==>
              var i := s.internals[s.listeners[ptr]];
              && |r.value.log| == |s.log| + |i.destructors.val|
              && r.value.log[..|s.log|] == s.log
              && (forall k :: 0 <= k < |i.destructors.val| ==>
                    r.value.log[|s.log| + k] == Invocation(i.destructors.val[k].pending.value, i.userData, false))
    ensures r.Ok? ==> forall k :: |s.log| <= k < |r.value.log| ==> !r.value.log[k].clientAlive
    ensures r.Ok? ==> ptr !in r.value.listeners && r.value.listeners == s.listeners - {ptr}
  {
    var id := s.listeners[ptr];
    var internal := s.internals[id];
    var dead := internal.(alive := false);
    var access := Get(internal.destructors, current);
    if access.Panic? {
      return Panic(access.message);
    }
    // the flag is stored before the list is drained, so every destructor sees a dead client
    var fired := RunDestructors(access.value, internal.userData, dead.alive);
    ArmedFiredInOrder(access.value, internal.userData, dead.alive);
    var emptied := GetMut(internal.destructors, current, Clear);
    r := Ok(Server(s.internals[id := dead.(destructors := emptied.value)], s.listeners - {ptr}, s.log + fired, s.nextInternal));
  }

  /** A dead client is inert: `flush` and `kill` make no call and `create_resource`
      on the safe thread yields nothing. */
  lemma DeadClientIsInert(s: Server, inner: ClientInner, version: nat)
    requires ValidInner(s, inner) && version < 0x1_0000_0000
    requires !Alive(s, inner)
    ensures Flush(s, inner) == [] && Kill(s, inner) == []
    ensures CreateResource(s, inner, s.internals[inner.internal].safeThread, version) == Ok(None)
  {
  }

  /** A dead client is reachable from no destroy listener, so `client_destroy` can
      never run again for it and a destructor added after its death never runs. */
  lemma DeadClientHasNoListener(s: Server, inner: ClientInner)
    requires ValidServer(s) && ValidInner(s, inner)
    requires !Alive(s, inner)
    ensures forall p :: p in s.listeners ==> s.listeners[p] != inner.internal
  {
  }
}
