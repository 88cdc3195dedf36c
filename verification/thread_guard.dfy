/** A value tagged with the thread that created it (`ThreadGuard` in wayland-commons).
    The calling thread is an explicit parameter of every access. */
module ThreadGuards {
  import opened Outcomes

  /** Identity of an operating-system thread (`std::thread::ThreadId`). */
  type ThreadId = nat

  datatype ThreadGuard<T> = ThreadGuard(thread: ThreadId, val: T)

  /** The message `get` and `get_mut` panic with on the wrong thread. */
  const WrongThread: string := "Attempted to access a ThreadGuard contents from the wrong thread."

  /** Wraps `val`, recording the calling thread as its owner. */
  function New<T>(val: T, current: ThreadId): (g: ThreadGuard<T>)
    ensures g.thread == current && g.val == val
  {
    ThreadGuard(current, val)
  }

  /** Shared access: the stored value, only from the owning thread. */
  function TryGet<T>(g: ThreadGuard<T>, current: ThreadId): (r: Option<T>)
    ensures r.Some? <==> current == g.thread
    ensures r.Some? ==> r.value == g.val
  {
    if g.thread == current then Some(g.val) else None
  }

  /** Mutable access: `update` is what the caller does through the `&mut T` it is handed;
      the result is the guard afterwards, or `None` off the owning thread. */
  function TryGetMut<T>(g: ThreadGuard<T>, current: ThreadId, update: T -> T): (r: Option<ThreadGuard<T>>)
    ensures r.Some? <==> TryGet(g, current).Some?
    ensures r.Some? ==> r.value.thread == g.thread && r.value.val == update(g.val)
  {
    if g.thread == current then Some(g.(val := update(g.val))) else None
  }

  /** Like `TryGet`, but the wrong thread is a panic. */
  function Get<T>(g: ThreadGuard<T>, current: ThreadId): (r: Checked<T>)
    ensures r.Ok? <==> TryGet(g, current).Some?
    ensures r.Ok? ==> TryGet(g, current) == Some(r.value)
    ensures r.Panic? ==> r.message == WrongThread
  {
    match TryGet(g, current)
    case Some(v) => Ok(v)
    case None => Panic(WrongThread)
  }

  /** Like `TryGetMut`, but the wrong thread is a panic. */
  function GetMut<T>(g: ThreadGuard<T>, current: ThreadId, update: T -> T): (r: Checked<ThreadGuard<T>>)
    ensures r.Ok? <==> TryGetMut(g, current, update).Some?
    ensures r.Ok? ==> TryGetMut(g, current, update) == Some(r.value)
    ensures r.Panic? ==> r.message == WrongThread
  {
    match TryGetMut(g, current, update)
    case Some(g') => Ok(g')
    case None => Panic(WrongThread)
  }

  /** A fresh guard answers exactly its creating thread, with the value it was given. */
  lemma NewOwnedByCreator<T>(val: T, creator: ThreadId, current: ThreadId)
    ensures TryGet(New(val, creator), current) == (if current == creator then Some(val) else None)
    ensures Get(New(val, creator), current) == (if current == creator then Ok(val) else Panic(WrongThread))
  {
  }

  /** No access, successful or not, moves the guard to another thread, and a write
      through `get_mut` is seen by the next read on the owning thread. */
  lemma AccessKeepsOwner<T>(g: ThreadGuard<T>, current: ThreadId, update: T -> T)
    ensures GetMut(g, current, update).Ok? ==> GetMut(g, current, update).value.thread == g.thread
    ensures GetMut(g, current, update).Ok? ==>
              Get(GetMut(g, current, update).value, current) == Ok(update(g.val))
    ensures GetMut(g, current, update).Panic? ==> Get(g, current).Panic?
  {
  }
}
