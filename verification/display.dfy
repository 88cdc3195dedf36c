/** The pure-Rust client connection's display object: object id 1 and the dispatcher
    that handles the two `wl_display` events, `error` and `delete_id`. */
module Display {
  import opened Outcomes
  import MessageGroups

  /** A raw wire message addressed to the display object. */
  type Message = MessageGroups.Message

  /** The generated `wl_display::Event::from_raw`, given the object map as it stands when
      the message is parsed (object arguments resolve through it): `None` when the
      message is malformed. */
  type Parser = (map<nat, Object>, Message) -> Option<DisplayEvent>

  /** The dispatcher installed on an object. */
  datatype DispatcherKind = DefaultDispatcher | DisplayDispatcher

  /** Per-object client metadata: the two destruction flags and the dispatcher.
      `clientDestroyed` is set when this side destroys the proxy, `serverDestroyed`
      when the server acknowledges the id with `delete_id`. */
  datatype ObjectMeta = ObjectMeta(clientDestroyed: bool, serverDestroyed: bool, dispatcher: DispatcherKind)

  /** One entry of the object map. */
  datatype Object = Object(interface: string, version: nat, meta: ObjectMeta)

  /** The record of a fatal error reported by the server. */
  datatype ProtocolError = ProtocolError(code: nat, objectId: nat, objectInterface: string, message: string)

  /** What the connection's `last_error` slot may hold. */
  datatype ConnectionError = Protocol(error: ProtocolError) | Io(errno: int)

  /** The shared state the display dispatcher mutates: the object map and the
      `last_error` slot. */
  datatype Connection = Connection(objects: map<nat, Object>, lastError: Option<ConnectionError>)

  /** The display handle: the connection and the id of its `wl_display` proxy. */
  datatype DisplayInner = DisplayInner(connection: Connection, proxyId: nat)

  /** The two events of `wl_display`, as the generated parser yields them. The parser
      resolves the object argument of `error` through the current object map, to that
      object's id and interface name. */
  datatype DisplayEvent =
    | Error(objectId: nat, objectInterface: string, code: nat, message: string)
    | DeleteId(id: nat)

  /** What a dispatcher reports back to the connection. */
  datatype Dispatched = Yes | BadMsg

  const DisplayId: nat := 1
  const DisplayInterface: string := "wl_display"
  const DisplayVersion: nat := 1

  /** Metadata of a freshly created object: neither side has destroyed it yet. */
  function NewMeta(): ObjectMeta
  {
    ObjectMeta(false, false, DefaultDispatcher)
  }

  /** A new connection whose object map holds only the display object, at id 1. */
  function NewConnection(display: Object): Connection
  {
    Connection(map[DisplayId := display], None)
  }

  /** Opening a display over a connected socket: the display object is created at id 1,
      then the display dispatcher is installed on id 1 and the proxy handle takes id 1. */
  function FromFd(): (d: DisplayInner)
    ensures d.proxyId == DisplayId
    ensures d.connection.objects.Keys == {DisplayId}
    ensures d.connection.objects[DisplayId].interface == DisplayInterface
    ensures d.connection.objects[DisplayId].meta.dispatcher == DisplayDispatcher
    ensures !d.connection.objects[DisplayId].meta.clientDestroyed
    ensures !d.connection.objects[DisplayId].meta.serverDestroyed
    ensures d.connection.lastError == None
  {
    var c := NewConnection(Object(DisplayInterface, DisplayVersion, NewMeta()));
    var display := c.objects[DisplayId];
    var installed := display.(meta := display.meta.(dispatcher := DisplayDispatcher));
    DisplayInner(c.(objects := c.objects[DisplayId := installed]), DisplayId)
  }

  /** The protocol-error record stored for an `error` event. */
  function ErrorRecord(ev: DisplayEvent): ProtocolError
    requires ev.Error?
  {
    ProtocolError(ev.code, ev.objectId, ev.objectInterface, ev.message)
  }

  /** The effect of one parsed display event on the connection. */
  function Handle(c: Connection, ev: DisplayEvent): (c': Connection)
    // error: the record replaces whatever the slot held; the map is untouched
    ensures ev.Error? ==> c'.objects == c.objects
    ensures ev.Error? ==> c'.lastError == Some(Protocol(ProtocolError(ev.code, ev.objectId, ev.objectInterface, ev.message)))
    // delete_id: the error slot is untouched
    ensures ev.DeleteId? ==> c'.lastError == c.lastError
    // delete_id on an unknown id changes nothing
    ensures ev.DeleteId? && ev.id !in c.objects ==> c' == c
    // delete_id removes the id exactly when this side had already destroyed it
    ensures ev.DeleteId? ==> (ev.id in c'.objects <==> ev.id in c.objects && !c.objects[ev.id].meta.clientDestroyed)
    // a surviving object is now marked destroyed by the server, nothing else about it changes
    ensures ev.DeleteId? && ev.id in c'.objects ==>
              c'.objects[ev.id] == c.objects[ev.id].(meta := c.objects[ev.id].meta.(serverDestroyed := true))
    // every other entry is left alone
    ensures ev.DeleteId? ==> forall k :: k != ev.id ==> (k in c'.objects <==> k in c.objects)
    ensures ev.DeleteId? ==> forall k :: k != ev.id && k in c.objects ==> c'.objects[k] == c.objects[k]
  {
    match ev
    case Error(objectId, objectInterface, code, message) =>
      c.(lastError := Some(Protocol(ProtocolError(code, objectId, objectInterface, message))))
    case DeleteId(id) =>
      // `with` fails on an unknown id, and `unwrap_or(false)` then suppresses the removal
      var clientDestroyed := if id in c.objects then c.objects[id].meta.clientDestroyed else false;
      var marked :=
        if id in c.objects then c.objects[id := c.objects[id].(meta := c.objects[id].meta.(serverDestroyed := true))]
        else c.objects;
      c.(objects := if clientDestroyed then marked - {id} else marked)
  }

  /** The display dispatcher: a message that does not parse as a `wl_display` event is
      reported as malformed and changes nothing; every parsed event is handled. */
  function Dispatch(c: Connection, msg: Message, parse: Parser): (r: (Dispatched, Connection))
    ensures parse(c.objects, msg).None? ==> r == (BadMsg, c)
    ensures parse(c.objects, msg).Some? ==> r.0 == Yes && r.1 == Handle(c, parse(c.objects, msg).value)
  {
    match parse(c.objects, msg)
    case None => (BadMsg, c)
    case Some(ev) => (Yes, Handle(c, ev))
  }

  /** Reads back the protocol error recorded in the `last_error` slot, if any. */
  function LastProtocolError(c: Connection): (r: Option<ProtocolError>)
    ensures r.Some? <==> c.lastError.Some? && c.lastError.value.Protocol?
    ensures r.Some? ==> c.lastError == Some(Protocol(r.value))
  {
    match c.lastError
    case Some(Protocol(e)) => Some(e)
    case _ => None
  }

  /** The connection after the display dispatcher has run on each message in turn. */
  function DispatchAll(c: Connection, msgs: seq<Message>, parse: Parser): Connection
    decreases |msgs|
  {
    if |msgs| == 0 then c
    else Dispatch(DispatchAll(c, msgs[..|msgs| - 1], parse), msgs[|msgs| - 1], parse).1
  }

  /** What each message of a run parsed to, each against the object map left by the
      messages before it. */
  function ParsedAlong(c: Connection, msgs: seq<Message>, parse: Parser): (evs: seq<Option<DisplayEvent>>)
    ensures |evs| == |msgs|
    decreases |msgs|
  {
    if |msgs| == 0 then []
    else
      var prefix := msgs[..|msgs| - 1];
      ParsedAlong(c, prefix, parse) + [parse(DispatchAll(c, prefix, parse).objects, msgs[|msgs| - 1])]
  }

  /** The most recent error among a sequence of parse results, if any. */
  function LatestError(evs: seq<Option<DisplayEvent>>): Option<ProtocolError>
    decreases |evs|
  {
    if |evs| == 0 then None
    else
      var ev := evs[|evs| - 1];
      if ev.Some? && ev.value.Error? then Some(ErrorRecord(ev.value))
      else LatestError(evs[..|evs| - 1])
  }

  /** No object in the map carries both destruction flags: such an object is removed. */
  ghost predicate NoStaleEntries(c: Connection)
  {
    forall id :: id in c.objects ==> !(c.objects[id].meta.clientDestroyed && c.objects[id].meta.serverDestroyed)
  }

  /** The connection a display starts with keeps no stale entry. */
  lemma FromFdHasNoStaleEntries()
    ensures NoStaleEntries(FromFd().connection)
  {
  }

  /** Dispatching any sequence of messages keeps the map free of stale entries. */
  lemma {:induction false} DispatchAllKeepsNoStaleEntries(c: Connection, msgs: seq<Message>, parse: Parser)
    requires NoStaleEntries(c)
    ensures NoStaleEntries(DispatchAll(c, msgs, parse))
    decreases |msgs|
  {
    if |msgs| > 0 {
      DispatchAllKeepsNoStaleEntries(c, msgs[..|msgs| - 1], parse);
      var mid := DispatchAll(c, msgs[..|msgs| - 1], parse);
      var last := Dispatch(mid, msgs[|msgs| - 1], parse).1;
      forall id | id in last.objects
        ensures !(last.objects[id].meta.clientDestroyed && last.objects[id].meta.serverDestroyed)
      {
        assert id in mid.objects;
      }
    }
  }

  /** The dispatcher never adds objects, and an object it keeps keeps its interface,
      version, dispatcher and client-side flag. */
  lemma {:induction false} DispatchAllOnlyShrinks(c: Connection, msgs: seq<Message>, parse: Parser, id: nat)
    requires id in DispatchAll(c, msgs, parse).objects
    ensures id in c.objects
    ensures DispatchAll(c, msgs, parse).objects[id].interface == c.objects[id].interface
    ensures DispatchAll(c, msgs, parse).objects[id].version == c.objects[id].version
    ensures DispatchAll(c, msgs, parse).objects[id].meta.dispatcher == c.objects[id].meta.dispatcher
    ensures DispatchAll(c, msgs, parse).objects[id].meta.clientDestroyed == c.objects[id].meta.clientDestroyed
    decreases |msgs|
  {
    if |msgs| > 0 {
      var mid := DispatchAll(c, msgs[..|msgs| - 1], parse);
      assert id in mid.objects;
      DispatchAllOnlyShrinks(c, msgs[..|msgs| - 1], parse, id);
    }
  }

  /** The dual-flag rule over a whole run: an object the dispatcher drops from the map
      is one this side had already destroyed. */
  lemma {:induction false} RemovalNeedsClientDestroy(c: Connection, msgs: seq<Message>, parse: Parser, id: nat)
    requires id in c.objects
    requires id !in DispatchAll(c, msgs, parse).objects
    ensures c.objects[id].meta.clientDestroyed
    decreases |msgs|
  {
    var mid := DispatchAll(c, msgs[..|msgs| - 1], parse);
    if id in mid.objects {
      DispatchAllOnlyShrinks(c, msgs[..|msgs| - 1], parse, id);
    } else {
      RemovalNeedsClientDestroy(c, msgs[..|msgs| - 1], parse, id);
    }
  }

  /** The display object itself stays resolvable whatever the server sends. */
  lemma DisplayObjectSurvives(msgs: seq<Message>, parse: Parser)
    ensures DisplayId in DispatchAll(FromFd().connection, msgs, parse).objects
    ensures DispatchAll(FromFd().connection, msgs, parse).objects[DisplayId].meta.dispatcher == DisplayDispatcher
  {
    var c := FromFd().connection;
    if DisplayId !in DispatchAll(c, msgs, parse).objects {
      RemovalNeedsClientDestroy(c, msgs, parse, DisplayId);
    }
    DispatchAllOnlyShrinks(c, msgs, parse, DisplayId);
  }

  /** A later error overwrites an earlier one: after a run, the slot holds the last
      error event received, or what it held before when none arrived. */
  lemma {:induction false} LastErrorIsLatest(c: Connection, msgs: seq<Message>, parse: Parser)
    ensures LatestError(ParsedAlong(c, msgs, parse)).Some? ==>
              LastProtocolError(DispatchAll(c, msgs, parse)) == LatestError(ParsedAlong(c, msgs, parse))
    ensures LatestError(ParsedAlong(c, msgs, parse)).None? ==> DispatchAll(c, msgs, parse).lastError == c.lastError
    decreases |msgs|
  {
    if |msgs| > 0 {
      var prefix := msgs[..|msgs| - 1];
      LastErrorIsLatest(c, prefix, parse);
      assert ParsedAlong(c, msgs, parse)[..|msgs| - 1] == ParsedAlong(c, prefix, parse);
    }
  }

  /** A second `delete_id` for an id the first one removed finds nothing to do, so an
      object leaves the map at most once. */
  lemma DeleteIdRemovesOnce(c: Connection, id: nat)
    requires id in c.objects && c.objects[id].meta.clientDestroyed
    ensures id !in Handle(c, DeleteId(id)).objects
    ensures Handle(Handle(c, DeleteId(id)), DeleteId(id)) == Handle(c, DeleteId(id))
  {
  }
}
