/** Message descriptions and the empty message group `NoMessage` of wayland-commons. */
module MessageGroups {
  import opened Outcomes

  /** The kinds of argument a message signature may list. */
  datatype ArgumentType = Int | Uint | Fixed | Str | Object | NewId | Array | Fd

  /** One entry of a message table: name, minimum version, signature, destructor flag. */
  datatype MessageDesc = MessageDesc(name: string, since: nat, signature: seq<ArgumentType>, destructor: bool)

  /** A decoded argument as it comes off the wire. */
  datatype Argument =
    | IntArg(i: int)
    | UintArg(u: nat)
    | FixedArg(f: int)
    | StrArg(s: string)
    | ObjectArg(id: nat)
    | NewIdArg(id: nat)
    | ArrayArg(bytes: seq<int>)
    | FdArg(fd: int)

  /** A raw wire message: the object it targets, its opcode and its arguments. */
  datatype Message = Message(senderId: nat, opcode: nat, args: seq<Argument>)

  /** The interface and version of an object a message would create. */
  datatype ChildObject = ChildObject(interface: string, version: nat)

  /** The message table of `NoMessage`: it has no messages. */
  function NoMessageMessages(): (table: seq<MessageDesc>)
    ensures forall m :: m !in table
  {
    []
  }

  /** No opcode of `NoMessage` creates a child object. */
  function NoMessageChild(opcode: nat, version: nat): (r: Option<ChildObject>)
    ensures r.None?
  {
    None
  }

  /** Parsing into `NoMessage` fails for every raw message; `M` stands for the
      (uninhabited) parsed type. */
  function NoMessageFromRaw<M>(msg: Message): (r: Option<M>)
    ensures r.None?
  {
    None
  }

  /** Parsing a C-side message into `NoMessage` fails for every opcode and argument array. */
  function NoMessageFromRawC<M>(opcode: nat, args: seq<Argument>): (r: Option<M>)
    ensures r.None?
  {
    None
  }
}
