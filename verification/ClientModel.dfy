/**
 The data of the JSON-RPC client and what its dispatch loop does to the part of it that
 the loop owns: the table of pending ids, the subscriptions and the pending operations.
 */
module ClientModel {
  import opened GoRuntime
  import opened RequestIds

  /** What the client reports when it is used after, or ended by, Close. */
  const CLIENT_QUIT: string := "client is closed"

  /** Identity of a pending operation (a pointer in the program). */
  type OpRef = nat

  /** A message the client sends. The serial counts the ids this client has drawn. */
  datatype Request = Request(serial: nat, name: string, params: string)

  function IdOf(r: Request): string {
    IdText(r.serial)
  }

  datatype Result = NoResult | NullResult | Text(text: string) | Value(raw: string)

  /** Decoding a result as a string: null leaves the target string empty. */
  function DecodeText(r: Result): Option<string> {
    match r
    case Text(t) => Some(t)
    case NullResult => Some("")
    case _ => None
  }

  /**
   A message the client receives; an absent id is empty. `origin` is a history variable:
   the request the server was answering when it built the message, if any. No operation
   of the client looks at it.
   */
  datatype Message = Message(
    id: string, name: string, params: string, error: Option<string>, result: Result,
    origin: Option<Request>)

  predicate IsNotification(m: Message) {
    m.id == "" && m.name != ""
  }

  predicate HasValidId(m: Message) {
    |m.id| > 0 && m.id[0] != '{' && m.id[0] != '['
  }

  predicate IsResponse(m: Message) {
    HasValidId(m) && m.name == "" && m.params == ""
  }

  datatype Kind = Single | Batch | Subscribe

  /** Where the goroutine that owns an operation stands. */
  datatype Phase =
    | Building                      // drawing ids
    | Offering                      // in the select of send
    | Writing                       // accepted by the loop, holds the write lock
    | Dialled(newConn: nat)           // offering a new connection to the loop
    | Reporting(ok: bool)           // write finished, about to send on sendDone
    | Waiting                       // in wait
    | Got(reply: Option<Message>)   // received from resp, about to look at err
    | NilDereference                // used a reply or element that is not there
    | Returned(ok: bool)

  /**
   A pending operation. `accepted`, `answered`, `sendFailed`, `subQuit` and `replaced`
   are history: taken by the loop; the replies the loop matched to it; the loop saw its
   send fail; its subscription was told to quit; its subscription lost its place in `subs`.
   `taken` are the replies the caller received, `placed` those it has put into an
   element, `filled` the elements it set.
   */
  datatype Op = Op(
    kind: Kind, want: nat, reqs: seq<Request>, phase: Phase,
    resp: Chan<Message>, err: Option<string>,
    accepted: bool, answered: seq<Message>, sendFailed: bool, subQuit: Option<string>, replaced: bool,
    taken: seq<Message>, placed: seq<Message>, filled: map<nat, Message>)

  function Capacity(kind: Kind, want: nat): nat {
    match kind
    case Single => 1
    case Batch => want
    case Subscribe => 0
  }

  function NewOperation(kind: Kind, want: nat): Op {
    Op(kind, want, [], Building, NewChan(Capacity(kind, want)), None, false, [], false, None, false, [], [], map[])
  }

  function Ids(op: Op): seq<string> {
    seq(|op.reqs|, i requires 0 <= i < |op.reqs| => IdOf(op.reqs[i]))
  }

  /** The id under which the server runs the subscription of an operation, read from its reply. */
  function SubId(op: Op): Option<string> {
    if op.answered == [] then None else DecodeText(op.answered[0].result)
  }

  ghost predicate Answered(op: Op, id: string) {
    exists k :: 0 <= k < |op.answered| && op.answered[k].id == id
  }

  /** The variables the dispatch loop owns. `lockFree` says the loop listens for new operations. */
  datatype Core = Core(
    ops: map<OpRef, Op>,
    respWait: map<string, OpRef>,
    subs: map<string, OpRef>,
    lastOp: Option<OpRef>,
    lockFree: bool,
    reading: bool)

  /** Every reference the loop holds leads to an operation. */
  ghost predicate Linked(c: Core) {
    && (forall id :: id in c.respWait ==> c.respWait[id] in c.ops)
    && (forall id :: id in c.subs ==> c.subs[id] in c.ops)
    && (c.lastOp.Some? ==> c.lastOp.value in c.ops)
  }

  function Pending(c: Core, o: OpRef): set<string> {
    set id | id in c.respWait && c.respWait[id] == o
  }

  // ----- what the loop does, as functions of its state

  /** An operation arrives on requestOp: the loop stops listening and registers its ids. */
  ghost function Register(c: Core, o: OpRef): Core
    requires o in c.ops
  {
    c.(lockFree := false,
       lastOp := Some(o),
       respWait := c.respWait + (map id | id in Ids(c.ops[o]) :: o),
       ops := c.ops[o := c.ops[o].(accepted := true)])
  }

  /** A write result arrives on sendDone. */
  ghost function FinishSend(c: Core, result: Option<string>): Core
    requires Linked(c) && c.lastOp.Some?
  {
    var o := c.lastOp.value;
    var c' := c.(lockFree := true, lastOp := None);
    if result == None then c' else
      c'.(respWait := c.respWait - Elems(Ids(c.ops[o])),
          ops := c.ops[o := c.ops[o].(sendFailed := true)])
  }

  /** The subscription that loses its place when `id` is given to another one. */
  function Displace(c: Core, id: string): map<OpRef, Op>
    requires id in c.subs ==> c.subs[id] in c.ops
  {
    if id in c.subs then c.ops[c.subs[id] := c.ops[c.subs[id]].(replaced := true)] else c.ops
  }

  /** The id under which handling a response starts a subscription, if it does. */
  function StartedUnder(c: Core, m: Message): Option<string> {
    if m.id in c.respWait && c.respWait[m.id] in c.ops
       && c.ops[c.respWait[m.id]].kind == Subscribe && SubError(m) == None
    then DecodeText(m.result) else None
  }

  /** Why a subscribe request failed, judging from its reply. */
  function SubError(m: Message): Option<string> {
    if m.error.Some? then m.error
    else if DecodeText(m.result) == None then Some("cannot decode subscription id")
    else None
  }

  /** The operation after its reply: calls get it through the channel, a subscribe request is closed. */
  function ReplyTo(op: Op, m: Message): Op {
    if op.kind != Subscribe then op.(answered := op.answered + [m], resp := op.resp.Send(m))
    else op.(answered := op.answered + [m], resp := op.resp.Close(), err := SubError(m))
  }

  /** A response arrives: hand it to the operation waiting for its id, or drop it. */
  function Respond(c: Core, m: Message): Core
    requires m.id in c.respWait ==> c.respWait[m.id] in c.ops
    requires forall id :: id in c.subs ==> c.subs[id] in c.ops
  {
    if m.id !in c.respWait then c else
    var o := c.respWait[m.id];
    var op := ReplyTo(c.ops[o], m);
    if op.kind == Subscribe && op.err == None then
      var subid := DecodeText(m.result).value;
      c.(respWait := c.respWait - {m.id}, subs := c.subs[subid := o], ops := Displace(c, subid)[o := op])
    else c.(respWait := c.respWait - {m.id}, ops := c.ops[o := op])
  }

  /** Unblock everything: close each pending operation once with `err`, end each subscription. */
  ghost function CloseOps(c: Core, err: string): Core
    requires Linked(c)
  {
    c.(respWait := map[],
       subs := map[],
       ops := map o | o in c.ops :: EndSub(c, o, err, CloseOne(c, o, err)))
  }

  function Closed(op: Op, err: string): Op {
    op.(err := Some(err), resp := op.resp.Close())
  }

  function ToldToQuit(op: Op, err: string): Op {
    op.(subQuit := Some(err))
  }

  ghost function CloseOne(c: Core, o: OpRef, err: string): Op
    requires o in c.ops
  {
    if o in c.respWait.Values then Closed(c.ops[o], err) else c.ops[o]
  }

  ghost function EndSub(c: Core, o: OpRef, err: string, op: Op): Op {
    if o in c.subs.Values then ToldToQuit(op, err) else op
  }
}
