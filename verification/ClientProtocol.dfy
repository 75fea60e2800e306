/**
 The client as a transition system. Any number of callers, the dispatch loop, reader
 goroutines, reconnection and close interleave; each label is one atomic step of one of
 them and its parameters resolve every choice (scheduling, contexts, network, server).
 */
module ClientProtocol {
  import opened GoRuntime
  import opened RequestIds
  import opened ClientModel

  type ConnRef = nat
  type ReaderRef = nat

  /** What a read goroutine holds: nothing, messages it offers on readResp, or an error it offers on readErr. */
  datatype Stage = Idle | HasMessages(msgs: seq<Message>) | HasError(err: string)
  datatype Reader = Reader(conn: ConnRef, stage: Stage)

  /** Where the dispatch loop stands. Draining is its deferred cleanup, Quit the state after close(didQuit). */
  datatype LoopPc =
    | Running
    | Handling(msgs: seq<Message>)
    | Awaiting(next: ConnRef)   // a new connection arrived while reading: blocked on readErr
    | Draining
    | Quit

  /** A request frame written to a connection. */
  datatype Frame = Frame(conn: ConnRef, batch: bool, reqs: seq<Request>)

  /**
   `readers` are the read goroutines whose error the loop has not consumed. `owner` is
   history: the operation and position each id was drawn for, in the order of drawing.
   `written` are the frames that reached the wire.
   */
  datatype State = State(
    core: Core,
    pc: LoopPc,
    conn: ConnRef,
    readers: map<ReaderRef, Reader>,
    sendDone: Chan<Option<string>>,
    writeConn: Option<ConnRef>,
    adopted: set<ConnRef>,
    closedConns: set<ConnRef>,
    owner: seq<(OpRef, nat)>,
    written: set<Frame>)

  function Init(conn: ConnRef, reader: ReaderRef): State {
    State(Core(map[], map[], map[], None, true, true), Running, conn, map[reader := Reader(conn, Idle)],
          NewChan(1), Some(conn), {conn}, {}, [], {})
  }

  datatype Label =
    | NewOp(o: OpRef, kind: Kind, want: nat)
    | NewMessage(o: OpRef, name: string, params: string)
    | MarshalFails(o: OpRef)
    | Offer(o: OpRef)
    | Accept(o: OpRef)
    | GiveUp(o: OpRef)
    | SeeQuit(o: OpRef)
    | DialFails(o: OpRef)
    | Dial(o: OpRef, newConn: ConnRef)
    | HandOver(o: OpRef, reader: ReaderRef)
    | DialAbandoned(o: OpRef)
    | Write(o: OpRef, ok: bool, onWire: bool)
    | Report(o: OpRef, err: string)
    | SendDone
    | ReaderGets(reader: ReaderRef, msgs: seq<Message>)
    | ReaderFails(reader: ReaderRef, err: string)
    | TakeMessages(reader: ReaderRef)
    | HandleNext
    | TakeReadError(reader: ReaderRef)
    | OldReaderGone(gone: ReaderRef, reader: ReaderRef)
    | CloseClient
    | DrainMessages(reader: ReaderRef)
    | DrainError(reader: ReaderRef)
    | QuitNoReader
    | Receive(o: OpRef)
    | Inspect(o: OpRef)
    | BatchDone(o: OpRef)

  predicate At(s: State, o: OpRef, phase: Phase) {
    o in s.core.ops && s.core.ops[o].phase == phase
  }

  ghost predicate Enabled(s: State, l: Label) {
    match l
    case NewOp(o, kind, want) => o !in s.core.ops && (kind == Batch || want == 1)
    case NewMessage(o, _, _) => At(s, o, Building) && |s.core.ops[o].reqs| < s.core.ops[o].want
    case MarshalFails(o) => At(s, o, Building) && |s.core.ops[o].reqs| < s.core.ops[o].want
    case Offer(o) => At(s, o, Building) && |s.core.ops[o].reqs| == s.core.ops[o].want
    case Accept(o) => At(s, o, Offering) && s.pc == Running && s.core.lockFree
    case GiveUp(o) => At(s, o, Offering) || (At(s, o, Waiting) && !Complete(s.core.ops[o]))
    case SeeQuit(o) => At(s, o, Offering) && s.pc == Quit
    case DialFails(o) => At(s, o, Writing) && s.writeConn == None
    case Dial(o, newConn) =>
      At(s, o, Writing) && s.writeConn == None && newConn !in s.adopted && newConn !in s.closedConns
    case HandOver(o, r) => o in s.core.ops && s.core.ops[o].phase.Dialled? && s.pc == Running && r !in s.readers
    case DialAbandoned(o) => o in s.core.ops && s.core.ops[o].phase.Dialled? && s.pc == Quit
    case Write(o, ok, onWire) => At(s, o, Writing) && s.writeConn.Some? && (ok ==> onWire)
    case Report(o, _) => o in s.core.ops && s.core.ops[o].phase.Reporting?
    case SendDone => s.pc == Running && s.sendDone.buf != []
    case ReaderGets(r, _) => r in s.readers && s.readers[r].stage == Idle
    case ReaderFails(r, _) => r in s.readers && s.readers[r].stage == Idle
    case TakeMessages(r) => r in s.readers && s.readers[r].stage.HasMessages? && s.pc == Running
    case HandleNext => s.pc.Handling?
    case TakeReadError(r) => r in s.readers && s.readers[r].stage.HasError? && s.pc == Running
    case OldReaderGone(gone, r) =>
      gone in s.readers && s.readers[gone].stage.HasError? && s.pc.Awaiting? && r !in s.readers
    case CloseClient => s.pc == Running
    case DrainMessages(r) => r in s.readers && s.readers[r].stage.HasMessages? && s.pc == Draining && s.core.reading
    case DrainError(r) => r in s.readers && s.readers[r].stage.HasError? && s.pc == Draining && s.core.reading
    case QuitNoReader => s.pc == Draining && !s.core.reading
    case Receive(o) => At(s, o, Waiting) && !Complete(s.core.ops[o])
                       && (s.core.ops[o].resp.buf != [] || s.core.ops[o].resp.closed)
    case Inspect(o) => o in s.core.ops && s.core.ops[o].phase.Got?
    case BatchDone(o) => At(s, o, Waiting) && Complete(s.core.ops[o])
  }

  /** The loop of a batch call has run once per element. */
  predicate Complete(op: Op) {
    op.kind == Batch && |op.taken| == op.want
  }

  function SetPhase(s: State, o: OpRef, phase: Phase): State
    requires o in s.core.ops
  {
    SetOp(s, o, s.core.ops[o].(phase := phase))
  }

  function SetOp(s: State, o: OpRef, op: Op): State {
    s.(core := s.core.(ops := s.core.ops[o := op]))
  }

  function SetStage(s: State, r: ReaderRef, stage: Stage): State
    requires r in s.readers
  {
    s.(readers := s.readers[r := s.readers[r].(stage := stage)])
  }

  function AddRequest(op: Op, serial: nat, name: string, params: string): Op {
    op.(reqs := op.reqs + [Request(serial, name, params)])
  }

  /** The caller receives from resp: the oldest reply, or the news that the channel is closed. */
  function ReceiveOp(op: Op): Op {
    if op.resp.buf != [] then
      var m := op.resp.buf[0];
      op.(resp := op.resp.(buf := op.resp.buf[1..]), taken := op.taken + [m], phase := Got(Some(m)))
    else op.(phase := Got(None))
  }

  /** The caller received a reply or a closed channel and now looks at the operation's error. */
  ghost function InspectOp(op: Op): Op
    requires op.phase.Got?
  {
    if op.err.Some? then op.(phase := Returned(false))
    else if op.kind == Subscribe then op.(phase := Returned(true))
    else if op.phase.reply == None then op.(phase := NilDereference)
    else
      var m := op.phase.reply.value;
      if op.kind == Single then op.(phase := Returned(true), placed := op.placed + [m], filled := map[0 := m])
      else
        var i := FindElement(Ids(op), m.id);
        if i == |op.reqs| then op.(phase := NilDereference)
        else op.(phase := Waiting, placed := op.placed + [m], filled := op.filled[i := m])
  }

  /** The first element with the given id, or the length of the list. */
  function FindElement(ids: seq<string>, id: string): (i: nat)
    ensures i <= |ids| && (i < |ids| ==> ids[i] == id) && (i == |ids| ==> id !in ids)
  {
    if ids == [] || ids[0] == id then 0 else 1 + FindElement(ids[1..], id)
  }

  ghost function Apply(s: State, l: Label): State
    requires Enabled(s, l) && Linked(s.core) && (l.SendDone? ==> s.core.lastOp.Some?)
  {
    match l
    case NewOp(o, kind, want) => SetOp(s, o, NewOperation(kind, want))
    case NewMessage(o, name, params) =>
      SetOp(s.(owner := s.owner + [(o, |s.core.ops[o].reqs|)]), o,
            AddRequest(s.core.ops[o], |s.owner| + 1, name, params))
    case MarshalFails(o) => SetPhase(s, o, Returned(false))
    case Offer(o) => SetPhase(s, o, Offering)
    case Accept(o) => SetPhase(s.(core := Register(s.core, o)), o, Writing)
    case GiveUp(o) => SetPhase(s, o, Returned(false))
    case SeeQuit(o) => SetPhase(s, o, Returned(false))
    case DialFails(o) => SetPhase(s, o, Reporting(false))
    case Dial(o, newConn) => SetPhase(s, o, Dialled(newConn))
    case HandOver(o, r) =>
      var newConn := s.core.ops[o].phase.newConn;
      var s1 := SetPhase(s.(writeConn := Some(newConn), adopted := s.adopted + {newConn}), o, Writing);
      if s.core.reading then s1.(pc := Awaiting(newConn), closedConns := s.closedConns + {s.conn})
      else s1.(conn := newConn, readers := s.readers[r := Reader(newConn, Idle)], core := s1.core.(reading := true))
    case DialAbandoned(o) =>
      SetPhase(s.(closedConns := s.closedConns + {s.core.ops[o].phase.newConn}), o, Reporting(false))
    case Write(o, ok, onWire) =>
      var op := s.core.ops[o];
      var frame := Frame(s.writeConn.value, op.kind == Batch, op.reqs);
      SetPhase(s.(written := if onWire then s.written + {frame} else s.written,
                  writeConn := if ok then s.writeConn else None), o, Reporting(ok))
    case Report(o, err) =>
      if s.core.ops[o].phase.ok then SetPhase(s.(sendDone := s.sendDone.Send(None)), o, Waiting)
      else SetPhase(s.(sendDone := s.sendDone.Send(Some(err))), o, Returned(false))
    case SendDone =>
      s.(core := FinishSend(s.core, s.sendDone.buf[0]), sendDone := s.sendDone.(buf := s.sendDone.buf[1..]))
    case ReaderGets(r, msgs) => SetStage(s, r, HasMessages(msgs))
    case ReaderFails(r, err) => SetStage(s, r, HasError(err))
    case TakeMessages(r) => SetStage(s.(pc := Handling(s.readers[r].stage.msgs)), r, Idle)
    case HandleNext =>
      if s.pc.msgs == [] then s.(pc := Running)
      else
        var m, s1 := s.pc.msgs[0], s.(pc := Handling(s.pc.msgs[1..]));
        if !IsNotification(m) && IsResponse(m) then s1.(core := Respond(s.core, m)) else s1
    case TakeReadError(r) =>
      s.(core := CloseOps(s.core, s.readers[r].stage.err).(reading := false),
         readers := s.readers - {r}, closedConns := s.closedConns + {s.conn})
    case OldReaderGone(gone, r) =>
      s.(pc := Running, conn := s.pc.next, readers := (s.readers - {gone})[r := Reader(s.pc.next, Idle)])
    case CloseClient =>
      s.(pc := Draining, core := CloseOps(s.core, CLIENT_QUIT), closedConns := s.closedConns + {s.conn})
    case DrainMessages(r) => SetStage(s, r, Idle)
    case DrainError(r) => s.(pc := Quit, readers := s.readers - {r})
    case QuitNoReader => s.(pc := Quit)
    case Receive(o) => SetOp(s, o, ReceiveOp(s.core.ops[o]))
    case Inspect(o) => SetOp(s, o, InspectOp(s.core.ops[o]))
    case BatchDone(o) => SetPhase(s, o, Returned(true))
  }

  // ----- the inductive invariant

  /** The i-th id of operation o was drawn for exactly that place. */
  ghost predicate Owned(owner: seq<(OpRef, nat)>, o: OpRef, op: Op) {
    forall i :: 0 <= i < |op.reqs| ==>
      1 <= op.reqs[i].serial <= |owner| && owner[op.reqs[i].serial - 1] == (o, i)
  }

  /** Shape of an operation and of its channel; the channel was never misused. */
  ghost predicate Shaped(op: Op) {
    && |op.reqs| <= op.want
    && (op.kind != Batch ==> op.want == 1)
    && op.resp.cap == Capacity(op.kind, op.want)
    && !op.resp.fault
    && (op.accepted || op.phase == Offering ==> |op.reqs| == op.want)
    && (op.phase.Building? || op.phase.Offering? ==> !op.accepted)
    && (Locking(op.phase) || op.phase.Waiting? || op.phase.Got? || op.phase == Returned(true) ==> op.accepted)
    && (!op.accepted ==>
          op.answered == [] && op.taken == [] && op.resp.buf == [] && !op.resp.closed && op.err == None
          && !op.sendFailed && op.placed == [] && op.filled == map[] && op.subQuit == None && !op.replaced)
  }

  /** Replies matched to an operation carry its ids, each at most once, and reach the caller in order. */
  ghost predicate Answers(op: Op) {
    && (forall i, j :: 0 <= i < j < |op.answered| ==> op.answered[i].id != op.answered[j].id)
    && (forall i :: 0 <= i < |op.answered| ==> op.answered[i].id in Ids(op))
    && (op.err.Some? ==> op.resp.closed)
    && (op.resp.closed && op.kind != Subscribe ==> op.err.Some?)
    && (op.resp.closed && op.kind == Subscribe && op.answered == [] ==> op.err.Some?)
    && (op.kind == Subscribe ==> op.resp.buf == [] && op.taken == [] && (op.answered != [] ==> op.resp.closed))
    && (op.kind != Subscribe ==> op.answered == op.taken + op.resp.buf)
  }

  /** Each element set holds a received reply that carries the id of that element. */
  ghost predicate FilledFrom(reqs: seq<Request>, filled: map<nat, Message>, replies: seq<Message>) {
    && |filled| == |replies|
    && forall i :: i in filled ==> i < |reqs| && filled[i].id == IdOf(reqs[i]) && filled[i] in replies
  }

  /** The reply a caller holds while it looks at the operation's error. */
  function Held(p: Phase): seq<Message> {
    if p.Got? && p.reply.Some? then [p.reply.value] else []
  }

  /** A caller of a call or batch that has not given up: every reply taken is in an element or in its hands. */
  ghost predicate Placing(op: Op) {
    op.kind != Subscribe && (op.phase.Waiting? || op.phase.Got? || op.phase == Returned(true)) ==>
      op.taken == op.placed + Held(op.phase) && FilledFrom(op.reqs, op.filled, op.placed)
  }

  /** The caller's own bookkeeping. */
  ghost predicate CallerOk(op: Op) {
    && !op.phase.NilDereference?
    && (op.sendFailed ==> op.phase == Returned(false))
    && (op.phase == Got(None) ==> op.resp.closed)
    && (op.phase.Got? && op.phase.reply.Some? ==> op.kind != Subscribe)
    && (op.kind == Single && op.phase == Waiting ==> op.taken == [])
    && (op.kind == Single && op.phase.Got? && op.phase.reply.Some? ==> |op.taken| == 1)
    && (op.kind != Subscribe && op.phase == Returned(true) ==> |op.taken| == op.want)
    && (Locking(op.phase) ==> op.taken == [] && op.placed == [] && op.filled == map[])
    && Placing(op)
  }

  /** Ids of the operation in the table, and what became of the others. */
  ghost predicate Waits(respWait: map<string, OpRef>, o: OpRef, op: Op) {
    && (forall id :: id in respWait && respWait[id] == o ==>
          op.accepted && id in Ids(op) && !op.resp.closed && !op.sendFailed && !Answered(op, id))
    && (op.accepted ==> forall id :: id in Ids(op) ==>
          || (id in respWait && respWait[id] == o) || Answered(op, id)
          || (op.resp.closed && op.err.Some?) || op.sendFailed)
  }

  /** A started subscription is registered, under its own id, or was told to quit, or lost its place to another. */
  ghost predicate SubTracked(subs: map<string, OpRef>, o: OpRef, op: Op) {
    && (op.subQuit.Some? ==> !op.replaced)
    && (op.subQuit.Some? || op.replaced ==> Started(op))
    && (Started(op) ==> (op.subQuit.Some? || op.replaced || exists id :: id in subs && subs[id] == o))
    && (forall id :: id in subs && subs[id] == o ==> Started(op) && op.subQuit == None && !op.replaced)
    && (forall id :: id in subs && subs[id] == o ==> SubId(op) == Some(id))
  }

  predicate Started(op: Op) {
    op.kind == Subscribe && op.answered != [] && op.err == None
  }

  predicate Locking(p: Phase) {
    p.Writing? || p.Dialled? || p.Reporting?
  }

  /** One registered operation: everything about it, given the tables it is looked up in. */
  ghost predicate OpOk(respWait: map<string, OpRef>, subs: map<string, OpRef>, owner: seq<(OpRef, nat)>, o: OpRef,
                       op: Op) {
    && Owned(owner, o, op) && Shaped(op) && Answers(op) && CallerOk(op)
    && Waits(respWait, o, op) && SubTracked(subs, o, op)
  }

  ghost predicate OpsOk(s: State) {
    forall o :: o in s.core.ops ==> OpOk(s.core.respWait, s.core.subs, s.owner, o, s.core.ops[o])
  }

  /** The write lock: free, held by the one operation in its locking phases, or on its way back through sendDone. */
  ghost predicate LockOk(ops: map<OpRef, Op>, lastOp: Option<OpRef>, lockFree: bool, sendDone: Chan<Option<string>>) {
    && sendDone.cap == 1 && !sendDone.closed && !sendDone.fault
    && (lockFree ==> lastOp == None && sendDone.buf == [])
    && (!lockFree ==>
          && lastOp.Some? && lastOp.value in ops
          && ops[lastOp.value].accepted
          && (if Locking(ops[lastOp.value].phase) then sendDone.buf == []
              else |sendDone.buf| == 1 && (sendDone.buf[0].Some? ==> ops[lastOp.value].phase == Returned(false))))
    && (forall o :: o in ops && Locking(ops[o].phase) ==> lastOp == Some(o))
  }

  /** Exactly one live reader while `reading`, on the current connection; none otherwise and none after quit. */
  ghost predicate ReadersOk(pc: LoopPc, reading: bool, conn: ConnRef, readers: map<ReaderRef, Reader>) {
    && (pc == Quit ==> readers == map[])
    && (pc != Quit && reading ==> exists r :: r in readers && readers.Keys == {r} && readers[r].conn == conn)
    && (!reading ==> readers == map[])
    && (pc.Awaiting? ==> reading)
  }

  /** Every connection the loop took over is closed, except the one in use. */
  ghost predicate ConnsOk(pc: LoopPc, reading: bool, conn: ConnRef, adopted: set<ConnRef>, closedConns: set<ConnRef>) {
    && conn in adopted && (pc.Awaiting? ==> pc.next in adopted)
    && (forall c :: c in adopted ==> c in closedConns || c == conn || pc == Awaiting(c))
    && (pc.Draining? || pc.Quit? || pc.Awaiting? || !reading ==> conn in closedConns)
  }

  ghost predicate Ended(pc: LoopPc, respWait: map<string, OpRef>, subs: map<string, OpRef>) {
    pc.Draining? || pc.Quit? ==> respWait == map[] && subs == map[]
  }

  ghost predicate Inv(s: State) {
    && Linked(s.core)
    && OpsOk(s)
    && LockOk(s.core.ops, s.core.lastOp, s.core.lockFree, s.sendDone)
    && ReadersOk(s.pc, s.core.reading, s.conn, s.readers)
    && ConnsOk(s.pc, s.core.reading, s.conn, s.adopted, s.closedConns)
    && Ended(s.pc, s.core.respWait, s.core.subs)
  }

  /** The hypothesis on ids: at most 2^32 of them were drawn. */
  predicate NoWrap(s: State) {
    |s.owner| <= ID_SPACE
  }

  lemma InitOk(conn: ConnRef, reader: ReaderRef)
    ensures Inv(Init(conn, reader))
  {
    var s := Init(conn, reader);
    assert reader in s.readers && s.readers.Keys == {reader};
  }
}
