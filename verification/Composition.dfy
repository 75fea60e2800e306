/**
 The client and a server joined by connections. The server reads request frames, works on any
 number of them at once and answers in any order, through the request pipeline; readers hand
 what it wrote to the client. Whatever the interleaving, a reply that reaches a call is the
 answer the server built for that very request.
 */
module Composition {
  import opened GoRuntime
  import opened ClientModel
  import opened ClientProtocol
  import opened ClientInvariant
  import opened ClientHistory
  import opened ClientGuarantees
  import P = RequestParser
  import Pipe = RequestPipeline
  import R = Registration

  /** `busy` are the frames server goroutines work on, `wire` the messages the server wrote, per connection. */
  datatype System = System(client: State, busy: set<Frame>, wire: set<(ConnRef, seq<Message>)>)

  /**
   The server: its services, whether its connections have notifiers, what JSON decoding and encoding
   make of values, and how it words an error.
   */
  datatype Server = Server(
    services: map<string, R.Service>, notifier: bool, decodes: P.Decoder,
    payload: string -> P.Payload, encode: string -> Result, describe: P.RpcError -> string)

  datatype SysLabel =
    | ClientMoves(l: Label)
    | ServerReads(f: Frame)
    | ServerAnswers(f: Frame, outcomes: seq<Pipe.Outcome>)
    | ServerRefuses(f: Frame)                     // stopping: an error for every request of the frame
    | ServerRejects(f: Frame, text: string)       // the frame does not parse: one error without an id
    | ServerNotifies(conn: ConnRef, m: Message)

  function AsJson(r: Request, server: Server): P.JsonRequest {
    P.JsonRequest(r.name, P.NumberId(IdOf(r)), server.payload(r.params))
  }

  /** The frame as the server's codec reads it. */
  function AsIncoming(f: Frame, server: Server): (inc: Pipe.Incoming)
    ensures !inc.Unreadable? ==> |Pipe.Elements(inc)| == |f.reqs|
    ensures !inc.Unreadable? ==> forall i :: 0 <= i < |f.reqs| ==> Pipe.Elements(inc)[i] == AsJson(f.reqs[i], server)
  {
    if f.batch then Pipe.Many(seq(|f.reqs|, i requires 0 <= i < |f.reqs| => AsJson(f.reqs[i], server)))
    else if |f.reqs| == 1 then Pipe.One(AsJson(f.reqs[0], server))
    else Pipe.Unreadable
  }

  /** The text of an id on the wire. */
  function IdOnWire(id: P.RawId): string {
    match id
    case NoId => ""
    case NullId => "null"
    case NumberId(digits) => digits
    case StringId(text) => "\"" + text + "\""
    case OtherId(raw) => raw
  }

  /** A response as the client reads it, marked with the request the server was answering. */
  function AsMessage(resp: Pipe.Response, server: Server, r: Request): Message {
    match resp.body
    case Success(text) => Message(IdOnWire(resp.id), "", "", None, server.encode(text), Some(r))
    case Failure(e) => Message(IdOnWire(resp.id), "", "", Some(server.describe(e)), NoResult, Some(r))
  }

  /** The server's resolved requests for a frame. */
  ghost function Resolved(f: Frame, server: Server): (reqs: seq<Pipe.ServerRequest>)
    requires Pipe.ParseFrame(AsIncoming(f, server)).Some?
  {
    Pipe.ResolveFrame(server.services, server.decodes, AsIncoming(f, server))
  }

  ghost predicate Answerable(f: Frame, server: Server, outcomes: seq<Pipe.Outcome>) {
    && Pipe.ParseFrame(AsIncoming(f, server)).Some?
    && |outcomes| == |Resolved(f, server)| == |f.reqs|
    && forall i :: 0 <= i < |outcomes| ==> Pipe.Handle(Resolved(f, server)[i], server.notifier, outcomes[i]).Answer?
  }

  /** What the server writes for a frame: response i answers request i. */
  ghost function Replies(f: Frame, server: Server, outcomes: seq<Pipe.Outcome>): seq<Message>
    requires Answerable(f, server, outcomes)
  {
    var responses := Pipe.Responses(Resolved(f, server), server.notifier, outcomes);
    seq(|f.reqs|, i requires 0 <= i < |f.reqs| => AsMessage(responses[i], server, f.reqs[i]))
  }

  ghost predicate Refusable(f: Frame, server: Server) {
    Pipe.ParseFrame(AsIncoming(f, server)).Some? && |Resolved(f, server)| == |f.reqs|
  }

  ghost function Refusals(f: Frame, server: Server): seq<Message>
    requires Refusable(f, server)
  {
    seq(|f.reqs|, i requires 0 <= i < |f.reqs| =>
      AsMessage(Pipe.Response(Resolved(f, server)[i].id, Pipe.Failure(P.ShuttingDown)), server, f.reqs[i]))
  }

  ghost predicate SysEnabled(s: System, server: Server, l: SysLabel) {
    match l
    case ClientMoves(cl) =>
      && Enabled(s.client, cl) && Linked(s.client.core) && (cl.SendDone? ==> s.client.core.lastOp.Some?)
      && (cl.ReaderGets? ==> (s.client.readers[cl.reader].conn, cl.msgs) in s.wire)
    case ServerReads(f) => f in s.client.written
    case ServerAnswers(f, outcomes) => f in s.busy && Answerable(f, server, outcomes)
    case ServerRefuses(f) => f in s.busy && Refusable(f, server)
    case ServerRejects(f, _) => f in s.busy
    case ServerNotifies(_, m) => IsNotification(m) && m.origin == None
  }

  ghost function Put(s: System, f: Frame, msgs: seq<Message>): System {
    s.(busy := s.busy - {f}, wire := s.wire + {(f.conn, msgs)})
  }

  ghost function SysApply(s: System, server: Server, l: SysLabel): System
    requires SysEnabled(s, server, l)
  {
    match l
    case ClientMoves(cl) => s.(client := Apply(s.client, cl))
    case ServerReads(f) => s.(busy := s.busy + {f})
    case ServerAnswers(f, outcomes) => Put(s, f, Replies(f, server, outcomes))
    case ServerRefuses(f) => Put(s, f, Refusals(f, server))
    case ServerRejects(f, text) => Put(s, f, [Message("", "", "", Some(text), NoResult, None)])
    case ServerNotifies(conn, m) => s.(wire := s.wire + {(conn, [m])})
  }

  ghost predicate SysStep(s: System, server: Server, l: SysLabel, s': System) {
    SysEnabled(s, server, l) && s' == SysApply(s, server, l)
  }

  ghost predicate SysRun(states: seq<System>, server: Server, labels: seq<SysLabel>) {
    && |states| == |labels| + 1
    && (exists conn, reader :: states[0] == System(Init(conn, reader), {}, {}))
    && forall i :: 0 <= i < |labels| ==> SysStep(states[i], server, labels[i], states[i + 1])
  }

  // ----- where requests and replies come from

  /** A request this client built, still at the place it was built for. */
  ghost predicate Issued(s: State, r: Request) {
    && 1 <= r.serial <= |s.owner|
    && var (o, i) := s.owner[r.serial - 1];
       o in s.core.ops && i < |s.core.ops[o].reqs| && s.core.ops[o].reqs[i] == r
  }

  /** The message is what the pipeline answers to the request, when the surroundings answer o. */
  ghost predicate AnsweredWith(server: Server, r: Request, o: Pipe.Outcome, m: Message) {
    var element := P.Element(AsJson(r, server));
    && element.Some?
    && var h := Pipe.Handle(Pipe.Resolve(server.services, server.decodes, element.value), server.notifier, o);
       h.Answer? && m == AsMessage(h.response, server, r)
  }

  /** The message is the refusal of the request by a server that is stopping. */
  predicate RefusedWith(server: Server, r: Request, m: Message) {
    m == AsMessage(Pipe.Response(P.NumberId(IdOf(r)), Pipe.Failure(P.ShuttingDown)), server, r)
  }

  /** The message is the server's answer to the request, built for it and for no other. */
  ghost predicate AnswerTo(server: Server, r: Request, m: Message) {
    m.origin == Some(r) && m.id == IdOf(r)
    && (RefusedWith(server, r, m) || exists o :: AnsweredWith(server, r, o, m))
  }

  /** A response answers an issued request. */
  ghost predicate Genuine(s: State, server: Server, m: Message) {
    IsResponse(m) ==> m.origin.Some? && Issued(s, m.origin.value) && AnswerTo(server, m.origin.value, m)
  }

  ghost predicate AllGenuine(s: State, server: Server, msgs: seq<Message>) {
    forall m :: m in msgs ==> Genuine(s, server, m)
  }

  ghost predicate AllIssued(s: State, f: Frame) {
    forall i :: 0 <= i < |f.reqs| ==> Issued(s, f.reqs[i])
  }

  ghost predicate FramesIssued(s: State) {
    forall f :: f in s.written ==> AllIssued(s, f)
  }

  ghost predicate WireGenuine(s: State, server: Server, wire: set<(ConnRef, seq<Message>)>) {
    forall w :: w in wire ==> AllGenuine(s, server, w.1)
  }

  /** Messages on their way from a connection to the handlers. */
  ghost predicate PassageGenuine(s: State, server: Server, pc: LoopPc, readers: map<ReaderRef, Reader>) {
    && (forall r :: r in readers && readers[r].stage.HasMessages? ==> AllGenuine(s, server, readers[r].stage.msgs))
    && (pc.Handling? ==> AllGenuine(s, server, pc.msgs))
  }

  ghost predicate AnswersGenuine(s: State, server: Server, ops: map<OpRef, Op>) {
    forall o, m :: o in ops && m in ops[o].answered ==> IsResponse(m) && Genuine(s, server, m)
  }

  ghost predicate Traceable(s: System, server: Server) {
    && FramesIssued(s.client)
    && s.busy <= s.client.written
    && WireGenuine(s.client, server, s.wire)
    && PassageGenuine(s.client, server, s.client.pc, s.client.readers)
    && AnswersGenuine(s.client, server, s.client.core.ops)
  }

  lemma IssuedGrows(s: State, s': State, r: Request)
    requires Grows(s, s') && Issued(s, r)
    ensures Issued(s', r)
  {
    var (o, i) := s.owner[r.serial - 1];
    assert s'.owner[r.serial - 1] == s.owner[r.serial - 1];
    assert s'.core.ops[o].reqs[i] == s.core.ops[o].reqs[i];
  }

  lemma GenuineGrows(s: State, s': State, server: Server, msgs: seq<Message>)
    requires Grows(s, s') && AllGenuine(s, server, msgs)
    ensures AllGenuine(s', server, msgs)
  {
    hide Issued, Grows, AnswerTo;
    forall m | m in msgs ensures Genuine(s', server, m) {
      assert Genuine(s, server, m);
      if IsResponse(m) {
        IssuedGrows(s, s', m.origin.value);
      }
    }
  }

  // ----- the client's steps keep everything traceable

  lemma FramesStep(s: State, l: Label)
    requires Inv(s) && Enabled(s, l) && (l.SendDone? ==> s.core.lastOp.Some?)
    requires FramesIssued(s) && Grows(s, Apply(s, l))
    ensures FramesIssued(Apply(s, l))
    ensures s.written <= Apply(s, l).written
  {
    var s' := Apply(s, l);
    WrittenBy(s, l);
    if l.Write? {
      OpRequestsIssued(s, l.o);
    }
    hide Apply, Enabled, Inv, Issued;
    forall f | f in s'.written ensures AllIssued(s', f) {
      forall i | 0 <= i < |f.reqs| ensures Issued(s', f.reqs[i]) {
        if f in s.written {
          assert AllIssued(s, f);
        }
        IssuedGrows(s, s', f.reqs[i]);
      }
    }
  }

  lemma WrittenBy(s: State, l: Label)
    requires Enabled(s, l) && Linked(s.core) && (l.SendDone? ==> s.core.lastOp.Some?)
    ensures s.written <= Apply(s, l).written
    ensures forall f :: f in Apply(s, l).written && f !in s.written ==> l.Write? && f.reqs == s.core.ops[l.o].reqs
  {
    hide Register, FinishSend, Respond, CloseOps, InspectOp;
  }

  lemma OpRequestsIssued(s: State, o: OpRef)
    requires Inv(s) && o in s.core.ops
    ensures forall i :: 0 <= i < |s.core.ops[o].reqs| ==> Issued(s, s.core.ops[o].reqs[i])
  {
    assert OpOk(s.core.respWait, s.core.subs, s.owner, o, s.core.ops[o]);
  }

  /** Where the messages of the readers and of the loop come from: the step before, or the wire. */
  lemma PassageMoves(s: State, l: Label)
    requires Enabled(s, l) && Linked(s.core) && (l.SendDone? ==> s.core.lastOp.Some?)
    ensures var s' := Apply(s, l);
      && (forall r :: r in s'.readers && s'.readers[r].stage.HasMessages? ==>
            || (r in s.readers && s.readers[r] == s'.readers[r])
            || (l.ReaderGets? && s'.readers[r].stage.msgs == l.msgs))
      && (s'.pc.Handling? ==>
            || s'.pc == s.pc
            || (s.pc.Handling? && s.pc.msgs != [] && s'.pc.msgs == s.pc.msgs[1..])
            || (l.TakeMessages? && s'.pc.msgs == s.readers[l.reader].stage.msgs))
  {
    hide Register, FinishSend, Respond, CloseOps, InspectOp;
  }

  lemma PassageStep(s: State, server: Server, l: Label)
    requires Enabled(s, l) && Linked(s.core) && (l.SendDone? ==> s.core.lastOp.Some?)
    requires PassageGenuine(s, server, s.pc, s.readers)
    requires l.ReaderGets? ==> AllGenuine(s, server, l.msgs)
    ensures PassageGenuine(s, server, Apply(s, l).pc, Apply(s, l).readers)
  {
    PassageMoves(s, l);
    hide Apply, Genuine;
  }

  lemma PassageGrows(s: State, s': State, server: Server, pc: LoopPc, readers: map<ReaderRef, Reader>)
    requires Grows(s, s') && PassageGenuine(s, server, pc, readers)
    ensures PassageGenuine(s', server, pc, readers)
  {
    hide AllGenuine, Grows;
    forall r | r in readers && readers[r].stage.HasMessages? ensures AllGenuine(s', server, readers[r].stage.msgs) {
      GenuineGrows(s, s', server, readers[r].stage.msgs);
    }
    if pc.Handling? {
      GenuineGrows(s, s', server, pc.msgs);
    }
  }

  lemma AnswersStep(s: State, server: Server, l: Label, s': State)
    requires AnswersGenuine(s, server, s.core.ops) && PassageGenuine(s, server, s.pc, s.readers)
    requires OpsSuccessor(s, l, s'.core.ops) && Grows(s, s')
    ensures AnswersGenuine(s', server, s'.core.ops)
  {
    hide Genuine, Grows;
    forall o, m | o in s'.core.ops && m in s'.core.ops[o].answered
      ensures IsResponse(m) && Genuine(s', server, m)
    {
      assert o in s.core.ops && (m in s.core.ops[o].answered || m == AtHand(s).value);
      GenuineGrows(s, s', server, [m]);
      assert m in [m];
    }
  }

  lemma WireGrows(s: State, s': State, server: Server, wire: set<(ConnRef, seq<Message>)>)
    requires Grows(s, s') && WireGenuine(s, server, wire)
    ensures WireGenuine(s', server, wire)
  {
    hide AllGenuine, Grows;
    forall w | w in wire ensures AllGenuine(s', server, w.1) {
      GenuineGrows(s, s', server, w.1);
    }
  }

  /** What a reader gets from the wire is genuine. */
  lemma WireRead(s: State, server: Server, wire: set<(ConnRef, seq<Message>)>, w: (ConnRef, seq<Message>))
    requires WireGenuine(s, server, wire) && w in wire
    ensures AllGenuine(s, server, w.1)
  {
    hide AllGenuine;
  }

  /** A step of the client in the system. */
  lemma ClientMoved(s: System, server: Server, l: Label, s': System)
    requires SysStep(s, server, ClientMoves(l), s')
    ensures Enabled(s.client, l) && Linked(s.client.core) && (l.SendDone? ==> s.client.core.lastOp.Some?)
    ensures s'.client == Apply(s.client, l) && s'.busy == s.busy && s'.wire == s.wire
    ensures l.ReaderGets? ==> l.reader in s.client.readers && (s.client.readers[l.reader].conn, l.msgs) in s.wire
  {
    hide Apply;
  }

  lemma ClientStepTraceable(s: System, server: Server, l: Label, s': System)
    requires Inv(s.client) && Traceable(s, server) && SysStep(s, server, ClientMoves(l), s')
    ensures Traceable(s', server)
  {
    hide SysStep, Inv, Apply, Enabled, FramesIssued, WireGenuine, PassageGenuine, AnswersGenuine, OpsSuccessor, Grows;
    var c, c' := s.client, s'.client;
    ClientMoved(s, server, l, s');
    StepGrows(c, l);
    FramesStep(c, l);
    if l.ReaderGets? {
      WireRead(c, server, s.wire, (c.readers[l.reader].conn, l.msgs));
    }
    PassageStep(c, server, l);
    PassageGrows(c, c', server, c'.pc, c'.readers);
    AnswersStep(c, server, l, c');
    WireGrows(c, c', server, s.wire);
  }

  // ----- so do the server's: the pipeline keeps response i with request i

  /** The requests of a frame resolve one by one, keeping their ids. */
  lemma ResolvedElement(f: Frame, server: Server, i: nat)
    requires Refusable(f, server) && i < |f.reqs|
    ensures var element := P.Element(AsJson(f.reqs[i], server));
      element.Some? && Resolved(f, server)[i] == Pipe.Resolve(server.services, server.decodes, element.value)
    ensures Resolved(f, server)[i].id == P.NumberId(IdOf(f.reqs[i]))
  {
    var r := AsJson(f.reqs[i], server);
    assert Pipe.ParseFrame(AsIncoming(f, server)).value[i] == P.Element(r).value;
    P.ParsedFacts(r);
    hide P.ParseRequest, P.Element, Pipe.Resolve;
    Pipe.ResolveKeepsId(server.services, server.decodes, P.Element(r).value);
  }

  lemma ReplyGenuine(s: State, f: Frame, server: Server, outcomes: seq<Pipe.Outcome>, i: nat)
    requires AllIssued(s, f) && Answerable(f, server, outcomes) && i < |f.reqs|
    ensures Genuine(s, server, Replies(f, server, outcomes)[i])
  {
    hide Pipe.Handle, Pipe.Resolve, Pipe.ParseFrame, Issued, AsIncoming;
    ResolvedElement(f, server, i);
    hide Resolved;
    var r, m := f.reqs[i], Replies(f, server, outcomes)[i];
    assert AnsweredWith(server, r, outcomes[i], m);
  }

  lemma RepliesGenuine(s: State, f: Frame, server: Server, outcomes: seq<Pipe.Outcome>)
    requires AllIssued(s, f) && Answerable(f, server, outcomes)
    ensures AllGenuine(s, server, Replies(f, server, outcomes))
  {
    hide Genuine, Answerable, AllIssued;
    forall m | m in Replies(f, server, outcomes) ensures Genuine(s, server, m) {
      var i :| 0 <= i < |f.reqs| && m == Replies(f, server, outcomes)[i];
      ReplyGenuine(s, f, server, outcomes, i);
    }
  }

  lemma RefusalsGenuine(s: State, f: Frame, server: Server)
    requires AllIssued(s, f) && Refusable(f, server)
    ensures AllGenuine(s, server, Refusals(f, server))
  {
    hide Issued, Resolved;
    forall m | m in Refusals(f, server) ensures Genuine(s, server, m) {
      var i :| 0 <= i < |f.reqs| && m == Refusals(f, server)[i];
      ResolvedElement(f, server, i);
      assert RefusedWith(server, f.reqs[i], m);
    }
  }

  /** A write of genuine messages keeps the wire genuine. */
  lemma WireLonger(s: State, server: Server, wire: set<(ConnRef, seq<Message>)>, conn: ConnRef, msgs: seq<Message>)
    requires WireGenuine(s, server, wire) && AllGenuine(s, server, msgs)
    ensures WireGenuine(s, server, wire + {(conn, msgs)})
  {
    hide AllGenuine;
  }

  lemma NoResponseGenuine(s: State, server: Server, m: Message)
    requires !IsResponse(m)
    ensures AllGenuine(s, server, [m])
  {
  }

  lemma ServerStepTraceable(s: System, server: Server, l: SysLabel, s': System)
    requires Traceable(s, server) && SysStep(s, server, l, s') && !l.ClientMoves?
    ensures s'.client == s.client && Traceable(s', server)
  {
    hide PassageGenuine, AnswersGenuine, WireGenuine, Answerable, AllIssued, Replies, Refusals, AllGenuine, Refusable;
    match l {
      case ServerReads(f) =>
      case ServerAnswers(f, outcomes) =>
        RepliesGenuine(s.client, f, server, outcomes);
        WireLonger(s.client, server, s.wire, f.conn, Replies(f, server, outcomes));
      case ServerRefuses(f) =>
        RefusalsGenuine(s.client, f, server);
        WireLonger(s.client, server, s.wire, f.conn, Refusals(f, server));
      case ServerRejects(f, text) =>
        var m := Message("", "", "", Some(text), NoResult, None);
        NoResponseGenuine(s.client, server, m);
        WireLonger(s.client, server, s.wire, f.conn, [m]);
      case ServerNotifies(conn, m) =>
        NoResponseGenuine(s.client, server, m);
        WireLonger(s.client, server, s.wire, conn, [m]);
    }
  }

  // ----- every run of the composed system

  lemma InitTraceable(server: Server, conn: ConnRef, reader: ReaderRef)
    ensures Traceable(System(Init(conn, reader), {}, {}), server)
  {
  }

  /** A step of the system is a step of its client, or leaves the client alone. */
  lemma ClientPart(s: System, server: Server, l: SysLabel, s': System)
    requires SysStep(s, server, l, s')
    ensures if l.ClientMoves? then Step(s.client, l.l, s'.client) else s'.client == s.client
    ensures s.client.owner <= s'.client.owner
  {
    hide Apply, Enabled, Answerable, Replies, Refusals, Refusable;
    if l.ClientMoves? {
      OwnerGrows(s.client, l.l);
    }
  }

  lemma SystemStep(s: System, server: Server, l: SysLabel, s': System)
    requires SysStep(s, server, l, s') && NoWrap(s.client) && Reachable(s.client) && Traceable(s, server)
    ensures Reachable(s'.client) && Traceable(s', server)
  {
    hide Traceable, Inv, SysStep, Reachable, Step;
    ClientPart(s, server, l, s');
    if l.ClientMoves? {
      ReachableInv(s.client);
      ClientStepTraceable(s, server, l.l, s');
      ReachableStep(s.client, l.l, s'.client);
    } else {
      ServerStepTraceable(s, server, l, s');
    }
  }

  lemma RunStart(states: seq<System>, server: Server, labels: seq<SysLabel>)
    requires SysRun(states, server, labels)
    ensures Reachable(states[0].client) && Traceable(states[0], server)
  {
    hide Reachable, Traceable, SysStep;
    var conn, reader :| states[0] == System(Init(conn, reader), {}, {});
    ReachableInit(conn, reader);
    InitTraceable(server, conn, reader);
  }

  /** In every run of the system the client part is a run of the client, and everything is traceable. */
  lemma {:induction false} SystemRun(states: seq<System>, server: Server, labels: seq<SysLabel>, n: nat)
    requires SysRun(states, server, labels) && n <= |labels| && NoWrap(states[n].client)
    ensures Reachable(states[n].client) && Traceable(states[n], server)
  {
    hide Reachable, Traceable, SysStep, Step, Init;
    if n == 0 {
      RunStart(states, server, labels);
    } else {
      var s, l, s' := states[n - 1], labels[n - 1], states[n];
      assert SysStep(s, server, l, s');
      ClientPart(s, server, l, s');
      SystemRun(states, server, labels, n - 1);
      hide SysRun;
      SystemStep(s, server, l, s');
    }
  }

  /** Whose request a genuine response with one of an operation's ids answers. */
  lemma OwnAnswer(s: State, server: Server, o: OpRef, i: nat, m: Message)
    requires Reachable(s) && NoWrap(s) && o in s.core.ops && i < |s.core.ops[o].reqs|
    requires IsResponse(m) && Genuine(s, server, m) && m.id == IdOf(s.core.ops[o].reqs[i])
    ensures AnswerTo(server, s.core.ops[o].reqs[i], m)
  {
    hide Reachable, Shaped, Answers, CallerOk, Waits, SubTracked, AnsweredWith, RefusedWith;
    var r := m.origin.value;
    var (o', i') := s.owner[r.serial - 1];
    ReachableOp(s, o);
    ReachableOp(s, o');
    IdOwner(s.owner, o, s.core.ops[o], o', s.core.ops[o'], i, i');
  }

  /** A reply matched to an operation carries one of its ids. */
  lemma AnsweredIndex(s: State, o: OpRef, m: Message) returns (i: nat)
    requires Reachable(s) && NoWrap(s) && o in s.core.ops && m in s.core.ops[o].answered
    ensures i < |s.core.ops[o].reqs| && m.id == IdOf(s.core.ops[o].reqs[i])
  {
    hide Reachable, NoWrap, Owned, Shaped, CallerOk, Waits, SubTracked;
    var op := s.core.ops[o];
    ReachableOp(s, o);
    var k :| 0 <= k < |op.answered| && op.answered[k] == m;
    i := IdAt(op, m.id);
  }

  /** It is a genuine response. */
  lemma AnsweredGenuine(s: System, server: Server, o: OpRef, m: Message)
    requires Traceable(s, server) && o in s.client.core.ops && m in s.client.core.ops[o].answered
    ensures IsResponse(m) && Genuine(s.client, server, m)
  {
    hide IsResponse, Genuine, FramesIssued, WireGenuine, PassageGenuine;
  }

  /**
   Correlation. In every run of client and server, whatever the interleaving and the order of the
   answers, a reply the loop hands to a call is the server's answer to a request of that call: it was
   built for that request, echoes its id, and its content is what the pipeline makes of that request.
   */
  lemma ReplyAnswersItsRequest(states: seq<System>, server: Server, labels: seq<SysLabel>, n: nat, o: OpRef, m: Message)
    requires SysRun(states, server, labels) && n <= |labels| && NoWrap(states[n].client)
    requires o in states[n].client.core.ops && m in states[n].client.core.ops[o].answered
    ensures exists i ::
      0 <= i < |states[n].client.core.ops[o].reqs| && AnswerTo(server, states[n].client.core.ops[o].reqs[i], m)
  {
    var s := states[n].client;
    hide Reachable, SysRun, Traceable, Genuine, IsResponse, AnswerTo;
    SystemRun(states, server, labels, n);
    AnsweredGenuine(states[n], server, o, m);
    var i := AnsweredIndex(s, o, m);
    OwnAnswer(s, server, o, i, m);
  }

  /**
   When the wait loop of a call or batch call completes, element i holds the server's answer to request
   i: the response the pipeline builds for it, or the refusal of a server that is stopping.
   */
  lemma EachElementHoldsItsAnswer(states: seq<System>, server: Server, labels: seq<SysLabel>, n: nat, o: OpRef, i: nat)
    requires SysRun(states, server, labels) && n <= |labels| && NoWrap(states[n].client)
    requires At(states[n].client, o, Returned(true)) && states[n].client.core.ops[o].kind != Subscribe
    requires i < states[n].client.core.ops[o].want
    ensures var op := states[n].client.core.ops[o];
      i < |op.reqs| && i in op.filled && AnswerTo(server, op.reqs[i], op.filled[i])
  {
    var s := states[n].client;
    hide Reachable, SysRun, Traceable, Genuine, IsResponse, AnswerTo;
    SystemRun(states, server, labels, n);
    EachElementAnswered(s, o);
    AnsweredGenuine(states[n], server, o, s.core.ops[o].filled[i]);
    OwnAnswer(s, server, o, i, s.core.ops[o].filled[i]);
  }
}
