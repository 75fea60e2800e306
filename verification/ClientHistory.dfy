/**
 What a step of the client does to operations that already exist: requests and replies are only
 ever added, a subscription that has started stays started, and the only step by which it loses
 its place is the start of another one under the same id.
 */
module ClientHistory {
  import opened GoRuntime
  import opened ClientModel
  import opened ClientProtocol
  import opened ClientInvariant

  /** The response the loop is about to handle. */
  function AtHand(s: State): Option<Message> {
    if s.pc.Handling? && s.pc.msgs != [] && IsResponse(s.pc.msgs[0]) then Some(s.pc.msgs[0]) else None
  }

  /** The response a step handles. */
  function Handled(s: State, l: Label): Option<Message> {
    if l.HandleNext? then AtHand(s) else None
  }

  /** Handling a response starts a subscription under the id that operation o is registered under. */
  predicate LosesPlace(c: Core, m: Message, o: OpRef) {
    var id := StartedUnder(c, m);
    id.Some? && id.value in c.subs && c.subs[id.value] == o
  }

  /** The step does so. */
  predicate TakesOver(s: State, l: Label, o: OpRef) {
    l.HandleNext? && AtHand(s).Some? && LosesPlace(s.core, AtHand(s).value, o)
  }

  /** The goroutine of the operation is past writing its request, or has given up. */
  predicate PastWriting(op: Op) {
    !(op.phase.Building? || op.phase.Offering? || op.phase.Writing? || op.phase.Dialled?)
  }

  /**
   Why a reply may come too late for a subscription, or find none: the operation is no subscribe
   operation, its send was reported as failed, or it was closed with an error.
   */
  predicate Excused(op: Op) {
    op.kind != Subscribe || op.sendFailed || (op.resp.closed && op.err.Some?)
  }

  /** An operation after a step; `over` says that its subscription lost its place by it. */
  ghost predicate OpSuccessor(hand: Option<Message>, over: bool, op: Op, op': Op) {
    && op'.kind == op.kind && op.reqs <= op'.reqs
    && (op'.answered == op.answered || (hand.Some? && op'.answered == op.answered + [hand.value]))
    && (op'.replaced <==> op.replaced || over)
    && (Started(op) ==> Started(op') && op'.answered == op.answered)
    && (op.accepted ==> op'.accepted)
    && (PastWriting(op) ==> PastWriting(op'))
    && (Excused(op) ==> Excused(op'))
  }

  /** How one step may change the operations. */
  ghost predicate OpsSuccessor(s: State, l: Label, ops': map<OpRef, Op>) {
    && (forall o :: o in s.core.ops ==>
          o in ops' && OpSuccessor(Handled(s, l), TakesOver(s, l, o), s.core.ops[o], ops'[o]))
    && (forall o :: o in ops' && o !in s.core.ops ==> ops'[o].answered == [] && !ops'[o].replaced)
  }

  /** Requests are only ever added. */
  ghost predicate Grows(s: State, s': State) {
    && s.owner <= s'.owner
    && forall o :: o in s.core.ops ==> o in s'.core.ops && s.core.ops[o].reqs <= s'.core.ops[o].reqs
  }

  // ----- steps that leave replies alone

  /** A caller's step, or a step of the loop that records nothing about replies. */
  predicate Quiet(op: Op, op': Op) {
    && op'.kind == op.kind && op.reqs <= op'.reqs
    && op'.answered == op.answered && op'.err == op.err && op'.replaced == op.replaced
    && (op.accepted ==> op'.accepted) && (PastWriting(op) ==> PastWriting(op'))
    && (op.sendFailed ==> op'.sendFailed) && op'.resp.closed == op.resp.closed
  }

  lemma QuietGrows(s: State, l: Label, o: OpRef, op: Op)
    requires !l.HandleNext?
    requires if o in s.core.ops then Quiet(s.core.ops[o], op) else op.answered == [] && !op.replaced
    ensures OpsSuccessor(s, l, s.core.ops[o := op])
  {
  }

  lemma UnchangedGrows(s: State, l: Label)
    requires !l.HandleNext?
    ensures OpsSuccessor(s, l, s.core.ops)
  {
  }

  lemma InspectQuiet(op: Op)
    requires op.phase.Got?
    ensures Quiet(op, InspectOp(op))
  {
    hide FindElement;
  }

  lemma CreationGrows(s: State, l: Label)
    requires Enabled(s, l) && Linked(s.core) && (l.NewOp? || l.NewMessage?)
    ensures OpsSuccessor(s, l, Apply(s, l).core.ops)
  {
    hide OpsSuccessor, Linked;
    QuietGrows(s, l, l.o, Apply(s, l).core.ops[l.o]);
  }

  lemma PhaseGrows(s: State, l: Label)
    requires Enabled(s, l) && Linked(s.core)
    requires l.MarshalFails? || l.Offer? || l.GiveUp? || l.SeeQuit? || l.BatchDone?
    ensures OpsSuccessor(s, l, Apply(s, l).core.ops)
  {
    hide OpsSuccessor, Linked;
    QuietGrows(s, l, l.o, Apply(s, l).core.ops[l.o]);
  }

  lemma WaitGrows(s: State, l: Label)
    requires Enabled(s, l) && Linked(s.core) && (l.Receive? || l.Inspect?)
    ensures OpsSuccessor(s, l, Apply(s, l).core.ops)
  {
    hide OpsSuccessor, InspectOp, Linked;
    if l.Inspect? {
      InspectQuiet(s.core.ops[l.o]);
    }
    QuietGrows(s, l, l.o, Apply(s, l).core.ops[l.o]);
  }

  lemma AcceptGrows(s: State, l: Label)
    requires Enabled(s, l) && Linked(s.core) && l.Accept?
    ensures OpsSuccessor(s, l, Apply(s, l).core.ops)
  {
    hide OpsSuccessor, Linked;
    var op := s.core.ops[l.o].(accepted := true, phase := Writing);
    assert Apply(s, l).core.ops == s.core.ops[l.o := op];
    QuietGrows(s, l, l.o, op);
  }

  lemma DialGrows(s: State, l: Label)
    requires Enabled(s, l) && Linked(s.core) && (l.DialFails? || l.Dial? || l.DialAbandoned?)
    ensures OpsSuccessor(s, l, Apply(s, l).core.ops)
  {
    hide OpsSuccessor, Linked;
    QuietGrows(s, l, l.o, Apply(s, l).core.ops[l.o]);
  }

  lemma HandOverGrows(s: State, l: Label)
    requires Enabled(s, l) && Linked(s.core) && l.HandOver?
    ensures OpsSuccessor(s, l, Apply(s, l).core.ops)
  {
    hide OpsSuccessor, Linked;
    var op := s.core.ops[l.o].(phase := Writing);
    assert Apply(s, l).core.ops == s.core.ops[l.o := op];
    QuietGrows(s, l, l.o, op);
  }

  lemma WriteGrows(s: State, l: Label)
    requires Enabled(s, l) && Linked(s.core) && l.Write?
    ensures OpsSuccessor(s, l, Apply(s, l).core.ops)
  {
    hide OpsSuccessor, Linked;
    var op := s.core.ops[l.o].(phase := Reporting(l.ok));
    assert Apply(s, l).core.ops == s.core.ops[l.o := op];
    QuietGrows(s, l, l.o, op);
  }

  lemma ReportGrows(s: State, l: Label)
    requires Enabled(s, l) && Linked(s.core) && l.Report?
    ensures OpsSuccessor(s, l, Apply(s, l).core.ops)
  {
    hide OpsSuccessor, Linked;
    var op := s.core.ops[l.o].(phase := if s.core.ops[l.o].phase.ok then Waiting else Returned(false));
    assert Apply(s, l).core.ops == s.core.ops[l.o := op];
    QuietGrows(s, l, l.o, op);
  }

  lemma SendDoneGrows(s: State, l: Label)
    requires Enabled(s, l) && Linked(s.core) && l.SendDone? && s.core.lastOp.Some?
    ensures OpsSuccessor(s, l, Apply(s, l).core.ops)
  {
    hide OpsSuccessor;
    UnchangedGrows(s, l);
    if s.sendDone.buf[0].Some? {
      var o := s.core.lastOp.value;
      QuietGrows(s, l, o, s.core.ops[o].(sendFailed := true));
    }
  }

  lemma ReaderGrows(s: State, l: Label)
    requires Enabled(s, l) && Linked(s.core)
    requires l.ReaderGets? || l.ReaderFails? || l.TakeMessages? || l.DrainMessages?
    ensures OpsSuccessor(s, l, Apply(s, l).core.ops)
  {
    hide OpsSuccessor, Linked;
    UnchangedGrows(s, l);
  }

  lemma ReaderGoneGrows(s: State, l: Label)
    requires Enabled(s, l) && Linked(s.core) && (l.OldReaderGone? || l.DrainError? || l.QuitNoReader?)
    ensures OpsSuccessor(s, l, Apply(s, l).core.ops)
  {
    hide OpsSuccessor, Linked;
    UnchangedGrows(s, l);
  }

  // ----- responses and closing

  /** An operation that still waits for an id has no started subscription, registered or not. */
  lemma PendingNotStarted(s: State, id: string)
    requires Inv(s) && id in s.core.respWait
    ensures s.core.respWait[id] in s.core.ops && !Started(s.core.ops[s.core.respWait[id]])
    ensures s.core.respWait[id] !in s.core.subs.Values
    ensures var op := s.core.ops[s.core.respWait[id]]; !op.sendFailed && !op.resp.closed
  {
    var o := s.core.respWait[id];
    assert OpOk(s.core.respWait, s.core.subs, s.owner, o, s.core.ops[o]);
    hide Inv, CallerOk, Owned, Shaped;
  }

  /** The operation that gets the reply. */
  lemma AnsweredGrows(c: Core, m: Message)
    requires Linked(c) && m.id in c.respWait
    requires !Started(c.ops[c.respWait[m.id]]) && c.respWait[m.id] !in c.subs.Values
    requires !c.ops[c.respWait[m.id]].sendFailed && !c.ops[c.respWait[m.id]].resp.closed
    ensures var o := c.respWait[m.id]; OpSuccessor(Some(m), LosesPlace(c, m, o), c.ops[o], Respond(c, m).ops[o])
  {
    var o := c.respWait[m.id];
    assert Respond(c, m).ops[o] == ReplyTo(c.ops[o], m);
    assert !LosesPlace(c, m, o);
    hide Respond, LosesPlace;
  }

  /** Any other operation. */
  lemma OthersGrow(c: Core, m: Message, p: OpRef)
    requires Linked(c) && m.id in c.respWait && p in c.ops && p != c.respWait[m.id]
    ensures p in Respond(c, m).ops && OpSuccessor(Some(m), LosesPlace(c, m, p), c.ops[p], Respond(c, m).ops[p])
  {
    var op := c.ops[p];
    assert Respond(c, m).ops[p] == if LosesPlace(c, m, p) then op.(replaced := true) else op;
    hide Respond, LosesPlace;
  }

  lemma RespondGrows(c: Core, m: Message)
    requires Linked(c) && m.id in c.respWait
    requires !Started(c.ops[c.respWait[m.id]]) && c.respWait[m.id] !in c.subs.Values
    requires !c.ops[c.respWait[m.id]].sendFailed && !c.ops[c.respWait[m.id]].resp.closed
    ensures Respond(c, m).ops.Keys == c.ops.Keys
    ensures forall p :: p in c.ops ==> OpSuccessor(Some(m), LosesPlace(c, m, p), c.ops[p], Respond(c, m).ops[p])
  {
    RespondKeepsPhases(c, m);
    AnsweredGrows(c, m);
    hide Respond, OpSuccessor, LosesPlace;
    forall p | p in c.ops ensures OpSuccessor(Some(m), LosesPlace(c, m, p), c.ops[p], Respond(c, m).ops[p]) {
      if p != c.respWait[m.id] {
        OthersGrow(c, m, p);
      }
    }
  }

  lemma HandledOps(s: State, l: Label)
    requires Enabled(s, l) && Linked(s.core) && l.HandleNext?
    ensures Apply(s, l).core.ops == if AtHand(s).Some? then Respond(s.core, AtHand(s).value).ops else s.core.ops
  {
    hide Respond;
  }

  lemma IgnoredOps(s: State, l: Label)
    requires l.HandleNext? && (AtHand(s).Some? ==> AtHand(s).value.id !in s.core.respWait)
    ensures OpsSuccessor(s, l, s.core.ops)
  {
  }

  lemma HandleGrows(s: State, l: Label)
    requires Inv(s) && Enabled(s, l) && Linked(s.core) && l.HandleNext?
    ensures OpsSuccessor(s, l, Apply(s, l).core.ops)
  {
    hide Inv, Apply, Enabled, Respond, OpSuccessor, LosesPlace;
    HandledOps(s, l);
    if AtHand(s).Some? && AtHand(s).value.id in s.core.respWait {
      PendingNotStarted(s, AtHand(s).value.id);
      RespondGrows(s.core, AtHand(s).value);
    } else {
      IgnoredOps(s, l);
      if AtHand(s).Some? {
        UnsolicitedResponse(s.core, AtHand(s).value);
      }
    }
  }

  lemma ClosedGrows(c: Core, hand: Option<Message>, err: string, o: OpRef)
    requires o in c.ops && (o in c.respWait.Values ==> !Started(c.ops[o]))
    ensures OpSuccessor(hand, false, c.ops[o], EndSub(c, o, err, CloseOne(c, o, err)))
  {
  }

  lemma CloseOpsGrows(s: State, hand: Option<Message>, err: string)
    requires Inv(s) && Linked(s.core)
    ensures CloseOps(s.core, err).ops.Keys == s.core.ops.Keys
    ensures forall o :: o in s.core.ops ==> OpSuccessor(hand, false, s.core.ops[o], CloseOps(s.core, err).ops[o])
  {
    hide Inv, EndSub, CloseOne, OpSuccessor;
    forall o | o in s.core.ops ensures OpSuccessor(hand, false, s.core.ops[o], CloseOps(s.core, err).ops[o]) {
      if o in s.core.respWait.Values {
        var id :| id in s.core.respWait && s.core.respWait[id] == o;
        PendingNotStarted(s, id);
      }
      ClosedGrows(s.core, hand, err, o);
    }
  }

  lemma ClosedOps(s: State, l: Label)
    requires Enabled(s, l) && Linked(s.core) && (l.TakeReadError? || l.CloseClient?)
    ensures exists err :: Apply(s, l).core.ops == CloseOps(s.core, err).ops
  {
    hide CloseOps;
    var err := if l.CloseClient? then CLIENT_QUIT else s.readers[l.reader].stage.err;
    assert Apply(s, l).core.ops == CloseOps(s.core, err).ops;
  }

  lemma CloseGrows(s: State, l: Label)
    requires Inv(s) && Enabled(s, l) && Linked(s.core) && (l.TakeReadError? || l.CloseClient?)
    ensures OpsSuccessor(s, l, Apply(s, l).core.ops)
  {
    hide Inv, Apply, Enabled, CloseOps, OpSuccessor;
    ClosedOps(s, l);
    var err :| Apply(s, l).core.ops == CloseOps(s.core, err).ops;
    CloseOpsGrows(s, None, err);
  }

  // ----- every step

  lemma StepGrows(s: State, l: Label)
    requires Inv(s) && Enabled(s, l) && Linked(s.core) && (l.SendDone? ==> s.core.lastOp.Some?)
    ensures OpsSuccessor(s, l, Apply(s, l).core.ops)
    ensures Grows(s, Apply(s, l))
  {
    hide Inv, Apply, Enabled, OpsSuccessor, Linked, Grows;
    OwnerGrows(s, l);
    match l {
      case NewOp(_, _, _) => CreationGrows(s, l);
      case NewMessage(_, _, _) => CreationGrows(s, l);
      case MarshalFails(_) => PhaseGrows(s, l);
      case Offer(_) => PhaseGrows(s, l);
      case Accept(_) => AcceptGrows(s, l);
      case GiveUp(_) => PhaseGrows(s, l);
      case SeeQuit(_) => PhaseGrows(s, l);
      case BatchDone(_) => PhaseGrows(s, l);
      case Receive(_) => WaitGrows(s, l);
      case Inspect(_) => WaitGrows(s, l);
      case SendDone => SendDoneGrows(s, l);
      case HandleNext => HandleGrows(s, l);
      case TakeReadError(_) => CloseGrows(s, l);
      case CloseClient => CloseGrows(s, l);
      case ReaderGets(_, _) => ReaderGrows(s, l);
      case ReaderFails(_, _) => ReaderGrows(s, l);
      case TakeMessages(_) => ReaderGrows(s, l);
      case OldReaderGone(_, _) => ReaderGoneGrows(s, l);
      case DrainMessages(_) => ReaderGrows(s, l);
      case DrainError(_) => ReaderGoneGrows(s, l);
      case QuitNoReader => ReaderGoneGrows(s, l);
      case HandOver(_, _) => HandOverGrows(s, l);
      case Write(_, _, _) => WriteGrows(s, l);
      case Report(_, _) => ReportGrows(s, l);
      case _ => DialGrows(s, l);
    }
    SuccessorGrows(s, l, Apply(s, l));
  }

  lemma SuccessorGrows(s: State, l: Label, s': State)
    requires OpsSuccessor(s, l, s'.core.ops) && s.owner <= s'.owner
    ensures Grows(s, s')
  {
  }
}
