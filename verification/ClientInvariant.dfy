/**
 Every step of the client keeps the invariant, and what the invariant means: channel
 safety, the write lock, one reader, and that nobody waits for a wake-up that cannot come.
 */
module ClientInvariant {
  import opened GoRuntime
  import opened RequestIds
  import opened ClientModel
  import opened ClientProtocol

  // ----- ids lead to one operation

  lemma IdAt(op: Op, id: string) returns (i: nat)
    requires id in Ids(op)
    ensures i < |op.reqs| && IdOf(op.reqs[i]) == id
  {
    i :| 0 <= i < |Ids(op)| && Ids(op)[i] == id;
  }

  lemma IdOwner(owner: seq<(OpRef, nat)>, o: OpRef, op: Op, o': OpRef, op': Op, i: nat, i': nat)
    requires Owned(owner, o, op) && Owned(owner, o', op') && |owner| <= ID_SPACE
    requires i < |op.reqs| && i' < |op'.reqs| && IdOf(op.reqs[i]) == IdOf(op'.reqs[i'])
    ensures o == o' && i == i'
  {
    IdTextUnique(op.reqs[i].serial, op'.reqs[i'].serial);
    assert owner[op.reqs[i].serial - 1] == (o, i);
    assert owner[op'.reqs[i'].serial - 1] == (o', i');
  }

  lemma OneOwner(owner: seq<(OpRef, nat)>, o: OpRef, op: Op, o': OpRef, op': Op, id: string)
    requires Owned(owner, o, op) && Owned(owner, o', op') && |owner| <= ID_SPACE
    requires id in Ids(op) && id in Ids(op')
    ensures o == o'
  {
    var i := IdAt(op, id);
    var i' := IdAt(op', id);
    IdOwner(owner, o, op, o', op', i, i');
  }

  lemma IdsDistinct(owner: seq<(OpRef, nat)>, o: OpRef, op: Op)
    requires Owned(owner, o, op) && |owner| <= ID_SPACE
    ensures Distinct(Ids(op))
  {
    forall i, j | 0 <= i < j < |Ids(op)|
      ensures Ids(op)[i] != Ids(op)[j]
    {
      if Ids(op)[i] == Ids(op)[j] {
        IdOwner(owner, o, op, o, op, i, j);
      }
    }
  }

  // ----- counting replies

  ghost function AnsweredIds(op: Op): seq<string> {
    seq(|op.answered|, i requires 0 <= i < |op.answered| => op.answered[i].id)
  }

  lemma AnsweredIdsFacts(op: Op)
    requires Answers(op)
    ensures Distinct(AnsweredIds(op))
    ensures forall id :: id in AnsweredIds(op) ==> id in Ids(op)
    ensures forall id :: id in AnsweredIds(op) <==> Answered(op, id)
  {
    forall id ensures id in AnsweredIds(op) <==> Answered(op, id) {
      if id in AnsweredIds(op) {
        var k :| 0 <= k < |AnsweredIds(op)| && AnsweredIds(op)[k] == id;
        assert op.answered[k].id == id;
      }
      if Answered(op, id) {
        var k :| 0 <= k < |op.answered| && op.answered[k].id == id;
        assert AnsweredIds(op)[k] == id;
      }
    }
  }

  /** While an id of the operation is unanswered there is room for one more reply. */
  lemma RoomForReply(op: Op, id: string)
    requires Answers(op) && id in Ids(op) && !Answered(op, id)
    ensures |op.answered| < |op.reqs|
  {
    AnsweredIdsFacts(op);
    var all := AnsweredIds(op) + [id];
    assert Distinct(all);
    Pigeonhole(all, Ids(op));
  }

  /** When every id is answered there are as many replies as ids. */
  lemma AllAnswered(owner: seq<(OpRef, nat)>, o: OpRef, op: Op)
    requires Owned(owner, o, op) && |owner| <= ID_SPACE && Answers(op)
    requires forall id :: id in Ids(op) ==> Answered(op, id)
    ensures |op.answered| == |op.reqs|
  {
    AnsweredIdsFacts(op);
    IdsDistinct(owner, o, op);
    Pigeonhole(Ids(op), AnsweredIds(op));
    Pigeonhole(AnsweredIds(op), Ids(op));
  }

  // ----- steps of callers, one operation at a time

  lemma NewOpOk(respWait: map<string, OpRef>, subs: map<string, OpRef>, owner: seq<(OpRef, nat)>, o: OpRef,
                kind: Kind, want: nat)
    requires forall id :: id in respWait ==> respWait[id] != o
    requires forall id :: id in subs ==> subs[id] != o
    requires kind == Batch || want == 1
    ensures OpOk(respWait, subs, owner, o, NewOperation(kind, want))
  {
  }

  lemma NewMessageOk(respWait: map<string, OpRef>, subs: map<string, OpRef>, owner: seq<(OpRef, nat)>, o: OpRef, op: Op,
                     name: string, params: string)
    requires OpOk(respWait, subs, owner, o, op) && op.phase == Building && |op.reqs| < op.want
    ensures OpOk(respWait, subs, owner + [(o, |op.reqs|)], o, AddRequest(op, |owner| + 1, name, params))
  {
  }

  /** The parts of an operation that the loop's tables speak about. */
  predicate SameForLoop(op: Op, op': Op) {
    && op'.kind == op.kind && op'.reqs == op.reqs && op'.accepted == op.accepted && op'.answered == op.answered
    && op'.err == op.err && op'.sendFailed == op.sendFailed && op'.subQuit == op.subQuit && op'.replaced == op.replaced
    && op'.resp.closed == op.resp.closed
  }

  lemma LoopView(respWait: map<string, OpRef>, subs: map<string, OpRef>, owner: seq<(OpRef, nat)>, o: OpRef,
                 op: Op, op': Op)
    requires Owned(owner, o, op) && Waits(respWait, o, op) && SubTracked(subs, o, op)
    requires SameForLoop(op, op')
    ensures Owned(owner, o, op') && Waits(respWait, o, op') && SubTracked(subs, o, op')
  {
    assert Ids(op') == Ids(op);
    assert forall id :: Answered(op, id) <==> Answered(op', id);
  }

  lemma QuietOk(respWait: map<string, OpRef>, subs: map<string, OpRef>, owner: seq<(OpRef, nat)>, o: OpRef,
                op: Op, phase: Phase)
    requires OpOk(respWait, subs, owner, o, op)
    requires match phase
             case Returned(ok) =>
               ok ==> (op.phase == Waiting && Complete(op)) || (op.kind == Subscribe && op.phase.Got?)
             case Offering => op.phase == Building && |op.reqs| == op.want
             case Reporting(_) => Locking(op.phase)
             case Dialled(_) => Locking(op.phase)
             case Writing => Locking(op.phase)
             case Waiting => op.phase.Reporting?
             case _ => false
    ensures OpOk(respWait, subs, owner, o, op.(phase := phase))
  {
    hide Owned, Waits, SubTracked, Answered;
    var op' := op.(phase := phase);
    LoopView(respWait, subs, owner, o, op, op');
    assert Ids(op') == Ids(op);
  }

  lemma ReceiveAnswers(op: Op)
    requires Answers(op) && (op.kind == Subscribe || op.resp.buf != [] || op.resp.closed)
    ensures Answers(ReceiveOp(op))
  {
    var op' := ReceiveOp(op);
    assert Ids(op') == Ids(op);
    assert op.resp.buf != [] ==> op.taken + op.resp.buf == op'.taken + op'.resp.buf;
  }

  lemma ReceiveCaller(op: Op)
    requires Shaped(op) && CallerOk(op) && op.phase == Waiting && !Complete(op)
    requires op.kind == Subscribe ==> op.resp.buf == []
    requires op.resp.buf != [] || op.resp.closed
    ensures Shaped(ReceiveOp(op)) && CallerOk(ReceiveOp(op))
  {
    hide FilledFrom;
  }

  lemma ReceiveOk(respWait: map<string, OpRef>, subs: map<string, OpRef>, owner: seq<(OpRef, nat)>, o: OpRef, op: Op)
    requires OpOk(respWait, subs, owner, o, op) && op.phase == Waiting && !Complete(op)
    requires op.resp.buf != [] || op.resp.closed
    ensures OpOk(respWait, subs, owner, o, ReceiveOp(op))
  {
    hide Owned, Waits, SubTracked, Shaped, CallerOk;
    assert op.kind == Subscribe ==> op.resp.buf == [];
    hide Answers;
    LoopView(respWait, subs, owner, o, op, ReceiveOp(op));
    ReceiveAnswers(op);
    ReceiveCaller(op);
  }

  /** A received reply belongs to an element that no earlier reply of the operation was put into. */
  lemma ReplyFindsElement(op: Op, m: Message)
    requires Answers(op) && op.kind != Subscribe
    requires op.taken == op.placed + [m] && FilledFrom(op.reqs, op.filled, op.placed)
    ensures var i := FindElement(Ids(op), m.id); i < |op.reqs| && m.id == IdOf(op.reqs[i]) && i !in op.filled
  {
    var last := |op.placed|;
    assert op.answered[last] == m;
    forall k | 0 <= k < last
      ensures op.placed[k].id != m.id
    {
      assert op.answered[k] == op.taken[k] == op.placed[k];
    }
  }

  lemma FillElement(reqs: seq<Request>, filled: map<nat, Message>, replies: seq<Message>, i: nat, m: Message)
    requires FilledFrom(reqs, filled, replies) && i < |reqs| && m.id == IdOf(reqs[i]) && i !in filled
    ensures FilledFrom(reqs, filled[i := m], replies + [m])
  {
  }

  /** The caller put the reply it held into element i. */
  lemma PlacedOk(op: Op, m: Message, i: nat, phase: Phase)
    requires CallerOk(op) && op.kind != Subscribe && op.phase == Got(Some(m))
    requires i < |op.reqs| && m.id == IdOf(op.reqs[i]) && i !in op.filled
    requires if op.kind == Batch then phase == Waiting else phase == Returned(true) && op.want == 1
    ensures CallerOk(op.(phase := phase, placed := op.placed + [m], filled := op.filled[i := m]))
  {
    hide FilledFrom;
    FillElement(op.reqs, op.filled, op.placed, i, m);
  }

  lemma InspectCaller(op: Op)
    requires Shaped(op) && Answers(op) && CallerOk(op) && op.phase.Got? && op.kind != Subscribe && op.err == None
    ensures op.phase.reply.Some? && CallerOk(InspectOp(op))
  {
    var m := op.phase.reply.value;
    ReplyFindsElement(op, m);
    var i := FindElement(Ids(op), m.id);
    assert op.kind == Single ==> i == 0 && |op.placed| == 0 && op.filled == map[];
    hide Shaped, Answers;
    PlacedOk(op, m, i, if op.kind == Batch then Waiting else Returned(true));
    hide CallerOk;
  }

  lemma InspectShaped(op: Op)
    requires Shaped(op) && Answers(op) && op.phase.Got? && op.phase.reply.Some?
    requires op.kind != Subscribe && op.err == None
    ensures Shaped(InspectOp(op)) && Answers(InspectOp(op))
  {
    assert Ids(InspectOp(op)) == Ids(op);
  }

  lemma InspectOk(respWait: map<string, OpRef>, subs: map<string, OpRef>, owner: seq<(OpRef, nat)>, o: OpRef, op: Op)
    requires OpOk(respWait, subs, owner, o, op) && op.phase.Got?
    ensures OpOk(respWait, subs, owner, o, InspectOp(op))
  {
    hide Owned, Waits, SubTracked, Shaped, Answers, CallerOk, InspectOp;
    InspectSame(op);
    if op.err.Some? || op.kind == Subscribe {
      QuietOk(respWait, subs, owner, o, op, InspectOp(op).phase);
    } else {
      InspectCaller(op);
      InspectShaped(op);
      LoopView(respWait, subs, owner, o, op, InspectOp(op));
    }
  }

  lemma InspectSame(op: Op)
    requires op.phase.Got?
    ensures SameForLoop(op, InspectOp(op))
    ensures op.err.Some? || op.kind == Subscribe ==>
      InspectOp(op) == op.(phase := Returned(op.err == None))
  {
    hide FindElement;
  }

  // ----- the same steps in the whole state

  /** A step that changes one operation, and neither the tables nor the lock. */
  lemma OneOpStep(s: State, owner: seq<(OpRef, nat)>, o: OpRef, op: Op)
    requires Inv(s)
    requires s.owner <= owner
    requires OpOk(s.core.respWait, s.core.subs, owner, o, op)
    requires !Locking(op.phase)
    requires o in s.core.ops ==>
      && !Locking(s.core.ops[o].phase)
      && (s.core.ops[o].accepted ==> op.accepted)
      && (s.core.ops[o].phase == Returned(false) ==> op.phase == Returned(false))
    ensures Inv(SetOp(s.(owner := owner), o, op))
  {
    hide Shaped, Answers, CallerOk, Waits, SubTracked, ReadersOk, ConnsOk, Ended;
    forall p | p in s.core.ops && p != o
      ensures OpOk(s.core.respWait, s.core.subs, owner, p, s.core.ops[p])
    {
      assert OpOk(s.core.respWait, s.core.subs, s.owner, p, s.core.ops[p]);
    }
  }

  lemma CreationStep(s: State, l: Label)
    requires Inv(s) && Enabled(s, l) && (l.NewOp? || l.NewMessage?)
    ensures Inv(Apply(s, l))
  {
    hide OpOk, LockOk, ReadersOk, ConnsOk, Ended;
    match l {
      case NewOp(o, kind, want) =>
        NewOpOk(s.core.respWait, s.core.subs, s.owner, o, kind, want);
        OneOpStep(s, s.owner, o, NewOperation(kind, want));
      case NewMessage(o, name, params) =>
        var op := s.core.ops[o];
        NewMessageOk(s.core.respWait, s.core.subs, s.owner, o, op, name, params);
        OneOpStep(s, s.owner + [(o, |op.reqs|)], o, AddRequest(op, |s.owner| + 1, name, params));
    }
  }

  lemma PhaseStep(s: State, l: Label)
    requires Inv(s) && Enabled(s, l)
    requires l.MarshalFails? || l.Offer? || l.GiveUp? || l.SeeQuit? || l.BatchDone?
    ensures Inv(Apply(s, l))
  {
    hide OpOk, LockOk, ReadersOk, ConnsOk, Ended;
    var phase := if l.Offer? then Offering else Returned(l.BatchDone?);
    QuietOk(s.core.respWait, s.core.subs, s.owner, l.o, s.core.ops[l.o], phase);
    OneOpStep(s, s.owner, l.o, s.core.ops[l.o].(phase := phase));
  }

  lemma InspectPhase(op: Op)
    ensures op.phase.Got? ==> !Locking(InspectOp(op).phase) && InspectOp(op).accepted == op.accepted
  {
  }

  lemma WaitStep(s: State, l: Label)
    requires Inv(s) && Enabled(s, l) && (l.Receive? || l.Inspect?)
    ensures Inv(Apply(s, l))
  {
    hide OpOk, LockOk, ReadersOk, ConnsOk, Ended, InspectOp;
    var op := s.core.ops[l.o];
    InspectPhase(op);
    if l.Receive? {
      ReceiveOk(s.core.respWait, s.core.subs, s.owner, l.o, op);
      OneOpStep(s, s.owner, l.o, ReceiveOp(op));
    } else {
      InspectOk(s.core.respWait, s.core.subs, s.owner, l.o, op);
      OneOpStep(s, s.owner, l.o, InspectOp(op));
    }
  }

  // ----- steps of the goroutine that holds the write lock

  /** The lock holder moves on while it keeps the lock; the environment of the loop may change with it. */
  lemma HolderStep(s: State, o: OpRef, phase: Phase)
    requires Inv(s) && o in s.core.ops && Locking(s.core.ops[o].phase) && Locking(phase)
    ensures Inv(SetPhase(s, o, phase))
  {
    hide OpOk, ReadersOk, ConnsOk, Ended;
    QuietOk(s.core.respWait, s.core.subs, s.owner, o, s.core.ops[o], phase);
  }

  lemma WriterStep(s: State, l: Label)
    requires Inv(s) && Enabled(s, l) && (l.DialFails? || l.Dial? || l.DialAbandoned? || l.Write?)
    ensures Inv(Apply(s, l))
  {
    hide OpOk, LockOk, ReadersOk, Ended;
    var s' := Apply(s, l);
    HolderStep(s, l.o, s'.core.ops[l.o].phase);
  }

  lemma HandOverStep(s: State, l: Label)
    requires Inv(s) && Enabled(s, l) && l.HandOver?
    ensures Inv(Apply(s, l))
  {
    hide OpOk, LockOk;
    HolderStep(s, l.o, Writing);
    var s' := Apply(s, l);
    if !s.core.reading {
      assert l.reader in s'.readers && s'.readers.Keys == {l.reader};
    }
  }

  /** The holder gives the lock back: the one slot of sendDone is empty, whatever the loop does. */
  lemma GiveLockBack(s: State, o: OpRef, result: Option<string>, phase: Phase)
    requires Inv(s) && o in s.core.ops && s.core.ops[o].phase.Reporting?
    requires phase == if result == None then Waiting else Returned(false)
    ensures s.sendDone.buf == []
    ensures Inv(SetPhase(s.(sendDone := s.sendDone.Send(result)), o, phase))
  {
    hide OpOk, ReadersOk, ConnsOk, Ended;
    QuietOk(s.core.respWait, s.core.subs, s.owner, o, s.core.ops[o], phase);
  }

  lemma ReportStep(s: State, l: Label)
    requires Inv(s) && Enabled(s, l) && l.Report?
    ensures Inv(Apply(s, l))
  {
    hide Inv, SetPhase;
    if s.core.ops[l.o].phase.ok {
      GiveLockBack(s, l.o, None, Waiting);
    } else {
      GiveLockBack(s, l.o, Some(l.err), Returned(false));
    }
  }

  // ----- steps of the loop

  /** An operation none of whose table entries changed is still in order. */
  lemma OtherWaits(respWait: map<string, OpRef>, respWait': map<string, OpRef>, p: OpRef, op: Op)
    requires Waits(respWait, p, op)
    requires forall id :: (id in respWait && respWait[id] == p) <==> (id in respWait' && respWait'[id] == p)
    ensures Waits(respWait', p, op)
  {
  }

  lemma RegisteredWaits(respWait: map<string, OpRef>, o: OpRef, op: Op, op': Op)
    requires !op.accepted && op.answered == [] && !op.resp.closed && !op.sendFailed && Waits(respWait, o, op)
    requires op' == op.(accepted := true, phase := Writing)
    ensures Waits(respWait + (map id | id in Ids(op) :: o), o, op')
  {
    assert Ids(op') == Ids(op);
  }

  lemma RegisteredOk(respWait: map<string, OpRef>, subs: map<string, OpRef>, owner: seq<(OpRef, nat)>, o: OpRef, op: Op)
    requires OpOk(respWait, subs, owner, o, op) && op.phase == Offering
    ensures OpOk(respWait + (map id | id in Ids(op) :: o), subs, owner, o, op.(accepted := true, phase := Writing))
  {
    hide Waits, FilledFrom;
    RegisteredWaits(respWait, o, op, op.(accepted := true, phase := Writing));
  }

  lemma OtherAfterAccept(s: State, o: OpRef, p: OpRef)
    requires OpsOk(s) && NoWrap(s) && o in s.core.ops && p in s.core.ops && p != o
    ensures OpOk(Register(s.core, o).respWait, s.core.subs, s.owner, p, s.core.ops[p])
  {
    hide Shaped, Answers, CallerOk, SubTracked;
    var op, op' := s.core.ops[o], s.core.ops[p];
    assert OpOk(s.core.respWait, s.core.subs, s.owner, o, op);
    assert OpOk(s.core.respWait, s.core.subs, s.owner, p, op');
    forall id | id in s.core.respWait && s.core.respWait[id] == p
      ensures id !in Ids(op)
    {
      if id in Ids(op) {
        OneOwner(s.owner, p, op', o, op, id);
      }
    }
    OtherWaits(s.core.respWait, Register(s.core, o).respWait, p, op');
  }

  lemma TakeOperation(s: State, o: OpRef)
    requires Inv(s) && NoWrap(s) && s.pc == Running && s.core.lockFree && At(s, o, Offering)
    ensures Inv(SetPhase(s.(core := Register(s.core, o)), o, Writing))
  {
    hide OpOk, ReadersOk, ConnsOk;
    var s', op := SetPhase(s.(core := Register(s.core, o)), o, Writing), s.core.ops[o];
    assert s'.core.ops == s.core.ops[o := op.(accepted := true, phase := Writing)];
    RegisteredOk(s.core.respWait, s.core.subs, s.owner, o, op);
    forall p | p in s.core.ops && p != o
      ensures OpOk(s'.core.respWait, s.core.subs, s.owner, p, s.core.ops[p])
    {
      OtherAfterAccept(s, o, p);
    }
  }

  lemma AcceptStep(s: State, l: Label)
    requires Inv(s) && NoWrap(s) && Enabled(s, l) && l.Accept?
    ensures Inv(Apply(s, l))
  {
    hide Inv, SetPhase, Register;
    TakeOperation(s, l.o);
  }

  /** Removing the ids of a failed send removes entries of that operation only. */
  lemma FailedSend(s: State, o: OpRef, p: OpRef)
    requires OpsOk(s) && NoWrap(s) && Linked(s.core) && o in s.core.ops && p in s.core.ops
    requires p == o ==> s.core.ops[o].accepted && s.core.ops[o].phase == Returned(false)
    ensures var op := if p == o then s.core.ops[o].(sendFailed := true) else s.core.ops[p];
      OpOk(s.core.respWait - Elems(Ids(s.core.ops[o])), s.core.subs, s.owner, p, op)
  {
    hide Shaped, Answers, SubTracked;
    var failed, op := s.core.ops[o], s.core.ops[p];
    var rest := s.core.respWait - Elems(Ids(failed));
    assert OpOk(s.core.respWait, s.core.subs, s.owner, o, failed);
    assert OpOk(s.core.respWait, s.core.subs, s.owner, p, op);
    if p == o {
      FailedOk(s.core.respWait, s.core.subs, s.owner, o, op);
    } else {
      forall id | id in s.core.respWait && s.core.respWait[id] == p
        ensures id !in Ids(failed)
      {
        if id in Ids(failed) {
          OneOwner(s.owner, p, op, o, failed, id);
        }
      }
      OtherWaits(s.core.respWait, rest, p, op);
    }
  }

  lemma FailedOk(respWait: map<string, OpRef>, subs: map<string, OpRef>, owner: seq<(OpRef, nat)>, o: OpRef, op: Op)
    requires OpOk(respWait, subs, owner, o, op) && op.accepted && op.phase == Returned(false)
    ensures OpOk(respWait - Elems(Ids(op)), subs, owner, o, op.(sendFailed := true))
  {
    var op' := op.(sendFailed := true);
    assert Ids(op') == Ids(op);
    assert forall id :: Answered(op, id) <==> Answered(op', id);
  }

  lemma SendFinished(s: State, result: Option<string>)
    requires Inv(s) && NoWrap(s) && s.pc == Running && s.sendDone.buf != [] && result == s.sendDone.buf[0]
    ensures s.core.lastOp.Some?
    ensures Inv(s.(core := FinishSend(s.core, result), sendDone := s.sendDone.(buf := s.sendDone.buf[1..])))
  {
    hide OpOk, ReadersOk, ConnsOk;
    var o := s.core.lastOp.value;
    if result.Some? {
      forall p | p in s.core.ops
        ensures OpOk(s.core.respWait - Elems(Ids(s.core.ops[o])), s.core.subs, s.owner, p,
                     FinishSend(s.core, result).ops[p])
      {
        FailedSend(s, o, p);
      }
    }
  }

  lemma SendDoneStep(s: State, l: Label)
    requires Inv(s) && NoWrap(s) && Enabled(s, l) && l.SendDone?
    ensures s.core.lastOp.Some? && Inv(Apply(s, l))
  {
    hide FinishSend, OpsOk, LockOk, ReadersOk, ConnsOk, Ended;
    SendFinished(s, s.sendDone.buf[0]);
  }

  // ----- a response

  lemma RepliedAnswers(op: Op, m: Message)
    requires Shaped(op) && Answers(op) && op.kind != Subscribe && !op.resp.closed
    requires m.id in Ids(op) && !Answered(op, m.id) && op.accepted
    ensures |op.resp.buf| < op.resp.cap
    ensures Answers(ReplyTo(op, m))
  {
    RoomForReply(op, m.id);
    var op' := ReplyTo(op, m);
    assert Ids(op') == Ids(op);
    assert op.taken + (op.resp.buf + [m]) == (op.taken + op.resp.buf) + [m];
  }

  lemma RepliedOk(respWait: map<string, OpRef>, subs: map<string, OpRef>, owner: seq<(OpRef, nat)>, o: OpRef,
                  op: Op, m: Message)
    requires OpOk(respWait, subs, owner, o, op) && m.id in respWait && respWait[m.id] == o && op.kind != Subscribe
    ensures OpOk(respWait - {m.id}, subs, owner, o, ReplyTo(op, m))
  {
    var op' := ReplyTo(op, m);
    RepliedAnswers(op, m);
    RepliedWaits(respWait, o, op, op', m);
    hide Waits, Answers, CallerOk, Owned;
    CallerView(op, op');
    assert Owned(owner, o, op') by { LoopOwned(owner, o, op, op'); }
  }

  lemma LoopOwned(owner: seq<(OpRef, nat)>, o: OpRef, op: Op, op': Op)
    requires Owned(owner, o, op) && op'.reqs == op.reqs
    ensures Owned(owner, o, op')
  {
  }

  /** The caller's bookkeeping does not depend on what the loop records about the operation. */
  lemma CallerView(op: Op, op': Op)
    requires CallerOk(op)
    requires op'.kind == op.kind && op'.want == op.want && op'.reqs == op.reqs && op'.phase == op.phase
    requires op'.sendFailed == op.sendFailed && op'.taken == op.taken
    requires op'.placed == op.placed && op'.filled == op.filled
    requires op.resp.closed ==> op'.resp.closed
    ensures CallerOk(op')
  {
    hide FilledFrom;
  }

  lemma RepliedWaits(respWait: map<string, OpRef>, o: OpRef, op: Op, op': Op, m: Message)
    requires Waits(respWait, o, op) && m.id in respWait && respWait[m.id] == o
    requires op'.reqs == op.reqs && op'.accepted == op.accepted && op'.sendFailed == op.sendFailed
    requires op'.answered == op.answered + [m]
    requires op'.resp.closed == op.resp.closed || |op.reqs| == 1
    ensures Waits(respWait - {m.id}, o, op')
  {
    var rest := respWait - {m.id};
    assert Ids(op') == Ids(op);
    forall id | id in Ids(op)
      ensures Answered(op', id) <==> Answered(op, id) || id == m.id
    {
      assert op'.answered[|op.answered|] == m;
      if Answered(op, id) {
        var k :| 0 <= k < |op.answered| && op.answered[k].id == id;
        assert op'.answered[k].id == id;
      }
    }
    if |op.reqs| == 1 {
      assert Ids(op) == [m.id];
    }
  }

  /** The reply to a subscribe request: the operation is closed, with an error or with its subscription registered. */
  lemma SubRepliedOk(respWait: map<string, OpRef>, subs: map<string, OpRef>, subs': map<string, OpRef>,
                     owner: seq<(OpRef, nat)>, o: OpRef, op: Op, m: Message, subid: string)
    requires OpOk(respWait, subs, owner, o, op) && m.id in respWait && respWait[m.id] == o && op.kind == Subscribe
    requires subs' == if SubError(m).Some? then subs else subs[subid := o]
    requires SubError(m) == None ==> DecodeText(m.result) == Some(subid)
    ensures OpOk(respWait - {m.id}, subs', owner, o, ReplyTo(op, m))
  {
    var op' := ReplyTo(op, m);
    RepliedWaits(respWait, o, op, op', m);
    SubRepliedTracked(subs, subs', o, op, op', m, subid);
    CallerView(op, op');
    hide Waits, SubTracked, CallerOk;
    assert Ids(op') == Ids(op);
  }

  lemma SubRepliedTracked(subs: map<string, OpRef>, subs': map<string, OpRef>, o: OpRef, op: Op, op': Op,
                          m: Message, subid: string)
    requires SubTracked(subs, o, op) && op.kind == Subscribe && op.answered == []
    requires op'.kind == Subscribe && op'.answered == [m] && op'.subQuit == op.subQuit && op'.replaced == op.replaced
    requires op'.err == None ==> DecodeText(m.result) == Some(subid)
    requires subs' == if op'.err.Some? then subs else subs[subid := o]
    ensures SubTracked(subs', o, op')
  {
    assert op'.err == None ==> subid in subs' && subs'[subid] == o;
  }

  /** Another operation after a subscription was registered under `subid`: it loses its place if it had that id. */
  lemma DisplacedOk(respWait: map<string, OpRef>, respWait': map<string, OpRef>, subs: map<string, OpRef>,
                    owner: seq<(OpRef, nat)>, o: OpRef, subid: string, p: OpRef, op: Op)
    requires OpOk(respWait, subs, owner, p, op) && p != o
    requires forall id :: (id in respWait && respWait[id] == p) <==> (id in respWait' && respWait'[id] == p)
    ensures OpOk(respWait', subs[subid := o], owner, p,
                 if subid in subs && subs[subid] == p then op.(replaced := true) else op)
  {
    OtherWaits(respWait, respWait', p, op);
    var op' := op.(replaced := true);
    if subid in subs && subs[subid] == p {
      assert Ids(op') == Ids(op);
      assert forall id :: Answered(op, id) <==> Answered(op', id);
    } else {
      DisplacedTracked(subs, o, subid, p, op);
      hide SubTracked, Waits;
    }
  }

  lemma DisplacedTracked(subs: map<string, OpRef>, o: OpRef, subid: string, p: OpRef, op: Op)
    requires SubTracked(subs, p, op) && p != o && !(subid in subs && subs[subid] == p)
    ensures SubTracked(subs[subid := o], p, op)
  {
    var subs' := subs[subid := o];
    forall id | id in subs && subs[id] == p ensures id in subs' && subs'[id] == p {}
  }

  lemma RespondOk(s: State, m: Message, p: OpRef)
    requires OpsOk(s) && Linked(s.core) && m.id in s.core.respWait && p in s.core.ops
    ensures p in Respond(s.core, m).ops
    ensures OpOk(Respond(s.core, m).respWait, Respond(s.core, m).subs, s.owner, p, Respond(s.core, m).ops[p])
  {
    hide OpOk;
    var o := s.core.respWait[m.id];
    var op, c' := s.core.ops[o], Respond(s.core, m);
    var subid := DecodeText(m.result);
    if p == o {
      if op.kind != Subscribe {
        RepliedOk(s.core.respWait, s.core.subs, s.owner, o, op, m);
      } else {
        SubRepliedOk(s.core.respWait, s.core.subs, c'.subs, s.owner, o, op, m,
                     if subid.Some? then subid.value else "");
      }
    } else if op.kind != Subscribe || SubError(m).Some? {
      OtherTables(s.core.respWait, c'.respWait, s.core.subs, s.owner, p, s.core.ops[p]);
    } else {
      DisplacedOk(s.core.respWait, c'.respWait, s.core.subs, s.owner, o, subid.value, p, s.core.ops[p]);
    }
  }

  lemma OtherTables(respWait: map<string, OpRef>, respWait': map<string, OpRef>, subs: map<string, OpRef>,
                    owner: seq<(OpRef, nat)>, p: OpRef, op: Op)
    requires OpOk(respWait, subs, owner, p, op)
    requires forall id :: (id in respWait && respWait[id] == p) <==> (id in respWait' && respWait'[id] == p)
    ensures OpOk(respWait', subs, owner, p, op)
  {
    OtherWaits(respWait, respWait', p, op);
    hide Waits, Shaped, Answers, CallerOk, Owned, SubTracked;
  }

  lemma RespondStep(s: State, m: Message)
    requires Inv(s) && s.pc.Handling? && m.id in s.core.respWait
    ensures Inv(s.(core := Respond(s.core, m)))
  {
    hide OpOk, Respond, ReadersOk, ConnsOk;
    forall p | p in s.core.ops
      ensures p in Respond(s.core, m).ops
      ensures OpOk(Respond(s.core, m).respWait, Respond(s.core, m).subs, s.owner, p, Respond(s.core, m).ops[p])
    {
      RespondOk(s, m, p);
    }
    RespondKeepsPhases(s.core, m);
    RespondKeepsLinks(s.core, m);
  }

  lemma HandleStep(s: State, l: Label)
    requires Inv(s) && Enabled(s, l) && l.HandleNext?
    ensures Inv(Apply(s, l))
  {
    hide OpOk, LockOk, Respond;
    if s.pc.msgs != [] && IsResponse(s.pc.msgs[0]) {
      var m := s.pc.msgs[0];
      if m.id in s.core.respWait {
        RespondStep(s, m);
      } else {
        UnsolicitedResponse(s.core, m);
      }
    }
  }

  lemma UnsolicitedResponse(c: Core, m: Message)
    requires Linked(c) && m.id !in c.respWait
    ensures Respond(c, m) == c
  {
  }

  lemma RespondKeepsPhases(c: Core, m: Message)
    requires Linked(c) && m.id in c.respWait
    ensures Respond(c, m).ops.Keys == c.ops.Keys
    ensures forall p :: p in c.ops ==> SameCaller(c.ops[p], Respond(c, m).ops[p])
  {
    var o, c' := c.respWait[m.id], Respond(c, m);
    var op := ReplyTo(c.ops[o], m);
    assert SameCaller(c.ops[o], op);
    hide ReplyTo, Displace, SameCaller;
    if op.kind == Subscribe && op.err == None {
      DisplaceKeepsPhases(c, DecodeText(m.result).value);
      assert c'.ops == Displace(c, DecodeText(m.result).value)[o := op];
    } else {
      SameCallers(c.ops);
      assert c'.ops == c.ops[o := op];
    }
  }

  lemma DisplaceKeepsPhases(c: Core, id: string)
    requires Linked(c)
    ensures Displace(c, id).Keys == c.ops.Keys
    ensures forall p :: p in c.ops ==> SameCaller(c.ops[p], Displace(c, id)[p])
  {
  }

  lemma SameCallers(ops: map<OpRef, Op>)
    ensures forall p :: p in ops ==> SameCaller(ops[p], ops[p])
  {
  }

  lemma RespondKeepsLinks(c: Core, m: Message)
    requires Linked(c) && m.id in c.respWait && Respond(c, m).ops.Keys == c.ops.Keys
    ensures Linked(Respond(c, m))
    ensures Respond(c, m).lastOp == c.lastOp && Respond(c, m).lockFree == c.lockFree
    ensures Respond(c, m).reading == c.reading
  {
    hide ReplyTo, Displace;
  }

  predicate SameCaller(op: Op, op': Op) {
    op'.phase == op.phase && op'.accepted == op.accepted
  }

  // ----- closing everything

  lemma ClosedShape(c: Core, o: OpRef, err: string)
    requires o in c.ops && Shaped(c.ops[o]) && Answers(c.ops[o])
    requires Waits(c.respWait, o, c.ops[o]) && SubTracked(c.subs, o, c.ops[o])
    ensures Shaped(EndSub(c, o, err, CloseOne(c, o, err))) && Answers(EndSub(c, o, err, CloseOne(c, o, err)))
  {
    var op, op' := c.ops[o], EndSub(c, o, err, CloseOne(c, o, err));
    assert Ids(op') == Ids(op);
    if o in c.respWait.Values {
      var id :| id in c.respWait && c.respWait[id] == o;
    }
    if o in c.subs.Values {
      var id :| id in c.subs && c.subs[id] == o;
    }
    hide Waits;
  }

  lemma ClosedOk(c: Core, owner: seq<(OpRef, nat)>, o: OpRef, err: string)
    requires o in c.ops && OpOk(c.respWait, c.subs, owner, o, c.ops[o])
    ensures OpOk(map[], map[], owner, o, EndSub(c, o, err, CloseOne(c, o, err)))
  {
    hide Waits, SubTracked, Shaped, Answers, CallerOk;
    ClosedShape(c, o, err);
    CallerView(c.ops[o], EndSub(c, o, err, CloseOne(c, o, err)));
    ClosedWaits(c, o, err);
    ClosedTracked(c, o, err);
  }

  lemma ClosedWaits(c: Core, o: OpRef, err: string)
    requires o in c.ops && Waits(c.respWait, o, c.ops[o])
    ensures Waits(map[], o, EndSub(c, o, err, CloseOne(c, o, err)))
  {
    var op, op' := c.ops[o], EndSub(c, o, err, CloseOne(c, o, err));
    assert Ids(op') == Ids(op);
    assert forall id :: Answered(op, id) <==> Answered(op', id);
  }

  lemma ClosedTracked(c: Core, o: OpRef, err: string)
    requires o in c.ops && Waits(c.respWait, o, c.ops[o]) && SubTracked(c.subs, o, c.ops[o]) && Answers(c.ops[o])
    ensures SubTracked(map[], o, EndSub(c, o, err, CloseOne(c, o, err)))
  {
    if o in c.respWait.Values {
      var id :| id in c.respWait && c.respWait[id] == o;
    }
    if o in c.subs.Values {
      var id :| id in c.subs && c.subs[id] == o;
    }
  }

  lemma CloseAllOk(s: State, err: string)
    requires OpsOk(s)
    requires Linked(s.core)
    ensures forall o :: o in s.core.ops ==> OpOk(map[], map[], s.owner, o, CloseOps(s.core, err).ops[o])
  {
    hide OpOk;
    forall o | o in s.core.ops ensures OpOk(map[], map[], s.owner, o, CloseOps(s.core, err).ops[o]) {
      ClosedOk(s.core, s.owner, o, err);
    }
  }

  lemma CloseKeepsPhases(c: Core, err: string)
    requires Linked(c)
    ensures var c' := CloseOps(c, err);
      && Linked(c') && c'.ops.Keys == c.ops.Keys && c'.respWait == map[] && c'.subs == map[]
      && c'.lastOp == c.lastOp && c'.lockFree == c.lockFree && c'.reading == c.reading
      && forall p :: p in c.ops ==> SameCaller(c.ops[p], c'.ops[p])
  {
  }

  lemma CloseCore(s: State, err: string)
    requires Inv(s)
    ensures Inv(s.(core := CloseOps(s.core, err)))
  {
    hide OpOk, CloseOps, ReadersOk, ConnsOk;
    CloseAllOk(s, err);
    CloseKeepsPhases(s.core, err);
  }

  lemma CloseStep(s: State, l: Label)
    requires Inv(s) && Enabled(s, l) && (l.TakeReadError? || l.CloseClient?)
    ensures Inv(Apply(s, l))
  {
    hide OpOk, CloseOps, LockOk;
    var err := if l.CloseClient? then CLIENT_QUIT else s.readers[l.reader].stage.err;
    CloseCore(s, err);
    CloseKeepsPhases(s.core, err);
    if l.TakeReadError? {
      assert (s.readers - {l.reader}).Keys == {};
    }
  }

  // ----- readers

  lemma ReaderStep(s: State, l: Label)
    requires Inv(s) && Enabled(s, l)
    requires l.ReaderGets? || l.ReaderFails? || l.TakeMessages? || l.DrainMessages? || l.DrainError? || l.QuitNoReader?
             || l.OldReaderGone?
    ensures Inv(Apply(s, l))
  {
    hide OpOk, LockOk;
    var s' := Apply(s, l);
    if l.OldReaderGone? {
      assert l.reader in s'.readers && s'.readers.Keys == {l.reader};
    } else if l.DrainError? {
      assert s'.readers.Keys == {};
    } else if !l.QuitNoReader? {
      assert s'.readers.Keys == s.readers.Keys;
    }
  }

  // ----- every run

  lemma OwnerGrows(s: State, l: Label)
    requires Enabled(s, l) && Linked(s.core) && (l.SendDone? ==> s.core.lastOp.Some?)
    ensures s.owner <= Apply(s, l).owner
  {
    hide Register, FinishSend, Respond, CloseOps, InspectOp;
  }

  /** Each step of the client keeps the invariant, as long as ids have not wrapped. */
  lemma StepKeepsInv(s: State, l: Label)
    requires Inv(s) && NoWrap(s) && Enabled(s, l)
    ensures l.SendDone? ==> s.core.lastOp.Some?
    ensures Inv(Apply(s, l))
    ensures s.owner <= Apply(s, l).owner
  {
    hide Inv, Apply, Enabled, Linked;
    LinkedOf(s);
    match l {
      case NewOp(_, _, _) => CreationStep(s, l);
      case NewMessage(_, _, _) => CreationStep(s, l);
      case MarshalFails(_) => PhaseStep(s, l);
      case Offer(_) => PhaseStep(s, l);
      case Accept(_) => AcceptStep(s, l);
      case GiveUp(_) => PhaseStep(s, l);
      case SeeQuit(_) => PhaseStep(s, l);
      case DialFails(_) => WriterStep(s, l);
      case Dial(_, _) => WriterStep(s, l);
      case HandOver(_, _) => HandOverStep(s, l);
      case DialAbandoned(_) => WriterStep(s, l);
      case Write(_, _, _) => WriterStep(s, l);
      case Report(_, _) => ReportStep(s, l);
      case SendDone => SendDoneStep(s, l);
      case ReaderGets(_, _) => ReaderStep(s, l);
      case ReaderFails(_, _) => ReaderStep(s, l);
      case TakeMessages(_) => ReaderStep(s, l);
      case HandleNext => HandleStep(s, l);
      case TakeReadError(_) => CloseStep(s, l);
      case OldReaderGone(_, _) => ReaderStep(s, l);
      case CloseClient => CloseStep(s, l);
      case DrainMessages(_) => ReaderStep(s, l);
      case DrainError(_) => ReaderStep(s, l);
      case QuitNoReader => ReaderStep(s, l);
      case Receive(_) => WaitStep(s, l);
      case Inspect(_) => WaitStep(s, l);
      case BatchDone(_) => PhaseStep(s, l);
    }
    OwnerGrows(s, l);
  }

  lemma LinkedOf(s: State)
    requires Inv(s)
    ensures Linked(s.core)
  {
  }
}
