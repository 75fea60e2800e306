/**
 What every run of the client guarantees, as long as it has drawn at most 2^32 ids.
 */
module ClientGuarantees {
  import opened GoRuntime
  import opened ClientModel
  import opened ClientProtocol
  import opened ClientInvariant

  /** One step; the references it follows are checked to be there by EnabledIsDefined below. */
  ghost predicate Step(s: State, l: Label, s': State) {
    Enabled(s, l) && Linked(s.core) && (l.SendDone? ==> s.core.lastOp.Some?) && s' == Apply(s, l)
  }

  ghost predicate IsRun(states: seq<State>, labels: seq<Label>) {
    && |states| == |labels| + 1
    && (exists conn, reader :: states[0] == Init(conn, reader))
    && forall i :: 0 <= i < |labels| ==> Step(states[i], labels[i], states[i + 1])
  }

  ghost predicate EndsIn(states: seq<State>, labels: seq<Label>, s: State) {
    IsRun(states, labels) && states[|labels|] == s
  }

  ghost predicate Reachable(s: State) {
    exists states, labels :: EndsIn(states, labels, s)
  }

  lemma {:induction false} RunKeepsInv(states: seq<State>, labels: seq<Label>, n: nat)
    requires IsRun(states, labels) && n <= |labels| && NoWrap(states[n])
    ensures Inv(states[n])
    ensures forall i :: 0 <= i <= n ==> states[i].owner <= states[n].owner
  {
    hide Inv, Apply, Enabled;
    if n == 0 {
      var conn, reader :| states[0] == Init(conn, reader);
      InitOk(conn, reader);
    } else {
      assert Step(states[n - 1], labels[n - 1], states[n]);
      OwnerGrows(states[n - 1], labels[n - 1]);
      RunKeepsInv(states, labels, n - 1);
      StepKeepsInv(states[n - 1], labels[n - 1]);
    }
  }

  lemma ReachableStep(s: State, l: Label, s': State)
    requires Reachable(s) && Step(s, l, s')
    ensures Reachable(s')
  {
    hide Enabled, Apply;
    var states, labels :| EndsIn(states, labels, s);
    var states', labels' := states + [s'], labels + [l];
    assert states'[0] == states[0];
    forall i | 0 <= i < |labels'| ensures Step(states'[i], labels'[i], states'[i + 1]) {
      if i < |labels| {
        assert Step(states[i], labels[i], states[i + 1]);
      }
    }
    assert EndsIn(states', labels', s');
  }

  lemma ReachableInit(conn: ConnRef, reader: ReaderRef)
    ensures Reachable(Init(conn, reader))
  {
    var states: seq<State>, labels: seq<Label> := [Init(conn, reader)], [];
    assert EndsIn(states, labels, Init(conn, reader));
  }

  lemma ReachableInv(s: State)
    requires Reachable(s) && NoWrap(s)
    ensures Inv(s)
  {
    hide Inv;
    var states, labels :| EndsIn(states, labels, s);
    RunKeepsInv(states, labels, |labels|);
  }

  lemma ReachableOp(s: State, o: OpRef)
    requires Reachable(s) && NoWrap(s) && o in s.core.ops
    ensures OpOk(s.core.respWait, s.core.subs, s.owner, o, s.core.ops[o])
  {
    ReachableInv(s);
  }

  /** No reference the loop follows is ever missing; in particular lastOp is set whenever a send result arrives. */
  lemma EnabledIsDefined(s: State, l: Label)
    requires Reachable(s) && NoWrap(s) && Enabled(s, l)
    ensures Linked(s.core) && (l.SendDone? ==> s.core.lastOp.Some?)
  {
    ReachableInv(s);
  }

  /**
   Channel safety. The reply channel of an operation is never sent to when full or closed and never
   closed twice; replies matched to an operation and ids it still waits for never exceed its ids; a
   closed operation waits for nothing.
   */
  lemma ChannelSafety(s: State, o: OpRef)
    requires Reachable(s) && NoWrap(s) && o in s.core.ops
    ensures var op := s.core.ops[o];
      && !op.resp.fault
      && |op.answered| + |Pending(s.core, o)| <= |op.reqs|
      && (op.resp.closed ==> Pending(s.core, o) == {})
  {
    hide Reachable, Inv;
    var op, pending := s.core.ops[o], Pending(s.core, o);
    ReachableOp(s, o);
    AnsweredIdsFacts(op);
    var answered := Elems(AnsweredIds(op));
    assert answered !! pending && answered + pending <= Elems(Ids(op));
    ElemsSize(AnsweredIds(op));
    ElemsSize(Ids(op));
    SubsetSize(answered + pending, Elems(Ids(op)));
  }

  /**
   The loop can always hand over a response it has matched: there is room in the channel of a call,
   and the channel of a subscribe request is still open.
   */
  lemma RespondNeverBlocks(s: State, m: Message)
    requires Reachable(s) && NoWrap(s) && m.id in s.core.respWait
    ensures var o := s.core.respWait[m.id];
      && o in s.core.ops && !s.core.ops[o].resp.closed
      && (s.core.ops[o].kind != Subscribe ==> |s.core.ops[o].resp.buf| < s.core.ops[o].resp.cap)
  {
    hide Reachable;
    ReachableInv(s);
    var op := s.core.ops[s.core.respWait[m.id]];
    assert OpOk(s.core.respWait, s.core.subs, s.owner, s.core.respWait[m.id], op);
    RoomForReply(op, m.id);
  }

  /**
   No request is stranded. An accepted operation that no longer waits for any id was answered in
   full, or closed with an error, or its caller was told that the send failed.
   */
  lemma NotStranded(s: State, o: OpRef)
    requires Reachable(s) && NoWrap(s) && o in s.core.ops && s.core.ops[o].accepted
    requires Pending(s.core, o) == {}
    ensures var op := s.core.ops[o];
      || |op.answered| == |op.reqs|
      || (op.resp.closed && op.err.Some?)
      || (op.sendFailed && op.phase == Returned(false))
  {
    hide Reachable, Inv;
    var op := s.core.ops[o];
    ReachableOp(s, o);
    if !(op.resp.closed && op.err.Some?) && !op.sendFailed {
      forall id | id in Ids(op) ensures Answered(op, id) {
        assert id !in Pending(s.core, o);
      }
      AllAnswered(s.owner, o, op);
    }
  }

  /**
   Nobody waits for a wake-up that cannot come: a caller blocked in wait has something to receive,
   or an id it still waits for is in the table. Once the loop has quit, it always has something.
   */
  lemma WaiterCanWake(s: State, o: OpRef)
    requires Reachable(s) && NoWrap(s) && At(s, o, Waiting) && !Complete(s.core.ops[o])
    ensures s.core.ops[o].resp.buf != [] || s.core.ops[o].resp.closed || Pending(s.core, o) != {}
    ensures s.pc.Draining? || s.pc.Quit? ==> s.core.ops[o].resp.buf != [] || s.core.ops[o].resp.closed
  {
    hide Reachable;
    var op := s.core.ops[o];
    ReachableInv(s);
    assert OpOk(s.core.respWait, s.core.subs, s.owner, o, op);
    if Pending(s.core, o) == {} {
      NotStranded(s, o);
    }
  }

  /** After the loop has quit nothing is pending, and an operation it accepted is settled. */
  lemma NothingPendingAfterQuit(s: State)
    requires Reachable(s) && NoWrap(s) && (s.pc.Draining? || s.pc.Quit?)
    ensures s.core.respWait == map[] && s.core.subs == map[]
    ensures forall o :: o in s.core.ops && s.core.ops[o].accepted ==>
      var op := s.core.ops[o];
      |op.answered| == |op.reqs| || (op.resp.closed && op.err.Some?) || (op.sendFailed && op.phase == Returned(false))
  {
    hide Reachable;
    ReachableInv(s);
    forall o | o in s.core.ops && s.core.ops[o].accepted
      ensures var op := s.core.ops[o];
        |op.answered| == |op.reqs| || (op.resp.closed && op.err.Some?) || (op.sendFailed && op.phase == Returned(false))
    {
      NotStranded(s, o);
    }
  }

  /**
   The write lock. At most one goroutine is between acceptance and its report, it is the one the
   loop remembers, and its report never blocks, also after the loop has quit.
   */
  lemma WriteLock(s: State)
    requires Reachable(s) && NoWrap(s)
    ensures forall o, p :: o in s.core.ops && p in s.core.ops ==>
      Locking(s.core.ops[o].phase) && Locking(s.core.ops[p].phase) ==> o == p
    ensures forall o :: o in s.core.ops && Locking(s.core.ops[o].phase) ==>
      !s.core.lockFree && s.core.lastOp == Some(o) && s.sendDone.buf == [] && s.sendDone.cap == 1
    ensures !s.sendDone.fault
    ensures s.sendDone.buf != [] ==> s.core.lastOp.Some?
  {
    ReachableInv(s);
  }

  /** One reader, on the connection in use, while reading; none otherwise, and none once the loop has quit. */
  lemma OneReader(s: State)
    requires Reachable(s) && NoWrap(s)
    ensures |s.readers| == if s.core.reading && s.pc != Quit then 1 else 0
    ensures forall r :: r in s.readers ==> s.readers[r].conn == s.conn
  {
    hide Reachable;
    ReachableInv(s);
    if s.core.reading && s.pc != Quit {
      var r :| r in s.readers && s.readers.Keys == {r} && s.readers[r].conn == s.conn;
      assert |s.readers.Keys| == 1;
    }
  }

  /** Every connection the loop took over is closed when it quits. */
  lemma ConnectionsClosed(s: State)
    requires Reachable(s) && NoWrap(s) && s.pc == Quit
    ensures s.adopted <= s.closedConns
  {
    ReachableInv(s);
  }

  /** A caller never uses a reply or an element that is not there, and a closed call carries an error. */
  lemma NoNilDereference(s: State, o: OpRef)
    requires Reachable(s) && NoWrap(s) && o in s.core.ops
    ensures var op := s.core.ops[o];
      !op.phase.NilDereference? && (op.kind != Subscribe && op.resp.closed ==> op.err.Some?)
  {
    hide Reachable, Inv;
    ReachableOp(s, o);
  }

  /**
   A call or batch call that returns without an error had each of its elements answered exactly
   once: every element holds a reply with its own id, and as many replies were received as there
   are elements.
   */
  lemma EachElementAnswered(s: State, o: OpRef)
    requires Reachable(s) && NoWrap(s) && At(s, o, Returned(true)) && s.core.ops[o].kind != Subscribe
    ensures var op := s.core.ops[o];
      && |op.taken| == op.want == |op.reqs|
      && forall i: nat :: i in op.filled <==> i < op.want
    ensures forall i :: 0 <= i < s.core.ops[o].want ==>
      var op := s.core.ops[o]; op.filled[i] in op.answered && op.filled[i].id == IdOf(op.reqs[i])
    ensures forall i, j :: 0 <= i < j < s.core.ops[o].want ==> s.core.ops[o].filled[i] != s.core.ops[o].filled[j]
  {
    hide Reachable, Inv, Waits, SubTracked;
    var op := s.core.ops[o];
    ReachableOp(s, o);
    ReturnedFull(op);
    ReturnedAnswers(op);
    hide Shaped, Answers, CallerOk;
    forall i, j | 0 <= i < j < op.want ensures op.filled[i] != op.filled[j] {
      if op.filled[i] == op.filled[j] {
        IdOwner(s.owner, o, op, o, op, i, j);
      }
    }
  }

  lemma ReturnedFull(op: Op)
    requires Shaped(op) && CallerOk(op) && op.phase == Returned(true) && op.kind != Subscribe
    ensures op.placed == op.taken && |op.taken| == op.want == |op.reqs|
    ensures forall i: nat :: i in op.filled <==> i < op.want
    ensures forall i :: i in op.filled ==> op.filled[i].id == IdOf(op.reqs[i]) && op.filled[i] in op.placed
  {
    assert op.filled.Keys <= Below(op.want);
    SubsetSize(op.filled.Keys, Below(op.want));
  }

  lemma ReturnedAnswers(op: Op)
    requires Answers(op) && op.kind != Subscribe
    ensures forall m :: m in op.taken ==> m in op.answered
  {
  }
}
