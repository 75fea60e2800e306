/**
 The client's side of its connections: each request is written once, connections are taken into use
 before anything is read from them, and messages pass from a connection to the handlers in order.
 */
module ConversationClient {
  import opened ClientModel
  import opened ClientProtocol
  import opened ClientInvariant
  import opened ClientHistory
  import opened Conversation
  import C = Composition

  // ----- frames the client wrote

  /** The request was drawn by an operation that the loop accepted and that is past writing. */
  ghost predicate SentBy(s: State, r: Request) {
    && C.Issued(s, r)
    && var op := s.core.ops[s.owner[r.serial - 1].0]; op.accepted && PastWriting(op)
  }

  /** Request i of a frame was sent so, and drawn at place i. */
  ghost predicate SentAt(s: State, f: Frame, i: nat) {
    i < |f.reqs| && SentBy(s, f.reqs[i]) && s.owner[f.reqs[i].serial - 1].1 == i
  }

  /** Every frame on the wire was sent by such operations, and no request is in two frames. */
  ghost predicate WrittenOk(s: State) {
    && (forall f, i :: f in s.written && 0 <= i < |f.reqs| ==> SentAt(s, f, i))
    && (forall f, g, i, j :: f in s.written && g in s.written && 0 <= i < |f.reqs| && 0 <= j < |g.reqs| ==>
          f.reqs[i] == g.reqs[j] ==> f == g)
  }

  lemma SentByStays(s: State, l: Label, s': State, r: Request)
    requires SentBy(s, r) && OpsSuccessor(s, l, s'.core.ops) && Grows(s, s')
    ensures SentBy(s', r) && s'.owner[r.serial - 1] == s.owner[r.serial - 1]
  {
    C.IssuedGrows(s, s', r);
    var o := s.owner[r.serial - 1].0;
    assert s'.owner[r.serial - 1] == s.owner[r.serial - 1];
    assert OpSuccessor(Handled(s, l), TakesOver(s, l, o), s.core.ops[o], s'.core.ops[o]);
  }

  /** The requests of an operation are its own. */
  lemma OwnRequest(s: State, o: OpRef, i: nat)
    requires Inv(s) && o in s.core.ops && i < |s.core.ops[o].reqs|
    ensures C.Issued(s, s.core.ops[o].reqs[i]) && s.owner[s.core.ops[o].reqs[i].serial - 1] == (o, i)
    ensures Locking(s.core.ops[o].phase) ==> s.core.ops[o].accepted
  {
    hide LockOk, ReadersOk, ConnsOk, Ended, Answers, CallerOk, Waits, SubTracked;
    assert OpOk(s.core.respWait, s.core.subs, s.owner, o, s.core.ops[o]);
    hide Inv;
  }

  lemma WriteMoves(s: State, l: Label)
    requires ClientEnabled(s, l) && l.Write?
    ensures At(s, l.o, Writing) && l.o in Apply(s, l).core.ops
    ensures Apply(s, l).core.ops[l.o] == s.core.ops[l.o].(phase := Reporting(l.ok))
  {
  }

  /** An operation writes its own requests, which nobody wrote before. */
  lemma NewFrameSent(s: State, l: Label, f: Frame, i: nat)
    requires Inv(s) && ClientEnabled(s, l) && l.Write? && l.o in s.core.ops && Grows(s, Apply(s, l))
    requires f.reqs == s.core.ops[l.o].reqs && i < |f.reqs|
    ensures SentAt(Apply(s, l), f, i) && !SentBy(s, f.reqs[i])
  {
    hide Inv, Apply, Enabled;
    WriteMoves(s, l);
    OwnRequest(s, l.o, i);
    C.IssuedGrows(s, Apply(s, l), f.reqs[i]);
    assert Apply(s, l).owner[f.reqs[i].serial - 1] == s.owner[f.reqs[i].serial - 1];
  }

  lemma FrameSent(s: State, l: Label, f: Frame, i: nat)
    requires Inv(s) && ClientEnabled(s, l) && WrittenOk(s) && f in Apply(s, l).written && i < |f.reqs|
    ensures SentAt(Apply(s, l), f, i) && (f !in s.written ==> !SentBy(s, f.reqs[i]))
  {
    hide Inv, Apply, Enabled, Grows, OpsSuccessor, SentBy;
    StepGrows(s, l);
    if f in s.written {
      assert SentAt(s, f, i);
      SentByStays(s, l, Apply(s, l), f.reqs[i]);
    } else {
      C.WrittenBy(s, l);
      WriteMoves(s, l);
      NewFrameSent(s, l, f, i);
    }
  }

  /** New frames hold requests nobody wrote before, so no request is in two frames. */
  lemma NoRequestTwice(s: State, s': State)
    requires WrittenOk(s)
    requires forall f, i :: f in s'.written && 0 <= i < |f.reqs| ==>
      SentAt(s', f, i) && (f !in s.written ==> !SentBy(s, f.reqs[i]))
    requires forall f, g :: f in s'.written - s.written && g in s'.written - s.written ==> f == g
    ensures WrittenOk(s')
  {
    hide SentBy;
    forall f, g, i, j | f in s'.written && g in s'.written && 0 <= i < |f.reqs| && 0 <= j < |g.reqs|
      ensures f.reqs[i] == g.reqs[j] ==> f == g
    {
      assert f in s.written ==> SentAt(s, f, i);
      assert g in s.written ==> SentAt(s, g, j);
      assert SentAt(s', f, i) && SentAt(s', g, j);
      if f !in s.written && g !in s.written {
        assert f in s'.written - s.written && g in s'.written - s.written;
      }
    }
  }

  lemma WrittenStep(s: State, l: Label)
    requires Inv(s) && ClientEnabled(s, l) && WrittenOk(s)
    ensures WrittenOk(Apply(s, l)) && s.written <= Apply(s, l).written
  {
    hide Inv, Apply, Enabled, SentBy, SentAt, WrittenOk;
    C.WrittenBy(s, l);
    forall f, i | f in Apply(s, l).written && 0 <= i < |f.reqs|
      ensures SentAt(Apply(s, l), f, i) && (f !in s.written ==> !SentBy(s, f.reqs[i]))
    {
      FrameSent(s, l, f, i);
    }
    OneFrameAtATime(s, l);
    NoRequestTwice(s, Apply(s, l));
  }

  /** A step puts at most one frame on the wire. */
  lemma OneFrameAtATime(s: State, l: Label)
    requires ClientEnabled(s, l)
    ensures forall f, g :: f in Apply(s, l).written - s.written && g in Apply(s, l).written - s.written ==> f == g
  {
    hide Register, FinishSend, Respond, CloseOps, InspectOp;
  }

  // ----- connections

  /** Messages the loop has taken and not handled, and those its reader holds. */
  function OfLoop(pc: LoopPc): seq<Message> {
    if pc.Handling? then pc.msgs else []
  }

  function OfReader(stage: Stage): seq<Message> {
    if stage.HasMessages? then stage.msgs else []
  }

  /** The loop still handles messages. */
  predicate Open(pc: LoopPc) {
    !pc.Draining? && !pc.Quit?
  }

  /** How a step moves connections: only by handing over a new one, or taking it into use. */
  lemma ConnMoves(s: State, l: Label)
    requires ClientEnabled(s, l)
    ensures var s' := Apply(s, l);
      && s'.adopted == (if l.HandOver? then s.adopted + {s.core.ops[l.o].phase.newConn} else s.adopted)
      && (s'.pc.Awaiting? ==> s'.pc == s.pc || (l.HandOver? && s'.pc.next == s.core.ops[l.o].phase.newConn))
      && (s'.conn != s.conn ==>
            || (l.HandOver? && !s.core.reading && s'.conn == s.core.ops[l.o].phase.newConn)
            || (l.OldReaderGone? && s.pc == Awaiting(s'.conn) && s'.pc == Running))
  {
    hide Register, FinishSend, Respond, CloseOps, InspectOp;
  }

  /** Whoever holds a connection that was dialled held it before the step, or has just dialled it. */
  ghost predicate DialOk(s: State, l: Label, s': State, o: OpRef) {
    o in s'.core.ops && s'.core.ops[o].phase.Dialled? ==>
      || (l.Dial? && l.o == o && s'.core.ops[o].phase.newConn !in s.adopted)
      || (o in s.core.ops && s.core.ops[o].phase == s'.core.ops[o].phase && !(l.HandOver? && l.o == o))
  }

  lemma DialledByCaller(s: State, l: Label, o: OpRef)
    requires ClientEnabled(s, l)
    requires l.NewOp? || l.NewMessage? || l.MarshalFails? || l.Offer? || l.Accept? || l.GiveUp? || l.SeeQuit?
             || l.BatchDone? || l.Receive?
    ensures DialOk(s, l, Apply(s, l), o)
  {
    hide Linked;
  }

  lemma DialledByDialler(s: State, l: Label, o: OpRef)
    requires ClientEnabled(s, l) && (l.DialFails? || l.Dial? || l.DialAbandoned?)
    ensures DialOk(s, l, Apply(s, l), o)
  {
    hide Linked;
  }

  lemma DialledByHandOver(s: State, l: Label, o: OpRef)
    requires ClientEnabled(s, l) && l.HandOver?
    ensures DialOk(s, l, Apply(s, l), o)
  {
    hide Linked;
    assert Apply(s, l).core.ops == s.core.ops[l.o := s.core.ops[l.o].(phase := Writing)];
  }

  lemma DialledByWriter(s: State, l: Label, o: OpRef)
    requires ClientEnabled(s, l) && l.Write?
    ensures DialOk(s, l, Apply(s, l), o)
  {
    hide Linked;
    assert Apply(s, l).core.ops == s.core.ops[l.o := s.core.ops[l.o].(phase := Reporting(l.ok))];
  }

  lemma DialledByReporter(s: State, l: Label, o: OpRef)
    requires ClientEnabled(s, l) && l.Report?
    ensures DialOk(s, l, Apply(s, l), o)
  {
    hide Linked;
    var phase := if s.core.ops[l.o].phase.ok then Waiting else Returned(false);
    assert Apply(s, l).core.ops == s.core.ops[l.o := s.core.ops[l.o].(phase := phase)];
  }

  lemma DialledByReader(s: State, l: Label, o: OpRef)
    requires ClientEnabled(s, l)
    requires l.ReaderGets? || l.ReaderFails? || l.TakeMessages? || l.OldReaderGone? || l.DrainMessages?
             || l.DrainError? || l.QuitNoReader?
    ensures DialOk(s, l, Apply(s, l), o)
  {
    hide Linked;
  }

  lemma DialledMoves(s: State, l: Label, o: OpRef)
    requires ClientEnabled(s, l)
    ensures DialOk(s, l, Apply(s, l), o)
  {
    hide Apply, ClientEnabled, DialOk;
    match l {
      case HandleNext => DialledByLoop(s, l, o);
      case TakeReadError(_) => DialledByLoop(s, l, o);
      case CloseClient => DialledByLoop(s, l, o);
      case SendDone => DialledByLoop(s, l, o);
      case Inspect(_) => DialledByInspect(s, l, o);
      case DialFails(_) => DialledByDialler(s, l, o);
      case Dial(_, _) => DialledByDialler(s, l, o);
      case DialAbandoned(_) => DialledByDialler(s, l, o);
      case HandOver(_, _) => DialledByHandOver(s, l, o);
      case Write(_, _, _) => DialledByWriter(s, l, o);
      case Report(_, _) => DialledByReporter(s, l, o);
      case ReaderGets(_, _) => DialledByReader(s, l, o);
      case ReaderFails(_, _) => DialledByReader(s, l, o);
      case TakeMessages(_) => DialledByReader(s, l, o);
      case OldReaderGone(_, _) => DialledByReader(s, l, o);
      case DrainMessages(_) => DialledByReader(s, l, o);
      case DrainError(_) => DialledByReader(s, l, o);
      case QuitNoReader => DialledByReader(s, l, o);
      case _ => DialledByCaller(s, l, o);
    }
  }

  lemma DialledByLoop(s: State, l: Label, o: OpRef)
    requires ClientEnabled(s, l) && (l.HandleNext? || l.TakeReadError? || l.CloseClient? || l.SendDone?)
    ensures DialOk(s, l, Apply(s, l), o)
  {
    hide Apply, Enabled;
    if o in Apply(s, l).core.ops {
      StepPhases(s, l, o);
    }
  }

  lemma DialledByInspect(s: State, l: Label, o: OpRef)
    requires ClientEnabled(s, l) && l.Inspect?
    ensures DialOk(s, l, Apply(s, l), o)
  {
    InspectPhase(s.core.ops[l.o]);
    hide Linked, InspectOp;
  }

  /** The loop's own steps leave phases alone. */
  lemma StepPhases(s: State, l: Label, o: OpRef)
    requires ClientEnabled(s, l) && o in Apply(s, l).core.ops
    ensures l.HandleNext? || l.TakeReadError? || l.CloseClient? || l.SendDone? ==>
      o in s.core.ops && Apply(s, l).core.ops[o].phase == s.core.ops[o].phase
    ensures l.Inspect? && o == l.o ==> !Apply(s, l).core.ops[o].phase.Dialled?
  {
    if l.HandleNext? {
      HandledOps(s, l);
      if AtHand(s).Some? {
        if AtHand(s).value.id in s.core.respWait {
          RespondKeepsPhases(s.core, AtHand(s).value);
        } else {
          UnsolicitedResponse(s.core, AtHand(s).value);
        }
      }
      hide Respond, Apply;
    } else if l.Inspect? {
      InspectPhase(s.core.ops[l.o]);
      hide InspectOp;
    } else if l.TakeReadError? || l.CloseClient? {
      ClosedOps(s, l);
      hide Apply;
      var err :| Apply(s, l).core.ops == CloseOps(s.core, err).ops;
      CloseKeepsPhases(s.core, err);
      hide CloseOps;
    }
  }

  // ----- each step keeps connections fresh

  ghost predicate DialledFresh(s: State) {
    forall o :: o in s.core.ops && s.core.ops[o].phase.Dialled? ==> s.core.ops[o].phase.newConn !in s.adopted
  }

  lemma DialledStep(s: State, l: Label)
    requires Inv(s) && ClientEnabled(s, l) && DialledFresh(s)
    ensures DialledFresh(Apply(s, l))
  {
    var s' := Apply(s, l);
    OnlyHolder(s);
    assert l.HandOver? ==> l.o in s.core.ops && s.core.ops[l.o].phase.Dialled?;
    ConnMoves(s, l);
    hide Inv, Apply, Enabled;
    forall o | o in s'.core.ops && s'.core.ops[o].phase.Dialled?
      ensures s'.core.ops[o].phase.newConn !in s'.adopted
    {
      DialledMoves(s, l, o);
    }
  }

  lemma OnlyHolder(s: State)
    requires Inv(s)
    ensures forall o, p :: o in s.core.ops && p in s.core.ops ==>
      s.core.ops[o].phase.Dialled? && s.core.ops[p].phase.Dialled? ==> o == p
    ensures s.conn in s.adopted
  {
    hide OpsOk, ReadersOk, Ended;
  }

  // ----- the passage from the wire to the handlers

  /** What the loop and a reader hold, in the order in which it will be handled. */
  function Remaining(s: State, r: ReaderRef): seq<Message>
    requires r in s.readers
  {
    OfLoop(s.pc) + OfReader(s.readers[r].stage)
  }

  /** The loop handles a message it took. */
  predicate TakesNext(s: State, l: Label) {
    l.HandleNext? && s.pc.Handling? && s.pc.msgs != []
  }

  /** On the same connection the same remains, less the message just handled; a new connection starts empty. */
  ghost predicate PassageMoved(s: State, l: Label, s': State, r: ReaderRef) {
    r in s'.readers && Open(s'.pc) ==>
      && Open(s.pc)
      && if s'.conn != s.conn then Remaining(s', r) == []
         else
           && r in s.readers
           && if TakesNext(s, l) then Remaining(s, r) == [s.pc.msgs[0]] + Remaining(s', r)
              else Remaining(s', r) == Remaining(s, r)
  }

  lemma HandlePassage(s: State, l: Label, r: ReaderRef)
    requires ClientEnabled(s, l) && l.HandleNext?
    ensures PassageMoved(s, l, Apply(s, l), r)
  {
    hide Respond, Linked;
    if s.pc.msgs != [] {
      assert s.pc.msgs == [s.pc.msgs[0]] + s.pc.msgs[1..];
    }
  }

  /** There is one reader while reading, none otherwise, and it reads the connection in use. */
  ghost predicate ReadersHere(s: State) {
    && (!s.core.reading ==> s.readers == map[])
    && (forall r, q :: r in s.readers && q in s.readers ==> r == q)
    && (forall r :: r in s.readers ==> s.readers[r].conn == s.conn)
    && s.conn in s.adopted && (s.pc.Awaiting? ==> s.core.reading)
  }

  lemma OneReaderHere(s: State)
    requires Inv(s)
    ensures ReadersHere(s)
  {
    hide OpsOk, LockOk, Ended;
  }

  lemma ReaderPassage(s: State, l: Label, r: ReaderRef)
    requires ReadersHere(s) && ClientEnabled(s, l) && (l.ReaderFails? || l.TakeMessages?)
    ensures PassageMoved(s, l, Apply(s, l), r)
  {
    hide Linked;
    assert s.readers[l.reader].stage.HasMessages? ==>
      [] + s.readers[l.reader].stage.msgs == s.readers[l.reader].stage.msgs + [];
  }

  lemma NewReaderPassage(s: State, l: Label, r: ReaderRef)
    requires ReadersHere(s) && ClientEnabled(s, l) && l.OldReaderGone?
    requires s.pc.Awaiting? ==> s.pc.next != s.conn
    ensures PassageMoved(s, l, Apply(s, l), r)
  {
    hide Linked;
  }

  lemma DrainPassage(s: State, l: Label, r: ReaderRef)
    requires ClientEnabled(s, l) && (l.DrainMessages? || l.DrainError? || l.QuitNoReader?)
    ensures PassageMoved(s, l, Apply(s, l), r)
  {
    hide Linked;
  }

  lemma ClosePassage(s: State, l: Label, r: ReaderRef)
    requires ReadersHere(s) && ClientEnabled(s, l) && (l.CloseClient? || l.TakeReadError?)
    ensures PassageMoved(s, l, Apply(s, l), r)
  {
    hide CloseOps, Linked;
  }

  lemma HandOverPassage(s: State, l: Label, r: ReaderRef)
    requires ReadersHere(s) && ClientEnabled(s, l) && l.HandOver? && DialledFresh(s)
    ensures PassageMoved(s, l, Apply(s, l), r)
  {
    hide Linked;
  }

  /** A step that neither reads, handles nor changes connections. */
  predicate KeepsPassage(l: Label) {
    && !l.HandleNext? && !l.ReaderGets? && !l.ReaderFails? && !l.TakeMessages? && !l.OldReaderGone? && !l.HandOver?
    && !l.DrainMessages? && !l.DrainError? && !l.QuitNoReader? && !l.TakeReadError? && !l.CloseClient?
  }

  lemma QuietPassage(s: State, l: Label, r: ReaderRef)
    requires ClientEnabled(s, l) && KeepsPassage(l)
    ensures PassageMoved(s, l, Apply(s, l), r)
  {
    hide Register, FinishSend, InspectOp, Linked;
  }

  lemma PassageMoves(s: State, l: Label, r: ReaderRef)
    requires ReadersHere(s) && ClientEnabled(s, l) && !l.ReaderGets? && DialledFresh(s)
    requires s.pc.Awaiting? ==> s.pc.next != s.conn
    ensures PassageMoved(s, l, Apply(s, l), r)
  {
    hide ReadersHere, ClientEnabled, Apply, PassageMoved, DialledFresh;
    match l {
      case HandleNext => HandlePassage(s, l, r);
      case ReaderFails(_, _) => ReaderPassage(s, l, r);
      case TakeMessages(_) => ReaderPassage(s, l, r);
      case OldReaderGone(_, _) => NewReaderPassage(s, l, r);
      case HandOver(_, _) => HandOverPassage(s, l, r);
      case DrainMessages(_) => DrainPassage(s, l, r);
      case DrainError(_) => DrainPassage(s, l, r);
      case QuitNoReader => DrainPassage(s, l, r);
      case CloseClient => ClosePassage(s, l, r);
      case TakeReadError(_) => ClosePassage(s, l, r);
      case _ => QuietPassage(s, l, r);
    }
  }
}
