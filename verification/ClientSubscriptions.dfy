/**
 Which subscriptions are told to quit when the client ends. One is left out exactly when the
 server handed out its id again while it was registered, because the table has one place per id.
 */
module ClientSubscriptions {
  import opened GoRuntime
  import opened RequestIds
  import opened ClientModel
  import opened ClientProtocol
  import opened ClientInvariant
  import opened ClientHistory
  import opened ClientGuarantees

  /** A subscription is registered under the id its own reply carried. */
  lemma RegisteredUnderOwnId(s: State, id: string)
    requires Reachable(s) && NoWrap(s) && id in s.core.subs
    ensures s.core.subs[id] in s.core.ops
    ensures var op := s.core.ops[s.core.subs[id]]; Started(op) && SubId(op) == Some(id) && op.subQuit == None
  {
    hide Reachable;
    ReachableInv(s);
    assert OpOk(s.core.respWait, s.core.subs, s.owner, s.core.subs[id], s.core.ops[s.core.subs[id]]);
  }

  // ----- losing the place in the table

  /** In the first n steps of a run, a subscription was started under the id that o was registered under. */
  ghost predicate TakenOver(states: seq<State>, labels: seq<Label>, n: nat, o: OpRef)
    requires IsRun(states, labels) && n <= |labels|
  {
    exists k :: 0 <= k < n && TakesOver(states[k], labels[k], o)
  }

  ghost predicate Replaced(s: State, o: OpRef) {
    o in s.core.ops && s.core.ops[o].replaced
  }

  lemma StepReplaces(s: State, l: Label, o: OpRef)
    requires Inv(s) && Enabled(s, l) && Linked(s.core) && (l.SendDone? ==> s.core.lastOp.Some?)
    ensures Replaced(Apply(s, l), o) <==> Replaced(s, o) || TakesOver(s, l, o)
  {
    hide Inv, Apply, Enabled;
    StepGrows(s, l);
  }

  lemma {:induction false} ReplacedIff(states: seq<State>, labels: seq<Label>, n: nat, o: OpRef)
    requires IsRun(states, labels) && n <= |labels| && NoWrap(states[n])
    ensures Replaced(states[n], o) <==> TakenOver(states, labels, n, o)
  {
    hide Inv, Apply, Enabled, TakesOver;
    RunKeepsInv(states, labels, n);
    if n == 0 {
      var conn, reader :| states[0] == Init(conn, reader);
    } else {
      assert Step(states[n - 1], labels[n - 1], states[n]);
      RunKeepsInv(states, labels, n - 1);
      ReplacedIff(states, labels, n - 1, o);
      StepReplaces(states[n - 1], labels[n - 1], o);
    }
  }

  /**
   When the loop ends, it has told a started subscription to quit exactly if no subscription was
   started under the same id while this one was registered: such a start takes its place in the
   table and leaves nobody to end it.
   */
  lemma SubscriptionsEnded(states: seq<State>, labels: seq<Label>, n: nat, o: OpRef)
    requires IsRun(states, labels) && n <= |labels| && NoWrap(states[n])
    requires states[n].pc.Draining? || states[n].pc.Quit?
    requires o in states[n].core.ops && Started(states[n].core.ops[o])
    ensures states[n].core.ops[o].subQuit.Some? <==> !TakenOver(states, labels, n, o)
  {
    var s := states[n];
    RunKeepsInv(states, labels, n);
    ReplacedIff(states, labels, n, o);
    assert OpOk(s.core.respWait, s.core.subs, s.owner, o, s.core.ops[o]);
    hide IsRun, TakenOver;
  }

  // ----- distinct ids are enough

  lemma StartedStays(s: State, l: Label, o: OpRef)
    requires Inv(s) && Enabled(s, l) && Linked(s.core) && (l.SendDone? ==> s.core.lastOp.Some?)
    requires o in s.core.ops && Started(s.core.ops[o])
    ensures var s' := Apply(s, l);
      o in s'.core.ops && Started(s'.core.ops[o]) && SubId(s'.core.ops[o]) == SubId(s.core.ops[o])
  {
    hide Inv, Apply, Enabled;
    StepGrows(s, l);
  }

  lemma {:induction false} StartedForGood(states: seq<State>, labels: seq<Label>, k: nat, n: nat, o: OpRef)
    requires IsRun(states, labels) && k <= n <= |labels| && NoWrap(states[n])
    requires o in states[k].core.ops && Started(states[k].core.ops[o])
    ensures o in states[n].core.ops && Started(states[n].core.ops[o])
    ensures SubId(states[n].core.ops[o]) == SubId(states[k].core.ops[o])
  {
    hide Inv, Apply, Enabled;
    if k < n {
      RunKeepsInv(states, labels, n);
      RunKeepsInv(states, labels, n - 1);
      StartedForGood(states, labels, k, n - 1, o);
      assert Step(states[n - 1], labels[n - 1], states[n]);
      StartedStays(states[n - 1], labels[n - 1], o);
    }
  }

  /** The subscription that takes a place has the id of the one it displaces. */
  lemma TakerHasSameId(s: State, l: Label, o: OpRef) returns (p: OpRef)
    requires Inv(s) && Enabled(s, l) && Linked(s.core) && l.HandleNext? && TakesOver(s, l, o)
    ensures o in s.core.ops && Started(s.core.ops[o]) && p != o
    ensures var s' := Apply(s, l);
      p in s'.core.ops && Started(s'.core.ops[p]) && SubId(s'.core.ops[p]) == SubId(s.core.ops[o])
  {
    var m := AtHand(s).value;
    p := s.core.respWait[m.id];
    PendingNotStarted(s, m.id);
    assert OpOk(s.core.respWait, s.core.subs, s.owner, o, s.core.ops[o]);
    assert OpOk(s.core.respWait, s.core.subs, s.owner, p, s.core.ops[p]);
    hide Inv, CallerOk, Owned, Shaped, Enabled;
    HandledOps(s, l);
    assert Respond(s.core, m).ops[p] == ReplyTo(s.core.ops[p], m);
    hide Apply, Respond;
  }

  /** If no other started subscription has its id, a started subscription is told to quit when the loop ends. */
  lemma DistinctIdsEnd(states: seq<State>, labels: seq<Label>, n: nat, o: OpRef)
    requires IsRun(states, labels) && n <= |labels| && NoWrap(states[n])
    requires states[n].pc.Draining? || states[n].pc.Quit?
    requires o in states[n].core.ops && Started(states[n].core.ops[o])
    requires forall p :: p in states[n].core.ops && p != o && Started(states[n].core.ops[p]) ==>
      SubId(states[n].core.ops[p]) != SubId(states[n].core.ops[o])
    ensures states[n].core.ops[o].subQuit.Some?
  {
    hide Inv, Apply, Enabled, TakesOver;
    SubscriptionsEnded(states, labels, n, o);
    if TakenOver(states, labels, n, o) {
      var k :| 0 <= k < n && TakesOver(states[k], labels[k], o);
      RunKeepsInv(states, labels, n);
      RunKeepsInv(states, labels, k);
      assert Step(states[k], labels[k], states[k + 1]);
      assert labels[k].HandleNext? by { TakesOverHandles(states[k], labels[k], o); }
      var p := TakerHasSameId(states[k], labels[k], o);
      StartedForGood(states, labels, k, n, o);
      StartedForGood(states, labels, k + 1, n, p);
    }
  }

  lemma TakesOverHandles(s: State, l: Label, o: OpRef)
    requires TakesOver(s, l, o)
    ensures l.HandleNext?
  {
  }

  // ----- a run in which a subscription is forgotten

  lemma Advance(s: State, l: Label) returns (s': State)
    requires Reachable(s) && Enabled(s, l) && Linked(s.core) && (l.SendDone? ==> s.core.lastOp.Some?)
    ensures s' == Apply(s, l) && Reachable(s')
  {
    s' := Apply(s, l);
    hide Reachable, Enabled, Apply;
    ReachableStep(s, l, s');
  }

  /** The loop waits for something to happen, with the write lock free and a connection to write to. */
  predicate Calm(s: State) {
    s.pc == Running && s.core.lockFree && s.writeConn.Some? && s.sendDone == NewChan(1)
  }

  /** A subscribe request as it stands once it is sent. */
  function SentRequest(serial: nat): Op {
    NewOperation(Subscribe, 1).(reqs := [Request(serial, "eth_subscribe", "")], accepted := true, phase := Waiting)
  }

  lemma SetTwice(s: State, o: OpRef, a: Op, b: Op)
    ensures SetOp(SetOp(s, o, a), o, b) == SetOp(s, o, b)
  {
    assert s.core.ops[o := a][o := b] == s.core.ops[o := b];
  }

  lemma BuildSubscribe(s: State, o: OpRef) returns (s': State)
    requires Reachable(s) && Calm(s) && Linked(s.core) && o !in s.core.ops
    ensures Reachable(s')
    ensures s' == SetOp(s.(owner := s.owner + [(o, 0)]), o,
                        SentRequest(|s.owner| + 1).(accepted := false, phase := Offering))
  {
    hide Reachable;
    var op0 := NewOperation(Subscribe, 1);
    var op1 := AddRequest(op0, |s.owner| + 1, "eth_subscribe", "");
    assert op1.reqs == [Request(|s.owner| + 1, "eth_subscribe", "")];
    var drawn := s.(owner := s.owner + [(o, 0)]);
    s' := Advance(s, NewOp(o, Subscribe, 1));
    assert s' == SetOp(s, o, op0);
    s' := Advance(s', NewMessage(o, "eth_subscribe", ""));
    SetTwice(drawn, o, op0, op1);
    assert s' == SetOp(drawn, o, op1);
    s' := Advance(s', Offer(o));
    SetTwice(drawn, o, op1, op1.(phase := Offering));
  }

  /** The request is accepted: the write lock is held and its id is in the table. */
  function Holding(s: State, o: OpRef, serial: nat, phase: Phase): State {
    var core := s.core.(respWait := s.core.respWait[IdText(serial) := o], lastOp := Some(o), lockFree := false);
    SetOp(s.(core := core), o, SentRequest(serial).(phase := phase))
  }

  lemma AcceptSubscribe(s: State, o: OpRef, serial: nat) returns (s': State)
    requires Reachable(s) && Calm(s) && Linked(s.core)
    requires o in s.core.ops && s.core.ops[o] == SentRequest(serial).(accepted := false, phase := Offering)
    ensures Reachable(s') && s' == Holding(s, o, serial, Writing) && Linked(s'.core)
  {
    hide Reachable;
    s' := Advance(s, Accept(o));
    assert Ids(s.core.ops[o]) == [IdText(serial)];
    assert s'.core.respWait == s.core.respWait[IdText(serial) := o];
    assert s'.core.ops == s.core.ops[o := SentRequest(serial).(phase := Writing)];
  }

  lemma WriteSubscribe(s: State, o: OpRef, serial: nat) returns (s': State)
    requires Reachable(s) && s.pc == Running && s.writeConn.Some? && Linked(s.core)
    requires o in s.core.ops && s.core.ops[o] == SentRequest(serial).(phase := Writing)
    ensures Reachable(s') && s' == SetOp(s.(written := s'.written), o, SentRequest(serial).(phase := Reporting(true)))
  {
    hide Reachable;
    s' := Advance(s, Write(o, true, true));
  }

  lemma ReportSubscribe(s: State, o: OpRef, serial: nat) returns (s': State)
    requires Reachable(s) && Linked(s.core)
    requires o in s.core.ops && s.core.ops[o] == SentRequest(serial).(phase := Reporting(true))
    ensures Reachable(s') && s' == SetOp(s.(sendDone := s.sendDone.Send(None)), o, SentRequest(serial))
  {
    hide Reachable;
    s' := Advance(s, Report(o, ""));
  }

  lemma ReleaseLock(s: State, o: OpRef) returns (s': State)
    requires Reachable(s) && Linked(s.core) && s.pc == Running
    requires s.sendDone == NewChan(1).Send(None) && s.core.lastOp == Some(o)
    ensures Reachable(s') && s' == s.(sendDone := NewChan(1), core := s.core.(lastOp := None, lockFree := true))
  {
    hide Reachable;
    s' := Advance(s, SendDone);
  }

  lemma SendSubscribe(s: State, o: OpRef) returns (s': State)
    requires Reachable(s) && Calm(s) && Linked(s.core) && o !in s.core.ops
    ensures Reachable(s') && Calm(s') && Linked(s'.core)
    ensures s'.core.ops == s.core.ops[o := SentRequest(|s.owner| + 1)] && |s'.owner| == |s.owner| + 1
    ensures s'.core.respWait == s.core.respWait[IdText(|s.owner| + 1) := o]
    ensures s'.core.subs == s.core.subs && s'.core.reading == s.core.reading && s'.readers == s.readers
  {
    hide Reachable;
    s' := BuildSubscribe(s, o);
    s' := AcceptSubscribe(s', o, |s.owner| + 1);
    s' := WriteSubscribe(s', o, |s.owner| + 1);
    s' := ReportSubscribe(s', o, |s.owner| + 1);
    s' := ReleaseLock(s', o);
  }

  const REUSED_ID: string := "0x1"

  /** The server's reply to a subscribe request: always the same subscription id. */
  function SameIdReply(serial: nat): Message {
    Message(IdText(serial), "", "", None, Text(REUSED_ID), None)
  }

  /** The loop handles the first of the messages it took, the reply to operation o. */
  lemma HandleReply(s: State, o: OpRef, serial: nat, rest: seq<Message>) returns (s': State)
    requires Reachable(s) && Linked(s.core) && s.pc == Handling([SameIdReply(serial)] + rest)
    requires IdText(serial) in s.core.respWait && s.core.respWait[IdText(serial)] == o
    requires s.core.ops[o] == SentRequest(serial)
    requires REUSED_ID in s.core.subs ==> s.core.subs[REUSED_ID] != o
    ensures Reachable(s') && Linked(s'.core) && s'.pc == Handling(rest)
    ensures s'.readers == s.readers && s'.owner == s.owner
    ensures s'.core.reading == s.core.reading && s'.core.subs == s.core.subs[REUSED_ID := o]
    ensures s'.core.respWait == s.core.respWait - {IdText(serial)}
    ensures s'.core.ops.Keys == s.core.ops.Keys && Started(s'.core.ops[o]) && s'.core.ops[o].subQuit == None
    ensures forall p :: p in s.core.ops && p != o ==>
      s'.core.ops[p] == if REUSED_ID in s.core.subs && s.core.subs[REUSED_ID] == p then s.core.ops[p].(replaced := true)
                        else s.core.ops[p]
  {
    hide Reachable;
    assert s.pc.msgs[1..] == rest && IsResponse(s.pc.msgs[0]);
    s' := Advance(s, HandleNext);
    assert s'.core == Respond(s.core, SameIdReply(serial));
    hide Apply, Enabled;
  }

  /** The replies arrive together and the loop takes them. */
  lemma TakeReplies(s: State, r: ReaderRef, msgs: seq<Message>) returns (s': State)
    requires Reachable(s) && Linked(s.core) && s.pc == Running && r in s.readers && s.readers[r].stage == Idle
    ensures Reachable(s') && s' == s.(pc := Handling(msgs))
  {
    hide Reachable;
    s' := Advance(s, ReaderGets(r, msgs));
    assert s'.readers[r].stage == HasMessages(msgs);
    s' := Advance(s', TakeMessages(r));
    assert s'.readers == s.readers;
  }

  /** The client is closed. */
  lemma CloseNow(s: State) returns (s': State)
    requires Reachable(s) && Linked(s.core) && s.pc == Handling([])
    ensures Reachable(s') && Linked(s'.core) && s'.pc == Draining && s'.readers == s.readers && s'.owner == s.owner
    ensures s'.core == CloseOps(s.core, CLIENT_QUIT)
  {
    hide Reachable, CloseOps;
    s' := Advance(s, HandleNext);
    s' := Advance(s', CloseClient);
    CloseKeepsPhases(s.core, CLIENT_QUIT);
  }

  /** The reader sees the connection closed and the loop ends. */
  lemma QuitNow(s: State, r: ReaderRef) returns (s': State)
    requires Reachable(s) && Linked(s.core) && s.pc == Draining && s.core.reading
    requires r in s.readers && s.readers[r].stage == Idle
    ensures Reachable(s') && s'.pc == Quit && s'.core == s.core && s'.owner == s.owner
  {
    hide Reachable;
    s' := Advance(s, ReaderFails(r, "EOF"));
    assert s'.readers[r].stage == HasError("EOF");
    s' := Advance(s', DrainError(r));
  }

  lemma TwoSubscriptions() returns (s: State)
    ensures Reachable(s) && Linked(s.core) && s.pc == Running && s.core.reading && |s.owner| == 2
    ensures s.core.subs == map[] && s.readers == map[0 := Reader(0, Idle)]
    ensures s.core.ops == map[1 := SentRequest(1), 2 := SentRequest(2)]
    ensures s.core.respWait == map[IdText(1) := 1, IdText(2) := 2] && IdText(1) != IdText(2)
  {
    hide Reachable, SentRequest, IdText;
    ReachableInit(0, 0);
    s := SendSubscribe(Init(0, 0), 1);
    s := SendSubscribe(s, 2);
    IdTextUnique(1, 2);
  }

  lemma BothReplied() returns (s: State)
    ensures Reachable(s) && Linked(s.core) && s.pc == Handling([]) && s.core.reading && NoWrap(s)
    ensures s.readers == map[0 := Reader(0, Idle)] && s.core.respWait == map[] && s.core.subs == map[REUSED_ID := 2]
    ensures 1 in s.core.ops && Started(s.core.ops[1]) && s.core.ops[1].subQuit == None
  {
    hide Reachable, IdText, SubError;
    s := TwoSubscriptions();
    s := TakeReplies(s, 0, [SameIdReply(1)] + [SameIdReply(2)]);
    s := HandleReply(s, 1, 1, [SameIdReply(2)]);
    assert [SameIdReply(2)] + [] == [SameIdReply(2)];
    s := HandleReply(s, 2, 2, []);
  }

  /** A started subscription that is never told to quit although the client has closed. */
  lemma ReusedIdIsForgotten() returns (s: State, o: OpRef)
    ensures Reachable(s) && NoWrap(s) && s.pc == Quit
    ensures o in s.core.ops && Started(s.core.ops[o]) && s.core.ops[o].subQuit == None
  {
    hide Reachable;
    s := BothReplied();
    o := 1;
    assert 1 !in s.core.subs.Values;
    s := CloseNow(s);
    s := QuitNow(s, 0);
  }
}
