/**
 The dispatch loop's handlers as the program writes them: fields updated in place, tables
 walked in any order. Each is proved to do what the transition system says it does.
 */
module ClientDispatch {
  import opened GoRuntime
  import opened ClientModel
  import opened ClientProtocol

  /** What one incoming message does to the loop's state. */
  ghost function HandleOne(c: Core, m: Message): (c': Core)
    requires Linked(c)
    ensures Linked(c')
  {
    hide ReplyTo;
    if !IsNotification(m) && IsResponse(m) then Respond(c, m) else c
  }

  /** What a batch of incoming messages does, in order. */
  ghost function HandleAll(c: Core, msgs: seq<Message>): (c': Core)
    requires Linked(c)
    ensures Linked(c')
  {
    if msgs == [] then c else HandleOne(HandleAll(c, msgs[..|msgs| - 1]), msgs[|msgs| - 1])
  }

  /** What closing does to an operation a table leads to: close its channel, or end its subscription. */
  datatype Change = CloseWith(err: string) | QuitWith(err: string)

  function Changed(op: Op, change: Change): Op {
    match change
    case CloseWith(err) => Closed(op, err)
    case QuitWith(err) => ToldToQuit(op, err)
  }

  /**
   Halfway through walking a table of operations: `left` is what remains of `table`, and of
   the operations the walked entries led to, those in `seen`, each was changed once.
   */
  ghost predicate Walking(table: map<string, OpRef>, left: map<string, OpRef>, seen: set<OpRef>,
                          ops: map<OpRef, Op>, now: map<OpRef, Op>, change: Change) {
    && (forall id :: id in left ==> id in table && left[id] == table[id])
    && (forall id :: id in table && id !in left ==> table[id] in seen)
    && seen <= table.Values
    && now.Keys == ops.Keys
    && forall o :: o in ops ==> now[o] == if o in seen then Changed(ops[o], change) else ops[o]
  }

  lemma WalkStep(table: map<string, OpRef>, left: map<string, OpRef>, seen: set<OpRef>,
                 ops: map<OpRef, Op>, now: map<OpRef, Op>, change: Change, id: string)
    requires Walking(table, left, seen, ops, now, change) && id in left && (id in table ==> table[id] in ops)
    ensures |left - {id}| < |left| && left[id] in ops && left[id] in now
    ensures left[id] in seen ==> Walking(table, left - {id}, seen, ops, now, change)
    ensures left[id] !in seen ==>
      Walking(table, left - {id}, seen + {left[id]}, ops, now[left[id] := Changed(now[left[id]], change)], change)
  {
    hide Changed;
    assert left.Keys == (left - {id}).Keys + {id};
    assert table[id] in table.Values;
  }

  lemma WalkStart(table: map<string, OpRef>, ops: map<OpRef, Op>, change: Change)
    ensures Walking(table, table, {}, ops, ops, change)
  {
  }

  lemma WalkEnd(table: map<string, OpRef>, seen: set<OpRef>, ops: map<OpRef, Op>, now: map<OpRef, Op>, change: Change)
    requires Walking(table, map[], seen, ops, now, change)
    ensures now == map o | o in ops :: if o in table.Values then Changed(ops[o], change) else ops[o]
  {
    hide Changed;
    assert seen == table.Values;
  }

  /** Walk a table in any order, removing entries, and change each operation it leads to exactly once. */
  method ChangeEach(table: map<string, OpRef>, ops: map<OpRef, Op>, change: Change) returns (now: map<OpRef, Op>)
    requires forall id :: id in table ==> table[id] in ops
    ensures now == map o | o in ops :: if o in table.Values then Changed(ops[o], change) else ops[o]
  {
    hide Changed, Walking;
    now := ops;
    var left, seen := table, {};
    WalkStart(table, ops, change);
    while left != map[]
      invariant Walking(table, left, seen, ops, now, change)
      decreases |left|
    {
      var id :| id in left;
      var o := left[id];
      WalkStep(table, left, seen, ops, now, change, id);
      left := left - {id};
      if o !in seen {
        now := now[o := Changed(now[o], change)];
        seen := seen + {o};
      }
    }
    WalkEnd(table, seen, ops, now, change);
  }

  /** The reply to a subscribe request: its error, or that of decoding its result, is kept and the operation closed. */
  method AnswerSubscribe(pending: Op, m: Message) returns (op: Op)
    requires pending.kind == Subscribe
    ensures op == ReplyTo(pending, m)
  {
    op := pending.(answered := pending.answered + [m], err := None);
    if m.error.Some? {
      op := op.(err := m.error);
    } else if DecodeText(m.result) == None {
      op := op.(err := Some("cannot decode subscription id"));
    }
    op := op.(resp := op.resp.Close());
  }

  class Client {
    var ops: map<OpRef, Op>
    var respWait: map<string, OpRef>
    var subs: map<string, OpRef>
    var lastOp: Option<OpRef>
    var lockFree: bool
    var reading: bool
    var conn: ConnRef
    var closedConns: set<ConnRef>

    /** The tables the loop owns. */
    ghost function View(): Core
      reads this
    {
      Core(ops, respWait, subs, lastOp, lockFree, reading)
    }

    constructor (conn: ConnRef)
      ensures View() == Init(conn, 0).core && this.conn == conn && closedConns == {}
    {
      ops, respWait, subs := map[], map[], map[];
      lastOp, lockFree, reading := None, true, true;
      this.conn, closedConns := conn, {};
    }

    /** An operation arrives: take the lock and register its ids. */
    method AcceptOp(o: OpRef)
      requires o in ops
      modifies `ops, `respWait, `lastOp, `lockFree
      ensures View() == Register(old(View()), o)
    {
      lockFree := false;
      lastOp := Some(o);
      ops := ops[o := ops[o].(accepted := true)];
      var ids := Ids(ops[o]);
      for i := 0 to |ids|
        invariant forall id :: id in respWait <==> id in old(respWait) || id in ids[..i]
        invariant forall id :: id in respWait ==> respWait[id] == if id in ids[..i] then o else old(respWait)[id]
        invariant ops == old(ops)[o := old(ops)[o].(accepted := true)] && subs == old(subs) && reading == old(reading)
        invariant !lockFree && lastOp == Some(o)
      {
        assert ids[..i + 1] == ids[..i] + [ids[i]];
        respWait := respWait[ids[i] := o];
      }
      assert ids[..|ids|] == ids == Ids(old(ops)[o]);
      assert respWait == old(respWait) + (map id | id in Ids(old(ops)[o]) :: o);
    }

    /** The result of a write arrives: release the lock, forget the ids of a failed send. */
    method SendFinished(result: Option<string>)
      requires Linked(View()) && lastOp.Some?
      modifies `ops, `respWait, `lastOp, `lockFree
      ensures View() == FinishSend(old(View()), result)
    {
      var o := lastOp.value;
      if result.Some? {
        var ids := Ids(ops[o]);
        for i := 0 to |ids|
          invariant respWait == old(respWait) - Elems(ids[..i])
          invariant ops == old(ops) && subs == old(subs) && reading == old(reading)
        {
          respWait := respWait - {ids[i]};
          assert Elems(ids[..i + 1]) == Elems(ids[..i]) + {ids[i]} by { assert ids[..i + 1] == ids[..i] + [ids[i]]; }
        }
        assert ids[..|ids|] == ids;
        ops := ops[o := ops[o].(sendFailed := true)];
      }
      lockFree := true;
      lastOp := None;
    }

    method HandleResponse(m: Message)
      requires Linked(View())
      modifies `ops, `respWait, `subs
      ensures View() == Respond(old(View()), m)
    {
      if m.id !in respWait {
        return; // unsolicited response
      }
      var o := respWait[m.id];
      respWait := respWait - {m.id};
      if ops[o].kind != Subscribe {
        ops := ops[o := ops[o].(answered := ops[o].answered + [m], resp := ops[o].resp.Send(m))];
        return;
      }
      var op := AnswerSubscribe(ops[o], m);
      if op.err == None {
        var subid := DecodeText(m.result).value;
        Enter(subid, o);
      }
      ops := ops[o := op];
    }

    /** A subscription takes its place in the table. */
    method Enter(subid: string, o: OpRef)
      requires subid in subs ==> subs[subid] in ops
      modifies `ops, `subs
      ensures ops == Displace(old(View()), subid) && subs == old(subs)[subid := o]
    {
      if subid in subs {
        ops := ops[subs[subid] := ops[subs[subid]].(replaced := true)];
      }
      subs := subs[subid := o];
    }

    /** Messages arrive from the reader. */
    method HandleMessages(msgs: seq<Message>)
      requires Linked(View())
      modifies `ops, `respWait, `subs
      ensures View() == HandleAll(old(View()), msgs)
    {
      ghost var before := View();
      for i := 0 to |msgs|
        invariant View() == HandleAll(before, msgs[..i]) && Linked(View())
      {
        var m := msgs[i];
        assert msgs[..i + 1][..i] == msgs[..i] && msgs[..i + 1][i] == m;
        if IsNotification(m) {
          // delivered to its subscription; the loop's own tables do not change
        } else if IsResponse(m) {
          HandleResponse(m);
        }
      }
      assert msgs[..|msgs|] == msgs;
    }

    /** Close every pending operation once, in whatever order the table is walked, and end every subscription. */
    method CloseRequestOps(err: string)
      requires Linked(View())
      modifies `ops, `respWait, `subs
      ensures View() == CloseOps(old(View()), err)
    {
      ops := ChangeEach(respWait, ops, CloseWith(err));
      respWait := map[];
      ops := ChangeEach(subs, ops, QuitWith(err));
      subs := map[];
    }

    /** The reader failed: unblock everybody and close the connection in use. */
    method ReadFailed(err: string)
      requires Linked(View())
      modifies `ops, `respWait, `subs, `reading, `closedConns
      ensures View() == CloseOps(old(View()), err).(reading := false)
      ensures closedConns == old(closedConns) + {conn}
    {
      CloseRequestOps(err);
      closedConns := closedConns + {conn};
      reading := false;
    }
  }

  /** The element search of a batch call. */
  method MatchElement(ids: seq<string>, id: string) returns (i: nat)
    ensures i <= |ids| && (i < |ids| ==> ids[i] == id) && forall k :: 0 <= k < i ==> ids[k] != id
    ensures i == FindElement(ids, id)
  {
    i := 0;
    while i < |ids| && ids[i] != id
      invariant i <= |ids| && forall k :: 0 <= k < i ==> ids[k] != id
      invariant i + FindElement(ids[i..], id) == FindElement(ids, id)
    {
      assert ids[i..][1..] == ids[i + 1..];
      i := i + 1;
    }
  }
}
