/**
 What holds in every run of the whole client with ordered connections: each response is handled once,
 in the order of the wire, and what it announced is registered unless its operation is excused.
 */
module ConversationGuarantees {
  import opened GoRuntime
  import opened ClientModel
  import opened ClientProtocol
  import opened ClientInvariant
  import opened ClientHistory
  import opened ClientGuarantees
  import opened Conversation
  import opened ConversationClient
  import C = Composition
  import N = Notifications
  import P = RequestParser
  import R = Registration
  import S = ServerConnection

  // ----- the log of one connection

  /** A response that announces an id, in the log. */
  lemma AnnouncingEntry(server: Server, k: Link, j: nat, i: nat, id: string, namespace: string)
    requires Tagged(server, k) && j < |Wire(k)| && Wire(k)[j].Replies?
    requires S.Announces(Wire(k)[j].frame, Wire(k)[j].responses, i, id, namespace)
    ensures i < |EntriesOf(Wire(k)[j], k.tags[j])|
    ensures Announcing(server, EntriesOf(Wire(k)[j], k.tags[j])[i], id, namespace)
  {
    hide S.SubscribeRequest, Echoes;
    assert WriteTagged(server, k, j);
  }

  /** Of an ordered wire, a response before a notification announces its id. */
  lemma AnnouncementBefore(wire: seq<N.Write>, j: nat) returns (j': nat, i: nat)
    requires S.Ordered(wire) && j < |wire| && wire[j].Notification?
    ensures j' < j && wire[j'].Replies?
    ensures S.Announces(wire[j'].frame, wire[j'].responses, i, wire[j].id, wire[j].namespace)
  {
    hide S.Announces;
    assert S.Announced(wire[..j], wire[j].id, wire[j].namespace);
    j' :| 0 <= j' < |wire[..j]| && S.Carries(wire[..j][j'], wire[j].id, wire[j].namespace);
    assert wire[..j][j'] == wire[j'];
    i :| S.Announces(wire[j'].frame, wire[j'].responses, i, wire[j].id, wire[j].namespace);
  }

  /** Where the entries of a write begin in the log. */
  function Start(k: Link, j: nat): nat {
    if |k.tags| == |Wire(k)| && j <= |Wire(k)| then |Flat(Wire(k)[..j], k.tags[..j])| else 0
  }

  /** Where a notification is in the log. */
  lemma NotePlace(k: Link, p: nat) returns (j: nat)
    requires |k.tags| == |Wire(k)| && p < |Log(k)| && Log(k)[p].Note?
    ensures j < |Wire(k)| && Wire(k)[j] == N.Notification(Log(k)[p].id, Log(k)[p].namespace, Log(k)[p].data)
    ensures p == Start(k, j)
  {
    j := FlatSource(Wire(k), k.tags, p);
    hide Flat;
  }

  /** Entries of an earlier write come before a later one. */
  lemma EarlierPlace(k: Link, j': nat, i: nat, j: nat)
    requires |k.tags| == |Wire(k)| && j' < j <= |Wire(k)| && i < |EntriesOf(Wire(k)[j'], k.tags[j'])|
    ensures Start(k, j') + i < Start(k, j) <= |Log(k)|
    ensures Log(k)[Start(k, j') + i] == EntriesOf(Wire(k)[j'], k.tags[j'])[i]
  {
    var wire, tags := Wire(k), k.tags;
    hide Flat, EntriesOf, Wire;
    FlatPlace(wire, tags, j', i);
    FlatPrefix(wire, tags, j);
    FlatPrefix(wire[..j], tags[..j], j' + 1);
    assert wire[..j][..j' + 1] == wire[..j' + 1] && tags[..j][..j' + 1] == tags[..j' + 1];
  }

  /** Before a notification, the log has a response that announces its id in its namespace. */
  lemma AnnouncedBefore(server: Server, k: Link, p: nat) returns (q: nat)
    requires Tagged(server, k) && S.Ordered(Wire(k)) && p < |Log(k)| && Log(k)[p].Note?
    ensures q < p && Announcing(server, Log(k)[q], Log(k)[p].id, Log(k)[p].namespace)
  {
    TagsMatch(server, k);
    hide Announcing, S.Announces, Tagged, S.Ordered, Log, EntriesOf, Wire, Start;
    var j := NotePlace(k, p);
    var j', i := AnnouncementBefore(Wire(k), j);
    AnnouncingEntry(server, k, j', i, Wire(k)[j].id, Wire(k)[j].namespace);
    EarlierPlace(k, j', i, j);
    q := Start(k, j') + i;
  }

  /** Where a reply is in the log: the place of its index in the write that answers its frame. */
  lemma ReplyPlace(server: Server, k: Link, p: nat) returns (j: nat)
    requires Tagged(server, k) && p < |Log(k)| && Log(k)[p].Reply?
    ensures j < |Wire(k)| && Wire(k)[j].Replies? && k.tags[j] == Log(k)[p].f && k.tags[j] in k.taken
    ensures p == Start(k, j) + Log(k)[p].i
    ensures Log(k)[p].i < |Wire(k)[j].responses| && Log(k)[p].response == Wire(k)[j].responses[Log(k)[p].i]
    ensures Echoes(k.tags[j], Wire(k)[j].responses)
  {
    hide Echoes;
    j := FlatSource(Wire(k), k.tags, p);
    assert WriteTagged(server, k, j);
    hide Flat;
  }

  /** So a log has each response to a request once. */
  lemma ReplyOnce(server: Server, k: Link, p: nat, q: nat)
    requires Tagged(server, k) && TagsOnce(k) && p < |Log(k)| && q < |Log(k)| && Log(k)[p].Reply? && Log(k)[q].Reply?
    requires Log(k)[p].f == Log(k)[q].f && Log(k)[p].i == Log(k)[q].i
    ensures p == q
  {
    hide Log, Tagged, Echoes, Start;
    var j := ReplyPlace(server, k, p);
    var j' := ReplyPlace(server, k, q);
  }

  // ----- responses across connections

  predicate ReplyUnder(e: Entry, id: string) {
    e.Reply? && C.IdOnWire(e.response.id) == id
  }

  /** A reply under the id of a request answers that request. */
  lemma ReplyAnswers(s: State, f: Frame, i: nat, g: Frame, j: nat)
    requires Inv(s) && NoWrap(s) && WrittenOk(s) && f in s.written && g in s.written && i < |f.reqs| && j < |g.reqs|
    requires IdOf(f.reqs[i]) == IdOf(g.reqs[j])
    ensures f == g && i == j
  {
    hide Inv;
    assert SentAt(s, f, i) && SentAt(s, g, j);
    var (o, x) := s.owner[f.reqs[i].serial - 1];
    var (o', x') := s.owner[g.reqs[j].serial - 1];
    OwnedOps(s, o);
    OwnedOps(s, o');
    IdOwner(s.owner, o, s.core.ops[o], o', s.core.ops[o'], x, x');
  }

  lemma OwnedOps(s: State, o: OpRef)
    requires Inv(s) && o in s.core.ops
    ensures Owned(s.owner, o, s.core.ops[o])
  {
    hide LockOk, ReadersOk, ConnsOk, Ended, Owned, Shaped, Answers, CallerOk, Waits, SubTracked;
    assert OpOk(s.core.respWait, s.core.subs, s.owner, o, s.core.ops[o]);
  }

  /** On all connections together there is one response to a request. */
  lemma OneResponse(s: System, server: Server, c: ConnRef, p: nat, d: ConnRef, q: nat)
    requires Inv(s.client) && NoWrap(s.client) && WrittenOk(s.client)
    requires LinkOk(server, s.client.written, c, LinkOf(s, c)) && LinkOk(server, s.client.written, d, LinkOf(s, d))
    requires p < |Log(LinkOf(s, c))| && q < |Log(LinkOf(s, d))|
    requires var e := Log(LinkOf(s, c))[p];
      e.Reply? && e.i < |e.f.reqs| && ReplyUnder(Log(LinkOf(s, d))[q], IdOf(e.f.reqs[e.i]))
    ensures c == d && p == q
  {
    hide Inv, Tagged, TagsOnce, S.WireOk, Log, Start, WrittenOk;
    var k, k' := LinkOf(s, c), LinkOf(s, d);
    var j := ReplyPlace(server, k, p);
    var j' := ReplyPlace(server, k', q);
    var e, e' := Log(k)[p], Log(k')[q];
    assert e'.i < |e'.f.reqs| && e'.response.id == P.NumberId(IdOf(e'.f.reqs[e'.i]));
    hide Echoes;
    ReplyAnswers(s.client, e.f, e.i, e'.f, e'.i);
    ReplyOnce(server, k, p, q);
  }

  // ----- the invariant

  /** Nothing was read from a connection that the loop has not come to use. */
  ghost predicate ConnsFresh(s: System) {
    && (forall c :: c !in s.client.adopted || s.client.pc == Awaiting(c) ==> LinkOf(s, c).read == 0)
    && (s.client.pc.Awaiting? ==> s.client.pc.next != s.client.conn)
    && DialledFresh(s.client)
  }

  /** What the loop and a reader hold is, in order, what was read of the log and not handled. */
  ghost predicate PassageOk(s: System, server: Server) {
    var k := LinkOf(s, s.client.conn);
    && (s.client.pc.Handling? ==> s.client.core.reading)
    && (forall r :: r in s.client.readers && Open(s.client.pc) ==>
          k.done <= k.read <= |Log(k)| && MessagesOf(server, Log(k)[k.done..k.read]) == Remaining(s.client, r))
  }

  ghost predicate HandledReply(k: Link, id: string) {
    exists p :: 0 <= p < k.done && p < |Log(k)| && ReplyUnder(Log(k)[p], id)
  }

  /** Some connection has a handled reply under the id. */
  ghost predicate HandledSomewhere(s: System, id: string) {
    exists c :: HandledReply(LinkOf(s, c), id)
  }

  /** Every reply matched to an operation was handled from some connection. */
  ghost predicate AnswersHandled(s: System) {
    forall o, m :: o in s.client.core.ops && m in s.client.core.ops[o].answered ==> HandledSomewhere(s, m.id)
  }

  /** The id is registered, or the operation that the reply answers is excused. */
  ghost predicate KnownFor(s: State, e: Entry, id: string) {
    && e.Reply? && e.i < |e.f.reqs| && SentBy(s, e.f.reqs[e.i])
    && (id in s.core.subs || Excused(s.core.ops[s.owner[e.f.reqs[e.i].serial - 1].0]))
  }

  ghost predicate EntryKnown(s: State, server: Server, e: Entry) {
    forall id, namespace :: Announcing(server, e, id, namespace) ==> KnownFor(s, e, id)
  }

  ghost predicate AllKnown(s: System, server: Server) {
    var k := LinkOf(s, s.client.conn);
    Open(s.client.pc) && s.client.core.reading ==>
      forall p :: 0 <= p < k.done && p < |Log(k)| ==> EntryKnown(s.client, server, Log(k)[p])
  }

  ghost predicate LinksOk(s: System, server: Server) {
    forall c :: LinkOk(server, s.client.written, c, LinkOf(s, c))
  }

  ghost predicate SysInv(s: System, server: Server) {
    && WrittenOk(s.client) && LinksOk(s, server) && ConnsFresh(s) && PassageOk(s, server)
    && AnswersHandled(s) && AllKnown(s, server)
  }

  // ----- steps of the server

  lemma ServerKeepsInv(s: System, server: Server, l: SysLabel, s': System)
    requires R.RegistryOk(server.services) && SysInv(s, server) && l.ServerMoves? && SysStep(s, server, l, s')
    ensures SysInv(s', server)
  {
    var k, k' := LinkOf(s, l.conn), LinkOf(s', l.conn);
    assert s'.client == s.client && k' == ServerApply(server, k, l.sl, l.f);
    assert forall c :: c != l.conn ==> LinkOf(s', c) == LinkOf(s, c);
    assert LinkOk(server, s.client.written, l.conn, k);
    ServerKeepsLink(s.client, server, l.conn, k, l.sl, l.f);
    LogOfLink(server, s.client.written, l.conn, k, l.sl, l.f);
    hide SysStep, ServerApply, LinkOk, WrittenOk, EntryKnown, MessagesOf, Log, DialledFresh, LinkOf;
    ServerPassage(s, server, s', l.conn);
  }

  lemma LogOfLink(server: Server, written: set<Frame>, c: ConnRef, k: Link, sl: S.Label, f: Frame)
    requires LinkOk(server, written, c, k) && S.Enabled(k.server, HostOf(server), sl)
    ensures Log(k) <= Log(ServerApply(server, k, sl, f)) && k.done <= k.read <= |Log(k)|
    ensures ServerApply(server, k, sl, f).read == k.read && ServerApply(server, k, sl, f).done == k.done
  {
    hide S.WireOk, TagsOnce, S.Enabled, ServerApply, Log;
    LogGrows(server, k, sl, f);
  }

  /** A log that grows leaves what was read and handled of it alone. */
  lemma ServerPassage(s: System, server: Server, s': System, c: ConnRef)
    requires s'.client == s.client && (forall d :: d != c ==> LinkOf(s', d) == LinkOf(s, d))
    requires Log(LinkOf(s, c)) <= Log(LinkOf(s', c)) && LinkOf(s, c).done <= LinkOf(s, c).read <= |Log(LinkOf(s, c))|
    requires LinkOf(s', c).read == LinkOf(s, c).read && LinkOf(s', c).done == LinkOf(s, c).done
    ensures PassageOk(s, server) ==> PassageOk(s', server)
    ensures AnswersHandled(s) ==> AnswersHandled(s')
    ensures AllKnown(s, server) ==> AllKnown(s', server)
    ensures ConnsFresh(s) ==> ConnsFresh(s')
  {
    hide EntryKnown, MessagesOf, Log, DialledFresh, LinkOf;
    var k, k' := LinkOf(s, c), LinkOf(s', c);
    assert Log(k')[k.done..k.read] == Log(k)[k.done..k.read];
    forall id | HandledReply(k, id) ensures HandledReply(k', id) {
      var p :| 0 <= p < k.done && p < |Log(k)| && ReplyUnder(Log(k)[p], id);
      assert ReplyUnder(Log(k')[p], id);
    }
    if AnswersHandled(s) {
      forall o, m | o in s.client.core.ops && m in s.client.core.ops[o].answered
        ensures HandledSomewhere(s', m.id)
      {
        assert HandledSomewhere(s, m.id);
        var d :| HandledReply(LinkOf(s, d), m.id);
        assert HandledReply(LinkOf(s', d), m.id);
      }
    }
  }

  // ----- steps of the client

  /** How far a connection is read and handled after a step. */
  function NewRead(s: System, l: SysLabel, c: ConnRef): nat {
    LinkOf(s, c).read
    + if l.ReaderReads? && l.reader in s.client.readers && s.client.readers[l.reader].conn == c then l.n else 0
  }

  function NewDone(s: System, l: SysLabel, c: ConnRef): nat {
    LinkOf(s, c).done + if HandlesMessage(s.client, l) && c == s.client.conn then 1 else 0
  }

  /** A step of the client: its own step, and progress on the connection it reads. */
  ghost predicate ClientStep(s: System, server: Server, l: SysLabel, cl: Label, s': System) {
    && ClientEnabled(s.client, cl) && s'.client == Apply(s.client, cl)
    && (forall c :: LinkOf(s', c) == LinkOf(s, c).(read := NewRead(s, l, c), done := NewDone(s, l, c)))
    && (HandlesMessage(s.client, l) <==> TakesNext(s.client, cl))
    && (l.ReaderReads? <==> cl.ReaderGets?)
    && (l.ReaderReads? ==>
          && l.reader in s.client.readers && s.client.readers[l.reader].stage == Idle
          && var k := LinkOf(s, s.client.readers[l.reader].conn);
             k.read + l.n <= |Log(k)| && cl == ReaderGets(l.reader, MessagesOf(server, Log(k)[k.read..k.read + l.n])))
  }

  lemma StepOfClient(s: System, server: Server, l: SysLabel, s': System) returns (cl: Label)
    requires SysStep(s, server, l, s') && !l.ServerMoves?
    ensures ClientStep(s, server, l, cl, s')
  {
    hide Apply, Log, MessagesOf;
    cl := ClientLabel(s, server, l).value;
    ReaderIsIdle(s.client, cl);
    hide Enabled;
  }

  lemma ReaderIsIdle(s: State, l: Label)
    requires ClientEnabled(s, l)
    ensures l.ReaderGets? ==> l.reader in s.readers && s.readers[l.reader].stage == Idle
  {
    hide Linked;
  }

  lemma ReaderMoves(s: State, l: Label)
    requires ClientEnabled(s, l) && l.ReaderGets?
    ensures l.reader in s.readers && Apply(s, l) == SetStage(s, l.reader, HasMessages(l.msgs))
  {
    hide Linked;
  }

  /** The message the loop handles next is the next entry of the log. */
  lemma NextEntry(s: System, server: Server)
    requires ReadersHere(s.client) && Inv(s.client) && PassageOk(s, server)
    requires s.client.pc.Handling? && s.client.pc.msgs != []
    ensures var k := LinkOf(s, s.client.conn);
      k.done < k.read <= |Log(k)| && MessageOf(server, Log(k)[k.done]) == s.client.pc.msgs[0]
  {
    ReaderExists(s.client);
    hide Inv, MessageOf, Log;
    var r :| r in s.client.readers;
    var k := LinkOf(s, s.client.conn);
    assert MessagesOf(server, Log(k)[k.done..k.read])[0] == s.client.pc.msgs[0];
  }

  lemma ReaderExists(s: State)
    requires Inv(s)
    ensures s.core.reading && s.pc != Quit ==> exists r :: r in s.readers
  {
    hide OpsOk, LockOk, ConnsOk, Ended;
  }

  lemma ClientKeepsLinks(s: System, server: Server, l: SysLabel, cl: Label, s': System)
    requires LinksOk(s, server) && ClientStep(s, server, l, cl, s') && s.client.written <= s'.client.written
    requires TakesNext(s.client, cl) ==> LinkOf(s, s.client.conn).done < LinkOf(s, s.client.conn).read
    ensures LinksOk(s', server)
  {
    hide Apply, ClientEnabled, LinkOf, Log, S.WireOk, Tagged, TagsOnce, MessagesOf;
    forall c ensures LinkOk(server, s'.client.written, c, LinkOf(s', c)) {
      assert LinkOk(server, s.client.written, c, LinkOf(s, c));
      SameLog(server, LinkOf(s, c), LinkOf(s', c));
    }
  }

  /** Progress of the client leaves the server's side alone. */
  lemma SameLog(server: Server, k: Link, k': Link)
    requires k' == k.(read := k'.read, done := k'.done)
    ensures Log(k') == Log(k) && Wire(k') == Wire(k)
    ensures (Tagged(server, k) ==> Tagged(server, k')) && (TagsOnce(k) ==> TagsOnce(k'))
  {
    hide Echoes, Flat;
    if Tagged(server, k) {
      forall t | t in k'.server.tasks ensures TaskTagged(server, k', t) {
        assert TaskTagged(server, k, t);
      }
      forall j: nat | j < |Wire(k')| ensures WriteTagged(server, k', j) {
        assert WriteTagged(server, k, j);
      }
    }
    if TagsOnce(k) {
      assert forall t :: Working(k', t) ==> Working(k, t);
    }
  }

  lemma ClientKeepsFresh(s: System, server: Server, l: SysLabel, cl: Label, s': System)
    requires ReadersHere(s.client) && ConnsFresh(s) && ClientStep(s, server, l, cl, s') && DialledFresh(s'.client)
    ensures ConnsFresh(s')
  {
    ConnMoves(s.client, cl);
    assert cl.HandOver? ==> cl.o in s.client.core.ops && s.client.core.ops[cl.o].phase.Dialled?;
    assert cl.ReaderGets? ==> s'.client.pc == s.client.pc;
    assert s'.client.pc.Awaiting? && s'.client.pc == s.client.pc ==> s'.client.conn == s.client.conn;
    hide Apply, Enabled, LinkOf, Log, MessagesOf;
  }

  lemma HandlingReads(s: State, l: Label)
    requires ReadersHere(s) && ClientEnabled(s, l) && (s.pc.Handling? ==> s.core.reading)
    ensures Apply(s, l).pc.Handling? ==> Apply(s, l).core.reading
  {
    hide Register, FinishSend, Respond, CloseOps, InspectOp, Linked;
    ReadingStays(s, l);
  }

  lemma ReadingStays(s: State, l: Label)
    requires ClientEnabled(s, l)
    ensures Apply(s, l).core.reading <==> l.HandOver? || (s.core.reading && !l.TakeReadError?)
  {
    if l.HandleNext? {
      HandleKeepsReading(s, l);
      hide Apply;
    } else {
      hide Respond, CloseOps, InspectOp, Linked, Ids, Elems;
    }
  }

  lemma HandleKeepsReading(s: State, l: Label)
    requires ClientEnabled(s, l) && l.HandleNext?
    ensures Apply(s, l).core.reading == s.core.reading
  {
    hide ReplyTo, Displace;
  }

  /** The connection in use changed: nothing was read from the new one. */
  lemma NewConnFresh(s: System, server: Server, l: SysLabel, cl: Label, s': System)
    requires ConnsFresh(s) && LinksOk(s, server) && ClientStep(s, server, l, cl, s') && s'.client.conn != s.client.conn
    ensures LinkOf(s', s'.client.conn).read == 0 && LinkOf(s', s'.client.conn).done == 0
  {
    var c := s'.client.conn;
    ConnMoves(s.client, cl);
    assert cl.HandOver? ==> cl.o in s.client.core.ops && s.client.core.ops[cl.o].phase.Dialled?;
    hide Apply, Enabled, LinkOf, Log, MessagesOf, S.WireOk, Tagged, TagsOnce;
    assert LinkOk(server, s.client.written, c, LinkOf(s, c));
  }

  /** One message less, at the front. */
  lemma MessagesTail(server: Server, log: seq<Entry>, done: nat, read: nat, m: Message, rest: seq<Message>)
    requires done < read <= |log| && MessagesOf(server, log[done..read]) == [m] + rest
    ensures MessagesOf(server, log[done + 1..read]) == rest
  {
    hide MessageOf;
    var all := MessagesOf(server, log[done..read]);
    assert all[1..] == rest && |rest| == read - done - 1;
    forall i | 0 <= i < |rest| ensures MessagesOf(server, log[done + 1..read])[i] == rest[i] {
      assert all[i + 1] == rest[i];
    }
  }

  /** More messages, at the end. */
  lemma MessagesMore(server: Server, log: seq<Entry>, done: nat, read: nat, n: nat)
    requires done <= read && read + n <= |log|
    ensures MessagesOf(server, log[done..read + n])
         == MessagesOf(server, log[done..read]) + MessagesOf(server, log[read..read + n])
  {
    hide MessageOf;
  }

  lemma ReadKeepsPassage(s: System, server: Server, l: SysLabel, cl: Label, s': System)
    requires ReadersHere(s.client) && PassageOk(s, server) && ClientStep(s, server, l, cl, s') && l.ReaderReads?
    ensures PassageOk(s', server)
  {
    hide Apply, Enabled, LinkOf, Log, MessagesOf;
    var k, k' := LinkOf(s, s.client.conn), LinkOf(s', s.client.conn);
    ReaderMoves(s.client, cl);
    SameLog(server, k, k');
    if Open(s.client.pc) {
      MessagesMore(server, Log(k), k.done, k.read, l.n);
      assert Remaining(s.client, l.reader) == OfLoop(s.client.pc) + [] == OfLoop(s.client.pc);
    }
  }

  lemma MoveKeepsPassage(s: System, server: Server, l: SysLabel, cl: Label, s': System, r: ReaderRef)
    requires PassageOk(s, server) && ClientStep(s, server, l, cl, s') && !l.ReaderReads?
    requires PassageMoved(s.client, cl, s'.client, r) && r in s'.client.readers && Open(s'.client.pc)
    requires TakesNext(s.client, cl) ==> s'.client.conn == s.client.conn
    requires s'.client.conn == s.client.conn
    ensures var k' := LinkOf(s', s'.client.conn);
      k'.done <= k'.read <= |Log(k')| && MessagesOf(server, Log(k')[k'.done..k'.read]) == Remaining(s'.client, r)
  {
    var k, k' := LinkOf(s, s.client.conn), LinkOf(s', s'.client.conn);
    SameLog(server, k, k');
    hide Apply, Enabled, LinkOf, Log, ClientEnabled, Remaining;
    if TakesNext(s.client, cl) {
      assert |MessagesOf(server, Log(k)[k.done..k.read])| == k.read - k.done;
      hide MessagesOf;
      MessagesTail(server, Log(k), k.done, k.read, s.client.pc.msgs[0], Remaining(s'.client, r));
    }
  }

  lemma ReaderKeepsPassage(s: System, server: Server, l: SysLabel, cl: Label, s': System, r: ReaderRef)
    requires ReadersHere(s.client) && LinksOk(s, server) && ConnsFresh(s) && PassageOk(s, server)
    requires ClientStep(s, server, l, cl, s') && !l.ReaderReads? && r in s'.client.readers && Open(s'.client.pc)
    ensures var k' := LinkOf(s', s'.client.conn);
      k'.done <= k'.read <= |Log(k')| && MessagesOf(server, Log(k')[k'.done..k'.read]) == Remaining(s'.client, r)
  {
    hide Apply, ClientEnabled, Log, ReadersHere, LinkOf, DialledFresh, LinksOk;
    PassageMoves(s.client, cl, r);
    if s'.client.conn == s.client.conn {
      MoveKeepsPassage(s, server, l, cl, s', r);
    } else {
      NewConnFresh(s, server, l, cl, s');
    }
  }

  lemma ClientKeepsPassage(s: System, server: Server, l: SysLabel, cl: Label, s': System)
    requires ReadersHere(s.client) && LinksOk(s, server) && ConnsFresh(s) && PassageOk(s, server)
    requires ClientStep(s, server, l, cl, s')
    ensures PassageOk(s', server)
  {
    hide Apply, ClientEnabled, Log, ReadersHere, LinkOf, ConnsFresh, LinksOk, MessagesOf, Remaining;
    if l.ReaderReads? {
      ReadKeepsPassage(s, server, l, cl, s');
    } else {
      HandlingReads(s.client, cl);
      forall r | r in s'.client.readers && Open(s'.client.pc)
        ensures var k' := LinkOf(s', s'.client.conn);
          k'.done <= k'.read <= |Log(k')| && MessagesOf(server, Log(k')[k'.done..k'.read]) == Remaining(s'.client, r)
      {
        ReaderKeepsPassage(s, server, l, cl, s', r);
      }
    }
  }

  // ----- replies and what they announce

  lemma HandledStays(k: Link, k': Link, id: string)
    requires Log(k) <= Log(k') && k.done <= k'.done && HandledReply(k, id)
    ensures HandledReply(k', id)
  {
    hide Log;
    var p :| 0 <= p < k.done && p < |Log(k)| && ReplyUnder(Log(k)[p], id);
    assert ReplyUnder(Log(k')[p], id);
  }

  /** Only replies become responses, under their own ids. */
  lemma ResponseIsReply(server: Server, e: Entry)
    requires IsResponse(MessageOf(server, e))
    ensures ReplyUnder(e, MessageOf(server, e).id)
  {
  }

  /** A reply matched to an operation was matched before, or is the one just handled. */
  lemma AnswerSource(s: State, l: Label, ops': map<OpRef, Op>, o: OpRef, m: Message)
    requires OpsSuccessor(s, l, ops') && o in ops' && m in ops'[o].answered
    ensures
      || (o in s.core.ops && m in s.core.ops[o].answered)
      || (TakesNext(s, l) && m == s.pc.msgs[0] && IsResponse(m))
  {
    if o in s.core.ops {
      assert OpSuccessor(Handled(s, l), TakesOver(s, l, o), s.core.ops[o], ops'[o]);
    }
  }

  lemma SomewhereStays(s: System, server: Server, l: SysLabel, cl: Label, s': System, id: string)
    requires ClientStep(s, server, l, cl, s') && HandledSomewhere(s, id)
    ensures HandledSomewhere(s', id)
  {
    hide Apply, ClientEnabled, LinkOf, Log, MessagesOf, HandledReply;
    var c :| HandledReply(LinkOf(s, c), id);
    SameLog(server, LinkOf(s, c), LinkOf(s', c));
    HandledStays(LinkOf(s, c), LinkOf(s', c), id);
  }

  lemma NewlyHandled(s: System, server: Server, l: SysLabel, cl: Label, s': System)
    requires ClientStep(s, server, l, cl, s') && TakesNext(s.client, cl) && IsResponse(s.client.pc.msgs[0])
    requires var k := LinkOf(s, s.client.conn);
      k.done < |Log(k)| && MessageOf(server, Log(k)[k.done]) == s.client.pc.msgs[0]
    ensures HandledSomewhere(s', s.client.pc.msgs[0].id)
  {
    hide Apply, ClientEnabled, LinkOf, Log, MessagesOf, MessageOf, IsResponse, ReplyUnder;
    var c := s.client.conn;
    var k, k' := LinkOf(s, c), LinkOf(s', c);
    SameLog(server, k, k');
    ResponseIsReply(server, Log(k)[k.done]);
    assert ReplyUnder(Log(k')[k.done], s.client.pc.msgs[0].id);
    assert HandledReply(k', s.client.pc.msgs[0].id);
  }

  lemma ClientKeepsAnswers(s: System, server: Server, l: SysLabel, cl: Label, s': System)
    requires AnswersHandled(s) && ClientStep(s, server, l, cl, s') && OpsSuccessor(s.client, cl, s'.client.core.ops)
    requires TakesNext(s.client, cl) ==>
      var k := LinkOf(s, s.client.conn);
      k.done < |Log(k)| && MessageOf(server, Log(k)[k.done]) == s.client.pc.msgs[0]
    ensures AnswersHandled(s')
  {
    hide ClientStep, MessageOf, OpsSuccessor, LinkOf, Log, IsResponse, HandledSomewhere;
    forall o, m | o in s'.client.core.ops && m in s'.client.core.ops[o].answered ensures HandledSomewhere(s', m.id) {
      AnswerSource(s.client, cl, s'.client.core.ops, o, m);
      if o in s.client.core.ops && m in s.client.core.ops[o].answered {
        SomewhereStays(s, server, l, cl, s', m.id);
      } else {
        NewlyHandled(s, server, l, cl, s');
      }
    }
  }

  lemma RespondKeepsSubs(c: Core, m: Message)
    requires Linked(c)
    ensures c.subs.Keys <= Respond(c, m).subs.Keys
  {
    hide ReplyTo, Displace;
  }

  lemma SubsStay(s: State, l: Label)
    requires ClientEnabled(s, l) && !l.TakeReadError? && !l.CloseClient?
    ensures s.core.subs.Keys <= Apply(s, l).core.subs.Keys
  {
    if l.HandleNext? {
      if s.pc.msgs != [] {
        RespondKeepsSubs(s.core, s.pc.msgs[0]);
      }
      hide Respond;
    } else {
      SubsSame(s, l);
      hide Apply;
    }
  }

  lemma SubsSame(s: State, l: Label)
    requires ClientEnabled(s, l) && !l.TakeReadError? && !l.CloseClient? && !l.HandleNext?
    ensures Apply(s, l).core.subs == s.core.subs
  {
    if l.Accept? || l.SendDone? {
      LockKeepsSubs(s, l);
      hide Apply;
    } else if KeepsPassage(l) {
      hide Register, FinishSend, Respond, CloseOps, InspectOp, Linked;
    } else {
      ReadersKeepSubs(s, l);
      hide Apply;
    }
  }

  lemma ReadersKeepSubs(s: State, l: Label)
    requires ClientEnabled(s, l) && !KeepsPassage(l) && !l.TakeReadError? && !l.CloseClient? && !l.HandleNext?
    ensures Apply(s, l).core.subs == s.core.subs
  {
    hide Register, FinishSend, Respond, CloseOps, InspectOp, Linked;
  }

  lemma LockKeepsSubs(s: State, l: Label)
    requires ClientEnabled(s, l) && (l.Accept? || l.SendDone?)
    ensures Apply(s, l).core.subs == s.core.subs
  {
    hide Ids;
  }

  lemma EntryStaysKnown(s: State, server: Server, l: Label, s': State, e: Entry)
    requires EntryKnown(s, server, e) && OpsSuccessor(s, l, s'.core.ops) && Grows(s, s')
    requires s.core.subs.Keys <= s'.core.subs.Keys
    ensures EntryKnown(s', server, e)
  {
    hide Announcing, KnownFor;
    forall id, namespace | Announcing(server, e, id, namespace) ensures KnownFor(s', e, id) {
      KnownStays(s, l, s', e, id);
    }
  }

  lemma KnownStays(s: State, l: Label, s': State, e: Entry, id: string)
    requires KnownFor(s, e, id) && OpsSuccessor(s, l, s'.core.ops) && Grows(s, s')
    requires s.core.subs.Keys <= s'.core.subs.Keys
    ensures KnownFor(s', e, id)
  {
    var o := s.owner[e.f.reqs[e.i].serial - 1].0;
    SentByStays(s, l, s', e.f.reqs[e.i]);
    assert OpSuccessor(Handled(s, l), TakesOver(s, l, o), s.core.ops[o], s'.core.ops[o]);
    hide Grows, OpsSuccessor, PastWriting;
  }

  // ----- a reply that announces a subscription is handled

  /** As a message it is a response under the id of its request, with the subscription id as a string. */
  lemma AnnouncingMessage(server: Server, e: Entry, id: string, namespace: string)
    requires Announcing(server, e, id, namespace)
    ensures var m := MessageOf(server, e);
      && IsResponse(m) && !IsNotification(m) && m.id == IdOf(e.f.reqs[e.i])
      && SubError(m) == None && DecodeText(m.result) == Some(id)
  {
    var r := C.AsJson(e.f.reqs[e.i], server);
    assert P.TrimSuffix(r.name, P.SUBSCRIBE_SUFFIX) == namespace;
    hide P.FirstString, P.HasSuffix, P.TrimSuffix;
  }

  /** What became of a request that was sent: it waits, was answered, or its operation is excused. */
  lemma RequestFate(s: State, o: OpRef, i: nat)
    requires Inv(s) && NoWrap(s) && o in s.core.ops && s.core.ops[o].accepted && i < |s.core.ops[o].reqs|
    ensures var id := IdOf(s.core.ops[o].reqs[i]);
      && (id in s.core.respWait ==> s.core.respWait[id] == o)
      && (id !in s.core.respWait ==> Answered(s.core.ops[o], id) || Excused(s.core.ops[o]))
  {
    hide LockOk, ReadersOk, ConnsOk, Ended, Shaped, Answers, CallerOk, SubTracked;
    var op, id := s.core.ops[o], IdOf(s.core.ops[o].reqs[i]);
    assert OpOk(s.core.respWait, s.core.subs, s.owner, o, op);
    assert Ids(op)[i] == id;
    if id in s.core.respWait {
      var p := s.core.respWait[id];
      assert OpOk(s.core.respWait, s.core.subs, s.owner, p, s.core.ops[p]);
      hide Inv, Answered;
      OneOwner(s.owner, o, op, p, s.core.ops[p], id);
    }
  }

  /** A request is answered once: while its reply is still to be handled, none was. */
  lemma NotAnsweredYet(s: System, server: Server, o: OpRef, id: string)
    requires Inv(s.client) && NoWrap(s.client) && WrittenOk(s.client) && LinksOk(s, server) && AnswersHandled(s)
    requires o in s.client.core.ops
    requires var k := LinkOf(s, s.client.conn);
      && k.done < |Log(k)| && Log(k)[k.done].Reply? && Log(k)[k.done].i < |Log(k)[k.done].f.reqs|
      && IdOf(Log(k)[k.done].f.reqs[Log(k)[k.done].i]) == id
    ensures !Answered(s.client.core.ops[o], id)
  {
    hide Inv, WrittenOk, Log, LinkOf, LinkOk;
    if Answered(s.client.core.ops[o], id) {
      var j :| 0 <= j < |s.client.core.ops[o].answered| && s.client.core.ops[o].answered[j].id == id;
      assert s.client.core.ops[o].answered[j] in s.client.core.ops[o].answered;
      assert HandledSomewhere(s, id);
      var c :| HandledReply(LinkOf(s, c), id);
      var p :| 0 <= p < LinkOf(s, c).done && p < |Log(LinkOf(s, c))| && ReplyUnder(Log(LinkOf(s, c))[p], id);
      OneResponse(s, server, s.client.conn, LinkOf(s, s.client.conn).done, c, p);
      assert false;
    }
  }

  /** Handling the reply of a subscribe operation registers what it announces. */
  lemma ReplyRegisters(s: State, l: Label, o: OpRef, id: string)
    requires ClientEnabled(s, l) && TakesNext(s, l) && IsResponse(s.pc.msgs[0]) && !IsNotification(s.pc.msgs[0])
    requires s.pc.msgs[0].id in s.core.respWait && s.core.respWait[s.pc.msgs[0].id] == o
    requires s.core.ops[o].kind == Subscribe
    requires SubError(s.pc.msgs[0]) == None && DecodeText(s.pc.msgs[0].result) == Some(id)
    ensures id in Apply(s, l).core.subs
  {
    hide Displace, IsResponse, IsNotification, DecodeText;
  }

  /** The frame of a reply is one the client wrote. */
  lemma ReplyWritten(s: System, server: Server, c: ConnRef, p: nat)
    requires WrittenOk(s.client) && LinksOk(s, server) && p < |Log(LinkOf(s, c))| && Log(LinkOf(s, c))[p].Reply?
    ensures var e := Log(LinkOf(s, c))[p]; e.f in s.client.written && (e.i < |e.f.reqs| ==> SentAt(s.client, e.f, e.i))
  {
    hide Log, LinkOf, S.WireOk, Tagged, TagsOnce, SentAt, Echoes;
    assert LinkOk(server, s.client.written, c, LinkOf(s, c));
    var j := ReplyPlace(server, LinkOf(s, c), p);
  }

  lemma NewEntryKnown(s: System, server: Server, l: Label, e: Entry, id: string, namespace: string)
    requires Inv(s.client) && NoWrap(s.client) && WrittenOk(s.client) && LinksOk(s, server) && AnswersHandled(s)
    requires ClientEnabled(s.client, l) && TakesNext(s.client, l) && Announcing(server, e, id, namespace)
    requires var k := LinkOf(s, s.client.conn);
      k.done < |Log(k)| && e == Log(k)[k.done] && MessageOf(server, e) == s.client.pc.msgs[0]
    ensures KnownFor(Apply(s.client, l), e, id)
  {
    hide Inv, Apply, Enabled, WrittenOk, LinksOk, AnswersHandled, LinkOf, Log, MessageOf, Grows, OpsSuccessor;
    var c := s.client;
    AnnouncingMessage(server, e, id, namespace);
    ReplyWritten(s, server, c.conn, LinkOf(s, c.conn).done);
    hide Announcing, SubError, DecodeText, IsResponse, IsNotification;
    var r := e.f.reqs[e.i];
    var (o, i) := c.owner[r.serial - 1];
    StepGrows(c, l);
    SentByStays(c, l, Apply(c, l), r);
    RequestFate(c, o, i);
    NotAnsweredYet(s, server, o, IdOf(r));
    if c.core.ops[o].kind == Subscribe && IdOf(r) in c.core.respWait {
      ReplyRegisters(c, l, o, id);
    } else {
      ExcusedStays(c, l, Apply(c, l), o);
    }
  }

  lemma ExcusedStays(s: State, l: Label, s': State, o: OpRef)
    requires OpsSuccessor(s, l, s'.core.ops) && o in s.core.ops && Excused(s.core.ops[o])
    ensures o in s'.core.ops && Excused(s'.core.ops[o])
  {
    assert OpSuccessor(Handled(s, l), TakesOver(s, l, o), s.core.ops[o], s'.core.ops[o]);
  }

  /** On the same connection, what was known stays known, and the reply just handled becomes known. */
  lemma SameConnKnown(s: System, server: Server, l: SysLabel, cl: Label, s': System, p: nat)
    requires Inv(s.client) && NoWrap(s.client) && SysInv(s, server) && ClientStep(s, server, l, cl, s')
    requires s'.client.conn == s.client.conn && s.client.core.reading && Open(s.client.pc)
    requires !cl.TakeReadError? && !cl.CloseClient?
    requires TakesNext(s.client, cl) ==>
      var k := LinkOf(s, s.client.conn);
      k.done < |Log(k)| && MessageOf(server, Log(k)[k.done]) == s.client.pc.msgs[0]
    requires var k := LinkOf(s, s.client.conn);
      p < |Log(k)| && (p < k.done || (p == k.done && TakesNext(s.client, cl)))
    ensures EntryKnown(s'.client, server, Log(LinkOf(s, s.client.conn))[p])
  {
    hide Inv, Apply, Enabled, WrittenOk, LinksOk, ConnsFresh, PassageOk, AnswersHandled, LinkOf, Log;
    hide MessageOf, MessagesOf, Grows, OpsSuccessor, KnownFor, Announcing;
    var k := LinkOf(s, s.client.conn);
    if p < k.done {
      StepGrows(s.client, cl);
      SubsStay(s.client, cl);
      hide EntryKnown;
      EntryStaysKnown(s.client, server, cl, s'.client, Log(k)[p]);
    } else {
      forall id, namespace | Announcing(server, Log(k)[p], id, namespace) ensures KnownFor(s'.client, Log(k)[p], id) {
        NewEntryKnown(s, server, cl, Log(k)[p], id, namespace);
      }
    }
  }

  /** When the loop still reads after a step, on the same connection, it did so before, and no table was closed. */
  lemma StillReading(s: System, server: Server, l: SysLabel, cl: Label, s': System)
    requires ReadersHere(s.client) && ConnsFresh(s) && ClientStep(s, server, l, cl, s')
    requires Open(s'.client.pc) && s'.client.core.reading && s'.client.conn == s.client.conn
    ensures Open(s.client.pc) && s.client.core.reading && !cl.TakeReadError? && !cl.CloseClient?
  {
    ReadingStays(s.client, cl);
    assert cl.HandOver? ==> s.client.core.reading by { HandOverMoves(s.client, cl); }
    OpenBefore(s.client, cl);
    hide Apply, Enabled, LinkOf, Log, MessagesOf;
  }

  lemma OpenBefore(s: State, l: Label)
    requires ClientEnabled(s, l) && Open(Apply(s, l).pc)
    ensures Open(s.pc) && !l.CloseClient?
  {
    hide Register, FinishSend, Respond, CloseOps, InspectOp, Linked;
  }

  lemma HandOverMoves(s: State, l: Label)
    requires ReadersHere(s) && ClientEnabled(s, l) && DialledFresh(s)
    ensures l.HandOver? && Apply(s, l).conn == s.conn ==> s.core.reading
  {
    hide Register, FinishSend, Respond, CloseOps, InspectOp, Linked;
  }

  lemma ClientKeepsKnown(s: System, server: Server, l: SysLabel, cl: Label, s': System)
    requires Inv(s.client) && NoWrap(s.client) && SysInv(s, server) && ClientStep(s, server, l, cl, s')
    requires ReadersHere(s.client)
    requires TakesNext(s.client, cl) ==>
      var k := LinkOf(s, s.client.conn);
      k.done < |Log(k)| && MessageOf(server, Log(k)[k.done]) == s.client.pc.msgs[0]
    ensures AllKnown(s', server)
  {
    hide Inv, Apply, ClientEnabled, WrittenOk, LinksOk, PassageOk, AnswersHandled, AllKnown, LinkOf, Log;
    hide MessageOf, MessagesOf, EntryKnown, ConnsFresh, ReadersHere;
    var k, k' := LinkOf(s, s.client.conn), LinkOf(s', s'.client.conn);
    if Open(s'.client.pc) && s'.client.core.reading {
      if s'.client.conn != s.client.conn {
        NewConnFresh(s, server, l, cl, s');
        KnownVacuously(s', server);
      } else {
        StillReading(s, server, l, cl, s');
        SameLog(server, k, k');
        forall p | 0 <= p < k'.done && p < |Log(k')| ensures EntryKnown(s'.client, server, Log(k')[p]) {
          SameConnKnown(s, server, l, cl, s', p);
        }
        KnownAtAll(s', server);
      }
    } else {
      KnownClosed(s', server);
    }
  }

  lemma KnownVacuously(s: System, server: Server)
    requires LinkOf(s, s.client.conn).done == 0
    ensures AllKnown(s, server)
  {
    hide LinkOf, Log, EntryKnown;
  }

  lemma KnownClosed(s: System, server: Server)
    requires !(Open(s.client.pc) && s.client.core.reading)
    ensures AllKnown(s, server)
  {
    hide LinkOf, Log, EntryKnown;
  }

  lemma KnownAtAll(s: System, server: Server)
    requires var k := LinkOf(s, s.client.conn);
      forall p :: 0 <= p < k.done && p < |Log(k)| ==> EntryKnown(s.client, server, Log(k)[p])
    ensures AllKnown(s, server)
  {
    hide LinkOf, Log, EntryKnown;
  }

  lemma ClientKeepsInv(s: System, server: Server, l: SysLabel, s': System)
    requires Inv(s.client) && NoWrap(s.client) && SysInv(s, server) && SysStep(s, server, l, s') && !l.ServerMoves?
    ensures SysInv(s', server)
  {
    hide Inv, SysStep, Apply, ClientEnabled, WrittenOk, LinksOk, ConnsFresh, PassageOk, AnswersHandled, AllKnown;
    hide LinkOf, Log, MessageOf, MessagesOf, OpsSuccessor, ReadersHere;
    var cl := StepOfClient(s, server, l, s');
    assert DialledFresh(s.client) by { FreshDials(s); }
    OneReaderHere(s.client);
    if TakesNext(s.client, cl) {
      NextEntry(s, server);
    }
    GrowsOf(s.client, cl);
    WrittenStep(s.client, cl);
    DialledStep(s.client, cl);
    ClientKeepsLinks(s, server, l, cl, s');
    ClientKeepsFresh(s, server, l, cl, s');
    ClientKeepsPassage(s, server, l, cl, s');
    ClientKeepsAnswers(s, server, l, cl, s');
    ClientKeepsKnown(s, server, l, cl, s');
  }

  lemma FreshDials(s: System)
    requires ConnsFresh(s)
    ensures DialledFresh(s.client)
  {
    hide DialledFresh, LinkOf;
  }

  lemma GrowsOf(s: State, l: Label)
    requires Inv(s) && ClientEnabled(s, l)
    ensures OpsSuccessor(s, l, Apply(s, l).core.ops)
  {
    hide Inv, Apply, Enabled, OpsSuccessor;
    StepGrows(s, l);
  }

  // ----- every run

  lemma NewLinkOk(server: Server, written: set<Frame>, c: ConnRef)
    ensures LinkOk(server, written, c, NEW_LINK)
  {
  }

  lemma InitialInv(server: Server, conn: ConnRef, reader: ReaderRef)
    ensures SysInv(System(Init(conn, reader), map[]), server)
  {
    var s := System(Init(conn, reader), map[]);
    hide LinkOk;
    forall c ensures LinkOk(server, s.client.written, c, LinkOf(s, c)) {
      NewLinkOk(server, s.client.written, c);
    }
  }

  /** A step of the system is a step of its client, or leaves the client alone. */
  lemma ClientPart(s: System, server: Server, l: SysLabel, s': System)
    requires SysStep(s, server, l, s')
    ensures s.client.owner <= s'.client.owner
    ensures Reachable(s.client) ==> Reachable(s'.client)
  {
    if !l.ServerMoves? {
      var cl := StepOfClient(s, server, l, s');
      hide SysStep, Reachable, Apply, Enabled, LinkOf, Log;
      OwnerGrows(s.client, cl);
      if Reachable(s.client) {
        ReachableStep(s.client, cl, s'.client);
      }
    } else {
      ServerLeavesClient(s, server, l, s');
      hide SysStep, Reachable;
    }
  }

  lemma ServerLeavesClient(s: System, server: Server, l: SysLabel, s': System)
    requires SysStep(s, server, l, s') && l.ServerMoves?
    ensures s'.client == s.client
  {
    hide ServerApply, ServerEnabled;
  }

  lemma RunStart(states: seq<System>, server: Server, labels: seq<SysLabel>)
    requires SysRun(states, server, labels)
    ensures Reachable(states[0].client) && SysInv(states[0], server)
  {
    hide Reachable, SysInv, SysStep;
    var conn, reader :| states[0] == System(Init(conn, reader), map[]);
    ReachableInit(conn, reader);
    InitialInv(server, conn, reader);
  }

  lemma {:induction false} SystemRun(states: seq<System>, server: Server, labels: seq<SysLabel>, n: nat)
    requires R.RegistryOk(server.services) && SysRun(states, server, labels)
    requires n <= |labels| && NoWrap(states[n].client)
    ensures Reachable(states[n].client) && SysInv(states[n], server)
  {
    hide Reachable, SysInv, SysStep, Init;
    if n == 0 {
      RunStart(states, server, labels);
    } else {
      var s, l, s' := states[n - 1], labels[n - 1], states[n];
      assert SysStep(s, server, l, s');
      ClientPart(s, server, l, s');
      SystemRun(states, server, labels, n - 1);
      hide SysRun;
      if l.ServerMoves? {
        ServerKeepsInv(s, server, l, s');
      } else {
        ReachableInv(s.client);
        ClientKeepsInv(s, server, l, s');
      }
    }
  }

  /** The next message of the connection in use, and what is known about the id if it is a notification. */
  ghost predicate NextIsKnown(s: System, server: Server) {
    var k := LinkOf(s, s.client.conn);
    && k.done < |Log(k)| && s.client.pc.Handling? && s.client.pc.msgs != []
    && MessageOf(server, Log(k)[k.done]) == s.client.pc.msgs[0]
    && (Log(k)[k.done].Note? ==>
          exists q :: 0 <= q < k.done && Announcing(server, Log(k)[q], Log(k)[k.done].id, Log(k)[k.done].namespace)
            && KnownFor(s.client, Log(k)[q], Log(k)[k.done].id))
  }

  lemma InvKnowsNext(s: System, server: Server)
    requires Inv(s.client) && SysInv(s, server) && s.client.pc.Handling? && s.client.pc.msgs != []
    ensures NextIsKnown(s, server)
  {
    hide Inv, WrittenOk, ConnsFresh, AnswersHandled, LinkOf, Log, Announcing, KnownFor, MessageOf, MessagesOf;
    var k := LinkOf(s, s.client.conn);
    OneReaderHere(s.client);
    NextEntry(s, server);
    assert LinkOk(server, s.client.written, s.client.conn, k);
    hide LinksOk;
    if Log(k)[k.done].Note? {
      S.WireOrdered(k.server, HostOf(server));
      hide S.WireOk, S.Ordered, Tagged, TagsOnce;
      var q := AnnouncedBefore(server, k, k.done);
      assert EntryKnown(s.client, server, Log(k)[q]);
    }
  }

  /**
   Why a notification can be unknown. In every run, when the loop handles a notification, it is the next
   message of its connection, and an earlier message of that connection was the response to a subscribe
   request of this client that announced its id in its namespace. Either a subscription is registered
   under that id, or the operation of that request was no Subscribe, or its send was reported as failed,
   or it was closed with an error.
   */
  lemma UnknownOnlyIfExcused(states: seq<System>, server: Server, labels: seq<SysLabel>, n: nat)
    requires R.RegistryOk(server.services) && SysRun(states, server, labels) && n < |labels| && NoWrap(states[n].client)
    requires HandlesMessage(states[n].client, labels[n])
    ensures NextIsKnown(states[n], server)
  {
    hide Reachable, SysInv, NextIsKnown;
    SystemRun(states, server, labels, n);
    hide SysRun;
    ReachableInv(states[n].client);
    hide Inv;
    InvKnowsNext(states[n], server);
  }
}
