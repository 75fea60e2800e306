/**
 The whole client, and a server connection behind each of its connections, with the wire in the order
 it was written. Here the loop itself decides which operation a response belongs to. The result: a
 notification finds no subscription only if the request that started it was not sent by Subscribe, or
 its send was reported as failed, or its operation was closed with an error.
 */
module Conversation {
  import opened GoRuntime
  import opened ClientModel
  import opened ClientProtocol
  import C = Composition
  import N = Notifications
  import P = RequestParser
  import Pipe = RequestPipeline
  import R = Registration
  import S = ServerConnection

  type Server = C.Server

  function HostOf(server: Server): S.Host {
    S.Host(server.services, server.decodes)
  }

  // ----- what travels from server to client

  /** One message on the wire: response i to a frame of the client, or a notification. */
  datatype Entry =
    | Reply(f: Frame, i: nat, response: Pipe.Response)
    | Note(id: string, namespace: string, data: string)

  /** The request asks for a subscription, so that its successful answer is an id, a string. */
  predicate IsSubscribe(r: P.JsonRequest) {
    S.SubscribeRequest(r, P.TrimSuffix(r.name, P.SUBSCRIBE_SUFFIX))
  }

  function MessageOf(server: Server, e: Entry): Message {
    match e
    case Note(id, namespace, data) => Message("", namespace + "_subscription", id + data, None, NoResult, None)
    case Reply(f, i, response) =>
      var id := C.IdOnWire(response.id);
      match response.body
      case Failure(error) => Message(id, "", "", Some(server.describe(error)), NoResult, None)
      case Success(text) =>
        var isId := i < |f.reqs| && IsSubscribe(C.AsJson(f.reqs[i], server));
        Message(id, "", "", None, if isId then Text(text) else server.encode(text), None)
  }

  function MessagesOf(server: Server, es: seq<Entry>): seq<Message> {
    seq(|es|, k requires 0 <= k < |es| => MessageOf(server, es[k]))
  }

  /** The entry answers a subscribe request in the namespace with the id, under the id of that request. */
  predicate Announcing(server: Server, e: Entry, id: string, namespace: string) {
    && e.Reply? && e.i < |e.f.reqs|
    && S.SubscribeRequest(C.AsJson(e.f.reqs[e.i], server), namespace)
    && e.response == Pipe.Response(P.NumberId(IdOf(e.f.reqs[e.i])), Pipe.Success(id))
  }

  function EntriesOf(w: N.Write, tag: Frame): seq<Entry> {
    match w
    case Notification(id, namespace, data) => [Note(id, namespace, data)]
    case Replies(_, responses) => seq(|responses|, i requires 0 <= i < |responses| => Reply(tag, i, responses[i]))
  }

  /** All messages of the writes, in order; `tags` are the client's frames that they answer. */
  function Flat(wire: seq<N.Write>, tags: seq<Frame>): seq<Entry>
    requires |tags| == |wire|
  {
    if wire == [] then []
    else Flat(wire[..|wire| - 1], tags[..|wire| - 1]) + EntriesOf(wire[|wire| - 1], tags[|wire| - 1])
  }

  /**
   One connection: the server's side of it, and how far the client has come. `tags` and `open` are
   history: the frames that writes answer and that goroutines work on. The reader has taken `read`
   messages, and the loop has handled `done` of them.
   */
  datatype Link = Link(
    server: S.State, tags: seq<Frame>, open: map<nat, Frame>, taken: set<Frame>, read: nat, done: nat)

  const NEW_LINK: Link := Link(S.INITIAL, [], map[], {}, 0, 0)

  function Wire(k: Link): seq<N.Write> {
    k.server.notifier.wire
  }

  function Log(k: Link): seq<Entry> {
    if |k.tags| == |Wire(k)| then Flat(Wire(k), k.tags) else []
  }

  // ----- the system

  datatype System = System(client: State, links: map<ConnRef, Link>)

  function LinkOf(s: System, c: ConnRef): Link {
    if c in s.links then s.links[c] else NEW_LINK
  }

  datatype SysLabel =
    | ClientMoves(l: Label)
    | ReaderReads(reader: ReaderRef, n: nat)
    | ServerMoves(conn: ConnRef, sl: S.Label, f: Frame)

  /** Steps by which the server takes a frame from the connection. */
  predicate TakesFrame(sl: S.Label) {
    sl.Read? || sl.Reject? || sl.Refuse?
  }

  ghost predicate ServerEnabled(client: State, server: Server, c: ConnRef, k: Link, sl: S.Label, f: Frame) {
    && S.Enabled(k.server, HostOf(server), sl)
    && (TakesFrame(sl) ==> f in client.written && f.conn == c && f !in k.taken && C.AsIncoming(f, server) == sl.frame)
    && (sl.WriteResponses? ==> sl.t in k.open)
  }

  /** The frame that a step's write answers, if it writes responses. */
  function TagOf(k: Link, sl: S.Label, f: Frame): Frame {
    if sl.WriteResponses? && sl.t in k.open then k.open[sl.t] else f
  }

  ghost function ServerApply(server: Server, k: Link, sl: S.Label, f: Frame): Link
    requires S.Enabled(k.server, HostOf(server), sl)
  {
    var server' := S.Apply(k.server, HostOf(server), sl);
    k.(server := server',
       tags := if |server'.notifier.wire| > |Wire(k)| then k.tags + [TagOf(k, sl, f)] else k.tags,
       open := if sl.Read? then k.open[sl.t := f] else k.open,
       taken := if TakesFrame(sl) then k.taken + {f} else k.taken)
  }

  /** The step of the client that a step of the system is, if it is one. */
  function ClientLabel(s: System, server: Server, l: SysLabel): Option<Label> {
    match l
    case ClientMoves(cl) => Some(cl)
    case ReaderReads(r, n) =>
      if r !in s.client.readers then None else
      var k := LinkOf(s, s.client.readers[r].conn);
      if k.read + n > |Log(k)| then None else
      Some(ReaderGets(r, MessagesOf(server, Log(k)[k.read..k.read + n])))
    case ServerMoves(_, _, _) => None
  }

  ghost predicate ClientEnabled(client: State, cl: Label) {
    Enabled(client, cl) && Linked(client.core) && (cl.SendDone? ==> client.core.lastOp.Some?)
  }

  ghost predicate SysEnabled(s: System, server: Server, l: SysLabel) {
    match l
    case ServerMoves(c, sl, f) => ServerEnabled(s.client, server, c, LinkOf(s, c), sl, f)
    case _ =>
      && ClientLabel(s, server, l).Some? && ClientEnabled(s.client, ClientLabel(s, server, l).value)
      && (l.ClientMoves? ==> !l.l.ReaderGets?)
  }

  /** The loop handles the next message it took from its connection. */
  predicate HandlesMessage(client: State, l: SysLabel) {
    l.ClientMoves? && l.l.HandleNext? && client.pc.Handling? && client.pc.msgs != []
  }

  ghost function SysApply(s: System, server: Server, l: SysLabel): System
    requires SysEnabled(s, server, l)
  {
    match l
    case ServerMoves(c, sl, f) => s.(links := s.links[c := ServerApply(server, LinkOf(s, c), sl, f)])
    case ReaderReads(r, n) =>
      var c := s.client.readers[r].conn;
      System(Apply(s.client, ClientLabel(s, server, l).value),
             s.links[c := LinkOf(s, c).(read := LinkOf(s, c).read + n)])
    case ClientMoves(cl) =>
      var c := s.client.conn;
      System(Apply(s.client, cl),
             if !HandlesMessage(s.client, l) then s.links
             else s.links[c := LinkOf(s, c).(done := LinkOf(s, c).done + 1)])
  }

  ghost predicate SysStep(s: System, server: Server, l: SysLabel, s': System) {
    SysEnabled(s, server, l) && s' == SysApply(s, server, l)
  }

  ghost predicate SysRun(states: seq<System>, server: Server, labels: seq<SysLabel>) {
    && |states| == |labels| + 1
    && (exists conn, reader :: states[0] == System(Init(conn, reader), map[]))
    && forall i :: 0 <= i < |labels| ==> SysStep(states[i], server, labels[i], states[i + 1])
  }

  // ----- the log follows the wire

  lemma FlatOneMore(wire: seq<N.Write>, tags: seq<Frame>, w: N.Write, tag: Frame)
    requires |tags| == |wire|
    ensures Flat(wire + [w], tags + [tag]) == Flat(wire, tags) + EntriesOf(w, tag)
  {
    assert (wire + [w])[..|wire|] == wire && (tags + [tag])[..|wire|] == tags;
  }

  lemma {:induction false} FlatPrefix(wire: seq<N.Write>, tags: seq<Frame>, n: nat)
    requires |tags| == |wire| && n <= |wire|
    ensures Flat(wire[..n], tags[..n]) <= Flat(wire, tags)
    decreases |wire|
  {
    if n == |wire| {
      assert wire[..n] == wire && tags[..n] == tags;
    } else {
      var m := |wire| - 1;
      assert wire[..m][..n] == wire[..n] && tags[..m][..n] == tags[..n];
      FlatPrefix(wire[..m], tags[..m], n);
    }
  }

  /** Where an entry of the log comes from. */
  lemma {:induction false} FlatSource(wire: seq<N.Write>, tags: seq<Frame>, k: nat) returns (j: nat)
    requires |tags| == |wire| && k < |Flat(wire, tags)|
    ensures j < |wire| && |Flat(wire[..j], tags[..j])| <= k
    ensures k - |Flat(wire[..j], tags[..j])| < |EntriesOf(wire[j], tags[j])|
    ensures Flat(wire, tags)[k] == EntriesOf(wire[j], tags[j])[k - |Flat(wire[..j], tags[..j])|]
  {
    var m := |wire| - 1;
    assert Flat(wire, tags) == Flat(wire[..m], tags[..m]) + EntriesOf(wire[m], tags[m]);
    hide EntriesOf, Flat;
    if k < |Flat(wire[..m], tags[..m])| {
      j := FlatSource(wire[..m], tags[..m], k);
      assert wire[..m][..j] == wire[..j] && tags[..m][..j] == tags[..j];
    } else {
      j := m;
    }
  }

  /** Where an entry of a write is in the log. */
  lemma FlatPlace(wire: seq<N.Write>, tags: seq<Frame>, j: nat, i: nat)
    requires |tags| == |wire| && j < |wire| && i < |EntriesOf(wire[j], tags[j])|
    ensures |Flat(wire[..j], tags[..j])| + i < |Flat(wire[..j + 1], tags[..j + 1])| <= |Flat(wire, tags)|
    ensures Flat(wire, tags)[|Flat(wire[..j], tags[..j])| + i] == EntriesOf(wire[j], tags[j])[i]
  {
    hide Flat, EntriesOf;
    FlatPrefix(wire, tags, j + 1);
    assert wire[..j + 1] == wire[..j] + [wire[j]] && tags[..j + 1] == tags[..j] + [tags[j]];
    FlatOneMore(wire[..j], tags[..j], wire[j], tags[j]);
  }

  // ----- the server's side of a connection

  /** Responses echo the ids of the requests of the frame, except the error for a frame that does not parse. */
  ghost predicate Echoes(f: Frame, responses: seq<Pipe.Response>) {
    forall i :: 0 <= i < |responses| ==>
      || responses[i].id == P.NoId
      || (i < |f.reqs| && responses[i].id == P.NumberId(IdOf(f.reqs[i])))
  }

  /** A goroutine works on a frame of the client. */
  ghost predicate TaskTagged(server: Server, k: Link, t: nat) {
    && t in k.server.tasks && t in k.open && k.open[t] in k.taken
    && k.server.tasks[t].frame == C.AsIncoming(k.open[t], server)
    && Echoes(k.open[t], k.server.tasks[t].responses)
  }

  /** A write of responses answers a frame of the client. */
  ghost predicate WriteTagged(server: Server, k: Link, j: nat)
    requires |k.tags| == |Wire(k)|
  {
    j < |Wire(k)| && Wire(k)[j].Replies? ==>
      && k.tags[j] in k.taken && Wire(k)[j].frame == C.AsIncoming(k.tags[j], server)
      && Echoes(k.tags[j], Wire(k)[j].responses)
  }

  ghost predicate Tagged(server: Server, k: Link) {
    && |k.tags| == |Wire(k)|
    && (forall t :: t in k.server.tasks ==> TaskTagged(server, k, t))
    && (forall j: nat :: j < |Wire(k)| ==> WriteTagged(server, k, j))
  }

  /** A goroutine that still has to write. */
  predicate Working(k: Link, t: nat) {
    t in k.server.tasks && t in k.open && !k.server.tasks[t].written
  }

  /** No frame is answered twice: frames of writes and of goroutines that still have to write are all different. */
  ghost predicate TagsOnce(k: Link) {
    && |k.tags| == |Wire(k)|
    && (forall i, j :: 0 <= i < j < |Wire(k)| && Wire(k)[i].Replies? && Wire(k)[j].Replies? ==> k.tags[i] != k.tags[j])
    && (forall t, j :: Working(k, t) && 0 <= j < |Wire(k)| && Wire(k)[j].Replies? ==> k.open[t] != k.tags[j])
    && (forall t, u :: Working(k, t) && Working(k, u) && t != u ==> k.open[t] != k.open[u])
  }

  ghost predicate LinkOk(server: Server, written: set<Frame>, c: ConnRef, k: Link) {
    && S.WireOk(k.server, HostOf(server)) && Tagged(server, k) && TagsOnce(k)
    && (forall f :: f in k.taken ==> f in written && f.conn == c)
    && k.done <= k.read <= |Log(k)|
  }

  // ----- what a step of the server does to tags

  /** A frame that parses has as many requests as the server resolves, with the ids the client gave them. */
  lemma FrameResolves(server: Server, f: Frame)
    requires Pipe.ParseFrame(C.AsIncoming(f, server)).Some?
    ensures C.Refusable(f, server)
    ensures forall i :: 0 <= i < |f.reqs| ==> C.Resolved(f, server)[i].id == P.NumberId(IdOf(f.reqs[i]))
  {
    S.ElementsParsed(C.AsIncoming(f, server));
    assert !C.AsIncoming(f, server).Unreadable?;
    hide Pipe.ParseFrame, Pipe.Resolve;
    forall i | 0 <= i < |f.reqs| ensures C.Resolved(f, server)[i].id == P.NumberId(IdOf(f.reqs[i])) {
      C.ResolvedElement(f, server, i);
    }
  }

  lemma EchoOneMore(f: Frame, responses: seq<Pipe.Response>, response: Pipe.Response)
    requires Echoes(f, responses) && |responses| < |f.reqs|
    requires response.id == P.NumberId(IdOf(f.reqs[|responses|]))
    ensures Echoes(f, responses + [response])
  {
  }

  lemma HandleTagged(server: Server, k: Link, sl: S.Label)
    requires Tagged(server, k) && sl.HandleNext? && S.Enabled(k.server, HostOf(server), sl)
    requires S.TaskOk(HostOf(server), Wire(k), k.server.tasks[sl.t])
    ensures Echoes(k.open[sl.t], S.Apply(k.server, HostOf(server), sl).tasks[sl.t].responses)
  {
    var task, f := k.server.tasks[sl.t], k.open[sl.t];
    var named := S.Unsubscribes(task.reqs[|task.responses|]);
    assert TaskTagged(server, k, sl.t);
    FrameResolves(server, f);
    Pipe.AnswerKeepsId(task.reqs[|task.responses|], true,
                       Pipe.Outcome(named.Some? && named.value in k.server.notifier.active, sl.reply));
    hide Pipe.Handle, Pipe.ParseFrame, Pipe.ResolveFrame, C.AsIncoming, S.OwedOk, S.Unsubscribes, Echoes;
    EchoOneMore(f, task.responses, S.NextHandled(k.server.notifier, task, sl.reply).response);
  }

  /** Goroutines keep their frames and responses; one may have written. */
  ghost predicate TasksKept(k: Link, k': Link) {
    && k'.server.tasks.Keys == k.server.tasks.Keys && k'.open == k.open
    && forall t :: t in k.server.tasks ==>
         && k'.server.tasks[t].frame == k.server.tasks[t].frame
         && k'.server.tasks[t].responses == k.server.tasks[t].responses
         && (k.server.tasks[t].written ==> k'.server.tasks[t].written)
  }

  /** A write of responses to a frame that nobody answered and nobody is about to answer. */
  ghost predicate NewWrite(server: Server, k: Link, k': Link, w: N.Write, tag: Frame) {
    && Wire(k') == Wire(k) + [w] && k'.tags == k.tags + [tag]
    && (w.Replies? ==>
          && tag in k'.taken && w.frame == C.AsIncoming(tag, server) && Echoes(tag, w.responses)
          && (forall j :: 0 <= j < |Wire(k)| && j < |k.tags| && Wire(k)[j].Replies? ==> k.tags[j] != tag)
          && (forall t :: Working(k', t) ==> k'.open[t] != tag))
  }

  lemma PutTagged(server: Server, k: Link, k': Link, w: N.Write, tag: Frame)
    requires Tagged(server, k) && TasksKept(k, k') && k.taken <= k'.taken && NewWrite(server, k, k', w, tag)
    ensures Tagged(server, k')
  {
    hide Echoes, C.AsIncoming;
    forall t | t in k'.server.tasks ensures TaskTagged(server, k', t) {
      assert TaskTagged(server, k, t);
    }
    forall j: nat | j < |Wire(k')| ensures WriteTagged(server, k', j) {
      if j < |Wire(k)| {
        assert WriteTagged(server, k, j);
      }
    }
  }

  lemma PutOnce(server: Server, k: Link, k': Link, w: N.Write, tag: Frame)
    requires TagsOnce(k) && TasksKept(k, k') && NewWrite(server, k, k', w, tag)
    ensures TagsOnce(k')
  {
    hide Echoes, C.AsIncoming;
    var n := |Wire(k)|;
    assert forall j :: 0 <= j < n ==> Wire(k')[j] == Wire(k)[j] && k'.tags[j] == k.tags[j];
    assert forall t :: Working(k', t) ==> Working(k, t) && k'.open[t] == k.open[t];
    hide Wire, Working, TasksKept;
  }

  /** A step without a write, in which no goroutine starts. */
  lemma QuietTags(server: Server, k: Link, k': Link)
    requires Tagged(server, k) && TagsOnce(k) && TasksKept(k, k') && k.taken <= k'.taken
    requires Wire(k') == Wire(k) && k'.tags == k.tags
    ensures Tagged(server, k') && TagsOnce(k')
  {
    hide Echoes, C.AsIncoming;
    forall t | t in k'.server.tasks ensures TaskTagged(server, k', t) {
      assert TaskTagged(server, k, t);
    }
    forall j: nat | j < |Wire(k')| ensures WriteTagged(server, k', j) {
      assert WriteTagged(server, k, j);
    }
    assert forall t :: Working(k', t) ==> Working(k, t) && k'.open[t] == k.open[t];
  }

  ghost predicate TagsOk(server: Server, k: Link) {
    Tagged(server, k) && TagsOnce(k)
  }

  /** A frame that was not taken is nobody's yet. */
  lemma UntakenIsNew(server: Server, k: Link, f: Frame)
    requires Tagged(server, k) && f !in k.taken
    ensures forall j :: 0 <= j < |Wire(k)| && Wire(k)[j].Replies? ==> k.tags[j] != f
    ensures forall t :: t in k.server.tasks && t in k.open ==> k.open[t] != f
  {
    hide Echoes, C.AsIncoming;
    forall j: nat | j < |Wire(k)| && Wire(k)[j].Replies? ensures k.tags[j] != f {
      assert WriteTagged(server, k, j);
    }
    forall t | t in k.server.tasks && t in k.open ensures k.open[t] != f {
      assert TaskTagged(server, k, t);
    }
  }

  /** A goroutine starts on a new frame. */
  lemma StartTags(server: Server, k: Link, k': Link, t: nat, f: Frame)
    requires TagsOk(server, k) && t !in k.server.tasks && f !in k.taken
    requires Wire(k') == Wire(k) && k'.tags == k.tags && k'.open == k.open[t := f] && k'.taken == k.taken + {f}
    requires k'.server.tasks.Keys == k.server.tasks.Keys + {t}
    requires forall u :: u in k.server.tasks ==> k'.server.tasks[u] == k.server.tasks[u]
    requires k'.server.tasks[t].frame == C.AsIncoming(f, server) && k'.server.tasks[t].responses == []
    ensures TagsOk(server, k')
  {
    NothingEchoed(f);
    UntakenIsNew(server, k, f);
    hide Echoes, C.AsIncoming;
    forall u | u in k'.server.tasks ensures TaskTagged(server, k', u) {
      if u != t {
        assert TaskTagged(server, k, u);
      }
    }
    forall j: nat | j < |Wire(k')| ensures WriteTagged(server, k', j) {
      assert WriteTagged(server, k, j);
    }
    assert forall u :: Working(k', u) && u != t ==> Working(k, u) && k'.open[u] == k.open[u];
    hide TaskTagged, WriteTagged, Wire;
  }

  lemma ReadKeepsTags(client: State, server: Server, c: ConnRef, k: Link, sl: S.Label, f: Frame)
    requires TagsOk(server, k) && sl.Read? && ServerEnabled(client, server, c, k, sl, f)
    ensures TagsOk(server, ServerApply(server, k, sl, f))
  {
    hide TagsOk, C.AsIncoming, Pipe.ResolveFrame, Pipe.ParseFrame;
    StartTags(server, k, ServerApply(server, k, sl, f), sl.t, f);
  }

  lemma NothingEchoed(f: Frame)
    ensures Echoes(f, [])
  {
  }

  lemma AnswerKeepsTags(client: State, server: Server, c: ConnRef, k: Link, sl: S.Label, f: Frame)
    requires TagsOk(server, k) && (sl.Reject? || sl.Refuse?) && ServerEnabled(client, server, c, k, sl, f)
    ensures TagsOk(server, ServerApply(server, k, sl, f))
  {
    var k' := ServerApply(server, k, sl, f);
    var w := Wire(k')[|Wire(k)|];
    assert Echoes(f, w.responses) by {
      if sl.Refuse? {
        FrameResolves(server, f);
        hide Pipe.ParseFrame, Pipe.ResolveFrame;
      }
    }
    hide Echoes, C.AsIncoming, Pipe.ResolveFrame, Pipe.ParseFrame, S.Refusals;
    UntakenIsNew(server, k, f);
    hide Tagged, TagsOnce;
    PutTagged(server, k, k', w, f);
    PutOnce(server, k, k', w, f);
  }

  lemma WriteKeepsTags(client: State, server: Server, c: ConnRef, k: Link, sl: S.Label, f: Frame)
    requires TagsOk(server, k) && sl.WriteResponses? && ServerEnabled(client, server, c, k, sl, f)
    ensures TagsOk(server, ServerApply(server, k, sl, f))
  {
    var k' := ServerApply(server, k, sl, f);
    hide Echoes, C.AsIncoming;
    assert TaskTagged(server, k, sl.t) && Working(k, sl.t);
    forall t | Working(k', t) ensures k'.open[t] != k.open[sl.t] {
      assert Working(k, t) && t != sl.t;
    }
    var w := N.Replies(k.server.tasks[sl.t].frame, k.server.tasks[sl.t].responses);
    assert NewWrite(server, k, k', w, k.open[sl.t]) && TasksKept(k, k');
    hide Tagged, TagsOnce, NewWrite, TasksKept;
    PutTagged(server, k, k', w, k.open[sl.t]);
    PutOnce(server, k, k', w, k.open[sl.t]);
  }

  lemma NotifyKeepsTags(client: State, server: Server, c: ConnRef, k: Link, sl: S.Label, f: Frame)
    requires TagsOk(server, k) && sl.NotifyId? && ServerEnabled(client, server, c, k, sl, f)
    ensures TagsOk(server, ServerApply(server, k, sl, f))
  {
    var k' := ServerApply(server, k, sl, f);
    hide Tagged, TagsOnce, Echoes, C.AsIncoming;
    if sl.id in k.server.notifier.active {
      var w := Wire(k')[|Wire(k)|];
      PutTagged(server, k, k', w, f);
      PutOnce(server, k, k', w, f);
    } else {
      QuietTags(server, k, k');
    }
  }

  lemma QuietKeepsTags(client: State, server: Server, c: ConnRef, k: Link, sl: S.Label, f: Frame)
    requires TagsOk(server, k) && (sl.ActivateNext? || sl.CreateId?) && ServerEnabled(client, server, c, k, sl, f)
    ensures TagsOk(server, ServerApply(server, k, sl, f))
  {
    hide Tagged, TagsOnce;
    QuietTags(server, k, ServerApply(server, k, sl, f));
  }

  /** One goroutine gets on with its responses. */
  lemma ProgressTags(server: Server, k: Link, k': Link, t: nat)
    requires TagsOk(server, k) && t in k.server.tasks && t in k.open
    requires Wire(k') == Wire(k) && k'.tags == k.tags && k'.open == k.open && k'.taken == k.taken
    requires k'.server.tasks.Keys == k.server.tasks.Keys
    requires forall u :: u in k.server.tasks && u != t ==> k'.server.tasks[u] == k.server.tasks[u]
    requires k'.server.tasks[t].frame == k.server.tasks[t].frame
    requires k'.server.tasks[t].written == k.server.tasks[t].written
    requires Echoes(k.open[t], k'.server.tasks[t].responses)
    ensures TagsOk(server, k')
  {
    hide Echoes, C.AsIncoming;
    forall u | u in k'.server.tasks ensures TaskTagged(server, k', u) {
      assert TaskTagged(server, k, u);
    }
    forall j: nat | j < |Wire(k')| ensures WriteTagged(server, k', j) {
      assert WriteTagged(server, k, j);
    }
    assert forall u :: Working(k', u) ==> Working(k, u);
    hide TaskTagged, WriteTagged, Wire;
  }

  lemma HandleKeepsTags(client: State, server: Server, c: ConnRef, k: Link, sl: S.Label, f: Frame)
    requires TagsOk(server, k) && sl.HandleNext? && ServerEnabled(client, server, c, k, sl, f)
    requires S.WireOk(k.server, HostOf(server))
    ensures TagsOk(server, ServerApply(server, k, sl, f))
  {
    hide Echoes, C.AsIncoming, S.NextHandled, S.Unsubscribes, S.Returned, S.WireOk, S.TaskOk;
    S.TaskOfState(k.server, HostOf(server), sl);
    HandleTagged(server, k, sl);
    assert TaskTagged(server, k, sl.t);
    hide TagsOk;
    ProgressTags(server, k, ServerApply(server, k, sl, f), sl.t);
  }

  lemma ServerKeepsTags(client: State, server: Server, c: ConnRef, k: Link, sl: S.Label, f: Frame)
    requires TagsOk(server, k) && ServerEnabled(client, server, c, k, sl, f) && S.WireOk(k.server, HostOf(server))
    ensures TagsOk(server, ServerApply(server, k, sl, f))
  {
    hide TagsOk, ServerEnabled, ServerApply, S.WireOk;
    match sl {
      case Read(_, _) => ReadKeepsTags(client, server, c, k, sl, f);
      case Reject(_, _) => AnswerKeepsTags(client, server, c, k, sl, f);
      case Refuse(_) => AnswerKeepsTags(client, server, c, k, sl, f);
      case HandleNext(_, _) => HandleKeepsTags(client, server, c, k, sl, f);
      case WriteResponses(_) => WriteKeepsTags(client, server, c, k, sl, f);
      case NotifyId(_, _) => NotifyKeepsTags(client, server, c, k, sl, f);
      case _ => QuietKeepsTags(client, server, c, k, sl, f);
    }
  }

  /** The log of a connection only grows. */
  lemma LogGrows(server: Server, k: Link, sl: S.Label, f: Frame)
    requires |k.tags| == |Wire(k)| && S.Enabled(k.server, HostOf(server), sl)
    ensures Log(k) <= Log(ServerApply(server, k, sl, f))
    ensures ServerApply(server, k, sl, f).read == k.read && ServerApply(server, k, sl, f).done == k.done
  {
    hide S.Enabled, S.Apply, Flat;
    var k' := ServerApply(server, k, sl, f);
    S.StepWrites(k.server, HostOf(server), sl);
    if |Wire(k')| > |Wire(k)| {
      var w := Wire(k')[|Wire(k)|];
      assert Wire(k') == Wire(k) + [w];
      FlatOneMore(Wire(k), k.tags, w, TagOf(k, sl, f));
    }
  }

  lemma ServerKeepsLink(client: State, server: Server, c: ConnRef, k: Link, sl: S.Label, f: Frame)
    requires R.RegistryOk(server.services) && LinkOk(server, client.written, c, k)
    requires ServerEnabled(client, server, c, k, sl, f)
    ensures LinkOk(server, client.written, c, ServerApply(server, k, sl, f))
  {
    hide S.WireOk, Tagged, TagsOnce, Log, S.Apply, S.Enabled, C.AsIncoming;
    assert |k.tags| == |Wire(k)| by { TagsMatch(server, k); }
    S.StepKeepsWireOk(k.server, HostOf(server), sl);
    ServerKeepsTags(client, server, c, k, sl, f);
    LogGrows(server, k, sl, f);
  }

  lemma TagsMatch(server: Server, k: Link)
    requires Tagged(server, k)
    ensures |k.tags| == |Wire(k)|
  {
  }
}
