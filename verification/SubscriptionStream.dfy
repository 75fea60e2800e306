/**
 A subscription from end to end: one connection of the server, the wire in the order it was written,
 and the client's loop and forwarders behind it. The response that carries a subscription id is
 handled before the first notification for it, so nothing of a subscription is lost on the way.
 */
module SubscriptionStream {
  import opened GoRuntime
  import D = ClientDelivery
  import N = Notifications
  import Pipe = RequestPipeline
  import R = Registration
  import S = ServerConnection

  type Decoder = D.Decoder

  /**
   The client's loop has handled `read` writes and `inner` responses of the next one; `ended` says that it
   closed its tables, after which it takes nothing more from this connection. `carrier` is history: the
   write whose response started each subscription.
   */
  datatype State = State(
    server: S.State, client: D.State, read: nat, inner: nat, ended: bool, carrier: map<D.SubRef, nat>)

  const INITIAL: State := State(S.INITIAL, D.State(map[], map[], None, []), 0, 0, false, map[])

  /**
   `subscriber` is the subscribe operation that a response is matched to, if it is matched to one: the
   loop looks it up by the id of the request. Such an operation sent a subscribe request
   (rpc/client.go:428-436), so the response that starts its subscription answers one.
   */
  datatype Label =
    | ServerMoves(sl: S.Label)
    | HandleResponse(subscriber: Option<D.SubRef>)
    | EndOfWrite
    | HandleNotification
    | ForwarderMoves(dl: D.Label)
    | End

  function Wire(s: State): seq<N.Write> {
    s.server.notifier.wire
  }

  /** The loop is free to handle the next write. */
  predicate Ready(s: State) {
    !s.ended && s.client.delivering == None && s.read < |Wire(s)|
  }

  predicate HasResponse(s: State) {
    Ready(s) && Wire(s)[s.read].Replies? && s.inner < |Wire(s)[s.read].responses|
  }

  /** The response answers a subscribe request with an id. */
  ghost predicate AnnouncesOne(w: N.Write, i: nat) {
    w.Replies? && exists id, namespace :: S.Announces(w.frame, w.responses, i, id, namespace)
  }

  function NextResponse(s: State): Pipe.Response
    requires HasResponse(s)
  {
    Wire(s)[s.read].responses[s.inner]
  }

  predicate IsForwarderStep(l: D.Label) {
    l.Accepted? || l.Dropped? || l.SendFirst? || l.SeeQuit? || l.CloseQuit?
  }

  ghost predicate Enabled(s: State, h: S.Host, l: Label) {
    match l
    case ServerMoves(sl) => S.Enabled(s.server, h, sl)
    case HandleResponse(o) =>
      && HasResponse(s)
      && (o.Some? ==>
            NextResponse(s).body.Success? && AnnouncesOne(Wire(s)[s.read], s.inner) && o.value !in s.client.table)
    case EndOfWrite => Ready(s) && Wire(s)[s.read].Replies? && s.inner == |Wire(s)[s.read].responses|
    case HandleNotification => Ready(s) && Wire(s)[s.read].Notification?
    case ForwarderMoves(dl) => IsForwarderStep(dl) && D.Enabled(s.client, dl)
    case End => s.client.delivering == None
  }

  /** A notification as the client's loop sees it. */
  function AsNote(w: N.Write): D.Note
    requires w.Notification?
  {
    D.Note(w.id, w.data)
  }

  ghost function Apply(s: State, h: S.Host, decode: Decoder, l: Label): State
    requires Enabled(s, h, l)
  {
    match l
    case ServerMoves(sl) => s.(server := S.Apply(s.server, h, sl))
    case HandleResponse(o) =>
      if o == None then s.(inner := s.inner + 1)
      else s.(inner := s.inner + 1, carrier := s.carrier[o.value := s.read],
              client := D.Apply(s.client, D.Start(o.value, NextResponse(s).body.result), decode))
    case EndOfWrite => s.(read := s.read + 1, inner := 0)
    case HandleNotification =>
      s.(read := s.read + 1, client := D.Apply(s.client, D.HandleNotification(AsNote(Wire(s)[s.read])), decode))
    case ForwarderMoves(dl) => s.(client := D.Apply(s.client, dl, decode))
    case End => s.(ended := true, client := D.Apply(s.client, D.CloseAll, decode))
  }

  ghost predicate Step(s: State, h: S.Host, decode: Decoder, l: Label, s': State) {
    Enabled(s, h, l) && s' == Apply(s, h, decode, l)
  }

  ghost predicate IsRun(states: seq<State>, h: S.Host, decode: Decoder, labels: seq<Label>) {
    && |states| == |labels| + 1 && states[0] == INITIAL
    && forall i :: 0 <= i < |labels| ==> Step(states[i], h, decode, labels[i], states[i + 1])
  }

  // ----- the invariant

  /** The notifications among writes, in order. */
  function Notes(wire: seq<N.Write>): seq<D.Note> {
    if wire == [] then []
    else Notes(wire[..|wire| - 1]) + if wire[|wire| - 1].Notification? then [AsNote(wire[|wire| - 1])] else []
  }

  lemma NotesOneMore(wire: seq<N.Write>, n: nat)
    requires n < |wire|
    ensures Notes(wire[..n + 1]) == Notes(wire[..n]) + if wire[n].Notification? then [AsNote(wire[n])] else []
  {
    assert wire[..n + 1][..n] == wire[..n];
  }

  /** How far the loop has read. */
  predicate PositionOk(wire: seq<N.Write>, read: nat, inner: nat) {
    read <= |wire| && (inner > 0 ==> read < |wire| && wire[read].Replies? && inner <= |wire[read].responses|)
  }

  /** The subscription was started by a response of write c, before which the loop had handled the writes up to c. */
  ghost predicate CarrierOk(wire: seq<N.Write>, handled: seq<D.Note>, read: nat, inner: nat, c: nat, sub: D.Sub) {
    && c <= read <= |wire| && (c == read ==> inner > 0) && c < |wire| && S.CarriesId(wire[c], sub.id)
    && sub.since <= |handled| && handled[..sub.since] == Notes(wire[..c])
  }

  ghost predicate ClientOk(s: State) {
    && PositionOk(Wire(s), s.read, s.inner)
    && s.client.handled == Notes(Wire(s)[..s.read])
    && s.carrier.Keys == s.client.table.Keys
    && (forall o :: o in s.client.table ==>
          CarrierOk(Wire(s), s.client.handled, s.read, s.inner, s.carrier[o], s.client.table[o]))
    && (!s.ended ==> forall o :: o in s.client.table ==> s.client.table[o].id in s.client.subs)
  }

  ghost predicate Ok(s: State, h: S.Host, decode: Decoder) {
    S.WireOk(s.server, h) && D.Ok(s.client, decode) && ClientOk(s)
  }

  lemma InitialOk(h: S.Host, decode: Decoder)
    ensures Ok(INITIAL, h, decode)
  {
  }

  lemma ServerKeepsClient(s: State, h: S.Host, l: S.Label)
    requires ClientOk(s) && S.Enabled(s.server, h, l)
    ensures ClientOk(s.(server := S.Apply(s.server, h, l)))
  {
    S.StepWrites(s.server, h, l);
    hide S.Enabled, S.Apply;
    LongerWireOk(s, S.Apply(s.server, h, l));
  }

  lemma LongerWireOk(s: State, server: S.State)
    requires ClientOk(s) && Wire(s) <= server.notifier.wire
    ensures ClientOk(s.(server := server))
  {
    hide Notes, S.CarriesId;
    var wire' := server.notifier.wire;
    assert forall n :: 0 <= n <= |Wire(s)| ==> wire'[..n] == Wire(s)[..n];
    forall o | o in s.client.table
      ensures CarrierOk(wire', s.client.handled, s.read, s.inner, s.carrier[o], s.client.table[o])
    {
      assert CarrierOk(Wire(s), s.client.handled, s.read, s.inner, s.carrier[o], s.client.table[o]);
    }
    hide CarrierOk;
  }

  /** What a forwarder does leaves the loop's tables alone. */
  lemma ForwarderKeeps(d: D.State, l: D.Label, decode: Decoder)
    requires D.Enabled(d, l) && IsForwarderStep(l)
    ensures var d' := D.Apply(d, l, decode);
      && d'.handled == d.handled && d'.subs == d.subs && d'.table.Keys == d.table.Keys
      && forall o :: o in d.table ==> d'.table[o].id == d.table[o].id && d'.table[o].since == d.table[o].since
  {
    hide D.Arrive, D.Emit, D.Leave;
  }

  lemma ForwarderKeepsClient(s: State, l: D.Label, decode: Decoder)
    requires ClientOk(s) && D.Enabled(s.client, l) && IsForwarderStep(l)
    ensures ClientOk(s.(client := D.Apply(s.client, l, decode)))
  {
    ForwarderKeeps(s.client, l, decode);
    hide D.Enabled, D.Apply, Notes, PositionOk, S.CarriesId;
  }

  /** Where a subscription was started does not change when the loop goes on to the next write. */
  lemma CarrierStays(wire: seq<N.Write>, handled: seq<D.Note>, handled': seq<D.Note>, read: nat, inner: nat, c: nat,
                     sub: D.Sub)
    requires CarrierOk(wire, handled, read, inner, c, sub) && handled <= handled' && read < |wire|
    ensures CarrierOk(wire, handled', read + 1, 0, c, sub)
  {
    hide Notes, S.CarriesId;
    assert handled'[..sub.since] == handled[..sub.since];
  }

  lemma NextWriteOk(s: State, client: D.State)
    requires ClientOk(s) && s.read < |Wire(s)| && client.table == s.client.table && client.subs == s.client.subs
    requires client.handled
          == s.client.handled + if Wire(s)[s.read].Notification? then [AsNote(Wire(s)[s.read])] else []
    ensures ClientOk(s.(client := client, read := s.read + 1, inner := 0))
  {
    NotesOneMore(Wire(s), s.read);
    hide Notes, CarrierOk;
    forall o | o in s.client.table
      ensures CarrierOk(Wire(s), client.handled, s.read + 1, 0, s.carrier[o], s.client.table[o])
    {
      CarrierStays(Wire(s), s.client.handled, client.handled, s.read, s.inner, s.carrier[o], s.client.table[o]);
    }
  }

  lemma NotificationKeepsClient(s: State, h: S.Host, decode: Decoder)
    requires ClientOk(s) && Enabled(s, h, HandleNotification)
    ensures ClientOk(Apply(s, h, decode, HandleNotification))
  {
    assert s.inner == 0;
    hide ClientOk;
    NextWriteOk(s, Apply(s, h, decode, HandleNotification).client);
  }

  lemma EndOfWriteKeepsClient(s: State, h: S.Host, decode: Decoder)
    requires ClientOk(s) && Enabled(s, h, EndOfWrite)
    ensures ClientOk(Apply(s, h, decode, EndOfWrite))
  {
    hide ClientOk;
    assert s.client.handled + [] == s.client.handled;
    NextWriteOk(s, s.client);
  }

  /** The loop goes on to the next response. */
  lemma SkipKeepsClient(s: State)
    requires ClientOk(s) && HasResponse(s)
    ensures ClientOk(s.(inner := s.inner + 1))
  {
    hide Notes, S.CarriesId;
  }

  lemma NewCarrierOk(wire: seq<N.Write>, handled: seq<D.Note>, read: nat, inner: nat, sub: D.Sub)
    requires read < |wire| && handled == Notes(wire[..read]) && sub.since == |handled|
    requires S.CarriesId(wire[read], sub.id)
    ensures CarrierOk(wire, handled, read, inner + 1, read, sub)
  {
    hide Notes, S.CarriesId;
    assert handled[..|handled|] == handled;
  }

  /** A subscription starts. */
  lemma StartKeepsClient(s: State, client: D.State, o: D.SubRef, sub: D.Sub)
    requires ClientOk(s) && HasResponse(s) && o !in s.client.table && client.table == s.client.table[o := sub]
    requires client.handled == s.client.handled && sub.since == |s.client.handled|
    requires client.subs == s.client.subs[sub.id := o] && S.CarriesId(Wire(s)[s.read], sub.id)
    ensures ClientOk(s.(client := client, inner := s.inner + 1, carrier := s.carrier[o := s.read]))
  {
    SkipKeepsClient(s);
    NewCarrierOk(Wire(s), s.client.handled, s.read, s.inner, sub);
    hide Notes, CarrierOk, PositionOk, S.CarriesId;
  }

  lemma AnnouncedIsCarried(w: N.Write, i: nat)
    requires AnnouncesOne(w, i)
    ensures i < |w.responses| && w.responses[i].body.Success? && S.CarriesId(w, w.responses[i].body.result)
  {
    hide S.SubscribeRequest;
    var id, namespace :| S.Announces(w.frame, w.responses, i, id, namespace);
    assert S.Carries(w, id, namespace);
  }

  lemma ResponseKeepsClient(s: State, h: S.Host, decode: Decoder, l: Label)
    requires ClientOk(s) && l.HandleResponse? && Enabled(s, h, l)
    ensures ClientOk(Apply(s, h, decode, l))
  {
    hide ClientOk, AnnouncesOne, S.CarriesId;
    SkipKeepsClient(s);
    if l.subscriber.Some? {
      var o, client := l.subscriber.value, Apply(s, h, decode, l).client;
      AnnouncedIsCarried(Wire(s)[s.read], s.inner);
      StartKeepsClient(s, client, o, client.table[o]);
    }
  }

  lemma EndKeepsClient(s: State, h: S.Host, decode: Decoder)
    requires ClientOk(s) && Enabled(s, h, End)
    ensures ClientOk(Apply(s, h, decode, End))
  {
    hide Notes, PositionOk, S.CarriesId;
  }

  lemma StepKeepsOk(s: State, h: S.Host, decode: Decoder, l: Label)
    requires R.RegistryOk(h.services) && Ok(s, h, decode) && Enabled(s, h, l)
    ensures Ok(Apply(s, h, decode, l), h, decode)
  {
    hide S.WireOk, D.Ok, ClientOk, S.Apply, S.Enabled, D.Apply;
    match l {
      case ServerMoves(sl) =>
        S.StepKeepsWireOk(s.server, h, sl);
        ServerKeepsClient(s, h, sl);
      case HandleResponse(o) =>
        ResponseKeepsClient(s, h, decode, l);
        if o.Some? {
          D.StepOk(s.client, decode, D.Start(o.value, NextResponse(s).body.result));
        }
      case EndOfWrite =>
        EndOfWriteKeepsClient(s, h, decode);
      case HandleNotification =>
        NotificationKeepsClient(s, h, decode);
        D.StepOk(s.client, decode, D.HandleNotification(AsNote(Wire(s)[s.read])));
      case ForwarderMoves(dl) =>
        ForwarderKeepsClient(s, dl, decode);
        D.StepOk(s.client, decode, dl);
      case End =>
        EndKeepsClient(s, h, decode);
        D.StepOk(s.client, decode, D.CloseAll);
    }
  }

  lemma {:induction false} RunOk(states: seq<State>, h: S.Host, decode: Decoder, labels: seq<Label>, n: nat)
    requires R.RegistryOk(h.services) && IsRun(states, h, decode, labels) && n <= |labels|
    ensures Ok(states[n], h, decode)
  {
    hide Ok, Apply, Enabled;
    if n == 0 {
      InitialOk(h, decode);
    } else {
      assert Step(states[n - 1], h, decode, labels[n - 1], states[n]);
      RunOk(states, h, decode, labels, n - 1);
      StepKeepsOk(states[n - 1], h, decode, labels[n - 1]);
    }
  }

  // ----- no notification is dropped as unknown

  ghost predicate HasSub(d: D.State, id: string) {
    exists o :: o in d.table && d.table[o].id == id
  }

  /** The loop has handled response i of write j. */
  predicate Passed(s: State, j: nat, i: nat) {
    j < s.read || (j == s.read && i < s.inner)
  }

  /** Every subscription that a handled response announced was started by this client. */
  ghost predicate AllKnown(s: State) {
    forall j: nat, i: nat, id, namespace ::
      (&& Passed(s, j, i) && j < |Wire(s)| && Wire(s)[j].Replies?
       && S.Announces(Wire(s)[j].frame, Wire(s)[j].responses, i, id, namespace)) ==>
        HasSub(s.client, id)
  }

  /** The hypothesis: a response that announces a subscription is matched to a subscribe operation of this client. */
  ghost predicate Matched(s: State, l: Label) {
    l.HandleResponse? && HasResponse(s) && AnnouncesOne(Wire(s)[s.read], s.inner) ==> l.subscriber.Some?
  }

  /** Subscriptions stay in the client's records. */
  lemma SubsStay(s: State, h: S.Host, decode: Decoder, l: Label, id: string)
    requires Enabled(s, h, l) && HasSub(s.client, id)
    ensures HasSub(Apply(s, h, decode, l).client, id)
  {
    var o :| o in s.client.table && s.client.table[o].id == id;
    hide S.Apply, S.Enabled;
    if l.ForwarderMoves? {
      ForwarderKeeps(s.client, l.dl, decode);
      hide D.Apply, D.Enabled;
    }
    assert o in Apply(s, h, decode, l).client.table && Apply(s, h, decode, l).client.table[o].id == id;
  }

  /** What the next position of the loop adds to what it has passed. */
  lemma NewlyPassed(s: State, h: S.Host, decode: Decoder, l: Label, j: nat, i: nat)
    requires ClientOk(s) && Enabled(s, h, l) && Passed(Apply(s, h, decode, l), j, i)
    requires j < |Wire(Apply(s, h, decode, l))| && Wire(Apply(s, h, decode, l))[j].Replies?
    requires i < |Wire(Apply(s, h, decode, l))[j].responses|
    ensures j < |Wire(s)| && Wire(s)[j] == Wire(Apply(s, h, decode, l))[j]
    ensures Passed(s, j, i) || (l.HandleResponse? && j == s.read && i == s.inner)
  {
    if l.ServerMoves? {
      S.StepWrites(s.server, h, l.sl);
    }
    hide S.Apply, S.Enabled, D.Apply, D.Enabled, Notes, CarrierOk;
  }

  lemma StepKeepsKnown(s: State, h: S.Host, decode: Decoder, l: Label)
    requires ClientOk(s) && Enabled(s, h, l) && AllKnown(s) && Matched(s, l)
    ensures AllKnown(Apply(s, h, decode, l))
  {
    var s' := Apply(s, h, decode, l);
    forall j: nat, i: nat, id, namespace | Passed(s', j, i) && j < |Wire(s')| && Wire(s')[j].Replies?
      && S.Announces(Wire(s')[j].frame, Wire(s')[j].responses, i, id, namespace)
      ensures HasSub(s'.client, id)
    {
      NewlyPassed(s, h, decode, l, j, i);
      if Passed(s, j, i) {
        SubsStay(s, h, decode, l, id);
      } else {
        var o := l.subscriber.value;
        assert NextResponse(s).body.result == id;
        assert o in s'.client.table && s'.client.table[o].id == id;
      }
    }
  }

  lemma {:induction false} RunKnown(states: seq<State>, h: S.Host, decode: Decoder, labels: seq<Label>, n: nat)
    requires R.RegistryOk(h.services) && IsRun(states, h, decode, labels) && n <= |labels|
    requires forall i :: 0 <= i < n ==> Matched(states[i], labels[i])
    ensures AllKnown(states[n])
  {
    hide Apply, Enabled, Matched, D.Ok, S.WireOk;
    if n > 0 {
      assert Step(states[n - 1], h, decode, labels[n - 1], states[n]);
      RunKnown(states, h, decode, labels, n - 1);
      RunOk(states, h, decode, labels, n - 1);
      hide ClientOk, AllKnown;
      StepKeepsKnown(states[n - 1], h, decode, labels[n - 1]);
    }
  }

  /**
   The response comes first, end to end. When the loop handles a notification, it has already handled a
   response that answers a subscribe request in its namespace with its id; and if announced subscriptions
   were matched to subscribe operations of this client, the notification is handed to a subscription
   registered under its id, never dropped as unknown.
   */
  lemma NoNotificationUnknown(states: seq<State>, h: S.Host, decode: Decoder, labels: seq<Label>, n: nat)
    requires R.RegistryOk(h.services) && IsRun(states, h, decode, labels) && n < |labels|
    requires labels[n] == HandleNotification && Enabled(states[n], h, labels[n])
    ensures var wire, k := Wire(states[n]), states[n].read;
      exists j :: 0 <= j < k && S.Carries(wire[j], wire[k].id, wire[k].namespace)
    ensures (forall i :: 0 <= i < n ==> Matched(states[i], labels[i])) ==>
      var w, d := Wire(states[n])[states[n].read], states[n + 1].client;
      && d.delivering.Some? && d.delivering.value.1 == w.data
      && d.delivering.value.0 in d.table && d.table[d.delivering.value.0].id == w.id
  {
    var s := states[n];
    var w := Wire(s)[s.read];
    RunOk(states, h, decode, labels, n);
    var j := CarrierBefore(Wire(s), s.read);
    assert Step(s, h, decode, labels[n], states[n + 1]);
    if forall i :: 0 <= i < n ==> Matched(states[i], labels[i]) {
      RunKnown(states, h, decode, labels, n);
      var i :| S.Announces(Wire(s)[j].frame, Wire(s)[j].responses, i, w.id, w.namespace);
      assert Passed(s, j, i) && HasSub(s.client, w.id);
      hide S.WireOk, AllKnown, Matched, IsRun;
      ReachesSub(s.client, decode, w.id);
    }
  }

  /** Of an ordered wire, a write before a notification carries its id. */
  lemma CarrierBefore(wire: seq<N.Write>, k: nat) returns (j: nat)
    requires S.Ordered(wire) && k < |wire| && wire[k].Notification?
    ensures j < k && S.Carries(wire[j], wire[k].id, wire[k].namespace)
  {
    hide S.Carries;
    assert S.Announced(wire[..k], wire[k].id, wire[k].namespace);
    j :| 0 <= j < |wire[..k]| && S.Carries(wire[..k][j], wire[k].id, wire[k].namespace);
    assert wire[..k][j] == wire[j];
  }

  lemma ReachesSub(d: D.State, decode: Decoder, id: string)
    requires D.Ok(d, decode) && id in d.subs
    ensures d.subs[id] in d.table && d.table[d.subs[id]].id == id
  {
    hide D.FlowOk, D.PastOk;
    assert D.RouteOk(d.subs, d.handled, D.OnTheWay(d, d.subs[id]), d.subs[id], d.table[d.subs[id]]);
  }

  // ----- what the subscriber sees of what the server notified

  /** What the server wrote for a subscription id, in order. */
  function Data(id: string, wire: seq<N.Write>): seq<D.Raw> {
    D.For(id, Notes(wire))
  }

  /** No write before c carries the id. */
  ghost predicate FirstCarrier(wire: seq<N.Write>, c: nat, id: string) {
    c <= |wire| && forall j, namespace :: 0 <= j < c ==> !S.Carries(wire[j], id, namespace)
  }

  /** Before the first response that carries an id, nothing is written for it. */
  lemma {:induction false} SilentBefore(wire: seq<N.Write>, c: nat, id: string)
    requires S.Ordered(wire) && FirstCarrier(wire, c, id)
    ensures Data(id, wire[..c]) == []
  {
    hide S.Carries, S.Ordered;
    if c > 0 {
      SilentBefore(wire, c - 1, id);
      NotesOneMore(wire, c - 1);
      if wire[c - 1].Notification? && wire[c - 1].id == id {
        var j := CarrierBefore(wire, c - 1);
        assert false;
      }
      ForConcat(id, Notes(wire[..c - 1]), if wire[c - 1].Notification? then [AsNote(wire[c - 1])] else []);
    }
  }

  lemma {:induction false} ForConcat(id: string, a: seq<D.Note>, b: seq<D.Note>)
    ensures D.For(id, a + b) == D.For(id, a) + D.For(id, b)
  {
    if b == [] {
      assert a + b == a;
    } else {
      var front, last := b[..|b| - 1], b[|b| - 1];
      ForConcat(id, a, front);
      assert (a + b)[..|a + b| - 1] == a + front;
    }
  }

  /** What the loop handled for a subscription since it started, and what the server wrote before. */
  lemma SinceAndBefore(s: State, o: D.SubRef)
    requires ClientOk(s) && o in s.client.table
    ensures s.client.table[o].since <= |s.client.handled| && s.read <= |Wire(s)| && s.carrier[o] <= |Wire(s)|
    ensures var sub := s.client.table[o];
      Data(sub.id, Wire(s)[..s.read])
      == Data(sub.id, Wire(s)[..s.carrier[o]]) + D.For(sub.id, s.client.handled[sub.since..])
  {
    hide Notes;
    var sub, handled := s.client.table[o], s.client.handled;
    assert CarrierOk(Wire(s), handled, s.read, s.inner, s.carrier[o], sub);
    hide ClientOk;
    assert handled == handled[..sub.since] + handled[sub.since..];
    ForConcat(sub.id, handled[..sub.since], handled[sub.since..]);
  }

  /** The position of the loop is on the wire, and every subscription has a carrier. */
  lemma Positions(s: State, h: S.Host, decode: Decoder, o: D.SubRef)
    requires Ok(s, h, decode) && o in s.client.table
    ensures s.read <= |Wire(s)| && o in s.carrier
  {
    hide S.WireOk, D.Ok;
  }

  /** If its response was the first to carry the id, what was handled since is all the server wrote for it. */
  lemma SinceIsAll(s: State, o: D.SubRef)
    requires ClientOk(s) && S.Ordered(Wire(s)) && o in s.client.table && s.read <= |Wire(s)|
    requires FirstCarrier(Wire(s), s.carrier[o], s.client.table[o].id)
    ensures s.client.table[o].since <= |s.client.handled|
    ensures var sub := s.client.table[o];
      Data(sub.id, Wire(s)[..s.read]) == D.For(sub.id, s.client.handled[sub.since..])
  {
    hide S.Ordered, FirstCarrier, Data;
    SinceAndBefore(s, o);
    SilentBefore(Wire(s), s.carrier[o], s.client.table[o].id);
    var since := D.For(s.client.table[o].id, s.client.handled[s.client.table[o].since..]);
    assert [] + since == since;
  }

  lemma OkDeliveredFromTheFirst(s: State, h: S.Host, decode: Decoder, o: D.SubRef)
    requires Ok(s, h, decode) && D.Flowing(s.client, o) && s.read <= |Wire(s)| && o in s.carrier
    requires FirstCarrier(Wire(s), s.carrier[o], s.client.table[o].id)
    ensures var sub := s.client.table[o];
      D.Delivered(decode, o, Data(sub.id, Wire(s)[..s.read]), D.OnTheWay(s.client, o), sub.fwd)
  {
    hide S.WireOk, S.Ordered, ClientOk, FirstCarrier, D.Ok, D.Delivered, Data;
    S.WireOrdered(s.server, h);
    SinceIsAll(s, o);
    D.OkDelivered(s.client, decode, o);
  }

  /**
   Delivery from the server's Notify to the subscriber's channel. While a subscription is registered,
   its quit channel open and its forwarder running, and its response was the first to carry its id, all
   the server wrote for the id and the client has read, decoded, is in order what the subscriber got,
   then the queue; only the payload the loop is just handing over is missing. Not even the first
   notifications are lost.
   */
  lemma DeliveredFromTheFirst(states: seq<State>, h: S.Host, decode: Decoder, labels: seq<Label>, n: nat, o: D.SubRef)
    requires R.RegistryOk(h.services) && IsRun(states, h, decode, labels)
    requires n <= |labels| && o in states[n].client.table
    ensures o in states[n].carrier && states[n].read <= |Wire(states[n])|
    ensures var s, sub := states[n], states[n].client.table[o];
      D.Flowing(s.client, o) && FirstCarrier(Wire(s), s.carrier[o], sub.id) ==>
        D.Delivered(decode, o, Data(sub.id, Wire(s)[..s.read]), D.OnTheWay(s.client, o), sub.fwd)
  {
    var s := states[n];
    RunOk(states, h, decode, labels, n);
    hide IsRun, Ok, FirstCarrier, D.Flowing, D.Delivered, Data;
    Positions(s, h, decode, o);
    if D.Flowing(s.client, o) && FirstCarrier(Wire(s), s.carrier[o], s.client.table[o].id) {
      OkDeliveredFromTheFirst(s, h, decode, o);
    }
  }

  // ----- the same, from the hypotheses on ids

  /** Every step of the server obeys the hypotheses on subscription ids. */
  ghost predicate AllOrderly(states: seq<State>, labels: seq<Label>, n: nat)
    requires n <= |labels| < |states|
  {
    forall i :: 0 <= i < n && labels[i].ServerMoves? ==> S.Orderly(states[i].server, labels[i].sl)
  }

  lemma StepCarriedOnce(s: State, h: S.Host, decode: Decoder, l: Label)
    requires R.RegistryOk(h.services) && S.WireOk(s.server, h) && Enabled(s, h, l)
    requires S.CarriedOnce(s.server) && S.CarriedSpent(s.server)
    requires l.ServerMoves? ==> S.Orderly(s.server, l.sl)
    ensures S.CarriedOnce(Apply(s, h, decode, l).server) && S.CarriedSpent(Apply(s, h, decode, l).server)
  {
    hide S.WireOk, S.CarriedOnce, S.CarriedSpent, S.Orderly, S.Apply, S.Enabled, D.Apply, D.Enabled;
    if l.ServerMoves? {
      S.StepKeepsOnce(s.server, h, l.sl);
    }
  }

  lemma {:induction false} RunCarriedOnce(states: seq<State>, h: S.Host, decode: Decoder, labels: seq<Label>, n: nat)
    requires R.RegistryOk(h.services) && IsRun(states, h, decode, labels) && n <= |labels|
    requires AllOrderly(states, labels, n)
    ensures S.CarriedOnce(states[n].server) && S.CarriedSpent(states[n].server)
  {
    hide S.CarriedOnce, S.CarriedSpent, S.Orderly, Apply, Enabled, S.WireOk, D.Ok, ClientOk;
    if n == 0 {
      S.NothingCarriedYet();
    } else {
      assert Step(states[n - 1], h, decode, labels[n - 1], states[n]);
      RunCarriedOnce(states, h, decode, labels, n - 1);
      RunOk(states, h, decode, labels, n - 1);
      StepCarriedOnce(states[n - 1], h, decode, labels[n - 1]);
    }
  }

  /** The write that started a subscription is then the first to carry its id. */
  lemma CarrierIsFirst(s: State, o: D.SubRef)
    requires ClientOk(s) && S.CarriedOnce(s.server) && o in s.client.table && o in s.carrier
    ensures FirstCarrier(Wire(s), s.carrier[o], s.client.table[o].id)
  {
    hide S.Carries, Notes;
    var c, id := s.carrier[o], s.client.table[o].id;
    assert CarrierOk(Wire(s), s.client.handled, s.read, s.inner, c, s.client.table[o]);
    hide ClientOk;
    forall j, namespace | 0 <= j < c ensures !S.Carries(Wire(s)[j], id, namespace) {
      assert !S.CarriesId(Wire(s)[j], id);
    }
  }

  /**
   Delivery from the first notification on, from the hypotheses on ids alone: created ids are fresh, and
   a callback returns a subscription of its own. While a subscription is registered, its quit channel
   open and its forwarder running, all the server wrote for its id and the client has read, decoded, is
   in order what the subscriber got, then the queue.
   */
  lemma DeliveredWhenFresh(states: seq<State>, h: S.Host, decode: Decoder, labels: seq<Label>, n: nat, o: D.SubRef)
    requires R.RegistryOk(h.services) && IsRun(states, h, decode, labels)
    requires n <= |labels| && o in states[n].client.table && AllOrderly(states, labels, n)
    ensures states[n].read <= |Wire(states[n])|
    ensures var s, sub := states[n], states[n].client.table[o];
      D.Flowing(s.client, o) ==>
        D.Delivered(decode, o, Data(sub.id, Wire(s)[..s.read]), D.OnTheWay(s.client, o), sub.fwd)
  {
    DeliveredFromTheFirst(states, h, decode, labels, n, o);
    RunCarriedOnce(states, h, decode, labels, n);
    RunOk(states, h, decode, labels, n);
    hide IsRun, AllOrderly, FirstCarrier, D.Flowing, D.Delivered, Data, S.WireOk, D.Ok, ClientOk;
    CarrierIsFirst(states[n], o);
  }

  lemma {:induction false} SuffixSubsequence<T>(a: seq<T>, b: seq<T>)
    ensures D.Subsequence(b, a + b)
  {
    if b != [] {
      var front, last := b[..|b| - 1], b[|b| - 1];
      SuffixSubsequence(a, front);
      D.SubsequenceBoth(front, a + front, last);
      assert front + [last] == b && a + front + [last] == a + b;
    }
  }

  /**
   In every state of every run, whatever ended, the subscriber has seen a subsequence of what the server
   wrote for its id: nothing invented, repeated, reordered, or meant for another subscription.
   */
  lemma OnlyWhatWasNotified(states: seq<State>, h: S.Host, decode: Decoder, labels: seq<Label>, n: nat, o: D.SubRef)
    requires R.RegistryOk(h.services) && IsRun(states, h, decode, labels)
    requires n <= |labels| && o in states[n].client.table
    ensures states[n].read <= |Wire(states[n])|
    ensures var s, sub := states[n], states[n].client.table[o];
      D.Subsequence(sub.fwd.sent, D.DecodeAll(decode, o, Data(sub.id, Wire(s)[..s.read])))
  {
    var s := states[n];
    RunOk(states, h, decode, labels, n);
    hide IsRun, Ok, Data, D.DecodeAll, D.Subsequence;
    Positions(s, h, decode, o);
    OkOnlyNotified(s, h, decode, o);
  }

  lemma OkOnlyNotified(s: State, h: S.Host, decode: Decoder, o: D.SubRef)
    requires Ok(s, h, decode) && o in s.client.table && s.read <= |Wire(s)|
    ensures var sub := s.client.table[o];
      D.Subsequence(sub.fwd.sent, D.DecodeAll(decode, o, Data(sub.id, Wire(s)[..s.read])))
  {
    hide S.WireOk, D.Ok, Data, D.DecodeAll, D.Subsequence;
    var sub := s.client.table[o];
    SinceAndBefore(s, o);
    var since, all := D.For(sub.id, s.client.handled[sub.since..]), Data(sub.id, Wire(s)[..s.read]);
    SuffixSubsequence(Data(sub.id, Wire(s)[..s.carrier[o]]), since);
    D.DecodeSubsequence(decode, o, since, all);
    hide ClientOk;
    D.OkSubsequence(s.client, decode, o);
    D.SubsequenceTransitive(sub.fwd.sent, D.DecodeAll(decode, o, since), D.DecodeAll(decode, o, all));
  }
}
