/**
 Delivery of notifications to the channel of a subscriber. The dispatch loop hands each
 notification to the subscription registered under its id, a forwarder goroutine decodes it
 into a bounded queue and sends the queue to the subscriber.
 */
module ClientDelivery {
  import opened GoRuntime

  type SubRef = nat
  type Raw = string
  type Val = string

  /** How the payloads of each subscription decode into the element type of its channel. */
  type Decoder = (SubRef, Raw) -> Option<Val>

  const MAX_BUFFER: nat := 20000

  // ----- sequences of payloads

  /** The decodable payloads, decoded, in order. */
  function DecodeAll(decode: Decoder, o: SubRef, raws: seq<Raw>): seq<Val> {
    if raws == [] then []
    else
      DecodeAll(decode, o, raws[..|raws| - 1])
      + match decode(o, raws[|raws| - 1])
        case Some(v) => [v]
        case None => []
  }

  lemma DecodeOneMore(decode: Decoder, o: SubRef, raws: seq<Raw>, raw: Raw)
    ensures DecodeAll(decode, o, raws + [raw])
         == DecodeAll(decode, o, raws) + if decode(o, raw).Some? then [decode(o, raw).value] else []
  {
    assert (raws + [raw])[..|raws|] == raws;
  }

  /** `a` is `b` with some elements left out. */
  ghost predicate Subsequence<T>(a: seq<T>, b: seq<T>)
    decreases |b|
  {
    a == []
    || (b != []
        && (|| (a[|a| - 1] == b[|b| - 1] && Subsequence(a[..|a| - 1], b[..|b| - 1]))
            || Subsequence(a, b[..|b| - 1])))
  }

  lemma SubsequenceSkip<T>(a: seq<T>, b: seq<T>, x: T)
    requires Subsequence(a, b)
    ensures Subsequence(a, b + [x])
  {
    assert (b + [x])[..|b|] == b;
  }

  lemma SubsequenceBoth<T>(a: seq<T>, b: seq<T>, x: T)
    requires Subsequence(a, b)
    ensures Subsequence(a + [x], b + [x])
  {
    assert (b + [x])[..|b|] == b && (a + [x])[..|a|] == a;
  }

  lemma {:induction false} PrefixSubsequence<T>(a: seq<T>, c: seq<T>, b: seq<T>)
    requires Subsequence(a + c, b)
    ensures Subsequence(a, b)
    decreases |b|, |c|
  {
    if a == [] {
    } else if c == [] {
      assert a + c == a;
    } else {
      var whole, front := a + c, a + c[..|c| - 1];
      assert whole[..|whole| - 1] == front;
      if whole[|whole| - 1] == b[|b| - 1] && Subsequence(front, b[..|b| - 1]) {
        PrefixSubsequence(a, c[..|c| - 1], b[..|b| - 1]);
      } else {
        PrefixSubsequence(a, c, b[..|b| - 1]);
      }
    }
  }

  lemma {:induction false} SubsequenceTransitive<T>(a: seq<T>, b: seq<T>, c: seq<T>)
    requires Subsequence(a, b) && Subsequence(b, c)
    ensures Subsequence(a, c)
    decreases |c|
  {
    if a == [] || b == [] {
    } else if b[|b| - 1] == c[|c| - 1] && Subsequence(b[..|b| - 1], c[..|c| - 1]) {
      if a[|a| - 1] == b[|b| - 1] && Subsequence(a[..|a| - 1], b[..|b| - 1]) {
        SubsequenceTransitive(a[..|a| - 1], b[..|b| - 1], c[..|c| - 1]);
      } else {
        SubsequenceTransitive(a, b[..|b| - 1], c[..|c| - 1]);
      }
    } else {
      SubsequenceTransitive(a, b, c[..|c| - 1]);
    }
  }

  lemma {:induction false} DecodeSubsequence(decode: Decoder, o: SubRef, a: seq<Raw>, b: seq<Raw>)
    requires Subsequence(a, b)
    ensures Subsequence(DecodeAll(decode, o, a), DecodeAll(decode, o, b))
    decreases |b|
  {
    if a != [] {
      var b', raw := b[..|b| - 1], b[|b| - 1];
      assert b == b' + [raw];
      DecodeOneMore(decode, o, b', raw);
      if a[|a| - 1] == raw && Subsequence(a[..|a| - 1], b') {
        var a' := a[..|a| - 1];
        assert a == a' + [raw];
        DecodeOneMore(decode, o, a', raw);
        DecodeSubsequence(decode, o, a', b');
        if decode(o, raw).Some? {
          SubsequenceBoth(DecodeAll(decode, o, a'), DecodeAll(decode, o, b'), decode(o, raw).value);
        } else {
          assert DecodeAll(decode, o, a) == DecodeAll(decode, o, a');
          assert DecodeAll(decode, o, b) == DecodeAll(decode, o, b');
        }
      } else {
        DecodeSubsequence(decode, o, a, b');
        if decode(o, raw).Some? {
          SubsequenceSkip(DecodeAll(decode, o, a), DecodeAll(decode, o, b'), decode(o, raw).value);
        } else {
          assert DecodeAll(decode, o, b) == DecodeAll(decode, o, b');
        }
      }
    }
  }

  // ----- the forwarder

  datatype Stop = SawQuit | BadPayload | Overflow

  /** The forwarder of one subscription: payloads it took, its queue, what it sent, and whether it ended. */
  datatype Forwarder = Forwarder(received: seq<Raw>, buffer: seq<Val>, sent: seq<Val>, stopped: Option<Stop>)

  function NewForwarder(): Forwarder {
    Forwarder([], [], [], None)
  }

  /** A payload arrives: decode it, then queue it unless the queue is full. */
  function Arrive(f: Forwarder, decode: Decoder, o: SubRef, raw: Raw): Forwarder {
    var f' := f.(received := f.received + [raw]);
    match decode(o, raw)
    case None => f'.(stopped := Some(BadPayload), buffer := [])
    case Some(v) =>
      if |f.buffer| == MAX_BUFFER then f'.(stopped := Some(Overflow), buffer := []) else f'.(buffer := f.buffer + [v])
  }

  /** The subscriber takes the first queued value. */
  function Emit(f: Forwarder): Forwarder
    requires f.buffer != []
  {
    f.(sent := f.sent + [f.buffer[0]], buffer := f.buffer[1..])
  }

  /** The quit channel is closed. */
  function Leave(f: Forwarder): Forwarder {
    f.(stopped := Some(SawQuit), buffer := [])
  }

  /** What the forwarder's queue means. */
  ghost predicate ForwarderOk(f: Forwarder, decode: Decoder, o: SubRef) {
    && |f.buffer| <= MAX_BUFFER
    && (if f.stopped == None then DecodeAll(decode, o, f.received) == f.sent + f.buffer
        else f.buffer == [] && f.sent <= DecodeAll(decode, o, f.received))
  }

  lemma ForwarderSteps(f: Forwarder, decode: Decoder, o: SubRef, raw: Raw)
    requires ForwarderOk(f, decode, o) && f.stopped == None
    ensures ForwarderOk(Arrive(f, decode, o, raw), decode, o)
    ensures f.buffer != [] ==> ForwarderOk(Emit(f), decode, o)
    ensures ForwarderOk(Leave(f), decode, o)
  {
    DecodeOneMore(decode, o, f.received, raw);
    assert f.sent <= f.sent + f.buffer;
    if f.buffer != [] {
      assert f.sent + f.buffer == (f.sent + [f.buffer[0]]) + f.buffer[1..];
    }
    if decode(o, raw).Some? {
      assert f.sent + (f.buffer + [decode(o, raw).value]) == (f.sent + f.buffer) + [decode(o, raw).value];
    }
  }

  /** Which case of the forwarder's select fires. */
  datatype Event = Quits | Arrives(raw: Raw) | Sends

  /** The payloads among events. */
  function Payloads(events: seq<Event>): seq<Raw> {
    if events == [] then []
    else Payloads(events[..|events| - 1]) + if events[|events| - 1].Arrives? then [events[|events| - 1].raw] else []
  }

  /** The forwarder after one case fired; once it has ended it takes no further part. */
  function Fire(f: Forwarder, decode: Decoder, o: SubRef, e: Event): Forwarder {
    if f.stopped.Some? then f
    else
      match e
      case Quits => Leave(f)
      case Arrives(raw) => Arrive(f, decode, o, raw)
      case Sends => if f.buffer == [] then f else Emit(f)
  }

  function After(events: seq<Event>, decode: Decoder, o: SubRef): Forwarder {
    if events == [] then NewForwarder()
    else Fire(After(events[..|events| - 1], decode, o), decode, o, events[|events| - 1])
  }

  /** Whatever cases fire, the queue is what arrived and was not yet sent, decoded, in order. */
  lemma {:induction false} AfterOk(events: seq<Event>, decode: Decoder, o: SubRef)
    ensures ForwarderOk(After(events, decode, o), decode, o)
    ensures events == [] || After(events[..|events| - 1], decode, o).stopped == None ==>
      After(events, decode, o).received == Payloads(events)
    ensures After(events, decode, o).stopped == None ==> After(events, decode, o).received == Payloads(events)
  {
    hide DecodeAll;
    if events == [] {
      EmptyForwarderOk(decode, o);
    } else {
      var front, e := events[..|events| - 1], events[|events| - 1];
      AfterOk(front, decode, o);
      if After(front, decode, o).stopped == None {
        ForwarderSteps(After(front, decode, o), decode, o, if e.Arrives? then e.raw else "");
      }
    }
  }

  /** Once ended, always ended the same way. */
  lemma {:induction false} AfterStops(events: seq<Event>, decode: Decoder, o: SubRef, n: nat)
    requires n <= |events| && After(events[..n], decode, o).stopped.Some?
    ensures After(events, decode, o) == After(events[..n], decode, o)
    decreases |events|
  {
    if n == |events| {
      assert events[..n] == events;
    } else {
      var front := events[..|events| - 1];
      assert front[..n] == events[..n];
      AfterStops(front, decode, o, n);
    }
  }

  lemma EmptyForwarderOk(decode: Decoder, o: SubRef)
    ensures ForwarderOk(NewForwarder(), decode, o)
  {
  }

  /**
   The forwarding loop, driven by the cases that fire; the send case is left out while the queue is
   empty. It ends at the first quit, at the first payload that does not decode, or at the first one
   that finds the queue full, and n says how many cases fired until then. What was sent followed by
   the queue is what arrived, decoded, in order.
   */
  method Forward(events: seq<Event>, decode: Decoder, o: SubRef)
    returns (sent: seq<Val>, buffer: seq<Val>, why: Option<Stop>, n: nat)
    ensures n <= |events| && |buffer| <= MAX_BUFFER && (why == None ==> n == |events|)
    ensures why == None ==> DecodeAll(decode, o, Payloads(events)) == sent + buffer
    ensures why.Some? ==> buffer == [] && sent <= DecodeAll(decode, o, Payloads(events[..n]))
    ensures var f := After(events, decode, o); f.sent == sent && f.buffer == buffer && f.stopped == why
    ensures n > 0 ==> After(events[..n - 1], decode, o).stopped == None
    ensures why == Some(SawQuit) ==> n > 0 && events[n - 1] == Quits
    ensures why == Some(BadPayload) ==> n > 0 && events[n - 1].Arrives? && decode(o, events[n - 1].raw) == None
    ensures why == Some(Overflow) ==>
      && n > 0 && events[n - 1].Arrives? && decode(o, events[n - 1].raw).Some?
      && |After(events[..n - 1], decode, o).buffer| == MAX_BUFFER
  {
    hide DecodeAll, Payloads;
    sent, buffer, n := [], [], 0;
    ghost var f := NewForwarder();
    while n < |events|
      invariant n <= |events| && f == After(events[..n], decode, o)
      invariant f.sent == sent && f.buffer == buffer && f.stopped == None
      invariant n > 0 ==> After(events[..n - 1], decode, o).stopped == None
    {
      var e := events[n];
      assert events[..n + 1][..n] == events[..n];
      n := n + 1;
      f := After(events[..n], decode, o);
      AfterOk(events[..n], decode, o);
      match e {
        case Quits =>
          AfterStops(events, decode, o, n);
          return sent, [], Some(SawQuit), n;
        case Arrives(raw) =>
          match decode(o, raw) {
            case None =>
              AfterStops(events, decode, o, n);
              return sent, [], Some(BadPayload), n;
            case Some(v) =>
              if |buffer| == MAX_BUFFER {
                AfterStops(events, decode, o, n);
                return sent, [], Some(Overflow), n;
              }
              buffer := buffer + [v];
          }
        case Sends =>
          if buffer != [] {
            sent, buffer := sent + [buffer[0]], buffer[1..];
          }
      }
    }
    assert events[..n] == events;
    AfterOk(events, decode, o);
    why := None;
  }

  // ----- dispatch and forwarders together

  /** A notification whose method suffix and envelope handleNotification accepts (rpc/client.go:630-641). */
  datatype Note = Note(id: string, raw: Raw)

  /**
   A started subscription: its id, how many notifications had been handled before it was registered,
   the payloads whose delivery is over, its forwarder, and whether its quit channel is closed.
   */
  datatype Sub = Sub(id: string, since: nat, routed: seq<Raw>, fwd: Forwarder, quit: bool)

  /** `handled` are all notifications in dispatch order; `delivering` is the delivery the loop is blocked in. */
  datatype State = State(
    subs: map<string, SubRef>, table: map<SubRef, Sub>, delivering: Option<(SubRef, Raw)>, handled: seq<Note>)

  datatype Label =
    | Start(o: SubRef, id: string)
    | HandleNotification(note: Note)
    | Accepted
    | Dropped
    | SendFirst(o: SubRef)
    | SeeQuit(o: SubRef)
    | CloseQuit(o: SubRef)
    | CloseAll

  ghost predicate Enabled(s: State, l: Label) {
    match l
    case Start(o, _) => s.delivering == None && o !in s.table
    case HandleNotification(_) => s.delivering == None
    case Accepted =>
      s.delivering.Some? && s.delivering.value.0 in s.table && s.table[s.delivering.value.0].fwd.stopped == None
    case Dropped =>
      s.delivering.Some? && s.delivering.value.0 in s.table && s.table[s.delivering.value.0].quit
    case SendFirst(o) => o in s.table && s.table[o].fwd.stopped == None && s.table[o].fwd.buffer != []
    case SeeQuit(o) => o in s.table && s.table[o].fwd.stopped == None && s.table[o].quit
    case CloseQuit(o) => o in s.table
    case CloseAll => s.delivering == None
  }

  ghost function Apply(s: State, l: Label, decode: Decoder): State
    requires Enabled(s, l)
  {
    match l
    case Start(o, id) =>
      s.(subs := s.subs[id := o], table := s.table[o := Sub(id, |s.handled|, [], NewForwarder(), false)])
    case HandleNotification(note) =>
      s.(handled := s.handled + [note],
         delivering := if note.id in s.subs then Some((s.subs[note.id], note.raw)) else None)
    case Accepted =>
      var (o, raw) := s.delivering.value;
      var sub := s.table[o];
      var sub' := sub.(routed := sub.routed + [raw], fwd := Arrive(sub.fwd, decode, o, raw));
      s.(delivering := None, table := s.table[o := sub'])
    case Dropped =>
      var (o, raw) := s.delivering.value;
      s.(delivering := None, table := s.table[o := s.table[o].(routed := s.table[o].routed + [raw])])
    case SendFirst(o) => s.(table := s.table[o := s.table[o].(fwd := Emit(s.table[o].fwd))])
    case SeeQuit(o) => s.(table := s.table[o := s.table[o].(fwd := Leave(s.table[o].fwd))])
    case CloseQuit(o) => s.(table := s.table[o := s.table[o].(quit := true)])
    case CloseAll =>
      s.(subs := map[],
         table := map o | o in s.table :: if o in s.subs.Values then s.table[o].(quit := true) else s.table[o])
  }

  /** The payloads for an id among notifications. */
  function For(id: string, notes: seq<Note>): seq<Raw> {
    if notes == [] then []
    else For(id, notes[..|notes| - 1]) + if notes[|notes| - 1].id == id then [notes[|notes| - 1].raw] else []
  }

  /** The payload on its way to a subscription. */
  function OnTheWay(s: State, o: SubRef): seq<Raw> {
    if s.delivering.Some? && s.delivering.value.0 == o then [s.delivering.value.1] else []
  }

  /** What the forwarder got, compared with what was routed to the subscription. */
  ghost predicate FlowOk(decode: Decoder, o: SubRef, sub: Sub) {
    && ForwarderOk(sub.fwd, decode, o)
    && Subsequence(sub.fwd.received, sub.routed)
    && (!sub.quit ==> sub.fwd.received == sub.routed)
  }

  /** What was routed to a registered subscription, and is on its way, compared with what was handled. */
  ghost predicate RouteOk(subs: map<string, SubRef>, handled: seq<Note>, way: seq<Raw>, o: SubRef, sub: Sub) {
    && sub.since <= |handled|
    && (sub.id in subs && subs[sub.id] == o ==> sub.routed + way == For(sub.id, handled[sub.since..]))
    && (forall id :: id in subs && subs[id] == o ==> id == sub.id)
  }

  /** What was ever routed to a subscription, and is on its way, is part of what was handled for its id, in order. */
  ghost predicate PastOk(handled: seq<Note>, way: seq<Raw>, sub: Sub) {
    sub.since <= |handled| && Subsequence(sub.routed + way, For(sub.id, handled[sub.since..]))
  }

  ghost predicate Ok(s: State, decode: Decoder) {
    && (forall id :: id in s.subs ==> s.subs[id] in s.table)
    && (s.delivering.Some? ==> s.delivering.value.0 in s.table)
    && (forall o :: o in s.table ==> FlowOk(decode, o, s.table[o]))
    && (forall o :: o in s.table ==> RouteOk(s.subs, s.handled, OnTheWay(s, o), o, s.table[o]))
    && (forall o :: o in s.table ==> PastOk(s.handled, OnTheWay(s, o), s.table[o]))
  }

  lemma ForOneMore(id: string, notes: seq<Note>, since: nat, note: Note)
    requires since <= |notes|
    ensures For(id, (notes + [note])[since..]) == For(id, notes[since..]) + if note.id == id then [note.raw] else []
  {
    var tail := (notes + [note])[since..];
    assert tail[..|tail| - 1] == notes[since..] && tail[|tail| - 1] == note;
  }

  /** The subscription that just started. */
  lemma NewSubOk(subs: map<string, SubRef>, handled: seq<Note>, decode: Decoder, o: SubRef, id: string)
    requires forall i :: i in subs ==> subs[i] != o
    ensures var sub := Sub(id, |handled|, [], NewForwarder(), false);
      FlowOk(decode, o, sub) && RouteOk(subs[id := o], handled, [], o, sub) && PastOk(handled, [], sub)
  {
    EmptyForwarderOk(decode, o);
    assert handled[|handled|..] == [];
  }

  /** A subscription that was there before, whether or not it loses its place. */
  lemma OldSubRoute(subs: map<string, SubRef>, handled: seq<Note>, o: SubRef, id: string, p: SubRef, sub: Sub)
    requires RouteOk(subs, handled, [], p, sub) && p != o
    ensures RouteOk(subs[id := o], handled, [], p, sub)
  {
  }

  lemma StartOk(s: State, decode: Decoder, l: Label)
    requires Ok(s, decode) && l.Start? && Enabled(s, l)
    ensures Ok(Apply(s, l, decode), decode)
  {
    hide FlowOk, PastOk, RouteOk;
    var s' := Apply(s, l, decode);
    NewSubOk(s.subs, s.handled, decode, l.o, l.id);
    forall p | p in s.table ensures RouteOk(s'.subs, s'.handled, [], p, s'.table[p]) {
      assert OnTheWay(s, p) == [];
      OldSubRoute(s.subs, s.handled, l.o, l.id, p, s.table[p]);
    }
    assert forall p :: OnTheWay(s, p) == OnTheWay(s', p) == [];
  }

  /** What an id's payloads become by one more notification, compared with what a subscription gets of them. */
  lemma PastOneMore(handled: seq<Note>, note: Note, sub: Sub, way: seq<Raw>)
    requires PastOk(handled, [], sub) && (way == [] || (way == [note.raw] && note.id == sub.id))
    ensures PastOk(handled + [note], way, sub)
  {
    hide Subsequence;
    ForOneMore(sub.id, handled, sub.since, note);
    var past := For(sub.id, handled[sub.since..]);
    hide For;
    assert sub.routed + [] == sub.routed && past + [] == past;
    SubsequenceSkip(sub.routed, past, note.raw);
    SubsequenceBoth(sub.routed, past, note.raw);
  }

  lemma NotificationRoute(s: State, s': State, note: Note, o: SubRef, sub: Sub)
    requires s.delivering == None && RouteOk(s.subs, s.handled, [], o, sub) && PastOk(s.handled, [], sub)
    requires s'.subs == s.subs && s'.handled == s.handled + [note]
    requires s'.delivering == if note.id in s.subs then Some((s.subs[note.id], note.raw)) else None
    ensures RouteOk(s'.subs, s'.handled, OnTheWay(s', o), o, sub) && PastOk(s'.handled, OnTheWay(s', o), sub)
  {
    PastOneMore(s.handled, note, sub, OnTheWay(s', o));
    ForOneMore(sub.id, s.handled, sub.since, note);
    hide PastOk, For;
    assert sub.routed + [] == sub.routed;
  }

  lemma NotificationOk(s: State, decode: Decoder, l: Label)
    requires Ok(s, decode) && l.HandleNotification? && Enabled(s, l)
    ensures Ok(Apply(s, l, decode), decode)
  {
    hide FlowOk, RouteOk, PastOk;
    var s' := Apply(s, l, decode);
    forall o | o in s.table
      ensures RouteOk(s'.subs, s'.handled, OnTheWay(s', o), o, s.table[o])
      ensures PastOk(s'.handled, OnTheWay(s', o), s.table[o])
    {
      assert OnTheWay(s, o) == [];
      NotificationRoute(s, s', l.note, o, s.table[o]);
    }
  }

  /** The end of a delivery: taken by the forwarder, or dropped because quit is closed. */
  lemma DeliveredFlow(decode: Decoder, o: SubRef, sub: Sub, raw: Raw)
    requires FlowOk(decode, o, sub)
    ensures sub.fwd.stopped == None ==>
      FlowOk(decode, o, sub.(routed := sub.routed + [raw], fwd := Arrive(sub.fwd, decode, o, raw)))
    ensures sub.quit ==> FlowOk(decode, o, sub.(routed := sub.routed + [raw]))
  {
    SubsequenceSkip(sub.fwd.received, sub.routed, raw);
    SubsequenceBoth(sub.fwd.received, sub.routed, raw);
    if sub.fwd.stopped == None {
      ForwarderSteps(sub.fwd, decode, o, raw);
    }
    hide ForwarderOk, Subsequence;
  }

  lemma DeliveredRoute(s: State, s': State, o: SubRef, raw: Raw, sub: Sub, sub': Sub)
    requires RouteOk(s.subs, s.handled, OnTheWay(s, o), o, sub) && PastOk(s.handled, OnTheWay(s, o), sub)
    requires s.delivering == Some((o, raw))
    requires s'.subs == s.subs && s'.handled == s.handled && s'.delivering == None
    requires sub' == sub.(routed := sub.routed + [raw], fwd := sub'.fwd)
    ensures RouteOk(s'.subs, s'.handled, OnTheWay(s', o), o, sub') && PastOk(s'.handled, OnTheWay(s', o), sub')
  {
    assert sub.routed + [raw] + [] == sub.routed + [raw];
  }

  lemma DeliveryOk(s: State, decode: Decoder, l: Label)
    requires Ok(s, decode) && (l.Accepted? || l.Dropped?) && Enabled(s, l)
    ensures Ok(Apply(s, l, decode), decode)
  {
    hide FlowOk, RouteOk, PastOk, Arrive;
    var s' := Apply(s, l, decode);
    var (o, raw) := s.delivering.value;
    DeliveredFlow(decode, o, s.table[o], raw);
    DeliveredRoute(s, s', o, raw, s.table[o], s'.table[o]);
    forall p | p in s.table && p != o
      ensures RouteOk(s'.subs, s'.handled, OnTheWay(s', p), p, s'.table[p])
      ensures PastOk(s'.handled, OnTheWay(s', p), s'.table[p])
    {
      assert OnTheWay(s', p) == OnTheWay(s, p);
    }
  }

  lemma ForwarderFlow(decode: Decoder, o: SubRef, sub: Sub)
    requires FlowOk(decode, o, sub)
    ensures sub.fwd.stopped == None && sub.fwd.buffer != [] ==> FlowOk(decode, o, sub.(fwd := Emit(sub.fwd)))
    ensures sub.fwd.stopped == None ==> FlowOk(decode, o, sub.(fwd := Leave(sub.fwd)))
    ensures FlowOk(decode, o, sub.(quit := true))
  {
    if sub.fwd.stopped == None {
      ForwarderSteps(sub.fwd, decode, o, "");
    }
    hide ForwarderOk, Subsequence;
  }

  lemma QuitRoute(subs: map<string, SubRef>, handled: seq<Note>, way: seq<Raw>, o: SubRef, sub: Sub, sub': Sub)
    requires RouteOk(subs, handled, way, o, sub) && PastOk(handled, way, sub)
    requires sub' == sub.(fwd := sub'.fwd, quit := sub'.quit)
    ensures RouteOk(subs, handled, way, o, sub') && RouteOk(map[], handled, way, o, sub') && PastOk(handled, way, sub')
  {
  }

  lemma ForwarderStepOk(s: State, decode: Decoder, l: Label)
    requires Ok(s, decode) && (l.SendFirst? || l.SeeQuit? || l.CloseQuit? || l.CloseAll?) && Enabled(s, l)
    ensures Ok(Apply(s, l, decode), decode)
  {
    hide FlowOk, RouteOk, PastOk, Emit, Leave;
    var s' := Apply(s, l, decode);
    forall o | o in s.table
      ensures FlowOk(decode, o, s'.table[o]) && RouteOk(s'.subs, s'.handled, OnTheWay(s', o), o, s'.table[o])
      ensures PastOk(s'.handled, OnTheWay(s', o), s'.table[o])
    {
      ForwarderFlow(decode, o, s.table[o]);
      QuitRoute(s.subs, s.handled, OnTheWay(s, o), o, s.table[o], s'.table[o]);
    }
  }

  lemma StepOk(s: State, decode: Decoder, l: Label)
    requires Ok(s, decode) && Enabled(s, l)
    ensures Ok(Apply(s, l, decode), decode)
  {
    hide Ok, Apply, Enabled;
    match l {
      case Start(_, _) => StartOk(s, decode, l);
      case HandleNotification(_) => NotificationOk(s, decode, l);
      case Accepted => DeliveryOk(s, decode, l);
      case Dropped => DeliveryOk(s, decode, l);
      case _ => ForwarderStepOk(s, decode, l);
    }
  }

  // ----- every run

  ghost predicate IsRun(states: seq<State>, labels: seq<Label>, decode: Decoder) {
    && |states| == |labels| + 1 && states[0] == State(map[], map[], None, [])
    && forall i :: 0 <= i < |labels| ==>
         Enabled(states[i], labels[i]) && states[i + 1] == Apply(states[i], labels[i], decode)
  }

  lemma {:induction false} RunOk(states: seq<State>, labels: seq<Label>, decode: Decoder, n: nat)
    requires IsRun(states, labels, decode) && n <= |labels|
    ensures Ok(states[n], decode)
  {
    hide Enabled, Apply, FlowOk, RouteOk, PastOk;
    if n > 0 {
      RunOk(states, labels, decode, n - 1);
      StepOk(states[n - 1], decode, labels[n - 1]);
    }
  }

  /** The subscription is registered, its quit channel open and its forwarder running. */
  predicate Flowing(s: State, o: SubRef) {
    && o in s.table && !s.table[o].quit && s.table[o].fwd.stopped == None
    && s.table[o].id in s.subs && s.subs[s.table[o].id] == o
  }

  /** All payloads, decoded, are what was sent, then the queue; `way` is still on its way. */
  ghost predicate Delivered(decode: Decoder, o: SubRef, payloads: seq<Raw>, way: seq<Raw>, fwd: Forwarder) {
    && |way| <= |payloads| && payloads[|payloads| - |way|..] == way
    && DecodeAll(decode, o, payloads[..|payloads| - |way|]) == fwd.sent + fwd.buffer
  }

  lemma OkDelivered(s: State, decode: Decoder, o: SubRef)
    requires Ok(s, decode) && Flowing(s, o)
    ensures s.table[o].since <= |s.handled|
    ensures Delivered(decode, o, For(s.table[o].id, s.handled[s.table[o].since..]), OnTheWay(s, o), s.table[o].fwd)
  {
    var sub, way := s.table[o], OnTheWay(s, o);
    assert FlowOk(decode, o, sub) && RouteOk(s.subs, s.handled, way, o, sub);
    hide Ok, PastOk, OnTheWay, Subsequence;
    var payloads := For(sub.id, s.handled[sub.since..]);
    hide For;
    assert payloads == sub.routed + way;
    assert payloads[..|sub.routed|] == sub.routed && payloads[|sub.routed|..] == way;
  }

  /**
   Delivery end to end. While a subscription is registered, its quit channel open and its forwarder
   running, the payloads of all notifications for its id since it was registered, decoded, are in
   order what was sent to the subscriber, then the queue; only a payload the loop is just delivering
   is missing. Nothing is lost, repeated or reordered, and the queue never exceeds its bound.
   */
  lemma DeliveredInOrder(states: seq<State>, labels: seq<Label>, decode: Decoder, n: nat, o: SubRef)
    requires IsRun(states, labels, decode) && n <= |labels| && o in states[n].table
    ensures |states[n].table[o].fwd.buffer| <= MAX_BUFFER && states[n].table[o].since <= |states[n].handled|
    ensures Flowing(states[n], o) ==>
      var s, sub := states[n], states[n].table[o];
      Delivered(decode, o, For(sub.id, s.handled[sub.since..]), OnTheWay(s, o), sub.fwd)
  {
    var s := states[n];
    RunOk(states, labels, decode, n);
    assert FlowOk(decode, o, s.table[o]) && RouteOk(s.subs, s.handled, OnTheWay(s, o), o, s.table[o]);
    hide FlowOk, RouteOk, PastOk, Delivered;
    if Flowing(s, o) {
      OkDelivered(s, decode, o);
    }
  }

  lemma FlowSubsequence(decode: Decoder, o: SubRef, sub: Sub)
    requires FlowOk(decode, o, sub)
    ensures Subsequence(sub.fwd.sent, DecodeAll(decode, o, sub.routed))
  {
    hide Subsequence, DecodeAll;
    var sent, all := sub.fwd.sent, DecodeAll(decode, o, sub.fwd.received);
    DecodeSubsequence(decode, o, sub.fwd.received, sub.routed);
    assert sent <= all;
    assert all == sent + all[|sent|..];
    PrefixSubsequence(sent, all[|sent|..], DecodeAll(decode, o, sub.routed));
  }

  lemma PastSubsequence(decode: Decoder, o: SubRef, handled: seq<Note>, way: seq<Raw>, sub: Sub)
    requires PastOk(handled, way, sub)
    ensures Subsequence(DecodeAll(decode, o, sub.routed), DecodeAll(decode, o, For(sub.id, handled[sub.since..])))
  {
    PrefixSubsequence(sub.routed, way, For(sub.id, handled[sub.since..]));
    DecodeSubsequence(decode, o, sub.routed, For(sub.id, handled[sub.since..]));
  }

  lemma OkSubsequence(s: State, decode: Decoder, o: SubRef)
    requires Ok(s, decode) && o in s.table
    ensures s.table[o].since <= |s.handled|
    ensures var sub := s.table[o]; Subsequence(sub.fwd.sent, DecodeAll(decode, o, For(sub.id, s.handled[sub.since..])))
  {
    hide FlowOk, RouteOk;
    var sub := s.table[o];
    FlowSubsequence(decode, o, sub);
    PastSubsequence(decode, o, s.handled, OnTheWay(s, o), sub);
    SubsequenceTransitive(
      sub.fwd.sent, DecodeAll(decode, o, sub.routed), DecodeAll(decode, o, For(sub.id, s.handled[sub.since..])));
  }

  /**
   In every state of every run, also after quit is closed, the client has closed or another subscription
   took over the id, the subscriber has seen a subsequence of what was dispatched for its id since it
   was registered: nothing invented, repeated or reordered.
   */
  lemma OnlyASubsequence(states: seq<State>, labels: seq<Label>, decode: Decoder, n: nat, o: SubRef)
    requires IsRun(states, labels, decode) && n <= |labels| && o in states[n].table
    ensures states[n].table[o].since <= |states[n].handled|
    ensures var s, sub := states[n], states[n].table[o];
      Subsequence(sub.fwd.sent, DecodeAll(decode, o, For(sub.id, s.handled[sub.since..])))
  {
    RunOk(states, labels, decode, n);
    OkSubsequence(states[n], decode, o);
  }
}
