/**
 One connection of the server, from JSON frames to the wire. Goroutines take frames through the
 request pipeline, write the responses and then activate subscriptions, while callbacks create
 subscriptions and notify. Each label is one atomic step of one of them.
 */
module ServerConnection {
  import opened GoRuntime
  import opened Notifications
  import P = RequestParser
  import Pipe = RequestPipeline
  import R = Registration

  /** What the server offers, and what JSON decoding makes of arguments. */
  datatype Host = Host(services: map<string, R.Service>, decodes: P.Decoder)

  /** An id to activate, with the namespace it is activated in. */
  type Activation = (ID, string)

  /**
   A goroutine serving a frame: its resolved requests, the responses so far, and the activations it
   owes; they happen after the responses are written.
   */
  datatype Task = Task(
    frame: Pipe.Incoming, reqs: seq<Pipe.ServerRequest>, responses: seq<Pipe.Response>,
    owed: seq<Activation>, written: bool)

  /** `unreturned` is history: the ids that callbacks created and no callback has returned since. */
  datatype State = State(notifier: Notifier, tasks: map<nat, Task>, unreturned: set<ID>)

  datatype Label =
    | Read(t: nat, frame: Pipe.Incoming)                    // a frame that parses gets a goroutine
    | Reject(frame: Pipe.Incoming, e: P.RpcError)           // one that does not gets one error without an id
    | Refuse(frame: Pipe.Incoming)                          // the server is stopping: an error for every request
    | HandleNext(t: nat, reply: seq<Pipe.ReplyValue>)       // the callback, if one is called, returned this
    | WriteResponses(t: nat)
    | ActivateNext(t: nat)
    | CreateId(id: ID)                                      // some callback creates a subscription
    | NotifyId(id: ID, data: string)                        // some goroutine notifies

  const INITIAL: State := State(EMPTY, map[], {})

  /** The subscription an unsubscribe request names, if it gets as far as looking it up. */
  function Unsubscribes(req: Pipe.ServerRequest): Option<ID> {
    if req.err == None && req.isUnsubscribe && |req.args| >= 1 && req.args[0].t == R.StringType
    then Some(ArgText(req.args[0])) else None
  }

  /** The text of a string argument; null decodes to the empty string. */
  function ArgText(v: P.Value): string {
    if v.Decoded? && v.json.JString? then v.json.text else ""
  }

  /** The next request of a goroutine, handled. */
  function NextHandled(n: Notifier, task: Task, reply: seq<Pipe.ReplyValue>): Pipe.Handled
    requires |task.responses| < |task.reqs|
  {
    var req := task.reqs[|task.responses|];
    var id := Unsubscribes(req);
    Pipe.Handle(req, true, Pipe.Outcome(id.Some? && id.value in n.active, reply))
  }

  /** The id of the subscription that the callback of this step returns, if it returns one. */
  function Returned(s: State, l: Label): Option<ID> {
    if l.HandleNext? && l.t in s.tasks && |s.tasks[l.t].responses| < |s.tasks[l.t].reqs|
       && NextHandled(s.notifier, s.tasks[l.t], l.reply).Answer?
    then NextHandled(s.notifier, s.tasks[l.t], l.reply).activate else None
  }

  ghost predicate Enabled(s: State, h: Host, l: Label) {
    match l
    case Read(t, frame) => t !in s.tasks && Pipe.ParseFrame(frame).Some?
    case Reject(frame, _) => Pipe.ParseFrame(frame) == None
    case Refuse(frame) => Pipe.ParseFrame(frame).Some?
    case HandleNext(t, reply) =>
      && t in s.tasks && |s.tasks[t].responses| < |s.tasks[t].reqs|
      && NextHandled(s.notifier, s.tasks[t], reply).Answer?
    case WriteResponses(t) => t in s.tasks && |s.tasks[t].responses| == |s.tasks[t].reqs| && !s.tasks[t].written
    case ActivateNext(t) => t in s.tasks && s.tasks[t].written && s.tasks[t].owed != []
    case CreateId(_) => true
    case NotifyId(_, _) => true
  }

  /** A goroutine after it built a response. */
  function Responded(task: Task, h: Pipe.Handled): Task
    requires |task.responses| < |task.reqs| && h.Answer?
  {
    var owed := if h.activate == None then [] else [(h.activate.value, task.reqs[|task.responses|].svcname)];
    task.(responses := task.responses + [h.response], owed := task.owed + owed)
  }

  function Put(n: Notifier, w: Write): Notifier {
    n.(wire := n.wire + [w])
  }

  ghost function Refusals(h: Host, frame: Pipe.Incoming): seq<Pipe.Response>
    requires Pipe.ParseFrame(frame).Some?
  {
    var reqs := Pipe.ResolveFrame(h.services, h.decodes, frame);
    seq(|reqs|, i requires 0 <= i < |reqs| => Pipe.Response(reqs[i].id, Pipe.Failure(P.ShuttingDown)))
  }

  ghost function Apply(s: State, h: Host, l: Label): State
    requires Enabled(s, h, l)
  {
    match l
    case Read(t, frame) =>
      s.(tasks := s.tasks[t := Task(frame, Pipe.ResolveFrame(h.services, h.decodes, frame), [], [], false)])
    case Reject(frame, e) =>
      s.(notifier := Put(s.notifier, Replies(frame, [Pipe.Response(P.NoId, Pipe.Failure(e))])))
    case Refuse(frame) => s.(notifier := Put(s.notifier, Replies(frame, Refusals(h, frame))))
    case HandleNext(t, reply) =>
      var task := s.tasks[t];
      var id := Unsubscribes(task.reqs[|task.responses|]);
      State(if id.Some? then Unsubscribe(s.notifier, id.value) else s.notifier,
            s.tasks[t := Responded(task, NextHandled(s.notifier, task, reply))],
            if Returned(s, l).Some? then s.unreturned - {Returned(s, l).value} else s.unreturned)
    case WriteResponses(t) =>
      s.(notifier := Put(s.notifier, Replies(s.tasks[t].frame, s.tasks[t].responses)),
         tasks := s.tasks[t := s.tasks[t].(written := true)])
    case ActivateNext(t) =>
      var task := s.tasks[t];
      s.(notifier := Activate(s.notifier, task.owed[0].0, task.owed[0].1),
         tasks := s.tasks[t := task.(owed := task.owed[1..])])
    case CreateId(id) => s.(notifier := Create(s.notifier, id), unreturned := s.unreturned + {id})
    case NotifyId(id, data) => s.(notifier := Notify(s.notifier, id, data))
  }

  ghost predicate Step(s: State, h: Host, l: Label, s': State) {
    Enabled(s, h, l) && s' == Apply(s, h, l)
  }

  ghost predicate IsRun(states: seq<State>, h: Host, labels: seq<Label>) {
    && |states| == |labels| + 1 && states[0] == INITIAL
    && forall i :: 0 <= i < |labels| ==> Step(states[i], h, labels[i], states[i + 1])
  }

  // ----- wire order

  /** A request for a subscription in the namespace; one whose first parameter ends in "_unsubscribe" is none. */
  predicate SubscribeRequest(r: P.JsonRequest, namespace: string) {
    && r.name == namespace + P.SUBSCRIBE_SUFFIX
    && P.FirstString(r.payload).Some? && !P.HasSuffix(P.FirstString(r.payload).value, P.UNSUBSCRIBE_SUFFIX)
  }

  /** Response i of a frame answers request i, a subscribe request in the namespace, with the id. */
  predicate Announces(frame: Pipe.Incoming, responses: seq<Pipe.Response>, i: nat, id: ID, namespace: string) {
    && i < |responses| && i < |Pipe.Elements(frame)|
    && responses[i] == Pipe.Response(Pipe.Elements(frame)[i].id, Pipe.Success(id))
    && SubscribeRequest(Pipe.Elements(frame)[i], namespace)
  }

  ghost predicate Carries(w: Write, id: ID, namespace: string) {
    w.Replies? && exists i :: Announces(w.frame, w.responses, i, id, namespace)
  }

  /** A response carrying the id, to a subscribe request in the namespace, is among the writes. */
  ghost predicate Announced(wire: seq<Write>, id: ID, namespace: string) {
    exists j :: 0 <= j < |wire| && Carries(wire[j], id, namespace)
  }

  /** Every notification comes after a response that carries its subscription id and namespace. */
  ghost predicate Ordered(wire: seq<Write>) {
    forall k :: 0 <= k < |wire| && wire[k].Notification? ==> Announced(wire[..k], wire[k].id, wire[k].namespace)
  }

  ghost predicate OwedOk(wire: seq<Write>, task: Task) {
    forall k :: 0 <= k < |task.owed| ==>
      if task.written then Announced(wire, task.owed[k].0, task.owed[k].1)
      else Carries(Replies(task.frame, task.responses), task.owed[k].0, task.owed[k].1)
  }

  /** A goroutine works on the resolved requests of its frame, and what it owes is, or will be, announced. */
  ghost predicate TaskOk(h: Host, wire: seq<Write>, task: Task) {
    && Pipe.ParseFrame(task.frame).Some?
    && task.reqs == Pipe.ResolveFrame(h.services, h.decodes, task.frame)
    && (task.written ==> |task.responses| == |task.reqs|)
    && OwedOk(wire, task)
  }

  ghost predicate WireOk(s: State, h: Host) {
    && Ordered(s.notifier.wire)
    && (forall id :: id in s.notifier.active ==> Announced(s.notifier.wire, id, s.notifier.active[id].namespace))
    && (forall t :: t in s.tasks ==> TaskOk(h, s.notifier.wire, s.tasks[t]))
  }

  /**
   The pipeline announces what it activates: when handling element i of a frame leaves a subscription
   to activate, that element is a subscribe request in its namespace, and the response carries its id.
   */
  lemma ActivationAnnounced(h: Host, frame: Pipe.Incoming, i: nat, o: Pipe.Outcome)
    requires R.RegistryOk(h.services) && Pipe.ParseFrame(frame).Some? && i < |Pipe.ParseFrame(frame).value|
    ensures |Pipe.Elements(frame)| == |Pipe.ParseFrame(frame).value|
    ensures var req := Pipe.ResolveFrame(h.services, h.decodes, frame)[i];
      var handled := Pipe.Handle(req, true, o);
      handled.Answer? && handled.activate.Some? ==>
        && handled.response == Pipe.Response(Pipe.Elements(frame)[i].id, Pipe.Success(handled.activate.value))
        && SubscribeRequest(Pipe.Elements(frame)[i], req.svcname)
  {
    var r := Pipe.Elements(frame)[i];
    assert P.Element(r) == Some(Pipe.ParseFrame(frame).value[i]);
    hide Pipe.ParseFrame, P.Element, Pipe.Handle, Pipe.Resolve;
    var req := Pipe.Resolve(h.services, h.decodes, P.Element(r).value);
    P.ParsedFacts(r);
    Pipe.ResolveKeepsId(h.services, h.decodes, P.Element(r).value);
    ActivatesItsResult(req, o);
    if Pipe.Handle(req, true, o).Answer? && Pipe.Handle(req, true, o).activate.Some? {
      Pipe.ResolvedArity(h.services, h.decodes, r);
      SubscribesInItsNamespace(h, r);
    }
  }

  /** Only a subscription callback leaves something to activate, and it is the result of the response. */
  lemma ActivatesItsResult(req: Pipe.ServerRequest, o: Pipe.Outcome)
    ensures var handled := Pipe.Handle(req, true, o);
      handled.Answer? && handled.activate.Some? ==>
        && handled.response == Pipe.Response(req.id, Pipe.Success(handled.activate.value))
        && req.err == None && !req.isUnsubscribe && req.callb.Some? && req.callb.value.isSubscribe
  {
  }

  /** The service a subscribe request reaches is the one its name begins with. */
  lemma SubscribesInItsNamespace(h: Host, r: P.JsonRequest)
    requires R.RegistryOk(h.services) && P.Element(r).Some? && P.HasSuffix(r.name, P.SUBSCRIBE_SUFFIX)
    ensures var req := Pipe.Resolve(h.services, h.decodes, P.Element(r).value);
      req.callb.Some? ==> SubscribeRequest(r, req.svcname)
  {
    P.ParseExact(r);
    hide P.HasSuffix, P.Split, P.FirstString, R.ServiceOk, P.ParseArgs;
  }

  lemma AnnouncedLonger(wire: seq<Write>, w: Write, id: ID, namespace: string)
    ensures Announced(wire, id, namespace) ==> Announced(wire + [w], id, namespace)
    ensures Carries(w, id, namespace) ==> Announced(wire + [w], id, namespace)
  {
    hide Carries;
    if Announced(wire, id, namespace) {
      var j :| 0 <= j < |wire| && Carries(wire[j], id, namespace);
      assert (wire + [w])[j] == wire[j];
    }
    assert (wire + [w])[|wire|] == w;
  }

  lemma OrderedLonger(wire: seq<Write>, w: Write)
    requires Ordered(wire) && (w.Notification? ==> Announced(wire, w.id, w.namespace))
    ensures Ordered(wire + [w])
  {
    hide Announced;
    var wire' := wire + [w];
    forall k | 0 <= k < |wire'| && wire'[k].Notification?
      ensures Announced(wire'[..k], wire'[k].id, wire'[k].namespace)
    {
      assert wire'[..k] == if k < |wire| then wire[..k] else wire;
    }
  }

  lemma OwedOkLonger(wire: seq<Write>, w: Write, task: Task)
    requires OwedOk(wire, task)
    ensures OwedOk(wire + [w], task)
    ensures w == Replies(task.frame, task.responses) && !task.written ==> OwedOk(wire + [w], task.(written := true))
  {
    hide Carries, Announced;
    forall k | 0 <= k < |task.owed|
      ensures task.written ==> Announced(wire + [w], task.owed[k].0, task.owed[k].1)
      ensures w == Replies(task.frame, task.responses) && !task.written ==>
        Announced(wire + [w], task.owed[k].0, task.owed[k].1)
    {
      AnnouncedLonger(wire, w, task.owed[k].0, task.owed[k].1);
    }
  }

  /** A write keeps everything in order, if a notification is for an announced id. */
  lemma WriteKeepsWireOk(s: State, h: Host, w: Write)
    requires WireOk(s, h) && (w.Notification? ==> Announced(s.notifier.wire, w.id, w.namespace))
    ensures WireOk(s.(notifier := Put(s.notifier, w)), h)
  {
    hide OwedOk, Announced;
    var wire' := s.notifier.wire + [w];
    OrderedLonger(s.notifier.wire, w);
    forall id | id in s.notifier.active ensures Announced(wire', id, s.notifier.active[id].namespace) {
      AnnouncedLonger(s.notifier.wire, w, id, s.notifier.active[id].namespace);
    }
    forall t | t in s.tasks ensures OwedOk(wire', s.tasks[t]) {
      OwedOkLonger(s.notifier.wire, w, s.tasks[t]);
    }
  }

  lemma CarriesLonger(frame: Pipe.Incoming, responses: seq<Pipe.Response>, response: Pipe.Response,
                      id: ID, namespace: string)
    requires Carries(Replies(frame, responses), id, namespace)
    ensures Carries(Replies(frame, responses + [response]), id, namespace)
  {
    var i :| Announces(frame, responses, i, id, namespace);
    assert Announces(frame, responses + [response], i, id, namespace);
  }

  /** Handling the next request keeps what the goroutine owes announced. */
  lemma HandleKeepsTask(h: Host, n: Notifier, task: Task, reply: seq<Pipe.ReplyValue>)
    requires R.RegistryOk(h.services) && TaskOk(h, n.wire, task) && |task.responses| < |task.reqs|
    requires NextHandled(n, task, reply).Answer?
    ensures TaskOk(h, n.wire, Responded(task, NextHandled(n, task, reply)))
  {
    var i := |task.responses|;
    var handled := NextHandled(n, task, reply);
    var id := Unsubscribes(task.reqs[i]);
    ActivationAnnounced(h, task.frame, i, Pipe.Outcome(id.Some? && id.value in n.active, reply));
    hide Pipe.Handle, Pipe.ResolveFrame, Pipe.ParseFrame, Unsubscribes;
    var task' := Responded(task, handled);
    if handled.activate.Some? {
      assert Announces(task.frame, task'.responses, i, handled.activate.value, task.reqs[i].svcname);
    }
    hide Announces, NextHandled;
    forall k | 0 <= k < |task'.owed|
      ensures Carries(Replies(task'.frame, task'.responses), task'.owed[k].0, task'.owed[k].1)
    {
      if k < |task.owed| {
        CarriesLonger(task.frame, task.responses, handled.response, task.owed[k].0, task.owed[k].1);
      }
    }
  }

  lemma HandleKeepsWireOk(s: State, h: Host, l: Label)
    requires R.RegistryOk(h.services) && WireOk(s, h) && Enabled(s, h, l) && l.HandleNext?
    ensures WireOk(Apply(s, h, l), h)
  {
    hide TaskOk, Ordered, Announced, Responded, NextHandled, Unsubscribes;
    HandleKeepsTask(h, s.notifier, s.tasks[l.t], l.reply);
  }

  lemma WriteStepKeepsWireOk(s: State, h: Host, l: Label)
    requires WireOk(s, h) && Enabled(s, h, l) && l.WriteResponses?
    ensures WireOk(Apply(s, h, l), h)
  {
    hide OwedOk, Announced, Ordered, Pipe.ResolveFrame, Pipe.ParseFrame;
    var task := s.tasks[l.t];
    var w := Replies(task.frame, task.responses);
    WriteKeepsWireOk(s, h, w);
    OwedOkLonger(s.notifier.wire, w, task);
  }

  lemma ActivateKeepsWireOk(s: State, h: Host, l: Label)
    requires WireOk(s, h) && Enabled(s, h, l) && l.ActivateNext?
    ensures WireOk(Apply(s, h, l), h)
  {
    hide Announced, Carries, Ordered, Pipe.ResolveFrame, Pipe.ParseFrame;
    var task := s.tasks[l.t];
    assert TaskOk(h, s.notifier.wire, task);
    assert Announced(s.notifier.wire, task.owed[0].0, task.owed[0].1);
    assert TaskOk(h, s.notifier.wire, task.(owed := task.owed[1..]));
    hide TaskOk;
  }

  lemma StepKeepsWireOk(s: State, h: Host, l: Label)
    requires R.RegistryOk(h.services) && WireOk(s, h) && Enabled(s, h, l)
    ensures WireOk(Apply(s, h, l), h)
  {
    hide WireOk, Unsubscribes, NextHandled, Responded, Pipe.ResolveFrame, Pipe.ParseFrame;
    match l {
      case Read(_, _) => ReadKeepsWireOk(s, h, l);
      case Reject(_, _) => WriteKeepsWireOk(s, h, Replies(l.frame, [Pipe.Response(P.NoId, Pipe.Failure(l.e))]));
      case Refuse(_) => WriteKeepsWireOk(s, h, Replies(l.frame, Refusals(h, l.frame)));
      case HandleNext(_, _) => HandleKeepsWireOk(s, h, l);
      case WriteResponses(_) => WriteStepKeepsWireOk(s, h, l);
      case ActivateNext(_) => ActivateKeepsWireOk(s, h, l);
      case CreateId(_) => CreateKeepsWireOk(s, h, l);
      case NotifyId(_, _) => NotifyKeepsWireOk(s, h, l.id, l.data);
    }
  }

  lemma ReadKeepsWireOk(s: State, h: Host, l: Label)
    requires WireOk(s, h) && Enabled(s, h, l) && l.Read?
    ensures WireOk(Apply(s, h, l), h)
  {
    hide Announced, Carries, Ordered, Pipe.ResolveFrame, Pipe.ParseFrame;
    assert TaskOk(h, s.notifier.wire, Apply(s, h, l).tasks[l.t]);
    hide TaskOk;
  }

  lemma CreateKeepsWireOk(s: State, h: Host, l: Label)
    requires WireOk(s, h) && Enabled(s, h, l) && l.CreateId?
    ensures WireOk(Apply(s, h, l), h)
  {
    hide TaskOk, Announced, Ordered;
  }

  lemma NotifyKeepsWireOk(s: State, h: Host, id: ID, data: string)
    requires WireOk(s, h)
    ensures WireOk(s.(notifier := Notify(s.notifier, id, data)), h)
  {
    hide TaskOk, Announced, Ordered;
    if id in s.notifier.active {
      WriteKeepsWireOk(s, h, Notification(id, s.notifier.active[id].namespace, data));
    }
  }

  lemma WireOrdered(s: State, h: Host)
    requires WireOk(s, h)
    ensures Ordered(s.notifier.wire)
  {
    hide Ordered;
  }

  lemma {:induction false} RunWireOk(states: seq<State>, h: Host, labels: seq<Label>, n: nat)
    requires R.RegistryOk(h.services) && IsRun(states, h, labels) && n <= |labels|
    ensures WireOk(states[n], h)
  {
    hide Apply, Enabled;
    if n > 0 {
      assert Step(states[n - 1], h, labels[n - 1], states[n]);
      RunWireOk(states, h, labels, n - 1);
      hide WireOk;
      StepKeepsWireOk(states[n - 1], h, labels[n - 1]);
    }
  }

  /**
   Wire order. In every run, for single requests and batches, every attempted write of a notification
   comes after the attempted write of the responses to a frame, one of which answers a subscribe request
   in the notification's namespace with its subscription id, under the id of that request. No assumption
   on how subscription ids are chosen is needed.
   */
  lemma ResponseBeforeNotifications(states: seq<State>, h: Host, labels: seq<Label>, n: nat, k: nat)
    requires R.RegistryOk(h.services) && IsRun(states, h, labels) && n <= |labels|
    requires k < |states[n].notifier.wire| && states[n].notifier.wire[k].Notification?
    ensures var wire := states[n].notifier.wire;
      exists j :: 0 <= j < k && Carries(wire[j], wire[k].id, wire[k].namespace)
  {
    hide Carries;
    RunWireOk(states, h, labels, n);
    var wire := states[n].notifier.wire;
    assert Announced(wire[..k], wire[k].id, wire[k].namespace);
    var j :| 0 <= j < |wire[..k]| && Carries(wire[..k][j], wire[k].id, wire[k].namespace);
    assert wire[..k][j] == wire[j];
  }

  /** An unsubscribe request is answered true exactly when the subscription was active, and then it is removed. */
  lemma UnsubscribeTellsTruth(s: State, h: Host, l: Label)
    requires Enabled(s, h, l) && l.HandleNext?
    requires Unsubscribes(s.tasks[l.t].reqs[|s.tasks[l.t].responses|]).Some?
    ensures var i, s' := |s.tasks[l.t].responses|, Apply(s, h, l);
      var id := Unsubscribes(s.tasks[l.t].reqs[i]).value;
      && |s'.tasks[l.t].responses| == i + 1
      && (s'.tasks[l.t].responses[i].body == Pipe.Success("true") <==> id in s.notifier.active)
      && (id in s.notifier.active ==> id in s'.notifier.removed)
      && id !in s'.notifier.active && s'.notifier.active == s.notifier.active - {id}
  {
  }

  // ----- the life of an id, when ids are fresh

  datatype Stage = Unknown | Created | Live | Removed

  function StageOf(n: Notifier, id: ID): Stage {
    if id in n.removed then Removed else if id in n.active then Live else if id in n.inactive then Created else Unknown
  }

  function Rank(s: Stage): nat {
    match s
    case Unknown => 0
    case Created => 1
    case Live => 2
    case Removed => 3
  }

  /** The hypothesis on generated ids: a created id was never used before on this connection. */
  ghost predicate FreshIds(states: seq<State>, labels: seq<Label>) {
    |states| == |labels| + 1
    && forall i :: 0 <= i < |labels| && labels[i].CreateId? ==> StageOf(states[i].notifier, labels[i].id) == Unknown
  }

  /** Active and inactive stay apart; a subscription's channel is closed exactly when it has been removed. */
  ghost predicate LifeOk(n: Notifier) {
    && n.active.Keys !! n.inactive.Keys && n.active.Keys !! n.removed.Keys && n.inactive.Keys !! n.removed.Keys
    && (forall id :: id in n.active ==> !n.active[id].err.closed && !n.active[id].err.fault)
    && (forall id :: id in n.inactive ==> !n.inactive[id].err.closed && !n.inactive[id].err.fault)
    && (forall id :: id in n.removed ==> n.removed[id].err.closed && !n.removed[id].err.fault)
  }

  /** One step of an id's life: forward by one, or not at all. */
  ghost predicate Advances(n: Notifier, n': Notifier) {
    forall id :: Rank(StageOf(n, id)) <= Rank(StageOf(n', id)) <= Rank(StageOf(n, id)) + 1
  }

  lemma StepKeepsLife(s: State, h: Host, l: Label)
    requires LifeOk(s.notifier) && Enabled(s, h, l) && (l.CreateId? ==> StageOf(s.notifier, l.id) == Unknown)
    ensures LifeOk(Apply(s, h, l).notifier) && Advances(s.notifier, Apply(s, h, l).notifier)
  {
    hide NextHandled, Responded, Unsubscribes, Refusals, Pipe.ResolveFrame, Pipe.ParseFrame;
  }

  lemma {:induction false} RunKeepsLife(states: seq<State>, h: Host, labels: seq<Label>, m: nat, n: nat, id: ID)
    requires IsRun(states, h, labels) && FreshIds(states, labels) && m <= n <= |labels|
    ensures LifeOk(states[n].notifier)
    ensures Rank(StageOf(states[m].notifier, id)) <= Rank(StageOf(states[n].notifier, id))
  {
    hide Apply, Enabled, LifeOk, StageOf;
    if n == 0 {
      InitialLife();
    } else {
      assert Step(states[n - 1], h, labels[n - 1], states[n]);
      RunKeepsLife(states, h, labels, if m < n then m else n - 1, n - 1, id);
      StepKeepsLife(states[n - 1], h, labels[n - 1]);
    }
  }

  lemma InitialLife()
    ensures LifeOk(EMPTY)
  {
  }

  /**
   Lifecycle. With fresh ids an id only ever moves from created to active to removed, and its channel
   is open until it is removed and closed from then on, exactly once.
   */
  lemma Lifecycle(states: seq<State>, h: Host, labels: seq<Label>, m: nat, n: nat, id: ID)
    requires IsRun(states, h, labels) && FreshIds(states, labels) && m <= n <= |labels|
    ensures Rank(StageOf(states[m].notifier, id)) <= Rank(StageOf(states[n].notifier, id))
    ensures n < |labels| ==> Rank(StageOf(states[n + 1].notifier, id)) <= Rank(StageOf(states[n].notifier, id)) + 1
    ensures states[n].notifier.active.Keys !! states[n].notifier.inactive.Keys
    ensures id in states[n].notifier.removed ==>
      states[n].notifier.removed[id].err.closed && !states[n].notifier.removed[id].err.fault
      && id !in states[n].notifier.active && id !in states[n].notifier.inactive
    ensures id in states[n].notifier.active ==> !states[n].notifier.active[id].err.closed
    ensures id in states[n].notifier.inactive ==> !states[n].notifier.inactive[id].err.closed
  {
    hide Apply, Enabled, StageOf;
    RunKeepsLife(states, h, labels, m, n, id);
    if n < |labels| {
      assert Step(states[n], h, labels[n], states[n + 1]);
      StepKeepsLife(states[n], h, labels[n]);
    }
  }

  // ----- who writes notifications, and when

  /** The step writes a notification: it notifies an active id. */
  predicate Notifies(s: State, l: Label, w: Write) {
    w.Notification? && l == NotifyId(w.id, w.data) && w.id in s.notifier.active
    && s.notifier.active[w.id].namespace == w.namespace
  }

  /** A step writes nothing, or one more thing; a notification is written only by notifying an active id. */
  lemma StepWrites(s: State, h: Host, l: Label)
    requires Enabled(s, h, l)
    ensures var wire, wire' := s.notifier.wire, Apply(s, h, l).notifier.wire;
      || wire' == wire
      || (&& |wire'| == |wire| + 1 && wire'[..|wire|] == wire
          && (wire'[|wire|].Notification? ==> Notifies(s, l, wire'[|wire|])))
  {
    hide NextHandled, Responded, Unsubscribes, Refusals, Pipe.ResolveFrame, Pipe.ParseFrame;
  }

  /** Every notification on the wire was written at some step, at which its id was active. */
  lemma {:induction false} NotificationWritten(states: seq<State>, h: Host, labels: seq<Label>, n: nat, k: nat)
    returns (i: nat)
    requires IsRun(states, h, labels) && n <= |labels|
    requires k < |states[n].notifier.wire| && states[n].notifier.wire[k].Notification?
    ensures i < n && |states[i].notifier.wire| == k && Notifies(states[i], labels[i], states[n].notifier.wire[k])
  {
    hide Apply, Enabled, Notifies;
    assert Step(states[n - 1], h, labels[n - 1], states[n]);
    StepWrites(states[n - 1], h, labels[n - 1]);
    var before := states[n - 1].notifier.wire;
    if k < |before| {
      assert before[k] == states[n].notifier.wire[k];
      i := NotificationWritten(states, h, labels, n - 1, k);
    } else {
      i := n - 1;
    }
  }

  /**
   Nothing is written for an id before it is activated or after it is removed: every notification on
   the wire was written at a step at which its id was live, so the id was not removed at any earlier
   state, and is live or removed at any later one.
   */
  lemma NotificationsOnlyWhileLive(states: seq<State>, h: Host, labels: seq<Label>, n: nat, k: nat, j: nat)
    requires IsRun(states, h, labels) && FreshIds(states, labels) && n <= |labels| && j <= |labels|
    requires k < |states[n].notifier.wire| && states[n].notifier.wire[k].Notification?
    ensures var id := states[n].notifier.wire[k].id;
      exists i :: 0 <= i < n && |states[i].notifier.wire| == k && StageOf(states[i].notifier, id) == Live
        && (j <= i ==> StageOf(states[j].notifier, id) != Removed)
        && (j >= i ==> StageOf(states[j].notifier, id) == Live || StageOf(states[j].notifier, id) == Removed)
  {
    hide Step;
    var id := states[n].notifier.wire[k].id;
    var i := NotificationWritten(states, h, labels, n, k);
    RunKeepsLife(states, h, labels, i, i, id);
    RunKeepsLife(states, h, labels, if j <= i then j else i, if j <= i then i else j, id);
  }

  /** The wire only grows. */
  lemma {:induction false} WireGrows(states: seq<State>, h: Host, labels: seq<Label>, m: nat, n: nat)
    requires IsRun(states, h, labels) && m <= n <= |labels|
    ensures states[m].notifier.wire <= states[n].notifier.wire
  {
    hide Apply, Enabled;
    if m < n {
      WireGrows(states, h, labels, m, n - 1);
      assert Step(states[n - 1], h, labels[n - 1], states[n]);
      StepWrites(states[n - 1], h, labels[n - 1]);
    }
  }

  /**
   With fresh ids, once an unsubscribe request for an id was answered true, no further notification for
   that id is ever written on the connection.
   */
  lemma SilentAfterUnsubscribe(states: seq<State>, h: Host, labels: seq<Label>, i: nat, n: nat, k: nat, id: ID)
    requires IsRun(states, h, labels) && FreshIds(states, labels) && i < n <= |labels|
    requires labels[i].HandleNext? && Enabled(states[i], h, labels[i])
    requires var task := states[i].tasks[labels[i].t];
      && Unsubscribes(task.reqs[|task.responses|]) == Some(id)
      && NextHandled(states[i].notifier, task, labels[i].reply).response.body == Pipe.Success("true")
    requires |states[i].notifier.wire| <= k < |states[n].notifier.wire|
    ensures states[n].notifier.wire[k].Notification? ==> states[n].notifier.wire[k].id != id
  {
    assert Step(states[i], h, labels[i], states[i + 1]);
    UnsubscribeTellsTruth(states[i], h, labels[i]);
    assert StageOf(states[i + 1].notifier, id) == Removed;
    hide Apply, Enabled, Unsubscribes, NextHandled;
    if states[n].notifier.wire[k].Notification? && states[n].notifier.wire[k].id == id {
      var w := NotificationWritten(states, h, labels, n, k);
      RunKeepsLife(states, h, labels, w, w, id);
      if w <= i {
        WireGrows(states, h, labels, w, i);
        assert labels[w].NotifyId?;
        WrittenAt(states, h, labels, w, i);
      } else {
        RunKeepsLife(states, h, labels, i + 1, w, id);
      }
    }
  }

  /** A step that notifies an active id makes the wire longer. */
  lemma WrittenAt(states: seq<State>, h: Host, labels: seq<Label>, w: nat, i: nat)
    requires IsRun(states, h, labels) && w <= i < |labels| && labels[w].NotifyId? && !labels[i].NotifyId?
    requires labels[w].id in states[w].notifier.active
    ensures |states[w].notifier.wire| < |states[i].notifier.wire|
  {
    assert Step(states[w], h, labels[w], states[w + 1]);
    WireGrows(states, h, labels, w + 1, i);
  }

  // ----- an id is carried once

  /**
   The hypotheses on subscription ids, step by step: a created id was never used before on the
   connection, and a callback returns a subscription that was created and not returned since, its own.
   */
  predicate Orderly(s: State, l: Label) {
    && (l.CreateId? ==> StageOf(s.notifier, l.id) == Unknown)
    && (Returned(s, l).Some? ==> Returned(s, l).value in s.unreturned)
  }

  ghost predicate CarriesId(w: Write, id: ID) {
    exists namespace :: Carries(w, id, namespace)
  }

  /** The responses a goroutine has built and not yet written. */
  function Unwritten(task: Task): Write {
    Replies(task.frame, if task.written then [] else task.responses)
  }

  /** The responses that carry an id are all in one write, or in the hands of one goroutine. */
  ghost predicate CarriedOnce(s: State) {
    && (forall j, k, id :: 0 <= j < k < |s.notifier.wire| && CarriesId(s.notifier.wire[j], id) ==>
          !CarriesId(s.notifier.wire[k], id))
    && (forall t, j, id :: t in s.tasks && 0 <= j < |s.notifier.wire| && CarriesId(Unwritten(s.tasks[t]), id) ==>
          !CarriesId(s.notifier.wire[j], id))
    && (forall t, u, id :: t in s.tasks && u in s.tasks && t != u && CarriesId(Unwritten(s.tasks[t]), id) ==>
          !CarriesId(Unwritten(s.tasks[u]), id))
  }

  ghost predicate CarriedSomewhere(s: State, id: ID) {
    || (exists j :: 0 <= j < |s.notifier.wire| && CarriesId(s.notifier.wire[j], id))
    || (exists t :: t in s.tasks && CarriesId(Unwritten(s.tasks[t]), id))
  }

  /** An id that a response carries is known to the notifier, and no callback still has it. */
  ghost predicate CarriedSpent(s: State) {
    && (forall id :: id in s.unreturned ==> StageOf(s.notifier, id) != Unknown)
    && (forall id :: CarriedSomewhere(s, id) ==> StageOf(s.notifier, id) != Unknown && id !in s.unreturned)
  }

  /**
   The converse of ActivationAnnounced: a successful response to a subscribe request leaves its result to
   be activated, so some callback returned it.
   */
  lemma AnnouncementReturned(h: Host, frame: Pipe.Incoming, i: nat, namespace: string, o: Pipe.Outcome)
    requires R.RegistryOk(h.services) && Pipe.ParseFrame(frame).Some? && i < |Pipe.ParseFrame(frame).value|
    requires |Pipe.Elements(frame)| == |Pipe.ParseFrame(frame).value|
    requires SubscribeRequest(Pipe.Elements(frame)[i], namespace)
    ensures var handled := Pipe.Handle(Pipe.ResolveFrame(h.services, h.decodes, frame)[i], true, o);
      handled.Answer? && handled.response.body.Success? ==> handled.activate == Some(handled.response.body.result)
  {
    var r := Pipe.Elements(frame)[i];
    assert P.Element(r) == Some(Pipe.ParseFrame(frame).value[i]);
    ElementIsSubscribe(r, namespace);
    Pipe.SubscribeResolves(h.services, h.decodes, r, namespace, P.FirstString(r.payload).value);
    hide Pipe.ParseFrame, P.Element, Pipe.Resolve, P.FirstString, Pipe.Call, Pipe.CallFits;
  }

  lemma ElementIsSubscribe(r: P.JsonRequest, namespace: string)
    requires P.Element(r).Some? && SubscribeRequest(r, namespace)
    ensures P.CheckId(r.id) == None && r.payload != P.Absent
  {
    hide P.Split;
  }

  /** What one more response adds to the ids that responses carry. */
  lemma CarriesOneMore(frame: Pipe.Incoming, responses: seq<Pipe.Response>, response: Pipe.Response, id: ID)
    requires CarriesId(Replies(frame, responses + [response]), id)
    ensures
      || CarriesId(Replies(frame, responses), id)
      || exists namespace :: Announces(frame, responses + [response], |responses|, id, namespace)
  {
    hide SubscribeRequest;
    var namespace :| Carries(Replies(frame, responses + [response]), id, namespace);
    var i: nat :| Announces(frame, responses + [response], i, id, namespace);
    if i < |responses| {
      assert Announces(frame, responses, i, id, namespace);
      assert Carries(Replies(frame, responses), id, namespace);
    }
  }

  /** If that response announces an id, the callback of the step returned it. */
  lemma AnnouncedReturned(s: State, h: Host, l: Label, id: ID, namespace: string)
    requires R.RegistryOk(h.services) && l.HandleNext? && Enabled(s, h, l) && TaskOk(h, s.notifier.wire, s.tasks[l.t])
    requires var task := s.tasks[l.t];
      var responses := task.responses + [NextHandled(s.notifier, task, l.reply).response];
      Announces(task.frame, responses, |task.responses|, id, namespace)
    ensures Returned(s, l) == Some(id)
  {
    var task := s.tasks[l.t];
    var n := |task.responses|;
    var named := Unsubscribes(task.reqs[n]);
    ElementsParsed(task.frame);
    hide Pipe.Handle, Pipe.ResolveFrame, Pipe.ParseFrame, Unsubscribes, SubscribeRequest, OwedOk;
    AnnouncementReturned(
      h, task.frame, n, namespace, Pipe.Outcome(named.Some? && named.value in s.notifier.active, l.reply));
  }

  /** What handling a request adds to the ids a goroutine carries: the one its callback returned. */
  lemma HandleCarries(s: State, h: Host, l: Label, id: ID)
    requires R.RegistryOk(h.services) && l.HandleNext? && Enabled(s, h, l) && TaskOk(h, s.notifier.wire, s.tasks[l.t])
    requires CarriesId(Unwritten(Apply(s, h, l).tasks[l.t]), id)
    ensures CarriesId(Unwritten(s.tasks[l.t]), id) || Returned(s, l) == Some(id)
  {
    hide CarriesId, TaskOk, NextHandled, Returned, Announces, Unsubscribes;
    var task := s.tasks[l.t];
    var response := NextHandled(s.notifier, task, l.reply).response;
    WrittenIsComplete(h, s.notifier.wire, task);
    CarriesOneMore(task.frame, task.responses, response, id);
    if !CarriesId(Unwritten(task), id) {
      var namespace :| Announces(task.frame, task.responses + [response], |task.responses|, id, namespace);
      AnnouncedReturned(s, h, l, id, namespace);
    }
  }

  lemma WrittenIsComplete(h: Host, wire: seq<Write>, task: Task)
    requires TaskOk(h, wire, task)
    ensures task.written ==> |task.responses| == |task.reqs|
  {
  }

  lemma ElementsParsed(frame: Pipe.Incoming)
    requires Pipe.ParseFrame(frame).Some?
    ensures |Pipe.Elements(frame)| == |Pipe.ParseFrame(frame).value|
  {
    hide P.ParseRequest, P.Element;
  }

  /** Errors carry nothing, and neither does a notification. */
  lemma CarriesNothing(w: Write, id: ID)
    requires w.Replies? ==> forall i :: 0 <= i < |w.responses| ==> w.responses[i].body.Failure?
    ensures !CarriesId(w, id)
  {
    hide SubscribeRequest;
  }

  /** A write that carries nothing changes nothing about who carries what. */
  lemma PutCarries(s: State, w: Write)
    requires CarriedOnce(s) && CarriedSpent(s) && forall id :: !CarriesId(w, id)
    ensures CarriedOnce(s.(notifier := Put(s.notifier, w))) && CarriedSpent(s.(notifier := Put(s.notifier, w)))
  {
    hide CarriesId, Unwritten;
    var s' := s.(notifier := Put(s.notifier, w));
    forall id ensures StageOf(s'.notifier, id) == StageOf(s.notifier, id) {}
    forall id | CarriedSomewhere(s', id) ensures CarriedSomewhere(s, id) {
      if j :| 0 <= j < |s'.notifier.wire| && CarriesId(s'.notifier.wire[j], id) {
        assert CarriesId(s.notifier.wire[j], id);
      }
    }
  }

  /** An id the notifier knows stays known. */
  lemma KnownStays(s: State, h: Host, l: Label, id: ID)
    requires Enabled(s, h, l) && StageOf(s.notifier, id) != Unknown
    ensures StageOf(Apply(s, h, l).notifier, id) != Unknown
  {
    hide NextHandled, Responded, Unsubscribes, Refusals, Returned, Pipe.ResolveFrame, Pipe.ParseFrame;
  }

  /** One goroutine comes to carry at most one id more, which nobody carried. */
  lemma AddedOnce(s: State, s': State, t: nat, added: Option<ID>)
    requires CarriedOnce(s) && t in s.tasks && s'.notifier.wire == s.notifier.wire && s'.tasks.Keys == s.tasks.Keys
    requires forall u :: u in s.tasks && u != t ==> Unwritten(s'.tasks[u]) == Unwritten(s.tasks[u])
    requires forall id :: CarriesId(Unwritten(s'.tasks[t]), id) ==>
      CarriesId(Unwritten(s.tasks[t]), id) || added == Some(id)
    requires added.Some? ==> !CarriedSomewhere(s, added.value)
    ensures CarriedOnce(s')
    ensures forall id :: CarriedSomewhere(s', id) ==> CarriedSomewhere(s, id) || added == Some(id)
  {
    hide CarriesId, Unwritten;
    forall u, v, id | u in s.tasks && v in s.tasks && u != v && CarriesId(Unwritten(s'.tasks[u]), id)
      ensures !CarriesId(Unwritten(s'.tasks[v]), id)
    {
    }
  }

  lemma HandleKeepsOnce(s: State, h: Host, l: Label)
    requires R.RegistryOk(h.services) && WireOk(s, h) && l.HandleNext? && Enabled(s, h, l) && Orderly(s, l)
    requires CarriedOnce(s) && CarriedSpent(s)
    ensures CarriedOnce(Apply(s, h, l)) && CarriedSpent(Apply(s, h, l))
  {
    var s' := Apply(s, h, l);
    HandleFrame(s, h, l);
    TaskOfState(s, h, l);
    hide Apply, Enabled, WireOk, TaskOk, CarriesId, Unwritten, StageOf, Returned, CarriedOnce, CarriedSomewhere;
    forall id | CarriesId(Unwritten(s'.tasks[l.t]), id)
      ensures CarriesId(Unwritten(s.tasks[l.t]), id) || Returned(s, l) == Some(id)
    {
      HandleCarries(s, h, l, id);
    }
    ReturnedIsNew(s, l);
    AddedOnce(s, s', l.t, Returned(s, l));
    forall id | StageOf(s.notifier, id) != Unknown ensures StageOf(s'.notifier, id) != Unknown {
      KnownStays(s, h, l, id);
    }
    hide CarriedSpent, Orderly;
    SpentStays(s, s', Returned(s, l));
  }

  /** Nobody carries the id a callback returns. */
  lemma ReturnedIsNew(s: State, l: Label)
    requires CarriedSpent(s) && Orderly(s, l)
    ensures Returned(s, l).Some? ==> Returned(s, l).value in s.unreturned && !CarriedSomewhere(s, Returned(s, l).value)
  {
    hide CarriedSomewhere, Returned, StageOf;
  }

  lemma SpentStays(s: State, s': State, added: Option<ID>)
    requires CarriedSpent(s) && (added.Some? ==> added.value in s.unreturned)
    requires forall id :: StageOf(s.notifier, id) != Unknown ==> StageOf(s'.notifier, id) != Unknown
    requires forall id :: CarriedSomewhere(s', id) ==> CarriedSomewhere(s, id) || added == Some(id)
    requires s'.unreturned == if added.Some? then s.unreturned - {added.value} else s.unreturned
    ensures CarriedSpent(s')
  {
    hide CarriedSomewhere, StageOf;
  }

  lemma TaskOfState(s: State, h: Host, l: Label)
    requires WireOk(s, h) && l.HandleNext? && Enabled(s, h, l)
    ensures l.t in s.tasks && TaskOk(h, s.notifier.wire, s.tasks[l.t])
  {
    hide TaskOk, NextHandled, Ordered, Announced;
  }

  lemma HandleFrame(s: State, h: Host, l: Label)
    requires l.HandleNext? && Enabled(s, h, l)
    ensures var s' := Apply(s, h, l);
      && s'.notifier.wire == s.notifier.wire && s'.tasks.Keys == s.tasks.Keys
      && (forall u :: u in s.tasks && u != l.t ==> Unwritten(s'.tasks[u]) == Unwritten(s.tasks[u]))
      && s'.unreturned == if Returned(s, l).Some? then s.unreturned - {Returned(s, l).value} else s.unreturned
  {
    hide NextHandled, Responded, Unsubscribes, Returned;
  }

  /** The responses of a goroutine become a write. */
  lemma MovedOnce(s: State, s': State, t: nat)
    requires CarriedOnce(s) && t in s.tasks && s'.tasks.Keys == s.tasks.Keys
    requires s'.notifier.wire == s.notifier.wire + [Unwritten(s.tasks[t])]
    requires forall u :: u in s.tasks && u != t ==> Unwritten(s'.tasks[u]) == Unwritten(s.tasks[u])
    requires forall id :: !CarriesId(Unwritten(s'.tasks[t]), id)
    ensures CarriedOnce(s')
    ensures forall id :: CarriedSomewhere(s', id) ==> CarriedSomewhere(s, id)
  {
    hide CarriesId, Unwritten;
    var n := |s.notifier.wire|;
    assert forall j :: 0 <= j < n ==> s'.notifier.wire[j] == s.notifier.wire[j];
    assert s'.notifier.wire[n] == Unwritten(s.tasks[t]);
    forall id | CarriedSomewhere(s', id) ensures CarriedSomewhere(s, id) {
      if j :| 0 <= j < n + 1 && CarriesId(s'.notifier.wire[j], id) {
        assert j < n ==> CarriesId(s.notifier.wire[j], id);
      }
    }
  }

  lemma WriteFrame(s: State, h: Host, l: Label)
    requires l.WriteResponses? && Enabled(s, h, l)
    ensures var s' := Apply(s, h, l);
      && l.t in s.tasks && s'.tasks.Keys == s.tasks.Keys && s'.unreturned == s.unreturned
      && s'.notifier == Put(s.notifier, Unwritten(s.tasks[l.t]))
      && (forall u :: u in s.tasks && u != l.t ==> Unwritten(s'.tasks[u]) == Unwritten(s.tasks[u]))
      && Unwritten(s'.tasks[l.t]) == Replies(s.tasks[l.t].frame, [])
  {
  }

  lemma WriteKeepsOnce(s: State, h: Host, l: Label)
    requires l.WriteResponses? && Enabled(s, h, l) && CarriedOnce(s) && CarriedSpent(s)
    ensures CarriedOnce(Apply(s, h, l)) && CarriedSpent(Apply(s, h, l))
  {
    var s' := Apply(s, h, l);
    WriteFrame(s, h, l);
    hide Apply, Enabled, CarriesId, Unwritten, CarriedOnce, CarriedSomewhere, CarriedSpent;
    forall id ensures !CarriesId(Unwritten(s'.tasks[l.t]), id) {
      CarriesNothing(Unwritten(s'.tasks[l.t]), id);
    }
    MovedOnce(s, s', l.t);
    SpentStays(s, s', None);
  }

  /** A goroutine starts, activates, or a callback creates an id: nobody comes to carry anything. */
  lemma QuietKeepsOnce(s: State, h: Host, l: Label)
    requires (l.Read? || l.ActivateNext? || l.CreateId?) && Enabled(s, h, l) && Orderly(s, l)
    requires CarriedOnce(s) && CarriedSpent(s)
    ensures CarriedOnce(Apply(s, h, l)) && CarriedSpent(Apply(s, h, l))
  {
    var s' := Apply(s, h, l);
    forall u, id | u in s'.tasks && CarriesId(Unwritten(s'.tasks[u]), id)
      ensures u in s.tasks && CarriesId(Unwritten(s.tasks[u]), id)
    {
      if u !in s.tasks {
        CarriesNothing(Unwritten(s'.tasks[u]), id);
      }
    }
    forall id | StageOf(s.notifier, id) != Unknown ensures StageOf(s'.notifier, id) != Unknown {
      KnownStays(s, h, l, id);
    }
    assert s'.notifier.wire == s.notifier.wire;
    assert l.CreateId? ==> StageOf(s'.notifier, l.id) != Unknown;
    assert s'.unreturned == if l.CreateId? then s.unreturned + {l.id} else s.unreturned;
    hide Apply, Enabled, CarriesId, Unwritten, StageOf, Returned;
    forall id | CarriedSomewhere(s', id) ensures CarriedSomewhere(s, id) {
      if u :| u in s'.tasks && CarriesId(Unwritten(s'.tasks[u]), id) {
        assert CarriesId(Unwritten(s.tasks[u]), id);
      }
    }
  }

  lemma StepKeepsOnce(s: State, h: Host, l: Label)
    requires R.RegistryOk(h.services) && WireOk(s, h) && Enabled(s, h, l) && Orderly(s, l)
    requires CarriedOnce(s) && CarriedSpent(s)
    ensures CarriedOnce(Apply(s, h, l)) && CarriedSpent(Apply(s, h, l))
  {
    hide WireOk, CarriedOnce, CarriedSpent, CarriesId, Orderly, Returned, NextHandled;
    match l {
      case Reject(frame, e) =>
        NothingPut(s, Replies(frame, [Pipe.Response(P.NoId, Pipe.Failure(e))]));
      case Refuse(frame) =>
        NothingPut(s, Replies(frame, Refusals(h, frame)));
      case NotifyId(id, data) =>
        if id in s.notifier.active {
          NothingPut(s, Notification(id, s.notifier.active[id].namespace, data));
        }
      case HandleNext(_, _) => HandleKeepsOnce(s, h, l);
      case WriteResponses(_) => WriteKeepsOnce(s, h, l);
      case _ => QuietKeepsOnce(s, h, l);
    }
  }

  lemma NothingPut(s: State, w: Write)
    requires CarriedOnce(s) && CarriedSpent(s)
    requires w.Replies? ==> forall i :: 0 <= i < |w.responses| ==> w.responses[i].body.Failure?
    ensures CarriedOnce(s.(notifier := Put(s.notifier, w))) && CarriedSpent(s.(notifier := Put(s.notifier, w)))
  {
    hide CarriedOnce, CarriedSpent, CarriesId;
    forall id ensures !CarriesId(w, id) {
      CarriesNothing(w, id);
    }
    PutCarries(s, w);
  }

  lemma {:induction false} RunCarriedOnce(states: seq<State>, h: Host, labels: seq<Label>, n: nat)
    requires R.RegistryOk(h.services) && IsRun(states, h, labels) && n <= |labels|
    requires forall i :: 0 <= i < n ==> Orderly(states[i], labels[i])
    ensures CarriedOnce(states[n]) && CarriedSpent(states[n])
  {
    hide Apply, Enabled, Orderly, CarriedOnce, CarriedSpent;
    if n == 0 {
      NothingCarriedYet();
    } else {
      assert Step(states[n - 1], h, labels[n - 1], states[n]);
      RunWireOk(states, h, labels, n - 1);
      RunCarriedOnce(states, h, labels, n - 1);
      hide WireOk;
      StepKeepsOnce(states[n - 1], h, labels[n - 1]);
    }
  }

  lemma NothingCarriedYet()
    ensures CarriedOnce(INITIAL) && CarriedSpent(INITIAL)
  {
  }

  /** With fresh ids and callbacks that return their own subscriptions, an id is carried by one write at most. */
  lemma AnnouncedOnce(states: seq<State>, h: Host, labels: seq<Label>, n: nat, j: nat, k: nat, id: ID)
    requires R.RegistryOk(h.services) && IsRun(states, h, labels) && n <= |labels|
    requires forall i :: 0 <= i < n ==> Orderly(states[i], labels[i])
    requires j < |states[n].notifier.wire| && k < |states[n].notifier.wire|
    requires CarriesId(states[n].notifier.wire[j], id) && CarriesId(states[n].notifier.wire[k], id)
    ensures j == k
  {
    hide IsRun, Orderly, CarriesId;
    RunCarriedOnce(states, h, labels, n);
  }
}
