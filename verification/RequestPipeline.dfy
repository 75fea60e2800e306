/**
 From parsed requests to responses: resolve the callback and its arguments, invoke it, build
 the response. `Panic` marks every place in handling where the program would panic: a call with the
 wrong number or types of arguments, a result index out of range, a type assertion or nil test that
 fails, a nil subscription. `ActivationPanics` marks the one place after the response is written.
 */
module RequestPipeline {
  import opened GoRuntime
  import opened Registration
  import opened RequestParser

  datatype ServerRequest = ServerRequest(
    id: RawId, svcname: string, callb: Option<Callback>, args: seq<Value>, isUnsubscribe: bool, err: Option<RpcError>)

  // ----- resolve

  /** The server request a parsed request becomes. */
  function Resolve(services: map<string, Service>, decodes: Decoder, r: RpcRequest): ServerRequest {
    var plain := ServerRequest(r.id, "", None, [], false, None);
    if r.err.Some? then plain.(err := r.err)
    else if r.isPubSub && HasSuffix(r.name, UNSUBSCRIBE_SUFFIX) then
      match ParseParams(r.params, [StringType], decodes)
      case Ok(args) => plain.(isUnsubscribe := true, args := args)
      case Err(e) => plain.(isUnsubscribe := true, err := Some(e))
    else if r.service !in services then plain.(err := Some(MethodNotFound(r.service, r.name)))
    else
      var svc := services[r.service];
      if r.isPubSub then
        if r.name !in svc.subscriptions then plain.(err := Some(MethodNotFound(r.service, r.name)))
        else
          var callb := svc.subscriptions[r.name];
          var req := plain.(svcname := svc.name, callb := Some(callb));
          if r.params == None || callb.argTypes == [] then req
          else
            match ParseParams(r.params, [StringType] + callb.argTypes, decodes)
            case Ok(args) => req.(args := args[1..])
            case Err(e) => req.(err := Some(e))
      else if r.name !in svc.callbacks then plain.(err := Some(MethodNotFound(r.service, r.name)))
      else
        var callb := svc.callbacks[r.name];
        var req := plain.(svcname := svc.name, callb := Some(callb));
        if r.params == None || callb.argTypes == [] then req
        else
          match ParseParams(r.params, callb.argTypes, decodes)
          case Ok(args) => req.(args := args)
          case Err(e) => req.(err := Some(e))
  }

  function ParseParams(params: Option<Payload>, types: seq<Type>, decodes: Decoder): (r: Result<seq<Value>>)
    ensures r.Ok? ==> |r.value| == |types| && forall i :: 0 <= i < |types| ==> r.value[i].t == types[i]
  {
    ParseArgs(if params.Some? then params.value else Absent, types, decodes)
  }

  /** The verification loop over the headers that were read. */
  method ReadRequest(services: map<string, Service>, decodes: Decoder, reqs: seq<RpcRequest>)
    returns (requests: seq<ServerRequest>)
    ensures |requests| == |reqs|
    ensures forall i :: 0 <= i < |reqs| ==>
      requests[i] == Resolve(services, decodes, reqs[i]) && requests[i].id == reqs[i].id
  {
    hide Resolve;
    requests := [];
    for i := 0 to |reqs|
      invariant |requests| == i
      invariant forall k :: 0 <= k < i ==>
        requests[k] == Resolve(services, decodes, reqs[k]) && requests[k].id == reqs[k].id
    {
      ResolveKeepsId(services, decodes, reqs[i]);
      requests := requests + [Resolve(services, decodes, reqs[i])];
    }
  }

  lemma ResolveKeepsId(services: map<string, Service>, decodes: Decoder, r: RpcRequest)
    ensures Resolve(services, decodes, r).id == r.id
  {
  }

  /**
   The arguments a callback gets: argument i is decoded from params element i, or from element i + 1
   of a subscribe request, whose first element names the subscription; a missing one is the zero of
   its pointer type.
   */
  lemma ResolvedArguments(services: map<string, Service>, decodes: Decoder, r: JsonRequest, i: nat)
    requires RegistryOk(services) && Element(r).Some?
    requires var req := Resolve(services, decodes, Element(r).value);
      req.err == None && !req.isUnsubscribe && i < |req.args|
    ensures var req := Resolve(services, decodes, Element(r).value);
      var k := if HasSuffix(r.name, SUBSCRIBE_SUFFIX) then i + 1 else i;
      && req.callb.Some? && i < |req.callb.value.argTypes| && r.payload.Arr?
      && req.args[i] == (if k < |r.payload.items| then Decoded(req.callb.value.argTypes[i], r.payload.items[k])
                         else ZeroOf(req.callb.value.argTypes[i]))
      && (k >= |r.payload.items| ==> IsPointer(req.callb.value.argTypes[i]))
  {
    hide Registered, Split, FirstString;
    ParsedFacts(r);
  }

  /**
   Arity across the pipeline. A request that reaches a subscription callback carries exactly as many
   arguments as the callback has argument types, although nothing compares them before the call: a
   subscribe request without params is refused by the parser. An unsubscribe request carries one string.
   */
  lemma ResolvedArity(services: map<string, Service>, decodes: Decoder, r: JsonRequest)
    requires RegistryOk(services) && Element(r).Some?
    ensures var req := Resolve(services, decodes, Element(r).value);
      req.err == None ==>
        if req.isUnsubscribe then |req.args| == 1 && req.args[0].t == StringType
        else
          && req.callb.Some? && Registered(req.callb.value)
          && (req.callb.value.isSubscribe <==> HasSuffix(r.name, SUBSCRIBE_SUFFIX))
          && (req.callb.value.isSubscribe ==> |req.args| == |req.callb.value.argTypes|)
          && (forall i :: 0 <= i < |req.args| ==>
                |req.args| == |req.callb.value.argTypes| && req.args[i].t == req.callb.value.argTypes[i])
  {
    ParsedFacts(r);
    ElementKind(r);
    hide Registered, Element, HasSuffix, ParseArgs;
  }

  /** Only subscribe and unsubscribe requests are marked as such. */
  lemma ElementKind(r: JsonRequest)
    ensures Element(r).Some? && HasSuffix(r.name, SUBSCRIBE_SUFFIX) ==>
      Element(r).value.isPubSub && Element(r).value.err == None
  {
    hide Split, FirstString;
  }

  // ----- invoke

  /** One value a callback returned: whether it is nil, and its text (message, id or result). */
  datatype ReplyValue = ReplyValue(isNil: bool, text: string)

  /** What the surroundings answer: does the notifier know the id, what does the callback return. */
  datatype Outcome = Outcome(known: bool, reply: seq<ReplyValue>)

  datatype Body = Success(result: string) | Failure(error: RpcError)
  datatype Response = Response(id: RawId, body: Body)

  /** A handled request: its response, with the subscription to activate once it is written; or a panic. */
  datatype Handled = Answer(response: Response, activate: Option<string>) | Panic

  /**
   The type itself implements error, not only what its pointers lead to: an unnamed pointer has the
   methods of the type it points to, unless that is an interface or again a pointer.
   */
  predicate ImplementsError(t: Type) {
    t.ErrorType? || (t.Other? && t.isError)
    || (t.Ptr? && t.elem.Other? && t.elem.isError && t.elem.kind != InterfaceKind)
  }

  predicate HasNil(t: Type) {
    IsPointer(t) || t.ErrorType? || t.ContextType? || (t.Other? && t.kind != PlainKind)
  }

  /** Looking at an error result: no error, its message, or a panic. */
  datatype ErrorCheck = NoError | Message(text: string) | CheckPanics

  function CheckError(t: Type, v: ReplyValue): ErrorCheck {
    if !HasNil(t) then CheckPanics
    else if v.isNil then NoError
    else if !ImplementsError(t) then CheckPanics
    else Message(v.text)
  }

  function ErrorResponse(req: ServerRequest, e: RpcError): Handled {
    Answer(Response(req.id, Failure(e)), None)
  }

  function TypesOf(args: seq<Value>): seq<Type> {
    seq(|args|, i requires 0 <= i < |args| => args[i].t)
  }

  /** The values a callback is called with, after the receiver; the context first, if it is passed. */
  function Given(req: ServerRequest, ctx: bool): seq<Type> {
    (if ctx then [ContextType] else []) + TypesOf(req.args)
  }

  /** The number of parameters that take one value each. */
  function FixedParams(m: Method): nat {
    if IsVariadic(m) then |m.params| - 1 else |m.params|
  }

  /**
   Whether a method can be called with values of these types. A variadic one packs what goes beyond its
   fixed parameters into a slice itself, so a slice given for it must fit as an element.
   */
  predicate CallFits(m: Method, given: seq<Type>) {
    var fixed := FixedParams(m);
    && (if IsVariadic(m) then |given| >= fixed else |given| == fixed)
    && given[..fixed] == m.params[..fixed]
    && (forall i :: fixed <= i < |given| ==> given[i] == m.params[fixed] && m.variadic.fits)
  }

  function CreateSubscription(req: ServerRequest, callb: Callback, reply: seq<ReplyValue>): Handled {
    if !CallFits(callb.target, Given(req, true)) || |reply| < 2 || |callb.target.outs| < 2 then Panic
    else
      match CheckError(callb.target.outs[1], reply[1])
      case CheckPanics => Panic
      case Message(text) => ErrorResponse(req, CallbackFailed(text))
      case NoError =>
        if callb.target.outs[0] != Ptr(SubscriptionType) || reply[0].isNil then Panic
        else Answer(Response(req.id, Success(reply[0].text)), Some(reply[0].text))
  }

  function Call(req: ServerRequest, callb: Callback, reply: seq<ReplyValue>): Handled {
    if |req.args| != |callb.argTypes| then ErrorResponse(req, InvalidParams(WrongCount))
    else if !CallFits(callb.target, Given(req, callb.hasCtx)) then Panic
    else if reply == [] then Answer(Response(req.id, Success("null")), None)
    else if callb.errPos < 0 then Answer(Response(req.id, Success(reply[0].text)), None)
    else if callb.errPos >= |reply| || callb.errPos >= |callb.target.outs| then Panic
    else
      match CheckError(callb.target.outs[callb.errPos], reply[callb.errPos])
      case CheckPanics => Panic
      case Message(text) => ErrorResponse(req, CallbackFailed(text))
      case NoError => Answer(Response(req.id, Success(reply[0].text)), None)
  }

  /** `notifier` says whether the connection has one. */
  function Handle(req: ServerRequest, notifier: bool, o: Outcome): Handled {
    if req.err.Some? then ErrorResponse(req, req.err.value)
    else if req.isUnsubscribe then
      if |req.args| >= 1 && req.args[0].t == StringType then
        if !notifier then ErrorResponse(req, CallbackFailed("notifications not supported"))
        else if !o.known then ErrorResponse(req, CallbackFailed("subscription not found"))
        else Answer(Response(req.id, Success("true")), None)
      else ErrorResponse(req, InvalidParams(NoSubscriptionId))
    else if req.callb == None then Panic
    else if req.callb.value.isSubscribe then CreateSubscription(req, req.callb.value, o.reply)
    else Call(req, req.callb.value, o.reply)
  }

  /** Without a notifier, activating a subscription locks a mutex of a nil pointer. */
  predicate ActivationPanics(h: Handled, notifier: bool) {
    h.Answer? && h.activate.Some? && !notifier
  }

  /** Handling a request, or the activation it leaves behind, panics. */
  predicate Panics(req: ServerRequest, notifier: bool, o: Outcome) {
    Handle(req, notifier, o).Panic? || ActivationPanics(Handle(req, notifier, o), notifier)
  }

  /** Requests the pipeline produces for a callback: registered, no error, and one argument of each type. */
  ghost predicate Ready(req: ServerRequest) {
    && req.err == None && !req.isUnsubscribe && req.callb.Some? && Registered(req.callb.value)
    && TypesOf(req.args) == req.callb.value.argTypes
  }

  /** A variadic method that does not take its own slice as an element. */
  predicate SpreadMisfit(m: Method) {
    IsVariadic(m) && !m.variadic.fits
  }

  /** An error result of this type makes the server panic when it holds this value. */
  predicate ErrorResultPanics(t: Type, v: ReplyValue) {
    IsError(t) && (!HasNil(t) || (!v.isNil && !ImplementsError(t)))
  }

  /**
   When a registered method makes the server panic, in terms of its signature, of what it returned
   and of the connection: it is variadic and gets a slice as an element; an error result cannot be
   examined; a subscription method takes its context by pointer and gets one argument too many; or it
   reports no error and its first result is no *Subscription, or nil, or there is no notifier to
   activate it.
   */
  ghost predicate PanicCause(m: Method, notifier: bool, reply: seq<ReplyValue>)
    requires |reply| == |m.outs|
  {
    || SpreadMisfit(m)
    || (exists i :: 0 <= i < |m.outs| && ErrorResultPanics(m.outs[i], reply[i]))
    || (IsPubSub(m)
        && (|| !TakesContext(m)
            || (reply[1].isNil && (m.outs[0] != Ptr(SubscriptionType) || reply[0].isNil || !notifier))))
  }

  /** For every reply, a request that reaches its callback makes the server panic exactly for one of these causes. */
  lemma PanicsExactlyWhen(req: ServerRequest, notifier: bool, o: Outcome)
    requires Ready(req) && |o.reply| == |req.callb.value.target.outs|
    ensures Panics(req, notifier, o) <==> PanicCause(req.callb.value.target, notifier, o.reply)
  {
    hide Panics, PanicCause, Registered;
    if req.callb.value.isSubscribe {
      SubscriptionPanicsWhen(req, notifier, o);
    } else {
      CallPanicsWhen(req, notifier, o);
    }
  }

  lemma SubscriptionPanicsWhen(req: ServerRequest, notifier: bool, o: Outcome)
    requires Ready(req) && req.callb.value.isSubscribe && |o.reply| == |req.callb.value.target.outs|
    ensures Panics(req, notifier, o) <==> PanicCause(req.callb.value.target, notifier, o.reply)
  {
    var outs := req.callb.value.target.outs;
    RegisteredShape(req.callb.value);
    RegisteredKind(req.callb.value);
    SubscriptionIsNoError(outs[0]);
    SubscriptionFits(req);
    hide Registered, TakesContext, IsPubSub, IsSubscription, IsError, HasNil, ImplementsError, Call;
    hide CallFits, SpreadMisfit, Given;
    assert (exists i :: 0 <= i < |outs| && ErrorResultPanics(outs[i], o.reply[i])) <==>
      ErrorResultPanics(outs[1], o.reply[1]);
  }

  lemma CallPanicsWhen(req: ServerRequest, notifier: bool, o: Outcome)
    requires Ready(req) && !req.callb.value.isSubscribe && |o.reply| == |req.callb.value.target.outs|
    ensures Panics(req, notifier, o) <==> PanicCause(req.callb.value.target, notifier, o.reply)
  {
    var outs, errPos := req.callb.value.target.outs, req.callb.value.errPos;
    hide Registered, TakesContext, IsPubSub, IsError, HasNil, ImplementsError, CreateSubscription;
    hide CallFits, SpreadMisfit, Given, CheckError, ErrorResultPanics, PanicCause;
    CallCause(req.callb.value, notifier, o.reply);
    GivenIsParams(req);
    FitsItself(req.callb.value.target);
    if errPos >= 0 {
      CheckErrorPanics(outs[errPos], o.reply[errPos]);
    }
  }

  /** The causes that concern a call, in terms of the registered error position. */
  lemma CallCause(callb: Callback, notifier: bool, reply: seq<ReplyValue>)
    requires Registered(callb) && !callb.isSubscribe && |reply| == |callb.target.outs|
    ensures -1 <= callb.errPos < |reply| && (callb.errPos >= 0 ==> IsError(callb.target.outs[callb.errPos]))
    ensures PanicCause(callb.target, notifier, reply) <==>
      || SpreadMisfit(callb.target)
      || (callb.errPos >= 0 && ErrorResultPanics(callb.target.outs[callb.errPos], reply[callb.errPos]))
  {
    CallShape(callb);
    hide Registered, IsPubSub, SpreadMisfit, ErrorResultPanics, IsError;
    PanicAtErrPos(callb.target.outs, reply, callb.errPos);
  }

  /** The only error result is the one at the registered position. */
  lemma PanicAtErrPos(outs: seq<Type>, reply: seq<ReplyValue>, errPos: int)
    requires |reply| == |outs| && -1 <= errPos < |outs|
    requires forall i :: 0 <= i < |outs| ==> (IsError(outs[i]) <==> i == errPos)
    ensures (exists i :: 0 <= i < |outs| && ErrorResultPanics(outs[i], reply[i])) <==>
      errPos >= 0 && ErrorResultPanics(outs[errPos], reply[errPos])
  {
    hide IsError, HasNil, ImplementsError;
  }

  lemma CheckErrorPanics(t: Type, v: ReplyValue)
    requires IsError(t)
    ensures CheckError(t, v).CheckPanics? <==> ErrorResultPanics(t, v)
  {
    hide IsError, HasNil, ImplementsError;
  }

  /** A method takes values of its own parameter types, unless it is variadic and does not take its slice. */
  lemma FitsItself(m: Method)
    ensures CallFits(m, m.params) <==> !SpreadMisfit(m)
  {
    var fixed := FixedParams(m);
    if IsVariadic(m) {
      assert m.params[fixed] == m.params[|m.params| - 1];
    }
  }

  /** A registered callback is called with values of its own parameter types, if it gets the context as it expects. */
  lemma GivenIsParams(req: ServerRequest)
    requires Ready(req)
    ensures Given(req, req.callb.value.hasCtx) == req.callb.value.target.params
    ensures |req.args| == |req.callb.value.argTypes|
  {
    hide IsPubSub, IsError, IsSubscription;
    RegisteredKind(req.callb.value);
    RegisteredArgs(req.callb.value);
    hide Registered;
    ParamsSplit(req.callb.value.target);
    assert |TypesOf(req.args)| == |req.args|;
  }

  lemma RegisteredArgs(callb: Callback)
    requires Registered(callb)
    ensures callb.argTypes == ArgTypes(callb.target)
  {
    hide IsPubSub, AllExported, FirstError;
  }

  lemma ParamsSplit(m: Method)
    ensures m.params == (if TakesContext(m) then [ContextType] else []) + ArgTypes(m)
  {
  }

  /** A first value of the wrong type is not accepted. */
  lemma ForeignFirst(m: Method, given: seq<Type>)
    requires given != [] && m.params != [] && given[0] != m.params[0]
    ensures !CallFits(m, given)
  {
    var fixed := FixedParams(m);
    if 0 < fixed <= |given| {
      assert given[..fixed][0] != m.params[..fixed][0];
    }
  }

  /** A subscription callback always gets the context: it fits exactly if it is expected, and nothing else is amiss. */
  lemma SubscriptionFits(req: ServerRequest)
    requires Ready(req) && req.callb.value.isSubscribe
    ensures var m := req.callb.value.target; CallFits(m, Given(req, true)) <==> TakesContext(m) && !SpreadMisfit(m)
  {
    var m := req.callb.value.target;
    GivenIsParams(req);
    RegisteredKind(req.callb.value);
    PubSubContext(m);
    FitsItself(m);
    hide Registered, IsPubSub, IsContext, CallFits, SpreadMisfit;
    if !TakesContext(m) {
      ForeignFirst(m, Given(req, true));
    }
  }

  lemma PubSubContext(m: Method)
    ensures IsPubSub(m) ==> m.params != [] && IsContext(m.params[0])
  {
  }

  lemma RegisteredKind(callb: Callback)
    requires Registered(callb)
    ensures callb.isSubscribe == IsPubSub(callb.target) && callb.hasCtx == TakesContext(callb.target)
  {
  }

  /** What a registered callback that is no subscription looks like to the code that calls it. */
  lemma CallShape(callb: Callback)
    requires Registered(callb) && !callb.isSubscribe
    ensures !IsPubSub(callb.target) && |callb.target.params| == |callb.argTypes| + (if callb.hasCtx then 1 else 0)
    ensures -1 <= callb.errPos < |callb.target.outs|
    ensures forall i :: 0 <= i < |callb.target.outs| ==> (IsError(callb.target.outs[i]) <==> i == callb.errPos)
  {
    RegisteredShape(callb);
    RegisteredKind(callb);
    hide Registered, IsPubSub, IsError;
  }

  lemma SubscriptionIsNoError(t: Type)
    requires IsSubscription(t)
    ensures !IsError(t)
  {
  }

  /** A condition on the method alone, checkable when it is registered. */
  ghost predicate Usable(m: Method) {
    && !SpreadMisfit(m)
    && (forall i :: 0 <= i < |m.outs| && IsError(m.outs[i]) ==> HasNil(m.outs[i]) && ImplementsError(m.outs[i]))
    && (IsPubSub(m) ==> TakesContext(m) && m.outs[0] == Ptr(SubscriptionType))
  }

  /** What a well-behaved method returns: one value per result, and a subscription when it reports no error. */
  ghost predicate RepliesTo(m: Method, reply: seq<ReplyValue>) {
    |reply| == |m.outs| && (IsPubSub(m) && reply[1].isNil ==> !reply[0].isNil)
  }

  /**
   Which methods are safe to register: no well-behaved reply makes the server panic exactly when the
   method is usable and, if it is a subscription, the connection has a notifier. Registration gives
   neither. It accepts variadic methods, subscription methods whose context is a pointer, results of
   type Subscription instead of *Subscription, and error results that have no nil or are pointers to
   interfaces or named pointers.
   */
  lemma HandledIffUsable(req: ServerRequest, notifier: bool, known: bool)
    requires Ready(req)
    ensures (forall reply :: RepliesTo(req.callb.value.target, reply) ==> !Panics(req, notifier, Outcome(known, reply)))
            <==> Usable(req.callb.value.target) && (IsPubSub(req.callb.value.target) ==> notifier)
  {
    var m := req.callb.value.target;
    hide Ready, Panics;
    if Usable(m) && (IsPubSub(m) ==> notifier) {
      forall reply | RepliesTo(m, reply)
        ensures !Panics(req, notifier, Outcome(known, reply))
      {
        PanicsExactlyWhen(req, notifier, Outcome(known, reply));
        UsableNoCause(m, notifier, reply);
      }
    } else {
      hide IsPubSub, TakesContext, IsError, HasNil, ImplementsError, RepliesTo, PanicCause, SpreadMisfit;
      var reply;
      if SpreadMisfit(m) {
        reply := AnyReply(m, notifier);
      } else if i :| 0 <= i < |m.outs| && IsError(m.outs[i]) && !(HasNil(m.outs[i]) && ImplementsError(m.outs[i])) {
        reply := BadErrorReply(m, notifier, i);
      } else {
        reply := BadSubscriptionReply(m, notifier);
      }
      RepliesLength(m, reply);
      PanicsExactlyWhen(req, notifier, Outcome(known, reply));
    }
  }

  lemma UsableNoCause(m: Method, notifier: bool, reply: seq<ReplyValue>)
    requires Usable(m) && (IsPubSub(m) ==> notifier) && RepliesTo(m, reply)
    ensures !PanicCause(m, notifier, reply)
  {
    hide IsPubSub, TakesContext, IsError, HasNil, ImplementsError, SpreadMisfit;
  }

  lemma RepliesLength(m: Method, reply: seq<ReplyValue>)
    requires RepliesTo(m, reply)
    ensures |reply| == |m.outs|
  {
  }

  /** A variadic method that does not take its own slice panics whatever it would return. */
  lemma AnyReply(m: Method, notifier: bool) returns (reply: seq<ReplyValue>)
    requires SpreadMisfit(m)
    ensures RepliesTo(m, reply) && PanicCause(m, notifier, reply)
  {
    PubSubResults(m);
    hide IsPubSub;
    reply := seq(|m.outs|, k => ReplyValue(false, ""));
  }

  /** A bad error result is exposed by a reply that reports an error in it, or by any. */
  lemma BadErrorReply(m: Method, notifier: bool, i: nat) returns (reply: seq<ReplyValue>)
    requires i < |m.outs| && IsError(m.outs[i]) && !(HasNil(m.outs[i]) && ImplementsError(m.outs[i]))
    ensures RepliesTo(m, reply) && PanicCause(m, notifier, reply)
  {
    PubSubResults(m);
    hide IsPubSub, TakesContext, IsError, HasNil, ImplementsError;
    reply := seq(|m.outs|, k => ReplyValue(k == i && !HasNil(m.outs[i]), ""));
    assert ErrorResultPanics(m.outs[i], reply[i]);
  }

  /** A subscription method that is unusable otherwise, or has no notifier, is exposed by returning a subscription. */
  lemma BadSubscriptionReply(m: Method, notifier: bool) returns (reply: seq<ReplyValue>)
    requires IsPubSub(m) && !(TakesContext(m) && m.outs[0] == Ptr(SubscriptionType) && notifier)
    ensures RepliesTo(m, reply) && PanicCause(m, notifier, reply)
  {
    PubSubResults(m);
    hide IsPubSub, TakesContext, ErrorResultPanics;
    reply := [ReplyValue(false, ""), ReplyValue(true, "")];
  }

  lemma PubSubResults(m: Method)
    ensures IsPubSub(m) ==> |m.outs| == 2
  {
  }

  /**
   The whole pipeline for one request: a JSON request makes the server panic exactly when it gets as
   far as its callback and that call has one of the causes.
   */
  lemma PipelinePanics(services: map<string, Service>, decodes: Decoder, r: JsonRequest, notifier: bool, o: Outcome)
    requires RegistryOk(services) && Element(r).Some?
    requires var req := Resolve(services, decodes, Element(r).value);
      req.callb.Some? ==> |o.reply| == |req.callb.value.target.outs|
    ensures var req := Resolve(services, decodes, Element(r).value);
      Panics(req, notifier, o) <==>
        && req.err == None && !req.isUnsubscribe && req.callb.Some?
        && |req.args| == |req.callb.value.argTypes| && PanicCause(req.callb.value.target, notifier, o.reply)
  {
    var req := Resolve(services, decodes, Element(r).value);
    ResolvedArity(services, decodes, r);
    hide Resolve, PanicCause;
    if req.callb.Some? && req.err == None && !req.isUnsubscribe && |req.args| == |req.callb.value.argTypes| {
      assert TypesOf(req.args) == req.callb.value.argTypes;
      PanicsExactlyWhen(req, notifier, o);
    }
  }

  // ----- inputs that panic

  /** A request for what registration makes of a method, with one argument of each type. */
  predicate Reaches(req: ServerRequest, m: Method) {
    req.err == None && !req.isUnsubscribe && req.callb == Classify(m) && TypesOf(req.args) == ArgTypes(m)
  }

  /** A subscription method whose context is a pointer is registered, and every request for it panics. */
  lemma PointerContextPanics(req: ServerRequest, notifier: bool, o: Outcome)
    requires Reaches(req, Method("Logs", "", [Ptr(ContextType)], [Ptr(SubscriptionType), ErrorType], Fixed))
    requires |o.reply| == 2
    ensures req.callb.Some? && Panics(req, notifier, o)
  {
    var m := Method("Logs", "", [Ptr(ContextType)], [Ptr(SubscriptionType), ErrorType], Fixed);
    assert Strip(Ptr(ContextType)) == ContextType && Strip(Ptr(SubscriptionType)) == SubscriptionType;
    assert ArgTypes(m) == [Ptr(ContextType)] && IsPubSub(m) && !TakesContext(m);
    PanicsExactlyWhen(req, notifier, o);
  }

  /**
   A variadic method, such as one that sums integers, is registered with a slice as its argument type,
   and every request whose arguments parse panics: the slice is taken for one of its integers.
   */
  lemma VariadicPanics(req: ServerRequest, notifier: bool, o: Outcome)
    requires |o.reply| == 1
    requires Reaches(req, Method("Sum", "", [Other("", "", NilableKind, false)], [Other("int", "", PlainKind, false)],
                                 Spread(false)))
    ensures req.callb.Some? && |req.callb.value.argTypes| == 1 && Panics(req, notifier, o)
  {
    var m := Method("Sum", "", [Other("", "", NilableKind, false)], [Other("int", "", PlainKind, false)],
                    Spread(false));
    assert ArgTypes(m) == m.params && FirstError(m.outs) == -1 && !IsPubSub(m);
    PanicsExactlyWhen(req, notifier, o);
  }

  /** A named pointer to Subscription is taken for a subscription; returning one panics. */
  lemma NamedPointerPanics(req: ServerRequest, notifier: bool, o: Outcome)
    requires |o.reply| == 2
    requires Reaches(req, Method("Logs", "", [ContextType], [NamedPtr("SubPtr", SubscriptionType), ErrorType], Fixed))
    ensures req.callb.Some? && (Panics(req, notifier, o) <==> o.reply[1].isNil)
  {
    var m := Method("Logs", "", [ContextType], [NamedPtr("SubPtr", SubscriptionType), ErrorType], Fixed);
    assert Strip(m.outs[0]) == SubscriptionType;
    assert ArgTypes(m) == [] && IsPubSub(m) && TakesContext(m);
    SubscriptionIsNoError(m.outs[0]);
    PanicsExactlyWhen(req, notifier, o);
  }

  /** A result of type *Error, a pointer to this package's interface, is taken for an error; a value in it panics. */
  lemma PointerToInterfacePanics(req: ServerRequest, notifier: bool, o: Outcome)
    requires |o.reply| == 2
    requires Reaches(req, Method("Version", "", [], [StringType, Ptr(Other("Error", "rpc", InterfaceKind, true))],
                                 Fixed))
    ensures req.callb.Some? && (Panics(req, notifier, o) <==> !o.reply[1].isNil)
  {
    var m := Method("Version", "", [], [StringType, Ptr(Other("Error", "rpc", InterfaceKind, true))], Fixed);
    assert Strip(m.outs[1]) == m.outs[1].elem && FirstError(m.outs) == 1;
    assert ErrorResultPanics(m.outs[1], o.reply[1]) <==> !o.reply[1].isNil;
    assert !IsPubSub(m) && !ErrorResultPanics(m.outs[0], o.reply[0]);
    PanicsExactlyWhen(req, notifier, o);
  }

  /**
   Even the usable signature of a subscription method panics: exactly when it returns neither a
   subscription nor an error, or returns a subscription on a connection without a notifier.
   */
  lemma SubscriptionPanics(req: ServerRequest, notifier: bool, o: Outcome)
    requires Reaches(req, Method("Logs", "", [ContextType], [Ptr(SubscriptionType), ErrorType], Fixed))
    requires |o.reply| == 2
    ensures req.callb.Some? && Usable(req.callb.value.target)
    ensures Panics(req, notifier, o) <==> o.reply[1].isNil && (o.reply[0].isNil || !notifier)
  {
    var m := Method("Logs", "", [ContextType], [Ptr(SubscriptionType), ErrorType], Fixed);
    assert Strip(Ptr(SubscriptionType)) == SubscriptionType;
    assert ArgTypes(m) == [] && IsPubSub(m) && TakesContext(m);
    SubscriptionIsNoError(m.outs[0]);
    PanicsExactlyWhen(req, notifier, o);
  }

  // ----- what requests are answered with, from JSON to the response

  /** The arguments a request offers fit what the callback takes; one that takes none ignores them. */
  ghost predicate Accepts(callb: Callback, p: Payload, decodes: Decoder) {
    callb.argTypes == []
    || ArgsFit(p, if callb.isSubscribe then [StringType] + callb.argTypes else callb.argTypes, decodes)
  }

  /** The answer of a callback, read off its results and their types. */
  ghost predicate Answers(h: Handled, id: RawId, callb: Callback, reply: seq<ReplyValue>)
    requires |reply| == |callb.target.outs|
  {
    && (forall i :: 0 <= i < |reply| && IsError(callb.target.outs[i]) && !reply[i].isNil ==>
          h == Answer(Response(id, Failure(CallbackFailed(reply[i].text))), None))
    && ((forall i :: 0 <= i < |reply| && IsError(callb.target.outs[i]) ==> reply[i].isNil) ==>
          var text := if reply == [] then "null" else reply[0].text;
          h == Answer(Response(id, Success(text)), if callb.isSubscribe then Some(text) else None))
  }

  /** A callback that was reached and did not panic answers its error, or its first result. */
  lemma CallbackAnswers(req: ServerRequest, notifier: bool, o: Outcome)
    requires Ready(req) && |o.reply| == |req.callb.value.target.outs|
    requires !PanicCause(req.callb.value.target, notifier, o.reply)
    ensures Handle(req, notifier, o).Answer? && Answers(Handle(req, notifier, o), req.id, req.callb.value, o.reply)
  {
    PanicsExactlyWhen(req, notifier, o);
    hide PanicCause, Answers;
    if req.callb.value.isSubscribe {
      SubscriptionAnswers(req, notifier, o);
    } else {
      CallAnswers(req, notifier, o);
    }
  }

  lemma SubscriptionAnswers(req: ServerRequest, notifier: bool, o: Outcome)
    requires Ready(req) && req.callb.value.isSubscribe && |o.reply| == |req.callb.value.target.outs|
    requires Handle(req, notifier, o).Answer?
    ensures Answers(Handle(req, notifier, o), req.id, req.callb.value, o.reply)
  {
    RegisteredShape(req.callb.value);
    SubscriptionIsNoError(req.callb.value.target.outs[0]);
    hide Registered, IsError, IsSubscription, HasNil, ImplementsError, Call;
  }

  lemma CallAnswers(req: ServerRequest, notifier: bool, o: Outcome)
    requires Ready(req) && !req.callb.value.isSubscribe && |o.reply| == |req.callb.value.target.outs|
    requires Handle(req, notifier, o).Answer?
    ensures Answers(Handle(req, notifier, o), req.id, req.callb.value, o.reply)
  {
    hide Registered, IsPubSub, IsError, HasNil, ImplementsError, CreateSubscription;
    CallShape(req.callb.value);
  }

  /** A request for the callback that resolving gave, or what it gave instead. */
  ghost predicate ResolvesTo(req: ServerRequest, id: RawId, callb: Callback, accepted: bool) {
    && req.id == id && !req.isUnsubscribe && req.callb == Some(callb)
    && if accepted then Ready(req)
       else if req.err == None then !callb.isSubscribe && |req.args| != |callb.argTypes|
       else req.err.value.InvalidParams?
  }

  lemma ResolvedAnswers(req: ServerRequest, callb: Callback, accepted: bool, notifier: bool, o: Outcome)
    requires ResolvesTo(req, req.id, callb, accepted)
    ensures var h := Handle(req, notifier, o);
      if !accepted then
        h.Answer? && h.response.id == req.id && h.response.body.Failure? && h.response.body.error.InvalidParams?
      else
        |o.reply| == |callb.target.outs| && !PanicCause(callb.target, notifier, o.reply) ==>
          Answers(h, req.id, callb, o.reply)
  {
    hide PanicCause, Answers, CreateSubscription, Registered;
    if accepted && |o.reply| == |callb.target.outs| && !PanicCause(callb.target, notifier, o.reply) {
      CallbackAnswers(req, notifier, o);
    }
  }

  lemma CallResolves(services: map<string, Service>, decodes: Decoder, r: JsonRequest, a: string, b: string)
    requires RegistryOk(services) && CheckId(r.id) == None
    requires '_' !in a && '_' !in b && r.name == a + "_" + b && !HasSuffix(r.name, SUBSCRIBE_SUFFIX)
    requires !HasSuffix(r.name, UNSUBSCRIBE_SUFFIX)
    ensures Element(r).Some?
    ensures var req := Resolve(services, decodes, Element(r).value);
      if a in services && b in services[a].callbacks then
        ResolvesTo(req, r.id, services[a].callbacks[b], Accepts(services[a].callbacks[b], r.payload, decodes))
      else req.id == r.id && req.err == Some(MethodNotFound(a, b))
  {
    SplitPair(a, b);
    hide Split, Registered, HasSuffix;
  }

  /**
   A call, end to end: the JSON request "a_b" is answered method-not-found exactly when a does not
   offer b, otherwise invalid-params exactly when the arguments do not fit, otherwise with the
   callback's error or its first result, always under the id of the request.
   */
  lemma CallServed(services: map<string, Service>, decodes: Decoder, r: JsonRequest, a: string, b: string,
                   notifier: bool, o: Outcome)
    requires RegistryOk(services) && CheckId(r.id) == None
    requires '_' !in a && '_' !in b && r.name == a + "_" + b && !HasSuffix(r.name, SUBSCRIBE_SUFFIX)
    requires !HasSuffix(r.name, UNSUBSCRIBE_SUFFIX)
    ensures Element(r).Some?
    ensures var h := Handle(Resolve(services, decodes, Element(r).value), notifier, o);
      if a !in services || b !in services[a].callbacks then
        h == Answer(Response(r.id, Failure(MethodNotFound(a, b))), None)
      else
        var callb := services[a].callbacks[b];
        if !Accepts(callb, r.payload, decodes) then
          h.Answer? && h.response.id == r.id && h.response.body.Failure? && h.response.body.error.InvalidParams?
        else
          |o.reply| == |callb.target.outs| && !PanicCause(callb.target, notifier, o.reply) ==>
            Answers(h, r.id, callb, o.reply)
  {
    CallResolves(services, decodes, r, a, b);
    hide Resolve, Element, Accepts, PanicCause, Answers;
    if a in services && b in services[a].callbacks {
      var callb := services[a].callbacks[b];
      var req := Resolve(services, decodes, Element(r).value);
      ResolvedAnswers(req, callb, Accepts(callb, r.payload, decodes), notifier, o);
      hide Handle;
    }
  }

  lemma SubscribeResolves(services: map<string, Service>, decodes: Decoder, r: JsonRequest, a: string, b: string)
    requires RegistryOk(services) && CheckId(r.id) == None && r.name == a + SUBSCRIBE_SUFFIX
    requires r.payload != Absent && FirstString(r.payload) == Some(b) && !HasSuffix(b, UNSUBSCRIBE_SUFFIX)
    ensures Element(r).Some?
    ensures var req := Resolve(services, decodes, Element(r).value);
      if a in services && b in services[a].subscriptions then
        ResolvesTo(req, r.id, services[a].subscriptions[b], Accepts(services[a].subscriptions[b], r.payload, decodes))
      else req.id == r.id && req.err == Some(MethodNotFound(a, b))
  {
    SubscribeElement(r, a, b);
    hide Registered, FirstString, HasSuffix, Element, ArgsFit, ParseParams, TypesOf;
    if a in services && b in services[a].subscriptions {
      SubscribeArguments(services[a].subscriptions[b].argTypes, r.payload, decodes);
      NoArguments();
    }
  }

  /** The arguments of a subscription are those after the name of the subscription. */
  lemma SubscribeArguments(types: seq<Type>, p: Payload, decodes: Decoder)
    ensures match ParseParams(Some(p), [StringType] + types, decodes)
            case Ok(args) => ArgsFit(p, [StringType] + types, decodes) && |args| > 0 && TypesOf(args[1..]) == types
            case Err(e) => !ArgsFit(p, [StringType] + types, decodes) && e.InvalidParams?
  {
    hide ArgsFit, Obstacle, ParseArgs, TypesOf;
    if ParseParams(Some(p), [StringType] + types, decodes).Ok? {
      TailTypes(ParseParams(Some(p), [StringType] + types, decodes).value, StringType, types);
    }
  }

  lemma TailTypes(args: seq<Value>, t: Type, types: seq<Type>)
    requires |args| == |types| + 1 && forall i :: 0 <= i < |args| ==> args[i].t == ([t] + types)[i]
    ensures TypesOf(args[1..]) == types
  {
    forall i | 0 <= i < |types| ensures TypesOf(args[1..])[i] == types[i] {
      assert args[1..][i] == args[i + 1];
    }
  }

  lemma NoArguments()
    ensures TypesOf([]) == []
  {
  }

  lemma SubscribeElement(r: JsonRequest, a: string, b: string)
    requires CheckId(r.id) == None && r.name == a + SUBSCRIBE_SUFFIX
    requires r.payload != Absent && FirstString(r.payload) == Some(b)
    ensures Element(r) == Some(RpcRequest(a, b, r.id, true, Some(r.payload), None))
  {
    assert HasSuffix(r.name, SUBSCRIBE_SUFFIX) && TrimSuffix(r.name, SUBSCRIBE_SUFFIX) == a;
    hide FirstString, HasSuffix, TrimSuffix, Split;
  }

  /**
   A subscribe request, end to end: "a_subscribe" with first parameter b reaches the subscription b of
   a, with the further parameters as arguments; the id it returns is answered and left to be activated.
   */
  lemma SubscribeServed(services: map<string, Service>, decodes: Decoder, r: JsonRequest, a: string, b: string,
                        notifier: bool, o: Outcome)
    requires RegistryOk(services) && CheckId(r.id) == None && r.name == a + SUBSCRIBE_SUFFIX
    requires r.payload != Absent && FirstString(r.payload) == Some(b) && !HasSuffix(b, UNSUBSCRIBE_SUFFIX)
    ensures Element(r).Some?
    ensures var h := Handle(Resolve(services, decodes, Element(r).value), notifier, o);
      if a !in services || b !in services[a].subscriptions then
        h == Answer(Response(r.id, Failure(MethodNotFound(a, b))), None)
      else
        var callb := services[a].subscriptions[b];
        if !Accepts(callb, r.payload, decodes) then
          h.Answer? && h.response.id == r.id && h.response.body.Failure? && h.response.body.error.InvalidParams?
        else
          |o.reply| == |callb.target.outs| && !PanicCause(callb.target, notifier, o.reply) ==>
            Answers(h, r.id, callb, o.reply)
  {
    SubscribeResolves(services, decodes, r, a, b);
    hide Resolve, Element, Accepts, PanicCause, Answers;
    if a in services && b in services[a].subscriptions {
      var callb := services[a].subscriptions[b];
      var req := Resolve(services, decodes, Element(r).value);
      ResolvedAnswers(req, callb, Accepts(callb, r.payload, decodes), notifier, o);
      hide Handle;
    }
  }

  // ----- respond

  /** Every answer carries the id of its request. */
  lemma AnswerKeepsId(req: ServerRequest, notifier: bool, o: Outcome)
    ensures Handle(req, notifier, o).Answer? ==> Handle(req, notifier, o).response.id == req.id
  {
  }

  /** The responses of a batch, request by request. */
  function Responses(reqs: seq<ServerRequest>, notifier: bool, outcomes: seq<Outcome>): (rs: seq<Response>)
    requires |outcomes| == |reqs|
    requires forall i :: 0 <= i < |reqs| ==> Handle(reqs[i], notifier, outcomes[i]).Answer?
    ensures |rs| == |reqs|
    ensures forall i :: 0 <= i < |reqs| ==> rs[i].id == reqs[i].id
  {
    hide Handle;
    var rs := seq(|reqs|, i requires 0 <= i < |reqs| => Handle(reqs[i], notifier, outcomes[i]).response);
    assert forall i :: 0 <= i < |reqs| ==> rs[i].id == reqs[i].id by {
      forall i | 0 <= i < |reqs| ensures rs[i].id == reqs[i].id {
        AnswerKeepsId(reqs[i], notifier, outcomes[i]);
      }
    }
    rs
  }

  /** Ids of the subscriptions a batch activates, in order. */
  function Activations(reqs: seq<ServerRequest>, notifier: bool, outcomes: seq<Outcome>): seq<string>
    requires |outcomes| == |reqs|
  {
    if reqs == [] then []
    else
      var n := |reqs| - 1;
      Activations(reqs[..n], notifier, outcomes[..n])
      + match Handle(reqs[n], notifier, outcomes[n])
        case Answer(_, Some(id)) => [id]
        case _ => []
  }

  /** The first half of executing a batch: a response for every request, in order, unless a callback panics. */
  method HandleBatch(reqs: seq<ServerRequest>, notifier: bool, outcomes: seq<Outcome>)
    returns (answers: Option<seq<Response>>, callbacks: seq<string>)
    requires |outcomes| == |reqs|
    ensures answers.Some? <==> forall i :: 0 <= i < |reqs| ==> Handle(reqs[i], notifier, outcomes[i]).Answer?
    ensures answers.Some? ==> answers.value == Responses(reqs, notifier, outcomes)
    ensures answers.Some? ==> callbacks == Activations(reqs, notifier, outcomes)
  {
    hide Handle;
    var responses := [];
    callbacks := [];
    for i := 0 to |reqs|
      invariant |responses| == i
      invariant forall k :: 0 <= k < i ==> Handle(reqs[k], notifier, outcomes[k]).Answer?
      invariant forall k :: 0 <= k < i ==> responses[k] == Handle(reqs[k], notifier, outcomes[k]).response
      invariant callbacks == Activations(reqs[..i], notifier, outcomes[..i])
    {
      assert reqs[..i + 1][..i] == reqs[..i] && outcomes[..i + 1][..i] == outcomes[..i];
      match Handle(reqs[i], notifier, outcomes[i]) {
        case Panic =>
          return None, [];
        case Answer(response, activate) =>
          responses := responses + [response];
          if activate.Some? {
            callbacks := callbacks + [activate.value];
          }
      }
    }
    assert reqs[..|reqs|] == reqs && outcomes[..|reqs|] == outcomes;
    assert responses == Responses(reqs, notifier, outcomes);
    answers := Some(responses);
  }

  /**
   Execute a batch: a response for every request, in order, then one write, then the activations.
   Nothing is written when a callback panics; a panic in an activation comes after the write.
   */
  method ExecBatch(reqs: seq<ServerRequest>, notifier: bool, outcomes: seq<Outcome>)
    returns (written: Option<seq<Response>>, activated: seq<string>, crashed: bool)
    requires |outcomes| == |reqs|
    ensures written.Some? <==> forall i :: 0 <= i < |reqs| ==> Handle(reqs[i], notifier, outcomes[i]).Answer?
    ensures written.Some? ==> written.value == Responses(reqs, notifier, outcomes)
    ensures crashed <==> exists i :: 0 <= i < |reqs| && Panics(reqs[i], notifier, outcomes[i])
    ensures activated == if crashed then [] else Activations(reqs, notifier, outcomes)
  {
    hide Handle, Responses, Activations;
    var callbacks;
    written, callbacks := HandleBatch(reqs, notifier, outcomes);
    activated := [];
    if written == None {
      var i :| 0 <= i < |reqs| && !Handle(reqs[i], notifier, outcomes[i]).Answer?;
      assert Panics(reqs[i], notifier, outcomes[i]);
      return written, [], true;
    }
    ActivationsEmptyIff(reqs, notifier, outcomes);
    for i := 0 to |callbacks|
      invariant activated == callbacks[..i] && (i > 0 ==> notifier)
    {
      if !notifier {
        return written, [], true;
      }
      activated := activated + [callbacks[i]];
    }
    crashed := false;
  }

  lemma {:induction false} ActivationsEmptyIff(reqs: seq<ServerRequest>, notifier: bool, outcomes: seq<Outcome>)
    requires |outcomes| == |reqs|
    ensures Activations(reqs, notifier, outcomes) == [] <==>
      forall i :: 0 <= i < |reqs| ==>
        Handle(reqs[i], notifier, outcomes[i]).Answer? ==> Handle(reqs[i], notifier, outcomes[i]).activate == None
  {
    hide Handle;
    if reqs != [] {
      var n := |reqs| - 1;
      ActivationsEmptyIff(reqs[..n], notifier, outcomes[..n]);
      assert forall i :: 0 <= i < n ==> reqs[..n][i] == reqs[i] && outcomes[..n][i] == outcomes[i];
    }
  }

  // ----- one frame, from JSON to the write

  /** A frame as read from the connection: not JSON for requests, one request object, or an array of them. */
  datatype Incoming = Unreadable | One(request: JsonRequest) | Many(requests: seq<JsonRequest>)

  function Elements(f: Incoming): seq<JsonRequest> {
    match f
    case Unreadable => []
    case One(r) => [r]
    case Many(rs) => rs
  }

  /** The parsed requests of a frame, or None when the server answers with a single error without an id. */
  ghost function ParseFrame(f: Incoming): Option<seq<RpcRequest>> {
    match f
    case Unreadable => None
    case One(r) => (match ParseRequest(r) case Ok(req) => Some([req]) case Err(_) => None)
    case Many(rs) => ParseBatch(rs)
  }

  /** The resolved requests of a frame that parses. */
  ghost function ResolveFrame(services: map<string, Service>, decodes: Decoder, f: Incoming): (reqs: seq<ServerRequest>)
    requires ParseFrame(f).Some?
    ensures |reqs| == |ParseFrame(f).value|
  {
    var parsed := ParseFrame(f).value;
    seq(|parsed|, i requires 0 <= i < |parsed| => Resolve(services, decodes, parsed[i]))
  }

  /**
   Alignment of a frame: through parse, resolve and execute there are as many responses as requests,
   and response i carries the id of request i; a single request that parses yields exactly one.
   */
  lemma FrameAligned(services: map<string, Service>, decodes: Decoder, f: Incoming, notifier: bool,
                     outcomes: seq<Outcome>)
    requires ParseFrame(f).Some? && |outcomes| == |ParseFrame(f).value|
    requires forall i :: 0 <= i < |outcomes| ==>
      Handle(ResolveFrame(services, decodes, f)[i], notifier, outcomes[i]).Answer?
    ensures var responses := Responses(ResolveFrame(services, decodes, f), notifier, outcomes);
      && |responses| == |Elements(f)|
      && (f.One? ==> |responses| == 1)
      && forall i :: 0 <= i < |responses| ==> responses[i].id == Elements(f)[i].id
  {
    hide Handle, Resolve;
    var parsed, reqs := ParseFrame(f).value, ResolveFrame(services, decodes, f);
    assert |parsed| == |Elements(f)|;
    forall i | 0 <= i < |reqs|
      ensures reqs[i].id == Elements(f)[i].id
    {
      ResolveKeepsId(services, decodes, parsed[i]);
      ParsedFacts(Elements(f)[i]);
      hide ParseRequest;
    }
  }
}
