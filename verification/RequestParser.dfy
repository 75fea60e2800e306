/**
 Parsing of incoming requests: single and batch, and of positional arguments. JSON text is
 abstract; what encoding/json makes of it is given by datatypes and by the parameter
 `decodes`, which says whether a JSON value decodes into a type.
 */
module RequestParser {
  import opened GoRuntime
  import opened Registration

  datatype Json = JNull | JString(text: string) | JOther(raw: string)

  /** The params member: absent, null, some other value that is no array, or an array, possibly cut off. */
  datatype Payload = Absent | NullPayload | Scalar | Arr(items: seq<Json>, complete: bool)

  /** The id member as sent. */
  datatype RawId = NoId | NullId | NumberId(digits: string) | StringId(text: string) | OtherId(raw: string)

  /** An unmarshalled request object. */
  datatype JsonRequest = JsonRequest(name: string, id: RawId, payload: Payload)

  datatype Reason =
    | NonArray
    | TooMany
    | BadArgument(i: nat)
    | MissingArgument(i: nat)
    | CutOff
    | WrongCount
    | NoSubscriptionId

  datatype RpcError =
    | MethodNotFound(service: string, name: string)
    | InvalidRequest(message: string)
    | InvalidMessage(message: string)
    | InvalidParams(reason: Reason)
    | CallbackFailed(message: string)
    | ShuttingDown

  function ErrorCode(e: RpcError): int {
    match e
    case MethodNotFound(_, _) => -32601
    case InvalidRequest(_) => -32600
    case InvalidMessage(_) => -32700
    case InvalidParams(_) => -32602
    case CallbackFailed(_) => -32000
    case ShuttingDown => -32000
  }

  datatype Result<+T> = Ok(value: T) | Err(error: RpcError)

  /** A parsed request. A batch element that could not be resolved carries its error. */
  datatype RpcRequest = RpcRequest(
    service: string, name: string, id: RawId, isPubSub: bool, params: Option<Payload>, err: Option<RpcError>)

  // ----- batch or single

  predicate IsSpace(c: char) {
    c == ' ' || c == '\t' || c == '\n' || c == '\r'
  }

  /** A message is a batch exactly when its first character that is not insignificant whitespace is '['. */
  method IsBatch(msg: string) returns (batch: bool)
    ensures batch <==> exists k :: 0 <= k < |msg| && msg[k] == '[' && forall j :: 0 <= j < k ==> IsSpace(msg[j])
  {
    for i := 0 to |msg|
      invariant forall j :: 0 <= j < i ==> IsSpace(msg[j])
    {
      if !IsSpace(msg[i]) {
        return msg[i] == '[';
      }
    }
    return false;
  }

  // ----- names

  const SUBSCRIBE_SUFFIX: string := "_subscribe"
  const UNSUBSCRIBE_SUFFIX: string := "_unsubscribe"

  predicate HasSuffix(s: string, suffix: string) {
    |s| >= |suffix| && s[|s| - |suffix|..] == suffix
  }

  function TrimSuffix(s: string, suffix: string): string {
    if HasSuffix(s, suffix) then s[..|s| - |suffix|] else s
  }

  /** Pieces of a name between underscores. */
  function Split(s: string): (parts: seq<string>)
    ensures |parts| >= 1
  {
    if s == "" then [""]
    else
      var rest := Split(s[1..]);
      if s[0] == '_' then [""] + rest else [[s[0]] + rest[0]] + rest[1..]
  }

  function Join(parts: seq<string>): string {
    if parts == [] then "" else if |parts| == 1 then parts[0] else parts[0] + "_" + Join(parts[1..])
  }

  /** Splitting loses nothing, and no piece contains the separator. */
  lemma {:induction false} SplitExact(s: string)
    ensures Join(Split(s)) == s
    ensures forall i :: 0 <= i < |Split(s)| ==> '_' !in Split(s)[i]
  {
    if s != "" {
      SplitExact(s[1..]);
      var rest := Split(s[1..]);
      JoinSeparator(rest);
      JoinLetter(rest, s[0]);
      hide Join;
      assert [s[0]] + s[1..] == s;
    }
  }

  /** Joining after a separator was put before the first piece. */
  lemma JoinSeparator(rest: seq<string>)
    requires rest != []
    ensures Join([""] + rest) == "_" + Join(rest)
  {
    assert ([""] + rest)[1..] == rest;
  }

  /** Joining after a letter was put before the first piece. */
  lemma JoinLetter(rest: seq<string>, c: char)
    requires rest != []
    ensures Join([[c] + rest[0]] + rest[1..]) == [c] + Join(rest)
  {
    var first, others := rest[0], rest[1..];
    var parts := [[c] + first] + others;
    if others == [] {
      assert parts == [[c] + first];
    } else {
      assert parts[1..] == others;
      Associative([c], first, "_" + Join(others));
      Associative([c] + first, "_", Join(others));
      Associative(first, "_", Join(others));
    }
  }

  lemma Associative(a: string, b: string, c: string)
    ensures (a + b) + c == a + (b + c)
  {
  }

  /** A call is resolved to a service and a method exactly when its name has a single underscore. */
  lemma CallName(s: string)
    ensures |Split(s)| == 2 <==> exists a, b :: '_' !in a && '_' !in b && s == a + "_" + b
    ensures |Split(s)| == 2 ==> s == Split(s)[0] + "_" + Split(s)[1]
  {
    SplitExact(s);
    if |Split(s)| == 2 {
      var parts := Split(s);
      assert parts[1..] == [parts[1]];
      assert '_' !in parts[0] && '_' !in parts[1] && s == parts[0] + "_" + parts[1];
    }
    if exists a, b :: '_' !in a && '_' !in b && s == a + "_" + b {
      var a, b :| '_' !in a && '_' !in b && s == a + "_" + b;
      SplitPair(a, b);
    }
  }

  lemma {:induction false} SplitPair(a: string, b: string)
    requires '_' !in a && '_' !in b
    ensures Split(a + "_" + b) == [a, b]
  {
    var s := a + "_" + b;
    if a == "" {
      assert s[1..] == b;
      SplitPlain(b);
    } else {
      assert s[1..] == a[1..] + "_" + b;
      SplitPair(a[1..], b);
      assert [a[0]] + a[1..] == a;
    }
  }

  lemma {:induction false} SplitPlain(b: string)
    requires '_' !in b
    ensures Split(b) == [b]
  {
    if b != "" {
      SplitPlain(b[1..]);
      assert [b[0]] + b[1..] == b;
    }
  }

  // ----- request objects

  function CheckId(id: RawId): Option<RpcError> {
    match id
    case NoId => Some(InvalidMessage("missing request id"))
    case OtherId(_) => Some(InvalidMessage("invalid request id"))
    case _ => None
  }

  /** The params decoded as an array of one string: a missing or null element gives "", further ones are ignored. */
  function FirstString(p: Payload): Option<string> {
    match p
    case NullPayload => Some("")
    case Arr(items, complete) =>
      if !complete then None
      else if items == [] then Some("")
      else (match items[0]
            case JNull => Some("")
            case JString(text) => Some(text)
            case JOther(_) => None)
    case _ => None
  }

  function Params(p: Payload): Option<Payload> {
    if p == Absent then None else Some(p)
  }

  /** The single parser. */
  function ParseRequest(r: JsonRequest): Result<RpcRequest> {
    if CheckId(r.id).Some? then Err(CheckId(r.id).value)
    else if HasSuffix(r.name, SUBSCRIBE_SUFFIX) then
      if r.payload == Absent || FirstString(r.payload) == None then
        Err(InvalidRequest("Unable to parse subscription request"))
      else
        var service := TrimSuffix(r.name, SUBSCRIBE_SUFFIX);
        Ok(RpcRequest(service, FirstString(r.payload).value, r.id, true, Some(r.payload), None))
    else if HasSuffix(r.name, UNSUBSCRIBE_SUFFIX) then
      Ok(RpcRequest("", r.name, r.id, true, Some(r.payload), None))
    else
      var parts := Split(r.name);
      if |parts| != 2 then Err(MethodNotFound(r.name, ""))
      else Ok(RpcRequest(parts[0], parts[1], r.id, false, Params(r.payload), None))
  }

  /** What a single request becomes as a batch element, when it does not spoil the batch. */
  function Element(r: JsonRequest): Option<RpcRequest> {
    match ParseRequest(r)
    case Ok(req) => Some(req)
    case Err(MethodNotFound(service, name)) =>
      Some(RpcRequest("", "", r.id, false, Params(r.payload), Some(MethodNotFound(service, name))))
    case Err(_) => None
  }

  /** All elements of a batch, or None when one of them spoils it. */
  ghost function ParseBatch(batch: seq<JsonRequest>): Option<seq<RpcRequest>> {
    if forall i :: 0 <= i < |batch| ==> Element(batch[i]).Some?
    then Some(seq(|batch|, i requires 0 <= i < |batch| => Element(batch[i]).value))
    else None
  }

  /** The batch loop for one element: unlike the single parser it keeps unknown methods. */
  method ParseElement(one: JsonRequest) returns (r: Result<RpcRequest>)
    ensures r.Ok? <==> Element(one).Some?
    ensures r.Ok? ==> r.value == Element(one).value
    ensures r.Err? ==> ParseRequest(one).Err? && ErrorCode(r.error) == ErrorCode(ParseRequest(one).error)
  {
    if CheckId(one.id).Some? {
      return Err(CheckId(one.id).value);
    }
    if HasSuffix(one.name, SUBSCRIBE_SUFFIX) {
      if one.payload == Absent {
        return Err(InvalidRequest("Unable to parse (un)subscribe request arguments"));
      }
      if FirstString(one.payload) == None {
        return Err(InvalidRequest("Unable to parse subscription request"));
      }
      var service := TrimSuffix(one.name, SUBSCRIBE_SUFFIX);
      return Ok(RpcRequest(service, FirstString(one.payload).value, one.id, true, Some(one.payload), None));
    }
    if HasSuffix(one.name, UNSUBSCRIBE_SUFFIX) {
      return Ok(RpcRequest("", one.name, one.id, true, Some(one.payload), None));
    }
    var req := RpcRequest("", "", one.id, false, Params(one.payload), None);
    var parts := Split(one.name);
    if |parts| == 2 {
      return Ok(req.(service := parts[0], name := parts[1]));
    }
    return Ok(req.(err := Some(MethodNotFound(one.name, ""))));
  }

  /**
   The batch parser. It succeeds exactly when each element alone parses or fails only with
   method-not-found, and then element i is the single parse of element i, or carries that error at
   index i. Otherwise it fails for the first offending element, with the code the single parser gives it.
   */
  method ParseBatchRequest(batch: seq<JsonRequest>) returns (r: Result<seq<RpcRequest>>)
    ensures r.Ok? <==> forall i :: 0 <= i < |batch| ==> Element(batch[i]).Some?
    ensures r.Ok? ==> |r.value| == |batch| && forall i :: 0 <= i < |batch| ==> r.value[i] == Element(batch[i]).value
    ensures ParseBatch(batch) == if r.Ok? then Some(r.value) else None
    ensures r.Err? ==> exists k ::
      0 <= k < |batch| && FirstBad(batch, k) && ErrorCode(r.error) == ErrorCode(ParseRequest(batch[k]).error)
  {
    hide Element, ParseRequest, ErrorCode;
    var requests: seq<RpcRequest> := [];
    for i := 0 to |batch|
      invariant |requests| == i
      invariant forall k :: 0 <= k < i ==> Element(batch[k]) == Some(requests[k])
    {
      var req := ParseElement(batch[i]);
      if req.Err? {
        assert FirstBad(batch, i);
        return Err(req.error);
      }
      requests := requests + [req.value];
    }
    assert requests == ParseBatch(batch).value;
    return Ok(requests);
  }

  ghost predicate FirstBad(batch: seq<JsonRequest>, k: nat) {
    k < |batch| && Element(batch[k]) == None && ParseRequest(batch[k]).Err?
    && forall j :: 0 <= j < k ==> Element(batch[j]).Some?
  }

  /** Facts about parsed requests that later stages rely on: the id is kept, and a subscribe request has params. */
  lemma ParsedFacts(r: JsonRequest)
    ensures Element(r).Some? ==> Element(r).value.id == r.id && CheckId(r.id) == None
    ensures Element(r).Some? && Element(r).value.isPubSub && !HasSuffix(Element(r).value.name, UNSUBSCRIBE_SUFFIX) ==>
      HasSuffix(r.name, SUBSCRIBE_SUFFIX) && Element(r).value.params.Some? && Element(r).value.params.value != Absent
  {
  }

  /**
   What the single parser accepts, and what it makes of it: a subscribe request names its service before
   the suffix and its subscription in the first parameter; an unsubscribe request keeps its name; any
   other name must be a service and a method joined by the only underscore.
   */
  lemma ParseExact(r: JsonRequest)
    ensures ParseRequest(r).Ok? <==>
      && !r.id.NoId? && !r.id.OtherId?
      && (HasSuffix(r.name, SUBSCRIBE_SUFFIX) ==> r.payload != Absent && FirstString(r.payload).Some?)
      && (!HasSuffix(r.name, SUBSCRIBE_SUFFIX) && !HasSuffix(r.name, UNSUBSCRIBE_SUFFIX) ==> |Split(r.name)| == 2)
    ensures ParseRequest(r).Ok? ==> ParseRequest(r).value.id == r.id && ParseRequest(r).value.err == None
    ensures ParseRequest(r).Ok? && HasSuffix(r.name, SUBSCRIBE_SUFFIX) ==>
      var q := ParseRequest(r).value;
      && q.isPubSub && r.name == q.service + SUBSCRIBE_SUFFIX
      && FirstString(r.payload) == Some(q.name) && q.params == Some(r.payload)
    ensures ParseRequest(r).Ok? && HasSuffix(r.name, UNSUBSCRIBE_SUFFIX) ==>
      var q := ParseRequest(r).value;
      q.isPubSub && q.name == r.name && q.params == Some(r.payload)
    ensures ParseRequest(r).Ok? && !HasSuffix(r.name, SUBSCRIBE_SUFFIX) && !HasSuffix(r.name, UNSUBSCRIBE_SUFFIX) ==>
      var q := ParseRequest(r).value;
      && !q.isPubSub && r.name == q.service + "_" + q.name && '_' !in q.service && '_' !in q.name
      && (q.params == None <==> r.payload == Absent)
  {
    SplitExact(r.name);
    CallName(r.name);
    hide Split, Join, FirstString;
    if HasSuffix(r.name, UNSUBSCRIBE_SUFFIX) {
      SuffixesApart(r.name);
    }
  }

  /** No name ends both ways. */
  lemma SuffixesApart(s: string)
    requires HasSuffix(s, UNSUBSCRIBE_SUFFIX)
    ensures !HasSuffix(s, SUBSCRIBE_SUFFIX)
  {
    var u := s[|s| - |UNSUBSCRIBE_SUFFIX|..];
    assert s[|s| - |SUBSCRIBE_SUFFIX|] == u[2] == 'n';
  }

  // ----- positional arguments

  /** An argument value: decoded from JSON into a type, or the zero of a pointer type for a missing optional one. */
  datatype Value = Decoded(t: Type, json: Json) | ZeroOf(t: Type)

  /** Does a JSON value decode into a type? */
  type Decoder = (Json, Type) -> bool

  /** The arguments fit: an array, not too long, each element decodes, and what is missing is optional. */
  ghost predicate ArgsFit(p: Payload, types: seq<Type>, decodes: Decoder) {
    && p.Arr? && p.complete && |p.items| <= |types|
    && (forall i :: 0 <= i < |p.items| ==> decodes(p.items[i], types[i]))
    && (forall i :: |p.items| <= i < |types| ==> IsPointer(types[i]))
  }

  function ArgValue(p: Payload, types: seq<Type>, i: nat): Value
    requires p.Arr? && i < |types|
  {
    if i < |p.items| then Decoded(types[i], p.items[i]) else ZeroOf(types[i])
  }

  /** Why arguments do not fit: the first obstacle met when reading from the left. */
  ghost predicate Obstacle(p: Payload, types: seq<Type>, decodes: Decoder, why: Reason) {
    match why
    case NonArray => !p.Arr?
    case BadArgument(i) =>
      && p.Arr? && i < |p.items| && i < |types| && !decodes(p.items[i], types[i])
      && forall k :: 0 <= k < i ==> decodes(p.items[k], types[k])
    case TooMany =>
      p.Arr? && |p.items| > |types| && forall k :: 0 <= k < |types| ==> decodes(p.items[k], types[k])
    case CutOff =>
      p.Arr? && !p.complete && |p.items| <= |types| && forall k :: 0 <= k < |p.items| ==> decodes(p.items[k], types[k])
    case MissingArgument(i) =>
      && p.Arr? && p.complete && |p.items| <= i < |types| && !IsPointer(types[i])
      && (forall k :: |p.items| <= k < i ==> IsPointer(types[k]))
      && forall k :: 0 <= k < |p.items| ==> decodes(p.items[k], types[k])
    case _ => false
  }

  /** The first item from k on that is one too many or does not decode, or the number of items. */
  function FirstStop(items: seq<Json>, types: seq<Type>, decodes: Decoder, k: nat): (n: nat)
    requires k <= |items| && k <= |types|
    ensures k <= n <= |items| && n <= |types|
    ensures forall i :: k <= i < n ==> decodes(items[i], types[i])
    ensures n < |items| && n < |types| ==> !decodes(items[n], types[n])
    decreases |items| - k
  {
    if k == |items| || k == |types| || !decodes(items[k], types[k]) then k else FirstStop(items, types, decodes, k + 1)
  }

  /** The first required type from k on, or the number of types. */
  function FirstRequired(types: seq<Type>, k: nat): (n: nat)
    requires k <= |types|
    ensures k <= n <= |types|
    ensures forall i :: k <= i < n ==> IsPointer(types[i])
    ensures n < |types| ==> !IsPointer(types[n])
    decreases |types| - k
  {
    if k == |types| || !IsPointer(types[k]) then k else FirstRequired(types, k + 1)
  }

  /** Positional arguments: exactly one value per type, or the first obstacle. */
  function ParseArgs(p: Payload, types: seq<Type>, decodes: Decoder): (r: Result<seq<Value>>)
    ensures r.Ok? <==> ArgsFit(p, types, decodes)
    ensures r.Ok? ==> |r.value| == |types| && forall i :: 0 <= i < |types| ==> r.value[i] == ArgValue(p, types, i)
    ensures r.Err? ==> r.error.InvalidParams? && Obstacle(p, types, decodes, r.error.reason)
  {
    if !p.Arr? then Err(InvalidParams(NonArray))
    else
      var stop := FirstStop(p.items, types, decodes, 0);
      if stop < |p.items| then
        if stop >= |types| then Err(InvalidParams(TooMany)) else Err(InvalidParams(BadArgument(stop)))
      else if !p.complete then Err(InvalidParams(CutOff))
      else
        var missing := FirstRequired(types, |p.items|);
        if missing < |types| then Err(InvalidParams(MissingArgument(missing)))
        else Ok(seq(|types|, i requires 0 <= i < |types| => ArgValue(p, types, i)))
  }

  /** The obstacle is unique, so the outcome of argument parsing is determined by its contract. */
  lemma ObstacleUnique(p: Payload, types: seq<Type>, decodes: Decoder, a: Reason, b: Reason)
    requires Obstacle(p, types, decodes, a) && Obstacle(p, types, decodes, b)
    ensures a == b && !ArgsFit(p, types, decodes)
  {
  }

  /** The loops of the program compute the same. */
  method ParsePositionalArguments(p: Payload, types: seq<Type>, decodes: Decoder) returns (r: Result<seq<Value>>)
    ensures r == ParseArgs(p, types, decodes)
  {
    ghost var spec := ParseArgs(p, types, decodes);
    if !p.Arr? {
      return Err(InvalidParams(NonArray));
    }
    var args: seq<Value> := [];
    var i := 0;
    while i < |p.items|
      invariant i <= |p.items| && i <= |types| && |args| == i
      invariant forall k :: 0 <= k < i ==> decodes(p.items[k], types[k]) && args[k] == ArgValue(p, types, k)
    {
      if i >= |types| {
        assert Obstacle(p, types, decodes, TooMany);
        ObstacleUnique(p, types, decodes, TooMany, spec.error.reason);
        return Err(InvalidParams(TooMany));
      }
      if !decodes(p.items[i], types[i]) {
        assert Obstacle(p, types, decodes, BadArgument(i));
        ObstacleUnique(p, types, decodes, BadArgument(i), spec.error.reason);
        return Err(InvalidParams(BadArgument(i)));
      }
      args := args + [Decoded(types[i], p.items[i])];
      i := i + 1;
    }
    if !p.complete {
      ObstacleUnique(p, types, decodes, CutOff, spec.error.reason);
      return Err(InvalidParams(CutOff));
    }
    while i < |types|
      invariant |p.items| <= i <= |types| && |args| == i
      invariant forall k :: 0 <= k < i ==> args[k] == ArgValue(p, types, k)
      invariant forall k :: |p.items| <= k < i ==> IsPointer(types[k])
      invariant forall k :: 0 <= k < |p.items| ==> decodes(p.items[k], types[k])
    {
      if !IsPointer(types[i]) {
        ObstacleUnique(p, types, decodes, MissingArgument(i), spec.error.reason);
        return Err(InvalidParams(MissingArgument(i)));
      }
      args := args + [ZeroOf(types[i])];
      i := i + 1;
    }
    assert args == spec.value;
    return Ok(args);
  }
}
