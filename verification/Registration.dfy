/**
 Which methods of a registered object become callbacks, and what is known about the
 callbacks that do. Reflected types are abstract values: only what the selection asks of a
 type is kept.
 */
module Registration {
  import opened GoRuntime

  /** What the selection and the server ask of a kind: has it a nil, and is it an interface (which has one too). */
  datatype TypeKind = PlainKind | NilableKind | InterfaceKind

  /**
   `NamedPtr` is a defined type whose underlying type is a pointer; it has no methods. `Other` is any
   further type; `isError` says that it implements error itself.
   */
  datatype Type =
    | Ptr(elem: Type)
    | NamedPtr(name: string, elem: Type)
    | ContextType
    | ErrorType
    | SubscriptionType
    | StringType
    | Other(name: string, pkg: string, kind: TypeKind, isError: bool)

  /** The kind of the type is pointer, whether or not it has a name. */
  predicate IsPointer(t: Type) {
    t.Ptr? || t.NamedPtr?
  }

  function Strip(t: Type): Type {
    if IsPointer(t) then Strip(t.elem) else t
  }

  function TypeName(t: Type): string {
    match t
    case Ptr(_) => ""
    case NamedPtr(name, _) => name
    case ContextType => "Context"
    case ErrorType => "error"
    case SubscriptionType => "Subscription"
    case StringType => "string"
    case Other(name, _, _, _) => name
  }

  function PkgPath(t: Type): string {
    match t
    case ContextType => "context"
    case SubscriptionType => "rpc"
    case Other(_, pkg, _, _) => pkg
    case _ => ""
  }

  predicate IsExported(name: string) {
    name != "" && 'A' <= name[0] <= 'Z'
  }

  predicate IsExportedOrBuiltin(t: Type) {
    IsExported(TypeName(Strip(t))) || PkgPath(Strip(t)) == ""
  }

  predicate IsContext(t: Type) {
    Strip(t) == ContextType
  }

  predicate IsSubscription(t: Type) {
    Strip(t) == SubscriptionType
  }

  predicate IsError(t: Type) {
    var u := Strip(t);
    u.ErrorType? || (u.Other? && u.isError)
  }

  /**
   Whether the last parameter takes any number of values; `fits` says that its slice type is assignable
   to its own element type, as for `...interface{}`.
   */
  datatype Variadic = Fixed | Spread(fits: bool)

  /** A method of the object; `params` leaves out the receiver and has the slice type of a variadic parameter. */
  datatype Method = Method(name: string, pkgPath: string, params: seq<Type>, outs: seq<Type>, variadic: Variadic)

  predicate IsVariadic(m: Method) {
    m.variadic.Spread? && m.params != []
  }

  datatype Callback = Callback(target: Method, argTypes: seq<Type>, hasCtx: bool, errPos: int, isSubscribe: bool)

  /** Lower-case the first letter. */
  function FormatName(name: string): string {
    if name != "" && 'A' <= name[0] <= 'Z' then [name[0] - 'A' + 'a'] + name[1..] else name
  }

  predicate IsPubSub(m: Method) {
    |m.params| >= 1 && |m.outs| == 2
    && IsContext(m.params[0]) && IsSubscription(m.outs[0]) && IsError(m.outs[1])
  }

  predicate TakesContext(m: Method) {
    |m.params| >= 1 && m.params[0] == ContextType
  }

  function ArgTypes(m: Method): seq<Type> {
    if TakesContext(m) then m.params[1..] else m.params
  }

  predicate AllExported(ts: seq<Type>) {
    forall i :: 0 <= i < |ts| ==> IsExportedOrBuiltin(ts[i])
  }

  /** Position of the first error type, or -1. */
  function FirstError(ts: seq<Type>): (p: int)
    ensures -1 <= p < |ts|
    ensures p >= 0 ==> IsError(ts[p])
    ensures forall i :: 0 <= i < (if p < 0 then |ts| else p) ==> !IsError(ts[i])
  {
    if ts == [] then -1
    else if IsError(ts[0]) then 0
    else
      var p := FirstError(ts[1..]);
      assert forall i :: 1 <= i < |ts| ==> ts[i] == ts[1..][i - 1];
      if p < 0 then -1 else p + 1
  }

  /** The callback a method gives, if it is suitable. */
  function Classify(m: Method): Option<Callback> {
    if m.pkgPath != "" || !AllExported(ArgTypes(m)) then None
    else if IsPubSub(m) then Some(Callback(m, ArgTypes(m), TakesContext(m), -1, true))
    else
      var errPos := FirstError(m.outs);
      if !AllExported(m.outs) || (errPos >= 0 && errPos != |m.outs| - 1)
         || |m.outs| > 2 || (|m.outs| == 2 && errPos == -1)
      then None
      else Some(Callback(m, ArgTypes(m), TakesContext(m), errPos, false))
  }

  /** The callbacks and subscriptions of a list of methods; a later method replaces an earlier one of the same name. */
  function Select(ms: seq<Method>): (map<string, Callback>, map<string, Callback>) {
    if ms == [] then (map[], map[])
    else
      var (callbacks, subscriptions) := Select(ms[..|ms| - 1]);
      match Classify(ms[|ms| - 1])
      case None => (callbacks, subscriptions)
      case Some(h) =>
        var name := FormatName(ms[|ms| - 1].name);
        if h.isSubscribe then (callbacks, subscriptions[name := h]) else (callbacks[name := h], subscriptions)
  }

  method CheckExported(ts: seq<Type>) returns (ok: bool)
    ensures ok == AllExported(ts)
  {
    for i := 0 to |ts|
      invariant forall k :: 0 <= k < i ==> IsExportedOrBuiltin(ts[k])
    {
      if !IsExportedOrBuiltin(ts[i]) {
        return false;
      }
    }
    return true;
  }

  method FindError(ts: seq<Type>) returns (errPos: int)
    ensures errPos == FirstError(ts)
  {
    for i := 0 to |ts|
      invariant forall k :: 0 <= k < i ==> !IsError(ts[k])
    {
      if IsError(ts[i]) {
        return i;
      }
    }
    return -1;
  }

  /** The body of the selection loop for one method, with its checks in the program's order. */
  method Examine(m: Method) returns (h: Option<Callback>)
    ensures h == Classify(m)
  {
    hide IsExportedOrBuiltin, IsError, AllExported;
    if m.pkgPath != "" {
      return None;
    }
    var isSubscribe, hasCtx := IsPubSub(m), TakesContext(m);
    var argTypes := ArgTypes(m);
    var exported := CheckExported(argTypes);
    if !exported {
      return None;
    }
    if isSubscribe {
      return Some(Callback(m, argTypes, hasCtx, -1, true));
    }
    exported := CheckExported(m.outs);
    if !exported {
      return None;
    }
    var errPos := FindError(m.outs);
    if errPos >= 0 && errPos != |m.outs| - 1 {
      return None;
    }
    if |m.outs| > 2 || (|m.outs| == 2 && errPos == -1) {
      return None;
    }
    return Some(Callback(m, argTypes, hasCtx, errPos, false));
  }

  method SuitableCallbacks(ms: seq<Method>)
    returns (callbacks: map<string, Callback>, subscriptions: map<string, Callback>)
    ensures (callbacks, subscriptions) == Select(ms)
  {
    callbacks, subscriptions := map[], map[];
    for i := 0 to |ms|
      invariant (callbacks, subscriptions) == Select(ms[..i])
    {
      assert ms[..i + 1][..i] == ms[..i];
      var h := Examine(ms[i]);
      if h.Some? {
        var name := FormatName(ms[i].name);
        if h.value.isSubscribe {
          subscriptions := subscriptions[name := h.value];
        } else {
          callbacks := callbacks[name := h.value];
        }
      }
    }
    assert ms[..|ms|] == ms;
  }

  // ----- what registration establishes

  /** A callback that came out of the selection. */
  predicate Registered(h: Callback) {
    Classify(h.target) == Some(h)
  }

  datatype Service = Service(name: string, callbacks: map<string, Callback>, subscriptions: map<string, Callback>)

  ghost predicate ServiceOk(svc: Service) {
    && (forall n :: n in svc.callbacks ==> Registered(svc.callbacks[n]) && !svc.callbacks[n].isSubscribe)
    && (forall n :: n in svc.subscriptions ==> Registered(svc.subscriptions[n]) && svc.subscriptions[n].isSubscribe)
  }

  ghost predicate RegistryOk(services: map<string, Service>) {
    forall n :: n in services ==> ServiceOk(services[n]) && services[n].name == n
  }

  /** A table of callbacks made from the methods of a list, each under its formatted name. */
  ghost predicate MadeFrom(table: map<string, Callback>, ms: seq<Method>, isSubscribe: bool) {
    forall n :: n in table ==>
      && Registered(table[n]) && table[n].isSubscribe == isSubscribe
      && table[n].target in ms && FormatName(table[n].target.name) == n
  }

  lemma MadeFromLonger(table: map<string, Callback>, ms: seq<Method>, m: Method, isSubscribe: bool)
    requires MadeFrom(table, ms, isSubscribe)
    ensures MadeFrom(table, ms + [m], isSubscribe)
    ensures Classify(m).Some? && Classify(m).value.isSubscribe == isSubscribe ==>
      MadeFrom(table[FormatName(m.name) := Classify(m).value], ms + [m], isSubscribe)
  {
    ClassifyKeepsTarget(m);
    hide Classify, FormatName;
    assert m in ms + [m];
  }

  /** Only suitable methods of the list are offered, each under its formatted name. */
  lemma {:induction false} SelectSound(ms: seq<Method>)
    ensures MadeFrom(Select(ms).0, ms, false)
    ensures MadeFrom(Select(ms).1, ms, true)
  {
    if ms != [] {
      var front, m := ms[..|ms| - 1], ms[|ms| - 1];
      SelectSound(front);
      assert ms == front + [m];
      MadeFromLonger(Select(front).0, front, m, false);
      MadeFromLonger(Select(front).1, front, m, true);
      hide Classify, FormatName, MadeFrom;
    }
  }

  /** Every suitable method of the list is offered under its formatted name, or a later one of that name is. */
  lemma {:induction false} SelectComplete(ms: seq<Method>, i: nat)
    requires i < |ms| && Classify(ms[i]).Some?
    ensures FormatName(ms[i].name) in (if Classify(ms[i]).value.isSubscribe then Select(ms).1 else Select(ms).0)
  {
    hide Classify, FormatName;
    if i < |ms| - 1 {
      assert ms[..|ms| - 1][i] == ms[i];
      SelectComplete(ms[..|ms| - 1], i);
    }
  }

  lemma ClassifyKeepsTarget(m: Method)
    ensures Classify(m).Some? ==> Classify(m).value.target == m
  {
  }

  /**
   What a registered callback looks like: an error result is the last one and the only one, there
   are at most two results, and two results end in an error; a subscription has exactly the pair.
   Hence every index the server uses on the results is in range.
   */
  lemma RegisteredShape(h: Callback)
    requires Registered(h)
    ensures |h.target.outs| <= 2 && -1 <= h.errPos < |h.target.outs|
    ensures h.argTypes == h.target.params[|h.target.params| - |h.argTypes|..]
    ensures |h.target.params| == |h.argTypes| + (if h.hasCtx then 1 else 0)
    ensures h.isSubscribe ==> |h.target.outs| == 2 && IsSubscription(h.target.outs[0]) && IsError(h.target.outs[1])
    ensures !h.isSubscribe ==>
      && (h.errPos >= 0 ==> h.errPos == |h.target.outs| - 1)
      && (|h.target.outs| == 2 ==> h.errPos == 1)
      && forall i :: 0 <= i < |h.target.outs| ==> (IsError(h.target.outs[i]) <==> i == h.errPos)
  {
    var m := h.target;
    assert m.params[0..] == m.params;
  }

  // ----- registering services

  function Merge(svc: Service, callbacks: map<string, Callback>, subscriptions: map<string, Callback>): Service {
    svc.(callbacks := svc.callbacks + callbacks, subscriptions := svc.subscriptions + subscriptions)
  }

  lemma MergeOk(svc: Service, ms: seq<Method>)
    requires ServiceOk(svc)
    ensures ServiceOk(Merge(svc, Select(ms).0, Select(ms).1))
  {
    SelectSound(ms);
    hide Select, Registered;
  }

  class Registry {
    var services: map<string, Service>

    constructor ()
      ensures RegistryOk(services) && services == map[]
    {
      services := map[];
    }

    /**
     Register the methods of an object under a name. A name already in use keeps its service, which
     gains the new methods; nothing changes when the registration is refused.
     */
    method RegisterName(name: string, typeName: string, ms: seq<Method>) returns (ok: bool)
      requires RegistryOk(services)
      modifies this
      ensures RegistryOk(services)
      ensures ok <==> name != "" && IsExported(typeName) && (Select(ms).0 != map[] || Select(ms).1 != map[])
      ensures !ok ==> services == old(services)
      ensures ok ==> name in services && services == old(services)[name := services[name]]
      ensures ok ==>
        var svc := if name in old(services) then old(services)[name] else Service(name, map[], map[]);
        services[name] == Merge(svc, Select(ms).0, Select(ms).1)
    {
      hide Select, ServiceOk;
      if name == "" || !IsExported(typeName) {
        return false;
      }
      var callbacks, subscriptions := SuitableCallbacks(ms);
      if callbacks == map[] && subscriptions == map[] {
        return false;
      }
      if name in services {
        MergeOk(services[name], ms);
        services := services[name := Merge(services[name], callbacks, subscriptions)];
      } else {
        assert callbacks == map[] + callbacks && subscriptions == map[] + subscriptions;
        EmptyServiceOk(name);
        MergeOk(Service(name, map[], map[]), ms);
        services := services[name := Service(name, callbacks, subscriptions)];
      }
      return true;
    }
  }

  lemma EmptyServiceOk(name: string)
    ensures ServiceOk(Service(name, map[], map[]))
  {
  }
}
