# JSON-RPC client and server: a verified model

A Dafny model of the JSON-RPC 2.0 package of the repository (`rpc/`): a client with one dispatch
loop, a server with publish/subscribe, and the request pipeline between them. The rest of the
repository consists of scripts that send transactions through this package.

The model has three connected pieces.

**The client** (`rpc/client.go`). `ClientModel` holds the data and says, as functions, what the
dispatch loop does to its tables. `ClientDispatch` holds the loop's handlers in the program's own
form, a class whose fields are updated in loops, proved equal to those functions. `ClientProtocol`
uses the same functions as steps of a transition system in which any number of callers, the loop,
read goroutines, reconnection and close interleave; `ClientInvariant` proves its inductive
invariant and `ClientGuarantees` says what it means for every run. `ClientHistory` says how a step may
change an operation that exists, and `ClientSubscriptions` which subscriptions are told to quit when
the client ends. Channels carry a `fault` flag
that is set by any operation Go would answer with a panic or by blocking the sender, so "no fault"
speaks about the whole past of a run. `ClientDelivery` and `SubscriptionShutdown` do the same for
the bounded queue of a subscription and for the two `sync.Once` values that end it.

**The server** (`rpc/server.go`, `rpc/subscription.go`). `Notifications` has the notifier of a
connection. `ServerConnection` runs the request pipeline on the frames of one connection, with
goroutines, activations and notifications interleaving; it has the order of writes and the life of a
subscription id. `ServerStop` has the race between `Stop` and new connections, with flag tests, lock
operations and set operations as separate steps.

**The request pipeline** (`rpc/json.go`, `rpc/server.go`, `rpc/utils.go`). `Registration` selects
callbacks, `RequestParser` parses frames and positional arguments, `RequestPipeline` resolves,
invokes and answers, with every place marked at which the server itself would panic. JSON text and
reflection are abstract: types are a datatype that keeps what the selection asks of them, and
whether a JSON value decodes into a type is a parameter. `SubscriptionIds` generates subscription ids.

Client and server are joined in three ways. In `Composition` the server answers frames through the pipeline,
in any order, and the client correlates the answers. In `SubscriptionStream` one connection of the
server writes to an ordered wire, and the client's loop and forwarders read from it: a subscription
from `Notify` to the subscriber's channel. In `Conversation`, `ConversationClient` and
`ConversationGuarantees` the whole client, with reconnection, meets a server connection behind each of
its connections, again in the order of the wire, and the loop itself matches responses to operations.

Two hypotheses are stated where they are used. `NoWrap`: one client has drawn at most 2^32 request
ids; the counter is a `uint32`, and `IdTextCollision` says exactly which ids coincide beyond that.
`FreshIds`: a created subscription id was not used before on the connection; ids are random. The
wire-order results do not need it. `DeliveredWhenFresh` takes it in the form `Orderly`, together with: a
callback returns a subscription of its own, created and not returned before. `NoNotificationUnknown`
assumes that a response that announces a subscription is matched to a subscribe operation of this
client; `UnknownOnlyIfExcused` says, without that assumption, which operations it can fail for.

The standard behind the formats is the JSON-RPC 2.0 Specification: section 4 for requests, section 5
for responses and their echoed id, section 6 for batches. `IsBatch` follows the insignificant
whitespace of section 2 of RFC 4627.

## Results that differ from what one would expect

- A registered method is not always safe to call. `PanicsExactlyWhen` gives the exact condition for
  every reply, and `HandledIffUsable` the condition on the method and the connection. Registration
  accepts a subscription method whose first argument is a pointer to `context.Context`
  (rpc/utils.go:58-63, 93), but does not count it as the context (rpc/utils.go:131), so the call has one
  argument too many (rpc/server.go:244-246; `PointerContextPanics`). It accepts results of type
  `Subscription`, which rpc/doc.go shows as the example, while the server asserts `*Subscription`
  (rpc/server.go:252). It accepts error results that have no nil, or are pointers to an interface such
  as `*Error`, or named pointer types, which have no methods (rpc/utils.go:68-73, rpc/server.go:314-316;
  `PointerToInterfacePanics`, `NamedPointerPanics`).
- A variadic method is registered with the slice type of its last parameter (rpc/utils.go:151-160), the
  slice parses from a JSON array, and the call then takes it for one element (rpc/server.go:310, 246):
  unless the slice fits its own element type, as for `...interface{}`, every request whose arguments
  parse panics (`VariadicPanics`).
- Even a subscription method with the right signature makes the server panic exactly when it returns
  neither a subscription nor an error (rpc/server.go:252), or returns a subscription on a connection
  without a notifier, whose activation locks a mutex of a nil pointer after the response is written
  (rpc/server.go:284-287, 339-341): `SubscriptionPanics`.
- A subscription whose id the server hands out again while it is registered loses its place in the
  client's table and is then never told to quit when the client closes (rpc/client.go:623-626, 669).
  `SubscriptionsEnded` states this as an equivalence over runs, `DistinctIdsEnd` that different ids are
  enough, and `ReusedIdIsForgotten` gives a run in which it happens.
- The documentation of `Subscribe` speaks of 8000 buffered notifications (rpc/client.go:411); the
  code buffers 20000 (rpc/client.go:64). The model follows the code.
- The comment on rejecting missing values (rpc/json.go:302) tests a pointer that is never nil, so
  `null` is not refused for required arguments; the model has no such branch.

## Model

| member | source | states |
|---|---|---|
| RequestIds.IdTextCollision | rpc/client.go:249-252 | two messages of one client carry the same id exactly when the numbers of their draws differ by a multiple of 2^32 |
| RequestIds.IdTextUnique | rpc/client.go:249-252 | the first 2^32 ids are pairwise different |
| RequestIds.IdTextRepeats | rpc/client.go:249-252 | the next id repeats the first |
| ClientInvariant.StepKeepsInv | rpc/client.go:459-702 | every step of callers, loop, readers, reconnection and close keeps the invariant of the whole client, and never follows a missing reference |
| ClientInvariant.RoomForReply | rpc/client.go:131-136 | while an id of an operation is unanswered, fewer replies than ids were matched to it |
| ClientInvariant.ReplyFindsElement | rpc/client.go:370-379 | the reply a batch caller just received matches an element into which no earlier reply was put |
| ClientInvariant.FailedSend | rpc/client.go:593-604 | forgetting the ids of a failed send removes entries of that operation only and leaves every other operation in order |
| ClientInvariant.GiveLockBack | rpc/client.go:465-467 | a sender that reports its write finds the slot of sendDone empty, whatever the loop does |
| ClientGuarantees.RunKeepsInv | rpc/client.go:515-607 | every state of every run satisfies the invariant |
| ClientGuarantees.EnabledIsDefined | rpc/client.go:593-604 | lastOp is set whenever a send result is received, and no table entry dangles |
| ClientGuarantees.ChannelSafety | rpc/client.go:610-671 | the reply channel is never sent to when full or closed and never closed twice; replies plus pending ids never exceed the ids; closed implies none pending |
| ClientGuarantees.RespondNeverBlocks | rpc/client.go:647-671 | the loop never blocks forwarding a reply: a matched operation is open and has room |
| ClientGuarantees.NotStranded | rpc/client.go:585-627 | an accepted operation without pending ids was answered in full, closed with an error, or its caller was told that the send failed |
| ClientGuarantees.WaiterCanWake | rpc/client.go:138-145 | a caller blocked in wait has something to receive or an id in the table; after the loop has quit it always has something to receive |
| ClientGuarantees.NothingPendingAfterQuit | rpc/client.go:524-538 | when the loop ends nothing is pending and every accepted operation is settled |
| ClientGuarantees.WriteLock | rpc/client.go:459-510 | at most one goroutine is between acceptance and its report, it is the one the loop remembers, and the one-slot buffer never blocks it, also after quit |
| ClientGuarantees.OneReader | rpc/client.go:515-582 | the live readers are one, on the current connection, while reading, and none otherwise or after quit |
| ClientGuarantees.ConnectionsClosed | rpc/client.go:524-582 | every connection the loop took over is closed once it has quit |
| ClientGuarantees.NoNilDereference | rpc/client.go:138-145 | a closed call always carries an error, so no caller uses a reply or element that is not there |
| ClientGuarantees.EachElementAnswered | rpc/client.go:341-391 | a call or batch whose wait loop completes has every element set (an error reply counts as an answer), by different replies, each with the id of its element, and received as many replies as elements |
| ClientHistory.StepGrows | rpc/client.go:459-671 | a step only adds requests and replies, a started subscription stays started, and it loses its place exactly by a step that starts another one under its id |
| ClientSubscriptions.RegisteredUnderOwnId | rpc/client.go:667-670 | a subscription is in the table under the id its own reply carried, and under no other |
| ClientSubscriptions.SubscriptionsEnded | rpc/client.go:610-627 | when the loop ends, a started subscription was told to quit exactly if no subscription was started under the same id while it was registered |
| ClientSubscriptions.DistinctIdsEnd | rpc/client.go:623-626 | a started subscription whose id no other started one has is told to quit when the loop ends |
| ClientSubscriptions.ReusedIdIsForgotten | rpc/client.go:667-670 | a reachable state after quit with a started subscription that was never told to quit |
| ClientDispatch.Client.AcceptOp | rpc/client.go:585-591 | the loop over the ids registers exactly the ids of the accepted operation and takes the lock |
| ClientDispatch.Client.SendFinished | rpc/client.go:593-604 | the loop over the ids forgets them exactly when the send failed, and the lock is free again |
| ClientDispatch.Client.HandleResponse | rpc/client.go:647-671 | the in-place handler does what the transition system says: forward, or close with an error, or close and register the subscription |
| ClientDispatch.Client.HandleMessages | rpc/client.go:546-565 | a batch of messages is handled one by one in order; only responses touch the tables |
| ClientDispatch.ChangeEach | rpc/client.go:611-626 | walking a table in any order while deleting from it changes each operation it leads to exactly once |
| ClientDispatch.Client.CloseRequestOps | rpc/client.go:610-627 | every pending operation is closed once with the error, every subscription ended, both tables emptied |
| ClientDispatch.Client.ReadFailed | rpc/client.go:567-571 | a read error closes everything and the connection in use, and ends reading |
| ClientDispatch.MatchElement | rpc/client.go:373-379 | the search finds the first element with the id, or none |
| Composition.SystemRun | rpc/client.go:515-702 | in every run of client and server the client part is a run of the client, and every response on its way is the server's answer to the issued request it was built for |
| Composition.RepliesGenuine | rpc/server.go:347-370 | message i the server writes for a frame of this client is what the pipeline answers to request i, under its id |
| Composition.ReplyAnswersItsRequest | rpc/client.go:647-657 | for every interleaving and order of answers, a reply handed to a call was built by the server for a request of that same call, echoes its id, and says what parse, resolve and handle make of that request, or refuses it |
| Composition.EachElementHoldsItsAnswer | rpc/client.go:363-391 | when the wait loop of a call or batch completes, element i holds the server's answer to request i, id and content |
| ClientDelivery.Forward | rpc/client.go:784-821 | the forwarding loop computes the state the select cases lead to; what was sent followed by the queue is what arrived, decoded, in order; it ends exactly at a quit, at a payload that does not decode, or at one that decodes and finds 20000 values queued |
| ClientDelivery.AfterOk | rpc/client.go:784-821 | for every sequence of select cases, the queue is what arrived and was not yet sent, decoded, in order |
| ClientDelivery.ForwarderSteps | rpc/client.go:804-819 | each case of the select keeps that relation |
| ClientDelivery.StepOk | rpc/client.go:629-645 | every step of dispatch, forwarders and closing keeps the relation between handled notifications and each subscription |
| ClientDelivery.DeliveredInOrder | rpc/client.go:629-645 | while a subscription is registered, its quit channel open and its forwarder running, the payloads handled for its id since its registration, decoded, are what the subscriber got, then the queue, except one just being handed over: no loss, repetition or reordering (the forwarder drops its queue before it closes quit, rpc/client.go:780-791) |
| ClientDelivery.OnlyASubsequence | rpc/client.go:771-821 | in every state of every run, also after quit, close or displacement, the subscriber has seen only a subsequence of the notifications dispatched for its id since its registration, decoded |
| SubscriptionShutdown.StepKeepsInv | rpc/client.go:748-782 | every step of the racing callers keeps the invariant of the two once values and channels |
| SubscriptionShutdown.ShutdownSafe | rpc/client.go:748-769 | quit is closed at most once; err gets at most one value without blocking, is closed at most once and never sent to afterwards; both are closed when Unsubscribe returns |
| SubscriptionShutdown.FirstCallerDecides | rpc/client.go:753-769 | the first caller alone decides what err receives, and a client closed on purpose reports nil |
| Notifications.NotifierObject.CreateSubscription | rpc/subscription.go:80-86 | a new subscription is inactive |
| Notifications.NotifierObject.ActivateSubscription | rpc/subscription.go:127-135 | an inactive id becomes active with its namespace; any other id changes nothing |
| Notifications.NotifierObject.NotifySubscriber | rpc/subscription.go:90-103 | a notification is written exactly for an active id |
| Notifications.NotifierObject.RemoveSubscription | rpc/subscription.go:112-121 | an active id is removed and its channel closed; any other id is reported as not found |
| ServerConnection.ActivationAnnounced | rpc/server.go:278-291 | when handling an element of a frame leaves a subscription to activate, the element is a subscribe request in its namespace and the response carries its id under the id of the request |
| ServerConnection.StepKeepsWireOk | rpc/server.go:278-291 | every step of reading, handling, writing, activating and notifying keeps: active ids and owed activations are announced on the wire, and the wire is ordered |
| ServerConnection.ResponseBeforeNotifications | rpc/server.go:325-370 | in every run each attempted notification write comes after the attempted write of a pipeline response that answers a subscribe request in its namespace with its id |
| ServerConnection.StepKeepsLife | rpc/subscription.go:80-135 | with a fresh id, every step keeps active, inactive and removed ids apart and moves an id forward by at most one stage |
| ServerConnection.Lifecycle | rpc/subscription.go:80-135 | an id only moves from created to active to removed, and its channel is closed exactly once it is removed |
| ServerConnection.NotificationWritten | rpc/subscription.go:90-103 | every notification on the wire was written by notifying an id that was active then, with its namespace |
| ServerConnection.NotificationsOnlyWhileLive | rpc/subscription.go:90-103 | every notification on the wire was written while its id was live: never before activation nor after removal |
| ServerConnection.UnsubscribeTellsTruth | rpc/server.go:261-276 | an unsubscribe request that names a subscription is answered true exactly when it was active, and then it is removed and nothing else |
| ServerConnection.SilentAfterUnsubscribe | rpc/subscription.go:112-121 | once an unsubscribe request was answered true, no notification for that id is ever written again |
| ServerConnection.AnnouncementReturned | rpc/server.go:278-291 | a successful response to a subscribe request leaves its result to be activated: the callback returned it |
| ServerConnection.AnnouncedOnce | rpc/subscription.go:80-86 | with fresh ids and callbacks that return their own subscriptions, at most one write on a connection carries an id |
| SubscriptionStream.StepKeepsOk | rpc/client.go:546-565 | every step of server, loop and forwarders keeps: the loop has handled the notifications of a prefix of the wire, in order, and knows where each subscription was started |
| SubscriptionStream.NoNotificationUnknown | rpc/client.go:629-671 | when the loop handles a notification it has already handled a response that carries its id, and if announced subscriptions are this client's, it hands it to the subscription under that id |
| SubscriptionStream.DeliveredFromTheFirst | rpc/subscription.go:88-103 | while a subscription flows and its response was the first to carry its id, all the server wrote for the id and the client has read, decoded, is what the subscriber got, then the queue: not even the first notification is lost |
| SubscriptionStream.DeliveredWhenFresh | rpc/subscription.go:76-103 | the same from the hypotheses on ids alone: created ids are fresh and a callback returns a subscription of its own |
| SubscriptionStream.OnlyWhatWasNotified | rpc/client.go:771-821 | in every state the subscriber has seen only a subsequence of what the server wrote for its id, decoded |
| Conversation.ServerKeepsLink | rpc/server.go:160-208 | every step of a server connection keeps: each write of responses answers a frame of this client, position by position, and no frame is answered twice |
| ConversationClient.WrittenStep | rpc/client.go:459-494 | every step of the client keeps: each request on the wire was sent by an accepted operation past its write, and no request is in two frames |
| ConversationClient.PassageMoves | rpc/client.go:546-582 | every step keeps the messages between a connection and the handlers, less the one handled; a new connection starts with none |
| ConversationGuarantees.OneResponse | rpc/server.go:160-208 | on all connections together there is at most one response to a request |
| ConversationGuarantees.ClientKeepsInv | rpc/client.go:515-702 | every step of callers, loop, readers and reconnection keeps: messages are handled in the order of the wire, and what a handled response announced is registered or its operation is excused |
| ConversationGuarantees.SystemRun | rpc/client.go:515-702 | in every run of the whole client with its server connections that invariant holds |
| ConversationGuarantees.UnknownOnlyIfExcused | rpc/client.go:629-671 | when the loop handles a notification, an earlier message of the same connection answered a subscribe request of this client with its id; the id is registered unless the operation of that request was no Subscribe, its send was reported as failed, or it was closed with an error |
| ServerStop.StepKeepsInv | rpc/server.go:136-157 | every step of serving and stopping goroutines keeps the invariant of flag, mutex and codec set |
| ServerStop.StopIsFinal | rpc/server.go:229-239 | once the Stop that won has released the lock, every codec of the set is closed, then and later, and none is ever added again |
| ServerStop.OneStopWins | rpc/server.go:229-231 | only one Stop ever closes codecs |
| Registration.FindError | rpc/utils.go:169-176 | the position found is that of the first error result |
| Registration.Examine | rpc/utils.go:115-188 | the checks in the program's order classify a method as the declarative rule does |
| Registration.SuitableCallbacks | rpc/utils.go:110-192 | the loop over the methods builds exactly the two selected tables |
| Registration.SelectSound | rpc/utils.go:110-192 | only suitable methods are offered, each under its formatted name and in the right table |
| Registration.SelectComplete | rpc/utils.go:110-192 | every suitable method is offered under its formatted name |
| Registration.RegisteredShape | rpc/utils.go:87-192 | a registered callback has at most two results, an error result is the last and only one, two results end in an error, and its argument types are its parameters without the context |
| Registration.Registry.RegisterName | rpc/server.go:79-117 | when a registration is refused, that it changes nothing then, that it adds to a service already registered, and that the registry stays well formed |
| RequestParser.IsBatch | rpc/json.go:125-134 | a message is a batch exactly when its first character that is not insignificant whitespace is an opening bracket |
| RequestParser.SplitExact | rpc/json.go:205-208 | splitting a name loses nothing and no piece contains the separator |
| RequestParser.CallName | rpc/json.go:205-215 | a call resolves to a service and a method exactly when its name has a single underscore |
| RequestParser.ParseBatchRequest | rpc/json.go:220-271 | the batch parser succeeds exactly when each element alone parses or fails only with method-not-found; element i is then the single parse or carries that error at index i; otherwise it fails with the code of the first offending element |
| RequestParser.ParseElement | rpc/json.go:227-267 | one batch element: it parses exactly when it does alone or its method is unknown, and an error has the code of the single parser |
| RequestParser.ParseExact | rpc/json.go:172-216 | the single parser succeeds exactly when the id is valid and the subscribe params or the call name are well formed; the service and name it yields rebuild the method name, and the params are kept |
| RequestParser.ParsedFacts | rpc/json.go:172-198 | a parsed request keeps its id, which is valid, and a subscribe request has params |
| RequestParser.ParseArgs | rpc/json.go:286-319 | argument parsing succeeds exactly when the arguments fit, with one value per type; otherwise it reports the first obstacle from the left |
| RequestParser.ObstacleUnique | rpc/json.go:286-319 | that obstacle is unique and excludes success |
| RequestParser.ParsePositionalArguments | rpc/json.go:286-319 | the two loops compute that result |
| RequestPipeline.ReadRequest | rpc/server.go:381-442 | the verification loop resolves request i into place i and keeps its id |
| RequestPipeline.ResolvedArity | rpc/server.go:393-437 | a request that reaches a callback reaches one of its own kind; a subscription callback gets exactly as many arguments as it has types though nothing compares them, and an unsubscribe request carries one string |
| RequestPipeline.ResolvedArguments | rpc/server.go:409-437 | argument i comes from params element i, or i + 1 for a subscribe request, or is the zero of an optional type |
| RequestPipeline.PanicsExactlyWhen | rpc/server.go:242-322 | for every reply, a request that reaches its callback makes the server panic, in handling or in the activation, exactly for a cause read off the method's signature, the reply and the connection |
| RequestPipeline.HandledIffUsable | rpc/utils.go:110-192 | no well-behaved reply makes the server panic exactly when the method is usable and, for a subscription, the connection has a notifier |
| RequestPipeline.PipelinePanics | rpc/server.go:256-343 | a JSON request makes the server panic exactly when it gets as far as its callback and that call has one of the causes |
| RequestPipeline.PointerContextPanics | rpc/utils.go:131-149 | a subscription method with a pointer context is registered, and every request for it panics |
| RequestPipeline.VariadicPanics | rpc/server.go:301-310 | a variadic method that sums integers is registered with one slice argument, and every request for it panics |
| RequestPipeline.NamedPointerPanics | rpc/utils.go:78-83 | a method returning a named pointer to Subscription is registered as a subscription, and panics exactly when it reports no error |
| RequestPipeline.PointerToInterfacePanics | rpc/utils.go:68-73 | a method returning a pointer to an interface that is an error is registered, and panics exactly when that result is not nil |
| RequestPipeline.SubscriptionPanics | rpc/server.go:242-291 | a usable subscription method panics exactly when it returns neither subscription nor error, or a subscription without a notifier |
| RequestPipeline.CallServed | rpc/server.go:404-439 | a call, from JSON to the response: method-not-found exactly when not offered, else invalid-params exactly when the arguments do not fit, else the callback's error or its first result, under the id of the request |
| RequestPipeline.SubscribeServed | rpc/server.go:409-425 | a subscribe request, from JSON to the response, likewise; the id the callback returns is answered and left to be activated |
| RequestPipeline.Responses | rpc/server.go:347-359 | as many responses as requests, each with the id of its request |
| RequestPipeline.ExecBatch | rpc/server.go:347-370 | the loops write those responses unless a callback panics, then activate in order unless there is no notifier; it crashes exactly when some request panics |
| RequestPipeline.FrameAligned | rpc/server.go:347-443 | through parse, resolve and execute, response i carries the id of request i of the frame, and a single request that parses gets exactly one response |
| SubscriptionIds.FillBuffer | rpc/utils.go:209-216 | for any length, every byte is written exactly once, from the next byte of the draw it belongs to |
| SubscriptionIds.IdIsQuantity | rpc/utils.go:218-225 | the text is a quantity without leading zero, zero is 0x0, and it denotes exactly the number of the buffer |
| SubscriptionIds.IdsEqualIff | rpc/utils.go:205-226 | two texts are equal exactly when the buffers denote the same number; for one length, exactly when the buffers are equal |
| SubscriptionIds.NewId | rpc/utils.go:205-226 | the generated id denotes the number of the buffer the draws give |

## Left out

- Deadlock freedom and prompt failure: when a reconnect arrives while a reader is live, the loop waits for that reader alone (rpc/client.go:573-579), and a delivery can block it; only safety is proved there.
- The loop's blocking in a delivery is modelled in `ClientDelivery`, not in `ClientProtocol`, where handling a notification leaves the tables alone.
- The HTTP client path (`sendHTTP`, `sendBatchHTTP`): it forwards whatever the server returned, without the dispatch loop.
- Transports, dialing, TLS, CORS, virtual hosts and endpoint start-up: library and socket plumbing; a dial is a step that succeeds or fails.
- JSON text syntax, `encoding/json`, reflection and the random generator: abstract values and parameters.
- Timeouts and deadlines, beyond "the context is done" as a step that may happen; logging; panic recovery.
- Panics inside a callback or inside the `Error` method of an error it returns: only the server's own code is examined.
- Letters outside ASCII in names: upper and lower case are those of ASCII.
- Shutdown of a subscription and its forwarder are separate transition systems, tied by the quit channel only.
- Parsing the result of a call into the caller's value: the reply in an element is modelled, not what unmarshalling makes of it.
- `SubscriptionStream` follows one connection of one client; which operation a response is matched to is a choice there, and the subject of `Conversation`, which in turn leaves out the forwarders.
- Writes that fail while encoding (rpc/json.go:345-350): the wire of `ServerConnection` holds attempted writes, and the wires of `SubscriptionStream` and `Conversation` are read as those that succeeded; a write that fails is followed by closing the connection.
- A subscribe request whose first parameter ends in `_unsubscribe` is handled as an unsubscribe request by the code and by the model; `SubscribeServed` speaks of the others.
- `RPCService.Modules`, block numbers and the transaction scripts of the repository: only easy members.
