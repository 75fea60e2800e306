/**
 Shutting down one client subscription. The forwarder, the dispatch loop and any number of
 Unsubscribe calls may race; two sync.Once values decide who closes quit, who sends the error
 and who closes the error channel.
 */
module SubscriptionShutdown {
  import opened GoRuntime
  import ClientModel

  type Thread = nat

  /** A sync.Once: callers that arrive while its function runs wait until it is done. */
  datatype Once = Unused | RunningBy(t: Thread) | Done

  /** Who calls quitWithError, which fixes its arguments. */
  datatype Caller =
    | ForwarderQuit                   // forward saw quit: (nil, false)
    | ForwarderFailed(err: string)    // forward failed: (err, true)
    | DispatchCloses(err: string)     // closeRequestOps: (err, false)
    | Unsubscriber                    // Unsubscribe: (nil, true), then close err

  function ErrorOf(c: Caller): Option<string> {
    match c
    case ForwarderFailed(err) => Some(err)
    case DispatchCloses(err) => Some(err)
    case _ => None
  }

  /** The error as the subscriber sees it: a client that was closed on purpose counts as no error. */
  function OnChannel(e: string): Option<string> {
    if e == ClientModel.CLIENT_QUIT then None else Some(e)
  }

  /** What err must have received once the given caller has shut the subscription down. */
  function Report(c: Caller): seq<Option<string>> {
    if ErrorOf(c).Some? then [OnChannel(ErrorOf(c).value)] else []
  }

  predicate AsksServer(c: Caller) {
    c.ForwarderFailed? || c.Unsubscriber?
  }

  /** Where a caller stands. */
  datatype Pc = AtQuitOnce | ClosingQuit | Asking | SendingError | AtErrOnce | ClosingErr | Returned

  datatype Task = Task(caller: Caller, pc: Pc)

  /**
   `winner` and `sent` are history: the caller whose function quitOnce runs, and all values sent on
   err. A nil error on the channel is None.
   */
  datatype State = State(
    quit: Chan<()>, quitOnce: Once, err: Chan<Option<string>>, errOnce: Once, tasks: map<Thread, Task>,
    winner: Option<Caller>, sent: seq<Option<string>>)

  function Init(): State {
    State(NewChan(0), Unused, NewChan(1), Unused, map[], None, [])
  }

  datatype Label =
    | Begin(t: Thread, caller: Caller)
    | EnterQuitOnce(t: Thread)
    | CloseQuit(t: Thread)
    | Asked(t: Thread)
    | SendError(t: Thread)
    | EnterErrOnce(t: Thread)
    | CloseErr(t: Thread)
    | UserReceives

  predicate At(s: State, t: Thread, pc: Pc) {
    t in s.tasks && s.tasks[t].pc == pc
  }

  predicate Enabled(s: State, l: Label) {
    match l
    case Begin(t, _) => t !in s.tasks
    case EnterQuitOnce(t) => At(s, t, AtQuitOnce) && !s.quitOnce.RunningBy?
    case CloseQuit(t) => At(s, t, ClosingQuit)
    case Asked(t) => At(s, t, Asking)
    case SendError(t) => At(s, t, SendingError)
    case EnterErrOnce(t) => At(s, t, AtErrOnce) && !s.errOnce.RunningBy?
    case CloseErr(t) => At(s, t, ClosingErr)
    case UserReceives => s.err.buf != []
  }

  function Go(s: State, t: Thread, pc: Pc): State
    requires t in s.tasks
  {
    s.(tasks := s.tasks[t := s.tasks[t].(pc := pc)])
  }

  /** What follows quitWithError: an Unsubscribe goes on to the error channel. */
  function AfterQuit(c: Caller): Pc {
    if c.Unsubscriber? then AtErrOnce else Returned
  }

  function Apply(s: State, l: Label): State
    requires Enabled(s, l)
  {
    match l
    case Begin(t, caller) => s.(tasks := s.tasks[t := Task(caller, AtQuitOnce)])
    case EnterQuitOnce(t) =>
      if s.quitOnce == Done then Go(s, t, AfterQuit(s.tasks[t].caller))
      else Go(s.(quitOnce := RunningBy(t), winner := Some(s.tasks[t].caller)), t, ClosingQuit)
    case CloseQuit(t) =>
      Go(s.(quit := s.quit.Close()), t, if AsksServer(s.tasks[t].caller) then Asking else SendingError)
    case Asked(t) => Go(s, t, SendingError)
    case SendError(t) =>
      var s1 := Go(s.(quitOnce := Done), t, AfterQuit(s.tasks[t].caller));
      var e := ErrorOf(s.tasks[t].caller);
      if e == None then s1 else s1.(err := s.err.Send(OnChannel(e.value)), sent := s.sent + [OnChannel(e.value)])
    case EnterErrOnce(t) =>
      if s.errOnce == Done then Go(s, t, Returned) else Go(s.(errOnce := RunningBy(t)), t, ClosingErr)
    case CloseErr(t) => Go(s.(err := s.err.Close(), errOnce := Done), t, Returned)
    case UserReceives => s.(err := s.err.(buf := s.err.buf[1..]))
  }

  // ----- the invariant

  ghost predicate TaskOk(s: State, t: Thread, task: Task) {
    match task.pc
    case AtQuitOnce => true
    case ClosingQuit => s.quitOnce == RunningBy(t) && !s.quit.closed && s.winner == Some(task.caller)
    case Asking => s.quitOnce == RunningBy(t) && s.quit.closed && s.winner == Some(task.caller)
    case SendingError => s.quitOnce == RunningBy(t) && s.quit.closed && s.winner == Some(task.caller)
    case AtErrOnce => s.quitOnce == Done && task.caller.Unsubscriber?
    case ClosingErr => s.quitOnce == Done && task.caller.Unsubscriber? && s.errOnce == RunningBy(t)
    case Returned => s.quitOnce == Done && (task.caller.Unsubscriber? ==> s.errOnce == Done)
  }

  /** The channels and the two Once values. */
  ghost predicate ChannelsOk(s: State) {
    && !s.quit.fault && !s.err.fault && s.err.cap == 1
    && (s.quitOnce == Unused ==> !s.quit.closed)
    && (s.quitOnce == Done ==> s.quit.closed)
    && (s.quitOnce.RunningBy? ==>
          s.quitOnce.t in s.tasks && s.tasks[s.quitOnce.t].pc in {ClosingQuit, Asking, SendingError})
    && (s.errOnce.RunningBy? ==> s.errOnce.t in s.tasks && s.tasks[s.errOnce.t].pc == ClosingErr)
    && (s.err.closed <==> s.errOnce == Done)
    && (s.errOnce != Unused ==> s.quitOnce == Done)
    && |s.err.buf| <= |s.sent|
    && (s.quitOnce == Unused <==> s.winner == None)
    && s.sent == (if s.quitOnce == Done then Report(s.winner.value) else [])
  }

  ghost predicate Inv(s: State) {
    ChannelsOk(s) && forall t :: t in s.tasks ==> TaskOk(s, t, s.tasks[t])
  }

  lemma ChannelsStep(s: State, l: Label)
    requires Inv(s) && Enabled(s, l)
    ensures ChannelsOk(Apply(s, l))
  {
  }

  lemma TaskStep(s: State, l: Label, t: Thread)
    requires Inv(s) && Enabled(s, l) && t in Apply(s, l).tasks
    ensures TaskOk(Apply(s, l), t, Apply(s, l).tasks[t])
  {
    if t in s.tasks {
      assert TaskOk(s, t, s.tasks[t]);
    }
  }

  lemma StepKeepsInv(s: State, l: Label)
    requires Inv(s) && Enabled(s, l)
    ensures Inv(Apply(s, l))
  {
    hide Apply, Enabled, ChannelsOk, TaskOk;
    ChannelsStep(s, l);
    forall t | t in Apply(s, l).tasks ensures TaskOk(Apply(s, l), t, Apply(s, l).tasks[t]) {
      TaskStep(s, l, t);
    }
  }

  ghost predicate IsRun(states: seq<State>, labels: seq<Label>) {
    && |states| == |labels| + 1 && states[0] == Init()
    && forall i :: 0 <= i < |labels| ==> Enabled(states[i], labels[i]) && states[i + 1] == Apply(states[i], labels[i])
  }

  lemma {:induction false} RunKeepsInv(states: seq<State>, labels: seq<Label>, n: nat)
    requires IsRun(states, labels) && n <= |labels|
    ensures Inv(states[n])
  {
    hide Apply, Enabled;
    if n > 0 {
      RunKeepsInv(states, labels, n - 1);
      hide Inv;
      StepKeepsInv(states[n - 1], labels[n - 1]);
    }
  }

  /**
   For any interleaving: quit is closed at most once; err gets at most one value, without blocking,
   is closed at most once and never sent to after that. When an Unsubscribe has returned, both
   channels are closed, whoever won the races; the forwarder and the loop return only after quit is closed.
   */
  lemma ShutdownSafe(states: seq<State>, labels: seq<Label>, n: nat)
    requires IsRun(states, labels) && n <= |labels|
    ensures !states[n].quit.fault && !states[n].err.fault && |states[n].sent| <= 1
    ensures forall t :: At(states[n], t, Returned) ==>
      states[n].quit.closed && (states[n].tasks[t].caller.Unsubscriber? ==> states[n].err.closed)
  {
    RunKeepsInv(states, labels, n);
    var s := states[n];
    forall t | At(s, t, Returned)
      ensures s.quit.closed && (s.tasks[t].caller.Unsubscriber? ==> s.err.closed)
    {
      assert TaskOk(s, t, s.tasks[t]);
    }
  }

  /**
   The first caller decides. Once a caller has left quitOnce, err has received exactly what that
   caller reports, and neither the decision nor the report ever changes.
   */
  lemma {:induction false} FirstCallerDecides(states: seq<State>, labels: seq<Label>, m: nat, n: nat)
    requires IsRun(states, labels) && m <= n <= |labels| && states[m].winner.Some?
    ensures states[n].winner == states[m].winner
    ensures states[n].quitOnce == Done ==> states[n].sent == Report(states[m].winner.value)
    decreases n - m
  {
    RunKeepsInv(states, labels, m);
    if m < n {
      assert Enabled(states[m], labels[m]) && states[m + 1] == Apply(states[m], labels[m]);
      FirstCallerDecides(states, labels, m + 1, n);
    }
  }
}
