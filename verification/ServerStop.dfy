/**
 Stop against new connections. Serving goroutines add their codec to the server's set under a
 mutex after testing the run flag; Stop clears the flag first and closes the codecs of the set
 under the same mutex. Flag tests, lock operations and set operations are separate steps.
 */
module ServerStop {
  import opened GoRuntime

  type Thread = nat
  type Codec = nat

  /** Where a goroutine stands: serving a connection, or in Stop. */
  datatype Pc =
    | Arriving                       // about to lock, before the flag is tested
    | Testing                        // holds the lock
    | Refused                        // holds the lock, saw the flag cleared
    | Adding                         // holds the lock, saw the flag set
    | Added                          // holds the lock
    | Serving                        // reading requests
    | Leaving                        // about to lock, to remove the codec
    | Removing                       // holds the lock
    | RemovedCodec                   // holds the lock
    | Gone
    | CallingStop                    // before the compare-and-swap
    | Won                            // swapped the flag, about to lock
    | Closing(left: set<Codec>)      // holds the lock
    | Stopped                        // released the lock
    | Lost                           // somebody else had stopped the server

  datatype Task = Task(codec: Codec, pc: Pc)

  /** `run` is the flag, `mutex` the holder of codecsMu; `winner` is history: the Stop that cleared the flag. */
  datatype State = State(
    run: bool, mutex: Option<Thread>, codecs: set<Codec>, closed: set<Codec>,
    tasks: map<Thread, Task>, winner: Option<Thread>)

  function Init(): State {
    State(true, None, {}, {}, map[], None)
  }

  datatype Label =
    | Serve(t: Thread, c: Codec)
    | CallStop(t: Thread)
    | Acquire(t: Thread)
    | Test(t: Thread)
    | Add(t: Thread)
    | Remove(t: Thread)
    | Release(t: Thread)
    | EndServing(t: Thread)
    | Swap(t: Thread)
    | CloseOne(t: Thread, c: Codec)
    | CloseElsewhere(c: Codec)       // a write error, or the end of ServeCodec

  predicate At(s: State, t: Thread, pc: Pc) {
    t in s.tasks && s.tasks[t].pc == pc
  }

  predicate Enabled(s: State, l: Label) {
    match l
    case Serve(t, _) => t !in s.tasks
    case CallStop(t) => t !in s.tasks
    case Acquire(t) => s.mutex == None && (At(s, t, Arriving) || At(s, t, Leaving) || At(s, t, Won))
    case Test(t) => At(s, t, Testing)
    case Add(t) => At(s, t, Adding)
    case Remove(t) => At(s, t, Removing)
    case Release(t) => At(s, t, Refused) || At(s, t, Added) || At(s, t, RemovedCodec) || At(s, t, Closing({}))
    case EndServing(t) => At(s, t, Serving)
    case Swap(t) => At(s, t, CallingStop)
    case CloseOne(t, c) => t in s.tasks && s.tasks[t].pc.Closing? && c in s.tasks[t].pc.left
    case CloseElsewhere(_) => true
  }

  function Go(s: State, t: Thread, pc: Pc): State
    requires t in s.tasks
  {
    s.(tasks := s.tasks[t := s.tasks[t].(pc := pc)])
  }

  function Apply(s: State, l: Label): State
    requires Enabled(s, l)
  {
    match l
    case Serve(t, c) => s.(tasks := s.tasks[t := Task(c, Arriving)])
    case CallStop(t) => s.(tasks := s.tasks[t := Task(0, CallingStop)])
    case Acquire(t) =>
      Go(s.(mutex := Some(t)), t,
         match s.tasks[t].pc
         case Arriving => Testing
         case Leaving => Removing
         case _ => Closing(s.codecs))
    case Test(t) => Go(s, t, if s.run then Adding else Refused)
    case Add(t) => Go(s.(codecs := s.codecs + {s.tasks[t].codec}), t, Added)
    case Remove(t) => Go(s.(codecs := s.codecs - {s.tasks[t].codec}), t, RemovedCodec)
    case Release(t) =>
      Go(s.(mutex := None), t,
         match s.tasks[t].pc
         case Refused => Leaving      // the deferred function still removes the codec
         case Added => Serving
         case RemovedCodec => Gone
         case _ => Stopped)
    case EndServing(t) => Go(s, t, Leaving)
    case Swap(t) => if s.run then Go(s.(run := false, winner := Some(t)), t, Won) else Go(s, t, Lost)
    case CloseOne(t, c) => Go(s.(closed := s.closed + {c}), t, Closing(s.tasks[t].pc.left - {c}))
    case CloseElsewhere(c) => s.(closed := s.closed + {c})
  }

  // ----- the invariant

  predicate Holds(pc: Pc) {
    pc.Testing? || pc.Refused? || pc.Adding? || pc.Added? || pc.Removing? || pc.RemovedCodec? || pc.Closing?
  }

  predicate Winning(pc: Pc) {
    pc.Won? || pc.Closing? || pc.Stopped?
  }

  /** The mutex is held by the goroutine that stands between its lock and unlock, and by no other. */
  ghost predicate MutexOk(mutex: Option<Thread>, tasks: map<Thread, Task>) {
    && (mutex.Some? ==> mutex.value in tasks && Holds(tasks[mutex.value].pc))
    && (forall t :: t in tasks && Holds(tasks[t].pc) ==> mutex == Some(t))
  }

  /** Exactly one Stop has won once the flag is cleared. */
  ghost predicate WinnerOk(run: bool, winner: Option<Thread>, tasks: map<Thread, Task>) {
    && (run <==> winner == None)
    && (winner.Some? ==> winner.value in tasks && Winning(tasks[winner.value].pc))
    && (forall t :: t in tasks && Winning(tasks[t].pc) ==> winner == Some(t))
  }

  /** A goroutine that saw the flag set adds its codec before the winner gets the lock. */
  ghost predicate AddingOk(winner: Option<Thread>, tasks: map<Thread, Task>) {
    forall t :: t in tasks && tasks[t].pc.Adding? ==>
      winner == None || (winner.value in tasks && tasks[winner.value].pc.Won?)
  }

  /** What the winner has closed so far. */
  ghost predicate ClosedOk(s: State) {
    s.winner.Some? && s.winner.value in s.tasks ==>
      match s.tasks[s.winner.value].pc
      case Closing(left) => s.codecs - left <= s.closed
      case Stopped => s.codecs <= s.closed
      case _ => true
  }

  ghost predicate Inv(s: State) {
    MutexOk(s.mutex, s.tasks) && WinnerOk(s.run, s.winner, s.tasks) && AddingOk(s.winner, s.tasks) && ClosedOk(s)
  }

  lemma MutexStep(s: State, l: Label)
    requires MutexOk(s.mutex, s.tasks) && Enabled(s, l)
    ensures MutexOk(Apply(s, l).mutex, Apply(s, l).tasks)
  {
  }

  lemma WinnerStep(s: State, l: Label)
    requires WinnerOk(s.run, s.winner, s.tasks) && Enabled(s, l)
    ensures WinnerOk(Apply(s, l).run, Apply(s, l).winner, Apply(s, l).tasks)
  {
  }

  lemma AddingStep(s: State, l: Label)
    requires Inv(s) && Enabled(s, l)
    ensures AddingOk(Apply(s, l).winner, Apply(s, l).tasks)
  {
  }

  lemma ClosedStep(s: State, l: Label)
    requires Inv(s) && Enabled(s, l)
    ensures ClosedOk(Apply(s, l))
  {
  }

  lemma StepKeepsInv(s: State, l: Label)
    requires Inv(s) && Enabled(s, l)
    ensures Inv(Apply(s, l))
  {
    hide Apply, Enabled, MutexOk, WinnerOk, AddingOk, ClosedOk;
    MutexStep(s, l);
    WinnerStep(s, l);
    AddingStep(s, l);
    ClosedStep(s, l);
  }

  ghost predicate IsRun(states: seq<State>, labels: seq<Label>) {
    && |states| == |labels| + 1 && states[0] == Init()
    && forall i :: 0 <= i < |labels| ==> Enabled(states[i], labels[i]) && states[i + 1] == Apply(states[i], labels[i])
  }

  lemma {:induction false} RunKeepsInv(states: seq<State>, labels: seq<Label>, n: nat)
    requires IsRun(states, labels) && n <= |labels|
    ensures Inv(states[n])
  {
    hide Apply, Enabled;
    if n > 0 {
      RunKeepsInv(states, labels, n - 1);
      hide Inv;
      StepKeepsInv(states[n - 1], labels[n - 1]);
    }
  }

  /**
   Once the Stop that won the compare-and-swap has released the lock, every codec in the set is
   closed, in this and every later state, and the set only ever shrinks: no codec is added again.
   */
  lemma {:induction false} StopIsFinal(states: seq<State>, labels: seq<Label>, m: nat, n: nat, t: Thread)
    requires IsRun(states, labels) && m <= n <= |labels| && At(states[m], t, Stopped)
    ensures At(states[n], t, Stopped)
    ensures states[n].codecs <= states[n].closed
    ensures states[n].codecs <= states[m].codecs
    ensures n < |labels| ==> !labels[n].Add?
  {
    hide Apply, Enabled, Inv;
    RunKeepsInv(states, labels, n);
    if m < n {
      StopIsFinal(states, labels, m, n - 1, t);
      assert Enabled(states[n - 1], labels[n - 1]) && states[n] == Apply(states[n - 1], labels[n - 1]);
      StoppedStep(states[n - 1], labels[n - 1], t);
    }
    StoppedState(states[n], t);
    if n < |labels| {
      assert Enabled(states[n], labels[n]);
    }
  }

  /** When the winner has stopped, all codecs in the set are closed and no goroutine is about to add one. */
  lemma StoppedState(s: State, t: Thread)
    requires Inv(s) && At(s, t, Stopped)
    ensures s.codecs <= s.closed && forall l :: Enabled(s, l) ==> !l.Add?
  {
    assert s.winner == Some(t);
  }

  lemma StoppedStep(s: State, l: Label, t: Thread)
    requires At(s, t, Stopped) && Enabled(s, l) && !l.Add?
    ensures At(Apply(s, l), t, Stopped) && Apply(s, l).codecs <= s.codecs
  {
  }

  /** Only one Stop ever closes codecs. */
  lemma OneStopWins(states: seq<State>, labels: seq<Label>, n: nat, t: Thread, u: Thread)
    requires IsRun(states, labels) && n <= |labels|
    requires t in states[n].tasks && u in states[n].tasks
    requires Winning(states[n].tasks[t].pc) && Winning(states[n].tasks[u].pc)
    ensures t == u && !states[n].run
  {
    RunKeepsInv(states, labels, n);
  }
}
