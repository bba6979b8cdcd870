/** The oracle's response barrier: drains, exit watcher and waiter as cooperative tasks over shared state. */
module OracleBarrier {
  import opened Basics

  datatype Failure =
    | OutputTooLarge | MalformedOutput | ProtocolDesynchronization | ProcessCrash | UnexpectedExitCode
    | ResponseTimeout

  datatype Message = SideUpdate(side: string) | SideErrorMessage | EndMessage | OtherMessage(text: string)

  datatype Barrier = Barrier(requestSides: set<string>, end: bool)

  datatype Limits = Limits(maxStdout: nat, maxStderr: nat, maxMessages: nat)

  datatype Task = Running | Done(failure: Option<Failure>)

  datatype Exit = Alive | Exited(code: int) | WatchFailed

  datatype Outcome = Met | SideErrorSeen | Failed(failure: Failure)

  datatype Waiter = Awake | Asleep | Finished(outcome: Outcome)

  datatype Interaction = Interaction(
    messages: seq<Message>,
    stdoutBytes: nat,
    stderrBytes: nat,
    stdout: Task,
    stderr: Task,
    exit: Exit,
    activity: bool,
    waiter: Waiter)

  /** What one scheduling step lets one task do, up to its next suspension. */
  datatype Action =
    | StdoutChunk(size: nat, decoded: Result<seq<Message>, Failure>)
    | StdoutEnds(finish: Option<Failure>)
    | StdoutReadFails
    | StderrChunk(size: nat)
    | StderrEnds
    | StderrReadFails
    | ChildExits(code: int)
    | ExitWatchFails
    | WaiterRuns
    | ResponseTimesOut

  function SidesIn(messages: seq<Message>): set<string> {
    set i | 0 <= i < |messages| && messages[i].SideUpdate? :: messages[i].side
  }

  /** `is_satisfied_by`. */
  predicate Satisfied(barrier: Barrier, messages: seq<Message>) {
    barrier.requestSides <= SidesIn(messages) && (!barrier.end || EndMessage in messages)
  }

  // ----- the tasks that feed the state -----

  function StdoutStops(i: Interaction, failure: Option<Failure>): Interaction {
    i.(stdout := Done(failure), activity := true)
  }

  function FeedStdout(i: Interaction, limits: Limits, size: nat, decoded: Result<seq<Message>, Failure>): Interaction {
    if i.stdout.Done? then i else
    var counted := i.(stdoutBytes := i.stdoutBytes + size);
    if counted.stdoutBytes > limits.maxStdout then StdoutStops(counted, Some(OutputTooLarge))
    else match decoded
      case Err(failure) => StdoutStops(counted, Some(failure))
      case Ok(messages) =>
        var fed := counted.(messages := counted.messages + messages);
        if |fed.messages| > limits.maxMessages then StdoutStops(fed, Some(OutputTooLarge))
        else fed.(activity := true)
  }

  function FeedStderr(i: Interaction, limits: Limits, size: nat): Interaction {
    if i.stderr.Done? then i else
    var counted := i.(stderrBytes := i.stderrBytes + size);
    if counted.stderrBytes > limits.maxStderr then counted.(stderr := Done(Some(OutputTooLarge)), activity := true)
    else counted
  }

  // ----- the waiter -----

  function DrainFailure(i: Interaction): Option<Failure> {
    if i.stdout.Done? && i.stdout.failure.Some? then i.stdout.failure
    else if i.stderr.Done? then i.stderr.failure
    else None
  }

  function ExitFailure(i: Interaction): Option<Failure> {
    match i.exit
    case Alive => None
    case WatchFailed => Some(ProcessCrash)
    case Exited(code) => if code < 0 then Some(ProcessCrash) else if code > 0 then Some(UnexpectedExitCode) else None
  }

  /** What a pass through the waiter's checks reports, in their order. */
  function Report(i: Interaction, barrier: Barrier, start: nat): Option<Outcome>
    requires start <= |i.messages|
  {
    if DrainFailure(i).Some? then Some(Failed(DrainFailure(i).value))
    else if Satisfied(barrier, i.messages[start..]) then Some(Met)
    else if SideErrorMessage in i.messages[start..] then Some(SideErrorSeen)
    else if ExitFailure(i).Some? then Some(Failed(ExitFailure(i).value))
    else if i.stdout.Done? then Some(Failed(ProtocolDesynchronization))
    else None
  }

  /** The waiter runs when it was never suspended, or is woken by the flag; it clears the flag only before sleeping. */
  function WaiterPass(i: Interaction, barrier: Barrier, start: nat): Interaction
    requires start <= |i.messages|
  {
    if i.waiter.Finished? || (i.waiter.Asleep? && !i.activity) then i
    else match Report(i, barrier, start)
      case Some(outcome) => i.(waiter := Finished(outcome))
      case None => i.(waiter := Asleep, activity := false)
  }

  function Act(i: Interaction, barrier: Barrier, start: nat, limits: Limits, action: Action): (next: Interaction)
    requires start <= |i.messages|
    ensures i.messages <= next.messages
  {
    match action
    case StdoutChunk(size, decoded) => FeedStdout(i, limits, size, decoded)
    case StdoutEnds(finish) => if i.stdout.Done? then i else StdoutStops(i, finish)
    case StdoutReadFails => if i.stdout.Done? then i else StdoutStops(i, Some(ProcessCrash))
    case StderrChunk(size) => FeedStderr(i, limits, size)
    case StderrEnds => if i.stderr.Done? then i else i.(stderr := Done(None), activity := true)
    case StderrReadFails => if i.stderr.Done? then i else i.(stderr := Done(Some(ProcessCrash)), activity := true)
    case ChildExits(code) => if !i.exit.Alive? then i else i.(exit := Exited(code), activity := true)
    case ExitWatchFails => if !i.exit.Alive? then i else i.(exit := WatchFailed, activity := true)
    case WaiterRuns => WaiterPass(i, barrier, start)
    case ResponseTimesOut => if i.waiter.Finished? then i else i.(waiter := Finished(Failed(ResponseTimeout)))
  }

  function Interleave(i: Interaction, barrier: Barrier, start: nat, limits: Limits, actions: seq<Action>)
    : (r: Interaction)
    requires start <= |i.messages|
    ensures i.messages <= r.messages
    decreases |actions|
  {
    if actions == [] then i
    else Interleave(Act(i, barrier, start, limits, actions[0]), barrier, start, limits, actions[1..])
  }

  // ----- no lost wake-up -----

  /** A waiter asleep on a clear flag has nothing to report. */
  ghost predicate SleepsSoundly(i: Interaction, barrier: Barrier, start: nat) {
    start <= |i.messages| && (i.waiter.Asleep? && !i.activity ==> Report(i, barrier, start).None?)
  }

  lemma ActKeepsSleep(i: Interaction, barrier: Barrier, start: nat, limits: Limits, action: Action)
    requires SleepsSoundly(i, barrier, start)
    ensures SleepsSoundly(Act(i, barrier, start, limits, action), barrier, start)
  {
    hide Satisfied;
  }

  /** Under every interleaving, a waiter asleep on a clear activity flag has an unmet barrier, no side error since the
      write, no failed drain, an open stdout, and a child that has not exited with a code other than zero. */
  lemma {:induction false} NoLostWakeUp(
    i: Interaction, barrier: Barrier, start: nat, limits: Limits, actions: seq<Action>)
    requires start <= |i.messages| && i.waiter.Awake?
    ensures var r := Interleave(i, barrier, start, limits, actions);
            r.waiter.Asleep? && !r.activity ==>
              && !Satisfied(barrier, r.messages[start..]) && SideErrorMessage !in r.messages[start..]
              && r.stdout.Running? && (r.stderr.Done? ==> r.stderr.failure.None?)
              && !r.exit.WatchFailed? && (r.exit.Exited? ==> r.exit.code == 0)
  {
    hide Satisfied, Act;
    InterleaveKeepsSleep(i, barrier, start, limits, actions);
  }

  lemma {:induction false} InterleaveKeepsSleep(
    i: Interaction, barrier: Barrier, start: nat, limits: Limits, actions: seq<Action>)
    requires SleepsSoundly(i, barrier, start)
    ensures SleepsSoundly(Interleave(i, barrier, start, limits, actions), barrier, start)
    decreases |actions|
  {
    hide Act, Report;
    if actions != [] {
      ActKeepsSleep(i, barrier, start, limits, actions[0]);
      InterleaveKeepsSleep(Act(i, barrier, start, limits, actions[0]), barrier, start, limits, actions[1..]);
    }
  }

  /** Once there is something to report the waiter can run, and its next turn ends the wait. */
  lemma {:induction false} NextTurnReports(
    i: Interaction, barrier: Barrier, start: nat, limits: Limits, actions: seq<Action>)
    requires start <= |i.messages| && i.waiter.Awake?
    ensures var r := Interleave(i, barrier, start, limits, actions);
            var next := Act(r, barrier, start, limits, WaiterRuns);
            next.waiter.Finished? <==> r.waiter.Finished? || Report(r, barrier, start).Some?
  {
    hide Satisfied, Report;
    InterleaveKeepsSleep(i, barrier, start, limits, actions);
  }

  // ----- what an outcome proves -----

  lemma MoreMessages(barrier: Barrier, start: nat, before: seq<Message>, after: seq<Message>)
    requires start <= |before| && before <= after
    ensures Satisfied(barrier, before[start..]) ==> Satisfied(barrier, after[start..])
    ensures SideErrorMessage in before[start..] ==> SideErrorMessage in after[start..]
  {
    assert after[start..][..|before| - start] == before[start..];
    var earlier, later := before[start..], after[start..];
    assert forall k :: 0 <= k < |earlier| ==> earlier[k] == later[k];
    assert SidesIn(earlier) <= SidesIn(later);
  }

  /** Each outcome has its cause in the state, for good. */
  ghost predicate Justified(i: Interaction, barrier: Barrier, start: nat)
    requires start <= |i.messages|
  {
    i.waiter.Finished? ==>
      match i.waiter.outcome
      case Met => Satisfied(barrier, i.messages[start..])
      case SideErrorSeen => SideErrorMessage in i.messages[start..]
      case Failed(failure) =>
        || failure.ResponseTimeout?
        || (i.stdout.Done? && i.stdout.failure == Some(failure))
        || (i.stderr.Done? && i.stderr.failure == Some(failure))
        || ExitFailure(i) == Some(failure)
        || (failure.ProtocolDesynchronization? && i.stdout.Done?)
  }

  lemma ActKeepsJustified(i: Interaction, barrier: Barrier, start: nat, limits: Limits, action: Action)
    requires start <= |i.messages| && Justified(i, barrier, start)
    ensures Justified(Act(i, barrier, start, limits, action), barrier, start)
  {
    MoreMessages(barrier, start, i.messages, Act(i, barrier, start, limits, action).messages);
    hide Satisfied;
  }

  /** A barrier reported as met is met by messages since the write, a side error was received, and a failure has its
      cause: the response timeout, a drain, the child's exit, or the end of its output. */
  lemma {:induction false} OutcomesAreJustified(
    i: Interaction, barrier: Barrier, start: nat, limits: Limits, actions: seq<Action>)
    requires start <= |i.messages| && !i.waiter.Finished?
    ensures Justified(Interleave(i, barrier, start, limits, actions), barrier, start)
  {
    JustifiedAll(i, barrier, start, limits, actions);
  }

  lemma {:induction false} JustifiedAll(
    i: Interaction, barrier: Barrier, start: nat, limits: Limits, actions: seq<Action>)
    requires start <= |i.messages| && Justified(i, barrier, start)
    ensures Justified(Interleave(i, barrier, start, limits, actions), barrier, start)
    decreases |actions|
  {
    hide Act, Justified;
    if actions != [] {
      ActKeepsJustified(i, barrier, start, limits, actions[0]);
      JustifiedAll(Act(i, barrier, start, limits, actions[0]), barrier, start, limits, actions[1..]);
    }
  }

  // ----- what one step does -----

  /** A barrier is met exactly when every requested side was updated and, if the end is awaited, it came. */
  lemma {:induction false} BarrierIsMet(barrier: Barrier, messages: seq<Message>)
    ensures Satisfied(barrier, messages) <==>
              && (forall side :: side in barrier.requestSides ==> SideUpdate(side) in messages)
              && (barrier.end ==> EndMessage in messages)
  {
    forall side ensures side in SidesIn(messages) <==> SideUpdate(side) in messages {
      if SideUpdate(side) in messages {
        var i :| 0 <= i < |messages| && messages[i] == SideUpdate(side);
      }
    }
  }

  /** A drain ended with this failure; the output's counts before the error stream's. */
  predicate DrainFailed(i: Interaction, failure: Failure) {
    || i.stdout == Done(Some(failure))
    || (i.stderr == Done(Some(failure)) && !(i.stdout.Done? && i.stdout.failure.Some?))
  }

  ghost predicate NoDrainFailed(i: Interaction) { forall failure :: !DrainFailed(i, failure) }

  /** How a turn of the waiter ends, by the first of its checks that has something to say. */
  ghost predicate Concludes(i: Interaction, barrier: Barrier, start: nat, waiter: Waiter)
    requires start <= |i.messages|
  {
    var since := i.messages[start..];
    var met := (forall side :: side in barrier.requestSides ==> SideUpdate(side) in since)
               && (barrier.end ==> EndMessage in since);
    if !NoDrainFailed(i) then waiter.Finished? && waiter.outcome.Failed? && DrainFailed(i, waiter.outcome.failure)
    else if met then waiter == Finished(Met)
    else if SideErrorMessage in since then waiter == Finished(SideErrorSeen)
    else if i.exit.WatchFailed? || (i.exit.Exited? && i.exit.code < 0) then waiter == Finished(Failed(ProcessCrash))
    else if i.exit.Exited? && i.exit.code > 0 then waiter == Finished(Failed(UnexpectedExitCode))
    else if i.stdout.Done? then waiter == Finished(Failed(ProtocolDesynchronization))
    else waiter == Asleep
  }

  /** A turn concludes by what the shared state shows, clears the flag only to sleep, and changes nothing else; a waiter
      that finished, or sleeps on a clear flag, has no turn. */
  lemma {:induction false} TurnConcludes(i: Interaction, barrier: Barrier, start: nat)
    requires start <= |i.messages|
    ensures var next := WaiterPass(i, barrier, start);
            if i.waiter.Finished? || (i.waiter.Asleep? && !i.activity) then next == i
            else
              && Concludes(i, barrier, start, next.waiter)
              && next == i.(waiter := next.waiter, activity := i.activity && !next.waiter.Asleep?)
  {
    BarrierIsMet(barrier, i.messages[start..]);
    DrainsRead(i);
    hide Satisfied, DrainFailure, NoDrainFailed;
  }

  lemma DrainsRead(i: Interaction)
    ensures match DrainFailure(i)
            case Some(failure) => DrainFailed(i, failure) && !NoDrainFailed(i)
            case None => NoDrainFailed(i)
  {}

  /** A chunk of output adds its bytes and, if it is within the limits and can be decoded, its messages; a drain that
      fails stops with its reason. Each chunk wakes the waiter, and touches nothing else. */
  lemma {:induction false} OutputArrives(
    i: Interaction, limits: Limits, size: nat, decoded: Result<seq<Message>, Failure>)
    ensures var next, bytes := FeedStdout(i, limits, size, decoded), i.stdoutBytes + size;
            if i.stdout.Done? then next == i
            else
              && next == i.(stdoutBytes := bytes, messages := next.messages, stdout := next.stdout, activity := true)
              && next.messages == i.messages + (if bytes <= limits.maxStdout && decoded.Ok? then decoded.value else [])
              && next.stdout == (if bytes > limits.maxStdout then Done(Some(OutputTooLarge))
                                 else if decoded.Err? then Done(Some(decoded.error))
                                 else if |next.messages| > limits.maxMessages then Done(Some(OutputTooLarge))
                                 else Running)
  {}

  /** A chunk of the error stream adds its bytes; it wakes the waiter only by ending the drain. */
  lemma {:induction false} ErrorOutputArrives(i: Interaction, limits: Limits, size: nat)
    ensures var next, bytes := FeedStderr(i, limits, size), i.stderrBytes + size;
            if i.stderr.Done? then next == i
            else if bytes > limits.maxStderr
            then next == i.(stderrBytes := bytes, stderr := Done(Some(OutputTooLarge)), activity := true)
            else next == i.(stderrBytes := bytes)
  {}

  /** A task that ends says how, wakes the waiter and touches nothing else, and ends only once; the timeout ends the
      wait whatever the state. */
  lemma {:induction false} TasksEndOnce(i: Interaction, barrier: Barrier, start: nat, limits: Limits, action: Action)
    requires start <= |i.messages|
    requires !action.StdoutChunk? && !action.StderrChunk? && !action.WaiterRuns?
    ensures Act(i, barrier, start, limits, action)
         == match action
            case StdoutEnds(finish) => if i.stdout.Running? then i.(stdout := Done(finish), activity := true) else i
            case StdoutReadFails =>
              if i.stdout.Running? then i.(stdout := Done(Some(ProcessCrash)), activity := true) else i
            case StderrEnds => if i.stderr.Running? then i.(stderr := Done(None), activity := true) else i
            case StderrReadFails =>
              if i.stderr.Running? then i.(stderr := Done(Some(ProcessCrash)), activity := true) else i
            case ChildExits(code) => if i.exit.Alive? then i.(exit := Exited(code), activity := true) else i
            case ExitWatchFails => if i.exit.Alive? then i.(exit := WatchFailed, activity := true) else i
            case _ => if i.waiter.Finished? then i else i.(waiter := Finished(Failed(ResponseTimeout)))
  {}

  // ----- the shared object -----

  /** The state the tasks share, updated in place by each of them. */
  class DrainState {
    const limits: Limits
    var messages: seq<Message>
    var stdoutBytes: nat
    var stderrBytes: nat
    var stdoutTask: Task
    var stderrTask: Task
    var exit: Exit
    var activity: bool
    var waiter: Waiter

    ghost function View(): Interaction
      reads this
    {
      Interaction(messages, stdoutBytes, stderrBytes, stdoutTask, stderrTask, exit, activity, waiter)
    }

    constructor (limits: Limits)
      ensures this.limits == limits
      ensures View() == Interaction([], 0, 0, Running, Running, Alive, false, Awake)
    {
      this.limits := limits;
      messages, stdoutBytes, stderrBytes := [], 0, 0;
      stdoutTask, stderrTask, exit, activity, waiter := Running, Running, Alive, false, Awake;
    }

    /** One pass of the loop in `_drain_stdout`; a failure leaves through the `finally` that sets the flag. */
    method TakeStdout(size: nat, decoded: Result<seq<Message>, Failure>)
      modifies this
      ensures View() == FeedStdout(old(View()), limits, size, decoded)
    {
      if stdoutTask.Done? {
        return;
      }
      stdoutBytes := stdoutBytes + size;
      if stdoutBytes > limits.maxStdout {
        stdoutTask := Done(Some(OutputTooLarge));
      } else if decoded.Err? {
        stdoutTask := Done(Some(decoded.error));
      } else {
        messages := messages + decoded.value;
        if |messages| > limits.maxMessages {
          stdoutTask := Done(Some(OutputTooLarge));
        }
      }
      activity := true;
    }

    method TakeStderr(size: nat)
      modifies this
      ensures View() == FeedStderr(old(View()), limits, size)
    {
      if stderrTask.Done? {
        return;
      }
      stderrBytes := stderrBytes + size;
      if stderrBytes > limits.maxStderr {
        stderrTask := Done(Some(OutputTooLarge));
        activity := true;
      }
    }

    method RaiseCompletedDrainFailures() returns (raised: Option<Failure>)
      ensures raised == DrainFailure(View())
    {
      if stdoutTask.Done? && stdoutTask.failure.Some? {
        return stdoutTask.failure;
      }
      if stderrTask.Done? {
        return stderrTask.failure;
      }
      return None;
    }

    /** One turn of `_wait_for_barrier`: the checks, then the flag cleared, the checks again, then sleep. */
    method WaitTurn(barrier: Barrier, start: nat)
      requires start <= |messages|
      modifies this
      ensures View() == WaiterPass(old(View()), barrier, start)
    {
      hide Satisfied;
      if waiter.Finished? || (waiter.Asleep? && !activity) {
        return;
      }
      var raised := RaiseCompletedDrainFailures();
      if raised.Some? {
        waiter := Finished(Failed(raised.value));
        return;
      }
      if Satisfied(barrier, messages[start..]) {
        waiter := Finished(Met);
        return;
      }
      if SideErrorMessage in messages[start..] {
        waiter := Finished(SideErrorSeen);
        return;
      }
      if exit.WatchFailed? || (exit.Exited? && exit.code < 0) {
        waiter := Finished(Failed(ProcessCrash));
        return;
      }
      if exit.Exited? && exit.code > 0 {
        waiter := Finished(Failed(UnexpectedExitCode));
        return;
      }
      if stdoutTask.Done? {
        waiter := Finished(Failed(ProtocolDesynchronization));
        return;
      }
      activity := false;
      // No task ran since the first checks, so repeating them finds nothing and the flag is still clear.
      raised := RaiseCompletedDrainFailures();
      assert raised.None? && !Satisfied(barrier, messages[start..]) && !activity;
      waiter := Asleep;
    }
  }
}
