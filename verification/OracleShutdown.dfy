/** The oracle's shutdown ladder: what each step answered, and what the runner may conclude from it. */
module OracleShutdown {
  import opened Basics

  /** One step of the ladder, with the answer it got. */
  datatype Step =
    | ExitAwaited(exited: bool)
    | Terminated(force: bool, succeeded: bool)
    | OrphansChecked(answer: OrphanAnswer)
    | JobClosed(closed: bool)

  datatype OrphanAnswer = NoOrphans | OrphansFound | VerifierFailed

  datatype ExitAnswer = HasExited | StillRunning | WatcherRaised

  /** Any behaviour of the child and the system: the first argument counts the answers given before. */
  datatype World = World(
    closesStdin: bool,
    hasExitWatcher: bool,
    hasJob: bool,
    awaitExit: nat -> ExitAnswer,
    terminate: nat -> bool,
    orphans: nat -> OrphanAnswer,
    closeJob: bool,
    exitCode: int)

  datatype Shutdown =
    | Stopped(forced: bool)
    | CleanupFailed
    | OrphanLeft
    | Unexpected

  // ----- what the answers mean -----

  predicate IsTermination(step: Step) {
    step.Terminated?
  }

  ghost predicate EverTerminated(log: seq<Step>) {
    exists i :: 0 <= i < |log| && IsTermination(log[i])
  }

  predicate StepFailed(step: Step) {
    match step
    case Terminated(_, succeeded) => !succeeded
    case OrphansChecked(answer) => answer.VerifierFailed?
    case JobClosed(closed) => !closed
    case ExitAwaited(_) => false
  }

  /** The child outlived a forced termination. */
  predicate Survived(before: Step, step: Step) {
    before.Terminated? && before.force && step == ExitAwaited(false)
  }

  ghost predicate FailedAt(log: seq<Step>, i: nat)
    requires i < |log|
  {
    StepFailed(log[i]) || (i > 0 && Survived(log[i - 1], log[i]))
  }

  ghost predicate SomeStepFailed(log: seq<Step>) {
    exists i :: 0 <= i < |log| && FailedAt(log, i)
  }

  function LastExit(log: seq<Step>): Option<bool> {
    if log == [] then None
    else if log[|log| - 1].ExitAwaited? then Some(log[|log| - 1].exited)
    else LastExit(log[..|log| - 1])
  }

  function LastOrphans(log: seq<Step>): Option<OrphanAnswer> {
    if log == [] then None
    else if log[|log| - 1].OrphansChecked? then Some(log[|log| - 1].answer)
    else LastOrphans(log[..|log| - 1])
  }

  /** The verdict the answers call for: no termination, orphan check or job closing failed and the child did not outlive
      a forced termination; then the child was seen to exit, the last orphan check decides, and the shutdown was forced
      exactly if anything was terminated. */
  ghost predicate Verdict(log: seq<Step>, r: Shutdown) {
    match r
    case CleanupFailed => SomeStepFailed(log)
    case OrphanLeft => !SomeStepFailed(log) && LastExit(log) == Some(true) && LastOrphans(log) == Some(OrphansFound)
    case Stopped(forced) =>
      && !SomeStepFailed(log) && LastExit(log) == Some(true) && LastOrphans(log) == Some(NoOrphans)
      && (forced <==> EverTerminated(log))
    case Unexpected => true
  }

  lemma {:induction false} LogGrows(log: seq<Step>, step: Step)
    ensures EverTerminated(log + [step]) <==> EverTerminated(log) || IsTermination(step)
    ensures SomeStepFailed(log + [step]) <==>
              SomeStepFailed(log) || StepFailed(step) || (log != [] && Survived(log[|log| - 1], step))
    ensures LastExit(log + [step]) == if step.ExitAwaited? then Some(step.exited) else LastExit(log)
    ensures LastOrphans(log + [step]) == if step.OrphansChecked? then Some(step.answer) else LastOrphans(log)
  {
    var all := log + [step];
    assert all[..|log|] == log && all[|log|] == step;
    if EverTerminated(log) {
      var i :| 0 <= i < |log| && IsTermination(log[i]);
      assert IsTermination(all[i]);
    }
    if EverTerminated(all) {
      var i :| 0 <= i < |all| && IsTermination(all[i]);
      assert i < |log| ==> IsTermination(log[i]);
    }
    assert forall i: nat :: i < |log| ==> (FailedAt(all, i) <==> FailedAt(log, i));
    if SomeStepFailed(log) {
      var i :| 0 <= i < |log| && FailedAt(log, i);
      assert FailedAt(all, i);
    }
    if FailedAt(all, |log|) {
      assert SomeStepFailed(all);
    }
    if SomeStepFailed(all) {
      var i :| 0 <= i < |all| && FailedAt(all, i);
      assert i < |log| ==> FailedAt(log, i);
    }
  }

  // ----- the ladder -----

  /** What the ladder can do next. */
  datatype Ask = AwaitExit | TerminateChild(force: bool) | CheckOrphans | CloseJob

  function AskOf(step: Step): Ask {
    match step
    case ExitAwaited(_) => AwaitExit
    case Terminated(force, _) => TerminateChild(force)
    case OrphansChecked(_) => CheckOrphans
    case JobClosed(_) => CloseJob
  }

  /** The step that must follow the answers so far, or `None` when the ladder is done. */
  function NextAsk(world: World, log: seq<Step>): Option<Ask> {
    if log == [] then Some(AwaitExit) else
    var last := |log| - 1;
    match log[last]
    case ExitAwaited(exited) =>
      if !exited && last == 0 then Some(TerminateChild(false))
      else if !exited && log[last - 1] == Terminated(false, true) then Some(TerminateChild(true))
      else Some(CheckOrphans)
    case Terminated(force, succeeded) => Some(if force || succeeded then AwaitExit else TerminateChild(true))
    case OrphansChecked(answer) =>
      if !answer.NoOrphans? && LastOrphans(log[..last]).None? then Some(TerminateChild(true))
      else if world.hasJob then Some(CloseJob)
      else None
    case JobClosed(_) => None
  }

  /** The step at position `at` reports what the world answered then. */
  predicate Answered(world: World, at: nat, step: Step) {
    match step
    case ExitAwaited(exited) => world.awaitExit(at) == if exited then HasExited else StillRunning
    case Terminated(_, succeeded) => succeeded == world.terminate(at)
    case OrphansChecked(answer) => answer == world.orphans(at)
    case JobClosed(closed) => closed == world.closeJob
  }

  /** Every step is the one the answers before it call for, and reports the world's answer. */
  ghost predicate Climbed(world: World, log: seq<Step>) {
    forall i :: 0 <= i < |log| ==>
      NextAsk(world, log[..i]) == Some(AskOf(log[i])) && Answered(world, i, log[i])
  }

  lemma ClimbOn(world: World, log: seq<Step>, step: Step)
    requires Climbed(world, log) && NextAsk(world, log) == Some(AskOf(step)) && Answered(world, |log|, step)
    ensures Climbed(world, log + [step]) && (log + [step])[..|log|] == log
  {
    hide NextAsk;
    var all := log + [step];
    forall i | 0 <= i < |all| ensures NextAsk(world, all[..i]) == Some(AskOf(all[i])) && Answered(world, i, all[i]) {
      if i < |log| {
        assert all[..i] == log[..i] && all[i] == log[i];
      } else {
        assert all[..i] == log;
      }
    }
  }

  lemma NextAfter(world: World, log: seq<Step>, step: Step)
    ensures NextAsk(world, log + [step])
         == match step
            case ExitAwaited(exited) =>
              Some(if !exited && log == [] then TerminateChild(false)
                   else if !exited && log[|log| - 1] == Terminated(false, true) then TerminateChild(true)
                   else CheckOrphans)
            case Terminated(force, succeeded) => Some(if force || succeeded then AwaitExit else TerminateChild(true))
            case OrphansChecked(answer) =>
              if !answer.NoOrphans? && LastOrphans(log).None? then Some(TerminateChild(true))
              else if world.hasJob then Some(CloseJob)
              else None
            case JobClosed(_) => None
  {
    assert (log + [step])[..|log|] == log;
    hide LastOrphans;
  }

  /** A world allows only one log: two that follow its answers agree as far as both go. */
  lemma {:induction false} AnswersDetermineTheLog(world: World, shorter: seq<Step>, longer: seq<Step>)
    requires Climbed(world, shorter) && Climbed(world, longer) && |shorter| <= |longer|
    ensures shorter <= longer
    ensures NextAsk(world, shorter).None? ==> shorter == longer
  {
    hide NextAsk, LastOrphans;
    if shorter != [] {
      var last := |shorter| - 1;
      assert Climbed(world, shorter[..last]) by { ClimbedPrefix(world, shorter, last); }
      AnswersDetermineTheLog(world, shorter[..last], longer);
      assert shorter[..last] == longer[..last];
      assert AskOf(shorter[last]) == AskOf(longer[last]);
      assert Answered(world, last, shorter[last]) && Answered(world, last, longer[last]);
      assert shorter == shorter[..last] + [shorter[last]] && longer[..last + 1] == longer[..last] + [longer[last]];
    }
    assert longer[..|shorter|] == shorter;
    assert |shorter| < |longer| ==> NextAsk(world, longer[..|shorter|]) == Some(AskOf(longer[|shorter|]));
  }

  lemma ClimbedPrefix(world: World, log: seq<Step>, n: nat)
    requires Climbed(world, log) && n <= |log|
    ensures Climbed(world, log[..n])
  {
    hide NextAsk;
    forall i | 0 <= i < n
      ensures NextAsk(world, log[..n][..i]) == Some(AskOf(log[..n][i])) && Answered(world, i, log[..n][i])
    {
      assert log[..n][..i] == log[..i] && log[..n][i] == log[i];
    }
  }

  /** One child process being shut down; `log` holds what was asked of it and answered. */
  class ProcessRunner {
    const world: World
    var log: seq<Step>

    constructor (world: World)
      ensures this.world == world && log == []
    {
      this.world := world;
      log := [];
    }

    /** `_wait_for_exit_with_deadline`; an exception of the watcher passes through. */
    method WaitForExit() returns (exited: bool, raised: bool)
      requires Climbed(world, log) && NextAsk(world, log) == Some(AwaitExit)
      modifies this
      ensures Climbed(world, log)
      ensures raised <==> world.awaitExit(|old(log)|).WatcherRaised?
      ensures raised ==> log == old(log) && !exited
      ensures !raised ==> log == old(log) + [ExitAwaited(exited)]
    {
      hide NextAsk, Climbed;
      var answer := world.awaitExit(|log|);
      if answer.WatcherRaised? {
        return false, true;
      }
      exited, raised := answer.HasExited?, false;
      ClimbOn(world, log, ExitAwaited(exited));
      log := log + [ExitAwaited(exited)];
    }

    /** `_terminate_with_deadline`. */
    method Terminate(force: bool) returns (succeeded: bool)
      requires Climbed(world, log) && NextAsk(world, log) == Some(TerminateChild(force))
      modifies this
      ensures Climbed(world, log)
      ensures succeeded == world.terminate(|old(log)|) && log == old(log) + [Terminated(force, succeeded)]
    {
      hide NextAsk, Climbed;
      succeeded := world.terminate(|log|);
      ClimbOn(world, log, Terminated(force, succeeded));
      log := log + [Terminated(force, succeeded)];
    }

    /** `_orphan_status`. */
    method OrphanStatus() returns (orphaned: bool, verifierFailed: bool)
      requires Climbed(world, log) && NextAsk(world, log) == Some(CheckOrphans)
      modifies this
      ensures Climbed(world, log)
      ensures orphaned == world.orphans(|old(log)|).OrphansFound?
      ensures verifierFailed == world.orphans(|old(log)|).VerifierFailed?
      ensures log == old(log) + [OrphansChecked(world.orphans(|old(log)|))]
    {
      hide NextAsk, Climbed;
      var answer := world.orphans(|log|);
      orphaned, verifierFailed := answer.OrphansFound?, answer.VerifierFailed?;
      ClimbOn(world, log, OrphansChecked(answer));
      log := log + [OrphansChecked(answer)];
    }

    method CloseProcessJob() returns (closed: bool)
      requires Climbed(world, log) && NextAsk(world, log) == Some(CloseJob)
      modifies this
      ensures Climbed(world, log)
      ensures closed == world.closeJob && log == old(log) + [JobClosed(closed)]
    {
      hide NextAsk, Climbed;
      closed := world.closeJob;
      ClimbOn(world, log, JobClosed(closed));
      log := log + [JobClosed(closed)];
    }

    /** The ladder ended because nothing was left to do, or because the exit watcher raised. */
    ghost predicate Concludes(r: Shutdown)
      reads this
    {
      if r.Unexpected? then NextAsk(world, log) == Some(AwaitExit) && world.awaitExit(|log|).WatcherRaised?
      else NextAsk(world, log).None?
    }

    /** `_finish_orphan_check`. */
    method FinishOrphanCheck(failedBefore: bool, forcedBefore: bool) returns (r: Shutdown)
      requires Climbed(world, log) && NextAsk(world, log) == Some(CheckOrphans) && LastOrphans(log).None?
      requires failedBefore <==> SomeStepFailed(log)
      requires !failedBefore ==> LastExit(log) == Some(true)
      requires log != [] && !log[|log| - 1].Terminated?
      requires forcedBefore <==> EverTerminated(log)
      modifies this
      ensures old(log) <= log && Climbed(world, log) && Concludes(r)
      ensures Verdict(log, r)
      ensures r.Stopped? && world.hasJob ==> log[|log| - 1] == JobClosed(true)
    {
      hide SomeStepFailed, EverTerminated, LastExit, LastOrphans, Climbed;
      var cleanupFailed, forced := failedBefore, forcedBefore;
      ghost var was := log;
      var orphaned, verifierFailed := OrphanStatus();
      LogGrows(was, log[|was|]);
      cleanupFailed := cleanupFailed || verifierFailed;
      if orphaned || verifierFailed {
        forced := true;
        was := log;
        var contained := Terminate(true);
        LogGrows(was, log[|was|]);
        cleanupFailed := cleanupFailed || !contained;
        was := log;
        var exited, raised := WaitForExit();
        if raised {
          return Unexpected;
        }
        LogGrows(was, log[|was|]);
        cleanupFailed := cleanupFailed || !exited;
        was := log;
        var finalVerifierFailed;
        orphaned, finalVerifierFailed := OrphanStatus();
        LogGrows(was, log[|was|]);
        cleanupFailed := cleanupFailed || finalVerifierFailed;
      }
      if world.hasJob {
        was := log;
        var closed := CloseProcessJob();
        LogGrows(was, log[|was|]);
        cleanupFailed := cleanupFailed || !closed;
      }
      if cleanupFailed {
        return CleanupFailed;
      }
      if orphaned {
        return OrphanLeft;
      }
      return Stopped(forced);
    }

    /** The termination rungs of `_shutdown`: ask the child to end, then kill it. */
    method Escalate() returns (cleanupFailed: bool, raised: bool)
      requires Climbed(world, log) && log == [ExitAwaited(false)]
      modifies this
      ensures old(log) < log && Climbed(world, log)
      ensures raised ==> NextAsk(world, log) == Some(AwaitExit) && world.awaitExit(|log|).WatcherRaised?
      ensures !raised ==>
                && NextAsk(world, log) == Some(CheckOrphans) && LastOrphans(log).None?
                && log[|log| - 1].ExitAwaited? && EverTerminated(log)
                && (cleanupFailed <==> SomeStepFailed(log))
                && (!cleanupFailed ==> LastExit(log) == Some(true))
    {
      NothingDone();
      hide NextAsk, SomeStepFailed, EverTerminated, LastExit, LastOrphans, Climbed;
      ghost var was := log;
      LogGrows([], ExitAwaited(false));
      NextAfter(world, [], ExitAwaited(false));
      assert [] + [ExitAwaited(false)] == log;
      var terminated := Terminate(false);
      LogGrows(was, log[|was|]);
      NextAfter(world, was, log[|was|]);
      cleanupFailed, raised := !terminated, false;
      var exited := false;
      if !cleanupFailed {
        was := log;
        exited, raised := WaitForExit();
        if raised {
          return;
        }
        LogGrows(was, log[|was|]);
        NextAfter(world, was, log[|was|]);
      }
      if !exited {
        var killFailed;
        killFailed, raised := Kill();
        cleanupFailed := cleanupFailed || killFailed;
      }
    }

    /** The last rung: a forced termination, and the child's exit. */
    method Kill() returns (failed: bool, raised: bool)
      requires Climbed(world, log) && NextAsk(world, log) == Some(TerminateChild(true))
      modifies this
      ensures old(log) < log && Climbed(world, log)
      ensures raised ==> NextAsk(world, log) == Some(AwaitExit) && world.awaitExit(|log|).WatcherRaised?
      ensures !raised ==>
                && NextAsk(world, log) == Some(CheckOrphans) && LastOrphans(log) == LastOrphans(old(log))
                && log[|log| - 1].ExitAwaited? && EverTerminated(log)
                && (SomeStepFailed(log) <==> SomeStepFailed(old(log)) || failed)
                && (!failed ==> LastExit(log) == Some(true))
    {
      hide NextAsk, SomeStepFailed, EverTerminated, LastExit, LastOrphans, Climbed;
      ghost var was := log;
      var killed := Terminate(true);
      LogGrows(was, log[|was|]);
      NextAfter(world, was, log[|was|]);
      was := log;
      var exited;
      exited, raised := WaitForExit();
      failed := !killed || !exited;
      if !raised {
        LogGrows(was, log[|was|]);
        NextAfter(world, was, log[|was|]);
      }
    }

    /** `_shutdown`: wait for the child, then terminate it, then look for orphans. */
    method ShutDown() returns (r: Shutdown)
      requires log == []
      modifies this
      ensures Climbed(world, log)
      ensures world.closesStdin && world.hasExitWatcher ==> Concludes(r) && Verdict(log, r)
      ensures !world.closesStdin ==> r == Unexpected && log == []
      ensures world.closesStdin && !world.hasExitWatcher ==> r == CleanupFailed && log == []
      ensures r.Stopped? ==>
                LastExit(log) == Some(true) && LastOrphans(log) == Some(NoOrphans)
                && (world.hasJob ==> log != [] && log[|log| - 1] == JobClosed(true))
    {
      NothingDone();
      NothingClimbed(world);
      hide SomeStepFailed, EverTerminated, LastExit, LastOrphans, Climbed, NextAsk;
      if !world.closesStdin {
        return Unexpected;
      }
      if !world.hasExitWatcher {
        return CleanupFailed;
      }
      var exited, raised := WaitForExit();
      if raised {
        return Unexpected;
      }
      FirstWait(world, log, exited);
      var cleanupFailed := false;
      if !exited {
        cleanupFailed, raised := Escalate();
        if raised {
          return Unexpected;
        }
      }
      r := FinishOrphanCheck(cleanupFailed, !exited);
    }

    /** The `finally` of `run` and what follows it: shut the child down and conclude from the answers it gave. */
    method FinishRun(
      interaction: Option<FailureClass>, sideError: bool, drains: Drains, networkMarker: bool, exitedSince: bool)
      returns (r: Result<RunResult, FailureClass>)
      requires log == []
      modifies this
      ensures Climbed(world, log)
      ensures r.Ok? ==>
                && NextAsk(world, log).None? && !SomeStepFailed(log)
                && LastExit(log) == Some(true) && LastOrphans(log) == Some(NoOrphans)
                && r.value.returnCode == world.exitCode && (r.value.forcedShutdown <==> EverTerminated(log))
                && (world.exitCode != 0 ==> EverTerminated(log))
                && interaction.None? && !networkMarker
      ensures world.closesStdin && world.hasExitWatcher && SomeStepFailed(log) && !networkMarker ==>
                r == Err(ShutdownFailed)
    {
      hide SomeStepFailed, EverTerminated, LastOrphans, Climbed;
      var shutdown := ShutDown();
      var exitCode := if LastExit(log) == Some(true) || exitedSince then Some(world.exitCode) else None;
      hide LastExit;
      r := ConcludeRun(interaction, sideError, shutdown, drains, networkMarker, exitCode);
    }
  }

  /** When each rung is climbed: first the child is awaited; it is asked to end once, if it then still runs; it is
      killed only if asking failed or did not end it, or if an orphan check found something or failed; orphans are
      looked for once the child was awaited after the last termination; and the job is closed after the last check,
      once. */
  lemma {:induction false} Rungs(world: World, log: seq<Step>, i: nat)
    requires Climbed(world, log) && i < |log|
    ensures match log[i]
            case ExitAwaited(_) => i == 0 || log[i - 1].Terminated?
            case Terminated(force, _) =>
              if !force then i == 1 && log[0] == ExitAwaited(false)
              else i > 0 && (|| log[i - 1] == Terminated(false, false)
                             || (i > 1 && log[i - 1] == ExitAwaited(false) && log[i - 2] == Terminated(false, true))
                             || (log[i - 1].OrphansChecked? && !log[i - 1].answer.NoOrphans?))
            case OrphansChecked(_) => i > 0 && log[i - 1].ExitAwaited?
            case JobClosed(_) => i > 0 && log[i - 1].OrphansChecked? && world.hasJob && i == |log| - 1
  {
    hide LastOrphans;
    assert NextAsk(world, log[..i]) == Some(AskOf(log[i]));
    if i + 1 < |log| {
      assert NextAsk(world, log[..i + 1]) == Some(AskOf(log[i + 1]));
      assert log[..i + 1][i] == log[i];
    }
    if i > 0 { assert log[..i][i - 1] == log[i - 1]; }
    if i > 1 { assert log[..i][i - 2] == log[i - 2]; }
  }

  lemma NothingDone()
    ensures !SomeStepFailed([]) && !EverTerminated([]) && LastExit([]).None? && LastOrphans([]).None?
  {}

  lemma NothingClimbed(world: World)
    ensures Climbed(world, []) && NextAsk(world, []) == Some(AwaitExit)
  {}

  lemma FirstWait(world: World, log: seq<Step>, exited: bool)
    requires log == [ExitAwaited(exited)]
    ensures NextAsk(world, log) == Some(if exited then CheckOrphans else TerminateChild(false))
    ensures !SomeStepFailed(log) && !EverTerminated(log) && LastExit(log) == Some(exited) && LastOrphans(log).None?
  {
    hide SomeStepFailed, EverTerminated, LastExit, LastOrphans, NextAsk;
    NothingDone();
    LogGrows([], ExitAwaited(exited));
    NextAfter(world, [], ExitAwaited(exited));
    assert [] + [ExitAwaited(exited)] == log;
  }

  // ----- the end of a run -----

  datatype FailureClass =
    | MalformedOutput | ProtocolDesynchronization | OutputTooLarge | ExternalNetworkAttempt | ProcessCrash
    | UnexpectedExitCode | ShutdownFailed | OrphanedChildProcess | OtherFailure(name: string)

  datatype RunResult = RunResult(returnCode: int, forcedShutdown: bool, sideError: bool)

  /** `_prefer_independent_exit_failure`. */
  function PreferExitFailure(pending: FailureClass, exitCode: Option<int>, forced: bool): FailureClass {
    if forced || !(pending.MalformedOutput? || pending.ProtocolDesynchronization?) || exitCode.None? then pending
    else if exitCode.value < 0 then ProcessCrash
    else if exitCode.value > 0 then UnexpectedExitCode
    else pending
  }

  /** What a failed shutdown leaves pending. */
  function AfterShutdown(pending: Option<FailureClass>, shutdown: Shutdown): Option<FailureClass> {
    match shutdown
    case Stopped(_) => pending
    case CleanupFailed => Some(ShutdownFailed)
    case Unexpected => Some(ShutdownFailed)
    case OrphanLeft => if pending.None? then Some(OrphanedChildProcess) else pending
  }

  /** How the streams ended after the child did: drained in time or not, and the failure a reader raised. */
  datatype Drains = Drains(closedInTime: bool, stdoutFailure: Option<FailureClass>, stderrFailure: Option<FailureClass>)

  predicate DrainsFailed(drains: Drains) {
    !drains.closedInTime || drains.stdoutFailure.Some? || drains.stderrFailure.Some?
  }

  /** An exit with a code of its own explains output that made no sense. */
  predicate ExitOutranks(failure: FailureClass, exitCode: Option<int>, forced: bool) {
    !forced && (failure.MalformedOutput? || failure.ProtocolDesynchronization?)
    && exitCode.Some? && exitCode.value != 0
  }

  /** A child that died of a signal crashed; one that chose its code exited unexpectedly. */
  function ExitClass(code: int): FailureClass {
    if code < 0 then ProcessCrash else UnexpectedExitCode
  }

  /** The part of `run` after the interaction, for a child that was started. `exitCode` is what the exit watcher
      returned; it is absent only while the child runs, and then the shutdown has not succeeded. */
  method ConcludeRun(
    interaction: Option<FailureClass>, sideError: bool, shutdown: Shutdown, drains: Drains, networkMarker: bool,
    exitCode: Option<int>)
    returns (r: Result<RunResult, FailureClass>)
    requires shutdown.Stopped? ==> exitCode.Some?
    ensures r.Ok? <==>
              && shutdown.Stopped? && interaction.None? && !networkMarker
              && (sideError || (drains.closedInTime && drains.stdoutFailure.None? && drains.stderrFailure.None?))
              && (exitCode.value == 0 || shutdown.forced)
    ensures r.Ok? ==> r.value == RunResult(exitCode.value, shutdown.forced, sideError)
    ensures r.Ok? && r.value.returnCode != 0 ==> r.value.forcedShutdown
    ensures (shutdown.CleanupFailed? || shutdown.Unexpected?) && !networkMarker ==> r == Err(ShutdownFailed)
    ensures networkMarker && (interaction.Some? || sideError || !shutdown.Stopped?) ==> r == Err(ExternalNetworkAttempt)
    ensures shutdown.Stopped? && interaction.None? && !sideError && DrainsFailed(drains) && drains.closedInTime ==>
              r == Err(if drains.stdoutFailure.Some? then drains.stdoutFailure.value else drains.stderrFailure.value)
    ensures shutdown.Stopped? && interaction.None? && !sideError && !drains.closedInTime ==>
              r == Err(if networkMarker then ExternalNetworkAttempt else ShutdownFailed)
    ensures (shutdown.Stopped? || shutdown.OrphanLeft?) && interaction.Some? && !networkMarker ==>
              var forced := shutdown.Stopped? && shutdown.forced;
              r == Err(if ExitOutranks(interaction.value, exitCode, forced) then ExitClass(exitCode.value)
                       else interaction.value)
    ensures shutdown.OrphanLeft? && interaction.None? && !networkMarker ==> r == Err(OrphanedChildProcess)
    ensures shutdown.Stopped? && interaction.None? && !networkMarker && (sideError || !DrainsFailed(drains))
            && r.Err? ==>
              r == Err(ExitClass(exitCode.value))
  {
    var pending := AfterShutdown(interaction, shutdown);
    var forced := shutdown.Stopped? && shutdown.forced;
    if pending.None? && !sideError && !drains.closedInTime {
      pending := Some(ShutdownFailed);
    }
    if pending.None? && !sideError {
      if drains.stdoutFailure.Some? {
        return Err(drains.stdoutFailure.value);
      }
      if drains.stderrFailure.Some? {
        return Err(drains.stderrFailure.value);
      }
    }
    if networkMarker {
      return Err(ExternalNetworkAttempt);
    }
    if pending.Some? {
      return Err(PreferExitFailure(pending.value, exitCode, forced));
    }
    var code := exitCode.value;
    if code < 0 && !forced {
      return Err(ProcessCrash);
    }
    if code > 0 && !forced {
      return Err(UnexpectedExitCode);
    }
    return Ok(RunResult(code, forced, sideError));
  }
}
