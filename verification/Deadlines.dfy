/** Time, cancellation and exit status over whole runs: how long Run waits, what ends its context, and which exit status
    it leaves in the diagnostics (internal/runner/process.go:139-192, internal/runner/collector.go:138-277). */
module Deadlines {
  import opened Strings
  import opened Lifecycle

  // ----- how long Run waits -----

  /** The timer after a step: two seconds for a version query, three for a graceful exit, one for a killed process. */
  function Timer(s: State, step: Step): nat
  {
    if step == RunOpening(StartVersion) then s.now + 2000
    else if step == RunShutdown(TermSent) then s.now + 3000
    else if step == RunShutdown(GraceKills) || step == RunCleanup(LeftoverKilled) then s.now + 1000
    else s.timer
  }

  /** Run does not move the clock, end its context or expire its start-up deadline. */
  predicate LeavesWorld(s: State, t: State)
  {
    t.now == s.now && t.ctx == s.ctx && t.startupExpired == s.startupExpired
  }

  lemma OpeningTimes(s: State, a: Opening)
    requires CanOpening(s, a)
    ensures LeavesWorld(s, DoOpening(s, a)) && DoOpening(s, a).timer == Timer(s, RunOpening(a))
  {
    match a {
      case PreflightFails(c) =>
      case ChecksumInterrupted =>
      case StartVersion =>
      case SkipVersion =>
      case VersionFinished =>
      case VersionKilled =>
      case VersionAbandoned =>
      case VersionInterrupted =>
      case NothingToRun =>
      case Proceed =>
      case SetupFails(c) =>
      case SetupDone =>
    }
  }

  lemma LaunchTimes(s: State, a: Launch)
    requires CanLaunch(s, a)
    ensures LeavesWorld(s, DoLaunch(s, a)) && DoLaunch(s, a).timer == Timer(s, RunLaunch(a))
  {
    match a {
      case LoopExhausted =>
      case StartupTooLate =>
      case BeginAttempt =>
      case PrepareFails(c) =>
      case ChildStarts =>
      case ClientRefused =>
      case Connected =>
      case ConnectGivesUp =>
      case ReadinessSeen =>
      case ReadinessGivesUp =>
    }
  }

  lemma VerdictTimes(s: State, a: Verdict)
    requires CanVerdict(s, a)
    ensures LeavesWorld(s, DoVerdict(s, a)) && DoVerdict(s, a).timer == Timer(s, RunVerdict(a))
  {
    match a {
      case StartConfirmed =>
      case StartedButExited =>
      case Retry =>
      case ExitedInStartup(c) =>
      case StillUp =>
      case StartupSinkFailed =>
      case StartupSinkFine =>
      case NeverReady =>
      case NoConnection =>
      case LoopLeft =>
    }
  }

  lemma DeliveryTimes(s: State, a: Delivery)
    requires CanDelivery(s, a)
    ensures LeavesWorld(s, DoDelivery(s, a)) && DoDelivery(s, a).timer == Timer(s, RunDelivery(a))
  {
    match a {
      case ExportAccepted =>
      case SubmissionDone =>
      case ExportFails =>
      case SubmitInterrupted =>
      case SubmitContextFine =>
      case SubmitRejected =>
      case SettleInterrupted =>
      case SettleExit =>
      case SettleSinkFailed =>
      case SettleElapsed =>
      case DiedBeforeStop =>
      case AliveToStop =>
    }
  }

  lemma ShutdownTimes(s: State, a: Shutdown)
    requires CanShutdown(s, a)
    ensures LeavesWorld(s, DoShutdown(s, a)) && DoShutdown(s, a).timer == Timer(s, RunShutdown(a))
  {
    match a {
      case AlreadyExited =>
      case TermSent =>
      case TermFails =>
      case GraceExit =>
      case GraceKills =>
      case GraceKillFails =>
      case ReapExit =>
      case ReapOver =>
      case StopFailed =>
      case UncleanExit =>
      case CleanExit =>
      case FinalInterrupted =>
      case FinalContextFine =>
      case ExportReported =>
      case RunSucceeds =>
    }
  }

  lemma CleanupTimes(s: State, a: Cleanup)
    requires CanCleanup(s, a)
    ensures LeavesWorld(s, DoCleanup(s, a)) && DoCleanup(s, a).timer == Timer(s, RunCleanup(a))
  {
    match a {
      case NoLeftover =>
      case AlreadyGone =>
      case LeftoverKilled =>
      case LeftoverUnkillable =>
      case LeftoverGone =>
      case LeftoverStuck =>
      case SinkDrained =>
      case SinkDrainTimedOut =>
      case OutputCaptured =>
      case CaptureFailed =>
      case DirRemoved =>
      case DirStuck =>
    }
  }

  lemma StepTimes(s: State, step: Step)
    requires Enabled(s, step)
    ensures Next(s, step).timer == Timer(s, step) && (!step.Env? ==> LeavesWorld(s, Next(s, step)))
  {
    hide CanOpening, CanLaunch, CanVerdict, CanDelivery, CanShutdown, CanCleanup, May, DoOpening, DoLaunch, DoVerdict,
      DoDelivery, DoShutdown, DoCleanup, Happen, LeavesWorld;
    match step {
      case RunOpening(a) => OpeningTimes(s, a);
      case RunLaunch(a) => LaunchTimes(s, a);
      case RunVerdict(a) => VerdictTimes(s, a);
      case RunDelivery(a) => DeliveryTimes(s, a);
      case RunShutdown(a) => ShutdownTimes(s, a);
      case RunCleanup(a) => CleanupTimes(s, a);
      case Env(e) => EventTouches(s, e);
    }
  }

  /** A process is killed or given up only when its time is over or, where the context is watched, the context is. */
  lemma KillsAreLate(s: State, step: Step)
    requires Enabled(s, step)
    ensures step == RunOpening(VersionKilled) || step == RunOpening(VersionAbandoned) ==>
              s.now >= s.timer || s.ctx != Active
    ensures step == RunShutdown(GraceKills) || step == RunShutdown(GraceKillFails) ==>
              s.now >= s.timer || s.ctx != Active
    ensures step == RunShutdown(ReapOver) || step == RunCleanup(LeftoverStuck) ==> s.now >= s.timer
  {
    hide CanLaunch, CanVerdict, CanDelivery, May;
  }

  // ----- what ends the context, and the clock -----

  /** The first event that ends the context decides how it ended. */
  function FirstEnd(steps: seq<Step>): Context
  {
    if steps == [] then Active else
    var earlier := FirstEnd(steps[..|steps| - 1]);
    var last := steps[|steps| - 1];
    if earlier != Active then earlier
    else if last == Env(CallerCancels) then Canceled
    else if last == Env(RunExpires) then TimedOut
    else Active
  }

  function Ticks(steps: seq<Step>): nat
  {
    if steps == [] then 0 else
    Ticks(steps[..|steps| - 1]) + if steps[|steps| - 1] == Env(Tick) then 1 else 0
  }

  lemma EventEnds(s: State, e: Event)
    requires May(s, e)
    ensures Happen(s, e).ctx == if e == CallerCancels then Canceled else if e == RunExpires then TimedOut else s.ctx
    ensures (e == CallerCancels || e == RunExpires) ==> s.ctx == Active
    ensures Happen(s, e).now == s.now + if e == Tick then 1 else 0
  {
    match e {
      case ChildExits(x) =>
      case ReadyLine =>
      case ExportFailureLine =>
      case BindConflictLine =>
      case ConflictScrolledOff =>
      case VersionExits(x) =>
      case CallerCancels =>
      case RunExpires =>
      case StartupExpires =>
      case CaptureFails(c) =>
      case Tick =>
    }
  }

  /** In every run the context is over as the first event that ended it says, and the time is the number of ticks. */
  lemma {:induction false} ContextIsFirstEnd(cfg: Config, steps: seq<Step>)
    requires After(cfg, steps).Some?
    ensures After(cfg, steps).value.ctx == FirstEnd(steps) && After(cfg, steps).value.now == Ticks(steps)
  {
    hide Enabled, Next;
    if steps != [] {
      var before, step := steps[..|steps| - 1], steps[|steps| - 1];
      ContextIsFirstEnd(cfg, before);
      StepEnds(After(cfg, before).value, step);
    }
  }

  lemma StepEnds(s: State, step: Step)
    requires Enabled(s, step)
    ensures var t := Next(s, step);
            t.ctx == (if s.ctx != Active then s.ctx else if step == Env(CallerCancels) then Canceled
                      else if step == Env(RunExpires) then TimedOut else Active) &&
            t.now == s.now + if step == Env(Tick) then 1 else 0
  {
    hide CanOpening, CanLaunch, CanVerdict, CanDelivery, CanShutdown, CanCleanup, May, DoOpening, DoLaunch, DoVerdict,
      DoDelivery, DoShutdown, DoCleanup, Happen;
    StepTimes(s, step);
    if step.Env? {
      EventEnds(s, step.event);
    }
  }

  // ----- three seconds of grace -----

  /** The Collector is given three seconds after stopping began, unless the context is over. */
  predicate Graced(s: State)
  {
    (s.pc == GRACE ==> s.timer >= s.stopAt + 3000) &&
    (s.pc == REAP ==> s.ctx != Active || s.now >= s.stopAt + 3000) &&
    (s.pc == STOP_ERRED && s.stopError != Some(SignalFailed) ==> s.ctx != Active || s.now >= s.stopAt + 3000)
  }

  lemma ShutdownKeepsGrace(s: State, a: Shutdown)
    requires ProgressInv(s) && Graced(s) && CanShutdown(s, a)
    ensures Graced(DoShutdown(s, a))
  {
    match a {
      case AlreadyExited =>
      case TermSent =>
      case TermFails =>
      case GraceExit =>
      case GraceKills =>
      case GraceKillFails =>
      case ReapExit =>
      case ReapOver =>
      case StopFailed =>
      case UncleanExit =>
      case CleanExit =>
      case FinalInterrupted =>
      case FinalContextFine =>
      case ExportReported =>
      case RunSucceeds =>
    }
  }

  lemma EventKeepsGrace(s: State, e: Event)
    requires Graced(s) && May(s, e)
    ensures Graced(Happen(s, e))
  {
    hide May, Happen;
    EventTouches(s, e);
    EventKeepsFinal(s, e);
  }

  lemma OpeningIsElsewhere(s: State, a: Opening)
    requires CanOpening(s, a)
    ensures DoOpening(s, a).pc !in {GRACE, REAP, STOP_ERRED}
  {
    match a {
      case PreflightFails(c) =>
      case ChecksumInterrupted =>
      case StartVersion =>
      case SkipVersion =>
      case VersionFinished =>
      case VersionKilled =>
      case VersionAbandoned =>
      case VersionInterrupted =>
      case NothingToRun =>
      case Proceed =>
      case SetupFails(c) =>
      case SetupDone =>
    }
  }

  lemma LaunchIsElsewhere(s: State, a: Launch)
    requires CanLaunch(s, a)
    ensures DoLaunch(s, a).pc !in {GRACE, REAP, STOP_ERRED}
  {
    match a {
      case LoopExhausted =>
      case StartupTooLate =>
      case BeginAttempt =>
      case PrepareFails(c) =>
      case ChildStarts =>
      case ClientRefused =>
      case Connected =>
      case ConnectGivesUp =>
      case ReadinessSeen =>
      case ReadinessGivesUp =>
    }
  }

  lemma VerdictIsElsewhere(s: State, a: Verdict)
    requires CanVerdict(s, a)
    ensures DoVerdict(s, a).pc !in {GRACE, REAP, STOP_ERRED}
  {
    match a {
      case StartConfirmed =>
      case StartedButExited =>
      case Retry =>
      case ExitedInStartup(c) =>
      case StillUp =>
      case StartupSinkFailed =>
      case StartupSinkFine =>
      case NeverReady =>
      case NoConnection =>
      case LoopLeft =>
    }
  }

  lemma DeliveryIsElsewhere(s: State, a: Delivery)
    requires CanDelivery(s, a)
    ensures DoDelivery(s, a).pc !in {GRACE, REAP, STOP_ERRED}
  {
    match a {
      case ExportAccepted =>
      case SubmissionDone =>
      case ExportFails =>
      case SubmitInterrupted =>
      case SubmitContextFine =>
      case SubmitRejected =>
      case SettleInterrupted =>
      case SettleExit =>
      case SettleSinkFailed =>
      case SettleElapsed =>
      case DiedBeforeStop =>
      case AliveToStop =>
    }
  }

  lemma CleanupIsElsewhere(s: State, a: Cleanup)
    requires CanCleanup(s, a)
    ensures DoCleanup(s, a).pc !in {GRACE, REAP, STOP_ERRED}
  {
    match a {
      case NoLeftover =>
      case AlreadyGone =>
      case LeftoverKilled =>
      case LeftoverUnkillable =>
      case LeftoverGone =>
      case LeftoverStuck =>
      case SinkDrained =>
      case SinkDrainTimedOut =>
      case OutputCaptured =>
      case CaptureFailed =>
      case DirRemoved =>
      case DirStuck =>
    }
  }

  lemma StepKeepsGrace(s: State, step: Step)
    requires ProgressInv(s) && Graced(s) && Enabled(s, step)
    ensures Graced(Next(s, step))
  {
    hide ProgressInv, CanOpening, CanLaunch, CanVerdict, CanDelivery, CanShutdown, CanCleanup, May, DoOpening, DoLaunch,
      DoVerdict, DoDelivery, DoShutdown, DoCleanup, Happen;
    match step {
      case RunOpening(a) => OpeningIsElsewhere(s, a);
      case RunLaunch(a) => LaunchIsElsewhere(s, a);
      case RunVerdict(a) => VerdictIsElsewhere(s, a);
      case RunDelivery(a) => DeliveryIsElsewhere(s, a);
      case RunShutdown(a) => ShutdownKeepsGrace(s, a);
      case RunCleanup(a) => CleanupIsElsewhere(s, a);
      case Env(e) => EventKeepsGrace(s, e);
    }
  }

  /** In every run: force is used against a Collector only three seconds after stopping began, or when the context is
      over. */
  lemma {:induction false} GraceIsGiven(cfg: Config, steps: seq<Step>)
    requires After(cfg, steps).Some?
    ensures Graced(After(cfg, steps).value)
  {
    hide Enabled, Next, Inv;
    if steps != [] {
      var before, step := steps[..|steps| - 1], steps[|steps| - 1];
      GraceIsGiven(cfg, before);
      EveryRunKeepsInv(cfg, before);
      ProgressHolds(After(cfg, before).value);
      StepKeepsGrace(After(cfg, before).value, step);
    }
  }

  lemma ProgressHolds(s: State)
    requires Inv(s)
    ensures ProgressInv(s) && AttemptsInv(s) && OutcomeInv(s)
  {
    hide AttemptsInv, FailureInv, SinkInv, VersionInv, ProgressInv, OutcomeInv, CauseInv;
  }

  // ----- the exit status in the diagnostics -----

  /** The status left when Run has returned. */
  function Left(s: State): ExitStatus
  {
    if s.started == 0 then NotStarted
    else if s.child.Absent? then StillRunning
    else if s.forced then Forced
    else if s.child == Gone(Signaled) then KilledBySignal
    else Exited
  }

  predicate StatusInv(s: State)
  {
    (s.started == 0 ==> s.exitStatus == NotStarted && s.child.Absent?) &&
    (s.started > 0 && s.pc >= STOP_DONE ==> s.exitStatus == StillRunning) &&
    (s.started > 0 && s.child.Absent? ==> s.pc <= CLEANUP_PROCESS && s.exitStatus == StillRunning) &&
    (s.pc == CLEANUP_REAP ==> s.forced && !s.child.Absent?) && (s.pc <= CLOSE_SINK && s.child.Live? ==> s.forced) &&
    (s.pc <= CLOSE_SINK ==> s.exitStatus == Left(s))
  }

  lemma OpeningKeepsStatus(s: State, a: Opening)
    requires AttemptsInv(s) && StatusInv(s) && CanOpening(s, a)
    ensures StatusInv(DoOpening(s, a))
  {
    match a {
      case PreflightFails(c) =>
      case ChecksumInterrupted =>
      case StartVersion =>
      case SkipVersion =>
      case VersionFinished =>
      case VersionKilled =>
      case VersionAbandoned =>
      case VersionInterrupted =>
      case NothingToRun =>
      case Proceed =>
      case SetupFails(c) =>
      case SetupDone =>
    }
  }

  lemma LaunchKeepsStatus(s: State, a: Launch)
    requires AttemptsInv(s) && StatusInv(s) && CanLaunch(s, a)
    ensures StatusInv(DoLaunch(s, a))
  {
    match a {
      case LoopExhausted =>
      case StartupTooLate =>
      case BeginAttempt =>
      case PrepareFails(c) =>
      case ChildStarts =>
      case ClientRefused =>
      case Connected =>
      case ConnectGivesUp =>
      case ReadinessSeen =>
      case ReadinessGivesUp =>
    }
  }

  lemma VerdictKeepsStatus(s: State, a: Verdict)
    requires AttemptsInv(s) && StatusInv(s) && CanVerdict(s, a)
    ensures StatusInv(DoVerdict(s, a))
  {
    match a {
      case StartConfirmed =>
      case StartedButExited =>
      case Retry =>
      case ExitedInStartup(c) =>
      case StillUp =>
      case StartupSinkFailed =>
      case StartupSinkFine =>
      case NeverReady =>
      case NoConnection =>
      case LoopLeft =>
    }
  }

  lemma DeliveryKeepsStatus(s: State, a: Delivery)
    requires AttemptsInv(s) && StatusInv(s) && CanDelivery(s, a)
    ensures StatusInv(DoDelivery(s, a))
  {
    match a {
      case ExportAccepted =>
      case SubmissionDone =>
      case ExportFails =>
      case SubmitInterrupted =>
      case SubmitContextFine =>
      case SubmitRejected =>
      case SettleInterrupted =>
      case SettleExit =>
      case SettleSinkFailed =>
      case SettleElapsed =>
      case DiedBeforeStop =>
      case AliveToStop =>
    }
  }

  lemma ShutdownKeepsStatus(s: State, a: Shutdown)
    requires AttemptsInv(s) && StatusInv(s) && CanShutdown(s, a)
    ensures StatusInv(DoShutdown(s, a))
  {
    match a {
      case AlreadyExited =>
      case TermSent =>
      case TermFails =>
      case GraceExit =>
      case GraceKills =>
      case GraceKillFails =>
      case ReapExit =>
      case ReapOver =>
      case StopFailed =>
      case UncleanExit =>
      case CleanExit =>
      case FinalInterrupted =>
      case FinalContextFine =>
      case ExportReported =>
      case RunSucceeds =>
    }
  }

  lemma CleanupKeepsStatus(s: State, a: Cleanup)
    requires AttemptsInv(s) && StatusInv(s) && CanCleanup(s, a)
    ensures StatusInv(DoCleanup(s, a))
  {
    match a {
      case NoLeftover =>
      case AlreadyGone =>
      case LeftoverKilled =>
      case LeftoverUnkillable =>
      case LeftoverGone =>
      case LeftoverStuck =>
      case SinkDrained =>
      case SinkDrainTimedOut =>
      case OutputCaptured =>
      case CaptureFailed =>
      case DirRemoved =>
      case DirStuck =>
    }
  }

  lemma EventKeepsStatus(s: State, e: Event)
    requires StatusInv(s) && May(s, e)
    ensures StatusInv(Happen(s, e))
  {
    match e {
      case ChildExits(x) =>
      case ReadyLine =>
      case ExportFailureLine =>
      case BindConflictLine =>
      case ConflictScrolledOff =>
      case VersionExits(x) =>
      case CallerCancels =>
      case RunExpires =>
      case StartupExpires =>
      case CaptureFails(c) =>
      case Tick =>
    }
  }

  lemma StepKeepsStatus(s: State, step: Step)
    requires AttemptsInv(s) && StatusInv(s) && Enabled(s, step)
    ensures StatusInv(Next(s, step))
  {
    hide AttemptsInv, StatusInv, CanOpening, CanLaunch, CanVerdict, CanDelivery, CanShutdown, CanCleanup, May,
      DoOpening, DoLaunch, DoVerdict, DoDelivery, DoShutdown, DoCleanup, Happen;
    match step {
      case RunOpening(a) => OpeningKeepsStatus(s, a);
      case RunLaunch(a) => LaunchKeepsStatus(s, a);
      case RunVerdict(a) => VerdictKeepsStatus(s, a);
      case RunDelivery(a) => DeliveryKeepsStatus(s, a);
      case RunShutdown(a) => ShutdownKeepsStatus(s, a);
      case RunCleanup(a) => CleanupKeepsStatus(s, a);
      case Env(e) => EventKeepsStatus(s, e);
    }
  }

  lemma {:induction false} EveryRunKeepsStatus(cfg: Config, steps: seq<Step>)
    requires After(cfg, steps).Some?
    ensures StatusInv(After(cfg, steps).value)
  {
    hide Enabled, Next, Inv;
    if steps != [] {
      var before, step := steps[..|steps| - 1], steps[|steps| - 1];
      EveryRunKeepsStatus(cfg, before);
      EveryRunKeepsInv(cfg, before);
      ProgressHolds(After(cfg, before).value);
      StepKeepsStatus(After(cfg, before).value, step);
    }
  }

  /** The status of a finished run: nothing started, forced, ended by a signal, or exited; "running" is left exactly
      when a later attempt could not start its process, so that there is none to record. */
  lemma ExitStatusIsExact(cfg: Config, steps: seq<Step>)
    requires After(cfg, steps).Some? && After(cfg, steps).value.pc == RETURNED
    ensures var s := After(cfg, steps).value;
            (s.exitStatus == NotStarted <==> s.started == 0) &&
            (s.exitStatus == StillRunning <==> s.started > 0 && s.child.Absent?) &&
            (s.exitStatus == Forced <==> s.started > 0 && !s.child.Absent? && s.forced) &&
            (s.exitStatus == KilledBySignal <==> s.started > 0 && s.child == Gone(Signaled) && !s.forced) &&
            (s.exitStatus == Exited <==>
             s.started > 0 && (s.child == Gone(Clean) || s.child == Gone(NonZero)) && !s.forced)
  {
    hide After, StatusInv;
    EveryRunKeepsStatus(cfg, steps);
    StatusMeans(After(cfg, steps).value);
  }

  lemma StatusMeans(s: State)
    requires StatusInv(s) && s.pc == RETURNED
    ensures (s.exitStatus == NotStarted <==> s.started == 0)
    ensures (s.exitStatus == StillRunning <==> s.started > 0 && s.child.Absent?)
    ensures (s.exitStatus == Forced <==> s.started > 0 && !s.child.Absent? && s.forced)
    ensures (s.exitStatus == KilledBySignal <==> s.started > 0 && s.child == Gone(Signaled) && !s.forced)
    ensures (s.exitStatus == Exited <==>
             s.started > 0 && (s.child == Gone(Clean) || s.child == Gone(NonZero)) && !s.forced)
  {
    match s.child {
      case Absent =>
      case Live =>
      case Gone(e) => assert e == Clean || e == NonZero || e == Signaled;
    }
  }

  predicate LeftRunning(s: Option<State>)
  {
    s.Some? && s.value.pc == RETURNED && s.value.exitStatus == StillRunning
  }

  /** It does happen: the first process loses its port, and the second cannot be started. */
  lemma RunningWithoutProcess(cfg: Config) returns (steps: seq<Step>)
    requires cfg.signals > 0
    ensures LeftRunning(After(cfg, steps))
  {
    hide After, AllSmooth, CanOpening, CanDelivery, CanShutdown;
    steps := ReachRetry(cfg);
    steps := Extend(cfg, steps, RunLaunch(BeginAttempt));
    steps := Extend(cfg, steps, RunLaunch(PrepareFails(ProcessStart)));
    steps := Extend(cfg, steps, RunCleanup(NoLeftover));
    steps := Extend(cfg, steps, RunCleanup(SinkDrained));
    steps := Extend(cfg, steps, RunCleanup(OutputCaptured));
    steps := Extend(cfg, steps, RunCleanup(DirRemoved));
  }

  lemma ReachRetry(cfg: Config) returns (steps: seq<Step>)
    requires cfg.signals > 0
    ensures After(cfg, steps) ==
            Some(Init(cfg).(pc := ATTEMPT_TOP, sink := Open, child := Gone(NonZero), bindConflict := true, started := 1,
                            attempt := 1, exitStatus := StillRunning))
  {
    hide After, AllSmooth, CanOpening, CanDelivery, CanShutdown, CanCleanup;
    steps := ReachAttempt(cfg);
    steps := Extend(cfg, steps, RunLaunch(BeginAttempt));
    steps := Extend(cfg, steps, RunLaunch(ChildStarts));
    steps := Extend(cfg, steps, Env(BindConflictLine));
    steps := Extend(cfg, steps, Env(ChildExits(NonZero)));
    steps := Extend(cfg, steps, RunLaunch(ConnectGivesUp));
    steps := Extend(cfg, steps, RunVerdict(Retry));
  }
}
