/** Where Run goes from each of its program points and what it reports there, as conditions on the state: the order of
    the tests in internal/runner/collector.go:101-277 and internal/runner/process.go:139-174. */
module Precedence {
  import opened Strings
  import opened Lifecycle

  function ContextName(s: State): set<Category>
  {
    match s.ctx case Active => {} case Canceled => {RunCanceled} case TimedOut => {RunTimeout}
  }

  function CaptureName(s: State): set<Category>
  {
    if s.sinkFailure.Some? then {s.sinkFailure.value} else {}
  }

  /** The categories Run can report at its program point. While starting, an exited process is looked at before the
      capture, the capture before the context, and the context before the start-up deadline; when a submission is given
      up, the context before the capture, and the capture before the submission itself. */
  function Reportable(s: State): set<Category>
  {
    if s.failure.Some? then {}
    else if s.pc >= SETUP then BeforeStarting(s)
    else if s.pc >= AFTER_LOOP then WhileStarting(s)
    else if s.pc > STOP_BEGINS then WhileDelivering(s)
    else WhileEnding(s)
  }

  function BeforeStarting(s: State): set<Category>
  {
    if s.pc == PREFLIGHT then
      {UnsupportedPlatform, BinaryRequired, BinaryUnavailable, ConfigInput, FixtureInput, FixtureLimit,
       UnsupportedTopology} + ContextName(s) + if s.ctx.Canceled? then {RunTimeout} else {}
    else if s.pc == VERSION_ANSWERED then ContextName(s)
    else if s.pc == SETUP then {HarnessIo, CaptureStart}
    else {}
  }

  function WhileStarting(s: State): set<Category>
  {
    if s.pc == ATTEMPT_TOP then (if s.startupExpired || s.ctx != Active then {StartupTimeout} else {})
    else if s.pc == PREPARE then {ReceiverAddress, HarnessConfig, HarnessIo, ProcessStart}
    else if s.pc == STARTUP_FAILED then
      (if !s.child.Gone? then {}
       else if s.bindConflict then (if s.attempt == 2 then {BindConflict} else {})
       else {MissingComponent, InvalidConfig, ProcessExit})
    else if s.pc == STARTUP_SINK then CaptureName(s)
    else if s.pc == STARTUP_CONTEXT then (if s.ctx != Active then ContextName(s) else {StartupTimeout})
    else {}
  }

  function WhileDelivering(s: State): set<Category>
  {
    if s.pc == SUBMIT_CONTEXT then ContextName(s)
    else if s.pc == SUBMIT_SINK then (if s.sinkFailure.Some? then CaptureName(s) else {Submission})
    else if s.pc == SETTLE then ContextName(s) + CaptureName(s) + Exits(s)
    else if s.pc == CHECK_ALIVE then Exits(s)
    else {}
  }

  function WhileEnding(s: State): set<Category>
  {
    if s.pc == STOP_ERRED then (if s.ctx != Active then ContextName(s) else {ShutdownError})
    else if s.pc == STOP_DONE then (if s.child == Gone(Clean) then {} else {ProcessExit})
    else if s.pc == FINAL_CONTEXT then ContextName(s)
    else if s.pc == FINAL_EXPORT then (if s.exportFailure then {ExportFailure} else {})
    else if s.pc == COLLECT then CaptureName(s)
    else if s.pc == REMOVE_DIR then {CleanupError}
    else {}
  }

  function Exits(s: State): set<Category>
  {
    if s.child.Gone? then {ProcessExit} else {}
  }

  function When(condition: bool, points: set<nat>): set<nat>
  {
    if condition then points else {}
  }

  /** The program points Run can go to without recording a failure. */
  function Successors(s: State): set<nat>
  {
    if s.pc >= SETUP then Opened(s)
    else if s.pc > CHECK_STARTED then Launched(s)
    else if s.pc >= AFTER_LOOP then Checked(s)
    else if s.pc > STOP_BEGINS then Settling(s)
    else if s.pc > CLEANUP_PROCESS then Stopped(s)
    else Unwinding(s)
  }

  predicate Over(s: State)
  {
    s.now >= s.timer || s.ctx != Active
  }

  function Opened(s: State): set<nat>
  {
    if s.pc == PREFLIGHT then {VERSION_QUERY, VERSION_ANSWERED}
    else if s.pc == VERSION_QUERY then When(s.version.Gone? || Over(s), {VERSION_ANSWERED})
    else if s.pc == VERSION_ANSWERED then When(s.ctx == Active, if s.cfg.signals == 0 then {RETURNED} else {SETUP})
    else if s.pc == SETUP then {ATTEMPT_TOP}
    else {}
  }

  function Launched(s: State): set<nat>
  {
    if s.pc == ATTEMPT_TOP then When(!s.startupExpired && s.ctx == Active, {PREPARE})
    else if s.pc == PREPARE then {CONNECTING}
    else if s.pc == CONNECTING then {AWAIT_READY, STARTUP_FAILED}
    else
      When(s.ready, {CHECK_STARTED}) +
      When(s.startupExpired || s.ctx != Active || s.child.Gone? || s.sinkFailure.Some?, {STARTUP_FAILED})
  }

  function Checked(s: State): set<nat>
  {
    if s.pc == CHECK_STARTED then (if s.child.Gone? then {STARTUP_FAILED} else {AFTER_LOOP})
    else if s.pc == STARTUP_FAILED then
      (if !s.child.Gone? then {STARTUP_SINK} else When(s.bindConflict && s.attempt < 2, {ATTEMPT_TOP}))
    else if s.pc == STARTUP_SINK then When(s.sinkFailure.None?, {STARTUP_CONTEXT})
    else if s.pc == AFTER_LOOP then {SUBMIT}
    else {}
  }

  function Settling(s: State): set<nat>
  {
    if s.pc == SUBMIT then (if s.sent < s.cfg.signals then {SUBMIT, SUBMIT_CONTEXT} else {SETTLE})
    else if s.pc == SUBMIT_CONTEXT then When(s.ctx == Active, {SUBMIT_SINK})
    else if s.pc == SETTLE then When(s.now >= s.submittedAt + s.cfg.settle, {CHECK_ALIVE})
    else if s.pc == CHECK_ALIVE then When(!s.child.Gone?, {STOP_BEGINS})
    else {}
  }

  function Stopped(s: State): set<nat>
  {
    if s.pc == STOP_BEGINS then (if s.child.Gone? then {STOP_DONE} else {GRACE, STOP_ERRED})
    else if s.pc == GRACE then When(s.child.Gone?, {STOP_DONE}) + When(Over(s), {REAP, STOP_ERRED})
    else if s.pc == REAP then When(s.child.Gone? || s.now >= s.timer, {STOP_ERRED})
    else if s.pc == STOP_DONE then When(s.child == Gone(Clean), {FINAL_CONTEXT})
    else if s.pc == FINAL_CONTEXT then When(s.ctx == Active, {FINAL_EXPORT})
    else if s.pc == FINAL_EXPORT then When(!s.exportFailure, {CLEANUP_PROCESS})
    else {}
  }

  /** The deferred work. */
  function Unwinding(s: State): set<nat>
  {
    if s.pc == CLEANUP_PROCESS then (if s.child.Live? then {CLEANUP_REAP, CLOSE_SINK} else {CLOSE_SINK})
    else if s.pc == CLEANUP_REAP then When(s.child.Gone? || s.now >= s.timer, {CLOSE_SINK})
    else if s.pc == CLOSE_SINK then {COLLECT}
    else if s.pc == COLLECT then When(s.sinkFailure.None? || s.failure.Some?, {REMOVE_DIR})
    else if s.pc == REMOVE_DIR then {RETURNED}
    else {}
  }

  /** A step of Run either reports one of these categories or goes to one of these points. */
  ghost predicate Follows(s: State, t: State)
  {
    if s.failure.None? && t.failure.Some? then t.failure.value in Reportable(s)
    else t.failure == s.failure && t.pc in Successors(s)
  }

  lemma OpeningFollows(s: State, a: Opening)
    requires Inv(s) && CanOpening(s, a)
    ensures Follows(s, DoOpening(s, a))
  {
    hide CauseInv, VersionInv;
    match a {
      case PreflightFails(c) =>
      case ChecksumInterrupted =>
      case StartVersion =>
      case SkipVersion =>
      case VersionFinished =>
      case VersionKilled =>
      case VersionAbandoned =>
      case VersionInterrupted =>
      case NothingToRun =>
      case Proceed =>
      case SetupFails(c) =>
      case SetupDone =>
    }
  }

  lemma LaunchFollows(s: State, a: Launch)
    requires Inv(s) && CanLaunch(s, a)
    ensures Follows(s, DoLaunch(s, a))
  {
    hide CauseInv, VersionInv;
    match a {
      case LoopExhausted =>
      case StartupTooLate =>
      case BeginAttempt =>
      case PrepareFails(c) =>
      case ChildStarts =>
      case ClientRefused =>
      case Connected =>
      case ConnectGivesUp =>
      case ReadinessSeen =>
      case ReadinessGivesUp =>
    }
  }

  lemma VerdictFollows(s: State, a: Verdict)
    requires Inv(s) && CanVerdict(s, a)
    ensures Follows(s, DoVerdict(s, a))
  {
    hide CauseInv, VersionInv;
    match a {
      case StartConfirmed =>
      case StartedButExited =>
      case Retry =>
      case ExitedInStartup(c) =>
      case StillUp =>
      case StartupSinkFailed =>
      case StartupSinkFine =>
      case NeverReady =>
      case NoConnection =>
      case LoopLeft =>
    }
  }

  lemma DeliveryFollows(s: State, a: Delivery)
    requires Inv(s) && CanDelivery(s, a)
    ensures Follows(s, DoDelivery(s, a))
  {
    hide CauseInv, VersionInv;
    match a {
      case ExportAccepted =>
      case SubmissionDone =>
      case ExportFails =>
      case SubmitInterrupted =>
      case SubmitContextFine =>
      case SubmitRejected =>
      case SettleInterrupted =>
      case SettleExit =>
      case SettleSinkFailed =>
      case SettleElapsed =>
      case DiedBeforeStop =>
      case AliveToStop =>
    }
  }

  lemma ShutdownFollows(s: State, a: Shutdown)
    requires Inv(s) && CanShutdown(s, a)
    ensures Follows(s, DoShutdown(s, a))
  {
    hide CauseInv, VersionInv;
    match a {
      case AlreadyExited =>
      case TermSent =>
      case TermFails =>
      case GraceExit =>
      case GraceKills =>
      case GraceKillFails =>
      case ReapExit =>
      case ReapOver =>
      case StopFailed =>
      case UncleanExit =>
      case CleanExit =>
      case FinalInterrupted =>
      case FinalContextFine =>
      case ExportReported =>
      case RunSucceeds =>
    }
  }

  lemma CleanupFollows(s: State, a: Cleanup)
    requires Inv(s) && CanCleanup(s, a)
    ensures Follows(s, DoCleanup(s, a))
  {
    hide CauseInv, VersionInv;
    match a {
      case NoLeftover =>
      case AlreadyGone =>
      case LeftoverKilled =>
      case LeftoverUnkillable =>
      case LeftoverGone =>
      case LeftoverStuck =>
      case SinkDrained =>
      case SinkDrainTimedOut =>
      case OutputCaptured =>
      case CaptureFailed =>
      case DirRemoved =>
      case DirStuck =>
    }
  }

  lemma StepFollows(s: State, step: Step)
    requires Inv(s) && Enabled(s, step) && !step.Env?
    ensures Follows(s, Next(s, step))
  {
    hide Inv, Follows, CanOpening, CanLaunch, CanVerdict, CanDelivery, CanShutdown, CanCleanup, DoOpening, DoLaunch,
      DoVerdict, DoDelivery, DoShutdown, DoCleanup;
    match step {
      case RunOpening(a) => OpeningFollows(s, a);
      case RunLaunch(a) => LaunchFollows(s, a);
      case RunVerdict(a) => VerdictFollows(s, a);
      case RunDelivery(a) => DeliveryFollows(s, a);
      case RunShutdown(a) => ShutdownFollows(s, a);
      case RunCleanup(a) => CleanupFollows(s, a);
    }
  }

  // ----- every entry of the two tables is taken by some step -----

  lemma PreflightReports(s: State, c: Category) returns (a: Opening)
    requires s.pc == PREFLIGHT && s.failure.None? && c in BeforeStarting(s)
    ensures CanOpening(s, a) && DoOpening(s, a).failure == Some(c)
  {
    a := if c == RunTimeout && s.ctx.Canceled? then ChecksumInterrupted else PreflightFails(c);
  }

  lemma AnsweredVersionReports(s: State, c: Category) returns (a: Opening)
    requires s.pc == VERSION_ANSWERED && s.failure.None? && c in BeforeStarting(s)
    ensures CanOpening(s, a) && DoOpening(s, a).failure == Some(c)
  {
    a := VersionInterrupted;
  }

  lemma SetupReports(s: State, c: Category) returns (a: Opening)
    requires s.pc == SETUP && s.failure.None? && c in BeforeStarting(s)
    ensures CanOpening(s, a) && DoOpening(s, a).failure == Some(c)
  {
    a := SetupFails(c);
  }

  lemma AttemptTopReports(s: State, c: Category) returns (a: Launch)
    requires s.pc == ATTEMPT_TOP && s.failure.None? && s.attempt < ATTEMPTS && c in WhileStarting(s)
    ensures CanLaunch(s, a) && DoLaunch(s, a).failure == Some(c)
  {
    a := StartupTooLate;
  }

  lemma PrepareReports(s: State, c: Category) returns (a: Launch)
    requires s.pc == PREPARE && s.failure.None? && c in WhileStarting(s)
    ensures CanLaunch(s, a) && DoLaunch(s, a).failure == Some(c)
  {
    a := PrepareFails(c);
  }

  lemma FailedStartupReports(s: State, c: Category) returns (a: Verdict)
    requires s.pc == STARTUP_FAILED && s.failure.None? && c in WhileStarting(s)
    ensures CanVerdict(s, a) && DoVerdict(s, a).failure == Some(c)
  {
    a := ExitedInStartup(if c == BindConflict then ProcessExit else c);
  }

  lemma StartupSinkReports(s: State, c: Category) returns (a: Verdict)
    requires s.pc == STARTUP_SINK && s.failure.None? && c in WhileStarting(s)
    ensures CanVerdict(s, a) && DoVerdict(s, a).failure == Some(c)
  {
    a := StartupSinkFailed;
  }

  lemma StartupContextReports(s: State, c: Category) returns (a: Verdict)
    requires s.pc == STARTUP_CONTEXT && s.failure.None? && c in WhileStarting(s)
    ensures CanVerdict(s, a) && DoVerdict(s, a).failure == Some(c)
  {
    a := NeverReady;
  }

  lemma SubmitContextReports(s: State, c: Category) returns (a: Delivery)
    requires s.pc == SUBMIT_CONTEXT && s.failure.None? && c in WhileDelivering(s)
    ensures CanDelivery(s, a) && DoDelivery(s, a).failure == Some(c)
  {
    a := SubmitInterrupted;
  }

  lemma SubmitSinkReports(s: State, c: Category) returns (a: Delivery)
    requires s.pc == SUBMIT_SINK && s.failure.None? && c in WhileDelivering(s)
    ensures CanDelivery(s, a) && DoDelivery(s, a).failure == Some(c)
  {
    a := SubmitRejected;
  }

  lemma SettleInterruptedReports(s: State)
    requires CanDelivery(s, SettleInterrupted)
    ensures DoDelivery(s, SettleInterrupted).failure == Some(ContextCategory(s.ctx))
  {
  }

  lemma SettleSinkFailedReports(s: State)
    requires CanDelivery(s, SettleSinkFailed)
    ensures DoDelivery(s, SettleSinkFailed).failure == s.sinkFailure
  {
  }

  lemma SettleExitReports(s: State)
    requires CanDelivery(s, SettleExit)
    ensures DoDelivery(s, SettleExit).failure == Some(ProcessExit)
  {
  }

  lemma SettleReports(s: State, c: Category) returns (a: Delivery)
    requires s.pc == SETTLE && s.failure.None? && c in WhileDelivering(s)
    ensures CanDelivery(s, a) && DoDelivery(s, a).failure == Some(c)
  {
    hide DoDelivery;
    if c in ContextName(s) {
      SettleInterruptedReports(s);
      return SettleInterrupted;
    } else if c in CaptureName(s) {
      SettleSinkFailedReports(s);
      return SettleSinkFailed;
    } else {
      SettleExitReports(s);
      return SettleExit;
    }
  }

  lemma CheckAliveReports(s: State, c: Category) returns (a: Delivery)
    requires s.pc == CHECK_ALIVE && s.failure.None? && c in WhileDelivering(s)
    ensures CanDelivery(s, a) && DoDelivery(s, a).failure == Some(c)
  {
    a := DiedBeforeStop;
  }

  lemma StopErredReports(s: State, c: Category) returns (a: Shutdown)
    requires s.pc == STOP_ERRED && s.failure.None? && c in WhileEnding(s)
    ensures CanShutdown(s, a) && DoShutdown(s, a).failure == Some(c)
  {
    a := StopFailed;
  }

  lemma StopDoneReports(s: State, c: Category) returns (a: Shutdown)
    requires s.pc == STOP_DONE && s.failure.None? && c in WhileEnding(s)
    ensures CanShutdown(s, a) && DoShutdown(s, a).failure == Some(c)
  {
    a := UncleanExit;
  }

  lemma FinalContextReports(s: State, c: Category) returns (a: Shutdown)
    requires s.pc == FINAL_CONTEXT && s.failure.None? && c in WhileEnding(s)
    ensures CanShutdown(s, a) && DoShutdown(s, a).failure == Some(c)
  {
    a := FinalInterrupted;
  }

  lemma FinalExportReports(s: State, c: Category) returns (a: Shutdown)
    requires s.pc == FINAL_EXPORT && s.failure.None? && c in WhileEnding(s)
    ensures CanShutdown(s, a) && DoShutdown(s, a).failure == Some(c)
  {
    a := ExportReported;
  }

  lemma CollectReports(s: State, c: Category) returns (a: Cleanup)
    requires s.pc == COLLECT && s.failure.None? && c in WhileEnding(s)
    ensures CanCleanup(s, a) && DoCleanup(s, a).failure == Some(c)
  {
    a := CaptureFailed;
  }

  lemma RemoveDirReports(s: State, c: Category) returns (a: Cleanup)
    requires s.pc == REMOVE_DIR && s.failure.None? && c in WhileEnding(s)
    ensures CanCleanup(s, a) && DoCleanup(s, a).failure == Some(c)
  {
    a := DirStuck;
  }

  lemma StartingReports(s: State, c: Category) returns (step: Step)
    requires s.failure.None? && AttemptsInv(s) && AFTER_LOOP <= s.pc < SETUP && c in WhileStarting(s)
    ensures Enabled(s, step) && !step.Env? && Next(s, step).failure == Some(c)
  {
    hide CanOpening, CanLaunch, CanVerdict, CanDelivery, CanShutdown, CanCleanup, DoOpening, DoLaunch, DoVerdict,
      DoDelivery, DoShutdown, DoCleanup, ContextName, CaptureName, Exits;
    if s.pc == ATTEMPT_TOP {
      var a := AttemptTopReports(s, c);
      step := RunLaunch(a);
    } else if s.pc == PREPARE {
      var a := PrepareReports(s, c);
      step := RunLaunch(a);
    } else if s.pc == STARTUP_FAILED {
      var a := FailedStartupReports(s, c);
      step := RunVerdict(a);
    } else if s.pc == STARTUP_SINK {
      var a := StartupSinkReports(s, c);
      step := RunVerdict(a);
    } else {
      var a := StartupContextReports(s, c);
      step := RunVerdict(a);
    }
  }

  lemma OpeningReports(s: State, c: Category) returns (step: Step)
    requires s.failure.None? && s.pc >= SETUP && c in BeforeStarting(s)
    ensures Enabled(s, step) && !step.Env? && Next(s, step).failure == Some(c)
  {
    hide CanOpening, CanLaunch, CanVerdict, CanDelivery, CanShutdown, CanCleanup, DoOpening, DoLaunch, DoVerdict,
      DoDelivery, DoShutdown, DoCleanup, ContextName, CaptureName, Exits;
    if s.pc == PREFLIGHT {
      var a := PreflightReports(s, c);
      step := RunOpening(a);
    } else if s.pc == VERSION_ANSWERED {
      var a := AnsweredVersionReports(s, c);
      step := RunOpening(a);
    } else {
      var a := SetupReports(s, c);
      step := RunOpening(a);
    }
  }

  lemma DeliveryReports(s: State, c: Category) returns (step: Step)
    requires s.failure.None? && STOP_BEGINS < s.pc < AFTER_LOOP && c in WhileDelivering(s)
    ensures Enabled(s, step) && !step.Env? && Next(s, step).failure == Some(c)
  {
    hide CanOpening, CanLaunch, CanVerdict, CanDelivery, CanShutdown, CanCleanup, DoOpening, DoLaunch, DoVerdict,
      DoDelivery, DoShutdown, DoCleanup, ContextName, CaptureName, Exits;
    if s.pc == SUBMIT_CONTEXT {
      var a := SubmitContextReports(s, c);
      step := RunDelivery(a);
    } else if s.pc == SUBMIT_SINK {
      var a := SubmitSinkReports(s, c);
      step := RunDelivery(a);
    } else if s.pc == SETTLE {
      var a := SettleReports(s, c);
      step := RunDelivery(a);
    } else {
      var a := CheckAliveReports(s, c);
      step := RunDelivery(a);
    }
  }

  lemma EndingReports(s: State, c: Category) returns (step: Step)
    requires s.failure.None? && s.pc <= STOP_BEGINS && c in WhileEnding(s)
    ensures Enabled(s, step) && !step.Env? && Next(s, step).failure == Some(c)
  {
    hide CanOpening, CanLaunch, CanVerdict, CanDelivery, CanShutdown, CanCleanup, DoOpening, DoLaunch, DoVerdict,
      DoDelivery, DoShutdown, DoCleanup, ContextName, CaptureName, Exits;
    if s.pc == STOP_ERRED {
      var a := StopErredReports(s, c);
      step := RunShutdown(a);
    } else if s.pc == STOP_DONE {
      var a := StopDoneReports(s, c);
      step := RunShutdown(a);
    } else if s.pc == FINAL_CONTEXT {
      var a := FinalContextReports(s, c);
      step := RunShutdown(a);
    } else if s.pc == FINAL_EXPORT {
      var a := FinalExportReports(s, c);
      step := RunShutdown(a);
    } else if s.pc == COLLECT {
      var a := CollectReports(s, c);
      step := RunCleanup(a);
    } else {
      var a := RemoveDirReports(s, c);
      step := RunCleanup(a);
    }
  }

  lemma Reports(s: State, c: Category) returns (step: Step)
    requires AttemptsInv(s) && c in Reportable(s)
    ensures Enabled(s, step) && !step.Env? && Next(s, step).failure == Some(c)
  {
    hide AttemptsInv, Enabled, Next, BeforeStarting, WhileStarting, WhileDelivering, WhileEnding;
    if s.pc >= SETUP {
      step := OpeningReports(s, c);
    } else if s.pc >= AFTER_LOOP {
      step := StartingReports(s, c);
    } else if s.pc > STOP_BEGINS {
      step := DeliveryReports(s, c);
    } else {
      step := EndingReports(s, c);
    }
  }

  lemma PreflightReaches(s: State, n: nat) returns (a: Opening)
    requires s.pc == PREFLIGHT && n in Opened(s)
    ensures CanOpening(s, a) && DoOpening(s, a).pc == n && DoOpening(s, a).failure == s.failure
  {
    a := if n == VERSION_QUERY then StartVersion else SkipVersion;
  }

  lemma VersionQueryReaches(s: State, n: nat) returns (a: Opening)
    requires s.pc == VERSION_QUERY && !s.version.Absent? && n in Opened(s)
    ensures CanOpening(s, a) && DoOpening(s, a).pc == n && DoOpening(s, a).failure == s.failure
  {
    a := if s.version.Gone? then VersionFinished else VersionKilled;
  }

  lemma AnsweredVersionReaches(s: State, n: nat) returns (a: Opening)
    requires s.pc == VERSION_ANSWERED && n in Opened(s)
    ensures CanOpening(s, a) && DoOpening(s, a).pc == n && DoOpening(s, a).failure == s.failure
  {
    a := if s.cfg.signals == 0 then NothingToRun else Proceed;
  }

  lemma SetupReaches(s: State, n: nat) returns (a: Opening)
    requires s.pc == SETUP && n in Opened(s)
    ensures CanOpening(s, a) && DoOpening(s, a).pc == n && DoOpening(s, a).failure == s.failure
  {
    a := SetupDone;
  }

  lemma AttemptTopReaches(s: State, n: nat) returns (a: Launch)
    requires s.pc == ATTEMPT_TOP && s.attempt < ATTEMPTS && n in Launched(s)
    ensures CanLaunch(s, a) && DoLaunch(s, a).pc == n && DoLaunch(s, a).failure == s.failure
  {
    a := BeginAttempt;
  }

  lemma PrepareReaches(s: State, n: nat) returns (a: Launch)
    requires s.pc == PREPARE && n in Launched(s)
    ensures CanLaunch(s, a) && DoLaunch(s, a).pc == n && DoLaunch(s, a).failure == s.failure
  {
    a := ChildStarts;
  }

  lemma ConnectingReaches(s: State, n: nat) returns (a: Launch)
    requires s.pc == CONNECTING && n in Launched(s)
    ensures CanLaunch(s, a) && DoLaunch(s, a).pc == n && DoLaunch(s, a).failure == s.failure
  {
    a := if n == AWAIT_READY then Connected else ClientRefused;
  }

  lemma AwaitReadyReaches(s: State, n: nat) returns (a: Launch)
    requires s.pc == AWAIT_READY && n in Launched(s)
    ensures CanLaunch(s, a) && DoLaunch(s, a).pc == n && DoLaunch(s, a).failure == s.failure
  {
    a := if n == CHECK_STARTED then ReadinessSeen else ReadinessGivesUp;
  }

  lemma CheckStartedReaches(s: State, n: nat) returns (a: Verdict)
    requires s.pc == CHECK_STARTED && n in Checked(s)
    ensures CanVerdict(s, a) && DoVerdict(s, a).pc == n && DoVerdict(s, a).failure == s.failure
  {
    a := if s.child.Gone? then StartedButExited else StartConfirmed;
  }

  lemma FailedStartupReaches(s: State, n: nat) returns (a: Verdict)
    requires s.pc == STARTUP_FAILED && n in Checked(s)
    ensures CanVerdict(s, a) && DoVerdict(s, a).pc == n && DoVerdict(s, a).failure == s.failure
  {
    a := if s.child.Gone? then Retry else StillUp;
  }

  lemma StartupSinkReaches(s: State, n: nat) returns (a: Verdict)
    requires s.pc == STARTUP_SINK && n in Checked(s)
    ensures CanVerdict(s, a) && DoVerdict(s, a).pc == n && DoVerdict(s, a).failure == s.failure
  {
    a := StartupSinkFine;
  }

  lemma AfterLoopReaches(s: State, n: nat) returns (a: Verdict)
    requires s.pc == AFTER_LOOP && s.connected && n in Checked(s)
    ensures CanVerdict(s, a) && DoVerdict(s, a).pc == n && DoVerdict(s, a).failure == s.failure
  {
    a := LoopLeft;
  }

  lemma SubmissionDoneGoes(s: State)
    requires CanDelivery(s, SubmissionDone)
    ensures DoDelivery(s, SubmissionDone).pc == SETTLE && DoDelivery(s, SubmissionDone).failure == s.failure
  {
  }

  lemma ExportAcceptedGoes(s: State)
    requires CanDelivery(s, ExportAccepted)
    ensures DoDelivery(s, ExportAccepted).pc == SUBMIT && DoDelivery(s, ExportAccepted).failure == s.failure
  {
  }

  lemma ExportFailsGoes(s: State)
    requires CanDelivery(s, ExportFails)
    ensures DoDelivery(s, ExportFails).pc == SUBMIT_CONTEXT && DoDelivery(s, ExportFails).failure == s.failure
  {
  }

  lemma SubmitReaches(s: State, n: nat) returns (a: Delivery)
    requires s.pc == SUBMIT && s.sent <= s.cfg.signals && n in Settling(s)
    ensures CanDelivery(s, a) && DoDelivery(s, a).pc == n && DoDelivery(s, a).failure == s.failure
  {
    hide DoDelivery;
    if n == SETTLE {
      SubmissionDoneGoes(s);
      return SubmissionDone;
    } else if n == SUBMIT {
      ExportAcceptedGoes(s);
      return ExportAccepted;
    } else {
      ExportFailsGoes(s);
      return ExportFails;
    }
  }

  lemma SubmitContextReaches(s: State, n: nat) returns (a: Delivery)
    requires s.pc == SUBMIT_CONTEXT && n in Settling(s)
    ensures CanDelivery(s, a) && DoDelivery(s, a).pc == n && DoDelivery(s, a).failure == s.failure
  {
    a := SubmitContextFine;
  }

  lemma SettleReaches(s: State, n: nat) returns (a: Delivery)
    requires s.pc == SETTLE && s.settleEnd == s.submittedAt + s.cfg.settle && n in Settling(s)
    ensures CanDelivery(s, a) && DoDelivery(s, a).pc == n && DoDelivery(s, a).failure == s.failure
  {
    a := SettleElapsed;
  }

  lemma CheckAliveReaches(s: State, n: nat) returns (a: Delivery)
    requires s.pc == CHECK_ALIVE && n in Settling(s)
    ensures CanDelivery(s, a) && DoDelivery(s, a).pc == n && DoDelivery(s, a).failure == s.failure
  {
    a := AliveToStop;
  }

  lemma AlreadyExitedGoes(s: State)
    requires CanShutdown(s, AlreadyExited)
    ensures DoShutdown(s, AlreadyExited).pc == STOP_DONE && DoShutdown(s, AlreadyExited).failure == s.failure
  {
  }

  lemma TermSentGoes(s: State)
    requires CanShutdown(s, TermSent)
    ensures DoShutdown(s, TermSent).pc == GRACE && DoShutdown(s, TermSent).failure == s.failure
  {
  }

  lemma TermFailsGoes(s: State)
    requires CanShutdown(s, TermFails)
    ensures DoShutdown(s, TermFails).pc == STOP_ERRED && DoShutdown(s, TermFails).failure == s.failure
  {
  }

  lemma StopBeginsReaches(s: State, n: nat) returns (a: Shutdown)
    requires s.pc == STOP_BEGINS && n in Stopped(s)
    ensures CanShutdown(s, a) && DoShutdown(s, a).pc == n && DoShutdown(s, a).failure == s.failure
  {
    hide DoShutdown;
    if n == STOP_DONE {
      AlreadyExitedGoes(s);
      return AlreadyExited;
    } else if n == GRACE {
      TermSentGoes(s);
      return TermSent;
    } else {
      TermFailsGoes(s);
      return TermFails;
    }
  }

  lemma GraceExitGoes(s: State)
    requires CanShutdown(s, GraceExit)
    ensures DoShutdown(s, GraceExit).pc == STOP_DONE && DoShutdown(s, GraceExit).failure == s.failure
  {
  }

  lemma GraceKillsGoes(s: State)
    requires CanShutdown(s, GraceKills)
    ensures DoShutdown(s, GraceKills).pc == REAP && DoShutdown(s, GraceKills).failure == s.failure
  {
  }

  lemma GraceKillFailsGoes(s: State)
    requires CanShutdown(s, GraceKillFails)
    ensures DoShutdown(s, GraceKillFails).pc == STOP_ERRED && DoShutdown(s, GraceKillFails).failure == s.failure
  {
  }

  lemma GraceReaches(s: State, n: nat) returns (a: Shutdown)
    requires s.pc == GRACE && n in Stopped(s)
    ensures CanShutdown(s, a) && DoShutdown(s, a).pc == n && DoShutdown(s, a).failure == s.failure
  {
    hide DoShutdown;
    if n == STOP_DONE {
      GraceExitGoes(s);
      return GraceExit;
    } else if n == REAP {
      GraceKillsGoes(s);
      return GraceKills;
    } else {
      GraceKillFailsGoes(s);
      return GraceKillFails;
    }
  }

  lemma ReapReaches(s: State, n: nat) returns (a: Shutdown)
    requires s.pc == REAP && n in Stopped(s)
    ensures CanShutdown(s, a) && DoShutdown(s, a).pc == n && DoShutdown(s, a).failure == s.failure
  {
    a := if s.child.Gone? then ReapExit else ReapOver;
  }

  lemma StopDoneReaches(s: State, n: nat) returns (a: Shutdown)
    requires s.pc == STOP_DONE && n in Stopped(s)
    ensures CanShutdown(s, a) && DoShutdown(s, a).pc == n && DoShutdown(s, a).failure == s.failure
  {
    a := CleanExit;
  }

  lemma FinalContextReaches(s: State, n: nat) returns (a: Shutdown)
    requires s.pc == FINAL_CONTEXT && n in Stopped(s)
    ensures CanShutdown(s, a) && DoShutdown(s, a).pc == n && DoShutdown(s, a).failure == s.failure
  {
    a := FinalContextFine;
  }

  lemma FinalExportReaches(s: State, n: nat) returns (a: Shutdown)
    requires s.pc == FINAL_EXPORT && n in Stopped(s)
    ensures CanShutdown(s, a) && DoShutdown(s, a).pc == n && DoShutdown(s, a).failure == s.failure
  {
    a := RunSucceeds;
  }

  lemma NoLeftoverGoes(s: State)
    requires CanCleanup(s, NoLeftover)
    ensures DoCleanup(s, NoLeftover).pc == CLOSE_SINK && DoCleanup(s, NoLeftover).failure == s.failure
  {
  }

  lemma AlreadyGoneGoes(s: State)
    requires CanCleanup(s, AlreadyGone)
    ensures DoCleanup(s, AlreadyGone).pc == CLOSE_SINK && DoCleanup(s, AlreadyGone).failure == s.failure
  {
  }

  lemma LeftoverKilledGoes(s: State)
    requires CanCleanup(s, LeftoverKilled)
    ensures DoCleanup(s, LeftoverKilled).pc == CLEANUP_REAP && DoCleanup(s, LeftoverKilled).failure == s.failure
  {
  }

  lemma LeftoverUnkillableGoes(s: State)
    requires CanCleanup(s, LeftoverUnkillable) && s.failure.Some?
    ensures DoCleanup(s, LeftoverUnkillable).pc == CLOSE_SINK && DoCleanup(s, LeftoverUnkillable).failure == s.failure
  {
  }

  lemma CleanupProcessReaches(s: State, n: nat) returns (a: Cleanup)
    requires s.pc == CLEANUP_PROCESS && (s.child.Live? ==> s.failure.Some?) && n in Unwinding(s)
    ensures CanCleanup(s, a) && DoCleanup(s, a).pc == n && DoCleanup(s, a).failure == s.failure
  {
    hide DoCleanup;
    if s.child.Absent? {
      NoLeftoverGoes(s);
      return NoLeftover;
    } else if s.child.Gone? {
      AlreadyGoneGoes(s);
      return AlreadyGone;
    } else if n == CLEANUP_REAP {
      LeftoverKilledGoes(s);
      return LeftoverKilled;
    } else {
      LeftoverUnkillableGoes(s);
      return LeftoverUnkillable;
    }
  }

  lemma CleanupReapReaches(s: State, n: nat) returns (a: Cleanup)
    requires s.pc == CLEANUP_REAP && s.failure.Some? && n in Unwinding(s)
    ensures CanCleanup(s, a) && DoCleanup(s, a).pc == n && DoCleanup(s, a).failure == s.failure
  {
    a := if s.child.Gone? then LeftoverGone else LeftoverStuck;
  }

  lemma CloseSinkReaches(s: State, n: nat) returns (a: Cleanup)
    requires s.pc == CLOSE_SINK && n in Unwinding(s)
    ensures CanCleanup(s, a) && DoCleanup(s, a).pc == n && DoCleanup(s, a).failure == s.failure
  {
    a := SinkDrained;
  }

  lemma CollectReaches(s: State, n: nat) returns (a: Cleanup)
    requires s.pc == COLLECT && n in Unwinding(s)
    ensures CanCleanup(s, a) && DoCleanup(s, a).pc == n && DoCleanup(s, a).failure == s.failure
  {
    a := if s.sinkFailure.None? then OutputCaptured else CaptureFailed;
  }

  lemma RemoveDirReaches(s: State, n: nat) returns (a: Cleanup)
    requires s.pc == REMOVE_DIR && n in Unwinding(s)
    ensures CanCleanup(s, a) && DoCleanup(s, a).pc == n && DoCleanup(s, a).failure == s.failure
  {
    a := DirRemoved;
  }

  lemma OpeningReaches(s: State, n: nat) returns (step: Step)
    requires VersionInv(s) && s.pc >= SETUP && n in Opened(s)
    ensures Enabled(s, step) && !step.Env? && Next(s, step).pc == n && Next(s, step).failure == s.failure
  {
    hide CanOpening, CanLaunch, CanVerdict, CanDelivery, CanShutdown, CanCleanup, DoOpening, DoLaunch, DoVerdict,
      DoDelivery, DoShutdown, DoCleanup, When, Over;
    if s.pc == PREFLIGHT {
      var a := PreflightReaches(s, n);
      step := RunOpening(a);
    } else if s.pc == VERSION_QUERY {
      var a := VersionQueryReaches(s, n);
      step := RunOpening(a);
    } else if s.pc == VERSION_ANSWERED {
      var a := AnsweredVersionReaches(s, n);
      step := RunOpening(a);
    } else {
      var a := SetupReaches(s, n);
      step := RunOpening(a);
    }
  }

  lemma LaunchReaches(s: State, n: nat) returns (step: Step)
    requires AttemptsInv(s) && CHECK_STARTED < s.pc < SETUP && n in Launched(s)
    ensures Enabled(s, step) && !step.Env? && Next(s, step).pc == n && Next(s, step).failure == s.failure
  {
    hide CanOpening, CanLaunch, CanVerdict, CanDelivery, CanShutdown, CanCleanup, DoOpening, DoLaunch, DoVerdict,
      DoDelivery, DoShutdown, DoCleanup, When, Over;
    if s.pc == ATTEMPT_TOP {
      var a := AttemptTopReaches(s, n);
      step := RunLaunch(a);
    } else if s.pc == PREPARE {
      var a := PrepareReaches(s, n);
      step := RunLaunch(a);
    } else if s.pc == CONNECTING {
      var a := ConnectingReaches(s, n);
      step := RunLaunch(a);
    } else {
      var a := AwaitReadyReaches(s, n);
      step := RunLaunch(a);
    }
  }

  lemma VerdictReaches(s: State, n: nat) returns (step: Step)
    requires ProgressInv(s) && AFTER_LOOP <= s.pc <= CHECK_STARTED && n in Checked(s)
    ensures Enabled(s, step) && !step.Env? && Next(s, step).pc == n && Next(s, step).failure == s.failure
  {
    hide CanOpening, CanLaunch, CanVerdict, CanDelivery, CanShutdown, CanCleanup, DoOpening, DoLaunch, DoVerdict,
      DoDelivery, DoShutdown, DoCleanup, When, Over;
    if s.pc == CHECK_STARTED {
      var a := CheckStartedReaches(s, n);
      step := RunVerdict(a);
    } else if s.pc == STARTUP_FAILED {
      var a := FailedStartupReaches(s, n);
      step := RunVerdict(a);
    } else if s.pc == STARTUP_SINK {
      var a := StartupSinkReaches(s, n);
      step := RunVerdict(a);
    } else {
      var a := AfterLoopReaches(s, n);
      step := RunVerdict(a);
    }
  }

  lemma DeliveryReaches(s: State, n: nat) returns (step: Step)
    requires ProgressInv(s) && STOP_BEGINS < s.pc < AFTER_LOOP && n in Settling(s)
    ensures Enabled(s, step) && !step.Env? && Next(s, step).pc == n && Next(s, step).failure == s.failure
  {
    hide CanOpening, CanLaunch, CanVerdict, CanDelivery, CanShutdown, CanCleanup, DoOpening, DoLaunch, DoVerdict,
      DoDelivery, DoShutdown, DoCleanup, When, Over;
    if s.pc == SUBMIT {
      var a := SubmitReaches(s, n);
      step := RunDelivery(a);
    } else if s.pc == SUBMIT_CONTEXT {
      var a := SubmitContextReaches(s, n);
      step := RunDelivery(a);
    } else if s.pc == SETTLE {
      var a := SettleReaches(s, n);
      step := RunDelivery(a);
    } else {
      var a := CheckAliveReaches(s, n);
      step := RunDelivery(a);
    }
  }

  lemma ShutdownReaches(s: State, n: nat) returns (step: Step)
    requires CLEANUP_PROCESS < s.pc <= STOP_BEGINS && n in Stopped(s)
    ensures Enabled(s, step) && !step.Env? && Next(s, step).pc == n && Next(s, step).failure == s.failure
  {
    hide CanOpening, CanLaunch, CanVerdict, CanDelivery, CanShutdown, CanCleanup, DoOpening, DoLaunch, DoVerdict,
      DoDelivery, DoShutdown, DoCleanup, When, Over;
    if s.pc == STOP_BEGINS {
      var a := StopBeginsReaches(s, n);
      step := RunShutdown(a);
    } else if s.pc == GRACE {
      var a := GraceReaches(s, n);
      step := RunShutdown(a);
    } else if s.pc == REAP {
      var a := ReapReaches(s, n);
      step := RunShutdown(a);
    } else if s.pc == STOP_DONE {
      var a := StopDoneReaches(s, n);
      step := RunShutdown(a);
    } else if s.pc == FINAL_CONTEXT {
      var a := FinalContextReaches(s, n);
      step := RunShutdown(a);
    } else {
      var a := FinalExportReaches(s, n);
      step := RunShutdown(a);
    }
  }

  lemma CleanupReaches(s: State, n: nat) returns (step: Step)
    requires ProgressInv(s) && OutcomeInv(s) && s.pc <= CLEANUP_PROCESS && n in Unwinding(s)
    ensures Enabled(s, step) && !step.Env? && Next(s, step).pc == n && Next(s, step).failure == s.failure
  {
    hide CanOpening, CanLaunch, CanVerdict, CanDelivery, CanShutdown, CanCleanup, DoOpening, DoLaunch, DoVerdict,
      DoDelivery, DoShutdown, DoCleanup, When, Over;
    if s.pc == CLEANUP_PROCESS {
      var a := CleanupProcessReaches(s, n);
      step := RunCleanup(a);
    } else if s.pc == CLEANUP_REAP {
      var a := CleanupReapReaches(s, n);
      step := RunCleanup(a);
    } else if s.pc == CLOSE_SINK {
      var a := CloseSinkReaches(s, n);
      step := RunCleanup(a);
    } else if s.pc == COLLECT {
      var a := CollectReaches(s, n);
      step := RunCleanup(a);
    } else {
      var a := RemoveDirReaches(s, n);
      step := RunCleanup(a);
    }
  }

  lemma Reaches(s: State, n: nat) returns (step: Step)
    requires Inv(s) && n in Successors(s)
    ensures Enabled(s, step) && !step.Env? && Next(s, step).pc == n && Next(s, step).failure == s.failure
  {
    hide AttemptsInv, FailureInv, SinkInv, VersionInv, ProgressInv, OutcomeInv, CauseInv, Enabled, Next, Opened,
      Launched, Checked, Settling, Stopped, Unwinding;
    if s.pc >= SETUP {
      step := OpeningReaches(s, n);
    } else if s.pc > CHECK_STARTED {
      step := LaunchReaches(s, n);
    } else if s.pc >= AFTER_LOOP {
      step := VerdictReaches(s, n);
    } else if s.pc > STOP_BEGINS {
      step := DeliveryReaches(s, n);
    } else if s.pc > CLEANUP_PROCESS {
      step := ShutdownReaches(s, n);
    } else {
      step := CleanupReaches(s, n);
    }
  }

  /** Some step of Run records this failure now. */
  ghost predicate CanReport(s: State, c: Category)
  {
    s.failure.None? && exists step :: Enabled(s, step) && !step.Env? && Next(s, step).failure == Some(c)
  }

  /** Some step of Run goes there without recording a failure. */
  ghost predicate CanReach(s: State, n: nat)
  {
    exists step :: Enabled(s, step) && !step.Env? && Next(s, step).pc == n && Next(s, step).failure == s.failure
  }

  /** At every moment of every run, Run can report exactly these categories and go on to exactly these points. */
  lemma DecisionsAreExact(cfg: Config, steps: seq<Step>)
    requires After(cfg, steps).Some?
    ensures var s := After(cfg, steps).value;
            (forall c :: CanReport(s, c) <==> c in Reportable(s)) && forall n :: CanReach(s, n) <==> n in Successors(s)
  {
    hide After, Inv, Reportable, Successors, Enabled, Next;
    EveryRunKeepsInv(cfg, steps);
    var s := After(cfg, steps).value;
    forall c ensures CanReport(s, c) <==> c in Reportable(s) {
      if CanReport(s, c) {
        var step :| Enabled(s, step) && !step.Env? && Next(s, step).failure == Some(c);
        StepFollows(s, step);
      }
      if c in Reportable(s) {
        OnlyUnfailed(s);
        AttemptsHold(s);
        var step := Reports(s, c);
      }
    }
    forall n ensures CanReach(s, n) <==> n in Successors(s) {
      if CanReach(s, n) {
        var step :| Enabled(s, step) && !step.Env? && Next(s, step).pc == n && Next(s, step).failure == s.failure;
        StepFollows(s, step);
      }
      if n in Successors(s) {
        var step := Reaches(s, n);
      }
    }
  }

  lemma AttemptsHold(s: State)
    requires Inv(s)
    ensures AttemptsInv(s)
  {
    hide AttemptsInv, FailureInv, SinkInv, VersionInv, ProgressInv, OutcomeInv, CauseInv;
  }

  lemma OnlyUnfailed(s: State)
    ensures s.failure.Some? ==> Reportable(s) == {}
  {
  }

  // ----- consequences -----

  /** Run gives up a submission: the capture's failure is reported if there is one, and otherwise the submission. */
  lemma GivenUpSubmission(cfg: Config, steps: seq<Step>, step: Step)
    requires After(cfg, steps).Some? && Enabled(After(cfg, steps).value, step) && !step.Env?
    requires After(cfg, steps).value.pc == SUBMIT_SINK
    ensures var s, t := After(cfg, steps).value, Next(After(cfg, steps).value, step);
            t.failure == Some(if s.sinkFailure.Some? then s.sinkFailure.value else Submission)
  {
    hide After, Inv, Enabled, Next;
    var s := After(cfg, steps).value;
    EveryRunKeepsInv(cfg, steps);
    StepFollows(s, step);
    NotYetFailed(s);
    assert SUBMIT_SINK != PREFLIGHT;
  }

  lemma NotYetFailed(s: State)
    requires Inv(s) && s.pc > CLEANUP_PROCESS
    ensures s.failure.None?
  {
  }

  /** Once a submission or a start has been given up with the context active, a capture that has failed is what Run
      reports, whatever happens meanwhile. */
  lemma {:induction false} CaptureFailureIsNamed(cfg: Config, steps: seq<Step>, more: seq<Step>, c: Category)
    requires After(cfg, steps).Some? && After(cfg, steps + more).Some?
    requires After(cfg, steps).value.pc in {SUBMIT_SINK, STARTUP_SINK}
    requires After(cfg, steps).value.sinkFailure == Some(c)
    ensures var s, t := After(cfg, steps).value, After(cfg, steps + more).value;
            (t.pc == s.pc && t.sinkFailure == Some(c)) || t.failure == Some(c)
  {
    hide Enabled, Next, Reportable, Successors;
    if more == [] {
      assert steps + more == steps;
    } else {
      var init, step := more[..|more| - 1], more[|more| - 1];
      var all := steps + more;
      assert all[..|all| - 1] == steps + init && all[|all| - 1] == step;
      CaptureFailureIsNamed(cfg, steps, init, c);
      CaptureFailureStays(cfg, steps + init, step, c);
    }
  }

  lemma CaptureFailureStays(cfg: Config, steps: seq<Step>, step: Step, c: Category)
    requires After(cfg, steps).Some? && Enabled(After(cfg, steps).value, step)
    requires var s := After(cfg, steps).value;
             s.failure == Some(c) || (s.pc in {SUBMIT_SINK, STARTUP_SINK} && s.sinkFailure == Some(c))
    ensures var s, t := After(cfg, steps).value, Next(After(cfg, steps).value, step);
            (s.failure == Some(c) ==> t.failure == Some(c)) &&
            (t.failure == Some(c) || (t.pc == s.pc && t.sinkFailure == Some(c)))
  {
    hide After, Inv, CanOpening, CanLaunch, CanVerdict, CanDelivery, CanShutdown, CanCleanup, May, DoOpening, DoLaunch,
      DoVerdict, DoDelivery, DoShutdown, DoCleanup, Happen;
    var s := After(cfg, steps).value;
    EveryRunKeepsInv(cfg, steps);
    StepFrame(s, step);
    if step.Env? {
      EventTouches(s, step.event);
      EventKeepsFinal(s, step.event);
    } else {
      StepFollows(s, step);
      if s.failure.None? {
        hide Enabled, Next;
        AtSinkTest(s);
      }
    }
  }

  lemma AtSinkTest(s: State)
    requires s.pc in {SUBMIT_SINK, STARTUP_SINK} && s.sinkFailure.Some? && s.failure.None?
    ensures Reportable(s) == {s.sinkFailure.value} && Successors(s) == {}
  {
  }

  /** Submission is reported only when the capture has not failed. */
  lemma SubmissionMeansNoCaptureFailure(cfg: Config, steps: seq<Step>, step: Step)
    requires After(cfg, steps).Some? && Enabled(After(cfg, steps).value, step)
    requires Fails(After(cfg, steps).value, step) && Next(After(cfg, steps).value, step).failure == Some(Submission)
    ensures After(cfg, steps).value.sinkFailure.None? && After(cfg, steps).value.sent < cfg.signals
  {
    hide After, Inv, Enabled, Next;
    var s := After(cfg, steps).value;
    EveryRunKeepsInv(cfg, steps);
    if step.Env? {
      StepFrame(s, step);
      EventKeepsNoFailure(s, step);
    } else {
      StepFollows(s, step);
      SubmissionReported(s);
    }
  }

  lemma EventKeepsNoFailure(s: State, step: Step)
    requires Enabled(s, step) && step.Env?
    ensures Next(s, step).failure == s.failure
  {
    hide May, Happen;
    EventFrame(s, step.event);
  }

  lemma SubmissionReported(s: State)
    requires Inv(s) && Submission in Reportable(s)
    ensures s.sinkFailure.None? && s.sent < s.cfg.signals
  {
    hide AttemptsInv, OutcomeInv, VersionInv, ProgressInv;
    CaptureNeverNamesSubmission(s);
  }

  lemma CaptureNeverNamesSubmission(s: State)
    requires ReasonInv(s)
    ensures Submission !in CaptureName(s)
  {
  }
}
