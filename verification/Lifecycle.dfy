/** One run of a supplied Collector (internal/runner/collector.go with childProcess.stop and record of
    internal/runner/process.go) as a transition system: the thread of Run takes its steps in program
    order, and between any two of them the child, the clock, the caller and the capture server may act. */
module Lifecycle {
  import opened Strings

  const GRACE_MS := 3000
  const REAP_MS := 1000
  const VERSION_MS := 2000
  const ATTEMPTS := 3

  datatype Exit = Clean | NonZero | Signaled
  datatype Child = Absent | Live | Gone(exit: Exit)
  datatype Context = Active | Canceled | TimedOut
  datatype Category =
    | UnsupportedPlatform | BinaryRequired | BinaryUnavailable | ConfigInput | FixtureInput | FixtureLimit
    | UnsupportedTopology | HarnessIo | CaptureStart | ReceiverAddress | HarnessConfig | ProcessStart
    | MissingComponent | InvalidConfig | ProcessExit | BindConflict | StartupTimeout | RunTimeout | RunCanceled
    | Submission | ShutdownError | ExportFailure | CleanupError
    | CaptureLimit | CaptureTransport | CaptureServer | CaptureShutdown
  datatype ExitStatus = NotStarted | StillRunning | Exited | KilledBySignal | Forced
  /** Why childProcess.stop returned an error. */
  datatype StopError = SignalFailed | KillFailed | NeededForce | NotReaped
  datatype Sink = Unopened | Open | Closed

  /** The populated signals to submit (none: nothing to execute) and the settling interval. */
  datatype Config = Config(signals: nat, settle: nat)

  /** Program points of Run, numbered by their distance from its return. */
  const PREFLIGHT := 30
  const VERSION_QUERY := 29
  const VERSION_ANSWERED := 28
  const SETUP := 27
  const ATTEMPT_TOP := 26
  const PREPARE := 25
  const CONNECTING := 24
  const AWAIT_READY := 23
  const CHECK_STARTED := 22
  const STARTUP_FAILED := 21
  const STARTUP_SINK := 20
  const STARTUP_CONTEXT := 19
  const AFTER_LOOP := 18
  const SUBMIT := 17
  const SUBMIT_CONTEXT := 16
  const SUBMIT_SINK := 15
  const SETTLE := 14
  const CHECK_ALIVE := 13
  const STOP_BEGINS := 12
  const GRACE := 11
  const REAP := 10
  const STOP_ERRED := 9
  const STOP_DONE := 8
  const FINAL_CONTEXT := 7
  const FINAL_EXPORT := 6
  const CLEANUP_PROCESS := 5
  const CLEANUP_REAP := 4
  const CLOSE_SINK := 3
  const COLLECT := 2
  const REMOVE_DIR := 1
  const RETURNED := 0

  datatype State = State(
    cfg: Config, pc: nat, now: nat, ctx: Context, startupExpired: bool,
    version: Child, abandoned: bool,
    child: Child, forced: bool, ready: bool, exportFailure: bool, bindConflict: bool,
    attempt: nat, started: nat, refused: bool, connected: bool, sent: nat,
    timer: nat, submittedAt: nat, settleEnd: nat, stopAt: nat, stopError: Option<StopError>,
    sink: Sink, sinkFailure: Option<Category>,
    failure: Option<Category>, failures: nat, exitStatus: ExitStatus)

  function Init(cfg: Config): State
  {
    State(cfg, PREFLIGHT, 0, Active, false, Absent, false,
          Absent, false, false, false, false, 0, 0, false, false, 0, 0, 0, 0, 0, None,
          Unopened, None, None, 0, NotStarted)
  }

  // ----- steps of Run: one guarded action per branch -----

  /** What happens before the first attempt. */
  datatype Opening =
    | PreflightFails(category: Category) | ChecksumInterrupted | StartVersion | SkipVersion | VersionFinished
    | VersionKilled
    | VersionAbandoned | VersionInterrupted | NothingToRun | Proceed | SetupFails(category: Category)
    | SetupDone

  /** One attempt to start a Collector and to see it ready. */
  datatype Launch =
    | LoopExhausted | StartupTooLate | BeginAttempt | PrepareFails(category: Category) | ChildStarts
    | ClientRefused | Connected | ConnectGivesUp | ReadinessSeen | ReadinessGivesUp

  /** What becomes of an attempt. */
  datatype Verdict =
    | StartConfirmed | StartedButExited | Retry | ExitedInStartup(category: Category) | StillUp
    | StartupSinkFailed | StartupSinkFine | NeverReady | NoConnection | LoopLeft

  /** Submission and settling. */
  datatype Delivery =
    | ExportAccepted | SubmissionDone | ExportFails | SubmitInterrupted | SubmitContextFine | SubmitRejected
    | SettleInterrupted | SettleExit | SettleSinkFailed | SettleElapsed | DiedBeforeStop | AliveToStop

  /** childProcess.stop with a grace period, and the checks after it. */
  datatype Shutdown =
    | AlreadyExited | TermSent | TermFails | GraceExit | GraceKills | GraceKillFails | ReapExit | ReapOver
    | StopFailed | UncleanExit | CleanExit | FinalInterrupted | FinalContextFine | ExportReported | RunSucceeds

  /** The deferred functions. */
  datatype Cleanup =
    | NoLeftover | AlreadyGone | LeftoverKilled | LeftoverUnkillable | LeftoverGone | LeftoverStuck
    | SinkDrained | SinkDrainTimedOut | OutputCaptured | CaptureFailed | DirRemoved | DirStuck

  const PreflightCategories := {UnsupportedPlatform, RunTimeout, RunCanceled, BinaryRequired, BinaryUnavailable,
                                ConfigInput, FixtureInput, FixtureLimit, UnsupportedTopology}
  const CaptureCategories := {CaptureLimit, CaptureTransport, CaptureServer}
  const SetupCategories := {HarnessIo, CaptureStart}
  const PrepareCategories := {ReceiverAddress, HarnessConfig, HarnessIo, ProcessStart}
  const ExitCategories := {MissingComponent, InvalidConfig, ProcessExit}

  /** The fail closure: record the category, go to the deferred work that is due. */
  function Fail(s: State, category: Category, next: nat): State
  {
    s.(failure := Some(category), failures := s.failures + 1, pc := next)
  }

  /** A deferred failure counts only when Run was about to return nil. */
  function FailIfNone(s: State, category: Category, next: nat): State
  {
    s.(failure := if s.failure.None? then Some(category) else s.failure,
       failures := if s.failure.None? then s.failures + 1 else s.failures, pc := next)
  }

  function ContextCategory(c: Context): Category
  {
    if c.Canceled? then RunCanceled else RunTimeout
  }

  /** childProcess.record */
  function Recorded(s: State): State
  {
    s.(exitStatus := if s.forced then Forced else if s.child == Gone(Signaled) then KilledBySignal
                     else if s.child.Gone? then Exited else StillRunning)
  }

  /** The context that monitors start-up, or the one that monitors submission. */
  predicate StartupDone(s: State)
  {
    s.startupExpired || s.ctx != Active || s.child.Gone? || s.sinkFailure.Some?
  }

  predicate CanOpening(s: State, a: Opening)
  {
    match a
    case PreflightFails(c) =>
      s.pc == PREFLIGHT && c in PreflightCategories &&
      (c == RunCanceled ==> s.ctx == Canceled) && (c == RunTimeout ==> s.ctx == TimedOut)
    case ChecksumInterrupted => s.pc == PREFLIGHT && s.ctx != Active
    case StartVersion => s.pc == PREFLIGHT
    case SkipVersion => s.pc == PREFLIGHT
    case VersionFinished => s.pc == VERSION_QUERY && s.version.Gone?
    case VersionKilled => s.pc == VERSION_QUERY && s.version.Live? && (s.now >= s.timer || s.ctx != Active)
    case VersionAbandoned => s.pc == VERSION_QUERY && s.version.Live? && (s.now >= s.timer || s.ctx != Active)
    case VersionInterrupted => s.pc == VERSION_ANSWERED && s.ctx != Active
    case NothingToRun => s.pc == VERSION_ANSWERED && s.ctx == Active && s.cfg.signals == 0
    case Proceed => s.pc == VERSION_ANSWERED && s.ctx == Active && s.cfg.signals > 0
    case SetupFails(c) => s.pc == SETUP && c in SetupCategories
    case SetupDone => s.pc == SETUP
  }

  function DoOpening(s: State, a: Opening): State
    requires CanOpening(s, a)
  {
    match a
    case PreflightFails(c) => Fail(s, c, RETURNED)
    case ChecksumInterrupted => Fail(s, RunTimeout, RETURNED)
    case StartVersion => s.(pc := VERSION_QUERY, version := Live, timer := s.now + VERSION_MS)
    case SkipVersion => s.(pc := VERSION_ANSWERED)
    case VersionFinished => s.(pc := VERSION_ANSWERED)
    case VersionKilled => s.(pc := VERSION_ANSWERED, version := Gone(Signaled))
    case VersionAbandoned => s.(pc := VERSION_ANSWERED, abandoned := true)
    case VersionInterrupted => Fail(s, ContextCategory(s.ctx), RETURNED)
    case NothingToRun => s.(pc := RETURNED)
    case Proceed => s.(pc := SETUP)
    case SetupFails(c) => Fail(s, c, REMOVE_DIR)
    case SetupDone => s.(pc := ATTEMPT_TOP, sink := Open)
  }

  predicate CanLaunch(s: State, a: Launch)
  {
    match a
    case LoopExhausted => s.pc == ATTEMPT_TOP && s.attempt >= ATTEMPTS
    case StartupTooLate => s.pc == ATTEMPT_TOP && s.attempt < ATTEMPTS && (s.startupExpired || s.ctx != Active)
    case BeginAttempt => s.pc == ATTEMPT_TOP && s.attempt < ATTEMPTS && !s.startupExpired && s.ctx == Active
    case PrepareFails(c) => s.pc == PREPARE && c in PrepareCategories
    case ChildStarts => s.pc == PREPARE
    case ClientRefused => s.pc == CONNECTING
    case Connected => s.pc == CONNECTING
    case ConnectGivesUp => s.pc == CONNECTING && StartupDone(s)
    case ReadinessSeen => s.pc == AWAIT_READY && s.ready
    case ReadinessGivesUp => s.pc == AWAIT_READY && StartupDone(s)
  }

  function DoLaunch(s: State, a: Launch): State
    requires CanLaunch(s, a)
  {
    match a
    case LoopExhausted => s.(pc := AFTER_LOOP)
    case StartupTooLate => Fail(s, StartupTimeout, CLEANUP_PROCESS)
    case BeginAttempt => s.(pc := PREPARE)
    case PrepareFails(c) => Fail(s.(child := if c == ProcessStart then Absent else s.child), c, CLEANUP_PROCESS)
    case ChildStarts => s.(pc := CONNECTING, child := Live, forced := false, ready := false, exportFailure := false,
         bindConflict := false, refused := false, started := s.started + 1, exitStatus := StillRunning)
    case ClientRefused => s.(pc := STARTUP_FAILED, refused := true)
    case Connected => s.(pc := AWAIT_READY, connected := true)
    case ConnectGivesUp => s.(pc := STARTUP_FAILED)
    case ReadinessSeen => s.(pc := CHECK_STARTED)
    case ReadinessGivesUp => s.(pc := STARTUP_FAILED, connected := false)
  }

  predicate CanVerdict(s: State, a: Verdict)
  {
    match a
    case StartConfirmed => s.pc == CHECK_STARTED && !s.child.Gone?
    case StartedButExited => s.pc == CHECK_STARTED && s.child.Gone?
    case Retry => s.pc == STARTUP_FAILED && s.child.Gone? && s.bindConflict && s.attempt < ATTEMPTS - 1
    case ExitedInStartup(c) => s.pc == STARTUP_FAILED && s.child.Gone? && c in ExitCategories &&
      !(s.bindConflict && s.attempt < ATTEMPTS - 1)
    case StillUp => s.pc == STARTUP_FAILED && !s.child.Gone?
    case StartupSinkFailed => s.pc == STARTUP_SINK && s.sinkFailure.Some?
    case StartupSinkFine => s.pc == STARTUP_SINK && s.sinkFailure.None?
    case NeverReady => s.pc == STARTUP_CONTEXT
    case NoConnection => s.pc == AFTER_LOOP && !s.connected
    case LoopLeft => s.pc == AFTER_LOOP && s.connected
  }

  function DoVerdict(s: State, a: Verdict): State
    requires CanVerdict(s, a)
  {
    match a
    case StartConfirmed => s.(pc := AFTER_LOOP)
    case StartedButExited => s.(pc := STARTUP_FAILED, connected := false)
    case Retry => s.(pc := ATTEMPT_TOP, attempt := s.attempt + 1)
    case ExitedInStartup(c) => Fail(s, if s.bindConflict then BindConflict else c, CLEANUP_PROCESS)
    case StillUp => s.(pc := STARTUP_SINK)
    case StartupSinkFailed => Fail(s, s.sinkFailure.value, CLEANUP_PROCESS)
    case StartupSinkFine => s.(pc := STARTUP_CONTEXT)
    case NeverReady => Fail(s, if s.ctx != Active then ContextCategory(s.ctx) else StartupTimeout, CLEANUP_PROCESS)
    case NoConnection => Fail(s, BindConflict, CLEANUP_PROCESS)
    case LoopLeft => s.(pc := SUBMIT)
  }

  predicate CanDelivery(s: State, a: Delivery)
  {
    match a
    case ExportAccepted => s.pc == SUBMIT && s.sent < s.cfg.signals
    case SubmissionDone => s.pc == SUBMIT && s.sent == s.cfg.signals
    case ExportFails => s.pc == SUBMIT && s.sent < s.cfg.signals
    case SubmitInterrupted => s.pc == SUBMIT_CONTEXT && s.ctx != Active
    case SubmitContextFine => s.pc == SUBMIT_CONTEXT && s.ctx == Active
    case SubmitRejected => s.pc == SUBMIT_SINK
    case SettleInterrupted => s.pc == SETTLE && s.ctx != Active
    case SettleExit => s.pc == SETTLE && s.child.Gone?
    case SettleSinkFailed => s.pc == SETTLE && s.sinkFailure.Some?
    case SettleElapsed => s.pc == SETTLE && s.now >= s.settleEnd
    case DiedBeforeStop => s.pc == CHECK_ALIVE && s.child.Gone?
    case AliveToStop => s.pc == CHECK_ALIVE && !s.child.Gone?
  }

  function DoDelivery(s: State, a: Delivery): State
    requires CanDelivery(s, a)
  {
    match a
    case ExportAccepted => s.(sent := s.sent + 1)
    case SubmissionDone => s.(pc := SETTLE, submittedAt := s.now, settleEnd := s.now + s.cfg.settle)
    case ExportFails => s.(pc := SUBMIT_CONTEXT)
    case SubmitInterrupted => Fail(s, ContextCategory(s.ctx), CLEANUP_PROCESS)
    case SubmitContextFine => s.(pc := SUBMIT_SINK)
    case SubmitRejected => Fail(s, if s.sinkFailure.Some? then s.sinkFailure.value else Submission, CLEANUP_PROCESS)
    case SettleInterrupted => Fail(s, ContextCategory(s.ctx), CLEANUP_PROCESS)
    case SettleExit => Fail(s, ProcessExit, CLEANUP_PROCESS)
    case SettleSinkFailed => Fail(s, s.sinkFailure.value, CLEANUP_PROCESS)
    case SettleElapsed => s.(pc := CHECK_ALIVE)
    case DiedBeforeStop => Fail(s, ProcessExit, CLEANUP_PROCESS)
    case AliveToStop => s.(pc := STOP_BEGINS, stopAt := s.now)
  }

  predicate CanShutdown(s: State, a: Shutdown)
  {
    match a
    case AlreadyExited => s.pc == STOP_BEGINS && s.child.Gone?
    case TermSent => s.pc == STOP_BEGINS && !s.child.Gone?
    case TermFails => s.pc == STOP_BEGINS && !s.child.Gone?
    case GraceExit => s.pc == GRACE && s.child.Gone?
    case GraceKills => s.pc == GRACE && (s.ctx != Active || s.now >= s.timer)
    case GraceKillFails => s.pc == GRACE && (s.ctx != Active || s.now >= s.timer)
    case ReapExit => s.pc == REAP && s.child.Gone?
    case ReapOver => s.pc == REAP && s.now >= s.timer
    case StopFailed => s.pc == STOP_ERRED
    case UncleanExit => s.pc == STOP_DONE && s.child != Gone(Clean)
    case CleanExit => s.pc == STOP_DONE && s.child == Gone(Clean)
    case FinalInterrupted => s.pc == FINAL_CONTEXT && s.ctx != Active
    case FinalContextFine => s.pc == FINAL_CONTEXT && s.ctx == Active
    case ExportReported => s.pc == FINAL_EXPORT && s.exportFailure
    case RunSucceeds => s.pc == FINAL_EXPORT && !s.exportFailure
  }

  function DoShutdown(s: State, a: Shutdown): State
    requires CanShutdown(s, a)
  {
    match a
    case AlreadyExited => s.(pc := STOP_DONE)
    case TermSent => s.(pc := GRACE, timer := s.now + GRACE_MS)
    case TermFails => s.(pc := STOP_ERRED, stopError := Some(SignalFailed))
    case GraceExit => s.(pc := STOP_DONE)
    case GraceKills => s.(pc := REAP, forced := true, timer := s.now + REAP_MS)
    case GraceKillFails => s.(pc := STOP_ERRED, forced := true, stopError := Some(KillFailed))
    case ReapExit => s.(pc := STOP_ERRED, stopError := Some(NeededForce))
    case ReapOver => s.(pc := STOP_ERRED, stopError := Some(NotReaped))
    case StopFailed =>
      Fail(Recorded(s), if s.ctx != Active then ContextCategory(s.ctx) else ShutdownError, CLEANUP_PROCESS)
    case UncleanExit => Fail(Recorded(s), ProcessExit, CLEANUP_PROCESS)
    case CleanExit => Recorded(s).(pc := FINAL_CONTEXT)
    case FinalInterrupted => Fail(s, ContextCategory(s.ctx), CLEANUP_PROCESS)
    case FinalContextFine => s.(pc := FINAL_EXPORT)
    case ExportReported => Fail(s, ExportFailure, CLEANUP_PROCESS)
    case RunSucceeds => s.(pc := CLEANUP_PROCESS)
  }

  predicate CanCleanup(s: State, a: Cleanup)
  {
    match a
    case NoLeftover => s.pc == CLEANUP_PROCESS && s.child.Absent?
    case AlreadyGone => s.pc == CLEANUP_PROCESS && s.child.Gone?
    case LeftoverKilled => s.pc == CLEANUP_PROCESS && s.child.Live?
    case LeftoverUnkillable => s.pc == CLEANUP_PROCESS && s.child.Live?
    case LeftoverGone => s.pc == CLEANUP_REAP && s.child.Gone?
    case LeftoverStuck => s.pc == CLEANUP_REAP && s.now >= s.timer
    case SinkDrained => s.pc == CLOSE_SINK
    case SinkDrainTimedOut => s.pc == CLOSE_SINK
    case OutputCaptured => s.pc == COLLECT && s.sinkFailure.None?
    case CaptureFailed => s.pc == COLLECT && s.sinkFailure.Some?
    case DirRemoved => s.pc == REMOVE_DIR
    case DirStuck => s.pc == REMOVE_DIR
  }

  function DoCleanup(s: State, a: Cleanup): State
    requires CanCleanup(s, a)
  {
    match a
    case NoLeftover => s.(connected := false, pc := CLOSE_SINK)
    case AlreadyGone => Recorded(s).(connected := false, pc := CLOSE_SINK)
    case LeftoverKilled => s.(connected := false, forced := true, timer := s.now + REAP_MS, pc := CLEANUP_REAP)
    case LeftoverUnkillable => FailIfNone(Recorded(s.(connected := false, forced := true)), CleanupError, CLOSE_SINK)
    case LeftoverGone => Recorded(s).(pc := CLOSE_SINK)
    case LeftoverStuck => FailIfNone(Recorded(s), CleanupError, CLOSE_SINK)
    case SinkDrained => s.(pc := COLLECT, sink := Closed)
    case SinkDrainTimedOut =>
      s.(pc := COLLECT, sink := Closed,
         sinkFailure := if s.sinkFailure.None? then Some(CaptureShutdown) else s.sinkFailure)
    case OutputCaptured => s.(pc := REMOVE_DIR)
    case CaptureFailed => FailIfNone(s, s.sinkFailure.value, REMOVE_DIR)
    case DirRemoved => s.(pc := RETURNED)
    case DirStuck => FailIfNone(s, CleanupError, RETURNED)
  }

  // ----- steps of everything else -----

  datatype Event =
    | ChildExits(exit: Exit) | ReadyLine | ExportFailureLine | BindConflictLine | ConflictScrolledOff
    | VersionExits(exit: Exit) | CallerCancels | RunExpires | StartupExpires
    | CaptureFails(category: Category) | Tick

  /** Output stops with the process, a context stays done, the capture keeps its first failure and serves until
      closed. The two log flags are sticky; a bind conflict is read from the bytes kept, so later output can push
      it out. */
  predicate May(s: State, e: Event)
  {
    match e
    case ChildExits(_) => s.child.Live?
    case ReadyLine => s.child.Live?
    case ExportFailureLine => s.child.Live?
    case BindConflictLine => s.child.Live?
    case ConflictScrolledOff => s.child.Live?
    case VersionExits(_) => s.version.Live?
    case CallerCancels => s.ctx.Active?
    case RunExpires => s.ctx.Active?
    case StartupExpires => true
    case CaptureFails(c) => s.sink.Open? && c in CaptureCategories
    case Tick => true
  }

  function Happen(s: State, e: Event): State
    requires May(s, e)
  {
    match e
    case ChildExits(x) => s.(child := Gone(x))
    case ReadyLine => s.(ready := true)
    case ExportFailureLine => s.(exportFailure := true)
    case BindConflictLine => s.(bindConflict := true)
    case ConflictScrolledOff => s.(bindConflict := false)
    case VersionExits(x) => s.(version := Gone(x))
    case CallerCancels => s.(ctx := Canceled)
    case RunExpires => s.(ctx := TimedOut)
    case StartupExpires => s.(startupExpired := true)
    case CaptureFails(c) => s.(sinkFailure := if s.sinkFailure.None? then Some(c) else s.sinkFailure)
    case Tick => s.(now := s.now + 1)
  }

  // ----- interleavings -----

  datatype Step =
    | RunOpening(opening: Opening)
    | RunLaunch(launch: Launch)
    | RunVerdict(verdict: Verdict)
    | RunDelivery(delivery: Delivery)
    | RunShutdown(shutdown: Shutdown)
    | RunCleanup(cleanup: Cleanup)
    | Env(event: Event)

  predicate Enabled(s: State, step: Step)
  {
    match step
    case RunOpening(a) => CanOpening(s, a)
    case RunLaunch(a) => CanLaunch(s, a)
    case RunVerdict(a) => CanVerdict(s, a)
    case RunDelivery(a) => CanDelivery(s, a)
    case RunShutdown(a) => CanShutdown(s, a)
    case RunCleanup(a) => CanCleanup(s, a)
    case Env(e) => May(s, e)
  }

  function Next(s: State, step: Step): State
    requires Enabled(s, step)
  {
    match step
    case RunOpening(a) => DoOpening(s, a)
    case RunLaunch(a) => DoLaunch(s, a)
    case RunVerdict(a) => DoVerdict(s, a)
    case RunDelivery(a) => DoDelivery(s, a)
    case RunShutdown(a) => DoShutdown(s, a)
    case RunCleanup(a) => DoCleanup(s, a)
    case Env(e) => Happen(s, e)
  }

  /** The state after an interleaving, if every step of it could be taken. */
  function After(cfg: Config, steps: seq<Step>): Option<State>
  {
    if steps == [] then Some(Init(cfg)) else
    var s := After(cfg, steps[..|steps| - 1]);
    if s.Some? && Enabled(s.value, steps[|steps| - 1]) then Some(Next(s.value, steps[|steps| - 1])) else None
  }

  // ----- the invariant -----

  predicate BeforeStart(pc: nat)
  {
    SETUP <= pc <= PREFLIGHT
  }

  predicate BetweenAttempts(pc: nat)
  {
    PREPARE <= pc <= ATTEMPT_TOP
  }

  predicate Starting(pc: nat)
  {
    STARTUP_CONTEXT <= pc <= CONNECTING
  }

  /** The loop was left with a connection. */
  predicate Submitting(pc: nat)
  {
    SUBMIT_SINK <= pc <= AFTER_LOOP
  }

  predicate Draining(pc: nat)
  {
    FINAL_EXPORT <= pc <= SETTLE
  }

  predicate Stopping(pc: nat)
  {
    FINAL_EXPORT <= pc <= STOP_BEGINS
  }

  predicate Deferred(pc: nat)
  {
    pc <= CLEANUP_PROCESS
  }

  /** Stopping began only after the whole settling interval that followed the last submission. */
  predicate SettledBeforeStop(s: State)
  {
    s.submittedAt + s.cfg.settle <= s.stopAt <= s.now
  }

  /** What a run that has not failed by its deferred work has established. */
  predicate Proven(s: State)
  {
    s.ready && s.sent == s.cfg.signals && SettledBeforeStop(s) && s.child == Gone(Clean) && !s.forced &&
    s.stopError.None? && !s.exportFailure && s.exitStatus == Exited
  }

  predicate AttemptsInv(s: State)
  {
    s.attempt < ATTEMPTS &&
    (BeforeStart(s.pc) ==> s.started == 0 && s.attempt == 0 && s.child.Absent?) &&
    (BetweenAttempts(s.pc) ==> s.started == s.attempt && !s.child.Live?) &&
    (Starting(s.pc) || Submitting(s.pc) || Draining(s.pc) ==> s.started == s.attempt + 1 && !s.child.Absent?) &&
    s.started <= s.attempt + 1
  }

  predicate FailureInv(s: State)
  {
    s.failures == (if s.failure.Some? then 1 else 0) &&
    (s.failure.Some? ==> Deferred(s.pc))
  }

  predicate ProgressInv(s: State)
  {
    (s.pc == AWAIT_READY || s.pc == CHECK_STARTED ==> s.connected) && (s.pc == CHECK_STARTED ==> s.ready) &&
    (Submitting(s.pc) || Draining(s.pc) ==> s.connected && s.ready) &&
    ((!Submitting(s.pc) && !Draining(s.pc) && !Deferred(s.pc)) || s.pc == AFTER_LOOP ==> s.sent == 0) &&
    (Draining(s.pc) ==> s.sent == s.cfg.signals) && s.sent <= s.cfg.signals &&
    (Draining(s.pc) ==> s.settleEnd == s.submittedAt + s.cfg.settle) &&
    (s.pc == CHECK_ALIVE ==> s.now >= s.settleEnd) && (Stopping(s.pc) ==> SettledBeforeStop(s)) &&
    (!Deferred(s.pc) ==> (s.stopError.Some? <==> s.pc == STOP_ERRED)) &&
    (s.pc == REAP || (s.stopError.Some? && s.stopError != Some(SignalFailed)) ==> s.forced) &&
    (Submitting(s.pc) || Starting(s.pc) || (Draining(s.pc) && s.pc != REAP && s.pc != STOP_ERRED) ==> !s.forced) &&
    (s.pc == STOP_DONE ==> s.child.Gone?) &&
    (s.pc == FINAL_CONTEXT || s.pc == FINAL_EXPORT ==> s.child == Gone(Clean) && s.exitStatus == Exited) &&
    (RETURNED < s.pc <= SETUP || s.sink != Unopened ==> s.cfg.signals > 0)
  }

  /** The capture server has been started and not yet been told to stop. */
  predicate Capturing(pc: nat)
  {
    CLOSE_SINK <= pc <= ATTEMPT_TOP
  }

  predicate SinkInv(s: State)
  {
    (BeforeStart(s.pc) ==> s.sink.Unopened?) &&
    (Capturing(s.pc) ==> s.sink.Open?) &&
    (s.pc == COLLECT ==> s.sink.Closed?)
  }

  predicate OutcomeInv(s: State)
  {
    (Deferred(s.pc) && s.failure.None? && s.cfg.signals > 0 ==> Proven(s)) &&
    ((s.pc == REMOVE_DIR || s.pc == RETURNED) && s.failure.None? && s.cfg.signals > 0 ==>
       s.sink.Closed? && s.sinkFailure.None?) &&
    (s.pc == CLEANUP_REAP || (s.pc == CLOSE_SINK && s.child.Live?) ==> s.failure.Some?) &&
    (s.sink.Closed? && s.child.Live? ==> s.failure.Some?)
  }

  predicate VersionInv(s: State)
  {
    (s.pc == PREFLIGHT ==> s.version.Absent?) && (s.version.Live? && s.pc != VERSION_QUERY ==> s.abandoned) &&
    (s.pc == PREFLIGHT || s.pc == VERSION_QUERY ==> !s.abandoned) && (s.pc == VERSION_QUERY ==> !s.version.Absent?)
  }

  /** Why an attempt to start was given up. */
  predicate StartupOver(s: State)
  {
    s.startupExpired || s.ctx != Active || s.refused
  }

  /** Why Run is where it is, when that is no longer visible in its position alone. */
  predicate ReasonInv(s: State)
  {
    (s.sinkFailure.Some? ==> s.sinkFailure.value in CaptureCategories || s.sinkFailure.value == CaptureShutdown) &&
    (s.pc == STARTUP_FAILED ==> StartupOver(s) || s.child.Gone? || s.sinkFailure.Some?) &&
    (s.pc == STARTUP_SINK ==> StartupOver(s) || s.sinkFailure.Some?) &&
    (s.pc == STARTUP_CONTEXT ==> StartupOver(s)) &&
    (s.pc == SUBMIT_CONTEXT || s.pc == SUBMIT_SINK ==> s.sent < s.cfg.signals)
  }

  /** What a recorded category says about the run. */
  predicate Explains(c: Category, s: State)
  {
    match c
    case UnsupportedPlatform => Untouched(s)
    case BinaryRequired => Untouched(s)
    case BinaryUnavailable => Untouched(s)
    case ConfigInput => Untouched(s)
    case FixtureInput => Untouched(s)
    case FixtureLimit => Untouched(s)
    case UnsupportedTopology => Untouched(s)
    case CaptureStart => s.started == 0 && s.sink.Unopened?
    case HarnessIo => NotRunning(s)
    case ReceiverAddress => NotRunning(s)
    case HarnessConfig => NotRunning(s)
    case ProcessStart => NotRunning(s)
    case MissingComponent => s.child.Gone? && !s.bindConflict && s.sent == 0 && s.started > 0
    case InvalidConfig => s.child.Gone? && !s.bindConflict && s.sent == 0 && s.started > 0
    case ProcessExit => s.child.Gone?
    case BindConflict => s.child.Gone? && s.bindConflict && s.sent == 0 && s.started == ATTEMPTS
    case StartupTimeout => StartupOver(s) && s.sent == 0
    case RunTimeout => s.ctx != Active
    case RunCanceled => s.ctx == Canceled
    case Submission => s.sent < s.cfg.signals
    case ShutdownError => s.stopError.Some? && s.sent == s.cfg.signals && SettledBeforeStop(s)
    case ExportFailure => s.exportFailure && s.child == Gone(Clean) && s.sent == s.cfg.signals && SettledBeforeStop(s)
    case CleanupError => Proven(s) && s.sink.Closed? && s.sinkFailure.None?
    case CaptureLimit => s.sinkFailure == Some(c)
    case CaptureTransport => s.sinkFailure == Some(c)
    case CaptureServer => s.sinkFailure == Some(c)
    case CaptureShutdown => s.sinkFailure == Some(c)
  }

  /** Nothing was started: no version query, no capture, no Collector. */
  predicate Untouched(s: State)
  {
    s.started == 0 && s.version.Absent? && s.sink.Unopened?
  }

  /** Nothing was submitted and the attempt had no process. */
  predicate NotRunning(s: State)
  {
    s.sent == 0 && s.started == s.attempt && !s.child.Live?
  }

  predicate CauseInv(s: State)
  {
    ReasonInv(s) && (s.failure.Some? ==> Explains(s.failure.value, s))
  }

  predicate Bookkeeping(s: State)
  {
    s.pc <= PREFLIGHT && AttemptsInv(s) && FailureInv(s) && SinkInv(s) && VersionInv(s)
  }

  predicate Inv(s: State)
  {
    Bookkeeping(s) && ProgressInv(s) && OutcomeInv(s) && CauseInv(s)
  }

  /** What a step of Run never undoes, and that it leads closer to the return. */
  predicate Descends(s: State, t: State)
  {
    t.cfg == s.cfg && (s.failure.Some? ==> t.failure == s.failure) &&
    (t.attempt != s.attempt ==>
       t.attempt == s.attempt + 1 && s.child.Gone? && s.bindConflict && s.sent == 0 && s.failure.None?) &&
    (t.started != s.started ==> t.started == s.started + 1 && !s.child.Live? && s.sent == 0) &&
    (t.attempt > s.attempt || t.pc < s.pc ||
     (t.pc == s.pc && s.sent < t.sent <= s.cfg.signals))
  }

  lemma EventKeepsBookkeeping(s: State, e: Event)
    requires Bookkeeping(s) && May(s, e)
    ensures Bookkeeping(Happen(s, e))
  {
  }

  lemma EventKeepsProgress(s: State, e: Event)
    requires Bookkeeping(s) && ProgressInv(s) && May(s, e)
    ensures ProgressInv(Happen(s, e))
  {
    hide VersionInv, SinkInv;
    match e {
      case ChildExits(x) =>
      case ReadyLine =>
      case ExportFailureLine =>
      case BindConflictLine =>
      case ConflictScrolledOff =>
      case VersionExits(x) =>
      case CallerCancels =>
      case RunExpires =>
      case StartupExpires =>
      case CaptureFails(c) =>
      case Tick =>
    }
  }

  lemma EventKeepsOutcome(s: State, e: Event)
    requires Bookkeeping(s) && ProgressInv(s) && OutcomeInv(s) && May(s, e)
    ensures OutcomeInv(Happen(s, e))
  {
    hide VersionInv;
    match e {
      case ChildExits(x) =>
      case ReadyLine =>
      case ExportFailureLine =>
      case BindConflictLine =>
      case ConflictScrolledOff =>
      case VersionExits(x) =>
      case CallerCancels =>
      case RunExpires =>
      case StartupExpires =>
      case CaptureFails(c) =>
      case Tick =>
    }
  }

  lemma EventKeepsCause(s: State, e: Event)
    requires CauseInv(s) && May(s, e)
    ensures CauseInv(Happen(s, e))
  {
    hide Explains;
    EventKeepsReason(s, e);
    EventFrame(s, e);
    if s.failure.Some? {
      EventKeepsExplanation(s, e);
      OutlastsExplains(s, Happen(s, e), s.failure.value);
    }
  }

  lemma EventKeepsReason(s: State, e: Event)
    requires ReasonInv(s) && May(s, e)
    ensures ReasonInv(Happen(s, e))
  {
    match e {
      case ChildExits(x) =>
      case ReadyLine =>
      case ExportFailureLine =>
      case BindConflictLine =>
      case ConflictScrolledOff =>
      case VersionExits(x) =>
      case CallerCancels =>
      case RunExpires =>
      case StartupExpires =>
      case CaptureFails(c) =>
      case Tick =>
    }
  }

  /** Whatever a category says about s still holds of t. */
  predicate Outlasts(s: State, t: State)
  {
    t.cfg == s.cfg && t.started == s.started && t.attempt == s.attempt && t.sent == s.sent && s.now <= t.now &&
    t.submittedAt == s.submittedAt && t.stopAt == s.stopAt && t.stopError == s.stopError &&
    (s.startupExpired ==> t.startupExpired) && t.refused == s.refused && (s.ctx != Active ==> t.ctx == s.ctx) &&
    (s.version.Absent? ==> t.version.Absent?) && (s.sink.Unopened? ==> t.sink.Unopened?) &&
    (s.sinkFailure.Some? ==> t.sinkFailure == s.sinkFailure) &&
    (!s.child.Live? ==> t.child == s.child && t.bindConflict == s.bindConflict && t.exportFailure == s.exportFailure) &&
    (s.sink.Closed? ==>
       t.sink.Closed? && t.sinkFailure == s.sinkFailure && t.forced == s.forced && t.exitStatus == s.exitStatus) &&
    (s.ready ==> t.ready)
  }

  lemma OutlastsExplains(s: State, t: State, category: Category)
    requires Explains(category, s) && Outlasts(s, t)
    ensures Explains(category, t)
  {
  }

  /** Nothing that happens later takes back what a category says. */
  lemma EventKeepsExplanation(s: State, e: Event)
    requires May(s, e)
    ensures Outlasts(s, Happen(s, e))
  {
    hide May, Happen;
    EventTouches(s, e);
    EventKeepsFinal(s, e);
  }

  lemma EventTouches(s: State, e: Event)
    requires May(s, e)
    ensures var t := Happen(s, e);
            t == s.(now := t.now, ctx := t.ctx, startupExpired := t.startupExpired, version := t.version,
                    child := t.child, ready := t.ready, exportFailure := t.exportFailure,
                    bindConflict := t.bindConflict, sinkFailure := t.sinkFailure)
  {
    match e {
      case ChildExits(x) =>
      case ReadyLine =>
      case ExportFailureLine =>
      case BindConflictLine =>
      case ConflictScrolledOff =>
      case VersionExits(x) =>
      case CallerCancels =>
      case RunExpires =>
      case StartupExpires =>
      case CaptureFails(c) =>
      case Tick =>
    }
  }

  lemma EventKeepsFinal(s: State, e: Event)
    requires May(s, e)
    ensures var t := Happen(s, e);
            (s.ctx != Active ==> t.ctx == s.ctx) && (s.startupExpired ==> t.startupExpired) && s.now <= t.now &&
            (s.version.Absent? ==> t.version.Absent?) && (s.ready ==> t.ready) &&
            (!s.child.Live? ==> t.child == s.child && t.bindConflict == s.bindConflict &&
                                t.exportFailure == s.exportFailure) &&
            (s.sinkFailure.Some? || !s.sink.Open? ==> t.sinkFailure == s.sinkFailure)
  {
    match e {
      case ChildExits(x) =>
      case ReadyLine =>
      case ExportFailureLine =>
      case BindConflictLine =>
      case ConflictScrolledOff =>
      case VersionExits(x) =>
      case CallerCancels =>
      case RunExpires =>
      case StartupExpires =>
      case CaptureFails(c) =>
      case Tick =>
    }
  }

  lemma OpeningKeepsBookkeeping(s: State, a: Opening)
    requires Bookkeeping(s) && CanOpening(s, a)
    ensures Bookkeeping(DoOpening(s, a))
  {
  }

  lemma OpeningKeepsProgress(s: State, a: Opening)
    requires Bookkeeping(s) && ProgressInv(s) && CanOpening(s, a)
    ensures ProgressInv(DoOpening(s, a))
  {
    hide VersionInv, FailureInv;
    match a {
      case PreflightFails(c) =>
      case ChecksumInterrupted =>
      case StartVersion =>
      case SkipVersion =>
      case VersionFinished =>
      case VersionKilled =>
      case VersionAbandoned =>
      case VersionInterrupted =>
      case NothingToRun =>
      case Proceed =>
      case SetupFails(c) =>
      case SetupDone =>
    }
  }

  lemma OpeningKeepsOutcome(s: State, a: Opening)
    requires Bookkeeping(s) && ProgressInv(s) && OutcomeInv(s) && CanOpening(s, a)
    ensures OutcomeInv(DoOpening(s, a))
  {
    hide VersionInv;
    match a {
      case PreflightFails(c) =>
      case ChecksumInterrupted =>
      case StartVersion =>
      case SkipVersion =>
      case VersionFinished =>
      case VersionKilled =>
      case VersionAbandoned =>
      case VersionInterrupted =>
      case NothingToRun =>
      case Proceed =>
      case SetupFails(c) =>
      case SetupDone =>
    }
  }

  lemma OpeningDescends(s: State, a: Opening)
    requires Bookkeeping(s) && ProgressInv(s) && CanOpening(s, a)
    ensures Descends(s, DoOpening(s, a))
  {
    hide VersionInv, SinkInv;
    match a {
      case PreflightFails(c) =>
      case ChecksumInterrupted =>
      case StartVersion =>
      case SkipVersion =>
      case VersionFinished =>
      case VersionKilled =>
      case VersionAbandoned =>
      case VersionInterrupted =>
      case NothingToRun =>
      case Proceed =>
      case SetupFails(c) =>
      case SetupDone =>
    }
  }

  lemma OpeningKeepsCause(s: State, a: Opening)
    requires Bookkeeping(s) && ProgressInv(s) && CauseInv(s) && CanOpening(s, a)
    ensures CauseInv(DoOpening(s, a))
  {
    hide Explains, ReasonInv, Bookkeeping, ProgressInv, CanOpening, DoOpening;
    OpeningKeepsReason(s, a);
    OpeningExplained(s, a);
  }

  lemma OpeningKeepsReason(s: State, a: Opening)
    requires ProgressInv(s) && ReasonInv(s) && CanOpening(s, a)
    ensures ReasonInv(DoOpening(s, a))
  {
    match a {
      case PreflightFails(c) =>
      case ChecksumInterrupted =>
      case StartVersion =>
      case SkipVersion =>
      case VersionFinished =>
      case VersionKilled =>
      case VersionAbandoned =>
      case VersionInterrupted =>
      case NothingToRun =>
      case Proceed =>
      case SetupFails(c) =>
      case SetupDone =>
    }
  }

  lemma PreflightExplains(s: State, category: Category)
    requires category in PreflightCategories && Untouched(s)
    requires (category == RunCanceled ==> s.ctx == Canceled) && (category == RunTimeout ==> s.ctx == TimedOut)
    ensures Explains(category, s)
  {
  }

  lemma OpeningExplained(s: State, a: Opening)
    requires Bookkeeping(s) && ProgressInv(s) && ReasonInv(s) && CanOpening(s, a)
    ensures var t := DoOpening(s, a); t.failure.Some? ==> Explains(t.failure.value, t)
  {
    match a {
      case PreflightFails(c) =>
        PreflightExplains(DoOpening(s, a), c);
      case ChecksumInterrupted =>
      case StartVersion =>
      case SkipVersion =>
      case VersionFinished =>
      case VersionKilled =>
      case VersionAbandoned =>
      case VersionInterrupted =>
      case NothingToRun =>
      case Proceed =>
      case SetupFails(c) =>
      case SetupDone =>
    }
  }

  lemma LaunchKeepsBookkeeping(s: State, a: Launch)
    requires Bookkeeping(s) && CanLaunch(s, a)
    ensures Bookkeeping(DoLaunch(s, a))
  {
  }

  lemma LaunchKeepsProgress(s: State, a: Launch)
    requires Bookkeeping(s) && ProgressInv(s) && CanLaunch(s, a)
    ensures ProgressInv(DoLaunch(s, a))
  {
    hide VersionInv, SinkInv, FailureInv;
    match a {
      case LoopExhausted =>
      case StartupTooLate =>
      case BeginAttempt =>
      case PrepareFails(c) =>
      case ChildStarts =>
      case ClientRefused =>
      case Connected =>
      case ConnectGivesUp =>
      case ReadinessSeen =>
      case ReadinessGivesUp =>
    }
  }

  lemma LaunchKeepsOutcome(s: State, a: Launch)
    requires Bookkeeping(s) && ProgressInv(s) && OutcomeInv(s) && CanLaunch(s, a)
    ensures OutcomeInv(DoLaunch(s, a))
  {
    hide VersionInv;
    match a {
      case LoopExhausted =>
      case StartupTooLate =>
      case BeginAttempt =>
      case PrepareFails(c) =>
      case ChildStarts =>
      case ClientRefused =>
      case Connected =>
      case ConnectGivesUp =>
      case ReadinessSeen =>
      case ReadinessGivesUp =>
    }
  }

  lemma LaunchDescends(s: State, a: Launch)
    requires Bookkeeping(s) && ProgressInv(s) && CanLaunch(s, a)
    ensures Descends(s, DoLaunch(s, a))
  {
    hide VersionInv, SinkInv;
    match a {
      case LoopExhausted =>
      case StartupTooLate =>
      case BeginAttempt =>
      case PrepareFails(c) =>
      case ChildStarts =>
      case ClientRefused =>
      case Connected =>
      case ConnectGivesUp =>
      case ReadinessSeen =>
      case ReadinessGivesUp =>
    }
  }

  lemma LaunchKeepsCause(s: State, a: Launch)
    requires Bookkeeping(s) && ProgressInv(s) && CauseInv(s) && CanLaunch(s, a)
    ensures CauseInv(DoLaunch(s, a))
  {
    hide Explains, ReasonInv, Bookkeeping, ProgressInv, CanLaunch, DoLaunch;
    LaunchKeepsReason(s, a);
    LaunchExplained(s, a);
  }

  lemma LaunchKeepsReason(s: State, a: Launch)
    requires ProgressInv(s) && ReasonInv(s) && CanLaunch(s, a)
    ensures ReasonInv(DoLaunch(s, a))
  {
    match a {
      case LoopExhausted =>
      case StartupTooLate =>
      case BeginAttempt =>
      case PrepareFails(c) =>
      case ChildStarts =>
      case ClientRefused =>
      case Connected =>
      case ConnectGivesUp =>
      case ReadinessSeen =>
      case ReadinessGivesUp =>
    }
  }

  lemma LaunchExplained(s: State, a: Launch)
    requires Bookkeeping(s) && ProgressInv(s) && ReasonInv(s) && CanLaunch(s, a)
    ensures var t := DoLaunch(s, a); t.failure.Some? ==> Explains(t.failure.value, t)
  {
    hide VersionInv, SinkInv;
    match a {
      case LoopExhausted =>
      case StartupTooLate =>
      case BeginAttempt =>
      case PrepareFails(c) =>
      case ChildStarts =>
      case ClientRefused =>
      case Connected =>
      case ConnectGivesUp =>
      case ReadinessSeen =>
      case ReadinessGivesUp =>
    }
  }

  lemma VerdictKeepsBookkeeping(s: State, a: Verdict)
    requires Bookkeeping(s) && CanVerdict(s, a)
    ensures Bookkeeping(DoVerdict(s, a))
  {
  }

  lemma VerdictKeepsProgress(s: State, a: Verdict)
    requires Bookkeeping(s) && ProgressInv(s) && CanVerdict(s, a)
    ensures ProgressInv(DoVerdict(s, a))
  {
    hide VersionInv, SinkInv;
    match a {
      case StartConfirmed =>
      case StartedButExited =>
      case Retry =>
      case ExitedInStartup(c) =>
      case StillUp =>
      case StartupSinkFailed =>
      case StartupSinkFine =>
      case NeverReady =>
      case NoConnection =>
      case LoopLeft =>
    }
  }

  lemma VerdictKeepsOutcome(s: State, a: Verdict)
    requires Bookkeeping(s) && ProgressInv(s) && OutcomeInv(s) && CanVerdict(s, a)
    ensures OutcomeInv(DoVerdict(s, a))
  {
    hide VersionInv;
    match a {
      case StartConfirmed =>
      case StartedButExited =>
      case Retry =>
      case ExitedInStartup(c) =>
      case StillUp =>
      case StartupSinkFailed =>
      case StartupSinkFine =>
      case NeverReady =>
      case NoConnection =>
      case LoopLeft =>
    }
  }

  lemma VerdictDescends(s: State, a: Verdict)
    requires Bookkeeping(s) && ProgressInv(s) && CanVerdict(s, a)
    ensures Descends(s, DoVerdict(s, a))
  {
    hide VersionInv, SinkInv;
    match a {
      case StartConfirmed =>
      case StartedButExited =>
      case Retry =>
      case ExitedInStartup(c) =>
      case StillUp =>
      case StartupSinkFailed =>
      case StartupSinkFine =>
      case NeverReady =>
      case NoConnection =>
      case LoopLeft =>
    }
  }

  lemma VerdictKeepsCause(s: State, a: Verdict)
    requires Bookkeeping(s) && ProgressInv(s) && CauseInv(s) && CanVerdict(s, a)
    ensures CauseInv(DoVerdict(s, a))
  {
    hide Explains, ReasonInv, Bookkeeping, ProgressInv, CanVerdict, DoVerdict;
    VerdictKeepsReason(s, a);
    VerdictExplained(s, a);
  }

  lemma VerdictKeepsReason(s: State, a: Verdict)
    requires ProgressInv(s) && ReasonInv(s) && CanVerdict(s, a)
    ensures ReasonInv(DoVerdict(s, a))
  {
    match a {
      case StartConfirmed =>
      case StartedButExited =>
      case Retry =>
      case ExitedInStartup(c) =>
      case StillUp =>
      case StartupSinkFailed =>
      case StartupSinkFine =>
      case NeverReady =>
      case NoConnection =>
      case LoopLeft =>
    }
  }

  lemma CaptureExplains(s: State)
    requires ReasonInv(s) && s.sinkFailure.Some?
    ensures Explains(s.sinkFailure.value, s)
  {
  }

  lemma ExitExplains(s: State, category: Category)
    requires category in ExitCategories && s.child.Gone? && !s.bindConflict && s.sent == 0 && s.started > 0
    ensures Explains(category, s)
  {
  }

  lemma VerdictExplained(s: State, a: Verdict)
    requires Bookkeeping(s) && ProgressInv(s) && ReasonInv(s) && CanVerdict(s, a)
    ensures var t := DoVerdict(s, a); t.failure.Some? ==> Explains(t.failure.value, t)
  {
    hide VersionInv, SinkInv;
    match a {
      case StartConfirmed =>
      case StartedButExited =>
      case Retry =>
      case ExitedInStartup(c) =>
        if !s.bindConflict {
          ExitExplains(DoVerdict(s, a), c);
        }
      case StillUp =>
      case StartupSinkFailed =>
        CaptureExplains(DoVerdict(s, a));
      case StartupSinkFine =>
      case NeverReady =>
      case NoConnection =>
      case LoopLeft =>
    }
  }

  lemma DeliveryKeepsBookkeeping(s: State, a: Delivery)
    requires Bookkeeping(s) && CanDelivery(s, a)
    ensures Bookkeeping(DoDelivery(s, a))
  {
  }

  lemma DeliveryKeepsProgress(s: State, a: Delivery)
    requires ProgressInv(s) && CanDelivery(s, a)
    ensures ProgressInv(DoDelivery(s, a))
  {
    match a {
      case ExportAccepted =>
      case SubmissionDone =>
      case ExportFails =>
      case SubmitInterrupted =>
      case SubmitContextFine =>
      case SubmitRejected =>
      case SettleInterrupted =>
      case SettleExit =>
      case SettleSinkFailed =>
      case SettleElapsed =>
      case DiedBeforeStop =>
      case AliveToStop =>
    }
  }

  lemma DeliveryKeepsOutcome(s: State, a: Delivery)
    requires Bookkeeping(s) && ProgressInv(s) && OutcomeInv(s) && CanDelivery(s, a)
    ensures OutcomeInv(DoDelivery(s, a))
  {
    hide VersionInv;
    match a {
      case ExportAccepted =>
      case SubmissionDone =>
      case ExportFails =>
      case SubmitInterrupted =>
      case SubmitContextFine =>
      case SubmitRejected =>
      case SettleInterrupted =>
      case SettleExit =>
      case SettleSinkFailed =>
      case SettleElapsed =>
      case DiedBeforeStop =>
      case AliveToStop =>
    }
  }

  lemma DeliveryDescends(s: State, a: Delivery)
    requires Bookkeeping(s) && ProgressInv(s) && CanDelivery(s, a)
    ensures Descends(s, DoDelivery(s, a))
  {
    hide VersionInv, SinkInv;
    match a {
      case ExportAccepted =>
      case SubmissionDone =>
      case ExportFails =>
      case SubmitInterrupted =>
      case SubmitContextFine =>
      case SubmitRejected =>
      case SettleInterrupted =>
      case SettleExit =>
      case SettleSinkFailed =>
      case SettleElapsed =>
      case DiedBeforeStop =>
      case AliveToStop =>
    }
  }

  lemma DeliveryKeepsCause(s: State, a: Delivery)
    requires Bookkeeping(s) && ProgressInv(s) && CauseInv(s) && CanDelivery(s, a)
    ensures CauseInv(DoDelivery(s, a))
  {
    hide Explains, ReasonInv, Bookkeeping, ProgressInv, CanDelivery, DoDelivery;
    DeliveryKeepsReason(s, a);
    DeliveryExplained(s, a);
  }

  lemma DeliveryKeepsReason(s: State, a: Delivery)
    requires ProgressInv(s) && ReasonInv(s) && CanDelivery(s, a)
    ensures ReasonInv(DoDelivery(s, a))
  {
    match a {
      case ExportAccepted =>
      case SubmissionDone =>
      case ExportFails =>
      case SubmitInterrupted =>
      case SubmitContextFine =>
      case SubmitRejected =>
      case SettleInterrupted =>
      case SettleExit =>
      case SettleSinkFailed =>
      case SettleElapsed =>
      case DiedBeforeStop =>
      case AliveToStop =>
    }
  }

  lemma DeliveryExplained(s: State, a: Delivery)
    requires Bookkeeping(s) && ProgressInv(s) && ReasonInv(s) && CanDelivery(s, a)
    ensures var t := DoDelivery(s, a); t.failure.Some? ==> Explains(t.failure.value, t)
  {
    hide VersionInv, SinkInv;
    match a {
      case ExportAccepted =>
      case SubmissionDone =>
      case ExportFails =>
      case SubmitInterrupted =>
      case SubmitContextFine =>
      case SubmitRejected =>
        if s.sinkFailure.Some? {
          CaptureExplains(DoDelivery(s, a));
        }
      case SettleInterrupted =>
      case SettleExit =>
      case SettleSinkFailed =>
        CaptureExplains(DoDelivery(s, a));
      case SettleElapsed =>
      case DiedBeforeStop =>
      case AliveToStop =>
    }
  }

  lemma ShutdownKeepsBookkeeping(s: State, a: Shutdown)
    requires Bookkeeping(s) && CanShutdown(s, a)
    ensures Bookkeeping(DoShutdown(s, a))
  {
  }

  lemma ShutdownKeepsProgress(s: State, a: Shutdown)
    requires ProgressInv(s) && CanShutdown(s, a)
    ensures ProgressInv(DoShutdown(s, a))
  {
    match a {
      case AlreadyExited =>
      case TermSent =>
      case TermFails =>
      case GraceExit =>
      case GraceKills =>
      case GraceKillFails =>
      case ReapExit =>
      case ReapOver =>
      case StopFailed =>
      case UncleanExit =>
      case CleanExit =>
      case FinalInterrupted =>
      case FinalContextFine =>
      case ExportReported =>
      case RunSucceeds =>
    }
  }

  lemma ShutdownKeepsOutcome(s: State, a: Shutdown)
    requires Bookkeeping(s) && ProgressInv(s) && OutcomeInv(s) && CanShutdown(s, a)
    ensures OutcomeInv(DoShutdown(s, a))
  {
    hide VersionInv;
    match a {
      case AlreadyExited =>
      case TermSent =>
      case TermFails =>
      case GraceExit =>
      case GraceKills =>
      case GraceKillFails =>
      case ReapExit =>
      case ReapOver =>
      case StopFailed =>
      case UncleanExit =>
      case CleanExit =>
      case FinalInterrupted =>
      case FinalContextFine =>
      case ExportReported =>
      case RunSucceeds =>
    }
  }

  lemma ShutdownDescends(s: State, a: Shutdown)
    requires Bookkeeping(s) && ProgressInv(s) && CanShutdown(s, a)
    ensures Descends(s, DoShutdown(s, a))
  {
    hide VersionInv, SinkInv;
    match a {
      case AlreadyExited =>
      case TermSent =>
      case TermFails =>
      case GraceExit =>
      case GraceKills =>
      case GraceKillFails =>
      case ReapExit =>
      case ReapOver =>
      case StopFailed =>
      case UncleanExit =>
      case CleanExit =>
      case FinalInterrupted =>
      case FinalContextFine =>
      case ExportReported =>
      case RunSucceeds =>
    }
  }

  lemma ShutdownKeepsCause(s: State, a: Shutdown)
    requires Bookkeeping(s) && ProgressInv(s) && CauseInv(s) && CanShutdown(s, a)
    ensures CauseInv(DoShutdown(s, a))
  {
    hide Explains, ReasonInv, Bookkeeping, ProgressInv, CanShutdown, DoShutdown;
    ShutdownKeepsReason(s, a);
    ShutdownExplained(s, a);
  }

  lemma ShutdownKeepsReason(s: State, a: Shutdown)
    requires ProgressInv(s) && ReasonInv(s) && CanShutdown(s, a)
    ensures ReasonInv(DoShutdown(s, a))
  {
    match a {
      case AlreadyExited =>
      case TermSent =>
      case TermFails =>
      case GraceExit =>
      case GraceKills =>
      case GraceKillFails =>
      case ReapExit =>
      case ReapOver =>
      case StopFailed =>
      case UncleanExit =>
      case CleanExit =>
      case FinalInterrupted =>
      case FinalContextFine =>
      case ExportReported =>
      case RunSucceeds =>
    }
  }

  lemma ShutdownExplained(s: State, a: Shutdown)
    requires Bookkeeping(s) && ProgressInv(s) && ReasonInv(s) && CanShutdown(s, a)
    ensures var t := DoShutdown(s, a); t.failure.Some? ==> Explains(t.failure.value, t)
  {
    hide VersionInv, SinkInv;
    match a {
      case AlreadyExited =>
      case TermSent =>
      case TermFails =>
      case GraceExit =>
      case GraceKills =>
      case GraceKillFails =>
      case ReapExit =>
      case ReapOver =>
      case StopFailed =>
      case UncleanExit =>
      case CleanExit =>
      case FinalInterrupted =>
      case FinalContextFine =>
      case ExportReported =>
      case RunSucceeds =>
    }
  }

  lemma CleanupKeepsBookkeeping(s: State, a: Cleanup)
    requires Bookkeeping(s) && CanCleanup(s, a)
    ensures Bookkeeping(DoCleanup(s, a))
  {
  }

  lemma CleanupKeepsProgress(s: State, a: Cleanup)
    requires Bookkeeping(s) && ProgressInv(s) && CanCleanup(s, a)
    ensures ProgressInv(DoCleanup(s, a))
  {
    hide VersionInv, SinkInv, AttemptsInv;
    match a {
      case NoLeftover =>
      case AlreadyGone =>
      case LeftoverKilled =>
      case LeftoverUnkillable =>
      case LeftoverGone =>
      case LeftoverStuck =>
      case SinkDrained =>
      case SinkDrainTimedOut =>
      case OutputCaptured =>
      case CaptureFailed =>
      case DirRemoved =>
      case DirStuck =>
    }
  }

  lemma CleanupKeepsOutcome(s: State, a: Cleanup)
    requires Bookkeeping(s) && ProgressInv(s) && OutcomeInv(s) && CanCleanup(s, a)
    ensures OutcomeInv(DoCleanup(s, a))
  {
    hide VersionInv;
    match a {
      case NoLeftover =>
      case AlreadyGone =>
      case LeftoverKilled =>
      case LeftoverUnkillable =>
      case LeftoverGone =>
      case LeftoverStuck =>
      case SinkDrained =>
      case SinkDrainTimedOut =>
      case OutputCaptured =>
      case CaptureFailed =>
      case DirRemoved =>
      case DirStuck =>
    }
  }

  lemma CleanupDescends(s: State, a: Cleanup)
    requires Bookkeeping(s) && ProgressInv(s) && CanCleanup(s, a)
    ensures Descends(s, DoCleanup(s, a))
  {
    hide VersionInv, SinkInv;
    match a {
      case NoLeftover =>
      case AlreadyGone =>
      case LeftoverKilled =>
      case LeftoverUnkillable =>
      case LeftoverGone =>
      case LeftoverStuck =>
      case SinkDrained =>
      case SinkDrainTimedOut =>
      case OutputCaptured =>
      case CaptureFailed =>
      case DirRemoved =>
      case DirStuck =>
    }
  }

  lemma CleanupKeepsCause(s: State, a: Cleanup)
    requires Bookkeeping(s) && ProgressInv(s) && OutcomeInv(s) && CauseInv(s) && CanCleanup(s, a)
    ensures CauseInv(DoCleanup(s, a))
  {
    hide Explains, AttemptsInv, VersionInv;
    CleanupKeepsReason(s, a);
    if s.failure.Some? {
      CleanupKeepsExplanation(s, a);
      OutlastsExplains(s, DoCleanup(s, a), s.failure.value);
    } else {
      CleanupFailureIsExplained(s, a);
    }
  }

  lemma CleanupKeepsReason(s: State, a: Cleanup)
    requires ReasonInv(s) && CanCleanup(s, a)
    ensures ReasonInv(DoCleanup(s, a)) && (s.failure.Some? ==> DoCleanup(s, a).failure == s.failure)
  {
    match a {
      case NoLeftover =>
      case AlreadyGone =>
      case LeftoverKilled =>
      case LeftoverUnkillable =>
      case LeftoverGone =>
      case LeftoverStuck =>
      case SinkDrained =>
      case SinkDrainTimedOut =>
      case OutputCaptured =>
      case CaptureFailed =>
      case DirRemoved =>
      case DirStuck =>
    }
  }

  lemma CleanupKeepsExplanation(s: State, a: Cleanup)
    requires SinkInv(s) && CanCleanup(s, a) && (s.sink.Closed? ==> s.pc < CLOSE_SINK)
    ensures Outlasts(s, DoCleanup(s, a))
  {
    hide CanCleanup, DoCleanup;
    CleanupFrame(s, a);
    CleanupKeepsChild(s, a);
    CleanupKeepsCounts(s, a);
    CleanupKeepsCapture(s, a);
  }

  lemma CleanupFrame(s: State, a: Cleanup)
    requires CanCleanup(s, a)
    ensures var t := DoCleanup(s, a);
            t.cfg == s.cfg && t.now == s.now && t.ctx == s.ctx && t.startupExpired == s.startupExpired &&
            t.version == s.version
  {
    match a {
      case NoLeftover =>
      case AlreadyGone =>
      case LeftoverKilled =>
      case LeftoverUnkillable =>
      case LeftoverGone =>
      case LeftoverStuck =>
      case SinkDrained =>
      case SinkDrainTimedOut =>
      case OutputCaptured =>
      case CaptureFailed =>
      case DirRemoved =>
      case DirStuck =>
    }
  }

  lemma CleanupKeepsChild(s: State, a: Cleanup)
    requires CanCleanup(s, a)
    ensures var t := DoCleanup(s, a);
            t.child == s.child && t.ready == s.ready && t.exportFailure == s.exportFailure &&
            t.bindConflict == s.bindConflict
  {
    match a {
      case NoLeftover =>
      case AlreadyGone =>
      case LeftoverKilled =>
      case LeftoverUnkillable =>
      case LeftoverGone =>
      case LeftoverStuck =>
      case SinkDrained =>
      case SinkDrainTimedOut =>
      case OutputCaptured =>
      case CaptureFailed =>
      case DirRemoved =>
      case DirStuck =>
    }
  }

  lemma CleanupKeepsCounts(s: State, a: Cleanup)
    requires CanCleanup(s, a)
    ensures var t := DoCleanup(s, a);
            t.attempt == s.attempt && t.started == s.started && t.refused == s.refused && t.sent == s.sent &&
            t.submittedAt == s.submittedAt && t.stopAt == s.stopAt && t.stopError == s.stopError
  {
    match a {
      case NoLeftover =>
      case AlreadyGone =>
      case LeftoverKilled =>
      case LeftoverUnkillable =>
      case LeftoverGone =>
      case LeftoverStuck =>
      case SinkDrained =>
      case SinkDrainTimedOut =>
      case OutputCaptured =>
      case CaptureFailed =>
      case DirRemoved =>
      case DirStuck =>
    }
  }

  lemma CleanupKeepsCapture(s: State, a: Cleanup)
    requires CanCleanup(s, a)
    ensures var t := DoCleanup(s, a);
            (t.sink == s.sink || (s.pc == CLOSE_SINK && t.sink.Closed?)) &&
            (s.sinkFailure.Some? ==> t.sinkFailure == s.sinkFailure) &&
            (s.pc < CLOSE_SINK ==>
               t.forced == s.forced && t.exitStatus == s.exitStatus && t.sinkFailure == s.sinkFailure)
  {
    match a {
      case NoLeftover =>
      case AlreadyGone =>
      case LeftoverKilled =>
      case LeftoverUnkillable =>
      case LeftoverGone =>
      case LeftoverStuck =>
      case SinkDrained =>
      case SinkDrainTimedOut =>
      case OutputCaptured =>
      case CaptureFailed =>
      case DirRemoved =>
      case DirStuck =>
    }
  }

  /** The one deferred step that fails a run whose work is done, besides the capture: the directory is stuck. The
      branches for a leftover process cannot be reached without an earlier failure. */
  lemma CleanupFailureIsExplained(s: State, a: Cleanup)
    requires ProgressInv(s) && OutcomeInv(s) && ReasonInv(s) && CanCleanup(s, a) && s.failure.None?
    ensures var t := DoCleanup(s, a);
            t.failure.Some? ==> (a == CaptureFailed || a == DirStuck) && Explains(t.failure.value, t)
  {
    match a {
      case NoLeftover =>
      case AlreadyGone =>
      case LeftoverKilled =>
      case LeftoverUnkillable =>
      case LeftoverGone =>
      case LeftoverStuck =>
      case SinkDrained =>
      case SinkDrainTimedOut =>
      case OutputCaptured =>
      case CaptureFailed =>
      case DirRemoved =>
      case DirStuck =>
    }
  }

  lemma StepKeepsInv(s: State, step: Step)
    requires Inv(s) && Enabled(s, step)
    ensures Inv(Next(s, step))
  {
    hide Bookkeeping, ProgressInv, OutcomeInv, CauseInv, DoOpening, DoLaunch, DoVerdict, DoDelivery, DoShutdown,
      DoCleanup, CanOpening, CanLaunch, CanVerdict, CanDelivery, CanShutdown, CanCleanup;
    match step {
      case RunOpening(a) =>
        OpeningKeepsBookkeeping(s, a);
        OpeningKeepsProgress(s, a);
        OpeningKeepsOutcome(s, a);
        OpeningKeepsCause(s, a);
      case RunLaunch(a) =>
        LaunchKeepsBookkeeping(s, a);
        LaunchKeepsProgress(s, a);
        LaunchKeepsOutcome(s, a);
        LaunchKeepsCause(s, a);
      case RunVerdict(a) =>
        VerdictKeepsBookkeeping(s, a);
        VerdictKeepsProgress(s, a);
        VerdictKeepsOutcome(s, a);
        VerdictKeepsCause(s, a);
      case RunDelivery(a) =>
        DeliveryKeepsBookkeeping(s, a);
        DeliveryKeepsProgress(s, a);
        DeliveryKeepsOutcome(s, a);
        DeliveryKeepsCause(s, a);
      case RunShutdown(a) =>
        ShutdownKeepsBookkeeping(s, a);
        ShutdownKeepsProgress(s, a);
        ShutdownKeepsOutcome(s, a);
        ShutdownKeepsCause(s, a);
      case RunCleanup(a) =>
        CleanupKeepsBookkeeping(s, a);
        CleanupKeepsProgress(s, a);
        CleanupKeepsOutcome(s, a);
        CleanupKeepsCause(s, a);
      case Env(e) =>
        EventKeepsBookkeeping(s, e);
        EventKeepsProgress(s, e);
        EventKeepsOutcome(s, e);
        EventKeepsCause(s, e);
    }
  }

  // ----- every run -----

  lemma {:induction false} EveryRunKeepsInv(cfg: Config, steps: seq<Step>)
    requires After(cfg, steps).Some?
    ensures Inv(After(cfg, steps).value) && After(cfg, steps).value.cfg == cfg
  {
    hide Inv, CanOpening, CanLaunch, CanVerdict, CanDelivery, CanShutdown, CanCleanup;
    if steps == [] {
      InitIsInv(cfg);
    } else {
      EveryRunKeepsInv(cfg, steps[..|steps| - 1]);
      var s := After(cfg, steps[..|steps| - 1]).value;
      StepKeepsInv(s, steps[|steps| - 1]);
      StepFrame(s, steps[|steps| - 1]);
    }
  }

  lemma InitIsInv(cfg: Config)
    ensures Inv(Init(cfg))
  {
  }

  lemma RunStepDescends(s: State, step: Step)
    requires Inv(s) && Enabled(s, step) && !step.Env?
    ensures Descends(s, Next(s, step))
  {
    hide Bookkeeping, ProgressInv, OutcomeInv, CauseInv, Descends, DoOpening, DoLaunch, DoVerdict, DoDelivery,
      DoShutdown, DoCleanup, CanOpening, CanLaunch, CanVerdict, CanDelivery, CanShutdown, CanCleanup;
    match step {
      case RunOpening(a) => OpeningDescends(s, a);
      case RunLaunch(a) => LaunchDescends(s, a);
      case RunVerdict(a) => VerdictDescends(s, a);
      case RunDelivery(a) => DeliveryDescends(s, a);
      case RunShutdown(a) => ShutdownDescends(s, a);
      case RunCleanup(a) => CleanupDescends(s, a);
    }
  }

  lemma EventFrame(s: State, e: Event)
    requires May(s, e)
    ensures var t := Happen(s, e);
            t.cfg == s.cfg && t.failure == s.failure && t.attempt == s.attempt && t.started == s.started
  {
    match e {
      case ChildExits(x) =>
      case ReadyLine =>
      case ExportFailureLine =>
      case BindConflictLine =>
      case ConflictScrolledOff =>
      case VersionExits(x) =>
      case CallerCancels =>
      case RunExpires =>
      case StartupExpires =>
      case CaptureFails(c) =>
      case Tick =>
    }
  }

  /** What no step at all undoes. */
  lemma StepFrame(s: State, step: Step)
    requires Inv(s) && Enabled(s, step)
    ensures var t := Next(s, step);
            t.cfg == s.cfg && (s.failure.Some? ==> t.failure == s.failure) &&
            (t.attempt != s.attempt ==>
              t.attempt == s.attempt + 1 && s.child.Gone? && s.bindConflict && s.sent == 0 && s.failure.None?) &&
            (t.started != s.started ==> t.started == s.started + 1 && !s.child.Live? && s.sent == 0)
  {
    hide Inv, Happen, May, DoOpening, DoLaunch, DoVerdict, DoDelivery, DoShutdown, DoCleanup, CanOpening, CanLaunch,
      CanVerdict, CanDelivery, CanShutdown, CanCleanup;
    if step.Env? {
      EventFrame(s, step.event);
    } else {
      RunStepDescends(s, step);
    }
  }

  /** Run returns nil for a nonempty topology only on full evidence: the Collector reported ready, every
      populated signal was accepted once without partial success, the settling interval passed, the leader
      exited cleanly and unforced, no export or shutdown failure was logged, and the capture server closed
      after that exit without any failure. */
  lemma NilErrorMeansEvidence(cfg: Config, steps: seq<Step>)
    requires After(cfg, steps).Some?
    ensures var s := After(cfg, steps).value;
            s.pc == RETURNED && s.failure.None? && cfg.signals > 0 ==>
              s.ready && s.sent == cfg.signals && s.submittedAt + cfg.settle <= s.stopAt && s.child == Gone(Clean) &&
              !s.forced && s.stopError.None? && !s.exportFailure && s.exitStatus == Exited && s.sink == Closed &&
              s.sinkFailure == None && s.failures == 0
  {
    EveryRunKeepsInv(cfg, steps);
  }

  // ----- when things happened -----

  /** The position tells that everything was submitted, or that Run is about to return without an error. */
  predicate PastSubmission(s: State)
  {
    s.pc <= SETTLE && (!Deferred(s.pc) || (s.failure.None? && s.cfg.signals > 0))
  }

  predicate PastStop(s: State)
  {
    s.pc <= STOP_BEGINS && PastSubmission(s)
  }

  predicate KeepsMoments(s: State, t: State)
  {
    t.submittedAt == s.submittedAt && t.stopAt == s.stopAt && (PastSubmission(t) ==> PastSubmission(s)) &&
    (PastStop(t) ==> PastStop(s))
  }

  lemma OpeningKeepsMoments(s: State, a: Opening)
    requires CanOpening(s, a)
    ensures KeepsMoments(s, DoOpening(s, a))
  {
    match a {
      case PreflightFails(c) =>
      case ChecksumInterrupted =>
      case StartVersion =>
      case SkipVersion =>
      case VersionFinished =>
      case VersionKilled =>
      case VersionAbandoned =>
      case VersionInterrupted =>
      case NothingToRun =>
      case Proceed =>
      case SetupFails(c) =>
      case SetupDone =>
    }
  }

  lemma LaunchKeepsMoments(s: State, a: Launch)
    requires CanLaunch(s, a)
    ensures KeepsMoments(s, DoLaunch(s, a))
  {
    match a {
      case LoopExhausted =>
      case StartupTooLate =>
      case BeginAttempt =>
      case PrepareFails(c) =>
      case ChildStarts =>
      case ClientRefused =>
      case Connected =>
      case ConnectGivesUp =>
      case ReadinessSeen =>
      case ReadinessGivesUp =>
    }
  }

  lemma VerdictKeepsMoments(s: State, a: Verdict)
    requires CanVerdict(s, a)
    ensures KeepsMoments(s, DoVerdict(s, a))
  {
    match a {
      case StartConfirmed =>
      case StartedButExited =>
      case Retry =>
      case ExitedInStartup(c) =>
      case StillUp =>
      case StartupSinkFailed =>
      case StartupSinkFine =>
      case NeverReady =>
      case NoConnection =>
      case LoopLeft =>
    }
  }

  lemma DeliveryKeepsMoments(s: State, a: Delivery)
    requires CanDelivery(s, a) && a != SubmissionDone && a != AliveToStop
    ensures KeepsMoments(s, DoDelivery(s, a))
  {
    match a {
      case ExportAccepted =>
      case ExportFails =>
      case SubmitInterrupted =>
      case SubmitContextFine =>
      case SubmitRejected =>
      case SettleInterrupted =>
      case SettleExit =>
      case SettleSinkFailed =>
      case SettleElapsed =>
      case DiedBeforeStop =>
    }
  }

  lemma ShutdownKeepsMoments(s: State, a: Shutdown)
    requires CanShutdown(s, a)
    ensures KeepsMoments(s, DoShutdown(s, a))
  {
    match a {
      case AlreadyExited =>
      case TermSent =>
      case TermFails =>
      case GraceExit =>
      case GraceKills =>
      case GraceKillFails =>
      case ReapExit =>
      case ReapOver =>
      case StopFailed =>
      case UncleanExit =>
      case CleanExit =>
      case FinalInterrupted =>
      case FinalContextFine =>
      case ExportReported =>
      case RunSucceeds =>
    }
  }

  lemma CleanupKeepsMoments(s: State, a: Cleanup)
    requires CanCleanup(s, a)
    ensures KeepsMoments(s, DoCleanup(s, a))
  {
    match a {
      case NoLeftover =>
      case AlreadyGone =>
      case LeftoverKilled =>
      case LeftoverUnkillable =>
      case LeftoverGone =>
      case LeftoverStuck =>
      case SinkDrained =>
      case SinkDrainTimedOut =>
      case OutputCaptured =>
      case CaptureFailed =>
      case DirRemoved =>
      case DirStuck =>
    }
  }

  lemma EventKeepsMoments(s: State, e: Event)
    requires May(s, e)
    ensures KeepsMoments(s, Happen(s, e))
  {
    match e {
      case ChildExits(x) =>
      case ReadyLine =>
      case ExportFailureLine =>
      case BindConflictLine =>
      case ConflictScrolledOff =>
      case VersionExits(x) =>
      case CallerCancels =>
      case RunExpires =>
      case StartupExpires =>
      case CaptureFails(c) =>
      case Tick =>
    }
  }

  lemma DeliveryMoments(s: State, a: Delivery)
    requires CanDelivery(s, a)
    ensures var t := DoDelivery(s, a);
            (a == SubmissionDone ==> t.submittedAt == s.now && !PastStop(t)) &&
            (a == AliveToStop ==> PastSubmission(s) && t.submittedAt == s.submittedAt && t.stopAt == s.now) &&
            (a != SubmissionDone && a != AliveToStop ==> KeepsMoments(s, t))
  {
    hide KeepsMoments;
    match a {
      case SubmissionDone =>
      case AliveToStop =>
      case _ => DeliveryKeepsMoments(s, a);
    }
  }

  /** Only the end of submission and the start of stopping move the two moments, and each takes the time. */
  lemma MomentsAreTaken(s: State, step: Step)
    requires Enabled(s, step)
    ensures var t := Next(s, step);
            if step == RunDelivery(SubmissionDone) then t.submittedAt == s.now && !PastStop(t)
            else if step == RunDelivery(AliveToStop) then
              PastSubmission(s) && t.submittedAt == s.submittedAt && t.stopAt == s.now
            else KeepsMoments(s, t)
  {
    hide KeepsMoments, PastStop, PastSubmission, CanOpening, CanLaunch, CanVerdict, CanDelivery, CanShutdown,
      CanCleanup, May, DoOpening, DoLaunch, DoVerdict, DoDelivery, DoShutdown, DoCleanup, Happen;
    match step {
      case RunOpening(a) => OpeningKeepsMoments(s, a);
      case RunLaunch(a) => LaunchKeepsMoments(s, a);
      case RunVerdict(a) => VerdictKeepsMoments(s, a);
      case RunDelivery(a) => DeliveryMoments(s, a);
      case RunShutdown(a) => ShutdownKeepsMoments(s, a);
      case RunCleanup(a) => CleanupKeepsMoments(s, a);
      case Env(e) => EventKeepsMoments(s, e);
    }
  }

  /** Step i of the run is this one, taken at the given time. */
  ghost predicate TakenAt(cfg: Config, steps: seq<Step>, i: nat, step: Step, time: nat)
  {
    i < |steps| && steps[i] == step && After(cfg, steps[..i]).Some? && After(cfg, steps[..i]).value.now == time
  }

  lemma TakenEarlier(cfg: Config, steps: seq<Step>, last: Step, i: nat, step: Step, time: nat)
    requires TakenAt(cfg, steps, i, step, time)
    ensures TakenAt(cfg, steps + [last], i, step, time)
  {
    assert (steps + [last])[..i] == steps[..i];
  }

  /** Submission ended with one step and stopping began with a later one, at the recorded times. */
  ghost predicate Dated(cfg: Config, steps: seq<Step>, i: nat, j: nat, submitted: nat, stopped: nat)
  {
    i < j && TakenAt(cfg, steps, i, RunDelivery(SubmissionDone), submitted) &&
    TakenAt(cfg, steps, j, RunDelivery(AliveToStop), stopped)
  }

  lemma {:induction false} SubmissionIsDated(cfg: Config, steps: seq<Step>) returns (i: nat)
    requires After(cfg, steps).Some? && PastSubmission(After(cfg, steps).value)
    ensures TakenAt(cfg, steps, i, RunDelivery(SubmissionDone), After(cfg, steps).value.submittedAt)
  {
    hide Enabled, Next, TakenAt;
    assert steps != [];
    var init, last := steps[..|steps| - 1], steps[|steps| - 1];
    assert steps == init + [last];
    MomentsAreTaken(After(cfg, init).value, last);
    if last == RunDelivery(SubmissionDone) {
      i := |init|;
      LastIsTaken(cfg, init, last);
    } else {
      i := SubmissionIsDated(cfg, init);
      TakenEarlier(cfg, init, last, i, RunDelivery(SubmissionDone), After(cfg, init).value.submittedAt);
    }
  }

  lemma LastIsTaken(cfg: Config, init: seq<Step>, last: Step)
    requires After(cfg, init).Some?
    ensures TakenAt(cfg, init + [last], |init|, last, After(cfg, init).value.now)
  {
    assert (init + [last])[..|init|] == init;
  }

  lemma {:induction false} StopIsDated(cfg: Config, steps: seq<Step>) returns (i: nat, j: nat)
    requires After(cfg, steps).Some? && PastStop(After(cfg, steps).value)
    ensures Dated(cfg, steps, i, j, After(cfg, steps).value.submittedAt, After(cfg, steps).value.stopAt)
  {
    hide Enabled, Next, TakenAt;
    assert steps != [];
    var init, last := steps[..|steps| - 1], steps[|steps| - 1];
    var s := After(cfg, init).value;
    assert steps == init + [last];
    MomentsAreTaken(s, last);
    if last == RunDelivery(AliveToStop) {
      i := SubmissionIsDated(cfg, init);
      j := |init|;
      assert i < |init| by { TakenWithin(cfg, init, i, RunDelivery(SubmissionDone), s.submittedAt); }
      LastIsTaken(cfg, init, last);
    } else {
      i, j := StopIsDated(cfg, init);
      TakenEarlier(cfg, init, last, j, RunDelivery(AliveToStop), s.stopAt);
    }
    TakenEarlier(cfg, init, last, i, RunDelivery(SubmissionDone), s.submittedAt);
  }

  lemma TakenWithin(cfg: Config, steps: seq<Step>, i: nat, step: Step, time: nat)
    requires TakenAt(cfg, steps, i, step, time)
    ensures i < |steps|
  {
  }

  /** In a run that returns nil, the step that began stopping came at least the configured interval after the step that
      ended submission. */
  lemma NilErrorMeansSettled(cfg: Config, steps: seq<Step>) returns (i: nat, j: nat, submitted: nat, stopped: nat)
    requires After(cfg, steps).Some? && cfg.signals > 0
    requires After(cfg, steps).value.pc == RETURNED && After(cfg, steps).value.failure.None?
    ensures Dated(cfg, steps, i, j, submitted, stopped) && submitted + cfg.settle <= stopped
  {
    hide After, Dated;
    EveryRunKeepsInv(cfg, steps);
    i, j := StopIsDated(cfg, steps);
    submitted, stopped := After(cfg, steps).value.submittedAt, After(cfg, steps).value.stopAt;
  }

  /** The first Collector is up and has reported ready. */
  function ReadyState(cfg: Config): State
  {
    Init(cfg).(pc := CHECK_STARTED, sink := Open, child := Live, ready := true, started := 1,
               connected := true, exitStatus := StillRunning)
  }

  lemma AtStart(cfg: Config)
    ensures After(cfg, []) == Some(Init(cfg)) && AllSmooth([])
  {
  }

  /** A step of a run in which nothing goes wrong with the log, the capture or a process that is starting. */
  predicate Smooth(step: Step)
  {
    (step.Env? && IsNews(step.event) ==> step.event.ReadyLine?) && step != RunCleanup(SinkDrainTimedOut) &&
    !(step.RunVerdict? && step.verdict.ExitedInStartup?)
  }

  predicate AllSmooth(steps: seq<Step>)
  {
    forall i :: 0 <= i < |steps| ==> Smooth(steps[i])
  }

  lemma Extend(cfg: Config, steps: seq<Step>, step: Step) returns (longer: seq<Step>)
    requires After(cfg, steps).Some? && Enabled(After(cfg, steps).value, step)
    ensures After(cfg, longer) == Some(Next(After(cfg, steps).value, step))
    ensures AllSmooth(steps) && Smooth(step) ==> AllSmooth(longer)
  {
    longer := steps + [step];
    assert longer[..|longer| - 1] == steps;
  }

  lemma {:induction false} Wait(cfg: Config, steps: seq<Step>, n: nat) returns (longer: seq<Step>)
    requires After(cfg, steps).Some?
    ensures var s := After(cfg, steps).value; After(cfg, longer) == Some(s.(now := s.now + n))
    ensures AllSmooth(steps) ==> AllSmooth(longer)
  {
    hide After, AllSmooth;
    longer := steps;
    if n > 0 {
      longer := Wait(cfg, steps, n - 1);
      longer := Extend(cfg, longer, Env(Tick));
    }
  }

  lemma {:induction false} Submit(cfg: Config, steps: seq<Step>, n: nat) returns (longer: seq<Step>)
    requires After(cfg, steps).Some?
    requires var s := After(cfg, steps).value; s.pc == SUBMIT && s.sent + n <= s.cfg.signals
    ensures var s := After(cfg, steps).value; After(cfg, longer) == Some(s.(sent := s.sent + n))
    ensures AllSmooth(steps) ==> AllSmooth(longer)
  {
    hide After, AllSmooth;
    longer := steps;
    if n > 0 {
      longer := Submit(cfg, steps, n - 1);
      longer := Extend(cfg, longer, RunDelivery(ExportAccepted));
    }
  }

  lemma ReachAttempt(cfg: Config) returns (steps: seq<Step>)
    requires cfg.signals > 0
    ensures After(cfg, steps) == Some(Init(cfg).(pc := ATTEMPT_TOP, sink := Open))
    ensures AllSmooth(steps)
  {
    hide After, AllSmooth, CanLaunch, CanVerdict, CanDelivery, CanShutdown, CanCleanup;
    AtStart(cfg);
    steps := Extend(cfg, [], RunOpening(SkipVersion));
    steps := Extend(cfg, steps, RunOpening(Proceed));
    steps := Extend(cfg, steps, RunOpening(SetupDone));
  }

  lemma ReachReady(cfg: Config) returns (steps: seq<Step>)
    requires cfg.signals > 0
    ensures After(cfg, steps) == Some(ReadyState(cfg))
    ensures AllSmooth(steps)
  {
    hide After, AllSmooth, CanOpening, CanVerdict, CanDelivery, CanShutdown, CanCleanup;
    steps := ReachAttempt(cfg);
    steps := Extend(cfg, steps, RunLaunch(BeginAttempt));
    steps := Extend(cfg, steps, RunLaunch(ChildStarts));
    steps := Extend(cfg, steps, Env(ReadyLine));
    steps := Extend(cfg, steps, RunLaunch(Connected));
    steps := Extend(cfg, steps, RunLaunch(ReadinessSeen));
  }

  /** Everything submitted at time 0, and the settling interval waited out. */
  function SettledState(cfg: Config): State
  {
    ReadyState(cfg).(pc := STOP_BEGINS, sent := cfg.signals, now := cfg.settle, settleEnd := cfg.settle,
                     stopAt := cfg.settle)
  }

  lemma ReachSettled(cfg: Config) returns (steps: seq<Step>)
    requires cfg.signals > 0
    ensures After(cfg, steps) == Some(SettledState(cfg))
    ensures AllSmooth(steps)
  {
    hide After, AllSmooth, CanOpening, CanLaunch, CanShutdown, CanCleanup;
    steps := ReachReady(cfg);
    steps := Extend(cfg, steps, RunVerdict(StartConfirmed));
    steps := Extend(cfg, steps, RunVerdict(LoopLeft));
    steps := Submit(cfg, steps, cfg.signals);
    steps := Extend(cfg, steps, RunDelivery(SubmissionDone));
    steps := Wait(cfg, steps, cfg.settle);
    steps := Extend(cfg, steps, RunDelivery(SettleElapsed));
    steps := Extend(cfg, steps, RunDelivery(AliveToStop));
  }

  lemma ReachCleanExit(cfg: Config) returns (steps: seq<Step>)
    requires cfg.signals > 0
    ensures After(cfg, steps) ==
            Some(SettledState(cfg).(pc := CLEANUP_PROCESS, child := Gone(Clean), exitStatus := Exited,
                                    timer := cfg.settle + GRACE_MS))
    ensures AllSmooth(steps)
  {
    hide After, AllSmooth, CanOpening, CanLaunch, CanVerdict, CanDelivery, CanCleanup;
    steps := ReachSettled(cfg);
    steps := Extend(cfg, steps, RunShutdown(TermSent));
    steps := Extend(cfg, steps, Env(ChildExits(Clean)));
    steps := Extend(cfg, steps, RunShutdown(GraceExit));
    steps := Extend(cfg, steps, RunShutdown(CleanExit));
    steps := Extend(cfg, steps, RunShutdown(FinalContextFine));
    steps := Extend(cfg, steps, RunShutdown(RunSucceeds));
  }

  predicate Succeeded(s: Option<State>)
  {
    s.Some? && s.value.pc == RETURNED && s.value.failure.None?
  }

  lemma ReachDrained(cfg: Config) returns (steps: seq<Step>)
    requires cfg.signals > 0
    ensures After(cfg, steps) ==
            Some(SettledState(cfg).(pc := COLLECT, child := Gone(Clean), exitStatus := Exited, connected := false,
                                    timer := cfg.settle + GRACE_MS, sink := Closed))
    ensures AllSmooth(steps)
  {
    hide After, AllSmooth, CanOpening, CanLaunch, CanVerdict, CanDelivery, CanShutdown;
    steps := ReachCleanExit(cfg);
    steps := Extend(cfg, steps, RunCleanup(AlreadyGone));
    steps := Extend(cfg, steps, RunCleanup(SinkDrained));
  }

  lemma ReachNothingToRun(cfg: Config) returns (steps: seq<Step>)
    requires cfg.signals == 0
    ensures Succeeded(After(cfg, steps))
    ensures AllSmooth(steps)
  {
    hide After, AllSmooth, CanLaunch, CanVerdict, CanDelivery, CanShutdown, CanCleanup;
    AtStart(cfg);
    steps := Extend(cfg, [], RunOpening(SkipVersion));
    steps := Extend(cfg, steps, RunOpening(NothingToRun));
  }

  /** Such a run exists, whatever there is to submit and however long it must settle. */
  lemma SuccessIsReachable(cfg: Config) returns (steps: seq<Step>)
    ensures Succeeded(After(cfg, steps))
    ensures AllSmooth(steps)
  {
    hide After, AllSmooth, CanOpening, CanLaunch, CanVerdict, CanDelivery, CanShutdown;
    if cfg.signals == 0 {
      steps := ReachNothingToRun(cfg);
    } else {
      steps := ReachDrained(cfg);
      steps := Extend(cfg, steps, RunCleanup(OutputCaptured));
      steps := Extend(cfg, steps, RunCleanup(DirRemoved));
    }
  }

  /** At every moment of every run: at most three Collectors have been started; a second process lives only
      beside a version query that could not be reaped; the capture is closed under a live child only when the
      run has failed; a failure is recorded at most once. */
  lemma ProcessesAreBounded(cfg: Config, steps: seq<Step>)
    requires After(cfg, steps).Some?
    ensures var s := After(cfg, steps).value;
            s.started <= ATTEMPTS && (s.child.Live? && s.version.Live? ==> s.abandoned) &&
            (s.sink.Closed? && s.child.Live? ==> s.failure.Some?) &&
            s.failures <= 1 && (s.failures == 1 <==> s.failure.Some?)
  {
    EveryRunKeepsInv(cfg, steps);
  }

  predicate BothLive(s: Option<State>)
  {
    s.Some? && s.value.child.Live? && s.value.version.Live?
  }

  /** A version query that outlives its kill is only warned about, so two children can live at once. */
  lemma AbandonedVersionQueryCanOutlive(cfg: Config) returns (steps: seq<Step>)
    requires cfg.signals > 0
    ensures BothLive(After(cfg, steps))
  {
    hide After, CanVerdict, CanDelivery, CanShutdown, CanCleanup;
    AtStart(cfg);
    steps := Extend(cfg, [], RunOpening(StartVersion));
    steps := Wait(cfg, steps, VERSION_MS);
    steps := Extend(cfg, steps, RunOpening(VersionAbandoned));
    steps := Extend(cfg, steps, RunOpening(Proceed));
    steps := Extend(cfg, steps, RunOpening(SetupDone));
    steps := Extend(cfg, steps, RunLaunch(BeginAttempt));
    steps := Extend(cfg, steps, RunLaunch(ChildStarts));
  }

  /** A new attempt follows only an exited Collector whose log shows a bind conflict, before anything was
      submitted; a Collector is started only when no earlier one is alive. */
  lemma RetryOnlyOnBindConflict(cfg: Config, steps: seq<Step>, step: Step)
    requires After(cfg, steps).Some? && Enabled(After(cfg, steps).value, step)
    ensures var s := After(cfg, steps).value;
            var t := Next(s, step);
            (t.attempt != s.attempt ==>
              t.attempt == s.attempt + 1 && s.child.Gone? && s.bindConflict && s.sent == 0 && s.failure.None?) &&
            (t.started != s.started ==> t.started == s.started + 1 && !s.child.Live? && s.sent == 0)
  {
    hide Inv, Enabled, Next, After;
    EveryRunKeepsInv(cfg, steps);
    StepFrame(After(cfg, steps).value, step);
  }

  /** The category recorded first is the one reported. */
  lemma {:induction false} FirstFailureStands(cfg: Config, steps: seq<Step>, more: seq<Step>)
    requires After(cfg, steps).Some? && After(cfg, steps).value.failure.Some? && After(cfg, steps + more).Some?
    ensures After(cfg, steps + more).value.failure == After(cfg, steps).value.failure
    decreases |more|
  {
    hide Inv, CanOpening, CanLaunch, CanVerdict, CanDelivery, CanShutdown, CanCleanup;
    if more == [] {
      assert steps + more == steps;
    } else {
      var all := steps + more;
      assert all[..|all| - 1] == steps + more[..|more| - 1];
      FirstFailureStands(cfg, steps, more[..|more| - 1]);
      EveryRunKeepsInv(cfg, all[..|all| - 1]);
      StepFrame(After(cfg, all[..|all| - 1]).value, all[|all| - 1]);
    }
  }

  /** The reported category names what happened. */
  lemma CategoryNamesCause(cfg: Config, steps: seq<Step>)
    requires After(cfg, steps).Some? && After(cfg, steps).value.failure.Some?
    ensures Explains(After(cfg, steps).value.failure.value, After(cfg, steps).value)
  {
    hide Explains;
    EveryRunKeepsInv(cfg, steps);
  }

  // ----- where a category names less than the cause -----

  /** The deadline categories. */
  predicate NamesDeadline(c: Category)
  {
    c == RunTimeout || c == StartupTimeout
  }

  /** Run fails with this step. */
  predicate Fails(s: State, step: Step)
    requires Enabled(s, step)
  {
    s.failure.None? && Next(s, step).failure.Some?
  }

  /** After a cancellation Run still reports a deadline exactly when it notices the cancellation while identifying the
      binary or at the top of the attempt loop; every other check tells the two apart. */
  lemma CancellationReportedAsDeadlineIff(cfg: Config, steps: seq<Step>, step: Step)
    requires After(cfg, steps).Some? && Enabled(After(cfg, steps).value, step)
    requires After(cfg, steps).value.ctx == Canceled && Fails(After(cfg, steps).value, step)
    ensures NamesDeadline(Next(After(cfg, steps).value, step).failure.value) <==>
            step == RunOpening(ChecksumInterrupted) || step == RunLaunch(StartupTooLate)
  {
    hide After;
    EveryRunKeepsInv(cfg, steps);
    FailedStepNames(After(cfg, steps).value, step);
  }

  lemma FailedStepNames(s: State, step: Step)
    requires Inv(s) && Enabled(s, step) && s.ctx == Canceled && Fails(s, step)
    ensures NamesDeadline(Next(s, step).failure.value) <==>
            step == RunOpening(ChecksumInterrupted) || step == RunLaunch(StartupTooLate)
  {
    hide AttemptsInv, FailureInv, SinkInv, VersionInv, ProgressInv, OutcomeInv, Explains, ReasonInv,
      CanOpening, CanLaunch, CanVerdict, CanDelivery, CanShutdown, CanCleanup,
      DoOpening, DoLaunch, DoVerdict, DoDelivery, DoShutdown, DoCleanup;
    match step {
      case RunOpening(a) => OpeningNames(s, a);
      case RunLaunch(a) => LaunchNames(s, a);
      case RunVerdict(a) => VerdictNames(s, a);
      case RunDelivery(a) => DeliveryNames(s, a);
      case RunShutdown(a) => ShutdownNames(s, a);
      case RunCleanup(a) => CleanupNames(s, a);
      case Env(e) => EventFrame(s, e);
    }
  }

  lemma OpeningNames(s: State, a: Opening)
    requires CanOpening(s, a) && s.ctx == Canceled && s.failure.None? && DoOpening(s, a).failure.Some?
    ensures NamesDeadline(DoOpening(s, a).failure.value) <==> a == ChecksumInterrupted
  {
    match a {
      case PreflightFails(c) =>
      case ChecksumInterrupted =>
      case StartVersion =>
      case SkipVersion =>
      case VersionFinished =>
      case VersionKilled =>
      case VersionAbandoned =>
      case VersionInterrupted =>
      case NothingToRun =>
      case Proceed =>
      case SetupFails(c) =>
      case SetupDone =>
    }
  }

  lemma LaunchNames(s: State, a: Launch)
    requires CanLaunch(s, a) && s.ctx == Canceled && s.failure.None? && DoLaunch(s, a).failure.Some?
    ensures NamesDeadline(DoLaunch(s, a).failure.value) <==> a == StartupTooLate
  {
    match a {
      case LoopExhausted =>
      case StartupTooLate =>
      case BeginAttempt =>
      case PrepareFails(c) =>
      case ChildStarts =>
      case ClientRefused =>
      case Connected =>
      case ConnectGivesUp =>
      case ReadinessSeen =>
      case ReadinessGivesUp =>
    }
  }

  lemma VerdictNames(s: State, a: Verdict)
    requires ReasonInv(s) && CanVerdict(s, a) && s.ctx == Canceled && s.failure.None? && DoVerdict(s, a).failure.Some?
    ensures !NamesDeadline(DoVerdict(s, a).failure.value)
  {
    match a {
      case StartConfirmed =>
      case StartedButExited =>
      case Retry =>
      case ExitedInStartup(c) =>
      case StillUp =>
      case StartupSinkFailed =>
      case StartupSinkFine =>
      case NeverReady =>
      case NoConnection =>
      case LoopLeft =>
    }
  }

  lemma DeliveryNames(s: State, a: Delivery)
    requires ReasonInv(s) && CanDelivery(s, a) && s.ctx == Canceled && s.failure.None? && DoDelivery(s, a).failure.Some?
    ensures !NamesDeadline(DoDelivery(s, a).failure.value)
  {
    match a {
      case ExportAccepted =>
      case SubmissionDone =>
      case ExportFails =>
      case SubmitInterrupted =>
      case SubmitContextFine =>
      case SubmitRejected =>
      case SettleInterrupted =>
      case SettleExit =>
      case SettleSinkFailed =>
      case SettleElapsed =>
      case DiedBeforeStop =>
      case AliveToStop =>
    }
  }

  lemma ShutdownNames(s: State, a: Shutdown)
    requires CanShutdown(s, a) && s.ctx == Canceled && s.failure.None? && DoShutdown(s, a).failure.Some?
    ensures !NamesDeadline(DoShutdown(s, a).failure.value)
  {
    match a {
      case AlreadyExited =>
      case TermSent =>
      case TermFails =>
      case GraceExit =>
      case GraceKills =>
      case GraceKillFails =>
      case ReapExit =>
      case ReapOver =>
      case StopFailed =>
      case UncleanExit =>
      case CleanExit =>
      case FinalInterrupted =>
      case FinalContextFine =>
      case ExportReported =>
      case RunSucceeds =>
    }
  }

  lemma CleanupNames(s: State, a: Cleanup)
    requires ReasonInv(s) && CanCleanup(s, a) && s.ctx == Canceled && s.failure.None? && DoCleanup(s, a).failure.Some?
    ensures !NamesDeadline(DoCleanup(s, a).failure.value)
  {
    match a {
      case NoLeftover =>
      case AlreadyGone =>
      case LeftoverKilled =>
      case LeftoverUnkillable =>
      case LeftoverGone =>
      case LeftoverStuck =>
      case SinkDrained =>
      case SinkDrainTimedOut =>
      case OutputCaptured =>
      case CaptureFailed =>
      case DirRemoved =>
      case DirStuck =>
    }
  }

  predicate CanceledAs(s: Option<State>, c: Category)
  {
    s.Some? && s.value.ctx == Canceled && s.value.failure == Some(c)
  }

  /** Both do happen. */
  lemma CancellationCanBeReportedAsDeadline(cfg: Config)
    ensures exists steps :: CanceledAs(After(cfg, steps), RunTimeout)
    ensures cfg.signals > 0 ==> exists steps :: CanceledAs(After(cfg, steps), StartupTimeout)
  {
    hide After, CanVerdict, CanDelivery, CanShutdown, CanCleanup;
    AtStart(cfg);
    var a := Extend(cfg, [], Env(CallerCancels));
    var b := Extend(cfg, a, RunOpening(ChecksumInterrupted));
    assert CanceledAs(After(cfg, b), RunTimeout);
    if cfg.signals > 0 {
      var c := ReachAttempt(cfg);
      var d := Extend(cfg, c, Env(CallerCancels));
      var e := Extend(cfg, d, RunLaunch(StartupTooLate));
      assert CanceledAs(After(cfg, e), StartupTimeout);
    }
  }

  // ----- what Run hears -----

  /** What Run is told by the log and by the capture server. */
  predicate HearsNothing(s: State, t: State)
  {
    t.ready == s.ready && t.exportFailure == s.exportFailure && t.bindConflict == s.bindConflict &&
    t.sinkFailure == s.sinkFailure
  }

  /** An event that comes from the log or from the capture server. */
  predicate IsNews(e: Event)
  {
    e.ReadyLine? || e.ExportFailureLine? || e.BindConflictLine? || e.ConflictScrolledOff? || e.CaptureFails?
  }

  lemma OpeningHearsNothing(s: State, a: Opening)
    requires CanOpening(s, a)
    ensures HearsNothing(s, DoOpening(s, a))
  {
    match a {
      case PreflightFails(c) =>
      case ChecksumInterrupted =>
      case StartVersion =>
      case SkipVersion =>
      case VersionFinished =>
      case VersionKilled =>
      case VersionAbandoned =>
      case VersionInterrupted =>
      case NothingToRun =>
      case Proceed =>
      case SetupFails(c) =>
      case SetupDone =>
    }
  }

  lemma LaunchHearsNothing(s: State, a: Launch)
    requires CanLaunch(s, a) && a != ChildStarts
    ensures HearsNothing(s, DoLaunch(s, a))
  {
    match a {
      case LoopExhausted =>
      case StartupTooLate =>
      case BeginAttempt =>
      case PrepareFails(c) =>
      case ChildStarts =>
      case ClientRefused =>
      case Connected =>
      case ConnectGivesUp =>
      case ReadinessSeen =>
      case ReadinessGivesUp =>
    }
  }

  lemma VerdictHearsNothing(s: State, a: Verdict)
    requires CanVerdict(s, a)
    ensures HearsNothing(s, DoVerdict(s, a))
  {
    match a {
      case StartConfirmed =>
      case StartedButExited =>
      case Retry =>
      case ExitedInStartup(c) =>
      case StillUp =>
      case StartupSinkFailed =>
      case StartupSinkFine =>
      case NeverReady =>
      case NoConnection =>
      case LoopLeft =>
    }
  }

  lemma DeliveryHearsNothing(s: State, a: Delivery)
    requires CanDelivery(s, a)
    ensures HearsNothing(s, DoDelivery(s, a))
  {
    match a {
      case ExportAccepted =>
      case SubmissionDone =>
      case ExportFails =>
      case SubmitInterrupted =>
      case SubmitContextFine =>
      case SubmitRejected =>
      case SettleInterrupted =>
      case SettleExit =>
      case SettleSinkFailed =>
      case SettleElapsed =>
      case DiedBeforeStop =>
      case AliveToStop =>
    }
  }

  lemma ShutdownHearsNothing(s: State, a: Shutdown)
    requires CanShutdown(s, a)
    ensures HearsNothing(s, DoShutdown(s, a))
  {
    match a {
      case AlreadyExited =>
      case TermSent =>
      case TermFails =>
      case GraceExit =>
      case GraceKills =>
      case GraceKillFails =>
      case ReapExit =>
      case ReapOver =>
      case StopFailed =>
      case UncleanExit =>
      case CleanExit =>
      case FinalInterrupted =>
      case FinalContextFine =>
      case ExportReported =>
      case RunSucceeds =>
    }
  }

  lemma CleanupHearsNothing(s: State, a: Cleanup)
    requires CanCleanup(s, a) && a != SinkDrainTimedOut
    ensures HearsNothing(s, DoCleanup(s, a))
  {
    match a {
      case NoLeftover =>
      case AlreadyGone =>
      case LeftoverKilled =>
      case LeftoverUnkillable =>
      case LeftoverGone =>
      case LeftoverStuck =>
      case SinkDrained =>
      case SinkDrainTimedOut =>
      case OutputCaptured =>
      case CaptureFailed =>
      case DirRemoved =>
      case DirStuck =>
    }
  }

  lemma EventHearsNothing(s: State, e: Event)
    requires May(s, e) && !IsNews(e)
    ensures HearsNothing(s, Happen(s, e))
  {
    match e {
      case ChildExits(x) =>
      case VersionExits(x) =>
      case CallerCancels =>
      case RunExpires =>
      case StartupExpires =>
      case Tick =>
    }
  }

  /** Apart from news, only a new process (whose log is empty) and a capture server that does not drain change what Run
      hears. */
  lemma StepHears(s: State, step: Step)
    requires Enabled(s, step)
    ensures var t := Next(s, step);
            if step == RunLaunch(ChildStarts) then
              !t.ready && !t.exportFailure && !t.bindConflict && t.sinkFailure == s.sinkFailure
            else if step == RunCleanup(SinkDrainTimedOut) then
              HearsNothing(s, t.(sinkFailure := s.sinkFailure)) &&
              t.sinkFailure == if s.sinkFailure.None? then Some(CaptureShutdown) else s.sinkFailure
            else (step.Env? && IsNews(step.event)) || HearsNothing(s, t)
  {
    hide CanOpening, CanVerdict, CanDelivery, CanShutdown, May, DoOpening, DoVerdict, DoDelivery, DoShutdown, Happen,
      HearsNothing;
    match step {
      case RunOpening(a) => OpeningHearsNothing(s, a);
      case RunLaunch(a) => if a != ChildStarts { LaunchHearsNothing(s, a); }
      case RunVerdict(a) => VerdictHearsNothing(s, a);
      case RunDelivery(a) => DeliveryHearsNothing(s, a);
      case RunShutdown(a) => ShutdownHearsNothing(s, a);
      case RunCleanup(a) =>
        if a != SinkDrainTimedOut {
          CleanupHearsNothing(s, a);
        } else {
          DrainTimeoutHeard(s);
        }
      case Env(e) => if !IsNews(e) { EventHearsNothing(s, e); }
    }
  }

  lemma DrainTimeoutHeard(s: State)
    requires CanCleanup(s, SinkDrainTimedOut)
    ensures var t := DoCleanup(s, SinkDrainTimedOut); HearsNothing(s, t.(sinkFailure := s.sinkFailure))
  {
  }

  // ----- Run returns -----

  /** Fewer attempts are left, or the return is nearer, or fewer signals remain to be submitted. */
  ghost predicate Closer(s: State, t: State)
  {
    (ATTEMPTS - s.attempt, s.pc, s.cfg.signals - s.sent decreases to
     ATTEMPTS - t.attempt, t.pc, s.cfg.signals - t.sent)
  }

  /** Every step of Run itself retries, moves forward in program order or submits one more signal. */
  lemma RunStepsDescend(cfg: Config, steps: seq<Step>, step: Step)
    requires After(cfg, steps).Some? && Enabled(After(cfg, steps).value, step) && !step.Env?
    ensures var s := After(cfg, steps).value;
            var t := Next(s, step);
            s.attempt < ATTEMPTS && s.sent <= cfg.signals && Closer(s, t)
  {
    hide Enabled, Next, After;
    EveryRunKeepsInv(cfg, steps);
    RunStepDescends(After(cfg, steps).value, step);
  }

  /** Attempts and program points still ahead. */
  function Level(s: State): int
  {
    (ATTEMPTS - s.attempt) * (PREFLIGHT + 1) + s.pc
  }

  /** How many steps of its own Run can still take at most. */
  function Rank(s: State): int
  {
    Level(s) * (s.cfg.signals + 1) + s.cfg.signals - s.sent
  }

  lemma Scaled(a: int, b: int, w: nat)
    requires b + 1 <= a
    ensures b * w + w <= a * w
  {
    assert (a - b - 1) * w >= 0;
  }

  lemma LevelDescends(s: State, t: State)
    requires Closer(s, t) && t.pc <= PREFLIGHT && s.attempt < ATTEMPTS && t.attempt < ATTEMPTS
    ensures Level(t) + 1 <= Level(s) || (Level(t) == Level(s) && s.sent < t.sent)
  {
    if ATTEMPTS - t.attempt < ATTEMPTS - s.attempt {
      Scaled(ATTEMPTS - s.attempt, ATTEMPTS - t.attempt, PREFLIGHT + 1);
    }
  }

  lemma RankDescends(s: State, t: State)
    requires Closer(s, t) && t.cfg == s.cfg && t.pc <= PREFLIGHT && s.attempt < ATTEMPTS && t.attempt < ATTEMPTS
    requires s.sent <= s.cfg.signals && t.sent <= s.cfg.signals
    ensures Rank(t) + 1 <= Rank(s)
  {
    LevelDescends(s, t);
    hide Level, Closer;
    if Level(t) != Level(s) {
      Scaled(Level(s), Level(t), s.cfg.signals + 1);
    }
  }

  /** The steps an interleaving contains that Run itself takes. */
  function RunSteps(steps: seq<Step>): nat
  {
    if steps == [] then 0 else RunSteps(steps[..|steps| - 1]) + if steps[|steps| - 1].Env? then 0 else 1
  }

  lemma EventKeepsRank(s: State, e: Event)
    requires May(s, e)
    ensures Rank(Happen(s, e)) == Rank(s)
  {
    hide May, Happen;
    EventTouches(s, e);
  }

  lemma {:induction false} StepsAndRank(cfg: Config, steps: seq<Step>)
    requires After(cfg, steps).Some?
    ensures RunSteps(steps) + Rank(After(cfg, steps).value) <= Rank(Init(cfg))
  {
    hide Rank, Inv, Closer, May, Happen, CanOpening, CanLaunch, CanVerdict, CanDelivery, CanShutdown, CanCleanup;
    if steps != [] {
      var before, step := steps[..|steps| - 1], steps[|steps| - 1];
      StepsAndRank(cfg, before);
      if step.Env? {
        EventKeepsRank(After(cfg, before).value, step.event);
      } else {
        RunStepLowersRank(cfg, before, step);
      }
    }
  }

  lemma RunStepLowersRank(cfg: Config, steps: seq<Step>, step: Step)
    requires After(cfg, steps).Some? && Enabled(After(cfg, steps).value, step) && !step.Env?
    ensures var s := After(cfg, steps).value; Rank(Next(s, step)) + 1 <= Rank(s)
  {
    hide After, Enabled, Next, Rank, Closer, ProgressInv, AttemptsInv, OutcomeInv, CauseInv, FailureInv, SinkInv,
      VersionInv;
    var s := After(cfg, steps).value;
    EveryRunKeepsInv(cfg, steps);
    RunStepsDescend(cfg, steps, step);
    StepKeepsInv(s, step);
    StepFrame(s, step);
    Bounds(s);
    Bounds(Next(s, step));
    RankDescends(s, Next(s, step));
  }

  lemma Bounds(s: State)
    requires Inv(s)
    ensures s.pc <= PREFLIGHT && s.attempt < ATTEMPTS && s.sent <= s.cfg.signals
  {
    hide OutcomeInv, CauseInv, FailureInv, SinkInv, VersionInv;
  }

  /** However the rest of the world acts, Run takes boundedly many steps of its own. */
  lemma RunTakesBoundedSteps(cfg: Config, steps: seq<Step>)
    requires After(cfg, steps).Some?
    ensures RunSteps(steps) < (ATTEMPTS + 1) * (PREFLIGHT + 1) * (cfg.signals + 1)
  {
    hide After, Inv;
    StepsAndRank(cfg, steps);
    EveryRunKeepsInv(cfg, steps);
    var s := After(cfg, steps).value;
    Bounds(s);
    assert Level(s) >= 0 && Level(Init(cfg)) == ATTEMPTS * (PREFLIGHT + 1) + PREFLIGHT;
    assert Level(s) * (cfg.signals + 1) >= 0;
  }

  /** Once the overall deadline or a cancellation has come and the running timer has passed, Run can always
      take a step of its own: it never waits for the child, the receiver or the capture server. */
  lemma DeadlineUnblocksRun(s: State)
    requires Inv(s) && s.ctx != Active && s.now >= s.timer && s.pc != RETURNED
    ensures exists step :: Enabled(s, step) && !step.Env?
  {
    hide AttemptsInv, FailureInv, SinkInv, OutcomeInv, CauseInv, DoOpening, DoLaunch, DoVerdict, DoDelivery,
      DoShutdown, DoCleanup;
    if s.pc >= AFTER_LOOP {
      StartingGoesOn(s);
    } else if s.pc > STOP_BEGINS {
      DeliveryGoesOn(s);
    } else if s.pc > CLEANUP_PROCESS {
      StopGoesOn(s);
    } else {
      CleanupGoesOn(s);
    }
    assert !WayForward(s).Env?;
  }

  lemma StartingGoesOn(s: State)
    requires VersionInv(s) && s.ctx != Active && s.now >= s.timer && AFTER_LOOP <= s.pc <= PREFLIGHT
    ensures Enabled(s, WayForward(s))
  {
  }

  lemma DeliveryGoesOn(s: State)
    requires ProgressInv(s) && s.ctx != Active && STOP_BEGINS < s.pc < AFTER_LOOP
    ensures Enabled(s, WayForward(s))
  {
    hide CanOpening, CanLaunch, CanVerdict, CanShutdown, CanCleanup;
  }

  lemma StopGoesOn(s: State)
    requires ProgressInv(s) && s.ctx != Active && s.now >= s.timer && CLEANUP_PROCESS < s.pc <= STOP_BEGINS
    ensures Enabled(s, WayForward(s))
  {
    hide CanOpening, CanLaunch, CanVerdict, CanDelivery, CanCleanup;
  }

  lemma CleanupGoesOn(s: State)
    requires s.now >= s.timer && RETURNED < s.pc <= CLEANUP_PROCESS
    ensures Enabled(s, WayForward(s))
  {
    hide CanOpening, CanLaunch, CanVerdict, CanDelivery, CanShutdown;
  }

  /** A step Run can take in any such state. */
  function WayForward(s: State): Step
    requires 0 < s.pc <= PREFLIGHT
  {
    if s.pc == PREFLIGHT then RunOpening(SkipVersion)
    else if s.pc == VERSION_QUERY then
      (if s.version.Gone? then RunOpening(VersionFinished) else RunOpening(VersionKilled))
    else if s.pc == VERSION_ANSWERED then RunOpening(VersionInterrupted)
    else if s.pc == SETUP then RunOpening(SetupDone)
    else if s.pc == ATTEMPT_TOP then
      (if s.attempt >= ATTEMPTS then RunLaunch(LoopExhausted) else RunLaunch(StartupTooLate))
    else if s.pc == PREPARE then RunLaunch(ChildStarts)
    else if s.pc == CONNECTING then RunLaunch(ConnectGivesUp)
    else if s.pc == AWAIT_READY then RunLaunch(ReadinessGivesUp)
    else if s.pc == CHECK_STARTED then
      (if s.child.Gone? then RunVerdict(StartedButExited) else RunVerdict(StartConfirmed))
    else if s.pc == STARTUP_FAILED then (if !s.child.Gone? then RunVerdict(StillUp)
      else if s.bindConflict && s.attempt < ATTEMPTS - 1 then RunVerdict(Retry)
      else RunVerdict(ExitedInStartup(ProcessExit)))
    else if s.pc == STARTUP_SINK then
      (if s.sinkFailure.Some? then RunVerdict(StartupSinkFailed) else RunVerdict(StartupSinkFine))
    else if s.pc == STARTUP_CONTEXT then RunVerdict(NeverReady)
    else if s.pc == AFTER_LOOP then (if s.connected then RunVerdict(LoopLeft) else RunVerdict(NoConnection))
    else if s.pc == SUBMIT then
      (if s.sent == s.cfg.signals then RunDelivery(SubmissionDone) else RunDelivery(ExportFails))
    else if s.pc == SUBMIT_CONTEXT then RunDelivery(SubmitInterrupted)
    else if s.pc == SUBMIT_SINK then RunDelivery(SubmitRejected)
    else if s.pc == SETTLE then RunDelivery(SettleInterrupted)
    else if s.pc == CHECK_ALIVE then (if s.child.Gone? then RunDelivery(DiedBeforeStop) else RunDelivery(AliveToStop))
    else if s.pc == STOP_BEGINS then (if s.child.Gone? then RunShutdown(AlreadyExited) else RunShutdown(TermSent))
    else if s.pc == GRACE then RunShutdown(GraceKills)
    else if s.pc == REAP then RunShutdown(ReapOver)
    else if s.pc == STOP_ERRED then RunShutdown(StopFailed)
    else if s.pc == STOP_DONE then (if s.child == Gone(Clean) then RunShutdown(CleanExit) else RunShutdown(UncleanExit))
    else if s.pc == FINAL_CONTEXT then RunShutdown(FinalInterrupted)
    else if s.pc == FINAL_EXPORT then
      (if s.exportFailure then RunShutdown(ExportReported) else RunShutdown(RunSucceeds))
    else if s.pc == CLEANUP_PROCESS then (if s.child.Absent? then RunCleanup(NoLeftover)
      else if s.child.Gone? then RunCleanup(AlreadyGone) else RunCleanup(LeftoverKilled))
    else if s.pc == CLEANUP_REAP then RunCleanup(LeftoverStuck)
    else if s.pc == CLOSE_SINK then RunCleanup(SinkDrainTimedOut)
    else if s.pc == COLLECT then (if s.sinkFailure.Some? then RunCleanup(CaptureFailed) else RunCleanup(OutputCaptured))
    else RunCleanup(DirRemoved)
  }
}
