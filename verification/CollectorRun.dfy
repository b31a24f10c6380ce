/** One real run as a whole: what the process, its log, the capture service and the evaluation together mean when the
    tool exits 0 (internal/runner/collector.go, internal/runner/capture.go, internal/cli/cli.go). */
module CollectorRun {
  import opened Strings
  import opened Policy
  import opened Telemetry
  import opened Canonical
  import opened Matches
  import opened Report
  import opened Evaluator
  import opened EndToEnd
  import opened Capture
  import opened JointRun
  import Signals
  import L = Lifecycle
  import LogBuffer
  import T = Topology
  import Selection
  import Uncertainty

  /** OTLP blocks of logs, traces and metrics as policy telemetry (telemetry.OTLP.Normalize). */
  type Normalizer<!B> = (seq<B>, seq<B>, seq<B>) -> Snapshot

  function Delivered<B>(normalize: Normalizer<B>, requests: seq<Request<B>>): Snapshot
  {
    normalize(Blocks(requests, Signals.Logs), Blocks(requests, Signals.Traces), Blocks(requests, Signals.Metrics))
  }

  /** This could all happen, and at the end of it Run had returned. */
  ghost predicate Returned<B>(cfg: L.Config, hs: seq<Happening<B>>)
  {
    JointAfter(cfg, hs).Some? && JointAfter(cfg, hs).value.life.pc == L.RETURNED
  }

  const NOTHING_TO_RUN := "fixture contains no telemetry to execute"

  /** The reasons Run hands over. */
  function RunReasons(t: T.Topology): seq<string>
    requires |t.processors.content| % 2 == 0
  {
    Uncertainty.Reasons(Uncertainty.KeySeq(t.processors.content)) + if t.pipelines == [] then [NOTHING_TO_RUN] else []
  }

  /** What Run returns: its error, or the canonical input and the canonical form of what the sink holds. */
  method FinishRun<B>(ghost cfg: L.Config, ghost hs: seq<Happening<B>>, s: L.State, log: LogBuffer.PrivateBuffer,
                      sink: CaptureSink<B>, t: T.Topology, fixture: Snapshot, normalize: Normalizer<B>,
                      warnings: seq<string>)
    returns (outcome: Outcome)
    requires Returned(cfg, hs) && s == JointAfter(cfg, hs).value.life && Holds(JointAfter(cfg, hs).value, log, sink)
    requires cfg.signals == |t.pipelines| && |t.processors.content| % 2 == 0
    ensures outcome.RunFailed? <==> s.failure.Some?
    ensures outcome.Ran? ==>
              outcome.warnings == warnings && outcome.reasons == RunReasons(t) && outcome.signalReasons == Scoped(t)
    ensures outcome.Ran? ==> Canonicalizes(fixture, outcome.input)
    ensures outcome.Ran? && t.pipelines == [] ==> outcome.output == Snapshot([], [], [])
    ensures outcome.Ran? && t.pipelines != [] ==>
              Canonicalizes(Delivered(normalize, Exports(JointAfter(cfg, hs).value.calls)), outcome.output)
  {
    hide L.Inv, Canonicalizes, JointAfter, Scoped, RunReasons, L.Proven, FailureAfter, Exports, Fits, AllQuiet,
      LogBuffer.Mentions;
    if s.failure.Some? {
      return RunFailed;
    }
    var input := new TelemetrySet(fixture);
    input.Canonicalize();
    var output := Snapshot([], [], []);
    if t.pipelines != [] {
      NilErrorMeansDelivered(cfg, hs);
      var captured := new TelemetrySet(normalize(sink.logs, sink.traces, sink.metrics));
      captured.Canonicalize();
      output := captured.Now();
    }
    outcome := Ran(input.Now(), output, warnings, RunReasons(t), Scoped(t));
  }

  /** A nil error for a nonempty topology: the whole log mentions readiness and no failed export, no call to the capture
      failed, everything delivered fits its limits, and the process, submission and settling did what they should. */
  lemma NilErrorMeansDelivered<B>(cfg: L.Config, hs: seq<Happening<B>>)
    requires Returned(cfg, hs) && JointAfter(cfg, hs).value.life.failure.None? && cfg.signals > 0
    ensures var j := JointAfter(cfg, hs).value;
            FailureAfter(j.calls) == "" && AllQuiet(j.calls) && Fits(Exports(j.calls)) &&
            LogBuffer.Mentions(j.log, LogBuffer.ReadyMarkers()) &&
            !LogBuffer.Mentions(j.log, LogBuffer.ExportMarkers()) &&
            L.Proven(j.life) && j.life.cfg == cfg && j.life.sink == L.Closed
  {
    hide LogBuffer.Mentions, L.After, JointAfter, FailureAfter, AllQuiet, Fits, Exports, FailureIn, JointRun.Kept;
    var j := JointAfter(cfg, hs).value;
    var steps := JointRunsAreRuns(cfg, hs);
    L.EveryRunKeepsInv(cfg, steps);
    JointRunsAreInformed(cfg, hs);
    FailsIff(j.calls);
    FailureNamed(FailureAfter(j.calls));
  }

  /** What exit 0 proves of the run itself. */
  ghost predicate DidAll<B>(cfg: L.Config, j: Joint<B>)
  {
    cfg.signals > 0 && j.life.cfg == cfg && j.life.failure.None? && L.Proven(j.life) &&
    AllQuiet(j.calls) && Fits(Exports(j.calls)) && LogBuffer.Mentions(j.log, LogBuffer.ReadyMarkers()) &&
    !LogBuffer.Mentions(j.log, LogBuffer.ExportMarkers())
  }

  /** A whole history, from the start of Run to the exit code. Exit 0 means: something ran; the Collector reported
      ready, took every signal, was left to settle, exited by itself and cleanly, and never logged a failed export;
      nothing delivered is missing from the judged output; and every check of the policy passes on evidence. */
  method TestCollector<B>(mx: Matcher, p: Policy, cfg: L.Config, hs: seq<Happening<B>>, t: T.Topology,
                          fixture: Snapshot, normalize: Normalizer<B>, warnings: seq<string>, failOnWarn: bool,
                          saved: bool)
    returns (returned: bool, exit: nat, ghost judged: Snapshot)
    requires cfg.signals == |t.pipelines| && |t.processors.content| % 2 == 0
    requires Selection.OnePerSignal(t.pipelines) && Validate(p).None?
    ensures returned <==> Returned(cfg, hs)
    ensures returned && exit == 0 ==> saved && DidAll(cfg, JointAfter(cfg, hs).value)
    ensures returned && exit == 0 ==>
              Canonicalizes(Delivered(normalize, Exports(JointAfter(cfg, hs).value.calls)), judged)
    ensures returned && exit == 0 ==>
              exists input :: Canonicalizes(fixture, input) && PassesOnEvidence(mx, p, input, judged, t)
    ensures returned && saved ==> (exit == 3 <==> JointAfter(cfg, hs).value.life.failure.Some?)
  {
    hide JointAfter, Holds, L.Proven, DidAll, LogBuffer.Mentions, Canonicalizes, Validate, PassesOnEvidence, Scoped,
      RunReasons, Reports, ExitCode, Checks, Spoken, Delivered, Exports, Fits, AllQuiet;
    exit, judged := 0, Snapshot([], [], []);
    var possible, s, log, sink := Watch(cfg, hs);
    returned := possible && s.pc == L.RETURNED;
    if returned {
      var outcome := FinishRun(cfg, hs, s, log, sink, t, fixture, normalize, warnings);
      exit := Judge(mx, p, outcome, t, failOnWarn, saved);
      judged := if outcome.Ran? then outcome.output else judged;
      if exit == 0 {
        NilErrorDidAll(cfg, hs);
      }
    }
  }

  lemma NilErrorDidAll<B>(cfg: L.Config, hs: seq<Happening<B>>)
    requires Returned(cfg, hs) && JointAfter(cfg, hs).value.life.failure.None? && cfg.signals > 0
    ensures DidAll(cfg, JointAfter(cfg, hs).value)
  {
    hide JointAfter, L.Proven, LogBuffer.Mentions, Exports, Fits, AllQuiet, FailureAfter;
    NilErrorMeansDelivered(cfg, hs);
  }

  /** Evaluation and exit code of a run that has returned. */
  method Judge(mx: Matcher, p: Policy, outcome: Outcome, t: T.Topology, failOnWarn: bool, saved: bool)
    returns (exit: nat)
    requires |t.processors.content| % 2 == 0 && Selection.OnePerSignal(t.pipelines) && Validate(p).None?
    requires outcome.Ran? ==> outcome.reasons == RunReasons(t) && outcome.signalReasons == Scoped(t)
    requires outcome.Ran? && t.pipelines == [] ==> outcome.output == Snapshot([], [], [])
    ensures exit == 0 ==>
              saved && outcome.Ran? && t.pipelines != [] && PassesOnEvidence(mx, p, outcome.input, outcome.output, t)
    ensures saved ==> (exit == 3 <==> outcome.RunFailed?)
  {
    hide Validate, PassesOnEvidence, Scoped, RunReasons, Reports, ExitCode, Checks, Spoken;
    var code, report := RunTest(mx, p, outcome, Otelcol, failOnWarn, saved);
    exit := code;
    if outcome.Ran? {
      ReasonsAreSpoken(t, OptionsOf(outcome, Otelcol));
    }
    ExitZeroIff(mx, p, outcome, Otelcol, failOnWarn, report.value);
    if exit == 0 {
      ExitZeroMeansEvidence(mx, p, outcome, failOnWarn, report.value);
      AllOnEvidence(mx, p, outcome, t);
      SomethingRan(mx, p, outcome, t);
    }
  }

  /** At least one check, all passes about applicable input, and none about a signal with a processor whose completion
      is unknown unless every error span was observed. */
  ghost predicate PassesOnEvidence(mx: Matcher, p: Policy, input: Snapshot, output: Snapshot, t: T.Topology)
  {
    Judgements(mx, p, input, output) != [] &&
    forall j :: j in Judgements(mx, p, input, output) ==>
      j.status == Pass && !Inapplicable(mx, j.signal, j.check, input) &&
      (j.signal in Scoped(t) ==> j.check == PreserveErrorTraces && ErrorsCaptured(mx, input, output))
  }

  lemma AllOnEvidence(mx: Matcher, p: Policy, outcome: Outcome, t: T.Topology)
    requires outcome.Ran? && outcome.signalReasons == Scoped(t) && Selection.OnePerSignal(t.pipelines)
    requires Judgements(mx, p, outcome.input, outcome.output) != []
    requires forall j :: j in Judgements(mx, p, outcome.input, outcome.output) ==>
               j.status == Pass && !Inapplicable(mx, j.signal, j.check, outcome.input) &&
               (Certain(OptionsOf(outcome, Otelcol), j.signal) ||
                (j.check == PreserveErrorTraces && ErrorsCaptured(mx, outcome.input, outcome.output)))
    ensures PassesOnEvidence(mx, p, outcome.input, outcome.output, t)
  {
    hide Judgements, Inapplicable, ErrorsCaptured, Scoped, Selection.OnePerSignal;
    ScopedIsNonempty(t);
  }

  lemma ScopedIsNonempty(t: T.Topology)
    requires Selection.OnePerSignal(t.pipelines)
    ensures forall s :: s in Scoped(t) ==> Scoped(t)[s] != []
  {
    hide Uncertainty.Reasons, Uncertainty.ScopedReasons, Selection.OnePerSignal;
    Uncertainty.ScopedMembers(t.pipelines);
    forall s | s in Scoped(t) ensures Scoped(t)[s] != [] {
      var x :| x in Uncertainty.ScopedReasons(t.pipelines) && Of(x) == s;
      var q :| q in t.pipelines && q.signal == x && Uncertainty.Reasons(q.processors) != [];
    }
  }

  lemma ReasonsAreSpoken(t: T.Topology, o: Options)
    requires Selection.OnePerSignal(t.pipelines) && |t.processors.content| % 2 == 0 && o.unreliableSignals == Scoped(t)
    requires o.unreliableOutput == [] || o.unreliableOutput == RunReasons(t)
    ensures Spoken(o)
  {
    hide Uncertainty.Reasons, Uncertainty.Waits, Uncertainty.ReasonFor, Selection.OnePerSignal, Scoped,
      Uncertainty.KeySeq;
    ScopedIsSpoken(t, o.(unreliableOutput := []));
    Uncertainty.ReasonMembers(Uncertainty.KeySeq(t.processors.content));
  }

  /** Without a populated signal the output is empty and doubted as a whole, so no check can pass. */
  lemma SomethingRan(mx: Matcher, p: Policy, outcome: Outcome, t: T.Topology)
    requires outcome.Ran? && outcome.signalReasons == Scoped(t) && |t.processors.content| % 2 == 0
    requires outcome.reasons == RunReasons(t) && PassesOnEvidence(mx, p, outcome.input, outcome.output, t)
    requires t.pipelines == [] ==> outcome.output == Snapshot([], [], [])
    requires forall j :: j in Judgements(mx, p, outcome.input, outcome.output) ==>
               Certain(OptionsOf(outcome, Otelcol), j.signal) ||
               (j.check == PreserveErrorTraces && ErrorsCaptured(mx, outcome.input, outcome.output))
    ensures t.pipelines != []
  {
    hide Judgements, Inapplicable, Uncertainty.Reasons, Uncertainty.KeySeq, Certain, ErrorsCaptured, Scoped, RunReasons,
      OptionsOf;
    var j := Judgements(mx, p, outcome.input, outcome.output)[0];
    assert j in Judgements(mx, p, outcome.input, outcome.output);
    NothingIsCertain(t, outcome, j.signal);
    NothingCaptured(mx, outcome.input, outcome.output);
  }

  lemma NothingIsCertain(t: T.Topology, outcome: Outcome, signal: Subject)
    requires outcome.Ran? && outcome.signalReasons == Scoped(t) && |t.processors.content| % 2 == 0
    requires outcome.reasons == RunReasons(t)
    ensures t.pipelines == [] ==> !Certain(OptionsOf(outcome, Otelcol), signal)
  {
    hide Uncertainty.Reasons, Uncertainty.KeySeq;
    assert t.pipelines == [] ==> Scoped(t) == map[];
    assert t.pipelines == [] ==> |RunReasons(t)| > 0;
  }

  lemma NothingCaptured(mx: Matcher, input: Snapshot, output: Snapshot)
    ensures output.spans == [] ==> !ErrorsCaptured(mx, input, output)
  {
    assert output.spans == [] ==> ErrorKeys(mx, output.spans) == {};
  }
}
