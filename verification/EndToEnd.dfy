/** From a finished run to the exit code (runTest of internal/cli/cli.go), and what exit 0 proves. */
module EndToEnd {
  import opened Strings
  import opened Json
  import opened Policy
  import opened Telemetry
  import opened Canonical
  import opened Matches
  import opened Report
  import opened Evaluator
  import opened Evidence
  import Signals
  import T = Topology
  import Selection
  import Uncertainty

  /** What a runner hands over. */
  datatype Outcome =
    | RunFailed
    | Ran(input: Snapshot, output: Snapshot, warnings: seq<string>, reasons: seq<string>,
          signalReasons: map<Subject, seq<string>>)

  /** Scoped reasons replace the global ones whenever there are any. */
  function OptionsOf(outcome: Outcome, runner: RunnerName): Options
    requires outcome.Ran?
  {
    Options(runner.Otelcol?, if outcome.signalReasons != map[] then [] else outcome.reasons, outcome.signalReasons)
  }

  function Statuses(js: seq<Judgement>): (r: seq<Status>)
    ensures |r| == |js|
  {
    seq(|js|, i requires 0 <= i < |js| => js[i].status)
  }

  function Checks(mx: Matcher, p: Policy, outcome: Outcome, runner: RunnerName): seq<Status>
  {
    if outcome.RunFailed? then [Error]
    else Statuses(Evaluation(mx, p, outcome.input, outcome.output, |outcome.warnings|, OptionsOf(outcome, runner)))
  }

  /** Evaluate, report, exit. A simulated run that fails exits before any report is built; saved says that no report
      file was asked for or that it could be written. */
  method RunTest(mx: Matcher, p: Policy, outcome: Outcome, runner: RunnerName, failOnWarn: bool, saved: bool)
    returns (exit: nat, report: Option<Report>)
    ensures report.Some? ==> Reports(report.value, Checks(mx, p, outcome, runner), runner) &&
                             exit == if saved then ExitCode(report.value, failOnWarn) else 2
    ensures report.None? <==> outcome.RunFailed? && runner.FixtureRunner?
    ensures report.None? ==> exit == 3
  {
    hide Evaluation, Heaviest, Severity, JudgementOf;
    if outcome.RunFailed? && runner.FixtureRunner? {
      return 3, None;
    }
    var checks: seq<Status>;
    if outcome.RunFailed? {
      checks := [Error];
    } else {
      var uncertain := outcome.reasons;
      if outcome.signalReasons != map[] {
        uncertain := [];
      }
      var results := EvaluateWithOptions(mx, p, outcome.input, outcome.output, outcome.warnings,
                                         Options(runner.Otelcol?, uncertain, outcome.signalReasons));
      checks := seq(|results|, i requires 0 <= i < |results| => results[i].status);
      StatusesOfResults(results);
    }
    var r := Build(checks, runner);
    if !saved {
      return 2, Some(r);
    }
    return ExitCode(r, failOnWarn), Some(r);
  }

  lemma StatusesOfResults(results: seq<CheckResult>)
    ensures seq(|results|, i requires 0 <= i < |results| => results[i].status) == Statuses(Judged(results))
  {
  }

  // ----- what the exit codes mean -----

  /** Nothing makes the captured output of this signal unreliable. */
  predicate Certain(o: Options, signal: Subject)
  {
    o.unreliableOutput == [] && (signal in o.unreliableSignals ==> o.unreliableSignals[signal] == [])
  }

  /** Every error span of a fixture that has some was captured. */
  predicate ErrorsCaptured(mx: Matcher, input: Snapshot, output: Snapshot)
  {
    ErrorKeys(mx, input.spans) != {} && ErrorKeys(mx, input.spans) <= ErrorKeys(mx, output.spans)
  }

  /** While trace ids have no colon (they are hexadecimal), the key of a span is its identity. */
  lemma SpanKeyIdentifies(s: Span, t: Span)
    requires ':' !in s.traceId && ':' !in t.traceId
    ensures SpanKey(s) == SpanKey(t) <==> s.traceId == t.traceId && s.spanId == t.spanId
  {
    if SpanKey(s) == SpanKey(t) {
      assert s.traceId + [':'] + s.spanId == SpanKey(s);
      assert t.traceId + [':'] + t.spanId == SpanKey(t);
      CutAtSeparator(s.traceId, t.traceId, s.spanId, t.spanId, ':');
    }
  }

  ghost predicate PlainIds(spans: seq<Span>)
  {
    forall s :: s in spans ==> ':' !in s.traceId
  }

  /** Capturing every error key is capturing every error span: same trace id, same span id, still an error. */
  lemma CapturedMeansEverySpan(mx: Matcher, input: Snapshot, output: Snapshot)
    requires PlainIds(input.spans) && PlainIds(output.spans)
    ensures ErrorKeys(mx, input.spans) <= ErrorKeys(mx, output.spans) <==>
            forall s :: s in input.spans && IsError(mx, s) ==>
              exists t :: t in output.spans && IsError(mx, t) && t.traceId == s.traceId && t.spanId == s.spanId
  {
    hide IsError;
    forall s, t | s in input.spans && t in output.spans
      ensures SpanKey(s) == SpanKey(t) <==> s.traceId == t.traceId && s.spanId == t.spanId
    {
      SpanKeyIdentifies(s, t);
    }
    hide SpanKey;
    var before, after := ErrorKeys(mx, input.spans), ErrorKeys(mx, output.spans);
    if before <= after {
      forall s | s in input.spans && IsError(mx, s)
        ensures exists t :: t in output.spans && IsError(mx, t) && t.traceId == s.traceId && t.spanId == s.spanId
      {
        assert SpanKey(s) in before;
        var t :| t in output.spans && IsError(mx, t) && SpanKey(t) == SpanKey(s);
      }
    }
  }

  /** A pass that rests on evidence: on certain output about applicable input, or on observed spans alone. */
  predicate Grounded(mx: Matcher, j: Judgement, input: Snapshot, output: Snapshot, o: Options)
  {
    j.status == Pass &&
    ((Certain(o, j.signal) && (o.requireApplicableInput ==> !Inapplicable(mx, j.signal, j.check, input))) ||
     (j.check == PreserveErrorTraces && ErrorsCaptured(mx, input, output)))
  }

  /** No reason is the empty text. */
  ghost predicate Spoken(o: Options)
  {
    (forall r :: r in o.unreliableOutput ==> r != "") &&
    forall s, r :: s in o.unreliableSignals && r in o.unreliableSignals[s] ==> r != ""
  }

  lemma JoinedIsSpoken(reasons: seq<string>)
    requires reasons != [] && forall r :: r in reasons ==> r != ""
    ensures JoinReasons(reasons) != ""
  {
    assert reasons[0] in reasons;
  }

  lemma ReasonWhenUncertain(mx: Matcher, signal: Subject, check: Check, input: Snapshot, o: Options)
    requires Spoken(o)
    ensures Reason(mx, signal, check, input, o) == "" <==>
            Certain(o, signal) && (o.requireApplicableInput ==> !Inapplicable(mx, signal, check, input))
  {
    hide JoinReasons, Inapplicable;
    if signal in o.unreliableSignals && o.unreliableSignals[signal] != [] {
      JoinedIsSpoken(o.unreliableSignals[signal]);
    } else if o.unreliableOutput != [] {
      JoinedIsSpoken(o.unreliableOutput);
    }
  }

  lemma Decided(mx: Matcher, p: Policy, input: Snapshot, output: Snapshot, j: Judgement)
    requires j in Judgements(mx, p, input, output)
    ensures j.status == Pass || j.status == Fail
    ensures j.check == PreserveErrorTraces ==> j == PreserveJudgement(mx, input, output)
  {
    hide Judgements, LogJudgements, TraceJudgements, MetricJudgements, RequiredJudgements, MaxSeriesJudgements,
      LogsForbidden, SpansForbidden,
      MetricsForbidden, PreservesErrors, ErrorKeys;
    Evidence.Members(mx, p, input, output, j);
    if p.logs.Some? && j in LogJudgements(mx, p.logs.value, output) {
      LogMembers(mx, p.logs.value, output, j);
      RequiredDecided(Logs, p.logs.value.requiredResourceAttributes, LogResources(output.logs), j);
    } else if p.traces.Some? && j in TraceJudgements(mx, p.traces.value, input, output) {
      TraceMembers(mx, p.traces.value, input, output, j);
      RequiredDecided(Traces, p.traces.value.requiredResourceAttributes, SpanResources(output.spans), j);
    } else {
      MetricMembers(mx, p.metrics.value, output, j);
      RequiredDecided(Metrics, p.metrics.value.requiredResourceAttributes, MetricResources(output.metrics), j);
      if p.metrics.value.maxSeriesPerMetric > 0 {
        SeriesDecided(output.metrics, p.metrics.value.maxSeriesPerMetric, j);
      }
    }
  }

  lemma RequiredDecided(signal: Subject, required: seq<string>, records: seq<Attributes>, j: Judgement)
    ensures j in RequiredJudgements(signal, required, records) ==>
              (j.status == Pass || j.status == Fail) && j.check == RequiredResourceAttributes
  {
    hide RequiredFails;
  }

  lemma SeriesDecided(ms: seq<Metric>, limit: nat, j: Judgement)
    ensures j in MaxSeriesJudgements(ms, limit) ==>
              (j.status == Pass || j.status == Fail) && j.check == MaxSeriesPerMetric
  {
    hide SeriesNamed, PointCount, Names;
    var names := SortedSet(Names(ms));
    ViolationMembers(ms, limit, names, j);
  }

  /** Weighing keeps a pass exactly when the pass is grounded. */
  lemma PassIsGrounded(mx: Matcher, p: Policy, input: Snapshot, output: Snapshot, o: Options, j: Judgement)
    requires j in Judgements(mx, p, input, output) && Spoken(o)
    ensures Weigh(mx, j, input, o).status == Pass <==> Grounded(mx, j, input, output, o)
    ensures Weigh(mx, j, input, o).status != Error && Weigh(mx, j, input, o).status != Warn
  {
    hide Judgements, Reason, ErrorKeys, Spoken, Certain, Inapplicable;
    Decided(mx, p, input, output, j);
    ReasonWhenUncertain(mx, j.signal, j.check, input, o);
  }

  lemma StatusMembers(mx: Matcher, p: Policy, outcome: Outcome, runner: RunnerName, s: Status)
    requires outcome.Ran?
    ensures s in Checks(mx, p, outcome, runner) <==>
            (s == Warn && outcome.warnings != []) ||
            exists j ::
              j in Judgements(mx, p, outcome.input, outcome.output) &&
              Weigh(mx, j, outcome.input, OptionsOf(outcome, runner)).status == s
  {
    hide Judgements, Weigh;
    var js := Judgements(mx, p, outcome.input, outcome.output);
    var o := OptionsOf(outcome, runner);
    var all := Evaluation(mx, p, outcome.input, outcome.output, |outcome.warnings|, o);
    var checks := Checks(mx, p, outcome, runner);
    assert |all| == |js| + |outcome.warnings| && checks == Statuses(all);
    forall i | 0 <= i < |js| ensures checks[i] == Weigh(mx, js[i], outcome.input, o).status {
    }
    forall i | |js| <= i < |all| ensures checks[i] == Warn {
    }
    if j :| j in js && Weigh(mx, j, outcome.input, o).status == s {
      var i :| 0 <= i < |js| && js[i] == j;
      assert checks[i] == s;
    }
    if s == Warn && outcome.warnings != [] {
      assert checks[|js|] == s;
    }
    if s in checks {
      var i :| 0 <= i < |checks| && checks[i] == s;
      assert i < |js| ==> js[i] in js;
    }
  }

  /** A run of the code exits 0 exactly when every check of the policy passes on evidence (and no warning is held
      against it); 3 exactly when the run failed. */
  lemma ExitZeroIff(mx: Matcher, p: Policy, outcome: Outcome, runner: RunnerName, failOnWarn: bool, r: Report)
    requires Reports(r, Checks(mx, p, outcome, runner), runner) && (outcome.Ran? ==> Spoken(OptionsOf(outcome, runner)))
    ensures ExitCode(r, failOnWarn) == 3 <==> outcome.RunFailed?
    ensures ExitCode(r, failOnWarn) == 0 <==>
            outcome.Ran? && (failOnWarn ==> outcome.warnings == []) &&
            forall j :: j in Judgements(mx, p, outcome.input, outcome.output) ==>
              Grounded(mx, j, outcome.input, outcome.output, OptionsOf(outcome, runner))
  {
    hide Judgements, Grounded, Weigh, Spoken, Reports, ExitCode;
    ExitCodeMeaning(r, Checks(mx, p, outcome, runner), runner, failOnWarn);
    if outcome.RunFailed? {
      assert Checks(mx, p, outcome, runner)[0] == Error;
    } else {
      hide Checks;
      RanExit(mx, p, outcome, runner, failOnWarn);
    }
  }

  lemma RanExit(mx: Matcher, p: Policy, outcome: Outcome, runner: RunnerName, failOnWarn: bool)
    requires outcome.Ran? && Spoken(OptionsOf(outcome, runner))
    ensures Error !in Checks(mx, p, outcome, runner)
    ensures (forall s :: s in Checks(mx, p, outcome, runner) ==> s == Pass || (s == Warn && !failOnWarn)) <==>
            (failOnWarn ==> outcome.warnings == []) &&
            forall j :: j in Judgements(mx, p, outcome.input, outcome.output) ==>
              Grounded(mx, j, outcome.input, outcome.output, OptionsOf(outcome, runner))
  {
    hide Judgements, Grounded, Weigh, Spoken, Checks, OptionsOf;
    var o := OptionsOf(outcome, runner);
    var js, checks := Judgements(mx, p, outcome.input, outcome.output), Checks(mx, p, outcome, runner);
    forall j | j in js
      ensures Weigh(mx, j, outcome.input, o).status in checks
      ensures Weigh(mx, j, outcome.input, o).status == Pass <==> Grounded(mx, j, outcome.input, outcome.output, o)
      ensures Weigh(mx, j, outcome.input, o).status != Error && Weigh(mx, j, outcome.input, o).status != Warn
    {
      PassIsGrounded(mx, p, outcome.input, outcome.output, o, j);
      StatusMembers(mx, p, outcome, runner, Weigh(mx, j, outcome.input, o).status);
    }
    StatusMembers(mx, p, outcome, runner, Warn);
    StatusMembers(mx, p, outcome, runner, Error);
    forall s | s in checks && s != Pass && s != Warn
      ensures exists j :: j in js && !Grounded(mx, j, outcome.input, outcome.output, o)
    {
      StatusMembers(mx, p, outcome, runner, s);
    }
  }

  /** A violation that stands: on certain output about applicable input, or whatever else may still arrive. */
  ghost predicate Stands(mx: Matcher, p: Policy, j: Judgement, input: Snapshot, output: Snapshot, o: Options)
  {
    j.status == Fail &&
    ((Certain(o, j.signal) && (o.requireApplicableInput ==> !Inapplicable(mx, j.signal, j.check, input))) ||
     FailsForGood(mx, p, input, j, output))
  }

  lemma FailureStandsIff(mx: Matcher, p: Policy, input: Snapshot, output: Snapshot, o: Options, j: Judgement)
    requires j in Judgements(mx, p, input, output) && Spoken(o)
    ensures Weigh(mx, j, input, o).status == Fail <==> Stands(mx, p, j, input, output, o)
  {
    hide Judgements, Reason, FailsForGood, Spoken, Certain, Inapplicable, Conclusive;
    Decided(mx, p, input, output, j);
    ReasonWhenUncertain(mx, j.signal, j.check, input, o);
    if j.status == Fail && Reason(mx, j.signal, j.check, input, o) != "" {
      FailureKeptIff(mx, p, input, output, o, j);
    }
  }

  /** Exit 1: some violation stands whatever the reasons for doubt, or every check passes on evidence and warnings are
      held against it. Exit 4: no violation stands and some pass is not grounded. */
  lemma ExitOneIff(mx: Matcher, p: Policy, outcome: Outcome, runner: RunnerName, failOnWarn: bool, r: Report)
    requires Reports(r, Checks(mx, p, outcome, runner), runner) && (outcome.Ran? ==> Spoken(OptionsOf(outcome, runner)))
    ensures ExitCode(r, failOnWarn) == 1 <==>
            outcome.Ran? &&
            ((exists j :: j in Judgements(mx, p, outcome.input, outcome.output) &&
                          Stands(mx, p, j, outcome.input, outcome.output, OptionsOf(outcome, runner))) ||
             (failOnWarn && outcome.warnings != [] &&
              forall j :: j in Judgements(mx, p, outcome.input, outcome.output) ==>
                Grounded(mx, j, outcome.input, outcome.output, OptionsOf(outcome, runner))))
    ensures ExitCode(r, failOnWarn) == 4 <==>
            outcome.Ran? &&
            (forall j :: j in Judgements(mx, p, outcome.input, outcome.output) ==>
               !Stands(mx, p, j, outcome.input, outcome.output, OptionsOf(outcome, runner))) &&
            exists j :: j in Judgements(mx, p, outcome.input, outcome.output) &&
              !Grounded(mx, j, outcome.input, outcome.output, OptionsOf(outcome, runner))
  {
    hide Judgements, Grounded, Stands, Spoken, Reports, ExitCode;
    ExitCodeMeaning(r, Checks(mx, p, outcome, runner), runner, failOnWarn);
    if outcome.RunFailed? {
      assert Checks(mx, p, outcome, runner)[0] == Error;
    } else {
      hide Checks;
      WeighedStatuses(mx, p, outcome, runner);
    }
  }

  lemma WeighedStatuses(mx: Matcher, p: Policy, outcome: Outcome, runner: RunnerName)
    requires outcome.Ran? && Spoken(OptionsOf(outcome, runner))
    ensures var checks := Checks(mx, p, outcome, runner);
            Error !in checks && (Warn in checks <==> outcome.warnings != []) &&
            (Fail in checks <==>
             exists j :: j in Judgements(mx, p, outcome.input, outcome.output) &&
               Stands(mx, p, j, outcome.input, outcome.output, OptionsOf(outcome, runner))) &&
            (Fail in checks || Inconclusive in checks <==>
             exists j :: j in Judgements(mx, p, outcome.input, outcome.output) &&
               !Grounded(mx, j, outcome.input, outcome.output, OptionsOf(outcome, runner)))
  {
    hide Judgements, Grounded, Stands, Weigh, Spoken, Checks, OptionsOf;
    var o := OptionsOf(outcome, runner);
    var js := Judgements(mx, p, outcome.input, outcome.output);
    forall j | j in js
      ensures Weigh(mx, j, outcome.input, o).status == Pass <==> Grounded(mx, j, outcome.input, outcome.output, o)
      ensures Weigh(mx, j, outcome.input, o).status == Fail <==> Stands(mx, p, j, outcome.input, outcome.output, o)
      ensures Weigh(mx, j, outcome.input, o).status in {Pass, Fail, Inconclusive}
    {
      PassIsGrounded(mx, p, outcome.input, outcome.output, o, j);
      FailureStandsIff(mx, p, outcome.input, outcome.output, o, j);
    }
    StatusMembers(mx, p, outcome, runner, Warn);
    StatusMembers(mx, p, outcome, runner, Error);
    StatusMembers(mx, p, outcome, runner, Fail);
    StatusMembers(mx, p, outcome, runner, Inconclusive);
  }

  // ----- a validated policy asks something -----

  lemma ValidatedPolicyAsks(mx: Matcher, p: Policy, input: Snapshot, output: Snapshot)
    requires Validate(p).None?
    ensures Judgements(mx, p, input, output) != []
  {
    hide LogJudgements, TraceJudgements, MetricJudgements, Validate, PreservesErrors;
    if p.logs.Some? && LogsHasChecks(p.logs.value) {
      LogsAsk(mx, p.logs.value, output);
    } else if p.traces.Some? && TracesHasChecks(p.traces.value) {
      TracesAsk(mx, p.traces.value, input, output);
    } else {
      MetricsAsk(mx, p.metrics.value, output);
    }
  }

  /** For supported preserve expressions the policy asks something exactly when one of its lists is not empty or a
      series limit is set. */
  lemma AsksIff(mx: Matcher, p: Policy, input: Snapshot, output: Snapshot)
    requires forall e :: e in PreserveExprs(p.traces) ==> PreservesErrors(e)
    ensures Judgements(mx, p, input, output) != [] <==> HasAssertions(p)
  {
    hide LogJudgements, TraceJudgements, MetricJudgements, PreservesErrors;
    if p.logs.Some? {
      LogsAsk(mx, p.logs.value, output);
    }
    if p.traces.Some? {
      TracesAsk(mx, p.traces.value, input, output);
    }
    if p.metrics.Some? {
      MetricsAsk(mx, p.metrics.value, output);
    }
  }

  lemma LogsAsk(mx: Matcher, a: LogsAssertions, output: Snapshot)
    ensures LogJudgements(mx, a, output) != [] <==> LogsHasChecks(a)
  {
    hide LogsForbidden, RequiredFails;
  }

  lemma TracesAsk(mx: Matcher, a: TracesAssertions, input: Snapshot, output: Snapshot)
    requires forall e :: e in a.preserve ==> PreservesErrors(e)
    ensures TraceJudgements(mx, a, input, output) != [] <==> TracesHasChecks(a)
  {
    hide SpansForbidden, RequiredFails, PreserveJudgement, PreservesErrors;
  }

  lemma MetricsAsk(mx: Matcher, a: MetricsAssertions, output: Snapshot)
    ensures MetricJudgements(mx, a, output) != [] <==> MetricsHasChecks(a)
  {
    hide MetricsForbidden, RequiredFails, Violations;
  }

  /** Exit 0 of a real run is evidence: the policy asked at least one question, and every answer is a pass about
      applicable input, from output nothing makes unreliable, or else every error span was observed. */
  lemma ExitZeroMeansEvidence(mx: Matcher, p: Policy, outcome: Outcome, failOnWarn: bool, r: Report)
    requires Validate(p).None? && outcome.Ran? && Spoken(OptionsOf(outcome, Otelcol))
    requires Reports(r, Checks(mx, p, outcome, Otelcol), Otelcol) && ExitCode(r, failOnWarn) == 0
    ensures Judgements(mx, p, outcome.input, outcome.output) != []
    ensures forall j :: j in Judgements(mx, p, outcome.input, outcome.output) ==>
              j.status == Pass && !Inapplicable(mx, j.signal, j.check, outcome.input) &&
              (Certain(OptionsOf(outcome, Otelcol), j.signal) ||
               (j.check == PreserveErrorTraces && ErrorsCaptured(mx, outcome.input, outcome.output)))
  {
    hide Judgements, Validate, Spoken, Reports, Checks, ExitCode, Certain, ErrorKeys, Inapplicable;
    ExitZeroIff(mx, p, outcome, Otelcol, failOnWarn, r);
    ValidatedPolicyAsks(mx, p, outcome.input, outcome.output);
    forall j | j in Judgements(mx, p, outcome.input, outcome.output) && j.check == PreserveErrorTraces
      ensures ErrorKeys(mx, outcome.input.spans) != {} ==> !Inapplicable(mx, j.signal, j.check, outcome.input)
    {
      Decided(mx, p, outcome.input, outcome.output, j);
      ErrorsAreSpans(mx, outcome.input, j.check);
    }
  }

  lemma ErrorsAreSpans(mx: Matcher, input: Snapshot, check: Check)
    ensures ErrorKeys(mx, input.spans) != {} ==> !Inapplicable(mx, Traces, check, input)
  {
  }

  // ----- uncertain processors -----

  function Of(s: Signals.Signal): Subject
  {
    match s case Logs => Logs case Traces => Traces case Metrics => Metrics
  }

  lemma SubjectsOfSignals()
    ensures Of(Signals.Logs) == Logs && Of(Signals.Traces) == Traces && Of(Signals.Metrics) == Metrics
  {
  }

  /** The topology's reasons as the evaluator receives them. */
  function Scoped(t: T.Topology): map<Subject, seq<string>>
  {
    var m := Uncertainty.ScopedReasons(t.pipelines);
    map s | s in m :: Of(s) := m[s]
  }

  /** When a pipeline contains a processor whose completion cannot be established, exit 0 rests on no verdict about
      that pipeline's signal other than error spans that were all observed. */
  lemma WaitingProcessorsNeedObservation(mx: Matcher, p: Policy, t: T.Topology, outcome: Outcome, failOnWarn: bool,
                                         r: Report,
                                         pipeline: T.Pipeline, id: string, j: Judgement)
    requires Validate(p).None? && outcome.Ran? && Selection.OnePerSignal(t.pipelines) &&
             outcome.signalReasons == Scoped(t)
    requires Reports(r, Checks(mx, p, outcome, Otelcol), Otelcol) && ExitCode(r, failOnWarn) == 0
    requires pipeline in t.pipelines && id in pipeline.processors && Uncertainty.Waits(id)
    requires j in Judgements(mx, p, outcome.input, outcome.output) && j.signal == Of(pipeline.signal)
    ensures j.check == PreserveErrorTraces && ErrorsCaptured(mx, outcome.input, outcome.output)
  {
    hide Judgements, Validate, Spoken, Reports, Checks, ExitCode, ErrorsCaptured, Uncertainty.Reasons,
      Uncertainty.Waits,
      Uncertainty.ReasonFor, Uncertainty.ScopedReasons, Selection.OnePerSignal, Scoped;
    WaitingIsScoped(t, pipeline, id);
    ScopedIsSpoken(t, OptionsOf(outcome, Otelcol));
    ExitZeroMeansEvidence(mx, p, outcome, failOnWarn, r);
  }

  lemma WaitingIsScoped(t: T.Topology, pipeline: T.Pipeline, id: string)
    requires Selection.OnePerSignal(t.pipelines) && pipeline in t.pipelines && id in pipeline.processors &&
             Uncertainty.Waits(id)
    ensures Of(pipeline.signal) in Scoped(t) && Scoped(t)[Of(pipeline.signal)] != []
  {
    hide Uncertainty.Reasons, Uncertainty.Waits, Uncertainty.ReasonFor, Uncertainty.ScopedReasons,
      Selection.OnePerSignal;
    Uncertainty.ReasonMembers(pipeline.processors);
    assert Uncertainty.ReasonFor(id) in Uncertainty.Reasons(pipeline.processors);
    Uncertainty.ScopedMembers(t.pipelines);
    assert pipeline.signal in Uncertainty.ScopedReasons(t.pipelines);
  }

  /** The topology never gives an empty reason. */
  lemma ScopedIsSpoken(t: T.Topology, o: Options)
    requires Selection.OnePerSignal(t.pipelines) && o.unreliableSignals == Scoped(t) && o.unreliableOutput == []
    ensures Spoken(o)
  {
    hide Uncertainty.Reasons, Uncertainty.Waits, Uncertainty.ReasonFor, Uncertainty.ScopedReasons,
      Selection.OnePerSignal;
    Uncertainty.ScopedMembers(t.pipelines);
    forall s, r | s in o.unreliableSignals && r in o.unreliableSignals[s] ensures r != "" {
      var s' :| s' in Uncertainty.ScopedReasons(t.pipelines) && Of(s') == s;
      var q :| q in t.pipelines && q.signal == s' && Uncertainty.Reasons(q.processors) != [];
      Uncertainty.ReasonMembers(q.processors);
    }
  }

  /** The exit code is the same for a capture and its canonical form, whatever the order and size of its requests. */
  lemma ExitIgnoresBatching(mx: Matcher, p: Policy, a: Outcome, b: Outcome, runner: RunnerName)
    requires a.Ran? && b.Ran? && Canonicalizes(a.input, b.input) && Canonicalizes(a.output, b.output)
    requires b == a.(input := b.input, output := b.output)
    ensures Checks(mx, p, a, runner) == Checks(mx, p, b, runner)
  {
    hide IsCanonical, ViewOf, Evaluation;
    EvaluationIgnoresBatching(mx, p, a.input, b.input, a.output, b.output, |a.warnings|, OptionsOf(a, runner));
  }
}
