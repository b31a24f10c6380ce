/** Policy evaluation with explicit evidence requirements (internal/evaluator/evaluator.go). */
module Evaluator {
  import opened Strings
  import opened Json
  import opened Telemetry
  import opened Policy
  import opened Matches
  import opened Report

  /** What a check is about: one signal, or the pipeline as a whole. */
  datatype Subject = Logs | Traces | Metrics | Pipeline
  datatype Check = ForbiddenData | ForbiddenLabels | RequiredResourceAttributes | MaxSeriesPerMetric
                 | PreserveErrorTraces | RunnerWarning | RunnerExecution

  datatype Details =
    | NoDetails
    | Matched(matches: seq<ForbiddenMatch>)
    | SeriesCount(metric: string, unique: nat, points: nat, limit: nat)
    | Missing(total: nat, counts: map<string, nat>, examples: seq<(nat, seq<string>)>)
    | Preserved(preserved: nat, total: nat)

  datatype CheckResult = CheckResult(status: Status, signal: Subject, check: Check, details: Details)

  /** What later decisions and the reader of a verdict depend on: the status, which check it is, the series
      figures of a limit violation, and whether a required-attribute failure saw any record. */
  datatype Basis = NoEvidence | Series(metric: string, unique: nat, points: nat, limit: nat) | Records(some: bool)
  datatype Judgement = Judgement(status: Status, signal: Subject, check: Check, evidence: Basis)

  function JudgementOf(r: CheckResult): Judgement
  {
    Judgement(r.status, r.signal, r.check,
      match r.details
      case SeriesCount(m, u, p, l) => Series(m, u, p, l)
      case Missing(total, _, _) => Records(total > 0)
      case _ => NoEvidence)
  }

  function Judged(rs: seq<CheckResult>): (js: seq<Judgement>)
    ensures |js| == |rs|
  {
    seq(|rs|, i requires 0 <= i < |rs| => JudgementOf(rs[i]))
  }

  lemma JudgedConcat(a: seq<CheckResult>, b: seq<CheckResult>)
    ensures Judged(a + b) == Judged(a) + Judged(b)
  {
    hide JudgementOf;
  }

  lemma JudgedAppend(a: seq<CheckResult>, r: CheckResult)
    ensures Judged(a + [r]) == Judged(a) + [JudgementOf(r)]
  {
    hide JudgementOf;
  }

  function PassResult(signal: Subject, check: Check): CheckResult
  {
    CheckResult(Pass, signal, check, NoDetails)
  }

  function FailResult(signal: Subject, check: Check, details: Details): CheckResult
  {
    CheckResult(Fail, signal, check, details)
  }

  function Verdict(failed: bool, signal: Subject, check: Check, evidence: Basis): Judgement
  {
    Judgement(if failed then Fail else Pass, signal, check, if failed then evidence else NoEvidence)
  }

  // ----- when each check fails -----

  predicate LogsForbidden(mx: Matcher, a: LogsAssertions, logs: seq<LogRecord>)
  {
    !AllCompile(mx, a.forbiddenValuePatterns, a.caseInsensitive) ||
    !AllCompile(mx, a.forbiddenBodyPatterns, a.caseInsensitive) ||
    exists l :: l in logs && LogOffends(mx, a, l)
  }

  predicate SpansForbidden(mx: Matcher, a: TracesAssertions, spans: seq<Span>)
  {
    !AllCompile(mx, a.forbiddenValuePatterns, a.caseInsensitive) || exists s :: s in spans && SpanOffends(mx, a, s)
  }

  predicate MetricsForbidden(mx: Matcher, a: MetricsAssertions, metrics: seq<Metric>)
  {
    !AllCompile(mx, a.forbiddenLabelValuePatterns, a.caseInsensitive) ||
    exists m :: m in metrics && MetricOffends(mx, a, m)
  }

  predicate Lacks(attrs: Attributes, required: seq<string>)
  {
    exists q :: q in required && q !in attrs
  }

  /** Every record must carry every required attribute, and there must be a record. */
  predicate RequiredFails(required: seq<string>, records: seq<Attributes>)
  {
    records == [] || exists r :: r in records && Lacks(r, required)
  }

  function LogResources(logs: seq<LogRecord>): seq<Attributes>
  {
    seq(|logs|, i requires 0 <= i < |logs| => logs[i].resource)
  }

  function SpanResources(spans: seq<Span>): seq<Attributes>
  {
    seq(|spans|, i requires 0 <= i < |spans| => spans[i].resource)
  }

  function MetricResources(metrics: seq<Metric>): seq<Attributes>
  {
    seq(|metrics|, i requires 0 <= i < |metrics| => metrics[i].resource)
  }

  function SpanKey(s: Span): string
  {
    s.traceId + ":" + s.spanId
  }

  predicate IsError(mx: Matcher, s: Span)
  {
    mx.upper(s.statusCode) == "ERROR"
  }

  function ErrorKeys(mx: Matcher, spans: seq<Span>): set<string>
  {
    set s | s in spans && IsError(mx, s) :: SpanKey(s)
  }

  // ----- the judgements -----

  function PreserveJudgement(mx: Matcher, input: Snapshot, output: Snapshot): Judgement
  {
    Verdict(!(ErrorKeys(mx, input.spans) <= ErrorKeys(mx, output.spans)), Traces, PreserveErrorTraces, NoEvidence)
  }

  function PreserveJudgements(mx: Matcher, exprs: seq<string>, input: Snapshot, output: Snapshot): seq<Judgement>
  {
    if exprs == [] then [] else
    PreserveJudgements(mx, exprs[..|exprs| - 1], input, output) +
    if PreservesErrors(exprs[|exprs| - 1]) then [PreserveJudgement(mx, input, output)] else []
  }

  function RequiredJudgements(signal: Subject, required: seq<string>, records: seq<Attributes>): seq<Judgement>
  {
    if required == [] then []
    else [Verdict(RequiredFails(required, records), signal, RequiredResourceAttributes, Records(records != []))]
  }

  function PointCount(ms: seq<Metric>, name: string): nat
  {
    if ms == [] then 0 else
    PointCount(ms[..|ms| - 1], name) + if ms[|ms| - 1].name == name then |ms[|ms| - 1].points| else 0
  }

  /** One failure per metric name over the limit, in the order of names. */
  function Violations(ms: seq<Metric>, limit: nat, names: seq<string>): seq<Judgement>
  {
    if names == [] then [] else
    var name := names[|names| - 1];
    Violations(ms, limit, names[..|names| - 1]) +
    if |SeriesNamed(ms, name)| > limit
    then [Judgement(Fail, Metrics, MaxSeriesPerMetric,
                    Series(name, |SeriesNamed(ms, name)|, PointCount(ms, name), limit))]
    else []
  }

  function MaxSeriesJudgements(ms: seq<Metric>, limit: nat): seq<Judgement>
  {
    var vs := Violations(ms, limit, SortedSet(Names(ms)));
    if vs == [] then [Judgement(Pass, Metrics, MaxSeriesPerMetric, NoEvidence)] else vs
  }

  function LogJudgements(mx: Matcher, a: LogsAssertions, output: Snapshot): seq<Judgement>
  {
    (if a.forbiddenAttributes != [] || a.forbiddenValuePatterns != [] || a.forbiddenBodyPatterns != []
     then [Verdict(LogsForbidden(mx, a, output.logs), Logs, ForbiddenData, NoEvidence)] else []) +
    RequiredJudgements(Logs, a.requiredResourceAttributes, LogResources(output.logs))
  }

  function TraceJudgements(mx: Matcher, a: TracesAssertions, input: Snapshot, output: Snapshot): seq<Judgement>
  {
    PreserveJudgements(mx, a.preserve, input, output) +
    (if a.forbiddenAttributes != [] || a.forbiddenValuePatterns != []
     then [Verdict(SpansForbidden(mx, a, output.spans), Traces, ForbiddenData, NoEvidence)] else []) +
    RequiredJudgements(Traces, a.requiredResourceAttributes, SpanResources(output.spans))
  }

  function MetricJudgements(mx: Matcher, a: MetricsAssertions, output: Snapshot): seq<Judgement>
  {
    (if a.forbiddenLabels != [] || a.forbiddenLabelValuePatterns != []
     then [Verdict(MetricsForbidden(mx, a, output.metrics), Metrics, ForbiddenLabels, NoEvidence)] else []) +
    (if a.maxSeriesPerMetric > 0 then MaxSeriesJudgements(output.metrics, a.maxSeriesPerMetric) else []) +
    RequiredJudgements(Metrics, a.requiredResourceAttributes, MetricResources(output.metrics))
  }

  /** The verdicts before evidence is weighed. */
  function Judgements(mx: Matcher, p: Policy, input: Snapshot, output: Snapshot): seq<Judgement>
  {
    (if p.logs.Some? then LogJudgements(mx, p.logs.value, output) else []) +
    (if p.traces.Some? then TraceJudgements(mx, p.traces.value, input, output) else []) +
    (if p.metrics.Some? then MetricJudgements(mx, p.metrics.value, output) else [])
  }

  // ----- evidence -----

  datatype Options = Options(requireApplicableInput: bool, unreliableOutput: seq<string>,
                             unreliableSignals: map<Subject, seq<string>>)

  /** The verdicts that hold whatever else may still arrive. */
  predicate Conclusive(mx: Matcher, j: Judgement, input: Snapshot)
  {
    (j.check == PreserveErrorTraces && j.status == Pass && ErrorKeys(mx, input.spans) != {}) ||
    (j.status == Fail &&
      match j.check
      case ForbiddenData => true
      case ForbiddenLabels => true
      case MaxSeriesPerMetric => true
      case RequiredResourceAttributes => j.evidence == Records(true)
      case _ => false)
  }

  function TotalPoints(ms: seq<Metric>): nat
  {
    if ms == [] then 0 else TotalPoints(ms[..|ms| - 1]) + |ms[|ms| - 1].points|
  }

  /** The fixture holds nothing the check could be about. */
  predicate Inapplicable(mx: Matcher, signal: Subject, check: Check, input: Snapshot)
  {
    match signal
    case Logs => input.logs == []
    case Traces => input.spans == [] || (check == PreserveErrorTraces && ErrorKeys(mx, input.spans) == {})
    case Metrics => TotalPoints(input.metrics) == 0
    case Pipeline => false
  }

  /** strings.Join(reasons, "; ") */
  function JoinReasons(reasons: seq<string>): string
  {
    if reasons == [] then "" else if |reasons| == 1 then reasons[0] else reasons[0] + "; " + JoinReasons(reasons[1..])
  }

  function Reason(mx: Matcher, signal: Subject, check: Check, input: Snapshot, o: Options): string
  {
    if signal in o.unreliableSignals && o.unreliableSignals[signal] != [] then JoinReasons(o.unreliableSignals[signal])
    else if o.unreliableOutput != [] then JoinReasons(o.unreliableOutput)
    else if o.requireApplicableInput && Inapplicable(mx, signal, check, input) then "no applicable input in fixture"
    else ""
  }

  function Weigh(mx: Matcher, j: Judgement, input: Snapshot, o: Options): Judgement
  {
    if Reason(mx, j.signal, j.check, input, o) != "" && !Conclusive(mx, j, input)
    then j.(status := Inconclusive, evidence := NoEvidence) else j
  }

  function Weighed(mx: Matcher, js: seq<Judgement>, input: Snapshot, o: Options): (r: seq<Judgement>)
    ensures |r| == |js| && forall i :: 0 <= i < |js| ==> r[i] == Weigh(mx, js[i], input, o)
  {
    seq(|js|, i requires 0 <= i < |js| => Weigh(mx, js[i], input, o))
  }

  function Warnings(n: nat): seq<Judgement>
  {
    seq(n, i => Judgement(Warn, Pipeline, RunnerWarning, NoEvidence))
  }

  /** The whole evaluation. */
  function Evaluation(mx: Matcher, p: Policy, input: Snapshot, output: Snapshot, warnings: nat,
                      o: Options): seq<Judgement>
  {
    Weighed(mx, Judgements(mx, p, input, output), input, o) + Warnings(warnings)
  }

  // ----- the code -----

  /** An example names a failing record and exactly what it lacks. */
  ghost predicate IsExample(e: (nat, seq<string>), required: seq<string>, records: seq<Attributes>)
  {
    e.0 < |records| && Lacks(records[e.0], required) && forall q :: q in e.1 <==> q in required && q !in records[e.0]
  }

  /** How often a required attribute was found missing: once for each record without it and each time it is listed. */
  function Missed(required: seq<string>, records: seq<Attributes>, q: string): nat
  {
    if records == [] then 0 else
    Missed(required, records[..|records| - 1], q) + if q in records[|records| - 1] then 0 else multiset(required)[q]
  }

  function CountOf(counts: map<string, nat>, q: string): nat
  {
    if q in counts then counts[q] else 0
  }

  lemma MissedStep(required: seq<string>, records: seq<Attributes>, i: nat, q: string)
    requires i < |records|
    ensures Missed(required, records[..i + 1], q) ==
            Missed(required, records[..i], q) + if q in records[i] then 0 else multiset(required)[q]
  {
    assert records[..i + 1][..i] == records[..i];
  }

  /** Counts the attributes of the list that one record lacks. */
  method CountMissing(required: seq<string>, attrs: Attributes, counts: map<string, nat>)
    returns (counts': map<string, nat>, missingHere: seq<string>)
    requires forall q :: q in counts ==> counts[q] > 0
    ensures forall q :: q in missingHere <==> q in required && q !in attrs
    ensures forall q :: q in counts' ==> counts'[q] > 0
    ensures forall q :: CountOf(counts', q) == CountOf(counts, q) + if q in attrs then 0 else multiset(required)[q]
    ensures missingHere != [] <==> Lacks(attrs, required)
  {
    counts', missingHere := counts, [];
    for j := 0 to |required|
      invariant forall q :: q in missingHere <==> q in required[..j] && q !in attrs
      invariant forall q :: q in counts' ==> counts'[q] > 0
      invariant forall q ::
        CountOf(counts', q) == CountOf(counts, q) + if q in attrs then 0 else multiset(required[..j])[q]
    {
      assert required[..j + 1] == required[..j] + [required[j]];
      if required[j] !in attrs {
        counts' := counts'[required[j] := CountOf(counts', required[j]) + 1];
        missingHere := missingHere + [required[j]];
      }
    }
    assert required[..|required|] == required;
    assert missingHere != [] ==> missingHere[0] in missingHere;
  }

  /** Record k is among the examples, or comes after three of them. */
  ghost predicate Shown(k: nat, examples: seq<(nat, seq<string>)>)
  {
    (exists e :: e in examples && e.0 == k) || (|examples| == 3 && forall e :: e in examples ==> e.0 < k)
  }

  /** The counts after the first i records. */
  ghost predicate Counted(counts: map<string, nat>, required: seq<string>, records: seq<Attributes>, i: nat)
    requires i <= |records|
  {
    (forall q :: q in counts ==> counts[q] > 0) && forall q :: CountOf(counts, q) == Missed(required, records[..i], q)
  }

  /** The examples after the first i records: the first three failing ones, each with exactly what it lacks. */
  ghost predicate Exemplified(examples: seq<(nat, seq<string>)>, required: seq<string>, records: seq<Attributes>,
                              i: nat)
    requires i <= |records|
  {
    |examples| <= 3 && (forall e :: e in examples ==> IsExample(e, required, records) && e.0 < i) &&
    forall k :: 0 <= k < i && Lacks(records[k], required) ==> Shown(k, examples)
  }

  method CheckRequired(required: seq<string>, records: seq<Attributes>) returns (failed: bool, details: Details)
    ensures failed <==> RequiredFails(required, records)
    ensures details.Missing? && details.total == |records|
    ensures forall q :: CountOf(details.counts, q) == Missed(required, records, q)
    ensures forall q :: q in details.counts <==> q in required && (records == [] || Missed(required, records, q) > 0)
    ensures Exemplified(details.examples, required, records, |records|)
  {
    if records == [] {
      return true, Missing(0, map q | q in required :: 0, []);
    }
    hide Missed, Lacks, IsExample, CountOf, Counted, Exemplified, RequiredFails;
    failed := false;
    var counts: map<string, nat> := map[];
    var examples: seq<(nat, seq<string>)> := [];
    NothingMissed(required, records);
    for i := 0 to |records|
      invariant failed <==> SomeLacks(records, required, i)
      invariant Counted(counts, required, records, i) && Exemplified(examples, required, records, i)
    {
      var missingHere;
      counts, missingHere := CountRecord(required, records, i, counts);
      assert SomeLacks(records, required, i + 1) <==> SomeLacks(records, required, i) || Lacks(records[i], required);
      if missingHere != [] {
        failed := true;
      }
      ExamplesStep(examples, missingHere, required, records, i);
      if missingHere != [] && |examples| < 3 {
        examples := examples + [(i, missingHere)];
      }
    }
    FailsIffSomeLack(required, records);
    CountsAreMissed(counts, required, records);
    return failed, Missing(|records|, counts, examples);
  }

  ghost predicate SomeLacks(records: seq<Attributes>, required: seq<string>, i: nat)
    requires i <= |records|
  {
    exists k :: 0 <= k < i && Lacks(records[k], required)
  }

  lemma FailsIffSomeLack(required: seq<string>, records: seq<Attributes>)
    requires records != []
    ensures RequiredFails(required, records) <==> SomeLacks(records, required, |records|)
  {
    hide Lacks;
    forall r | r in records && Lacks(r, required) ensures SomeLacks(records, required, |records|) {
      var k :| 0 <= k < |records| && records[k] == r;
    }
  }

  method CountRecord(required: seq<string>, records: seq<Attributes>, i: nat, counts: map<string, nat>)
    returns (counts': map<string, nat>, missingHere: seq<string>)
    requires i < |records| && Counted(counts, required, records, i)
    ensures Counted(counts', required, records, i + 1)
    ensures forall q :: q in missingHere <==> q in required && q !in records[i]
    ensures missingHere != [] <==> Lacks(records[i], required)
  {
    hide Missed, CountOf, Lacks;
    counts', missingHere := CountMissing(required, records[i], counts);
    forall q ensures CountOf(counts', q) == Missed(required, records[..i + 1], q) {
      MissedStep(required, records, i, q);
    }
  }

  lemma ExamplesStep(examples: seq<(nat, seq<string>)>, missingHere: seq<string>, required: seq<string>,
                     records: seq<Attributes>, i: nat)
    requires i < |records| && Exemplified(examples, required, records, i)
    requires forall q :: q in missingHere <==> q in required && q !in records[i]
    requires missingHere != [] <==> Lacks(records[i], required)
    ensures var shown := if missingHere != [] && |examples| < 3 then examples + [(i, missingHere)] else examples;
            Exemplified(shown, required, records, i + 1)
  {
    hide Lacks, Shown, IsExample;
    if missingHere != [] && |examples| < 3 {
      ExampleHolds(i, missingHere, required, records);
      StillShown(examples, (i, missingHere));
    } else if missingHere != [] {
      EnoughShown(examples, i);
    }
  }

  lemma EnoughShown(examples: seq<(nat, seq<string>)>, i: nat)
    requires |examples| == 3 && forall e :: e in examples ==> e.0 < i
    ensures Shown(i, examples)
  {
  }

  lemma CountsAreMissed(counts: map<string, nat>, required: seq<string>, records: seq<Attributes>)
    requires Counted(counts, required, records, |records|)
    ensures forall q :: CountOf(counts, q) == Missed(required, records, q)
    ensures forall q :: q in counts <==> q in required && Missed(required, records, q) > 0
  {
    hide Missed;
    assert records[..|records|] == records;
    forall q ensures q in counts <==> q in required && Missed(required, records, q) > 0 {
      OnlyRequiredMissed(required, records, q);
      assert CountOf(counts, q) == Missed(required, records, q);
    }
  }

  lemma StillShown(examples: seq<(nat, seq<string>)>, e: (nat, seq<string>))
    requires |examples| < 3
    ensures forall k :: Shown(k, examples) ==> Shown(k, examples + [e])
    ensures Shown(e.0, examples + [e])
  {
    assert (examples + [e])[|examples|] == e;
    forall k | Shown(k, examples) ensures Shown(k, examples + [e]) {
      var x :| x in examples && x.0 == k;
      assert x in examples + [e];
    }
  }

  lemma NothingMissed(required: seq<string>, records: seq<Attributes>)
    ensures Counted(map[], required, records, 0) && Exemplified([], required, records, 0)
  {
  }

  lemma {:induction false} OnlyRequiredMissed(required: seq<string>, records: seq<Attributes>, q: string)
    ensures Missed(required, records, q) > 0 ==> q in required
  {
    if records != [] {
      OnlyRequiredMissed(required, records[..|records| - 1], q);
    }
  }

  lemma ExampleHolds(i: nat, missingHere: seq<string>, required: seq<string>, records: seq<Attributes>)
    requires i < |records| && Lacks(records[i], required)
    requires forall q :: q in missingHere <==> q in required && q !in records[i]
    ensures IsExample((i, missingHere), required, records)
  {
  }

  method EvalRequired(signal: Subject, required: seq<string>,
                      records: seq<Attributes>) returns (results: seq<CheckResult>)
    ensures Judged(results) == RequiredJudgements(signal, required, records)
  {
    results := [];
    if required != [] {
      var failed, details := CheckRequired(required, records);
      if failed {
        results := [FailResult(signal, RequiredResourceAttributes, details)];
      } else {
        results := [PassResult(signal, RequiredResourceAttributes)];
      }
    }
  }

  function ForbiddenResult(signal: Subject, check: Check, found: Option<seq<ForbiddenMatch>>): CheckResult
  {
    if found.None? then FailResult(signal, check, NoDetails)
    else if found.value == [] then PassResult(signal, check)
    else FailResult(signal, check, Matched(found.value))
  }

  method EvalLogs(mx: Matcher, a: LogsAssertions, output: Snapshot) returns (results: seq<CheckResult>)
    ensures Judged(results) == LogJudgements(mx, a, output)
  {
    hide LogOffends, AllCompile, RequiredJudgements, SortedMatches, TextsDistinct;
    results := [];
    if a.forbiddenAttributes != [] || a.forbiddenValuePatterns != [] || a.forbiddenBodyPatterns != [] {
      var found := FindForbiddenLogMatches(mx, output.logs, a);
      results := [ForbiddenResult(Logs, ForbiddenData, found)];
      assert Judged(results) == [Verdict(LogsForbidden(mx, a, output.logs), Logs, ForbiddenData, NoEvidence)];
    }
    var required := EvalRequired(Logs, a.requiredResourceAttributes, LogResources(output.logs));
    JudgedConcat(results, required);
    results := results + required;
  }

  method ErrorSpans(mx: Matcher, spans: seq<Span>) returns (out: map<string, Span>)
    ensures out.Keys == ErrorKeys(mx, spans)
    ensures forall k :: k in out ==> out[k] in spans && IsError(mx, out[k]) && SpanKey(out[k]) == k
  {
    out := map[];
    for i := 0 to |spans|
      invariant out.Keys == ErrorKeys(mx, spans[..i])
      invariant forall k :: k in out ==> out[k] in spans && IsError(mx, out[k]) && SpanKey(out[k]) == k
    {
      assert spans[..i + 1] == spans[..i] + [spans[i]];
      if IsError(mx, spans[i]) {
        out := out[SpanKey(spans[i]) := spans[i]];
      }
    }
    assert spans[..|spans|] == spans;
  }

  method EvalErrorTracePreservation(mx: Matcher, input: Snapshot, output: Snapshot) returns (r: CheckResult)
    ensures JudgementOf(r) == PreserveJudgement(mx, input, output)
  {
    hide ErrorKeys, IsError, SpanKey, PreserveJudgement;
    var inputErrors := ErrorSpans(mx, input.spans);
    var outputErrors := ErrorSpans(mx, output.spans);
    EntriesAreKeys(inputErrors);
    PreservedIff(mx, input, output);
    if |inputErrors| == 0 {
      return PassResult(Traces, PreserveErrorTraces);
    }
    var preserved := CountPreserved(inputErrors.Keys, outputErrors.Keys);
    if preserved == |inputErrors| {
      return PassResult(Traces, PreserveErrorTraces);
    }
    return FailResult(Traces, PreserveErrorTraces, Preserved(preserved, |inputErrors|));
  }

  method CountPreserved(input: set<string>, output: set<string>) returns (preserved: nat)
    ensures preserved == |input * output|
  {
    preserved := 0;
    var remaining := input;
    ghost var done: set<string> := {};
    while remaining != {}
      invariant remaining !! done && remaining + done == input
      invariant preserved == |done * output|
    {
      var key :| key in remaining;
      if key in output {
        assert (done + {key}) * output == done * output + {key};
        preserved := preserved + 1;
      } else {
        assert (done + {key}) * output == done * output;
      }
      remaining := remaining - {key};
      done := done + {key};
    }
    assert done == input;
  }

  lemma PreservedIff(mx: Matcher, input: Snapshot, output: Snapshot)
    ensures var a, b := ErrorKeys(mx, input.spans), ErrorKeys(mx, output.spans);
            PreserveJudgement(mx, input, output) ==
            Judgement(if |a * b| == |a| then Pass else Fail, Traces, PreserveErrorTraces, NoEvidence)
    ensures ErrorKeys(mx, input.spans) == {} ==>
              PreserveJudgement(mx, input, output) == Judgement(Pass, Traces, PreserveErrorTraces, NoEvidence)
  {
    hide ErrorKeys;
    AllPreserved(ErrorKeys(mx, input.spans), ErrorKeys(mx, output.spans));
  }

  lemma EntriesAreKeys<K, V>(m: map<K, V>)
    ensures |m| == |m.Keys|
    ensures |m| == 0 ==> m.Keys == {}
  {
  }

  lemma AllPreserved(a: set<string>, b: set<string>)
    ensures |a * b| == |a| <==> a <= b
  {
    if a <= b {
      assert a * b == a;
    } else {
      var x :| x in a && x !in b;
      assert a * b <= a - {x};
      SubsetSize(a * b, a - {x});
    }
  }

  lemma {:induction false} SubsetSize<T>(a: set<T>, b: set<T>)
    requires a <= b
    ensures |a| <= |b|
  {
    if a != {} {
      var x :| x in a;
      SubsetSize(a - {x}, b - {x});
    }
  }

  method EvalTraces(mx: Matcher, a: TracesAssertions, input: Snapshot,
                    output: Snapshot) returns (results: seq<CheckResult>)
    ensures Judged(results) == TraceJudgements(mx, a, input, output)
  {
    hide SpanOffends, AllCompile, RequiredJudgements, SortedMatches, TextsDistinct, PreserveJudgement, PreservesErrors;
    results := [];
    for i := 0 to |a.preserve|
      invariant Judged(results) == PreserveJudgements(mx, a.preserve[..i], input, output)
    {
      assert a.preserve[..i + 1][..i] == a.preserve[..i];
      if PreservesErrors(a.preserve[i]) {
        var r := EvalErrorTracePreservation(mx, input, output);
        JudgedConcat(results, [r]);
        results := results + [r];
      }
    }
    assert a.preserve[..|a.preserve|] == a.preserve;
    var forbidden: seq<CheckResult> := [];
    if a.forbiddenAttributes != [] || a.forbiddenValuePatterns != [] {
      var found := FindForbiddenSpanMatches(mx, output.spans, a);
      forbidden := [ForbiddenResult(Traces, ForbiddenData, found)];
      assert Judged(forbidden) == [Verdict(SpansForbidden(mx, a, output.spans), Traces, ForbiddenData, NoEvidence)];
    }
    JudgedConcat(results, forbidden);
    var required := EvalRequired(Traces, a.requiredResourceAttributes, SpanResources(output.spans));
    JudgedConcat(results + forbidden, required);
    results := results + forbidden + required;
  }

  lemma SeriesNamedGrow(ms: seq<Metric>, m: Metric, name: string)
    ensures SeriesNamed(ms + [m], name) == SeriesNamed(ms, name) + if m.name == name then SeriesOf(m) else {}
    ensures PointCount(ms + [m], name) == PointCount(ms, name) + if m.name == name then |m.points| else 0
    ensures Names(ms + [m]) == Names(ms) + {m.name}
  {
    hide SeriesKey;
    assert (ms + [m])[..|ms|] == ms;
  }

  lemma UnknownName(ms: seq<Metric>, name: string)
    requires name !in Names(ms)
    ensures SeriesNamed(ms, name) == {} && PointCount(ms, name) == 0
  {
    hide SeriesKey;
    if ms != [] {
      assert ms[|ms| - 1] in ms;
      UnknownName(ms[..|ms| - 1], name);
    }
  }

  /** The two maps of evalMaxSeries after the records ms. */
  ghost predicate Tallied(ms: seq<Metric>, series: map<string, set<string>>, points: map<string, nat>)
  {
    series.Keys == points.Keys == Names(ms) &&
    forall name :: name in series ==> series[name] == SeriesNamed(ms, name) && points[name] == PointCount(ms, name)
  }

  lemma TallyStep(ms: seq<Metric>, m: Metric, series: map<string, set<string>>, points: map<string, nat>)
    requires Tallied(ms, series, points)
    ensures Tallied(ms + [m], series[m.name := (if m.name in series then series[m.name] else {}) + SeriesOf(m)],
                    points[m.name := (if m.name in points then points[m.name] else 0) + |m.points|])
  {
    hide SeriesNamed, SeriesOf, Names, PointCount;
    SeriesNamedGrow(ms, m, m.name);
    if m.name !in series {
      UnknownName(ms, m.name);
    }
    forall name | name in series && name != m.name
      ensures SeriesNamed(ms + [m], name) == SeriesNamed(ms, name) && PointCount(ms + [m], name) == PointCount(ms, name)
    {
      SeriesNamedGrow(ms, m, name);
    }
  }

  /** The series seen so far under a name, with those of one more record. */
  method AddSeries(m: Metric, before: set<string>) returns (named: set<string>)
    ensures named == before + SeriesOf(m)
  {
    hide SeriesOf, SortedSet;
    var keys := UniqueSeriesKeys(m);
    SortedSetMembers(SeriesOf(m));
    named := before;
    for j := 0 to |keys|
      invariant named == before + set k | k in keys[..j]
    {
      assert keys[..j + 1] == keys[..j] + [keys[j]];
      named := named + {keys[j]};
    }
    assert keys[..|keys|] == keys;
  }

  method TallySeries(ms: seq<Metric>) returns (seriesByName: map<string, set<string>>, pointCounts: map<string, nat>)
    ensures Tallied(ms, seriesByName, pointCounts)
  {
    hide SeriesNamed, SeriesOf, Names, PointCount, SortedSet, Tallied;
    seriesByName, pointCounts := map[], map[];
    TallyNothing();
    for i := 0 to |ms|
      invariant Tallied(ms[..i], seriesByName, pointCounts)
    {
      var m := ms[i];
      var named := AddSeries(m, if m.name in seriesByName then seriesByName[m.name] else {});
      TallyStep(ms[..i], m, seriesByName, pointCounts);
      assert ms[..i + 1] == ms[..i] + [m];
      seriesByName := seriesByName[m.name := named];
      pointCounts := pointCounts[m.name := (if m.name in pointCounts then pointCounts[m.name] else 0) + |m.points|];
    }
    assert ms[..|ms|] == ms;
  }

  lemma NoNamesNoViolations(ms: seq<Metric>, limit: nat, names: seq<string>)
    ensures Violations(ms, limit, names[..0]) == []
  {
  }

  lemma ViolationsStep(ms: seq<Metric>, limit: nat, names: seq<string>, i: nat)
    requires i < |names|
    ensures Violations(ms, limit, names[..i + 1]) == Violations(ms, limit, names[..i]) +
            if |SeriesNamed(ms, names[i])| > limit
            then [Judgement(Fail, Metrics, MaxSeriesPerMetric,
                            Series(names[i], |SeriesNamed(ms, names[i])|, PointCount(ms, names[i]), limit))]
            else []
  {
    hide SeriesNamed, PointCount;
    assert names[..i + 1][..i] == names[..i];
  }

  method EvalMaxSeries(ms: seq<Metric>, limit: nat) returns (results: seq<CheckResult>)
    ensures Judged(results) == MaxSeriesJudgements(ms, limit)
  {
    hide SeriesNamed, SeriesOf, Names, PointCount, SortedSet, Tallied, Judged, Violations;
    results := [];
    NoNamesNoViolations(ms, limit, SortedSet(Names(ms)));
    var violations := 0;
    var seriesByName, pointCounts := TallySeries(ms);
    TalliedMeans(ms, seriesByName, pointCounts);
    var names := SortedSet(seriesByName.Keys);
    SortedSetMembers(seriesByName.Keys);
    for i := 0 to |names|
      invariant Judged(results) == Violations(ms, limit, names[..i]) && violations == |results|
    {
      var name := names[i];
      ViolationsStep(ms, limit, names, i);
      assert name in seriesByName;
      var series := |seriesByName[name]|;
      if series > limit {
        violations := violations + 1;
        var r := FailResult(Metrics, MaxSeriesPerMetric, SeriesCount(name, series, pointCounts[name], limit));
        JudgedAppend(results, r);
        results := results + [r];
      }
    }
    assert names[..|names|] == names;
    if violations == 0 {
      JudgedAppend([], PassResult(Metrics, MaxSeriesPerMetric));
      results := [] + [PassResult(Metrics, MaxSeriesPerMetric)];
    }
  }

  lemma TallyNothing()
    ensures Tallied([], map[], map[])
  {
  }

  lemma TalliedMeans(ms: seq<Metric>, series: map<string, set<string>>, points: map<string, nat>)
    requires Tallied(ms, series, points)
    ensures series.Keys == points.Keys == Names(ms)
    ensures forall name :: name in series ==>
              series[name] == SeriesNamed(ms, name) && points[name] == PointCount(ms, name)
  {
    hide SeriesNamed, PointCount;
  }

  method EvalMetrics(mx: Matcher, a: MetricsAssertions, output: Snapshot) returns (results: seq<CheckResult>)
    ensures Judged(results) == MetricJudgements(mx, a, output)
  {
    hide MetricOffends, AllCompile, RequiredJudgements, SortedMatches, TextsDistinct, MaxSeriesJudgements;
    results := [];
    if a.forbiddenLabels != [] || a.forbiddenLabelValuePatterns != [] {
      var found := FindForbiddenMetricMatches(mx, output.metrics, a);
      results := [ForbiddenResult(Metrics, ForbiddenLabels, found)];
      assert Judged(results) == [Verdict(MetricsForbidden(mx, a, output.metrics), Metrics, ForbiddenLabels,
                                         NoEvidence)];
    }
    var series: seq<CheckResult> := [];
    if a.maxSeriesPerMetric > 0 {
      series := EvalMaxSeries(output.metrics, a.maxSeriesPerMetric);
    }
    JudgedConcat(results, series);
    var required := EvalRequired(Metrics, a.requiredResourceAttributes, MetricResources(output.metrics));
    JudgedConcat(results + series, required);
    results := results + series + required;
  }

  method EvaluateWithOptions(mx: Matcher, p: Policy, input: Snapshot, output: Snapshot, runnerWarnings: seq<string>,
                             o: Options)
    returns (results: seq<CheckResult>)
    ensures Judged(results) == Evaluation(mx, p, input, output, |runnerWarnings|, o)
  {
    hide LogJudgements, TraceJudgements, MetricJudgements, Reason, Conclusive;
    results := [];
    if p.logs.Some? {
      results := EvalLogs(mx, p.logs.value, output);
    }
    if p.traces.Some? {
      var more := EvalTraces(mx, p.traces.value, input, output);
      JudgedConcat(results, more);
      results := results + more;
    }
    if p.metrics.Some? {
      var more := EvalMetrics(mx, p.metrics.value, output);
      JudgedConcat(results, more);
      results := results + more;
    }
    ghost var raw := results;
    assert Judged(raw) == Judgements(mx, p, input, output);
    for i := 0 to |results|
      invariant |results| == |raw|
      invariant forall k :: 0 <= k < i ==> JudgementOf(results[k]) == Weigh(mx, JudgementOf(raw[k]), input, o)
      invariant forall k :: i <= k < |raw| ==> results[k] == raw[k]
    {
      var r := results[i];
      if Reason(mx, r.signal, r.check, input, o) != "" && !Conclusive(mx, JudgementOf(r), input) {
        results := results[i := CheckResult(Inconclusive, r.signal, r.check, NoDetails)];
      }
    }
    assert Judged(results) == Weighed(mx, Judged(raw), input, o);
    for i := 0 to |runnerWarnings|
      invariant Judged(results) == Weighed(mx, Judged(raw), input, o) + Warnings(i)
    {
      var w := CheckResult(Warn, Pipeline, RunnerWarning, NoDetails);
      JudgedConcat(results, [w]);
      assert Warnings(i + 1) == Warnings(i) + [JudgementOf(w)];
      results := results + [w];
    }
  }
}
