/** What incomplete capture can and cannot confirm, and what capture order cannot change
    (the claim of internal/evaluator/evaluator.go:88-89). */
module Evidence {
  import opened Strings
  import opened Json
  import opened Telemetry
  import opened Canonical
  import opened Policy
  import opened Matches
  import opened Report
  import opened Evaluator

  // ----- completions of a capture -----

  predicate Grown(m: Metric, m': Metric)
  {
    Id(m) == Id(m') && forall dp :: dp in m.points ==> dp in m'.points
  }

  /** after holds everything before holds, and possibly more logs, spans, metric records and datapoints. */
  predicate Extends(before: Snapshot, after: Snapshot)
  {
    (forall l :: l in before.logs ==> l in after.logs) &&
    (forall s :: s in before.spans ==> s in after.spans) &&
    forall m :: m in before.metrics ==> exists m' :: m' in after.metrics && Grown(m, m')
  }

  // ----- the members of a judgement list -----

  lemma LogMembers(mx: Matcher, a: LogsAssertions, output: Snapshot, j: Judgement)
    ensures j in LogJudgements(mx, a, output) <==>
            ((a.forbiddenAttributes != [] || a.forbiddenValuePatterns != [] || a.forbiddenBodyPatterns != []) &&
               j == Verdict(LogsForbidden(mx, a, output.logs), Logs, ForbiddenData, NoEvidence)) ||
            j in RequiredJudgements(Logs, a.requiredResourceAttributes, LogResources(output.logs))
  {
    hide LogsForbidden, RequiredJudgements, LogResources;
  }

  lemma TraceMembers(mx: Matcher, a: TracesAssertions, input: Snapshot, output: Snapshot, j: Judgement)
    ensures j in TraceJudgements(mx, a, input, output) <==>
            ((exists e :: e in a.preserve && PreservesErrors(e)) && j == PreserveJudgement(mx, input, output)) ||
            ((a.forbiddenAttributes != [] || a.forbiddenValuePatterns != []) &&
               j == Verdict(SpansForbidden(mx, a, output.spans), Traces, ForbiddenData, NoEvidence)) ||
            j in RequiredJudgements(Traces, a.requiredResourceAttributes, SpanResources(output.spans))
  {
    hide SpansForbidden, RequiredJudgements, SpanResources, PreserveJudgement, PreservesErrors;
    PreserveMembers(mx, a.preserve, input, output, j);
  }

  lemma {:induction false} PreserveMembers(mx: Matcher, exprs: seq<string>, input: Snapshot, output: Snapshot,
                                           j: Judgement)
    ensures j in PreserveJudgements(mx, exprs, input, output) <==>
            (exists e :: e in exprs && PreservesErrors(e)) && j == PreserveJudgement(mx, input, output)
  {
    hide PreserveJudgement, PreservesErrors;
    if exprs != [] {
      var init, last := exprs[..|exprs| - 1], exprs[|exprs| - 1];
      assert exprs == init + [last];
      PreserveMembers(mx, init, input, output, j);
    }
  }

  function Violation(ms: seq<Metric>, limit: nat, name: string): Judgement
  {
    Judgement(Fail, Metrics, MaxSeriesPerMetric, Series(name, |SeriesNamed(ms, name)|, PointCount(ms, name), limit))
  }

  lemma {:induction false} ViolationMembers(ms: seq<Metric>, limit: nat, names: seq<string>, j: Judgement)
    ensures j in Violations(ms, limit, names) <==>
            exists name :: name in names && |SeriesNamed(ms, name)| > limit && j == Violation(ms, limit, name)
  {
    hide SeriesNamed, PointCount;
    if names != [] {
      var init, last := names[..|names| - 1], names[|names| - 1];
      assert names == init + [last];
      ViolationMembers(ms, limit, init, j);
    }
  }

  lemma SeriesMembers(ms: seq<Metric>, limit: nat, j: Judgement)
    ensures j.status == Fail ==>
              (j in MaxSeriesJudgements(ms, limit) <==>
               exists name :: name in Names(ms) && |SeriesNamed(ms, name)| > limit && j == Violation(ms, limit, name))
    ensures j in MaxSeriesJudgements(ms, limit) ==> j.check == MaxSeriesPerMetric && j.signal == Metrics
    ensures Judgement(Pass, Metrics, MaxSeriesPerMetric, NoEvidence) in MaxSeriesJudgements(ms, limit) <==>
            forall name :: name in Names(ms) ==> |SeriesNamed(ms, name)| <= limit
  {
    hide SeriesNamed, PointCount, Names;
    var names := SortedSet(Names(ms));
    assert forall n :: n in names <==> n in Names(ms);
    var vs := Violations(ms, limit, names);
    ViolationMembers(ms, limit, names, j);
    ViolationMembers(ms, limit, names, Judgement(Pass, Metrics, MaxSeriesPerMetric, NoEvidence));
    if vs == [] {
      forall name | name in Names(ms) ensures |SeriesNamed(ms, name)| <= limit {
        ViolationMembers(ms, limit, names, Violation(ms, limit, name));
      }
    } else {
      ViolationMembers(ms, limit, names, vs[0]);
    }
  }

  lemma MetricMembers(mx: Matcher, a: MetricsAssertions, output: Snapshot, j: Judgement)
    ensures j in MetricJudgements(mx, a, output) <==>
            ((a.forbiddenLabels != [] || a.forbiddenLabelValuePatterns != []) &&
               j == Verdict(MetricsForbidden(mx, a, output.metrics), Metrics, ForbiddenLabels, NoEvidence)) ||
            (a.maxSeriesPerMetric > 0 && j in MaxSeriesJudgements(output.metrics, a.maxSeriesPerMetric)) ||
            j in RequiredJudgements(Metrics, a.requiredResourceAttributes, MetricResources(output.metrics))
  {
    hide MetricsForbidden, RequiredJudgements, MetricResources, MaxSeriesJudgements;
  }

  lemma Members(mx: Matcher, p: Policy, input: Snapshot, output: Snapshot, j: Judgement)
    ensures j in Judgements(mx, p, input, output) <==>
            (p.logs.Some? && j in LogJudgements(mx, p.logs.value, output)) ||
            (p.traces.Some? && j in TraceJudgements(mx, p.traces.value, input, output)) ||
            (p.metrics.Some? && j in MetricJudgements(mx, p.metrics.value, output))
  {
    hide LogJudgements, TraceJudgements, MetricJudgements;
  }

  // ----- soundness -----

  /** The same verdict: for a series limit, about the same metric and with no fewer series. */
  predicate Confirms(j: Judgement, j': Judgement)
  {
    j'.status == j.status && j'.signal == j.signal && j'.check == j.check &&
    (j.evidence.Series? ==> j'.evidence.Series? && j'.evidence.metric == j.evidence.metric &&
                            j'.evidence.unique >= j.evidence.unique && j'.evidence.limit == j.evidence.limit)
  }

  lemma RequiredKeepsFailing(signal: Subject, required: seq<string>, before: seq<Attributes>, after: seq<Attributes>,
                             j: Judgement)
    requires forall r :: r in before ==> r in after
    requires j in RequiredJudgements(signal, required, before) && j.status == Fail && j.evidence == Records(true)
    ensures j in RequiredJudgements(signal, required, after)
  {
    hide Lacks;
    assert before != [] && before[0] in before;
    assert RequiredFails(required, before) && RequiredFails(required, after);
    assert after != [];
  }

  lemma SeriesGrow(before: Snapshot, after: Snapshot, name: string)
    requires Extends(before, after)
    ensures SeriesNamed(before.metrics, name) <= SeriesNamed(after.metrics, name)
    ensures Names(before.metrics) <= Names(after.metrics)
  {
    hide SeriesKey;
    forall k | k in SeriesNamed(before.metrics, name) ensures k in SeriesNamed(after.metrics, name) {
      var m, dp :| m in before.metrics && m.name == name && dp in m.points && k == SeriesKey(m.resource, dp.labels);
      var m' :| m' in after.metrics && Grown(m, m');
    }
    forall n | n in Names(before.metrics) ensures n in Names(after.metrics) {
      var m :| m in before.metrics && m.name == n;
      var m' :| m' in after.metrics && Grown(m, m');
    }
  }

  lemma LogVerdictHolds(mx: Matcher, a: LogsAssertions, input: Snapshot, before: Snapshot, after: Snapshot,
                        j: Judgement)
    requires Extends(before, after) && j in LogJudgements(mx, a, before) && Conclusive(mx, j, input)
    ensures j in LogJudgements(mx, a, after)
  {
    hide LogOffends, AllCompile, RequiredJudgements, LogJudgements;
    LogMembers(mx, a, before, j);
    LogMembers(mx, a, after, j);
    var r, r' := LogResources(before.logs), LogResources(after.logs);
    if j in RequiredJudgements(Logs, a.requiredResourceAttributes, r) {
      RequiredSignal(Logs, a.requiredResourceAttributes, r, j);
      forall x | x in r ensures x in r' {
        var i :| 0 <= i < |r| && r[i] == x;
        assert before.logs[i] in after.logs;
        var k :| 0 <= k < |after.logs| && after.logs[k] == before.logs[i];
        assert r'[k] == x;
      }
      RequiredKeepsFailing(Logs, a.requiredResourceAttributes, r, r', j);
    }
  }

  lemma RequiredSignal(signal: Subject, required: seq<string>, records: seq<Attributes>, j: Judgement)
    requires j in RequiredJudgements(signal, required, records)
    ensures j.signal == signal && j.check == RequiredResourceAttributes
    ensures j == Verdict(RequiredFails(required, records), signal, RequiredResourceAttributes, Records(records != []))
  {
  }

  lemma ErrorKeysGrow(mx: Matcher, before: seq<Span>, after: seq<Span>)
    requires forall s :: s in before ==> s in after
    ensures ErrorKeys(mx, before) <= ErrorKeys(mx, after)
  {
    hide IsError, SpanKey;
  }

  lemma TraceVerdictHolds(mx: Matcher, a: TracesAssertions, input: Snapshot, before: Snapshot, after: Snapshot,
                          j: Judgement)
    requires Extends(before, after) && j in TraceJudgements(mx, a, input, before) && Conclusive(mx, j, input)
    ensures j in TraceJudgements(mx, a, input, after)
  {
    hide SpanOffends, AllCompile, RequiredJudgements, TraceJudgements, ErrorKeys, PreservesErrors;
    TraceMembers(mx, a, input, before, j);
    TraceMembers(mx, a, input, after, j);
    ErrorKeysGrow(mx, before.spans, after.spans);
    var r, r' := SpanResources(before.spans), SpanResources(after.spans);
    if j in RequiredJudgements(Traces, a.requiredResourceAttributes, r) {
      RequiredSignal(Traces, a.requiredResourceAttributes, r, j);
      forall x | x in r ensures x in r' {
        var i :| 0 <= i < |r| && r[i] == x;
        assert before.spans[i] in after.spans;
        var k :| 0 <= k < |after.spans| && after.spans[k] == before.spans[i];
        assert r'[k] == x;
      }
      RequiredKeepsFailing(Traces, a.requiredResourceAttributes, r, r', j);
    }
  }

  lemma SeriesVerdictHolds(before: Snapshot, after: Snapshot, limit: nat, j: Judgement) returns (j': Judgement)
    requires Extends(before, after) && j in MaxSeriesJudgements(before.metrics, limit) && j.status == Fail
    ensures j' in MaxSeriesJudgements(after.metrics, limit) && Confirms(j, j')
  {
    hide SeriesNamed, PointCount, Names, MaxSeriesJudgements, Extends;
    SeriesMembers(before.metrics, limit, j);
    var name :|
      name in Names(before.metrics) && |SeriesNamed(before.metrics, name)| > limit &&
      j == Violation(before.metrics, limit, name);
    SeriesGrow(before, after, name);
    SubsetSize(SeriesNamed(before.metrics, name), SeriesNamed(after.metrics, name));
    j' := Violation(after.metrics, limit, name);
    SeriesMembers(after.metrics, limit, j');
  }

  lemma MetricVerdictHolds(mx: Matcher, a: MetricsAssertions, input: Snapshot, before: Snapshot, after: Snapshot,
                           j: Judgement)
    returns (j': Judgement)
    requires Extends(before, after) && j in MetricJudgements(mx, a, before) && Conclusive(mx, j, input)
    ensures j' in MetricJudgements(mx, a, after) && Confirms(j, j')
  {
    hide LabelsOffend, AllCompile, RequiredJudgements, MetricJudgements, MaxSeriesJudgements;
    MetricMembers(mx, a, before, j);
    j' := j;
    var r, r' := MetricResources(before.metrics), MetricResources(after.metrics);
    if a.maxSeriesPerMetric > 0 && j in MaxSeriesJudgements(before.metrics, a.maxSeriesPerMetric) {
      SeriesMembers(before.metrics, a.maxSeriesPerMetric, j);
      j' := SeriesVerdictHolds(before, after, a.maxSeriesPerMetric, j);
    } else if j in RequiredJudgements(Metrics, a.requiredResourceAttributes, r) {
      RequiredSignal(Metrics, a.requiredResourceAttributes, r, j);
      forall x | x in r ensures x in r' {
        var i :| 0 <= i < |r| && r[i] == x;
        assert before.metrics[i] in before.metrics;
        var m' :| m' in after.metrics && Grown(before.metrics[i], m');
        var k :| 0 <= k < |after.metrics| && after.metrics[k] == m';
        assert r'[k] == x;
      }
      RequiredKeepsFailing(Metrics, a.requiredResourceAttributes, r, r', j);
    } else {
      OffendingMetricGrows(mx, a, before, after);
    }
    MetricMembers(mx, a, after, j');
  }

  lemma OffendingMetricGrows(mx: Matcher, a: MetricsAssertions, before: Snapshot, after: Snapshot)
    requires Extends(before, after)
    ensures MetricsForbidden(mx, a, before.metrics) ==> MetricsForbidden(mx, a, after.metrics)
  {
    hide LabelsOffend, AllCompile;
    forall m | m in before.metrics && MetricOffends(mx, a, m)
      ensures exists m' :: m' in after.metrics && MetricOffends(mx, a, m')
    {
      var m' :| m' in after.metrics && Grown(m, m');
      assert MetricOffends(mx, a, m');
    }
  }

  /** Every verdict that is kept despite incomplete capture is a verdict of every completion of the capture. */
  lemma ConclusiveVerdictHolds(mx: Matcher, p: Policy, input: Snapshot, before: Snapshot, after: Snapshot, j: Judgement)
    returns (j': Judgement)
    requires Extends(before, after) && j in Judgements(mx, p, input, before) && Conclusive(mx, j, input)
    ensures j' in Judgements(mx, p, input, after) && Confirms(j, j')
  {
    hide LogJudgements, TraceJudgements, MetricJudgements, Conclusive, Judgements, Extends;
    Members(mx, p, input, before, j);
    j' := j;
    if p.logs.Some? && j in LogJudgements(mx, p.logs.value, before) {
      LogVerdictHolds(mx, p.logs.value, input, before, after, j);
    } else if p.traces.Some? && j in TraceJudgements(mx, p.traces.value, input, before) {
      TraceVerdictHolds(mx, p.traces.value, input, before, after, j);
    } else {
      j' := MetricVerdictHolds(mx, p.metrics.value, input, before, after, j);
    }
    Members(mx, p, input, after, j');
  }

  /** In an evaluation under uncertainty, whatever is not reported inconclusive would also be reported from the
      completed output. */
  lemma UncertainReportsHold(mx: Matcher, p: Policy, input: Snapshot, before: Snapshot, after: Snapshot, o: Options,
                             i: nat)
    returns (j': Judgement)
    requires Extends(before, after) && i < |Judgements(mx, p, input, before)|
    requires var j := Judgements(mx, p, input, before)[i];
             Reason(mx, j.signal, j.check, input, o) != "" &&
             Weighed(mx, Judgements(mx, p, input, before), input, o)[i].status != Inconclusive
    ensures j' in Judgements(mx, p, input, after)
    ensures Confirms(Weighed(mx, Judgements(mx, p, input, before), input, o)[i], j')
  {
    hide Judgements, Reason, Conclusive, Extends;
    var js := Judgements(mx, p, input, before);
    assert js[i] in js;
    j' := ConclusiveVerdictHolds(mx, p, input, before, after, js[i]);
  }

  // ----- tightness: what is not kept could still turn -----

  lemma ExtendsAppend(s: Snapshot, more: Snapshot)
    ensures Extends(s, Snapshot(s.logs + more.logs, s.spans + more.spans, s.metrics + more.metrics))
  {
    forall m | m in s.metrics ensures exists m' :: m' in s.metrics + more.metrics && Grown(m, m') {
      assert Grown(m, m);
    }
  }

  function Plus(s: Snapshot, more: Snapshot): Snapshot
  {
    Snapshot(s.logs + more.logs, s.spans + more.spans, s.metrics + more.metrics)
  }

  /** A preservation verdict is final exactly when it is a pass: missing spans may still arrive. */
  lemma PreservationFinalIff(mx: Matcher, input: Snapshot, before: Snapshot)
    ensures (forall after :: Extends(before, after) ==>
               PreserveJudgement(mx, input, after) == PreserveJudgement(mx, input, before))
            <==> PreserveJudgement(mx, input, before).status == Pass
  {
    hide IsError, SpanKey, ErrorKeys;
    var after := Plus(before, Snapshot([], input.spans, []));
    ExtendsAppend(before, Snapshot([], input.spans, []));
    ErrorKeysGrow(mx, input.spans, after.spans);
    forall after | Extends(before, after) ensures ErrorKeys(mx, before.spans) <= ErrorKeys(mx, after.spans) {
      ErrorKeysGrow(mx, before.spans, after.spans);
    }
  }

  function Carrying(required: seq<string>): Attributes
  {
    map q | q in required :: ""
  }

  /** A record without attributes, or one with exactly the required ones, of each signal. */
  function OneRecord(signal: Subject, attrs: Attributes): Snapshot
  {
    match signal
    case Logs => Snapshot([LogRecord(attrs, map[], "")], [], [])
    case Traces => Snapshot([], [Span("", "", "", "", attrs, map[])], [])
    case Metrics => Snapshot([], [], [Metric("", attrs, [])])
    case Pipeline => Snapshot([], [], [])
  }

  function Resources(signal: Subject, s: Snapshot): seq<Attributes>
  {
    match signal
    case Logs => LogResources(s.logs)
    case Traces => SpanResources(s.spans)
    case Metrics => MetricResources(s.metrics)
    case Pipeline => []
  }

  lemma OneRecordAdds(signal: Subject, s: Snapshot, attrs: Attributes)
    requires signal != Pipeline
    ensures Extends(s, Plus(s, OneRecord(signal, attrs)))
    ensures Resources(signal, Plus(s, OneRecord(signal, attrs))) == Resources(signal, s) + [attrs]
  {
    ExtendsAppend(s, OneRecord(signal, attrs));
    hide Extends;
    var t := Plus(s, OneRecord(signal, attrs));
    assert Resources(signal, t) == Resources(signal, s) + [attrs];
  }

  /** One bare record turns a pass, one complete record turns a failure for want of records. */
  lemma RequiredVerdictCanTurn(signal: Subject, required: seq<string>, before: Snapshot)
    requires signal != Pipeline && required != []
    ensures Extends(before, Plus(before, OneRecord(signal, map[]))) &&
            RequiredFails(required, Resources(signal, Plus(before, OneRecord(signal, map[]))))
    ensures Resources(signal, before) == [] ==>
              Extends(before, Plus(before, OneRecord(signal, Carrying(required)))) &&
              !RequiredFails(required, Resources(signal, Plus(before, OneRecord(signal, Carrying(required)))))
  {
    hide Resources, OneRecord, Extends, Plus;
    OneRecordAdds(signal, before, map[]);
    OneRecordAdds(signal, before, Carrying(required));
    var bare := Resources(signal, Plus(before, OneRecord(signal, map[])));
    assert required[0] in required;
    assert Lacks(map[], required);
    assert bare[|bare| - 1] in bare;
    assert !Lacks(Carrying(required), required);
  }

  lemma ResourcesGrow(signal: Subject, before: Snapshot, after: Snapshot, x: Attributes)
    requires Extends(before, after) && x in Resources(signal, before)
    ensures x in Resources(signal, after)
  {
    var r, r' := Resources(signal, before), Resources(signal, after);
    var i :| 0 <= i < |r| && r[i] == x;
    match signal {
      case Logs =>
        assert before.logs[i] in after.logs;
        var k :| 0 <= k < |after.logs| && after.logs[k] == before.logs[i];
        assert r'[k] == x;
      case Traces =>
        assert before.spans[i] in after.spans;
        var k :| 0 <= k < |after.spans| && after.spans[k] == before.spans[i];
        assert r'[k] == x;
      case Metrics =>
        assert before.metrics[i] in before.metrics;
        var m' :| m' in after.metrics && Grown(before.metrics[i], m');
        var k :| 0 <= k < |after.metrics| && after.metrics[k] == m';
        assert r'[k] == x;
    }
  }

  /** A required-attribute verdict is final exactly when it is kept: it fails, and on at least one record. */
  lemma RequiredVerdictFinalIff(signal: Subject, required: seq<string>, before: Snapshot)
    requires signal != Pipeline && required != []
    ensures (forall after :: Extends(before, after) ==>
               (RequiredFails(required, Resources(signal, after)) <==>
                RequiredFails(required, Resources(signal, before))))
            <==> RequiredFails(required, Resources(signal, before)) && Resources(signal, before) != []
  {
    hide Resources, OneRecord, Extends, Plus, Lacks;
    RequiredVerdictCanTurn(signal, required, before);
    if RequiredFails(required, Resources(signal, before)) && Resources(signal, before) != [] {
      var x :| x in Resources(signal, before) && Lacks(x, required);
      forall after | Extends(before, after) ensures RequiredFails(required, Resources(signal, after)) {
        ResourcesGrow(signal, before, after, x);
      }
    }
  }

  // ----- what weighing keeps -----

  /** The check that gave j fails on this output too. */
  ghost predicate StillFails(mx: Matcher, p: Policy, input: Snapshot, j: Judgement, output: Snapshot)
  {
    exists k :: k in Judgements(mx, p, input, output) && k.status == Fail && k.signal == j.signal && k.check == j.check
  }

  /** Nothing that may still arrive can make the check pass. */
  ghost predicate FailsForGood(mx: Matcher, p: Policy, input: Snapshot, j: Judgement, before: Snapshot)
  {
    forall after :: Extends(before, after) ==> StillFails(mx, p, input, j, after)
  }

  /** Who gives judgements of each kind. */
  lemma Source(mx: Matcher, p: Policy, input: Snapshot, output: Snapshot, j: Judgement)
    requires j in Judgements(mx, p, input, output)
    ensures j.check == PreserveErrorTraces ==> j == PreserveJudgement(mx, input, output)
    ensures j.check == RequiredResourceAttributes ==>
              j.signal != Pipeline && RequiredOf(p, j.signal) != [] &&
              j == Verdict(RequiredFails(RequiredOf(p, j.signal), Resources(j.signal, output)), j.signal,
                           RequiredResourceAttributes, Records(Resources(j.signal, output) != []))
    ensures j.check in {PreserveErrorTraces, RequiredResourceAttributes, ForbiddenData, ForbiddenLabels,
                        MaxSeriesPerMetric}
  {
    hide Judgements, LogJudgements, TraceJudgements, MetricJudgements, RequiredJudgements, MaxSeriesJudgements,
      LogsForbidden, SpansForbidden, MetricsForbidden, PreservesErrors, ErrorKeys, RequiredFails, LogResources,
      SpanResources, MetricResources;
    Members(mx, p, input, output, j);
    if p.logs.Some? && j in LogJudgements(mx, p.logs.value, output) {
      LogMembers(mx, p.logs.value, output, j);
      RequiredSource(Logs, p.logs.value.requiredResourceAttributes, LogResources(output.logs), j);
    } else if p.traces.Some? && j in TraceJudgements(mx, p.traces.value, input, output) {
      TraceMembers(mx, p.traces.value, input, output, j);
      RequiredSource(Traces, p.traces.value.requiredResourceAttributes, SpanResources(output.spans), j);
    } else {
      MetricMembers(mx, p.metrics.value, output, j);
      RequiredSource(Metrics, p.metrics.value.requiredResourceAttributes, MetricResources(output.metrics), j);
      if p.metrics.value.maxSeriesPerMetric > 0 {
        SeriesMembers(output.metrics, p.metrics.value.maxSeriesPerMetric, j);
      }
    }
  }

  lemma RequiredSource(signal: Subject, required: seq<string>, records: seq<Attributes>, j: Judgement)
    ensures j in RequiredJudgements(signal, required, records) ==>
              required != [] &&
              j == Verdict(RequiredFails(required, records), signal, RequiredResourceAttributes, Records(records != []))
  {
  }

  function RequiredOf(p: Policy, signal: Subject): seq<string>
  {
    match signal
    case Logs => if p.logs.Some? then p.logs.value.requiredResourceAttributes else []
    case Traces => if p.traces.Some? then p.traces.value.requiredResourceAttributes else []
    case Metrics => if p.metrics.Some? then p.metrics.value.requiredResourceAttributes else []
    case Pipeline => []
  }

  /** A failure that arriving data could still turn: missing error spans, or no records at all. */
  lemma FailureCanTurn(mx: Matcher, p: Policy, input: Snapshot, before: Snapshot, j: Judgement)
    requires j in Judgements(mx, p, input, before) && j.status == Fail
    requires j.check == PreserveErrorTraces ||
             (j.check == RequiredResourceAttributes && Resources(j.signal, before) == [])
    ensures !FailsForGood(mx, p, input, j, before)
  {
    hide Judgements, ErrorKeys, Extends, Resources, RequiredFails, Plus, OneRecord, Carrying;
    Source(mx, p, input, before, j);
    var after: Snapshot;
    if j.check == PreserveErrorTraces {
      after := Plus(before, Snapshot([], input.spans, []));
      SpansArrive(mx, input, before);
    } else {
      after := Plus(before, OneRecord(j.signal, Carrying(RequiredOf(p, j.signal))));
      RequiredVerdictCanTurn(j.signal, RequiredOf(p, j.signal), before);
    }
    forall k | k in Judgements(mx, p, input, after) && k.signal == j.signal && k.check == j.check
      ensures k.status != Fail
    {
      Source(mx, p, input, after, k);
    }
    assert Extends(before, after) && !StillFails(mx, p, input, j, after);
  }

  lemma SpansArrive(mx: Matcher, input: Snapshot, before: Snapshot)
    ensures var after := Plus(before, Snapshot([], input.spans, []));
            Extends(before, after) && ErrorKeys(mx, input.spans) <= ErrorKeys(mx, after.spans)
  {
    ExtendsAppend(before, Snapshot([], input.spans, []));
    ErrorKeysGrow(mx, input.spans, Plus(before, Snapshot([], input.spans, [])).spans);
  }

  lemma ConclusiveFailsForGood(mx: Matcher, p: Policy, input: Snapshot, before: Snapshot, j: Judgement)
    requires j in Judgements(mx, p, input, before) && j.status == Fail && Conclusive(mx, j, input)
    ensures FailsForGood(mx, p, input, j, before)
  {
    hide Judgements, Extends, Conclusive;
    forall after | Extends(before, after) ensures StillFails(mx, p, input, j, after) {
      var k := ConclusiveVerdictHolds(mx, p, input, before, after, j);
    }
  }

  /** Under doubt a failure is reported as a failure exactly when no completion of the capture can make the check
      pass. */
  lemma FailureKeptIff(mx: Matcher, p: Policy, input: Snapshot, before: Snapshot, o: Options, j: Judgement)
    requires j in Judgements(mx, p, input, before) && j.status == Fail
    requires Reason(mx, j.signal, j.check, input, o) != ""
    ensures Weigh(mx, j, input, o).status == Fail <==> FailsForGood(mx, p, input, j, before)
  {
    hide Judgements, Reason, FailsForGood, Resources, RequiredFails, ErrorKeys;
    Source(mx, p, input, before, j);
    if Conclusive(mx, j, input) {
      ConclusiveFailsForGood(mx, p, input, before, j);
    } else {
      FailureCanTurn(mx, p, input, before, j);
    }
  }

  ghost predicate HasErrorSpan(mx: Matcher, spans: seq<Span>)
  {
    exists s :: s in spans && mx.upper(s.statusCode) == "ERROR"
  }

  lemma ErrorSpanGivesKey(mx: Matcher, spans: seq<Span>)
    ensures HasErrorSpan(mx, spans) <==> ErrorKeys(mx, spans) != {}
  {
    hide SpanKey;
    if s :| s in spans && mx.upper(s.statusCode) == "ERROR" {
      assert SpanKey(s) in ErrorKeys(mx, spans);
    }
  }

  /** Under doubt a pass is kept exactly when it is about error spans that the fixture does have. */
  lemma PassKeptIff(mx: Matcher, input: Snapshot, o: Options, j: Judgement)
    requires j.status == Pass && Reason(mx, j.signal, j.check, input, o) != ""
    ensures Weigh(mx, j, input, o).status == Pass <==>
            j.check == PreserveErrorTraces && HasErrorSpan(mx, input.spans)
  {
    hide Reason, ErrorKeys, HasErrorSpan;
    ErrorSpanGivesKey(mx, input.spans);
  }

  /** What the fixture must hold for a check to be about something. */
  lemma {:induction false} PointsMean(ms: seq<Metric>)
    ensures TotalPoints(ms) > 0 <==> exists m, dp :: m in ms && dp in m.points
  {
    if ms != [] {
      var init, last := ms[..|ms| - 1], ms[|ms| - 1];
      assert ms == init + [last];
      PointsMean(init);
      if last.points != [] {
        assert last in ms && last.points[0] in last.points;
      }
      if m, dp :| m in ms && dp in m.points {
        assert m in init || m == last;
      }
    }
  }

  lemma ApplicableMeans(mx: Matcher, signal: Subject, check: Check, input: Snapshot)
    ensures !Inapplicable(mx, signal, check, input) <==>
            match signal
            case Logs => exists l :: l in input.logs
            case Traces => (exists s :: s in input.spans) &&
                           (check == PreserveErrorTraces ==> HasErrorSpan(mx, input.spans))
            case Metrics => exists m, dp :: m in input.metrics && dp in m.points
            case Pipeline => true
  {
    hide ErrorKeys, HasErrorSpan, TotalPoints;
    PointsMean(input.metrics);
    ErrorSpanGivesKey(mx, input.spans);
    assert input.logs != [] ==> input.logs[0] in input.logs;
    assert input.spans != [] ==> input.spans[0] in input.spans;
  }

  function Label(i: nat): Attributes
  {
    map["k" := Decimal(i)]
  }

  function Crowd(name: string, n: nat): Metric
  {
    Metric(name, map[], seq(n, i requires 0 <= i < n => Datapoint(Label(i))))
  }

  lemma LabelInjective(i: nat, j: nat)
    requires Label(i) == Label(j)
    ensures i == j
  {
    assert Label(i)["k"] == Decimal(i) && Label(j)["k"] == Decimal(j);
    DecimalInjective(i, j);
  }

  function Indices(n: nat): (s: set<nat>)
    ensures |s| == n && forall i: nat :: i in s <==> i < n
  {
    if n == 0 then {} else Indices(n - 1) + {n - 1}
  }

  lemma CrowdIsLarge(ms: seq<Metric>, name: string, n: nat)
    ensures |SeriesNamed(ms + [Crowd(name, n)], name)| >= n
  {
    hide SeriesKey, Label;
    var indices := Indices(n);
    var f := (i: nat) => SeriesKey(map[], Label(i));
    forall i, j | i in indices && j in indices && f(i) == f(j) ensures i == j {
      SeriesKeyInjective(map[], Label(i), map[], Label(j));
      LabelInjective(i, j);
    }
    ImageSize(indices, f);
    forall k | k in Image(indices, f) ensures k in SeriesNamed(ms + [Crowd(name, n)], name) {
      var i :| i in indices && f(i) == k;
      assert Crowd(name, n).points[i] in Crowd(name, n).points;
      assert Crowd(name, n) in ms + [Crowd(name, n)];
    }
    SubsetSize(Image(indices, f), SeriesNamed(ms + [Crowd(name, n)], name));
  }

  predicate SomeOverLimit(ms: seq<Metric>, limit: nat)
  {
    exists name :: name in Names(ms) && |SeriesNamed(ms, name)| > limit
  }

  /** A series-limit verdict is final exactly when some metric already exceeds the limit. */
  lemma SeriesVerdictFinalIff(before: Snapshot, limit: nat)
    ensures (forall after :: Extends(before, after) ==>
             (SomeOverLimit(after.metrics, limit) <==> SomeOverLimit(before.metrics, limit)))
            <==> SomeOverLimit(before.metrics, limit)
  {
    hide SeriesNamed, Names, Extends, Crowd;
    var crowd := Crowd("", limit + 1);
    ExtendsAppend(before, Snapshot([], [], [crowd]));
    CrowdIsLarge(before.metrics, "", limit + 1);
    CrowdNamed(before.metrics, "", limit + 1);
    var after := Snapshot(before.logs + [], before.spans + [], before.metrics + [crowd]);
    assert Extends(before, after) && SomeOverLimit(after.metrics, limit);
    if SomeOverLimit(before.metrics, limit) {
      var name :| name in Names(before.metrics) && |SeriesNamed(before.metrics, name)| > limit;
      forall after | Extends(before, after) ensures SomeOverLimit(after.metrics, limit) {
        SeriesGrow(before, after, name);
        SubsetSize(SeriesNamed(before.metrics, name), SeriesNamed(after.metrics, name));
      }
    }
  }

  lemma CrowdNamed(ms: seq<Metric>, name: string, n: nat)
    ensures name in Names(ms + [Crowd(name, n)])
  {
    assert Crowd(name, n) in ms + [Crowd(name, n)];
  }

  /** A passed forbidden-data check could still fail exactly when some record could offend at all. */
  lemma ForbiddenPassCanFailIff(mx: Matcher, l: LogsAssertions, t: TracesAssertions, m: MetricsAssertions,
                                before: Snapshot)
    ensures !LogsForbidden(mx, l, before.logs) ==>
              ((exists after :: Extends(before, after) && LogsForbidden(mx, l, after.logs)) <==>
               (exists x :: LogOffends(mx, l, x)))
    ensures !SpansForbidden(mx, t, before.spans) ==>
              ((exists after :: Extends(before, after) && SpansForbidden(mx, t, after.spans)) <==>
               (exists x :: SpanOffends(mx, t, x)))
    ensures !MetricsForbidden(mx, m, before.metrics) ==>
              ((exists after :: Extends(before, after) && MetricsForbidden(mx, m, after.metrics)) <==>
               (exists x :: MetricOffends(mx, m, x)))
  {
    hide LogOffends, SpanOffends, MetricOffends, AllCompile, Extends;
    forall x | LogOffends(mx, l, x) ensures exists after :: Extends(before, after) && LogsForbidden(mx, l, after.logs) {
      ExtendsAppend(before, Snapshot([x], [], []));
      var after := Snapshot(before.logs + [x], before.spans + [], before.metrics + []);
      assert x in after.logs;
    }
    forall x | SpanOffends(mx, t, x)
      ensures exists after :: Extends(before, after) && SpansForbidden(mx, t, after.spans)
    {
      ExtendsAppend(before, Snapshot([], [x], []));
      var after := Snapshot(before.logs + [], before.spans + [x], before.metrics + []);
      assert x in after.spans;
    }
    forall x | MetricOffends(mx, m, x)
      ensures exists after :: Extends(before, after) && MetricsForbidden(mx, m, after.metrics)
    {
      ExtendsAppend(before, Snapshot([], [], [x]));
      var after := Snapshot(before.logs + [], before.spans + [], before.metrics + [x]);
      assert x in after.metrics;
    }
  }

  // ----- capture order and batching -----

  lemma {:induction false} PointSource(ms: seq<Metric>, id: MetricId, dp: Datapoint)
    ensures dp in PointsOf(ms, id) <==> exists m :: m in ms && Id(m) == id && dp in m.points
  {
    if ms != [] {
      var init, last := ms[..|ms| - 1], ms[|ms| - 1];
      assert ms == init + [last];
      PointSource(init, id, dp);
    }
  }

  /** The (resource, datapoint) pairs exported under one metric name. */
  ghost function PairsNamed(ms: seq<Metric>, name: string): multiset<(Attributes, Datapoint)>
  {
    if ms == [] then multiset{} else
    var last := ms[|ms| - 1];
    PairsNamed(ms[..|ms| - 1], name) + if last.name == name then PairsOf(last.resource, last.points) else multiset{}
  }

  ghost function PairsOf(resource: Attributes, points: seq<Datapoint>): multiset<(Attributes, Datapoint)>
  {
    if points == [] then multiset{} else
    PairsOf(resource, points[..|points| - 1]) + multiset{(resource, points[|points| - 1])}
  }

  lemma {:induction false} PairsOfCounts(resource: Attributes, points: seq<Datapoint>, r: Attributes, dp: Datapoint)
    ensures PairsOf(resource, points)[(r, dp)] == if r == resource then multiset(points)[dp] else 0
  {
    if points != [] {
      var init := points[..|points| - 1];
      PairsOfCounts(resource, init, r, dp);
      assert points == init + [points[|points| - 1]];
      assert multiset(points)[dp] == multiset(init)[dp] + multiset{points[|points| - 1]}[dp];
    }
  }

  lemma {:induction false} PairsOfSize(resource: Attributes, points: seq<Datapoint>)
    ensures |PairsOf(resource, points)| == |points|
  {
    if points != [] {
      PairsOfSize(resource, points[..|points| - 1]);
    }
  }

  lemma NoPairs(name: string)
    ensures PairsNamed([], name) == multiset{}
  {
  }

  lemma PairsNamedStep(ms: seq<Metric>, name: string, p: (Attributes, Datapoint))
    requires ms != []
    ensures var init, last := ms[..|ms| - 1], ms[|ms| - 1];
            PairsNamed(ms, name)[p] ==
              PairsNamed(init, name)[p] + (if last.name == name then PairsOf(last.resource, last.points)[p] else 0) &&
            |PairsNamed(ms, name)| ==
              |PairsNamed(init, name)| + (if last.name == name then |PairsOf(last.resource, last.points)| else 0)
  {
  }

  lemma {:induction false} PairsNamedCounts(ms: seq<Metric>, name: string, r: Attributes, dp: Datapoint)
    ensures PairsNamed(ms, name)[(r, dp)] == PointsOf(ms, (name, r))[dp]
    ensures |PairsNamed(ms, name)| == PointCount(ms, name)
  {
    hide PairsNamed, PairsOf;
    if ms == [] {
      NoPairs(name);
    } else {
      var init, last := ms[..|ms| - 1], ms[|ms| - 1];
      PairsNamedCounts(init, name, r, dp);
      PairsOfCounts(last.resource, last.points, r, dp);
      PairsOfSize(last.resource, last.points);
      PairsNamedStep(ms, name, (r, dp));
      assert PointsOf(ms, (name, r))[dp] == PointsOf(init, (name, r))[dp] + Share(last, (name, r))[dp];
    }
  }

  lemma SamePoints(a: seq<Metric>, b: seq<Metric>, id: MetricId)
    requires MetricsView(a) == MetricsView(b)
    ensures PointsOf(a, id) == PointsOf(b, id)
    ensures id in Ids(a) <==> id in Ids(b)
  {
    hide PointsOf, Ids;
    assert id in Ids(a) <==> id in MetricsView(a);
    assert id in Ids(b) <==> id in MetricsView(b);
    if id in Ids(a) {
      assert MetricsView(a)[id] == MetricsView(b)[id];
    } else {
      NoPointsElsewhere(a, id);
      NoPointsElsewhere(b, id);
    }
  }

  lemma SamePointCount(a: seq<Metric>, b: seq<Metric>, name: string)
    requires MetricsView(a) == MetricsView(b)
    ensures PointCount(a, name) == PointCount(b, name)
  {
    hide PointsOf, PointCount, PairsNamed, MetricsView;
    forall p ensures PairsNamed(a, name)[p] == PairsNamed(b, name)[p] {
      PairsNamedCounts(a, name, p.0, p.1);
      PairsNamedCounts(b, name, p.0, p.1);
      SamePoints(a, b, (name, p.0));
    }
    assert PairsNamed(a, name) == PairsNamed(b, name);
    PairsNamedCounts(a, name, map[], Datapoint(map[]));
    PairsNamedCounts(b, name, map[], Datapoint(map[]));
  }

  /** Every datapoint of one capture has a counterpart in the other, in a record with the same id. */
  lemma SamePointSource(a: seq<Metric>, b: seq<Metric>, m: Metric, dp: Datapoint) returns (m': Metric)
    requires MetricsView(a) == MetricsView(b) && m in a && dp in m.points
    ensures m' in b && Id(m') == Id(m) && dp in m'.points
  {
    hide PointsOf, MetricsView;
    PointSource(a, Id(m), dp);
    PointSource(b, Id(m), dp);
    SamePoints(a, b, Id(m));
    m' :| m' in b && Id(m') == Id(m) && dp in m'.points;
  }

  lemma SameId(a: seq<Metric>, b: seq<Metric>, m: Metric) returns (m': Metric)
    requires MetricsView(a) == MetricsView(b) && m in a
    ensures m' in b && Id(m') == Id(m)
  {
    SamePoints(a, b, Id(m));
    m' :| m' in b && Id(m') == Id(m);
  }

  lemma SeriesNamedWithin(a: seq<Metric>, b: seq<Metric>, name: string)
    requires MetricsView(a) == MetricsView(b)
    ensures SeriesNamed(a, name) <= SeriesNamed(b, name) && Names(a) <= Names(b)
  {
    hide SeriesKey, MetricsView;
    forall k | k in SeriesNamed(a, name) ensures k in SeriesNamed(b, name) {
      var m, dp :| m in a && m.name == name && dp in m.points && k == SeriesKey(m.resource, dp.labels);
      var m' := SamePointSource(a, b, m, dp);
    }
    forall n | n in Names(a) ensures n in Names(b) {
      var m :| m in a && m.name == n;
      var m' := SameId(a, b, m);
    }
  }

  lemma {:induction false} SameViolations(a: seq<Metric>, b: seq<Metric>, limit: nat, names: seq<string>)
    requires MetricsView(a) == MetricsView(b)
    ensures Violations(a, limit, names) == Violations(b, limit, names)
  {
    hide SeriesNamed, PointCount, MetricsView;
    if names != [] {
      var name := names[|names| - 1];
      SameViolations(a, b, limit, names[..|names| - 1]);
      SeriesNamedWithin(a, b, name);
      SeriesNamedWithin(b, a, name);
      SamePointCount(a, b, name);
      assert SeriesNamed(a, name) == SeriesNamed(b, name);
    }
  }

  /** Series counts, datapoint counts and the order of violations do not depend on batching. */
  lemma SeriesIgnoreBatching(a: seq<Metric>, b: seq<Metric>, limit: nat)
    requires MetricsView(a) == MetricsView(b)
    ensures MaxSeriesJudgements(a, limit) == MaxSeriesJudgements(b, limit)
  {
    hide Names, SeriesNamed, MetricsView, Violations, SortedSet;
    SeriesNamedWithin(a, b, "");
    SeriesNamedWithin(b, a, "");
    assert Names(a) == Names(b);
    SameViolations(a, b, limit, SortedSet(Names(a)));
  }

  lemma OffendersIgnoreBatching(mx: Matcher, x: MetricsAssertions, a: seq<Metric>, b: seq<Metric>)
    requires MetricsView(a) == MetricsView(b)
    ensures MetricsForbidden(mx, x, a) ==> MetricsForbidden(mx, x, b)
  {
    hide LabelsOffend, AllCompile, MetricsView;
    forall m | m in a && MetricOffends(mx, x, m) ensures exists m' :: m' in b && MetricOffends(mx, x, m') {
      if LabelsOffend(mx, x, m.resource) {
        var m' := SameId(a, b, m);
        assert MetricOffends(mx, x, m');
      } else {
        var dp :| dp in m.points && LabelsOffend(mx, x, dp.labels);
        var m' := SamePointSource(a, b, m, dp);
        assert MetricOffends(mx, x, m');
      }
    }
  }

  /** The verdict depends only on which resources occur. */
  lemma RequiredIgnoresOrder(signal: Subject, required: seq<string>, a: seq<Attributes>, b: seq<Attributes>)
    requires forall r :: r in a <==> r in b
    ensures RequiredJudgements(signal, required, a) == RequiredJudgements(signal, required, b)
  {
    hide Lacks;
    assert a != [] ==> a[0] in b;
    assert b != [] ==> b[0] in a;
  }

  lemma ResourcesWithin(a: Snapshot, b: Snapshot, signal: Subject, r: Attributes)
    requires ViewOf(a) == ViewOf(b) && r in Resources(signal, a)
    ensures r in Resources(signal, b)
  {
    hide MetricsView;
    var ra, rb := Resources(signal, a), Resources(signal, b);
    var i :| 0 <= i < |ra| && ra[i] == r;
    match signal {
      case Logs =>
        assert a.logs[i] in multiset(b.logs);
        var k :| 0 <= k < |b.logs| && b.logs[k] == a.logs[i];
        assert rb[k] == r;
      case Traces =>
        assert a.spans[i] in multiset(b.spans);
        var k :| 0 <= k < |b.spans| && b.spans[k] == a.spans[i];
        assert rb[k] == r;
      case Metrics =>
        var m' := SameId(a.metrics, b.metrics, a.metrics[i]);
        var k :| 0 <= k < |b.metrics| && b.metrics[k] == m';
        assert rb[k] == r;
    }
  }

  lemma RequiredIgnoresBatching(a: Snapshot, b: Snapshot, signal: Subject, required: seq<string>)
    requires ViewOf(a) == ViewOf(b)
    ensures RequiredJudgements(signal, required, Resources(signal, a)) ==
            RequiredJudgements(signal, required, Resources(signal, b))
  {
    hide Resources, ViewOf, RequiredJudgements;
    forall r ensures r in Resources(signal, a) <==> r in Resources(signal, b) {
      if r in Resources(signal, a) {
        ResourcesWithin(a, b, signal, r);
      }
      if r in Resources(signal, b) {
        ResourcesWithin(b, a, signal, r);
      }
    }
    RequiredIgnoresOrder(signal, required, Resources(signal, a), Resources(signal, b));
  }

  lemma SameMembers(a: Snapshot, b: Snapshot)
    requires ViewOf(a) == ViewOf(b)
    ensures forall l :: l in a.logs <==> l in b.logs
    ensures forall s :: s in a.spans <==> s in b.spans
    ensures |a.logs| == |b.logs| && |a.spans| == |b.spans|
    ensures MetricsView(a.metrics) == MetricsView(b.metrics)
  {
    hide MetricsView;
    assert forall l :: l in a.logs <==> l in multiset(a.logs);
    assert forall l :: l in b.logs <==> l in multiset(b.logs);
    assert forall s :: s in a.spans <==> s in multiset(a.spans);
    assert forall s :: s in b.spans <==> s in multiset(b.spans);
    assert |multiset(a.logs)| == |multiset(b.logs)| && |multiset(a.spans)| == |multiset(b.spans)|;
  }

  lemma SameErrorKeys(mx: Matcher, a: Snapshot, b: Snapshot)
    requires ViewOf(a) == ViewOf(b)
    ensures ErrorKeys(mx, a.spans) == ErrorKeys(mx, b.spans)
  {
    hide ViewOf, ErrorKeys;
    SameMembers(a, b);
    ErrorKeysGrow(mx, a.spans, b.spans);
    ErrorKeysGrow(mx, b.spans, a.spans);
  }

  lemma {:induction false} SamePreserve(mx: Matcher, exprs: seq<string>, in1: Snapshot, in2: Snapshot, out1: Snapshot,
                                        out2: Snapshot)
    requires PreserveJudgement(mx, in1, out1) == PreserveJudgement(mx, in2, out2)
    ensures PreserveJudgements(mx, exprs, in1, out1) == PreserveJudgements(mx, exprs, in2, out2)
  {
    hide PreserveJudgement, PreservesErrors;
    if exprs != [] {
      SamePreserve(mx, exprs[..|exprs| - 1], in1, in2, out1, out2);
    }
  }

  lemma LogsIgnoreBatching(mx: Matcher, a: LogsAssertions, out1: Snapshot, out2: Snapshot)
    requires ViewOf(out1) == ViewOf(out2)
    ensures LogJudgements(mx, a, out1) == LogJudgements(mx, a, out2)
  {
    hide ViewOf, LogOffends, AllCompile, RequiredJudgements, LogResources;
    SameMembers(out1, out2);
    assert LogsForbidden(mx, a, out1.logs) <==> LogsForbidden(mx, a, out2.logs);
    RequiredIgnoresBatching(out1, out2, Logs, a.requiredResourceAttributes);
  }

  lemma TracesIgnoreBatching(mx: Matcher, a: TracesAssertions, in1: Snapshot, in2: Snapshot, out1: Snapshot,
                             out2: Snapshot)
    requires ViewOf(in1) == ViewOf(in2) && ViewOf(out1) == ViewOf(out2)
    ensures TraceJudgements(mx, a, in1, out1) == TraceJudgements(mx, a, in2, out2)
  {
    hide ViewOf, SpanOffends, AllCompile, RequiredJudgements, SpanResources, ErrorKeys;
    SameMembers(out1, out2);
    assert SpansForbidden(mx, a, out1.spans) <==> SpansForbidden(mx, a, out2.spans);
    SameErrorKeys(mx, in1, in2);
    SameErrorKeys(mx, out1, out2);
    SamePreserve(mx, a.preserve, in1, in2, out1, out2);
    RequiredIgnoresBatching(out1, out2, Traces, a.requiredResourceAttributes);
  }

  lemma MetricsIgnoreBatching(mx: Matcher, a: MetricsAssertions, out1: Snapshot, out2: Snapshot)
    requires ViewOf(out1) == ViewOf(out2)
    ensures MetricJudgements(mx, a, out1) == MetricJudgements(mx, a, out2)
  {
    hide ViewOf, MetricsView, MetricsForbidden, RequiredJudgements, MetricResources, MaxSeriesJudgements;
    SameMembers(out1, out2);
    OffendersIgnoreBatching(mx, a, out1.metrics, out2.metrics);
    OffendersIgnoreBatching(mx, a, out2.metrics, out1.metrics);
    if a.maxSeriesPerMetric > 0 {
      SeriesIgnoreBatching(out1.metrics, out2.metrics, a.maxSeriesPerMetric);
    }
    RequiredIgnoresBatching(out1, out2, Metrics, a.requiredResourceAttributes);
  }

  lemma {:induction false} NoPointsAnywhere(ms: seq<Metric>)
    ensures TotalPoints(ms) == 0 <==> forall m :: m in ms ==> m.points == []
  {
    if ms != [] {
      var init, last := ms[..|ms| - 1], ms[|ms| - 1];
      assert ms == init + [last];
      NoPointsAnywhere(init);
    }
  }

  lemma PointsIgnoreBatching(a: seq<Metric>, b: seq<Metric>)
    requires MetricsView(a) == MetricsView(b)
    ensures TotalPoints(a) == 0 ==> TotalPoints(b) == 0
  {
    hide MetricsView, TotalPoints;
    NoPointsAnywhere(a);
    NoPointsAnywhere(b);
    if TotalPoints(b) != 0 {
      var m :| m in b && m.points != [];
      var m' := SamePointSource(b, a, m, m.points[0]);
    }
  }

  lemma ReasonIgnoresBatching(mx: Matcher, j: Judgement, in1: Snapshot, in2: Snapshot, o: Options)
    requires ViewOf(in1) == ViewOf(in2)
    ensures Weigh(mx, j, in1, o) == Weigh(mx, j, in2, o)
  {
    hide ViewOf, MetricsView, ErrorKeys, TotalPoints, JoinReasons;
    SameMembers(in1, in2);
    SameErrorKeys(mx, in1, in2);
    PointsIgnoreBatching(in1.metrics, in2.metrics);
    PointsIgnoreBatching(in2.metrics, in1.metrics);
  }

  lemma JudgementsIgnoreBatching(mx: Matcher, p: Policy, in1: Snapshot, in2: Snapshot, out1: Snapshot, out2: Snapshot)
    requires ViewOf(in1) == ViewOf(in2) && ViewOf(out1) == ViewOf(out2)
    ensures Judgements(mx, p, in1, out1) == Judgements(mx, p, in2, out2)
  {
    hide ViewOf, LogJudgements, TraceJudgements, MetricJudgements;
    if p.logs.Some? {
      LogsIgnoreBatching(mx, p.logs.value, out1, out2);
    }
    if p.traces.Some? {
      TracesIgnoreBatching(mx, p.traces.value, in1, in2, out1, out2);
    }
    if p.metrics.Some? {
      MetricsIgnoreBatching(mx, p.metrics.value, out1, out2);
    }
  }

  /** Verdicts, including series and datapoint counts, do not depend on how requests were ordered or batched. */
  lemma EvaluationIgnoresBatching(mx: Matcher, p: Policy, in1: Snapshot, in2: Snapshot, out1: Snapshot, out2: Snapshot,
                                  warnings: nat, o: Options)
    requires ViewOf(in1) == ViewOf(in2) && ViewOf(out1) == ViewOf(out2)
    ensures Evaluation(mx, p, in1, out1, warnings, o) == Evaluation(mx, p, in2, out2, warnings, o)
  {
    hide ViewOf, Judgements, Weigh;
    JudgementsIgnoreBatching(mx, p, in1, in2, out1, out2);
    var js := Judgements(mx, p, in1, out1);
    forall i | 0 <= i < |js| ensures Weigh(mx, js[i], in1, o) == Weigh(mx, js[i], in2, o) {
      ReasonIgnoresBatching(mx, js[i], in1, in2, o);
    }
    assert Weighed(mx, js, in1, o) == Weighed(mx, js, in2, o);
  }
}
