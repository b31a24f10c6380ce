/** What simulating a configuration can do to verdicts (internal/runner/runner.go:274-325 against
    internal/evaluator/evaluator.go:210-282). */
module FixtureVerdicts {
  import opened Strings
  import opened Json
  import opened Telemetry
  import opened Policy
  import opened Matches
  import opened Report
  import opened Evaluator
  import opened FixtureRunner

  /** Keys deleted from logs, spans and metrics, and whether debug logs were dropped. */
  datatype Reduction = Reduction(logKeys: set<string>, spanKeys: set<string>, metricKeys: set<string>, dropDebug: bool)

  ghost function Reduced(mx: Matcher, s: Snapshot, d: Reduction): Snapshot
  {
    var logs := LogsWithout(s.logs, d.logKeys);
    Snapshot(if d.dropDebug then WithoutDebug(mx, logs) else logs, SpansWithout(s.spans, d.spanKeys),
             MetricsWithout(s.metrics, d.metricKeys))
  }

  function Both(d: Reduction, e: Reduction): Reduction
  {
    Reduction(d.logKeys + e.logKeys, d.spanKeys + e.spanKeys, d.metricKeys + e.metricKeys, d.dropDebug || e.dropDebug)
  }

  lemma ReducedTwice(mx: Matcher, s: Snapshot, d: Reduction, e: Reduction)
    ensures Reduced(mx, Reduced(mx, s, d), e) == Reduced(mx, s, Both(d, e))
  {
    hide LogsWithout, SpansWithout, MetricsWithout, WithoutDebug;
    var logs := LogsWithout(s.logs, d.logKeys);
    DeletedTwice(s, "logs", d.logKeys, e.logKeys);
    DeletedTwice(s, "traces", d.spanKeys, e.spanKeys);
    DeletedTwice(s, "metrics", d.metricKeys, e.metricKeys);
    FilterCommutes(mx, logs, e.logKeys);
    FilterTwice(mx, LogsWithout(logs, e.logKeys));
  }

  // ----- what a configuration takes away -----

  /** The part of a set of keys that concerns one signal. */
  function KeysIf(condition: bool, keys: set<string>): set<string>
  {
    if condition then keys else {}
  }

  /** What the processors of one signal take away. */
  ghost function ReductionOf(cfg: Config, signal: string, names: seq<string>): Reduction
  {
    var keys := AllKeys(cfg, names);
    Reduction(KeysIf(signal == "logs", keys), KeysIf(signal == "traces", keys), KeysIf(signal == "metrics", keys),
              AnyDropsDebug(cfg, signal, names))
  }

  lemma ClosedOutputReduces(mx: Matcher, cfg: Config, signal: string, names: seq<string>, s: Snapshot)
    ensures ClosedOutput(mx, cfg, signal, names, s) == Reduced(mx, s, ReductionOf(cfg, signal, names))
  {
    hide LogsWithout, SpansWithout, MetricsWithout, WithoutDebug, AllKeys;
    DeletedNothing(s, "logs");
    DeletedNothing(s, "traces");
    DeletedNothing(s, "metrics");
    if AnyDropsDebug(cfg, signal, names) {
      OnlyLogsDrop(cfg, signal, names);
    }
    hide AnyDropsDebug;
  }

  /** The merged processors of a signal. */
  ghost function NamesFor(used: map<string, seq<string>>, signal: string): seq<string>
  {
    if signal in used then used[signal] else []
  }

  /** What the processors of the visited signals take away together. */
  ghost function ReductionFor(cfg: Config, used: map<string, seq<string>>, signals: seq<string>): Reduction
  {
    Reduction(KeysIf("logs" in signals, AllKeys(cfg, NamesFor(used, "logs"))),
              KeysIf("traces" in signals, AllKeys(cfg, NamesFor(used, "traces"))),
              KeysIf("metrics" in signals, AllKeys(cfg, NamesFor(used, "metrics"))),
              "logs" in signals && AnyDropsDebug(cfg, "logs", NamesFor(used, "logs")))
  }

  lemma ReductionGrows(cfg: Config, used: map<string, seq<string>>, init: seq<string>, last: string)
    requires last in used
    ensures ReductionFor(cfg, used, init + [last]) ==
            Both(ReductionFor(cfg, used, init), ReductionOf(cfg, last, used[last]))
  {
    hide AllKeys;
    if AnyDropsDebug(cfg, last, used[last]) {
      OnlyLogsDrop(cfg, last, used[last]);
    }
    hide AnyDropsDebug;
    assert forall x :: x in init + [last] <==> x in init || x == last;
  }

  lemma {:induction false} SignalsReduce(mx: Matcher, cfg: Config, used: map<string, seq<string>>,
                                         signals: seq<string>, r: Result)
    requires forall x :: x in signals ==> x in used
    ensures AllSignals(mx, cfg, used, signals, r).output == Reduced(mx, r.output, ReductionFor(cfg, used, signals))
  {
    hide Reduced, ClosedOutput, ClosedWarnings, Covered, Steps, ReductionFor, ReductionOf;
    if signals == [] {
      ReducedByNothing(mx, cfg, used, r.output);
    } else {
      var init, last := signals[..|signals| - 1], signals[|signals| - 1];
      assert signals == init + [last];
      var mid := SignalStart(last, AllSignals(mx, cfg, used, init, r));
      SignalsReduce(mx, cfg, used, init, r);
      StepsReachClosedForm(mx, cfg, last, used[last], mid);
      ClosedOutputReduces(mx, cfg, last, used[last], mid.output);
      ReducedTwice(mx, r.output, ReductionFor(cfg, used, init), ReductionOf(cfg, last, used[last]));
      ReductionGrows(cfg, used, init, last);
    }
  }

  lemma ReducedByNothing(mx: Matcher, cfg: Config, used: map<string, seq<string>>, s: Snapshot)
    ensures Reduced(mx, s, ReductionFor(cfg, used, [])) == s
  {
    hide LogsWithout, SpansWithout, MetricsWithout, WithoutDebug, AllKeys, AnyDropsDebug;
    DeletedNothing(s, "logs");
    DeletedNothing(s, "traces");
    DeletedNothing(s, "metrics");
  }

  /** What a configuration takes away: for each signal the keys its merged processors delete, and debug logs if some
      merged log filter qualifies. */
  ghost function Removal(cfg: Config): Reduction
  {
    var used := CanonicalMerge(cfg);
    Reduction(AllKeys(cfg, NamesFor(used, "logs")), AllKeys(cfg, NamesFor(used, "traces")),
              AllKeys(cfg, NamesFor(used, "metrics")), AnyDropsDebug(cfg, "logs", NamesFor(used, "logs")))
  }

  lemma RemovalIsComplete(cfg: Config, signals: seq<string>)
    requires forall x :: x in signals <==> x in CanonicalMerge(cfg)
    ensures ReductionFor(cfg, CanonicalMerge(cfg), signals) == Removal(cfg)
  {
    hide KeysOf, DropsDebug, CanonicalMerge;
    assert AllKeys(cfg, []) == {} && !AnyDropsDebug(cfg, "logs", []);
  }

  /** The output of the whole simulation in closed form. */
  lemma SimulationReduces(mx: Matcher, cfg: Config, input: Snapshot)
    ensures Simulation(mx, cfg, input).output == Reduced(mx, input, Removal(cfg))
  {
    hide Reduced, AllSignals, OrderedSignals, CanonicalMerge, Removal, ReductionFor;
    var signals := OrderedSignals(CanonicalMerge(cfg).Keys);
    OrderedSignalsMembers(CanonicalMerge(cfg).Keys);
    SignalsReduce(mx, cfg, CanonicalMerge(cfg), signals, Result(input, [], [], []));
    RemovalIsComplete(cfg, signals);
  }

  // ----- fewer keys offend less -----

  lemma WithoutOffendsLess(mx: Matcher, m: Attributes, keys: set<string>, forbidden: seq<string>,
                           patterns: seq<string>, ci: bool)
    ensures AttributesOffend(mx, Without(m, keys), forbidden, patterns, ci) ==>
              AttributesOffend(mx, m, forbidden, patterns, ci)
  {
    hide MatchKey, TextOffends;
  }

  lemma ReducedLogsOffendLess(mx: Matcher, a: LogsAssertions, s: Snapshot, d: Reduction)
    ensures LogsForbidden(mx, a, Reduced(mx, s, d).logs) ==> LogsForbidden(mx, a, s.logs)
  {
    hide AttributesOffend, TextOffends, AllCompile, Without, WithoutDebug, SpansWithout, MetricsWithout;
    forall l | l in Reduced(mx, s, d).logs && LogOffends(mx, a, l)
      ensures exists x :: x in s.logs && LogOffends(mx, a, x)
    {
      assert l in LogsWithout(s.logs, d.logKeys);
      var i :| 0 <= i < |s.logs| && l == LogWithout(s.logs[i], d.logKeys);
      WithoutOffendsLess(mx, s.logs[i].resource, d.logKeys, a.forbiddenAttributes, a.forbiddenValuePatterns,
                         a.caseInsensitive);
      WithoutOffendsLess(mx, s.logs[i].attributes, d.logKeys, a.forbiddenAttributes, a.forbiddenValuePatterns,
                         a.caseInsensitive);
      assert LogOffends(mx, a, s.logs[i]);
    }
  }

  lemma ReducedSpansOffendLess(mx: Matcher, a: TracesAssertions, s: Snapshot, d: Reduction)
    ensures SpansForbidden(mx, a, Reduced(mx, s, d).spans) ==> SpansForbidden(mx, a, s.spans)
  {
    hide AttributesOffend, TextOffends, AllCompile, Without, WithoutDebug, LogsWithout, MetricsWithout;
    forall x | x in Reduced(mx, s, d).spans && SpanOffends(mx, a, x)
      ensures exists y :: y in s.spans && SpanOffends(mx, a, y)
    {
      var i :| 0 <= i < |s.spans| && x == SpanWithout(s.spans[i], d.spanKeys);
      WithoutOffendsLess(mx, s.spans[i].resource, d.spanKeys, a.forbiddenAttributes, a.forbiddenValuePatterns,
                         a.caseInsensitive);
      WithoutOffendsLess(mx, s.spans[i].attributes, d.spanKeys, a.forbiddenAttributes, a.forbiddenValuePatterns,
                         a.caseInsensitive);
      assert SpanOffends(mx, a, s.spans[i]);
    }
  }

  lemma ReducedMetricOffendsLess(mx: Matcher, a: MetricsAssertions, m: Metric, keys: set<string>)
    ensures MetricOffends(mx, a, MetricWithout(m, keys)) ==> MetricOffends(mx, a, m)
  {
    hide AttributesOffend, Without;
    WithoutOffendsLess(mx, m.resource, keys, a.forbiddenLabels, a.forbiddenLabelValuePatterns, a.caseInsensitive);
    var w := MetricWithout(m, keys);
    forall dp | dp in w.points && LabelsOffend(mx, a, dp.labels) ensures MetricOffends(mx, a, m) {
      var i :| 0 <= i < |m.points| && dp == PointWithout(m.points[i], keys);
      WithoutOffendsLess(mx, m.points[i].labels, keys, a.forbiddenLabels, a.forbiddenLabelValuePatterns,
                         a.caseInsensitive);
      assert m.points[i] in m.points;
    }
  }

  lemma ReducedMetricsOffendLess(mx: Matcher, a: MetricsAssertions, s: Snapshot, d: Reduction)
    ensures MetricsForbidden(mx, a, Reduced(mx, s, d).metrics) ==> MetricsForbidden(mx, a, s.metrics)
  {
    hide MetricOffends, AllCompile, MetricWithout, WithoutDebug, LogsWithout, SpansWithout;
    forall x | x in Reduced(mx, s, d).metrics && MetricOffends(mx, a, x)
      ensures exists y :: y in s.metrics && MetricOffends(mx, a, y)
    {
      var i :| 0 <= i < |s.metrics| && x == MetricWithout(s.metrics[i], d.metricKeys);
      ReducedMetricOffendsLess(mx, a, s.metrics[i], d.metricKeys);
      assert s.metrics[i] in s.metrics;
    }
  }

  // ----- deleting labels merges series, never splits them -----

  lemma ReducedTriples(ms: seq<Metric>, keys: set<string>, name: string, t: (string, Attributes, Attributes))
    requires t in TriplesNamed(MetricsWithout(ms, keys), name)
    ensures exists u :: u in TriplesNamed(ms, name) && t == (u.0, Without(u.1, keys), Without(u.2, keys))
  {
    hide Without;
    var rs := MetricsWithout(ms, keys);
    var m, dp :| m in rs && dp in m.points && t == (m.name, m.resource, dp.labels);
    var i :| 0 <= i < |ms| && m == MetricWithout(ms[i], keys);
    var k :| 0 <= k < |ms[i].points| && dp == PointWithout(ms[i].points[k], keys);
    assert ms[i] in ms && ms[i].points[k] in ms[i].points;
    assert (ms[i].name, ms[i].resource, ms[i].points[k].labels) in TriplesNamed(ms, name);
  }

  lemma SeriesNeverGrow(ms: seq<Metric>, keys: set<string>, name: string)
    ensures |SeriesNamed(MetricsWithout(ms, keys), name)| <= |SeriesNamed(ms, name)|
  {
    hide Without, TriplesNamed, SeriesNamed, MetricsWithout;
    var f := (u: (string, Attributes, Attributes)) => (u.0, Without(u.1, keys), Without(u.2, keys));
    var before, after := TriplesNamed(ms, name), TriplesNamed(MetricsWithout(ms, keys), name);
    forall t | t in after ensures t in Image(before, f) {
      ReducedTriples(ms, keys, name, t);
    }
    ImageNoLarger(before, f);
    SubsetSize(after, Image(before, f));
    SeriesNamedCount(ms, name);
    SeriesNamedCount(MetricsWithout(ms, keys), name);
  }

  lemma SpansKeepIdentity(mx: Matcher, ss: seq<Span>, keys: set<string>)
    ensures ErrorKeys(mx, SpansWithout(ss, keys)) == ErrorKeys(mx, ss)
  {
    hide Without;
    var rs := SpansWithout(ss, keys);
    forall k | k in ErrorKeys(mx, ss) ensures k in ErrorKeys(mx, rs) {
      var s :| s in ss && IsError(mx, s) && SpanKey(s) == k;
      var i :| 0 <= i < |ss| && ss[i] == s;
      assert rs[i] in rs;
    }
    forall k | k in ErrorKeys(mx, rs) ensures k in ErrorKeys(mx, ss) {
      var s :| s in rs && IsError(mx, s) && SpanKey(s) == k;
      var i :| 0 <= i < |rs| && rs[i] == s;
      assert ss[i] in ss;
    }
  }

  /** For every configuration the fixture runner can only improve these verdicts: forbidden data that passes on
      the input passes on the output, no metric name gains series, and error spans are always preserved. */
  lemma SimulationNeverWorsens(mx: Matcher, cfg: Config, input: Snapshot, l: LogsAssertions, t: TracesAssertions,
                               m: MetricsAssertions,
                               name: string)
    ensures var output := Simulation(mx, cfg, input).output;
            (LogsForbidden(mx, l, output.logs) ==> LogsForbidden(mx, l, input.logs)) &&
            (SpansForbidden(mx, t, output.spans) ==> SpansForbidden(mx, t, input.spans)) &&
            (MetricsForbidden(mx, m, output.metrics) ==> MetricsForbidden(mx, m, input.metrics)) &&
            |SeriesNamed(output.metrics, name)| <= |SeriesNamed(input.metrics, name)| &&
            PreserveJudgement(mx, input, output).status == Pass
  {
    hide Simulation, Removal, LogsForbidden, SpansForbidden, MetricsForbidden, SeriesNamed, ErrorKeys, LogsWithout,
      SpansWithout, MetricsWithout, WithoutDebug;
    SimulationReduces(mx, cfg, input);
    var d := Removal(cfg);
    ReducedLogsOffendLess(mx, l, input, d);
    ReducedSpansOffendLess(mx, t, input, d);
    ReducedMetricsOffendLess(mx, m, input, d);
    SeriesNeverGrow(input.metrics, d.metricKeys, name);
    SpansKeepIdentity(mx, input.spans, d.spanKeys);
  }

  // ----- required attributes -----

  /** Some required key is deleted. */
  predicate Takes(required: seq<string>, keys: set<string>)
  {
    exists q :: q in required && q in keys
  }

  /** Deleting keys fails a passing check exactly when a required one is among them. */
  lemma DeletionFailsIff(required: seq<string>, before: seq<Attributes>, after: seq<Attributes>, keys: set<string>)
    requires !RequiredFails(required, before)
    requires forall r :: r in after ==> exists b :: b in before && r == Without(b, keys)
    ensures RequiredFails(required, after) <==> after == [] || Takes(required, keys)
  {
    if after != [] && !Takes(required, keys) {
      forall r | r in after ensures !Lacks(r, required) {
        var b :| b in before && r == Without(b, keys);
        assert !Lacks(b, required);
      }
    }
    if after != [] && Takes(required, keys) {
      var q :| q in required && q in keys;
      assert after[0] in after;
      var b :| b in before && after[0] == Without(b, keys);
      assert q !in after[0];
    }
  }

  ghost predicate AllDebug(mx: Matcher, logs: seq<LogRecord>)
  {
    forall l :: l in logs ==> IsDebug(mx, l)
  }

  lemma {:induction false} NothingLeftIff(mx: Matcher, logs: seq<LogRecord>)
    ensures WithoutDebug(mx, logs) == [] <==> AllDebug(mx, logs)
  {
    hide IsDebug;
    if logs != [] {
      var init, last := logs[..|logs| - 1], logs[|logs| - 1];
      assert logs == init + [last];
      NothingLeftIff(mx, init);
    }
  }

  lemma ReducedLogResources(mx: Matcher, s: Snapshot, d: Reduction)
    ensures forall r :: r in LogResources(Reduced(mx, s, d).logs) ==>
              exists b :: b in LogResources(s.logs) && r == Without(b, d.logKeys)
  {
    hide Without, WithoutDebug, SpansWithout, MetricsWithout;
    var logs := Reduced(mx, s, d).logs;
    forall r | r in LogResources(logs) ensures exists b :: b in LogResources(s.logs) && r == Without(b, d.logKeys) {
      var i :| 0 <= i < |logs| && r == logs[i].resource;
      assert logs[i] in LogsWithout(s.logs, d.logKeys);
      var k :| 0 <= k < |s.logs| && logs[i] == LogWithout(s.logs[k], d.logKeys);
      assert LogResources(s.logs)[k] == s.logs[k].resource;
    }
  }

  /** A required-attribute check on logs that passes on the input fails on the simulated output exactly when the merged
      log processors delete a required key, or a filter drops debug logs and there are no others. */
  lemma RequiredLogsFailIff(mx: Matcher, cfg: Config, input: Snapshot, required: seq<string>)
    requires !RequiredFails(required, LogResources(input.logs))
    ensures RequiredFails(required, LogResources(Simulation(mx, cfg, input).output.logs)) <==>
            Takes(required, Removal(cfg).logKeys) || (Removal(cfg).dropDebug && AllDebug(mx, input.logs))
  {
    hide Simulation, Removal, RequiredFails, Takes, AllDebug, Without, WithoutDebug, SpansWithout, MetricsWithout;
    var d := Removal(cfg);
    SimulationReduces(mx, cfg, input);
    ReducedLogResources(mx, input, d);
    DeletionFailsIff(required, LogResources(input.logs), LogResources(Reduced(mx, input, d).logs), d.logKeys);
    FilterCommutes(mx, input.logs, d.logKeys);
    NothingLeftIff(mx, input.logs);
    PassHasRecords(required, LogResources(input.logs));
  }

  lemma PassHasRecords(required: seq<string>, records: seq<Attributes>)
    requires !RequiredFails(required, records)
    ensures records != []
  {
  }

  /** For spans exactly when the merged trace processors delete a required key. */
  lemma RequiredSpansFailIff(mx: Matcher, cfg: Config, input: Snapshot, required: seq<string>)
    requires !RequiredFails(required, SpanResources(input.spans))
    ensures RequiredFails(required, SpanResources(Simulation(mx, cfg, input).output.spans)) <==>
            Takes(required, Removal(cfg).spanKeys)
  {
    hide Simulation, Removal, RequiredFails, Takes, Without, WithoutDebug, LogsWithout, MetricsWithout;
    var d := Removal(cfg);
    SimulationReduces(mx, cfg, input);
    var before, after := SpanResources(input.spans), SpanResources(Reduced(mx, input, d).spans);
    forall r | r in after ensures exists b :: b in before && r == Without(b, d.spanKeys) {
      var i :| 0 <= i < |after| && r == after[i];
      assert before[i] in before;
    }
    DeletionFailsIff(required, before, after, d.spanKeys);
    PassHasRecords(required, before);
  }

  /** For metrics exactly when the merged metric processors delete a required key. */
  lemma RequiredMetricsFailIff(mx: Matcher, cfg: Config, input: Snapshot, required: seq<string>)
    requires !RequiredFails(required, MetricResources(input.metrics))
    ensures RequiredFails(required, MetricResources(Simulation(mx, cfg, input).output.metrics)) <==>
            Takes(required, Removal(cfg).metricKeys)
  {
    hide Simulation, Removal, RequiredFails, Takes, Without, WithoutDebug, LogsWithout, SpansWithout;
    var d := Removal(cfg);
    SimulationReduces(mx, cfg, input);
    var before, after := MetricResources(input.metrics), MetricResources(Reduced(mx, input, d).metrics);
    forall r | r in after ensures exists b :: b in before && r == Without(b, d.metricKeys) {
      var i :| 0 <= i < |after| && r == after[i];
      assert before[i] in before;
    }
    DeletionFailsIff(required, before, after, d.metricKeys);
    PassHasRecords(required, before);
  }

  lemma {:induction false} BeforeNothing(s: string, sep: char)
    requires sep !in s
    ensures Before(s, sep) == s
  {
    if s != [] {
      BeforeNothing(s[1..], sep);
      assert s == [s[0]] + s[1..];
    }
  }

  lemma OnePipeline(cfg: Config, name: string)
    requires cfg.pipelines.Keys == {name} && '/' !in name
    ensures NamesFor(CanonicalMerge(cfg), name) == cfg.pipelines[name]
  {
    BeforeNothing(name, '/');
    var names := SortedSet({name});
    assert |names| == 1 && names[0] in names;
    assert names == [name];
    assert name in PipelineSignals(cfg);
    assert MergedFor(cfg, [], name) == [] && [name][..0] == [];
  }

  function DeleteServiceName(): Processor
  {
    map["actions" := List([Obj(map["action" := Str("delete"), "key" := Str("service.name")])])]
  }

  function DropDebug(): Processor
  {
    map["logs" := Obj(map["include" := Obj(map["match_type" := Str("regexp"), "expressions" := List([Str("debug")])])])]
  }

  function OneProcessor(name: string, p: Processor): Config
  {
    Config(map[name := p], map["logs" := [name]])
  }

  /** Both ways of failing occur: a configuration that deletes the required key, and one whose filter drops every
      log. */
  lemma RequiredCanWorsen(mx: Matcher, body: string)
    ensures var input := Snapshot([LogRecord(map["service.name" := "a"], map[], body)], [], []);
            !RequiredFails(["service.name"], LogResources(input.logs)) &&
            RequiredFails(["service.name"],
              LogResources(Simulation(mx, OneProcessor("attributes", DeleteServiceName()), input).output.logs)) &&
            (Contains(mx.lower(body), "debug") ==>
              RequiredFails(["service.name"],
                LogResources(Simulation(mx, OneProcessor("filter", DropDebug()), input).output.logs)))
  {
    hide Simulation, Removal, Takes, CanonicalMerge, RequiredFails, OneProcessor, DeleteServiceName, DropDebug;
    var key := "service.name";
    var input := Snapshot([LogRecord(map[key := "a"], map[], body)], [], []);
    InputPasses(body);
    RequiredLogsFailIff(mx, OneProcessor("attributes", DeleteServiceName()), input, [key]);
    DeletesServiceName();
    RequiredLogsFailIff(mx, OneProcessor("filter", DropDebug()), input, [key]);
    DropsDebugLogs();
  }

  lemma InputPasses(body: string)
    ensures var input := Snapshot([LogRecord(map["service.name" := "a"], map[], body)], [], []);
            !RequiredFails(["service.name"], LogResources(input.logs))
  {
    var input := Snapshot([LogRecord(map["service.name" := "a"], map[], body)], [], []);
    assert LogResources(input.logs) == [map["service.name" := "a"]];
  }

  lemma DeletesServiceName()
    ensures Takes(["service.name"], Removal(OneProcessor("attributes", DeleteServiceName())).logKeys)
  {
    hide CanonicalMerge, AnyDropsDebug;
    var cfg := OneProcessor("attributes", DeleteServiceName());
    OnePipeline(cfg, "logs");
    var items := DeleteServiceName()["actions"].items;
    assert DeleteActions(items[..0]) == [];
    assert RemoveKeys(cfg.processors["attributes"]) == ["service.name"];
    assert "service.name" in ["service.name"];
    assert FamilyOf("attributes").AttributeDeleter? by { AttributesFamily(); }
    assert "service.name" in KeysOf(cfg, "attributes");
    assert "attributes" in ["attributes"];
  }

  lemma AttributesFamily()
    ensures FamilyOf("attributes") == AttributeDeleter && FamilyOf("filter") == LogFilter
  {
    assert "attributes"[0] == 'a' && "filter"[0] == 'f' && "batch/"[0] == 'b' && "memory_limiter/"[0] == 'm';
    assert "attributes"[0] != "batch"[0] && "filter"[0] != "batch"[0];
    assert "attributes/"[0] == 'a';
  }

  lemma DropsDebugLogs()
    ensures Removal(OneProcessor("filter", DropDebug())).dropDebug
  {
    hide CanonicalMerge, AllKeys;
    var cfg := OneProcessor("filter", DropDebug());
    OnePipeline(cfg, "logs");
    AttributesFamily();
    assert At("debug", "debug", 0);
    assert IsDebugFilter(DropDebug());
    assert "filter" in ["filter"];
    assert DropsDebug(cfg, "logs", "filter");
  }

  // ----- the volume warning of a whole run -----

  lemma {:induction false} VolumeWarningsOfSignals(mx: Matcher, cfg: Config, used: map<string, seq<string>>,
                                                   signals: seq<string>, input: Snapshot, dropped: nat, before: nat)
    requires forall x :: x in signals ==> x in used
    requires forall i, j :: 0 <= i < j < |signals| ==> signals[i] != signals[j]
    ensures var w := VolumeReduced(dropped, before);
            multiset(AllSignals(mx, cfg, used, signals, Result(input, [], [], [])).warnings)[w] ==
            if "logs" in signals then ClosedWarnings(mx, cfg, "logs", NamesFor(used, "logs"), input)[w] else 0
  {
    hide Reduced, ClosedOutput, ClosedWarnings, Covered, Steps, ReductionFor;
    var r := Result(input, [], [], []);
    if signals != [] {
      var init, last := signals[..|signals| - 1], signals[|signals| - 1];
      assert signals == init + [last];
      var mid := SignalStart(last, AllSignals(mx, cfg, used, init, r));
      VolumeWarningsOfSignals(mx, cfg, used, init, input, dropped, before);
      StepsReachClosedForm(mx, cfg, last, used[last], mid);
      if last == "logs" {
        SignalsReduce(mx, cfg, used, init, r);
        LogsUntouched(mx, cfg, used, init, input);
        WarningsReadLogs(mx, cfg, used[last], mid.output, input);
      } else {
        VolumeWarningOnceIff(mx, cfg, last, used[last], mid.output, dropped, before);
        OnlyLogsWarn(cfg, last, used[last]);
      }
    }
  }

  lemma OnlyLogsWarn(cfg: Config, signal: string, names: seq<string>)
    ensures signal != "logs" ==> !AnyDropsDebug(cfg, signal, names)
  {
  }

  lemma LogsUntouched(mx: Matcher, cfg: Config, used: map<string, seq<string>>, signals: seq<string>, s: Snapshot)
    requires "logs" !in signals
    ensures Reduced(mx, s, ReductionFor(cfg, used, signals)).logs == s.logs
  {
    hide LogsWithout, SpansWithout, MetricsWithout, WithoutDebug, AllKeys, AnyDropsDebug;
    DeletedNothing(s, "logs");
  }

  lemma WarningsReadLogs(mx: Matcher, cfg: Config, names: seq<string>, s: Snapshot, t: Snapshot)
    requires s.logs == t.logs
    ensures ClosedWarnings(mx, cfg, "logs", names, s) == ClosedWarnings(mx, cfg, "logs", names, t)
  {
  }

  /** In a whole run the volume warning is given once, with these numbers, exactly when some merged log filter qualifies
      and they are the logs dropped and the logs there were, at least half of them; otherwise never. */
  lemma VolumeWarningIff(mx: Matcher, cfg: Config, input: Snapshot, dropped: nat, before: nat)
    ensures multiset(Simulation(mx, cfg, input).warnings)[VolumeReduced(dropped, before)] ==
            if Removal(cfg).dropDebug && before == |input.logs| > 0 &&
               dropped == before - |WithoutDebug(mx, input.logs)| &&
               2 * dropped >= before then 1 else 0
  {
    hide AllSignals, OrderedSignals, CanonicalMerge, AnyDropsDebug, WithoutDebug, AllKeys, ClosedWarnings;
    var used := CanonicalMerge(cfg);
    OrderedSignalsMembers(used.Keys);
    OrderedSignalsOnce(used.Keys);
    VolumeWarningsOfSignals(mx, cfg, used, OrderedSignals(used.Keys), input, dropped, before);
    VolumeWarningOnceIff(mx, cfg, "logs", NamesFor(used, "logs"), input, dropped, before);
    NoNamesDropNothing(cfg);
  }

  lemma NoNamesDropNothing(cfg: Config)
    ensures !AnyDropsDebug(cfg, "logs", [])
  {
  }
}
