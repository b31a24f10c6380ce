/** What simulating a configuration does to each record, in terms of the configuration as written
    (internal/runner/runner.go:140-325). */
module SimulatedRecords {
  import opened Strings
  import opened Json
  import opened Telemetry
  import opened Matches
  import opened FixtureRunner
  import opened FixtureVerdicts

  // ----- which processors run -----

  /** A pipeline of this signal: the signal itself, or the signal, a slash and a name. */
  predicate Carries(pipeline: string, signal: string)
  {
    pipeline == signal || signal + "/" <= pipeline
  }

  /** The processor is listed in some pipeline of the signal; without any pipelines every processor runs for every known
      signal. */
  ghost predicate Runs(cfg: Config, signal: string, name: string)
  {
    if cfg.pipelines == map[] then signal in {"logs", "traces", "metrics"} && name in cfg.processors
    else exists n :: n in cfg.pipelines && Carries(n, signal) && name in cfg.pipelines[n]
  }

  lemma {:induction false} MergedMembers(cfg: Config, order: seq<string>, signal: string, name: string)
    requires forall n :: n in order ==> n in cfg.pipelines
    ensures name in MergedFor(cfg, order, signal) <==>
            exists n :: n in order && SignalOf(n) == signal && name in cfg.pipelines[n]
  {
    hide SignalOf;
    if order != [] {
      var init, last := order[..|order| - 1], order[|order| - 1];
      assert order == init + [last];
      MergedMembers(cfg, init, signal, name);
    }
  }

  lemma RunsMeans(cfg: Config, signal: string, name: string)
    requires '/' !in signal && signal in {"logs", "traces", "metrics"}
    ensures name in NamesFor(CanonicalMerge(cfg), signal) <==> Runs(cfg, signal, name)
  {
    hide Carries;
    if cfg.pipelines == map[] {
      SortedSetMembers(cfg.processors.Keys);
    } else {
      SortedSetMembers(cfg.pipelines.Keys);
      MergedMembers(cfg, SortedSet(cfg.pipelines.Keys), signal, name);
      forall n ensures SignalOf(n) == signal <==> Carries(n, signal) {
        SignalMeans(n, signal);
      }
    }
  }

  lemma SignalMeans(n: string, signal: string)
    requires '/' !in signal
    ensures SignalOf(n) == signal <==> Carries(n, signal)
  {
    BeforeMeans(n, '/', signal);
    assert signal + ['/'] == signal + "/";
  }

  // ----- what they delete -----

  predicate Named(name: string, kind: string)
  {
    name == kind || kind + "/" <= name
  }

  lemma FamilyMeans(name: string)
    ensures FamilyOf(name).AttributeDeleter? <==> Named(name, "attributes")
    ensures FamilyOf(name).LogFilter? <==> Named(name, "filter")
    ensures FamilyOf(name).NoContent? <==> Named(name, "batch") || Named(name, "memory_limiter")
  {
    assert "batch/" == "batch" + "/" && "memory_limiter/" == "memory_limiter" + "/";
    assert "attributes/" == "attributes" + "/" && "filter/" == "filter" + "/";
    assert "attributes"[0] == 'a' && "filter"[0] == 'f' && "batch"[0] == 'b' && "memory_limiter"[0] == 'm';
    assert "attributes/"[0] == 'a' && "filter/"[0] == 'f' && "batch/"[0] == 'b' && "memory_limiter/"[0] == 'm';
    assert Named(name, "attributes") ==> name[0] == 'a';
    assert Named(name, "filter") ==> name[0] == 'f';
    assert Named(name, "batch") ==> name[0] == 'b';
    assert Named(name, "memory_limiter") ==> name[0] == 'm';
  }

  /** An action that deletes the key. */
  predicate Deletes(item: Value, key: string)
  {
    item.Obj? && "action" in item.fields && item.fields["action"] == Str("delete") &&
    "key" in item.fields && item.fields["key"] == Str(key)
  }

  predicate DeletesKey(p: Processor, key: string)
  {
    key != "" && "actions" in p && p["actions"].List? &&
    exists item :: item in p["actions"].items && Deletes(item, key)
  }

  lemma {:induction false} DeleteActionsMembers(items: seq<Value>, key: string)
    ensures key in DeleteActions(items) <==> key != "" && exists item :: item in items && Deletes(item, key)
  {
    if items != [] {
      var init, last := items[..|items| - 1], items[|items| - 1];
      assert items == init + [last];
      DeleteActionsMembers(init, key);
      assert key != "" ==> (Deletes(last, key) <==>
             last.Obj? && StringAt(last.fields, "action") == "delete" && StringAt(last.fields, "key") == key);
      assert forall item :: item in items <==> item in init || item == last;
    }
  }

  /** Some processor of the signal deletes the key. */
  ghost predicate Gone(cfg: Config, signal: string, key: string)
  {
    exists name :: Runs(cfg, signal, name) && name in cfg.processors && Named(name, "attributes") &&
                   DeletesKey(cfg.processors[name], key)
  }

  lemma KeysOfMeans(cfg: Config, name: string, key: string)
    ensures key in KeysOf(cfg, name) <==>
            name in cfg.processors && Named(name, "attributes") && DeletesKey(cfg.processors[name], key)
  {
    hide FamilyOf, Deletes, Named;
    FamilyMeans(name);
    if name in cfg.processors && "actions" in cfg.processors[name] && cfg.processors[name]["actions"].List? {
      DeleteActionsMembers(cfg.processors[name]["actions"].items, key);
    }
  }

  lemma AllKeysMean(cfg: Config, signal: string, key: string)
    requires '/' !in signal && signal in {"logs", "traces", "metrics"}
    ensures key in AllKeys(cfg, NamesFor(CanonicalMerge(cfg), signal)) <==> Gone(cfg, signal, key)
  {
    hide KeysOf, Runs, CanonicalMerge, Named, DeletesKey, NamesFor;
    forall name
      ensures name in NamesFor(CanonicalMerge(cfg), signal) <==> Runs(cfg, signal, name)
      ensures key in KeysOf(cfg, name) <==>
              name in cfg.processors && Named(name, "attributes") && DeletesKey(cfg.processors[name], key)
    {
      RunsMeans(cfg, signal, name);
      KeysOfMeans(cfg, name, key);
    }
  }

  /** Some log processor is a filter that qualifies for dropping debug logs. */
  ghost predicate DropsLogs(cfg: Config)
  {
    exists name :: Runs(cfg, "logs", name) && name in cfg.processors && Named(name, "filter") &&
                   IsDebugFilter(cfg.processors[name])
  }

  lemma DropsLogsMeans(cfg: Config)
    ensures AnyDropsDebug(cfg, "logs", NamesFor(CanonicalMerge(cfg), "logs")) <==> DropsLogs(cfg)
  {
    hide Runs, CanonicalMerge, Named, IsDebugFilter, NamesFor, FamilyOf;
    forall name
      ensures name in NamesFor(CanonicalMerge(cfg), "logs") <==> Runs(cfg, "logs", name)
      ensures FamilyOf(name).LogFilter? <==> Named(name, "filter")
    {
      RunsMeans(cfg, "logs", name);
      FamilyMeans(name);
    }
  }

  // ----- what becomes of a record -----

  /** after holds exactly the attributes of before that no processor of the signal deletes, with their values. */
  ghost predicate Stripped(cfg: Config, signal: string, before: Attributes, after: Attributes)
  {
    (forall k :: k in after <==> k in before && !Gone(cfg, signal, k)) &&
    forall k :: k in after ==> after[k] == before[k]
  }

  lemma WithoutStrips(cfg: Config, signal: string, m: Attributes, keys: set<string>)
    requires forall k :: k in keys <==> Gone(cfg, signal, k)
    ensures Stripped(cfg, signal, m, Without(m, keys))
  {
    hide Gone;
  }

  ghost predicate LogStripped(cfg: Config, before: LogRecord, after: LogRecord)
  {
    Stripped(cfg, "logs", before.resource, after.resource) &&
    Stripped(cfg, "logs", before.attributes, after.attributes) && after.body == before.body
  }

  ghost predicate SpanStripped(cfg: Config, before: Span, after: Span)
  {
    Stripped(cfg, "traces", before.resource, after.resource) &&
    Stripped(cfg, "traces", before.attributes, after.attributes) && after.traceId == before.traceId &&
    after.spanId == before.spanId && after.name == before.name && after.statusCode == before.statusCode
  }

  ghost predicate MetricStripped(cfg: Config, before: Metric, after: Metric)
  {
    after.name == before.name && Stripped(cfg, "metrics", before.resource, after.resource) &&
    |after.points| == |before.points| &&
    forall i :: 0 <= i < |before.points| ==>
      Stripped(cfg, "metrics", before.points[i].labels, after.points[i].labels)
  }

  /** Increasing positions. */
  predicate Increasing(src: seq<nat>, n: nat)
  {
    (forall i :: 0 <= i < |src| ==> src[i] < n) && forall i, j :: 0 <= i < j < |src| ==> src[i] < src[j]
  }

  /** The positions of the logs that stay. */
  lemma {:induction false} RemainingPositions(mx: Matcher, logs: seq<LogRecord>) returns (src: seq<nat>)
    ensures Increasing(src, |logs|) && |src| == |WithoutDebug(mx, logs)|
    ensures forall i :: 0 <= i < |src| ==> WithoutDebug(mx, logs)[i] == logs[src[i]]
    ensures forall j :: 0 <= j < |logs| ==> (j in src <==> !IsDebug(mx, logs[j]))
  {
    hide IsDebug;
    src := [];
    if logs != [] {
      var init, last := logs[..|logs| - 1], logs[|logs| - 1];
      src := RemainingPositions(mx, init);
      if !IsDebug(mx, last) {
        src := src + [|init|];
      }
    }
  }

  lemma AllPositions(n: nat) returns (src: seq<nat>)
    ensures Increasing(src, n) && |src| == n && forall i :: 0 <= i < n ==> src[i] == i && i in src
  {
    src := seq(n, i => i);
    forall i | 0 <= i < n ensures src[i] == i && i in src {
      assert src[i] == i;
    }
  }

  /** A log survives unless a filter drops debug logs and its body mentions debug; the survivors keep their order, their
      bodies and every attribute that no log processor deletes. */
  lemma SimulatedLogs(mx: Matcher, cfg: Config, input: Snapshot) returns (src: seq<nat>)
    ensures var output := Simulation(mx, cfg, input).output.logs;
            Increasing(src, |input.logs|) && |src| == |output| &&
            forall i :: 0 <= i < |src| ==> LogStripped(cfg, input.logs[src[i]], output[i])
    ensures forall j :: 0 <= j < |input.logs| ==>
              (j in src <==> !(DropsLogs(cfg) && Contains(mx.lower(input.logs[j].body), "debug")))
  {
    hide Simulation, Removal, Stripped, Without, WithoutDebug, SpansWithout, MetricsWithout, DropsLogs, Increasing;
    SimulationReduces(mx, cfg, input);
    var d := Removal(cfg);
    RemovalMeans(cfg);
    FilterCommutes(mx, input.logs, d.logKeys);
    if d.dropDebug {
      src := RemainingPositions(mx, input.logs);
    } else {
      src := AllPositions(|input.logs|);
    }
    forall l: LogRecord ensures LogStripped(cfg, l, LogWithout(l, d.logKeys)) {
      WithoutStrips(cfg, "logs", l.resource, d.logKeys);
      WithoutStrips(cfg, "logs", l.attributes, d.logKeys);
    }
  }

  lemma RemovalMeans(cfg: Config)
    ensures forall k :: k in Removal(cfg).logKeys <==> Gone(cfg, "logs", k)
    ensures forall k :: k in Removal(cfg).spanKeys <==> Gone(cfg, "traces", k)
    ensures forall k :: k in Removal(cfg).metricKeys <==> Gone(cfg, "metrics", k)
    ensures Removal(cfg).dropDebug <==> DropsLogs(cfg)
  {
    hide AllKeys, AnyDropsDebug, Gone, DropsLogs, CanonicalMerge, NamesFor;
    DropsLogsMeans(cfg);
    forall k
      ensures k in Removal(cfg).logKeys <==> Gone(cfg, "logs", k)
      ensures k in Removal(cfg).spanKeys <==> Gone(cfg, "traces", k)
      ensures k in Removal(cfg).metricKeys <==> Gone(cfg, "metrics", k)
    {
      AllKeysMean(cfg, "logs", k);
      AllKeysMean(cfg, "traces", k);
      AllKeysMean(cfg, "metrics", k);
    }
  }

  /** Every span stays in its place, with its ids, name and status and every attribute that no trace processor
      deletes. */
  lemma SimulatedSpans(mx: Matcher, cfg: Config, input: Snapshot)
    ensures var output := Simulation(mx, cfg, input).output.spans;
            |output| == |input.spans| && forall i :: 0 <= i < |output| ==> SpanStripped(cfg, input.spans[i], output[i])
  {
    hide Simulation, Removal, Stripped, Without, WithoutDebug, LogsWithout, MetricsWithout;
    SimulationReduces(mx, cfg, input);
    var d := Removal(cfg);
    RemovalMeans(cfg);
    forall s: Span ensures SpanStripped(cfg, s, SpanWithout(s, d.spanKeys)) {
      WithoutStrips(cfg, "traces", s.resource, d.spanKeys);
      WithoutStrips(cfg, "traces", s.attributes, d.spanKeys);
    }
  }

  /** Every metric stays in its place, with its name, its number of datapoints and every resource attribute and label
      that no metric processor deletes. */
  lemma SimulatedMetrics(mx: Matcher, cfg: Config, input: Snapshot)
    ensures var output := Simulation(mx, cfg, input).output.metrics;
            |output| == |input.metrics| &&
            forall i :: 0 <= i < |output| ==> MetricStripped(cfg, input.metrics[i], output[i])
  {
    hide Simulation, Removal, Stripped, Without, WithoutDebug, LogsWithout, SpansWithout;
    SimulationReduces(mx, cfg, input);
    var d := Removal(cfg);
    RemovalMeans(cfg);
    forall m: Metric ensures MetricStripped(cfg, m, MetricWithout(m, d.metricKeys)) {
      WithoutStrips(cfg, "metrics", m.resource, d.metricKeys);
      forall i | 0 <= i < |m.points|
        ensures Stripped(cfg, "metrics", m.points[i].labels, MetricWithout(m, d.metricKeys).points[i].labels)
      {
        WithoutStrips(cfg, "metrics", m.points[i].labels, d.metricKeys);
      }
    }
  }
}
