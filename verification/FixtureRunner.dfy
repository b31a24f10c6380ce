/** The fixture simulator (internal/runner/runner.go). Pipelines of one signal are merged in the order a Go map
    yields them; the proofs are about every such order. */
module FixtureRunner {
  import opened Strings
  import opened Json
  import opened Telemetry
  import opened Matches

  /** Decoded YAML. */
  datatype Value = Str(s: string) | List(items: seq<Value>) | Obj(fields: map<string, Value>) | Other

  type Processor = map<string, Value>

  datatype Config = Config(processors: map<string, Processor>, pipelines: map<string, seq<string>>)

  datatype Warning =
    | TracesAreFixtureLocal | Undefined(name: string) | IncludeIgnored(name: string) | ExcludeIgnored(name: string)
    | OnlyDeletesSupported(name: string) | NotSimulatedFor(name: string, signal: string) | NotSimulated(name: string)
    | PartialFilter(name: string) | VolumeReduced(dropped: nat, before: nat)

  datatype Result = Result(output: Snapshot, warnings: seq<Warning>, simulated: seq<string>, unsupported: seq<string>)

  datatype Family = NoContent | AttributeDeleter | LogFilter | Unknown

  function FamilyOf(name: string): Family
  {
    if name == "batch" || HasPrefix(name, "batch/") then NoContent
    else if name == "memory_limiter" || HasPrefix(name, "memory_limiter/") then NoContent
    else if HasPrefix(name, "attributes/") || name == "attributes" then AttributeDeleter
    else if HasPrefix(name, "filter/") || name == "filter" then LogFilter
    else Unknown
  }

  // ----- reading processor definitions -----

  function StringAt(m: map<string, Value>, key: string): string
  {
    if key in m && m[key].Str? then m[key].s else ""
  }

  /** The keys of the delete actions, in order. */
  function DeleteActions(items: seq<Value>): seq<string>
  {
    if items == [] then [] else
    DeleteActions(items[..|items| - 1]) +
    var last := items[|items| - 1];
    if last.Obj? && StringAt(last.fields, "action") == "delete" && StringAt(last.fields, "key") != ""
    then [StringAt(last.fields, "key")] else []
  }

  function RemoveKeys(p: Processor): seq<string>
  {
    if "actions" in p && p["actions"].List? then DeleteActions(p["actions"].items) else []
  }

  /** A logs.include block of type regexp whose first expression mentions debug. */
  ghost predicate IsDebugFilter(p: Processor)
  {
    "logs" in p && p["logs"].Obj? &&
    var logs := p["logs"].fields;
    "include" in logs && logs["include"].Obj? &&
    var included := logs["include"].fields;
    StringAt(included, "match_type") == "regexp" &&
    "expressions" in included && included["expressions"].List? &&
    var expressions := included["expressions"].items;
    expressions != [] && expressions[0].Str? && Contains(expressions[0].s, "debug")
  }

  // ----- effects on telemetry -----

  function Without(m: Attributes, keys: set<string>): Attributes
  {
    map k | k in m && k !in keys :: m[k]
  }

  function LogWithout(l: LogRecord, keys: set<string>): LogRecord
  {
    LogRecord(Without(l.resource, keys), Without(l.attributes, keys), l.body)
  }

  function SpanWithout(s: Span, keys: set<string>): Span
  {
    s.(resource := Without(s.resource, keys), attributes := Without(s.attributes, keys))
  }

  function PointWithout(dp: Datapoint, keys: set<string>): Datapoint
  {
    Datapoint(Without(dp.labels, keys))
  }

  function MetricWithout(m: Metric, keys: set<string>): Metric
  {
    Metric(m.name, Without(m.resource, keys),
           seq(|m.points|, i requires 0 <= i < |m.points| => PointWithout(m.points[i], keys)))
  }

  function LogsWithout(ls: seq<LogRecord>, keys: set<string>): (r: seq<LogRecord>)
    ensures |r| == |ls|
  {
    seq(|ls|, i requires 0 <= i < |ls| => LogWithout(ls[i], keys))
  }

  function SpansWithout(ss: seq<Span>, keys: set<string>): (r: seq<Span>)
    ensures |r| == |ss|
  {
    seq(|ss|, i requires 0 <= i < |ss| => SpanWithout(ss[i], keys))
  }

  function MetricsWithout(ms: seq<Metric>, keys: set<string>): (r: seq<Metric>)
    ensures |r| == |ms|
  {
    seq(|ms|, i requires 0 <= i < |ms| => MetricWithout(ms[i], keys))
  }

  /** removeAttributesForSignal: other signals are left alone. */
  function Deleted(s: Snapshot, signal: string, keys: set<string>): Snapshot
  {
    if signal == "logs" then s.(logs := LogsWithout(s.logs, keys))
    else if signal == "traces" then s.(spans := SpansWithout(s.spans, keys))
    else if signal == "metrics" then s.(metrics := MetricsWithout(s.metrics, keys))
    else s
  }

  ghost predicate IsDebug(mx: Matcher, l: LogRecord)
  {
    Contains(mx.lower(l.body), "debug")
  }

  ghost function WithoutDebug(mx: Matcher, ls: seq<LogRecord>): (r: seq<LogRecord>)
    ensures |r| <= |ls|
    ensures forall l :: l in r ==> l in ls
  {
    if ls == [] then [] else
    WithoutDebug(mx, ls[..|ls| - 1]) + if IsDebug(mx, ls[|ls| - 1]) then [] else [ls[|ls| - 1]]
  }

  ghost function VolumeWarning(mx: Matcher, ls: seq<LogRecord>): seq<Warning>
  {
    var before, after := |ls|, |WithoutDebug(mx, ls)|;
    if before > 0 && 2 * (before - after) >= before then [VolumeReduced(before - after, before)] else []
  }

  // ----- one processor -----

  datatype Outcome = Simulated | Unsupported

  /** Whether a processor of this name counts as simulated in a pipeline of this signal. */
  ghost function OutcomeOf(cfg: Config, signal: string, name: string): Outcome
  {
    if name !in cfg.processors then Unsupported else
    var p := cfg.processors[name];
    match FamilyOf(name)
    case NoContent => Simulated
    case AttributeDeleter => if RemoveKeys(p) == [] then Unsupported else Simulated
    case LogFilter => if signal == "logs" && IsDebugFilter(p) then Simulated else Unsupported
    case Unknown => Unsupported
  }

  /** The keys it deletes, and whether it drops debug logs. */
  ghost function KeysOf(cfg: Config, name: string): set<string>
  {
    if name in cfg.processors && FamilyOf(name).AttributeDeleter?
    then set k | k in RemoveKeys(cfg.processors[name]) else {}
  }

  ghost predicate DropsDebug(cfg: Config, signal: string, name: string)
  {
    name in cfg.processors && FamilyOf(name).LogFilter? && signal == "logs" && IsDebugFilter(cfg.processors[name])
  }

  /** The warnings it gives whatever the telemetry is. */
  ghost function StaticWarnings(cfg: Config, signal: string, name: string): seq<Warning>
  {
    if name !in cfg.processors then [Undefined(name)] else
    var p := cfg.processors[name];
    match FamilyOf(name)
    case NoContent => []
    case AttributeDeleter =>
      (if "include" in p then [IncludeIgnored(name)] else []) +
      (if "exclude" in p then [ExcludeIgnored(name)] else []) +
      (if RemoveKeys(p) == [] then [OnlyDeletesSupported(name)] else [])
    case LogFilter =>
      if signal != "logs" then [NotSimulatedFor(name, signal)]
      else if IsDebugFilter(p) then [PartialFilter(name)] else [NotSimulated(name)]
    case Unknown => [NotSimulated(name)]
  }

  /** One iteration of the processor loop. */
  ghost function Step(mx: Matcher, cfg: Config, signal: string, name: string, r: Result): Result
  {
    var output := Deleted(r.output, signal, KeysOf(cfg, name));
    if DropsDebug(cfg, signal, name) then
      Result(output.(logs := WithoutDebug(mx, output.logs)),
             r.warnings + VolumeWarning(mx, output.logs) + StaticWarnings(cfg, signal, name),
             r.simulated + [name], r.unsupported)
    else if OutcomeOf(cfg, signal, name).Simulated? then
      Result(output, r.warnings + StaticWarnings(cfg, signal, name), r.simulated + [name], r.unsupported)
    else
      Result(output, r.warnings + StaticWarnings(cfg, signal, name), r.simulated, r.unsupported + [name])
  }

  ghost function Steps(mx: Matcher, cfg: Config, signal: string, names: seq<string>, r: Result): Result
  {
    if names == [] then r else
    Step(mx, cfg, signal, names[|names| - 1], Steps(mx, cfg, signal, names[..|names| - 1], r))
  }

  // ----- deletions commute, and with the filter too -----

  lemma WithoutTwice(m: Attributes, a: set<string>, b: set<string>)
    ensures Without(Without(m, a), b) == Without(m, a + b)
  {
  }

  lemma DeletedTwice(s: Snapshot, signal: string, a: set<string>, b: set<string>)
    ensures Deleted(Deleted(s, signal, a), signal, b) == Deleted(s, signal, a + b)
  {
    hide Without;
    forall m: Attributes ensures Without(Without(m, a), b) == Without(m, a + b) {
      WithoutTwice(m, a, b);
    }
    assert LogsWithout(LogsWithout(s.logs, a), b) == LogsWithout(s.logs, a + b);
    assert SpansWithout(SpansWithout(s.spans, a), b) == SpansWithout(s.spans, a + b);
    forall m: Metric ensures MetricWithout(MetricWithout(m, a), b) == MetricWithout(m, a + b) {
    }
    assert MetricsWithout(MetricsWithout(s.metrics, a), b) == MetricsWithout(s.metrics, a + b);
  }

  lemma {:induction false} FilterCommutes(mx: Matcher, ls: seq<LogRecord>, keys: set<string>)
    ensures WithoutDebug(mx, LogsWithout(ls, keys)) == LogsWithout(WithoutDebug(mx, ls), keys)
  {
    hide Without;
    if ls != [] {
      var init := ls[..|ls| - 1];
      FilterCommutes(mx, init, keys);
      var all := LogsWithout(ls, keys);
      assert all[..|all| - 1] == LogsWithout(init, keys);
      assert IsDebug(mx, all[|all| - 1]) == IsDebug(mx, ls[|ls| - 1]);
    }
  }

  lemma {:induction false} FilterTwice(mx: Matcher, ls: seq<LogRecord>)
    ensures WithoutDebug(mx, WithoutDebug(mx, ls)) == WithoutDebug(mx, ls)
  {
    hide IsDebug;
    if ls != [] {
      var init := ls[..|ls| - 1];
      FilterTwice(mx, init);
      var r := WithoutDebug(mx, ls);
      if IsDebug(mx, ls[|ls| - 1]) {
        assert r == WithoutDebug(mx, init);
      } else {
        assert r[..|r| - 1] == WithoutDebug(mx, init);
      }
    }
  }

  // ----- the closed form -----

  ghost function AllKeys(cfg: Config, names: seq<string>): set<string>
  {
    set n, k | n in names && k in KeysOf(cfg, n) :: k
  }

  ghost predicate AnyDropsDebug(cfg: Config, signal: string, names: seq<string>)
  {
    exists n :: n in names && DropsDebug(cfg, signal, n)
  }

  ghost function AllWarnings(cfg: Config, signal: string, names: seq<string>): multiset<Warning>
  {
    if names == [] then multiset{} else
    AllWarnings(cfg, signal, names[..|names| - 1]) + multiset(StaticWarnings(cfg, signal, names[|names| - 1]))
  }

  /** The output of a signal's processors: delete every key some of them deletes, then drop debug logs if some
      of them does. */
  ghost function ClosedOutput(mx: Matcher, cfg: Config, signal: string, names: seq<string>, s: Snapshot): Snapshot
  {
    var d := Deleted(s, signal, AllKeys(cfg, names));
    if AnyDropsDebug(cfg, signal, names) then d.(logs := WithoutDebug(mx, d.logs)) else d
  }

  ghost function ClosedWarnings(mx: Matcher, cfg: Config, signal: string, names: seq<string>,
                                s: Snapshot): multiset<Warning>
  {
    AllWarnings(cfg, signal, names) +
    if AnyDropsDebug(cfg, signal, names) then multiset(VolumeWarning(mx, s.logs)) else multiset{}
  }

  ghost function Covered(cfg: Config, signal: string, names: seq<string>, o: Outcome): set<string>
  {
    set n | n in names && OutcomeOf(cfg, signal, n) == o
  }

  ghost predicate IsClosedForm(mx: Matcher, cfg: Config, signal: string, names: seq<string>, before: Result,
                               after: Result)
  {
    after.output == ClosedOutput(mx, cfg, signal, names, before.output) &&
    multiset(after.warnings) == multiset(before.warnings) + ClosedWarnings(mx, cfg, signal, names, before.output) &&
    (set n | n in after.simulated) == (set n | n in before.simulated) + Covered(cfg, signal, names, Simulated) &&
    (set n | n in after.unsupported) == (set n | n in before.unsupported) + Covered(cfg, signal, names, Unsupported)
  }

  lemma KeysGrow(cfg: Config, names: seq<string>, name: string)
    ensures AllKeys(cfg, names + [name]) == AllKeys(cfg, names) + KeysOf(cfg, name)
    ensures forall signal :: AnyDropsDebug(cfg, signal, names + [name]) <==>
                             AnyDropsDebug(cfg, signal, names) || DropsDebug(cfg, signal, name)
  {
    hide KeysOf, DropsDebug;
    assert name in names + [name];
    forall signal | AnyDropsDebug(cfg, signal, names) ensures AnyDropsDebug(cfg, signal, names + [name]) {
      var n :| n in names && DropsDebug(cfg, signal, n);
      assert n in names + [name];
    }
  }

  lemma OutputStep(mx: Matcher, cfg: Config, signal: string, names: seq<string>, name: string, s: Snapshot)
    ensures var d := Deleted(ClosedOutput(mx, cfg, signal, names, s), signal, KeysOf(cfg, name));
            ClosedOutput(mx, cfg, signal, names + [name], s) ==
            if DropsDebug(cfg, signal, name) then d.(logs := WithoutDebug(mx, d.logs)) else d
  {
    hide KeysOf, DropsDebug, AllKeys, AnyDropsDebug, LogsWithout, SpansWithout, MetricsWithout, WithoutDebug;
    KeysGrow(cfg, names, name);
    var before := AllKeys(cfg, names);
    var d := Deleted(s, signal, before);
    DeletedTwice(s, signal, before, KeysOf(cfg, name));
    if AnyDropsDebug(cfg, signal, names) {
      OnlyLogsDrop(cfg, signal, names);
      FilterCommutes(mx, d.logs, KeysOf(cfg, name));
      FilterTwice(mx, LogsWithout(d.logs, KeysOf(cfg, name)));
    }
  }

  lemma OnlyLogsDrop(cfg: Config, signal: string, names: seq<string>)
    requires AnyDropsDebug(cfg, signal, names)
    ensures signal == "logs"
  {
  }

  lemma VolumeStep(mx: Matcher, cfg: Config, signal: string, names: seq<string>, name: string, s: Snapshot)
    requires DropsDebug(cfg, signal, name)
    ensures var d := Deleted(ClosedOutput(mx, cfg, signal, names, s), signal, KeysOf(cfg, name));
            VolumeWarning(mx, d.logs) == if AnyDropsDebug(cfg, signal, names) then [] else VolumeWarning(mx, s.logs)
  {
    hide KeysOf, AllKeys, AnyDropsDebug, LogsWithout, SpansWithout, MetricsWithout, WithoutDebug;
    assert signal == "logs";
    hide DropsDebug;
    var keys := AllKeys(cfg, names);
    FilterCommutes(mx, s.logs, keys);
    FilterCommutes(mx, LogsWithout(s.logs, keys), KeysOf(cfg, name));
    FilterTwice(mx, LogsWithout(s.logs, keys));
    FilterCommutes(mx, WithoutDebug(mx, LogsWithout(s.logs, keys)), KeysOf(cfg, name));
  }

  lemma CoveredStep(cfg: Config, signal: string, names: seq<string>, name: string, o: Outcome)
    ensures Covered(cfg, signal, names + [name], o) ==
            Covered(cfg, signal, names, o) + if OutcomeOf(cfg, signal, name) == o then {name} else {}
  {
    hide OutcomeOf;
  }

  lemma DroppersAreSimulated(cfg: Config, signal: string, name: string)
    requires DropsDebug(cfg, signal, name)
    ensures OutcomeOf(cfg, signal, name).Simulated?
  {
  }

  lemma ClosedWarningsStep(mx: Matcher, cfg: Config, signal: string, names: seq<string>, name: string, s: Snapshot)
    ensures var d := Deleted(ClosedOutput(mx, cfg, signal, names, s), signal, KeysOf(cfg, name));
            ClosedWarnings(mx, cfg, signal, names + [name], s) ==
            ClosedWarnings(mx, cfg, signal, names, s) + multiset(StaticWarnings(cfg, signal, name)) +
            if DropsDebug(cfg, signal, name) then multiset(VolumeWarning(mx, d.logs)) else multiset{}
  {
    hide KeysOf, DropsDebug, AllKeys, AnyDropsDebug, ClosedOutput, Deleted, VolumeWarning, StaticWarnings;
    assert (names + [name])[..|names|] == names;
    KeysGrow(cfg, names, name);
    if DropsDebug(cfg, signal, name) {
      VolumeStep(mx, cfg, signal, names, name, s);
    }
  }

  lemma ElementsAppend<T>(xs: seq<T>, x: T)
    ensures (set n | n in xs + [x]) == (set n | n in xs) + {x}
  {
  }

  lemma ClosedFormStep(mx: Matcher, cfg: Config, signal: string, names: seq<string>, name: string, r: Result,
                       mid: Result)
    requires IsClosedForm(mx, cfg, signal, names, r, mid)
    ensures IsClosedForm(mx, cfg, signal, names + [name], r, Step(mx, cfg, signal, name, mid))
  {
    hide KeysOf, DropsDebug, ClosedOutput, ClosedWarnings, Deleted, VolumeWarning, StaticWarnings, OutcomeOf, Covered,
      WithoutDebug;
    OutputStep(mx, cfg, signal, names, name, r.output);
    ClosedWarningsStep(mx, cfg, signal, names, name, r.output);
    CoveredStep(cfg, signal, names, name, Simulated);
    CoveredStep(cfg, signal, names, name, Unsupported);
    ElementsAppend(mid.simulated, name);
    ElementsAppend(mid.unsupported, name);
    if DropsDebug(cfg, signal, name) {
      DroppersAreSimulated(cfg, signal, name);
    }
  }

  /** Whatever the order of a signal's merged processors, running them gives the closed form. */
  lemma {:induction false} StepsReachClosedForm(mx: Matcher, cfg: Config, signal: string, names: seq<string>, r: Result)
    ensures IsClosedForm(mx, cfg, signal, names, r, Steps(mx, cfg, signal, names, r))
  {
    hide IsClosedForm, Step;
    if names == [] {
      NoSteps(mx, cfg, signal, r);
    } else {
      var init, name := names[..|names| - 1], names[|names| - 1];
      assert names == init + [name];
      StepsReachClosedForm(mx, cfg, signal, init, r);
      ClosedFormStep(mx, cfg, signal, init, name, r, Steps(mx, cfg, signal, init, r));
    }
  }

  lemma NoSteps(mx: Matcher, cfg: Config, signal: string, r: Result)
    ensures IsClosedForm(mx, cfg, signal, [], r, r)
  {
    DeletedNothing(r.output, signal);
    assert AllKeys(cfg, []) == {};
  }

  lemma WithoutNothing(m: Attributes)
    ensures Without(m, {}) == m
  {
  }

  // ----- order of merging -----

  lemma {:induction false} WarningsPermute(cfg: Config, signal: string, a: seq<string>, b: seq<string>)
    requires multiset(a) == multiset(b)
    ensures AllWarnings(cfg, signal, a) == AllWarnings(cfg, signal, b)
    decreases |a|
  {
    hide StaticWarnings;
    assert |multiset(a)| == |a| && |multiset(b)| == |b|;
    if a != [] {
      var j := TakeLast(a, b);
      WarningsPermute(cfg, signal, a[..|a| - 1], b[..j] + b[j + 1..]);
      WarningsConcat(cfg, signal, b[..j], b[j + 1..]);
      WarningsConcat(cfg, signal, b[..j] + [b[j]], b[j + 1..]);
      assert (b[..j] + [b[j]])[..j] == b[..j];
    }
  }

  lemma {:induction false} WarningsConcat(cfg: Config, signal: string, a: seq<string>, b: seq<string>)
    ensures AllWarnings(cfg, signal, a + b) == AllWarnings(cfg, signal, a) + AllWarnings(cfg, signal, b)
  {
    hide StaticWarnings;
    if b == [] {
      assert a + b == a;
    } else {
      assert (a + b)[..|a + b| - 1] == a + b[..|b| - 1];
      WarningsConcat(cfg, signal, a, b[..|b| - 1]);
    }
  }

  lemma ClosedFormPermutes(mx: Matcher, cfg: Config, signal: string, a: seq<string>, b: seq<string>, s: Snapshot)
    requires multiset(a) == multiset(b)
    ensures ClosedOutput(mx, cfg, signal, a, s) == ClosedOutput(mx, cfg, signal, b, s)
    ensures ClosedWarnings(mx, cfg, signal, a, s) == ClosedWarnings(mx, cfg, signal, b, s)
    ensures forall o :: Covered(cfg, signal, a, o) == Covered(cfg, signal, b, o)
  {
    hide KeysOf, DropsDebug, OutcomeOf, Deleted, WithoutDebug, VolumeWarning, AllWarnings;
    assert forall n :: n in a <==> n in multiset(a);
    assert forall n :: n in b <==> n in multiset(b);
    assert AllKeys(cfg, a) == AllKeys(cfg, b);
    assert AnyDropsDebug(cfg, signal, a) == AnyDropsDebug(cfg, signal, b);
    forall o ensures Covered(cfg, signal, a, o) == Covered(cfg, signal, b, o) {
    }
    WarningsPermute(cfg, signal, a, b);
  }

  /** Confluence: two orders of the same processors end with equal telemetry, equal coverage and the same
      warnings, whatever telemetry they start from. */
  lemma OrderDoesNotMatter(mx: Matcher, cfg: Config, signal: string, a: seq<string>, b: seq<string>, r: Result)
    requires multiset(a) == multiset(b)
    ensures var x, y := Steps(mx, cfg, signal, a, r), Steps(mx, cfg, signal, b, r);
            x.output == y.output && multiset(x.warnings) == multiset(y.warnings) &&
            (set n | n in x.simulated) == (set n | n in y.simulated) &&
            (set n | n in x.unsupported) == (set n | n in y.unsupported)
  {
    hide ClosedOutput, ClosedWarnings, Covered, Steps;
    StepsReachClosedForm(mx, cfg, signal, a, r);
    StepsReachClosedForm(mx, cfg, signal, b, r);
    ClosedFormPermutes(mx, cfg, signal, a, b, r.output);
  }

  /** The volume warning is given once exactly when some filter qualifies and at least half of a nonempty set of
      logs is dropped. */
  lemma VolumeWarningOnceIff(mx: Matcher, cfg: Config, signal: string, names: seq<string>, s: Snapshot, dropped: nat,
                             before: nat)
    ensures ClosedWarnings(mx, cfg, signal, names, s)[VolumeReduced(dropped, before)] ==
            if AnyDropsDebug(cfg, signal, names) && before == |s.logs| > 0 &&
               dropped == before - |WithoutDebug(mx, s.logs)| &&
               2 * dropped >= before then 1 else 0
  {
    hide AnyDropsDebug, WithoutDebug, AllWarnings;
    StaticWarningsAreStatic(cfg, signal, names, dropped, before);
  }

  lemma {:induction false} StaticWarningsAreStatic(cfg: Config, signal: string, names: seq<string>, dropped: nat,
                                                   before: nat)
    ensures AllWarnings(cfg, signal, names)[VolumeReduced(dropped, before)] == 0
  {
    if names != [] {
      StaticWarningsAreStatic(cfg, signal, names[..|names| - 1], dropped, before);
      OneIsStatic(cfg, signal, names[|names| - 1], dropped, before);
    }
  }

  lemma OneIsStatic(cfg: Config, signal: string, name: string, dropped: nat, before: nat)
    ensures VolumeReduced(dropped, before) !in StaticWarnings(cfg, signal, name)
  {
    hide FamilyOf, IsDebugFilter, RemoveKeys;
  }

  // ----- the whole configuration -----

  function SignalOf(pipeline: string): string
  {
    Before(pipeline, '/')
  }

  /** The processors of one signal when pipelines are visited in this order. */
  function MergedFor(cfg: Config, order: seq<string>, signal: string): seq<string>
    requires forall n :: n in order ==> n in cfg.pipelines
  {
    if order == [] then [] else
    var last := order[|order| - 1];
    MergedFor(cfg, order[..|order| - 1], signal) + if SignalOf(last) == signal then cfg.pipelines[last] else []
  }

  function PipelineSignals(cfg: Config): set<string>
  {
    set n | n in cfg.pipelines :: SignalOf(n)
  }

  /** What pipelineProcessors returns, up to the order of each list. */
  ghost predicate IsMerged(cfg: Config, used: map<string, seq<string>>)
  {
    if cfg.pipelines == map[] then
      var all := SortedSet(cfg.processors.Keys);
      used == map["logs" := all, "traces" := all, "metrics" := all]
    else
      used.Keys == PipelineSignals(cfg) &&
      forall signal :: signal in used ==>
        multiset(used[signal]) == multiset(MergedFor(cfg, SortedSet(cfg.pipelines.Keys), signal))
  }

  lemma {:induction false} MergedConcat(cfg: Config, a: seq<string>, b: seq<string>, signal: string)
    requires forall n :: n in a + b ==> n in cfg.pipelines
    requires forall n :: n in a ==> n in cfg.pipelines
    requires forall n :: n in b ==> n in cfg.pipelines
    ensures MergedFor(cfg, a + b, signal) == MergedFor(cfg, a, signal) + MergedFor(cfg, b, signal)
  {
    hide SignalOf;
    if b == [] {
      assert a + b == a;
    } else {
      var init := b[..|b| - 1];
      assert (a + b)[..|a + b| - 1] == a + init;
      MergedConcat(cfg, a, init, signal);
    }
  }

  lemma MergedTakeOut(cfg: Config, a: seq<string>, x: string, b: seq<string>, signal: string)
    requires forall n :: n in a + [x] + b ==> n in cfg.pipelines
    requires forall n :: n in a + b ==> n in cfg.pipelines
    ensures multiset(MergedFor(cfg, a + [x] + b, signal)) ==
            multiset(MergedFor(cfg, a + b, signal)) + multiset(if SignalOf(x) == signal then cfg.pipelines[x] else [])
  {
    hide SignalOf;
    assert forall n :: n in a || n in b || n == x ==> n in a + [x] + b;
    assert (a + [x])[..|a|] == a;
    MergedConcat(cfg, a, b, signal);
    MergedConcat(cfg, a + [x], b, signal);
  }

  /** Visiting pipelines in another order permutes each signal's list. */
  lemma {:induction false} MergedPermutes(cfg: Config, a: seq<string>, b: seq<string>, signal: string)
    requires multiset(a) == multiset(b)
    requires forall n :: n in a ==> n in cfg.pipelines
    requires forall n :: n in b ==> n in cfg.pipelines
    ensures multiset(MergedFor(cfg, a, signal)) == multiset(MergedFor(cfg, b, signal))
    decreases |a|
  {
    hide SignalOf;
    assert |multiset(a)| == |a| && |multiset(b)| == |b|;
    if a != [] {
      var j := TakeLast(a, b);
      MergedPermutes(cfg, a[..|a| - 1], b[..j] + b[j + 1..], signal);
      MergedTakeOut(cfg, b[..j], b[j], b[j + 1..], signal);
    }
  }

  lemma {:induction false} SameElementsOnce(a: seq<string>, b: seq<string>)
    requires (forall i, j :: 0 <= i < j < |a| ==> a[i] != a[j]) && (forall i, j :: 0 <= i < j < |b| ==> b[i] != b[j])
    requires forall x :: x in a <==> x in b
    ensures multiset(a) == multiset(b)
  {
    forall x ensures multiset(a)[x] == multiset(b)[x] {
      OnceIn(a, x);
      OnceIn(b, x);
    }
  }

  lemma {:induction false} OnceIn(a: seq<string>, x: string)
    requires forall i, j :: 0 <= i < j < |a| ==> a[i] != a[j]
    ensures multiset(a)[x] == if x in a then 1 else 0
  {
    if a != [] {
      var init := a[..|a| - 1];
      assert a == init + [a[|a| - 1]];
      OnceIn(init, x);
    }
  }

  ghost function CanonicalMerge(cfg: Config): map<string, seq<string>>
  {
    if cfg.pipelines == map[] then
      var all := SortedSet(cfg.processors.Keys);
      map["logs" := all, "traces" := all, "metrics" := all]
    else map signal | signal in PipelineSignals(cfg) :: MergedFor(cfg, SortedSet(cfg.pipelines.Keys), signal)
  }

  /** The map after the pipelines in order have been visited. */
  ghost predicate MergedSoFar(cfg: Config, order: seq<string>, used: map<string, seq<string>>)
    requires forall n :: n in order ==> n in cfg.pipelines
  {
    used.Keys == (set n | n in order :: SignalOf(n)) &&
    forall signal :: signal in used ==> used[signal] == MergedFor(cfg, order, signal)
  }

  lemma MergeStep(cfg: Config, order: seq<string>, used: map<string, seq<string>>, name: string)
    requires (forall n :: n in order ==> n in cfg.pipelines) && MergedSoFar(cfg, order, used) && name in cfg.pipelines
    ensures forall n :: n in order + [name] ==> n in cfg.pipelines
    ensures var signal := SignalOf(name);
            MergedSoFar(cfg, order + [name],
                        used[signal := (if signal in used then used[signal] else []) + cfg.pipelines[name]])
  {
    hide SignalOf;
    Unseen(cfg, order, SignalOf(name));
    assert (order + [name])[..|order|] == order;
  }

  lemma AnyOrderMerges(cfg: Config, order: seq<string>)
    requires forall n :: n in order <==> n in cfg.pipelines
    requires forall i, j :: 0 <= i < j < |order| ==> order[i] != order[j]
    ensures forall n :: n in SortedSet(cfg.pipelines.Keys) ==> n in cfg.pipelines
    ensures forall signal ::
              multiset(MergedFor(cfg, order, signal)) ==
              multiset(MergedFor(cfg, SortedSet(cfg.pipelines.Keys), signal))
  {
    hide SignalOf, SortedSet, MergedFor, StrictlySorted;
    SortedOnce(cfg.pipelines.Keys);
    SameElementsOnce(order, SortedSet(cfg.pipelines.Keys));
    forall signal
      ensures multiset(MergedFor(cfg, order, signal)) == multiset(MergedFor(cfg, SortedSet(cfg.pipelines.Keys), signal))
    {
      MergedPermutes(cfg, order, SortedSet(cfg.pipelines.Keys), signal);
    }
  }

  lemma MergeDone(cfg: Config, order: seq<string>, used: map<string, seq<string>>)
    requires forall n :: n in order <==> n in cfg.pipelines
    requires forall i, j :: 0 <= i < j < |order| ==> order[i] != order[j]
    requires MergedSoFar(cfg, order, used)
    ensures |used| == 0 <==> cfg.pipelines == map[]
    ensures cfg.pipelines != map[] ==> IsMerged(cfg, used)
  {
    hide SignalOf, SortedSet, MergedFor, StrictlySorted;
    AnyOrderMerges(cfg, order);
    if cfg.pipelines != map[] {
      var n :| n in cfg.pipelines;
      assert SignalOf(n) in used.Keys;
    }
    assert |used| == |used.Keys|;
  }

  /** pipelineProcessors, for any order in which the pipelines map is walked. */
  method PipelineProcessors(cfg: Config) returns (used: map<string, seq<string>>)
    ensures IsMerged(cfg, used)
  {
    hide SignalOf, SortedSet, MergedSoFar, MergedFor;
    used := map[];
    var remaining := cfg.pipelines.Keys;
    ghost var order: seq<string> := [];
    NothingMerged(cfg);
    while remaining != {}
      invariant remaining <= cfg.pipelines.Keys
      invariant forall n :: n in order <==> n in cfg.pipelines && n !in remaining
      invariant forall i, j :: 0 <= i < j < |order| ==> order[i] != order[j]
      invariant MergedSoFar(cfg, order, used)
    {
      var name :| name in remaining;
      var signal := SignalOf(name);
      MergeStep(cfg, order, used, name);
      assert forall i :: 0 <= i < |order| ==> order[i] in order;
      used := used[signal := (if signal in used then used[signal] else []) + cfg.pipelines[name]];
      remaining := remaining - {name};
      order := order + [name];
    }
    MergeDone(cfg, order, used);
    if |used| > 0 {
      return;
    }
    var all := SortedSet(cfg.processors.Keys);
    used := map["logs" := all, "traces" := all, "metrics" := all];
  }

  lemma NothingMerged(cfg: Config)
    ensures MergedSoFar(cfg, [], map[])
  {
  }

  lemma SortedOnce(s: set<string>)
    ensures forall i, j :: 0 <= i < j < |SortedSet(s)| ==> SortedSet(s)[i] != SortedSet(s)[j]
    ensures forall x :: x in SortedSet(s) <==> x in s
  {
    hide Le;
  }

  lemma Unseen(cfg: Config, order: seq<string>, signal: string)
    requires forall n :: n in order ==> n in cfg.pipelines
    ensures signal !in (set n | n in order :: SignalOf(n)) ==> MergedFor(cfg, order, signal) == []
  {
    hide SignalOf;
    if order != [] {
      assert order[|order| - 1] in order;
      Unseen(cfg, order[..|order| - 1], signal);
    }
  }

  /** The known signals first, then the others sorted. */
  function OrderedSignals(signals: set<string>): seq<string>
  {
    (if "logs" in signals then ["logs"] else []) + (if "traces" in signals then ["traces"] else []) +
    (if "metrics" in signals then ["metrics"] else []) + SortedSet(signals - {"logs", "traces", "metrics"})
  }

  lemma OrderedSignalsMembers(signals: set<string>)
    ensures forall x :: x in OrderedSignals(signals) <==> x in signals
  {
    hide Le;
  }

  lemma OrderedSignalsOnce(signals: set<string>)
    ensures var o := OrderedSignals(signals); forall i, j :: 0 <= i < j < |o| ==> o[i] != o[j]
  {
    hide Le, SortedSet;
    SortedOnce(signals - {"logs", "traces", "metrics"});
  }

  function Place(signal: string): nat
  {
    if signal == "logs" then 0 else if signal == "traces" then 1 else if signal == "metrics" then 2 else 3
  }

  /** Logs before traces before metrics before all others, which are in ascending order. */
  lemma KnownSignalsFirst(signals: set<string>, i: nat, j: nat)
    requires i < j < |OrderedSignals(signals)|
    ensures var a, b := OrderedSignals(signals)[i], OrderedSignals(signals)[j];
            Place(a) < Place(b) || (Place(a) == Place(b) == 3 && Ascending(a, b))
  {
    hide Le, SortedSet, Ascending;
    var others := SortedSet(signals - {"logs", "traces", "metrics"});
    SortedSetMembers(signals - {"logs", "traces", "metrics"});
    var k := |OrderedSignals(signals)| - |others|;
    forall n | 0 <= n < |others| ensures Place(others[n]) == 3 {
      assert others[n] in others;
    }
    if i >= k {
      LeIsAscending(others[i - k], others[j - k]);
    }
  }

  /** Equal telemetry and coverage, and the same warnings in some order. */
  ghost predicate Alike(x: Result, y: Result)
  {
    x.output == y.output && multiset(x.warnings) == multiset(y.warnings) &&
    (set n | n in x.simulated) == (set n | n in y.simulated) &&
    (set n | n in x.unsupported) == (set n | n in y.unsupported)
  }

  ghost function SignalStart(signal: string, r: Result): Result
  {
    if signal == "traces" then r.(warnings := r.warnings + [TracesAreFixtureLocal]) else r
  }

  ghost function AllSignals(mx: Matcher, cfg: Config, used: map<string, seq<string>>, signals: seq<string>,
                            r: Result): Result
    requires forall x :: x in signals ==> x in used
  {
    if signals == [] then r else
    var last := signals[|signals| - 1];
    Steps(mx, cfg, last, used[last], SignalStart(last, AllSignals(mx, cfg, used, signals[..|signals| - 1], r)))
  }

  lemma AlikeSteps(mx: Matcher, cfg: Config, signal: string, a: seq<string>, b: seq<string>, x: Result, y: Result)
    requires multiset(a) == multiset(b) && Alike(x, y)
    ensures Alike(Steps(mx, cfg, signal, a, x), Steps(mx, cfg, signal, b, y))
  {
    hide ClosedOutput, ClosedWarnings, Covered, Steps;
    StepsReachClosedForm(mx, cfg, signal, a, x);
    StepsReachClosedForm(mx, cfg, signal, b, y);
    ClosedFormPermutes(mx, cfg, signal, a, b, x.output);
  }

  lemma {:induction false} AlikeSignals(mx: Matcher, cfg: Config, u: map<string, seq<string>>,
                                        v: map<string, seq<string>>, signals: seq<string>, r: Result)
    requires forall x :: x in signals ==> x in u && x in v && multiset(u[x]) == multiset(v[x])
    ensures Alike(AllSignals(mx, cfg, u, signals, r), AllSignals(mx, cfg, v, signals, r))
  {
    hide Steps;
    if signals != [] {
      var init, last := signals[..|signals| - 1], signals[|signals| - 1];
      AlikeSignals(mx, cfg, u, v, init, r);
      AlikeSteps(mx, cfg, last, u[last], v[last], SignalStart(last, AllSignals(mx, cfg, u, init, r)),
                 SignalStart(last, AllSignals(mx, cfg, v, init, r)));
    }
  }

  ghost function Simulation(mx: Matcher, cfg: Config, input: Snapshot): Result
  {
    OrderedSignalsMembers(CanonicalMerge(cfg).Keys);
    AllSignals(mx, cfg, CanonicalMerge(cfg), OrderedSignals(CanonicalMerge(cfg).Keys), Result(input, [], [], []))
  }

  // ----- the code -----

  class ApplyResult {
    var output: Snapshot
    var warnings: seq<Warning>
    var simulated: seq<string>
    var unsupported: seq<string>

    constructor (input: Snapshot)
      ensures Now() == Result(input, [], [], [])
    {
      output, warnings, simulated, unsupported := input, [], [], [];
    }

    function Now(): Result
      reads this
    {
      Result(output, warnings, simulated, unsupported)
    }

    /** Rewrites the records of one signal one after the other. */
    method RemoveAttributesForSignal(signal: string, keys: seq<string>)
      modifies this`output
      ensures output == Deleted(old(output), signal, set k | k in keys)
    {
      hide LogWithout, SpanWithout, MetricWithout;
      var keySet := set k | k in keys;
      ghost var before := output;
      if signal == "logs" {
        for i := 0 to |output.logs|
          invariant output == before.(logs := output.logs) && |output.logs| == |before.logs|
          invariant forall k :: 0 <= k < i ==> output.logs[k] == LogWithout(before.logs[k], keySet)
          invariant forall k :: i <= k < |before.logs| ==> output.logs[k] == before.logs[k]
        {
          output := output.(logs := output.logs[i := LogWithout(output.logs[i], keySet)]);
        }
        assert output.logs == LogsWithout(before.logs, keySet);
      } else if signal == "traces" {
        for i := 0 to |output.spans|
          invariant output == before.(spans := output.spans) && |output.spans| == |before.spans|
          invariant forall k :: 0 <= k < i ==> output.spans[k] == SpanWithout(before.spans[k], keySet)
          invariant forall k :: i <= k < |before.spans| ==> output.spans[k] == before.spans[k]
        {
          output := output.(spans := output.spans[i := SpanWithout(output.spans[i], keySet)]);
        }
        assert output.spans == SpansWithout(before.spans, keySet);
      } else if signal == "metrics" {
        for i := 0 to |output.metrics|
          invariant output == before.(metrics := output.metrics) && |output.metrics| == |before.metrics|
          invariant forall k :: 0 <= k < i ==> output.metrics[k] == MetricWithout(before.metrics[k], keySet)
          invariant forall k :: i <= k < |before.metrics| ==> output.metrics[k] == before.metrics[k]
        {
          output := output.(metrics := output.metrics[i := MetricWithout(output.metrics[i], keySet)]);
        }
        assert output.metrics == MetricsWithout(before.metrics, keySet);
      }
    }

    method ApplyDebugLogFilter(mx: Matcher, p: Processor) returns (applied: bool)
      modifies this`output, this`warnings
      ensures applied <==> IsDebugFilter(p)
      ensures output == if applied then old(output).(logs := WithoutDebug(mx, old(output.logs))) else old(output)
      ensures warnings == if applied then old(warnings) + VolumeWarning(mx, old(output.logs)) else old(warnings)
    {
      if !("logs" in p && p["logs"].Obj?) {
        return false;
      }
      var logs := p["logs"].fields;
      if !("include" in logs && logs["include"].Obj?) {
        return false;
      }
      var included := logs["include"].fields;
      if StringAt(included, "match_type") != "regexp" {
        return false;
      }
      if !("expressions" in included && included["expressions"].List?) || included["expressions"].items == [] {
        return false;
      }
      var first := included["expressions"].items[0];
      if !first.Str? {
        return false;
      }
      var mentions := Search(first.s, "debug");
      if !mentions {
        return false;
      }
      var before := |output.logs|;
      var kept := FilterDebugLogs(mx, output.logs);
      output := output.(logs := kept);
      var after := |output.logs|;
      if before > 0 && 2 * (before - after) >= before {
        warnings := warnings + [VolumeReduced(before - after, before)];
      }
      return true;
    }

    method ApplyProcessor(mx: Matcher, ghost cfg: Config, signal: string, name: string, p: Processor)
      requires name in cfg.processors && cfg.processors[name] == p
      modifies this
      ensures Now() == Step(mx, cfg, signal, name, old(Now()))
    {
      hide IsDebugFilter, RemoveKeys, WithoutDebug, VolumeWarning, FamilyOf, Step, Deleted;
      match FamilyOf(name) {
        case NoContent =>
          NoContentStep(mx, cfg, signal, name, Now());
          simulated := simulated + [name];
        case AttributeDeleter =>
          DeleterStep(mx, cfg, signal, name, p, Now());
          if "include" in p {
            warnings := warnings + [IncludeIgnored(name)];
          }
          if "exclude" in p {
            warnings := warnings + [ExcludeIgnored(name)];
          }
          assert warnings == old(warnings) + ScopeWarnings(name, p);
          var removeKeys := RemoveKeys(p);
          if removeKeys == [] {
            warnings := warnings + [OnlyDeletesSupported(name)];
            unsupported := unsupported + [name];
          } else {
            RemoveAttributesForSignal(signal, removeKeys);
            simulated := simulated + [name];
          }
        case LogFilter =>
          FilterStep(mx, cfg, signal, name, p, Now());
          if signal != "logs" {
            warnings := warnings + [NotSimulatedFor(name, signal)];
            unsupported := unsupported + [name];
          } else {
            var applied := ApplyDebugLogFilter(mx, p);
            if applied {
              simulated := simulated + [name];
              warnings := warnings + [PartialFilter(name)];
            } else {
              warnings := warnings + [NotSimulated(name)];
              unsupported := unsupported + [name];
            }
          }
        case Unknown =>
          UnknownStep(mx, cfg, signal, name, Now());
          warnings := warnings + [NotSimulated(name)];
          unsupported := unsupported + [name];
      }
    }
  }

  /** An include or exclude block narrows what the attributes processor touches; it is ignored with a warning. */
  function ScopeWarnings(name: string, p: Processor): seq<Warning>
  {
    (if "include" in p then [IncludeIgnored(name)] else []) + (if "exclude" in p then [ExcludeIgnored(name)] else [])
  }

  lemma NoContentStep(mx: Matcher, cfg: Config, signal: string, name: string, r: Result)
    requires name in cfg.processors && FamilyOf(name).NoContent?
    ensures Step(mx, cfg, signal, name, r) == r.(simulated := r.simulated + [name])
  {
    hide FamilyOf, Deleted;
    DeletedNothing(r.output, signal);
  }

  lemma DeleterStep(mx: Matcher, cfg: Config, signal: string, name: string, p: Processor, r: Result)
    requires name in cfg.processors && cfg.processors[name] == p && FamilyOf(name).AttributeDeleter?
    ensures RemoveKeys(p) == [] ==>
              Step(mx, cfg, signal, name, r) ==
              r.(warnings := r.warnings + ScopeWarnings(name, p) + [OnlyDeletesSupported(name)],
                 unsupported := r.unsupported + [name])
    ensures RemoveKeys(p) != [] ==>
              Step(mx, cfg, signal, name, r) ==
              r.(output := Deleted(r.output, signal, set k | k in RemoveKeys(p)),
                 warnings := r.warnings + ScopeWarnings(name, p), simulated := r.simulated + [name])
  {
    hide FamilyOf, Deleted, RemoveKeys;
    if RemoveKeys(p) == [] {
      assert KeysOf(cfg, name) == {};
      DeletedNothing(r.output, signal);
      assert r.warnings + StaticWarnings(cfg, signal, name) ==
             r.warnings + ScopeWarnings(name, p) + [OnlyDeletesSupported(name)];
    } else {
      assert StaticWarnings(cfg, signal, name) == ScopeWarnings(name, p);
    }
  }

  lemma FilterStep(mx: Matcher, cfg: Config, signal: string, name: string, p: Processor, r: Result)
    requires name in cfg.processors && cfg.processors[name] == p && FamilyOf(name).LogFilter?
    ensures Step(mx, cfg, signal, name, r) ==
            if signal != "logs"
            then r.(warnings := r.warnings + [NotSimulatedFor(name, signal)], unsupported := r.unsupported + [name])
            else if IsDebugFilter(p)
            then r.(output := r.output.(logs := WithoutDebug(mx, r.output.logs)),
                    warnings := r.warnings + VolumeWarning(mx, r.output.logs) + [PartialFilter(name)],
                    simulated := r.simulated + [name])
            else r.(warnings := r.warnings + [NotSimulated(name)], unsupported := r.unsupported + [name])
  {
    hide FamilyOf, Deleted, IsDebugFilter, WithoutDebug, VolumeWarning;
    DeletedNothing(r.output, signal);
  }

  lemma UnknownStep(mx: Matcher, cfg: Config, signal: string, name: string, r: Result)
    requires name in cfg.processors && FamilyOf(name).Unknown?
    ensures Step(mx, cfg, signal, name, r) ==
            r.(warnings := r.warnings + [NotSimulated(name)], unsupported := r.unsupported + [name])
  {
    hide FamilyOf, Deleted;
    DeletedNothing(r.output, signal);
  }

  lemma DeletedNothing(s: Snapshot, signal: string)
    ensures Deleted(s, signal, {}) == s
  {
    hide Without;
    forall m: Attributes ensures Without(m, {}) == m {
      WithoutNothing(m);
    }
    assert LogsWithout(s.logs, {}) == s.logs;
    assert SpansWithout(s.spans, {}) == s.spans;
    forall m: Metric ensures MetricWithout(m, {}) == m {
      assert MetricWithout(m, {}).points == m.points;
    }
    assert MetricsWithout(s.metrics, {}) == s.metrics;
  }

  method FilterDebugLogs(mx: Matcher, logs: seq<LogRecord>) returns (filtered: seq<LogRecord>)
    ensures filtered == WithoutDebug(mx, logs)
  {
    filtered := [];
    for i := 0 to |logs|
      invariant filtered == WithoutDebug(mx, logs[..i])
    {
      assert logs[..i + 1][..i] == logs[..i];
      var debug := Search(mx.lower(logs[i].body), "debug");
      if !debug {
        filtered := filtered + [logs[i]];
      }
    }
    assert logs[..|logs|] == logs;
  }

  /** applyConfig: the result is the same for every order in which Go walks the pipelines map. */
  method ApplyConfig(mx: Matcher, input: Snapshot, cfg: Config) returns (r: Result)
    ensures Alike(r, Simulation(mx, cfg, input))
    ensures StrictlySorted(r.simulated) && StrictlySorted(r.unsupported)
  {
    hide Step, IsMerged, OrderedSignals, SortedSet, CanonicalMerge, StrictlySorted;
    var result := new ApplyResult(input);
    var pipelines := PipelineProcessors(cfg);
    var signals := OrderedSignals(pipelines.Keys);
    OrderedSignalsMembers(pipelines.Keys);
    for i := 0 to |signals|
      invariant result.Now() == AllSignals(mx, cfg, pipelines, signals[..i], Result(input, [], [], []))
    {
      var signal := signals[i];
      var processors := pipelines[signal];
      assert signals[..i + 1][..i] == signals[..i];
      ghost var start := SignalStart(signal, result.Now());
      if signal == "traces" {
        result.warnings := result.warnings + [TracesAreFixtureLocal];
      }
      for j := 0 to |processors|
        invariant result.Now() == Steps(mx, cfg, signal, processors[..j], start)
      {
        var name := processors[j];
        assert processors[..j + 1][..j] == processors[..j];
        if name !in cfg.processors {
          UndefinedStep(mx, cfg, signal, name, result.Now());
          result.warnings := result.warnings + [Undefined(name)];
          result.unsupported := result.unsupported + [name];
        } else {
          result.ApplyProcessor(mx, cfg, signal, name, cfg.processors[name]);
        }
      }
      assert processors[..|processors|] == processors;
    }
    assert signals[..|signals|] == signals;
    MergeIsCanonical(mx, cfg, pipelines, input);
    SortedSetIs(set n | n in result.simulated);
    SortedSetIs(set n | n in result.unsupported);
    r := Result(result.output, result.warnings, SortedSet(set n | n in result.simulated),
                SortedSet(set n | n in result.unsupported));
  }

  lemma SortedSetIs(s: set<string>)
    ensures (set x | x in SortedSet(s)) == s && StrictlySorted(SortedSet(s))
  {
  }

  lemma UndefinedStep(mx: Matcher, cfg: Config, signal: string, name: string, r: Result)
    requires name !in cfg.processors
    ensures Step(mx, cfg, signal, name, r) ==
            Result(r.output, r.warnings + [Undefined(name)], r.simulated, r.unsupported + [name])
  {
    DeletedNothing(r.output, signal);
  }

  lemma MergeIsCanonical(mx: Matcher, cfg: Config, used: map<string, seq<string>>, input: Snapshot)
    requires IsMerged(cfg, used)
    ensures forall x :: x in OrderedSignals(used.Keys) ==> x in used
    ensures Alike(AllSignals(mx, cfg, used, OrderedSignals(used.Keys), Result(input, [], [], [])),
                  Simulation(mx, cfg, input))
  {
    hide OrderedSignals, AllSignals, Alike, SortedSet;
    OrderedSignalsMembers(used.Keys);
    assert used.Keys == CanonicalMerge(cfg).Keys;
    AlikeSignals(mx, cfg, used, CanonicalMerge(cfg), OrderedSignals(used.Keys), Result(input, [], [], []));
  }
}
