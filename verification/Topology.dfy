/** Accepting a source configuration and selecting what a run executes (parseTopology of
    internal/runner/topology.go). */
module Topology {
  import opened Signals
  import opened Strings
  import opened Yaml

  /** The mapping keys the code asks for. */
  datatype Field = Receivers | Processors | Exporters | Extensions | Connectors | Service | Pipelines

  function Name(f: Field): string
  {
    match f
    case Receivers => "receivers"
    case Processors => "processors"
    case Exporters => "exporters"
    case Extensions => "extensions"
    case Connectors => "connectors"
    case Service => "service"
    case Pipelines => "pipelines"
  }

  lemma NamesDiffer(f: Field, g: Field)
    requires Name(f) == Name(g)
    ensures f == g
  {
    var a, b := Name(f), Name(g);
    assert |a| == |b| && a[0] == b[0] && a[1] == b[1] && a[2] == b[2];
  }

  /** Which signals the fixture contains. */
  datatype Population = Population(logs: bool, traces: bool, metrics: bool)

  predicate Has(pop: Population, s: Signal)
  {
    match s case Logs => pop.logs case Traces => pop.traces case Metrics => pop.metrics
  }

  function SignalOf(name: string): Option<Signal>
  {
    var s := Before(name, '/');
    if s == "logs" then Some(Logs)
    else if s == "traces" then Some(Traces)
    else if s == "metrics" then Some(Metrics) else None
  }

  // ----- component identifiers -----

  predicate IsLetter(c: char)
  {
    'a' <= c <= 'z' || 'A' <= c <= 'Z'
  }

  predicate IsAlnum(c: char)
  {
    IsLetter(c) || '0' <= c <= '9'
  }

  predicate IsTypePart(s: string)
  {
    1 <= |s| <= 64 && IsLetter(s[0]) && forall i :: 0 <= i < |s| ==> IsAlnum(s[i]) || s[i] == '_'
  }

  predicate IsNamePart(s: string)
  {
    1 <= |s| <= 128 && IsAlnum(s[0]) && forall i :: 0 <= i < |s| ==> IsAlnum(s[i]) || s[i] in "_.-"
  }

  /** type or type/name */
  predicate IsComponentId(s: string)
  {
    var t := Before(s, '/');
    |t| <= |s| && IsTypePart(t) && (|t| == |s| || IsNamePart(s[|t| + 1..]))
  }

  // ----- what is accepted -----

  datatype Pipeline = Pipeline(name: string, signal: Signal, processors: seq<string>)
  datatype Topology = Topology(pipelines: seq<Pipeline>, processors: Node)

  predicate SectionOk(s: Option<Node>)
  {
    s.None? || s.value.tag == NullTag ||
    (s.value.kind == Mapping && forall k :: k in KeysIn(s.value.content) ==> IsComponentId(k))
  }

  function Components(s: Option<Node>): map<string, Node>
  {
    if s.None? || s.value.tag == NullTag || s.value.kind != Mapping then map[] else Entries(s.value.content)
  }

  predicate Omitted(n: Option<Node>, optional: bool)
  {
    optional && (n.None? || n.value.tag == NullTag)
  }

  predicate IsReference(item: Node)
  {
    item.kind == Scalar && item.tag == StrTag && IsComponentId(item.value)
  }

  predicate SequenceOk(n: Option<Node>, optional: bool)
  {
    Omitted(n, optional) ||
    (n.Some? && n.value.kind == Sequence && (optional || n.value.content != []) &&
     (forall i :: 0 <= i < |n.value.content| ==> IsReference(n.value.content[i])) &&
     forall i, j :: 0 <= i < j < |n.value.content| ==> n.value.content[i].value != n.value.content[j].value)
  }

  function SequenceIds(n: Option<Node>, optional: bool): seq<string>
  {
    if Omitted(n, optional) || n.None? then []
    else seq(|n.value.content|, i requires 0 <= i < |n.value.content| => n.value.content[i].value)
  }

  function Refs(p: Node, f: Field): seq<string>
  {
    SequenceIds(LookupIn(p.content, Name(f)), f == Processors)
  }

  predicate ProcessorOk(id: string, definition: Node)
  {
    Before(id, '/') != "routing" && (definition.kind == Mapping || definition.tag == NullTag)
  }

  predicate IsPipelineField(k: string)
  {
    k == Name(Receivers) || k == Name(Processors) || k == Name(Exporters)
  }

  /** All references of one kind are listed explicitly and defined. */
  predicate RefsOk(root: Node, p: Node, f: Field)
  {
    SequenceOk(LookupIn(p.content, Name(f)), f == Processors) &&
    forall id :: id in Refs(p, f) ==>
      id in Components(LookupIn(root.content, Name(f))) &&
      (f == Processors ==> ProcessorOk(id, Components(LookupIn(root.content, Name(f)))[id]))
  }

  predicate PipelineOk(root: Node, name: string, p: Node)
  {
    IsComponentId(name) && SignalOf(name).Some? && p.kind == Mapping &&
    (forall k :: k in KeysIn(p.content) ==> IsPipelineField(k)) &&
    RefsOk(root, p, Receivers) && RefsOk(root, p, Processors) && RefsOk(root, p, Exporters)
  }

  predicate IsTopLevelField(k: string)
  {
    k == Name(Receivers) || k == Name(Processors) || k == Name(Exporters) || k == Name(Extensions) ||
    k == Name(Connectors) || k == Name(Service)
  }

  function PipelinesNode(root: Node): Option<Node>
  {
    Lookup(LookupIn(root.content, Name(Service)), Name(Pipelines))
  }

  predicate ServiceOk(root: Node)
  {
    var service := LookupIn(root.content, Name(Service));
    service.Some? && service.value.kind == Mapping &&
    var pipelines := PipelinesNode(root);
    pipelines.Some? && pipelines.value.kind == Mapping && pipelines.value.content != []
  }

  function SourcePipelines(root: Node): map<string, Node>
    requires ServiceOk(root)
  {
    Entries(PipelinesNode(root).value.content)
  }

  function Definitions(root: Node): map<string, Node>
  {
    Components(LookupIn(root.content, Name(Processors)))
  }

  predicate SectionsOk(root: Node)
  {
    SectionOk(LookupIn(root.content, Name(Receivers))) && SectionOk(LookupIn(root.content, Name(Processors))) &&
    SectionOk(LookupIn(root.content, Name(Exporters))) && SectionOk(LookupIn(root.content, Name(Connectors))) &&
    SectionOk(LookupIn(root.content, Name(Extensions))) &&
    Components(LookupIn(root.content, Name(Connectors))).Keys == {}
  }

  /** The configuration is a mapping of known sections, its components have identifiers, and there are no connectors. */
  predicate ShapeOk(root: Node)
  {
    root.kind == Mapping && ValidYaml(root, 0) && (forall k :: k in KeysIn(root.content) ==> IsTopLevelField(k)) &&
    SectionsOk(root) && ServiceOk(root)
  }

  /** Every pipeline is explicit and supported, and no two carry the same signal. */
  predicate PipelinesOk(ps: map<string, Node>, root: Node)
  {
    (forall n :: n in ps ==> PipelineOk(root, n, ps[n])) &&
    forall m, n :: m in ps && n in ps && m != n ==> SignalOf(m) != SignalOf(n)
  }

  predicate Covered(ps: map<string, Node>, pop: Population)
  {
    forall s :: Has(pop, s) ==> exists n :: n in ps && SignalOf(n) == Some(s)
  }

  predicate IsActive(name: string, pop: Population)
  {
    SignalOf(name).Some? && Has(pop, SignalOf(name).value)
  }

  /** No processor that would run takes anything from a provider. */
  predicate Inline(ps: map<string, Node>, definitions: map<string, Node>, pop: Population)
  {
    forall n, id :: n in ps && IsActive(n, pop) && id in Refs(ps[n], Processors) && id in definitions ==>
      !Provides(definitions[id])
  }

  predicate Accepts(root: Node, pop: Population)
  {
    ShapeOk(root) && PipelinesOk(SourcePipelines(root), root) && Covered(SourcePipelines(root), pop) &&
    Inline(SourcePipelines(root), Definitions(root), pop)
  }

  // ----- what is selected -----

  function ActiveNames(ps: map<string, Node>, pop: Population): set<string>
  {
    set n | n in ps && IsActive(n, pop)
  }

  function AsPipelines(names: seq<string>, ps: map<string, Node>): seq<Pipeline>
    requires forall n :: n in names ==> n in ps && SignalOf(n).Some?
  {
    seq(|names|, i requires 0 <= i < |names| =>
      Pipeline(names[i], SignalOf(names[i]).value, Refs(ps[names[i]], Processors)))
  }

  /** ids appended to acc, each once. */
  function AddNew(acc: seq<string>, ids: seq<string>): seq<string>
  {
    if ids == [] then acc else
    var init := AddNew(acc, ids[..|ids| - 1]);
    if ids[|ids| - 1] in init then init else init + [ids[|ids| - 1]]
  }

  /** The processors of the pipelines in order of first use. */
  function FirstUses(pipelines: seq<Pipeline>): seq<string>
  {
    if pipelines == [] then [] else
    AddNew(FirstUses(pipelines[..|pipelines| - 1]), pipelines[|pipelines| - 1].processors)
  }

  function StrNode(s: string): Node
  {
    Node(Scalar, StrTag, s, "", "", [])
  }

  function DefinitionPairs(ids: seq<string>, definitions: map<string, Node>): (r: seq<Node>)
    requires forall id :: id in ids ==> id in definitions
    ensures |r| == 2 * |ids|
  {
    if ids == [] then [] else
    DefinitionPairs(ids[..|ids| - 1], definitions) + [StrNode(ids[|ids| - 1]), Bare(definitions[ids[|ids| - 1]])]
  }

  function MapNode(content: seq<Node>): Node
  {
    Node(Mapping, MapTag, "", "", "", content)
  }

  lemma {:induction false} AddNewMembers(acc: seq<string>, ids: seq<string>)
    ensures forall x :: x in AddNew(acc, ids) <==> x in acc || x in ids
  {
    if ids != [] {
      AddNewMembers(acc, ids[..|ids| - 1]);
      assert ids == ids[..|ids| - 1] + [ids[|ids| - 1]];
    }
  }

  lemma {:induction false} FirstUsesMembers(pipelines: seq<Pipeline>)
    ensures forall x :: x in FirstUses(pipelines) <==> exists p :: p in pipelines && x in p.processors
  {
    if pipelines != [] {
      var init, last := pipelines[..|pipelines| - 1], pipelines[|pipelines| - 1];
      assert pipelines == init + [last];
      FirstUsesMembers(init);
      AddNewMembers(FirstUses(init), last.processors);
    }
  }

  ghost predicate NoRepeats(xs: seq<string>)
  {
    forall i, j :: 0 <= i < j < |xs| ==> xs[i] != xs[j]
  }

  lemma {:induction false} AddNewOnce(acc: seq<string>, ids: seq<string>)
    requires NoRepeats(acc)
    ensures NoRepeats(AddNew(acc, ids))
  {
    if ids != [] {
      AddNewOnce(acc, ids[..|ids| - 1]);
    }
  }

  lemma {:induction false} FirstUsesOnce(pipelines: seq<Pipeline>)
    ensures NoRepeats(FirstUses(pipelines))
  {
    if pipelines != [] {
      FirstUsesOnce(pipelines[..|pipelines| - 1]);
      AddNewOnce(FirstUses(pipelines[..|pipelines| - 1]), pipelines[|pipelines| - 1].processors);
    }
  }

  lemma ActiveAreKnown(ps: map<string, Node>, pop: Population, root: Node)
    requires PipelinesOk(ps, root)
    ensures var names := SortedSet(ActiveNames(ps, pop));
            (forall n :: n in names ==> n in ps && SignalOf(n).Some?) &&
            forall id :: id in FirstUses(AsPipelines(names, ps)) ==> id in Definitions(root)
  {
    hide SortedSet, SignalOf, RefsOk, IsComponentId, IsPipelineField, Refs, Definitions;
    var names := SortedSet(ActiveNames(ps, pop));
    SortedSetMembers(ActiveNames(ps, pop));
    var pipelines := AsPipelines(names, ps);
    FirstUsesMembers(pipelines);
    forall id | id in FirstUses(pipelines) ensures id in Definitions(root) {
      var p :| p in pipelines && id in p.processors;
      var i :| 0 <= i < |pipelines| && pipelines[i] == p;
      RefsAreDefined(root, ps[names[i]], id);
    }
  }

  lemma RefsAreDefined(root: Node, p: Node, id: string)
    requires RefsOk(root, p, Processors) && id in Refs(p, Processors)
    ensures id in Definitions(root)
  {
  }

  /** The active pipelines by name, and exactly the processors they use with their source definitions. */
  function Selected(root: Node, pop: Population): Topology
    requires Accepts(root, pop)
  {
    var ps := SourcePipelines(root);
    ActiveAreKnown(ps, pop, root);
    var pipelines := AsPipelines(SortedSet(ActiveNames(ps, pop)), ps);
    Topology(pipelines, MapNode(DefinitionPairs(FirstUses(pipelines), Definitions(root))))
  }
}
