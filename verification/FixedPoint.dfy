/** The generated configuration is isolated, and parsing it again gives the topology it was generated from
    (parseTopology and topology.harness of internal/runner/topology.go). */
module FixedPoint {
  import opened Strings
  import opened Yaml
  import opened Topology
  import opened Harness
  import opened Selection

  lemma ComponentIdIsNotMerge(id: string)
    requires IsComponentId(id)
    ensures id != "<<"
  {
    assert Before(id, '/')[0] == id[0] && IsLetter(id[0]);
  }

  lemma HarnessIdIsComponentId()
    ensures IsComponentId(HARNESS_ID)
  {
    hide Before, IsNamePart;
    var s := HARNESS_ID;
    assert s[0] == 'o' && s[1] == 't' && s[2] == 'l' && s[3] == 'p' && s[4] == '/';
    BeforeSlash(s);
    HarnessNamePart();
  }

  lemma HarnessNamePart()
    ensures IsNamePart(HARNESS_ID[5..])
  {
  }

  lemma BeforeSlash(s: string)
    requires |s| > 4 && s[..4] == "otlp" && s[4] == '/'
    ensures Before(s, '/') == "otlp"
  {
    assert s[0] == "otlp"[0] && s[1] == "otlp"[1] && s[2] == "otlp"[2] && s[3] == "otlp"[3];
    assert Before(s[4..], '/') == "";
    assert Before(s[3..], '/') == [s[3]] + Before(s[3..][1..], '/');
    assert s[3..][1..] == s[4..] && s[2..][1..] == s[3..] && s[1..][1..] == s[2..];
    assert Before(s[2..], '/') == [s[2]] + Before(s[3..], '/');
    assert Before(s[1..], '/') == [s[1]] + Before(s[2..], '/');
  }

  // ----- the generated tree is valid -----

  /** The section of selected processors, as the harness repeats it. */
  lemma SectionFacts(t: Topology, definitions: map<string, Node>, pop: Population)
    requires WellFormed(t, definitions, pop)
    ensures ValidYaml(t.processors, 1) && Bare(t.processors) == t.processors && t.processors.kind == Mapping &&
            t.processors.tag == MapTag
    ensures KeysIn(t.processors.content) == set id | id in FirstUses(t.pipelines)
    ensures forall id :: id in FirstUses(t.pipelines) ==>
              IsComponentId(id) && LookupIn(t.processors.content, id) == Some(Bare(definitions[id]))
  {
    hide ValidYaml, Bare, KeysIn, LookupIn, KeysDistinct, KeysAreStrings, IsComponentId, FirstUses, DefinitionPairs;
    var ids := FirstUses(t.pipelines);
    FirstUsesOnce(t.pipelines);
    UsesAreUsable(t, definitions, pop);
    forall id | id in ids ensures id != "<<" {
      ComponentIdIsNotMerge(id);
    }
    PairsValid(ids, definitions, 2);
    DefinitionsById(ids, definitions);
    GoodMapNode(t.processors.content, 1);
    DefinitionsAreBare(ids, definitions);
  }

  lemma UsesAreUsable(t: Topology, definitions: map<string, Node>, pop: Population)
    requires WellFormed(t, definitions, pop)
    ensures forall id :: id in FirstUses(t.pipelines) ==>
              IsComponentId(id) && id in definitions && Usable(id, definitions[id])
  {
    hide IsComponentId, Usable, FirstUses, StrictlySorted, OnePerSignal, Serves, NoRepeats, SignalOf;
    FirstUsesMembers(t.pipelines);
    forall id | id in FirstUses(t.pipelines) ensures IsComponentId(id) && Usable(id, definitions[id]) {
      var p :| p in t.pipelines && id in p.processors;
      assert Runs(p, pop);
    }
  }

  lemma PipelinesByName(t: Topology, definitions: map<string, Node>, pop: Population)
    requires WellFormed(t, definitions, pop)
    ensures forall i, j :: 0 <= i < j < |t.pipelines| ==> t.pipelines[i].name != t.pipelines[j].name
    ensures forall p :: p in t.pipelines ==> p.name != "<<"
  {
    hide AllUsable, HoldsDefinitions, OnePerSignal, Serves, SignalOf, NoRepeats, IsComponentId, Le;
    forall i, j | 0 <= i < j < |t.pipelines| ensures t.pipelines[i].name != t.pipelines[j].name {
      assert PipelineNames(t.pipelines)[i] != PipelineNames(t.pipelines)[j];
    }
    forall p | p in t.pipelines ensures p.name != "<<" {
      assert Runs(p, pop);
      ComponentIdIsNotMerge(p.name);
    }
  }

  /** The service section of the harness. */
  lemma ServiceFacts(t: Topology, definitions: map<string, Node>, pop: Population)
    requires WellFormed(t, definitions, pop)
    ensures ValidYaml(ServiceNode(t.pipelines), 1)
    ensures LookupIn(ServiceNode(t.pipelines).content, Name(Pipelines)) == Some(MapNode(PipelineEntries(t.pipelines)))
    ensures KeysIn(PipelineEntries(t.pipelines)) == set p | p in t.pipelines :: p.name
    ensures forall p :: p in t.pipelines ==> LookupIn(PipelineEntries(t.pipelines), p.name) == Some(PipelineNode(p))
  {
    hide ValidYaml, PipelineNode, KeysIn, LookupIn, KeysDistinct, KeysAreStrings, WellFormed, PipelineEntries,
      TelemetryNode;
    PipelinesByName(t, definitions, pop);
    PipelineEntriesByName(t.pipelines);
    EntriesValid(t.pipelines, 3);
    GoodMapNode(PipelineEntries(t.pipelines), 2);
    ServiceFields(t.pipelines);
  }

  // ----- the generated tree at the top -----

  /** Exactly these four fields, all of them valid. */
  ghost predicate Top(h: Node, receivers: Node, processors: Node, exporters: Node, service: Node)
  {
    h.kind == Mapping && ValidYaml(h, 0) &&
    KeysIn(h.content) == {Name(Receivers), Name(Processors), Name(Exporters), Name(Service)} &&
    LookupIn(h.content, Name(Receivers)) == Some(receivers) &&
    LookupIn(h.content, Name(Processors)) == Some(processors) &&
    LookupIn(h.content, Name(Exporters)) == Some(exporters) && LookupIn(h.content, Name(Service)) == Some(service) &&
    LookupIn(h.content, Name(Connectors)) == None && LookupIn(h.content, Name(Extensions)) == None
  }

  lemma TreeTop(t: Topology, definitions: map<string, Node>, pop: Population, receiver: string, capture: string)
    requires WellFormed(t, definitions, pop)
    ensures Top(Tree(t, receiver, capture), OnlyHarness(ReceiverNode(receiver)), t.processors,
                OnlyHarness(ExporterNode(capture)),
                ServiceNode(t.pipelines))
  {
    hide *;
    SectionFacts(t, definitions, pop);
    ServiceFacts(t, definitions, pop);
    OnlyHarnessFacts(ReceiverNode(receiver), receiver, capture);
    OnlyHarnessFacts(ExporterNode(capture), receiver, capture);
    FourFieldsTop(OnlyHarness(ReceiverNode(receiver)), t.processors, OnlyHarness(ExporterNode(capture)),
                  ServiceNode(t.pipelines));
    TreeIsFourFields(t, receiver, capture);
  }

  lemma TreeIsFourFields(t: Topology, receiver: string, capture: string)
    requires Bare(t.processors) == t.processors
    ensures Tree(t, receiver, capture) ==
            FourFieldTree(OnlyHarness(ReceiverNode(receiver)), t.processors, OnlyHarness(ExporterNode(capture)),
                          ServiceNode(t.pipelines))
  {
    hide Bare, OnlyHarness, ReceiverNode, ExporterNode, ServiceNode, Name;
  }

  function FourFieldTree(receivers: Node, processors: Node, exporters: Node, service: Node): Node
  {
    MapNode([Key(Receivers), receivers, Key(Processors), processors, Key(Exporters), exporters, Key(Service), service])
  }

  lemma FourFieldsTop(receivers: Node, processors: Node, exporters: Node, service: Node)
    requires ValidYaml(receivers, 1) && ValidYaml(processors, 1) && ValidYaml(exporters, 1) && ValidYaml(service, 1)
    ensures Top(FourFieldTree(receivers, processors, exporters, service), receivers, processors, exporters, service)
  {
    hide ValidYaml, Name, KeysIn, LookupIn, GoodEntries;
    NamesApart();
    FourFields(Receivers, receivers, Processors, processors, Exporters, exporters, Service, service, 1);
    GoodMapNode(FourFieldTree(receivers, processors, exporters, service).content, 0);
  }

  /** The harness's own receiver and exporter are the only ones in it. */
  lemma OnlyHarnessFacts(definition: Node, receiver: string, capture: string)
    requires definition == ReceiverNode(receiver) || definition == ExporterNode(capture)
    ensures ValidYaml(OnlyHarness(definition), 1) && OnlyHarness(definition).kind == Mapping &&
            OnlyHarness(definition).tag == MapTag
    ensures KeysIn(OnlyHarness(definition).content) == {HARNESS_ID}
  {
    hide ValidYaml, KeysIn, LookupIn, ReceiverNode, ExporterNode, HARNESS_ID, IsComponentId;
    ReceiverValid(receiver);
    ExporterValid(capture);
    HarnessIdIsComponentId();
    ComponentIdIsNotMerge(HARNESS_ID);
    OneEntry(HARNESS_ID, definition, 1);
  }

  // ----- parsing the generated tree -----

  lemma HarnessShape(t: Topology, definitions: map<string, Node>, pop: Population, receiver: string, capture: string)
    requires WellFormed(t, definitions, pop)
    ensures ShapeOk(Tree(t, receiver, capture)) <==> t.pipelines != []
    ensures PipelinesNode(Tree(t, receiver, capture)) == Some(MapNode(PipelineEntries(t.pipelines)))
  {
    hide ValidYaml, Name, KeysIn, LookupIn, WellFormed, OnlyHarness, Tree, IsComponentId, HARNESS_ID, Bare, FirstUses,
      PipelineEntries, ReceiverNode, ExporterNode, ServiceNode, Entries;
    var h := Tree(t, receiver, capture);
    TreeTop(t, definitions, pop, receiver, capture);
    ServiceFacts(t, definitions, pop);
    ServiceIsMapping(t.pipelines);
    HarnessSections(t, definitions, pop, receiver, capture);
    assert IsTopLevelField(Name(Receivers)) && IsTopLevelField(Name(Processors)) && IsTopLevelField(Name(Exporters)) &&
           IsTopLevelField(Name(Service));
    assert |PipelineEntries(t.pipelines)| == 2 * |t.pipelines|;
    assert ServiceOk(h) <==> t.pipelines != [];
  }

  lemma HarnessSections(t: Topology, definitions: map<string, Node>, pop: Population, receiver: string, capture: string)
    requires WellFormed(t, definitions, pop)
    ensures SectionsOk(Tree(t, receiver, capture))
  {
    hide ValidYaml, Name, KeysIn, LookupIn, WellFormed, OnlyHarness, Tree, IsComponentId, HARNESS_ID, Bare, FirstUses,
      ReceiverNode, ExporterNode, ServiceNode, Entries;
    TreeTop(t, definitions, pop, receiver, capture);
    SectionFacts(t, definitions, pop);
    OnlyHarnessFacts(ReceiverNode(receiver), receiver, capture);
    OnlyHarnessFacts(ExporterNode(capture), receiver, capture);
    HarnessIdIsComponentId();
    FourSections(Tree(t, receiver, capture));
  }

  lemma FourSections(h: Node)
    requires LookupIn(h.content, Name(Connectors)) == None && LookupIn(h.content, Name(Extensions)) == None
    requires SectionOk(LookupIn(h.content, Name(Receivers))) && SectionOk(LookupIn(h.content, Name(Processors))) &&
             SectionOk(LookupIn(h.content, Name(Exporters)))
    ensures SectionsOk(h)
  {
  }

  lemma ServiceIsMapping(pipelines: seq<Pipeline>)
    ensures ServiceNode(pipelines).kind == Mapping
  {
  }

  /** Each pipeline of the harness receives, processes and exports as its references say, all of them defined. */
  lemma HarnessPipelineOk(t: Topology, definitions: map<string, Node>, pop: Population, receiver: string,
                          capture: string, p: Pipeline)
    requires WellFormed(t, definitions, pop) && p in t.pipelines
    ensures PipelineOk(Tree(t, receiver, capture), p.name, PipelineNode(p))
    ensures Refs(PipelineNode(p), Processors) == p.processors
  {
    hide ValidYaml, Name, KeysIn, LookupIn, WellFormed, Tree, IsComponentId, PipelineNode, Runs, RefsOk, Refs, SignalOf;
    PipelineFields(p, 4);
    RunsWhenWellFormed(t, definitions, pop, p);
    HarnessEnds(t, definitions, pop, receiver, capture, p);
    HarnessProcessors(t, definitions, pop, receiver, capture, p);
  }

  lemma RunsWhenWellFormed(t: Topology, definitions: map<string, Node>, pop: Population, p: Pipeline)
    requires WellFormed(t, definitions, pop) && p in t.pipelines
    ensures IsComponentId(p.name) && SignalOf(p.name) == Some(p.signal) && Has(pop, p.signal)
    ensures NoRepeats(p.processors) && forall id :: id in p.processors ==> IsComponentId(id)
  {
    assert Runs(p, pop);
  }

  lemma HarnessEnds(t: Topology, definitions: map<string, Node>, pop: Population, receiver: string, capture: string,
                    p: Pipeline)
    requires WellFormed(t, definitions, pop)
    ensures RefsOk(Tree(t, receiver, capture), PipelineNode(p), Receivers)
    ensures RefsOk(Tree(t, receiver, capture), PipelineNode(p), Exporters)
  {
    hide ValidYaml, Name, KeysIn, LookupIn, WellFormed, Tree, IsComponentId, PipelineNode, HARNESS_ID, OnlyHarness,
      ReceiverNode, ExporterNode, ServiceNode;
    PipelineFields(p, 4);
    TreeTop(t, definitions, pop, receiver, capture);
    OnlyHarnessFacts(ReceiverNode(receiver), receiver, capture);
    OnlyHarnessFacts(ExporterNode(capture), receiver, capture);
    HarnessIdIsComponentId();
    OneReference(HARNESS_ID);
  }

  lemma OneReference(id: string)
    requires IsComponentId(id)
    ensures SequenceOk(Some(SeqNode([id])), false) && SequenceIds(Some(SeqNode([id])), false) == [id]
  {
    hide IsComponentId;
  }

  lemma References(ids: seq<string>)
    requires NoRepeats(ids) && forall id :: id in ids ==> IsComponentId(id)
    ensures SequenceOk(Some(SeqNode(ids)), true) && SequenceIds(Some(SeqNode(ids)), true) == ids
  {
    hide IsComponentId;
  }

  lemma HarnessProcessors(t: Topology, definitions: map<string, Node>, pop: Population, receiver: string,
                          capture: string, p: Pipeline)
    requires WellFormed(t, definitions, pop) && p in t.pipelines
    ensures Refs(PipelineNode(p), Processors) == p.processors
    ensures RefsOk(Tree(t, receiver, capture), PipelineNode(p), Processors)
  {
    hide ValidYaml, Name, KeysIn, LookupIn, WellFormed, Tree, IsComponentId, PipelineNode, OnlyHarness, ReceiverNode,
      ExporterNode, ServiceNode, SequenceOk, SequenceIds, SeqNode, FirstUses, Bare, Runs, ProcessorOk, SignalOf;
    PipelineFields(p, 4);
    RunsWhenWellFormed(t, definitions, pop, p);
    References(p.processors);
    TreeTop(t, definitions, pop, receiver, capture);
    HarnessDefinitions(t, definitions, pop, receiver, capture);
    FirstUsesMembers(t.pipelines);
  }

  /** Every processor in use is defined in the harness by a plain copy of its source definition. */
  lemma HarnessDefinitions(t: Topology, definitions: map<string, Node>, pop: Population, receiver: string,
                           capture: string)
    requires WellFormed(t, definitions, pop)
    ensures var d := Definitions(Tree(t, receiver, capture));
            d.Keys == (set id | id in FirstUses(t.pipelines)) &&
            forall id :: id in FirstUses(t.pipelines) ==>
              id in definitions && d[id] == Bare(definitions[id]) && ProcessorOk(id, d[id]) && !Provides(d[id])
  {
    hide ValidYaml, Name, KeysIn, LookupIn, WellFormed, Tree, IsComponentId, OnlyHarness, ReceiverNode, ExporterNode,
      ServiceNode, FirstUses, Bare, Provides;
    TreeTop(t, definitions, pop, receiver, capture);
    SectionFacts(t, definitions, pop);
    UsesAreUsable(t, definitions, pop);
    forall id | id in FirstUses(t.pipelines)
      ensures !Provides(Bare(definitions[id])) && ProcessorOk(id, Bare(definitions[id]))
    {
      BareProvides(definitions[id]);
      BareProcessorOk(id, definitions[id]);
    }
  }

  lemma BareProcessorOk(id: string, d: Node)
    requires Usable(id, d)
    ensures ProcessorOk(id, Bare(d)) && !Provides(d)
  {
  }

  // ----- the fixed point -----

  /** The pipelines of the harness as the parser sees them. */
  ghost predicate Mirrors(ps: map<string, Node>, pipelines: seq<Pipeline>)
  {
    ps.Keys == (set p | p in pipelines :: p.name) &&
    forall p :: p in pipelines ==> p.name in ps && ps[p.name] == PipelineNode(p)
  }

  lemma HarnessMirrors(t: Topology, definitions: map<string, Node>, pop: Population, receiver: string, capture: string)
    requires WellFormed(t, definitions, pop) && ServiceOk(Tree(t, receiver, capture))
    ensures Mirrors(SourcePipelines(Tree(t, receiver, capture)), t.pipelines)
  {
    hide ValidYaml, Name, KeysIn, LookupIn, WellFormed, Tree, PipelineNode, PipelineEntries, ServiceNode;
    HarnessShape(t, definitions, pop, receiver, capture);
    ServiceFacts(t, definitions, pop);
  }

  lemma HarnessPipelinesOk(t: Topology, definitions: map<string, Node>, pop: Population, receiver: string,
                           capture: string, ps: map<string, Node>)
    requires WellFormed(t, definitions, pop) && Mirrors(ps, t.pipelines)
    ensures PipelinesOk(ps, Tree(t, receiver, capture)) && Covered(ps, pop)
  {
    hide Tree, PipelineNode, PipelineOk, SignalOf, WellFormed, Covered;
    forall n | n in ps ensures PipelineOk(Tree(t, receiver, capture), n, ps[n]) {
      var p :| p in t.pipelines && p.name == n;
      HarnessPipelineOk(t, definitions, pop, receiver, capture, p);
    }
    forall m, n | m in ps && n in ps && m != n ensures SignalOf(m) != SignalOf(n) {
      MirrorsApart(t, definitions, pop, ps, m, n);
    }
    MirrorsCover(t, definitions, pop, ps);
  }

  lemma MirrorsApart(t: Topology, definitions: map<string, Node>, pop: Population, ps: map<string, Node>, m: string,
                     n: string)
    requires WellFormed(t, definitions, pop) && Mirrors(ps, t.pipelines) && m in ps && n in ps && m != n
    ensures SignalOf(m) != SignalOf(n)
  {
    hide PipelineNode, SignalOf, IsComponentId, StrictlySorted, AllUsable, HoldsDefinitions, Has, Serves, NoRepeats;
    var p :| p in t.pipelines && p.name == m;
    var q :| q in t.pipelines && q.name == n;
    assert Runs(p, pop) && Runs(q, pop);
    var i :| 0 <= i < |t.pipelines| && t.pipelines[i] == p;
    var j :| 0 <= j < |t.pipelines| && t.pipelines[j] == q;
  }

  lemma MirrorsCover(t: Topology, definitions: map<string, Node>, pop: Population, ps: map<string, Node>)
    requires WellFormed(t, definitions, pop) && Mirrors(ps, t.pipelines)
    ensures Covered(ps, pop)
  {
    hide PipelineNode, SignalOf, IsComponentId, StrictlySorted, AllUsable, HoldsDefinitions, Has, OnePerSignal,
      NoRepeats;
    forall s | Has(pop, s) ensures exists n :: n in ps && SignalOf(n) == Some(s) {
      var p :| p in t.pipelines && p.signal == s;
      assert Runs(p, pop) && p.name in ps;
    }
  }

  lemma HarnessInline(t: Topology, definitions: map<string, Node>, pop: Population, receiver: string, capture: string,
                      ps: map<string, Node>)
    requires WellFormed(t, definitions, pop)
    ensures Inline(ps, Definitions(Tree(t, receiver, capture)), pop)
  {
    hide Tree, Definitions, Refs, IsActive, Provides, FirstUses, WellFormed, ProcessorOk, Bare;
    HarnessDefinitions(t, definitions, pop, receiver, capture);
  }

  lemma HarnessActive(t: Topology, definitions: map<string, Node>, pop: Population, ps: map<string, Node>)
    requires WellFormed(t, definitions, pop) && Mirrors(ps, t.pipelines)
    ensures SortedSet(ActiveNames(ps, pop)) == PipelineNames(t.pipelines)
  {
    hide PipelineNode, SignalOf, IsComponentId, StrictlySorted, AllUsable, HoldsDefinitions, OnePerSignal, Serves,
      Has, NoRepeats, SortedSet;
    var names := PipelineNames(t.pipelines);
    forall n ensures n in names <==> n in SortedSet(ActiveNames(ps, pop)) {
      if n in names {
        var i :| 0 <= i < |names| && names[i] == n;
        assert Runs(t.pipelines[i], pop);
      } else {
        forall p | p in t.pipelines ensures p.name in names {
          var i :| 0 <= i < |names| && t.pipelines[i] == p;
          assert names[i] == p.name;
        }
      }
    }
    StrictlySortedUnique(SortedSet(ActiveNames(ps, pop)), names);
  }

  lemma {:induction false} SamePairs(ids: seq<string>, a: map<string, Node>, b: map<string, Node>)
    requires forall id :: id in ids ==> id in a && id in b && a[id] == Bare(b[id])
    ensures DefinitionPairs(ids, a) == DefinitionPairs(ids, b)
  {
    hide Bare;
    if ids != [] {
      assert ids == ids[..|ids| - 1] + [ids[|ids| - 1]];
      assert forall id :: id in ids[..|ids| - 1] ==> id in ids;
      SamePairs(ids[..|ids| - 1], a, b);
      BareTwice(b[ids[|ids| - 1]]);
    }
  }

  lemma SamePipelines(t: Topology, definitions: map<string, Node>, pop: Population, receiver: string, capture: string,
                      ps: map<string, Node>)
    requires WellFormed(t, definitions, pop) && Mirrors(ps, t.pipelines)
    ensures var names := PipelineNames(t.pipelines);
            (forall n :: n in names ==> n in ps && SignalOf(n).Some?) && AsPipelines(names, ps) == t.pipelines
  {
    hide PipelineNode, SignalOf, IsComponentId, StrictlySorted, WellFormed, Has, NoRepeats, Refs;
    var names := PipelineNames(t.pipelines);
    forall i | 0 <= i < |t.pipelines|
      ensures names[i] in ps && SignalOf(names[i]) == Some(t.pipelines[i].signal)
      ensures Refs(ps[names[i]], Processors) == t.pipelines[i].processors
    {
      HarnessPipelineOk(t, definitions, pop, receiver, capture, t.pipelines[i]);
      RunsWhenWellFormed(t, definitions, pop, t.pipelines[i]);
    }
  }

  /** The parser accepts the generated configuration exactly when something runs, and selects from it the same
      pipelines, the same processors in the same order and the same definitions. */
  lemma HarnessIsFixedPoint(root: Node, pop: Population, receiver: string, capture: string)
    requires Accepts(root, pop)
    ensures var t := Selected(root, pop);
            var h := Tree(t, receiver, capture);
            (Accepts(h, pop) <==> t.pipelines != []) && (Accepts(h, pop) ==> Selected(h, pop) == t)
  {
    hide Selected, Tree, WellFormed, ValidYaml;
    SelectedIsWellFormed(root, pop);
    WellFormedIsFixedPoint(Selected(root, pop), Definitions(root), pop, receiver, capture);
  }

  lemma WellFormedIsFixedPoint(t: Topology, definitions: map<string, Node>, pop: Population, receiver: string,
                               capture: string)
    requires WellFormed(t, definitions, pop)
    ensures var h := Tree(t, receiver, capture);
            (Accepts(h, pop) <==> t.pipelines != []) && (Accepts(h, pop) ==> Selected(h, pop) == t)
  {
    hide WellFormed, Tree, SectionsOk, ServiceOk, ValidYaml, PipelinesOk, Covered, Inline, Definitions,
      SourcePipelines, Selected;
    var h := Tree(t, receiver, capture);
    HarnessShape(t, definitions, pop, receiver, capture);
    if t.pipelines != [] {
      var ps := SourcePipelines(h);
      HarnessMirrors(t, definitions, pop, receiver, capture);
      HarnessPipelinesOk(t, definitions, pop, receiver, capture, ps);
      HarnessInline(t, definitions, pop, receiver, capture, ps);
      SelectedAgain(t, definitions, pop, receiver, capture);
    }
  }

  lemma SelectedAgain(t: Topology, definitions: map<string, Node>, pop: Population, receiver: string, capture: string)
    requires WellFormed(t, definitions, pop) && Accepts(Tree(t, receiver, capture), pop)
    ensures Selected(Tree(t, receiver, capture), pop) == t
  {
    hide Tree, SectionsOk, ServiceOk, ValidYaml, PipelinesOk, Covered, Inline, Definitions, SourcePipelines,
      AsPipelines, FirstUses, DefinitionPairs, Mirrors;
    var h := Tree(t, receiver, capture);
    var ps := SourcePipelines(h);
    HarnessMirrors(t, definitions, pop, receiver, capture);
    HarnessActive(t, definitions, pop, ps);
    SamePipelines(t, definitions, pop, receiver, capture, ps);
    HarnessDefinitions(t, definitions, pop, receiver, capture);
    SamePairs(FirstUses(t.pipelines), Definitions(h), definitions);
  }

  /** Nothing of the source but the selected processors reaches the harness: one receiver, one exporter, no
      extension or connector, and every reference inside resolves. */
  lemma HarnessIsIsolated(root: Node, pop: Population, receiver: string, capture: string)
    requires Accepts(root, pop)
    ensures var h := Tree(Selected(root, pop), receiver, capture);
            KeysIn(h.content) == {Name(Receivers), Name(Processors), Name(Exporters), Name(Service)} &&
            Components(LookupIn(h.content, Name(Receivers))) == map[HARNESS_ID := ReceiverNode(receiver)] &&
            Components(LookupIn(h.content, Name(Exporters))) == map[HARNESS_ID := ExporterNode(capture)] &&
            Definitions(h).Keys == (set id | id in FirstUses(Selected(root, pop).pipelines)) &&
            (ServiceOk(h) ==> PipelinesOk(SourcePipelines(h), h))
  {
    hide Selected, Tree, WellFormed, ValidYaml, KeysIn, LookupIn, Name, ReceiverNode, ExporterNode, HARNESS_ID,
      PipelinesOk, SourcePipelines,
      ServiceOk, OnlyHarness, Definitions, FirstUses, ServiceNode, Accepts, Covered, Bare, ProcessorOk;
    SelectedIsWellFormed(root, pop);
    var t := Selected(root, pop);
    var h := Tree(t, receiver, capture);
    TreeTop(t, Definitions(root), pop, receiver, capture);
    OnlyHarnessComponents(ReceiverNode(receiver));
    OnlyHarnessComponents(ExporterNode(capture));
    HarnessDefinitions(t, Definitions(root), pop, receiver, capture);
    if ServiceOk(h) {
      HarnessMirrors(t, Definitions(root), pop, receiver, capture);
      HarnessPipelinesOk(t, Definitions(root), pop, receiver, capture, SourcePipelines(h));
    }
  }

  lemma OnlyHarnessComponents(definition: Node)
    ensures Components(Some(OnlyHarness(definition))) == map[HARNESS_ID := definition]
  {
    hide HARNESS_ID, Entries;
    SingleEntry(HARNESS_ID, definition);
  }

  lemma SingleEntry(key: string, v: Node)
    ensures Entries([StrNode(key), v]) == map[key := v]
  {
    var c := [StrNode(key), v];
    assert c[2..] == [];
    assert KeysIn(c) == {key};
    assert LookupIn(c, key) == Some(c[1]);
  }
}
