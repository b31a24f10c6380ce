/** What is known of every topology the parser returns, and how the verdicts it makes uncertain are scoped to
    signals (parseTopology, inconclusive and inconclusiveSignals of internal/runner/topology.go). */
module Selection {
  import opened Strings
  import opened Yaml
  import opened Topology

  function PipelineNames(ps: seq<Pipeline>): (r: seq<string>)
    ensures |r| == |ps|
  {
    seq(|ps|, i requires 0 <= i < |ps| => ps[i].name)
  }

  /** A pipeline that runs: populated, named after its signal, and without a repeated processor. */
  ghost predicate Runs(p: Pipeline, pop: Population)
  {
    IsComponentId(p.name) && SignalOf(p.name) == Some(p.signal) && Has(pop, p.signal) &&
    NoRepeats(p.processors) && forall id :: id in p.processors ==> IsComponentId(id)
  }

  /** A definition that may run: supported, plain, and complete in itself. */
  predicate Usable(id: string, definition: Node)
  {
    ProcessorOk(id, definition) && ValidYaml(definition, 2) && !Provides(definition)
  }

  ghost predicate AllUsable(ps: seq<Pipeline>, definitions: map<string, Node>)
  {
    forall p, id :: p in ps && id in p.processors ==> id in definitions && Usable(id, definitions[id])
  }

  ghost predicate OnePerSignal(ps: seq<Pipeline>)
  {
    forall i, j :: 0 <= i < |ps| && 0 <= j < |ps| && ps[i].signal == ps[j].signal ==> i == j
  }

  ghost predicate Serves(ps: seq<Pipeline>, pop: Population)
  {
    forall s :: Has(pop, s) ==> exists p :: p in ps && p.signal == s
  }

  /** The section holds exactly the processors in use, each once, in order of first use, with their definitions. */
  ghost predicate HoldsDefinitions(t: Topology, definitions: map<string, Node>)
  {
    (forall id :: id in FirstUses(t.pipelines) ==> id in definitions) &&
    t.processors == MapNode(DefinitionPairs(FirstUses(t.pipelines), definitions))
  }

  ghost predicate WellFormed(t: Topology, definitions: map<string, Node>, pop: Population)
  {
    StrictlySorted(PipelineNames(t.pipelines)) && (forall p :: p in t.pipelines ==> Runs(p, pop)) &&
    OnePerSignal(t.pipelines) && Serves(t.pipelines, pop) && AllUsable(t.pipelines, definitions) &&
    HoldsDefinitions(t, definitions)
  }

  // ----- everything selected is well formed -----

  lemma {:induction false} LookupIsChild(content: seq<Node>, k: string)
    ensures LookupIn(content, k).Some? ==> LookupIn(content, k).value in content
  {
    if |content| >= 2 && content[0].value != k {
      LookupIsChild(content[2..], k);
    }
  }

  lemma LookupIsValid(n: Node, k: string, depth: nat)
    requires ValidYaml(n, depth) && LookupIn(n.content, k).Some?
    ensures ValidYaml(LookupIn(n.content, k).value, depth + 1)
  {
    LookupIsChild(n.content, k);
  }

  lemma DefinitionValid(root: Node, id: string)
    requires ValidYaml(root, 0) && id in Definitions(root)
    ensures ValidYaml(Definitions(root)[id], 2)
  {
    hide ValidYaml;
    LookupIsValid(root, Name(Processors), 0);
    var section := LookupIn(root.content, Name(Processors)).value;
    LookupFindsKeys(section.content, id);
    LookupIsValid(section, id, 1);
  }

  /** What one accepted pipeline contributes when its signal is populated. */
  lemma PipelineRuns(root: Node, name: string, p: Node, pop: Population)
    requires PipelineOk(root, name, p) && IsActive(name, pop)
    ensures Runs(Pipeline(name, SignalOf(name).value, Refs(p, Processors)), pop)
    ensures forall id :: id in Refs(p, Processors) ==>
              id in Definitions(root) && ProcessorOk(id, Definitions(root)[id])
  {
    hide IsComponentId, SignalOf, Name, ProcessorOk;
    SequenceIdsOnce(LookupIn(p.content, Name(Processors)), true);
  }

  lemma SequenceIdsOnce(n: Option<Node>, optional: bool)
    requires SequenceOk(n, optional)
    ensures NoRepeats(SequenceIds(n, optional)) && forall id :: id in SequenceIds(n, optional) ==> IsComponentId(id)
  {
    hide IsComponentId;
  }

  /** The pipelines are the active entries of ps, in name order. */
  ghost predicate Drawn(pipelines: seq<Pipeline>, ps: map<string, Node>, pop: Population)
  {
    PipelineNames(pipelines) == SortedSet(ActiveNames(ps, pop)) && forall p :: p in pipelines ==> DrawnOne(p, ps, pop)
  }

  predicate DrawnOne(p: Pipeline, ps: map<string, Node>, pop: Population)
  {
    p.name in ps && IsActive(p.name, pop) && p == Pipeline(p.name, SignalOf(p.name).value, Refs(ps[p.name], Processors))
  }

  lemma SelectedDrawn(root: Node, pop: Population)
    requires Accepts(root, pop)
    ensures Drawn(Selected(root, pop).pipelines, SourcePipelines(root), pop)
  {
    hide PipelinesOk, ValidYaml, SectionsOk, ServiceOk, Covered, Inline, SourcePipelines, Refs, SignalOf, Definitions,
      Has;
    var ps := SourcePipelines(root);
    AsPipelinesDrawn(ps, pop, root);
  }

  /** Being drawn from the entries determines the pipelines. */
  lemma DrawnIsSelected(active: seq<Pipeline>, root: Node, pop: Population)
    requires Accepts(root, pop) && Drawn(active, SourcePipelines(root), pop)
    ensures Selected(root, pop).pipelines == active
  {
    hide PipelinesOk, ValidYaml, SectionsOk, ServiceOk, Covered, Inline, SourcePipelines, Refs, SignalOf, Has,
      Selected, IsActive;
    SelectedDrawn(root, pop);
    var selected := Selected(root, pop).pipelines;
    assert |selected| == |PipelineNames(selected)| == |active|;
    forall i | 0 <= i < |active| ensures active[i] == selected[i] {
      assert PipelineNames(active)[i] == PipelineNames(selected)[i];
      assert DrawnOne(active[i], SourcePipelines(root), pop) && DrawnOne(selected[i], SourcePipelines(root), pop);
    }
  }

  lemma AsPipelinesDrawn(ps: map<string, Node>, pop: Population, root: Node)
    requires PipelinesOk(ps, root)
    ensures var names := SortedSet(ActiveNames(ps, pop));
            (forall n :: n in names ==> n in ps && SignalOf(n).Some?) && Drawn(AsPipelines(names, ps), ps, pop)
  {
    hide PipelinesOk, Refs, SignalOf, Has;
    ActiveAreKnown(ps, pop, root);
    var names := SortedSet(ActiveNames(ps, pop));
    var pipelines := AsPipelines(names, ps);
    assert PipelineNames(pipelines) == names;
    forall p | p in pipelines ensures DrawnOne(p, ps, pop) {
      var i :| 0 <= i < |pipelines| && pipelines[i] == p;
      assert names[i] in names;
    }
  }

  lemma SelectedRuns(root: Node, pop: Population)
    requires Accepts(root, pop)
    ensures forall p :: p in Selected(root, pop).pipelines ==> Runs(p, pop)
    ensures AllUsable(Selected(root, pop).pipelines, Definitions(root))
  {
    hide Runs, ValidYaml, SectionsOk, PipelinesOk, Covered, Inline, SourcePipelines, Refs, Definitions, Usable,
      Selected, SignalOf, Has, ServiceOk;
    SelectedDrawn(root, pop);
    var pipelines := Selected(root, pop).pipelines;
    forall p | p in pipelines
      ensures Runs(p, pop) &&
              forall id :: id in p.processors ==> id in Definitions(root) && Usable(id, Definitions(root)[id])
    {
      ActiveRuns(root, p.name, pop);
    }
  }

  lemma ActiveRuns(root: Node, name: string, pop: Population)
    requires Accepts(root, pop) && name in SourcePipelines(root) && IsActive(name, pop)
    ensures var refs := Refs(SourcePipelines(root)[name], Processors);
            Runs(Pipeline(name, SignalOf(name).value, refs), pop) &&
            forall id :: id in refs ==> id in Definitions(root) && Usable(id, Definitions(root)[id])
  {
    hide PipelineOk, IsActive, Runs, Refs, ProcessorOk, ValidYaml, Provides, Definitions, SourcePipelines, Covered,
      SignalOf, SectionsOk, ServiceOk;
    var ps := SourcePipelines(root);
    PipelineRuns(root, name, ps[name], pop);
    forall id | id in Refs(ps[name], Processors) ensures id in Definitions(root) && Usable(id, Definitions(root)[id]) {
      DefinitionValid(root, id);
    }
  }

  lemma DrawnIsUnambiguous(pipelines: seq<Pipeline>, ps: map<string, Node>, root: Node, pop: Population)
    requires Drawn(pipelines, ps, pop) && PipelinesOk(ps, root) && Covered(ps, pop)
    ensures StrictlySorted(PipelineNames(pipelines)) && OnePerSignal(pipelines) && Serves(pipelines, pop)
  {
    hide PipelineOk, Refs, SignalOf, Has, StrictlySorted;
    var names := PipelineNames(pipelines);
    forall i, j | 0 <= i < |pipelines| && 0 <= j < |pipelines| && pipelines[i].signal == pipelines[j].signal
      ensures i == j
    {
      assert DrawnOne(pipelines[i], ps, pop) && DrawnOne(pipelines[j], ps, pop);
      SortedOnce(names, i, j);
    }
    forall s | Has(pop, s) ensures exists p :: p in pipelines && p.signal == s {
      var n :| n in ps && SignalOf(n) == Some(s);
      assert n in names;
      var i :| 0 <= i < |names| && names[i] == n;
      assert DrawnOne(pipelines[i], ps, pop);
    }
  }

  lemma SelectedIsUnambiguous(root: Node, pop: Population)
    requires Accepts(root, pop)
    ensures StrictlySorted(PipelineNames(Selected(root, pop).pipelines))
    ensures OnePerSignal(Selected(root, pop).pipelines) && Serves(Selected(root, pop).pipelines, pop)
  {
    hide PipelinesOk, ValidYaml, SectionsOk, ServiceOk, Covered, Inline, SourcePipelines, Drawn, Selected,
      StrictlySorted, OnePerSignal, Serves;
    SelectedDrawn(root, pop);
    DrawnIsUnambiguous(Selected(root, pop).pipelines, SourcePipelines(root), root, pop);
  }

  lemma SortedOnce(names: seq<string>, i: nat, j: nat)
    requires StrictlySorted(names) && i < |names| && j < |names| && names[i] == names[j]
    ensures i == j
  {
  }

  /** The result of parsing is explicit, unambiguous and self-contained: pipelines sorted by name, one for each
      populated signal and none other, and exactly the processors they use with their source definitions. */
  lemma SelectedIsWellFormed(root: Node, pop: Population)
    requires Accepts(root, pop)
    ensures WellFormed(Selected(root, pop), Definitions(root), pop)
  {
    hide Runs, AllUsable, OnePerSignal, Serves, StrictlySorted, PipelineNames, Accepts, Definitions, SourcePipelines;
    SelectedRuns(root, pop);
    SelectedIsUnambiguous(root, pop);
    SelectedHolds(root, pop);
  }

  lemma SelectedHolds(root: Node, pop: Population)
    requires Accepts(root, pop)
    ensures HoldsDefinitions(Selected(root, pop), Definitions(root))
  {
    hide AsPipelines, SourcePipelines, Definitions;
    ActiveAreKnown(SourcePipelines(root), pop, root);
  }
}
