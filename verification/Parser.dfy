/** The parser itself, loop by loop (parseTopology and componentSequence of internal/runner/topology.go). It
    returns exactly what Topology.Accepts and Topology.Selected say. */
module Parser {
  import opened Signals
  import opened Strings
  import opened Yaml
  import opened Topology
  import opened Selection

  /** Checking every key in turn. */
  method KeysAllowed(content: seq<Node>, allowed: string -> bool) returns (ok: bool)
    requires |content| % 2 == 0 && KeysDistinct(content)
    ensures ok <==> forall k :: k in KeysIn(content) ==> allowed(k)
  {
    hide KeysIn, KeysDistinct, LookupIn;
    var i := 0;
    while i < |content|
      invariant i % 2 == 0 && i <= |content|
      invariant forall j :: 0 <= j < i / 2 ==> allowed(content[2 * j].value)
    {
      if !allowed(content[i].value) {
        EntryAt(content, i / 2);
        return false;
      }
      i := i + 2;
    }
    forall key | key in KeysIn(content) ensures allowed(key) {
      var k := KeyAt(content, key);
    }
    return true;
  }

  /** The components of one kind. */
  method ReadSection(section: Option<Node>) returns (items: Option<map<string, Node>>)
    requires section.Some? && section.value.kind == Mapping ==>
               |section.value.content| % 2 == 0 && KeysDistinct(section.value.content)
    ensures items == if SectionOk(section) then Some(Components(section)) else None
  {
    hide KeysIn, KeysDistinct, LookupIn, IsComponentId;
    if section.None? || section.value.tag == NullTag {
      return Some(map[]);
    }
    if section.value.kind != Mapping {
      return None;
    }
    var content := section.value.content;
    var found: map<string, Node> := map[];
    var i := 0;
    while i < |content|
      invariant i % 2 == 0 && i <= |content|
      invariant forall j :: 0 <= j < i / 2 ==> content[2 * j].value in found && IsComponentId(content[2 * j].value)
      invariant forall k :: k in found ==> k in KeysIn(content) && LookupIn(content, k) == Some(found[k])
    {
      EntryAt(content, i / 2);
      if !IsComponentId(content[i].value) {
        return None;
      }
      found := found[content[i].value := content[i + 1]];
      i := i + 2;
    }
    forall key | key in KeysIn(content) ensures key in found && IsComponentId(key) {
      var k := KeyAt(content, key);
    }
    assert found == Entries(content);
    return Some(found);
  }

  method ComponentSequence(n: Option<Node>, optional: bool) returns (ids: Option<seq<string>>)
    ensures ids == if SequenceOk(n, optional) then Some(SequenceIds(n, optional)) else None
  {
    hide IsComponentId;
    if optional && (n.None? || n.value.tag == NullTag) {
      return Some([]);
    }
    if n.None? || n.value.kind != Sequence || (!optional && n.value.content == []) {
      return None;
    }
    var content := n.value.content;
    var found: seq<string> := [];
    var seen: set<string> := {};
    for i := 0 to |content|
      invariant |found| == i && forall k :: 0 <= k < i ==> found[k] == content[k].value && IsReference(content[k])
      invariant forall s :: s in seen <==> s in found
      invariant NoRepeats(found)
    {
      if !IsReference(content[i]) {
        return None;
      }
      if content[i].value in seen {
        var j :| 0 <= j < i && found[j] == content[i].value;
        return None;
      }
      seen := seen + {content[i].value};
      found := found + [content[i].value];
    }
    assert found == SequenceIds(n, optional);
    return Some(found);
  }

  // ----- one pipeline -----

  type Inventory = map<Field, map<string, Node>>

  /** What was read of each kind of component. */
  ghost predicate ReadFrom(components: Inventory, root: Node)
  {
    forall f :: f in {Receivers, Processors, Exporters, Connectors, Extensions} ==>
      f in components && components[f] == Components(LookupIn(root.content, Name(f)))
  }

  predicate Defined(items: map<string, Node>, id: string, f: Field)
  {
    id in items && (f == Processors ==> ProcessorOk(id, items[id]))
  }

  /** The references of one kind, all of them defined. */
  method ReadReferences(root: Node, components: Inventory, p: Node, f: Field) returns (ids: Option<seq<string>>)
    requires ReadFrom(components, root) && f in {Receivers, Processors, Exporters} && p.kind == Mapping
    ensures ids == if RefsOk(root, p, f) then Some(Refs(p, f)) else None
  {
    hide ProcessorOk, SequenceOk, SequenceIds, Name, LookupIn, Components;
    var listed := ComponentSequence(Lookup(Some(p), Name(f)), f == Processors);
    if listed.None? {
      return None;
    }
    for i := 0 to |listed.value|
      invariant forall k :: 0 <= k < i ==> Defined(components[f], listed.value[k], f)
    {
      if !Defined(components[f], listed.value[i], f) {
        return None;
      }
    }
    return listed;
  }

  /** A pipeline's processors, when everything about it is supported. */
  method ReadPipeline(root: Node, components: Inventory, name: string,
                      p: Node) returns (processors: Option<seq<string>>)
    requires ReadFrom(components, root) && ValidYaml(p, 3)
    ensures processors == if PipelineOk(root, name, p) then Some(Refs(p, Processors)) else None
  {
    hide RefsOk, Refs, IsComponentId, SignalOf, KeysIn, KeysDistinct, LookupIn, IsPipelineField, ReadFrom;
    if !IsComponentId(name) || SignalOf(name).None? || p.kind != Mapping {
      return None;
    }
    var ok := KeysAllowed(p.content, IsPipelineField);
    if !ok {
      return None;
    }
    var receivers := ReadReferences(root, components, p, Receivers);
    if receivers.None? {
      return None;
    }
    processors := ReadReferences(root, components, p, Processors);
    if processors.None? {
      return None;
    }
    var exporters := ReadReferences(root, components, p, Exporters);
    if exporters.None? {
      return None;
    }
  }

  // ----- all pipelines -----

  /** The source's pipelines by position. */
  ghost predicate ReadAt(pipelines: seq<Pipeline>, content: seq<Node>, root: Node)
    requires |content| % 2 == 0
  {
    2 * |pipelines| <= |content| &&
    forall k :: 0 <= k < |pipelines| ==> ReadOne(pipelines[k], content[2 * k].value, content[2 * k + 1], root)
  }

  predicate ReadOne(p: Pipeline, name: string, n: Node, root: Node)
  {
    PipelineOk(root, name, n) && p == Pipeline(name, SignalOf(name).value, Refs(n, Processors))
  }

  /** Definitions collected so far: one for each processor of the pipelines read. */
  ghost predicate Collected(all: seq<Node>, seen: set<string>, pipelines: seq<Pipeline>, definitions: map<string, Node>)
  {
    |all| % 2 == 0 && KeysDistinct(all) && KeysIn(all) == seen && CollectedValues(all, seen, definitions) &&
    forall p, id :: p in pipelines && id in p.processors ==> id in seen
  }

  ghost predicate CollectedValues(all: seq<Node>, seen: set<string>, definitions: map<string, Node>)
  {
    forall id :: id in seen ==> id in definitions && LookupIn(all, id) == Some(Bare(definitions[id]))
  }

  /** Adds what a pipeline uses and has not been seen. */
  method Collect(all: seq<Node>, seen: set<string>, ids: seq<string>, definitions: map<string, Node>)
    returns (all': seq<Node>, seen': set<string>)
    requires |all| % 2 == 0 && KeysDistinct(all) && KeysIn(all) == seen && CollectedValues(all, seen, definitions)
    requires forall id :: id in ids ==> id in definitions
    ensures |all'| % 2 == 0 && KeysDistinct(all') && KeysIn(all') == seen' && CollectedValues(all', seen', definitions)
    ensures seen' == seen + set id | id in ids
  {
    hide KeysDistinct, KeysIn, LookupIn, Bare;
    all', seen' := all, seen;
    for i := 0 to |ids|
      invariant |all'| % 2 == 0 && KeysDistinct(all') && KeysIn(all') == seen' &&
                CollectedValues(all', seen', definitions)
      invariant seen' == seen + set id | id in ids[..i]
    {
      assert ids[..i + 1] == ids[..i] + [ids[i]];
      if ids[i] !in seen' {
        var definition := CloneNode(definitions[ids[i]]);
        AppendedEntries(all', StrNode(ids[i]), definition);
        all' := all' + [StrNode(ids[i]), definition];
        seen' := seen' + {ids[i]};
      }
    }
    assert ids[..|ids|] == ids;
  }

  datatype Reading = Reading(pipelines: seq<Pipeline>, all: seq<Node>, signals: set<Signal>)

  /** A complete reading of the pipelines. */
  ghost predicate Complete(r: Reading, content: seq<Node>, root: Node)
    requires |content| % 2 == 0
  {
    2 * |r.pipelines| == |content| && ReadAt(r.pipelines, content, root) && OnePerSignal(r.pipelines) &&
    (forall s :: s in r.signals <==> exists p :: p in r.pipelines && p.signal == s) &&
    Collected(r.all, KeysIn(r.all), r.pipelines, Definitions(root))
  }

  method ReadPipelines(root: Node, components: Inventory, content: seq<Node>) returns (r: Option<Reading>)
    requires ReadFrom(components, root) && |content| % 2 == 0 && KeysDistinct(content)
    requires forall c :: c in content ==> ValidYaml(c, 3)
    ensures r.Some? <==> PipelinesOk(Entries(content), root)
    ensures r.Some? ==> Complete(r.value, content, root)
  {
    hide KeysDistinct, KeysIn, LookupIn, Bare, PipelineOk, SignalOf, Refs, PipelinesOk, Entries, ValidYaml, Definitions;
    var pipelines: seq<Pipeline> := [];
    var all: seq<Node> := [];
    var signals: set<Signal> := {};
    var seen: set<string> := {};
    NothingCollected(Definitions(root));
    var i := 0;
    while i < |content|
      invariant i % 2 == 0 && i <= |content| && 2 * |pipelines| == i
      invariant ReadAt(pipelines, content, root) && OnePerSignal(pipelines)
      invariant forall s :: s in signals <==> exists p :: p in pipelines && p.signal == s
      invariant Collected(all, seen, pipelines, Definitions(root))
    {
      var name, p := content[i].value, content[i + 1];
      EntryAt(content, i / 2);
      if SignalOf(name).Some? && SignalOf(name).value in signals {
        RepeatedSignal(pipelines, content, root, i / 2);
        return None;
      }
      var processors := ReadPipeline(root, components, name, p);
      if processors.None? {
        BadPipeline(content, root, i / 2);
        return None;
      }
      UsesDefined(root, name, p);
      all, seen := Collect(all, seen, processors.value, Definitions(root));
      pipelines := pipelines + [Pipeline(name, SignalOf(name).value, processors.value)];
      signals := signals + {SignalOf(name).value};
      i := i + 2;
    }
    AllRead(pipelines, content, root);
    return Some(Reading(pipelines, all, signals));
  }

  lemma NothingCollected(definitions: map<string, Node>)
    ensures Collected([], {}, [], definitions)
  {
  }

  lemma UsesDefined(root: Node, name: string, p: Node)
    requires PipelineOk(root, name, p)
    ensures SignalOf(name).Some? && forall id :: id in Refs(p, Processors) ==> id in Definitions(root)
  {
  }

  lemma BadPipeline(content: seq<Node>, root: Node, k: nat)
    requires |content| % 2 == 0 && KeysDistinct(content) && 2 * k < |content|
    requires !PipelineOk(root, content[2 * k].value, content[2 * k + 1])
    ensures !PipelinesOk(Entries(content), root)
  {
    hide PipelineOk, SignalOf, KeysDistinct;
    EntryAt(content, k);
    assert content[2 * k].value in Entries(content);
  }

  lemma RepeatedSignal(pipelines: seq<Pipeline>, content: seq<Node>, root: Node, k: nat)
    requires |content| % 2 == 0 && KeysDistinct(content) && 2 * k < |content| && |pipelines| == k &&
             ReadAt(pipelines, content, root)
    requires SignalOf(content[2 * k].value).Some? &&
             exists p :: p in pipelines && p.signal == SignalOf(content[2 * k].value).value
    ensures !PipelinesOk(Entries(content), root)
  {
    hide PipelineOk, SignalOf, KeysDistinct, KeysIn, LookupIn, Refs;
    var j :| 0 <= j < k && pipelines[j].signal == SignalOf(content[2 * k].value).value;
    assert ReadOne(pipelines[j], content[2 * j].value, content[2 * j + 1], root);
    OkHasSignal(root, content[2 * j].value, content[2 * j + 1]);
    EntryAt(content, j);
    EntryAt(content, k);
    KeysApart(content, j, k);
    assert content[2 * j].value in Entries(content) && content[2 * k].value in Entries(content);
  }

  lemma OkHasSignal(root: Node, name: string, p: Node)
    requires PipelineOk(root, name, p)
    ensures SignalOf(name).Some?
  {
  }

  lemma AllRead(pipelines: seq<Pipeline>, content: seq<Node>, root: Node)
    requires |content| % 2 == 0 && KeysDistinct(content) && 2 * |pipelines| == |content|
    requires ReadAt(pipelines, content, root) && OnePerSignal(pipelines)
    ensures PipelinesOk(Entries(content), root)
  {
    hide PipelineOk, SignalOf, KeysDistinct, KeysIn, LookupIn, Refs;
    forall m | m in Entries(content)
      ensures PipelineOk(root, m, Entries(content)[m])
    {
      var k := KeyAt(content, m);
      EntryAt(content, k);
      assert ReadOne(pipelines[k], content[2 * k].value, content[2 * k + 1], root);
    }
    forall m, n | m in Entries(content) && n in Entries(content) && m != n ensures SignalOf(m) != SignalOf(n) {
      var j := KeyAt(content, m);
      var k := KeyAt(content, n);
      assert ReadOne(pipelines[j], content[2 * j].value, content[2 * j + 1], root);
      assert ReadOne(pipelines[k], content[2 * k].value, content[2 * k + 1], root);
      OkHasSignal(root, content[2 * j].value, content[2 * j + 1]);
      OkHasSignal(root, content[2 * k].value, content[2 * k + 1]);
    }
  }

  // ----- selection -----

  /** The pipelines whose signal is populated. */
  function ActiveOf(ps: seq<Pipeline>, pop: Population): seq<Pipeline>
  {
    if ps == [] then [] else
    ActiveOf(ps[..|ps| - 1], pop) + if Has(pop, ps[|ps| - 1].signal) then [ps[|ps| - 1]] else []
  }

  lemma {:induction false} ActiveMembers(ps: seq<Pipeline>, pop: Population)
    ensures forall p :: p in ActiveOf(ps, pop) <==> p in ps && Has(pop, p.signal)
  {
    if ps != [] {
      ActiveMembers(ps[..|ps| - 1], pop);
      assert ps == ps[..|ps| - 1] + [ps[|ps| - 1]];
    }
  }

  lemma AppendSorted(ps: seq<Pipeline>, last: Pipeline)
    requires StrictlySorted(PipelineNames(ps))
    requires forall p :: p in ps ==> Le(p.name, last.name) && p.name != last.name
    ensures StrictlySorted(PipelineNames(ps + [last]))
  {
    hide Le;
    var names := PipelineNames(ps + [last]);
    forall i, j | 0 <= i < j < |names| ensures Le(names[i], names[j]) && names[i] != names[j] {
      if j == |ps| {
        assert ps[i] in ps;
      } else {
        assert PipelineNames(ps)[i] == names[i] && PipelineNames(ps)[j] == names[j];
      }
    }
  }

  lemma {:induction false} ActiveSorted(ps: seq<Pipeline>, pop: Population)
    requires StrictlySorted(PipelineNames(ps))
    ensures StrictlySorted(PipelineNames(ActiveOf(ps, pop)))
  {
    hide Le;
    if ps != [] {
      var init, last := ps[..|ps| - 1], ps[|ps| - 1];
      assert PipelineNames(init) == PipelineNames(ps)[..|init|];
      ActiveSorted(init, pop);
      ActiveMembers(init, pop);
      var active := ActiveOf(init, pop);
      forall p | p in active ensures Le(p.name, last.name) && p.name != last.name {
        var k :| 0 <= k < |init| && init[k] == p;
        assert PipelineNames(ps)[k] == p.name && PipelineNames(ps)[|init|] == last.name;
      }
      AppendSorted(active, last);
      assert ActiveOf(ps, pop) == if Has(pop, last.signal) then active + [last] else active + [];
      assert active + [] == active;
    }
  }

  /** Everything the pipelines use is complete in itself. */
  ghost predicate NothingProvided(ps: seq<Pipeline>, definitions: map<string, Node>)
  {
    forall p, id :: p in ps && id in p.processors && id in definitions ==> !Provides(definitions[id])
  }

  /** Selection in progress: exactly these processors, in this order, with their definitions. */
  ghost predicate Chosen(selected: seq<Node>, ids: seq<string>, seen: set<string>, definitions: map<string, Node>)
  {
    (forall id :: id in ids ==> id in definitions && !Provides(definitions[id])) &&
    selected == DefinitionPairs(ids, definitions) && forall id :: id in seen <==> id in ids
  }

  /** Adds one pipeline's processors, each once; false when one of them takes something from a provider. */
  method Choose(p: Pipeline, all: seq<Node>, selected: seq<Node>, seen: set<string>, ghost ids: seq<string>,
                ghost definitions: map<string, Node>)
    returns (ok: bool, selected': seq<Node>, seen': set<string>)
    requires Chosen(selected, ids, seen, definitions)
    requires CollectedValues(all, KeysIn(all), definitions) && forall id :: id in p.processors ==> id in KeysIn(all)
    ensures ok <==> forall id :: id in p.processors ==> !Provides(definitions[id])
    ensures ok ==> Chosen(selected', AddNew(ids, p.processors), seen', definitions)
  {
    hide KeysIn, LookupIn, Provides, Bare, DefinitionPairs, AddNew;
    selected', seen' := selected, seen;
    AddNewNothing(ids);
    assert p.processors[..0] == [];
    for j := 0 to |p.processors|
      invariant Chosen(selected', AddNew(ids, p.processors[..j]), seen', definitions)
      invariant forall k :: 0 <= k < j ==> !Provides(definitions[p.processors[k]])
    {
      var id := p.processors[j];
      ghost var uses := AddNew(ids, p.processors[..j]);
      AddNewStep(ids, p.processors, j);
      if id !in seen' {
        assert id in KeysIn(all);
        var definition := LookupIn(all, id).value;
        BareProvides(definitions[id]);
        var provided := HasProviderSubstitution(definition);
        if provided {
          return false, selected', seen';
        }
        OneMorePair(uses, id, definitions);
        selected', seen' := selected' + [StrNode(id), definition], seen' + {id};
      }
    }
    assert p.processors[..|p.processors|] == p.processors;
    return true, selected', seen';
  }

  lemma AddNewNothing(ids: seq<string>)
    ensures AddNew(ids, []) == ids
  {
  }

  lemma AddNewStep(acc: seq<string>, ids: seq<string>, j: nat)
    requires j < |ids|
    ensures var uses := AddNew(acc, ids[..j]);
            AddNew(acc, ids[..j + 1]) == if ids[j] in uses then uses else uses + [ids[j]]
  {
    assert ids[..j + 1][..j] == ids[..j];
  }

  lemma OneMorePair(ids: seq<string>, id: string, definitions: map<string, Node>)
    requires id in definitions && forall x :: x in ids ==> x in definitions
    ensures DefinitionPairs(ids + [id], definitions) == DefinitionPairs(ids, definitions) +
            [StrNode(id), Bare(definitions[id])]
  {
    hide Bare;
    assert (ids + [id])[..|ids|] == ids;
  }

  method SelectActive(sorted: seq<Pipeline>, all: seq<Node>, pop: Population, ghost definitions: map<string, Node>)
    returns (t: Option<Topology>)
    requires Collected(all, KeysIn(all), sorted, definitions)
    ensures t.Some? <==> NothingProvided(ActiveOf(sorted, pop), definitions)
    ensures t.Some? ==> (forall id :: id in FirstUses(ActiveOf(sorted, pop)) ==> id in definitions) &&
                        t.value == Topology(ActiveOf(sorted, pop),
                                            MapNode(DefinitionPairs(FirstUses(ActiveOf(sorted, pop)), definitions)))
  {
    hide KeysIn, LookupIn, Provides, Bare, KeysDistinct, Has, DefinitionPairs;
    var active: seq<Pipeline> := [];
    var selected: seq<Node> := [];
    var seen: set<string> := {};
    NothingChosen(definitions);
    for i := 0 to |sorted|
      invariant active == ActiveOf(sorted[..i], pop)
      invariant Chosen(selected, FirstUses(active), seen, definitions)
      invariant NothingProvided(active, definitions)
    {
      assert sorted[..i + 1][..i] == sorted[..i];
      var p := sorted[i];
      if Has(pop, p.signal) {
        assert p in sorted;
        var ok;
        ok, selected, seen := Choose(p, all, selected, seen, FirstUses(active), definitions);
        if !ok {
          ActiveMembers(sorted, pop);
          assert p in ActiveOf(sorted, pop);
          return None;
        }
        assert (active + [p])[..|active|] == active;
        active := active + [p];
      }
    }
    assert sorted[..|sorted|] == sorted;
    return Some(Topology(active, MapNode(selected)));
  }

  lemma NothingChosen(definitions: map<string, Node>)
    ensures Chosen([], FirstUses([]), {}, definitions)
  {
  }

  // ----- the parser -----

  lemma LookedUpDecoded(content: seq<Node>, k: string, n: Node, depth: nat)
    requires ValidYaml(n, depth) && content == n.content
    ensures LookupIn(content, k).Some? ==> ValidYaml(LookupIn(content, k).value, depth + 1)
  {
    hide ValidYaml;
    if LookupIn(content, k).Some? {
      LookupIsValid(n, k, depth);
    }
  }

  const KINDS := [Receivers, Processors, Exporters, Connectors, Extensions]

  /** Components by kind; none when a section is not an explicit mapping from component identifiers. */
  method ReadComponents(root: Node) returns (components: Option<Inventory>)
    requires ValidYaml(root, 0)
    ensures components.Some? <==> forall f :: f in KINDS ==> SectionOk(LookupIn(root.content, Name(f)))
    ensures components.Some? ==> ReadFrom(components.value, root)
  {
    hide Name, LookupIn, SectionOk, Components;
    var found: Inventory := map[];
    for i := 0 to |KINDS|
      invariant forall k :: 0 <= k < i ==> SectionOk(LookupIn(root.content, Name(KINDS[k]))) && KINDS[k] in found
      invariant forall f :: f in found ==> found[f] == Components(LookupIn(root.content, Name(f)))
    {
      var section := LookupIn(root.content, Name(KINDS[i]));
      LookedUpDecoded(root.content, Name(KINDS[i]), root, 0);
      var items := ReadSection(section);
      if items.None? {
        assert KINDS[i] in KINDS;
        return None;
      }
      found := found[KINDS[i] := items.value];
    }
    assert KINDS[0] == Receivers && KINDS[1] == Processors && KINDS[2] == Exporters && KINDS[3] == Connectors &&
           KINDS[4] == Extensions;
    return Some(found);
  }

  /** Everything read, in order of names. */
  lemma SortedReading(r: Reading, content: seq<Node>, root: Node) returns (sorted: seq<Pipeline>)
    requires |content| % 2 == 0 && KeysDistinct(content) && Complete(r, content, root)
    ensures sorted == StableSort(r.pipelines, (p: Pipeline) => p.name)
    ensures StrictlySorted(PipelineNames(sorted)) && Collected(r.all, KeysIn(r.all), sorted, Definitions(root))
    ensures forall p :: p in sorted <==> p in r.pipelines
  {
    hide ReadOne, KeysDistinct, KeysIn, OnePerSignal, CollectedValues, Definitions, StableSort, Le;
    var key := (p: Pipeline) => p.name;
    sorted := StableSort(r.pipelines, key);
    StableSortSorts(r.pipelines, key);
    assert forall p :: p in sorted <==> p in multiset(sorted);
    assert forall p :: p in r.pipelines <==> p in multiset(r.pipelines);
    forall i, j | 0 <= i < j < |sorted| ensures Le(sorted[i].name, sorted[j].name) && sorted[i].name != sorted[j].name {
      assert Le(key(sorted[i]), key(sorted[j]));
      if sorted[i].name == sorted[j].name {
        NamesOnce(r, content, root, sorted, i, j);
      }
    }
  }

  lemma NamesOnce(r: Reading, content: seq<Node>, root: Node, sorted: seq<Pipeline>, i: nat, j: nat)
    requires |content| % 2 == 0 && KeysDistinct(content) && Complete(r, content, root)
    requires multiset(sorted) == multiset(r.pipelines) && i < j < |sorted|
    ensures sorted[i].name != sorted[j].name
  {
    hide PipelineOk, SignalOf, Refs, KeysDistinct, KeysIn, OnePerSignal, Collected;
    if sorted[i].name == sorted[j].name {
      var a, b := TwoPlaces(sorted, r.pipelines, i, j);
      assert ReadOne(r.pipelines[a], content[2 * a].value, content[2 * a + 1], root);
      assert ReadOne(r.pipelines[b], content[2 * b].value, content[2 * b + 1], root);
      KeysApart(content, a, b);
    }
  }

  lemma Without<T>(xs: seq<T>, j: nat)
    requires j < |xs|
    ensures multiset(xs[..j] + xs[j + 1..]) == multiset(xs) - multiset{xs[j]}
  {
    assert xs == xs[..j] + [xs[j]] + xs[j + 1..];
  }

  /** Two places of one arrangement are two places of any other. */
  lemma TwoPlaces<T>(xs: seq<T>, ys: seq<T>, i: nat, j: nat) returns (a: nat, b: nat)
    requires multiset(xs) == multiset(ys) && i < j < |xs|
    ensures a < b < |ys| && ((ys[a] == xs[i] && ys[b] == xs[j]) || (ys[a] == xs[j] && ys[b] == xs[i]))
  {
    assert xs[j] in multiset(xs);
    a :| 0 <= a < |ys| && ys[a] == xs[j];
    var others, rest := xs[..j] + xs[j + 1..], ys[..a] + ys[a + 1..];
    Without(xs, j);
    Without(ys, a);
    assert others[i] in multiset(others);
    var c :| 0 <= c < |rest| && rest[c] == xs[i];
    if c < a {
      b := a;
      a := c;
    } else {
      b := c + 1;
    }
  }

  /** The populated pipelines of a complete reading are what the parser selects. */
  lemma ReadingIsDrawn(r: Reading, content: seq<Node>, root: Node, sorted: seq<Pipeline>, pop: Population)
    requires |content| % 2 == 0 && KeysDistinct(content) && Complete(r, content, root)
    requires StrictlySorted(PipelineNames(sorted)) && forall p :: p in sorted <==> p in r.pipelines
    ensures Drawn(ActiveOf(sorted, pop), Entries(content), pop)
  {
    hide KeysDistinct, KeysIn, LookupIn, Refs, SignalOf, PipelineOk, OnePerSignal, Collected, Has, Le, StrictlySorted,
      Entries;
    var active := ActiveOf(sorted, pop);
    var ps := Entries(content);
    ActiveMembers(sorted, pop);
    ActiveSorted(sorted, pop);
    var names := PipelineNames(active);
    forall p | p in active ensures DrawnOne(p, ps, pop) {
      var k :| 0 <= k < |r.pipelines| && r.pipelines[k] == p;
      PositionIsDrawn(r, content, root, k, pop);
    }
    forall n ensures n in names <==> n in SortedSet(ActiveNames(ps, pop)) {
      if n in names {
        var i :| 0 <= i < |names| && names[i] == n;
        assert DrawnOne(active[i], ps, pop);
      }
      if n in ActiveNames(ps, pop) {
        var k := PositionOf(r, content, root, n);
        PositionIsDrawn(r, content, root, k, pop);
        assert r.pipelines[k] in active;
        var i :| 0 <= i < |active| && active[i] == r.pipelines[k];
        assert names[i] == n;
      }
    }
    StrictlySortedUnique(names, SortedSet(ActiveNames(ps, pop)));
  }

  lemma PositionOf(r: Reading, content: seq<Node>, root: Node, n: string) returns (k: nat)
    requires |content| % 2 == 0 && Complete(r, content, root) && n in Entries(content)
    ensures k < |r.pipelines| && r.pipelines[k].name == n
  {
    hide PipelineOk, SignalOf, Refs, KeysDistinct, KeysIn, OnePerSignal, Collected, LookupIn;
    k := KeyAt(content, n);
    assert ReadOne(r.pipelines[k], content[2 * k].value, content[2 * k + 1], root);
  }

  lemma PositionIsDrawn(r: Reading, content: seq<Node>, root: Node, k: nat, pop: Population)
    requires |content| % 2 == 0 && KeysDistinct(content) && Complete(r, content, root) && k < |r.pipelines|
    ensures var p := r.pipelines[k];
            (IsActive(p.name, pop) <==> Has(pop, p.signal)) &&
            (Has(pop, p.signal) ==> DrawnOne(p, Entries(content), pop))
    ensures SignalOf(r.pipelines[k].name) == Some(r.pipelines[k].signal) && r.pipelines[k].name in Entries(content)
  {
    hide PipelineOk, SignalOf, Refs, KeysDistinct, KeysIn, OnePerSignal, Collected, LookupIn, Has;
    assert ReadOne(r.pipelines[k], content[2 * k].value, content[2 * k + 1], root);
    OkHasSignal(root, content[2 * k].value, content[2 * k + 1]);
    EntryAt(content, k);
  }

  /** A signal is read exactly when some entry names it. */
  lemma CoverageRead(r: Reading, content: seq<Node>, root: Node, pop: Population)
    requires |content| % 2 == 0 && KeysDistinct(content) && Complete(r, content, root)
    ensures Covered(Entries(content), pop) <==> forall s :: Has(pop, s) ==> s in r.signals
  {
    hide PipelineOk, SignalOf, Refs, KeysDistinct, KeysIn, OnePerSignal, Collected, LookupIn, Has, Entries;
    var ps := Entries(content);
    forall s ensures s in r.signals <==> exists n :: n in ps && SignalOf(n) == Some(s) {
      if s in r.signals {
        var p :| p in r.pipelines && p.signal == s;
        var k :| 0 <= k < |r.pipelines| && r.pipelines[k] == p;
        PositionIsDrawn(r, content, root, k, pop);
      }
      if n :| n in ps && SignalOf(n) == Some(s) {
        var k := PositionOf(r, content, root, n);
        PositionIsDrawn(r, content, root, k, pop);
        assert r.pipelines[k].signal == s;
      }
    }
  }

  /** The substitution check during selection is the one acceptance asks for. */
  lemma InlineIsNothingProvided(active: seq<Pipeline>, ps: map<string, Node>, definitions: map<string, Node>,
                                pop: Population)
    requires Drawn(active, ps, pop)
    ensures Inline(ps, definitions, pop) <==> NothingProvided(active, definitions)
  {
    hide Refs, Provides, SignalOf, Has;
    if NothingProvided(active, definitions) {
      forall n, id | n in ps && IsActive(n, pop) && id in Refs(ps[n], Processors) && id in definitions
        ensures !Provides(definitions[id])
      {
        assert n in PipelineNames(active);
        var i :| 0 <= i < |active| && PipelineNames(active)[i] == n;
        assert DrawnOne(active[i], ps, pop);
      }
    }
    if Inline(ps, definitions, pop) {
      forall p, id | p in active && id in p.processors && id in definitions ensures !Provides(definitions[id]) {
        assert DrawnOne(p, ps, pop);
      }
    }
  }

  /** parseTopology on a decoded document. */
  method ParseTopology(root: Node, pop: Population) returns (t: Option<Topology>)
    requires Decoded(root)
    ensures t == if Accepts(root, pop) then Some(Selected(root, pop)) else None
  {
    hide KeysIn, LookupIn, KeysDistinct, ValidYaml, Decoded, PipelinesOk, Covered, Inline, Entries, SectionOk,
      Complete, Collected,
      DefinitionPairs, Name, IsTopLevelField, SourcePipelines, Definitions, Selected;
    if root.kind != Mapping {
      return None;
    }
    var ok := ValidateYaml(root, 0);
    if !ok {
      return None;
    }
    ValidMapping(root, 0);
    ok := KeysAllowed(root.content, IsTopLevelField);
    if !ok {
      return None;
    }
    var components := ReadComponents(root);
    if components.None? || components.value[Connectors].Keys != {} {
      KindsAreSections(root);
      return None;
    }
    KindsAreSections(root);
    var service := LookupIn(root.content, Name(Service));
    if service.None? || service.value.kind != Mapping {
      return None;
    }
    var pipelines := LookupIn(service.value.content, Name(Pipelines));
    if pipelines.None? || pipelines.value.kind != Mapping || pipelines.value.content == [] {
      return None;
    }
    t := ParsePipelines(root, components.value, pipelines.value.content, pop);
  }

  lemma ValidMapping(n: Node, depth: nat)
    requires ValidYaml(n, depth) && n.kind == Mapping
    ensures |n.content| % 2 == 0 && KeysDistinct(n.content) && forall c :: c in n.content ==> ValidYaml(c, depth + 1)
  {
  }

  lemma KindsAreSections(root: Node)
    ensures SectionsOk(root) <==> (forall f :: f in KINDS ==> SectionOk(LookupIn(root.content, Name(f)))) &&
                                  Components(LookupIn(root.content, Name(Connectors))).Keys == {}
  {
    hide Name, LookupIn, SectionOk, Components;
    assert KINDS[0] == Receivers && KINDS[1] == Processors && KINDS[2] == Exporters && KINDS[3] == Connectors &&
           KINDS[4] == Extensions;
  }

  /** The rest of parsing, once the shape is known. */
  method ParsePipelines(root: Node, components: Inventory, content: seq<Node>,
                        pop: Population) returns (t: Option<Topology>)
    requires ShapeOk(root) && content == PipelinesNode(root).value.content && ReadFrom(components, root)
    ensures t == if Accepts(root, pop) then Some(Selected(root, pop)) else None
  {
    hide KeysIn, LookupIn, KeysDistinct, ValidYaml, PipelinesOk, Covered, Inline, Entries, Complete, Collected,
      DefinitionPairs, Name,
      Definitions, Selected, SectionsOk, Drawn, NothingProvided, ActiveOf, StrictlySorted, PipelineNames, ReadFrom,
        StableSort, Has;
    PipelinesValid(root);
    var reading := ReadPipelines(root, components, content);
    if reading.None? {
      return None;
    }
    CoverageRead(reading.value, content, root, pop);
    var signals := [Logs, Traces, Metrics];
    for i := 0 to |signals|
      invariant forall k :: 0 <= k < i ==> Has(pop, signals[k]) ==> signals[k] in reading.value.signals
    {
      if Has(pop, signals[i]) && signals[i] !in reading.value.signals {
        return None;
      }
    }
    AllSignals(signals);
    forall s | Has(pop, s) ensures s in reading.value.signals {
      assert s in signals;
      var k :| 0 <= k < |signals| && signals[k] == s;
    }
    ghost var sorted := SortedReading(reading.value, content, root);
    ghost var active := ActiveOf(sorted, pop);
    ReadingIsDrawn(reading.value, content, root, sorted, pop);
    InlineIsNothingProvided(active, Entries(content), Definitions(root), pop);
    t := SelectActive(StableSort(reading.value.pipelines, (p: Pipeline) => p.name), reading.value.all, pop,
                      Definitions(root));
    if t.Some? {
      DrawnIsSelected(active, root, pop);
      SelectedDefinitions(root, pop);
    }
  }

  lemma AllSignals(signals: seq<Signal>)
    requires signals == [Logs, Traces, Metrics]
    ensures forall s :: s in signals
  {
    forall s: Signal ensures s in signals {
      match s
      case Logs => assert signals[0] == s;
      case Traces => assert signals[1] == s;
      case Metrics => assert signals[2] == s;
    }
  }

  lemma SelectedDefinitions(root: Node, pop: Population)
    requires Accepts(root, pop)
    ensures HoldsDefinitions(Selected(root, pop), Definitions(root))
  {
    hide Accepts, Selected;
    SelectedHolds(root, pop);
  }

  lemma PipelinesValid(root: Node)
    requires ShapeOk(root)
    ensures var content := PipelinesNode(root).value.content;
            |content| % 2 == 0 && KeysDistinct(content) && forall c :: c in content ==> ValidYaml(c, 3)
  {
    hide ValidYaml, SectionsOk, KeysIn, KeysDistinct, LookupIn, Name;
    LookupIsValid(root, Name(Service), 0);
    LookupIsValid(LookupIn(root.content, Name(Service)).value, Name(Pipelines), 1);
    ValidMapping(PipelinesNode(root).value, 2);
  }
}
