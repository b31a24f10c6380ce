/** What an accepted configuration looks like, in the words of the configuration itself (componentID and parseTopology
    of internal/runner/topology.go). */
module Accepted {
  import opened Signals
  import opened Strings
  import opened Yaml
  import opened Topology
  import opened Selection
  import Parser
  import Uncertainty

  // ----- identifiers -----

  /** A letter or digit of ASCII by its code. */
  predicate Alphanumeric(c: char)
  {
    48 <= c as int <= 57 || 65 <= c as int <= 90 || 97 <= c as int <= 122
  }

  /** One to 64 letters, digits and underscores, a letter first. */
  predicate TypeText(t: string)
  {
    t != [] && |t| <= 64 && Alphanumeric(t[0]) && t[0] as int > 57 &&
    forall c :: c in t ==> Alphanumeric(c) || c == '_'
  }

  /** One to 128 letters, digits, underscores, dots and dashes, a letter or digit first. */
  predicate NameText(n: string)
  {
    n != [] && |n| <= 128 && Alphanumeric(n[0]) &&
    forall c :: c in n ==> Alphanumeric(c) || c == '_' || c == '.' || c == '-'
  }

  lemma TypePartMeans(t: string)
    ensures IsTypePart(t) <==> TypeText(t)
  {
    assert forall i :: 0 <= i < |t| ==> t[i] in t;
  }

  lemma NamePartMeans(n: string)
    ensures IsNamePart(n) <==> NameText(n)
  {
    assert forall i :: 0 <= i < |n| ==> n[i] in n;
    assert forall c :: c in "_.-" <==> c == '_' || c == '.' || c == '-';
  }

  ghost predicate Joins(id: string, t: string, n: string)
  {
    TypeText(t) && NameText(n) && id == t + "/" + n
  }

  /** A component identifier is a type, or a type, a slash and a name. */
  lemma ComponentIdMeans(id: string)
    ensures IsComponentId(id) <==> TypeText(id) || exists t, n :: Joins(id, t, n)
  {
    hide IsTypePart, IsNamePart, TypeText, NameText;
    var t := Before(id, '/');
    BeforeIsFirstPart(id, '/');
    TypePartMeans(t);
    assert |t| == |id| ==> t == id;
    if TypeText(id) {
      TypeHasNoSlash(id);
      BeforeMeans(id, '/', id);
    }
    if |t| < |id| {
      NamePartMeans(id[|t| + 1..]);
      assert id == t + "/" + id[|t| + 1..];
      if IsComponentId(id) {
        assert Joins(id, t, id[|t| + 1..]);
      }
    }
    forall p, n | Joins(id, p, n) ensures IsComponentId(id) {
      TypeHasNoSlash(p);
      assert p + ['/'] <= id;
      BeforeMeans(id, '/', p);
      assert t == p && id[|p| + 1..] == n;
      NamePartMeans(n);
    }
  }

  lemma TypeHasNoSlash(t: string)
    requires TypeText(t)
    ensures '/' !in t
  {
    assert !Alphanumeric('/');
  }

  /** The type of an identifier, alone or before a slash. */
  predicate HasType(id: string, kind: string)
  {
    id == kind || kind + "/" <= id
  }

  lemma TypeMeans(id: string, kind: string)
    requires '/' !in kind
    ensures Before(id, '/') == kind <==> HasType(id, kind)
  {
    BeforeMeans(id, '/', kind);
    assert kind + ['/'] == kind + "/";
  }

  /** A pipeline's signal is the type of its identifier. */
  lemma SignalMeans(name: string)
    ensures SignalOf(name) == Some(Logs) <==> HasType(name, "logs")
    ensures SignalOf(name) == Some(Traces) <==> HasType(name, "traces")
    ensures SignalOf(name) == Some(Metrics) <==> HasType(name, "metrics")
  {
    hide HasType;
    TypeMeans(name, "logs");
    TypeMeans(name, "traces");
    TypeMeans(name, "metrics");
    assert "logs"[0] == 'l' && "traces"[0] == 't' && "metrics"[0] == 'm';
  }

  /** The processors whose completion neither settling nor shutdown establishes. */
  lemma WaitingMeans(id: string)
    ensures Uncertainty.Waits(id) <==> HasType(id, "tail_sampling") || HasType(id, "groupbytrace")
  {
    hide HasType;
    TypeMeans(id, "tail_sampling");
    TypeMeans(id, "groupbytrace");
  }

  /** A reason names the processor it is about. */
  lemma ReasonNamesProcessor(a: string, b: string)
    requires Uncertainty.ReasonFor(a) == Uncertainty.ReasonFor(b)
    ensures a == b
  {
    var x, y := Uncertainty.ReasonFor(a), Uncertainty.ReasonFor(b);
    assert |a| == |b|;
    assert x[|"processor "|..|"processor "| + |a|] == a;
    assert y[|"processor "|..|"processor "| + |b|] == b;
  }

  // ----- accepted configurations -----

  lemma FieldsMean(k: string)
    ensures IsTopLevelField(k) <==>
            k in {"receivers", "processors", "exporters", "extensions", "connectors", "service"}
    ensures IsPipelineField(k) <==> k in {"receivers", "processors", "exporters"}
  {
  }

  /** Runs in the harness: not a routing processor, and configured by a mapping or not at all. */
  lemma ProcessorMeans(id: string, definition: Node)
    ensures ProcessorOk(id, definition) <==>
            !HasType(id, "routing") && (definition.kind == Mapping || definition.tag == NullTag)
  {
    TypeMeans(id, "routing");
  }

  /** n lists identifiers explicitly, and each is defined in this section. */
  ghost predicate Refers(root: Node, p: Node, section: string)
  {
    forall id :: id in Refs(p, SectionOf(section)) ==> id in Components(LookupIn(root.content, section))
  }

  function SectionOf(section: string): Field
  {
    if section == "receivers" then Receivers else if section == "processors" then Processors else Exporters
  }

  /** Every listed reference is the plain text of an identifier. */
  ghost predicate ListsIdentifiers(n: Option<Node>)
  {
    n.Some? && n.value.kind == Sequence ==>
      forall item :: item in n.value.content ==>
        item.kind == Scalar && item.tag == StrTag && (TypeText(item.value) || exists t, m :: Joins(item.value, t, m))
  }

  lemma ReferencesAreIdentifiers(n: Option<Node>, optional: bool)
    requires SequenceOk(n, optional)
    ensures n.Some? && n.value.tag != NullTag ==> n.value.kind == Sequence && ListsIdentifiers(n)
  {
    hide IsComponentId, TypeText, Joins;
    if n.Some? && n.value.tag != NullTag {
      forall item | item in n.value.content
        ensures item.kind == Scalar && item.tag == StrTag &&
                (TypeText(item.value) || exists t, m :: Joins(item.value, t, m))
      {
        assert IsReference(item);
        ComponentIdMeans(item.value);
      }
    }
  }

  ghost predicate SupportedPipeline(root: Node, name: string, p: Node)
  {
    (HasType(name, "logs") || HasType(name, "traces") || HasType(name, "metrics")) && p.kind == Mapping &&
    KeysIn(p.content) <= {"receivers", "processors", "exporters"} &&
    SequenceIds(LookupIn(p.content, "receivers"), false) != [] &&
    SequenceIds(LookupIn(p.content, "exporters"), false) != [] &&
    Refers(root, p, "receivers") && Refers(root, p, "processors") && Refers(root, p, "exporters") &&
    Explicit(LookupIn(p.content, "receivers")) && Explicit(LookupIn(p.content, "processors")) &&
    Explicit(LookupIn(p.content, "exporters")) &&
    forall id :: id in Refs(p, Processors) ==> !HasType(id, "routing")
  }

  /** Missing, null, or a sequence of identifiers. */
  ghost predicate Explicit(n: Option<Node>)
  {
    n.Some? && n.value.tag != NullTag ==> n.value.kind == Sequence && ListsIdentifiers(n)
  }

  lemma OkIsSupported(root: Node, name: string, p: Node)
    requires PipelineOk(root, name, p)
    ensures SupportedPipeline(root, name, p)
  {
    hide IsComponentId, KeysIn, LookupIn, HasType, Components, IsReference, ListsIdentifiers;
    SignalMeans(name);
    ReferencesAreIdentifiers(LookupIn(p.content, "receivers"), false);
    ReferencesAreIdentifiers(LookupIn(p.content, "processors"), true);
    ReferencesAreIdentifiers(LookupIn(p.content, "exporters"), false);
    forall k | k in KeysIn(p.content) ensures k in {"receivers", "processors", "exporters"} {
      FieldsMean(k);
    }
    forall id | id in Refs(p, Processors) ensures !HasType(id, "routing") {
      ProcessorMeans(id, Components(LookupIn(root.content, Name(Processors)))[id]);
    }
    assert SectionOf("receivers") == Receivers && SectionOf("processors") == Processors &&
           SectionOf("exporters") == Exporters by { SectionNames(); }
  }

  lemma SectionNames()
    ensures SectionOf("receivers") == Receivers && SectionOf("processors") == Processors &&
            SectionOf("exporters") == Exporters
  {
    assert "receivers"[0] == 'r' && "processors"[0] == 'p' && "exporters"[0] == 'e';
  }

  /** An accepted configuration has known sections only and no connectors; each of its pipelines carries logs, traces or
      metrics from defined receivers through defined processors, none of them routing, to defined exporters; no signal
      has two pipelines, and each populated signal has one. */
  lemma AcceptedIsSupported(root: Node, pop: Population)
    requires Accepts(root, pop)
    ensures KeysIn(root.content) <=
            {"receivers", "processors", "exporters", "extensions", "connectors", "service"}
    ensures Components(LookupIn(root.content, "connectors")) == map[]
    ensures var ps := SourcePipelines(root);
            ps != map[] && (forall n :: n in ps ==> SupportedPipeline(root, n, ps[n])) &&
            (forall m, n :: m in ps && n in ps && SignalOf(m) == SignalOf(n) ==> m == n) &&
            (pop.logs ==> exists n :: n in ps && HasType(n, "logs")) &&
            (pop.traces ==> exists n :: n in ps && HasType(n, "traces")) &&
            (pop.metrics ==> exists n :: n in ps && HasType(n, "metrics"))
  {
    hide IsComponentId, HasType, SupportedPipeline, PipelineOk, SignalOf, Inline, ValidYaml;
    forall k | k in KeysIn(root.content)
      ensures k in {"receivers", "processors", "exporters", "extensions", "connectors", "service"}
    {
      FieldsMean(k);
    }
    var ps := SourcePipelines(root);
    forall n | n in ps ensures SupportedPipeline(root, n, ps[n]) {
      OkIsSupported(root, n, ps[n]);
    }
    PopulationIsServed(ps, pop);
    PipelinesAreThere(root);
  }

  lemma PipelinesAreThere(root: Node)
    requires ServiceOk(root) && ValidYaml(root, 0)
    ensures SourcePipelines(root) != map[]
  {
    var content := PipelinesNode(root).value.content;
    LookupIsValid(root, Name(Service), 0);
    var service := LookupIn(root.content, Name(Service)).value;
    LookupIsValid(service, Name(Pipelines), 1);
    assert |content| % 2 == 0;
    assert content[0].value in KeysIn(content);
    assert content[0].value in Entries(content);
  }

  lemma PopulationIsServed(ps: map<string, Node>, pop: Population)
    requires Covered(ps, pop)
    ensures pop.logs ==> exists n :: n in ps && HasType(n, "logs")
    ensures pop.traces ==> exists n :: n in ps && HasType(n, "traces")
    ensures pop.metrics ==> exists n :: n in ps && HasType(n, "metrics")
  {
    hide HasType, SignalOf;
    forall n ensures SignalOf(n) == Some(Logs) <==> HasType(n, "logs")
             ensures SignalOf(n) == Some(Traces) <==> HasType(n, "traces")
             ensures SignalOf(n) == Some(Metrics) <==> HasType(n, "metrics")
    {
      SignalMeans(n);
    }
    assert Has(pop, Logs) == pop.logs && Has(pop, Traces) == pop.traces && Has(pop, Metrics) == pop.metrics;
  }

  /** What the parser returns runs no routing processor. */
  method ParsedRunsNoRouting(root: Node, pop: Population) returns (t: Option<Topology>)
    requires Decoded(root)
    ensures t.Some? ==>
              forall p, id :: p in t.value.pipelines && id in p.processors ==> !HasType(id, "routing")
    ensures t.Some? <==> Accepts(root, pop)
  {
    hide Accepts, Selected, HasType;
    t := Parser.ParseTopology(root, pop);
    if t.Some? {
      SelectedRunsNoRouting(root, pop);
    }
  }

  lemma SelectedRunsNoRouting(root: Node, pop: Population)
    requires Accepts(root, pop)
    ensures forall p, id :: p in Selected(root, pop).pipelines && id in p.processors ==> !HasType(id, "routing")
  {
    hide Accepts, Selected, HasType, ProcessorOk, StrictlySorted, Runs, OnePerSignal, Serves, HoldsDefinitions;
    SelectedIsWellFormed(root, pop);
    forall p, id | p in Selected(root, pop).pipelines && id in p.processors ensures !HasType(id, "routing") {
      assert Usable(id, Definitions(root)[id]);
      ProcessorMeans(id, Definitions(root)[id]);
    }
  }

  // ----- depth -----

  /** A list in a list, this many times. */
  function Nested(n: nat): Node
  {
    Node(Sequence, SeqTag, "", "", "", if n == 0 then [] else [Nested(n - 1)])
  }

  lemma {:induction false} NestedIsValid(n: nat, depth: nat)
    ensures ValidYaml(Nested(n), depth) <==> depth + n <= 100
  {
    var nested := Nested(n);
    if n == 0 {
      assert nested.content == [];
    } else {
      NestedIsValid(n - 1, depth + 1);
      assert nested.content == [Nested(n - 1)];
      assert nested.content[0] == Nested(n - 1) && Nested(n - 1) in nested.content;
    }
  }
}
