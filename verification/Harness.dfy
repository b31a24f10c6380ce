/** The isolated configuration generated for a run (topology.harness of internal/runner/topology.go), and that
    it means what the source configuration meant. */
module Harness {
  import opened Strings
  import opened Yaml
  import opened Topology

  const HARNESS_ID := "otlp/policy_lab"

  // ----- building nodes -----

  function ScalarNode(tag: Tag, text: string): Node
  {
    Node(Scalar, tag, text, "", "", [])
  }

  function SeqNode(values: seq<string>): Node
  {
    Node(Sequence, SeqTag, "", "", "", seq(|values|, i requires 0 <= i < |values| => StrNode(values[i])))
  }

  function Key(f: Field): Node
  {
    StrNode(Name(f))
  }

  function ReceiverNode(receiver: string): Node
  {
    MapNode([StrNode("protocols"), MapNode([StrNode("grpc"), MapNode([
      StrNode("endpoint"), StrNode(receiver), StrNode("max_recv_msg_size_mib"), ScalarNode(IntTag, "16")])])])
  }

  function ExporterNode(capture: string): Node
  {
    MapNode([
      StrNode("endpoint"), StrNode(capture),
      StrNode("tls"), MapNode([StrNode("insecure"), ScalarNode(BoolTag, "true")]),
      StrNode("compression"), StrNode("none"),
      StrNode("sending_queue"), MapNode([StrNode("enabled"), ScalarNode(BoolTag, "false")]),
      StrNode("retry_on_failure"), MapNode([StrNode("enabled"), ScalarNode(BoolTag, "false")]),
      StrNode("timeout"), StrNode("2s")])
  }

  function TelemetryNode(): Node
  {
    MapNode([StrNode("logs"), MapNode([StrNode("level"), StrNode("info")]),
             StrNode("metrics"), MapNode([StrNode("level"), StrNode("none")])])
  }

  function PipelineNode(p: Pipeline): Node
  {
    MapNode([Key(Receivers), SeqNode([HARNESS_ID]), Key(Processors), SeqNode(p.processors), Key(Exporters),
             SeqNode([HARNESS_ID])])
  }

  function PipelineEntries(pipelines: seq<Pipeline>): (r: seq<Node>)
    ensures |r| == 2 * |pipelines|
  {
    if pipelines == [] then [] else
    var last := pipelines[|pipelines| - 1];
    PipelineEntries(pipelines[..|pipelines| - 1]) + [StrNode(last.name), PipelineNode(last)]
  }

  function ServiceNode(pipelines: seq<Pipeline>): Node
  {
    MapNode([Key(Pipelines), MapNode(PipelineEntries(pipelines)), StrNode("telemetry"), TelemetryNode()])
  }

  function OnlyHarness(definition: Node): Node
  {
    MapNode([StrNode(HARNESS_ID), definition])
  }

  function Tree(t: Topology, receiver: string, capture: string): Node
  {
    MapNode([Key(Receivers), OnlyHarness(ReceiverNode(receiver)),
             Key(Processors), Bare(t.processors),
             Key(Exporters), OnlyHarness(ExporterNode(capture)),
             Key(Service), ServiceNode(t.pipelines)])
  }

  /** net.SplitHostPort gives the host 127.0.0.1, bare or in brackets. */
  predicate IsLoopback(endpoint: string)
  {
    (HasPrefix(endpoint, "127.0.0.1:") && IsPort(endpoint[10..])) ||
    (HasPrefix(endpoint, "[127.0.0.1]:") && IsPort(endpoint[12..]))
  }

  predicate IsPort(s: string)
  {
    ':' !in s && '[' !in s && ']' !in s
  }

  /** None: an endpoint is not loopback. */
  method BuildHarness(t: Topology, receiver: string, capture: string) returns (root: Option<Node>)
    ensures root == if IsLoopback(receiver) && IsLoopback(capture) then Some(Tree(t, receiver, capture)) else None
  {
    hide ReceiverNode, ExporterNode, TelemetryNode, Name, IsLoopback, Bare;
    if !IsLoopback(receiver) || !IsLoopback(capture) {
      return None;
    }
    var content: seq<Node> := [Key(Receivers), OnlyHarness(ReceiverNode(receiver))];
    var processors := CloneNode(t.processors);
    content := content + [Key(Processors), processors];
    content := content + [Key(Exporters), OnlyHarness(ExporterNode(capture))];
    var pipelines: seq<Node> := [];
    for i := 0 to |t.pipelines|
      invariant pipelines == PipelineEntries(t.pipelines[..i])
    {
      assert t.pipelines[..i + 1][..i] == t.pipelines[..i];
      pipelines := pipelines + [StrNode(t.pipelines[i].name), PipelineNode(t.pipelines[i])];
    }
    assert t.pipelines[..|t.pipelines|] == t.pipelines;
    var service := MapNode([Key(Pipelines), MapNode(pipelines), StrNode("telemetry"), TelemetryNode()]);
    content := content + [Key(Service), service];
    assert content == Tree(t, receiver, capture).content;
    return Some(MapNode(content));
  }

  // ----- small valid trees -----

  lemma StrNodeValid(s: string, depth: nat)
    requires depth <= MAX_DEPTH
    ensures ValidYaml(StrNode(s), depth)
  {
  }

  lemma SeqNodeValid(values: seq<string>, depth: nat)
    requires depth < MAX_DEPTH
    ensures ValidYaml(SeqNode(values), depth)
  {
    forall c | c in SeqNode(values).content ensures ValidYaml(c, depth + 1) {
      var i :| 0 <= i < |values| && c == StrNode(values[i]);
      StrNodeValid(values[i], depth + 1);
    }
  }

  /** A mapping built from distinct string keys and valid values. */
  lemma MapNodeValid(content: seq<Node>, depth: nat)
    requires depth < MAX_DEPTH && |content| % 2 == 0 && KeysAreStrings(content) && KeysDistinct(content)
    requires forall i :: 0 <= i < |content| ==> ValidYaml(content[i], depth + 1)
    ensures ValidYaml(MapNode(content), depth)
  {
    hide KeysAreStrings, KeysDistinct;
    forall c | c in content ensures ValidYaml(c, depth + 1) {
      var i :| 0 <= i < |content| && content[i] == c;
    }
  }

  lemma OneEntry(k: string, v: Node, depth: nat)
    requires depth < MAX_DEPTH && k != "<<" && ValidYaml(v, depth + 1)
    ensures ValidYaml(MapNode([StrNode(k), v]), depth)
    ensures KeysIn([StrNode(k), v]) == {k} && LookupIn([StrNode(k), v], k) == Some(v)
  {
    var c := [StrNode(k), v];
    assert c[2..] == [];
    StrNodeValid(k, depth + 1);
    MapNodeValid(c, depth);
  }

  /** Content of a valid mapping. */
  predicate GoodEntries(content: seq<Node>, depth: nat)
  {
    |content| % 2 == 0 && KeysAreStrings(content) && KeysDistinct(content) &&
    forall i :: 0 <= i < |content| ==> ValidYaml(content[i], depth)
  }

  lemma Prepend(k: string, v: Node, content: seq<Node>, depth: nat)
    requires depth <= MAX_DEPTH && k != "<<" && k !in KeysIn(content) && GoodEntries(content, depth) &&
             ValidYaml(v, depth)
    ensures GoodEntries([StrNode(k), v] + content, depth)
    ensures KeysIn([StrNode(k), v] + content) == {k} + KeysIn(content)
    ensures forall x :: LookupIn([StrNode(k), v] + content, x) == if x == k then Some(v) else LookupIn(content, x)
  {
    assert ([StrNode(k), v] + content)[2..] == content;
    StrNodeValid(k, depth);
  }

  lemma GoodMapNode(content: seq<Node>, depth: nat)
    requires depth < MAX_DEPTH && GoodEntries(content, depth + 1)
    ensures ValidYaml(MapNode(content), depth)
  {
    hide ValidYaml, KeysAreStrings, KeysDistinct;
    MapNodeValid(content, depth);
  }

  lemma ReceiverValid(receiver: string)
    ensures ValidYaml(ReceiverNode(receiver), 2)
  {
    hide ValidYaml, GoodEntries;
    EmptyIsGood(5);
    StrNodeValid(receiver, 5);
    ScalarValid(IntTag, "16", 5);
    var size := [StrNode("max_recv_msg_size_mib"), ScalarNode(IntTag, "16")] + [];
    Prepend("max_recv_msg_size_mib", ScalarNode(IntTag, "16"), [], 5);
    var inner := [StrNode("endpoint"), StrNode(receiver)] + size;
    Prepend("endpoint", StrNode(receiver), size, 5);
    GoodMapNode(inner, 4);
    OneEntry("grpc", MapNode(inner), 3);
    OneEntry("protocols", MapNode([StrNode("grpc"), MapNode(inner)]), 2);
    assert inner == [StrNode("endpoint"), StrNode(receiver), StrNode("max_recv_msg_size_mib"),
                     ScalarNode(IntTag, "16")];
  }

  lemma EmptyIsGood(depth: nat)
    ensures GoodEntries([], depth) && KeysIn([]) == {}
  {
  }

  function Off(): Node
  {
    MapNode([StrNode("enabled"), ScalarNode(BoolTag, "false")])
  }

  /** The last three settings of the exporter. */
  function ExporterTail(): seq<Node>
  {
    [StrNode("sending_queue"), Off(), StrNode("retry_on_failure"), Off(), StrNode("timeout"), StrNode("2s")]
  }

  lemma ExporterTailGood()
    ensures GoodEntries(ExporterTail(), 3) && KeysIn(ExporterTail()) == {"sending_queue", "retry_on_failure", "timeout"}
  {
    hide ValidYaml, GoodEntries;
    EmptyIsGood(3);
    StrNodeValid("2s", 3);
    ScalarValid(BoolTag, "false", 4);
    OneEntry("enabled", ScalarNode(BoolTag, "false"), 3);
    var c2 := [StrNode("timeout"), StrNode("2s")] + [];
    Prepend("timeout", StrNode("2s"), [], 3);
    var c1 := [StrNode("retry_on_failure"), Off()] + c2;
    Prepend("retry_on_failure", Off(), c2, 3);
    Prepend("sending_queue", Off(), c1, 3);
    assert ExporterTail() == [StrNode("sending_queue"), Off()] + c1;
  }

  lemma ExporterValid(capture: string)
    ensures ValidYaml(ExporterNode(capture), 2)
  {
    hide ValidYaml, GoodEntries, ExporterTail, Off, KeysIn;
    ExporterTailGood();
    var tls := MapNode([StrNode("insecure"), ScalarNode(BoolTag, "true")]);
    ScalarValid(BoolTag, "true", 4);
    OneEntry("insecure", ScalarNode(BoolTag, "true"), 3);
    StrNodeValid("none", 3);
    StrNodeValid(capture, 3);
    var c2 := [StrNode("compression"), StrNode("none")] + ExporterTail();
    Prepend("compression", StrNode("none"), ExporterTail(), 3);
    var c1 := [StrNode("tls"), tls] + c2;
    Prepend("tls", tls, c2, 3);
    var c0 := [StrNode("endpoint"), StrNode(capture)] + c1;
    Prepend("endpoint", StrNode(capture), c1, 3);
    GoodMapNode(c0, 2);
    ExporterContent(capture, c0);
  }

  lemma ExporterContent(capture: string, c0: seq<Node>)
    requires c0 == [StrNode("endpoint"), StrNode(capture)] +
             ([StrNode("tls"), MapNode([StrNode("insecure"), ScalarNode(BoolTag, "true")])] +
                   ([StrNode("compression"), StrNode("none")] + ExporterTail()))
    ensures ExporterNode(capture) == MapNode(c0)
  {
  }

  lemma ScalarValid(tag: Tag, text: string, depth: nat)
    requires depth <= MAX_DEPTH
    ensures ValidYaml(ScalarNode(tag, text), depth)
  {
  }

  lemma TelemetryValid()
    ensures ValidYaml(TelemetryNode(), 2)
  {
    var logs, metrics := MapNode([StrNode("level"), StrNode("info")]), MapNode([StrNode("level"), StrNode("none")]);
    StrNodeValid("info", 4);
    StrNodeValid("none", 4);
    StrNodeValid("logs", 3);
    StrNodeValid("metrics", 3);
    OneEntry("level", StrNode("info"), 3);
    OneEntry("level", StrNode("none"), 3);
    hide ValidYaml, GoodEntries;
    EmptyIsGood(3);
    var c1 := [StrNode("metrics"), metrics] + [];
    Prepend("metrics", metrics, [], 3);
    Prepend("logs", logs, c1, 3);
    GoodMapNode([StrNode("logs"), logs] + c1, 2);
    assert [StrNode("logs"), logs] + c1 == TelemetryNode().content;
  }

  // ----- the top of the tree -----

  lemma NamesAreNotMerge(f: Field)
    ensures Name(f) != "<<"
  {
    assert |Name(f)| > 2;
  }

  lemma NamesApart()
    ensures forall f, g :: Name(f) == Name(g) ==> f == g
    ensures forall f :: Name(f) != "<<"
  {
    forall f, g | Name(f) == Name(g) ensures f == g {
      NamesDiffer(f, g);
    }
    forall f ensures Name(f) != "<<" {
      NamesAreNotMerge(f);
    }
  }

  /** A mapping with these four fields. */
  lemma FourFields(f1: Field, v1: Node, f2: Field, v2: Node, f3: Field, v3: Node, f4: Field, v4: Node, depth: nat)
    requires f1 != f2 && f1 != f3 && f1 != f4 && f2 != f3 && f2 != f4 && f3 != f4 && depth <= MAX_DEPTH
    requires ValidYaml(v1, depth) && ValidYaml(v2, depth) && ValidYaml(v3, depth) && ValidYaml(v4, depth)
    ensures var content := [Key(f1), v1, Key(f2), v2, Key(f3), v3, Key(f4), v4];
            GoodEntries(content, depth) && KeysIn(content) == {Name(f1), Name(f2), Name(f3), Name(f4)} &&
            LookupIn(content, Name(f1)) == Some(v1) && LookupIn(content, Name(f2)) == Some(v2) &&
            LookupIn(content, Name(f3)) == Some(v3) && LookupIn(content, Name(f4)) == Some(v4) &&
            forall k :: k !in KeysIn(content) ==> LookupIn(content, k) == None
  {
    hide ValidYaml, GoodEntries, Name, LookupIn, KeysIn;
    NamesApart();
    var rest := [Key(f2), v2, Key(f3), v3, Key(f4), v4];
    ThreeFields(f2, v2, f3, v3, f4, v4, depth);
    Prepend(Name(f1), v1, rest, depth);
    var content := [Key(f1), v1] + rest;
    assert content == [Key(f1), v1, Key(f2), v2, Key(f3), v3, Key(f4), v4];
    forall k | k !in KeysIn(content) ensures LookupIn(content, k) == None {
      LookupFindsKeys(content, k);
    }
  }

  lemma ThreeFields(f1: Field, v1: Node, f2: Field, v2: Node, f3: Field, v3: Node, depth: nat)
    requires f1 != f2 && f1 != f3 && f2 != f3 && depth <= MAX_DEPTH
    requires ValidYaml(v1, depth) && ValidYaml(v2, depth) && ValidYaml(v3, depth)
    ensures var content := [Key(f1), v1, Key(f2), v2, Key(f3), v3];
            GoodEntries(content, depth) && KeysIn(content) == {Name(f1), Name(f2), Name(f3)} &&
            LookupIn(content, Name(f1)) == Some(v1) && LookupIn(content, Name(f2)) == Some(v2) &&
            LookupIn(content, Name(f3)) == Some(v3)
  {
    hide ValidYaml, GoodEntries, Name, LookupIn, KeysIn;
    NamesApart();
    EmptyIsGood(depth);
    var c3 := [Key(f3), v3] + [];
    Prepend(Name(f3), v3, [], depth);
    var c2 := [Key(f2), v2] + c3;
    Prepend(Name(f2), v2, c3, depth);
    Prepend(Name(f1), v1, c2, depth);
    assert [Key(f1), v1] + c2 == [Key(f1), v1, Key(f2), v2, Key(f3), v3];
  }

  /** A pipeline of the harness: valid, with exactly its three fields. */
  lemma PipelineFields(p: Pipeline, depth: nat)
    requires depth + 3 <= MAX_DEPTH
    ensures var content := PipelineNode(p).content;
            ValidYaml(PipelineNode(p), depth) && PipelineNode(p).kind == Mapping &&
            KeysIn(content) == {Name(Receivers), Name(Processors), Name(Exporters)} &&
            LookupIn(content, Name(Receivers)) == Some(SeqNode([HARNESS_ID])) &&
            LookupIn(content, Name(Processors)) == Some(SeqNode(p.processors)) &&
            LookupIn(content, Name(Exporters)) == Some(SeqNode([HARNESS_ID]))
  {
    hide ValidYaml, GoodEntries, SeqNode, Name, HARNESS_ID, KeysIn, LookupIn;
    SeqNodeValid([HARNESS_ID], depth + 1);
    SeqNodeValid(p.processors, depth + 1);
    ThreeFields(Receivers, SeqNode([HARNESS_ID]), Processors, SeqNode(p.processors), Exporters, SeqNode([HARNESS_ID]),
                depth + 1);
    GoodMapNode(PipelineNode(p).content, depth);
  }

  /** The service section: valid, with the pipelines where the parser looks for them. */
  lemma ServiceFields(pipelines: seq<Pipeline>)
    requires ValidYaml(MapNode(PipelineEntries(pipelines)), 2)
    ensures ValidYaml(ServiceNode(pipelines), 1)
    ensures LookupIn(ServiceNode(pipelines).content, Name(Pipelines)) == Some(MapNode(PipelineEntries(pipelines)))
  {
    hide ValidYaml, GoodEntries, TelemetryNode, PipelineEntries, LookupIn;
    NamesAreNotMerge(Pipelines);
    TelemetryValid();
    EmptyIsGood(2);
    var rest := [StrNode("telemetry"), TelemetryNode()] + [];
    Prepend("telemetry", TelemetryNode(), [], 2);
    assert |Name(Pipelines)| == 9 && Name(Pipelines)[0] == 'p';
    var ps := MapNode(PipelineEntries(pipelines));
    Prepend(Name(Pipelines), ps, rest, 2);
    GoodMapNode([Key(Pipelines), ps] + rest, 1);
    assert ServiceNode(pipelines).content == [Key(Pipelines), ps] + rest;
  }

  lemma NoEntries()
    ensures KeysIn([]) == {} && KeysDistinct([]) && KeysAreStrings([])
  {
  }

  /** The pipelines of the harness, by name. */
  lemma {:induction false} PipelineEntriesByName(ps: seq<Pipeline>)
    requires forall i, j :: 0 <= i < j < |ps| ==> ps[i].name != ps[j].name
    ensures KeysIn(PipelineEntries(ps)) == set p | p in ps :: p.name
    ensures KeysDistinct(PipelineEntries(ps))
    ensures forall p :: p in ps ==> LookupIn(PipelineEntries(ps), p.name) == Some(PipelineNode(p))
  {
    hide PipelineNode, KeysIn, KeysDistinct, LookupIn;
    NoEntries();
    if ps != [] {
      var init, last := ps[..|ps| - 1], ps[|ps| - 1];
      assert ps == init + [last];
      PipelineEntriesByName(init);
      assert last.name !in KeysIn(PipelineEntries(init));
      AppendedEntries(PipelineEntries(init), StrNode(last.name), PipelineNode(last));
    }
  }

  /** The definitions of the harness, by id. */
  lemma {:induction false} DefinitionsById(ids: seq<string>, definitions: map<string, Node>)
    requires NoRepeats(ids) && forall id :: id in ids ==> id in definitions
    ensures KeysIn(DefinitionPairs(ids, definitions)) == set id | id in ids
    ensures KeysDistinct(DefinitionPairs(ids, definitions))
    ensures forall id :: id in ids ==> LookupIn(DefinitionPairs(ids, definitions), id) == Some(Bare(definitions[id]))
  {
    hide Bare, KeysIn, KeysDistinct, LookupIn;
    NoEntries();
    if ids != [] {
      var init, last := ids[..|ids| - 1], ids[|ids| - 1];
      assert ids == init + [last];
      DefinitionsById(init, definitions);
      assert last !in init;
      AppendedEntries(DefinitionPairs(init, definitions), StrNode(last), Bare(definitions[last]));
    }
  }

  lemma {:induction false} DefinitionsAreBare(ids: seq<string>, definitions: map<string, Node>)
    requires forall id :: id in ids ==> id in definitions
    ensures Bare(MapNode(DefinitionPairs(ids, definitions))) == MapNode(DefinitionPairs(ids, definitions))
  {
    var pairs := DefinitionPairs(ids, definitions);
    forall i | 0 <= i < |pairs| ensures Bare(pairs[i]) == pairs[i] {
      PairIsBare(ids, definitions, i);
    }
    assert Bare(MapNode(pairs)).content == pairs;
  }

  lemma {:induction false} PairIsBare(ids: seq<string>, definitions: map<string, Node>, i: nat)
    requires (forall id :: id in ids ==> id in definitions) && i < 2 * |ids|
    ensures Bare(DefinitionPairs(ids, definitions)[i]) == DefinitionPairs(ids, definitions)[i]
  {
    var init, last := ids[..|ids| - 1], ids[|ids| - 1];
    if i < 2 * |init| {
      PairIsBare(init, definitions, i);
    } else if i == 2 * |init| {
      assert Bare(StrNode(last)).content == [];
    } else {
      BareTwice(definitions[last]);
    }
  }

  lemma {:induction false} PairsValid(ids: seq<string>, definitions: map<string, Node>, depth: nat)
    requires depth <= MAX_DEPTH
    requires forall id :: id in ids ==> id in definitions && id != "<<" && ValidYaml(definitions[id], depth)
    ensures KeysAreStrings(DefinitionPairs(ids, definitions))
    ensures forall i :: 0 <= i < 2 * |ids| ==> ValidYaml(DefinitionPairs(ids, definitions)[i], depth)
  {
    hide ValidYaml, Bare;
    if ids != [] {
      var init, last := ids[..|ids| - 1], ids[|ids| - 1];
      assert forall id :: id in init ==> id in ids;
      PairsValid(init, definitions, depth);
      StringsAppended(DefinitionPairs(init, definitions), StrNode(last), Bare(definitions[last]));
      StrNodeValid(last, depth);
      BareValid(definitions[last], depth);
    }
  }

  lemma {:induction false} EntriesValid(ps: seq<Pipeline>, depth: nat)
    requires depth + 3 <= MAX_DEPTH
    requires forall p :: p in ps ==> p.name != "<<"
    ensures KeysAreStrings(PipelineEntries(ps))
    ensures forall i :: 0 <= i < 2 * |ps| ==> ValidYaml(PipelineEntries(ps)[i], depth)
  {
    hide ValidYaml, PipelineNode;
    if ps != [] {
      var init, last := ps[..|ps| - 1], ps[|ps| - 1];
      assert ps == init + [last];
      EntriesValid(init, depth);
      StringsAppended(PipelineEntries(init), StrNode(last.name), PipelineNode(last));
      StrNodeValid(last.name, depth);
      PipelineFields(last, depth);
    }
  }
}
