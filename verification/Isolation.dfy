/** What the generated configuration says, followed key by key from its root (topology.harness of
    internal/runner/topology.go). */
module Isolation {
  import opened Strings
  import opened Yaml
  import opened Topology
  import opened Selection
  import opened Harness
  import Capture

  /** The node under these keys. */
  function Follow(n: Option<Node>, path: seq<string>): Option<Node>
    decreases |path|
  {
    if path == [] then n else Follow(Lookup(n, path[0]), path[1..])
  }

  lemma Step(n: Option<Node>, key: string, path: seq<string>)
    ensures Follow(n, [key] + path) == Follow(Lookup(n, key), path)
  {
    assert ([key] + path)[1..] == path;
  }

  /** A scalar of this type and text. */
  predicate Holds(n: Option<Node>, tag: Tag, text: string)
  {
    n.Some? && n.value.kind == Scalar && n.value.tag == tag && n.value.value == text
  }

  /** A sequence of these texts. */
  predicate Lists(n: Option<Node>, texts: seq<string>)
  {
    n.Some? && n.value.kind == Sequence && |n.value.content| == |texts| &&
    forall i :: 0 <= i < |texts| ==> Holds(Some(n.value.content[i]), StrTag, texts[i])
  }

  function KeysAt(n: Option<Node>): set<string>
  {
    if n.None? || n.value.kind != Mapping then {} else KeysIn(n.value.content)
  }

  lemma FollowTwo(n: Option<Node>, a: string, b: string, path: seq<string>)
    ensures Follow(n, [a, b] + path) == Follow(Lookup(Lookup(n, a), b), path)
  {
    assert [a, b] + path == [a] + ([b] + path);
    Step(n, a, [b] + path);
    Step(Lookup(n, a), b, path);
  }

  lemma LookupStep(k: string, v: Node, rest: seq<Node>, key: string)
    ensures LookupIn([StrNode(k), v] + rest, key) == if k == key then Some(v) else LookupIn(rest, key)
    ensures KeysIn([StrNode(k), v] + rest) == {k} + KeysIn(rest)
  {
    assert ([StrNode(k), v] + rest)[2..] == rest;
  }

  lemma LookupOne(k: string, v: Node)
    ensures Lookup(Some(MapNode([StrNode(k), v])), k) == Some(v) && KeysIn([StrNode(k), v]) == {k}
  {
    assert [StrNode(k), v][2..] == [];
  }

  /** A setting and the settings behind it, for texts that differ. */
  lemma LookupTwo(k: string, v: Node, rest: seq<Node>, key: string)
    requires k != key
    ensures Lookup(Some(MapNode([StrNode(k), v] + rest)), k) == Some(v)
    ensures Lookup(Some(MapNode([StrNode(k), v] + rest)), key) == Lookup(Some(MapNode(rest)), key)
  {
    LookupStep(k, v, rest, k);
    LookupStep(k, v, rest, key);
  }

  // ----- the top -----

  lemma TopSections(t: Topology, receiver: string, capture: string)
    ensures var h := Some(Tree(t, receiver, capture));
            Lookup(h, "receivers") == Some(OnlyHarness(ReceiverNode(receiver))) &&
            Lookup(h, "processors") == Some(Bare(t.processors)) &&
            Lookup(h, "exporters") == Some(OnlyHarness(ExporterNode(capture))) &&
            Lookup(h, "service") == Some(ServiceNode(t.pipelines)) &&
            KeysIn(h.value.content) == {"receivers", "processors", "exporters", "service"}
  {
    hide OnlyHarness, ReceiverNode, ExporterNode, ServiceNode, Bare, LookupIn, KeysIn;
    var r, p := OnlyHarness(ReceiverNode(receiver)), Bare(t.processors);
    var e, s := OnlyHarness(ExporterNode(capture)), ServiceNode(t.pipelines);
    SectionNames();
    var c3 := [StrNode("service"), s];
    LookupOne("service", s);
    var c2 := [StrNode("exporters"), e] + c3;
    LookupTwo("exporters", e, c3, "service");
    var c1 := [StrNode("processors"), p] + c2;
    LookupTwo("processors", p, c2, "exporters");
    LookupTwo("processors", p, c2, "service");
    LookupTwo("receivers", r, c1, "processors");
    LookupTwo("receivers", r, c1, "exporters");
    LookupTwo("receivers", r, c1, "service");
    LookupStep("exporters", e, c3, "");
    LookupStep("processors", p, c2, "");
    LookupStep("receivers", r, c1, "");
    assert Tree(t, receiver, capture) == MapNode([StrNode("receivers"), r] + c1);
  }

  lemma SectionNames()
    ensures "receivers" != "processors" && "processors" != "exporters" && "exporters" != "service"
    ensures "receivers" != "exporters" && "receivers" != "service" && "processors" != "service"
  {
    assert "receivers"[0] == 'r' && "processors"[0] == 'p' && "exporters"[0] == 'e' && "service"[0] == 's';
  }

  lemma UnderHarnessId(definition: Node)
    ensures Lookup(Some(OnlyHarness(definition)), "otlp/policy_lab") == Some(definition)
    ensures KeysIn(OnlyHarness(definition).content) == {"otlp/policy_lab"}
  {
    var c := OnlyHarness(definition).content;
    assert c[2..] == [];
  }

  // ----- receiver -----

  lemma ReceiverSettings(receiver: string)
    ensures var grpc := Lookup(Lookup(Some(ReceiverNode(receiver)), "protocols"), "grpc");
            Holds(Lookup(grpc, "endpoint"), StrTag, receiver) &&
            Holds(Lookup(grpc, "max_recv_msg_size_mib"), IntTag, "16")
    ensures KeysAt(Some(ReceiverNode(receiver))) == {"protocols"}
    ensures KeysAt(Lookup(Some(ReceiverNode(receiver)), "protocols")) == {"grpc"}
  {
    hide LookupIn, KeysIn;
    var size := [StrNode("max_recv_msg_size_mib"), ScalarNode(IntTag, "16")];
    LookupOne("max_recv_msg_size_mib", ScalarNode(IntTag, "16"));
    assert "endpoint"[0] != "max_recv_msg_size_mib"[0];
    LookupTwo("endpoint", StrNode(receiver), size, "max_recv_msg_size_mib");
    var settings := MapNode([StrNode("endpoint"), StrNode(receiver)] + size);
    LookupOne("grpc", settings);
    LookupOne("protocols", MapNode([StrNode("grpc"), settings]));
    assert settings.content == [StrNode("endpoint"), StrNode(receiver), StrNode("max_recv_msg_size_mib"),
                                ScalarNode(IntTag, "16")];
    assert ReceiverNode(receiver) == MapNode([StrNode("protocols"), MapNode([StrNode("grpc"), settings])]);
  }

  /** One receiver: OTLP over gRPC only, on the reserved endpoint, taking messages of exactly the size the capture
      takes. */
  lemma HarnessReceives(t: Topology, receiver: string, capture: string)
    ensures var h := Some(Tree(t, receiver, capture));
            Holds(Follow(h, ["receivers", "otlp/policy_lab"] + ["protocols", "grpc"] + ["endpoint"]), StrTag,
                  receiver) &&
            Holds(Follow(h, ["receivers", "otlp/policy_lab"] + ["protocols", "grpc"] + ["max_recv_msg_size_mib"]),
                  IntTag, "16") &&
            ReadDecimal("16") * 1024 * 1024 == Capture.MAX_MESSAGE_BYTES &&
            KeysAt(Lookup(h, "receivers")) == {"otlp/policy_lab"}
  {
    hide Tree, ReceiverNode, OnlyHarness, LookupIn, KeysIn, Holds;
    var h := Some(Tree(t, receiver, capture));
    TopSections(t, receiver, capture);
    UnderHarnessId(ReceiverNode(receiver));
    ReceiverSettings(receiver);
    FollowSetting(h, "receivers", "otlp/policy_lab", "protocols", "grpc", "endpoint");
    FollowSetting(h, "receivers", "otlp/policy_lab", "protocols", "grpc", "max_recv_msg_size_mib");
    SixteenMebibytes();
  }

  lemma FollowSetting(n: Option<Node>, a: string, b: string, c: string, d: string, e: string)
    ensures Follow(n, [a, b] + [c, d] + [e]) == Lookup(Lookup(Lookup(Lookup(Lookup(n, a), b), c), d), e)
  {
    hide LookupIn;
    assert [a, b] + [c, d] + [e] == [a, b] + ([c, d] + [e]);
    FollowTwo(n, a, b, [c, d] + [e]);
    FollowTwo(Lookup(Lookup(n, a), b), c, d, [e]);
    assert [e] == [e] + [];
    Step(Lookup(Lookup(Lookup(Lookup(n, a), b), c), d), e, []);
  }

  lemma SixteenMebibytes()
    ensures ReadDecimal("16") * 1024 * 1024 == Capture.MAX_MESSAGE_BYTES
  {
    assert "16"[..1] == "1" && "1"[..0] == "";
  }

  // ----- exporter -----

  lemma ExporterSettings(capture: string)
    ensures var e := Some(ExporterNode(capture));
            Holds(Lookup(e, "endpoint"), StrTag, capture) && Holds(Lookup(e, "compression"), StrTag, "none") &&
            Holds(Lookup(e, "timeout"), StrTag, "2s") &&
            Holds(Lookup(Lookup(e, "tls"), "insecure"), BoolTag, "true") &&
            Holds(Lookup(Lookup(e, "sending_queue"), "enabled"), BoolTag, "false") &&
            Holds(Lookup(Lookup(e, "retry_on_failure"), "enabled"), BoolTag, "false")
  {
    hide LookupIn, KeysIn;
    ExporterNames();
    var off := MapNode([StrNode("enabled"), ScalarNode(BoolTag, "false")]);
    LookupOne("enabled", ScalarNode(BoolTag, "false"));
    var tls := MapNode([StrNode("insecure"), ScalarNode(BoolTag, "true")]);
    LookupOne("insecure", ScalarNode(BoolTag, "true"));
    var c5 := [StrNode("timeout"), StrNode("2s")];
    LookupOne("timeout", StrNode("2s"));
    var c4 := [StrNode("retry_on_failure"), off] + c5;
    LookupTwo("retry_on_failure", off, c5, "timeout");
    var c3 := [StrNode("sending_queue"), off] + c4;
    LookupTwo("sending_queue", off, c4, "timeout");
    LookupTwo("sending_queue", off, c4, "retry_on_failure");
    var c2 := [StrNode("compression"), StrNode("none")] + c3;
    LookupTwo("compression", StrNode("none"), c3, "timeout");
    LookupTwo("compression", StrNode("none"), c3, "retry_on_failure");
    LookupTwo("compression", StrNode("none"), c3, "sending_queue");
    ExporterFront(capture, tls, c2);
    assert ExporterNode(capture) == MapNode([StrNode("endpoint"), StrNode(capture)] + ([StrNode("tls"), tls] + c2));
  }

  lemma ExporterNames()
    ensures "retry_on_failure" != "timeout" && "sending_queue" != "timeout" && "sending_queue" != "retry_on_failure"
    ensures "compression" != "timeout" && "compression" != "retry_on_failure" && "compression" != "sending_queue"
  {
    assert "retry_on_failure"[0] == 'r' && "timeout"[0] == 't' && "sending_queue"[0] == 's' && "compression"[0] == 'c';
  }

  lemma ExporterFront(capture: string, tls: Node, rest: seq<Node>)
    ensures var n, behind := Some(MapNode([StrNode("endpoint"), StrNode(capture)] + ([StrNode("tls"), tls] + rest))),
                             Some(MapNode(rest));
            Lookup(n, "endpoint") == Some(StrNode(capture)) && Lookup(n, "tls") == Some(tls) &&
            Lookup(n, "compression") == Lookup(behind, "compression") &&
            Lookup(n, "sending_queue") == Lookup(behind, "sending_queue") &&
            Lookup(n, "retry_on_failure") == Lookup(behind, "retry_on_failure") &&
            Lookup(n, "timeout") == Lookup(behind, "timeout")
  {
    hide LookupIn, KeysIn;
    assert "endpoint"[0] == 'e' && "tls"[0] == 't' && "compression"[0] == 'c' && "sending_queue"[0] == 's' &&
           "retry_on_failure"[0] == 'r' && "timeout"[1] == 'i' && "tls"[1] == 'l' && "timeout"[0] == 't';
    var c1 := [StrNode("tls"), tls] + rest;
    LookupTwo("tls", tls, rest, "compression");
    LookupTwo("tls", tls, rest, "sending_queue");
    LookupTwo("tls", tls, rest, "retry_on_failure");
    LookupTwo("tls", tls, rest, "timeout");
    LookupTwo("endpoint", StrNode(capture), c1, "tls");
    LookupTwo("endpoint", StrNode(capture), c1, "compression");
    LookupTwo("endpoint", StrNode(capture), c1, "sending_queue");
    LookupTwo("endpoint", StrNode(capture), c1, "retry_on_failure");
    LookupTwo("endpoint", StrNode(capture), c1, "timeout");
  }

  /** One exporter: to the capture, at once, without retrying and without queueing. */
  lemma HarnessExports(t: Topology, receiver: string, capture: string)
    ensures var e := Follow(Some(Tree(t, receiver, capture)), ["exporters", "otlp/policy_lab"] + []);
            Holds(Lookup(e, "endpoint"), StrTag, capture) && Holds(Lookup(e, "compression"), StrTag, "none") &&
            Holds(Lookup(e, "timeout"), StrTag, "2s") &&
            Holds(Lookup(Lookup(e, "tls"), "insecure"), BoolTag, "true") &&
            Holds(Lookup(Lookup(e, "sending_queue"), "enabled"), BoolTag, "false") &&
            Holds(Lookup(Lookup(e, "retry_on_failure"), "enabled"), BoolTag, "false") &&
            KeysAt(Lookup(Some(Tree(t, receiver, capture)), "exporters")) == {"otlp/policy_lab"}
  {
    hide Tree, ExporterNode, OnlyHarness, LookupIn, KeysIn, Holds;
    TopSections(t, receiver, capture);
    UnderHarnessId(ExporterNode(capture));
    ExporterSettings(capture);
    FollowTwo(Some(Tree(t, receiver, capture)), "exporters", "otlp/policy_lab", []);
  }

  // ----- service -----

  lemma ServiceSections(pipelines: seq<Pipeline>)
    ensures var s := Some(ServiceNode(pipelines));
            Lookup(s, "pipelines") == Some(MapNode(PipelineEntries(pipelines))) &&
            Lookup(s, "telemetry") == Some(TelemetryNode()) &&
            KeysIn(s.value.content) == {"pipelines", "telemetry"}
  {
    hide TelemetryNode, PipelineEntries, LookupIn, KeysIn;
    var rest := [StrNode("telemetry"), TelemetryNode()];
    LookupOne("telemetry", TelemetryNode());
    assert "pipelines"[0] != "telemetry"[0];
    LookupTwo("pipelines", MapNode(PipelineEntries(pipelines)), rest, "telemetry");
    LookupStep("pipelines", MapNode(PipelineEntries(pipelines)), rest, "");
    assert ServiceNode(pipelines) ==
           MapNode([StrNode("pipelines"), MapNode(PipelineEntries(pipelines))] + rest);
  }

  /** The Collector's own logs at level info, which readiness is read from, and no metrics of its own. */
  lemma TelemetrySettings()
    ensures var n := Some(TelemetryNode());
            Holds(Lookup(Lookup(n, "logs"), "level"), StrTag, "info") &&
            Holds(Lookup(Lookup(n, "metrics"), "level"), StrTag, "none")
  {
    hide LookupIn, KeysIn;
    LookupOne("level", StrNode("info"));
    LookupOne("level", StrNode("none"));
    var metrics := MapNode([StrNode("level"), StrNode("none")]);
    var logs := MapNode([StrNode("level"), StrNode("info")]);
    LookupOne("metrics", metrics);
    assert "logs"[0] != "metrics"[0];
    LookupTwo("logs", logs, [StrNode("metrics"), metrics], "metrics");
    assert TelemetryNode() == MapNode([StrNode("logs"), logs] + [StrNode("metrics"), metrics]);
  }

  lemma PipelineSections(p: Pipeline)
    ensures var n := Some(PipelineNode(p));
            Lists(Lookup(n, "receivers"), ["otlp/policy_lab"]) && Lists(Lookup(n, "processors"), p.processors) &&
            Lists(Lookup(n, "exporters"), ["otlp/policy_lab"]) &&
            KeysIn(n.value.content) == {"receivers", "processors", "exporters"}
  {
    hide LookupIn, KeysIn;
    SectionNames();
    var one, ps := SeqNode(["otlp/policy_lab"]), SeqNode(p.processors);
    var c2 := [StrNode("exporters"), one];
    LookupOne("exporters", one);
    var c1 := [StrNode("processors"), ps] + c2;
    LookupTwo("processors", ps, c2, "exporters");
    LookupTwo("receivers", one, c1, "processors");
    LookupTwo("receivers", one, c1, "exporters");
    LookupStep("processors", ps, c2, "");
    LookupStep("receivers", one, c1, "");
    assert PipelineNode(p) == MapNode([StrNode("receivers"), one] + c1);
  }

  lemma {:induction false} EntryOfPipeline(pipelines: seq<Pipeline>, p: Pipeline)
    requires p in pipelines && StrictlySorted(PipelineNames(pipelines))
    ensures LookupIn(PipelineEntries(pipelines), p.name) == Some(PipelineNode(p))
    ensures KeysIn(PipelineEntries(pipelines)) == set q | q in PipelineNames(pipelines)
  {
    hide PipelineNode, Le;
    EntryKeys(pipelines);
    var init, last := pipelines[..|pipelines| - 1], pipelines[|pipelines| - 1];
    assert pipelines == init + [last];
    NamesOfInit(pipelines);
    EntryKeys(init);
    Appended(PipelineEntries(init), StrNode(last.name), PipelineNode(last), p.name);
    if p in init {
      EntryOfPipeline(init, p);
    } else {
      NotEarlier(pipelines);
      LookupFindsKeys(PipelineEntries(init), p.name);
    }
  }

  lemma NamesOfInit(pipelines: seq<Pipeline>)
    requires pipelines != [] && StrictlySorted(PipelineNames(pipelines))
    ensures StrictlySorted(PipelineNames(pipelines[..|pipelines| - 1]))
  {
    hide Le;
    assert PipelineNames(pipelines[..|pipelines| - 1]) == PipelineNames(pipelines)[..|pipelines| - 1];
  }

  lemma NotEarlier(pipelines: seq<Pipeline>)
    requires pipelines != [] && StrictlySorted(PipelineNames(pipelines))
    ensures pipelines[|pipelines| - 1].name !in PipelineNames(pipelines[..|pipelines| - 1])
  {
    hide Le;
    var names, n := PipelineNames(pipelines), |pipelines| - 1;
    assert PipelineNames(pipelines[..n]) == names[..n];
    assert forall k :: 0 <= k < n ==> names[k] != names[n];
  }

  lemma {:induction false} EntryKeys(pipelines: seq<Pipeline>)
    ensures KeysIn(PipelineEntries(pipelines)) == set q | q in PipelineNames(pipelines)
  {
    hide PipelineNode;
    if pipelines != [] {
      var init, last := pipelines[..|pipelines| - 1], pipelines[|pipelines| - 1];
      EntryKeys(init);
      assert pipelines == init + [last];
      assert PipelineNames(pipelines) == PipelineNames(init) + [last.name];
      Appended(PipelineEntries(init), StrNode(last.name), PipelineNode(last), "");
    }
  }

  /** Every pipeline runs from the one receiver through its processors to the one exporter; there is nothing else. */
  lemma HarnessPipelines(t: Topology, receiver: string, capture: string, p: Pipeline)
    requires StrictlySorted(PipelineNames(t.pipelines)) && p in t.pipelines
    ensures var all := Follow(Some(Tree(t, receiver, capture)), ["service", "pipelines"] + []);
            all.Some? && KeysIn(all.value.content) == (set q | q in PipelineNames(t.pipelines)) &&
            var n := Lookup(all, p.name);
            Lists(Lookup(n, "receivers"), ["otlp/policy_lab"]) && Lists(Lookup(n, "processors"), p.processors) &&
            Lists(Lookup(n, "exporters"), ["otlp/policy_lab"])
  {
    hide Tree, PipelineNode, ServiceNode, LookupIn, KeysIn, Lists, StrictlySorted;
    TopSections(t, receiver, capture);
    ServiceSections(t.pipelines);
    EntryOfPipeline(t.pipelines, p);
    PipelineSections(p);
    FollowTwo(Some(Tree(t, receiver, capture)), "service", "pipelines", []);
  }

  lemma HarnessTelemetry(t: Topology, receiver: string, capture: string)
    ensures var n := Follow(Some(Tree(t, receiver, capture)), ["service", "telemetry"] + []);
            Holds(Lookup(Lookup(n, "logs"), "level"), StrTag, "info") &&
            Holds(Lookup(Lookup(n, "metrics"), "level"), StrTag, "none")
  {
    hide Tree, ServiceNode, TelemetryNode, LookupIn, KeysIn, Holds;
    TopSections(t, receiver, capture);
    ServiceSections(t.pipelines);
    TelemetrySettings();
    FollowTwo(Some(Tree(t, receiver, capture)), "service", "telemetry", []);
  }

  // ----- endpoints -----

  /** The texts under a key "endpoint" anywhere below n. */
  function Endpoints(n: Node): set<string>
  {
    (set c, e | c in n.content && e in Endpoints(c) :: e) + if n.kind == Mapping then OwnEndpoints(n.content) else {}
  }

  function EndpointsAt(n: Option<Node>): set<string>
  {
    if n.None? then {} else Endpoints(n.value)
  }

  function OwnEndpoints(content: seq<Node>): set<string>
  {
    if |content| < 2 then {}
    else (if content[0].value == "endpoint" then {content[1].value} else {}) + OwnEndpoints(content[2..])
  }

  lemma NoEndpointInText(s: string)
    ensures Endpoints(StrNode(s)) == {}
  {
  }

  lemma EndpointsOfEntries(key: string, v: Node, rest: seq<Node>)
    ensures Endpoints(MapNode([StrNode(key), v] + rest)) ==
            (if key == "endpoint" then {v.value} else {}) + Endpoints(v) + Endpoints(MapNode(rest))
  {
    hide OwnEndpoints;
    var n := MapNode([StrNode(key), v] + rest);
    NoEndpointInText(key);
    FirstOwn(key, v, rest);
    assert forall c :: c in n.content <==> c == StrNode(key) || c == v || c in rest;
  }

  lemma FirstOwn(key: string, v: Node, rest: seq<Node>)
    ensures OwnEndpoints([StrNode(key), v] + rest) ==
            (if key == "endpoint" then {v.value} else {}) + OwnEndpoints(rest)
  {
    assert ([StrNode(key), v] + rest)[2..] == rest;
  }

  lemma EndpointsOfScalar(tag: Tag, text: string)
    ensures Endpoints(ScalarNode(tag, text)) == {}
  {
  }

  lemma EndpointsOfNothing()
    ensures Endpoints(MapNode([])) == {}
  {
  }

  lemma EndpointsOfOne(key: string, v: Node)
    requires key != "endpoint"
    ensures Endpoints(MapNode([StrNode(key), v])) == Endpoints(v)
  {
    hide Endpoints;
    EndpointsOfEntries(key, v, []);
    EndpointsOfNothing();
    assert [StrNode(key), v] + [] == [StrNode(key), v];
  }

  lemma ReceiverEndpoints(receiver: string)
    ensures Endpoints(OnlyHarness(ReceiverNode(receiver))) == {receiver}
  {
    hide Endpoints;
    var size := [StrNode("max_recv_msg_size_mib"), ScalarNode(IntTag, "16")];
    EndpointsOfScalar(IntTag, "16");
    EndpointsOfOne("max_recv_msg_size_mib", ScalarNode(IntTag, "16"));
    NoEndpointInText(receiver);
    EndpointsOfEntries("endpoint", StrNode(receiver), size);
    var settings := MapNode([StrNode("endpoint"), StrNode(receiver)] + size);
    EndpointsOfOne("grpc", settings);
    var grpc := MapNode([StrNode("grpc"), settings]);
    EndpointsOfOne("protocols", grpc);
    assert settings.content == [StrNode("endpoint"), StrNode(receiver), StrNode("max_recv_msg_size_mib"),
                                ScalarNode(IntTag, "16")];
    assert ReceiverNode(receiver) == MapNode([StrNode("protocols"), grpc]);
    EndpointsOfOne(HARNESS_ID, ReceiverNode(receiver));
  }

  lemma ExporterEndpoints(capture: string)
    ensures Endpoints(OnlyHarness(ExporterNode(capture))) == {capture}
  {
    hide Endpoints, MapNode, StrNode;
    var tls := MapNode([StrNode("insecure"), ScalarNode(BoolTag, "true")]);
    EndpointsOfScalar(BoolTag, "true");
    EndpointsOfOne("insecure", ScalarNode(BoolTag, "true"));
    NoEndpointInText("none");
    NoEndpointInText(capture);
    TextItself(capture);
    var c3 := ExporterTail();
    ExporterTailEndpoints();
    var c2 := [StrNode("compression"), StrNode("none")] + c3;
    EndpointsOfEntries("compression", StrNode("none"), c3);
    var c1 := [StrNode("tls"), tls] + c2;
    EndpointsOfEntries("tls", tls, c2);
    EndpointsOfEntries("endpoint", StrNode(capture), c1);
    ExporterContent(capture, [StrNode("endpoint"), StrNode(capture)] + c1);
    EndpointsOfOne(HARNESS_ID, ExporterNode(capture));
  }

  lemma TextItself(s: string)
    ensures StrNode(s).value == s
  {
  }

  lemma ExporterTailEndpoints()
    ensures Endpoints(MapNode(ExporterTail())) == {}
  {
    hide Endpoints, MapNode, StrNode;
    EndpointsOfScalar(BoolTag, "false");
    EndpointsOfOne("enabled", ScalarNode(BoolTag, "false"));
    NoEndpointInText("2s");
    var c5 := [StrNode("timeout"), StrNode("2s")];
    EndpointsOfOne("timeout", StrNode("2s"));
    var c4 := [StrNode("retry_on_failure"), Off()] + c5;
    EndpointsOfEntries("retry_on_failure", Off(), c5);
    EndpointsOfEntries("sending_queue", Off(), c4);
    assert ExporterTail() == [StrNode("sending_queue"), Off()] + c4;
  }

  lemma NoEndpointInList(values: seq<string>)
    ensures Endpoints(SeqNode(values)) == {}
  {
    forall c | c in SeqNode(values).content ensures Endpoints(c) == {} {
      NoEndpointInText(c.value);
    }
  }

  lemma PipelineEndpoints(p: Pipeline)
    ensures Endpoints(PipelineNode(p)) == {}
  {
    hide Endpoints;
    SectionNames();
    assert "endpoint"[1] == 'n' && "exporters"[1] == 'x' && "receivers"[0] == 'r' && "processors"[0] == 'p' &&
           "endpoint"[0] == 'e';
    var one, ps := SeqNode(["otlp/policy_lab"]), SeqNode(p.processors);
    NoEndpointInList(["otlp/policy_lab"]);
    NoEndpointInList(p.processors);
    EndpointsOfOne("exporters", one);
    var c1 := [StrNode("processors"), ps] + [StrNode("exporters"), one];
    EndpointsOfEntries("processors", ps, [StrNode("exporters"), one]);
    EndpointsOfEntries("receivers", one, c1);
    assert PipelineNode(p) == MapNode([StrNode("receivers"), one] + c1);
  }

  lemma {:induction false} EntriesEndpoints(pipelines: seq<Pipeline>)
    requires forall p :: p in pipelines ==> p.name != "endpoint"
    ensures Endpoints(MapNode(PipelineEntries(pipelines))) == {}
  {
    hide Endpoints, PipelineNode;
    if pipelines == [] {
      EndpointsOfNothing();
    } else {
      var init, last := pipelines[..|pipelines| - 1], pipelines[|pipelines| - 1];
      assert last in pipelines && forall p :: p in init ==> p in pipelines;
      EntriesEndpoints(init);
      PipelineEndpoints(last);
      EndpointsAppended(PipelineEntries(init), last.name, PipelineNode(last));
    }
  }

  lemma EndpointsAppended(content: seq<Node>, key: string, v: Node)
    requires |content| % 2 == 0 && key != "endpoint"
    ensures Endpoints(MapNode(content + [StrNode(key), v])) == Endpoints(MapNode(content)) + Endpoints(v)
  {
    hide OwnEndpoints;
    NoEndpointInText(key);
    OwnAppended(content, key, v);
    var n := MapNode(content + [StrNode(key), v]);
    assert forall c :: c in n.content <==> c in content || c == StrNode(key) || c == v;
  }

  lemma {:induction false} OwnAppended(content: seq<Node>, key: string, v: Node)
    requires |content| % 2 == 0 && key != "endpoint"
    ensures OwnEndpoints(content + [StrNode(key), v]) == OwnEndpoints(content)
  {
    var all := content + [StrNode(key), v];
    if content == [] {
      assert all[2..] == [];
    } else {
      assert all[2..] == content[2..] + [StrNode(key), v];
      OwnAppended(content[2..], key, v);
    }
  }

  lemma TelemetryEndpoints()
    ensures Endpoints(TelemetryNode()) == {}
  {
    hide Endpoints;
    assert "endpoint"[0] == 'e' && "level"[0] == 'l' && "metrics"[0] == 'm' && "logs"[0] == 'l';
    var metrics := MapNode([StrNode("level"), StrNode("none")]);
    var logs := MapNode([StrNode("level"), StrNode("info")]);
    NoEndpointInText("none");
    NoEndpointInText("info");
    EndpointsOfOne("level", StrNode("none"));
    EndpointsOfOne("level", StrNode("info"));
    EndpointsOfOne("metrics", metrics);
    EndpointsOfEntries("logs", logs, [StrNode("metrics"), metrics]);
    assert TelemetryNode() == MapNode([StrNode("logs"), logs] + [StrNode("metrics"), metrics]);
  }

  lemma ServiceEndpoints(pipelines: seq<Pipeline>)
    requires forall p :: p in pipelines ==> p.name != "endpoint"
    ensures Endpoints(ServiceNode(pipelines)) == {}
  {
    hide Endpoints, PipelineEntries, TelemetryNode;
    assert "endpoint"[0] == 'e' && "pipelines"[0] == 'p' && "telemetry"[0] == 't';
    EntriesEndpoints(pipelines);
    TelemetryEndpoints();
    EndpointsOfOne("telemetry", TelemetryNode());
    var rest := [StrNode("telemetry"), TelemetryNode()];
    EndpointsOfEntries("pipelines", MapNode(PipelineEntries(pipelines)), rest);
    assert ServiceNode(pipelines) == MapNode([StrNode("pipelines"), MapNode(PipelineEntries(pipelines))] + rest);
  }

  lemma SignalIsNotEndpoint(name: string)
    requires SignalOf(name).Some?
    ensures name != "endpoint"
  {
    BeforeIsFirstPart("endpoint", '/');
    assert "endpoint"[0] == 'e' && "logs"[0] == 'l' && "traces"[0] == 't' && "metrics"[0] == 'm';
    assert Before("endpoint", '/')[0] == 'e';
  }

  /** 127.0.0.1 with a port, bare or in brackets. */
  ghost predicate OnLoopback(endpoint: string)
  {
    exists port :: (endpoint == "127.0.0.1:" + port || endpoint == "[127.0.0.1]:" + port) && ':' !in port
  }

  /** Outside the user's processor definitions the only addresses in a built harness are the two it was given, and both
      are on the loopback interface. */
  lemma HarnessStaysLocal(t: Topology, definitions: map<string, Node>, pop: Population, receiver: string,
                          capture: string)
    requires WellFormed(t, definitions, pop) && IsLoopback(receiver) && IsLoopback(capture)
    ensures var h := Some(Tree(t, receiver, capture));
            EndpointsAt(Lookup(h, "receivers")) == {receiver} &&
            EndpointsAt(Lookup(h, "exporters")) == {capture} && EndpointsAt(Lookup(h, "service")) == {} &&
            KeysIn(h.value.content) == {"receivers", "processors", "exporters", "service"} &&
            OnLoopback(receiver) && OnLoopback(capture)
  {
    hide Tree, Endpoints, LookupIn, KeysIn, SignalOf, StrictlySorted, OnePerSignal, Serves, AllUsable,
      HoldsDefinitions;
    TopSections(t, receiver, capture);
    ReceiverEndpoints(receiver);
    ExporterEndpoints(capture);
    forall p | p in t.pipelines ensures p.name != "endpoint" {
      assert Runs(p, pop);
      SignalIsNotEndpoint(p.name);
    }
    ServiceEndpoints(t.pipelines);
    LoopbackMeans(receiver);
    LoopbackMeans(capture);
  }

  lemma LoopbackMeans(endpoint: string)
    requires IsLoopback(endpoint)
    ensures OnLoopback(endpoint)
  {
    if HasPrefix(endpoint, "127.0.0.1:") {
      assert endpoint == "127.0.0.1:" + endpoint[10..];
    } else {
      assert endpoint == "[127.0.0.1]:" + endpoint[12..];
    }
  }

  /** Whatever the port, the host decides. */
  lemma HostDecides(host: string, port: string)
    requires ':' !in port && '[' !in port && ']' !in port && ':' !in host
    ensures IsLoopback(host + ":" + port) <==> host == "127.0.0.1" || host == "[127.0.0.1]"
  {
    var e := host + ":" + port;
    assert e == host + [':'] + port;
    assert host == "127.0.0.1" ==> e[10..] == port;
    assert host == "[127.0.0.1]" ==> e[12..] == port;
    if IsLoopback(e) {
      if HasPrefix(e, "127.0.0.1:") {
        assert e == "127.0.0.1" + [':'] + e[10..];
        CutAtSeparator(host, "127.0.0.1", port, e[10..], ':');
      } else {
        assert e == "[127.0.0.1]" + [':'] + e[12..];
        CutAtSeparator(host, "[127.0.0.1]", port, e[12..], ':');
      }
    }
  }
}
