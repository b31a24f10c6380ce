/** Which verdicts a processor chain makes uncertain, for the whole run and for each signal (inconclusive and
    inconclusiveSignals of internal/runner/topology.go). */
module Uncertainty {
  import opened Signals
  import opened Strings
  import opened Yaml
  import opened Topology
  import opened Selection

  /** Processors whose completion neither settling nor shutdown establishes. */
  predicate Waits(id: string)
  {
    Before(id, '/') == "tail_sampling" || Before(id, '/') == "groupbytrace"
  }

  function ReasonFor(id: string): (r: string)
    ensures r != ""
  {
    "processor " + id + " completion cannot be established from a settling interval and shutdown"
  }

  function WaitingReasons(ids: seq<string>): seq<string>
  {
    if ids == [] then [] else
    WaitingReasons(ids[..|ids| - 1]) + if Waits(ids[|ids| - 1]) then [ReasonFor(ids[|ids| - 1])] else []
  }

  function Reasons(ids: seq<string>): seq<string>
  {
    StableSort(WaitingReasons(ids), x => x)
  }

  /** The keys of a mapping in order. */
  function KeySeq(content: seq<Node>): (r: seq<string>)
    requires |content| % 2 == 0
    ensures |r| == |content| / 2
  {
    seq(|content| / 2, i requires 0 <= i < |content| / 2 => content[2 * i].value)
  }

  method InconclusiveReasons(processors: Node) returns (reasons: seq<string>)
    requires |processors.content| % 2 == 0
    ensures reasons == Reasons(KeySeq(processors.content))
  {
    hide Waits, ReasonFor;
    reasons := [];
    var i := 0;
    ghost var ids := KeySeq(processors.content);
    while i < |processors.content|
      invariant i % 2 == 0 && i <= |processors.content|
      invariant reasons == WaitingReasons(ids[..i / 2])
    {
      var id := processors.content[i].value;
      assert ids[..i / 2 + 1][..i / 2] == ids[..i / 2] && ids[i / 2] == id;
      if Waits(id) {
        reasons := reasons + [ReasonFor(id)];
      }
      i := i + 2;
    }
    assert ids[..|ids|] == ids;
    return StableSort(reasons, x => x);
  }

  /** The reasons of each pipeline under its signal; a later pipeline of a signal would replace an earlier one. */
  function ScopedReasons(ps: seq<Pipeline>): map<Signal, seq<string>>
  {
    if ps == [] then map[] else
    var earlier := ScopedReasons(ps[..|ps| - 1]);
    var last := ps[|ps| - 1];
    if Reasons(last.processors) != [] then earlier[last.signal := Reasons(last.processors)] else earlier
  }

  method InconclusiveSignals(t: Topology) returns (reasons: map<Signal, seq<string>>)
    ensures reasons == ScopedReasons(t.pipelines)
  {
    hide Reasons, KeySeq;
    reasons := map[];
    for i := 0 to |t.pipelines|
      invariant reasons == ScopedReasons(t.pipelines[..i])
    {
      assert t.pipelines[..i + 1][..i] == t.pipelines[..i];
      var p := t.pipelines[i];
      var content: seq<Node> := [];
      for j := 0 to |p.processors|
        invariant |content| == 2 * j && KeySeq(content) == p.processors[..j]
      {
        var definition := Lookup(Some(t.processors), p.processors[j]);
        content := content + [StrNode(p.processors[j]), if definition.Some? then definition.value else StrNode("")];
        KeySeqAppended(content[..2 * j], p.processors[j], content[2 * j + 1]);
        assert content == content[..2 * j] + [StrNode(p.processors[j]), content[2 * j + 1]];
        assert p.processors[..j + 1] == p.processors[..j] + [p.processors[j]];
      }
      assert p.processors[..|p.processors|] == p.processors;
      var scoped := InconclusiveReasons(MapNode(content));
      if scoped != [] {
        reasons := reasons[p.signal := scoped];
      }
    }
    assert t.pipelines[..|t.pipelines|] == t.pipelines;
  }

  lemma KeySeqAppended(content: seq<Node>, k: string, v: Node)
    requires |content| % 2 == 0
    ensures KeySeq(content + [StrNode(k), v]) == KeySeq(content) + [k]
  {
  }

  // ----- scoping loses nothing -----

  lemma {:induction false} WaitingMembers(ids: seq<string>)
    ensures forall r :: r in WaitingReasons(ids) <==> exists id :: id in ids && Waits(id) && r == ReasonFor(id)
  {
    hide Waits, ReasonFor;
    if ids != [] {
      var init, last := ids[..|ids| - 1], ids[|ids| - 1];
      WaitingMembers(init);
      assert ids == init + [last];
      assert forall id :: id in ids <==> id in init || id == last;
    }
  }

  lemma ReasonMembers(ids: seq<string>)
    ensures forall r :: r in Reasons(ids) <==> exists id :: id in ids && Waits(id) && r == ReasonFor(id)
  {
    hide Waits, ReasonFor;
    WaitingMembers(ids);
    StableSortSorts(WaitingReasons(ids), x => x);
    var sorted := StableSort(WaitingReasons(ids), x => x);
    assert forall r :: r in sorted <==> r in multiset(sorted);
    assert forall r :: r in WaitingReasons(ids) <==> r in multiset(WaitingReasons(ids));
  }

  lemma {:induction false} ScopedMembers(ps: seq<Pipeline>)
    requires OnePerSignal(ps)
    ensures forall s :: s in ScopedReasons(ps) <==> exists p :: p in ps && p.signal == s && Reasons(p.processors) != []
    ensures forall p :: p in ps && p.signal in ScopedReasons(ps) ==>
              ScopedReasons(ps)[p.signal] == Reasons(p.processors)
  {
    hide Reasons;
    if ps != [] {
      var init, last := ps[..|ps| - 1], ps[|ps| - 1];
      assert ps == init + [last];
      ScopedMembers(init);
      forall p | p in init ensures p.signal != last.signal {
        var i :| 0 <= i < |init| && init[i] == p;
        assert ps[i].signal != ps[|ps| - 1].signal;
      }
      assert forall p :: p in ps <==> p in init || p == last;
    }
  }

  lemma {:induction false} KeysOfPairs(ids: seq<string>, definitions: map<string, Node>)
    requires forall id :: id in ids ==> id in definitions
    ensures KeySeq(DefinitionPairs(ids, definitions)) == ids
  {
    hide KeySeq;
    if ids != [] {
      var init, last := ids[..|ids| - 1], ids[|ids| - 1];
      assert ids == init + [last];
      assert forall id :: id in init ==> id in ids;
      KeysOfPairs(init, definitions);
      KeySeqAppended(DefinitionPairs(init, definitions), last, Bare(definitions[last]));
    } else {
      assert KeySeq([]) == [];
    }
  }

  /** Some signal carries the reason. */
  ghost predicate Reported(r: string, scoped: map<Signal, seq<string>>)
  {
    exists s :: s in scoped && r in scoped[s]
  }

  /** A reason is reported for the run exactly when it is reported for some signal, and one report is empty exactly
      when the other is: replacing the global reasons by the scoped ones drops no uncertainty. */
  lemma ScopingLosesNothing(t: Topology, definitions: map<string, Node>, pop: Population)
    requires WellFormed(t, definitions, pop)
    ensures |t.processors.content| % 2 == 0
    ensures var whole, scoped := Reasons(KeySeq(t.processors.content)), ScopedReasons(t.pipelines);
            (forall r :: r in whole <==> Reported(r, scoped)) &&
            (whole == [] <==> scoped == map[]) && forall s :: s in scoped ==> scoped[s] != []
  {
    hide Reasons, Waits, ReasonFor, KeySeq, Runs, StrictlySorted, Serves, AllUsable, FirstUses, OnePerSignal,
      ScopedReasons, DefinitionPairs;
    var ids := FirstUses(t.pipelines);
    KeysOfPairs(ids, definitions);
    ScopedIsWhole(t.pipelines);
  }

  lemma ScopedIsWhole(ps: seq<Pipeline>)
    requires OnePerSignal(ps)
    ensures var whole, scoped := Reasons(FirstUses(ps)), ScopedReasons(ps);
            (forall r :: r in whole <==> Reported(r, scoped)) &&
            (whole == [] <==> scoped == map[]) && forall s :: s in scoped ==> scoped[s] != []
  {
    hide Reasons, FirstUses, OnePerSignal, ScopedReasons;
    var whole, scoped := Reasons(FirstUses(ps)), ScopedReasons(ps);
    forall r ensures r in whole <==> Reported(r, scoped) {
      WholeIsScoped(ps, r);
    }
    assert whole != [] ==> whole[0] in whole;
    ScopedMembers(ps);
    forall s | s in scoped ensures scoped[s] != [] && whole != [] {
      var p :| p in ps && p.signal == s && Reasons(p.processors) != [];
      var r := scoped[s][0];
      WholeIsScoped(ps, r);
      assert Reported(r, scoped);
    }
    if scoped != map[] {
      var s :| s in scoped;
    }
  }

  lemma WholeIsScoped(ps: seq<Pipeline>, r: string)
    requires OnePerSignal(ps)
    ensures r in Reasons(FirstUses(ps)) <==> Reported(r, ScopedReasons(ps))
  {
    hide Reasons, Waits, ReasonFor, FirstUses, ScopedReasons, OnePerSignal;
    ScopedMembers(ps);
    FirstUsesMembers(ps);
    ReasonMembers(FirstUses(ps));
    if r in Reasons(FirstUses(ps)) {
      var id :| id in FirstUses(ps) && Waits(id) && r == ReasonFor(id);
      var p :| p in ps && id in p.processors;
      ReasonMembers(p.processors);
      assert r in Reasons(p.processors);
      assert p.signal in ScopedReasons(ps);
      assert r in ScopedReasons(ps)[p.signal];
    }
    if s :| s in ScopedReasons(ps) && r in ScopedReasons(ps)[s] {
      var p :| p in ps && p.signal == s && Reasons(p.processors) != [];
      assert r in Reasons(p.processors);
      ReasonMembers(p.processors);
      var id :| id in p.processors && Waits(id) && r == ReasonFor(id);
      assert id in FirstUses(ps);
    }
  }
}
