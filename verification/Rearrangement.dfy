/** The order in which a configuration lists the entries of its mappings does not matter to the parser
    (parseTopology of internal/runner/topology.go). */
module Rearrangement {
  import opened Strings
  import opened Yaml
  import opened Topology
  import opened Selection

  function KeyNode(content: seq<Node>, key: string): Option<Node>
  {
    if |content| < 2 then None
    else if content[0].value == key then Some(content[0])
    else KeyNode(content[2..], key)
  }

  predicate SameHeader(a: Node, b: Node)
  {
    a.kind == b.kind && a.tag == b.tag && a.value == b.value && a.anchor == b.anchor && |a.content| == |b.content|
  }

  /** The same tree except for comments and for the order of entries, in mappings at every depth. */
  ghost predicate Rearranged(a: Node, b: Node)
  {
    SameHeader(a, b) &&
    if a.kind == Mapping then
      KeysIn(a.content) == KeysIn(b.content) &&
      (forall k :: k in KeysIn(a.content) ==> KeyNode(a.content, k) == KeyNode(b.content, k)) &&
      (forall k, v :: v in a.content && LookupIn(a.content, k) == Some(v) ==>
        LookupIn(b.content, k).Some? && Rearranged(v, LookupIn(b.content, k).value))
    else
      forall i :: 0 <= i < |a.content| ==> Rearranged(a.content[i], b.content[i])
  }

  ghost predicate Beneath(a: Option<Node>, b: Option<Node>)
  {
    if a.None? then b.None? else b.Some? && Rearranged(a.value, b.value)
  }

  lemma ValueRearranged(a: Node, b: Node, k: string)
    requires Rearranged(a, b) && a.kind == Mapping
    ensures Beneath(LookupIn(a.content, k), LookupIn(b.content, k))
  {
    hide KeysIn, KeyNode, LookupIn, SameHeader;
    LookupIsChild(a.content, k);
    LookupFindsKeys(a.content, k);
    LookupFindsKeys(b.content, k);
  }

  lemma MappingRearranged(a: Node, b: Node)
    requires a.kind == Mapping && SameHeader(a, b) && KeysIn(a.content) == KeysIn(b.content)
    requires forall k :: k in KeysIn(a.content) ==>
               KeyNode(a.content, k) == KeyNode(b.content, k) && Beneath(LookupIn(a.content, k), LookupIn(b.content, k))
    ensures Rearranged(a, b)
  {
    hide KeysIn, KeyNode, LookupIn, SameHeader;
    forall k, v | v in a.content && LookupIn(a.content, k) == Some(v)
      ensures LookupIn(b.content, k).Some? && Rearranged(v, LookupIn(b.content, k).value)
    {
      LookupFindsKeys(a.content, k);
      assert Beneath(LookupIn(a.content, k), LookupIn(b.content, k));
    }
  }

  lemma {:induction false} RearrangedItself(n: Node)
    ensures Rearranged(n, n)
    decreases n
  {
    hide KeysIn, KeyNode, LookupIn;
    if n.kind == Mapping {
      forall k | k in KeysIn(n.content) ensures Beneath(LookupIn(n.content, k), LookupIn(n.content, k)) {
        LookupIsChild(n.content, k);
        if LookupIn(n.content, k).Some? {
          RearrangedItself(LookupIn(n.content, k).value);
        }
      }
      MappingRearranged(n, n);
    } else {
      forall i | 0 <= i < |n.content| ensures Rearranged(n.content[i], n.content[i]) {
        RearrangedItself(n.content[i]);
      }
    }
  }

  lemma {:induction false} RearrangedBack(a: Node, b: Node)
    requires Rearranged(a, b)
    ensures Rearranged(b, a)
    decreases a
  {
    hide KeysIn, KeyNode, LookupIn;
    if a.kind == Mapping {
      forall k | k in KeysIn(b.content) ensures Beneath(LookupIn(b.content, k), LookupIn(a.content, k)) {
        ValueRearranged(a, b, k);
        LookupIsChild(a.content, k);
        if LookupIn(a.content, k).Some? {
          RearrangedBack(LookupIn(a.content, k).value, LookupIn(b.content, k).value);
        }
      }
      MappingRearranged(b, a);
    } else {
      forall i | 0 <= i < |a.content| ensures Rearranged(b.content[i], a.content[i]) {
        RearrangedBack(a.content[i], b.content[i]);
      }
    }
  }

  // ----- validity -----

  lemma {:induction false} DistinctByCount(content: seq<Node>)
    requires |content| % 2 == 0
    ensures 2 * |KeysIn(content)| <= |content|
    ensures KeysDistinct(content) <==> 2 * |KeysIn(content)| == |content|
  {
    if content != [] {
      DistinctByCount(content[2..]);
      var rest := KeysIn(content[2..]);
      if content[0].value in rest {
        assert {content[0].value} + rest == rest;
      }
    }
  }

  lemma {:induction false} KeyNodeAt(content: seq<Node>, k: nat)
    requires |content| % 2 == 0 && KeysDistinct(content) && 2 * k < |content|
    ensures KeyNode(content, content[2 * k].value) == Some(content[2 * k])
  {
    if k > 0 {
      EntryAt(content[2..], k - 1);
      KeyNodeAt(content[2..], k - 1);
    }
  }

  predicate IsStringKey(n: Node)
  {
    n.kind == Scalar && n.tag == StrTag && n.value != "<<"
  }

  lemma {:induction false} KeyNodeIsChild(content: seq<Node>, key: string)
    ensures KeyNode(content, key).Some? ==> KeyNode(content, key).value in content
    ensures KeyNode(content, key).Some? && KeysAreStrings(content) ==> IsStringKey(KeyNode(content, key).value)
  {
    if |content| >= 2 && content[0].value != key {
      KeyNodeIsChild(content[2..], key);
    }
  }

  lemma {:induction false} StringsByKey(content: seq<Node>)
    requires |content| % 2 == 0 && forall i :: 0 <= 2 * i < |content| ==> IsStringKey(content[2 * i])
    ensures KeysAreStrings(content)
  {
    if content != [] {
      var rest := content[2..];
      forall i | 0 <= 2 * i < |rest| ensures IsStringKey(rest[2 * i]) {
        assert rest[2 * i] == content[2 * (i + 1)];
      }
      assert content[2 * 0] == content[0];
      StringsByKey(rest);
    }
  }

  /** Everything about an entry of the rearranged mapping is inherited. */
  lemma EntryInherited(a: Node, b: Node, k: nat, depth: nat)
    requires ValidYaml(a, depth) && a.kind == Mapping && Rearranged(a, b) && KeysDistinct(b.content) &&
             2 * k < |b.content|
    ensures var key := b.content[2 * k].value;
            KeyNode(a.content, key) == Some(b.content[2 * k]) &&
            LookupIn(b.content, key) == Some(b.content[2 * k + 1]) && LookupIn(a.content, key).Some? &&
            Rearranged(LookupIn(a.content, key).value, b.content[2 * k + 1])
  {
    hide KeysIn, KeyNode, LookupIn, KeysDistinct, KeysAreStrings;
    assert |b.content| % 2 == 0;
    EntryAt(b.content, k);
    KeyNodeAt(b.content, k);
    LookupFindsKeys(a.content, b.content[2 * k].value);
    ValueRearranged(a, b, b.content[2 * k].value);
  }

  lemma KeysStayDistinct(a: Node, b: Node, depth: nat)
    requires ValidYaml(a, depth) && a.kind == Mapping && Rearranged(a, b)
    ensures |b.content| % 2 == 0 && KeysDistinct(b.content)
  {
    hide KeysIn, KeyNode, LookupIn, KeysDistinct, KeysAreStrings;
    DistinctByCount(a.content);
    DistinctByCount(b.content);
  }

  lemma {:induction false} RearrangedValid(a: Node, b: Node, depth: nat)
    requires Rearranged(a, b) && ValidYaml(a, depth)
    ensures ValidYaml(b, depth)
    decreases a
  {
    hide KeysIn, KeyNode, LookupIn, KeysDistinct, KeysAreStrings;
    if a.kind == Mapping {
      KeysStayDistinct(a, b, depth);
      forall i | 0 <= i < |b.content|
        ensures ValidYaml(b.content[i], depth + 1)
        ensures i % 2 == 0 ==> IsStringKey(b.content[i])
      {
        EntryInherited(a, b, i / 2, depth);
        var key := b.content[2 * (i / 2)].value;
        if i % 2 == 0 {
          KeyNodeIsChild(a.content, key);
        } else {
          LookupIsChild(a.content, key);
          RearrangedValid(LookupIn(a.content, key).value, b.content[i], depth + 1);
        }
      }
      StringsByKey(b.content);
    } else {
      forall i | 0 <= i < |b.content| ensures ValidYaml(b.content[i], depth + 1) {
        assert a.content[i] in a.content;
        RearrangedValid(a.content[i], b.content[i], depth + 1);
      }
    }
    ChildrenByIndex(b, depth);
  }

  /** A tree that takes nothing from a provider takes nothing from one in any order. */
  lemma {:induction false} RearrangedProvides(a: Node, b: Node, depth: nat)
    requires Rearranged(a, b) && ValidYaml(a, depth) && Provides(b)
    ensures Provides(a)
    decreases a
  {
    hide KeysIn, KeyNode, LookupIn, KeysDistinct, KeysAreStrings, Substitutes;
    if !(b.kind == Scalar && Substitutes(b.value)) {
      var c :| c in b.content && Provides(c);
      var i :| 0 <= i < |b.content| && b.content[i] == c;
      if a.kind == Mapping {
        KeysStayDistinct(a, b, depth);
        EntryInherited(a, b, i / 2, depth);
        var key := b.content[2 * (i / 2)].value;
        if i % 2 == 0 {
          KeyNodeIsChild(a.content, key);
        } else {
          LookupIsChild(a.content, key);
          RearrangedProvides(LookupIn(a.content, key).value, c, depth + 1);
        }
      } else {
        assert a.content[i] in a.content;
        RearrangedProvides(a.content[i], c, depth + 1);
      }
    }
  }

  lemma ProvidesAlike(a: Node, b: Node, depth: nat)
    requires Rearranged(a, b) && ValidYaml(a, depth)
    ensures Provides(a) <==> Provides(b)
  {
    hide Provides, ValidYaml, Rearranged;
    RearrangedValid(a, b, depth);
    RearrangedBack(a, b);
    if Provides(b) {
      RearrangedProvides(a, b, depth);
    }
    if Provides(a) {
      RearrangedProvides(b, a, depth);
    }
  }

  // ----- permuting one mapping -----

  /** A mapping's entries in order. */
  function Pairs(content: seq<Node>): (r: seq<(Node, Node)>)
    requires |content| % 2 == 0
    ensures |r| == |content| / 2
  {
    seq(|content| / 2, i requires 0 <= i < |content| / 2 => (content[2 * i], content[2 * i + 1]))
  }

  lemma PairMoves(a: seq<Node>, b: seq<Node>, k: nat)
    requires |a| % 2 == 0 && |b| % 2 == 0 && KeysDistinct(a) && multiset(Pairs(a)) == multiset(Pairs(b)) && 2 * k < |b|
    ensures var key := b[2 * k].value;
            key in KeysIn(a) && KeyNode(a, key) == Some(b[2 * k]) && LookupIn(a, key) == Some(b[2 * k + 1])
  {
    hide KeysIn, KeysDistinct, KeyNode, LookupIn;
    assert Pairs(b)[k] in multiset(Pairs(b));
    assert Pairs(b)[k] in multiset(Pairs(a));
    var j :| 0 <= j < |Pairs(a)| && Pairs(a)[j] == Pairs(b)[k];
    EntryAt(a, j);
    KeyNodeAt(a, j);
  }

  lemma KeysMove(a: seq<Node>, b: seq<Node>)
    requires |a| % 2 == 0 && |b| % 2 == 0 && KeysDistinct(a) && multiset(Pairs(a)) == multiset(Pairs(b))
    ensures |a| == |b| && KeysIn(b) == KeysIn(a) && KeysDistinct(b)
  {
    hide KeysIn, KeysDistinct, KeyNode, LookupIn, Pairs;
    assert |Pairs(a)| == |multiset(Pairs(a))| == |multiset(Pairs(b))| == |Pairs(b)|;
    forall key | key in KeysIn(b) ensures key in KeysIn(a) {
      var k := KeyAt(b, key);
      PairMoves(a, b, k);
    }
    forall key | key in KeysIn(a) ensures key in KeysIn(b) {
      var j := KeyAt(a, key);
      KeyMoves(a, b, j);
    }
    DistinctByCount(a);
    DistinctByCount(b);
  }

  lemma KeyMoves(a: seq<Node>, b: seq<Node>, j: nat)
    requires |a| % 2 == 0 && |b| % 2 == 0 && multiset(Pairs(a)) == multiset(Pairs(b)) && 2 * j < |a|
    ensures a[2 * j].value in KeysIn(b)
  {
    hide KeysIn;
    assert Pairs(a)[j] in multiset(Pairs(a));
    assert Pairs(a)[j] in multiset(Pairs(b));
    var k :| 0 <= k < |Pairs(b)| && Pairs(b)[k] == Pairs(a)[j];
    KeyListed(b, k);
  }

  lemma {:induction false} KeyListed(content: seq<Node>, k: nat)
    requires |content| % 2 == 0 && 2 * k < |content|
    ensures content[2 * k].value in KeysIn(content)
  {
    if k > 0 {
      KeyListed(content[2..], k - 1);
    }
  }

  /** Any permutation of a mapping's entries is a rearrangement of the mapping. */
  lemma PermutedIsRearranged(a: Node, b: Node)
    requires a.kind == Mapping && SameHeader(a, b) && |a.content| % 2 == 0 && KeysDistinct(a.content)
    requires multiset(Pairs(a.content)) == multiset(Pairs(b.content))
    ensures Rearranged(a, b)
  {
    hide KeysIn, KeysDistinct, KeyNode, LookupIn, Pairs, Rearranged;
    KeysMove(a.content, b.content);
    forall key | key in KeysIn(a.content)
      ensures KeyNode(a.content, key) == KeyNode(b.content, key)
      ensures Beneath(LookupIn(a.content, key), LookupIn(b.content, key))
    {
      var k := KeyAt(b.content, key);
      PairMoves(a.content, b.content, k);
      EntryAt(b.content, k);
      KeyNodeAt(b.content, k);
      RearrangedItself(b.content[2 * k + 1]);
    }
    MappingRearranged(a, b);
  }

  // ----- comments -----

  lemma {:induction false} BareLookup(a: seq<Node>, b: seq<Node>, key: string)
    requires |a| == |b| && forall i :: 0 <= i < |a| ==> b[i] == Bare(a[i])
    ensures LookupIn(b, key) == (if LookupIn(a, key).Some? then Some(Bare(LookupIn(a, key).value)) else None)
    ensures KeyNode(b, key) == (if KeyNode(a, key).Some? then Some(Bare(KeyNode(a, key).value)) else None)
  {
    hide Bare;
    if |a| >= 2 {
      assert b[0].value == a[0].value by { BareValue(a[0]); }
      BareLookup(a[2..], b[2..], key);
    }
  }

  lemma BareValue(n: Node)
    ensures Bare(n).value == n.value
  {
  }

  lemma {:induction false} BareRearranged(a: Node, b: Node)
    requires Rearranged(a, b)
    ensures Rearranged(Bare(a), Bare(b))
    decreases a
  {
    hide KeysIn, KeyNode, LookupIn, KeysDistinct, KeysAreStrings;
    var x, y := Bare(a), Bare(b);
    if a.kind == Mapping {
      BareKeys(a.content, x.content);
      BareKeys(b.content, y.content);
      forall k | k in KeysIn(x.content)
        ensures KeyNode(x.content, k) == KeyNode(y.content, k) &&
                Beneath(LookupIn(x.content, k), LookupIn(y.content, k))
      {
        BareLookup(a.content, x.content, k);
        BareLookup(b.content, y.content, k);
        ValueRearranged(a, b, k);
        LookupIsChild(a.content, k);
        if LookupIn(a.content, k).Some? {
          BareRearranged(LookupIn(a.content, k).value, LookupIn(b.content, k).value);
        }
      }
      MappingRearranged(x, y);
    } else {
      forall i | 0 <= i < |a.content| ensures Rearranged(x.content[i], y.content[i]) {
        BareRearranged(a.content[i], b.content[i]);
      }
    }
  }

  // ----- what the parser reads -----

  /** The same components, each defined by a rearrangement. */
  ghost predicate SameComponents(m: map<string, Node>, n: map<string, Node>)
  {
    m.Keys == n.Keys && forall k :: k in m ==> Rearranged(m[k], n[k])
  }

  lemma SectionsAgree(a: Option<Node>, b: Option<Node>)
    requires Beneath(a, b)
    ensures SectionOk(a) <==> SectionOk(b)
    ensures SameComponents(Components(a), Components(b))
  {
    hide KeysIn, KeyNode, LookupIn, IsComponentId;
    if a.Some? && a.value.kind == Mapping {
      forall k | k in KeysIn(a.value.content)
        ensures Beneath(LookupIn(a.value.content, k), LookupIn(b.value.content, k))
      {
        ValueRearranged(a.value, b.value, k);
      }
      EntriesAgree(a.value, b.value);
    }
  }

  lemma EntriesAgree(a: Node, b: Node)
    requires Rearranged(a, b) && a.kind == Mapping
    ensures SameComponents(Entries(a.content), Entries(b.content))
  {
    hide KeysIn, KeyNode, LookupIn, Rearranged;
    assert KeysIn(a.content) == KeysIn(b.content) by { KeysAgree(a, b); }
    forall k | k in Entries(a.content)
      ensures k in Entries(b.content) && Rearranged(Entries(a.content)[k], Entries(b.content)[k])
    {
      ValueRearranged(a, b, k);
      LookupFindsKeys(a.content, k);
    }
  }

  lemma KeysAgree(a: Node, b: Node)
    requires Rearranged(a, b)
    ensures SameHeader(a, b) && (a.kind == Mapping ==> KeysIn(a.content) == KeysIn(b.content))
  {
    hide KeysIn, KeyNode, LookupIn;
  }

  lemma SequencesAgree(a: Option<Node>, b: Option<Node>, optional: bool)
    requires Beneath(a, b)
    ensures SequenceOk(a, optional) <==> SequenceOk(b, optional)
    ensures SequenceOk(a, optional) ==> SequenceIds(a, optional) == SequenceIds(b, optional)
  {
    hide KeysIn, KeyNode, LookupIn, IsComponentId;
    if a.Some? && a.value.kind == Sequence {
      forall i | 0 <= i < |a.value.content| ensures SameHeader(a.value.content[i], b.value.content[i]) {
        assert Rearranged(a.value.content[i], b.value.content[i]);
      }
    }
  }

  lemma ReferencesAgree(a: Node, b: Node, p: Node, q: Node, f: Field)
    requires SameComponents(Components(LookupIn(a.content, Name(f))), Components(LookupIn(b.content, Name(f))))
    requires Rearranged(p, q) && p.kind == Mapping && RefsOk(a, p, f)
    ensures RefsOk(b, q, f) && Refs(p, f) == Refs(q, f)
  {
    hide KeysIn, KeyNode, LookupIn, Components, SequenceOk, SequenceIds, Rearranged, Name;
    ValueRearranged(p, q, Name(f));
    SequencesAgree(LookupIn(p.content, Name(f)), LookupIn(q.content, Name(f)), f == Processors);
    var m, n := Components(LookupIn(a.content, Name(f))), Components(LookupIn(b.content, Name(f)));
    forall id | id in Refs(p, f) ensures id in n && (f == Processors ==> ProcessorOk(id, n[id])) {
      KeysAgree(m[id], n[id]);
    }
  }

  /** The same shape and the same components of every kind. */
  ghost predicate Agree(a: Node, b: Node)
  {
    forall f: Field ::
      (SectionOk(LookupIn(a.content, Name(f))) <==> SectionOk(LookupIn(b.content, Name(f)))) &&
      SameComponents(Components(LookupIn(a.content, Name(f))), Components(LookupIn(b.content, Name(f))))
  }

  lemma SourcesAgree(a: Node, b: Node)
    requires Rearranged(a, b) && a.kind == Mapping
    ensures Agree(a, b)
  {
    hide KeysIn, KeyNode, LookupIn, Name, Rearranged, SectionOk, Components, SameComponents;
    forall f: Field
      ensures SectionOk(LookupIn(a.content, Name(f))) <==> SectionOk(LookupIn(b.content, Name(f)))
      ensures SameComponents(Components(LookupIn(a.content, Name(f))), Components(LookupIn(b.content, Name(f))))
    {
      ValueRearranged(a, b, Name(f));
      SectionsAgree(LookupIn(a.content, Name(f)), LookupIn(b.content, Name(f)));
    }
  }

  lemma OnePipelineAgrees(a: Node, b: Node, name: string, p: Node, q: Node)
    requires Agree(a, b) && Rearranged(p, q) && PipelineOk(a, name, p)
    ensures PipelineOk(b, name, q) && Refs(p, Processors) == Refs(q, Processors)
  {
    hide KeysIn, KeyNode, LookupIn, Name, SectionOk, Components, SameComponents, RefsOk, Refs, IsComponentId, SignalOf,
      Rearranged, IsPipelineField;
    KeysAgree(p, q);
    ReferencesAgree(a, b, p, q, Receivers);
    ReferencesAgree(a, b, p, q, Processors);
    ReferencesAgree(a, b, p, q, Exporters);
  }

  lemma PipelineNodesAgree(a: Node, b: Node)
    requires Rearranged(a, b) && a.kind == Mapping && ServiceOk(a)
    ensures ServiceOk(b) && SameComponents(SourcePipelines(a), SourcePipelines(b))
  {
    hide KeysIn, KeyNode, LookupIn, Name, Rearranged, Entries, SameComponents;
    ValueRearranged(a, b, Name(Service));
    var s, t := LookupIn(a.content, Name(Service)).value, LookupIn(b.content, Name(Service)).value;
    KeysAgree(s, t);
    ValueRearranged(s, t, Name(Pipelines));
    var p, q := PipelinesNode(a).value, LookupIn(t.content, Name(Pipelines)).value;
    KeysAgree(p, q);
    EntriesAgree(p, q);
  }

  // ----- the theorem -----

  lemma ShapesAgree(a: Node, b: Node)
    requires Rearranged(a, b) && ShapeOk(a)
    ensures ShapeOk(b) && Agree(a, b) && SameComponents(SourcePipelines(a), SourcePipelines(b))
    ensures SameComponents(Definitions(a), Definitions(b))
  {
    hide KeysIn, KeyNode, LookupIn, Name, SectionOk, Components, Rearranged, ValidYaml, ServiceOk, IsTopLevelField,
      SameComponents, SourcePipelines;
    KeysAgree(a, b);
    SourcesAgree(a, b);
    RearrangedValid(a, b, 0);
    PipelineNodesAgree(a, b);
    NoConnectors(a, b);
  }

  lemma NoConnectors(a: Node, b: Node)
    requires SameComponents(Components(LookupIn(a.content, Name(Connectors))),
                            Components(LookupIn(b.content, Name(Connectors))))
    ensures Components(LookupIn(a.content, Name(Connectors))).Keys ==
            Components(LookupIn(b.content, Name(Connectors))).Keys
  {
    hide Components, Name, LookupIn;
  }

  /** Pipelines by name with the same references. */
  ghost predicate SameUses(ps: map<string, Node>, qs: map<string, Node>)
  {
    ps.Keys == qs.Keys && forall n :: n in ps ==> Refs(ps[n], Processors) == Refs(qs[n], Processors)
  }

  lemma AllPipelinesAgree(a: Node, b: Node, ps: map<string, Node>, qs: map<string, Node>)
    requires Agree(a, b) && SameComponents(ps, qs) && PipelinesOk(ps, a)
    ensures PipelinesOk(qs, b) && SameUses(ps, qs)
  {
    hide PipelineOk, Refs, SignalOf, Agree, Rearranged;
    forall n | n in ps ensures PipelineOk(b, n, qs[n]) && Refs(ps[n], Processors) == Refs(qs[n], Processors) {
      OnePipelineAgrees(a, b, n, ps[n], qs[n]);
    }
  }

  lemma InlineAlike(a: Node, b: Node, ps: map<string, Node>, qs: map<string, Node>, pop: Population)
    requires ValidYaml(a, 0) && SameUses(ps, qs) && SameComponents(Definitions(a), Definitions(b))
    requires Inline(ps, Definitions(a), pop)
    ensures Inline(qs, Definitions(b), pop)
  {
    hide Refs, Provides, ValidYaml, Definitions, Rearranged, IsActive;
    forall n, id | n in qs && IsActive(n, pop) && id in Refs(qs[n], Processors) && id in Definitions(b)
      ensures !Provides(Definitions(b)[id])
    {
      DefinitionValid(a, id);
      ProvidesAlike(Definitions(a)[id], Definitions(b)[id], 2);
    }
  }

  lemma AcceptedAlike(a: Node, b: Node, pop: Population)
    requires Rearranged(a, b) && Accepts(a, pop)
    ensures Accepts(b, pop) && SameUses(SourcePipelines(a), SourcePipelines(b)) &&
            SameComponents(Definitions(a), Definitions(b))
  {
    hide Rearranged, ValidYaml, SectionsOk, ServiceOk, SourcePipelines, PipelinesOk, Inline, Refs, SignalOf, Has,
      Definitions, Agree, SameComponents;
    ShapesAgree(a, b);
    AllPipelinesAgree(a, b, SourcePipelines(a), SourcePipelines(b));
    InlineAlike(a, b, SourcePipelines(a), SourcePipelines(b), pop);
    assert SourcePipelines(a).Keys == SourcePipelines(b).Keys;
  }

  /** The same pipelines with the same processors in the same order, and definitions that differ at most in the order of
      their entries. */
  ghost predicate SameSelection(s: Topology, t: Topology)
  {
    s.pipelines == t.pipelines && SameHeader(s.processors, t.processors) &&
    forall i :: 0 <= i < |s.processors.content| ==> Rearranged(s.processors.content[i], t.processors.content[i])
  }

  lemma DrawnAlike(pipelines: seq<Pipeline>, ps: map<string, Node>, qs: map<string, Node>, pop: Population)
    requires Drawn(pipelines, ps, pop) && SameUses(ps, qs)
    ensures Drawn(pipelines, qs, pop)
  {
    hide Refs, SignalOf, Has;
    assert ActiveNames(ps, pop) == ActiveNames(qs, pop);
    forall p | p in pipelines ensures DrawnOne(p, qs, pop) {
      assert DrawnOne(p, ps, pop);
    }
  }

  lemma {:induction false} PairsAlike(ids: seq<string>, m: map<string, Node>, n: map<string, Node>)
    requires SameComponents(m, n) && forall id :: id in ids ==> id in m
    ensures forall i :: 0 <= i < 2 * |ids| ==> Rearranged(DefinitionPairs(ids, m)[i], DefinitionPairs(ids, n)[i])
  {
    hide Rearranged, Bare;
    if ids != [] {
      var init, last := ids[..|ids| - 1], ids[|ids| - 1];
      assert forall id :: id in init ==> id in ids;
      PairsAlike(init, m, n);
      RearrangedItself(StrNode(last));
      BareRearranged(m[last], n[last]);
    }
  }

  lemma SelectedAlike(a: Node, b: Node, pop: Population)
    requires Rearranged(a, b) && Accepts(a, pop)
    ensures Accepts(b, pop) && SameSelection(Selected(a, pop), Selected(b, pop))
    ensures (forall id :: id in FirstUses(Selected(a, pop).pipelines) ==>
              id in Definitions(a) && id in Definitions(b) && Bare(Definitions(a)[id]) == Bare(Definitions(b)[id])) ==>
            Selected(a, pop) == Selected(b, pop)
  {
    hide Rearranged, ValidYaml, SectionsOk, ServiceOk, PipelinesOk, Covered, Inline, SourcePipelines, Selected,
      Definitions, Drawn, FirstUses, SameComponents, SameUses, Bare, DefinitionPairs;
    AcceptedAlike(a, b, pop);
    SelectedDrawn(a, pop);
    DrawnAlike(Selected(a, pop).pipelines, SourcePipelines(a), SourcePipelines(b), pop);
    DrawnIsSelected(Selected(a, pop).pipelines, b, pop);
    SelectedHolds(a, pop);
    SelectedHolds(b, pop);
    var ids := FirstUses(Selected(a, pop).pipelines);
    PairsAlike(ids, Definitions(a), Definitions(b));
    var m, n := Definitions(a), Definitions(b);
    if forall id :: id in ids ==> id in m && id in n && Bare(m[id]) == Bare(n[id]) {
      SameBarePairs(ids, Definitions(a), Definitions(b));
    }
  }

  lemma {:induction false} SameBarePairs(ids: seq<string>, m: map<string, Node>, n: map<string, Node>)
    requires forall id :: id in ids ==> id in m && id in n && Bare(m[id]) == Bare(n[id])
    ensures DefinitionPairs(ids, m) == DefinitionPairs(ids, n)
  {
    hide Bare;
    if ids != [] {
      assert forall id :: id in ids[..|ids| - 1] ==> id in ids;
      SameBarePairs(ids[..|ids| - 1], m, n);
    }
  }

  /** Acceptance and the selected topology depend on what the configuration says, not on the order it says it in, at any
      depth: the selection is the same up to the order inside processor definitions, and equal when the definitions in
      use were not rearranged themselves. */
  lemma EntryOrderDoesNotMatter(a: Node, b: Node, pop: Population)
    requires Rearranged(a, b)
    ensures Accepts(a, pop) <==> Accepts(b, pop)
    ensures Accepts(a, pop) ==> Accepts(b, pop) && SameSelection(Selected(a, pop), Selected(b, pop))
    ensures Accepts(a, pop) &&
            (forall id :: id in FirstUses(Selected(a, pop).pipelines) ==>
              id in Definitions(a) && id in Definitions(b) && Bare(Definitions(a)[id]) == Bare(Definitions(b)[id])) ==>
            Accepts(b, pop) && Selected(a, pop) == Selected(b, pop)
  {
    hide Rearranged, Accepts, Selected, SameSelection, FirstUses, Definitions, Bare;
    RearrangedBack(a, b);
    if Accepts(a, pop) {
      SelectedAlike(a, b, pop);
    }
    if Accepts(b, pop) {
      SelectedAlike(b, a, pop);
    }
  }
}
