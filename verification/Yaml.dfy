/** YAML trees as the topology code walks them (yaml.Node of internal/runner/topology.go). A mapping's content
    alternates keys and values. */
module Yaml {
  import opened Strings

  datatype Kind = Scalar | Sequence | Mapping | Alias
  datatype Tag = StrTag | NullTag | BoolTag | IntTag | MapTag | SeqTag | OtherTag(text: string)

  datatype Node = Node(kind: Kind, tag: Tag, value: string, anchor: string, comment: string, content: seq<Node>)

  const MAX_DEPTH := 100

  // ----- mappings -----

  function LookupIn(content: seq<Node>, key: string): Option<Node>
  {
    if |content| < 2 then None
    else if content[0].value == key then Some(content[1])
    else LookupIn(content[2..], key)
  }

  /** mappingValue */
  function Lookup(n: Option<Node>, key: string): Option<Node>
  {
    if n.None? || n.value.kind != Mapping then None else LookupIn(n.value.content, key)
  }

  function KeysIn(content: seq<Node>): set<string>
  {
    if |content| < 2 then {} else {content[0].value} + KeysIn(content[2..])
  }

  predicate KeysDistinct(content: seq<Node>)
  {
    |content| < 2 || (content[0].value !in KeysIn(content[2..]) && KeysDistinct(content[2..]))
  }

  lemma {:induction false} LookupFindsKeys(content: seq<Node>, key: string)
    ensures LookupIn(content, key).Some? <==> key in KeysIn(content)
  {
    if |content| >= 2 {
      LookupFindsKeys(content[2..], key);
    }
  }

  lemma {:induction false} Appended(content: seq<Node>, k: Node, v: Node, key: string)
    requires |content| % 2 == 0
    ensures LookupIn(content + [k, v], key) ==
            if LookupIn(content, key).Some? then LookupIn(content, key) else if k.value == key then Some(v) else None
    ensures KeysIn(content + [k, v]) == KeysIn(content) + {k.value}
    ensures KeysDistinct(content + [k, v]) <==> KeysDistinct(content) && k.value !in KeysIn(content)
  {
    var all := content + [k, v];
    if content == [] {
      assert all == [k, v];
      assert all[2..] == [];
    } else {
      assert all[2..] == content[2..] + [k, v];
      Appended(content[2..], k, v, key);
    }
  }

  lemma AppendedEntries(content: seq<Node>, k: Node, v: Node)
    requires |content| % 2 == 0 && KeysDistinct(content) && k.value !in KeysIn(content)
    ensures KeysIn(content + [k, v]) == KeysIn(content) + {k.value} && KeysDistinct(content + [k, v])
    ensures forall key :: LookupIn(content + [k, v], key) == if key == k.value then Some(v) else LookupIn(content, key)
  {
    hide KeysIn, KeysDistinct, LookupIn;
    Appended(content, k, v, k.value);
    LookupFindsKeys(content, k.value);
    forall key ensures LookupIn(content + [k, v], key) == if key == k.value then Some(v) else LookupIn(content, key) {
      Appended(content, k, v, key);
    }
  }

  /** The entries of a mapping by key. */
  function Entries(content: seq<Node>): map<string, Node>
  {
    map k | k in KeysIn(content) :: LookupFindsKeys(content, k); LookupIn(content, k).value
  }

  // ----- entries by position -----

  lemma {:induction false} EntryAt(content: seq<Node>, k: nat)
    requires |content| % 2 == 0 && KeysDistinct(content) && 2 * k < |content|
    ensures content[2 * k].value in KeysIn(content)
    ensures LookupIn(content, content[2 * k].value) == Some(content[2 * k + 1])
  {
    if k > 0 {
      EntryAt(content[2..], k - 1);
    }
  }

  lemma {:induction false} KeyAt(content: seq<Node>, key: string) returns (k: nat)
    requires |content| % 2 == 0 && key in KeysIn(content)
    ensures 2 * k < |content| && content[2 * k].value == key
  {
    if content[0].value == key {
      k := 0;
    } else {
      k := KeyAt(content[2..], key);
      k := k + 1;
    }
  }

  lemma {:induction false} KeysApart(content: seq<Node>, j: nat, k: nat)
    requires |content| % 2 == 0 && KeysDistinct(content) && j < k && 2 * k < |content|
    ensures content[2 * j].value != content[2 * k].value
  {
    if j == 0 {
      EntryAt(content[2..], k - 1);
    } else {
      KeysApart(content[2..], j - 1, k - 1);
    }
  }

  // ----- validateYAML -----

  predicate KeysAreStrings(content: seq<Node>)
  {
    |content| < 2 ||
    (content[0].kind == Scalar && content[0].tag == StrTag && content[0].value != "<<" && KeysAreStrings(content[2..]))
  }

  /** Explicit, unambiguous and not too deep. */
  predicate ValidYaml(n: Node, depth: nat)
  {
    depth <= MAX_DEPTH && n.kind != Alias && n.anchor == "" &&
    (n.kind == Mapping ==> |n.content| % 2 == 0 && KeysAreStrings(n.content) && KeysDistinct(n.content)) &&
    forall c :: c in n.content ==> ValidYaml(c, depth + 1)
  }

  /** The decoder pairs keys with values. */
  predicate Decoded(n: Node)
  {
    (n.kind == Mapping ==> |n.content| % 2 == 0) && forall c :: c in n.content ==> Decoded(c)
  }

  lemma {:induction false} PrefixStep(content: seq<Node>, i: nat)
    requires |content| % 2 == 0 && i % 2 == 0 && i < |content|
    ensures KeysIn(content[..i + 2]) == KeysIn(content[..i]) + {content[i].value}
    ensures KeysDistinct(content[..i + 2]) <==> KeysDistinct(content[..i]) && content[i].value !in KeysIn(content[..i])
    ensures KeysAreStrings(content[..i + 2]) <==>
            KeysAreStrings(content[..i]) && content[i].kind == Scalar && content[i].tag == StrTag &&
            content[i].value != "<<"
  {
    assert content[..i + 2] == content[..i] + [content[i], content[i + 1]];
    Appended(content[..i], content[i], content[i + 1], "");
    StringsAppended(content[..i], content[i], content[i + 1]);
  }

  lemma {:induction false} StringsAppended(content: seq<Node>, k: Node, v: Node)
    requires |content| % 2 == 0
    ensures KeysAreStrings(content + [k, v]) <==>
            KeysAreStrings(content) && k.kind == Scalar && k.tag == StrTag && k.value != "<<"
  {
    var all := content + [k, v];
    if content == [] {
      assert all == [k, v] && all[2..] == [];
    } else {
      assert all[2..] == content[2..] + [k, v];
      StringsAppended(content[2..], k, v);
    }
  }

  lemma {:induction false} PrefixesFail(content: seq<Node>, i: nat)
    requires |content| % 2 == 0 && i % 2 == 0 && i <= |content|
    requires !(KeysDistinct(content[..i]) && KeysAreStrings(content[..i]))
    ensures !(KeysDistinct(content) && KeysAreStrings(content))
    decreases |content| - i
  {
    if i == |content| {
      assert content[..i] == content;
    } else {
      PrefixStep(content, i);
      PrefixesFail(content, i + 2);
    }
  }

  method ValidateYaml(n: Node, depth: nat) returns (ok: bool)
    requires Decoded(n)
    ensures ok <==> ValidYaml(n, depth)
    decreases n
  {
    hide KeysDistinct, KeysAreStrings, KeysIn;
    if depth > MAX_DEPTH {
      return false;
    }
    if n.kind == Alias || n.anchor != "" {
      return false;
    }
    if n.kind == Mapping {
      ok := ValidateKeys(n.content);
      if !ok {
        return false;
      }
    }
    for i := 0 to |n.content|
      invariant forall k :: 0 <= k < i ==> ValidYaml(n.content[k], depth + 1)
    {
      ok := ValidateYaml(n.content[i], depth + 1);
      if !ok {
        return false;
      }
    }
    return true;
  }

  method ValidateKeys(content: seq<Node>) returns (ok: bool)
    requires |content| % 2 == 0
    ensures ok <==> KeysAreStrings(content) && KeysDistinct(content)
  {
    var seen: set<string> := {};
    var i := 0;
    while i < |content|
      invariant i % 2 == 0 && i <= |content|
      invariant seen == KeysIn(content[..i]) && KeysDistinct(content[..i]) && KeysAreStrings(content[..i])
    {
      var key := content[i];
      PrefixStep(content, i);
      if key.kind != Scalar || key.tag != StrTag || key.value == "<<" || key.value in seen {
        PrefixesFail(content, i + 2);
        return false;
      }
      seen := seen + {key.value};
      i := i + 2;
    }
    assert content[..|content|] == content;
    return true;
  }

  // ----- provider substitution -----

  /** Dollar signs immediately before position i. */
  function DollarsBefore(s: string, i: nat): nat
    requires i <= |s|
  {
    if i > 0 && s[i - 1] == '$' then 1 + DollarsBefore(s, i - 1) else 0
  }

  /** The parity test: a brace after an odd number of dollar signs. */
  predicate Substitutes(s: string)
  {
    exists i :: 0 <= i < |s| && s[i] == '{' && DollarsBefore(s, i) % 2 == 1
  }

  /** A left-to-right reader: "$$" is an escaped dollar, any other "${" starts a substitution. */
  predicate ReaderSubstitutes(s: string, p: nat)
    requires p <= |s|
    decreases |s| - p
  {
    p + 1 < |s| &&
    if s[p] == '$' && s[p + 1] == '$' then ReaderSubstitutes(s, p + 2)
    else (s[p] == '$' && s[p + 1] == '{') || ReaderSubstitutes(s, p + 1)
  }

  lemma {:induction false} ReaderFinds(s: string, p: nat)
    requires p <= |s| && DollarsBefore(s, p) % 2 == 0
    ensures ReaderSubstitutes(s, p) <==> exists i :: p <= i < |s| && s[i] == '{' && DollarsBefore(s, i) % 2 == 1
    decreases |s| - p
  {
    if p + 1 < |s| {
      if s[p] == '$' && s[p + 1] == '$' {
        ReaderFinds(s, p + 2);
      } else if s[p] == '$' && s[p + 1] == '{' {
        assert DollarsBefore(s, p + 1) % 2 == 1;
      } else if s[p] == '$' {
        ReaderFinds(s, p + 2);
      } else {
        ReaderFinds(s, p + 1);
      }
    }
  }

  /** Counting dollars backwards from each brace agrees with reading forwards, for every text. */
  lemma ParityAgreesWithReader(s: string)
    ensures Substitutes(s) <==> ReaderSubstitutes(s, 0)
  {
    ReaderFinds(s, 0);
  }

  /** Some scalar below n contains a substitution. */
  predicate Provides(n: Node)
  {
    (n.kind == Scalar && Substitutes(n.value)) || exists c :: c in n.content && Provides(c)
  }

  /** The same judgement by the left-to-right reader. */
  predicate ReaderProvides(n: Node)
  {
    (n.kind == Scalar && ReaderSubstitutes(n.value, 0)) || exists c :: c in n.content && ReaderProvides(c)
  }

  lemma {:induction false} TreesAgree(n: Node)
    ensures Provides(n) <==> ReaderProvides(n)
  {
    ParityAgreesWithReader(n.value);
    forall c | c in n.content ensures Provides(c) <==> ReaderProvides(c) {
      TreesAgree(c);
    }
  }

  method HasProviderSubstitution(n: Node) returns (found: bool)
    ensures found <==> Provides(n)
    decreases n
  {
    if n.kind == Scalar {
      for i := 0 to |n.value|
        invariant forall k :: 0 <= k < i ==> !(n.value[k] == '{' && DollarsBefore(n.value, k) % 2 == 1)
      {
        if n.value[i] == '{' {
          var dollars := 0;
          var j := i;
          while j > 0 && n.value[j - 1] == '$'
            invariant 0 <= j <= i && DollarsBefore(n.value, i) == dollars + DollarsBefore(n.value, j)
          {
            dollars := dollars + 1;
            j := j - 1;
          }
          if dollars % 2 == 1 {
            return true;
          }
        }
      }
    }
    for i := 0 to |n.content|
      invariant forall k :: 0 <= k < i ==> !Provides(n.content[k])
    {
      found := HasProviderSubstitution(n.content[i]);
      if found {
        return true;
      }
    }
    return false;
  }

  // ----- cloneNode -----

  /** A deep copy without comments. */
  function Bare(n: Node): (r: Node)
    ensures r.kind == n.kind && r.tag == n.tag && r.value == n.value && r.anchor == n.anchor &&
            |r.content| == |n.content|
  {
    n.(comment := "", content := seq(|n.content|, i requires 0 <= i < |n.content| => Bare(n.content[i])))
  }

  method CloneNode(n: Node) returns (copied: Node)
    ensures copied == Bare(n)
    decreases n
  {
    copied := n.(comment := "", content := []);
    for i := 0 to |n.content|
      invariant copied == n.(comment := "", content := copied.content) && |copied.content| == i
      invariant forall k :: 0 <= k < i ==> copied.content[k] == Bare(n.content[k])
    {
      var child := CloneNode(n.content[i]);
      copied := copied.(content := copied.content + [child]);
    }
    assert copied.content == Bare(n).content;
  }

  lemma {:induction false} BareTwice(n: Node)
    ensures Bare(Bare(n)) == Bare(n)
  {
    var b := Bare(n);
    forall i | 0 <= i < |n.content| ensures Bare(b.content[i]) == b.content[i] {
      BareTwice(n.content[i]);
    }
    assert Bare(b).content == b.content;
  }

  lemma {:induction false} BareProvides(n: Node)
    ensures Provides(Bare(n)) <==> Provides(n)
  {
    var b := Bare(n);
    forall i | 0 <= i < |n.content| ensures Provides(b.content[i]) <==> Provides(n.content[i]) {
      BareProvides(n.content[i]);
    }
  }

  lemma {:induction false} BareKeys(a: seq<Node>, b: seq<Node>)
    requires |a| == |b| && forall i :: 0 <= i < |a| ==>
               b[i].kind == a[i].kind && b[i].tag == a[i].tag && b[i].value == a[i].value
    ensures KeysIn(a) == KeysIn(b) && (KeysDistinct(a) <==> KeysDistinct(b)) &&
            (KeysAreStrings(a) <==> KeysAreStrings(b))
  {
    if |a| >= 2 {
      BareKeys(a[2..], b[2..]);
    }
  }

  lemma {:induction false} BareValid(n: Node, depth: nat)
    ensures ValidYaml(Bare(n), depth) <==> ValidYaml(n, depth)
  {
    hide KeysIn, KeysDistinct, KeysAreStrings;
    var b := Bare(n);
    forall i | 0 <= i < |n.content| ensures ValidYaml(b.content[i], depth + 1) <==> ValidYaml(n.content[i], depth + 1) {
      BareValid(n.content[i], depth + 1);
    }
    BareKeys(n.content, b.content);
    ChildrenByIndex(n, depth);
    ChildrenByIndex(b, depth);
  }

  lemma ChildrenByIndex(n: Node, depth: nat)
    ensures (forall c :: c in n.content ==> ValidYaml(c, depth + 1)) <==>
            (forall i :: 0 <= i < |n.content| ==> ValidYaml(n.content[i], depth + 1))
  {
    hide ValidYaml;
    if forall c :: c in n.content ==> ValidYaml(c, depth + 1) {
      forall i | 0 <= i < |n.content| ensures ValidYaml(n.content[i], depth + 1) {
        assert n.content[i] in n.content;
      }
    }
  }

  lemma {:induction false} ValidIsDecoded(n: Node, depth: nat)
    requires ValidYaml(n, depth)
    ensures Decoded(n)
  {
    forall c | c in n.content ensures Decoded(c) {
      ValidIsDecoded(c, depth + 1);
    }
  }
}
