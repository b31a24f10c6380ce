/** Finding, deduplicating and ordering forbidden data (internal/evaluator/matches.go). Case mapping, path.Match
    and regular expressions belong to Go's libraries: a Matcher stands for them, so what is proved holds
    whatever they answer. */
module Matches {
  import opened Strings
  import opened Json
  import opened Telemetry
  import opened Policy

  datatype Matcher = Matcher(
    lower: string -> string,
    upper: string -> string,
    /** path.Match(pattern, name); None is a malformed pattern. */
    glob: (string, string) -> Option<bool>,
    compiles: string -> bool,
    regex: (string, string) -> bool)

  datatype Kind = AttributeKey | AttributeValue | Body | LabelKey | LabelValue | ResourceKey | ResourceValue | SpanName

  function KindText(k: Kind): (s: string)
    ensures '|' !in s
  {
    match k
    case AttributeKey => "attribute_key"
    case AttributeValue => "attribute_value"
    case Body => "body"
    case LabelKey => "label_key"
    case LabelValue => "label_value"
    case ResourceKey => "resource_key"
    case ResourceValue => "resource_value"
    case SpanName => "span_name"
  }

  datatype ForbiddenMatch = ForbiddenMatch(kind: Kind, key: string, pattern: string, valueLength: nat,
                                           index: nat, metric: string)

  // ----- matching one key or one text -----

  predicate MatchKey(mx: Matcher, pattern: string, key: string, caseInsensitive: bool)
  {
    var p := if caseInsensitive then mx.lower(pattern) else pattern;
    var k := if caseInsensitive then mx.lower(key) else key;
    if '*' in p then mx.glob(p, k) == Some(true) else p == k
  }

  function Effective(pattern: string, caseInsensitive: bool): string
  {
    if caseInsensitive && !HasPrefix(pattern, "(?i)") then "(?i)" + pattern else pattern
  }

  predicate AllCompile(mx: Matcher, patterns: seq<string>, caseInsensitive: bool)
  {
    forall p :: p in patterns ==> mx.compiles(Effective(p, caseInsensitive))
  }

  /** How a key is compared: after lower-casing both when case is ignored; by path.Match when the pattern has a star,
      where a malformed pattern matches nothing; and by equality otherwise. */
  lemma KeyMatchMeans(mx: Matcher, pattern: string, key: string)
    ensures '*' !in pattern ==> (MatchKey(mx, pattern, key, false) <==> pattern == key)
    ensures '*' in pattern ==> (MatchKey(mx, pattern, key, false) <==> mx.glob(pattern, key) == Some(true))
    ensures MatchKey(mx, pattern, key, true) <==> MatchKey(mx, mx.lower(pattern), mx.lower(key), false)
    ensures '*' !in mx.lower(pattern) && mx.lower(pattern) == mx.lower(key) ==> MatchKey(mx, pattern, key, true)
    ensures mx.glob(pattern, key).None? && '*' in pattern ==> !MatchKey(mx, pattern, key, false)
  {
  }

  /** A pattern is prefixed by the case flag exactly once, and only when case is ignored. */
  lemma EffectiveMeans(pattern: string)
    ensures Effective(pattern, false) == pattern
    ensures HasPrefix(Effective(pattern, true), "(?i)")
    ensures Effective(Effective(pattern, true), true) == Effective(pattern, true)
    ensures !HasPrefix(pattern, "(?i)") ==> Effective(pattern, true)[4..] == pattern
    ensures HasPrefix(pattern, "(?i)") ==> Effective(pattern, true) == pattern
  {
  }

  predicate KeysOffend(mx: Matcher, attrs: Attributes, forbidden: seq<string>, caseInsensitive: bool)
  {
    exists k, p :: k in attrs && p in forbidden && MatchKey(mx, p, k, caseInsensitive)
  }

  predicate TextOffends(mx: Matcher, text: string, patterns: seq<string>, caseInsensitive: bool)
  {
    exists p :: p in patterns && mx.regex(Effective(p, caseInsensitive), text)
  }

  predicate ValuesOffend(mx: Matcher, attrs: Attributes, patterns: seq<string>, caseInsensitive: bool)
  {
    exists k :: k in attrs && TextOffends(mx, attrs[k], patterns, caseInsensitive)
  }

  /** Some key or value of these attributes is forbidden. */
  predicate AttributesOffend(mx: Matcher, attrs: Attributes, forbidden: seq<string>, patterns: seq<string>,
                             caseInsensitive: bool)
  {
    KeysOffend(mx, attrs, forbidden, caseInsensitive) || ValuesOffend(mx, attrs, patterns, caseInsensitive)
  }

  function EffectiveAll(patterns: seq<string>, caseInsensitive: bool): (r: seq<string>)
    ensures |r| == |patterns|
  {
    seq(|patterns|, i requires 0 <= i < |patterns| => Effective(patterns[i], caseInsensitive))
  }

  method CompilePatterns(mx: Matcher, patterns: seq<string>,
                         caseInsensitive: bool) returns (compiled: Option<seq<string>>)
    ensures compiled ==
            if AllCompile(mx, patterns, caseInsensitive) then Some(EffectiveAll(patterns, caseInsensitive)) else None
  {
    var out: seq<string> := [];
    for i := 0 to |patterns|
      invariant |out| == i && forall j :: 0 <= j < i ==> out[j] == Effective(patterns[j], caseInsensitive)
      invariant forall j :: 0 <= j < i ==> mx.compiles(Effective(patterns[j], caseInsensitive))
    {
      var pattern := patterns[i];
      if caseInsensitive && !HasPrefix(pattern, "(?i)") {
        pattern := "(?i)" + pattern;
      }
      if !mx.compiles(pattern) {
        assert patterns[i] in patterns;
        return None;
      }
      out := out + [pattern];
    }
    assert out == EffectiveAll(patterns, caseInsensitive);
    return Some(out);
  }

  /** len(value): bytes of the UTF-8 form. */
  function Utf8Length(s: string): nat
  {
    if s == [] then 0 else
    (if s[0] as int < 0x80 then 1 else if s[0] as int < 0x800 then 2 else if s[0] as int < 0x10000 then 3 else 4) +
      Utf8Length(s[1..])
  }

  lemma {:induction false} Utf8Adds(a: string, b: string)
    ensures Utf8Length(a + b) == Utf8Length(a) + Utf8Length(b)
  {
    if a == [] {
      assert a + b == b;
    } else {
      assert (a + b)[1..] == a[1..] + b;
      Utf8Adds(a[1..], b);
    }
  }

  /** One to four bytes for each character, by its code point (RFC 3629, section 3). */
  lemma Utf8LengthMeans(s: string, c: char)
    ensures Utf8Length(s + [c]) == Utf8Length(s) +
            if c as int <= 0x7F then 1 else if c as int <= 0x7FF then 2 else if c as int <= 0xFFFF then 3 else 4
    ensures Utf8Length([]) == 0
  {
    Utf8Adds(s, [c]);
    assert [c][1..] == [];
  }

  // ----- what is reported -----

  /** m reports a key of attrs that one of the patterns forbids. */
  predicate KeyReport(mx: Matcher, m: ForbiddenMatch, kind: Kind, index: nat, metric: string, attrs: Attributes,
                      forbidden: seq<string>, caseInsensitive: bool)
  {
    m.key in attrs && m.pattern in forbidden && MatchKey(mx, m.pattern, m.key, caseInsensitive) &&
    m == ForbiddenMatch(kind, m.key, m.pattern, 0, index, metric)
  }

  /** Exactly the forbidden keys of attrs are reported. */
  ghost predicate KeysReported(mx: Matcher, matches: seq<ForbiddenMatch>, kind: Kind, index: nat, metric: string,
                               attrs: Attributes, forbidden: seq<string>, caseInsensitive: bool)
  {
    forall m :: m in matches <==> KeyReport(mx, m, kind, index, metric, attrs, forbidden, caseInsensitive)
  }

  /** m reports a text that one of the compiled patterns forbids, by its length only. */
  predicate TextReport(mx: Matcher, m: ForbiddenMatch, kind: Kind, key: string, index: nat, metric: string,
                       text: string,
                       compiled: seq<string>)
  {
    m.pattern in compiled && mx.regex(m.pattern, text) &&
    m == ForbiddenMatch(kind, key, m.pattern, Utf8Length(text), index, metric)
  }

  predicate ValueReport(mx: Matcher, m: ForbiddenMatch, kind: Kind, index: nat, metric: string, attrs: Attributes,
                        compiled: seq<string>)
  {
    m.key in attrs && TextReport(mx, m, kind, m.key, index, metric, attrs[m.key], compiled)
  }

  /** m reports a key or a value of these attributes. */
  predicate DataReport(mx: Matcher, m: ForbiddenMatch, keyKind: Kind, valueKind: Kind, index: nat, metric: string,
                       attrs: Attributes, forbidden: seq<string>, compiled: seq<string>, caseInsensitive: bool)
  {
    KeyReport(mx, m, keyKind, index, metric, attrs, forbidden, caseInsensitive) ||
    ValueReport(mx, m, valueKind, index, metric, attrs, compiled)
  }

  /** m reports one of these keys matching one of these patterns. */
  ghost predicate ReportsKey(mx: Matcher, m: ForbiddenMatch, kind: Kind, index: nat, metric: string, keys: seq<string>,
                             forbidden: seq<string>, caseInsensitive: bool)
  {
    m.key in keys && m.pattern in forbidden && MatchKey(mx, m.pattern, m.key, caseInsensitive) &&
    m == ForbiddenMatch(kind, m.key, m.pattern, 0, index, metric)
  }

  ghost predicate ReportKeys(mx: Matcher, matches: seq<ForbiddenMatch>, kind: Kind, index: nat, metric: string,
                             keys: seq<string>, forbidden: seq<string>, caseInsensitive: bool)
  {
    forall m :: m in matches <==> ReportsKey(mx, m, kind, index, metric, keys, forbidden, caseInsensitive)
  }

  method KeyMatches(mx: Matcher, kind: Kind, index: nat, metric: string, key: string, forbidden: seq<string>,
                    caseInsensitive: bool)
    returns (matches: seq<ForbiddenMatch>)
    ensures ReportKeys(mx, matches, kind, index, metric, [key], forbidden, caseInsensitive)
  {
    hide MatchKey;
    matches := [];
    for j := 0 to |forbidden|
      invariant forall m :: m in matches <==>
                  ReportsKey(mx, m, kind, index, metric, [key], forbidden[..j], caseInsensitive)
    {
      assert forbidden[..j + 1] == forbidden[..j] + [forbidden[j]];
      if MatchKey(mx, forbidden[j], key, caseInsensitive) {
        matches := matches + [ForbiddenMatch(kind, key, forbidden[j], 0, index, metric)];
      }
    }
    assert forbidden[..|forbidden|] == forbidden;
  }

  method FindForbiddenAttributeMatches(mx: Matcher, kind: Kind, index: nat, metric: string, attrs: Attributes,
                                       forbidden: seq<string>, caseInsensitive: bool)
    returns (matches: seq<ForbiddenMatch>)
    ensures KeysReported(mx, matches, kind, index, metric, attrs, forbidden, caseInsensitive)
    ensures matches != [] <==> KeysOffend(mx, attrs, forbidden, caseInsensitive)
  {
    hide ReportKeys, KeysOffend, SortedSet, KeysReported, StrictlySorted;
    var keys := SortedSet(attrs.Keys);
    SortedSetMembers(attrs.Keys);
    matches := [];
    assert keys[..0] == [];
    NoKeyNoReport(mx, kind, index, metric, forbidden, caseInsensitive);
    for i := 0 to |keys|
      invariant ReportKeys(mx, matches, kind, index, metric, keys[..i], forbidden, caseInsensitive)
    {
      var more := KeyMatches(mx, kind, index, metric, keys[i], forbidden, caseInsensitive);
      assert keys[..i + 1] == keys[..i] + [keys[i]];
      ReportMoreKeys(mx, matches, more, kind, index, metric, keys[..i], keys[i], forbidden, caseInsensitive);
      matches := matches + more;
    }
    assert keys[..|keys|] == keys;
    ReportsMeanOffence(mx, kind, index, metric, attrs, keys, forbidden, caseInsensitive, matches);
  }

  lemma NoKeyNoReport(mx: Matcher, kind: Kind, index: nat, metric: string, forbidden: seq<string>,
                      caseInsensitive: bool)
    ensures ReportKeys(mx, [], kind, index, metric, [], forbidden, caseInsensitive)
  {
  }

  lemma ReportMoreKeys(mx: Matcher, matches: seq<ForbiddenMatch>, more: seq<ForbiddenMatch>, kind: Kind, index: nat,
                       metric: string, keys: seq<string>, key: string, forbidden: seq<string>, caseInsensitive: bool)
    requires ReportKeys(mx, matches, kind, index, metric, keys, forbidden, caseInsensitive)
    requires ReportKeys(mx, more, kind, index, metric, [key], forbidden, caseInsensitive)
    ensures ReportKeys(mx, matches + more, kind, index, metric, keys + [key], forbidden, caseInsensitive)
  {
    hide MatchKey;
  }

  lemma ReportsMeanOffence(mx: Matcher, kind: Kind, index: nat, metric: string, attrs: Attributes, keys: seq<string>,
                           forbidden: seq<string>, caseInsensitive: bool, matches: seq<ForbiddenMatch>)
    requires forall k :: k in keys <==> k in attrs
    requires ReportKeys(mx, matches, kind, index, metric, keys, forbidden, caseInsensitive)
    ensures KeysReported(mx, matches, kind, index, metric, attrs, forbidden, caseInsensitive)
    ensures matches != [] <==> KeysOffend(mx, attrs, forbidden, caseInsensitive)
  {
    hide MatchKey;
    forall m ensures m in matches <==> KeyReport(mx, m, kind, index, metric, attrs, forbidden, caseInsensitive) {
      assert ReportsKey(mx, m, kind, index, metric, keys, forbidden, caseInsensitive) <==>
             KeyReport(mx, m, kind, index, metric, attrs, forbidden, caseInsensitive);
    }
    if matches != [] {
      assert matches[0] in matches;
    }
    forall k, p | k in attrs && p in forbidden && MatchKey(mx, p, k, caseInsensitive) ensures matches != [] {
      assert ReportsKey(mx, ForbiddenMatch(kind, k, p, 0, index, metric), kind, index, metric, keys, forbidden,
                        caseInsensitive);
    }
  }

  method FindForbiddenStringMatches(mx: Matcher, kind: Kind, key: string, index: nat, metric: string, value: string,
                                    compiled: seq<string>)
    returns (matches: seq<ForbiddenMatch>)
    ensures forall m :: m in matches <==> TextReport(mx, m, kind, key, index, metric, value, compiled)
    ensures matches != [] <==> exists p :: p in compiled && mx.regex(p, value)
  {
    hide Utf8Length;
    matches := [];
    for j := 0 to |compiled|
      invariant forall m :: m in matches <==> TextReport(mx, m, kind, key, index, metric, value, compiled[..j])
    {
      assert compiled[..j + 1] == compiled[..j] + [compiled[j]];
      if mx.regex(compiled[j], value) {
        matches := matches + [ForbiddenMatch(kind, key, compiled[j], Utf8Length(value), index, metric)];
      }
    }
    assert compiled[..|compiled|] == compiled;
    if matches != [] {
      assert matches[0] in matches;
    }
    forall p | p in compiled && mx.regex(p, value) ensures matches != [] {
      assert TextReport(mx, ForbiddenMatch(kind, key, p, Utf8Length(value), index, metric), kind, key, index, metric,
                        value, compiled);
    }
  }

  // ----- deduplication and order -----

  /** The text two matches are compared by. */
  function JoinedText(m: ForbiddenMatch): string
  {
    KindText(m.kind) + ['|'] + (m.key + ['|'] + (m.pattern + ['|'] + (Decimal(m.index) + ['|'] +
    (m.metric + ['|'] + Decimal(m.valueLength)))))
  }

  /** Which of a match's free texts may contain the separator: attribute keys, patterns, metric names. */
  datatype Bars = Bars(keys: bool, patterns: bool, names: bool)

  predicate Allows(b: Bars, m: ForbiddenMatch)
  {
    (b.keys || '|' !in m.key) && (b.patterns || '|' !in m.pattern) && (b.names || '|' !in m.metric)
  }

  predicate Ambiguous(b: Bars)
  {
    (b.keys && b.patterns) || (b.keys && b.names) || (b.patterns && b.names)
  }

  lemma DecimalHasNoBar(n: nat)
    ensures '|' !in Decimal(n)
  {
  }

  lemma KindTextInjective(a: Kind, b: Kind)
    requires KindText(a) == KindText(b)
    ensures a == b
  {
    var s, t := KindText(a), KindText(b);
    assert |s| == |t| && s[0] == t[0];
    assert s[|s| - 1] == t[|t| - 1];
  }

  lemma DecimalInjective(a: nat, b: nat)
    requires Decimal(a) == Decimal(b)
    ensures a == b
  {
    DecimalRoundTrip(a);
    DecimalRoundTrip(b);
  }

  /** The counterpart of CutAtSeparator from the right. */
  lemma CutAtLast(a: string, b: string, r1: string, r2: string)
    requires a + ['|'] + r1 == b + ['|'] + r2 && '|' !in r1 && '|' !in r2
    ensures a == b && r1 == r2
  {
    var s, t := a + ['|'] + r1, b + ['|'] + r2;
    assert s[|a|] == '|' && t[|b|] == '|';
    assert forall i :: |a| < i < |s| ==> s[i] == r1[i - |a| - 1];
    assert forall i :: |b| < i < |t| ==> t[i] == r2[i - |b| - 1];
    assert |a| == |b|;
    assert s[..|a|] == a && t[..|b|] == b;
    assert s[|a| + 1..] == r1 && t[|b| + 1..] == r2;
  }

  /** The joined text in two parts: up to the index, and from the index on. */
  function Front(m: ForbiddenMatch): string
  {
    m.key + ['|'] + m.pattern
  }

  function Back(m: ForbiddenMatch): string
  {
    Decimal(m.index) + ['|'] + (m.metric + ['|'] + Decimal(m.valueLength))
  }

  lemma InTwoParts(m: ForbiddenMatch)
    ensures JoinedText(m) == KindText(m.kind) + ['|'] + (Front(m) + ['|'] + Back(m))
    ensures Front(m) + ['|'] + Back(m) == m.key + ['|'] + (m.pattern + ['|'] + Back(m))
    ensures Front(m) + ['|'] + Back(m) ==
            Front(m) + ['|'] + Decimal(m.index) + ['|'] + m.metric + ['|'] + Decimal(m.valueLength)
  {
    hide KindText, Decimal;
  }

  lemma BacksAgree(a: ForbiddenMatch, b: ForbiddenMatch)
    requires Back(a) == Back(b)
    ensures a.index == b.index && a.metric == b.metric && a.valueLength == b.valueLength
  {
    hide Decimal;
    DecimalHasNoBar(a.index);
    DecimalHasNoBar(b.index);
    DecimalHasNoBar(a.valueLength);
    DecimalHasNoBar(b.valueLength);
    CutAtSeparator(Decimal(a.index), Decimal(b.index), a.metric + ['|'] + Decimal(a.valueLength),
                   b.metric + ['|'] + Decimal(b.valueLength), '|');
    CutAtLast(a.metric, b.metric, Decimal(a.valueLength), Decimal(b.valueLength));
    DecimalInjective(a.index, b.index);
    DecimalInjective(a.valueLength, b.valueLength);
  }

  /** Keys and patterns without the separator are read from the left. */
  lemma ReadFromLeft(a: ForbiddenMatch, b: ForbiddenMatch)
    requires '|' !in a.key && '|' !in b.key && '|' !in a.pattern && '|' !in b.pattern
    requires Front(a) + ['|'] + Back(a) == Front(b) + ['|'] + Back(b)
    ensures a.key == b.key && a.pattern == b.pattern && Back(a) == Back(b)
  {
    hide Back;
    InTwoParts(a);
    InTwoParts(b);
    CutAtSeparator(a.key, b.key, a.pattern + ['|'] + Back(a), b.pattern + ['|'] + Back(b), '|');
    CutAtSeparator(a.pattern, b.pattern, Back(a), Back(b), '|');
  }

  /** Metric names without the separator are read from the right. */
  lemma ReadFromRight(a: ForbiddenMatch, b: ForbiddenMatch)
    requires '|' !in a.metric && '|' !in b.metric
    requires Front(a) + ['|'] + Back(a) == Front(b) + ['|'] + Back(b)
    ensures Front(a) == Front(b) && Back(a) == Back(b)
  {
    hide Decimal, Front;
    InTwoParts(a);
    InTwoParts(b);
    DecimalHasNoBar(a.index);
    DecimalHasNoBar(b.index);
    DecimalHasNoBar(a.valueLength);
    DecimalHasNoBar(b.valueLength);
    var f, g := Front(a) + ['|'] + Decimal(a.index), Front(b) + ['|'] + Decimal(b.index);
    CutAtLast(f + ['|'] + a.metric, g + ['|'] + b.metric, Decimal(a.valueLength), Decimal(b.valueLength));
    CutAtLast(f, g, a.metric, b.metric);
    CutAtLast(Front(a), Front(b), Decimal(a.index), Decimal(b.index));
  }

  /** The joined text determines the match as long as only one of its free texts can contain the separator. */
  lemma JoinedTextInjective(bars: Bars, a: ForbiddenMatch, b: ForbiddenMatch)
    requires !Ambiguous(bars) && Allows(bars, a) && Allows(bars, b) && JoinedText(a) == JoinedText(b)
    ensures a == b
  {
    hide JoinedText, KindText, Front, Back;
    InTwoParts(a);
    InTwoParts(b);
    KindsHaveNoBar();
    CutAtSeparator(KindText(a.kind), KindText(b.kind), Front(a) + ['|'] + Back(a), Front(b) + ['|'] + Back(b), '|');
    KindTextInjective(a.kind, b.kind);
    if bars.names {
      ReadFromLeft(a, b);
    } else {
      ReadFromRight(a, b);
      FrontsAgree(bars, a, b);
    }
    BacksAgree(a, b);
  }

  lemma KindsHaveNoBar()
    ensures forall k :: '|' !in KindText(k)
  {
  }

  lemma FrontsAgree(bars: Bars, a: ForbiddenMatch, b: ForbiddenMatch)
    requires !(bars.keys && bars.patterns) && Allows(bars, a) && Allows(bars, b) && Front(a) == Front(b)
    ensures a.key == b.key && a.pattern == b.pattern
  {
    if bars.keys {
      CutAtLast(a.key, b.key, a.pattern, b.pattern);
    } else {
      CutAtSeparator(a.key, b.key, a.pattern, b.pattern, '|');
    }
  }

  datatype Part = Word(s: string) | Number(n: nat)

  predicate PartLe(a: Part, b: Part)
  {
    match (a, b)
    case (Word(x), Word(y)) => Le(x, y)
    case (Number(x), Number(y)) => x <= y
    case (Word(_), Number(_)) => true
    case (Number(_), Word(_)) => false
  }

  /** The fields sort.Slice compares, most significant first. */
  function SortFields(m: ForbiddenMatch): (r: seq<Part>)
    ensures |r| == 5
  {
    [Word(KindText(m.kind)), Word(m.metric), Number(m.index), Word(m.key), Word(m.pattern)]
  }

  predicate FieldsLe(a: seq<Part>, b: seq<Part>)
    requires |a| == |b|
  {
    a == [] || (if a[0] != b[0] then PartLe(a[0], b[0]) else FieldsLe(a[1..], b[1..]))
  }

  predicate MatchLe(a: ForbiddenMatch, b: ForbiddenMatch)
  {
    FieldsLe(SortFields(a), SortFields(b))
  }

  /** The first field that differs decides: kind, metric, index, key, pattern, in this order. */
  lemma MatchLeMeans(a: ForbiddenMatch, b: ForbiddenMatch)
    ensures MatchLe(a, b) <==>
            if a.kind != b.kind then Le(KindText(a.kind), KindText(b.kind))
            else if a.metric != b.metric then Le(a.metric, b.metric)
            else if a.index != b.index then a.index <= b.index
            else if a.key != b.key then Le(a.key, b.key)
            else Le(a.pattern, b.pattern)
  {
    hide Le, KindText, FieldsLe, SortFields;
    if KindText(a.kind) == KindText(b.kind) {
      KindTextInjective(a.kind, b.kind);
    }
    LeTotal(a.pattern, a.pattern);
    var x, y := SortFields(a), SortFields(b);
    FieldsAre(a);
    FieldsAre(b);
    NoFieldsLe();
    FieldsFrom(x, y, 0);
    FieldsFrom(x, y, 1);
    FieldsFrom(x, y, 2);
    FieldsFrom(x, y, 3);
    FieldsFrom(x, y, 4);
    assert x[0..] == x && y[0..] == y && x[5..] == [] && y[5..] == [];
  }

  lemma FieldsAre(m: ForbiddenMatch)
    ensures var x := SortFields(m);
            x[0] == Word(KindText(m.kind)) && x[1] == Word(m.metric) && x[2] == Number(m.index) &&
            x[3] == Word(m.key) && x[4] == Word(m.pattern)
  {
  }

  lemma NoFieldsLe()
    ensures FieldsLe([], [])
  {
  }

  lemma FieldsFrom(x: seq<Part>, y: seq<Part>, i: nat)
    requires |x| == |y| && i < |x|
    ensures FieldsLe(x[i..], y[i..]) <==> if x[i] != y[i] then PartLe(x[i], y[i]) else FieldsLe(x[i + 1..], y[i + 1..])
  {
    assert x[i..][1..] == x[i + 1..] && y[i..][1..] == y[i + 1..];
  }

  function KindPlace(k: Kind): nat
  {
    match k
    case AttributeKey => 0
    case AttributeValue => 1
    case Body => 2
    case LabelKey => 3
    case LabelValue => 4
    case ResourceKey => 5
    case ResourceValue => 6
    case SpanName => 7
  }

  /** The kinds in the order in which they are listed. */
  lemma KindOrder(a: Kind, b: Kind)
    requires KindPlace(a) < KindPlace(b)
    ensures Ascending(KindText(a), KindText(b))
  {
    if a.AttributeKey? && b.AttributeValue? {
      assert DiffersFirstAt("attribute_key", "attribute_value", 10);
    } else if a.LabelKey? && b.LabelValue? {
      assert DiffersFirstAt("label_key", "label_value", 6);
    } else if a.ResourceKey? && b.ResourceValue? {
      assert DiffersFirstAt("resource_key", "resource_value", 9);
    } else {
      assert KindText(a)[0] < KindText(b)[0];
      assert DiffersFirstAt(KindText(a), KindText(b), 0);
    }
  }

  lemma {:induction false} FieldsLeTotal(a: seq<Part>, b: seq<Part>)
    requires |a| == |b|
    ensures FieldsLe(a, b) || FieldsLe(b, a)
  {
    if a != [] {
      if a[0] == b[0] {
        FieldsLeTotal(a[1..], b[1..]);
      } else if a[0].Word? && b[0].Word? {
        LeTotal(a[0].s, b[0].s);
      }
    }
  }

  lemma PartLeTransitive(a: Part, b: Part, c: Part)
    requires PartLe(a, b) && PartLe(b, c)
    ensures PartLe(a, c)
    ensures a == c ==> a == b
  {
    if a.Word? && b.Word? && c.Word? {
      LeTransitive(a.s, b.s, c.s);
      if a == c {
        LeAntisymmetric(a.s, b.s);
      }
    }
  }

  lemma {:induction false} FieldsLeTransitive(a: seq<Part>, b: seq<Part>, c: seq<Part>)
    requires |a| == |b| == |c| && FieldsLe(a, b) && FieldsLe(b, c)
    ensures FieldsLe(a, c)
  {
    if a != [] {
      if a[0] == b[0] == c[0] {
        FieldsLeTransitive(a[1..], b[1..], c[1..]);
      } else if a[0] != b[0] && b[0] != c[0] {
        PartLeTransitive(a[0], b[0], c[0]);
      }
    }
  }

  lemma MatchLeTotal(a: ForbiddenMatch, b: ForbiddenMatch)
    ensures MatchLe(a, b) || MatchLe(b, a)
  {
    hide FieldsLe, SortFields;
    FieldsLeTotal(SortFields(a), SortFields(b));
  }

  lemma MatchLeTransitive(a: ForbiddenMatch, b: ForbiddenMatch, c: ForbiddenMatch)
    requires MatchLe(a, b) && MatchLe(b, c)
    ensures MatchLe(a, c)
  {
    hide FieldsLe, SortFields;
    FieldsLeTransitive(SortFields(a), SortFields(b), SortFields(c));
  }

  ghost predicate SortedMatches(ms: seq<ForbiddenMatch>)
  {
    forall i, j :: 0 <= i < j < |ms| ==> MatchLe(ms[i], ms[j])
  }

  /** Ties (same kind, metric, index, key and pattern) may end in either order, as with sort.Slice. */
  method SortForbiddenMatches(matches: seq<ForbiddenMatch>) returns (sorted: seq<ForbiddenMatch>)
    ensures SortedMatches(sorted) && multiset(sorted) == multiset(matches)
  {
    hide MatchLe;
    sorted := [];
    for i := 0 to |matches|
      invariant SortedMatches(sorted) && multiset(sorted) == multiset(matches[..i])
    {
      var m := matches[i];
      var j := 0;
      while j < |sorted| && !MatchLe(m, sorted[j])
        invariant 0 <= j <= |sorted|
        invariant forall k :: 0 <= k < j ==> !MatchLe(m, sorted[k])
      {
        j := j + 1;
      }
      InsertedStaysSorted(sorted, m, j);
      assert matches[..i + 1] == matches[..i] + [m];
      assert sorted == sorted[..j] + sorted[j..];
      sorted := sorted[..j] + [m] + sorted[j..];
    }
    assert matches[..|matches|] == matches;
  }

  lemma InsertedStaysSorted(sorted: seq<ForbiddenMatch>, m: ForbiddenMatch, j: nat)
    requires SortedMatches(sorted) && j <= |sorted|
    requires forall k :: 0 <= k < j ==> !MatchLe(m, sorted[k])
    requires j < |sorted| ==> MatchLe(m, sorted[j])
    ensures SortedMatches(sorted[..j] + [m] + sorted[j..])
  {
    hide MatchLe;
    forall k | 0 <= k < j ensures MatchLe(sorted[k], m) {
      MatchLeTotal(m, sorted[k]);
    }
    forall k | j <= k < |sorted| ensures MatchLe(m, sorted[k]) {
      if k > j {
        MatchLeTransitive(m, sorted[j], sorted[k]);
      }
    }
    var r := sorted[..j] + [m] + sorted[j..];
    forall p, q | 0 <= p < q < |r| ensures MatchLe(r[p], r[q]) {
      var a := if p < j then sorted[p] else if p == j then m else sorted[p - 1];
      var b := if q < j then sorted[q] else if q == j then m else sorted[q - 1];
      assert r[p] == a && r[q] == b;
    }
  }

  /** What the deduplicated list is, whatever the matches' texts. */
  ghost predicate Deduplicated(matches: seq<ForbiddenMatch>, out: seq<ForbiddenMatch>)
  {
    SortedMatches(out) && TextsDistinct(out) &&
    (forall m :: m in out ==> m in matches) &&
    (forall m :: m in matches ==> Represented(m, out))
  }

  ghost predicate Represented(m: ForbiddenMatch, out: seq<ForbiddenMatch>)
  {
    exists m' :: m' in out && JoinedText(m') == JoinedText(m)
  }

  ghost predicate TextsDistinct(ms: seq<ForbiddenMatch>)
  {
    forall i, j :: 0 <= i < j < |ms| ==> JoinedText(ms[i]) != JoinedText(ms[j])
  }

  method DedupeForbiddenMatches(matches: seq<ForbiddenMatch>) returns (out: seq<ForbiddenMatch>)
    ensures Deduplicated(matches, out)
    ensures out == [] <==> matches == []
  {
    hide JoinedText, SortedMatches, TextsDistinct;
    assert TextsDistinct([]) by { NoTexts(); }
    var seen: set<string> := {};
    var kept: seq<ForbiddenMatch> := [];
    for i := 0 to |matches|
      invariant forall m :: m in kept ==> m in matches
      invariant forall m :: m in matches[..i] ==> JoinedText(m) in seen
      invariant forall t :: t in seen ==> exists m :: m in kept && JoinedText(m) == t
      invariant forall m :: m in kept ==> JoinedText(m) in seen
      invariant TextsDistinct(kept)
    {
      var key := JoinedText(matches[i]);
      assert matches[..i + 1] == matches[..i] + [matches[i]];
      if key !in seen {
        OneMoreText(kept, matches[i]);
        ghost var before := kept;
        seen := seen + {key};
        kept := kept + [matches[i]];
        assert forall m :: m in before ==> m in kept;
        assert matches[i] in kept;
      }
    }
    assert matches[..|matches|] == matches;
    out := SortForbiddenMatches(kept);
    SameTextsAfterSort(kept, out);
    assert forall m :: m in out <==> m in multiset(out);
    assert forall m :: m in kept <==> m in multiset(kept);
    if matches != [] {
      assert matches[0] in matches;
    }
    if out != [] {
      assert out[0] in out;
    }
  }

  lemma NoTexts()
    ensures TextsDistinct([])
  {
  }

  lemma OneMoreText(kept: seq<ForbiddenMatch>, m: ForbiddenMatch)
    requires TextsDistinct(kept) && forall x :: x in kept ==> JoinedText(x) != JoinedText(m)
    ensures TextsDistinct(kept + [m])
  {
    hide JoinedText;
  }

  lemma SameTextsAfterSort(kept: seq<ForbiddenMatch>, out: seq<ForbiddenMatch>)
    requires multiset(kept) == multiset(out)
    requires TextsDistinct(kept)
    ensures TextsDistinct(out)
  {
    hide JoinedText;
    forall a, b | 0 <= a < b < |out| ensures JoinedText(out[a]) != JoinedText(out[b]) {
      assert out[a] in multiset(kept) && out[b] in multiset(kept);
      var x :| 0 <= x < |kept| && kept[x] == out[a];
      var y :| 0 <= y < |kept| && kept[y] == out[b];
      OnceEach(kept, x);
      TwiceIf(out, a, b);
    }
  }

  lemma OnceEach(kept: seq<ForbiddenMatch>, x: nat)
    requires x < |kept| && TextsDistinct(kept)
    ensures multiset(kept)[kept[x]] == 1
  {
    hide JoinedText;
    assert kept == kept[..x] + [kept[x]] + kept[x + 1..];
    assert kept[x] !in kept[..x] && kept[x] !in kept[x + 1..];
  }

  /** Every distinct match survives exactly when no two distinct ones share their joined text. */
  lemma DedupeKeepsEverythingIff(matches: seq<ForbiddenMatch>, out: seq<ForbiddenMatch>)
    requires Deduplicated(matches, out)
    ensures (forall m :: m in matches ==> m in out) <==>
            forall a, b :: a in matches && b in matches && JoinedText(a) == JoinedText(b) ==> a == b
  {
    hide JoinedText;
    if forall m :: m in matches ==> m in out {
      forall a, b | a in matches && b in matches && JoinedText(a) == JoinedText(b) ensures a == b {
        var x :| 0 <= x < |out| && out[x] == a;
        var y :| 0 <= y < |out| && out[y] == b;
      }
    }
  }

  lemma DedupeKeepsEverythingUnlessAmbiguous(bars: Bars, matches: seq<ForbiddenMatch>, out: seq<ForbiddenMatch>)
    requires Deduplicated(matches, out) && !Ambiguous(bars) && forall m :: m in matches ==> Allows(bars, m)
    ensures forall m :: m in matches <==> m in out
  {
    hide JoinedText, Allows;
    forall m, n | m in matches && n in matches && JoinedText(m) == JoinedText(n) ensures m == n {
      JoinedTextInjective(bars, m, n);
    }
    DedupeKeepsEverythingIff(matches, out);
  }

  // ----- what a record must contain to offend -----

  predicate LogOffends(mx: Matcher, a: LogsAssertions, l: LogRecord)
  {
    AttributesOffend(mx, l.resource, a.forbiddenAttributes, a.forbiddenValuePatterns, a.caseInsensitive) ||
    AttributesOffend(mx, l.attributes, a.forbiddenAttributes, a.forbiddenValuePatterns, a.caseInsensitive) ||
    TextOffends(mx, l.body, a.forbiddenBodyPatterns, a.caseInsensitive)
  }

  predicate SpanOffends(mx: Matcher, a: TracesAssertions, s: Span)
  {
    AttributesOffend(mx, s.resource, a.forbiddenAttributes, a.forbiddenValuePatterns, a.caseInsensitive) ||
    AttributesOffend(mx, s.attributes, a.forbiddenAttributes, a.forbiddenValuePatterns, a.caseInsensitive) ||
    TextOffends(mx, s.name, a.forbiddenValuePatterns, a.caseInsensitive)
  }

  predicate LabelsOffend(mx: Matcher, a: MetricsAssertions, attrs: Attributes)
  {
    AttributesOffend(mx, attrs, a.forbiddenLabels, a.forbiddenLabelValuePatterns, a.caseInsensitive)
  }

  predicate MetricOffends(mx: Matcher, a: MetricsAssertions, m: Metric)
  {
    LabelsOffend(mx, a, m.resource) || exists dp :: dp in m.points && LabelsOffend(mx, a, dp.labels)
  }

  // ----- the finders -----

  lemma EffectiveMeansOffence(mx: Matcher, text: string, patterns: seq<string>, caseInsensitive: bool)
    ensures (exists p :: p in EffectiveAll(patterns, caseInsensitive) && mx.regex(p, text)) <==>
            TextOffends(mx, text, patterns, caseInsensitive)
  {
    hide Effective;
    var compiled := EffectiveAll(patterns, caseInsensitive);
    forall p | p in compiled && mx.regex(p, text) ensures TextOffends(mx, text, patterns, caseInsensitive) {
      var i :| 0 <= i < |compiled| && compiled[i] == p;
      assert patterns[i] in patterns;
    }
    forall p | p in patterns && mx.regex(Effective(p, caseInsensitive), text)
      ensures exists q :: q in compiled && mx.regex(q, text)
    {
      var i :| 0 <= i < |patterns| && patterns[i] == p;
      assert compiled[i] in compiled;
    }
  }

  /** Exactly the forbidden values under these keys are reported. */
  ghost predicate ValuesReported(mx: Matcher, matches: seq<ForbiddenMatch>, kind: Kind, index: nat, metric: string,
                                 attrs: Attributes, compiled: seq<string>, keys: seq<string>)
  {
    forall m :: m in matches <==> m.key in keys && ValueReport(mx, m, kind, index, metric, attrs, compiled)
  }

  method FindForbiddenValueMatches(mx: Matcher, kind: Kind, index: nat, metric: string, attrs: Attributes,
                                   compiled: seq<string>)
    returns (matches: seq<ForbiddenMatch>)
    ensures forall m :: m in matches <==> ValueReport(mx, m, kind, index, metric, attrs, compiled)
  {
    hide SortedSet, ValuesReported, ValueReport, StrictlySorted;
    var keys := SortedSet(attrs.Keys);
    SortedSetMembers(attrs.Keys);
    matches := [];
    NoValuesReported(mx, kind, index, metric, attrs, compiled);
    assert keys[..0] == [];
    for i := 0 to |keys|
      invariant ValuesReported(mx, matches, kind, index, metric, attrs, compiled, keys[..i])
    {
      assert keys[..i + 1] == keys[..i] + [keys[i]];
      assert keys[i] in keys;
      matches := AddValueMatches(mx, matches, kind, index, metric, attrs, compiled, keys[..i], keys[i]);
    }
    assert keys[..|keys|] == keys;
    AllValuesReported(mx, matches, kind, index, metric, attrs, compiled, keys);
  }

  method AddValueMatches(mx: Matcher, matches: seq<ForbiddenMatch>, kind: Kind, index: nat, metric: string,
                         attrs: Attributes, compiled: seq<string>, ghost keys: seq<string>, key: string)
    returns (matches': seq<ForbiddenMatch>)
    requires key in attrs && ValuesReported(mx, matches, kind, index, metric, attrs, compiled, keys)
    ensures ValuesReported(mx, matches', kind, index, metric, attrs, compiled, keys + [key])
  {
    hide TextReport, ValuesReported;
    var more := FindForbiddenStringMatches(mx, kind, key, index, metric, attrs[key], compiled);
    MoreValuesReported(mx, matches, more, kind, index, metric, attrs, compiled, keys, key);
    matches' := matches + more;
  }

  lemma NoValuesReported(mx: Matcher, kind: Kind, index: nat, metric: string, attrs: Attributes, compiled: seq<string>)
    ensures ValuesReported(mx, [], kind, index, metric, attrs, compiled, [])
  {
  }

  lemma MoreValuesReported(mx: Matcher, matches: seq<ForbiddenMatch>, more: seq<ForbiddenMatch>, kind: Kind,
                           index: nat, metric: string,
                           attrs: Attributes, compiled: seq<string>, keys: seq<string>, key: string)
    requires key in attrs && ValuesReported(mx, matches, kind, index, metric, attrs, compiled, keys)
    requires forall m :: m in more <==> TextReport(mx, m, kind, key, index, metric, attrs[key], compiled)
    ensures ValuesReported(mx, matches + more, kind, index, metric, attrs, compiled, keys + [key])
  {
    TextReportsKey(mx, kind, key, index, metric, attrs[key], compiled);
    hide TextReport;
  }

  lemma AllValuesReported(mx: Matcher, matches: seq<ForbiddenMatch>, kind: Kind, index: nat, metric: string,
                          attrs: Attributes, compiled: seq<string>, keys: seq<string>)
    requires ValuesReported(mx, matches, kind, index, metric, attrs, compiled, keys)
    requires forall k :: k in keys <==> k in attrs
    ensures forall m :: m in matches <==> ValueReport(mx, m, kind, index, metric, attrs, compiled)
  {
    hide TextReport;
  }

  lemma TextReportsKey(mx: Matcher, kind: Kind, key: string, index: nat, metric: string, text: string,
                       compiled: seq<string>)
    ensures forall m :: TextReport(mx, m, kind, key, index, metric, text, compiled) ==> m.key == key
  {
  }

  lemma KeyReportedIffOffends(mx: Matcher, kind: Kind, index: nat, metric: string, attrs: Attributes,
                              forbidden: seq<string>,
                              caseInsensitive: bool)
    ensures (exists m :: KeyReport(mx, m, kind, index, metric, attrs, forbidden, caseInsensitive)) <==>
            KeysOffend(mx, attrs, forbidden, caseInsensitive)
  {
    hide MatchKey;
    forall k, p | k in attrs && p in forbidden && MatchKey(mx, p, k, caseInsensitive)
      ensures exists m :: KeyReport(mx, m, kind, index, metric, attrs, forbidden, caseInsensitive)
    {
      assert KeyReport(mx, ForbiddenMatch(kind, k, p, 0, index, metric), kind, index, metric, attrs, forbidden,
                       caseInsensitive);
    }
  }

  lemma ValueReportedIffOffends(mx: Matcher, kind: Kind, index: nat, metric: string, attrs: Attributes,
                                patterns: seq<string>,
                                caseInsensitive: bool)
    ensures (exists m :: ValueReport(mx, m, kind, index, metric, attrs, EffectiveAll(patterns, caseInsensitive))) <==>
            ValuesOffend(mx, attrs, patterns, caseInsensitive)
  {
    hide TextOffends, EffectiveAll, Utf8Length;
    var compiled := EffectiveAll(patterns, caseInsensitive);
    forall m | ValueReport(mx, m, kind, index, metric, attrs, compiled)
      ensures ValuesOffend(mx, attrs, patterns, caseInsensitive)
    {
      EffectiveMeansOffence(mx, attrs[m.key], patterns, caseInsensitive);
    }
    forall k | k in attrs && TextOffends(mx, attrs[k], patterns, caseInsensitive)
      ensures exists m :: ValueReport(mx, m, kind, index, metric, attrs, compiled)
    {
      EffectiveMeansOffence(mx, attrs[k], patterns, caseInsensitive);
      var p :| p in compiled && mx.regex(p, attrs[k]);
      assert ValueReport(mx, ForbiddenMatch(kind, k, p, Utf8Length(attrs[k]), index, metric), kind, index, metric,
                         attrs, compiled);
    }
  }

  /** Something is reported about these attributes exactly when they offend. */
  lemma DataReportedIffOffends(mx: Matcher, keyKind: Kind, valueKind: Kind, index: nat, metric: string,
                               attrs: Attributes, forbidden: seq<string>, patterns: seq<string>, caseInsensitive: bool)
    ensures (exists m :: DataReport(mx, m, keyKind, valueKind, index, metric, attrs, forbidden,
                                    EffectiveAll(patterns, caseInsensitive), caseInsensitive))
            <==> AttributesOffend(mx, attrs, forbidden, patterns, caseInsensitive)
  {
    hide KeysOffend, ValuesOffend, KeyReport, ValueReport, EffectiveAll;
    var compiled := EffectiveAll(patterns, caseInsensitive);
    KeyReportedIffOffends(mx, keyKind, index, metric, attrs, forbidden, caseInsensitive);
    ValueReportedIffOffends(mx, valueKind, index, metric, attrs, patterns, caseInsensitive);
    forall m | KeyReport(mx, m, keyKind, index, metric, attrs, forbidden, caseInsensitive) ||
               ValueReport(mx, m, valueKind, index, metric, attrs, compiled)
      ensures DataReport(mx, m, keyKind, valueKind, index, metric, attrs, forbidden, compiled, caseInsensitive)
    {
    }
  }

  lemma TextReportedIffOffends(mx: Matcher, kind: Kind, index: nat, text: string, patterns: seq<string>,
                               caseInsensitive: bool)
    ensures (exists m :: TextReport(mx, m, kind, "", index, "", text, EffectiveAll(patterns, caseInsensitive))) <==>
            TextOffends(mx, text, patterns, caseInsensitive)
  {
    hide TextOffends, EffectiveAll, Utf8Length;
    var compiled := EffectiveAll(patterns, caseInsensitive);
    EffectiveMeansOffence(mx, text, patterns, caseInsensitive);
    forall p | p in compiled && mx.regex(p, text)
      ensures exists m :: TextReport(mx, m, kind, "", index, "", text, compiled)
    {
      assert TextReport(mx, ForbiddenMatch(kind, "", p, Utf8Length(text), index, ""), kind, "", index, "", text,
                        compiled);
    }
  }

  method FindForbiddenAttributeData(mx: Matcher, keyKind: Kind, valueKind: Kind, index: nat, metric: string,
                                    attrs: Attributes,
                                    forbidden: seq<string>, compiled: seq<string>, caseInsensitive: bool)
    returns (matches: seq<ForbiddenMatch>)
    ensures forall m :: m in matches <==> DataReport(mx, m, keyKind, valueKind, index, metric, attrs, forbidden,
                                                     compiled, caseInsensitive)
  {
    hide KeysOffend, KeyReport, ValueReport;
    var keys := FindForbiddenAttributeMatches(mx, keyKind, index, metric, attrs, forbidden, caseInsensitive);
    var values := FindForbiddenValueMatches(mx, valueKind, index, metric, attrs, compiled);
    matches := keys + values;
  }

  /** What record i contributes. */
  predicate LogReport(mx: Matcher, a: LogsAssertions, l: LogRecord, i: nat, m: ForbiddenMatch)
  {
    var compiled := EffectiveAll(a.forbiddenValuePatterns, a.caseInsensitive);
    DataReport(mx, m, ResourceKey, ResourceValue, i, "", l.resource, a.forbiddenAttributes, compiled,
               a.caseInsensitive) ||
    DataReport(mx, m, AttributeKey, AttributeValue, i, "", l.attributes, a.forbiddenAttributes, compiled,
               a.caseInsensitive) ||
    TextReport(mx, m, Body, "", i, "", l.body, EffectiveAll(a.forbiddenBodyPatterns, a.caseInsensitive))
  }

  predicate SpanReport(mx: Matcher, a: TracesAssertions, s: Span, i: nat, m: ForbiddenMatch)
  {
    var compiled := EffectiveAll(a.forbiddenValuePatterns, a.caseInsensitive);
    DataReport(mx, m, ResourceKey, ResourceValue, i, "", s.resource, a.forbiddenAttributes, compiled,
               a.caseInsensitive) ||
    DataReport(mx, m, AttributeKey, AttributeValue, i, "", s.attributes, a.forbiddenAttributes, compiled,
               a.caseInsensitive) ||
    TextReport(mx, m, SpanName, "", i, "", s.name, compiled)
  }

  predicate PointReport(mx: Matcher, a: MetricsAssertions, r: Metric, i: nat, m: ForbiddenMatch)
    requires i < |r.points|
  {
    DataReport(mx, m, LabelKey, LabelValue, i, r.name, r.points[i].labels, a.forbiddenLabels,
               EffectiveAll(a.forbiddenLabelValuePatterns, a.caseInsensitive), a.caseInsensitive)
  }

  predicate ResourceReport(mx: Matcher, a: MetricsAssertions, r: Metric, mi: nat, m: ForbiddenMatch)
  {
    DataReport(mx, m, ResourceKey, ResourceValue, mi, r.name, r.resource, a.forbiddenLabels,
               EffectiveAll(a.forbiddenLabelValuePatterns, a.caseInsensitive), a.caseInsensitive)
  }

  /** Matches in labels carry the datapoint's index, matches in the resource the metric's. */
  predicate MetricReport(mx: Matcher, a: MetricsAssertions, r: Metric, mi: nat, m: ForbiddenMatch)
  {
    ResourceReport(mx, a, r, mi, m) || exists i :: 0 <= i < |r.points| && PointReport(mx, a, r, i, m)
  }

  ghost predicate LogsReport(mx: Matcher, a: LogsAssertions, logs: seq<LogRecord>, m: ForbiddenMatch)
  {
    exists i :: 0 <= i < |logs| && LogReport(mx, a, logs[i], i, m)
  }

  ghost predicate SpansReport(mx: Matcher, a: TracesAssertions, spans: seq<Span>, m: ForbiddenMatch)
  {
    exists i :: 0 <= i < |spans| && SpanReport(mx, a, spans[i], i, m)
  }

  ghost predicate MetricsReport(mx: Matcher, a: MetricsAssertions, metrics: seq<Metric>, m: ForbiddenMatch)
  {
    exists i :: 0 <= i < |metrics| && MetricReport(mx, a, metrics[i], i, m)
  }

  // ----- distinct findings that look alike -----

  /** Two findings of which deduplication drops one. */
  predicate Confused(m: ForbiddenMatch, n: ForbiddenMatch)
  {
    JoinedText(m) == JoinedText(n) && m != n
  }

  lemma KeyPatternText(k: string, p: string, q: string, m: ForbiddenMatch)
    requires m.key == k && m.pattern == p + "|" + q
    ensures JoinedText(m) == JoinedText(m.(key := k + "|" + p, pattern := q))
  {
    hide KindText, Decimal;
    var n := m.(key := k + "|" + p, pattern := q);
    InTwoParts(m);
    InTwoParts(n);
    assert Front(m) == Front(n);
  }

  lemma PatternNameText(p: string, x: string, y: string, m: ForbiddenMatch)
    requires m.pattern == p + "|" + Decimal(m.index) + "|" + x && m.metric == y
    ensures JoinedText(m) == JoinedText(m.(pattern := p, metric := x + "|" + Decimal(m.index) + "|" + y))
  {
    hide KindText, Decimal;
    var n := m.(pattern := p, metric := x + "|" + Decimal(m.index) + "|" + y);
    InTwoParts(m);
    InTwoParts(n);
    Shift(m.key + "|" + p, Decimal(m.index), x, y, Decimal(m.valueLength));
    assert Front(m) == m.key + "|" + p + "|" + Decimal(m.index) + "|" + x;
  }

  /** Everything between the two equal texts d may belong to either side. */
  lemma Shift(a: string, d: string, b: string, c: string, e: string)
    ensures (a + "|" + d + "|" + b) + ['|'] + (d + ['|'] + (c + ['|'] + e)) ==
            a + ['|'] + (d + ['|'] + ((b + "|" + d + "|" + c) + ['|'] + e))
  {
    var s := a + "|" + d + "|" + b;
    assert s == a + ['|'] + d + ['|'] + b;
    assert b + "|" + d + "|" + c == b + ['|'] + d + ['|'] + c;
  }

  lemma Regrouped(a: string, b: string, c: string, d: string)
    ensures a + "|" + b + "|" + c + "|" + d == a + "|" + (b + "|" + c) + "|" + d
  {
    assert a + "|" + b + "|" + c == a + "|" + (b + "|" + c);
  }

  lemma Paired(a: string, b: string, rest: string)
    ensures (a + "|" + b) + ['|'] + rest == a + ['|'] + (b + ['|'] + rest)
  {
    assert (a + "|" + b) == a + ['|'] + b;
  }

  lemma KeyNameText(k: string, u: string, y: string, m: ForbiddenMatch)
    requires m.key == k + "|" + m.pattern + "|" + Decimal(m.index) + "|" + u && m.metric == y
    ensures JoinedText(m) ==
            JoinedText(m.(key := k, metric := u + "|" + m.pattern + "|" + Decimal(m.index) + "|" + y))
  {
    hide KindText, Decimal, Front, JoinedText;
    var n := m.(key := k, metric := u + "|" + m.pattern + "|" + Decimal(m.index) + "|" + y);
    InTwoParts(m);
    InTwoParts(n);
    var d, l := m.pattern + "|" + Decimal(m.index), Decimal(m.valueLength);
    Regrouped(k, m.pattern, Decimal(m.index), u);
    Regrouped(u, m.pattern, Decimal(m.index), y);
    Shift(k, d, u, y, l);
    Paired(m.pattern, Decimal(m.index), y + ['|'] + l);
    Paired(m.pattern, Decimal(m.index), n.metric + ['|'] + l);
  }

  lemma MatchIsReported(mx: Matcher, kind: Kind, index: nat, metric: string, attrs: Attributes, patterns: seq<string>,
                key: string, pattern: string)
    requires key in attrs && pattern in patterns && mx.regex(pattern, attrs[key])
    ensures ValueReport(mx, ForbiddenMatch(kind, key, pattern, Utf8Length(attrs[key]), index, metric), kind, index,
                        metric, attrs, EffectiveAll(patterns, false))
  {
    hide Utf8Length;
    var compiled := EffectiveAll(patterns, false);
    var i :| 0 <= i < |patterns| && patterns[i] == pattern;
    assert compiled[i] == pattern;
  }

  function LogWith(attrs: Attributes): LogRecord
  {
    LogRecord(map[], attrs, "")
  }

  function SpanWith(attrs: Attributes): Span
  {
    Span("", "", "", "", map[], attrs)
  }

  function MetricWith(name: string, attrs: Attributes): Metric
  {
    Metric(name, map[], [Datapoint(attrs)])
  }

  function ForbidInLogs(patterns: seq<string>): LogsAssertions
  {
    LogsAssertions([], patterns, [], false, [])
  }

  function ForbidInSpans(patterns: seq<string>): TracesAssertions
  {
    TracesAssertions([], [], patterns, false, [])
  }

  function ForbidInLabels(patterns: seq<string>): MetricsAssertions
  {
    MetricsAssertions([], patterns, false, 0, [])
  }

  lemma ValueReported(mx: Matcher, attrs: Attributes, patterns: seq<string>, key: string, pattern: string)
    requires key in attrs && pattern in patterns && mx.regex(pattern, attrs[key])
    ensures var m := ForbiddenMatch(AttributeValue, key, pattern, Utf8Length(attrs[key]), 0, "");
            LogsReport(mx, ForbidInLogs(patterns), [LogWith(attrs)], m) &&
            SpansReport(mx, ForbidInSpans(patterns), [SpanWith(attrs)], m)
  {
    hide Utf8Length, EffectiveAll, ValueReport;
    var m := ForbiddenMatch(AttributeValue, key, pattern, Utf8Length(attrs[key]), 0, "");
    MatchIsReported(mx, AttributeValue, 0, "", attrs, patterns, key, pattern);
    assert LogReport(mx, ForbidInLogs(patterns), [LogWith(attrs)][0], 0, m);
    assert SpanReport(mx, ForbidInSpans(patterns), [SpanWith(attrs)][0], 0, m);
  }

  lemma LabelReported(mx: Matcher, metrics: seq<Metric>, i: nat, attrs: Attributes, patterns: seq<string>, key: string,
                      pattern: string)
    requires i < |metrics| && metrics[i].points == [Datapoint(attrs)]
    requires key in attrs && pattern in patterns && mx.regex(pattern, attrs[key])
    ensures MetricsReport(mx, ForbidInLabels(patterns), metrics,
                          ForbiddenMatch(LabelValue, key, pattern, Utf8Length(attrs[key]), 0, metrics[i].name))
  {
    hide Utf8Length, EffectiveAll, ValueReport;
    var m := ForbiddenMatch(LabelValue, key, pattern, Utf8Length(attrs[key]), 0, metrics[i].name);
    MatchIsReported(mx, LabelValue, 0, metrics[i].name, attrs, patterns, key, pattern);
    assert PointReport(mx, ForbidInLabels(patterns), metrics[i], 0, m);
    assert MetricReport(mx, ForbidInLabels(patterns), metrics[i], i, m);
  }

  /** Keys and patterns: key k under pattern p + "|" + q, and key k + "|" + p under pattern q, whenever the values are
      equal and both patterns match them. */
  lemma AlternativesConfuse(mx: Matcher, k: string, p: string, q: string, value: string, name: string)
    requires mx.regex(p + "|" + q, value) && mx.regex(q, value)
    ensures var attrs: Attributes, patterns := map[k := value, k + "|" + p := value], [p + "|" + q, q];
            var m := ForbiddenMatch(AttributeValue, k, p + "|" + q, Utf8Length(value), 0, "");
            var n := m.(key := k + "|" + p, pattern := q);
            LogsReport(mx, ForbidInLogs(patterns), [LogWith(attrs)], m) &&
            LogsReport(mx, ForbidInLogs(patterns), [LogWith(attrs)], n) &&
            SpansReport(mx, ForbidInSpans(patterns), [SpanWith(attrs)], m) &&
            SpansReport(mx, ForbidInSpans(patterns), [SpanWith(attrs)], n) && Confused(m, n) &&
            MetricsReport(mx, ForbidInLabels(patterns), [MetricWith(name, attrs)],
                          m.(kind := LabelValue, metric := name)) &&
            MetricsReport(mx, ForbidInLabels(patterns), [MetricWith(name, attrs)],
                          n.(kind := LabelValue, metric := name)) &&
            Confused(m.(kind := LabelValue, metric := name), n.(kind := LabelValue, metric := name))
  {
    hide Utf8Length, LogsReport, SpansReport, MetricsReport, JoinedText, ForbidInLogs, ForbidInSpans, ForbidInLabels;
    var attrs: Attributes, patterns := map[k := value, k + "|" + p := value], [p + "|" + q, q];
    assert patterns[0] == p + "|" + q && patterns[1] == q;
    assert |k + "|" + p| > |k|;
    ValueReported(mx, attrs, patterns, k, p + "|" + q);
    ValueReported(mx, attrs, patterns, k + "|" + p, q);
    LabelReported(mx, [MetricWith(name, attrs)], 0, attrs, patterns, k, p + "|" + q);
    LabelReported(mx, [MetricWith(name, attrs)], 0, attrs, patterns, k + "|" + p, q);
    var m := ForbiddenMatch(AttributeValue, k, p + "|" + q, Utf8Length(value), 0, "");
    KeyPatternText(k, p, q, m);
    KeyPatternText(k, p, q, m.(kind := LabelValue, metric := name));
  }

  /** Patterns and metric names: the same label under pattern p + "|0|" + x in metric y, and under pattern p in metric
      x + "|0|" + y. */
  lemma NamesConfusePatterns(mx: Matcher, k: string, p: string, x: string, y: string, value: string)
    requires mx.regex(p + "|0|" + x, value) && mx.regex(p, value)
    ensures var attrs: Attributes, patterns := map[k := value], [p + "|0|" + x, p];
            var metrics := [MetricWith(y, attrs), MetricWith(x + "|0|" + y, attrs)];
            var m := ForbiddenMatch(LabelValue, k, p + "|0|" + x, Utf8Length(value), 0, y);
            var n := m.(pattern := p, metric := x + "|0|" + y);
            MetricsReport(mx, ForbidInLabels(patterns), metrics, m) &&
            MetricsReport(mx, ForbidInLabels(patterns), metrics, n) && Confused(m, n)
  {
    hide Utf8Length, MetricsReport, JoinedText, ForbidInLabels;
    var attrs: Attributes, patterns := map[k := value], [p + "|0|" + x, p];
    var metrics := [MetricWith(y, attrs), MetricWith(x + "|0|" + y, attrs)];
    assert patterns[0] == p + "|0|" + x && patterns[1] == p;
    assert |p + "|0|" + x| > |p|;
    LabelReported(mx, metrics, 0, attrs, patterns, k, p + "|0|" + x);
    LabelReported(mx, metrics, 1, attrs, patterns, k, p);
    ZeroBetween(p, x);
    ZeroBetween(x, y);
    PatternNameText(p, x, y, ForbiddenMatch(LabelValue, k, p + "|0|" + x, Utf8Length(value), 0, y));
  }

  lemma ZeroBetween(a: string, b: string)
    ensures a + "|" + Decimal(0) + "|" + b == a + "|0|" + b
  {
    assert Decimal(0) == "0";
    assert "|" + "0" + "|" == "|0|";
    assert a + "|" + "0" + "|" + b == a + ("|" + "0" + "|") + b;
  }

  /** Keys and metric names: label k + "|" + p + "|0|" + u in metric y, and label k in metric u + "|" + p + "|0|" + y,
      both under pattern p. */
  lemma NamesConfuseKeys(mx: Matcher, k: string, p: string, u: string, y: string, value: string)
    requires mx.regex(p, value)
    ensures var key, name := k + "|" + p + "|0|" + u, u + "|" + p + "|0|" + y;
            var metrics := [MetricWith(y, map[key := value]), MetricWith(name, map[k := value])];
            var m := ForbiddenMatch(LabelValue, key, p, Utf8Length(value), 0, y);
            var n := m.(key := k, metric := name);
            MetricsReport(mx, ForbidInLabels([p]), metrics, m) &&
            MetricsReport(mx, ForbidInLabels([p]), metrics, n) && Confused(m, n)
  {
    hide Utf8Length, MetricsReport, JoinedText, ForbidInLabels;
    var key, name := k + "|" + p + "|0|" + u, u + "|" + p + "|0|" + y;
    var metrics := [MetricWith(y, map[key := value]), MetricWith(name, map[k := value])];
    assert [p][0] == p && |key| > |k|;
    LabelReported(mx, metrics, 0, map[key := value], [p], key, p);
    LabelReported(mx, metrics, 1, map[k := value], [p], k, p);
    ZeroBetween(k + "|" + p, u);
    ZeroBetween(u + "|" + p, y);
    KeyNameText(k, u, y, ForbiddenMatch(LabelValue, key, p, Utf8Length(value), 0, y));
  }

  ghost predicate LogsSeparate(mx: Matcher, b: Bars)
  {
    forall a, logs, m, n :: LogsReport(mx, a, logs, m) && LogsReport(mx, a, logs, n) && Allows(b, m) && Allows(b, n) ==>
      !Confused(m, n)
  }

  ghost predicate SpansSeparate(mx: Matcher, b: Bars)
  {
    forall a, spans, m, n ::
      SpansReport(mx, a, spans, m) && SpansReport(mx, a, spans, n) && Allows(b, m) && Allows(b, n) ==> !Confused(m, n)
  }

  ghost predicate MetricsSeparate(mx: Matcher, b: Bars)
  {
    forall a, metrics, m, n ::
      MetricsReport(mx, a, metrics, m) && MetricsReport(mx, a, metrics, n) && Allows(b, m) && Allows(b, n) ==>
        !Confused(m, n)
  }

  /** As in Go, where the empty pattern and alternatives of which one is empty match every text. */
  ghost predicate EmptyMatches(mx: Matcher)
  {
    forall text :: mx.regex("", text) && mx.regex("|", text) && mx.regex("|0|", text)
  }

  lemma LogsNameNoMetric(mx: Matcher, a: LogsAssertions, logs: seq<LogRecord>, m: ForbiddenMatch)
    requires LogsReport(mx, a, logs, m)
    ensures m.metric == ""
  {
    hide EffectiveAll, MatchKey, Utf8Length;
  }

  lemma SpansNameNoMetric(mx: Matcher, a: TracesAssertions, spans: seq<Span>, m: ForbiddenMatch)
    requires SpansReport(mx, a, spans, m)
    ensures m.metric == ""
  {
    hide EffectiveAll, MatchKey, Utf8Length;
  }

  /** What is reported about logs and spans is told apart by the joined text exactly when the separator cannot occur in
      both keys and patterns; what is reported about metrics, exactly when it can occur in at most one of keys, patterns
      and metric names. */
  lemma ReportsSeparateIff(mx: Matcher, b: Bars)
    requires EmptyMatches(mx)
    ensures LogsSeparate(mx, b) <==> !(b.keys && b.patterns)
    ensures SpansSeparate(mx, b) <==> !(b.keys && b.patterns)
    ensures MetricsSeparate(mx, b) <==> !Ambiguous(b)
  {
    hide LogsSeparate, SpansSeparate, MetricsSeparate, EmptyMatches, Allows;
    if b.keys && b.patterns {
      KeysAndPatternsCollide(mx, b);
    } else {
      OthersSeparate(mx, b);
    }
    if Ambiguous(b) {
      if !(b.keys && b.patterns) {
        NamesCollide(mx, b);
      }
    } else {
      MetricsAreSeparate(mx, b);
    }
  }

  lemma KeysAndPatternsCollide(mx: Matcher, b: Bars)
    requires EmptyMatches(mx) && b.keys && b.patterns
    ensures !LogsSeparate(mx, b) && !SpansSeparate(mx, b) && !MetricsSeparate(mx, b)
  {
    hide LogsReport, SpansReport, MetricsReport, Utf8Length, Confused, ForbidInLogs, ForbidInSpans, ForbidInLabels;
    assert "" + "|" + "" == "|";
    AlternativesConfuse(mx, "", "", "", "", "");
  }

  lemma NamesCollide(mx: Matcher, b: Bars)
    requires EmptyMatches(mx) && b.names && (b.keys || b.patterns)
    ensures !MetricsSeparate(mx, b)
  {
    hide MetricsReport, Utf8Length, Confused, ForbidInLabels;
    assert "" + "|0|" + "" == "|0|";
    if b.patterns {
      NamesConfusePatterns(mx, "", "", "", "", "");
    } else {
      NamesConfuseKeys(mx, "", "", "", "", "");
    }
  }

  lemma OthersSeparate(mx: Matcher, b: Bars)
    requires !(b.keys && b.patterns)
    ensures LogsSeparate(mx, b) && SpansSeparate(mx, b)
  {
    hide LogsReport, SpansReport, JoinedText;
    var c := b.(names := false);
    forall a, logs, m, n | LogsReport(mx, a, logs, m) && LogsReport(mx, a, logs, n) && Allows(b, m) && Allows(b, n)
      ensures !Confused(m, n)
    {
      LogsNameNoMetric(mx, a, logs, m);
      LogsNameNoMetric(mx, a, logs, n);
      NotConfused(c, m, n);
    }
    forall a, spans, m, n |
      SpansReport(mx, a, spans, m) && SpansReport(mx, a, spans, n) && Allows(b, m) && Allows(b, n)
      ensures !Confused(m, n)
    {
      SpansNameNoMetric(mx, a, spans, m);
      SpansNameNoMetric(mx, a, spans, n);
      NotConfused(c, m, n);
    }
  }

  lemma MetricsAreSeparate(mx: Matcher, b: Bars)
    requires !Ambiguous(b)
    ensures MetricsSeparate(mx, b)
  {
    hide MetricsReport, Confused, Allows, Ambiguous;
    forall a, metrics, m, n |
      MetricsReport(mx, a, metrics, m) && MetricsReport(mx, a, metrics, n) && Allows(b, m) && Allows(b, n)
      ensures !Confused(m, n)
    {
      NotConfused(b, m, n);
    }
  }

  lemma NotConfused(b: Bars, m: ForbiddenMatch, n: ForbiddenMatch)
    requires !Ambiguous(b) && Allows(b, m) && Allows(b, n)
    ensures !Confused(m, n)
  {
    hide JoinedText;
    if JoinedText(m) == JoinedText(n) {
      JoinedTextInjective(b, m, n);
    }
  }

  lemma LogReportedIffOffends(mx: Matcher, a: LogsAssertions, l: LogRecord, i: nat)
    ensures (exists m :: LogReport(mx, a, l, i, m)) <==> LogOffends(mx, a, l)
  {
    hide AttributesOffend, TextOffends, DataReport, TextReport, EffectiveAll;
    DataReportedIffOffends(mx, ResourceKey, ResourceValue, i, "", l.resource, a.forbiddenAttributes,
                           a.forbiddenValuePatterns, a.caseInsensitive);
    DataReportedIffOffends(mx, AttributeKey, AttributeValue, i, "", l.attributes, a.forbiddenAttributes,
                           a.forbiddenValuePatterns, a.caseInsensitive);
    TextReportedIffOffends(mx, Body, i, l.body, a.forbiddenBodyPatterns, a.caseInsensitive);
    var compiled := EffectiveAll(a.forbiddenValuePatterns, a.caseInsensitive);
    forall m | DataReport(mx, m, ResourceKey, ResourceValue, i, "", l.resource, a.forbiddenAttributes, compiled,
                          a.caseInsensitive) ||
               DataReport(mx, m, AttributeKey, AttributeValue, i, "", l.attributes, a.forbiddenAttributes, compiled,
                          a.caseInsensitive) ||
               TextReport(mx, m, Body, "", i, "", l.body, EffectiveAll(a.forbiddenBodyPatterns, a.caseInsensitive))
      ensures exists m' :: LogReport(mx, a, l, i, m')
    {
      assert LogReport(mx, a, l, i, m);
    }
  }

  lemma SpanReportedIffOffends(mx: Matcher, a: TracesAssertions, s: Span, i: nat)
    ensures (exists m :: SpanReport(mx, a, s, i, m)) <==> SpanOffends(mx, a, s)
  {
    hide AttributesOffend, TextOffends, DataReport, TextReport, EffectiveAll;
    DataReportedIffOffends(mx, ResourceKey, ResourceValue, i, "", s.resource, a.forbiddenAttributes,
                           a.forbiddenValuePatterns, a.caseInsensitive);
    DataReportedIffOffends(mx, AttributeKey, AttributeValue, i, "", s.attributes, a.forbiddenAttributes,
                           a.forbiddenValuePatterns, a.caseInsensitive);
    TextReportedIffOffends(mx, SpanName, i, s.name, a.forbiddenValuePatterns, a.caseInsensitive);
    var compiled := EffectiveAll(a.forbiddenValuePatterns, a.caseInsensitive);
    forall m | DataReport(mx, m, ResourceKey, ResourceValue, i, "", s.resource, a.forbiddenAttributes, compiled,
                          a.caseInsensitive) ||
               DataReport(mx, m, AttributeKey, AttributeValue, i, "", s.attributes, a.forbiddenAttributes, compiled,
                          a.caseInsensitive) ||
               TextReport(mx, m, SpanName, "", i, "", s.name, compiled)
      ensures exists m' :: SpanReport(mx, a, s, i, m')
    {
      assert SpanReport(mx, a, s, i, m);
    }
  }

  lemma MetricReportedIffOffends(mx: Matcher, a: MetricsAssertions, r: Metric, mi: nat)
    ensures (exists m :: MetricReport(mx, a, r, mi, m)) <==> MetricOffends(mx, a, r)
  {
    hide AttributesOffend, DataReport, EffectiveAll;
    DataReportedIffOffends(mx, ResourceKey, ResourceValue, mi, r.name, r.resource, a.forbiddenLabels,
                           a.forbiddenLabelValuePatterns, a.caseInsensitive);
    forall i | 0 <= i < |r.points|
      ensures (exists m :: PointReport(mx, a, r, i, m)) <==> LabelsOffend(mx, a, r.points[i].labels)
    {
      PointReportedIffOffends(mx, a, r, i);
    }
    hide LabelsOffend, PointReport;
    forall m | ResourceReport(mx, a, r, mi, m) ensures MetricReport(mx, a, r, mi, m) {
    }
    forall i, m | 0 <= i < |r.points| && PointReport(mx, a, r, i, m) ensures MetricReport(mx, a, r, mi, m) {
    }
    ResourceReportedIffOffends(mx, a, r, mi);
    forall dp | dp in r.points && LabelsOffend(mx, a, dp.labels) ensures exists m :: MetricReport(mx, a, r, mi, m) {
      var i :| 0 <= i < |r.points| && r.points[i] == dp;
      var m :| PointReport(mx, a, r, i, m);
      assert MetricReport(mx, a, r, mi, m);
    }
  }

  lemma PointReportedIffOffends(mx: Matcher, a: MetricsAssertions, r: Metric, i: nat)
    requires i < |r.points|
    ensures (exists m :: PointReport(mx, a, r, i, m)) <==> LabelsOffend(mx, a, r.points[i].labels)
  {
    hide AttributesOffend, DataReport, EffectiveAll;
    var compiled := EffectiveAll(a.forbiddenLabelValuePatterns, a.caseInsensitive);
    DataReportedIffOffends(mx, LabelKey, LabelValue, i, r.name, r.points[i].labels, a.forbiddenLabels,
                           a.forbiddenLabelValuePatterns, a.caseInsensitive);
    forall m | DataReport(mx, m, LabelKey, LabelValue, i, r.name, r.points[i].labels, a.forbiddenLabels, compiled,
                          a.caseInsensitive)
      ensures exists m' :: PointReport(mx, a, r, i, m')
    {
      assert PointReport(mx, a, r, i, m);
    }
  }

  lemma ResourceReportedIffOffends(mx: Matcher, a: MetricsAssertions, r: Metric, mi: nat)
    ensures (exists m :: ResourceReport(mx, a, r, mi, m)) <==> LabelsOffend(mx, a, r.resource)
  {
    hide AttributesOffend, DataReport, EffectiveAll;
    var compiled := EffectiveAll(a.forbiddenLabelValuePatterns, a.caseInsensitive);
    DataReportedIffOffends(mx, ResourceKey, ResourceValue, mi, r.name, r.resource, a.forbiddenLabels,
                           a.forbiddenLabelValuePatterns, a.caseInsensitive);
    forall m | DataReport(mx, m, ResourceKey, ResourceValue, mi, r.name, r.resource, a.forbiddenLabels, compiled,
                          a.caseInsensitive)
      ensures exists m' :: ResourceReport(mx, a, r, mi, m')
    {
      assert ResourceReport(mx, a, r, mi, m);
    }
  }

  /** None stands for a pattern that does not compile. Otherwise every forbidden key, value and body is reported
      with its kind, place, pattern and length, or by a match with the same joined text, and nothing else is. */
  method FindForbiddenLogMatches(mx: Matcher, logs: seq<LogRecord>,
                                 a: LogsAssertions) returns (found: Option<seq<ForbiddenMatch>>)
    ensures found.Some? <==> AllCompile(mx, a.forbiddenValuePatterns, a.caseInsensitive) &&
                             AllCompile(mx, a.forbiddenBodyPatterns, a.caseInsensitive)
    ensures found.Some? ==> SortedMatches(found.value) && TextsDistinct(found.value)
    ensures found.Some? ==> forall m :: m in found.value ==> LogsReport(mx, a, logs, m)
    ensures found.Some? ==> forall m :: LogsReport(mx, a, logs, m) ==> Represented(m, found.value)
    ensures found.Some? ==> (found.value != [] <==> exists l :: l in logs && LogOffends(mx, a, l))
  {
    hide EffectiveAll, DataReport, TextReport, LogOffends, AllCompile, SortedMatches, TextsDistinct, Represented;
    var values := CompilePatterns(mx, a.forbiddenValuePatterns, a.caseInsensitive);
    if values.None? {
      return None;
    }
    var bodies := CompilePatterns(mx, a.forbiddenBodyPatterns, a.caseInsensitive);
    if bodies.None? {
      return None;
    }
    var matches: seq<ForbiddenMatch> := [];
    for i := 0 to |logs|
      invariant forall m :: m in matches <==> LogsReport(mx, a, logs[..i], m)
    {
      var l := logs[i];
      var inResource := FindForbiddenAttributeData(mx, ResourceKey, ResourceValue, i, "", l.resource,
                                                   a.forbiddenAttributes, values.value, a.caseInsensitive);
      var inAttributes := FindForbiddenAttributeData(mx, AttributeKey, AttributeValue, i, "", l.attributes,
                                                     a.forbiddenAttributes, values.value, a.caseInsensitive);
      var inBody := FindForbiddenStringMatches(mx, Body, "", i, "", l.body, bodies.value);
      MoreLogs(mx, a, logs, i);
      matches := matches + inResource + inAttributes + inBody;
    }
    assert logs[..|logs|] == logs;
    var out := DedupeForbiddenMatches(matches);
    SomeLogOffends(mx, a, logs, matches);
    return Some(out);
  }

  lemma MoreLogs(mx: Matcher, a: LogsAssertions, logs: seq<LogRecord>, i: nat)
    requires i < |logs|
    ensures forall m :: LogsReport(mx, a, logs[..i + 1], m) <==>
              LogsReport(mx, a, logs[..i], m) || LogReport(mx, a, logs[i], i, m)
  {
    hide LogReport;
    var before, after := logs[..i], logs[..i + 1];
    assert forall j :: 0 <= j < i ==> after[j] == before[j];
    forall m | LogsReport(mx, a, before, m) ensures LogsReport(mx, a, after, m) {
      var j :| 0 <= j < |before| && LogReport(mx, a, before[j], j, m);
      assert LogReport(mx, a, after[j], j, m);
    }
    assert after[i] == logs[i];
  }

  lemma SomeLogOffends(mx: Matcher, a: LogsAssertions, logs: seq<LogRecord>, matches: seq<ForbiddenMatch>)
    requires forall m :: m in matches <==> LogsReport(mx, a, logs, m)
    ensures matches != [] <==> exists l :: l in logs && LogOffends(mx, a, l)
  {
    hide LogReport, LogOffends;
    if matches != [] {
      assert matches[0] in matches;
      var i :| 0 <= i < |logs| && LogReport(mx, a, logs[i], i, matches[0]);
      LogReportedIffOffends(mx, a, logs[i], i);
      assert logs[i] in logs;
    }
    forall l | l in logs && LogOffends(mx, a, l) ensures matches != [] {
      var i :| 0 <= i < |logs| && logs[i] == l;
      LogReportedIffOffends(mx, a, l, i);
      var m :| LogReport(mx, a, l, i, m);
      assert LogsReport(mx, a, logs, m);
    }
  }

  method FindForbiddenSpanMatches(mx: Matcher, spans: seq<Span>,
                                  a: TracesAssertions) returns (found: Option<seq<ForbiddenMatch>>)
    ensures found.Some? <==> AllCompile(mx, a.forbiddenValuePatterns, a.caseInsensitive)
    ensures found.Some? ==> SortedMatches(found.value) && TextsDistinct(found.value)
    ensures found.Some? ==> forall m :: m in found.value ==> SpansReport(mx, a, spans, m)
    ensures found.Some? ==> forall m :: SpansReport(mx, a, spans, m) ==> Represented(m, found.value)
    ensures found.Some? ==> (found.value != [] <==> exists s :: s in spans && SpanOffends(mx, a, s))
  {
    hide EffectiveAll, DataReport, TextReport, SpanOffends, AllCompile, SortedMatches, TextsDistinct, Represented;
    var values := CompilePatterns(mx, a.forbiddenValuePatterns, a.caseInsensitive);
    if values.None? {
      return None;
    }
    var matches: seq<ForbiddenMatch> := [];
    for i := 0 to |spans|
      invariant forall m :: m in matches <==> SpansReport(mx, a, spans[..i], m)
    {
      var s := spans[i];
      var inResource := FindForbiddenAttributeData(mx, ResourceKey, ResourceValue, i, "", s.resource,
                                                   a.forbiddenAttributes, values.value, a.caseInsensitive);
      var inAttributes := FindForbiddenAttributeData(mx, AttributeKey, AttributeValue, i, "", s.attributes,
                                                     a.forbiddenAttributes, values.value, a.caseInsensitive);
      var inName := FindForbiddenStringMatches(mx, SpanName, "", i, "", s.name, values.value);
      MoreSpans(mx, a, spans, i);
      matches := matches + inResource + inAttributes + inName;
    }
    assert spans[..|spans|] == spans;
    var out := DedupeForbiddenMatches(matches);
    SomeSpanOffends(mx, a, spans, matches);
    return Some(out);
  }

  lemma MoreSpans(mx: Matcher, a: TracesAssertions, spans: seq<Span>, i: nat)
    requires i < |spans|
    ensures forall m :: SpansReport(mx, a, spans[..i + 1], m) <==>
              SpansReport(mx, a, spans[..i], m) || SpanReport(mx, a, spans[i], i, m)
  {
    hide SpanReport;
    var before, after := spans[..i], spans[..i + 1];
    assert forall j :: 0 <= j < i ==> after[j] == before[j];
    forall m | SpansReport(mx, a, before, m) ensures SpansReport(mx, a, after, m) {
      var j :| 0 <= j < |before| && SpanReport(mx, a, before[j], j, m);
      assert SpanReport(mx, a, after[j], j, m);
    }
    assert after[i] == spans[i];
  }

  lemma SomeSpanOffends(mx: Matcher, a: TracesAssertions, spans: seq<Span>, matches: seq<ForbiddenMatch>)
    requires forall m :: m in matches <==> SpansReport(mx, a, spans, m)
    ensures matches != [] <==> exists s :: s in spans && SpanOffends(mx, a, s)
  {
    hide SpanReport, SpanOffends;
    if matches != [] {
      assert matches[0] in matches;
      var i :| 0 <= i < |spans| && SpanReport(mx, a, spans[i], i, matches[0]);
      SpanReportedIffOffends(mx, a, spans[i], i);
      assert spans[i] in spans;
    }
    forall s | s in spans && SpanOffends(mx, a, s) ensures matches != [] {
      var i :| 0 <= i < |spans| && spans[i] == s;
      SpanReportedIffOffends(mx, a, s, i);
      var m :| SpanReport(mx, a, s, i, m);
      assert SpansReport(mx, a, spans, m);
    }
  }

  method FindForbiddenMetricMatches(mx: Matcher, metrics: seq<Metric>,
                                    a: MetricsAssertions) returns (found: Option<seq<ForbiddenMatch>>)
    ensures found.Some? <==> AllCompile(mx, a.forbiddenLabelValuePatterns, a.caseInsensitive)
    ensures found.Some? ==> SortedMatches(found.value) && TextsDistinct(found.value)
    ensures found.Some? ==> forall m :: m in found.value ==> MetricsReport(mx, a, metrics, m)
    ensures found.Some? ==> forall m :: MetricsReport(mx, a, metrics, m) ==> Represented(m, found.value)
    ensures found.Some? ==> (found.value != [] <==> exists m :: m in metrics && MetricOffends(mx, a, m))
  {
    hide EffectiveAll, DataReport, MetricOffends, AllCompile, SortedMatches, TextsDistinct, Represented;
    var values := CompilePatterns(mx, a.forbiddenLabelValuePatterns, a.caseInsensitive);
    if values.None? {
      return None;
    }
    var matches: seq<ForbiddenMatch> := [];
    for mi := 0 to |metrics|
      invariant forall m :: m in matches <==> MetricsReport(mx, a, metrics[..mi], m)
    {
      var more := FindInMetric(mx, metrics[mi], mi, a, values.value);
      MoreMetrics(mx, a, metrics, mi);
      matches := matches + more;
    }
    assert metrics[..|metrics|] == metrics;
    var out := DedupeForbiddenMatches(matches);
    SomeMetricOffends(mx, a, metrics, matches);
    return Some(out);
  }

  /** One metric's resource and datapoints. */
  method FindInMetric(mx: Matcher, r: Metric, mi: nat, a: MetricsAssertions,
                      compiled: seq<string>) returns (matches: seq<ForbiddenMatch>)
    requires compiled == EffectiveAll(a.forbiddenLabelValuePatterns, a.caseInsensitive)
    ensures forall m :: m in matches <==> MetricReport(mx, a, r, mi, m)
  {
    hide EffectiveAll, DataReport;
    matches := FindForbiddenAttributeData(mx, ResourceKey, ResourceValue, mi, r.name, r.resource, a.forbiddenLabels,
                                          compiled, a.caseInsensitive);
    for i := 0 to |r.points|
      invariant forall m :: m in matches <==>
                  ResourceReport(mx, a, r, mi, m) || exists j :: 0 <= j < i && PointReport(mx, a, r, j, m)
    {
      var inLabels := FindForbiddenAttributeData(mx, LabelKey, LabelValue, i, r.name, r.points[i].labels,
                                                 a.forbiddenLabels, compiled, a.caseInsensitive);
      assert forall m :: m in inLabels <==> PointReport(mx, a, r, i, m);
      matches := matches + inLabels;
    }
  }

  lemma MoreMetrics(mx: Matcher, a: MetricsAssertions, metrics: seq<Metric>, i: nat)
    requires i < |metrics|
    ensures forall m :: MetricsReport(mx, a, metrics[..i + 1], m) <==>
                        MetricsReport(mx, a, metrics[..i], m) || MetricReport(mx, a, metrics[i], i, m)
  {
    hide MetricReport;
    var before, after := metrics[..i], metrics[..i + 1];
    assert forall j :: 0 <= j < i ==> after[j] == before[j];
    forall m | MetricsReport(mx, a, before, m) ensures MetricsReport(mx, a, after, m) {
      var j :| 0 <= j < |before| && MetricReport(mx, a, before[j], j, m);
      assert MetricReport(mx, a, after[j], j, m);
    }
    assert after[i] == metrics[i];
  }

  lemma SomeMetricOffends(mx: Matcher, a: MetricsAssertions, metrics: seq<Metric>, matches: seq<ForbiddenMatch>)
    requires forall m :: m in matches <==> MetricsReport(mx, a, metrics, m)
    ensures matches != [] <==> exists m :: m in metrics && MetricOffends(mx, a, m)
  {
    hide MetricReport, MetricOffends;
    if matches != [] {
      assert matches[0] in matches;
      var i :| 0 <= i < |metrics| && MetricReport(mx, a, metrics[i], i, matches[0]);
      MetricReportedIffOffends(mx, a, metrics[i], i);
      assert metrics[i] in metrics;
    }
    forall r | r in metrics && MetricOffends(mx, a, r) ensures matches != [] {
      var i :| 0 <= i < |metrics| && metrics[i] == r;
      MetricReportedIffOffends(mx, a, r, i);
      var m :| MetricReport(mx, a, r, i, m);
      assert MetricsReport(mx, a, metrics, m);
    }
  }
}
