/** The JSON text encoding/json writes for strings and string-to-string maps (sections 4 and 7 of
    RFC 8259, object keys sorted), a decoder that recovers the value in front of any continuation,
    and the quote automaton that tells text inside strings from text outside them. */
module Json {
  import opened Strings

  type Attributes = map<string, string>

  const QUOTE := '"'
  const BACKSLASH := '\\'

  // ----- encoding -----

  function HexDigit(d: nat): char
    requires d < 16
  {
    if d < 10 then Digit(d) else (d + 87) as char
  }

  /** One character of a string: RFC 8259 escapes plus the HTML and line-separator escapes of json.Marshal. */
  function EscapeChar(c: char): string
  {
    if c == QUOTE || c == BACKSLASH then [BACKSLASH, c]
    else if c as int == 8 then "\\b"
    else if c as int == 12 then "\\f"
    else if c == '\n' then "\\n"
    else if c == '\r' then "\\r"
    else if c == '\t' then "\\t"
    else if c < ' ' || c == '<' || c == '>' || c == '&' then
      "\\u00" + [HexDigit(c as int / 16), HexDigit(c as int % 16)]
    else if c as int == 0x2028 then "\\u2028"
    else if c as int == 0x2029 then "\\u2029"
    else [c]
  }

  function Escape(s: string): string
  {
    if s == [] then [] else EscapeChar(s[0]) + Escape(s[1..])
  }

  function Text(s: string): string
  {
    [QUOTE] + Escape(s) + [QUOTE]
  }

  function Member(k: string, v: string): string
  {
    Text(k) + ":" + Text(v)
  }

  /** The members of an object, in the order of keys, up to and including the closing brace. */
  function Members(keys: seq<string>, m: Attributes): string
    requires forall k :: k in keys ==> k in m
  {
    if keys == [] then "}"
    else Member(keys[0], m[keys[0]]) + (if |keys| == 1 then "" else ",") + Members(keys[1..], m)
  }

  function Object(m: Attributes): string
  {
    "{" + Members(SortedSet(m.Keys), m)
  }

  // ----- decoding -----

  function HexValue(c: char): Option<nat>
  {
    if '0' <= c <= '9' then Some((c - '0') as nat)
    else if 'a' <= c <= 'f' then Some((c - 'a') as nat + 10)
    else None
  }

  function Scalar(a: nat, b: nat, c: nat, d: nat): Option<char>
  {
    var v := 4096 * a + 256 * b + 16 * c + d;
    if v < 0xD800 then Some(v as char) else None
  }

  /** Reads one possibly escaped character. */
  function ReadChar(t: string): (r: Option<(char, string)>)
    ensures r.Some? ==> |r.value.1| < |t|
  {
    if t == [] || t[0] == QUOTE then None
    else if t[0] != BACKSLASH then Some((t[0], t[1..]))
    else if |t| < 2 then None
    else match t[1]
      case 'b' => Some((8 as char, t[2..]))
      case 'f' => Some((12 as char, t[2..]))
      case 'n' => Some(('\n', t[2..]))
      case 'r' => Some(('\r', t[2..]))
      case 't' => Some(('\t', t[2..]))
      case 'u' =>
        if |t| < 6 then None else
        var a, b, c, d := HexValue(t[2]), HexValue(t[3]), HexValue(t[4]), HexValue(t[5]);
        if a.None? || b.None? || c.None? || d.None? then None else
        var v := Scalar(a.value, b.value, c.value, d.value);
        if v.None? then None else Some((v.value, t[6..]))
      case _ => Some((t[1], t[2..]))
  }

  /** Reads the characters of a string through its closing quote. */
  function ReadChars(t: string): (r: Option<(string, string)>)
    ensures r.Some? ==> |r.value.1| < |t|
    decreases |t|
  {
    if t == [] then None
    else if t[0] == QUOTE then Some(([], t[1..]))
    else
      var c := ReadChar(t);
      if c.None? then None else
      var s := ReadChars(c.value.1);
      if s.None? then None else Some(([c.value.0] + s.value.0, s.value.1))
  }

  function ReadText(t: string): (r: Option<(string, string)>)
    ensures r.Some? ==> |r.value.1| < |t|
  {
    if t != [] && t[0] == QUOTE then ReadChars(t[1..]) else None
  }

  function ReadMember(t: string): (r: Option<((string, string), string)>)
    ensures r.Some? ==> |r.value.1| < |t|
  {
    var k := ReadText(t);
    if k.None? || k.value.1 == [] || k.value.1[0] != ':' then None else
    var v := ReadText(k.value.1[1..]);
    if v.None? then None else Some(((k.value.0, v.value.0), v.value.1))
  }

  function SkipComma(t: string): string
  {
    if t != [] && t[0] == ',' then t[1..] else t
  }

  function ReadMembers(t: string): (r: Option<(Attributes, string)>)
    decreases |t|
  {
    if t == [] then None
    else if t[0] == '}' then Some((map[], t[1..]))
    else
      var kv := ReadMember(t);
      if kv.None? then None else
      var m := ReadMembers(SkipComma(kv.value.1));
      if m.None? then None else Some((m.value.0[kv.value.0.0 := kv.value.0.1], m.value.1))
  }

  function ReadObject(t: string): Option<(Attributes, string)>
  {
    if t != [] && t[0] == '{' then ReadMembers(t[1..]) else None
  }

  // ----- round trips -----

  lemma CharRoundTrip(c: char, rest: string)
    ensures ReadChar(EscapeChar(c) + rest) == Some((c, rest))
    ensures EscapeChar(c)[0] != QUOTE
  {
    hide HexDigit, HexValue, Scalar;
    var t := EscapeChar(c) + rest;
    assert t[|EscapeChar(c)|..] == rest;
    if |EscapeChar(c)| == 6 {
      HexCharRoundTrip(c, rest);
    }
  }

  lemma HexCharRoundTrip(c: char, rest: string)
    requires |EscapeChar(c)| == 6
    ensures ReadChar(EscapeChar(c) + rest) == Some((c, rest))
  {
    hide HexDigit, HexValue;
    var t := EscapeChar(c) + rest;
    assert t[6..] == rest && t[..6] == EscapeChar(c);
    HexValues();
    if c as int < 0x80 {
      HexRoundTrip(c as int / 16);
      HexRoundTrip(c as int % 16);
    }
  }

  lemma HexValues()
    ensures HexValue('0') == Some(0) && HexValue('2') == Some(2) && HexValue('8') == Some(8) && HexValue('9') == Some(9)
  {
  }

  lemma HexRoundTrip(d: nat)
    requires d < 16
    ensures HexValue(HexDigit(d)) == Some(d)
  {
  }

  lemma CharsStep(c: char, s: string, tail: string, rest: string)
    requires ReadChars(tail) == Some((s, rest))
    ensures ReadChars(EscapeChar(c) + tail) == Some(([c] + s, rest))
  {
    hide EscapeChar, ReadChar;
    CharRoundTrip(c, tail);
  }

  lemma {:induction false} CharsRoundTrip(s: string, rest: string)
    ensures ReadChars(Escape(s) + [QUOTE] + rest) == Some((s, rest))
  {
    hide EscapeChar, ReadChar;
    var t := Escape(s) + [QUOTE] + rest;
    if s == [] {
      assert t[1..] == rest;
    } else {
      var tail := Escape(s[1..]) + [QUOTE] + rest;
      assert t == EscapeChar(s[0]) + tail;
      CharsRoundTrip(s[1..], rest);
      CharsStep(s[0], s[1..], tail, rest);
      assert s == [s[0]] + s[1..];
    }
  }

  lemma TextRoundTrip(s: string, rest: string)
    ensures ReadText(Text(s) + rest) == Some((s, rest))
  {
    var t := Text(s) + rest;
    assert t[1..] == Escape(s) + [QUOTE] + rest;
    CharsRoundTrip(s, rest);
  }

  lemma Reassociate(a: string, b: string, c: string, d: string)
    ensures a + b + c + d == a + (b + (c + d))
  {
  }

  lemma MemberRoundTrip(k: string, v: string, rest: string)
    ensures ReadMember(Member(k, v) + rest) == Some(((k, v), rest))
    ensures Member(k, v)[0] == QUOTE
  {
    var afterKey := ":" + (Text(v) + rest);
    Reassociate(Text(k), ":", Text(v), rest);
    TextRoundTrip(k, afterKey);
    assert afterKey[1..] == Text(v) + rest;
    TextRoundTrip(v, rest);
  }

  lemma MembersStep(k: string, v: string, tail: string, rest: string)
    requires SkipComma(rest) == tail && ReadMembers(tail).Some?
    ensures var m := ReadMembers(tail).value;
            ReadMembers(Member(k, v) + rest) == Some((m.0[k := v], m.1))
  {
    MemberRoundTrip(k, v, rest);
  }

  lemma {:induction false} MembersRoundTrip(keys: seq<string>, m: Attributes, rest: string)
    requires forall k :: k in keys ==> k in m
    ensures ReadMembers(Members(keys, m) + rest) == Some((map k | k in keys :: m[k], rest))
  {
    hide Member, SkipComma, ReadMember;
    if keys == [] {
      assert (Members(keys, m) + rest)[1..] == rest;
    } else {
      var k, v := keys[0], m[keys[0]];
      var comma := if |keys| == 1 then "" else ",";
      var tail := Members(keys[1..], m) + rest;
      Reassociate(Member(k, v), comma, Members(keys[1..], m), rest);
      SkipsToTail(comma, tail, keys, m, rest);
      MembersRoundTrip(keys[1..], m, rest);
      MembersStep(k, v, tail, comma + tail);
      assert keys == [k] + keys[1..];
      assert (map x | x in keys :: m[x]) == (map x | x in keys[1..] :: m[x])[k := v];
    }
  }

  lemma SkipsToTail(comma: string, tail: string, keys: seq<string>, m: Attributes, rest: string)
    requires keys != [] && (forall k :: k in keys ==> k in m)
    requires comma == (if |keys| == 1 then "" else ",") && tail == Members(keys[1..], m) + rest
    ensures SkipComma(comma + tail) == tail
  {
    if |keys| == 1 {
      assert comma + tail == tail && tail[0] == '}';
    }
  }

  /** Decoding an encoded map in front of any text gives back the map and that text. */
  lemma ObjectRoundTrip(m: Attributes, rest: string)
    ensures ReadObject(Object(m) + rest) == Some((m, rest))
  {
    hide Members, ReadMembers, SortedSet, StrictlySorted;
    var t := Object(m) + rest;
    var keys := SortedSet(m.Keys);
    SortedSetMembers(m.Keys);
    assert t[1..] == Members(keys, m) + rest;
    MembersRoundTrip(keys, m, rest);
    assert (map k | k in keys :: m[k]) == m;
  }

  // ----- what the encoding looks like -----

  /** Characters that never occur in JSON texts of strings: controls, HTML markup and the two line separators. */
  predicate Unsafe(c: char)
  {
    c < ' ' || c == '<' || c == '>' || c == '&' || c as int == 0x2028 || c as int == 0x2029
  }

  lemma HexDigitIsPlain(d: nat)
    requires d < 16
    ensures !Unsafe(HexDigit(d)) && HexDigit(d) != QUOTE && HexDigit(d) != BACKSLASH
  {
  }

  /** One character stays itself, two- or six-character escapes replace the others, and nothing unsafe is left. */
  lemma EscapedCharacter(c: char)
    ensures |EscapeChar(c)| ==
            if c in "\"\\\n\r\t" || c as int == 8 || c as int == 12 then 2 else if Unsafe(c) then 6 else 1
    ensures |EscapeChar(c)| == 1 ==> EscapeChar(c) == [c]
    ensures |EscapeChar(c)| == 6 ==> EscapeChar(c)[..2] == "\\u"
    ensures forall e :: e in EscapeChar(c) ==> !Unsafe(e)
  {
    if 0 <= c as int < 0x80 {
      HexDigitIsPlain(c as int / 16);
      HexDigitIsPlain(c as int % 16);
    }
    hide HexDigit;
  }

  lemma {:induction false} TextIsSafe(s: string)
    ensures forall e :: e in Escape(s) ==> !Unsafe(e)
    ensures forall e :: e in Text(s) ==> !Unsafe(e)
  {
    hide EscapeChar, Unsafe;
    if s != [] {
      EscapedCharacter(s[0]);
      TextIsSafe(s[1..]);
    }
    assert !Unsafe(QUOTE) by { QuoteIsSafe(); }
  }

  lemma QuoteIsSafe()
    ensures !Unsafe(QUOTE)
  {
  }

  lemma {:induction false} PlainStaysPlain(s: string)
    requires forall c :: c in s ==> !Unsafe(c) && c != QUOTE && c != BACKSLASH
    ensures Text(s) == [QUOTE] + s + [QUOTE]
  {
    if s != [] {
      EscapedCharacter(s[0]);
      assert s[0] in s && s == [s[0]] + s[1..];
      assert forall c :: c in s[1..] ==> c in s;
      PlainStaysPlain(s[1..]);
      assert Text(s[1..])[1..|Text(s[1..])| - 1] == s[1..];
      assert Text(s[1..])[1..|Text(s[1..])| - 1] == Escape(s[1..]);
    }
  }

  /** The least key comes first, and then the others in the same way. */
  lemma ObjectInKeyOrder(m: Attributes, k: string)
    requires k in m && forall q :: q in m ==> Le(k, q)
    ensures Object(m) == "{" + (Text(k) + (":" + (Text(m[k]) +
              (if m.Keys == {k} then "}" else "," + Object(m - {k})[1..]))))
  {
    hide Le, Text;
    var keys := SortedSet(m.Keys);
    var rest := m - {k};
    LeastComesFirst(m.Keys, k);
    assert keys == [k] + SortedSet(m.Keys - {k});
    assert rest.Keys == m.Keys - {k};
    assert |keys| == 1 <==> m.Keys == {k} by { assert |SortedSet(rest.Keys)| == |rest.Keys|; }
    SameMembers(SortedSet(rest.Keys), m, rest);
    assert Object(rest)[1..] == Members(SortedSet(rest.Keys), rest);
    Reassociate(Text(k), ":", Text(m[k]), if |keys| == 1 then "}" else "," + Members(SortedSet(rest.Keys), m));
    OneMember(k, SortedSet(rest.Keys), m);
  }

  lemma OneMember(k: string, rest: seq<string>, m: Attributes)
    requires k in m && forall q :: q in rest ==> q in m
    ensures Members([k] + rest, m) ==
            Text(k) + ":" + Text(m[k]) + (if rest == [] then "}" else "," + Members(rest, m))
  {
    hide Text;
    assert ([k] + rest)[1..] == rest;
    if rest != [] {
      assert Member(k, m[k]) + "," + Members(rest, m) == Member(k, m[k]) + ("," + Members(rest, m));
    } else {
      assert Member(k, m[k]) + "" == Member(k, m[k]);
    }
  }

  lemma {:induction false} SameMembers(keys: seq<string>, m: Attributes, n: Attributes)
    requires forall k :: k in keys ==> k in m && k in n && m[k] == n[k]
    ensures Members(keys, m) == Members(keys, n)
  {
    hide Member;
    if keys != [] {
      SameMembers(keys[1..], m, n);
    }
  }

  lemma LeastComesFirst(s: set<string>, k: string)
    requires k in s && forall q :: q in s ==> Le(k, q)
    ensures SortedSet(s) == [k] + SortedSet(s - {k})
  {
    hide Le;
    LeastExists(s);
    assert IsLeast(k, s);
  }

  // ----- consequences: an encoded value ends where it ends -----

  lemma TextCancels(a: string, b: string, r1: string, r2: string)
    requires Text(a) + r1 == Text(b) + r2
    ensures a == b && r1 == r2
  {
    TextRoundTrip(a, r1);
    TextRoundTrip(b, r2);
  }

  lemma ObjectCancels(a: Attributes, b: Attributes, r1: string, r2: string)
    requires Object(a) + r1 == Object(b) + r2
    ensures a == b && r1 == r2
  {
    ObjectRoundTrip(a, r1);
    ObjectRoundTrip(b, r2);
  }

  /** Encoded maps decide the order before anything that follows them. */
  lemma ObjectDecides(p: string, a: Attributes, b: Attributes, r1: string, r2: string)
    ensures Le(p + (Object(a) + r1), p + (Object(b) + r2)) <==>
            if a == b then Le(r1, r2) else Le(Object(a), Object(b))
  {
    hide Object, Le;
    LeAfterPrefix(p, Object(a) + r1, Object(b) + r2);
    if a == b {
      LeAfterPrefix(Object(a), r1, r2);
    } else {
      ObjectNoPrefix(a, b);
      ObjectNoPrefix(b, a);
      LeBeforeRest(Object(a), Object(b), r1, r2);
    }
  }

  lemma ObjectNoPrefix(a: Attributes, b: Attributes)
    requires a != b
    ensures !(Object(a) <= Object(b))
  {
    hide Object;
    if Object(a) <= Object(b) {
      var r := Object(b)[|Object(a)|..];
      assert Object(a) + r == Object(b) + "";
      ObjectCancels(a, b, r, "");
    }
  }

  lemma TextDecides(p: string, a: string, b: string, r1: string, r2: string)
    ensures Le(p + (Text(a) + r1), p + (Text(b) + r2)) <==> if a == b then Le(r1, r2) else Le(Text(a), Text(b))
  {
    hide Text, Le;
    LeAfterPrefix(p, Text(a) + r1, Text(b) + r2);
    if a == b {
      LeAfterPrefix(Text(a), r1, r2);
    } else {
      TextNoPrefix(a, b);
      TextNoPrefix(b, a);
      LeBeforeRest(Text(a), Text(b), r1, r2);
    }
  }

  lemma TextNoPrefix(a: string, b: string)
    requires a != b
    ensures !(Text(a) <= Text(b))
  {
    hide Text;
    if Text(a) <= Text(b) {
      var r := Text(b)[|Text(a)|..];
      assert Text(a) + r == Text(b) + "";
      TextCancels(a, b, r, "");
    }
  }

  lemma LiteralCancels(p: string, r1: string, r2: string)
    requires p + r1 == p + r2
    ensures r1 == r2
  {
    assert r1 == (p + r1)[|p|..] == (p + r2)[|p|..] == r2;
  }

  // ----- the quote automaton -----

  /** Outside a string, inside one, after a backslash inside one, or at text no JSON value contains. */
  datatype Place = Outside | Inside | Escaped | Nowhere

  function Advance(p: Place, c: char): Place
  {
    match p
    case Outside => if c == QUOTE then Inside else if c in "{}[],:" then Outside else Nowhere
    case Inside => if c == QUOTE then Outside else if c == BACKSLASH then Escaped else Inside
    case Escaped => Inside
    case Nowhere => Nowhere
  }

  function Scan(p: Place, t: string): Place
    decreases |t|
  {
    if t == [] then p else Scan(Advance(p, t[0]), t[1..])
  }

  lemma {:induction false} ScanSplit(p: Place, a: string, b: string)
    ensures Scan(p, a + b) == Scan(Scan(p, a), b)
    decreases |a|
  {
    if a == [] {
      assert a + b == b;
    } else {
      assert (a + b)[1..] == a[1..] + b;
      ScanSplit(Advance(p, a[0]), a[1..], b);
    }
  }

  lemma {:induction false} ScanNowhere(t: string)
    ensures Scan(Nowhere, t) == Nowhere
  {
    if t != [] {
      ScanNowhere(t[1..]);
    }
  }

  lemma {:induction false} PlainStaysInside(t: string)
    requires forall i :: 0 <= i < |t| ==> t[i] != QUOTE && t[i] != BACKSLASH
    ensures Scan(Inside, t) == Inside
  {
    if t != [] {
      PlainStaysInside(t[1..]);
    }
  }

  lemma EscapeCharStaysInside(c: char)
    ensures Scan(Inside, EscapeChar(c)) == Inside
  {
    var e := EscapeChar(c);
    if |e| >= 2 {
      PlainStaysInside(e[2..]);
      assert e == e[..2] + e[2..];
      ScanSplit(Inside, e[..2], e[2..]);
      assert e[..2][1..] == [e[1]];
      assert Scan(Inside, e[..2]) == Scan(Escaped, [e[1]]) == Scan(Inside, [e[1]][1..]);
    }
  }

  lemma {:induction false} EscapeStaysInside(s: string)
    ensures Scan(Inside, Escape(s)) == Inside
  {
    if s != [] {
      EscapeCharStaysInside(s[0]);
      EscapeStaysInside(s[1..]);
      ScanSplit(Inside, EscapeChar(s[0]), Escape(s[1..]));
    }
  }

  lemma TextIsBalanced(s: string)
    ensures Scan(Outside, Text(s)) == Outside
  {
    EscapeStaysInside(s);
    ScanSplit(Outside, [QUOTE] + Escape(s), [QUOTE]);
    ScanSplit(Outside, [QUOTE], Escape(s));
  }

  lemma {:induction false} MembersAreBalanced(keys: seq<string>, m: Attributes)
    requires forall k :: k in keys ==> k in m
    ensures Scan(Outside, Members(keys, m)) == Outside
  {
    if keys != [] {
      var k, v := keys[0], m[keys[0]];
      var comma := if |keys| == 1 then "" else ",";
      TextIsBalanced(k);
      TextIsBalanced(v);
      ScanSplit(Outside, Text(k), ":");
      ScanSplit(Outside, Text(k) + ":", Text(v));
      ScanSplit(Outside, Member(k, v), comma);
      MembersAreBalanced(keys[1..], m);
      ScanSplit(Outside, Member(k, v) + comma, Members(keys[1..], m));
    }
  }

  lemma ObjectIsBalanced(m: Attributes)
    ensures Scan(Outside, Object(m)) == Outside
  {
    MembersAreBalanced(SortedSet(m.Keys), m);
    ScanSplit(Outside, "{", Members(SortedSet(m.Keys), m));
  }

  /** A text that is balanced when read from outside a string can never be read to balance from inside one. */
  lemma {:induction false} ReadingsStayOpposite(t: string, p: Place, q: Place)
    requires (p == Outside && q == Inside) || (p == Inside && q == Outside)
    ensures Scan(p, t) == Outside ==> Scan(q, t) != Outside
    decreases |t|
  {
    if t != [] {
      var p', q' := Advance(p, t[0]), Advance(q, t[0]);
      if p' == Nowhere || q' == Nowhere {
        ScanNowhere(t[1..]);
      } else {
        ReadingsStayOpposite(t[1..], p', q');
      }
    }
  }
}
