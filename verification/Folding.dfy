/** strings.ToLower on bytes, as far as a search for ASCII text can tell. Two characters outside ASCII have an ASCII
    lower case: U+0130 (bytes C4 B0) becomes i and U+212A (bytes E2 84 AA) becomes k. Everything else outside ASCII
    stays outside ASCII, so its bytes stand for themselves here. */
module Folding {
  import opened Strings

  newtype byte = x: int | 0 <= x < 256

  const LETTER_I: byte := 105
  const LETTER_K: byte := 107

  predicate Ascii(s: seq<byte>)
  {
    forall i :: 0 <= i < |s| ==> s[i] < 128
  }

  function LowerByte(b: byte): byte
  {
    if 65 <= b <= 90 then b + 32 else b
  }

  /** How many bytes the first lower-case letter replaces. */
  function Chunk(s: seq<byte>): (n: nat)
    requires s != []
    ensures 1 <= n <= |s|
  {
    if |s| >= 2 && s[0] == 0xC4 && s[1] == 0xB0 then 2
    else if |s| >= 3 && s[0] == 0xE2 && s[1] == 0x84 && s[2] == 0xAA then 3
    else 1
  }

  function FirstLower(s: seq<byte>): byte
    requires s != []
  {
    if Chunk(s) == 2 then LETTER_I else if Chunk(s) == 3 then LETTER_K else LowerByte(s[0])
  }

  function Lower(s: seq<byte>): seq<byte>
  {
    if s == [] then [] else [FirstLower(s)] + Lower(s[Chunk(s)..])
  }

  // ----- what is folded -----

  /** Equal, or the two cases of one letter. */
  predicate SameLetter(a: byte, b: byte)
  {
    a == b || (65 <= a <= 90 && b as int == a as int + 32) || (65 <= b <= 90 && a as int == b as int + 32)
  }

  predicate SameButCase(s: seq<byte>, t: seq<byte>)
  {
    |s| == |t| && forall i :: 0 <= i < |s| ==> SameLetter(s[i], t[i])
  }

  lemma {:induction false} LowerByteByByte(s: seq<byte>)
    requires Ascii(s)
    ensures |Lower(s)| == |s| && forall i :: 0 <= i < |s| ==> Lower(s)[i] == LowerByte(s[i])
  {
    if s != [] {
      assert Chunk(s) == 1 && s == [s[0]] + s[1..];
      LowerByteByByte(s[1..]);
    }
  }

  /** Lower-casing makes two ASCII texts equal exactly when they differ in the case of letters only. */
  lemma FoldsCaseOnly(s: seq<byte>, t: seq<byte>)
    requires Ascii(s) && Ascii(t)
    ensures Lower(s) == Lower(t) <==> SameButCase(s, t)
  {
    hide Lower;
    LowerByteByByte(s);
    LowerByteByByte(t);
    if Lower(s) == Lower(t) {
      forall i | 0 <= i < |s| ensures SameLetter(s[i], t[i]) {
        assert Lower(s)[i] == Lower(t)[i];
      }
    }
  }

  /** U+0130 becomes i and U+212A becomes k. */
  lemma FoldedCharacters(rest: seq<byte>)
    ensures Lower([0xC4, 0xB0] + rest) == ['i' as int as byte] + Lower(rest)
    ensures Lower([0xE2, 0x84, 0xAA] + rest) == ['k' as int as byte] + Lower(rest)
  {
    var a, b := [0xC4, 0xB0] + rest, [0xE2, 0x84, 0xAA] + rest;
    assert Chunk(a) == 2 && a[2..] == rest;
    assert Chunk(b) == 3 && b[3..] == rest;
  }

  // ----- where text can be cut -----

  /** No folded character can reach across this byte. */
  predicate StartsAfresh(s: seq<byte>)
  {
    s == [] || (s[0] != 0xB0 && s[0] != 0x84 && s[0] != 0xAA)
  }

  /** The first letter and the rest. */
  lemma Unfolded(s: seq<byte>)
    requires s != []
    ensures Lower(s) == [FirstLower(s)] + Lower(s[Chunk(s)..])
    ensures Ascii(Lower(s)) <==> FirstLower(s) < 128 && Ascii(Lower(s[Chunk(s)..]))
  {
    hide FirstLower, Chunk, Ascii;
    AsciiParts(FirstLower(s), Lower(s[Chunk(s)..]));
  }

  lemma AsciiParts(b: byte, rest: seq<byte>)
    ensures Ascii([b] + rest) <==> b < 128 && Ascii(rest)
  {
    var s := [b] + rest;
    assert s[0] == b;
    assert forall i :: 0 <= i < |rest| ==> s[i + 1] == rest[i];
  }

  lemma LowerNothing()
    ensures Lower([]) == []
  {
  }

  lemma ChunkBefore(a: seq<byte>, b: seq<byte>)
    requires a != [] && StartsAfresh(b)
    ensures Chunk(a + b) == Chunk(a) && FirstLower(a + b) == FirstLower(a)
  {
  }

  lemma {:induction false} LowerBefore(a: seq<byte>, b: seq<byte>)
    requires StartsAfresh(b)
    ensures Lower(a + b) == Lower(a) + Lower(b)
    decreases |a|
  {
    hide Lower, Ascii, FirstLower, Chunk, StartsAfresh;
    if a == [] {
      assert a + b == b;
      LowerNothing();
    } else {
      Unfolded(a);
      Unfolded(a + b);
      ChunkBefore(a, b);
      assert (a + b)[Chunk(a)..] == a[Chunk(a)..] + b;
      LowerBefore(a[Chunk(a)..], b);
    }
  }

  lemma ChunkStays(w: seq<byte>, b: seq<byte>)
    requires w != [] && FirstLower(w) < 128
    ensures Chunk(w + b) == Chunk(w) && FirstLower(w + b) == FirstLower(w)
  {
  }

  lemma {:induction false} LowerAfter(w: seq<byte>, b: seq<byte>)
    requires Ascii(Lower(w))
    ensures Lower(w + b) == Lower(w) + Lower(b)
    decreases |w|
  {
    hide Lower, Ascii, FirstLower, Chunk;
    if w == [] {
      assert w + b == b;
      LowerNothing();
    } else {
      Unfolded(w);
      Unfolded(w + b);
      ChunkStays(w, b);
      assert (w + b)[Chunk(w)..] == w[Chunk(w)..] + b;
      LowerAfter(w[Chunk(w)..], b);
    }
  }

  // ----- occurrences of a marker -----

  lemma {:induction false} PrefixWindow(s: seq<byte>, m: seq<byte>) returns (n: nat)
    requires m <= Lower(s)
    ensures n <= |s| && Lower(s[..n]) == m
    decreases |m|
  {
    if m == [] {
      n := 0;
    } else {
      var k := Chunk(s);
      assert Lower(s)[1..] == Lower(s[k..]);
      n := PrefixWindow(s[k..], m[1..]);
      n := n + k;
      assert s[..n][k..] == s[k..][..n - k];
      assert Chunk(s[..n]) == k;
      assert m == [m[0]] + m[1..];
    }
  }

  lemma StartContains(s: seq<byte>, n: nat)
    requires n <= |s|
    ensures Contains(s, s[..n])
  {
    assert At(s, s[..n], 0);
  }

  lemma DropContains(s: seq<byte>, k: nat, w: seq<byte>)
    requires k <= |s| && Contains(s[k..], w)
    ensures Contains(s, w)
  {
    var j: nat :| At(s[k..], w, j);
    assert s[k..][j..j + |w|] == s[k + j..k + j + |w|];
    assert At(s, w, k + j);
  }

  lemma {:induction false} FindWindow(s: seq<byte>, m: seq<byte>, i: nat) returns (w: seq<byte>)
    requires At(Lower(s), m, i) && m != []
    ensures Lower(w) == m && Contains(s, w)
    decreases |s|
  {
    hide Contains, Chunk;
    if i == 0 {
      assert m == Lower(s)[..|m|];
      var n := PrefixWindow(s, m);
      w := s[..n];
      StartContains(s, n);
    } else {
      var k := Chunk(s);
      assert Lower(s)[i..i + |m|] == Lower(s[k..])[i - 1..i - 1 + |m|];
      w := FindWindow(s[k..], m, i - 1);
      DropContains(s, k, w);
    }
  }

  /** A marker occurs in the lower-cased text exactly when the text contains some spelling of it. */
  lemma OccursIffSpelled(s: seq<byte>, m: seq<byte>)
    requires Ascii(m) && m != []
    ensures Contains(Lower(s), m) <==> exists w :: Lower(w) == m && Contains(s, w)
  {
    if Contains(Lower(s), m) {
      var i: nat :| At(Lower(s), m, i);
      var w := FindWindow(s, m, i);
    }
    forall w | Lower(w) == m && Contains(s, w) ensures Contains(Lower(s), m) {
      SpelledOccurs(s, m, w);
    }
  }

  lemma SpelledOccurs(s: seq<byte>, m: seq<byte>, w: seq<byte>)
    requires Ascii(m) && m != [] && Lower(w) == m && Contains(s, w)
    ensures Contains(Lower(s), m)
  {
    LowerNothing();
    var i: nat :| At(s, w, i);
    var a, b := s[..i], s[i + |w|..];
    assert s == a + (w + b);
    SpellingStartsAfresh(w, b);
    hide Lower, StartsAfresh, Contains, Ascii;
    LowerBefore(a, w + b);
    LowerAfter(w, b);
    ContainsMiddle(Lower(a), m, Lower(b));
  }

  lemma ContainsMiddle(a: seq<byte>, m: seq<byte>, b: seq<byte>)
    ensures Contains(a + (m + b), m)
  {
    var s := a + (m + b);
    assert s[|a|..|a| + |m|] == m;
    assert At(s, m, |a|);
  }

  lemma SpellingStartsAfresh(w: seq<byte>, b: seq<byte>)
    requires Ascii(Lower(w)) && w != []
    ensures StartsAfresh(w + b)
  {
    hide Lower;
    Unfolded(w);
    assert (w + b)[0] == w[0];
  }

  /** How long a spelling can be: no letter of the marker is k, and its last n letters are not i. */
  lemma {:induction false} SpellingIsShort(w: seq<byte>, m: seq<byte>, n: nat)
    requires Lower(w) == m && n <= |m| && LETTER_K !in m && LETTER_I !in m[|m| - n..]
    ensures |w| <= 2 * |m| - n
    decreases |w|
  {
    if w != [] {
      var k := Chunk(w);
      assert m[0] == FirstLower(w) && m[0] in m;
      assert m[1..] == Lower(w[k..]);
      if n == |m| {
        assert m[|m| - n..] == m;
        assert m[1..][|m| - 1 - (n - 1)..] == m[1..];
        assert LETTER_K !in m[1..] && LETTER_I !in m[1..];
        SpellingIsShort(w[k..], m[1..], n - 1);
      } else {
        assert m[1..][|m| - 1 - n..] == m[|m| - n..];
        assert LETTER_K !in m[1..];
        SpellingIsShort(w[k..], m[1..], n);
      }
    }
  }
}
