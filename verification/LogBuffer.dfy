/** The bounded buffer that watches Collector output for markers (internal/runner/process.go). */
module LogBuffer {
  import opened Folding
  import opened Strings

  const MAX_DIAGNOSTIC_BYTES := 65536
  const SEAM := 32

  function Bytes(s: string): (r: seq<byte>)
    requires forall i :: 0 <= i < |s| ==> s[i] as int < 128
    ensures |r| == |s|
  {
    seq(|s|, i requires 0 <= i < |s| => s[i] as int as byte)
  }

  function ExportMarkers(): set<seq<byte>>
  {
    {Bytes("exporting failed"), Bytes("exporter failed"), Bytes("failed to export"), Bytes("failed to shutdown")}
  }

  function ReadyMarkers(): set<seq<byte>>
  {
    {Bytes("everything is ready")}
  }

  /** Some marker of the set occurs, in any letter case. */
  ghost predicate Mentions(text: seq<byte>, markers: set<seq<byte>>)
  {
    exists m :: m in markers && Contains(Lower(text), m)
  }

  /** The last n elements, or all of them. */
  function Tail<T>(s: seq<T>, n: nat): seq<T>
  {
    if |s| <= n then s else s[|s| - n..]
  }

  function Head<T>(s: seq<T>, n: nat): seq<T>
  {
    if |s| <= n then s else s[..n]
  }

  // ----- what the two seams can miss -----

  /** What one write scans: the new bytes alone, and the two seams joined. */
  ghost predicate ScanFinds<T>(stream: seq<T>, p: seq<T>, m: seq<T>)
  {
    Contains(p, m) || Contains(Tail(stream, SEAM) + Head(p, SEAM), m)
  }

  lemma ContainsWithin<T>(s: seq<T>, lo: nat, hi: nat, m: seq<T>)
    requires lo <= hi <= |s| && Contains(s[lo..hi], m)
    ensures Contains(s, m)
  {
    var i: nat :| At(s[lo..hi], m, i);
    var inner, outer := s[lo..hi][i..i + |m|], s[lo + i..lo + i + |m|];
    assert forall k :: 0 <= k < |m| ==> inner[k] == outer[k];
    assert At(s, m, lo + i);
  }

  lemma SeamIsWindow<T>(stream: seq<T>, p: seq<T>)
    ensures var s := stream + p;
            var lo, hi := |stream| - |Tail(stream, SEAM)|, |stream| + |Head(p, SEAM)|;
            0 <= lo <= hi <= |s| && Tail(stream, SEAM) + Head(p, SEAM) == s[lo..hi]
  {
  }

  lemma CrossingFitsSeams<T>(stream: seq<T>, p: seq<T>, m: seq<T>, i: nat)
    requires |m| <= SEAM + 1 && At(stream + p, m, i) && i < |stream| < i + |m|
    ensures Contains(Tail(stream, SEAM) + Head(p, SEAM), m)
  {
    SeamIsWindow(stream, p);
    var s := stream + p;
    var lo, hi := |stream| - |Tail(stream, SEAM)|, |stream| + |Head(p, SEAM)|;
    assert s[lo..hi][i - lo..i - lo + |m|] == s[i..i + |m|];
    assert At(s[lo..hi], m, i - lo);
  }

  lemma SeamsFindEverything<T>(stream: seq<T>, p: seq<T>, m: seq<T>)
    requires |m| <= SEAM + 1
    ensures Contains(stream + p, m) <==> Contains(stream, m) || ScanFinds(stream, p, m)
  {
    var s := stream + p;
    SeamIsWindow(stream, p);
    assert s[0..|stream|] == stream && s[|stream|..|s|] == p;
    if Contains(stream, m) {
      ContainsWithin(s, 0, |stream|, m);
    }
    if Contains(p, m) {
      ContainsWithin(s, |stream|, |s|, m);
    }
    if Contains(Tail(stream, SEAM) + Head(p, SEAM), m) {
      ContainsWithin(s, |stream| - |Tail(stream, SEAM)|, |stream| + |Head(p, SEAM)|, m);
    }
    if Contains(s, m) {
      var i: nat :| At(s, m, i);
      if i + |m| <= |stream| {
        assert stream[i..i + |m|] == s[i..i + |m|];
        assert At(stream, m, i);
      } else if i >= |stream| {
        assert p[i - |stream|..i - |stream| + |m|] == s[i..i + |m|];
        assert At(p, m, i - |stream|);
      } else {
        CrossingFitsSeams(stream, p, m, i);
      }
    }
  }

  /** Two 32-byte seams are enough exactly for markers of at most 33 bytes. */
  lemma SeamsSufficeIffMarkerFits<T(!new)>(m: seq<T>)
    ensures (forall stream: seq<T>, p: seq<T> ::
              Contains(stream + p, m) <==> Contains(stream, m) || ScanFinds(stream, p, m))
            <==> |m| <= 33
  {
    if |m| <= SEAM + 1 {
      forall stream: seq<T>, p: seq<T>
        ensures Contains(stream + p, m) <==> Contains(stream, m) || ScanFinds(stream, p, m)
      {
        SeamsFindEverything(stream, p, m);
      }
    } else {
      var stream, p := m[..SEAM + 1], m[SEAM + 1..];
      assert stream + p == m;
      assert At(stream + p, m, 0);
      assert Contains(stream + p, m) && !Contains(stream, m) && !ScanFinds(stream, p, m);
    }
  }

  // ----- truncation -----

  lemma TailOfTail<T>(s: seq<T>, n: nat, k: nat)
    requires k <= n
    ensures Tail(Tail(s, n), k) == Tail(s, k)
  {
  }

  /** Dropping the overflow from the front before appending keeps the last n elements. */
  lemma TailGrows<T>(s: seq<T>, kept: seq<T>, p: seq<T>, n: nat)
    requires kept == Tail(s, n)
    ensures Tail(s + p, n) ==
            if |p| >= n then p[|p| - n..]
            else if |kept| + |p| > n then kept[|kept| + |p| - n..] + p
            else kept + p
  {
  }

  lemma SeamParts<T>(s: seq<T>, n: nat)
    ensures Tail(s, n) == if |s| > n then s[|s| - n..] else s
    ensures Head(s, n) == if |s| > n then s[..n] else s
  {
  }

  // ----- the phrases -----

  /** w is some spelling of the phrase, in any letter case. */
  predicate Spells(w: seq<byte>, phrase: string)
  {
    |Lower(w)| == |phrase| && forall i :: 0 <= i < |phrase| ==> Lower(w)[i] as int == phrase[i] as int
  }

  ghost predicate SpelledIn(text: seq<byte>, phrase: string)
  {
    exists w :: Contains(text, w) && Spells(w, phrase)
  }

  lemma SpelledMeans(text: seq<byte>, phrase: string)
    requires phrase != [] && forall i :: 0 <= i < |phrase| ==> phrase[i] as int < 128
    ensures SpelledIn(text, phrase) <==> Contains(Lower(text), Bytes(phrase))
  {
    hide Lower, Contains;
    OccursIffSpelled(text, Bytes(phrase));
    forall w ensures Spells(w, phrase) <==> Lower(w) == Bytes(phrase) {
    }
  }

  /** Which phrases report a failed export. */
  lemma ExportFailureMeans(stream: seq<byte>)
    ensures Mentions(stream, ExportMarkers()) <==>
            SpelledIn(stream, "exporting failed") || SpelledIn(stream, "exporter failed") ||
            SpelledIn(stream, "failed to export") || SpelledIn(stream, "failed to shutdown")
  {
    hide SpelledIn, Contains, Bytes;
    SpelledMeans(stream, "exporting failed");
    SpelledMeans(stream, "exporter failed");
    SpelledMeans(stream, "failed to export");
    SpelledMeans(stream, "failed to shutdown");
  }

  /** Which phrase reports readiness. */
  lemma ReadinessMeans(stream: seq<byte>)
    ensures Mentions(stream, ReadyMarkers()) <==> SpelledIn(stream, "everything is ready")
  {
    hide SpelledIn, Contains, Bytes;
    SpelledMeans(stream, "everything is ready");
  }

  /** The buffer keeps the last 64 KiB. */
  lemma KeptBytes(stream: seq<byte>)
    ensures var kept := Tail(stream, MAX_DIAGNOSTIC_BYTES);
            |kept| == (if |stream| < 65536 then |stream| else 65536) && kept == stream[|stream| - |kept|..]
  {
  }

  // ----- folding -----

  /** However the marker is spelled, a spelling that crosses two writes lies inside the two seams. */
  ghost predicate FitsSeams(m: seq<byte>)
  {
    Ascii(m) && m != [] && LETTER_K !in m && exists n: nat :: PlainTail(m, n)
  }

  /** The last n letters are one byte each, and the others few enough. */
  predicate PlainTail(m: seq<byte>, n: nat)
  {
    n <= |m| && LETTER_I !in m[|m| - n..] && 2 * |m| - n <= SEAM + 1
  }

  lemma PlainLetters(s: string, n: nat)
    requires (forall i :: 0 <= i < |s| ==> s[i] as int < 128 && s[i] != 'k') && s != [] && n <= |s|
    requires (forall i :: |s| - n <= i < |s| ==> s[i] != 'i') && 2 * |s| - n <= SEAM + 1
    ensures FitsSeams(Bytes(s))
  {
    assert PlainTail(Bytes(s), n);
  }

  lemma MarkersFit()
    ensures forall m :: m in ExportMarkers() ==> FitsSeams(m)
    ensures forall m :: m in ReadyMarkers() ==> FitsSeams(m)
  {
    hide FitsSeams, Bytes;
    ExportMarkersFit();
    PlainLetters("everything is ready", 6);
  }

  lemma ExportMarkersFit()
    ensures FitsSeams(Bytes("exporting failed")) && FitsSeams(Bytes("exporter failed"))
    ensures FitsSeams(Bytes("failed to export")) && FitsSeams(Bytes("failed to shutdown"))
  {
    hide FitsSeams, Bytes;
    PlainLetters("exporting failed", 0);
    PlainLetters("exporter failed", 0);
    PlainLetters("failed to export", 0);
    PlainLetters("failed to shutdown", 8);
  }

  lemma MarkerGrows(stream: seq<byte>, p: seq<byte>, m: seq<byte>)
    requires FitsSeams(m)
    ensures Contains(Lower(stream + p), m) <==>
            Contains(Lower(stream), m) || Contains(Lower(p), m) ||
            Contains(Lower(Tail(stream, SEAM) + Head(p, SEAM)), m)
  {
    hide Lower, Contains, Tail, Head;
    var n: nat :| PlainTail(m, n);
    OccursIffSpelled(stream + p, m);
    OccursIffSpelled(stream, m);
    OccursIffSpelled(p, m);
    OccursIffSpelled(Tail(stream, SEAM) + Head(p, SEAM), m);
    forall w | Lower(w) == m ensures Contains(stream + p, w) <==> Contains(stream, w) || ScanFinds(stream, p, w) {
      SpellingIsShort(w, m, n);
      SeamsFindEverything(stream, p, w);
    }
  }

  /** A write that scans its bytes and the seam of everything kept so far detects what the whole stream holds. */
  lemma MentionsGrows(stream: seq<byte>, p: seq<byte>, kept: seq<byte>, markers: set<seq<byte>>)
    requires forall m :: m in markers ==> FitsSeams(m)
    requires kept == Tail(stream, MAX_DIAGNOSTIC_BYTES)
    ensures Mentions(stream + p, markers) <==>
            Mentions(stream, markers) || Mentions(p, markers) || Mentions(Tail(kept, SEAM) + Head(p, SEAM), markers)
  {
    hide Lower, Contains, Tail, Head, FitsSeams;
    TailOfTail(stream, MAX_DIAGNOSTIC_BYTES, SEAM);
    forall m | m in markers
      ensures Contains(Lower(stream + p), m) <==>
              Contains(Lower(stream), m) || Contains(Lower(p), m) ||
              Contains(Lower(Tail(stream, SEAM) + Head(p, SEAM)), m)
    {
      MarkerGrows(stream, p, m);
    }
  }

  // ----- the code -----

  method ExportFailureText(text: seq<byte>) returns (found: bool)
    ensures found <==> Mentions(text, ExportMarkers())
  {
    var lower := Lower(text);
    found := Search(lower, Bytes("exporting failed"));
    if !found { found := Search(lower, Bytes("exporter failed")); }
    if !found { found := Search(lower, Bytes("failed to export")); }
    if !found { found := Search(lower, Bytes("failed to shutdown")); }
  }

  method ReadyText(text: seq<byte>) returns (found: bool)
    ensures found <==> Mentions(text, ReadyMarkers())
  {
    found := Search(Lower(text), Bytes("everything is ready"));
  }

  class PrivateBuffer {
    var data: seq<byte>
    var exportFailure: bool
    var ready: bool
    /** Everything ever written. */
    ghost var stream: seq<byte>

    ghost predicate Valid()
      reads this
    {
      data == Tail(stream, MAX_DIAGNOSTIC_BYTES) &&
      (exportFailure <==> Mentions(stream, ExportMarkers())) &&
      (ready <==> Mentions(stream, ReadyMarkers()))
    }

    constructor ()
      ensures Valid() && stream == []
    {
      data, exportFailure, ready, stream := [], false, false, [];
    }

    /** The 64 KiB buffer tells exactly what an unbounded scan of the whole stream would tell. */
    method Write(p: seq<byte>) returns (n: nat)
      requires Valid()
      modifies this
      ensures n == |p|
      ensures stream == old(stream) + p
      ensures data == Tail(stream, MAX_DIAGNOSTIC_BYTES)
      ensures exportFailure <==> Mentions(stream, ExportMarkers())
      ensures ready <==> Mentions(stream, ReadyMarkers())
      ensures Valid()
    {
      hide Mentions, Contains, Lower, Tail, Head, ExportMarkers, ReadyMarkers;
      n := |p|;
      var previous := if |data| > SEAM then data[|data| - SEAM..] else data;
      var prefix := if |p| > SEAM then p[..SEAM] else p;
      SeamParts(data, SEAM);
      SeamParts(p, SEAM);
      MarkersFit();
      MentionsGrows(stream, p, data, ExportMarkers());
      MentionsGrows(stream, p, data, ReadyMarkers());
      TailGrows(stream, data, p, MAX_DIAGNOSTIC_BYTES);
      stream := stream + p;
      var failureInBytes := ExportFailureText(p);
      var failureInSeam := ExportFailureText(previous + prefix);
      if failureInBytes || failureInSeam {
        exportFailure := true;
      }
      var readyInBytes := ReadyText(p);
      var readyInSeam := ReadyText(previous + prefix);
      if readyInBytes || readyInSeam {
        ready := true;
      }
      if n >= MAX_DIAGNOSTIC_BYTES {
        data := p[n - MAX_DIAGNOSTIC_BYTES..];
      } else {
        var extra := |data| + n - MAX_DIAGNOSTIC_BYTES;
        if extra > 0 {
          data := data[extra..];
        }
        data := data + p;
      }
    }
  }

  function Joined(writes: seq<seq<byte>>): seq<byte>
  {
    if writes == [] then [] else Joined(writes[..|writes| - 1]) + writes[|writes| - 1]
  }

  /** However a stream is cut into writes, and however long ago a marker went by. */
  method WriteAll(writes: seq<seq<byte>>) returns (b: PrivateBuffer)
    ensures fresh(b) && b.data == Tail(Joined(writes), MAX_DIAGNOSTIC_BYTES)
    ensures b.exportFailure <==> Mentions(Joined(writes), ExportMarkers())
    ensures b.ready <==> Mentions(Joined(writes), ReadyMarkers())
  {
    hide Mentions;
    b := new PrivateBuffer();
    for i := 0 to |writes|
      invariant fresh(b) && b.Valid() && b.stream == Joined(writes[..i])
    {
      var _ := b.Write(writes[i]);
      assert writes[..i + 1][..i] == writes[..i];
    }
    assert writes[..|writes|] == writes;
  }
}
