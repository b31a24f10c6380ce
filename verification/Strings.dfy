/** Text helpers shared by every component: the byte order Go sorts strings by, substring search,
    sorting, and decimal numbers. A `string` is a sequence of Unicode scalar values, which is exactly
    a valid UTF-8 text; code-point order on it is byte order on its UTF-8 form. */
module Strings {

  datatype Option<+T> = None | Some(value: T)

  // ----- order -----

  /** Go's `a <= b` on strings. */
  predicate Le(a: string, b: string)
  {
    a == [] || (b != [] && (a[0] < b[0] || (a[0] == b[0] && Le(a[1..], b[1..]))))
  }

  lemma {:induction false} LeTotal(a: string, b: string)
    ensures Le(a, b) || Le(b, a)
    ensures Le(a, a)
    decreases |a|
  {
    if a != [] {
      LeTotal(a[1..], if b == [] then [] else b[1..]);
    }
  }

  lemma {:induction false} LeAntisymmetric(a: string, b: string)
    requires Le(a, b) && Le(b, a)
    ensures a == b
    decreases |a|
  {
    if a != [] {
      LeAntisymmetric(a[1..], b[1..]);
      assert a == [a[0]] + a[1..] && b == [b[0]] + b[1..];
    }
  }

  lemma {:induction false} LeTransitive(a: string, b: string, c: string)
    requires Le(a, b) && Le(b, c)
    ensures Le(a, c)
    decreases |a|
  {
    if a != [] && a[0] == b[0] == c[0] {
      LeTransitive(a[1..], b[1..], c[1..]);
    }
  }

  /** Position k is the first at which the texts differ, and a has the smaller character there. */
  predicate DiffersFirstAt(a: string, b: string, k: nat)
  {
    k < |a| && k < |b| && a[..k] == b[..k] && a[k] < b[k]
  }

  /** The order of Go's strings: a prefix comes first, otherwise the first difference decides. */
  ghost predicate Ascending(a: string, b: string)
  {
    a <= b || exists k: nat :: DiffersFirstAt(a, b, k)
  }

  lemma {:induction false} LeIsAscending(a: string, b: string)
    ensures Le(a, b) <==> Ascending(a, b)
    decreases |a|
  {
    if a == [] {
    } else if b != [] && a[0] == b[0] {
      LeIsAscending(a[1..], b[1..]);
      AscendingTails(a, b);
    } else {
      FirstDecides(a, b);
    }
  }

  lemma AscendingTails(a: string, b: string)
    requires a != [] && b != [] && a[0] == b[0]
    ensures Ascending(a, b) <==> Ascending(a[1..], b[1..])
  {
    assert a == [a[0]] + a[1..] && b == [b[0]] + b[1..];
    if k: nat :| DiffersFirstAt(a, b, k) {
      assert a[1..][..k - 1] == a[..k][1..] && b[1..][..k - 1] == b[..k][1..];
      assert DiffersFirstAt(a[1..], b[1..], k - 1);
    }
    if k: nat :| DiffersFirstAt(a[1..], b[1..], k) {
      assert a[..k + 1] == [a[0]] + a[1..][..k] && b[..k + 1] == [b[0]] + b[1..][..k];
      assert DiffersFirstAt(a, b, k + 1);
    }
  }

  lemma FirstDecides(a: string, b: string)
    requires a != [] && (b == [] || a[0] != b[0])
    ensures Ascending(a, b) <==> b != [] && a[0] < b[0]
  {
    if b != [] && a[0] < b[0] {
      assert DiffersFirstAt(a, b, 0);
    }
    assert forall k: nat :: 0 < k < |a| && k < |b| ==> a[..k][0] == a[0] && b[..k][0] == b[0];
  }

  /** A common beginning does not matter. */
  lemma {:induction false} LeAfterPrefix(p: string, a: string, b: string)
    ensures Le(p + a, p + b) <==> Le(a, b)
  {
    if p == [] {
      assert p + a == a && p + b == b;
    } else {
      assert (p + a)[1..] == p[1..] + a && (p + b)[1..] == p[1..] + b;
      LeAfterPrefix(p[1..], a, b);
    }
  }

  /** What follows does not matter when neither text can be continued to become the other. */
  lemma {:induction false} LeBeforeRest(a: string, b: string, r1: string, r2: string)
    requires !(a <= b) && !(b <= a)
    ensures Le(a + r1, b + r2) <==> Le(a, b)
  {
    assert a != [] && b != [] && (a + r1)[0] == a[0] && (b + r2)[0] == b[0];
    if a[0] == b[0] {
      assert (a + r1)[1..] == a[1..] + r1 && (b + r2)[1..] == b[1..] + r2;
      assert a == [a[0]] + a[1..] && b == [b[0]] + b[1..];
      LeBeforeRest(a[1..], b[1..], r1, r2);
    }
  }

  // ----- sorting by a text key -----

  ghost predicate SortedBy<T>(xs: seq<T>, key: T -> string)
  {
    forall i, j :: 0 <= i < j < |xs| ==> Le(key(xs[i]), key(xs[j]))
  }

  /** Places x before the first element whose key is not smaller, so equal keys keep their order. */
  function Insert<T>(x: T, xs: seq<T>, key: T -> string): seq<T>
  {
    if xs == [] || Le(key(x), key(xs[0])) then [x] + xs else [xs[0]] + Insert(x, xs[1..], key)
  }

  /** The result of sort.SliceStable under the order of the keys. */
  function StableSort<T>(xs: seq<T>, key: T -> string): seq<T>
  {
    if xs == [] then [] else Insert(xs[0], StableSort(xs[1..], key), key)
  }

  lemma {:induction false} InsertKeepsElements<T>(x: T, xs: seq<T>, key: T -> string)
    ensures multiset(Insert(x, xs, key)) == multiset(xs) + multiset{x}
  {
    hide Le;
    if xs != [] {
      InsertKeepsElements(x, xs[1..], key);
      assert xs == [xs[0]] + xs[1..];
    }
  }

  ghost predicate Below<T>(x: T, xs: seq<T>, key: T -> string)
  {
    forall y :: y in xs ==> Le(key(x), key(y))
  }

  lemma SortedCons<T>(x: T, xs: seq<T>, key: T -> string)
    ensures SortedBy([x] + xs, key) <==> Below(x, xs, key) && SortedBy(xs, key)
  {
    hide Le;
    var s := [x] + xs;
    assert forall j :: 0 <= j < |xs| ==> s[j + 1] == xs[j];
    if SortedBy(s, key) {
      forall y | y in xs ensures Le(key(x), key(y)) {
        var j :| 0 <= j < |xs| && xs[j] == y;
        assert Le(key(s[0]), key(s[j + 1]));
      }
      forall i, j | 0 <= i < j < |xs| ensures Le(key(xs[i]), key(xs[j])) {
        assert Le(key(s[i + 1]), key(s[j + 1]));
      }
    }
  }

  lemma BelowAll<T>(x: T, y: T, xs: seq<T>, key: T -> string)
    requires Le(key(x), key(y)) && Below(y, xs, key)
    ensures Below(x, xs, key)
  {
    hide Le;
    forall z | z in xs ensures Le(key(x), key(z)) {
      LeTransitive(key(x), key(y), key(z));
    }
  }

  lemma BelowInserted<T>(y: T, x: T, xs: seq<T>, key: T -> string)
    requires Le(key(y), key(x)) && Below(y, xs, key)
    ensures Below(y, Insert(x, xs, key), key)
  {
    hide Le, Insert;
    InsertKeepsElements(x, xs, key);
    forall z | z in Insert(x, xs, key) ensures Le(key(y), key(z)) {
      assert z in multiset(Insert(x, xs, key));
    }
  }

  lemma {:induction false} InsertKeepsOrder<T>(x: T, xs: seq<T>, key: T -> string)
    requires SortedBy(xs, key)
    ensures SortedBy(Insert(x, xs, key), key)
  {
    hide Le, SortedBy;
    if xs == [] {
      SortedCons(x, [], key);
    } else {
      var y, rest := xs[0], xs[1..];
      assert xs == [y] + rest;
      SortedCons(y, rest, key);
      if Le(key(x), key(y)) {
        BelowAll(x, y, rest, key);
        SortedCons(x, xs, key);
      } else {
        LeTotal(key(x), key(y));
        InsertKeepsOrder(x, rest, key);
        BelowInserted(y, x, rest, key);
        SortedCons(y, Insert(x, rest, key), key);
      }
    }
  }

  lemma {:induction false} StableSortSorts<T>(xs: seq<T>, key: T -> string)
    ensures SortedBy(StableSort(xs, key), key)
    ensures multiset(StableSort(xs, key)) == multiset(xs)
    ensures |StableSort(xs, key)| == |xs|
  {
    hide Le, Insert;
    if xs != [] {
      StableSortSorts(xs[1..], key);
      InsertKeepsOrder(xs[0], StableSort(xs[1..], key), key);
      InsertKeepsElements(xs[0], StableSort(xs[1..], key), key);
      assert xs == [xs[0]] + xs[1..];
    }
    assert |multiset(StableSort(xs, key))| == |multiset(xs)|;
  }

  /** The elements with one key, in order. */
  function WithKey<T>(xs: seq<T>, key: T -> string, k: string): seq<T>
  {
    if xs == [] then [] else (if key(xs[0]) == k then [xs[0]] else []) + WithKey(xs[1..], key, k)
  }

  lemma {:induction false} InsertIsStable<T>(x: T, xs: seq<T>, key: T -> string, k: string)
    ensures WithKey(Insert(x, xs, key), key, k) == WithKey([x] + xs, key, k)
  {
    hide Le;
    assert ([x] + xs)[1..] == xs;
    if xs != [] && !Le(key(x), key(xs[0])) {
      LeTotal(key(x), key(x));
      var rest := Insert(x, xs[1..], key);
      assert ([xs[0]] + rest)[1..] == rest;
      assert ([x] + xs[1..])[1..] == xs[1..];
      InsertIsStable(x, xs[1..], key, k);
    }
  }

  /** Elements with equal keys keep their order. */
  lemma {:induction false} SortIsStable<T>(xs: seq<T>, key: T -> string, k: string)
    ensures WithKey(StableSort(xs, key), key, k) == WithKey(xs, key, k)
  {
    hide Insert;
    if xs != [] {
      var rest := StableSort(xs[1..], key);
      InsertIsStable(xs[0], rest, key, k);
      SortIsStable(xs[1..], key, k);
      assert ([xs[0]] + rest)[1..] == rest;
    }
  }

  lemma FirstIsLeast<T>(a: seq<T>, b: seq<T>, key: T -> string)
    requires SortedBy(a, key) && multiset(a) == multiset(b) && a != [] && b != []
    ensures Le(key(a[0]), key(b[0]))
  {
    assert b[0] in multiset(a);
    var j :| 0 <= j < |a| && a[j] == b[0];
    LeTotal(key(a[0]), key(a[0]));
  }

  ghost predicate KeyedBy<T>(xs: seq<T>, key: T -> string)
  {
    forall x, y :: x in xs && y in xs && key(x) == key(y) ==> x == y
  }

  lemma FirstsAgree<T>(a: seq<T>, b: seq<T>, key: T -> string)
    requires SortedBy(a, key) && SortedBy(b, key) && multiset(a) == multiset(b) && KeyedBy(a, key)
    requires a != [] && b != []
    ensures a[0] == b[0]
  {
    FirstIsLeast(a, b, key);
    FirstIsLeast(b, a, key);
    LeAntisymmetric(key(a[0]), key(b[0]));
    assert b[0] in multiset(a);
  }

  lemma TailsAgree<T>(a: seq<T>, b: seq<T>)
    requires multiset(a) == multiset(b) && a != [] && b != [] && a[0] == b[0]
    ensures multiset(a[1..]) == multiset(b[1..])
  {
    assert a == [a[0]] + a[1..] && b == [b[0]] + b[1..];
    assert multiset(a[1..]) == multiset(a) - multiset{a[0]};
  }

  /** A sorted arrangement is unique once equal keys mean equal elements. */
  lemma {:induction false} SortedUnique<T>(a: seq<T>, b: seq<T>, key: T -> string)
    requires SortedBy(a, key) && SortedBy(b, key) && multiset(a) == multiset(b) && KeyedBy(a, key)
    ensures a == b
    decreases |a|
  {
    hide Le;
    assert |multiset(a)| == |a| && |multiset(b)| == |b|;
    if a != [] {
      FirstsAgree(a, b, key);
      TailsAgree(a, b);
      SortedUnique(a[1..], b[1..], key);
      assert a == [a[0]] + a[1..] && b == [b[0]] + b[1..];
    }
  }

  // ----- sorted sets of strings -----

  ghost predicate StrictlySorted(xs: seq<string>)
  {
    forall i, j :: 0 <= i < j < |xs| ==> Le(xs[i], xs[j]) && xs[i] != xs[j]
  }

  predicate IsLeast(x: string, s: set<string>)
  {
    x in s && forall y :: y in s ==> Le(x, y)
  }

  lemma {:induction false} Least(s: set<string>) returns (least: string)
    requires s != {}
    ensures IsLeast(least, s)
  {
    var x :| x in s;
    LeTotal(x, x);
    var rest := s - {x};
    assert forall y :: y in s ==> y == x || y in rest;
    if rest == {} {
      least := x;
    } else {
      var other := Least(rest);
      LeTotal(x, other);
      least := if Le(x, other) then x else other;
      forall y | y in s ensures Le(least, y) {
        if y != x && least == x {
          LeTransitive(x, other, y);
        }
      }
    }
  }

  /** What collecting a set's members and calling sort.Strings yields. */
  function SortedSet(s: set<string>): (r: seq<string>)
    ensures StrictlySorted(r) && |r| == |s|
    ensures forall x :: x in r <==> x in s
  {
    if s == {} then [] else
      LeastExists(s);
      var least :| IsLeast(least, s);
      [least] + SortedSet(s - {least})
  }

  lemma LeastExists(s: set<string>)
    requires s != {}
    ensures exists x :: IsLeast(x, s)
    ensures forall x, y :: IsLeast(x, s) && IsLeast(y, s) ==> x == y
  {
    var least := Least(s);
    forall x, y | IsLeast(x, s) && IsLeast(y, s) ensures x == y {
      LeAntisymmetric(x, y);
    }
  }

  lemma {:induction false} StrictlySortedUnique(a: seq<string>, b: seq<string>)
    requires StrictlySorted(a) && StrictlySorted(b) && (forall x :: x in a <==> x in b)
    ensures a == b
    decreases |a|
  {
    assert b != [] ==> b[0] in a;
    if a != [] {
      assert a[0] in b && a[0] in a;
      assert b[0] in a;
      LeTotal(a[0], b[0]);
      var i :| 0 <= i < |b| && b[i] == a[0];
      var j :| 0 <= j < |a| && a[j] == b[0];
      if a[0] != b[0] {
        LeAntisymmetric(a[0], b[0]);
      }
      assert a == [a[0]] + a[1..] && b == [b[0]] + b[1..];
      forall x ensures x in a[1..] <==> x in b[1..] {
        if x in a[1..] {
          assert x in a && x != a[0];
        }
        if x in b[1..] {
          assert x in b && x != b[0];
        }
      }
      StrictlySortedUnique(a[1..], b[1..]);
    }
  }

  /** The contract of SortedSet, for proofs that hide the function. */
  lemma SortedSetMembers(s: set<string>)
    ensures forall x :: x in SortedSet(s) <==> x in s
    ensures StrictlySorted(SortedSet(s))
  {
  }

  // ----- permutations -----

  lemma TwiceIf<T>(xs: seq<T>, a: nat, b: nat)
    requires a < b < |xs|
    ensures xs[a] == xs[b] ==> multiset(xs)[xs[a]] >= 2
  {
    assert xs == xs[..b] + [xs[b]] + xs[b + 1..];
    assert xs[a] == xs[..b][a];
    assert xs[a] in multiset(xs[..b]);
  }

  lemma TakeOut<T>(s: seq<T>, j: nat)
    requires j < |s|
    ensures s == s[..j] + [s[j]] + s[j + 1..]
    ensures multiset(s[..j] + s[j + 1..]) == multiset(s) - multiset{s[j]}
  {
    assert s == s[..j] + [s[j]] + s[j + 1..];
    assert multiset(s) == multiset(s[..j]) + multiset{s[j]} + multiset(s[j + 1..]);
  }

  /** Taking the last element of one arrangement out of another leaves arrangements of the same elements. */
  lemma TakeLast<T>(a: seq<T>, b: seq<T>) returns (j: nat)
    requires multiset(a) == multiset(b) && a != []
    ensures j < |b| && b[j] == a[|a| - 1] && b == b[..j] + [b[j]] + b[j + 1..]
    ensures multiset(a[..|a| - 1]) == multiset(b[..j] + b[j + 1..])
    ensures forall x :: x in b[..j] + b[j + 1..] ==> x in b
  {
    var n := |a| - 1;
    assert a[n] in multiset(b);
    j :| 0 <= j < |b| && b[j] == a[n];
    TakeOut(a, n);
    assert a[..n] + a[n + 1..] == a[..n];
    TakeOut(b, j);
  }

  // ----- images of sets -----

  ghost function Image<T, U>(s: set<T>, f: T -> U): set<U>
  {
    set x | x in s :: f(x)
  }

  lemma {:induction false} ImageNoLarger<T, U>(s: set<T>, f: T -> U)
    ensures |Image(s, f)| <= |s|
  {
    if s != {} {
      var x :| x in s;
      ImageNoLarger(s - {x}, f);
      assert Image(s, f) == Image(s - {x}, f) + {f(x)};
    }
  }

  lemma {:induction false} ImageSize<T, U>(s: set<T>, f: T -> U)
    requires forall x, y :: x in s && y in s && f(x) == f(y) ==> x == y
    ensures |Image(s, f)| == |s|
  {
    if s != {} {
      var x :| x in s;
      ImageSize(s - {x}, f);
      assert Image(s, f) == Image(s - {x}, f) + {f(x)};
    }
  }

  // ----- substrings -----

  predicate HasPrefix(s: string, p: string) { p <= s }

  /** strings.Contains: some window of s equals p. */
  ghost predicate Contains<T>(s: seq<T>, p: seq<T>)
  {
    exists i: nat :: At(s, p, i)
  }

  ghost predicate At<T>(s: seq<T>, p: seq<T>, i: nat)
  {
    i + |p| <= |s| && s[i..i + |p|] == p
  }

  /** strings.Contains by search. */
  method Search<T(==)>(text: seq<T>, m: seq<T>) returns (found: bool)
    ensures found <==> Contains(text, m)
  {
    var i := 0;
    while i + |m| <= |text|
      invariant forall k: nat :: k < i ==> !At(text, m, k)
    {
      if text[i..i + |m|] == m {
        assert At(text, m, i);
        return true;
      }
      i := i + 1;
    }
    assert forall k: nat :: At(text, m, k) ==> k < i;
    return false;
  }

  /** The text before the first separator, or the whole text: strings.SplitN(s, sep, 2)[0]. */
  function Before(s: string, sep: char): string
  {
    if s == [] || s[0] == sep then [] else [s[0]] + Before(s[1..], sep)
  }

  lemma {:induction false} BeforeIsFirstPart(s: string, sep: char)
    ensures Before(s, sep) <= s && sep !in Before(s, sep)
    ensures |Before(s, sep)| < |s| ==> s[|Before(s, sep)|] == sep
  {
    if s != [] && s[0] != sep {
      BeforeIsFirstPart(s[1..], sep);
      assert s == [s[0]] + s[1..];
    }
  }

  /** The first part is p exactly for p itself and for p followed by the separator and anything. */
  lemma BeforeMeans(s: string, sep: char, p: string)
    requires sep !in p
    ensures Before(s, sep) == p <==> s == p || p + [sep] <= s
  {
    BeforeIsFirstPart(s, sep);
    if s == p || p + [sep] <= s {
      BeforeFirst(p, sep, s[|p|..]);
      assert s == p + s[|p|..];
    }
  }

  lemma {:induction false} BeforeFirst(p: string, sep: char, rest: string)
    requires sep !in p && (rest == [] || rest[0] == sep)
    ensures Before(p + rest, sep) == p
  {
    if p == [] {
      assert p + rest == rest;
    } else {
      assert (p + rest)[1..] == p[1..] + rest;
      BeforeFirst(p[1..], sep, rest);
      assert p == [p[0]] + p[1..];
    }
  }

  lemma {:induction false} CutAtSeparator(a: string, b: string, r1: string, r2: string, sep: char)
    requires sep !in a && sep !in b
    requires a + [sep] + r1 == b + [sep] + r2
    ensures a == b && r1 == r2
    decreases |a|
  {
    var s := a + [sep] + r1;
    assert s[|a|] == sep && s[|b|] == sep;
    assert forall i :: 0 <= i < |a| ==> s[i] == a[i] && s[i] != sep;
    assert forall i :: 0 <= i < |b| ==> s[i] == b[i] && s[i] != sep;
    assert a == s[..|a|] == b;
    assert r1 == s[|a| + 1..] == r2;
  }

  // ----- decimal numbers -----

  function Digit(d: nat): char
    requires d < 10
  {
    (d + 48) as char
  }

  /** strconv.Itoa on a count. */
  function Decimal(n: nat): (s: string)
    ensures s != [] && IsDecimal(s)
  {
    if n < 10 then [Digit(n)] else Decimal(n / 10) + [Digit(n % 10)]
  }

  predicate IsDecimal(s: string)
  {
    forall i :: 0 <= i < |s| ==> '0' <= s[i] <= '9'
  }

  /** Reads a decimal text from its last digit. */
  function ReadDecimal(s: string): nat
    requires IsDecimal(s)
  {
    if s == [] then 0 else
      assert '0' <= s[|s| - 1] <= '9';
      10 * ReadDecimal(s[..|s| - 1]) + (s[|s| - 1] - '0') as nat
  }

  /** No leading zero, so no number has two forms. */
  lemma {:induction false} DecimalIsShortest(n: nat)
    ensures n > 0 ==> Decimal(n)[0] != '0'
    ensures Decimal(0) == "0"
  {
    if n >= 10 {
      DecimalIsShortest(n / 10);
    }
  }

  lemma {:induction false} DecimalRoundTrip(n: nat)
    ensures ReadDecimal(Decimal(n)) == n
  {
    if n >= 10 {
      DecimalRoundTrip(n / 10);
      assert Decimal(n)[..|Decimal(n)| - 1] == Decimal(n / 10);
    }
  }
}
