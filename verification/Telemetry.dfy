/** Normalized telemetry and the identity of metric series (internal/telemetry/telemetry.go). */
module Telemetry {
  import opened Strings
  import opened Json

  datatype LogRecord = LogRecord(resource: Attributes, attributes: Attributes, body: string)
  datatype Span = Span(traceId: string, spanId: string, name: string, statusCode: string,
                       resource: Attributes, attributes: Attributes)
  datatype Datapoint = Datapoint(labels: Attributes)
  datatype Metric = Metric(name: string, resource: Attributes, points: seq<Datapoint>)

  /** The contents of a telemetry set at one moment. */
  datatype Snapshot = Snapshot(logs: seq<LogRecord>, spans: seq<Span>, metrics: seq<Metric>)

  // ----- series keys -----

  function SeriesKey(resource: Attributes, labels: Attributes): string
  {
    "[" + Object(resource) + "," + Object(labels) + "]"
  }

  /** The text countSeries counts: the metric name joined raw to the series key. */
  function NamedKey(name: string, resource: Attributes, labels: Attributes): string
  {
    name + "|" + SeriesKey(resource, labels)
  }

  /** A series key determines both attribute maps. */
  lemma SeriesKeyInjective(r1: Attributes, l1: Attributes, r2: Attributes, l2: Attributes)
    requires SeriesKey(r1, l1) == SeriesKey(r2, l2)
    ensures r1 == r2 && l1 == l2
  {
    Regroup(r1, l1);
    Regroup(r2, l2);
    LiteralCancels("[", Object(r1) + ("," + (Object(l1) + "]")), Object(r2) + ("," + (Object(l2) + "]")));
    ObjectCancels(r1, r2, "," + (Object(l1) + "]"), "," + (Object(l2) + "]"));
    LiteralCancels(",", Object(l1) + "]", Object(l2) + "]");
    ObjectCancels(l1, l2, "]", "]");
  }

  lemma Regroup(r: Attributes, l: Attributes)
    ensures SeriesKey(r, l) == "[" + (Object(r) + ("," + (Object(l) + "]")))
  {
    Reassociate("[" + Object(r), ",", Object(l), "]");
    Reassociate("[", Object(r), ",", Object(l) + "]");
  }

  /** Series are listed by resource, then labels. */
  lemma SeriesKeyOrder(r1: Attributes, l1: Attributes, r2: Attributes, l2: Attributes)
    ensures Le(SeriesKey(r1, l1), SeriesKey(r2, l2)) <==>
            if r1 != r2 then Le(Object(r1), Object(r2)) else Le(Object(l1), Object(l2))
  {
    hide Object, Le;
    Regroup(r1, l1);
    Regroup(r2, l2);
    ObjectDecides("[", r1, r2, "," + (Object(l1) + "]"), "," + (Object(l2) + "]"));
    ObjectDecides(",", l1, l2, "]", "]");
    LeTotal("]", "]");
    LeTotal(Object(l1), Object(l1));
  }

  lemma SeriesKeyIsBalanced(r: Attributes, l: Attributes)
    ensures Scan(Outside, SeriesKey(r, l)) == Outside
  {
    ObjectIsBalanced(r);
    ObjectIsBalanced(l);
    ScanSplit(Outside, "[", Object(r));
    ScanSplit(Outside, "[" + Object(r), ",");
    ScanSplit(Outside, "[" + Object(r) + ",", Object(l));
    ScanSplit(Outside, "[" + Object(r) + "," + Object(l), "]");
  }

  lemma BarStartsInsideString(x: string, k: string)
    requires Scan(Outside, k) == Outside
    ensures Scan(Outside, x + "|" + k) != Outside
  {
    var p := Scan(Outside, x);
    ScanSplit(Outside, x + "|", k);
    ScanSplit(Outside, x, "|");
    assert Scan(p, "|") == Scan(Advance(p, '|'), []);
    if p.Outside? || p.Nowhere? {
      ScanNowhere(k);
    } else {
      ReadingsStayOpposite(k, Outside, Inside);
    }
  }

  /** No series key is x + "|" + another series key: such a "|" would sit inside a string of the longer
      key, from where the shorter one cannot be read to balance. */
  lemma NoKeyEndsInAnother(x: string, r1: Attributes, l1: Attributes, r2: Attributes, l2: Attributes)
    ensures SeriesKey(r1, l1) != x + "|" + SeriesKey(r2, l2)
  {
    hide SeriesKey;
    SeriesKeyIsBalanced(r1, l1);
    SeriesKeyIsBalanced(r2, l2);
    BarStartsInsideString(x, SeriesKey(r2, l2));
  }

  /** Although names may contain any text, "|" and quotes included, a counted key stands for one
      (name, resource, labels) triple. */
  lemma NamedKeyInjective(n1: string, r1: Attributes, l1: Attributes, n2: string, r2: Attributes, l2: Attributes)
    requires NamedKey(n1, r1, l1) == NamedKey(n2, r2, l2)
    ensures n1 == n2 && r1 == r2 && l1 == l2
  {
    hide SeriesKey;
    if |n1| < |n2| {
      NameCannotBeLonger(n1, r1, l1, n2, r2, l2);
    } else if |n2| < |n1| {
      NameCannotBeLonger(n2, r2, l2, n1, r1, l1);
    } else {
      var k := NamedKey(n1, r1, l1);
      assert n1 == k[..|n1|] == n2;
      assert k[|n1| + 1..] == SeriesKey(r1, l1) == SeriesKey(r2, l2);
      SeriesKeyInjective(r1, l1, r2, l2);
    }
  }

  lemma NameCannotBeLonger(n1: string, r1: Attributes, l1: Attributes, n2: string, r2: Attributes, l2: Attributes)
    requires |n1| < |n2|
    ensures NamedKey(n1, r1, l1) != NamedKey(n2, r2, l2)
  {
    hide SeriesKey;
    var x := n2[|n1| + 1..];
    var k1, k2 := SeriesKey(r1, l1), SeriesKey(r2, l2);
    NoKeyEndsInAnother(x, r1, l1, r2, l2);
    assert (n1 + "|" + k1)[|n1| + 1..] == k1;
    assert (n2 + "|" + k2)[|n1| + 1..] == x + "|" + k2;
  }

  // ----- counting -----

  function SeriesOf(m: Metric): set<string>
  {
    set dp | dp in m.points :: SeriesKey(m.resource, dp.labels)
  }

  /** The distinct series a reader would count: name, resource attributes and labels. */
  function Triples(ms: seq<Metric>): set<(string, Attributes, Attributes)>
  {
    set m, dp | m in ms && dp in m.points :: (m.name, m.resource, dp.labels)
  }

  ghost function NamedKeys(ms: seq<Metric>): set<string>
  {
    set t | t in Triples(ms) :: NamedKey(t.0, t.1, t.2)
  }

  method UniqueSeriesKeys(m: Metric) returns (keys: seq<string>)
    ensures keys == SortedSet(SeriesOf(m))
  {
    hide SeriesKey, SortedSet;
    var seen: set<string> := {};
    for i := 0 to |m.points|
      invariant seen == SeriesOf(m.(points := m.points[..i]))
    {
      assert m.points[..i + 1] == m.points[..i] + [m.points[i]];
      seen := seen + {SeriesKey(m.resource, m.points[i].labels)};
    }
    assert m.(points := m.points[..|m.points|]) == m;
    keys := SortedSet(seen);
  }

  lemma NoMetricsNoKeys()
    ensures NamedKeys([]) == {}
  {
    assert Triples([]) == {};
  }

  lemma NamedKeysGrow(ms: seq<Metric>, m: Metric)
    ensures NamedKeys(ms + [m]) == NamedKeys(ms) + set k | k in SeriesOf(m) :: m.name + "|" + k
  {
    hide Triples, SeriesKey, NamedKey;
    TriplesGrow(ms, m);
    KeysOfTriples(m);
  }

  function TriplesOf(m: Metric): set<(string, Attributes, Attributes)>
  {
    set dp | dp in m.points :: (m.name, m.resource, dp.labels)
  }

  lemma TriplesGrow(ms: seq<Metric>, m: Metric)
    ensures Triples(ms + [m]) == Triples(ms) + TriplesOf(m)
  {
    forall t | t in Triples(ms + [m]) ensures t in Triples(ms) + TriplesOf(m) {
      var m', dp :| m' in ms + [m] && dp in m'.points && t == (m'.name, m'.resource, dp.labels);
    }
    assert m in ms + [m];
  }

  lemma KeysOfTriples(m: Metric)
    ensures (set k | k in SeriesOf(m) :: m.name + "|" + k) == set t | t in TriplesOf(m) :: NamedKey(t.0, t.1, t.2)
  {
    hide SeriesKey;
    forall dp | dp in m.points
      ensures NamedKey(m.name, m.resource, dp.labels) == m.name + "|" + SeriesKey(m.resource, dp.labels)
      ensures (m.name, m.resource, dp.labels) in TriplesOf(m)
    {
    }
  }

  lemma NamedKeysCountTriples(ms: seq<Metric>)
    ensures |NamedKeys(ms)| == |Triples(ms)|
  {
    hide NamedKey, Triples;
    var f := (t: (string, Attributes, Attributes)) => NamedKey(t.0, t.1, t.2);
    forall t, u | t in Triples(ms) && u in Triples(ms) && f(t) == f(u) ensures t == u {
      NamedKeyInjective(t.0, t.1, t.2, u.0, u.1, u.2);
    }
    ImageSize(Triples(ms), f);
    assert NamedKeys(ms) == Image(Triples(ms), f);
  }

  /** countSeries counts exactly the distinct triples. */
  method CountSeries(ms: seq<Metric>) returns (n: nat)
    ensures n == |Triples(ms)|
  {
    hide SortedSet, NamedKeys, SeriesOf, Triples;
    var seen: set<string> := {};
    NoMetricsNoKeys();
    for i := 0 to |ms|
      invariant seen == NamedKeys(ms[..i])
    {
      var keys := UniqueSeriesKeys(ms[i]);
      ghost var before := seen;
      for j := 0 to |keys|
        invariant seen == before + set k | k in keys[..j] :: ms[i].name + "|" + k
      {
        assert keys[..j + 1] == keys[..j] + [keys[j]];
        seen := seen + {ms[i].name + "|" + keys[j]};
      }
      assert keys[..|keys|] == keys;
      assert ms[..i + 1] == ms[..i] + [ms[i]];
      NamedKeysGrow(ms[..i], ms[i]);
      assert (set k | k in keys :: ms[i].name + "|" + k) == set k | k in SeriesOf(ms[i]) :: ms[i].name + "|" + k;
    }
    assert ms[..|ms|] == ms;
    NamedKeysCountTriples(ms);
    n := |seen|;
  }

  // ----- counting per metric name -----

  function Names(ms: seq<Metric>): set<string>
  {
    set m | m in ms :: m.name
  }

  /** The series of every metric with this name, over all resources and requests. */
  function SeriesNamed(ms: seq<Metric>, name: string): set<string>
  {
    set m, dp | m in ms && m.name == name && dp in m.points :: SeriesKey(m.resource, dp.labels)
  }

  function TriplesNamed(ms: seq<Metric>, name: string): set<(string, Attributes, Attributes)>
  {
    set t | t in Triples(ms) && t.0 == name
  }

  lemma SeriesNamedCount(ms: seq<Metric>, name: string)
    ensures |SeriesNamed(ms, name)| == |TriplesNamed(ms, name)|
  {
    hide SeriesKey, TriplesNamed;
    var f := (t: (string, Attributes, Attributes)) => SeriesKey(t.1, t.2);
    var ts := TriplesNamed(ms, name);
    assert forall t :: t in ts ==> t.0 == name by { TriplesNamedMembers(ms, name); }
    forall t, u | t in ts && u in ts && f(t) == f(u) ensures t == u {
      SeriesKeyInjective(t.1, t.2, u.1, u.2);
    }
    ImageSize(ts, f);
    SeriesOfTriples(ms, name, f);
  }

  lemma SeriesOfTriples(ms: seq<Metric>, name: string, f: ((string, Attributes, Attributes)) -> string)
    requires forall t :: f(t) == SeriesKey(t.1, t.2)
    ensures SeriesNamed(ms, name) == Image(TriplesNamed(ms, name), f)
  {
    hide SeriesKey, TriplesNamed, Triples;
    TriplesNamedMembers(ms, name);
    forall k | k in SeriesNamed(ms, name) ensures k in Image(TriplesNamed(ms, name), f) {
      var m, dp :| m in ms && m.name == name && dp in m.points && k == SeriesKey(m.resource, dp.labels);
      assert (m.name, m.resource, dp.labels) in TriplesNamed(ms, name);
    }
  }

  lemma TriplesNamedMembers(ms: seq<Metric>, name: string)
    ensures forall t :: t in TriplesNamed(ms, name) <==> t in Triples(ms) && t.0 == name
    ensures forall m, dp :: m in ms && dp in m.points ==> (m.name, m.resource, dp.labels) in Triples(ms)
    ensures forall t :: t in Triples(ms) ==>
              exists m, dp :: m in ms && dp in m.points && t == (m.name, m.resource, dp.labels)
  {
  }

  function TotalSeries(ms: seq<Metric>, names: seq<string>): nat
  {
    if names == [] then 0 else |SeriesNamed(ms, names[0])| + TotalSeries(ms, names[1..])
  }

  lemma {:induction false} TotalCountsTriples(ms: seq<Metric>, names: seq<string>)
    requires StrictlySorted(names)
    ensures TotalSeries(ms, names) == |set t | t in Triples(ms) && t.0 in names|
  {
    hide SeriesNamed, Triples, Le;
    var ts := set t | t in Triples(ms) && t.0 in names;
    if names == [] {
      assert ts == {};
    } else {
      var rest := set t | t in Triples(ms) && t.0 in names[1..];
      FirstIsNew(names);
      TotalCountsTriples(ms, names[1..]);
      SeriesNamedCount(ms, names[0]);
      assert ts == TriplesNamed(ms, names[0]) + rest;
      assert TriplesNamed(ms, names[0]) !! rest;
    }
  }

  lemma FirstIsNew(names: seq<string>)
    requires StrictlySorted(names) && names != []
    ensures names[0] !in names[1..] && StrictlySorted(names[1..])
    ensures forall x :: x in names <==> x == names[0] || x in names[1..]
  {
    assert names == [names[0]] + names[1..];
  }

  /** The per-name series counts the limit check compares add up to the count the summary reports. */
  lemma PerNameCountsSumToTotal(ms: seq<Metric>)
    ensures TotalSeries(ms, SortedSet(Names(ms))) == |Triples(ms)|
  {
    var names := SortedSet(Names(ms));
    TotalCountsTriples(ms, names);
    assert Triples(ms) == set t | t in Triples(ms) && t.0 in names;
  }
}
