/** Removing capture-request order and batching from a telemetry set (internal/telemetry/canonical.go). */
module Canonical {
  import opened Strings
  import opened Json
  import opened Telemetry

  type MetricId = (string, Attributes)

  function Id(m: Metric): MetricId
  {
    (m.name, m.resource)
  }

  // ----- the JSON text of each record, fields in declaration order -----

  function LogText(l: LogRecord): string
  {
    "{\"ResourceAttributes\":" + (Object(l.resource) + (",\"Attributes\":" + (Object(l.attributes) +
    (",\"Body\":" + (Text(l.body) + "}")))))
  }

  function SpanText(s: Span): string
  {
    "{\"TraceID\":" + (Text(s.traceId) + (",\"SpanID\":" + (Text(s.spanId) + (",\"Name\":" + (Text(s.name) +
    (",\"StatusCode\":" + (Text(s.statusCode) + (",\"ResourceAttributes\":" + (Object(s.resource) +
    (",\"Attributes\":" + (Object(s.attributes) + "}")))))))))))
  }

  function PointText(dp: Datapoint): string
  {
    "{\"Labels\":" + (Object(dp.labels) + "}")
  }

  function PointTexts(ps: seq<Datapoint>): string
  {
    if ps == [] then "]" else PointText(ps[0]) + (if |ps| == 1 then "" else ",") + PointTexts(ps[1..])
  }

  /** A metric without datapoints carries a nil slice once it has been regrouped. */
  function MetricText(m: Metric): string
  {
    "{\"Name\":" + (Text(m.name) + (",\"ResourceAttributes\":" + (Object(m.resource) +
    (",\"Datapoints\":" + ((if m.points == [] then "null" else "[" + PointTexts(m.points)) + "}")))))
  }

  function GroupText(id: MetricId): string
  {
    "{\"Name\":" + (Text(id.0) + (",\"Resource\":" + (Object(id.1) + "}")))
  }

  lemma FieldObject(p: string, a: Attributes, b: Attributes, r1: string, r2: string)
    requires p + (Object(a) + r1) == p + (Object(b) + r2)
    ensures a == b && r1 == r2
  {
    hide Object;
    LiteralCancels(p, Object(a) + r1, Object(b) + r2);
    ObjectCancels(a, b, r1, r2);
  }

  lemma FieldText(p: string, a: string, b: string, r1: string, r2: string)
    requires p + (Text(a) + r1) == p + (Text(b) + r2)
    ensures a == b && r1 == r2
  {
    hide Text;
    LiteralCancels(p, Text(a) + r1, Text(b) + r2);
    TextCancels(a, b, r1, r2);
  }

  lemma LogTextInjective(a: LogRecord, b: LogRecord)
    requires LogText(a) == LogText(b)
    ensures a == b
  {
    hide Object, Text;
    var a2, b2 := ",\"Body\":" + (Text(a.body) + "}"), ",\"Body\":" + (Text(b.body) + "}");
    var a1, b1 := ",\"Attributes\":" + (Object(a.attributes) + a2), ",\"Attributes\":" + (Object(b.attributes) + b2);
    FieldObject("{\"ResourceAttributes\":", a.resource, b.resource, a1, b1);
    FieldObject(",\"Attributes\":", a.attributes, b.attributes, a2, b2);
    FieldText(",\"Body\":", a.body, b.body, "}", "}");
  }

  lemma SpanTextInjective(a: Span, b: Span)
    requires SpanText(a) == SpanText(b)
    ensures a == b
  {
    hide Object, Text;
    var a5, b5 := ",\"Attributes\":" + (Object(a.attributes) + "}"), ",\"Attributes\":" + (Object(b.attributes) + "}");
    var a4 := ",\"ResourceAttributes\":" + (Object(a.resource) + a5);
    var b4 := ",\"ResourceAttributes\":" + (Object(b.resource) + b5);
    var a3, b3 := ",\"StatusCode\":" + (Text(a.statusCode) + a4), ",\"StatusCode\":" + (Text(b.statusCode) + b4);
    var a2, b2 := ",\"Name\":" + (Text(a.name) + a3), ",\"Name\":" + (Text(b.name) + b3);
    var a1, b1 := ",\"SpanID\":" + (Text(a.spanId) + a2), ",\"SpanID\":" + (Text(b.spanId) + b2);
    FieldText("{\"TraceID\":", a.traceId, b.traceId, a1, b1);
    FieldText(",\"SpanID\":", a.spanId, b.spanId, a2, b2);
    FieldText(",\"Name\":", a.name, b.name, a3, b3);
    FieldText(",\"StatusCode\":", a.statusCode, b.statusCode, a4, b4);
    FieldObject(",\"ResourceAttributes\":", a.resource, b.resource, a5, b5);
    FieldObject(",\"Attributes\":", a.attributes, b.attributes, "}", "}");
  }

  lemma PointTextInjective(a: Datapoint, b: Datapoint)
    requires PointText(a) == PointText(b)
    ensures a == b
  {
    hide Object;
    FieldObject("{\"Labels\":", a.labels, b.labels, "}", "}");
  }

  lemma MetricTextNamesId(a: Metric, b: Metric)
    requires MetricText(a) == MetricText(b)
    ensures Id(a) == Id(b)
  {
    hide Object, Text, PointTexts;
    var a2 := ",\"Datapoints\":" + ((if a.points == [] then "null" else "[" + PointTexts(a.points)) + "}");
    var b2 := ",\"Datapoints\":" + ((if b.points == [] then "null" else "[" + PointTexts(b.points)) + "}");
    var a1 := ",\"ResourceAttributes\":" + (Object(a.resource) + a2);
    var b1 := ",\"ResourceAttributes\":" + (Object(b.resource) + b2);
    FieldText("{\"Name\":", a.name, b.name, a1, b1);
    FieldObject(",\"ResourceAttributes\":", a.resource, b.resource, a2, b2);
  }

  lemma GroupTextInjective(a: MetricId, b: MetricId)
    requires GroupText(a) == GroupText(b)
    ensures a == b
  {
    hide Object, Text;
    var a1, b1 := ",\"Resource\":" + (Object(a.1) + "}"), ",\"Resource\":" + (Object(b.1) + "}");
    FieldText("{\"Name\":", a.0, b.0, a1, b1);
    FieldObject(",\"Resource\":", a.1, b.1, "}", "}");
  }

  // ----- what capture order and batching cannot change -----

  datatype View = View(logs: multiset<LogRecord>, spans: multiset<Span>,
                       metrics: map<MetricId, multiset<Datapoint>>)

  ghost function Ids(ms: seq<Metric>): set<MetricId>
  {
    set m | m in ms :: Id(m)
  }

  /** The datapoints a record adds to an id. */
  ghost function Share(m: Metric, id: MetricId): multiset<Datapoint>
  {
    if Id(m) == id then multiset(m.points) else multiset{}
  }

  /** All datapoints of one metric and resource, over every record that carries some of them. */
  ghost function PointsOf(ms: seq<Metric>, id: MetricId): multiset<Datapoint>
  {
    if ms == [] then multiset{} else
    var last := ms[|ms| - 1];
    PointsOf(ms[..|ms| - 1], id) + Share(last, id)
  }

  ghost function MetricsView(ms: seq<Metric>): map<MetricId, multiset<Datapoint>>
  {
    map id | id in Ids(ms) :: PointsOf(ms, id)
  }

  ghost function ViewOf(s: Snapshot): View
  {
    View(multiset(s.logs), multiset(s.spans), MetricsView(s.metrics))
  }

  lemma PointsOfAppend(ms: seq<Metric>, m: Metric)
    ensures Ids(ms + [m]) == Ids(ms) + {Id(m)}
    ensures forall id :: PointsOf(ms + [m], id) == PointsOf(ms, id) + Share(m, id)
  {
    assert (ms + [m])[..|ms|] == ms;
  }

  lemma {:induction false} NoPointsElsewhere(ms: seq<Metric>, id: MetricId)
    requires id !in Ids(ms)
    ensures PointsOf(ms, id) == multiset{}
  {
    if ms != [] {
      var init, last := ms[..|ms| - 1], ms[|ms| - 1];
      assert ms == init + [last];
      PointsOfAppend(init, last);
      NoPointsElsewhere(init, id);
    }
  }

  // ----- the normal form -----

  ghost predicate DistinctIds(ms: seq<Metric>)
  {
    forall i, j :: 0 <= i < j < |ms| ==> Id(ms[i]) != Id(ms[j])
  }

  ghost predicate PointsSorted(ms: seq<Metric>)
  {
    forall m :: m in ms ==> SortedBy(m.points, PointText)
  }

  ghost predicate IsCanonical(s: Snapshot)
  {
    SortedBy(s.logs, LogText) && SortedBy(s.spans, SpanText) && SortedBy(s.metrics, MetricText) &&
    DistinctIds(s.metrics) && PointsSorted(s.metrics)
  }

  lemma {:induction false} OneRecordPerId(ms: seq<Metric>, m: Metric)
    requires DistinctIds(ms) && m in ms
    ensures PointsOf(ms, Id(m)) == multiset(m.points)
  {
    var init, last := ms[..|ms| - 1], ms[|ms| - 1];
    assert ms == init + [last];
    PointsOfAppend(init, last);
    if m == last {
      NoPointsElsewhere(init, Id(m));
    } else {
      var i :| 0 <= i < |ms| && ms[i] == m;
      assert m in init;
      OneRecordPerId(init, m);
    }
  }

  lemma {:induction false} NoRepeats(ms: seq<Metric>, m: Metric)
    requires DistinctIds(ms)
    ensures multiset(ms)[m] == if m in ms then 1 else 0
  {
    if ms != [] {
      var init, last := ms[..|ms| - 1], ms[|ms| - 1];
      assert ms == init + [last];
      NoRepeats(init, m);
    }
  }

  lemma SameRecord(a: seq<Metric>, b: seq<Metric>, m: Metric)
    requires DistinctIds(a) && DistinctIds(b) && PointsSorted(a) && PointsSorted(b)
    requires MetricsView(a) == MetricsView(b) && m in a
    ensures m in b
  {
    hide PointText;
    assert Id(m) in MetricsView(a);
    assert Id(m) in Ids(b);
    var m' :| m' in b && Id(m') == Id(m);
    OneRecordPerId(a, m);
    OneRecordPerId(b, m');
    assert MetricsView(a)[Id(m)] == MetricsView(b)[Id(m)];
    forall x, y | x in m.points && y in m.points && PointText(x) == PointText(y) ensures x == y {
      PointTextInjective(x, y);
    }
    SortedUnique(m.points, m'.points, PointText);
  }

  lemma SameMetrics(a: seq<Metric>, b: seq<Metric>)
    requires DistinctIds(a) && DistinctIds(b) && PointsSorted(a) && PointsSorted(b)
    requires SortedBy(a, MetricText) && SortedBy(b, MetricText) && MetricsView(a) == MetricsView(b)
    ensures a == b
  {
    hide MetricText;
    forall m ensures multiset(a)[m] == multiset(b)[m] {
      NoRepeats(a, m);
      NoRepeats(b, m);
      if m in a {
        SameRecord(a, b, m);
      }
      if m in b {
        SameRecord(b, a, m);
      }
    }
    forall x, y | x in a && y in a && MetricText(x) == MetricText(y) ensures x == y {
      MetricTextNamesId(x, y);
    }
    SortedUnique(a, b, MetricText);
  }

  /** There is exactly one canonical arrangement of a view. */
  lemma CanonicalUnique(a: Snapshot, b: Snapshot)
    requires IsCanonical(a) && IsCanonical(b) && ViewOf(a) == ViewOf(b)
    ensures a == b
  {
    hide LogText, SpanText, MetricText;
    forall x, y | x in a.logs && y in a.logs && LogText(x) == LogText(y) ensures x == y {
      LogTextInjective(x, y);
    }
    SortedUnique(a.logs, b.logs, LogText);
    forall x, y | x in a.spans && y in a.spans && SpanText(x) == SpanText(y) ensures x == y {
      SpanTextInjective(x, y);
    }
    SortedUnique(a.spans, b.spans, SpanText);
    SameMetrics(a.metrics, b.metrics);
  }

  /** What Canonicalize does to a snapshot: the normal form of the same view. */
  ghost predicate Canonicalizes(before: Snapshot, after: Snapshot)
  {
    IsCanonical(after) && ViewOf(after) == ViewOf(before)
  }

  /** Two captures become equal exactly when they differ only in order and batching. */
  lemma CanonicalFormDecidesView(a: Snapshot, a': Snapshot, b: Snapshot, b': Snapshot)
    requires Canonicalizes(a, a') && Canonicalizes(b, b')
    ensures a' == b' <==> ViewOf(a) == ViewOf(b)
  {
    hide IsCanonical, ViewOf;
    if ViewOf(a) == ViewOf(b) {
      CanonicalUnique(a', b');
    }
  }

  // ----- the order itself -----

  /** Neighbours are in ascending order of their JSON texts. */
  ghost predicate Climbs<T>(xs: seq<T>, text: T -> string)
  {
    forall i :: 0 < i < |xs| ==> Ascending(text(xs[i - 1]), text(xs[i]))
  }

  ghost predicate TextsAscend(s: Snapshot)
  {
    Climbs(s.logs, LogText) && Climbs(s.spans, SpanText) && Climbs(s.metrics, MetricText) &&
    forall m :: m in s.metrics ==> Climbs(m.points, PointText)
  }

  lemma SortedClimbs<T>(xs: seq<T>, text: T -> string)
    requires SortedBy(xs, text)
    ensures Climbs(xs, text)
  {
    hide Le, Ascending;
    forall i | 0 < i < |xs| ensures Ascending(text(xs[i - 1]), text(xs[i])) {
      LeIsAscending(text(xs[i - 1]), text(xs[i]));
    }
  }

  lemma CanonicalAscends(s: Snapshot)
    requires IsCanonical(s)
    ensures TextsAscend(s)
  {
    hide LogText, SpanText, MetricText, PointText, SortedBy, Climbs, DistinctIds;
    SortedClimbs(s.logs, LogText);
    SortedClimbs(s.spans, SpanText);
    SortedClimbs(s.metrics, MetricText);
    forall m | m in s.metrics ensures Climbs(m.points, PointText) {
      SortedClimbs(m.points, PointText);
    }
  }

  /** Logs are ordered by resource, then attributes, then body. */
  lemma LogOrder(a: LogRecord, b: LogRecord)
    ensures Le(LogText(a), LogText(b)) <==>
            if a.resource != b.resource then Le(Object(a.resource), Object(b.resource))
            else if a.attributes != b.attributes then Le(Object(a.attributes), Object(b.attributes))
            else Le(Text(a.body), Text(b.body))
  {
    hide Object, Text, Le;
    var a2, b2 := ",\"Body\":" + (Text(a.body) + "}"), ",\"Body\":" + (Text(b.body) + "}");
    var a1, b1 := ",\"Attributes\":" + (Object(a.attributes) + a2), ",\"Attributes\":" + (Object(b.attributes) + b2);
    ObjectDecides("{\"ResourceAttributes\":", a.resource, b.resource, a1, b1);
    ObjectDecides(",\"Attributes\":", a.attributes, b.attributes, a2, b2);
    TextDecides(",\"Body\":", a.body, b.body, "}", "}");
    LeTotal("}", "}");
    LeTotal(Text(a.body), Text(a.body));
  }

  /** Spans are ordered by trace id, span id, name, status, resource and attributes, in this order. */
  lemma SpanOrder(a: Span, b: Span)
    ensures Le(SpanText(a), SpanText(b)) <==>
            if a.traceId != b.traceId then Le(Text(a.traceId), Text(b.traceId))
            else if a.spanId != b.spanId then Le(Text(a.spanId), Text(b.spanId))
            else if a.name != b.name then Le(Text(a.name), Text(b.name))
            else if a.statusCode != b.statusCode then Le(Text(a.statusCode), Text(b.statusCode))
            else if a.resource != b.resource then Le(Object(a.resource), Object(b.resource))
            else Le(Object(a.attributes), Object(b.attributes))
  {
    hide Object, Text, Le;
    var a5, b5 := ",\"Attributes\":" + (Object(a.attributes) + "}"), ",\"Attributes\":" + (Object(b.attributes) + "}");
    var a4 := ",\"ResourceAttributes\":" + (Object(a.resource) + a5);
    var b4 := ",\"ResourceAttributes\":" + (Object(b.resource) + b5);
    var a3, b3 := ",\"StatusCode\":" + (Text(a.statusCode) + a4), ",\"StatusCode\":" + (Text(b.statusCode) + b4);
    var a2, b2 := ",\"Name\":" + (Text(a.name) + a3), ",\"Name\":" + (Text(b.name) + b3);
    var a1, b1 := ",\"SpanID\":" + (Text(a.spanId) + a2), ",\"SpanID\":" + (Text(b.spanId) + b2);
    TextDecides("{\"TraceID\":", a.traceId, b.traceId, a1, b1);
    TextDecides(",\"SpanID\":", a.spanId, b.spanId, a2, b2);
    TextDecides(",\"Name\":", a.name, b.name, a3, b3);
    TextDecides(",\"StatusCode\":", a.statusCode, b.statusCode, a4, b4);
    ObjectDecides(",\"ResourceAttributes\":", a.resource, b.resource, a5, b5);
    ObjectDecides(",\"Attributes\":", a.attributes, b.attributes, "}", "}");
    LeTotal("}", "}");
    LeTotal(Object(a.attributes), Object(a.attributes));
  }

  /** Metrics by name, then resource; their datapoints by labels. */
  lemma MetricOrder(a: Metric, b: Metric)
    requires Id(a) != Id(b)
    ensures Le(MetricText(a), MetricText(b)) <==>
            if a.name != b.name then Le(Text(a.name), Text(b.name)) else Le(Object(a.resource), Object(b.resource))
  {
    hide Object, Text, PointTexts, Le;
    var a2 := ",\"Datapoints\":" + ((if a.points == [] then "null" else "[" + PointTexts(a.points)) + "}");
    var b2 := ",\"Datapoints\":" + ((if b.points == [] then "null" else "[" + PointTexts(b.points)) + "}");
    var a1 := ",\"ResourceAttributes\":" + (Object(a.resource) + a2);
    var b1 := ",\"ResourceAttributes\":" + (Object(b.resource) + b2);
    TextDecides("{\"Name\":", a.name, b.name, a1, b1);
    ObjectDecides(",\"ResourceAttributes\":", a.resource, b.resource, a2, b2);
  }

  lemma PointOrder(a: Datapoint, b: Datapoint)
    ensures Le(PointText(a), PointText(b)) <==> Le(Object(a.labels), Object(b.labels))
  {
    hide Object, Le;
    ObjectDecides("{\"Labels\":", a.labels, b.labels, "}", "}");
    LeTotal("}", "}");
    LeTotal(Object(a.labels), Object(a.labels));
  }

  // ----- rearrangements the view does not see -----

  lemma {:induction false} PointsOfConcat(a: seq<Metric>, b: seq<Metric>, id: MetricId)
    ensures PointsOf(a + b, id) == PointsOf(a, id) + PointsOf(b, id)
  {
    if b == [] {
      assert a + b == a;
    } else {
      assert (a + b)[..|a + b| - 1] == a + b[..|b| - 1];
      PointsOfConcat(a, b[..|b| - 1], id);
    }
  }

  lemma PointsOfRemove(b: seq<Metric>, j: nat, id: MetricId)
    requires j < |b|
    ensures PointsOf(b, id) == PointsOf(b[..j] + b[j + 1..], id) + Share(b[j], id)
  {
    hide PointsOf, Share;
    assert b == b[..j] + [b[j]] + b[j + 1..];
    PointsOfConcat(b[..j], b[j + 1..], id);
    PointsOfConcat(b[..j] + [b[j]], b[j + 1..], id);
    PointsOfAppend(b[..j], b[j]);
  }

  lemma {:induction false} PointsOfPermutation(a: seq<Metric>, b: seq<Metric>, id: MetricId)
    requires multiset(a) == multiset(b)
    ensures PointsOf(a, id) == PointsOf(b, id)
    decreases |a|
  {
    hide Share;
    assert |multiset(a)| == |a| && |multiset(b)| == |b|;
    if a != [] {
      var j := TakeLast(a, b);
      PointsOfPermutation(a[..|a| - 1], b[..j] + b[j + 1..], id);
      PointsOfRemove(b, j, id);
    }
  }

  /** Metric records may arrive in any order. */
  lemma OrderInvisible(a: seq<Metric>, b: seq<Metric>)
    requires multiset(a) == multiset(b)
    ensures MetricsView(a) == MetricsView(b)
  {
    assert forall m :: m in a <==> m in multiset(a);
    assert forall m :: m in b <==> m in multiset(b);
    assert Ids(a) == Ids(b);
    forall id | id in Ids(a) ensures PointsOf(a, id) == PointsOf(b, id) {
      PointsOfPermutation(a, b, id);
    }
  }

  lemma SharesAdd(whole: Metric, first: Metric, second: Metric, id: MetricId)
    requires Id(whole) == Id(first) == Id(second) && whole.points == first.points + second.points
    ensures Share(whole, id) == Share(first, id) + Share(second, id)
  {
  }

  /** One record may be exported as two. */
  lemma FragmentationInvisible(ms: seq<Metric>, whole: Metric, first: Metric, second: Metric)
    requires Id(whole) == Id(first) == Id(second) && whole.points == first.points + second.points
    ensures MetricsView(ms + [whole]) == MetricsView(ms + [first] + [second])
  {
    hide Ids, PointsOf, Share, Id;
    var a, b := ms + [whole], ms + [first] + [second];
    PointsOfAppend(ms, whole);
    PointsOfAppend(ms, first);
    PointsOfAppend(ms + [first], second);
    assert Ids(a) == Ids(b);
    forall id | id in Ids(a) ensures PointsOf(a, id) == PointsOf(b, id) {
      SharesAdd(whole, first, second, id);
    }
  }

  lemma PermutationKeepsDistinct(a: seq<Metric>, b: seq<Metric>)
    requires DistinctIds(a) && multiset(a) == multiset(b)
    ensures DistinctIds(b)
  {
    forall i, j | 0 <= i < j < |b| ensures Id(b[i]) != Id(b[j]) {
      assert b[i] in multiset(a) && b[j] in multiset(a);
      NoRepeats(a, b[i]);
      TwiceIf(b, i, j);
    }
  }

  // ----- the code -----

  /** sortByJSON: encode every value once, sort the entries by text, write the values back. */
  method SortByJson<T>(values: seq<T>, text: T -> string) returns (sorted: seq<T>)
    ensures sorted == StableSort(values, text)
    ensures SortedBy(sorted, text) && multiset(sorted) == multiset(values)
  {
    var entries: seq<(string, T)> := [];
    for i := 0 to |values|
      invariant entries == Entries(values[..i], text)
    {
      assert values[..i + 1][..i] == values[..i];
      entries := entries + [(text(values[i]), values[i])];
    }
    assert values[..|values|] == values;
    var key := (e: (string, T)) => e.0;
    entries := StableSort(entries, key);
    EntriesSortLikeValues(values, text, key);
    StableSortSorts(values, text);
    sorted := [];
    for i := 0 to |entries|
      invariant |sorted| == i && forall j :: 0 <= j < i ==> sorted[j] == entries[j].1
    {
      sorted := sorted + [entries[i].1];
    }
    assert forall j :: 0 <= j < |entries| ==> entries[j].1 == StableSort(values, text)[j];
  }

  function Entries<T>(values: seq<T>, text: T -> string): seq<(string, T)>
    ensures |Entries(values, text)| == |values|
  {
    seq(|values|, i requires 0 <= i < |values| => (text(values[i]), values[i]))
  }

  lemma {:induction false} EntriesInsert<T>(x: T, xs: seq<T>, text: T -> string, key: ((string, T)) -> string)
    requires forall e: (string, T) :: key(e) == e.0
    ensures Insert((text(x), x), Entries(xs, text), key) == Entries(Insert(x, xs, text), text)
  {
    if xs == [] {
    } else if Le(text(x), text(xs[0])) {
      assert Insert(x, xs, text) == [x] + xs;
    } else {
      EntriesInsert(x, xs[1..], text, key);
      assert Entries(xs, text)[1..] == Entries(xs[1..], text);
      assert Insert(x, xs, text) == [xs[0]] + Insert(x, xs[1..], text);
    }
  }

  lemma {:induction false} EntriesSortLikeValues<T>(xs: seq<T>, text: T -> string, key: ((string, T)) -> string)
    requires forall e: (string, T) :: key(e) == e.0
    ensures StableSort(Entries(xs, text), key) == Entries(StableSort(xs, text), text)
  {
    if xs != [] {
      assert Entries(xs, text)[1..] == Entries(xs[1..], text);
      EntriesSortLikeValues(xs[1..], text, key);
      EntriesInsert(xs[0], StableSort(xs[1..], text), text, key);
    }
  }

  /** The mutable telemetry set the runner hands to Canonicalize. */
  class TelemetrySet {
    var logs: seq<LogRecord>
    var spans: seq<Span>
    var metrics: seq<Metric>

    constructor (s: Snapshot)
      ensures Now() == s
    {
      logs, spans, metrics := s.logs, s.spans, s.metrics;
    }

    function Now(): Snapshot
      reads this
    {
      Snapshot(logs, spans, metrics)
    }

    /** For every order in which the grouped map is walked, the set ends in the normal form of its view;
        a set already in normal form is unchanged. */
    method Canonicalize()
      modifies this
      ensures Canonicalizes(old(Now()), Now())
      ensures IsCanonical(old(Now())) ==> Now() == old(Now())
      ensures TextsAscend(Now())
    {
      hide LogText, SpanText, MetricText, PointText, GroupText, Ids, PointsOf, Grouped, Flattened, TextsAscend;
      var ms := metrics;
      var grouped: map<string, Metric> := map[];
      GroupStart();
      for i := 0 to |ms|
        invariant metrics == ms && logs == old(logs) && spans == old(spans)
        invariant Grouped(grouped, ms[..i])
      {
        var metric := ms[i];
        var key := GroupText(Id(metric));
        assert ms[..i + 1] == ms[..i] + [metric];
        GroupStep(grouped, ms[..i], metric);
        if key in grouped {
          var existing := grouped[key];
          grouped := grouped[key := existing.(points := existing.points + metric.points)];
        } else {
          grouped := grouped[key := metric];
        }
      }
      assert ms[..|ms|] == ms;
      metrics := [];
      var remaining := grouped.Keys;
      FlattenStart(grouped, ms);
      while remaining != {}
        invariant remaining <= grouped.Keys
        invariant logs == old(logs) && spans == old(spans)
        invariant Flattened(metrics, grouped, remaining, ms)
      {
        var key :| key in remaining;
        var metric := grouped[key];
        var points := SortByJson(metric.points, PointText);
        FlattenStep(metrics, grouped, remaining, ms, key, points);
        metrics := metrics + [metric.(points := points)];
        remaining := remaining - {key};
      }
      FlattenDone(metrics, grouped, ms);
      logs := SortByJson(logs, LogText);
      spans := SortByJson(spans, SpanText);
      ghost var flat := metrics;
      metrics := SortByJson(metrics, MetricText);
      SortedMetricsAreCanonical(flat, metrics);
      if IsCanonical(old(Now())) {
        CanonicalUnique(old(Now()), Now());
      }
      CanonicalAscends(Now());
    }
  }

  // ----- invariants of the two loops -----

  /** After the records ms, grouped holds one metric per id under its text, with all its datapoints. */
  ghost predicate Grouped(grouped: map<string, Metric>, ms: seq<Metric>)
  {
    (forall id :: id in Ids(ms) ==> GroupText(id) in grouped) &&
    forall k :: k in grouped ==>
      GroupText(Id(grouped[k])) == k && Id(grouped[k]) in Ids(ms) &&
      multiset(grouped[k].points) == PointsOf(ms, Id(grouped[k]))
  }

  lemma GroupStart()
    ensures Grouped(map[], [])
  {
  }

  lemma GroupStep(grouped: map<string, Metric>, ms: seq<Metric>, m: Metric)
    requires Grouped(grouped, ms)
    ensures var key := GroupText(Id(m));
            Grouped(if key in grouped then grouped[key := grouped[key].(points := grouped[key].points + m.points)]
                    else grouped[key := m], ms + [m])
  {
    hide GroupText, Ids, PointsOf;
    var key := GroupText(Id(m));
    PointsOfAppend(ms, m);
    if key in grouped {
      GroupTextInjective(Id(grouped[key]), Id(m));
      GroupPut(grouped, ms, m, grouped[key].(points := grouped[key].points + m.points));
    } else {
      NoPointsElsewhere(ms, Id(m));
      GroupPut(grouped, ms, m, m);
    }
  }

  lemma GroupPut(grouped: map<string, Metric>, ms: seq<Metric>, m: Metric, entry: Metric)
    requires Grouped(grouped, ms) && Id(entry) == Id(m)
    requires multiset(entry.points) == PointsOf(ms, Id(m)) + multiset(m.points)
    ensures Grouped(grouped[GroupText(Id(m)) := entry], ms + [m])
  {
    hide GroupText, Ids, PointsOf;
    PointsOfAppend(ms, m);
    var key := GroupText(Id(m));
    var next := grouped[key := entry];
    forall k | k in next
      ensures GroupText(Id(next[k])) == k && Id(next[k]) in Ids(ms + [m]) &&
              multiset(next[k].points) == PointsOf(ms + [m], Id(next[k]))
    {
      if k != key {
        assert next[k] == grouped[k];
      }
    }
  }

  /** The metrics written so far are the groups no longer remaining, with their datapoints sorted. */
  ghost predicate Flattened(out: seq<Metric>, grouped: map<string, Metric>, remaining: set<string>, ms: seq<Metric>)
    requires remaining <= grouped.Keys
  {
    Grouped(grouped, ms) && DistinctIds(out) && PointsSorted(out) &&
    (forall m :: m in out ==>
      Id(m) in Ids(ms) && multiset(m.points) == PointsOf(ms, Id(m)) && GroupText(Id(m)) !in remaining) &&
    forall k :: k in grouped && k !in remaining ==> Id(grouped[k]) in Ids(out)
  }

  lemma FlattenStart(grouped: map<string, Metric>, ms: seq<Metric>)
    requires Grouped(grouped, ms)
    ensures Flattened([], grouped, grouped.Keys, ms)
  {
    hide Grouped;
  }

  lemma SortedMetricsAreCanonical(flat: seq<Metric>, sorted: seq<Metric>)
    requires DistinctIds(flat) && PointsSorted(flat) && multiset(flat) == multiset(sorted)
    ensures DistinctIds(sorted) && PointsSorted(sorted) && MetricsView(sorted) == MetricsView(flat)
  {
    hide PointText;
    PermutationKeepsDistinct(flat, sorted);
    OrderInvisible(flat, sorted);
    assert forall m :: m in sorted ==> m in multiset(flat);
  }

  lemma GroupedEntry(grouped: map<string, Metric>, ms: seq<Metric>, key: string)
    requires Grouped(grouped, ms) && key in grouped
    ensures GroupText(Id(grouped[key])) == key && Id(grouped[key]) in Ids(ms)
    ensures multiset(grouped[key].points) == PointsOf(ms, Id(grouped[key]))
  {
  }

  lemma GroupOf(grouped: map<string, Metric>, ms: seq<Metric>, id: MetricId)
    requires Grouped(grouped, ms) && id in Ids(ms)
    ensures GroupText(id) in grouped && Id(grouped[GroupText(id)]) == id
  {
    hide GroupText, PointsOf;
    GroupTextInjective(Id(grouped[GroupText(id)]), id);
  }

  lemma IdSource(ms: seq<Metric>, id: MetricId)
    ensures id in Ids(ms) <==> exists m :: m in ms && Id(m) == id
  {
  }

  lemma DistinctAppend(out: seq<Metric>, m: Metric)
    requires DistinctIds(out) && forall x :: x in out ==> Id(x) != Id(m)
    ensures DistinctIds(out + [m])
  {
  }

  lemma FlattenStep(out: seq<Metric>, grouped: map<string, Metric>, remaining: set<string>, ms: seq<Metric>,
                    key: string, points: seq<Datapoint>)
    requires remaining <= grouped.Keys && Flattened(out, grouped, remaining, ms) && key in remaining
    requires SortedBy(points, PointText) && multiset(points) == multiset(grouped[key].points)
    ensures Flattened(out + [grouped[key].(points := points)], grouped, remaining - {key}, ms)
  {
    hide GroupText, PointText, SortedBy, PointsOf, Grouped, DistinctIds;
    var m := grouped[key].(points := points);
    PointsOfAppend(out, m);
    GroupedEntry(grouped, ms, key);
    assert Id(m) == Id(grouped[key]);
    DistinctAppend(out, m);
  }

  lemma FlattenDone(out: seq<Metric>, grouped: map<string, Metric>, ms: seq<Metric>)
    requires Flattened(out, grouped, {}, ms)
    ensures MetricsView(out) == MetricsView(ms) && DistinctIds(out) && PointsSorted(out)
  {
    hide GroupText, PointText, PointsOf, SortedBy, Ids, DistinctIds, Grouped;
    forall id | id in Ids(ms) ensures id in Ids(out) {
      GroupOf(grouped, ms, id);
    }
    forall id | id in Ids(out) ensures id in Ids(ms) && PointsOf(out, id) == PointsOf(ms, id) {
      IdSource(out, id);
      var m :| m in out && Id(m) == id;
      OneRecordPerId(out, m);
    }
  }
}
