/** Policy assertions and their validation (internal/policy/policy.go). */
module Policy {
  import opened Strings

  datatype LogsAssertions = LogsAssertions(
    forbiddenAttributes: seq<string>, forbiddenValuePatterns: seq<string>, forbiddenBodyPatterns: seq<string>,
    caseInsensitive: bool, requiredResourceAttributes: seq<string>)

  datatype TracesAssertions = TracesAssertions(
    preserve: seq<string>, forbiddenAttributes: seq<string>, forbiddenValuePatterns: seq<string>,
    caseInsensitive: bool, requiredResourceAttributes: seq<string>)

  datatype MetricsAssertions = MetricsAssertions(
    forbiddenLabels: seq<string>, forbiddenLabelValuePatterns: seq<string>,
    caseInsensitive: bool, maxSeriesPerMetric: int, requiredResourceAttributes: seq<string>)

  datatype Policy = Policy(version: int, logs: Option<LogsAssertions>, traces: Option<TracesAssertions>,
                           metrics: Option<MetricsAssertions>)

  datatype PolicyError = VersionRequired | UnsupportedVersion | NoAssertions | UnsupportedPreserve(expr: string)

  const SupportedVersion := 1

  predicate LogsHasChecks(l: LogsAssertions)
  {
    l.forbiddenAttributes != [] || l.forbiddenValuePatterns != [] || l.forbiddenBodyPatterns != [] ||
    l.requiredResourceAttributes != []
  }

  predicate TracesHasChecks(t: TracesAssertions)
  {
    t.preserve != [] || t.forbiddenAttributes != [] || t.forbiddenValuePatterns != [] ||
    t.requiredResourceAttributes != []
  }

  predicate MetricsHasChecks(m: MetricsAssertions)
  {
    m.forbiddenLabels != [] || m.forbiddenLabelValuePatterns != [] || m.maxSeriesPerMetric > 0 ||
    m.requiredResourceAttributes != []
  }

  predicate HasAssertions(p: Policy)
  {
    (p.logs.Some? && LogsHasChecks(p.logs.value)) || (p.traces.Some? && TracesHasChecks(p.traces.value)) ||
    (p.metrics.Some? && MetricsHasChecks(p.metrics.value))
  }

  /** strings.ReplaceAll(s, " ", "") followed by single quotes becoming double quotes. */
  function Squeeze(s: string): string
  {
    if s == [] then [] else
    (if s[0] == ' ' then [] else if s[0] == '\'' then ['"'] else [s[0]]) + Squeeze(s[1..])
  }

  function NormalizePreserveExpression(expr: string): string
  {
    if Squeeze(expr) == "status.code==\"ERROR\"" then "status.code == \"ERROR\"" else expr
  }

  /** The one preserve predicate the evaluator knows. */
  predicate PreservesErrors(expr: string)
  {
    NormalizePreserveExpression(expr) == "status.code == \"ERROR\""
  }

  function PreserveExprs(t: Option<TracesAssertions>): seq<string>
  {
    if t.None? then [] else t.value.preserve
  }

  /** The first expression the evaluator would ignore. */
  function FirstUnsupported(exprs: seq<string>): (r: Option<string>)
    ensures r.None? <==> forall e :: e in exprs ==> PreservesErrors(e)
  {
    if exprs == [] then None
    else if !PreservesErrors(exprs[0]) then Some(exprs[0])
    else FirstUnsupported(exprs[1..])
  }

  function Validate(p: Policy): (r: Option<PolicyError>)
    ensures r.None? <==> p.version == SupportedVersion && HasAssertions(p) &&
                         forall e :: e in PreserveExprs(p.traces) ==> PreservesErrors(e)
  {
    if p.version == 0 then Some(VersionRequired)
    else if p.version != SupportedVersion then Some(UnsupportedVersion)
    else if !HasAssertions(p) then Some(NoAssertions)
    else
      var bad := FirstUnsupported(PreserveExprs(p.traces));
      if bad.Some? then Some(UnsupportedPreserve(bad.value)) else None
  }

  // ----- what the rules mean -----

  /** Which error is reported, in this order. */
  lemma ValidateMeans(p: Policy)
    ensures Validate(p) == Some(VersionRequired) <==> p.version == 0
    ensures Validate(p) == Some(UnsupportedVersion) <==> p.version != 0 && p.version != 1
    ensures Validate(p) == Some(NoAssertions) <==> p.version == 1 && !HasAssertions(p)
    ensures Validate(p).Some? && Validate(p).value.UnsupportedPreserve? ==>
              Validate(p).value.expr in PreserveExprs(p.traces) && !PreservesErrors(Validate(p).value.expr)
  {
    hide PreservesErrors, HasAssertions;
    FirstUnsupportedMember(PreserveExprs(p.traces));
  }

  lemma {:induction false} FirstUnsupportedMember(exprs: seq<string>)
    ensures FirstUnsupported(exprs).Some? ==>
              FirstUnsupported(exprs).value in exprs && !PreservesErrors(FirstUnsupported(exprs).value)
  {
    hide PreservesErrors;
    if exprs != [] {
      FirstUnsupportedMember(exprs[1..]);
    }
  }

  /** Some list of the policy is not empty, or a series limit is set. */
  lemma AssertionsMean(p: Policy)
    ensures HasAssertions(p) <==>
            (p.logs.Some? && |p.logs.value.forbiddenAttributes| + |p.logs.value.forbiddenValuePatterns| +
             |p.logs.value.forbiddenBodyPatterns| + |p.logs.value.requiredResourceAttributes| > 0) ||
            (p.traces.Some? && |p.traces.value.preserve| + |p.traces.value.forbiddenAttributes| +
             |p.traces.value.forbiddenValuePatterns| + |p.traces.value.requiredResourceAttributes| > 0) ||
            (p.metrics.Some? && (p.metrics.value.maxSeriesPerMetric > 0 ||
             |p.metrics.value.forbiddenLabels| + |p.metrics.value.forbiddenLabelValuePatterns| +
             |p.metrics.value.requiredResourceAttributes| > 0))
  {
  }

  lemma {:induction false} SqueezeConcat(a: string, b: string)
    ensures Squeeze(a + b) == Squeeze(a) + Squeeze(b)
  {
    if a == [] {
      assert a + b == b;
    } else {
      assert (a + b)[1..] == a[1..] + b;
      SqueezeConcat(a[1..], b);
    }
  }

  lemma {:induction false} SqueezePlain(s: string)
    requires ' ' !in s && '\'' !in s
    ensures Squeeze(s) == s
  {
    if s != [] {
      SqueezePlain(s[1..]);
      assert s == [s[0]] + s[1..];
    }
  }

  lemma PreservesBySqueezing(expr: string)
    ensures PreservesErrors(expr) <==> Squeeze(expr) == "status.code==\"ERROR\""
  {
    hide Squeeze;
    NormalFormSqueezed();
  }

  lemma NormalFormSqueezed()
    ensures Squeeze("status.code == \"ERROR\"") == "status.code==\"ERROR\""
  {
    hide Squeeze;
    var a, b, c := "status.code", "==", "\"ERROR\"";
    SqueezeSingles();
    SqueezePlain(a);
    SqueezePlain(b);
    SqueezePlain(c);
    SqueezeMiddle(a, " ", b);
    SqueezeMiddle(a + " " + b, " ", c);
    assert a + " " + b + " " + c == "status.code == \"ERROR\"";
    assert a + b + c == "status.code==\"ERROR\"";
  }

  /** Which preserve expressions are supported: spaces do not matter, single quotes count as double quotes, and without
      either only one text is. */
  lemma PreservesMeans(a: string, b: string)
    ensures PreservesErrors(a + " " + b) <==> PreservesErrors(a + b)
    ensures PreservesErrors(a + "'" + b) <==> PreservesErrors(a + "\"" + b)
    ensures ' ' !in a && '\'' !in a ==> (PreservesErrors(a) <==> a == "status.code==\"ERROR\"")
  {
    hide PreservesErrors;
    PreservesBySqueezing(a + " " + b);
    PreservesBySqueezing(a + b);
    PreservesBySqueezing(a + "'" + b);
    PreservesBySqueezing(a + "\"" + b);
    PreservesBySqueezing(a);
    SqueezeConcat(a, b);
    SqueezeMiddle(a, " ", b);
    SqueezeMiddle(a, "'", b);
    SqueezeMiddle(a, "\"", b);
    SqueezeSingles();
    if ' ' !in a && '\'' !in a {
      SqueezePlain(a);
    }
  }

  lemma SqueezeMiddle(a: string, m: string, b: string)
    ensures Squeeze(a + m + b) == Squeeze(a) + Squeeze(m) + Squeeze(b)
  {
    SqueezeConcat(a + m, b);
    SqueezeConcat(a, m);
  }

  lemma SqueezeSingles()
    ensures Squeeze(" ") == "" && Squeeze("'") == "\"" && Squeeze("\"") == "\""
  {
    assert " "[1..] == "" && "'"[1..] == "" && "\""[1..] == "";
  }
}
