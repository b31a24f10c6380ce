/** Report assembly, exit codes and number formatting (internal/report/report.go). */
module Report {
  import opened Strings

  datatype Status = Pass | Fail | Warn | Inconclusive | Error
  datatype RunnerName = FixtureRunner | Otelcol

  datatype Report = Report(schemaVersion: nat, overall: Status, passCount: nat, failCount: nat, warnCount: nat,
                           inconclusiveCount: nat, errorCount: nat)

  // ----- status precedence -----

  /** How a check weighs in the overall status; a warning does not count against a real execution. */
  function Severity(s: Status, runner: RunnerName): nat
  {
    match s
    case Pass => 0
    case Warn => if runner.Otelcol? then 0 else 1
    case Inconclusive => 2
    case Fail => 3
    case Error => 4
  }

  function OfSeverity(n: nat): Status
    requires n <= 4
  {
    if n == 0 then Pass else if n == 1 then Warn else if n == 2 then Inconclusive else if n == 3 then Fail else Error
  }

  /** The weight of the heaviest check. */
  function Heaviest(checks: seq<Status>, runner: RunnerName): (n: nat)
    ensures n <= 4
  {
    if checks == [] then 0 else
    var rest := Heaviest(checks[1..], runner);
    if Severity(checks[0], runner) > rest then Severity(checks[0], runner) else rest
  }

  function Count(checks: seq<Status>, s: Status): nat
  {
    multiset(checks)[s]
  }

  lemma {:induction false} HeaviestIsMaximum(checks: seq<Status>, runner: RunnerName)
    ensures forall s :: s in checks ==> Severity(s, runner) <= Heaviest(checks, runner)
    ensures Heaviest(checks, runner) > 0 ==> exists s :: s in checks && Severity(s, runner) == Heaviest(checks, runner)
  {
    if checks != [] {
      HeaviestIsMaximum(checks[1..], runner);
      assert checks == [checks[0]] + checks[1..];
    }
  }

  /** The overall status is a join: reordering the checks cannot change it. */
  lemma OrderDoesNotMatter(a: seq<Status>, b: seq<Status>, runner: RunnerName)
    requires multiset(a) == multiset(b)
    ensures Heaviest(a, runner) == Heaviest(b, runner)
  {
    HeaviestIsMaximum(a, runner);
    HeaviestIsMaximum(b, runner);
    assert forall s :: s in a <==> s in multiset(a);
    assert forall s :: s in b <==> s in multiset(b);
  }

  lemma JoinFromCounts(checks: seq<Status>, runner: RunnerName)
    ensures Heaviest(checks, runner) ==
            if Count(checks, Error) > 0 then 4
            else if Count(checks, Fail) > 0 then 3
            else if Count(checks, Inconclusive) > 0 then 2
            else if Count(checks, Warn) > 0 && runner.FixtureRunner? then 1 else 0
  {
    HeaviestIsMaximum(checks, runner);
    assert forall s :: s in checks <==> s in multiset(checks);
    assert Severity(Error, runner) == 4 && Severity(Fail, runner) == 3 && Severity(Inconclusive, runner) == 2;
    assert Severity(Warn, FixtureRunner) == 1 && Severity(Warn, Otelcol) == 0 && Severity(Pass, runner) == 0;
  }

  method CountStatuses(checks: seq<Status>) returns (pass: nat, fail: nat, warn: nat)
    ensures pass == Count(checks, Pass) && fail == Count(checks, Fail) && warn == Count(checks, Warn)
  {
    pass, fail, warn := 0, 0, 0;
    for i := 0 to |checks|
      invariant pass == Count(checks[..i], Pass) && fail == Count(checks[..i], Fail) && warn == Count(checks[..i], Warn)
    {
      assert checks[..i + 1] == checks[..i] + [checks[i]];
      match checks[i] {
        case Pass => pass := pass + 1;
        case Fail => fail := fail + 1;
        case Warn => warn := warn + 1;
        case Inconclusive =>
        case Error =>
      }
    }
    assert checks[..|checks|] == checks;
  }

  /** Error, then Fail, then Inconclusive, then Warn for the simulating runner only. */
  method Build(checks: seq<Status>, runner: RunnerName) returns (r: Report)
    ensures r.overall == OfSeverity(Heaviest(checks, runner))
    ensures r.passCount == Count(checks, Pass) && r.failCount == Count(checks, Fail) &&
            r.warnCount == Count(checks, Warn)
    ensures r.inconclusiveCount == Count(checks, Inconclusive) && r.errorCount == Count(checks, Error)
    ensures r.schemaVersion == if runner.Otelcol? then 2 else 1
  {
    var pass, fail, warn := CountStatuses(checks);
    var overall := Pass;
    if fail > 0 {
      overall := Fail;
    } else if warn > 0 {
      overall := Warn;
    }
    var schema := 1;
    if runner.Otelcol? {
      schema := 2;
      if overall == Warn {
        overall := Pass;
      }
    }
    var inconclusive, errors := 0, 0;
    for i := 0 to |checks|
      invariant inconclusive == Count(checks[..i], Inconclusive) && errors == Count(checks[..i], Error)
    {
      assert checks[..i + 1] == checks[..i] + [checks[i]];
      if checks[i] == Inconclusive {
        inconclusive := inconclusive + 1;
      }
      if checks[i] == Error {
        errors := errors + 1;
      }
    }
    assert checks[..|checks|] == checks;
    if inconclusive > 0 && fail == 0 {
      overall := Inconclusive;
    }
    if errors > 0 {
      overall := Error;
    }
    JoinFromCounts(checks, runner);
    return Report(schema, overall, pass, fail, warn, inconclusive, errors);
  }

  function ExitCode(r: Report, failOnWarn: bool): nat
  {
    if r.overall == Error then 3
    else if r.failCount > 0 then 1
    else if r.overall == Inconclusive then 4
    else if failOnWarn && r.warnCount > 0 then 1
    else 0
  }

  /** What Build reports about these checks. */
  ghost predicate Reports(r: Report, checks: seq<Status>, runner: RunnerName)
  {
    r.overall == OfSeverity(Heaviest(checks, runner)) && r.failCount == Count(checks, Fail) &&
    r.warnCount == Count(checks, Warn)
  }

  /** Each exit code says which kinds of results the checks contain. */
  lemma ExitCodeMeaning(r: Report, checks: seq<Status>, runner: RunnerName, failOnWarn: bool)
    requires Reports(r, checks, runner)
    ensures ExitCode(r, failOnWarn) == 0 <==> forall s :: s in checks ==> s == Pass || (s == Warn && !failOnWarn)
    ensures ExitCode(r, failOnWarn) == 3 <==> Error in checks
    ensures ExitCode(r, failOnWarn) == 4 <==> Inconclusive in checks && Fail !in checks && Error !in checks
    ensures ExitCode(r, failOnWarn) == 1 <==>
            Error !in checks && (Fail in checks || (failOnWarn && Warn in checks && Inconclusive !in checks))
    ensures ExitCode(r, failOnWarn) in {0, 1, 3, 4}
  {
    JoinFromCounts(checks, runner);
    assert forall s :: s in checks <==> Count(checks, s) > 0;
  }

  /** The overall status by the statuses present; a warning counts for the simulating runner only. */
  lemma OverallMeans(r: Report, checks: seq<Status>, runner: RunnerName)
    requires Reports(r, checks, runner)
    ensures r.overall == Error <==> Error in checks
    ensures r.overall == Fail <==> Fail in checks && Error !in checks
    ensures r.overall == Inconclusive <==> Inconclusive in checks && Fail !in checks && Error !in checks
    ensures r.overall == Warn <==>
            Warn in checks && runner.FixtureRunner? && Inconclusive !in checks && Fail !in checks && Error !in checks
    ensures r.overall == Pass <==> forall s :: s in checks ==> s == Pass || (s == Warn && runner.Otelcol?)
  {
    JoinFromCounts(checks, runner);
    assert forall s :: s in checks <==> Count(checks, s) > 0;
  }

  // ----- thousands separators -----

  /** Groups of three from the right. */
  function Group(s: string): string
  {
    if |s| <= 3 then s else Group(s[..|s| - 3]) + "," + s[|s| - 3..]
  }

  function Join(parts: seq<string>): string
  {
    if parts == [] then "" else if |parts| == 1 then parts[0] else parts[0] + "," + Join(parts[1..])
  }

  lemma JoinPrepend(part: string, parts: seq<string>)
    ensures Join([part] + parts) == if parts == [] then part else part + "," + Join(parts)
  {
    assert ([part] + parts)[1..] == parts;
  }

  /** The loop shrinks s from the right and prepends what it cuts off. */
  method FormatSeries(n: nat) returns (text: string)
    ensures text == Group(Decimal(n))
  {
    hide Decimal;
    var s := Decimal(n);
    if |s| <= 3 {
      return s;
    }
    var parts: seq<string> := [];
    while |s| > 3
      invariant s != []
      invariant Group(Decimal(n)) == if parts == [] then Group(s) else Group(s) + "," + Join(parts)
      invariant parts == [] ==> |s| > 3
    {
      var cut := s[|s| - 3..];
      JoinPrepend(cut, parts);
      Comma(Group(s[..|s| - 3]), cut, Join(parts));
      parts := [cut] + parts;
      s := s[..|s| - 3];
    }
    JoinPrepend(s, parts);
    if s != "" {
      parts := [s] + parts;
    }
    return Join(parts);
  }

  lemma Comma(a: string, b: string, c: string)
    ensures a + "," + b + "," + c == a + "," + (b + "," + c)
  {
  }

  function Kept(c: char): string
  {
    if c == ',' then [] else [c]
  }

  function RemoveCommas(s: string): string
  {
    if s == [] then [] else Kept(s[0]) + RemoveCommas(s[1..])
  }

  lemma {:induction false} RemoveCommasConcat(a: string, b: string)
    ensures RemoveCommas(a + b) == RemoveCommas(a) + RemoveCommas(b)
  {
    if a == [] {
      assert a + b == b;
    } else {
      hide Kept;
      assert (a + b)[1..] == a[1..] + b;
      RemoveCommasConcat(a[1..], b);
      assert Kept(a[0]) + (RemoveCommas(a[1..]) + RemoveCommas(b)) ==
             Kept(a[0]) + RemoveCommas(a[1..]) + RemoveCommas(b);
    }
  }

  lemma {:induction false} NoCommas(s: string)
    requires IsDecimal(s)
    ensures RemoveCommas(s) == s
  {
    if s != [] {
      assert s[0] >= '0';
      NoCommas(s[1..]);
    }
  }

  lemma CommaVanishes()
    ensures RemoveCommas(",") == ""
  {
    assert ","[1..] == "";
  }

  lemma {:induction false} GroupOnlyAddsCommas(s: string)
    requires IsDecimal(s)
    ensures RemoveCommas(Group(s)) == s
  {
    hide RemoveCommas;
    if |s| <= 3 {
      NoCommas(s);
    } else {
      var head, tail := s[..|s| - 3], s[|s| - 3..];
      GroupOnlyAddsCommas(head);
      NoCommas(tail);
      RemoveCommasConcat(Group(head) + ",", tail);
      RemoveCommasConcat(Group(head), ",");
      CommaVanishes();
      assert s == head + tail;
    }
  }

  /** One to three digits, then groups of exactly three, each after a comma. */
  predicate WellGrouped(t: string)
  {
    if |t| <= 3 then t != [] && IsDecimal(t)
    else t[|t| - 4] == ',' && IsDecimal(t[|t| - 3..]) && WellGrouped(t[..|t| - 4])
  }

  lemma {:induction false} GroupIsWellGrouped(s: string)
    requires IsDecimal(s) && s != []
    ensures WellGrouped(Group(s))
  {
    if |s| > 3 {
      var head, tail := s[..|s| - 3], s[|s| - 3..];
      GroupIsWellGrouped(head);
      var t := Group(s);
      assert t == Group(head) + "," + tail;
      assert t[..|t| - 4] == Group(head) && t[|t| - 3..] == tail;
    }
  }

  /** A formatted count reads back as the count, so distinct counts never look alike. */
  lemma FormattedCountReadsBack(n: nat)
    ensures WellGrouped(Group(Decimal(n)))
    ensures RemoveCommas(Group(Decimal(n))) == Decimal(n) && ReadDecimal(RemoveCommas(Group(Decimal(n)))) == n
  {
    hide Group, RemoveCommas, WellGrouped;
    GroupOnlyAddsCommas(Decimal(n));
    GroupIsWellGrouped(Decimal(n));
    DecimalRoundTrip(n);
  }

  lemma FormatInjective(a: nat, b: nat)
    requires Group(Decimal(a)) == Group(Decimal(b))
    ensures a == b
  {
    FormattedCountReadsBack(a);
    FormattedCountReadsBack(b);
  }
}
