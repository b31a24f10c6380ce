/** A Collector run together with the log its process writes and the calls its capture server receives. What Run learns
    of the two (readiness, a failed export, a bind conflict, a failed capture) is here computed from the bytes and the
    calls, as internal/runner/process.go and internal/runner/capture.go do. */
module JointRun {
  import opened Strings
  import opened Folding
  import opened Capture
  import B = LogBuffer
  import L = Lifecycle

  // ----- reading the kept log -----

  function ConflictTexts(): set<seq<byte>>
  {
    {B.Bytes("address already in use")}
  }

  function ComponentTexts(): set<seq<byte>>
  {
    {B.Bytes("unknown type"), B.Bytes("unknown processor"), B.Bytes("unknown exporter"), B.Bytes("unknown receiver")}
  }

  function ConfigTexts(): set<seq<byte>>
  {
    DecodingTexts() + BuildTexts()
  }

  function DecodingTexts(): set<seq<byte>>
  {
    {B.Bytes("failed to get config"), B.Bytes("error decoding"), B.Bytes("invalid configuration")}
  }

  function BuildTexts(): set<seq<byte>>
  {
    {B.Bytes("failed to build"), B.Bytes("invalid keys"), B.Bytes("configuration references")}
  }

  /** Why a process exited, as its kept log tells. */
  ghost function FailureIn(log: seq<byte>): L.Category
  {
    if B.Mentions(log, ConflictTexts()) then L.BindConflict
    else if B.Mentions(log, ComponentTexts()) then L.MissingComponent
    else if B.Mentions(log, ConfigTexts()) then L.InvalidConfig
    else L.ProcessExit
  }

  lemma MentionsUnion(log: seq<byte>, a: set<seq<byte>>, b: set<seq<byte>>)
    ensures B.Mentions(log, a + b) <==> B.Mentions(log, a) || B.Mentions(log, b)
  {
  }

  lemma ConfigTextsMean(log: seq<byte>)
    ensures B.Mentions(log, ConfigTexts()) <==>
            B.SpelledIn(log, "failed to get config") || B.SpelledIn(log, "error decoding") ||
            B.SpelledIn(log, "invalid configuration") || B.SpelledIn(log, "failed to build") ||
            B.SpelledIn(log, "invalid keys") || B.SpelledIn(log, "configuration references")
  {
    hide B.SpelledIn, Contains, B.Bytes, B.Mentions, DecodingTexts, BuildTexts;
    MentionsUnion(log, DecodingTexts(), BuildTexts());
    DecodingTextsMean(log);
    BuildTextsMean(log);
  }

  lemma DecodingTextsMean(log: seq<byte>)
    ensures B.Mentions(log, DecodingTexts()) <==>
            B.SpelledIn(log, "failed to get config") || B.SpelledIn(log, "error decoding") ||
            B.SpelledIn(log, "invalid configuration")
  {
    hide B.SpelledIn, Contains, B.Bytes;
    B.SpelledMeans(log, "failed to get config");
    B.SpelledMeans(log, "error decoding");
    B.SpelledMeans(log, "invalid configuration");
  }

  lemma BuildTextsMean(log: seq<byte>)
    ensures B.Mentions(log, BuildTexts()) <==>
            B.SpelledIn(log, "failed to build") || B.SpelledIn(log, "invalid keys") ||
            B.SpelledIn(log, "configuration references")
  {
    hide B.SpelledIn, Contains, B.Bytes;
    B.SpelledMeans(log, "failed to build");
    B.SpelledMeans(log, "invalid keys");
    B.SpelledMeans(log, "configuration references");
  }

  lemma ComponentTextsMean(log: seq<byte>)
    ensures B.Mentions(log, ComponentTexts()) <==>
            B.SpelledIn(log, "unknown type") || B.SpelledIn(log, "unknown processor") ||
            B.SpelledIn(log, "unknown exporter") || B.SpelledIn(log, "unknown receiver")
  {
    hide B.SpelledIn, Contains, B.Bytes;
    B.SpelledMeans(log, "unknown type");
    B.SpelledMeans(log, "unknown processor");
    B.SpelledMeans(log, "unknown exporter");
    B.SpelledMeans(log, "unknown receiver");
  }

  lemma ConflictTextsMean(log: seq<byte>)
    ensures B.Mentions(log, ConflictTexts()) <==> B.SpelledIn(log, "address already in use")
  {
    hide B.SpelledIn, Contains, B.Bytes;
    B.SpelledMeans(log, "address already in use");
  }

  /** Which phrases decide the category of an exited process, and that earlier groups win. */
  lemma FailureMeans(log: seq<byte>)
    ensures var conflict := B.SpelledIn(log, "address already in use");
            var component := B.SpelledIn(log, "unknown type") || B.SpelledIn(log, "unknown processor") ||
                             B.SpelledIn(log, "unknown exporter") || B.SpelledIn(log, "unknown receiver");
            var config := B.SpelledIn(log, "failed to get config") || B.SpelledIn(log, "error decoding") ||
                          B.SpelledIn(log, "invalid configuration") || B.SpelledIn(log, "failed to build") ||
                          B.SpelledIn(log, "invalid keys") || B.SpelledIn(log, "configuration references");
            (FailureIn(log) == L.BindConflict <==> conflict) &&
            (FailureIn(log) == L.MissingComponent <==> component && !conflict) &&
            (FailureIn(log) == L.InvalidConfig <==> config && !component && !conflict) &&
            (FailureIn(log) == L.ProcessExit <==> !config && !component && !conflict)
  {
    hide B.SpelledIn, B.Mentions, ConflictTexts, ComponentTexts, ConfigTexts;
    ConflictTextsMean(log);
    ComponentTextsMean(log);
    ConfigTextsMean(log);
  }

  /** processFailure */
  method ProcessFailure(logs: seq<byte>) returns (category: L.Category)
    ensures category == FailureIn(logs)
  {
    hide ConflictTexts, ComponentTexts, ConfigTexts, B.Mentions, Lower;
    var lower := Lower(logs);
    var found := AddressInUse(logs, lower);
    if found { return L.BindConflict; }
    found := ComponentUnknown(logs, lower);
    if found { return L.MissingComponent; }
    found := ConfigRejected(logs, lower);
    if found { return L.InvalidConfig; }
    return L.ProcessExit;
  }

  method AddressInUse(ghost logs: seq<byte>, lower: seq<byte>) returns (found: bool)
    requires lower == Lower(logs)
    ensures found <==> B.Mentions(logs, ConflictTexts())
  {
    hide B.Bytes, Contains;
    found := Search(lower, B.Bytes("address already in use"));
  }

  method ComponentUnknown(ghost logs: seq<byte>, lower: seq<byte>) returns (found: bool)
    requires lower == Lower(logs)
    ensures found <==> B.Mentions(logs, ComponentTexts())
  {
    hide B.Bytes, Contains;
    found := Search(lower, B.Bytes("unknown type"));
    if !found { found := Search(lower, B.Bytes("unknown processor")); }
    if !found { found := Search(lower, B.Bytes("unknown exporter")); }
    if !found { found := Search(lower, B.Bytes("unknown receiver")); }
  }

  method ConfigRejected(ghost logs: seq<byte>, lower: seq<byte>) returns (found: bool)
    requires lower == Lower(logs)
    ensures found <==> B.Mentions(logs, ConfigTexts())
  {
    hide DecodingTexts, BuildTexts, Contains;
    found := NotDecoded(logs, lower);
    if !found { found := NotBuilt(logs, lower); }
  }

  method NotDecoded(ghost logs: seq<byte>, lower: seq<byte>) returns (found: bool)
    requires lower == Lower(logs)
    ensures found <==> B.Mentions(logs, DecodingTexts())
  {
    hide B.Bytes, Contains;
    found := Search(lower, B.Bytes("failed to get config"));
    if !found { found := Search(lower, B.Bytes("error decoding")); }
    if !found { found := Search(lower, B.Bytes("invalid configuration")); }
  }

  method NotBuilt(ghost logs: seq<byte>, lower: seq<byte>) returns (found: bool)
    requires lower == Lower(logs)
    ensures found <==> B.Mentions(logs, BuildTexts())
  {
    hide B.Bytes, Contains;
    found := Search(lower, B.Bytes("failed to build"));
    if !found { found := Search(lower, B.Bytes("invalid keys")); }
    if !found { found := Search(lower, B.Bytes("configuration references")); }
  }

  // ----- joint runs -----

  /** One thing that happens: a step whose cause is neither the log nor the capture server, some output of the process,
      or a call to the capture server. */
  datatype Happening<T> =
    | Act(step: L.Step)
    | Output(bytes: seq<byte>)
    | Call(event: Event<T>)

  /** The run, everything its present process has written, and everything the capture server was called with. */
  datatype Joint<T> = Joint(life: L.State, log: seq<byte>, calls: seq<Event<T>>)

  function CategoryOf(failure: string): Option<L.Category>
  {
    if failure == "" then None
    else if failure == "capture_limit" then Some(L.CaptureLimit)
    else if failure == "capture_transport" then Some(L.CaptureTransport)
    else if failure == "capture_server" then Some(L.CaptureServer)
    else Some(L.CaptureShutdown)
  }

  /** What processFailure reads: the bytes the buffer still keeps. */
  function Kept(log: seq<byte>): seq<byte>
  {
    B.Tail(log, B.MAX_DIAGNOSTIC_BYTES)
  }

  predicate IsNews(step: L.Step)
  {
    step.Env? && L.IsNews(step.event)
  }

  /** The category of a process that exited during start-up is the one its kept log tells. */
  ghost predicate ReadsLog(step: L.Step, log: seq<byte>)
  {
    step.RunVerdict? && step.verdict.ExitedInStartup? ==>
      FailureIn(Kept(log)) == L.BindConflict || step.verdict.category == FailureIn(Kept(log))
  }

  ghost predicate Possible<T>(j: Joint<T>, h: Happening<T>)
  {
    match h
    case Act(step) => L.Enabled(j.life, step) && !IsNews(step) && ReadsLog(step, j.log)
    case Output(_) => j.life.child.Live?
    case Call(e) => j.life.sink.Open? && !e.ShutdownTimedOut?
  }

  /** What Run knows of a log. */
  ghost function Noticed(s: L.State, log: seq<byte>): L.State
  {
    s.(ready := B.Mentions(log, B.ReadyMarkers()), exportFailure := B.Mentions(log, B.ExportMarkers()),
       bindConflict := FailureIn(Kept(log)) == L.BindConflict)
  }

  function Restarted(log: seq<byte>, step: L.Step): seq<byte>
  {
    if step == L.RunLaunch(L.ChildStarts) then [] else log
  }

  function Drained<T>(calls: seq<Event<T>>, step: L.Step): seq<Event<T>>
  {
    if step == L.RunCleanup(L.SinkDrainTimedOut) then calls + [ShutdownTimedOut] else calls
  }

  ghost function Then<T>(j: Joint<T>, h: Happening<T>): Joint<T>
    requires Possible(j, h)
  {
    match h
    case Act(step) => Joint(L.Next(j.life, step), Restarted(j.log, step), Drained(j.calls, step))
    case Output(p) => Joint(Noticed(j.life, j.log + p), j.log + p, j.calls)
    case Call(e) =>
      Joint(j.life.(sinkFailure := CategoryOf(FailureAfter(j.calls + [e]))), j.log, j.calls + [e])
  }

  /** The joint state after a history, if everything in it could happen. */
  ghost function JointAfter<T>(cfg: L.Config, hs: seq<Happening<T>>): Option<Joint<T>>
  {
    if hs == [] then Some(Joint(L.Init(cfg), [], [])) else
    var j := JointAfter(cfg, hs[..|hs| - 1]);
    if j.Some? && Possible(j.value, hs[|hs| - 1]) then Some(Then(j.value, hs[|hs| - 1])) else None
  }

  // ----- what Run knows is what the log and the calls say -----

  ghost predicate Informed<T>(j: Joint<T>)
  {
    j.life == Noticed(j.life, j.log) && j.life.sinkFailure == CategoryOf(FailureAfter(j.calls))
  }

  lemma NothingMentioned(markers: set<seq<byte>>)
    requires [] !in markers
    ensures !B.Mentions([], markers)
  {
    LowerNothing();
    forall m | m in markers ensures !Contains(Lower([]), m) {
      assert forall i: nat :: !At(Lower([]), m, i);
    }
  }

  lemma EmptyLog()
    ensures !B.Mentions([], B.ReadyMarkers()) && !B.Mentions([], B.ExportMarkers())
    ensures FailureIn(Kept([])) == L.ProcessExit
  {
    hide B.Mentions;
    NothingMentioned(B.ReadyMarkers());
    NothingMentioned(B.ExportMarkers());
    NothingMentioned(ConflictTexts());
    NothingMentioned(ComponentTexts());
    NothingMentioned(ConfigTexts());
  }

  lemma InitIsInformed<T>(cfg: L.Config)
    ensures Informed<T>(Joint(L.Init(cfg), [], []))
  {
    hide B.Mentions, FailureIn, Kept;
    EmptyLog();
  }

  /** The first failure of the capture is the one that stays; stopping it too late is a failure unless one stands. */
  lemma DrainTimeout<T>(calls: seq<Event<T>>)
    ensures FailureAfter(calls + [ShutdownTimedOut]) ==
            if FailureAfter(calls) == "" then "capture_shutdown" else FailureAfter(calls)
  {
    assert (calls + [ShutdownTimedOut])[..|calls|] == calls;
  }

  lemma ActKeepsInformed<T>(j: Joint<T>, step: L.Step)
    requires Informed(j) && Possible(j, Act(step))
    ensures Informed(Then(j, Act(step)))
  {
    hide L.Enabled, L.Next, B.Mentions, FailureIn, Kept, FailureAfter, ReadsLog;
    L.StepHears(j.life, step);
    EmptyLog();
    DrainTimeout(j.calls);
  }

  lemma ThenIsInformed<T>(j: Joint<T>, h: Happening<T>)
    requires Informed(j) && Possible(j, h)
    ensures Informed(Then(j, h))
  {
    hide L.Enabled, L.Next, B.Mentions, FailureIn, Kept, FailureAfter, ReadsLog;
    if h.Act? {
      ActKeepsInformed(j, h.step);
    }
  }

  lemma {:induction false} JointRunsAreInformed<T>(cfg: L.Config, hs: seq<Happening<T>>)
    requires JointAfter(cfg, hs).Some?
    ensures Informed(JointAfter(cfg, hs).value)
  {
    hide Informed, Possible, Then;
    if hs == [] {
      InitIsInformed<T>(cfg);
    } else {
      JointRunsAreInformed(cfg, hs[..|hs| - 1]);
      ThenIsInformed(JointAfter(cfg, hs[..|hs| - 1]).value, hs[|hs| - 1]);
    }
  }

  // ----- every joint run is a run -----

  lemma MentionsStay(log: seq<byte>, p: seq<byte>)
    ensures B.Mentions(log, B.ReadyMarkers()) ==> B.Mentions(log + p, B.ReadyMarkers())
    ensures B.Mentions(log, B.ExportMarkers()) ==> B.Mentions(log + p, B.ExportMarkers())
  {
    hide B.Mentions, B.FitsSeams;
    B.MarkersFit();
    B.MentionsGrows(log, p, Kept(log), B.ReadyMarkers());
    B.MentionsGrows(log, p, Kept(log), B.ExportMarkers());
  }

  /** Output is heard as up to three events. */
  lemma OutputIsHeard<T>(cfg: L.Config, steps: seq<L.Step>, j: Joint<T>, p: seq<byte>) returns (longer: seq<L.Step>)
    requires L.After(cfg, steps) == Some(j.life) && Informed(j) && j.life.child.Live?
    ensures L.After(cfg, longer) == Some(Noticed(j.life, j.log + p))
  {
    hide L.After, B.Mentions, FailureIn, Kept, FailureAfter;
    MentionsStay(j.log, p);
    var t := Noticed(j.life, j.log + p);
    longer := HearReady(cfg, steps, j.life, t.ready);
    longer := HearExportFailure(cfg, longer, j.life.(ready := t.ready), t.exportFailure);
    longer := HearConflict(cfg, longer, t.(bindConflict := j.life.bindConflict), t.bindConflict);
  }

  lemma HearReady(cfg: L.Config, steps: seq<L.Step>, s: L.State, ready: bool) returns (longer: seq<L.Step>)
    requires L.After(cfg, steps) == Some(s) && s.child.Live? && (s.ready ==> ready)
    ensures L.After(cfg, longer) == Some(s.(ready := ready))
  {
    hide L.After;
    longer := steps;
    if ready {
      longer := Hear(cfg, steps, s, L.ReadyLine);
    }
  }

  lemma HearExportFailure(cfg: L.Config, steps: seq<L.Step>, s: L.State, reported: bool)
    returns (longer: seq<L.Step>)
    requires L.After(cfg, steps) == Some(s) && s.child.Live? && (s.exportFailure ==> reported)
    ensures L.After(cfg, longer) == Some(s.(exportFailure := reported))
  {
    hide L.After;
    longer := steps;
    if reported {
      longer := Hear(cfg, steps, s, L.ExportFailureLine);
    }
  }

  lemma HearConflict(cfg: L.Config, steps: seq<L.Step>, s: L.State, shown: bool) returns (longer: seq<L.Step>)
    requires L.After(cfg, steps) == Some(s) && s.child.Live?
    ensures L.After(cfg, longer) == Some(s.(bindConflict := shown))
  {
    hide L.After;
    if shown {
      longer := Hear(cfg, steps, s, L.BindConflictLine);
    } else {
      longer := Hear(cfg, steps, s, L.ConflictScrolledOff);
    }
  }

  lemma Hear(cfg: L.Config, steps: seq<L.Step>, s: L.State, e: L.Event) returns (longer: seq<L.Step>)
    requires L.After(cfg, steps) == Some(s) && L.May(s, e)
    ensures L.After(cfg, longer) == Some(L.Happen(s, e))
  {
    hide L.After, L.May, L.Happen;
    longer := L.Extend(cfg, steps, L.Env(e));
  }

  lemma CallCategories<T>(calls: seq<Event<T>>, e: Event<T>)
    requires !e.ShutdownTimedOut?
    ensures FailureAfter(calls) != "" ==> FailureAfter(calls + [e]) == FailureAfter(calls)
    ensures FailureAfter(calls) == "" && FailureAfter(calls + [e]) != "" ==>
              CategoryOf(FailureAfter(calls + [e])).value in L.CaptureCategories
  {
    hide Fits;
    assert (calls + [e])[..|calls|] == calls;
  }

  /** What the capture's failure is called: the first event that fails decides, and later ones change nothing. */
  lemma FirstFailureNames<T>(calls: seq<Event<T>>, e: Event<T>)
    ensures CategoryOf(FailureAfter<T>([])) == None
    ensures var before, after := CategoryOf(FailureAfter(calls)), CategoryOf(FailureAfter(calls + [e]));
            after ==
            if before.Some? then before else
            match e
            case Export(r) => if Fits(Exports(calls) + [r]) then None else Some(L.CaptureLimit)
            case RpcEnded(rpcFailed, exhausted) =>
              if !rpcFailed then None else if exhausted then Some(L.CaptureLimit) else Some(L.CaptureTransport)
            case ServeFailed => Some(L.CaptureServer)
            case ShutdownTimedOut => Some(L.CaptureShutdown)
  {
    hide Fits;
    CallGrows(calls, e);
    FailureNamed(FailureAfter(calls));
  }

  lemma FailureNamed(failure: string)
    ensures CategoryOf(failure).None? <==> failure == ""
  {
  }

  /** A call is heard when it is the first to fail. */
  lemma CallIsHeard<T>(cfg: L.Config, steps: seq<L.Step>, j: Joint<T>, e: Event<T>) returns (longer: seq<L.Step>)
    requires L.After(cfg, steps) == Some(j.life) && Informed(j) && Possible(j, Call(e))
    ensures L.After(cfg, longer) == Some(j.life.(sinkFailure := CategoryOf(FailureAfter(j.calls + [e]))))
  {
    hide L.After, FailureAfter, Noticed, L.CaptureCategories, CategoryOf;
    FailureNamed(FailureAfter(j.calls));
    CallCategories(j.calls, e);
    longer := steps;
    if FailureAfter(j.calls) == "" && FailureAfter(j.calls + [e]) != "" {
      FailureNamed(FailureAfter(j.calls + [e]));
      longer := Hear(cfg, steps, j.life, L.CaptureFails(CategoryOf(FailureAfter(j.calls + [e])).value));
    }
  }

  /** Forgetting the bytes and the calls leaves an interleaving of the transition system, so everything proved of all
      interleavings holds of all joint runs. */
  lemma {:induction false} JointRunsAreRuns<T>(cfg: L.Config, hs: seq<Happening<T>>) returns (steps: seq<L.Step>)
    requires JointAfter(cfg, hs).Some?
    ensures L.After(cfg, steps) == Some(JointAfter(cfg, hs).value.life)
  {
    hide L.After, L.Enabled, L.Next, Informed, Noticed, ReadsLog, FailureAfter, CategoryOf;
    if hs == [] {
      steps := [];
      L.AtStart(cfg);
    } else {
      var j := JointAfter(cfg, hs[..|hs| - 1]).value;
      steps := JointRunsAreRuns(cfg, hs[..|hs| - 1]);
      JointRunsAreInformed(cfg, hs[..|hs| - 1]);
      match hs[|hs| - 1] {
        case Act(step) => steps := L.Extend(cfg, steps, step);
        case Output(p) => steps := OutputIsHeard(cfg, steps, j, p);
        case Call(e) => steps := CallIsHeard(cfg, steps, j, e);
      }
    }
  }

  // ----- smooth runs are joint runs -----

  lemma {:induction false} PlainLower(s: seq<byte>)
    requires forall b :: b in s ==> b < 128 && !(65 <= b <= 90)
    ensures Lower(s) == s
  {
    if s != [] {
      assert s[0] in s && s == [s[0]] + s[1..];
      assert forall b :: b in s[1..] ==> b in s;
      PlainLower(s[1..]);
    }
  }

  function ReadyText(): seq<byte>
  {
    B.Bytes("everything is ready")
  }

  lemma ReadyTextIsPlain()
    ensures Lower(ReadyText()) == ReadyText()
  {
    hide Lower;
    PlainLower(ReadyText());
  }

  lemma ReadyTextMentionsReadiness()
    ensures B.Mentions(ReadyText(), B.ReadyMarkers())
  {
    hide Lower, B.Bytes;
    ReadyTextIsPlain();
    assert At(ReadyText(), ReadyText(), 0);
    assert ReadyText() in B.ReadyMarkers();
  }

  lemma ReadyTextMentionsNoFailure()
    ensures !B.Mentions(ReadyText(), B.ExportMarkers())
    ensures FailureIn(Kept(ReadyText())) != L.BindConflict
  {
    hide Lower, B.Bytes;
    var t := ReadyText();
    ReadyTextIsPlain();
    forall m | m in B.ExportMarkers() ensures !Contains(t, m) {
      Unlike(t, m);
    }
    forall m | m in ConflictTexts() ensures !Contains(t, m) {
      assert forall i: nat :: !At(t, m, i);
    }
  }

  /** The text is too short for the second letter of an export marker to fit anywhere. */
  lemma Unlike(t: seq<byte>, m: seq<byte>)
    requires t == ReadyText() && m in B.ExportMarkers()
    ensures !Contains(t, m)
  {
    assert |m| >= 15 && (m[1] == 'x' as int as byte || m[1] == 'a' as int as byte);
    forall i: nat ensures !At(t, m, i) {
      if i + |m| <= |t| {
        assert t[i..i + |m|][1] == t[i + 1] != m[1];
      }
    }
  }

  lemma ReadyTextNoticed(s: L.State)
    requires s == Noticed(s, [])
    ensures Noticed(s, [] + ReadyText()) == s.(ready := true)
  {
    hide B.Mentions, FailureIn, Kept, ReadyText;
    assert [] + ReadyText() == ReadyText();
    EmptyLog();
    ReadyTextMentionsReadiness();
    ReadyTextMentionsNoFailure();
  }

  /** Every interleaving in which the log shows nothing but readiness, the capture never fails and no process exits
      during start-up comes from a joint run. */
  lemma {:induction false} SmoothRunsAreJoint<T>(cfg: L.Config, steps: seq<L.Step>) returns (hs: seq<Happening<T>>)
    requires L.After(cfg, steps).Some? && L.AllSmooth(steps)
    ensures JointAfter(cfg, hs).Some?
    ensures var j := JointAfter(cfg, hs).value;
            j.life == L.After(cfg, steps).value && (j.log == [] || (j.log == ReadyText() && j.life.ready))
  {
    hide L.Enabled, L.Next, Noticed, FailureAfter, B.Mentions, FailureIn, Kept, ReadyText;
    if steps == [] {
      hs := [];
    } else {
      var init, step := steps[..|steps| - 1], steps[|steps| - 1];
      hs := SmoothRunsAreJoint(cfg, init);
      var j := JointAfter(cfg, hs).value;
      JointRunsAreInformed(cfg, hs);
      if step == L.Env(L.ReadyLine) {
        ReadyLineFollows(j.life);
        if j.log == [] {
          ReadyTextNoticed(j.life);
          hs := Continue(cfg, hs, Output(ReadyText()));
        }
      } else {
        hs := Continue(cfg, hs, Act(step));
        if step != L.RunLaunch(L.ChildStarts) {
          SmoothStepKeepsReady(j.life, step);
        }
      }
    }
  }

  lemma ReadyLineFollows(s: L.State)
    requires L.Enabled(s, L.Env(L.ReadyLine))
    ensures s.child.Live? && L.Next(s, L.Env(L.ReadyLine)) == s.(ready := true)
  {
  }

  lemma SmoothStepKeepsReady(s: L.State, step: L.Step)
    requires L.Enabled(s, step) && !IsNews(step) && step != L.RunLaunch(L.ChildStarts)
    ensures L.Next(s, step).ready == s.ready
  {
    hide L.Enabled, L.Next;
    L.StepHears(s, step);
  }

  lemma Continue<T>(cfg: L.Config, hs: seq<Happening<T>>, h: Happening<T>) returns (longer: seq<Happening<T>>)
    requires JointAfter(cfg, hs).Some? && Possible(JointAfter(cfg, hs).value, h)
    ensures JointAfter(cfg, longer) == Some(Then(JointAfter(cfg, hs).value, h))
  {
    hide Possible, Then;
    longer := hs + [h];
    assert longer[..|hs|] == hs;
  }

  /** Joint runs that return nil exist, whatever there is to submit and however long it must settle. */
  lemma SuccessIsReachable<T>(cfg: L.Config) returns (hs: seq<Happening<T>>)
    ensures JointAfter(cfg, hs).Some? && L.Succeeded(Some(JointAfter(cfg, hs).value.life))
  {
    hide L.After, JointAfter;
    var steps := L.SuccessIsReachable(cfg);
    hs := SmoothRunsAreJoint(cfg, steps);
  }

  // ----- the objects of the program -----

  /** The log buffer and the capture sink hold what the joint state says. */
  ghost predicate Holds<T>(j: Joint<T>, log: B.PrivateBuffer, sink: CaptureSink<T>)
    reads log, sink, sink.failed
  {
    log.Valid() && log.stream == j.log && sink.Valid() && sink.failure == FailureAfter(j.calls) &&
    sink.delivered == Exports(j.calls)
  }

  lemma CallGrows<T>(calls: seq<Event<T>>, e: Event<T>)
    ensures Exports(calls + [e]) == Exports(calls) + Exported(e)
    ensures FailureAfter(calls + [e]) == Cause(FailureAfter(calls), Exports(calls), e)
  {
    assert (calls + [e])[..|calls|] == calls;
  }

  method Record<T>(ghost j: Joint<T>, log: B.PrivateBuffer, sink: CaptureSink<T>, e: Event<T>)
    requires Holds(j, log, sink)
    modifies sink, sink.failed
    ensures Holds(j.(calls := j.calls + [e]), log, sink)
  {
    hide FailureAfter, Exports, Fits, B.Mentions;
    CallGrows(j.calls, e);
    CauseIgnores(sink.failure, sink.accepted, Exports(j.calls), e);
    sink.Handle(e);
  }

  /** Once there is a failure, what was accepted no longer matters. */
  lemma CauseIgnores<T>(failure: string, a: seq<Request<T>>, b: seq<Request<T>>, e: Event<T>)
    requires failure == "" ==> a == b
    ensures Cause(failure, a, e) == Cause(failure, b, e)
  {
  }

  /** Lets a history happen to a log buffer and a capture sink, as long as it is possible. */
  method Watch<T>(cfg: L.Config, hs: seq<Happening<T>>)
    returns (possible: bool, s: L.State, log: B.PrivateBuffer, sink: CaptureSink<T>)
    ensures fresh(log) && fresh(sink) && fresh(sink.failed)
    ensures possible <==> JointAfter(cfg, hs).Some?
    ensures possible ==> s == JointAfter(cfg, hs).value.life && Holds(JointAfter(cfg, hs).value, log, sink)
  {
    hide L.Enabled, L.Next, Noticed, ReadsLog, FailureAfter, Exports, B.Mentions, Informed, Holds, Then, Possible;
    s := L.Init(cfg);
    log := new B.PrivateBuffer();
    sink := new CaptureSink<T>();
    possible := true;
    NothingHeld(cfg, log, sink);
    for i := 0 to |hs|
      invariant fresh(log) && fresh(sink) && fresh(sink.failed)
      invariant possible && JointAfter(cfg, hs[..i]).Some?
      invariant s == JointAfter(cfg, hs[..i]).value.life && Holds(JointAfter(cfg, hs[..i]).value, log, sink)
    {
      assert hs[..i + 1][..i] == hs[..i];
      ghost var j := JointAfter(cfg, hs[..i]).value;
      JointRunsAreInformed(cfg, hs[..i]);
      possible, s, log := Happen(j, s, log, sink, hs[i]);
      if !possible {
        NoWayOn(cfg, hs, i + 1);
        return;
      }
    }
    assert hs[..|hs|] == hs;
  }

  lemma NothingHeld<T>(cfg: L.Config, log: B.PrivateBuffer, sink: CaptureSink<T>)
    requires log.Valid() && log.stream == [] && sink.Valid() && sink.failure == "" && sink.delivered == []
    ensures Holds(Joint(L.Init(cfg), [], []), log, sink)
  {
  }

  lemma {:induction false} NoWayOn<T>(cfg: L.Config, hs: seq<Happening<T>>, i: nat)
    requires i <= |hs| && JointAfter(cfg, hs[..i]).None?
    ensures JointAfter(cfg, hs).None?
    decreases |hs|
  {
    hide Possible, Then;
    if i < |hs| {
      assert hs[..|hs| - 1][..i] == hs[..i];
      NoWayOn(cfg, hs[..|hs| - 1], i);
    } else {
      assert hs[..i] == hs;
    }
  }

  method Happen<T>(ghost j: Joint<T>, s: L.State, log: B.PrivateBuffer, sink: CaptureSink<T>, h: Happening<T>)
    returns (possible: bool, s': L.State, log': B.PrivateBuffer)
    requires s == j.life && Informed(j) && Holds(j, log, sink)
    modifies log, sink, sink.failed
    ensures log' == log || fresh(log')
    ensures possible <==> Possible(j, h)
    ensures possible ==> s' == Then(j, h).life && Holds(Then(j, h), log', sink)
  {
    hide L.Enabled, L.Next, FailureAfter, Exports, B.Mentions, FailureIn;
    s', log' := s, log;
    match h {
      case Act(step) =>
        possible := L.Enabled(s, step) && !IsNews(step);
        if possible && step.RunVerdict? && step.verdict.ExitedInStartup? {
          var told := ProcessFailure(log.data);
          possible := told == L.BindConflict || step.verdict.category == told;
        }
        if !possible {
          return;
        }
        s' := L.Next(s, step);
        if step == L.RunLaunch(L.ChildStarts) {
          log' := new B.PrivateBuffer();
        }
        if step == L.RunCleanup(L.SinkDrainTimedOut) {
          Record(j, log, sink, ShutdownTimedOut);
        }
      case Output(p) =>
        possible := s.child.Live?;
        if !possible {
          return;
        }
        var _ := log.Write(p);
        var told := ProcessFailure(log.data);
        s' := s.(ready := log.ready, exportFailure := log.exportFailure, bindConflict := told == L.BindConflict);
      case Call(e) =>
        possible := s.sink.Open? && !e.ShutdownTimedOut?;
        if !possible {
          return;
        }
        Record(j, log, sink, e);
        s' := s.(sinkFailure := CategoryOf(sink.failure));
    }
  }
}
