# OTel Policy Lab: verification model

otel-policy-lab runs telemetry fixtures through the processors of an OpenTelemetry Collector configuration, either
by simulating them or by starting a real Collector in an isolated harness, and judges the result against a policy.
This project models the decisions on which its answer rests and proves what the tool promises about them.

The files follow one run from the configuration to the exit code.

| file | subject |
|---|---|
| Yaml, Topology, Parser, Selection | the strict reading of a Collector configuration, loop by loop, and what it selects |
| Accepted | what accepted configurations look like: identifiers, sections, references, depth |
| Rearrangement | entry order in the configuration does not matter |
| Isolation | the generated configuration followed key by key, and every address in it |
| Harness, FixedPoint | the generated isolated configuration, and that it means what the source meant |
| Uncertainty | processors whose completion cannot be established, scoped to signals |
| Folding, LogBuffer, Capture, Lifecycle | lower-casing and the bounded log scanner, the capture service, and one run of a Collector as a transition system |
| Precedence, Deadlines | what Run decides at each of its points, how long it waits, and which exit status it leaves |
| FixtureRunner, SimulatedRecords, FixtureVerdicts | the simulator, its confluence, what it does to each record, and the verdicts it cannot worsen |
| Json, Telemetry, Canonical | series identity and the normal form of a capture |
| Policy, Matches, Evaluator, Evidence | policy checks, the weighing of evidence, and completions of an incomplete capture |
| Report, EndToEnd | report, exit codes, and what exit 0 proves of the evaluation |
| JointRun | the transition system driven by the bytes the process writes and the calls the capture server receives |
| CollectorRun | a whole real run: process, log, capture and evaluation together, and what exit 0 proves of all of them |
| Signals, Strings | the three signals; byte order, stable sorting, substring search, decimal numbers |

Conventions of the model:

- A `string` is a sequence of Unicode scalar values, that is, a valid UTF-8 text; code-point order is then byte order.
  The log scanner works on bytes.
- JSON texts are those of Go's `encoding/json` for strings and string maps: sections 4 and 7 of RFC 8259, keys sorted,
  with the HTML escapes and the escapes of U+2028 and U+2029.
- A `Matcher` stands for `strings.ToLower`, `strings.ToUpper`, `path.Match` and compiled regular expressions. The
  theorems hold for every matcher.
- Walking a Go map is a loop that takes the remaining entries in any order.
- Time is a counter of milliseconds. Everything the outside world does is a step that may happen between any two steps
  of the program.
- Where the code changes state in place, the model has a class or a loop with the same state, proved equal to a
  function; the theorems are about that function.

Where a promise stops, the exact place is proved.

- `Matches.ReportsSeparateIff`: removing duplicate matches compares texts joined with "|". What is reported about logs
  and spans is told apart exactly when that character cannot occur in both attribute keys and patterns; what is reported
  about metrics, exactly when it can occur in at most one of label keys, patterns and metric names.
  `Matches.AlternativesConfuse`, `NamesConfusePatterns` and `NamesConfuseKeys` give the families of confusions. For
  instance, patterns `p|q` and `q` that both match the values of two attributes `k` and `k|p` give two findings with one
  text, and one of them is dropped. The verdict is not affected, because the list is empty only when its input is.
- `FixtureVerdicts.RequiredLogsFailIff`, `RequiredSpansFailIff` and `RequiredMetricsFailIff`: a required-attribute check
  that passes on the input fails on the simulated output exactly when the merged processors of the signal delete a
  required key or, for logs, a filter drops debug logs and there are no others. `RequiredCanWorsen` shows a
  configuration for each. The other checks cannot get worse.
- `Lifecycle.CancellationReportedAsDeadlineIff`: after a cancellation Run reports a deadline (`run_timeout` or
  `startup_timeout`) exactly when it notices the cancellation while identifying the binary
  (internal/runner/collector.go:101-105) or at the top of the attempt loop (internal/runner/collector.go:163-166); both
  happen.
- `Lifecycle.AbandonedVersionQueryCanOutlive`: a version query that cannot be reaped after it was killed leads only to a
  warning, so it can still be alive beside the Collector. At all other times at most one child is alive.
- `Lifecycle.CleanupFailureIsExplained`: the deferred branch that reports a leftover process as `cleanup` when nothing
  else failed (internal/runner/collector.go:145-148) cannot be reached; `cleanup` always means that only the directory
  was left.
- `Deadlines.ExitStatusIsExact`: the exit status in the diagnostics names what became of the Collector, except that
  "running" is left exactly when an earlier attempt lost its port and a later one could not start its process
  (internal/runner/collector.go:187-191). `RunningWithoutProcess` gives such a run for every configuration.
- `FixedPoint.HarnessIsFixedPoint`: the parser accepts the harness exactly when at least one pipeline is active. Without
  one, `service.pipelines` would be empty; the runner returns before generating a harness in that case.

## Model

| member | source | states |
|---|---|---|
| Json.CharsRoundTrip | internal/telemetry/canonical.go:39-42 | reading the characters of an encoded string gives back the string and whatever follows it, for every string |
| Json.ObjectRoundTrip | internal/telemetry/canonical.go:39-42 | reading an encoded string map in front of any text gives back the map and that text |
| Json.TextCancels | internal/telemetry/canonical.go:39-42 | two encoded strings followed by anything are equal texts only for equal strings and equal continuations |
| Json.ObjectCancels | internal/telemetry/canonical.go:39-42 | the same for encoded maps: no map's text is a proper prefix of another's continuation |
| Json.ReadingsStayOpposite | internal/telemetry/canonical.go:39-42 | a text balanced when read from outside a string can never be read to balance from inside one (quote parity through escapes) |
| Json.EscapedCharacter | internal/telemetry/canonical.go:39-42 | which characters stay themselves, which become two characters and which six |
| Json.TextIsSafe | internal/telemetry/canonical.go:39-42 | no control character, HTML markup character or line separator occurs in an encoded string |
| Json.ObjectInKeyOrder | internal/telemetry/canonical.go:39-42 | an encoded map begins with its least key and continues in the same way with the others |
| Json.ObjectDecides | internal/telemetry/canonical.go:44-58 | where two encoded maps differ they decide the byte order, whatever follows them |
| Telemetry.SeriesKeyInjective | internal/telemetry/telemetry.go:118-122 | a series key determines the resource attributes and the labels |
| Telemetry.SeriesKeyOrder | internal/telemetry/telemetry.go:105-122 | series keys are in the order of the resource, then of the labels |
| Telemetry.NoKeyEndsInAnother | internal/telemetry/telemetry.go:89-97 | no series key has the form x + a bar + series key |
| Telemetry.NamedKeyInjective | internal/telemetry/telemetry.go:89-122 | the raw join of metric name, a bar and series key determines name, resource and labels, whatever the name contains |
| Telemetry.UniqueSeriesKeys | internal/telemetry/telemetry.go:105-116 | the keys of a metric's distinct series, sorted and without repetition |
| Telemetry.NamedKeysCountTriples | internal/telemetry/telemetry.go:89-97 | as many joined keys as distinct (name, resource, labels) triples |
| Telemetry.CountSeries | internal/telemetry/telemetry.go:89-97 | returns the number of distinct (name, resource, labels) triples of the set |
| Telemetry.SeriesNamedCount | internal/evaluator/evaluator.go:247-257 | the series collected under one name are as many as the triples with that name, over all records |
| Telemetry.PerNameCountsSumToTotal | internal/evaluator/evaluator.go:242-264 | the per-name counts compared with the limit add up to countSeries |
| Strings.SortedUnique | internal/telemetry/canonical.go:44-58 | two sorted arrangements of the same elements are equal once equal keys mean equal elements |
| Strings.StrictlySortedUnique | internal/runner/runner.go:340-351 | a set has one strictly sorted listing |
| Strings.LeIsAscending | internal/telemetry/canonical.go:53-55 | the order all sorting rests on: a comes before b exactly when it is a prefix of b or has the smaller character where they first differ |
| Strings.SortIsStable | internal/telemetry/canonical.go:53-55 | for every key, the elements with that key keep their order |
| Strings.BeforeMeans | internal/runner/topology.go:278-279 | the part before the separator is p exactly for p itself and for p, the separator and anything |
| Strings.Search | internal/runner/process.go:99-102 | substring search by scanning finds exactly the occurrences |
| Folding.OccursIffSpelled | internal/runner/process.go:99-102 | a phrase occurs in the lower-cased bytes exactly when the bytes contain some spelling of it, wherever characters of several bytes begin or end |
| Folding.SpellingIsShort | internal/runner/process.go:53-67 | how many bytes a spelling can have, given which letters have spellings of more than one byte |
| Folding.FoldsCaseOnly | internal/runner/process.go:99-102 | two ASCII texts are equal after lower-casing exactly when they differ in the case of letters only |
| Folding.FoldedCharacters | internal/runner/process.go:99-102 | U+0130 becomes i and U+212A becomes k |
| Canonical.LogTextInjective | internal/telemetry/canonical.go:39-42 | the JSON text of a log record determines the record |
| Canonical.SpanTextInjective | internal/telemetry/canonical.go:39-42 | the JSON text of a span determines the span |
| Canonical.PointTextInjective | internal/telemetry/canonical.go:39-42 | the JSON text of a datapoint determines the datapoint |
| Canonical.MetricTextNamesId | internal/telemetry/canonical.go:39-42 | metrics with equal JSON texts have the same name and resource |
| Canonical.GroupTextInjective | internal/telemetry/canonical.go:17-20 | the grouping key determines name and resource |
| Canonical.CanonicalUnique | internal/telemetry/canonical.go:8-37 | two canonical sets with the same logs, spans and datapoints per (name, resource) as multisets are equal |
| Canonical.CanonicalFormDecidesView | internal/telemetry/canonical.go:8-37 | two sets canonicalize to equal values exactly when they differ only in order and batching |
| Canonical.OrderInvisible | internal/telemetry/canonical.go:8-37 | any permutation of metric records has the same view, hence the same canonical form |
| Canonical.FragmentationInvisible | internal/telemetry/canonical.go:8-37 | splitting a record's datapoints over two records keeps the view |
| Canonical.SortByJson | internal/telemetry/canonical.go:44-58 | the array ends as the stable sort by JSON text of what it held |
| Canonical.CanonicalAscends | internal/telemetry/canonical.go:32-36 | neighbouring records of a canonical set have ascending JSON texts, and so have the datapoints of each metric |
| Canonical.LogOrder | internal/telemetry/canonical.go:39-58 | logs are ordered by resource, then attributes, then body |
| Canonical.SpanOrder | internal/telemetry/canonical.go:39-58 | spans are ordered by trace id, span id, name, status, resource and attributes |
| Canonical.MetricOrder | internal/telemetry/canonical.go:39-58 | metrics are ordered by name, then resource |
| Canonical.PointOrder | internal/telemetry/canonical.go:39-58 | datapoints are ordered by labels |
| Canonical.TelemetrySet.Canonicalize | internal/telemetry/canonical.go:11-37 | for every order in which the grouped map is walked the set ends canonical with its view unchanged and its JSON texts ascending, and a canonical set is unchanged |
| LogBuffer.SeamsFindEverything | internal/runner/process.go:53-67 | for texts of at most 33 bytes, scanning the new bytes and the joined 32-byte seams finds exactly what scanning the whole stream finds |
| LogBuffer.SeamsSufficeIffMarkerFits | internal/runner/process.go:53-67 | that holds for all streams and writes if and only if the text has at most 33 bytes |
| LogBuffer.MentionsGrows | internal/runner/process.go:53-67 | however the markers are spelled, lower-casing and scanning the new bytes and the seams detects the same mentions as lower-casing the whole stream |
| LogBuffer.ExportFailureText | internal/runner/process.go:99-102 | true exactly when some failure phrase occurs in the lower-cased text, with U+0130 read as i |
| LogBuffer.ExportFailureMeans | internal/runner/process.go:99-102 | a stream reports a failed export exactly when it spells one of the four phrases in any letter case |
| LogBuffer.ReadinessMeans | internal/runner/process.go:64-66 | and readiness exactly when it spells the one phrase |
| LogBuffer.KeptBytes | internal/runner/process.go:67-75 | the buffer keeps the last 65536 bytes |
| LogBuffer.PrivateBuffer.Write | internal/runner/process.go:49-77 | the kept bytes are the last 65536 of the stream so far, and both flags say whether the whole stream mentions a marker |
| LogBuffer.WriteAll | internal/runner/process.go:49-77 | the same after any sequence of writes, however a marker was split and however long ago it was dropped |
| Capture.FitsAppend | internal/runner/capture.go:72-84 | a request keeps the accepted ones within all limits exactly when the running counters admit it |
| Capture.FitsMeans | internal/runner/capture.go:72-84 | the limits: 64 MiB in all, 16 MiB in one request, 100000 items, 10000 requests |
| Capture.CaptureSink.FailLocked | internal/runner/capture.go:65-70 | the first category stands, and the channel is closed exactly when there is one, never twice |
| Capture.CaptureSink.Reserve | internal/runner/capture.go:72-84 | admits exactly within the limits; otherwise counters are unchanged and a failure is recorded |
| Capture.CaptureSink.ExportRequest | internal/runner/capture.go:134-175 | a request is stored at the end of its signal's data exactly when nothing has failed and all accepted requests with it fit the limits |
| Capture.CaptureSink.HandleRpc | internal/runner/capture.go:115-125 | a failed call is recorded as limit or transport failure unless an earlier failure stands |
| Capture.CaptureSink.Handle | internal/runner/capture.go:56-104 | each event keeps counters equal to the sums over accepted requests, and leaves exactly the failure its cause demands, the first one standing |
| Capture.CaptureSink.Serve | internal/runner/capture.go:65-175 | over every history of calls: without a recorded failure everything delivered is stored; a failure arises exactly from a failed call, server or shutdown or from exceeding a limit, and never changes |
| Capture.FailsIff | internal/runner/capture.go:65-84 | the failure after a history from an empty sink is absent exactly when no call and no server failed and everything delivered fits the limits |
| Lifecycle.EveryRunKeepsInv | internal/runner/collector.go:42-277 | the invariant relating program point, child, capture, submission and failure holds after every interleaving |
| Lifecycle.NilErrorMeansEvidence | internal/runner/collector.go:42-277 | a nil error for a nonempty topology means readiness seen, every signal accepted, stopping begun no earlier than the configured settling interval after the last submission, clean unforced exit, no export failure logged, capture closed without failure |
| Lifecycle.NilErrorMeansSettled | internal/runner/collector.go:241-258 | in such a run one step ended submission and a later step began stopping, with at least the settling interval between their times |
| Lifecycle.MomentsAreTaken | internal/runner/collector.go:227-258 | only the end of submission and the start of stopping move the two recorded moments, each to the current time |
| Lifecycle.CleanupFailureIsExplained | internal/runner/collector.go:126-159 | without an earlier failure the deferred work fails only for the capture or a stuck directory, never for a leftover process |
| Lifecycle.SuccessIsReachable | internal/runner/collector.go:42-277 | such a run exists for every number of signals and every settling interval |
| Lifecycle.ProcessesAreBounded | internal/runner/collector.go:138-226 | at most three Collectors start; two children live only beside an unreapable version query; the capture closes under a live child only in a failed run; at most one failure is recorded |
| Lifecycle.AbandonedVersionQueryCanOutlive | internal/runner/process.go:228-252 | for every nonempty topology, an interleaving in which a version query outlives its kill and the Collector runs beside it |
| Lifecycle.RetryOnlyOnBindConflict | internal/runner/collector.go:163-222 | a new attempt follows only an exited child whose kept log shows a bind conflict, before any submission, and no child is started beside a live one |
| Lifecycle.FirstFailureStands | internal/runner/collector.go:46-49 | once recorded, the failure category is the one reported whatever happens later |
| Lifecycle.CategoryNamesCause | internal/runner/collector.go:42-277 | each of the 27 categories implies its cause, lastingly: nothing started, no process in the attempt, child gone with or without a bind conflict, startup over, context done, an erring stop after full settling, the capture's own failure, and so on; which one is chosen is stated by Precedence.DecisionsAreExact |
| Lifecycle.CancellationReportedAsDeadlineIff | internal/runner/collector.go:101-105 | a failing step after a cancellation names a deadline exactly when it is the checksum or the loop-top guard |
| Lifecycle.CancellationCanBeReportedAsDeadline | internal/runner/collector.go:163-166 | an interleaving for each of the two, for every configuration that gets there |
| Lifecycle.RunStepsDescend | internal/runner/collector.go:163-277 | every step of Run decreases a lexicographic measure: attempts left, program point, signals left to submit |
| Lifecycle.RunTakesBoundedSteps | internal/runner/collector.go:163-277 | in every interleaving, however long, Run takes fewer than 4 * 31 * (signals + 1) steps of its own (attempts, program points, signals) |
| Lifecycle.StepHears | internal/runner/collector.go:163-277 | apart from output and capture failures, only a new process and a capture that does not drain change what Run knows of log and capture |
| Lifecycle.DeadlineUnblocksRun | internal/runner/process.go:139-174 | after deadline or cancellation and the running timer, Run can always take a step of its own; file operations, a submission whose context is done and a stopped capture server are assumed to return |
| Precedence.DecisionsAreExact | internal/runner/collector.go:101-277 | at every moment of every interleaving Run can report exactly the tabled categories and go on to exactly the tabled points: an exited process is looked at before the capture, the capture before the context, the context before the start-up deadline; a given-up submission looks at the context, then the capture |
| Precedence.GivenUpSubmission | internal/runner/collector.go:231-240 | a submission given up with the context active names the capture's failure if there is one, and otherwise the submission |
| Precedence.CaptureFailureIsNamed | internal/runner/collector.go:212-240 | once the capture is looked at, its failure is what every continuation reports, at start-up and at submission |
| Precedence.SubmissionMeansNoCaptureFailure | internal/runner/collector.go:231-240 | the category submission is recorded only while the capture has not failed and signals are unsent |
| Deadlines.StepTimes | internal/runner/process.go:139-174 | a version query gets two seconds, a graceful exit three, a killed process one; Run moves neither clock nor context |
| Deadlines.KillsAreLate | internal/runner/process.go:139-174 | a process is killed or given up only when its time is over or the watched context is |
| Deadlines.ContextIsFirstEnd | internal/runner/collector.go:50-51 | in every interleaving the context ended as the first cancellation or deadline says |
| Deadlines.GraceIsGiven | internal/runner/process.go:150-162 | in every interleaving force is used only three seconds after stopping began, or with the context over |
| Deadlines.ExitStatusIsExact | internal/runner/process.go:176-192 | which exit status a finished run leaves, with the exact condition for each of the five |
| Deadlines.RunningWithoutProcess | internal/runner/collector.go:187-191 | a run that leaves "running" although there is no process |
| Yaml.LookupFindsKeys | internal/runner/topology.go:305-315 | lookup finds a value exactly for the keys of the mapping |
| Yaml.ValidateYaml | internal/runner/topology.go:199-225 | accepts exactly trees of depth at most 100 without aliases and anchors whose mappings have distinct string keys and no merge key |
| Yaml.ValidateKeys | internal/runner/topology.go:206-218 | the loop over keys accepts exactly distinct string keys other than the merge key |
| Yaml.ParityAgreesWithReader | internal/runner/topology.go:176-191 | for every text, counting dollars backwards from each brace agrees with a left-to-right reader for which "$$" is an escape |
| Yaml.TreesAgree | internal/runner/topology.go:176-197 | the same for every tree |
| Yaml.HasProviderSubstitution | internal/runner/topology.go:176-197 | the loops compute that judgement |
| Yaml.CloneNode | internal/runner/topology.go:317-325 | the copy differs from the original only in comments, at every depth |
| Yaml.BareTwice | internal/runner/topology.go:317-325 | copying a copy changes nothing |
| Yaml.BareProvides | internal/runner/topology.go:317-325 | a copy takes from a provider exactly when the original does |
| Yaml.BareValid | internal/runner/topology.go:317-325 | a copy is valid exactly when the original is |
| Parser.ReadSection | internal/runner/topology.go:64-80 | the components of a section, exactly when it is an explicit mapping from component identifiers |
| Parser.ComponentSequence | internal/runner/topology.go:227-247 | the listed references in order, exactly when they are explicit, valid and without repetition |
| Parser.ReadPipeline | internal/runner/topology.go:92-134 | a pipeline's processors, exactly when its name, signal, fields and all its references are supported and defined |
| Parser.ReadPipelines | internal/runner/topology.go:90-143 | all pipelines with one signal each and their definitions collected once, exactly when each is supported and no signal repeats |
| Parser.SelectActive | internal/runner/topology.go:152-172 | exactly the processors of populated pipelines in order of first use, unless one of them takes something from a provider |
| Parser.ParseTopology | internal/runner/topology.go:34-174 | returns the selected topology exactly for the accepted configurations |
| Accepted.ComponentIdMeans | internal/runner/topology.go:20-20 | an identifier is a type of one to 64 characters, or such a type, a slash and a name of one to 128 |
| Accepted.SignalMeans | internal/runner/topology.go:97-103 | a pipeline carries logs, traces or metrics exactly when that is the type of its name |
| Accepted.ProcessorMeans | internal/runner/topology.go:124-132 | a processor is supported exactly when its type is not routing and it is configured by a mapping or not at all |
| Accepted.AcceptedIsSupported | internal/runner/topology.go:34-173 | in an accepted configuration all sections are known, there are no connectors, every pipeline leads from defined receivers through defined processors without routing to defined exporters, and every populated signal has exactly one |
| Accepted.ParsedRunsNoRouting | internal/runner/topology.go:124-132 | no topology the parser returns runs a routing processor |
| Accepted.NestedIsValid | internal/runner/topology.go:199-205 | nested lists are accepted to depth 100 and no deeper |
| Topology.FirstUsesMembers | internal/runner/topology.go:155-171 | the selected processors are those of some active pipeline |
| Topology.FirstUsesOnce | internal/runner/topology.go:155-171 | and none is selected twice |
| Selection.SelectedIsWellFormed | internal/runner/topology.go:90-173 | the result is sorted by name, has one pipeline for each populated signal and no other, and holds exactly the processors in use with valid, supported, provider-free source definitions |
| Rearrangement.EntryOrderDoesNotMatter | internal/runner/topology.go:34-174 | configurations with the same entries in another order, in mappings at any depth, are both accepted or both rejected; pipelines and processor order are equal, definitions equal up to entry order, and equal outright when those in use were not rearranged |
| Rearrangement.PermutedIsRearranged | internal/runner/topology.go:305-315 | every permutation of a mapping's entries counts as the same entries |
| Rearrangement.RearrangedValid | internal/runner/topology.go:199-225 | validation does not depend on entry order at any depth |
| Rearrangement.ProvidesAlike | internal/runner/topology.go:176-197 | nor does the search for provider substitutions |
| Harness.BuildHarness | internal/runner/topology.go:249-273 | the generated tree, refused exactly when an endpoint is not IPv4 loopback |
| Isolation.HarnessReceives | internal/runner/topology.go:257-257 | one receiver, gRPC only, on the given endpoint, with the message size the capture takes |
| Isolation.HarnessExports | internal/runner/topology.go:259-266 | one exporter to the given capture, insecure, uncompressed, without queue and retry, two seconds timeout |
| Isolation.HarnessPipelines | internal/runner/topology.go:267-271 | exactly the selected pipelines, each from the one receiver through its processors in order to the one exporter |
| Isolation.HarnessTelemetry | internal/runner/topology.go:271-271 | the Collector logs at level info and exports no metrics of its own |
| Isolation.HarnessStaysLocal | internal/runner/topology.go:249-272 | outside the processor definitions the only addresses are the two given ones, and both are 127.0.0.1 with a port |
| Isolation.HostDecides | internal/runner/topology.go:250-255 | whatever the port, an endpoint passes exactly when its host is 127.0.0.1, bare or in brackets |
| FixedPoint.HarnessIsFixedPoint | internal/runner/topology.go:34-273 | for every accepted configuration the parser accepts the generated tree exactly when some pipeline is active, and then selects the same pipelines, processor order and definitions |
| FixedPoint.HarnessIsIsolated | internal/runner/topology.go:249-273 | the generated tree holds one receiver, one exporter, no extension or connector, exactly the processors in use, and every reference in it resolves |
| FixedPoint.HarnessDefinitions | internal/runner/topology.go:258-258 | each processor in use is defined in the harness by the bare copy of its source definition, and nothing else is defined |
| Uncertainty.InconclusiveReasons | internal/runner/topology.go:275-289 | the sorted reasons of the tail-sampling and group-by-trace processors |
| Accepted.WaitingMeans | internal/runner/topology.go:278-285 | a processor waits exactly when its type is tail_sampling or groupbytrace |
| Accepted.ReasonNamesProcessor | internal/runner/topology.go:282-282 | different processors have different reasons |
| Uncertainty.InconclusiveSignals | internal/runner/topology.go:291-303 | the same reasons under the signal of each pipeline that has any |
| Uncertainty.ScopingLosesNothing | internal/runner/topology.go:275-303 | for every parsed topology a reason is reported for the run exactly when some signal reports it, and one report is empty exactly when the other is |
| Policy.FirstUnsupported | internal/policy/policy.go:88-92 | none exactly when every preserve expression is the one the evaluator implements |
| Policy.Validate | internal/policy/policy.go:77-94 | accepts exactly the supported version with at least one effective check and only supported preserve expressions |
| Policy.ValidateMeans | internal/policy/policy.go:77-94 | which error is reported: missing version, a version other than 1, no assertion, or an unsupported expression of the policy |
| Policy.AssertionsMean | internal/policy/policy.go:107-155 | a policy has an assertion exactly when one of its lists is not empty or a series limit is set |
| Policy.PreservesMeans | internal/policy/policy.go:96-105 | spaces do not matter in a preserve expression, single quotes count as double quotes, and otherwise there is only one |
| Matches.CompilePatterns | internal/evaluator/matches.go:87-100 | the effective patterns, "(?i)" added where case is ignored and not yet given, or an error exactly when one does not compile |
| Matches.KeyMatchMeans | internal/evaluator/matches.go:75-85 | with a star path.Match decides and a malformed pattern matches nothing; without one equality does; ignoring case compares the lower-cased texts in the same way |
| Matches.EffectiveMeans | internal/evaluator/matches.go:87-92 | a pattern gets the case flag at most once, and only when case is ignored |
| Matches.Utf8LengthMeans | internal/evaluator/matches.go:45-45 | the reported length counts one to four bytes for each character |
| Matches.FindForbiddenAttributeMatches | internal/evaluator/matches.go:24-35 | reports exactly the matching (key, pattern) pairs, with kind, index and metric, and something exactly when the attributes offend |
| Matches.FindForbiddenValueMatches | internal/evaluator/matches.go:37-56 | reports exactly the values that match a pattern, by key, pattern and byte length, never the value itself |
| Matches.FindForbiddenStringMatches | internal/evaluator/matches.go:58-72 | reports exactly the matching patterns of one text, by its byte length |
| Matches.JoinedTextInjective | internal/evaluator/matches.go:106-106 | the joined text determines the match as long as at most one of key, pattern and metric name can contain the separator |
| Matches.ReportsSeparateIff | internal/evaluator/matches.go:106-106 | matches reported about logs and spans are told apart by the joined text if and only if the separator cannot occur in both keys and patterns; those about metrics, if and only if it can occur in at most one of keys, patterns and metric names |
| Matches.AlternativesConfuse | internal/evaluator/matches.go:37-56 | two attributes and two value patterns for which distinct findings share a joined text, in logs, spans and metrics, for any key, pattern parts and value both patterns match |
| Matches.NamesConfusePatterns | internal/evaluator/matches.go:207-223 | two metrics and two value patterns for which distinct findings about one label share a joined text |
| Matches.NamesConfuseKeys | internal/evaluator/matches.go:207-223 | two metrics with different labels whose findings under one pattern share a joined text |
| Matches.SortForbiddenMatches | internal/evaluator/matches.go:116-133 | a permutation sorted by kind, metric, index, key and pattern |
| Matches.MatchLeMeans | internal/evaluator/matches.go:116-133 | the first of kind, metric, index, key and pattern that differs decides the order |
| Matches.KindOrder | internal/evaluator/matches.go:116-120 | the order of the eight kinds |
| Matches.DedupeForbiddenMatches | internal/evaluator/matches.go:102-114 | sorted, drawn from the input, one match for each joined text that occurs, empty exactly when the input is |
| Matches.DedupeKeepsEverythingIff | internal/evaluator/matches.go:102-114 | every distinct match survives exactly when no two distinct ones share their joined text |
| Matches.DedupeKeepsEverythingUnlessAmbiguous | internal/evaluator/matches.go:102-114 | when at most one of the three fields can contain the separator the result is exactly the distinct input matches |
| Matches.LogReportedIffOffends | internal/evaluator/matches.go:179-187 | something is reported about a log exactly when its resource, attributes or body offend |
| Matches.MetricReportedIffOffends | internal/evaluator/matches.go:213-221 | something is reported about a metric exactly when its resource or some datapoint's labels offend |
| Matches.FindForbiddenLogMatches | internal/evaluator/matches.go:169-188 | an error exactly for an invalid pattern; otherwise a sorted list of exactly the forbidden keys, values and bodies with kind and record index, up to equal joined texts, and empty exactly when no log offends |
| Matches.FindForbiddenSpanMatches | internal/evaluator/matches.go:190-205 | the same for spans and their names |
| Matches.FindForbiddenMetricMatches | internal/evaluator/matches.go:207-223 | the same for metrics: resource matches carry the index of the metric, label matches the index of the datapoint |
| Evaluator.CheckRequired | internal/evaluator/evaluator.go:338-371 | fails exactly when there is no record or one lacks a required attribute; counts each attribute's absences; shows the first three failing records with exactly what they lack |
| Evaluator.EvalLogs | internal/evaluator/evaluator.go:107-136 | the log checks in order with the verdicts their assertions define |
| Evaluator.ErrorSpans | internal/evaluator/evaluator.go:284-292 | one entry for each identity of an error span |
| Evaluator.EvalErrorTracePreservation | internal/evaluator/evaluator.go:210-240 | passes exactly when every input error identity occurs among the output's |
| Evaluator.EvalTraces | internal/evaluator/evaluator.go:138-173 | the trace checks in order with the verdicts their assertions define |
| Evaluator.TallySeries | internal/evaluator/evaluator.go:245-257 | per metric name, the series and datapoints over all records and resources |
| Evaluator.EvalMaxSeries | internal/evaluator/evaluator.go:242-282 | one failure with its figures for each name over the limit in order of names, or a single pass |
| Evaluator.EvalMetrics | internal/evaluator/evaluator.go:175-208 | the metric checks in order with the verdicts their assertions define |
| Evaluator.EvaluateWithOptions | internal/evaluator/evaluator.go:32-86 | every verdict weighed against its reason for doubt, then one warning for each runner warning |
| Evidence.ConclusiveVerdictHolds | internal/evaluator/evaluator.go:88-105 | every verdict kept despite incomplete capture is a verdict of every completion of the capture |
| Evidence.UncertainReportsHold | internal/evaluator/evaluator.go:63-73 | under uncertainty whatever is not reported inconclusive is also reported from every completion |
| Evidence.FailureKeptIff | internal/evaluator/evaluator.go:63-105 | under doubt a failure is reported as a failure if and only if the check fails on every completion of the capture |
| Evidence.PassKeptIff | internal/evaluator/evaluator.go:90-93 | under doubt a pass is kept if and only if it is about error spans and the fixture has one |
| Evidence.ApplicableMeans | internal/evaluator/evaluator.go:44-68 | what the fixture must hold for a check to be about something |
| Evidence.PreservationFinalIff | internal/evaluator/evaluator.go:91-93 | a preservation verdict is final exactly when it is a pass |
| Evidence.RequiredVerdictFinalIff | internal/evaluator/evaluator.go:100-102 | a required-attribute verdict is final exactly when it fails on at least one record |
| Evidence.SeriesVerdictFinalIff | internal/evaluator/evaluator.go:98-99 | a series verdict is final exactly when some name already exceeds the limit |
| Evidence.ForbiddenPassCanFailIff | internal/evaluator/evaluator.go:94-99 | a forbidden-data pass has a failing completion exactly when some record could offend at all |
| Evidence.SeriesMembers | internal/evaluator/evaluator.go:263-280 | a series failure is reported exactly for names over the limit, a pass exactly when there is none |
| Evidence.SeriesIgnoreBatching | internal/evaluator/evaluator.go:242-282 | series and datapoint counts and their order are the same for all captures with one canonical form |
| Evidence.JudgementsIgnoreBatching | internal/evaluator/evaluator.go:107-282 | all verdicts are |
| Evidence.EvaluationIgnoresBatching | internal/telemetry/canonical.go:8-37 | and so is the whole evaluation, evidence included |
| FixtureRunner.StepsReachClosedForm | internal/runner/runner.go:150-158 | any order of a signal's processors ends in the closed form: delete every deleted key, drop debug logs if some filter qualifies |
| FixtureRunner.OrderDoesNotMatter | internal/runner/runner.go:140-180 | two orders give equal telemetry, equal coverage and the same warnings |
| FixtureRunner.MergedPermutes | internal/runner/runner.go:165-171 | walking pipelines in another order permutes each signal's processors |
| FixtureRunner.PipelineProcessors | internal/runner/runner.go:165-180 | the merged lists up to order, or all processors for every signal when no pipeline exists |
| FixtureRunner.OrderedSignalsMembers | internal/runner/runner.go:353-370 | every signal is visited |
| FixtureRunner.KnownSignalsFirst | internal/runner/runner.go:353-370 | logs before traces before metrics before all others in ascending order |
| FixtureRunner.FilterDebugLogs | internal/runner/runner.go:316-325 | the logs whose body does not mention debug, in order |
| FixtureRunner.ApplyResult.RemoveAttributesForSignal | internal/runner/runner.go:274-314 | deletes the keys from records of that signal and leaves the other signals alone |
| FixtureRunner.ApplyResult.ApplyDebugLogFilter | internal/runner/runner.go:220-251 | applies exactly for a regexp include whose first expression mentions debug, and warns from half the logs on |
| FixtureRunner.ApplyResult.ApplyProcessor | internal/runner/runner.go:182-218 | output, warnings and coverage after one processor, for every processor family |
| FixtureRunner.ApplyConfig | internal/runner/runner.go:140-163 | for every map order the result is the simulation: equal telemetry and coverage, the same warnings, coverage sorted and unique |
| SimulatedRecords.RemovalMeans | internal/runner/runner.go:165-272 | a key is deleted for a signal exactly when a delete action of an attributes processor in one of its pipelines names it, and debug logs are dropped exactly when a qualifying filter is in a logs pipeline |
| SimulatedRecords.SimulatedLogs | internal/runner/runner.go:274-325 | the surviving logs in order, each with its body and exactly the resource attributes and attributes that are not deleted; a log is dropped exactly when a filter qualifies and its body mentions debug |
| SimulatedRecords.SimulatedSpans | internal/runner/runner.go:289-293 | every span in its place with ids, name and status and exactly the attributes that are not deleted |
| SimulatedRecords.SimulatedMetrics | internal/runner/runner.go:294-300 | every metric in its place with its name and datapoints and exactly the resource attributes and labels that are not deleted |
| FixtureVerdicts.SimulationReduces | internal/runner/runner.go:140-325 | the simulated output in closed form: for each signal the keys its merged processors delete are gone, and debug logs if some merged filter qualifies |
| FixtureVerdicts.VolumeWarningIff | internal/runner/runner.go:241-249 | in the warnings of a whole run the volume warning occurs once, with these numbers, exactly when a merged filter qualifies and at least half of a nonempty set of logs is dropped; otherwise never |
| FixtureVerdicts.SeriesNeverGrow | internal/runner/runner.go:294-300 | deleting keys never adds a series to a metric name |
| FixtureVerdicts.SimulationNeverWorsens | internal/runner/runner.go:140-325 | forbidden data that passes on the input passes on the output, no series count grows, error spans are preserved |
| FixtureVerdicts.RequiredLogsFailIff | internal/runner/runner.go:274-325 | a passing check on logs fails on the output exactly when a required key is deleted or a filter drops debug logs and all are |
| FixtureVerdicts.RequiredSpansFailIff | internal/runner/runner.go:289-293 | a passing check on spans fails on the output exactly when a required key is deleted |
| FixtureVerdicts.RequiredMetricsFailIff | internal/runner/runner.go:294-300 | a passing check on metrics fails on the output exactly when a required key is deleted |
| FixtureVerdicts.RequiredCanWorsen | internal/runner/runner.go:274-314 | a configuration that deletes the required key and one that drops every log: the check passes on the input and fails on the simulated output |
| Report.HeaviestIsMaximum | internal/report/report.go:85-114 | the overall weight is the maximum over the checks |
| Report.OrderDoesNotMatter | internal/report/report.go:85-114 | reordering the checks keeps the overall status |
| Report.JoinFromCounts | internal/report/report.go:85-114 | the maximum is what the branches on counts compute |
| Report.CountStatuses | internal/report/report.go:187-199 | the multiplicities of pass, fail and warn |
| Report.Build | internal/report/report.go:85-131 | overall status is the heaviest check, all five counts are exact, and the schema follows the runner |
| Report.ExitCodeMeaning | internal/report/report.go:171-185 | which statuses occur, for each of the exit codes 0, 1, 3 and 4, and that there are no others |
| Report.OverallMeans | internal/report/report.go:85-114 | which statuses occur, for each overall status |
| Report.FormatSeries | internal/report/report.go:202-216 | the loop groups the digits in threes from the right |
| Report.FormattedCountReadsBack | internal/report/report.go:202-216 | one to three digits, then groups of exactly three; without commas it reads back as the count |
| Report.FormatInjective | internal/report/report.go:202-216 | different counts are printed differently |
| EndToEnd.RunTest | internal/cli/cli.go:149-217 | the report of the checks and its exit code, 2 when the report file cannot be written, or 3 without a report exactly when a simulated run failed |
| EndToEnd.SpanKeyIdentifies | internal/evaluator/evaluator.go:294-296 | span keys are equal exactly for equal trace and span ids, while trace ids have no colon |
| EndToEnd.CapturedMeansEverySpan | internal/evaluator/evaluator.go:210-233 | preservation passes exactly when every input error span has an output error span with its trace and span id |
| EndToEnd.PassIsGrounded | internal/evaluator/evaluator.go:44-75 | a pass is reported exactly when it is a pass on certain output about applicable input, or error spans all observed |
| EndToEnd.ExitZeroIff | internal/cli/cli.go:172-217 | exit 3 exactly when the run failed; exit 0 exactly when every check's pass is grounded and no warning is held against it |
| EndToEnd.ExitOneIff | internal/report/report.go:171-185 | exit 1 exactly when some violation stands, on certain output or because no completion can mend it, or when only warnings are held against the run; exit 4 exactly when none stands and some pass is not grounded |
| EndToEnd.ValidatedPolicyAsks | internal/policy/policy.go:77-118 | a validated policy leads to at least one check |
| EndToEnd.AsksIff | internal/evaluator/evaluator.go:26-43 | with supported expressions there is a check exactly when the policy has an assertion |
| EndToEnd.ExitZeroMeansEvidence | internal/cli/cli.go:149-217 | exit 0 of a real run: at least one check, all passes, each about applicable input, on output nothing makes unreliable or with every error span observed |
| EndToEnd.WaitingProcessorsNeedObservation | internal/cli/cli.go:182-188 | with a tail-sampling or group-by-trace processor in a pipeline, exit 0 admits no verdict of its signal but observed error spans |
| EndToEnd.ExitIgnoresBatching | internal/runner/capture.go:106-112 | the checks of a capture and of its canonical form are the same |
| JointRun.ProcessFailure | internal/runner/process.go:194-206 | the category of an exited process is the first of the three groups of phrases that the kept bytes mention in any letter case |
| JointRun.FailureMeans | internal/runner/process.go:194-206 | the eleven phrases, spelled in any letter case, and that a bind conflict wins over a missing component and that over an invalid configuration |
| JointRun.JointRunsAreInformed | internal/runner/process.go:49-77 | in every joint run readiness, export failure, bind conflict and capture failure are exactly what the whole log, its kept part and the calls say |
| JointRun.FirstFailureNames | internal/runner/capture.go:65-125 | the first event that fails names the capture failure: limit, transport, server or shutdown, and later events change nothing |
| JointRun.JointRunsAreRuns | internal/runner/collector.go:42-277 | forgetting bytes and calls leaves an interleaving of the transition system, so all results about interleavings hold of joint runs |
| JointRun.SmoothRunsAreJoint | internal/runner/collector.go:42-277 | every interleaving without bad news and without a process that exits during start-up comes from a joint run |
| JointRun.SuccessIsReachable | internal/runner/collector.go:42-277 | joint runs that return nil exist for every configuration |
| JointRun.Watch | internal/runner/collector.go:106-277 | driving a real log buffer and capture sink through a history succeeds exactly when the history is possible, and leaves them holding what the joint state says |
| CollectorRun.FinishRun | internal/runner/collector.go:138-159 | an error exactly when a category was recorded; otherwise the canonical form of everything delivered to the capture, with the topology's reasons |
| CollectorRun.NilErrorMeansDelivered | internal/runner/collector.go:42-277 | a nil error means no call to the capture failed, everything delivered fits the limits, and the whole log mentions readiness and no failed export |
| CollectorRun.Judge | internal/cli/cli.go:149-217 | exit 0 after a real run means a saved report, a nonempty topology and passes on evidence; exit 3 exactly a failed run |
| CollectorRun.TestCollector | internal/cli/cli.go:149-217 | a history from the start of Run to the exit code; exit 0: something ran, the process did all it should, the log shows readiness and no failed export, nothing delivered is missing from the judged output, and every check passes on evidence |

## Left out

- gRPC, sockets, signals, process groups, temporary directories, files, hashing and version text: only their outcomes, as steps that may happen.
- `CollectorRunner.Run` as imperative code: it is a transition system, because other threads act between its steps; its local variables are fields of the state.
- The mutexes of the log buffer and the capture service: each method is one atomic step, which is what holding the lock for the whole method gives.
- pdata parsing, `Normalize` and fixture size validation (internal/telemetry/otlp.go, internal/runner/capture.go:208): loops over a library; snapshots are what they produce.
- YAML bytes, the 4 MiB limit, a second document and marshalling of the harness: the model starts and ends at decoded node trees.
- Parser.ParseTopology: does not give the text of an error, because only acceptance decides what happens next.
- Harness.BuildHarness: splits host and port only as far as the host 127.0.0.1 needs, because every other host is refused alike.
- Case folding of bytes outside ASCII onto other bytes outside ASCII: a search for ASCII phrases cannot see it.
- `captureSink.close` waits without a limit once the server is stopped: that wait is assumed to end.
- Regular expressions and `path.Match`: arbitrary predicates of pattern and text; a pattern may fail to compile.
- Invalid UTF-8, which `encoding/json` replaces by U+FFFD and which therefore is not injective: strings are valid UTF-8.
- Nil and empty maps and slices: one value, except where a regrouped metric without datapoints prints `null`.
- Message wording, percentages, timings and match summaries: a message is what determines it, or absent.
- Evaluator.EvaluateWithOptions: states judgements (status, signal, check, series figures, whether records were seen), because the rest of a result is wording and detail for the reader.
- Hints about missing components, which only add to a message.
- Report.FormatSeries: counts are not negative.
- `SummaryStats` other than `countSeries`, `Clone` (identity on values), JSON report writing, terminal output, flag parsing.
- Concurrent exports inside one capture are serialised by its lock: a history is a sequence of events in lock order.
- internal/collector/validate.go and the GitHub Action: wrappers around external commands.
