# terraform-prometheus-pushgateway-exporter, modelled in Dafny

This project models the metric-derivation core of the exporter in `main.go`.
After a terraform run, the exporter reads up to three artifacts and turns them into a
set of Prometheus gauges:

- the JSON plan;
- the apply log;
- the refresh log.

The parts modelled are:

- **plan tally** (`PlanTally`): every resource change counts towards the total. It also counts
  towards each of the add / change / destroy / import buckets whose action ("create", "update",
  "delete", "import") is in its action list, using the linear search `contains`.
- **parseLogStats** (`ApplyLog`): every line of the apply log that holds `Apply complete!` is
  read. The text between its first and second colon is split on commas. Each segment is split
  into words, and a segment `<n> <keyword>` stores `Atoi(<n>)` in the bucket named exactly by
  `<keyword>`. A later report overwrites an earlier one.
- **detectDrift** (`RefreshLog`): the no-changes confirmation wins. Otherwise `Refreshing state...`
  means drift.
- **isTerraformRunSuccessful** (`Outcome`): a run fails when its log cannot be opened, or when a
  line holds `Error:` or `│ Error`.
- **gauge assembly** (`Metrics`): the `makeGauge` closure over the gauge map. It makes eight
  common gauges, four apply gauges when an apply log path is set, and the result gauge last.
  The result is judged on the apply log when its path is set, and on the plan file otherwise.

Supporting modules model the Go library behaviour the core relies on:

- `GoStrings`: `strings.Contains`, `Split`, `Join`, `Fields`, `TrimSpace` with `unicode.IsSpace`,
  and `strconv.Atoi` for 64-bit `int`, including its range clamping.
- `Transcripts`: `os.Open` / `os.ReadFile` over a file system given as a map from path to text.
  The empty path never opens. It also models `bufio.Scanner` with `ScanLines`: split on `'\n'`,
  drop one trailing `'\r'`, keep a final unterminated line.

Two behaviours of `main.go` worth knowing:

- The drift gauge comes from the refresh log alone (main.go:99, 146). No drift signal is
  derived from the plan.
- The error of `json.Unmarshal` is ignored (main.go:111-115). An unreadable plan file leaves
  the plan empty. A readable one contributes whatever the decoder produced, which the model
  takes as the `decoded` parameter.

One consequence of the code as written is proved: `SummaryLineDropsDestroyed`. The summary line
terraform prints, `Apply complete! Resources: <a> added, <c> changed, <d> destroyed.`, yields
added = a and changed = c, but destroyed = 0. The keyword token there is `destroyed.`, with the
sentence's period, so it matches none of the switch's cases.

## Model

| member | source | states |
|---|---|---|
| PlanTally.SliceContains | main.go:186-193 | the search returns true exactly when `val` is an element of the slice |
| PlanTally.CountWith | main.go:119-133 | a bucket count never exceeds the number of resource changes |
| PlanTally.TallyOf | main.go:118-134 | the total is the number of resource changes, and every bucket is at most the total |
| PlanTally.TallyChanges | main.go:118-134 | the counting loop arrives at the tally of the whole `resource_changes` list |
| PlanTally.CountWithIsCardinality | main.go:119-133 | each bucket equals the number of positions whose action list contains that bucket's action |
| PlanTally.CountWithConcat | main.go:119-133 | a bucket count over two halves of a plan is the sum of the two halves' counts |
| PlanTally.TallyConcat | main.go:118-134 | tallying two halves of a plan and adding the results gives the tally of the whole plan |
| PlanTally.RecreationCountsTwice | main.go:121-130 | a delete+create recreation without update adds one to total, add and destroy, and nothing to change |
| GoStrings.Contains | main.go:38 | `strings.Contains`: the empty string is in every text, and a contained string is no longer than the text |
| GoStrings.ContainsInSlice | main.go:38 | a substring of a slice of a text is a substring of the text |
| GoStrings.ContainsInfix | main.go:38 | a marker placed anywhere in a text is found by `strings.Contains` |
| GoStrings.ContainsTransitive | main.go:205 | a substring of a substring of a text is a substring of the text |
| GoStrings.IndexOf | main.go:40 | the result is the position of the first occurrence of the character |
| GoStrings.IndexOfAfter | main.go:40 | a character absent from a prefix is first found just after that prefix |
| GoStrings.Split | main.go:40-44 | `strings.Split`: at least one piece, no piece holds the separator, and the first piece runs up to the first separator or the end |
| GoStrings.JoinSplit | main.go:40-44 | joining the pieces of a split with the separator gives back the string |
| GoStrings.SplitJoin | main.go:40-44 | splitting a join of separator-free pieces gives back the pieces |
| GoStrings.TokenLen | main.go:46 | the leading word ends at the first white-space character or at the end |
| GoStrings.Fields | main.go:46 | `strings.Fields` yields only non-empty words without white space |
| GoStrings.TokenLenOfWord | main.go:46 | a word followed by white space or the end is read whole |
| GoStrings.FieldsOfWord | main.go:46 | leading white space is skipped and the next word is read whole |
| GoStrings.FieldsSpaced | main.go:46 | `Fields` reads back the words of a space-separated line |
| GoStrings.TokenLenAppendSpace | main.go:46 | appending white space leaves the leading word unchanged |
| GoStrings.FieldsAppendSpace | main.go:46 | appending white space leaves the words unchanged |
| GoStrings.TrimLeft | main.go:46 | the result is a suffix of the input that does not start with white space |
| GoStrings.TrimRight | main.go:46 | the result is a prefix of the input that does not end with white space |
| GoStrings.TrimSpace | main.go:46 | `strings.TrimSpace`: the result neither starts nor ends with white space and is no longer than the input |
| GoStrings.TrimLeftRemovesOnlySpace | main.go:46 | `TrimLeft` returns a suffix of the input that does not start with white space, and every character it removes is white space |
| GoStrings.TrimRightRemovesOnlySpace | main.go:46 | `TrimRight` returns a prefix of the input that does not end with white space, and every character it removes is white space |
| GoStrings.FieldsTrimLeft | main.go:46 | dropping leading white space leaves the words unchanged |
| GoStrings.FieldsTrimRight | main.go:46 | dropping trailing white space leaves the words unchanged |
| GoStrings.FieldsTrimSpace | main.go:46 | `TrimSpace` before `Fields` changes nothing |
| GoStrings.DigitPrefixLen | main.go:50 | the digit run ends at the first non-digit or at the end |
| GoStrings.Atoi | main.go:50 | `strconv.Atoi` with its error discarded always yields a value in the signed 64-bit range |
| GoStrings.DigitChar | main.go:50 | the digit character for d has value d |
| GoStrings.Decimal | main.go:50 | the numeral of n is a non-empty digit string whose value is n |
| GoStrings.AtoiDecimal | main.go:50 | Atoi reads back every non-negative numeral in the 64-bit range |
| GoStrings.AtoiNegativeDecimal | main.go:50 | Atoi reads back every negative numeral in the 64-bit range |
| GoStrings.AtoiDigits | main.go:50 | Atoi reads back every in-range digit run with an optional sign and any leading zeros (`+7` and `007` give 7) |
| GoStrings.AtoiNonNumeric | main.go:50 | a word starting with neither a sign nor a digit parses as 0 |
| GoStrings.DigitPrefixOfDigits | main.go:50 | a digit run followed by a non-digit or the end is exactly the digit prefix Atoi reads |
| GoStrings.AtoiSyntaxError | main.go:50 | every non-empty input Atoi rejects as a syntax error parses as 0: a lone sign, or an optional sign and an in-range digit run followed by a non-digit (`5x`, `1.5`, `-`, `+-3`, `abc`) |
| GoStrings.AtoiSaturates | main.go:50 | a digit run beyond the signed 64-bit range gives the bound of its sign, MaxInt64 or MinInt64. This holds when the run is the whole input, and whatever follows it once the run exceeds the unsigned 64-bit range |
| Transcripts.Read | main.go:29-32 | a file opens exactly when its path is non-empty and present, and then yields its text |
| Transcripts.DropCR | main.go:36-37 | a line loses at most one trailing carriage return, and loses it whenever it ends in one |
| Transcripts.Lines | main.go:35-37 | no scanned line holds a newline |
| Transcripts.LinesAreSplitPieces | main.go:35-37 | the scanned lines are the pieces of `strings.Split(text, "\n")`, each without one trailing carriage return, with an empty last piece (after a final newline) not being a line |
| Transcripts.SingleLine | main.go:35-37 | a text with no newline and no trailing carriage return is one line |
| Transcripts.ContainsDropCR | main.go:36-38 | dropping the carriage return keeps every marker not ending in one |
| Transcripts.ContainsInLinePrefix | main.go:36-38 | a marker on the first line is in the text |
| Transcripts.ContainsInRest | main.go:36-38 | a marker after the first newline is in the text |
| Transcripts.OccursInHead | main.go:36-38 | an occurrence ending before the newline lies in the first line |
| Transcripts.OccursInTail | main.go:36-38 | an occurrence starting after the newline lies in the rest |
| Transcripts.LineInText | main.go:36-38 | a marker found on a scanned line is in the text |
| Transcripts.TextOnLine | main.go:36-38 | a single-line marker in the text is found on some scanned line |
| Transcripts.LinesContain | main.go:202-205 | a single-line marker is on some scanned line exactly when it occurs in the text |
| ApplyLog.Route | main.go:51-60 | the bucket named exactly by the keyword gets the count, others keep theirs, and any other keyword changes nothing; in-range counts stay in range |
| ApplyLog.ApplySegment | main.go:46-60 | one comma-separated segment keeps every bucket within the 64-bit range |
| ApplyLog.ApplySegments | main.go:45-61 | the segments of a clause, in order, keep every bucket within the 64-bit range |
| ApplyLog.StatsClause | main.go:40-43 | a line has a statistics clause only when it has a colon, and the clause holds no colon |
| ApplyLog.ApplyLine | main.go:38-62 | one scanned line keeps every bucket within the 64-bit range |
| ApplyLog.ApplyLines | main.go:36-63 | the scanned lines, in order, keep every bucket within the 64-bit range |
| ApplyLog.LogStats | main.go:28-65 | the four counts parseLogStats returns are values of Go's 64-bit `int` |
| ApplyLog.ParseLogStats | main.go:28-65 | the scanner loop, with `ReadSegments` for each clause, returns the counts of `LogStats` of the file, all zero when it cannot be opened |
| ApplyLog.StatsClauseBetweenColons | main.go:40-44 | a line has a statistics clause exactly when it has a colon, and the clause is the text between its first and second colon |
| ApplyLog.MarkerLineWithoutColonIgnored | main.go:41-43 | a marker line without a colon leaves the counts as they were |
| ApplyLog.ApplyLinesWithoutMarker | main.go:38 | lines without `Apply complete!` leave the counts as they were |
| ApplyLog.NoSummaryAllZero | main.go:28-65 | a missing log, or one that never mentions `Apply complete!`, gives four zeros |
| ApplyLog.LastCountAppend | main.go:51-60 | the last report over a concatenation is the last report of its second part, falling back to the first part |
| ApplyLog.SegmentLastWins | main.go:46-60 | a segment sets a bucket to its report's count when it names that bucket, and leaves it otherwise |
| ApplyLog.SegmentsLastWins | main.go:45-61 | after a clause, each bucket holds its last report in that clause, else its earlier value |
| ApplyLog.LineLastWins | main.go:38-61 | after a line, each bucket holds its last report on that line, else its earlier value |
| ApplyLog.LinesLastWins | main.go:36-63 | after a run of lines, each bucket holds its last report in them, else its earlier value |
| ApplyLog.LastReportWins | main.go:28-65 | each bucket holds the count of the last report of its keyword in the whole log, or 0 |
| ApplyLog.JoinWithout | main.go:40-44 | a character in no piece and unequal to the separator is not in the join |
| ApplyLog.SegmentWithout | main.go:44 | a summary segment holds no colon, comma or newline when its count token holds none |
| ApplyLog.SegmentsWithout | main.go:44 | no summary segment holds a colon, comma or newline |
| ApplyLog.SummaryClauseSplits | main.go:44 | the summary's clause splits on commas back into its three segments |
| ApplyLog.SummaryTextSplits | main.go:40-44 | the summary's statistics clause is the comma-joined segments |
| ApplyLog.SummaryTextIsOneMarkerLine | main.go:36-38 | the summary is one scanned line, and it holds `Apply complete!` |
| ApplyLog.SegmentOfWords | main.go:46-60 | a segment ` <token> <word>` routes `Atoi(<token>)` under `<word>` |
| ApplyLog.ReadSegments | main.go:44-61 | the loop over a clause's segments arrives at `ApplySegments` of the counts read so far |
| ApplyLog.SummarySegmentsRead | main.go:45-61 | the three summary segments set added and changed, and leave destroyed at 0 |
| ApplyLog.SummaryTextRead | main.go:28-65 | a summary with any count tokens reads added and changed, and never destroyed |
| ApplyLog.NumeralIsToken | main.go:50 | a decimal numeral fits in the summary line as a single token |
| ApplyLog.SummaryLineDropsDestroyed | main.go:28-65 | terraform's summary line `<a> added, <c> changed, <d> destroyed.` yields (a, c, 0, 0) |
| ApplyLog.NonNumericCountStoresZero | main.go:50-60 | a count token Atoi rejects (`5x`, `1.5`, `-`, `abc`) still overwrites its bucket, with 0 |
| RefreshLog.DetectDrift | main.go:67-83 | the result is 0 or 1, and it is 1 exactly when the log can be read, lacks the no-changes confirmation and shows `Refreshing state...` |
| RefreshLog.ConfirmationOverridesRefresh | main.go:75-77 | the confirmation anywhere in the log means no drift, whatever else the log holds |
| RefreshLog.RefreshWithoutConfirmationIsDrift | main.go:79-81 | `Refreshing state...` without the confirmation means drift |
| RefreshLog.DriftByLines | main.go:67-83 | drift is reported exactly when some line shows a refresh and no line holds the confirmation |
| Outcome.IsErrorLine | main.go:205 | a line carrying either error marker mentions `Error` |
| Outcome.IsTerraformRunSuccessful | main.go:195-210 | the scan succeeds exactly when the log opens and no line holds an error marker, and it fails for the empty path |
| Outcome.NoErrorLineIffNoMarker | main.go:202-209 | the line-by-line scan finds an error exactly when a marker occurs anywhere in the text |
| Outcome.ErrorAnywhereFails | main.go:205-206 | an error marker anywhere in the log, even mid-line, fails the run |
| Metrics.Name | main.go:144-170 | every gauge name starts with `terraform_` |
| Metrics.NamesDistinct | main.go:144-170 | no two gauges share a name, so no `makeGauge` call replaces another gauge |
| Metrics.MadeOrder | main.go:144-170 | the gauges made have no duplicates: 13 with an apply log path, 9 without, the common eight first and the result last |
| Metrics.Registry.constructor | main.go:102 | the gauge map starts empty |
| Metrics.Registry.MakeGauge | main.go:104-108 | `makeGauge` sets that gauge in the map and changes nothing else |
| Metrics.PlanUsed | main.go:110-115 | the decoded plan is used only when the plan file could be read; otherwise the empty plan is used |
| Metrics.RunTimestamp | main.go:136-141 | the plan's parsed timestamp when it has one, the current time otherwise |
| Metrics.ResultLogPath | main.go:162-165 | the apply log path when it is set, the plan path when it is empty |
| Metrics.ResultValue | main.go:166-170 | the result gauge is 0 or 1, and 1 exactly when the log opens and has no error line |
| Metrics.GaugeMap | main.go:144-170 | the common eight and the result are always present, and the four apply gauges are present exactly when there are apply counts |
| Metrics.RunGaugeValues | main.go:144-146 | duration, timestamp, drift and result hold the values they were made with |
| Metrics.TallyGaugeValues | main.go:147-151 | the five plan gauges hold the tally |
| Metrics.ActualGaugeValues | main.go:153-160 | the four apply gauges hold the apply counts |
| Metrics.GaugeCount | main.go:144-170 | a run exports 13 gauges with apply counts and 9 without |
| Metrics.ActualCounts | main.go:153-160 | apply counts exist exactly when the apply log path is set, and then they are `LogStats` of that file |
| Metrics.Gauges | main.go:85-170 | the eight common gauges and the result are always exported, and each of the four apply gauges exactly when the apply log path is set |
| Metrics.PlanIgnoredWhenUnreadable | main.go:110-141 | without a readable plan file, the five plan gauges are 0 and the timestamp is the current time |
| Metrics.PlanTallyGauges | main.go:117-151 | with a readable plan file, total counts the resource changes and each bucket counts the changes whose actions name it |
| Metrics.DriftGauge | main.go:99 | the drift gauge is 1 exactly when the refresh log reads, shows a refresh and lacks the confirmation |
| Metrics.ResultGauge | main.go:162-170 | the result gauge is 1 exactly when the apply log (if set) or the plan file opens and holds neither error marker |
| Metrics.NoLogMeansFailure | main.go:162-170 | with neither an apply log nor a plan path, the run is reported as failed |
| Metrics.SummaryLineGauges | main.go:153-160 | an apply log that is terraform's summary line exports added = a, changed = c, destroyed = 0, imported = 0 |
| Metrics.MakeCommonGauges | main.go:144-151 | the first eight `makeGauge` calls leave exactly the common gauges, in order |
| Metrics.MakeActualGauges | main.go:156-159 | the four apply `makeGauge` calls add the apply counts |
| Metrics.ExportGauges | main.go:144-170 | the sequence of `makeGauge` calls builds `GaugeMap`, making each gauge exactly once in `MadeOrder` |
| Metrics.CollectMetrics | main.go:85-170 | collectMetrics up to the push leaves exactly the gauges of `Gauges`, each made once |

## Left out

- JSON decoding of the plan (main.go:111-115): `CollectMetrics` receives the decoded plan as a parameter. Decode errors are ignored, as the source ignores them.
- RFC 3339 parsing (main.go:136-141): the plan's timestamp is given already parsed, as an optional Unix time.
- Clock, durations and floating point (main.go:96-98): the execution duration and the current time are integer parameters, and gauge values are integers rather than `float64`.
- Environment variables (main.go:86-94): the three paths are parameters. The job, instance, workflow and commit-message grouping labels are left out with the push.
- The push to the Pushgateway and `main`'s exit code (main.go:172-183, 212-217): network I/O.
- Gauge help strings: they do not affect any value.
- The error message printed by detectDrift (main.go:70): output only.
- `bufio.Scanner`'s 64 KiB line limit: a longer line ends the scan early in the source. The model scans every line.
- Strings are sequences of Unicode code points rather than UTF-8 bytes. Invalid UTF-8 input is not modelled.
- CollectMetrics: all file reads happen before the `makeGauge` calls, whereas the source reads the apply log between them. The reads do not touch the gauge map, so the exported map is the same.
- Metrics.Registry: the map is keyed by the `Gauge` enumeration rather than by name strings. `NamesDistinct` shows the two keyings hold the same gauges.
- query_gemini.go is not part of this model: it is a separate program that only calls an external service.
