# go-log in Dafny

A model of the go-log logging library: the leveled, prefix-scoped logger of
package `log`, the earlier unleveled logger of package `logger`, and the
verbosity-flag resolution of package `arg` that seeds the leveled logger's
initial level.

A logger is an immutable record and every operation is a pure function that
returns the new logger and/or the new sink contents. A sink stands for an
`io.Writer`: it is an id (`Stdout` or `Writer(n)`) and what it has received is
an append-only sequence of writes, one entry per `Fprint`/`Fprintf`/`Fprintln`
call. Message bodies are taken as already rendered text, clock readings as
integers shown through a `TimeFormat` parameter, and the caller lookup of
`Begin` as a `Frame` parameter.

Modules:

- `Loglevel` — the uint8 `Level` type and `LEVEL_0` … `LEVEL_6`.
- `Sinks` — sinks, writes, `Streams` (what every sink has received), `Texts`
  (the rendered text among a sink's writes).
- `Arg` — `SetInitLevel` (the priority switch over the six flags) and `GetInitLevel`.
- `CallerName` — `strings.Split` on "." and the last-part rule of `captureFuncName`.
- `Log` — package `log`: options, `NewLogger`, accessors, `logMessage`/`logfMessage`,
  the seven tiers as one `Message` function over a `Tier` table (rank and tag),
  `Prefix`, `Begin`, `End`, and whole runs of calls.
- `Logger` — package `logger`: options, `NewLogger`, `Log`, `Logf`, `Begin`,
  `End`, `Enable`, `Disable`, `SetOutput`, and whole runs of calls.

Behaviour worth knowing, as the code has it:

- A ranked call below its rank prints its notice on standard output even when
  the logger is disabled (log/log.go:193 and the like are outside the
  `enabled` test). So disabling suppresses all *logged text*, not every write:
  `Log.DisabledWritesNoText` states exactly that.
- Because the notice goes to standard output, and standard output is the
  default sink, "a gated call leaves the configured sink unchanged" holds for
  the sink's text but not for its writes when the sink is `Stdout`.
- `Begin` compares the looked-up name with the stored one. A failed lookup
  (empty name) after a successful one therefore differs, and appends an empty
  segment ": " (`Log.FailedLookupAfterNamedBegin`). A failed lookup appends
  nothing only while no name has been stored yet (`Log.FailedLookupOnFreshLogger`).
- The framing lines of `Begin`/`End` carry the logger's prefix before each
  line, and ranked `Log`/`Logf` are tagged "LOG: " and gated at level 5; the
  tests in log/log_test.go that expect otherwise (TestLog, TestLogf,
  TestSetOutput, TestBeginEnd, TestPrefix) describe an earlier version.
- The level package is not part of this model; its constants are taken to be
  `LEVEL_k = k`, as the level loop in log/log_test.go:189 and arg/arg_test.go:26-32 imply.

## Model

| member | source | states |
|---|---|---|
| Arg.SetInitLevel | arg/arg.go:26-42 | the stored level is at most 6, is 0 or a level whose flag is set, and is at least every level whose flag is set (the highest set flag wins); the flags are untouched |
| Arg.GetAfterSet | arg/arg.go:45-47 | reading the level after resolution gives 0 exactly when no flag is set, and k exactly when flag k is set and no higher one is |
| Arg.SingleFlag | arg/arg_test.go:26-32 | with only flag k set the level is k; with no flag set it is 0 |
| Arg.MoreFlagsNeverLower | arg/arg.go:27-39 | setting additional flags never lowers the resolved level |
| CallerName.Split | log/log.go:341 | splitting yields at least one part, no part contains the separator, and joining the parts with the separator gives back the input |
| CallerName.FuncName | log/log.go:335-346 | the recorded name has no ".", is a suffix of the qualified name, is the whole name or starts right after a ".", equals the name when it has no ".", and is "" when the frame is unavailable |
| Log.WriteSegments | log/log.go:110-117 | the builder loop extends the prefix by exactly each segment followed by ": ", in order |
| Log.SegmentsAppend | log/log.go:321-328 | appending segments in two calls renders the same as appending them in one |
| Log.ApplyOptions | log/log.go:85-87 | options apply in argument order: the last WithEnabled and the last WithOutput win, WithPrefix segments accumulate, level, caller name and start time are untouched |
| Log.ApplyOptionsAppend | log/log.go:80-87 | applying two option lists one after the other equals applying their concatenation |
| Log.NewLogger | log/log.go:64-90 | a fresh logger is enabled, writes to standard output, has the level the flag parser stored, an empty prefix and no caller name, then the options decide |
| Log.LevelSeededByFlags | log/log.go:67 | a logger built after flag resolution starts at the highest level whose flag is set, or 0 |
| Log.PrefixAccumulates | log/log.go:110-117 | a WithPrefix option followed by two Prefix calls gives the rendering of all three segment lists, concatenated in call order |
| Log.Enable | log/log.go:147-149 | sets the enabled flag and changes no other field |
| Log.Disable | log/log.go:151-153 | clears the enabled flag and changes no other field |
| Log.SetOutput | log/log.go:159-161 | sets the sink and changes no other field |
| Log.SetLevel | log/log.go:168-171 | sets the level and changes no other field |
| Log.Prefix | log/log.go:321-332 | the prefix read back is the old prefix followed by each segment and ": "; nothing else changes |
| Log.GettersReturnLastSet | log/log.go:155-165 | IsEnabled, GetOutput and GetPrefix return what Enable/Disable, the last SetOutput and the Prefix calls stored |
| Log.LogMessage | log/log.go:173-185 | when enabled the current sink gains the prefix and then the message; when disabled, or on any other sink, nothing changes |
| Log.Message | log/log.go:187-318 | at or above the tier's rank an enabled logger's sink gains prefix, then tag and body, a disabled one changes nothing; below the rank only standard output gains a notice carrying the level and the rank |
| Log.MessageText | log/log.go:188-195 | the text a ranked call adds to any sink is prefix and tagged body on the logger's sink exactly when enabled and level >= rank, and nothing otherwise |
| Log.ThresholdFilters | log/log_test.go:167-205 | an enabled logger's sink receives the text of exactly those messages whose tier rank is at most the level, in call order |
| Log.NothingAtLevelZero | log/log.go:190-194 | at level 0 a run of ranked messages adds no text to any sink, enabled or not |
| Log.EverythingAtLevelSix | log/log.go:302-309 | at level 6 an enabled logger's sink gains, for every message in turn, the prefix and then its tier's tag and body, after what it already held |
| Log.LogLines | log/log.go:133-144 | logMessage for each line in turn: when enabled the sink gains each line after the prefix, in order; otherwise no sink changes |
| Log.Enter | log/log.go:120-132 | the caller's name is appended as a segment exactly when it differs from the stored one and becomes the stored name, the extra segments follow, the start time is recorded; enabled flag, sink and level are kept |
| Log.Begin | log/log.go:119-137 | the logger is extended as Enter states, using the name stripped from the caller's frame, and when enabled the sink gains "BEGIN" and "Execution started at: " with the start stamp, each after the extended prefix; the level never matters |
| Log.End | log/log.go:139-145 | when enabled the sink gains "END", "Execution ended at: " with the end stamp, and "Execution duration: " with the time since the recorded start, each after the prefix; the logger is unchanged and the level never matters |
| Log.RepeatedBeginAddsNameOnce | log/log.go:120-125 | a second Begin from the same caller does not append the name again |
| Log.FailedLookupOnFreshLogger | log/log.go:120-130 | a failed caller lookup on a logger with no stored name appends only the extra segments |
| Log.FailedLookupAfterNamedBegin | log/log.go:120-125 | a failed caller lookup after a stored name appends an empty segment and clears the stored name |
| Log.BeginEndTranscript | log/log.go:119-145 | Begin then End on an enabled logger, at any level, write the five framing lines in order after the extended prefix, with the duration measured from Begin's reading |
| Log.Step | log/log.go:110-332 | no call on the logger shortens its prefix or takes back anything a sink received |
| Log.Run | log/log.go:110-332 | over any sequence of calls the prefix only grows and every sink only grows |
| Log.DisabledWritesNoText | log/log.go:173-185 | a disabled logger that no call enables adds no text to any sink |
| Log.SetOutputRoutes | log/log.go:159-161 | a message after SetOutput(a) lands on a, one after SetOutput(b) lands on b, with no cross-contamination |
| Logger.ApplyOptions | logger/logger.go:29-31 | options apply in argument order; for each field the last option naming it wins |
| Logger.NewLogger | logger/logger.go:15-34 | a fresh logger is enabled and writes to standard output unless the options say otherwise |
| Logger.Log | logger/logger.go:54-58 | when enabled the sink gains the message followed by a newline; otherwise no sink changes |
| Logger.Logf | logger/logger.go:60-64 | when enabled the sink gains the formatted message with no newline added; otherwise no sink changes |
| Logger.Begin | logger/logger.go:66-69 | when enabled the sink gains a "BEGIN" line and then an "Execution started at: " line with the stamp |
| Logger.End | logger/logger.go:71-74 | when enabled the sink gains an "END" line and then an "Execution ended at: " line with the stamp |
| Logger.Enable | logger/logger.go:76-78 | sets the flag and keeps the sink |
| Logger.Disable | logger/logger.go:80-82 | clears the flag and keeps the sink |
| Logger.SetOutput | logger/logger.go:84-86 | sets the sink and keeps the flag |
| Logger.Step | logger/logger.go:54-86 | no single call on the logger takes back anything a sink received |
| Logger.Run | logger/logger.go:54-86 | over any sequence of calls every sink only grows |
| Logger.DisabledIsSilent | logger/logger.go:54-74 | a disabled logger that no call enables leaves every sink as it was |
| Logger.SetOutputRoutes | logger/logger.go:84-86 | after SetOutput(b) the next Log lands on b, and the earlier sink keeps exactly the earlier line |

## Left out

- `runtime.Caller` and `runtime.FuncForPC` (log/log.go:336-338): the caller lookup is a `Frame` parameter; only the name stripping is modelled.
- `time.Now`, RFC 3339 rendering and `time.Duration` (log/log.go:132-144, logger/logger.go:68-73): clock readings are integers shown through a `TimeFormat` parameter in `log`, and stamps are already rendered strings in `logger`.
- `fmt` rendering: operand spacing of `Fprint`, the verbs of `Fprintf`, and the `"%s"+format` construction that puts the tag in front (log/log.go:200 and the like). Each message body is already rendered text, so the plain and the `f` form of a tier are one `Log.Message`.
- Log.Message: the notice printed below the rank is kept as its two numbers, not as the formatted sentence.
- `io.Writer` identity and write errors, which the source ignores: a sink is an id with an append-only sequence of writes.
- The `flag` package, `os.Args` and the `init()` of arg/arg.go:8-24: the six flags are a `Flags` record supplied directly.
- The level package is not part of this model; `LEVEL_k = k` is assumed.
- Concurrency: the source's logger is unsynchronised and nothing in it runs concurrently; the model is sequential.
- cmd/main.go, an HTTP demonstration program, is not part of this model.
