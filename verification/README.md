# Leveled asynchronous logger — Dafny model

This project models the logging service of the `logger` Go package
(`logger.go`). A `LoggerService` has a service name, a time layout
(`timeLoyaut`, spelled as in the source), a minimum level and an output
writer. Callers hand events to a single writer goroutine over an unbuffered
channel. That goroutine drops each event whose level is below the minimum
and writes the others as
`serviceName | timestamp | LABEL | message\n`. `Fatal` and `Fatalf` write
their line directly, whatever the minimum level, and then exit the process
with status 1.

The goroutine and the channel are replaced by a sequential model:

- `Logger.Service` is an immutable record. Its `out` field holds the lines
  written to the current writer. Its `pending` field is the FIFO of events
  accepted from callers and not yet handled by the writer. Its `status`
  field is `Running` or `Exited(code)`.
- The setters, the eight emitters, `Fatal`/`Fatalf` and one iteration of
  the writer loop (`WriterStep`) are pure functions on that record.
- `Writer.Drain` and the method `Writer.Run` run the writer loop until the
  queue is empty.
- `Trace.Apply`/`Trace.ApplyAll` drive the service with any sequence of
  interface calls, interleaved with writer receives (`DeliverOp`).
- `time.Now()` becomes an `Instant` argument of each call. `Time.Format`
  becomes a `TimeFormatter` function parameter, and `fmt.Sprintf` becomes
  an `Interpolator` function parameter. Both are left uninterpreted.

Modules: `Levels` (levels.dfy), `Layout` (layout.dfy), `Logger`
(logger.dfy), `Writer` (writer.dfy), `Trace` (trace.dfy) and `Scenarios`
(scenarios.dfy). That last module states all eight of the repository's
tests (Test_Debug, Test_Debugf, Test_Info, Test_Infof, Test_Error,
Test_Errorf, Test_Fatal and Test_Fatalf) for every clock, every call time
and every interpolation function.

Two behaviours of the code worth stating explicitly:

- The constructor never assigns the declared `DefaultLevel` (`ErrorLevel`).
  A fresh service therefore filters at level 0 (Debug). The model follows
  the code.
- A level missing from the label table is rendered as the empty string,
  which is the Go map zero value. Every event the service builds carries a
  known level, so this case is only reachable through `Levels.Label` itself.

## Model

| member | source | states |
|---|---|---|
| Levels.Label | logger.go:56-62 | the label is non-empty exactly for levels 0..4, and the five levels map to DEBUG, INFO, WARNING, ERROR and FATAL |
| Levels.LabelInjective | logger.go:56-62 | distinct known levels have distinct labels, so a line's label identifies its level |
| Levels.Validated | logger.go:93-99 | a level in 0..4 is kept unchanged and any other integer becomes ErrorLevel (3); the result is always a known level |
| Layout.Line | logger.go:157 | the Fprintf layout of one line: its length is the field widths plus three separators and a newline, it starts with the service name and ends in a newline; field offsets are stated by Layout.LineLayout and substrings by Layout.LineContainsNameAndMessage |
| Layout.LineLayout | logger.go:157 | each field of a line (name, separator, timestamp, separator, label, separator, message) sits at the offset fixed by the widths of the fields before it, and the line ends in a newline |
| Layout.LineContainsNameAndMessage | logger.go:157 | every emitted line contains the service name and the message as substrings |
| Layout.LineFieldsDetermined | logger.go:157 | given the widths of name, timestamp and label, a line determines all four fields, so the layout loses no information |
| Logger.NewLoggerService | logger.go:65-76 | a fresh service is named "logger", uses the RFC 1123 layout, filters at Debug (not DefaultLevel), is running and has written and queued nothing |
| Logger.SetTimeLoyaut | logger.go:78-81 | stores the layout and leaves every other field, including the level, unchanged |
| Logger.SetServiceName | logger.go:83-86 | stores the name and leaves every other field unchanged |
| Logger.SetOutput | logger.go:88-91 | switches the writer and leaves every other field unchanged |
| Logger.SetLevel | logger.go:93-99 | stores a level in 0..4 unchanged and otherwise ErrorLevel, keeps the level invariant, and leaves every other field unchanged |
| Logger.Submit | logger.go:101-103 | the event is queued behind all earlier ones and nothing else changes |
| Logger.Debug | logger.go:101-103 | queues exactly (message, now, Debug) and keeps the level invariant |
| Logger.Debugf | logger.go:105-107 | queues exactly (Sprintf(format, values), now, Debug) |
| Logger.Info | logger.go:109-111 | queues exactly (message, now, Info) |
| Logger.Infof | logger.go:113-115 | queues exactly (Sprintf(format, values), now, Info) |
| Logger.Warning | logger.go:117-119 | queues exactly (message, now, Warning) |
| Logger.Warningf | logger.go:121-123 | queues exactly (Sprintf(format, values), now, Warning) |
| Logger.Error | logger.go:125-127 | queues exactly (message, now, Error) |
| Logger.Errorf | logger.go:129-131 | queues exactly (Sprintf(format, values), now, Error) |
| Logger.Render | logger.go:157 | the line for an event under the current name and layout: it starts with the service name, ends in a newline and is longer than name, message and label together |
| Logger.Print | logger.go:156-160 | appends one line, containing the service name and the message, to the current output and changes nothing else |
| Logger.WriterStep | logger.go:143-154 | takes the oldest queued event and appends a line iff its level is at least the minimum (the equal case is written); does nothing while the queue is empty or after exit; changes only output and queue |
| Logger.Fatal | logger.go:133-136 | appends exactly one FATAL line whatever the minimum level, then enters Exited(1); nothing but output and status changes |
| Logger.Fatalf | logger.go:138-141 | as Fatal, with the message Sprintf(format, values) |
| Writer.Accepted | logger.go:149-151 | the filtered events are never more than the queued ones |
| Writer.AcceptedMembers | logger.go:149-151 | an event survives the filter iff it was queued and its level is at least the minimum |
| Writer.AcceptedConcat | logger.go:143-154 | filtering is per event and keeps no state: filtering a concatenation is concatenating the filtered parts |
| Writer.RenderAll | logger.go:152 | one line per event, the i-th line being the i-th event's rendering |
| Writer.Drain | logger.go:143-154 | the run loop taken to an empty queue: a running writer empties the queue, leaves status and level alone, and writes at most one line per queued event; its exact output is stated by Writer.DrainWritesAccepted and its frame by Writer.DrainEmptiesQueue |
| Writer.DrainEmptiesQueue | logger.go:143-154 | running the writer loop to completion empties the queue and touches no configuration |
| Writer.DrainWritesAccepted | logger.go:143-154 | running the writer loop appends exactly the lines of the events with level at least the minimum, in queue order |
| Writer.Run | logger.go:143-154 | the loop form of the writer produces exactly the lines of the accepted events, in order, and empties the queue |
| Writer.AcceptedPosition | logger.go:143-154 | an accepted event's line is at the position given by the number of accepted events before it |
| Writer.AcceptedOrder | logger.go:143-154 | of two accepted events, the line of the earlier one is written first (FIFO) |
| Writer.NothingBelowFatal | logger.go:149-151 | with the minimum at FatalLevel, no Debug, Info, Warning or Error event produces output |
| Trace.Apply | logger.go:10-26 | no operation acts after exit; only Fatal and Fatalf exit, and with status 1; only SetOutput can drop lines; every operation keeps the level invariant |
| Trace.ApplyAll | logger.go:10-26 | a sequence of interface calls applied in order; a running process that ends up exited did so through a Fatal or Fatalf call, and only ever with status 1 |
| Trace.Delivers | logger.go:143-145 | n receives of the writer loop, each one a DeliverOp |
| Trace.ApplyAllPreservesValid | logger.go:93-99 | the level invariant holds after any sequence of operations |
| Trace.ReachableLevelIsKnown | logger.go:65-71 | every state reached from a fresh service has a minimum level in 0..4 |
| Trace.ExitedIsFinal | logger.go:135 | after exit no sequence of operations changes the service |
| Trace.FatalIsLastOutput | logger.go:133-136 | after Fatal the output is exactly the earlier output plus the FATAL line, whatever follows, and the status is 1; "whatever follows" rests on print and exit being one step, see "## Left out" |
| Trace.FatalfIsLastOutput | logger.go:138-141 | after Fatalf the output is exactly the earlier output plus the FATAL line with the interpolated message, whatever follows, and the status is 1 |
| Trace.OutputIsAppendOnly | logger.go:156-160 | without a change of writer, the output only grows by appending |
| Trace.DeliversDrain | logger.go:143-154 | one writer receive per queued event is the same as draining the queue |
| Scenarios.Configured | logger_test.go:19-22 | the test setup chain yields name "my-logger", the requested level and an empty buffer |
| Scenarios.InfoFiltersDebug | logger_test.go:60-85 | at Info, Debug then Info writes only the Info line, which contains "my-logger" and "test info" |
| Scenarios.ErrorFiltersLower | logger_test.go:114-143 | at Error, Debug, Info then Error writes only the Error line |
| Scenarios.QuietAtFatal | logger_test.go:186-196 | at Fatal, Debug, Info and Error calls leave the buffer empty, the process running and the configuration as set up |
| Scenarios.FatalOnlyFatal | logger_test.go:176-211 | at Fatal, Debug, Info and Error write nothing; Fatal then writes its line and exits with 1 |
| Scenarios.DebugWritten | logger_test.go:14-35 | at Debug, a Debug call writes exactly its line, which contains "my-logger" and "test debug" |
| Scenarios.DebugfWritten | logger_test.go:37-58 | at Debug, a Debugf call writes exactly its line with the interpolated message, which contains "my-logger" and that message |
| Scenarios.InfofFiltersDebugf | logger_test.go:87-112 | at Info, Debugf then Infof writes only the Infof line |
| Scenarios.ErrorfFiltersLower | logger_test.go:145-174 | at Error, Debugf, Infof then Errorf writes only the Errorf line |
| Scenarios.FatalfOnlyFatal | logger_test.go:213-250 | at Fatal, Debug, Info and Error leave the buffer empty; after a switch of writer, Fatalf appends its interpolated FATAL line there and exits with 1 |
| Scenarios.FirstBeforeSecond | logger.go:143-154 | "first" then "second" accepted in that order are written in that order |

## Left out

- The goroutine and the unbuffered channel (logger.go:70-74, 102-130) are concurrency. They are modelled as a FIFO queue plus a writer step that a trace may interleave anywhere. The real channel never holds more than the one event the writer has received and not yet written; the model allows any queue length.
- The panic on a closed channel (logger.go:146-148) is left out. Nothing ever closes the channel.
- Write errors from `io.Writer` and the `panic(err)` in `print` (logger.go:157-159) are I/O failures and are not modelled. Every write succeeds.
- `os.Exit(1)` is modelled only as the terminal status `Exited(1)`. Queued events not yet written when Fatal runs stay unwritten.
- `time.Now()`, `time.Time` and `Time.Format` become an integer `Instant` and an uninterpreted `TimeFormatter` parameter. `fmt.Sprintf` becomes an uninterpreted `Interpolator` over arguments already rendered as strings, so positional interpolation itself is not modelled.
- A writer is represented by the lines it holds. `SetOutput` installs a writer with the given contents, and `DefaultOutType` (standard output) starts empty. Sharing one writer between services is not modelled.
- Logger.SetTimeLoyaut: the setters return the same service pointer for chaining. Pure functions return the updated value instead, so pointer identity is not stated.
- Logger.NewLoggerService: DefaultTimeLoyaut, DefaultServiceName and DefaultOutType are package variables in logger.go:50-54, and the constructor reads them when it runs. A caller may reassign them first. The model holds them as constants, so the contract states the defaults only for unmodified package variables.
- Trace.FatalIsLastOutput and Trace.FatalfIsLastOutput treat Fatal's print and exit as one step. In the code the writer goroutine can still write its in-flight event between logger.go:134 and logger.go:135.
- Scenarios: the contents of the interpolated messages ("format debugf" and the like) depend on fmt.Sprintf, which is not modelled. The scenarios state them as the interpolation function's result.
- Concurrent calls to setters and logging calls, including the race between the Fatal path and the writer on the same writer, are not modelled. Operations are applied one at a time.
