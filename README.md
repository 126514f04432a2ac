# logx leveled logger — Dafny model

This project models the `logx` package, a small leveled logger for Go
programs. A logger has a write destination, a threshold level and a time-zone
mode. It prints a message only when the message's level is not `Off` and is
at least the threshold. Each printed entry is the time-zone suffix (`"UTC "`
or nothing), then a fixed-width tag such as `[INFO]  `, then the message text.

Files:

- `levels.dfy` (module `Levels`): the `Level` constants `Fine=10`, `Debug=20`,
  `Info=30`, `Warn=40`, `Error=50` and `Off=99`. It also holds
  `Level.String` (`Name`), `label` (`Label`) and the admission test that `Log`
  and `LogWithFn` share (`Admits`). A reference definition, `Tag`, builds each
  tag from the level's name: upper case, in brackets, padded to eight
  characters.
- `logger.dfy` (module `Logx`): the sink (class `Sink`, the entries printed
  so far) and the logger (class `Logger`, whose fields are constants set once
  by `New`). It also holds `New`, `Log`, the five per-level calls,
  `LogWithFn` and a call-counting message producer (`Producer`). These are
  module-level methods that take a `Logger?`, so that a nil receiver can be
  expressed. `Log` tolerates a nil receiver. `LogWithFn` requires a logger
  unless the level is `Off`, because the Go code reads `l.level` without a
  nil check. It accepts a nil `fn` only when the message is suppressed,
  because the Go code calls `fn()` once the message is admitted.
- `runs.dfy` (module `Runs`): what a logger writes over a whole sequence of
  calls. `Run` folds the one-call output `Emitted` over the calls. The client
  method `LogAll` issues one `Log` call per element and is proved to append
  exactly `Run` to the sink. The lemmas show that the output is the admitted
  calls' entries in order, and that raising the threshold can only thin it.
- `scenarios.dfy` (module `Scenarios`): situations that follow from the
  logger's documented behaviour, including those `logger_test.go` checks,
  proved from the contracts alone.

## Model

| member | source | states |
|---|---|---|
| `Levels.Name` | logger.go:51-68 | the result is "Unknown" exactly when the level is not one of the six named constants; each named level gets a capitalised name |
| `Levels.Label` | logger.go:161-176 | each of the five standard levels gets an 8-character tag that starts with `[` and ends with a space; every other value, `Off` included, gets the empty tag |
| `Levels.LabelSpellsName` | logger.go:161-176 | each standard level's tag equals its `String` name in upper case, in brackets, padded to 8 characters |
| `Levels.NameInjective` | logger.go:51-68 | distinct named levels have distinct names |
| `Levels.LabelInjective` | logger.go:161-176 | distinct standard levels have distinct tags |
| `Levels.Admits` | logger.go:142-158 | a message passes exactly when its level is not `Off` and the threshold is at most its level: the negation of the guards at lines 143 and 153, without the nil check |
| `Levels.AdmitsUpward` | logger.go:20-23 | if a message at level L is admitted, so is a message at any level L' ≥ L other than `Off` |
| `Levels.ThresholdSelects` | logger.go:143 | a threshold T admits a standard level L exactly when T ≤ L |
| `Levels.RaisingThresholdDrops` | logger.go:143 | a message admitted under a higher threshold is admitted under every lower one |
| `Logx.Sink.Print` | logger.go:147 | printing a header and a text appends exactly one entry, the two strings back to back |
| `Logx.Logger.constructor` | logger.go:109-113 | the logger holds the given writer, level and time-zone suffix |
| `Logx.Entry` | logger.go:147 | an entry starts with the time-zone suffix, then the level's tag, and ends with the message text unchanged |
| `Logx.Emitted` | logger.go:142-148 | one call emits at most one entry; it emits one exactly when the level is admitted, and that entry is the suffix, the tag and the text |
| `Logx.New` | logger.go:89-114 | no logger exactly when the writer is nil or the level is not one of the five standard levels; otherwise a fresh logger with that writer and level, whose suffix is "UTC " exactly when `useLocalTime` is false and "" exactly when it is true |
| `Logx.Log` | logger.go:141-148 | with a nil logger nothing is written; otherwise the sink grows by exactly what `Emitted` gives: nothing for `Off` or a level below the threshold, one entry otherwise |
| `Logx.Fine` | logger.go:116-119 | behaves as `Log` at level Fine |
| `Logx.Debug` | logger.go:121-124 | behaves as `Log` at level Debug |
| `Logx.Info` | logger.go:126-129 | behaves as `Log` at level Info |
| `Logx.Warn` | logger.go:131-134 | behaves as `Log` at level Warn |
| `Logx.Error` | logger.go:136-139 | behaves as `Log` at level Error |
| `Logx.Producer.Call` | logger.go:152 | calling the message function counts the call and returns its text |
| `Logx.LogWithFn` | logger.go:150-158 | the producer is called once when the message is admitted and never otherwise; its text is written unchanged after the suffix and tag; with `Off` a nil logger is allowed, any other level needs a logger; a nil producer is allowed exactly while the message is suppressed |
| `Logx.ValidLoggerEntries` | logger.go:89-114 | every logger `New` returns admits Error messages and never an `Off` message, and every entry it writes at a standard level starts with "UTC [" when it prints UTC time and with "[" (no "UTC " suffix) when it prints local time |
| `Runs.Admitted` | logger.go:143 | a call is kept exactly when it is in the input and its level is admitted, and the kept calls are a subsequence of the input (order preserved) |
| `Runs.AdmittedKeepsRepetitions` | logger.go:143 | each admitted call occurs among the kept calls exactly as often as in the input; any other call does not occur |
| `Runs.RunSnoc` | logger.go:142-148 | logging one more call extends the run's output by exactly what that call emits, the same step as `Log`'s postcondition |
| `Runs.LogAll` | logger.go:141-148 | a client issuing one `Log` call per element of a call sequence makes the sink grow by exactly that sequence's run |
| `Runs.RunIsAdmittedEntries` | logger.go:142-148 | a run's output has one entry per admitted call, in call order, each being the call's suffix, tag and text |
| `Runs.NothingAdmittedNothingWritten` | logger.go:143-145 | when no call is admitted the output is empty |
| `Runs.FineAdmitsEveryStandardCall` | logger.go:20-23 | at threshold Fine, the admitted calls are all the calls, when every call is at a standard level |
| `Runs.FineWritesEveryStandardCall` | logger.go:20-23 | at threshold Fine, the output has one entry per call at a standard level, and entry i is call i's suffix, tag and text |
| `Runs.RaisingThresholdThinsRun` | logger.go:20-23 | for the same calls, a higher threshold writes a subsequence of what a lower threshold writes |
| `Scenarios.UtcEntryShowsTagAndText` | logger_test.go:102 | an entry from a UTC logger contains "UTC " directly followed by the level's tag, and contains the message text |
| `Scenarios.NewRejectsAndAccepts` | logger_test.go:11-33 | `New` fails with no writer, at `Off`, at Fine-1 and at Error+1, and succeeds at Warn keeping the level |
| `Scenarios.DebugLoggerInUtc` | logger_test.go:68-104 | a UTC logger at Debug writes "UTC [INFO]  hello world" for an Info message and nothing for a later Fine message |
| `Scenarios.ErrorLoggerInLocalTime` | logger.go:102-148 | a local-time logger at Error drops a Warn message and writes "[ERROR] boom" with no UTC suffix |
| `Scenarios.LazyMessageCalledOnlyWhenAdmitted` | logger.go:150-158 | below the threshold the producer is not called and may be nil; at or above it, it is called once and its text written |
| `Scenarios.NilLoggerWritesNothing` | logger.go:141-145 | the nil logger that `New` returns for a missing writer absorbs `Log`, `Error` and `LogWithFn` at `Off`: nothing written, producer not called |

## Left out

- The date and time that `log.Logger` prints before each entry (`LstdFlags | Lmicroseconds`, and `LUTC` when `useLocalTime` is false), and the newline after it. They depend on the wall clock and on the formatting of Go's `log` package. An entry here is the rest of the printed line. The `LUTC` flag is reflected only in the "UTC " suffix.
- `fmt.Sprintf` substitution of the format arguments in `Log` and the per-level calls. The model takes the already formatted message text.
- Write errors of the `io.Writer`, and the serialisation of concurrent writes inside `log.Logger`. The sink is a list of entries, and every print succeeds.
- `Logx.LogWithFn`: a Go closure may have arbitrary side effects. The producer here only counts its calls and returns a text that depends on that count. A nil logger at a level other than `Off` makes the Go code panic, and so does a nil `fn` for an admitted message; here both cases are excluded by preconditions. A nil `fn` for a suppressed message is modelled and is harmless.
- `Levels.Level`: Go's `int` width is not modelled. Levels are only compared, never computed with, except `Fine - 1` and `Error + 1`, which do not overflow.
- `examples/logger_example.go` is a demo call site and is not part of this model.
