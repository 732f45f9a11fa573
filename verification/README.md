# BatterLog: a verified model of the session logger's sequential core

`BatterLog` is the process-wide logger of the Batter game modification. Callers log
through `Info`, `Warning` (alias `Warn`) and `Error`, or draw separators with `Hr()` and
`Hr(title)`. Every call that does not throw goes through `EnqueueMessage`. Under a lock, that method collapses
consecutive identical `"[LEVEL] message"` texts into one timestamped line and a later
`"[Repeated N times] …"` summary. A background thread writes the queue to the log file, and
`Shutdown` queues any pending summary and drains what is left.

This project models that logic as pure functions over immutable values. It proves:

- **Separator shape.** `Hr()` logs exactly fifty `=`. A blank or null title behaves like
  `Hr()`. A trimmed title of at most 48 characters is centred in a 50-character rule whose
  right run is as long as the left run or one longer. A title of 50 characters or more
  falls back to `= title =`. A title of exactly 49 characters throws (see Findings).
- **Dedup step.** A duplicate changes only the counter. A new message queues the pending
  summary and then its own stamped line. The invariant `repeatCount > 0 ⇒ lastMessage ≠ null`
  holds after every step, so the null test on line 104 is redundant.
- **Conservation.** The queue can be read back: `Decode` recovers each line's entry, and
  `Expand` turns each summary back into the copies it stands for. After any calls and a
  shutdown, this reproduces every call's formatted message exactly once, in call order. In
  counting form, the stamped lines plus Σ(n − 1) over the summaries equal the number of
  calls. At the session level the same holds of the records written to the log file, for
  any interleaving of calls and flush passes.

Modules:

- `Wrappers` (`wrappers.dfy`): `Option` for C# null and `Result` for thrown exceptions.
- `Decimal` (`decimal.dfy`): renders the repeat count in decimal and parses it back.
- `DotNet` (`dotnet.dfy`): the .NET pieces the code relies on. These are C#'s
  truncating `/`, `char.IsWhiteSpace`, `string.IsNullOrWhiteSpace`, `Trim` and
  `new string(c, n)`.
- `Separator` (`separator.dfy`): `Hr()` and `Hr(title)` as written, plus the corrected
  centring.
- `Dedup` (`dedup.dfy`): the state `(lastMessage, repeatCount, queue)`, the `EnqueueMessage`
  step, the locked part of `Shutdown`, the line decoder and the conservation proofs.
- `Int32Dedup` (`int32dedup.dfy`): the same step with the code's 32-bit counter, and
  what happens when it wraps.
- `Logger` (`logger.dfy`): the public calls, flush passes, `Shutdown`, and the end-to-end
  theorem about the file.

Modelling choices:

- The clock is a parameter. `DateTime.Now:HH:mm:ss.fff` is the string `ts` of each call.
  Conservation assumes the rendered time starts with a digit and contains no `]`
  (`Dedup.IsTimestamp`), so a stamped line can never be mistaken for a summary line. The
  `:` of that format is the culture's time separator; any separator without a `]` meets
  the assumption. Likewise the minus sign of a negative count printed at line 105 is the
  culture's `NumberFormatInfo.NegativeSign`; the model prints `-` (`Int32Dedup.IntToString`),
  and some cultures use U+2212 instead.
- The lock becomes atomicity. Each public call and each flush pass is one step, and a
  session is one sequence of such steps.
- The log file is the sequence of records passed to `WriteLine` so far (lines 123, 157),
  one record per queued string. A record is one line of the text file only when the
  message has no line break in it. A flag records that
  `Shutdown` has closed the writer; every write after that throws.

The model follows the code where it departs from what the logger is meant to do. A title too
long to centre is meant to fall back to `= title =`. The code throws instead for a trimmed
length of 49, and `Logger.HrTitled` returns that exception.

## Model

| member | source | states |
|---|---|---|
| Decimal.NatToString | Batter.Core/Utils/BatterLog.cs:105 | the count in a summary is a non-empty run of decimal digits with no leading zero |
| Decimal.ParsePrinted | Batter.Core/Utils/BatterLog.cs:105 | parsing the printed count gives the count back |
| Decimal.NatToStringInjective | Batter.Core/Utils/BatterLog.cs:105 | two counts print the same exactly when they are equal |
| DotNet.TruncDiv | Batter.Core/Utils/BatterLog.cs:78 | C# `/`: the remainder is smaller than the divisor in magnitude and is zero or has the dividend's sign |
| DotNet.TruncDivUnique | Batter.Core/Utils/BatterLog.cs:78 | those two properties determine the quotient uniquely |
| DotNet.TruncDivVersusEuclidean | Batter.Core/Utils/BatterLog.cs:78 | truncation equals floor division on non-negative dividends and is one more on negative dividends that leave a remainder, such as the -1 of a 49-character title |
| DotNet.Trim | Batter.Core/Utils/BatterLog.cs:76 | the result occurs in the input with only white space before and after it, neither starts nor ends with white space, and is empty exactly when the input is all white space |
| DotNet.TrimIdempotent | Batter.Core/Utils/BatterLog.cs:76 | trimming a trimmed title changes nothing |
| DotNet.NewString | Batter.Core/Utils/BatterLog.cs:85-86 | `new string(c, n)` succeeds exactly when n >= 0, and then yields n copies of c |
| Separator.Plain | Batter.Core/Utils/BatterLog.cs:66 | the plain separator is exactly 50 `=` characters |
| Separator.Centre | Batter.Core/Utils/BatterLog.cs:77-87 | on a trimmed title: throws exactly at length 49, and gives `= t =` at length 50 or more |
| Separator.CentreFits | Batter.Core/Utils/BatterLog.cs:77-87 | a trimmed title of at most 48 characters yields a 50-character line: `=` run, space, title, space, `=` run, right run minus left run in {0, 1} |
| Separator.Titled | Batter.Core/Utils/BatterLog.cs:69-87 | a null or blank title gives the plain rule; otherwise the trimmed title is non-empty, the call throws exactly when it has 49 characters, and it falls back to `= t =` from 50 characters on |
| Separator.TitledCentres | Batter.Core/Utils/BatterLog.cs:76-87 | a non-blank title whose trimmed length is at most 48 is centred in exactly 50 characters |
| Separator.TitledThrowsAt49 | Batter.Core/Utils/BatterLog.cs:77-86 | `Hr` with 49 `x` characters raises ArgumentOutOfRangeException for `count` |
| Separator.CentreCorrectedTotal | Batter.Core/Utils/BatterLog.cs:77-86 | with floor division, titles that fit are centred, every longer title including length 49 falls back, and the result agrees with the code wherever the code succeeds |
| Separator.TitledCorrectedTotal | Batter.Core/Utils/BatterLog.cs:69-87 | the corrected `Hr(title)` never throws, is the plain rule for blank titles, centres fitting titles, falls back for the rest, and matches the code wherever the code succeeds |
| Dedup.Enqueue | Batter.Core/Utils/BatterLog.cs:95-111 | a duplicate leaves the queue and message alone and bumps the count by one; otherwise the pending summary (if any) and the stamped line are appended, the count is reset and the message remembered; the invariant holds afterwards from any state |
| Dedup.Shutdown | Batter.Core/Utils/BatterLog.cs:138-143 | keeps the queue as it was and appends one line, `[Repeated count+1 times] last`, exactly when the count is positive and a message is remembered; then resets to (null, 0) with the invariant |
| Dedup.DecodeRender | Batter.Core/Utils/BatterLog.cs:104-110 | every stamped line (with a well-shaped time) and every summary line decodes to the entry it was built from |
| Dedup.EnqueueAccounts | Batter.Core/Utils/BatterLog.cs:97-110 | one step adds exactly its own formatted message to what the queue and the pending count account for |
| Dedup.ShutdownAccounts | Batter.Core/Utils/BatterLog.cs:138-143 | shutdown moves the pending copies into the queue's account unchanged |
| Dedup.RunAccounts | Batter.Core/Utils/BatterLog.cs:95-111 | after any calls, the queue plus the pending copies account for every call in order, and the invariant holds |
| Dedup.NothingLost | Batter.Core/Utils/BatterLog.cs:138-143 | after any calls and shutdown, reading the queue back gives every call's formatted message, in call order |
| Dedup.CallsConserved | Batter.Core/Utils/BatterLog.cs:104-110 | stamped lines plus Σ(n − 1) over `[Repeated n times]` lines equal the number of calls |
| Dedup.RunOfRepeats | Batter.Core/Utils/BatterLog.cs:95-143 | N calls that all format to the same text, at any times, queue only the first call's stamped line and leave the count at N − 1; shutdown then adds `[Repeated N times]` exactly when N > 1 |
| Dedup.InterleavedExample | Batter.Core/Utils/BatterLog.cs:95-111 | a, a, b, a queues stamped a, `[Repeated 2 times] [INFO] a`, stamped b, stamped a |
| Int32Dedup.Increment | Batter.Core/Utils/BatterLog.cs:100 | unchecked `++` on an `int` adds one below the maximum and wraps the maximum to the minimum |
| Int32Dedup.Enqueue32 | Batter.Core/Utils/BatterLog.cs:95-111 | with the 32-bit counter, a non-duplicate arriving with a count of zero or less emits no summary and leaves the count as it was |
| Int32Dedup.Shutdown32 | Batter.Core/Utils/BatterLog.cs:138-143 | with the 32-bit counter, shutdown emits nothing when the count is not positive |
| Int32Dedup.AgreesBelowBound | Batter.Core/Utils/BatterLog.cs:95-143 | while the counter is below 2^31 − 1 the code's step and shutdown are exactly the unbounded model's |
| Int32Dedup.CopiesCount | Batter.Core/Utils/BatterLog.cs:99-102 | k + 1 identical calls leave the 32-bit count at k for every k up to 2^31 − 1 |
| Int32Dedup.WrapMisreportsCount | Batter.Core/Utils/BatterLog.cs:104-106 | 2^31 copies and a different call queue a summary with a negative repeat count |
| Int32Dedup.WrapDropsSummary | Batter.Core/Utils/BatterLog.cs:104-107 | 2^31 + 1 copies, a different call and shutdown leave two lines; the unbounded model leaves the summary of 2^31 + 1 |
| Logger.Start | Batter.Core/Utils/BatterLog.cs:46 | a new session has written nothing and has queued only the stamped session-start line |
| Logger.Info | Batter.Core/Utils/BatterLog.cs:53-55 | the message is processed with the INFO tag; the file is untouched |
| Logger.Warning | Batter.Core/Utils/BatterLog.cs:57-59 | the message is processed with the WARNING tag; the file is untouched |
| Logger.Warn | Batter.Core/Utils/BatterLog.cs:61-63 | `Warn` is `Warning` |
| Logger.Error | Batter.Core/Utils/BatterLog.cs:91-93 | the message is processed with the ERROR tag; the file is untouched |
| Logger.Hr | Batter.Core/Utils/BatterLog.cs:65-67 | logs fifty `=` at INFO level |
| Logger.HrTitled | Batter.Core/Utils/BatterLog.cs:69-88 | a blank or null title is `Hr()`; the call raises exactly for a 49-character trimmed title; otherwise the separator line is logged at INFO level |
| Logger.Flush | Batter.Core/Utils/BatterLog.cs:118-130 | a flush pass appends the whole queue to the file in FIFO order and empties it, leaving the dedup state alone; once the writer is closed it changes nothing |
| Logger.Shutdown | Batter.Core/Utils/BatterLog.cs:137-166 | on an open writer the file gains the queue and then the pending summary, the logger is back to (null, 0, empty queue) and the writer is closed; on a closed writer the file is unchanged and the first owed line is dropped |
| Logger.ShutdownIdempotent | Batter.Core/Utils/BatterLog.cs:137-166 | a second shutdown writes nothing more, and after shutting down an open session it changes nothing at all |
| Logger.InvokeEnqueues | Batter.Core/Utils/BatterLog.cs:53-93 | each public call performs exactly one `EnqueueMessage` with its level and text, or none when `Hr(title)` raises |
| Logger.ApplyMerged | Batter.Core/Utils/BatterLog.cs:116-130 | flush passes move lines but never change the file and queue taken together; calls append to that as `EnqueueMessage` does |
| Logger.FileAccountsForEveryCall | Batter.Core/Utils/BatterLog.cs:137-160 | for any interleaving of calls and flush passes, the records in the file after shutdown read back as the session-start message followed by every logged message, in call order |
| Logger.ClosedFileFrozen | Batter.Core/Utils/BatterLog.cs:155-166 | once the writer is closed, no sequence of calls and flush passes, nor a further shutdown, adds a line to the file |
| Logger.LateCallsLost | Batter.Core/Utils/BatterLog.cs:137-166 | after any session and `Shutdown`, any number of further rounds of calls, flush passes and another `Shutdown` leave the file as the first shutdown left it |

## Findings

| source | as written | input that shows it | evidently intended | confidence | as-written member | corrected member |
|---|---|---|---|---|---|---|
| Batter.Core/Utils/BatterLog.cs:78-86 | `(50 - messageLength) / 2` truncates toward zero, so the padding for a 49-character trimmed title is 0, not negative. The fallback is skipped and `new string('=', -1)` throws ArgumentOutOfRangeException out of `Hr` | `Hr` with a title of 49 non-blank characters | fall back to `= title =` whenever the title and its spaces do not fit | not executed; follows from C# integer division semantics | Separator.TitledThrowsAt49 | Separator.TitledCorrectedTotal |
| Batter.Core/Utils/BatterLog.cs:100-106 | `_repeatCount` is an `int` incremented unchecked (line 100). After 2^31 − 1 suppressed duplicates it holds `int.MaxValue`; the counter is still right, but the printed `_repeatCount + 1` (line 105) wraps, so the summary reads `[Repeated -2147483648 times]` where the culture's minus sign is `-` (`Int32Dedup.WrapMisreportsCount`). One more duplicate wraps the counter itself to −2^31. From then on the `> 0` tests (lines 104, 139) fail, so neither the next message nor `Shutdown` emits a summary, and the suppressed calls vanish | 2^31 identical `Info` calls then a different call (wrong count); 2^31 + 1 identical calls, a different call, then `Shutdown` (no summary) | every run of duplicates is reported with its true size | not executed; follows from C# unchecked `int` arithmetic | Int32Dedup.WrapDropsSummary | Dedup.NothingLost |

`Dedup` uses the unbounded counter, and the rest of the model is built on it. `Logger.HrTitled`
keeps the as-written `Separator.Titled`, because that is the behaviour callers see.

## Left out

- Dedup.Enqueue: the repeat counter is unbounded. The code's 32-bit wrap-around is modelled
  separately in `Int32Dedup` and reported under Findings.
- The static constructor's path resolution, directory creation, file deletion and
  `StreamWriter` setup (lines 12-14, 25-45) are filesystem I/O. Initialisation failure
  (lines 48-50) is not modelled either; `Logger.Start` is the successful case.
- `FlushLoop`'s thread, the `AutoResetEvent`, the 100 ms wait, `Thread.Join(3000)` and
  `_running` (lines 18-22, 40-44, 116-135, 145-153) are concurrency and timing. A flush pass
  is modelled as one atomic drain of the whole queue, in FIFO order.
- A per-line `IOException` in the flush loop drops that line (lines 122-127). The model's
  writer never fails. The console fallbacks and swallowed exceptions (lines 48-50, 125-127,
  132-134, 151-153, 164-166) are output plumbing.
- `Writer.Flush` (lines 129, 159) manages buffering. The file is the sequence of records
  passed to `WriteLine`. `Close` and `Dispose` (lines 161-162) are the session's `closed` flag.
- `DateTime.Now` (lines 46, 110) is the clock. Both the session-start date and each line's
  timestamp are string parameters.
- A `null` message passed to `Info`, `Warning` or `Error` is interpolated as the empty string.
  The model takes `string`, so such a call is the call with `""`.
- Strings are sequences of Unicode scalar values, while C# `Length` counts UTF-16 code units.
  A title containing characters outside the Basic Multilingual Plane is one unit shorter per
  such character here than in the code, so its centring is not modelled.
- Logger.FileAccountsForEveryCall: the read-back is over the records passed to `WriteLine`,
  not over the lines of the text file. Line 97 puts the message into the record as it is,
  so a message containing `\r` or `\n` spans several lines of the file, and a later line
  can even look like a `[Repeated n times]` summary that no run of calls produced.
- Calls made after `Shutdown` still enqueue, as in the code, and never reach the file
  (`Logger.ClosedFileFrozen`). The model takes the flush thread to have ended by then. A
  thread still alive past the 3 s join would dequeue such a line and lose it to the
  closed writer (lines 132-134) instead of leaving it queued. That changes the queue, not
  the file.
