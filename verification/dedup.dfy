/** The duplicate-collapsing state machine of `EnqueueMessage` and the
    pending-summary flush at the top of `Shutdown`
    (Batter.Core/Utils/BatterLog.cs, lines 95-114 and 138-143). Each call is
    one atomic step: the lock the code takes around the step is what makes
    that so. The wall-clock timestamp is a parameter of the step. */
module Dedup {
  import opened Wrappers
  import opened Decimal
  import opened Seqs

  datatype Level = Info | Warning | Error

  /** The tag written between brackets in front of each message. */
  function Tag(level: Level): string {
    match level
    case Info => "INFO"
    case Warning => "WARNING"
    case Error => "ERROR"
  }

  /** `"[LEVEL] message"`, the text deduplication compares. */
  function Format(level: Level, message: string): string {
    "[" + Tag(level) + "] " + message
  }

  /** The line queued for an accepted message stamped `ts`. */
  function StampedLine(ts: string, formatted: string): string {
    "[" + ts + "] " + formatted
  }

  /** The synthetic line standing for `occurrences` consecutive copies. */
  function SummaryLine(occurrences: nat, formatted: string): string {
    "[Repeated " + NatToString(occurrences) + " times] " + formatted
  }

  /** The logger's deduplication state and its queue of unwritten lines.
      `repeatCount` is unbounded here; the 32-bit counter of the code is
      modelled in module Int32Dedup. */
  datatype State = State(lastMessage: Option<string>, repeatCount: nat, queue: seq<string>)

  const Initial: State := State(None, 0, [])

  /** A repeat count is only ever kept for a message. */
  predicate Inv(s: State) {
    s.repeatCount > 0 ==> s.lastMessage.Some?
  }

  /** The summary line a change of message (or shutdown) owes, if any. */
  function PendingSummary(s: State): seq<string> {
    if s.repeatCount > 0 && s.lastMessage.Some? then
      [SummaryLine(s.repeatCount + 1, s.lastMessage.value)]
    else
      []
  }

  /** One `EnqueueMessage(level, message)` call at time `ts`. */
  function Enqueue(s: State, level: Level, message: string, ts: string): (s': State)
    ensures Inv(s') && s'.lastMessage == Some(Format(level, message))
    ensures s.lastMessage == Some(Format(level, message)) ==>
      s' == s.(repeatCount := s.repeatCount + 1)
    ensures s.lastMessage != Some(Format(level, message)) && Inv(s) ==>
      && s'.repeatCount == 0
      && s'.queue == s.queue + PendingSummary(s) + [StampedLine(ts, Format(level, message))]
  {
    var formatted := Format(level, message);
    if s.lastMessage == Some(formatted) then
      s.(repeatCount := s.repeatCount + 1)
    else
      var owed := PendingSummary(s);
      State(Some(formatted), if owed == [] then s.repeatCount else 0, s.queue + owed + [StampedLine(ts, formatted)])
  }

  /** The locked part of `Shutdown()`: emit the pending summary and forget
      the last message. */
  function Shutdown(s: State): (s': State)
    ensures s'.lastMessage.None? && s'.repeatCount == 0 && Inv(s')
    ensures |s'.queue| == |s.queue| + (if s.repeatCount > 0 && s.lastMessage.Some? then 1 else 0)
    ensures s'.queue[..|s.queue|] == s.queue
    ensures s.repeatCount > 0 && s.lastMessage.Some? ==>
      s'.queue[|s.queue|] == SummaryLine(s.repeatCount + 1, s.lastMessage.value)
  {
    State(None, 0, s.queue + PendingSummary(s))
  }

  /* ---------- Reading the queue back ---------- */

  /** What a queued line says: one accepted call, or a run of copies. */
  datatype Entry = Stamped(ts: string, formatted: string) | Summary(occurrences: nat, formatted: string)

  function Render(e: Entry): string {
    match e
    case Stamped(ts, f) => StampedLine(ts, f)
    case Summary(n, f) => SummaryLine(n, f)
  }

  /** What every culture's rendering of `DateTime.Now:HH:mm:ss.fff` looks
      like: it starts with the hour's first digit and, as long as the
      culture's time separator has no `]`, contains no `]`. */
  predicate IsTimestamp(ts: string) {
    && |ts| > 0
    && IsDigit(ts[0])
    && forall i :: 0 <= i < |ts| ==> ts[i] != ']'
  }

  predicate WellFormed(e: Entry) {
    e.Stamped? ==> IsTimestamp(e.ts)
  }

  /** Length of the run of digits `s` starts with. */
  function DigitRun(s: string): (n: nat)
    ensures n <= |s| && AllDigits(s[..n])
    ensures n < |s| ==> !IsDigit(s[n])
  {
    if |s| > 0 && IsDigit(s[0]) then
      var n := 1 + DigitRun(s[1..]);
      assert s[..n] == [s[0]] + s[1..][..n - 1];
      n
    else
      0
  }

  /** Position of the first `]` in `s`, or `|s|` when there is none. */
  function CloseBracket(s: string): (n: nat)
    ensures n <= |s|
    ensures forall i :: 0 <= i < n ==> s[i] != ']'
    ensures n < |s| ==> s[n] == ']'
  {
    if |s| > 0 && s[0] != ']' then 1 + CloseBracket(s[1..]) else 0
  }

  /** Recovers the entry a queued line was rendered from. */
  function Decode(line: string): Option<Entry> {
    if |line| >= 2 && line[0] == '[' && IsDigit(line[1]) then
      var body := line[1..];
      var j := CloseBracket(body);
      if j + 2 <= |body| && body[j..j + 2] == "] " && IsTimestamp(body[..j]) then
        Some(Stamped(body[..j], body[j + 2..]))
      else
        None
    else if |line| >= 10 && line[..10] == "[Repeated " then
      var rest := line[10..];
      var n := DigitRun(rest);
      if 0 < n && n + 8 <= |rest| && rest[n..n + 8] == " times] " then
        Some(Summary(ParseDigits(rest[..n]), rest[n + 8..]))
      else
        None
    else
      None
  }

  lemma {:induction false} CloseBracketAfter(t: string, x: string)
    requires forall i :: 0 <= i < |t| ==> t[i] != ']'
    requires |x| > 0 && x[0] == ']'
    ensures CloseBracket(t + x) == |t|
    decreases |t|
  {
    if |t| > 0 {
      assert (t + x)[1..] == t[1..] + x;
      CloseBracketAfter(t[1..], x);
    }
  }

  lemma {:induction false} DigitRunOfDigits(d: string, x: string)
    requires AllDigits(d)
    requires |x| > 0 && !IsDigit(x[0])
    ensures DigitRun(d + x) == |d|
    decreases |d|
  {
    if |d| > 0 {
      assert (d + x)[1..] == d[1..] + x;
      DigitRunOfDigits(d[1..], x);
    }
  }

  /** Every well-formed line decodes to the entry it was rendered from. */
  lemma {:induction false} DecodeRender(e: Entry)
    requires WellFormed(e)
    ensures Decode(Render(e)) == Some(e)
  {
    var line := Render(e);
    match e
    case Stamped(ts, f) =>
      var body := line[1..];
      assert body == ts + ("] " + f);
      CloseBracketAfter(ts, "] " + f);
      assert body[..|ts|] == ts;
      assert body[|ts|..|ts| + 2] == "] ";
      assert body[|ts| + 2..] == f;
    case Summary(n, f) =>
      var d := NatToString(n);
      assert line[1] == 'R';
      assert line[..10] == "[Repeated ";
      var rest := line[10..];
      assert rest == d + (" times] " + f);
      DigitRunOfDigits(d, " times] " + f);
      assert rest[..|d|] == d;
      assert rest[|d|..|d| + 8] == " times] ";
      assert rest[|d| + 8..] == f;
      ParsePrinted(n);
  }

  /* ---------- Conservation ---------- */

  /** The formatted messages a queued line accounts for: one for a stamped
      line, and for a summary of n copies the n - 1 that were suppressed. */
  function Occurrences(line: string): seq<string> {
    match Decode(line)
    case Some(Stamped(_, f)) => [f]
    case Some(Summary(n, f)) => if n == 0 then [] else Replicate(f, n - 1)
    case None => []
  }

  /** The calls a queue accounts for, in queue order. */
  function Expand(lines: seq<string>): seq<string> {
    if |lines| == 0 then [] else Expand(lines[..|lines| - 1]) + Occurrences(lines[|lines| - 1])
  }

  /** The suppressed calls a state has yet to report. */
  function Pending(s: State): seq<string> {
    if s.lastMessage.Some? then Replicate(s.lastMessage.value, s.repeatCount) else []
  }

  lemma ExpandSnoc(lines: seq<string>, line: string)
    ensures Expand(lines + [line]) == Expand(lines) + Occurrences(line)
  {
    assert (lines + [line])[..|lines|] == lines;
  }

  /** One step accounts for exactly the call it handles. */
  lemma {:induction false} EnqueueAccounts(s: State, level: Level, message: string, ts: string)
    requires Inv(s) && IsTimestamp(ts)
    ensures var s' := Enqueue(s, level, message, ts);
      Expand(s'.queue) + Pending(s') == Expand(s.queue) + Pending(s) + [Format(level, message)]
  {
    var f := Format(level, message);
    var s' := Enqueue(s, level, message, ts);
    DecodeRender(Stamped(ts, f));
    if s.lastMessage == Some(f) {
      assert Replicate(f, s.repeatCount + 1) == Replicate(f, s.repeatCount) + [f];
    } else if s.repeatCount > 0 {
      var last := s.lastMessage.value;
      var summary := SummaryLine(s.repeatCount + 1, last);
      DecodeRender(Summary(s.repeatCount + 1, last));
      assert s'.queue == s.queue + [summary] + [StampedLine(ts, f)];
      ExpandSnoc(s.queue, summary);
      ExpandSnoc(s.queue + [summary], StampedLine(ts, f));
    } else {
      assert s'.queue == s.queue + [StampedLine(ts, f)];
      ExpandSnoc(s.queue, StampedLine(ts, f));
    }
  }

  /** Shutdown reports every suppressed call. */
  lemma {:induction false} ShutdownAccounts(s: State)
    requires Inv(s)
    ensures Expand(Shutdown(s).queue) == Expand(s.queue) + Pending(s)
  {
    if s.repeatCount > 0 {
      var last := s.lastMessage.value;
      DecodeRender(Summary(s.repeatCount + 1, last));
      assert Shutdown(s).queue == s.queue + [SummaryLine(s.repeatCount + 1, last)];
      ExpandSnoc(s.queue, SummaryLine(s.repeatCount + 1, last));
    } else {
      assert Shutdown(s).queue == s.queue;
      assert Pending(s) == [];
      assert Expand(s.queue) + [] == Expand(s.queue);
    }
  }

  /** One `Info`, `Warning` or `Error` call reaching `EnqueueMessage`. */
  datatype Request = Request(level: Level, message: string, ts: string)

  /** The state after a sequence of calls, from the initial state. */
  function Run(reqs: seq<Request>): State {
    if |reqs| == 0 then
      Initial
    else
      var r := reqs[|reqs| - 1];
      Enqueue(Run(reqs[..|reqs| - 1]), r.level, r.message, r.ts)
  }

  lemma RunSnoc(reqs: seq<Request>, r: Request)
    ensures Run(reqs + [r]) == Enqueue(Run(reqs), r.level, r.message, r.ts)
  {
    assert (reqs + [r])[..|reqs|] == reqs;
  }

  /** The formatted messages of the calls, in call order. */
  function Formatted(reqs: seq<Request>): seq<string> {
    if |reqs| == 0 then
      []
    else
      var r := reqs[|reqs| - 1];
      Formatted(reqs[..|reqs| - 1]) + [Format(r.level, r.message)]
  }

  predicate WellStamped(reqs: seq<Request>) {
    forall i :: 0 <= i < |reqs| ==> IsTimestamp(reqs[i].ts)
  }

  lemma {:induction false} RunAccounts(reqs: seq<Request>)
    requires WellStamped(reqs)
    ensures Inv(Run(reqs))
    ensures Expand(Run(reqs).queue) + Pending(Run(reqs)) == Formatted(reqs)
  {
    if |reqs| > 0 {
      var prefix := reqs[..|reqs| - 1];
      var r := reqs[|reqs| - 1];
      RunAccounts(prefix);
      EnqueueAccounts(Run(prefix), r.level, r.message, r.ts);
    }
  }

  /** No call is lost and none is invented: after any calls and a shutdown,
      reading the queue back yields every call's message in call order. */
  lemma {:induction false} NothingLost(reqs: seq<Request>)
    requires WellStamped(reqs)
    ensures Expand(Shutdown(Run(reqs)).queue) == Formatted(reqs)
  {
    RunAccounts(reqs);
    ShutdownAccounts(Run(reqs));
  }

  /** Lines that decode as stamped. */
  function StampedCount(lines: seq<string>): nat {
    if |lines| == 0 then
      0
    else
      var e := Decode(lines[|lines| - 1]);
      StampedCount(lines[..|lines| - 1]) + (if e.Some? && e.value.Stamped? then 1 else 0)
  }

  /** The sum of n - 1 over the summary lines `[Repeated n times]`. */
  function Suppressed(lines: seq<string>): nat {
    if |lines| == 0 then
      0
    else
      var e := Decode(lines[|lines| - 1]);
      Suppressed(lines[..|lines| - 1]) + (if e.Some? && e.value.Summary? && e.value.occurrences > 0 then e.value.occurrences - 1 else 0)
  }

  lemma {:induction false} ExpandLength(lines: seq<string>)
    ensures |Expand(lines)| == StampedCount(lines) + Suppressed(lines)
  {
    if |lines| > 0 {
      ExpandLength(lines[..|lines| - 1]);
    }
  }

  /** The counting form: stamped lines plus the suppressed copies the
      summaries report add up to the number of calls. */
  lemma {:induction false} CallsConserved(reqs: seq<Request>)
    requires WellStamped(reqs)
    ensures var q := Shutdown(Run(reqs)).queue;
      StampedCount(q) + Suppressed(q) == |reqs|
  {
    NothingLost(reqs);
    ExpandLength(Shutdown(Run(reqs)).queue);
    FormattedLength(reqs);
  }

  lemma {:induction false} FormattedLength(reqs: seq<Request>)
    ensures |Formatted(reqs)| == |reqs|
  {
    if |reqs| > 0 {
      FormattedLength(reqs[..|reqs| - 1]);
    }
  }

  /** Every call in `reqs` formats to `f`. */
  predicate AllFormatTo(reqs: seq<Request>, f: string) {
    forall i :: 0 <= i < |reqs| ==> Format(reqs[i].level, reqs[i].message) == f
  }

  /** N calls of one message, whenever they are made, queue the first call's
      stamped line and keep N - 1 as the count; shutdown then adds exactly
      one summary of N when N > 1. */
  lemma {:induction false} RunOfRepeats(reqs: seq<Request>, f: string)
    requires |reqs| > 0 && AllFormatTo(reqs, f)
    ensures Run(reqs) == State(Some(f), |reqs| - 1, [StampedLine(reqs[0].ts, f)])
    ensures Shutdown(Run(reqs)).queue ==
      [StampedLine(reqs[0].ts, f)] + (if |reqs| > 1 then [SummaryLine(|reqs|, f)] else [])
  {
    var prefix := reqs[..|reqs| - 1];
    if |reqs| == 1 {
      assert prefix == [];
      assert Format(reqs[0].level, reqs[0].message) == f;
    } else {
      assert AllFormatTo(prefix, f) by {
        forall i | 0 <= i < |prefix|
          ensures Format(prefix[i].level, prefix[i].message) == f
        {
          assert prefix[i] == reqs[i];
        }
      }
      RunOfRepeats(prefix, f);
      assert prefix[0] == reqs[0];
      assert Format(reqs[|reqs| - 1].level, reqs[|reqs| - 1].message) == f;
    }
    var s := Run(reqs);
    assert Shutdown(s).queue == s.queue + PendingSummary(s);
  }

  /** `info(a); info(a); info(b); info(a)` queues a, a summary of two a's,
      b and a again. */
  lemma {:induction false} InterleavedExample(t1: string, t2: string, t3: string, t4: string)
    ensures
      var a := Request(Info, "a", t1);
      var reqs := [a, a.(ts := t2), Request(Info, "b", t3), a.(ts := t4)];
      Run(reqs).queue ==
        [StampedLine(t1, "[INFO] a"), "[Repeated 2 times] [INFO] a", StampedLine(t3, "[INFO] b"), StampedLine(t4, "[INFO] a")]
  {
    var a := Request(Info, "a", t1);
    var reqs := [a, a.(ts := t2), Request(Info, "b", t3), a.(ts := t4)];
    var fa, fb := Format(Info, "a"), Format(Info, "b");
    assert fa == "[INFO] a" && fb == "[INFO] b";
    assert reqs[..3] == [a, a.(ts := t2), Request(Info, "b", t3)];
    assert reqs[..3][..2] == [a, a.(ts := t2)];
    assert reqs[..3][..2][..1] == [a];
    assert Run([a]) == State(Some(fa), 0, [StampedLine(t1, fa)]);
    assert Run(reqs[..2]) == State(Some(fa), 1, [StampedLine(t1, fa)]);
    assert NatToString(2) == "2";
    assert Run(reqs[..3]) == State(Some(fb), 0, [StampedLine(t1, fa), SummaryLine(2, fa), StampedLine(t3, fb)]);
    assert reqs[..|reqs| - 1] == reqs[..3];
    assert Run(reqs).queue == [StampedLine(t1, fa), SummaryLine(2, fa), StampedLine(t3, fb), StampedLine(t4, fa)];
    assert SummaryLine(2, fa) == "[Repeated " + NatToString(2) + " times] " + fa;
    assert "[Repeated " + "2" == "[Repeated 2";
    assert "[Repeated 2" + " times] " == "[Repeated 2 times] ";
    assert "[Repeated 2 times] " + "[INFO] a" == "[Repeated 2 times] [INFO] a";
  }
}
