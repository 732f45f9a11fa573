/** The public surface of `BatterLog` (Batter.Core/Utils/BatterLog.cs): the
    level methods, the separator helpers, the background flush and
    `Shutdown`, over one immutable session value. The writer is modelled by
    the records passed to its `WriteLine`; thread scheduling by the order of
    events, each public call or flush pass being one atomic step. */
module Logger {
  import opened Wrappers
  import opened DotNet
  import opened Seqs
  import Separator
  import Dedup

  /** The deduplication state with its queue, the records passed to the log
      file's `WriteLine` so far, and whether `Shutdown` has closed the writer
      (after which the flush thread has also ended). */
  datatype Session = Session(dedup: Dedup.State, file: seq<string>, closed: bool)

  function Banner(now: string): string {
    "=== Mod session started: " + now + " ==="
  }

  /** The static constructor once the fresh file is open: nothing written
      yet, and the session-start line queued. */
  function Start(now: string, ts: string): (s: Session)
    ensures s.file == [] && !s.closed
    ensures s.dedup == Dedup.State(Some("[INFO] " + Banner(now)), 0, [Dedup.StampedLine(ts, "[INFO] " + Banner(now))])
  {
    Info(Session(Dedup.Initial, [], false), Banner(now), ts)
  }

  function Info(s: Session, message: string, ts: string): (s': Session)
    ensures s'.file == s.file
    ensures s'.dedup.lastMessage == Some("[INFO] " + message)
  {
    assert Dedup.Format(Dedup.Info, message) == "[INFO] " + message;
    s.(dedup := Dedup.Enqueue(s.dedup, Dedup.Info, message, ts))
  }

  function Warning(s: Session, message: string, ts: string): (s': Session)
    ensures s'.file == s.file
    ensures s'.dedup.lastMessage == Some("[WARNING] " + message)
  {
    assert Dedup.Format(Dedup.Warning, message) == "[WARNING] " + message;
    s.(dedup := Dedup.Enqueue(s.dedup, Dedup.Warning, message, ts))
  }

  /** `Warn` is another name for `Warning`. */
  function Warn(s: Session, message: string, ts: string): (s': Session)
    ensures s' == Warning(s, message, ts)
  {
    Warning(s, message, ts)
  }

  function Error(s: Session, message: string, ts: string): (s': Session)
    ensures s'.file == s.file
    ensures s'.dedup.lastMessage == Some("[ERROR] " + message)
  {
    assert Dedup.Format(Dedup.Error, message) == "[ERROR] " + message;
    s.(dedup := Dedup.Enqueue(s.dedup, Dedup.Error, message, ts))
  }

  /** `Hr()`: logs fifty `=` at INFO level. */
  function Hr(s: Session, ts: string): (s': Session)
    ensures s'.file == s.file
    ensures s'.dedup.lastMessage == Some("[INFO] " + Replicate('=', 50))
  {
    Info(s, Separator.Plain(), ts)
  }

  /** `Hr(title)`: a blank or null title is `Hr()`; a 49-character trimmed
      title raises before anything is logged; otherwise the separator line
      is logged at INFO level. */
  function HrTitled(s: Session, title: Option<string>, ts: string): (r: Result<Session, Exception>)
    ensures IsNullOrWhiteSpace(title) ==> r == Success(Hr(s, ts))
    ensures r.Failure? <==> !IsNullOrWhiteSpace(title) && |Trim(title.value)| == Separator.TotalWidth - 1
    ensures r.Success? ==> r.value.dedup.lastMessage == Some("[INFO] " + Separator.Titled(title).value)
  {
    match Separator.Titled(title)
    case Failure(e) => Failure(e)
    case Success(line) => Success(Info(s, line, ts))
  }

  /** One pass of the flush loop: every queued line is written, in queue
      order, and the queue is left empty. Once the writer is closed the loop
      has ended and nothing moves. */
  function Flush(s: Session): (s': Session)
    ensures !s.closed ==> s'.file == s.file + s.dedup.queue && s'.dedup == s.dedup.(queue := [])
    ensures s.closed ==> s' == s
    ensures s'.closed == s.closed
  {
    if s.closed then s else s.(dedup := s.dedup.(queue := []), file := s.file + s.dedup.queue)
  }

  /** `Shutdown()`: the pending summary is queued, the deduplication state
      reset, and the final drain writes whatever is still queued before the
      writer is closed. On a writer that is already closed the drain takes
      the first queued line, fails to write it, and gives up: that line is
      lost and the rest stay queued. */
  function Shutdown(s: Session): (s': Session)
    ensures s'.closed
    ensures s'.dedup.lastMessage.None? && s'.dedup.repeatCount == 0
    ensures !s.closed ==> s'.dedup.queue == [] && s'.file == s.file + s.dedup.queue + Dedup.PendingSummary(s.dedup)
    ensures s.closed ==> s'.file == s.file
    ensures s.closed ==>
      var owed := s.dedup.queue + Dedup.PendingSummary(s.dedup);
      s'.dedup.queue == if owed == [] then [] else owed[1..]
  {
    var d := Dedup.Shutdown(s.dedup);
    if s.closed then
      s.(dedup := d.(queue := if d.queue == [] then [] else d.queue[1..]))
    else
      Flush(s.(dedup := d)).(closed := true)
  }

  /** A second shutdown writes nothing more, and after a shutdown of an
      open session it changes nothing at all. */
  lemma ShutdownIdempotent(s: Session)
    ensures Shutdown(Shutdown(s)).file == Shutdown(s).file
    ensures !s.closed ==> Shutdown(Shutdown(s)) == Shutdown(s)
  {
  }

  /* ---------- Whole sessions ---------- */

  datatype Call =
    | InfoCall(message: string)
    | WarningCall(message: string)
    | WarnCall(message: string)
    | ErrorCall(message: string)
    | HrCall
    | HrTitledCall(title: Option<string>)

  /** A public call made at time `ts`, or a pass of the flush loop. */
  datatype Event = Invoke(call: Call, ts: string) | FlushPass

  function Apply(s: Session, e: Event): Session {
    match e
    case FlushPass => Flush(s)
    case Invoke(call, ts) =>
      match call
      case InfoCall(m) => Info(s, m, ts)
      case WarningCall(m) => Warning(s, m, ts)
      case WarnCall(m) => Warn(s, m, ts)
      case ErrorCall(m) => Error(s, m, ts)
      case HrCall => Hr(s, ts)
      case HrTitledCall(title) =>
        match HrTitled(s, title, ts)
        case Success(s') => s'
        case Failure(_) => s
  }

  function Replay(s: Session, events: seq<Event>): Session {
    if |events| == 0 then s else Apply(Replay(s, events[..|events| - 1]), events[|events| - 1])
  }

  /** The `EnqueueMessage` call an event makes, if any. */
  function RequestOf(e: Event): Option<Dedup.Request> {
    match e
    case FlushPass => None
    case Invoke(call, ts) =>
      match call
      case InfoCall(m) => Some(Dedup.Request(Dedup.Info, m, ts))
      case WarningCall(m) => Some(Dedup.Request(Dedup.Warning, m, ts))
      case WarnCall(m) => Some(Dedup.Request(Dedup.Warning, m, ts))
      case ErrorCall(m) => Some(Dedup.Request(Dedup.Error, m, ts))
      case HrCall => Some(Dedup.Request(Dedup.Info, Separator.Plain(), ts))
      case HrTitledCall(title) =>
        match Separator.Titled(title)
        case Success(line) => Some(Dedup.Request(Dedup.Info, line, ts))
        case Failure(_) => None
  }

  function Requests(events: seq<Event>): seq<Dedup.Request> {
    if |events| == 0 then
      []
    else
      var r := RequestOf(events[|events| - 1]);
      Requests(events[..|events| - 1]) + (if r.Some? then [r.value] else [])
  }

  predicate WellStamped(events: seq<Event>) {
    forall i :: 0 <= i < |events| && events[i].Invoke? ==> Dedup.IsTimestamp(events[i].ts)
  }

  /** Written and queued lines together, seen as one deduplication state. */
  function Merged(s: Session): Dedup.State {
    s.dedup.(queue := s.file + s.dedup.queue)
  }

  lemma EnqueueBehindWritten(st: Dedup.State, written: seq<string>, level: Dedup.Level, message: string, ts: string)
    ensures Dedup.Enqueue(st.(queue := written + st.queue), level, message, ts)
         == var s' := Dedup.Enqueue(st, level, message, ts); s'.(queue := written + s'.queue)
  {
    var f := Dedup.Format(level, message);
    if st.lastMessage != Some(f) && st.repeatCount > 0 && st.lastMessage.Some? {
      var tail := [Dedup.SummaryLine(st.repeatCount + 1, st.lastMessage.value), Dedup.StampedLine(ts, f)];
      assert (written + st.queue) + tail == written + (st.queue + tail);
    } else if st.lastMessage != Some(f) {
      assert (written + st.queue) + [Dedup.StampedLine(ts, f)] == written + (st.queue + [Dedup.StampedLine(ts, f)]);
    }
  }

  /** A public call enqueues exactly the request `RequestOf` names, and
      nothing at all when it raises. */
  lemma InvokeEnqueues(s: Session, call: Call, ts: string)
    ensures var r := RequestOf(Invoke(call, ts));
      Apply(s, Invoke(call, ts)) ==
        if r.Some? then s.(dedup := Dedup.Enqueue(s.dedup, r.value.level, r.value.message, r.value.ts)) else s
  {
  }

  /** Flushing moves lines from the queue to the file and nothing else; a
      call enqueues exactly what module Dedup says it does. */
  lemma ApplyMerged(s: Session, e: Event)
    ensures Merged(Apply(s, e)) ==
      var r := RequestOf(e);
      if r.Some? then Dedup.Enqueue(Merged(s), r.value.level, r.value.message, r.value.ts) else Merged(s)
  {
    match e
    case FlushPass =>
      assert s.file + s.dedup.queue + [] == s.file + s.dedup.queue;
    case Invoke(call, ts) =>
      InvokeEnqueues(s, call, ts);
      var r := RequestOf(e);
      if r.Some? {
        EnqueueBehindWritten(s.dedup, s.file, r.value.level, r.value.message, r.value.ts);
      }
  }

  lemma {:induction false} RequestsStamped(events: seq<Event>)
    requires WellStamped(events)
    ensures Dedup.WellStamped(Requests(events))
  {
    if |events| > 0 {
      var prefix := events[..|events| - 1];
      assert WellStamped(prefix) by {
        forall i | 0 <= i < |prefix| && prefix[i].Invoke?
          ensures Dedup.IsTimestamp(prefix[i].ts)
        {
          assert prefix[i] == events[i];
        }
      }
      RequestsStamped(prefix);
    }
  }

  lemma {:induction false} ReplayMerged(now: string, ts: string, events: seq<Event>)
    ensures Merged(Replay(Start(now, ts), events)) == Dedup.Run([Dedup.Request(Dedup.Info, Banner(now), ts)] + Requests(events))
  {
    var first := Dedup.Request(Dedup.Info, Banner(now), ts);
    if |events| == 0 {
      assert [first] + [] == [first];
      assert [first][..0] == [];
    } else {
      var prefix := events[..|events| - 1];
      var e := events[|events| - 1];
      ReplayMerged(now, ts, prefix);
      ApplyMerged(Replay(Start(now, ts), prefix), e);
      var r := RequestOf(e);
      assert Requests(events) == Requests(prefix) + (if r.Some? then [r.value] else []);
      if r.Some? {
        Dedup.RunSnoc([first] + Requests(prefix), r.value);
        assert [first] + Requests(events) == ([first] + Requests(prefix)) + [r.value];
      } else {
        assert Requests(events) == Requests(prefix);
      }
    }
  }

  /** After any session and `Shutdown`, the log file accounts for the
      session-start line and every message that reached the logger, each
      once and in call order: reading the summaries back as the copies they
      stand for gives exactly the formatted calls. */
  lemma {:induction false} FileAccountsForEveryCall(now: string, ts: string, events: seq<Event>)
    requires Dedup.IsTimestamp(ts)
    requires WellStamped(events)
    ensures Dedup.Expand(Shutdown(Replay(Start(now, ts), events)).file) ==
      ["[INFO] " + Banner(now)] + Dedup.Formatted(Requests(events))
  {
    var first := Dedup.Request(Dedup.Info, Banner(now), ts);
    var reqs := [first] + Requests(events);
    var s := Replay(Start(now, ts), events);
    ReplayMerged(now, ts, events);
    ReplayKeepsClosed(Start(now, ts), events);
    StampedWithBanner(first, events);
    Dedup.NothingLost(reqs);
    ShutdownMerged(s);
    FormattedCons(first, Requests(events));
  }

  /** Shutting down an open session writes what shutting down the merged
      deduplication state would leave queued. */
  lemma ShutdownMerged(s: Session)
    requires !s.closed
    ensures Shutdown(s).file == Dedup.Shutdown(Merged(s)).queue
  {
  }

  lemma StampedWithBanner(first: Dedup.Request, events: seq<Event>)
    requires Dedup.IsTimestamp(first.ts) && WellStamped(events)
    ensures Dedup.WellStamped([first] + Requests(events))
  {
    var reqs := [first] + Requests(events);
    RequestsStamped(events);
    forall i | 0 <= i < |reqs|
      ensures Dedup.IsTimestamp(reqs[i].ts)
    {
      if i > 0 {
        assert reqs[i] == Requests(events)[i - 1];
      }
    }
  }

  lemma {:induction false} FormattedCons(first: Dedup.Request, reqs: seq<Dedup.Request>)
    ensures Dedup.Formatted([first] + reqs) == [Dedup.Format(first.level, first.message)] + Dedup.Formatted(reqs)
  {
    if |reqs| == 0 {
      assert [first] + reqs == [first];
      assert [first][..0] == [];
    } else {
      var all := [first] + reqs;
      assert all[..|all| - 1] == [first] + reqs[..|reqs| - 1];
      FormattedCons(first, reqs[..|reqs| - 1]);
    }
  }

  /** Calls and flush passes neither open nor close the writer. */
  lemma {:induction false} ReplayKeepsClosed(s: Session, events: seq<Event>)
    ensures Replay(s, events).closed == s.closed
  {
    if |events| > 0 {
      ReplayKeepsClosed(s, events[..|events| - 1]);
      ApplyKeepsClosed(Replay(s, events[..|events| - 1]), events[|events| - 1]);
    }
  }

  lemma ApplyKeepsClosed(s: Session, e: Event)
    ensures Apply(s, e).closed == s.closed
  {
  }

  /** Once the writer is closed, no call, flush pass or further shutdown
      adds a line to the file. */
  lemma {:induction false} ClosedFileFrozen(s: Session, events: seq<Event>)
    requires s.closed
    ensures Replay(s, events).closed && Replay(s, events).file == s.file
    ensures Shutdown(Replay(s, events)).file == s.file
  {
    if |events| > 0 {
      ClosedFileFrozen(s, events[..|events| - 1]);
    }
  }

  /** Rounds of later activity, each a run of calls and flush passes
      followed by another `Shutdown`. */
  function ShutdownRounds(s: Session, later: seq<seq<Event>>): Session {
    if |later| == 0 then s else Shutdown(Replay(ShutdownRounds(s, later[..|later| - 1]), later[|later| - 1]))
  }

  lemma {:induction false} RoundsFrozen(s: Session, later: seq<seq<Event>>)
    requires s.closed
    ensures ShutdownRounds(s, later).closed && ShutdownRounds(s, later).file == s.file
  {
    if |later| > 0 {
      RoundsFrozen(s, later[..|later| - 1]);
      ClosedFileFrozen(ShutdownRounds(s, later[..|later| - 1]), later[|later| - 1]);
    }
  }

  /** Calls made after `Shutdown` never reach the file, however often they
      alternate with further shutdowns. */
  lemma LateCallsLost(now: string, ts: string, events: seq<Event>, later: seq<seq<Event>>)
    ensures var done := Shutdown(Replay(Start(now, ts), events));
      ShutdownRounds(done, later).file == done.file
  {
    RoundsFrozen(Shutdown(Replay(Start(now, ts), events)), later);
  }
}
