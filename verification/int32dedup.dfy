/** The deduplication step with the code's actual counter: `_repeatCount`
    is a C# `int` (Batter.Core/Utils/BatterLog.cs, line 21), incremented and
    added to without overflow checking, so it wraps at 2^31. Below that
    bound it agrees with module Dedup; at the bound it misreports and then
    loses suppressed calls. */
module Int32Dedup {
  import opened Wrappers
  import opened Decimal
  import opened Seqs
  import Dedup

  const MinInt32: int := -0x8000_0000
  const MaxInt32: int := 0x7FFF_FFFF

  type Int32 = x: int | -0x8000_0000 <= x <= 0x7FFF_FFFF

  /** Unchecked 32-bit `x + 1`: two's-complement wrap-around. */
  function Increment(x: Int32): (y: Int32)
    ensures x < MaxInt32 ==> y == x + 1
    ensures x == MaxInt32 ==> y == MinInt32
  {
    (x + 1 - MinInt32) % 0x1_0000_0000 + MinInt32
  }

  /** `int.ToString()` in a culture whose negative sign is `-`. */
  function IntToString(i: int): string {
    if i < 0 then "-" + NatToString(-i) else NatToString(i)
  }

  datatype State32 = State32(lastMessage: Option<string>, repeatCount: Int32, queue: seq<string>)

  const Initial32: State32 := State32(None, 0, [])

  /** `EnqueueMessage` as written, 32-bit counter included. */
  function Enqueue32(s: State32, level: Dedup.Level, message: string, ts: string): (s': State32)
    ensures s'.lastMessage == Some(Dedup.Format(level, message))
    ensures s.lastMessage == Some(Dedup.Format(level, message)) ==>
      s'.queue == s.queue && s'.repeatCount == Increment(s.repeatCount)
    ensures s.lastMessage != Some(Dedup.Format(level, message)) && s.repeatCount <= 0 ==>
      s'.repeatCount == s.repeatCount && s'.queue == s.queue + [Dedup.StampedLine(ts, Dedup.Format(level, message))]
  {
    var formatted := Dedup.Format(level, message);
    if s.lastMessage == Some(formatted) then
      s.(repeatCount := Increment(s.repeatCount))
    else if s.repeatCount > 0 && s.lastMessage.Some? then
      var summary := "[Repeated " + IntToString(Increment(s.repeatCount)) + " times] " + s.lastMessage.value;
      State32(Some(formatted), 0, s.queue + [summary, Dedup.StampedLine(ts, formatted)])
    else
      State32(Some(formatted), s.repeatCount, s.queue + [Dedup.StampedLine(ts, formatted)])
  }

  /** The locked part of `Shutdown()` as written. */
  function Shutdown32(s: State32): (s': State32)
    ensures s'.lastMessage.None? && s'.repeatCount == 0
    ensures s.repeatCount <= 0 ==> s'.queue == s.queue
  {
    var queue := if s.repeatCount > 0 && s.lastMessage.Some? then
      s.queue + ["[Repeated " + IntToString(Increment(s.repeatCount)) + " times] " + s.lastMessage.value]
    else
      s.queue;
    State32(None, 0, queue)
  }

  function Run32(reqs: seq<Dedup.Request>): State32 {
    if |reqs| == 0 then
      Initial32
    else
      var r := reqs[|reqs| - 1];
      Enqueue32(Run32(reqs[..|reqs| - 1]), r.level, r.message, r.ts)
  }

  /** The unbounded state a 32-bit state stands for while its counter is
      non-negative. */
  function Abstract(s: State32): Dedup.State
    requires s.repeatCount >= 0
  {
    Dedup.State(s.lastMessage, s.repeatCount, s.queue)
  }

  /** Below the overflow bound the code and module Dedup take the same step. */
  lemma AgreesBelowBound(s: State32, level: Dedup.Level, message: string, ts: string)
    requires 0 <= s.repeatCount < MaxInt32
    ensures Enqueue32(s, level, message, ts).repeatCount >= 0
    ensures Abstract(Enqueue32(s, level, message, ts)) == Dedup.Enqueue(Abstract(s), level, message, ts)
    ensures Abstract(Shutdown32(s)) == Dedup.Shutdown(Abstract(s))
  {
  }

  /** k + 1 identical calls leave a count of k, for every k up to the bound. */
  lemma {:induction false} CopiesCount(r: Dedup.Request, k: nat)
    requires k <= MaxInt32
    ensures var f := Dedup.Format(r.level, r.message);
      Run32(Replicate(r, k + 1)) == State32(Some(f), k, [Dedup.StampedLine(r.ts, f)])
  {
    if k > 0 {
      assert Replicate(r, k + 1)[..k] == Replicate(r, k);
      CopiesCount(r, k - 1);
    }
  }

  /** 2^31 identical calls followed by a different one: the code reports the
      run as repeated a negative number of times. */
  lemma {:induction false} WrapMisreportsCount(x: Dedup.Request, y: Dedup.Request)
    requires Dedup.Format(x.level, x.message) != Dedup.Format(y.level, y.message)
    ensures var fx := Dedup.Format(x.level, x.message);
      Run32(Replicate(x, 0x8000_0000) + [y]).queue ==
        [Dedup.StampedLine(x.ts, fx), "[Repeated " + IntToString(MinInt32) + " times] " + fx,
         Dedup.StampedLine(y.ts, Dedup.Format(y.level, y.message))]
  {
    var fx := Dedup.Format(x.level, x.message);
    var copies := Replicate(x, 0x8000_0000);
    var reqs := copies + [y];
    assert reqs[..|reqs| - 1] == copies;
    CopiesCount(x, MaxInt32);
    var s0 := Run32(copies);
    assert s0 == State32(Some(fx), MaxInt32, [Dedup.StampedLine(x.ts, fx)]);
    assert Run32(reqs) == Enqueue32(s0, y.level, y.message, y.ts);
    var summary := "[Repeated " + IntToString(Increment(MaxInt32)) + " times] " + fx;
    assert Increment(MaxInt32) == MinInt32;
    assert IntToString(MinInt32) == "-" + NatToString(0x8000_0000);
    assert Run32(reqs).queue == [Dedup.StampedLine(x.ts, fx), summary, Dedup.StampedLine(y.ts, Dedup.Format(y.level, y.message))];
  }

  /** 2^31 + 1 identical calls, a different one and shutdown: the code
      writes two lines for 2^31 + 2 calls, because the wrapped counter is
      negative and neither the change of message nor shutdown emits the
      summary; the unbounded counter of module Dedup reports them all. */
  lemma {:induction false} WrapDropsSummary(x: Dedup.Request, y: Dedup.Request)
    requires Dedup.Format(x.level, x.message) != Dedup.Format(y.level, y.message)
    ensures var reqs := Replicate(x, 0x8000_0001) + [y];
      var fx, fy := Dedup.Format(x.level, x.message), Dedup.Format(y.level, y.message);
      && Shutdown32(Run32(reqs)).queue == [Dedup.StampedLine(x.ts, fx), Dedup.StampedLine(y.ts, fy)]
      && Dedup.Shutdown(Dedup.Run(reqs)).queue ==
           [Dedup.StampedLine(x.ts, fx), Dedup.SummaryLine(0x8000_0001, fx), Dedup.StampedLine(y.ts, fy)]
  {
    var reqs := Replicate(x, 0x8000_0001) + [y];
    var copies := Replicate(x, 0x8000_0001);
    assert reqs[..|reqs| - 1] == copies;
    assert copies[..|copies| - 1] == Replicate(x, 0x8000_0000);
    CopiesCount(x, MaxInt32);
    Dedup.RunOfRepeats(copies, Dedup.Format(x.level, x.message));
    Dedup.RunSnoc(copies, y);
  }
}
