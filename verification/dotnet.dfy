/** The few pieces of .NET semantics the logger's string building relies on:
    C#'s integer division, `char.IsWhiteSpace`, `string.IsNullOrWhiteSpace`,
    `string.Trim` and the `new string(char, int)` constructor. */
module DotNet {
  import opened Wrappers
  import opened Seqs

  /** Exceptions the runtime raises in the modelled code. */
  datatype Exception = ArgumentOutOfRange(paramName: string)

  function Abs(x: int): nat {
    if x < 0 then -x else x
  }

  /** C#'s `/` on `int`: the quotient is truncated toward zero, so the
      remainder is zero or has the sign of the dividend. */
  function TruncDiv(a: int, b: int): (q: int)
    requires b != 0
    ensures Abs(a - q * b) < Abs(b)
    ensures a - q * b == 0 || (a - q * b > 0 <==> a > 0)
  {
    if a >= 0 then
      if b > 0 then a / b else -(a / -b)
    else
      if b > 0 then -(-a / b) else -a / -b
  }

  /** The two properties above single out one quotient: `TruncDiv` is C#'s
      division and no other. */
  lemma {:induction false} TruncDivUnique(a: int, b: int, q: int)
    requires b != 0
    requires Abs(a - q * b) < Abs(b)
    requires a - q * b == 0 || (a - q * b > 0 <==> a > 0)
    ensures q == TruncDiv(a, b)
  {
    var p := TruncDiv(a, b);
    var r, s := a - q * b, a - p * b;
    assert Abs(r - s) < Abs(b) by {
      if a > 0 {
        assert 0 <= r < Abs(b) && 0 <= s < Abs(b);
      } else {
        assert 0 < r + Abs(b) && r <= 0 && 0 < s + Abs(b) && s <= 0;
      }
    }
    if p != q {
      QuotientGap(a, b, p, q);
    }
  }

  /** Remainders of two different quotients lie at least `|b|` apart. */
  lemma QuotientGap(a: int, b: int, p: int, q: int)
    requires b != 0 && p != q
    ensures Abs((a - q * b) - (a - p * b)) >= Abs(b)
  {
    assert (a - q * b) - (a - p * b) == (p - q) * b;
    MultipleAtLeastDivisor(p - q, b);
  }

  lemma MultipleAtLeastDivisor(k: int, b: int)
    requires k != 0
    ensures Abs(k * b) >= Abs(b)
  {
    var m: int, n: int := Abs(k), Abs(b);
    if k < 0 && b < 0 {
      assert k * b == m * n;
    } else if k < 0 {
      assert k * b == -(m * n);
    } else if b < 0 {
      assert k * b == -(m * n);
    }
    NatMulAtLeast(m, n);
  }

  lemma {:induction false} NatMulAtLeast(m: nat, n: nat)
    requires m >= 1
    ensures m * n >= n
  {
    if m > 1 {
      NatMulAtLeast(m - 1, n);
      assert m * n == (m - 1) * n + n;
    }
  }

  /** Truncation and Dafny's Euclidean division agree on non-negative
      dividends and part company on negative ones that leave a remainder. */
  lemma {:induction false} TruncDivVersusEuclidean(a: int, b: int)
    requires b > 0
    ensures a >= 0 ==> TruncDiv(a, b) == a / b
    ensures a < 0 && a % b != 0 ==> TruncDiv(a, b) == a / b + 1
  {
    if a < 0 && a % b != 0 {
      TruncDivUnique(a, b, a / b + 1);
    }
  }

  /** `char.IsWhiteSpace`: the Unicode space, line and paragraph separators
      plus the control characters U+0009 to U+000D and U+0085. */
  predicate IsWhiteSpace(c: char) {
    var x := c as int;
    || (0x09 <= x <= 0x0D) || x == 0x20 || x == 0x85 || x == 0xA0 || x == 0x1680
    || (0x2000 <= x <= 0x200A) || x == 0x2028 || x == 0x2029 || x == 0x202F
    || x == 0x205F || x == 0x3000
  }

  predicate AllWhiteSpace(s: string) {
    forall i :: 0 <= i < |s| ==> IsWhiteSpace(s[i])
  }

  /** `string.IsNullOrWhiteSpace`; `None` is a null reference. */
  predicate IsNullOrWhiteSpace(s: Option<string>) {
    s.None? || AllWhiteSpace(s.value)
  }

  /** `s` with its leading white space removed. */
  function TrimStart(s: string): (r: string)
    ensures |r| <= |s| && r == s[|s| - |r|..]
    ensures AllWhiteSpace(s[..|s| - |r|])
    ensures |r| > 0 ==> !IsWhiteSpace(r[0])
  {
    if |s| > 0 && IsWhiteSpace(s[0]) then
      var r := TrimStart(s[1..]);
      assert s[..|s| - |r|] == [s[0]] + s[1..][..|s[1..]| - |r|];
      r
    else
      s
  }

  /** `s` with its trailing white space removed. */
  function TrimEnd(s: string): (r: string)
    ensures |r| <= |s| && r == s[..|r|]
    ensures AllWhiteSpace(s[|r|..])
    ensures |r| > 0 ==> !IsWhiteSpace(r[|r| - 1])
  {
    if |s| > 0 && IsWhiteSpace(s[|s| - 1]) then
      var r := TrimEnd(s[..|s| - 1]);
      assert s[|r|..] == s[..|s| - 1][|r|..] + [s[|s| - 1]];
      r
    else
      s
  }

  /** `string.Trim()`: `s` with only its leading and trailing white space
      removed, so that what is left neither starts nor ends with white space;
      it is empty exactly when `s` is all white space. */
  function Trim(s: string): (r: string)
    ensures |r| <= |s|
    ensures exists k :: Infix(s, k, r) && Padded(s, k, r)
    ensures |r| > 0 ==> !IsWhiteSpace(r[0]) && !IsWhiteSpace(r[|r| - 1])
    ensures |r| == 0 <==> AllWhiteSpace(s)
  {
    var t := TrimStart(s);
    var r := TrimEnd(t);
    TrimSplit(s, t, r);
    r
  }

  /** `r` occurs in `s` at offset `k`. */
  predicate Infix(s: string, k: int, r: string) {
    0 <= k <= |s| - |r| && s[k..k + |r|] == r
  }

  /** Everything in `s` around the occurrence of `r` at `k` is white space. */
  predicate Padded(s: string, k: int, r: string)
    requires Infix(s, k, r)
  {
    AllWhiteSpace(s[..k]) && AllWhiteSpace(s[k + |r|..])
  }

  /** Dropping white space from the front of `s` (leaving `t`) and then from
      the back of `t` (leaving `r`) keeps an infix of `s` with only white
      space on either side, and that infix is empty exactly when `s` is all
      white space. */
  lemma TrimSplit(s: string, t: string, r: string)
    requires |t| <= |s| && t == s[|s| - |t|..] && AllWhiteSpace(s[..|s| - |t|])
    requires |r| <= |t| && r == t[..|r|] && AllWhiteSpace(t[|r|..])
    requires |r| > 0 ==> !IsWhiteSpace(r[|r| - 1])
    ensures Infix(s, |s| - |t|, r) && Padded(s, |s| - |t|, r)
    ensures |r| == 0 <==> AllWhiteSpace(s)
  {
    var k := |s| - |t|;
    assert s[k + |r|..] == t[|r|..];
    if |r| == 0 {
      assert s == s[..k] + t[|r|..];
    } else {
      assert s[k + |r| - 1] == r[|r| - 1];
    }
  }

  /** Trimming twice is trimming once. */
  lemma TrimIdempotent(s: string)
    ensures Trim(Trim(s)) == Trim(s)
  {
    var r := Trim(s);
    assert TrimStart(r) == r;
    assert TrimEnd(r) == r;
  }

  /** `new string(c, count)`: raises ArgumentOutOfRangeException for a
      negative count. */
  function NewString(c: char, count: int): (r: Result<string, Exception>)
    ensures r.Success? <==> count >= 0
    ensures r.Success? ==> r.value == Replicate(c, count)
  {
    if count < 0 then Failure(ArgumentOutOfRange("count")) else Success(Replicate(c, count))
  }
}
