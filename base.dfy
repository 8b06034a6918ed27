/** Shared vocabulary of the model: the exceptions of the C# code as values,
    32-bit integers with LINQ's checked sum, and the decimal and hexadecimal
    renderings that the generated texts and messages use. */
module Base {

  /** A C# reference that may be null. */
  datatype Option<T> = None | Some(value: T)

  /** The value of a C# expression that either yields a value or throws an
      exception with the given message. Failure-compatible, so `:-` propagates
      the exception the way C# unwinds the stack. */
  datatype Result<T> = Ok(value: T) | Throw(message: string) {
    predicate IsFailure() { Throw? }

    function PropagateFailure<U>(): Result<U>
      requires Throw?
    {
      Throw(message)
    }

    function Extract(): T
      requires Ok?
    {
      value
    }
  }

  /** How a C# statement that returns nothing ended: normally or by an exception. */
  datatype Outcome = Normal | Exception(message: string)

  /** Messages of the .NET exceptions the core can raise. */
  const OverflowMessage: string := "Arithmetic operation resulted in an overflow."
  const ParseOverflowMessage: string := "Value was either too large or too small for an Int32."
  const NotSupportedMessage: string := "Specified method is not supported."
  const IndexMessage: string := "Index was outside the bounds of the array."

  // ---------------------------------------------------------------------------
  // C# `int`
  // ---------------------------------------------------------------------------

  const INT_MAX: int := 0x7fff_ffff
  const INT_MIN: int := -0x8000_0000

  predicate IsInt32(x: int) {
    INT_MIN <= x <= INT_MAX
  }

  type int32 = x: int | INT_MIN <= x <= INT_MAX

  /** Mathematical sum of a sequence, built from the left as LINQ adds. */
  function Sum(xs: seq<int>): int
  {
    if |xs| == 0 then 0 else Sum(xs[..|xs| - 1]) + xs[|xs| - 1]
  }

  lemma {:induction false} SumAppend(xs: seq<int>, ys: seq<int>)
    ensures Sum(xs + ys) == Sum(xs) + Sum(ys)
    decreases |ys|
  {
    if |ys| == 0 {
      assert xs + ys == xs;
    } else {
      var ys' := ys[..|ys| - 1];
      assert (xs + ys)[..|xs + ys| - 1] == xs + ys';
      SumAppend(xs, ys');
    }
  }

  lemma SumSingle(x: int)
    ensures Sum([x]) == x
  {
    assert [x][..0] == [];
  }

  /** Every element lies in [lo, hi], so the sum lies in [|xs|*lo, |xs|*hi]. */
  lemma {:induction false} SumBounds(xs: seq<int>, lo: int, hi: int)
    requires forall i :: 0 <= i < |xs| ==> lo <= xs[i] <= hi
    ensures |xs| * lo <= Sum(xs) <= |xs| * hi
    decreases |xs|
  {
    if |xs| > 0 {
      SumBounds(xs[..|xs| - 1], lo, hi);
    }
  }

  lemma {:induction false} SumNonNegative(xs: seq<int>)
    requires forall i :: 0 <= i < |xs| ==> 0 <= xs[i]
    ensures 0 <= Sum(xs)
    decreases |xs|
  {
    if |xs| > 0 {
      SumNonNegative(xs[..|xs| - 1]);
    }
  }

  /** Some running total of the sum leaves the range of `int`. */
  predicate SumOverflows(xs: seq<int>)
  {
    |xs| > 0 && (SumOverflows(xs[..|xs| - 1]) || !IsInt32(Sum(xs)))
  }

  /** `Enumerable.Sum` over `int`: additions are checked, so the first running
      total outside the range of `int` throws an OverflowException. */
  function CheckedSum(xs: seq<int>): (r: Result<int>)
    ensures r.Ok? ==> r.value == Sum(xs) && IsInt32(r.value)
    ensures r.Throw? ==> r.message == OverflowMessage
  {
    if SumOverflows(xs) then Throw(OverflowMessage) else Ok(Sum(xs))
  }

  /** The sum throws exactly when some running total leaves the range of `int`. */
  lemma {:induction false} SumOverflowsMeans(xs: seq<int>)
    ensures SumOverflows(xs) <==> exists k :: 1 <= k <= |xs| && !IsInt32(Sum(xs[..k]))
  {
    if |xs| > 0 {
      var p := xs[..|xs| - 1];
      SumOverflowsMeans(p);
      assert xs[..|xs|] == xs;
      assert forall k :: 1 <= k <= |p| ==> p[..k] == xs[..k];
    }
  }

  /** Non-negative values whose total fits in an `int` never overflow on the way. */
  lemma {:induction false} NoOverflowWhenBounded(xs: seq<int>)
    requires forall i :: 0 <= i < |xs| ==> 0 <= xs[i]
    requires Sum(xs) <= INT_MAX
    ensures CheckedSum(xs) == Ok(Sum(xs))
  {
    if |xs| > 0 {
      var p := xs[..|xs| - 1];
      SumNonNegative(xs);
      SumNonNegative(p);
      NoOverflowWhenBounded(p);
    }
  }

  // ---------------------------------------------------------------------------
  // Decimal digits: int.ToString() and int.Parse on digit strings
  // ---------------------------------------------------------------------------

  predicate IsDigitChar(c: char) {
    '0' <= c <= '9'
  }

  predicate AllDigits(s: string) {
    forall i :: 0 <= i < |s| ==> IsDigitChar(s[i])
  }

  function DigitChar(d: int): (c: char)
    requires 0 <= d < 10
    ensures IsDigitChar(c)
  {
    "0123456789"[d]
  }

  function DigitValue(c: char): (d: int)
    requires IsDigitChar(c)
    ensures 0 <= d < 10
  {
    c as int - '0' as int
  }

  lemma DigitRoundTrip(d: int)
    requires 0 <= d < 10
    ensures DigitValue(DigitChar(d)) == d
  {
  }

  /** `n.ToString()` for a non-negative `n`: its decimal digits, no leading zero. */
  function NatToString(n: nat): (s: string)
    ensures |s| > 0 && AllDigits(s)
    ensures |s| > 1 ==> s[0] != '0'
  {
    if n < 10 then [DigitChar(n)] else NatToString(n / 10) + [DigitChar(n % 10)]
  }

  /** `n.ToString()` for any `int`: a minus sign before the digits of |n|. */
  function IntToString(n: int): string
  {
    if n < 0 then "-" + NatToString(-n) else NatToString(n)
  }

  /** The value of a string of decimal digits read from the left. */
  function DigitsValue(s: string): (v: nat)
    requires AllDigits(s)
  {
    if |s| == 0 then 0 else DigitsValue(s[..|s| - 1]) * 10 + DigitValue(s[|s| - 1])
  }

  /** `int.Parse` applied to a string of digits (the scanner guarantees the
      digits): its value, or the OverflowException when it exceeds `int`. */
  function ParseInt(s: string): (r: Result<int32>)
    requires AllDigits(s)
    ensures r.Ok? <==> DigitsValue(s) <= INT_MAX
    ensures r.Ok? ==> r.value == DigitsValue(s)
  {
    var v := DigitsValue(s);
    if v <= INT_MAX then Ok(v) else Throw(ParseOverflowMessage)
  }

  /** Reading back the digits that `ToString` wrote gives the number again. */
  lemma {:induction false} NatToStringRoundTrip(n: nat)
    ensures DigitsValue(NatToString(n)) == n
  {
    if n >= 10 {
      var s := NatToString(n);
      NatToStringRoundTrip(n / 10);
      assert s[..|s| - 1] == NatToString(n / 10);
      DigitRoundTrip(n % 10);
    } else {
      DigitRoundTrip(n);
    }
  }

  // ---------------------------------------------------------------------------
  // Hexadecimal: the `X2` format specifier
  // ---------------------------------------------------------------------------

  function HexDigit(d: int): char
    requires 0 <= d < 16
  {
    "0123456789ABCDEF"[d]
  }

  function HexDigits(n: nat): (s: string)
    ensures |s| > 0
  {
    if n < 16 then [HexDigit(n)] else HexDigits(n / 16) + [HexDigit(n % 16)]
  }

  /** `n.ToString("X2")` for a non-negative `n`: upper-case hexadecimal,
      padded with zeros to at least two digits. */
  function HexX2(n: nat): (s: string)
    ensures |s| >= 2
  {
    var h := HexDigits(n);
    if |h| < 2 then "0" + h else h
  }

  // ---------------------------------------------------------------------------
  // Strings
  // ---------------------------------------------------------------------------

  /** `string.Join(sep, parts)`. */
  function Join(sep: string, parts: seq<string>): string
  {
    if |parts| == 0 then ""
    else if |parts| == 1 then parts[0]
    else Join(sep, parts[..|parts| - 1]) + sep + parts[|parts| - 1]
  }

  /** `s.StartsWith(p)` with ordinal comparison. */
  predicate StartsWith(s: string, p: string) {
    |p| <= |s| && s[..|p|] == p
  }

  /** `s.Replace(old, new)`: every non-overlapping occurrence of `pat`,
      scanned from the left, is replaced by `rep`. */
  function Replace(s: string, pat: string, rep: string): (r: string)
    requires |pat| > 0
    decreases |s|
  {
    if |s| == 0 then ""
    else if StartsWith(s, pat) then rep + Replace(s[|pat|..], pat, rep)
    else [s[0]] + Replace(s[1..], pat, rep)
  }
}
