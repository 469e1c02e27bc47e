/**
 * stack_trace.go: rebuilding the ordered stack of a stacked error and
 * formatting it as text.
 */
module StackTrace {
  import opened Types

  /**
   * `createStackTrace`: starts from the receiver's own entry and prepends the
   * entry of every stacked error found further down, so the innermost
   * (earliest) call site comes first.
   */
  method CreateStackTrace(err: Err) returns (stack: seq<StackEntry>)
    requires err.Stacked?
    ensures stack == Stack(err)
  {
    stack := [err.entry];
    var underlying := err.underlying;
    var stacked := AsStacked(underlying);
    AsStackedIsHead(underlying);
    while stacked.Some?
      invariant stacked == AsStacked(underlying) && (stacked.Some? ==> stacked.value == underlying)
      invariant Stack(err) == Stack(underlying) + stack
      decreases Rank(underlying)
    {
      stack := [stacked.value.entry] + stack;
      underlying := stacked.value.underlying;
      stacked := AsStacked(underlying);
      AsStackedIsHead(underlying);
    }
  }

  // ---------------------------------------------------------------------------
  // Decimal rendering of `%d`.

  function DigitChar(d: nat): (c: char)
    requires d < 10
    ensures '0' <= c <= '9'
  {
    ('0' as int + d) as char
  }

  predicate IsDigit(c: char)
  {
    '0' <= c <= '9'
  }

  /** The decimal digits of a natural number, most significant first, without leading zeros. */
  function NatDigits(n: nat): (s: string)
    ensures |s| >= 1 && forall i :: 0 <= i < |s| ==> IsDigit(s[i])
    ensures s[0] == '0' ==> n == 0
    decreases n
  {
    if n < 10 then [DigitChar(n)] else NatDigits(n / 10) + [DigitChar(n % 10)]
  }

  /** `fmt.Sprintf("%d", n)`: a minus sign before the digits of a negative number. */
  function Decimal(n: int): string
  {
    if n < 0 then "-" + NatDigits(-n) else NatDigits(n)
  }

  /** The value of a string of decimal digits. */
  function DigitsValue(s: string): (v: int)
    requires forall i :: 0 <= i < |s| ==> IsDigit(s[i])
    ensures v >= 0
  {
    if s == [] then 0
    else
      assert IsDigit(s[|s| - 1]);
      DigitsValue(s[..|s| - 1]) * 10 + (s[|s| - 1] as int - '0' as int)
  }

  /** Reading back a `%d` rendering. */
  function DecimalValue(s: string): int
    requires |s| >= 1 && (s[0] == '-' || IsDigit(s[0]))
    requires forall i :: 1 <= i < |s| ==> IsDigit(s[i])
  {
    if s[0] == '-' then 0 - DigitsValue(s[1..]) else DigitsValue(s)
  }

  lemma {:induction false} NatDigitsValue(n: nat)
    ensures DigitsValue(NatDigits(n)) == n
    decreases n
  {
    if n >= 10 {
      NatDigitsValue(n / 10);
      var s := NatDigits(n);
      assert s[..|s| - 1] == NatDigits(n / 10);
    }
  }

  /** `%d` loses nothing: the rendering reads back as the same number. */
  lemma DecimalRoundTrip(n: int)
    ensures |Decimal(n)| >= 1 && (Decimal(n)[0] == '-' || IsDigit(Decimal(n)[0]))
    ensures forall i :: 1 <= i < |Decimal(n)| ==> IsDigit(Decimal(n)[i])
    ensures DecimalValue(Decimal(n)) == n
  {
    if n < 0 {
      NatDigitsValue(-n);
      assert Decimal(n)[1..] == NatDigits(-n);
    } else {
      NatDigitsValue(n);
    }
  }

  // ---------------------------------------------------------------------------
  // Formatting.

  /**
   * `formatStackEntry`: `File:Line`. The file name comes first, then a colon,
   * then text that reads back as the line number.
   */
  function FormatStackEntry(entry: StackEntry): (r: string)
    ensures |r| > |entry.file| + 1 && r[..|entry.file|] == entry.file && r[|entry.file|] == ':'
    ensures var d := r[|entry.file| + 1..];
      (d[0] == '-' || IsDigit(d[0])) && (forall i :: 1 <= i < |d| ==> IsDigit(d[i])) && DecimalValue(d) == entry.line
  {
    var r := entry.file + ":" + Decimal(entry.line);
    assert r[|entry.file| + 1..] == Decimal(entry.line);
    DecimalRoundTrip(entry.line);
    r
  }

  /** The formatted entries in order, with no separator between them. */
  function FormatTrace(trace: seq<StackEntry>): string
  {
    if trace == [] then "" else FormatTrace(trace[..|trace| - 1]) + FormatStackEntry(trace[|trace| - 1])
  }

  /** `formatStackTrace`: writes each entry into a builder in turn. */
  method FormatStackTrace(trace: seq<StackEntry>) returns (r: string)
    ensures r == FormatTrace(trace)
  {
    var builder := "";
    for i := 0 to |trace|
      invariant builder == FormatTrace(trace[..i])
    {
      assert trace[..i + 1][..i] == trace[..i];
      builder := builder + FormatStackEntry(trace[i]);
    }
    assert trace[..|trace|] == trace;
    r := builder;
  }

  /** Formatting distributes over concatenation of traces. */
  lemma {:induction false} FormatTraceAppend(a: seq<StackEntry>, b: seq<StackEntry>)
    ensures FormatTrace(a + b) == FormatTrace(a) + FormatTrace(b)
    decreases |b|
  {
    if b == [] {
      assert a + b == a;
    } else {
      var n := |b|;
      var last := b[n - 1];
      assert (a + b)[..|a + b| - 1] == a + b[..n - 1] && (a + b)[|a + b| - 1] == last;
      calc {
        FormatTrace(a + b);
        FormatTrace(a + b[..n - 1]) + FormatStackEntry(last);
        { FormatTraceAppend(a, b[..n - 1]); }
        FormatTrace(a) + FormatTrace(b[..n - 1]) + FormatStackEntry(last);
        FormatTrace(a) + FormatTrace(b);
      }
    }
  }

  /** The formatted trace of an error masked once per entry lists those entries, the first call site first. */
  lemma MaskedTrace(e: Err, entries: seq<StackEntry>)
    requires !e.Stacked?
    ensures FormatTrace(Stack(MaskAll(e, entries))) == FormatTrace(entries)
  {
    MaskedStack(e, entries);
    assert Stack(e) + entries == entries;
  }

  /** One Mask followed by ten more gives eleven entries. */
  lemma ElevenMasks(e: Err, entries: seq<StackEntry>)
    requires !e.Stacked? && |entries| == 11
    ensures |Stack(MaskAll(e, entries))| == 11
  {
    MaskedStack(e, entries);
  }
}
