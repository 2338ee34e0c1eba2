/** `format_time`: seconds rendered as `m:ss`, with Python's decimal rendering of integers
    and its zero padding written out, and a parser that reads the rendering back. */
module TimeFormat {
  import opened Track

  predicate IsDigit(c: char) {
    '0' <= c <= '9'
  }

  predicate IsDigits(s: string) {
    forall i :: 0 <= i < |s| ==> IsDigit(s[i])
  }

  function DigitChar(d: nat): (c: char)
    requires d < 10
    ensures IsDigit(c) && c as int - '0' as int == d
  {
    (d + '0' as int) as char
  }

  /** The number a string of decimal digits denotes. */
  function DecimalValue(s: string): nat
    requires IsDigits(s)
  {
    if s == [] then 0 else DecimalValue(s[..|s| - 1]) * 10 + (s[|s| - 1] as int - '0' as int)
  }

  /** Python's `str(n)` for a non-negative integer: shortest decimal digits, no leading zero. */
  function NatToDecimal(n: nat): (s: string)
    ensures |s| >= 1 && IsDigits(s) && DecimalValue(s) == n
    ensures |s| == 1 <==> n < 10
    ensures s[0] == '0' ==> n == 0
    decreases n
  {
    if n < 10 then [DigitChar(n)]
    else
      var p := NatToDecimal(n / 10);
      var s := p + [DigitChar(n % 10)];
      assert s[..|s| - 1] == p;
      s
  }

  /** Python's `str(i)` for any integer. */
  function IntToDecimal(i: int): (s: string)
    ensures ParseInt(s) == Some(i)
    ensures i >= 0 ==> s == NatToDecimal(i)
    ensures i < 0 ==> s == "-" + NatToDecimal(-i)
  {
    if i < 0 then
      var d := NatToDecimal(-i);
      assert ("-" + d)[1..] == d;
      "-" + d
    else NatToDecimal(i)
  }

  /** Reads back what `IntToDecimal` writes: digits, optionally after a minus sign. */
  function ParseInt(s: string): Option<int> {
    if |s| >= 2 && s[0] == '-' && IsDigits(s[1..]) then Some(-(DecimalValue(s[1..]) as int))
    else if |s| >= 1 && IsDigits(s) then Some(DecimalValue(s))
    else None
  }

  /** Python's `{n:02d}` for `0 <= n < 100`. */
  function ZeroPad2(n: nat): (s: string)
    requires n < 100
    ensures |s| == 2 && IsDigits(s) && DecimalValue(s) == n
  {
    var d := NatToDecimal(n);
    if |d| < 2 then
      var s := "0" + d;
      assert s[..1] == "0";
      s
    else d
  }

  /** `format_time`. Python's `//` and `%` floor; with the positive divisor 60 they agree
      with Dafny's Euclidean operators, negative arguments included. */
  function FormatTime(seconds: int): (r: string)
    ensures |r| >= 4 && r[|r| - 3] == ':'
    ensures IsDigits(r[|r| - 2..]) && DecimalValue(r[|r| - 2..]) < 60
    ensures r[..|r| - 3] == IntToDecimal(seconds / 60)
    ensures ParseInt(r[..|r| - 3]) == Some(seconds / 60)
    ensures DecimalValue(r[|r| - 2..]) == seconds % 60
    ensures seconds >= 0 ==> IsDigits(r[..|r| - 3])
  {
    var minutes := seconds / 60;
    var secs := seconds % 60;
    var m := IntToDecimal(minutes);
    var r := m + ":" + ZeroPad2(secs);
    assert r[..|r| - 3] == m && r[|r| - 2..] == ZeroPad2(secs);
    r
  }

  /** Reads `m:ss` back into a number of seconds; `ss` must be two digits below 60. */
  function ParseTime(t: string): Option<int> {
    if |t| < 4 || t[|t| - 3] != ':' || !IsDigits(t[|t| - 2..]) then None
    else
      var secs := DecimalValue(t[|t| - 2..]);
      match ParseInt(t[..|t| - 3])
      case None => None
      case Some(minutes) => if secs < 60 then Some(minutes * 60 + secs) else None
  }

  /** The rendering loses nothing: minutes and seconds together give back the argument. */
  lemma FormatTimeRoundTrip(seconds: int)
    ensures ParseTime(FormatTime(seconds)) == Some(seconds)
  {
  }

  /** Example: 200 seconds render as `3:20`, 5 seconds as `0:05`. */
  lemma FormatTimeExamples()
    ensures FormatTime(200) == "3:20"
    ensures FormatTime(5) == "0:05"
  {
    assert NatToDecimal(3) == "3";
    assert NatToDecimal(20) == NatToDecimal(2) + "0";
    assert NatToDecimal(0) == "0";
    assert NatToDecimal(5) == "5";
  }
}
