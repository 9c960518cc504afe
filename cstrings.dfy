/** The two helpers that work on NUL-terminated character buffers: `terminate_string`
    and the option parsing done at load time (`parse_options`). */
module CStrings {
  import opened Opt

  /** Length of the NUL-terminated string held in `s` (`strlen`). */
  function CLength(s: seq<char>): (n: nat)
    requires '\0' in s
    ensures n < |s| && s[n] == '\0'
    ensures forall i :: 0 <= i < n ==> s[i] != '\0'
  {
    if s[0] == '\0' then 0 else 1 + CLength(s[1..])
  }

  /** The string a `char*` pointing at `s[from]` denotes. */
  function CString(s: seq<char>, from: nat): (r: seq<char>)
    requires from <= |s| && '\0' in s[from..]
  {
    s[from..from + CLength(s[from..])]
  }

  /** `terminate_string`: overwrite the last character of the string in `buf` with NUL and
      return the position of its second character, so that the returned string is the
      original with its first and last characters dropped (a class signature "Lx/Y;"
      becomes "x/Y"); a one-character string becomes empty. An empty string is not
      accepted: the write would precede the buffer. */
  method TerminateString(buf: array<char>) returns (start: nat)
    requires '\0' in buf[..] && CLength(buf[..]) >= 1
    modifies buf
    ensures start == 1 && start <= buf.Length && '\0' in buf[start..]
    ensures buf[..] == old(buf[..])[CLength(old(buf[..])) - 1 := '\0']
    ensures var n := CLength(old(buf[..]));
            CString(buf[..], start) == if n == 1 then [] else old(CString(buf[..], 0))[1..n - 1]
  {
    var n := CLength(buf[..]);
    buf[n - 1] := '\0';
    start := 1;
    if n == 1 {
      assert buf[start..][0] == '\0';
      CLengthAt(buf[start..], 0);
    } else {
      assert buf[start..][n - 2] == '\0';
      CLengthAt(buf[start..], n - 2);
    }
  }

  /** CLength finds the first NUL. */
  lemma {:induction false} CLengthAt(s: seq<char>, n: nat)
    requires n < |s| && s[n] == '\0'
    requires forall i :: 0 <= i < n ==> s[i] != '\0'
    ensures CLength(s) == n
  {
    if n > 0 {
      assert s[1..][n - 1] == '\0';
      CLengthAt(s[1..], n - 1);
    }
  }

  predicate IsDigit(c: char) {
    '0' <= c <= '9'
  }

  function DigitValue(c: char): (d: nat)
    requires IsDigit(c)
    ensures d < 10
  {
    (c - '0') as nat
  }

  function DigitChar(d: nat): (c: char)
    requires d < 10
    ensures IsDigit(c) && DigitValue(c) == d
  {
    (d as char) + '0'
  }

  /** Number of leading decimal digits of `s`. */
  function DigitRun(s: seq<char>): (k: nat)
    ensures k <= |s|
    ensures forall i :: 0 <= i < k ==> IsDigit(s[i])
    ensures k < |s| ==> !IsDigit(s[k])
  {
    if s == [] || !IsDigit(s[0]) then 0 else 1 + DigitRun(s[1..])
  }

  /** Value of a string of decimal digits, most significant first. */
  function DecimalValue(ds: seq<char>): (v: nat)
    requires forall i :: 0 <= i < |ds| ==> IsDigit(ds[i])
  {
    if ds == [] then 0 else 10 * DecimalValue(ds[..|ds| - 1]) + DigitValue(ds[|ds| - 1])
  }

  /** `atoi` on a string that starts with a digit: the value of its leading digits. The
      whitespace and sign handling of `atoi` is never reached in that case. */
  function LeadingNumber(s: seq<char>): (n: nat) {
    DecimalValue(s[..DigitRun(s)])
  }

  /** `parse_options`: the heap sampling interval to request, when the option string is
      present and starts with a digit; None leaves the interval as it is. */
  function ParseOptions(options: Option<string>): (interval: Option<int>)
    ensures interval.Some? <==> options.Some? && |options.value| > 0 && IsDigit(options.value[0])
    ensures interval.Some? ==> interval.value >= 0
  {
    if options.Some? && |options.value| > 0 && IsDigit(options.value[0])
    then Some(LeadingNumber(options.value) as int)
    else None
  }

  /** Decimal rendering of a natural number without leading zeros. */
  function Decimal(n: nat): (ds: seq<char>)
    ensures |ds| > 0 && forall i :: 0 <= i < |ds| ==> IsDigit(ds[i])
  {
    if n < 10 then [DigitChar(n)] else Decimal(n / 10) + [DigitChar(n % 10)]
  }

  lemma {:induction false} DecimalValueOfDecimal(n: nat)
    ensures DecimalValue(Decimal(n)) == n
  {
    if n >= 10 {
      var ds := Decimal(n);
      assert ds[..|ds| - 1] == Decimal(n / 10);
      DecimalValueOfDecimal(n / 10);
    }
  }

  lemma {:induction false} DigitRunOfDigits(ds: seq<char>, rest: seq<char>)
    requires forall i :: 0 <= i < |ds| ==> IsDigit(ds[i])
    requires rest == [] || !IsDigit(rest[0])
    ensures DigitRun(ds + rest) == |ds|
  {
    if ds != [] {
      assert (ds + rest)[1..] == ds[1..] + rest;
      DigitRunOfDigits(ds[1..], rest);
    }
  }

  /** Round trip: an option string made of a number followed by anything that does not
      start with a digit yields that number as the sampling interval. */
  lemma {:induction false} ParseOptionsDecimal(n: nat, rest: string)
    requires rest == [] || !IsDigit(rest[0])
    ensures ParseOptions(Some(Decimal(n) + rest)) == Some(n)
  {
    var s := Decimal(n) + rest;
    DigitRunOfDigits(Decimal(n), rest);
    assert s[..DigitRun(s)] == Decimal(n);
    DecimalValueOfDecimal(n);
  }
}
