/** The one formatting call the core makes, `fmt.Sprintf("%s:%d", addr, port)`,
    written out, together with the inverse that shows the instance string keeps
    both the host and the port. */
module Fmt {
  import opened Base

  predicate IsDigit(c: char) {
    '0' <= c <= '9'
  }

  predicate AllDigits(s: string) {
    forall i :: 0 <= i < |s| ==> IsDigit(s[i])
  }

  function DigitChar(d: nat): (c: char)
    requires d < 10
    ensures IsDigit(c)
  {
    ('0' as int + d) as char
  }

  /** The decimal digits of `n`, most significant first, with no leading zero. */
  function Digits(n: nat): (s: string)
    ensures |s| > 0 && AllDigits(s)
  {
    if n < 10 then [DigitChar(n)] else Digits(n / 10) + [DigitChar(n % 10)]
  }

  /** The `%d` verb on a Go `int`: a minus sign for negative values, then the digits. */
  function DecimalString(n: int): (s: string)
    ensures |s| > 0 && ':' !in s
    ensures n >= 0 ==> AllDigits(s)
    ensures n < 0 ==> s[0] == '-' && AllDigits(s[1..])
  {
    if n < 0 then "-" + Digits(-n) else Digits(n)
  }

  /** `fmt.Sprintf("%s:%d", host, port)`. */
  function HostPort(host: string, port: int): (s: string)
  {
    host + ":" + DecimalString(port)
  }

  /** The value of a string of decimal digits. */
  function DigitsValue(s: string): nat
    requires AllDigits(s)
  {
    if s == [] then 0 else DigitsValue(s[..|s| - 1]) * 10 + (s[|s| - 1] as int - '0' as int)
  }

  /** Reads back what `DecimalString` writes; `None` for anything else. */
  function ParseDecimal(s: string): Option<int>
  {
    if |s| > 1 && s[0] == '-' && AllDigits(s[1..]) then Some(-(DigitsValue(s[1..]) as int))
    else if |s| > 0 && AllDigits(s) then Some(DigitsValue(s))
    else None
  }

  /** The position of the last ':' in `s`, if there is one. */
  function LastColon(s: string): (r: Option<nat>)
    ensures r.None? ==> ':' !in s
    ensures r.Some? ==> r.value < |s| && s[r.value] == ':' && ':' !in s[r.value + 1..]
  {
    if s == [] then None
    else if s[|s| - 1] == ':' then Some(|s| - 1)
    else
      var r := LastColon(s[..|s| - 1]);
      assert s == s[..|s| - 1] + [s[|s| - 1]];
      r
  }

  /** Splits an instance string at its last ':' into host and port. */
  function SplitHostPort(s: string): Option<(string, int)>
  {
    match LastColon(s)
    case None => None
    case Some(i) =>
      match ParseDecimal(s[i + 1..])
      case None => None
      case Some(port) => Some((s[..i], port))
  }

  lemma {:induction false} DigitsValueOfDigits(n: nat)
    ensures DigitsValue(Digits(n)) == n
  {
    if n >= 10 {
      var s := Digits(n);
      assert s[..|s| - 1] == Digits(n / 10);
      DigitsValueOfDigits(n / 10);
    }
  }

  /** `%d` loses nothing: the number is read back from its decimal string. */
  lemma DecimalStringRoundTrip(n: int)
    ensures ParseDecimal(DecimalString(n)) == Some(n)
  {
    if n < 0 {
      assert DecimalString(n)[1..] == Digits(-n);
      DigitsValueOfDigits(-n);
    } else {
      DigitsValueOfDigits(n);
    }
  }

  /** The instance string determines its host and port, whatever the host holds. */
  lemma HostPortRoundTrip(host: string, port: int)
    ensures SplitHostPort(HostPort(host, port)) == Some((host, port))
  {
    var s := HostPort(host, port);
    var d := DecimalString(port);
    assert s[|host|] == ':';
    assert s[|host| + 1..] == d;
    var r := LastColon(s);
    assert r.Some?;
    assert s[..|host|] == host;
    DecimalStringRoundTrip(port);
  }

  /** Two entries give the same instance string only if host and port both agree. */
  lemma HostPortInjective(host1: string, port1: int, host2: string, port2: int)
    requires HostPort(host1, port1) == HostPort(host2, port2)
    ensures host1 == host2 && port1 == port2
  {
    HostPortRoundTrip(host1, port1);
    HostPortRoundTrip(host2, port2);
  }
}
