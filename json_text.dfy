/** Text building blocks of the JSON the tool emits (RFC 8259): decimal
    rendering of integers as `std::ostream <<` prints them, and a small
    reader for exactly the token shapes the tool writes. The reader is not
    part of the tool; it is the inverse against which the renderers are
    proved (round trips). */
module JsonText {
  import opened Common

  predicate IsDigit(c: char)
  {
    '0' <= c <= '9'
  }

  predicate AllDigits(s: string)
  {
    forall i :: 0 <= i < |s| ==> IsDigit(s[i])
  }

  function DigitChar(d: int): (c: char)
    requires 0 <= d < 10
    ensures IsDigit(c) && c as int - '0' as int == d
  {
    ('0' as int + d) as char
  }

  /** Decimal digits of `n`, most significant first, without leading zeros. */
  function NatDigits(n: nat): (s: string)
    ensures |s| > 0 && AllDigits(s)
    ensures n >= 10 ==> s[0] != '0'
    decreases n
  {
    if n < 10 then [DigitChar(n)] else NatDigits(n / 10) + [DigitChar(n % 10)]
  }

  /** An integer as `operator<<` writes it: a minus sign for negative values. */
  function Decimal(n: int): (s: string)
    ensures |s| > 0
    ensures n >= 0 ==> AllDigits(s)
    ensures n < 0 ==> s[0] == '-' && AllDigits(s[1..])
  {
    if n < 0 then "-" + NatDigits(-n) else NatDigits(n)
  }

  /** The value of a run of decimal digits. */
  function DigitsValue(s: string): nat
    requires AllDigits(s)
  {
    if s == [] then 0
    else DigitsValue(s[..|s| - 1]) * 10 + (s[|s| - 1] as int - '0' as int)
  }

  /** Length of the leading run of digits of `s`. */
  function DigitRun(s: string): (k: nat)
    ensures k <= |s| && AllDigits(s[..k])
    ensures k < |s| ==> !IsDigit(s[k])
  {
    if |s| == 0 || !IsDigit(s[0]) then 0
    else
      var k := 1 + DigitRun(s[1..]);
      assert s[..k] == [s[0]] + s[1..][..k - 1];
      k
  }

  /** `s` with the literal `lit` removed from its front, if it starts so. */
  function Lit(lit: string, s: string): (r: Option<string>)
    ensures r.Some? ==> |r.value| == |s| - |lit| && lit + r.value == s
  {
    if |lit| <= |s| && s[..|lit|] == lit then
      assert lit + s[|lit|..] == s;
      Some(s[|lit|..])
    else None
  }

  /** A non-empty maximal run of digits, read as a natural number. */
  function ParseNat(s: string): (r: Option<(nat, string)>)
    ensures r.Some? ==> |r.value.1| < |s|
  {
    var k := DigitRun(s);
    if k == 0 then None else Some((DigitsValue(s[..k]), s[k..]))
  }

  /** An optional minus sign followed by a natural number. */
  function ParseInt(s: string): (r: Option<(int, string)>)
    ensures r.Some? ==> |r.value.1| < |s|
  {
    if |s| > 0 && s[0] == '-' then
      match ParseNat(s[1..])
      case None => None
      case Some((v, rest)) => Some((-(v as int), rest))
    else
      match ParseNat(s)
      case None => None
      case Some((v, rest)) => Some((v, rest))
  }

  /** A character that may stand unescaped inside a JSON string
      (section 7 of RFC 8259): not a quotation mark, not a reverse solidus,
      not a control character. */
  predicate SafeChar(c: char)
  {
    c != '"' && c != '\\' && c >= ' '
  }

  /** A text that is a valid JSON string body as it stands, without escaping. */
  predicate JsonSafe(s: string)
  {
    forall i :: 0 <= i < |s| ==> SafeChar(s[i])
  }

  /** The body of a JSON string up to its closing quotation mark, accepting
      only unescaped characters. */
  function StringBody(s: string): (r: Option<(string, string)>)
    ensures r.Some? ==> |r.value.1| < |s|
  {
    if |s| == 0 then None
    else if s[0] == '"' then Some(("", s[1..]))
    else if !SafeChar(s[0]) then None
    else
      match StringBody(s[1..])
      case None => None
      case Some((body, rest)) => Some(([s[0]] + body, rest))
  }

  /** A JSON string without escapes: a quotation mark, the body, a quotation mark. */
  function ParseString(s: string): (r: Option<(string, string)>)
    ensures r.Some? ==> |r.value.1| < |s|
  {
    match Lit("\"", s)
    case None => None
    case Some(s1) => StringBody(s1)
  }

  /** The text `rest` may follow a number without extending it. */
  predicate Delimits(rest: string)
  {
    rest == [] || !IsDigit(rest[0])
  }

  lemma {:induction false} DigitsValueOfNatDigits(n: nat)
    ensures DigitsValue(NatDigits(n)) == n
    decreases n
  {
    if n >= 10 {
      var d := NatDigits(n / 10);
      var s := d + [DigitChar(n % 10)];
      assert s[..|s| - 1] == d;
      DigitsValueOfNatDigits(n / 10);
    }
  }

  lemma {:induction false} DigitRunOfDigits(d: string, rest: string)
    requires AllDigits(d) && Delimits(rest)
    ensures DigitRun(d + rest) == |d|
    decreases |d|
  {
    if d == [] {
      assert d + rest == rest;
    } else {
      assert (d + rest)[1..] == d[1..] + rest;
      DigitRunOfDigits(d[1..], rest);
    }
  }

  lemma NatRoundTrip(n: nat, rest: string)
    requires Delimits(rest)
    ensures ParseNat(NatDigits(n) + rest) == Some((n, rest))
  {
    var d := NatDigits(n);
    DigitRunOfDigits(d, rest);
    assert (d + rest)[..|d|] == d;
    assert (d + rest)[|d|..] == rest;
    DigitsValueOfNatDigits(n);
  }

  lemma DropSign(d: string, rest: string)
    ensures ("-" + d + rest)[1..] == d + rest
    ensures ("-" + d + rest)[0] == '-'
  {
  }

  /** Every integer the tool prints reads back as itself. */
  lemma DecimalRoundTrip(n: int, rest: string)
    requires Delimits(rest)
    ensures ParseInt(Decimal(n) + rest) == Some((n, rest))
  {
    if n < 0 {
      var d := NatDigits(-n);
      assert Decimal(n) == "-" + d;
      NatRoundTrip(-n, rest);
      DropSign(d, rest);
    } else {
      NatRoundTrip(n, rest);
      assert Decimal(n) == NatDigits(n);
      var d := NatDigits(n);
      assert (d + rest)[0] == d[0];
    }
  }

  lemma DecimalNatRoundTrip(n: nat, rest: string)
    requires Delimits(rest)
    ensures ParseNat(Decimal(n) + rest) == Some((n, rest))
  {
    NatRoundTrip(n, rest);
  }

  lemma {:induction false} StringBodyRoundTrip(body: string, rest: string)
    requires JsonSafe(body)
    ensures StringBody(body + "\"" + rest) == Some((body, rest))
    decreases |body|
  {
    if body == [] {
      assert body + "\"" + rest == "\"" + rest;
    } else {
      assert (body + "\"" + rest)[1..] == body[1..] + "\"" + rest;
      StringBodyRoundTrip(body[1..], rest);
      assert [body[0]] + body[1..] == body;
    }
  }

  /** A path written between quotation marks reads back when it is JSON-safe. */
  lemma StringRoundTrip(body: string, rest: string)
    requires JsonSafe(body)
    ensures ParseString("\"" + body + "\"" + rest) == Some((body, rest))
  {
    var s := "\"" + body + "\"" + rest;
    assert s[..1] == "\"";
    assert s[1..] == body + "\"" + rest;
    StringBodyRoundTrip(body, rest);
  }

  lemma LitRoundTrip(lit: string, rest: string)
    ensures Lit(lit, lit + rest) == Some(rest)
  {
    assert (lit + rest)[..|lit|] == lit;
    assert (lit + rest)[|lit|..] == rest;
  }
}
