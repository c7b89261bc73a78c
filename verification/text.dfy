/**
 * The standard-library text conversions the authority protocol leans on:
 * `{}` formatting of an unsigned integer (the number in a request path),
 * `bool::to_string` (the body the service answers with) and
 * `str::parse::<bool>` (how the client reads that body back).
 */
module Text {
  import opened Wrappers

  predicate IsDigit(c: char) {
    '0' <= c <= '9'
  }

  predicate AllDigits(s: string) {
    forall i :: 0 <= i < |s| ==> IsDigit(s[i])
  }

  function DigitValue(c: char): (d: nat)
    requires IsDigit(c)
    ensures d < 10
  {
    c as int - '0' as int
  }

  function DigitChar(d: nat): (c: char)
    requires d < 10
    ensures IsDigit(c) && DigitValue(c) == d
  {
    ('0' as int + d) as char
  }

  /** Decimal rendering of a natural number: no sign, no leading zeros. */
  function Render(n: nat): (s: string)
    ensures |s| >= 1 && AllDigits(s)
    ensures s[0] == '0' <==> n == 0
    ensures n == 0 ==> s == "0"
  {
    if n < 10 then [DigitChar(n)] else Render(n / 10) + [DigitChar(n % 10)]
  }

  /** The number a string of digits denotes. */
  function DigitsValue(s: string): nat
    requires AllDigits(s)
  {
    if s == [] then 0 else DigitsValue(s[..|s| - 1]) * 10 + DigitValue(s[|s| - 1])
  }

  /** Reads a decimal number back: `None` unless the text is a non-empty run of digits. */
  function ParseDecimal(s: string): Option<nat> {
    if |s| >= 1 && AllDigits(s) then Some(DigitsValue(s)) else None
  }

  /** Reading back what was rendered gives the number that was rendered. */
  lemma {:induction false} ParseRender(n: nat)
    ensures ParseDecimal(Render(n)) == Some(n)
  {
    RenderValue(n);
  }

  lemma {:induction false} RenderValue(n: nat)
    ensures DigitsValue(Render(n)) == n
  {
    if n >= 10 {
      var prefix := Render(n / 10);
      var s := prefix + [DigitChar(n % 10)];
      assert s[..|s| - 1] == prefix;
      RenderValue(n / 10);
    }
  }

  /** Distinct numbers render as distinct texts. */
  lemma RenderInjective(a: nat, b: nat)
    ensures Render(a) == Render(b) ==> a == b
  {
    ParseRender(a);
    ParseRender(b);
  }

  /** `bool::to_string`: a text that parses back as the same boolean. */
  function BoolText(b: bool): (s: string)
    ensures ParseBool(s) == Ok(b)
  {
    if b then "true" else "false"
  }

  /** `str::parse::<bool>`: only the exact texts "true" and "false" are accepted. */
  function ParseBool(s: string): (r: Result<bool, ()>)
    ensures r.Ok? <==> s == "true" || s == "false"
    ensures r == Ok(true) <==> s == "true"
  {
    if s == "true" then Ok(true) else if s == "false" then Ok(false) else Err(())
  }

  /** Parsing inverts `to_string`, and every accepted text is the rendering of its value. */
  lemma ParseBoolText(b: bool, s: string)
    ensures ParseBool(BoolText(b)) == Ok(b)
    ensures ParseBool(s) == Ok(b) <==> s == BoolText(b)
  {
  }
}
