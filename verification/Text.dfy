/** White space as the source's string functions see it. */
module Text {
  /** Unicode White_Space. */
  predicate IsWhitespace(c: char) {
    var v := c as int;
    0x09 <= v <= 0x0d || v == 0x20 || v == 0x85 || v == 0xa0 || v == 0x1680 || 0x2000 <= v <= 0x200a
    || v == 0x2028 || v == 0x2029 || v == 0x202f || v == 0x205f || v == 0x3000
  }

  function TrimEnd(s: string): (t: string)
    ensures t <= s
    ensures t != [] ==> !IsWhitespace(t[|t| - 1])
  {
    if s != [] && IsWhitespace(s[|s| - 1]) then TrimEnd(s[..|s| - 1]) else s
  }

  /** Nothing is left after trimming. */
  predicate IsBlank(s: string) {
    TrimEnd(s) == []
  }

  /** A number in decimal digits. */
  function Decimal(n: nat): string {
    if n < 10 then ["0123456789"[n]] else Decimal(n / 10) + ["0123456789"[n % 10]]
  }

  lemma DigitsDiffer(a: nat, b: nat)
    requires a < 10 && b < 10 && "0123456789"[a] == "0123456789"[b]
    ensures a == b
  {
  }

  lemma {:induction false} DecimalEnds(n: nat)
    ensures |Decimal(n)| >= 1 && Decimal(n)[|Decimal(n)| - 1] == "0123456789"[n % 10]
    ensures n >= 10 <==> |Decimal(n)| > 1
    ensures n >= 10 ==> Decimal(n)[..|Decimal(n)| - 1] == Decimal(n / 10)
  {
    if n >= 10 {
      DecimalEnds(n / 10);
    }
  }

  /** Different numbers are written differently. */
  lemma {:induction false} DecimalsDiffer(a: nat, b: nat)
    requires a != b
    ensures Decimal(a) != Decimal(b)
  {
    if Decimal(a) == Decimal(b) {
      DecimalEnds(a);
      DecimalEnds(b);
      DigitsDiffer(a % 10, b % 10);
      if a >= 10 {
        DecimalsDiffer(a / 10, b / 10);
      }
    }
  }
}
