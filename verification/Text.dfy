/** Text the program builds names and digests from: decimal numbers and joined fields. */
module Text {
  predicate IsDigit(c: char) { '0' <= c <= '9' }

  predicate AllDigits(s: string) { s != "" && forall i :: 0 <= i < |s| ==> IsDigit(s[i]) }

  function Decimal(n: nat): (s: string)
    ensures AllDigits(s)
  {
    var last := [(n % 10 + '0' as int) as char];
    if n < 10 then last else Decimal(n / 10) + last
  }

  function Number(s: string): nat
    requires AllDigits(s)
  {
    var last := (s[|s| - 1] as int - '0' as int) as nat;
    if |s| == 1 then last else 10 * Number(s[..|s| - 1]) + last
  }

  lemma {:induction false} NumberOfDecimal(n: nat)
    ensures Number(Decimal(n)) == n
  {
    if n >= 10 {
      NumberOfDecimal(n / 10);
      assert Decimal(n)[..|Decimal(n)| - 1] == Decimal(n / 10);
    }
  }

  /** No separator in the text. */
  predicate Plain(s: string) { '|' !in s }

  /** A join is undone from the left as long as what comes first has no separator. */
  lemma PlainHead(a: string, b: string, x: string, y: string)
    requires Plain(a) && Plain(b) && a + "|" + x == b + "|" + y
    ensures a == b && x == y
  {
    HeadIsShorter(a, b, x, y);
    HeadIsShorter(b, a, y, x);
    var m := a + "|" + x;
    assert a == m[..|a|] == b;
    assert x == m[|a| + 1..] == y;
  }

  lemma HeadIsShorter(a: string, b: string, x: string, y: string)
    requires Plain(a) && a + "|" + x == b + "|" + y
    ensures |a| <= |b|
  {
    if |b| < |a| { HeadHasNoSeparator(a, x, |b|); }
  }

  lemma HeadHasNoSeparator(a: string, x: string, n: nat)
    requires Plain(a) && n < |a|
    ensures (a + "|" + x)[n] != '|'
  {
    assert (a + "|" + x)[n] == a[n];
  }
}
