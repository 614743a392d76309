/** Numbers in decimal, and splitting a text at a separator its last part does not hold. */
module Text {
  predicate IsDigit(c: char) { '0' <= c <= '9' }

  function Digit(d: nat): (c: char)
    requires d < 10
    ensures IsDigit(c)
  {
    "0123456789"[d]
  }

  function DigitValue(c: char): nat {
    if IsDigit(c) then c as nat - '0' as nat else 0
  }

  function Dec(n: nat): (s: string)
    ensures s != "" && forall c <- s :: IsDigit(c)
  {
    if n < 10 then [Digit(n)] else Dec(n / 10) + [Digit(n % 10)]
  }

  function Undec(s: string): nat {
    if s == "" then 0 else 10 * Undec(s[..|s| - 1]) + DigitValue(s[|s| - 1])
  }

  lemma {:induction false} DecRoundTrip(n: nat)
    ensures Undec(Dec(n)) == n
  {
    if n >= 10 {
      DecRoundTrip(n / 10);
      assert (Dec(n / 10) + [Digit(n % 10)])[..|Dec(n)| - 1] == Dec(n / 10);
    }
  }

  lemma SplitAtLast(a: string, c: char, b: string, a': string, b': string)
    requires c !in b && c !in b' && a + [c] + b == a' + [c] + b'
    ensures a == a' && b == b'
  {
    var whole := a + [c] + b;
    assert whole[|a|] == c && forall i :: |a| < i < |whole| ==> whole[i] == b[i - |a| - 1];
    assert whole[|a'|] == c && forall i :: |a'| < i < |whole| ==> whole[i] == b'[i - |a'| - 1];
    assert |a| == |a'|;
    assert a == whole[..|a|] && b == whole[|a| + 1..];
    assert a' == whole[..|a'|] && b' == whole[|a'| + 1..];
  }

  /** A text, a separator that is no digit, and a number: both parts can be read back. */
  lemma NumberedIsInjective(a: string, c: char, n: nat, a': string, n': nat)
    requires !IsDigit(c) && a + [c] + Dec(n) == a' + [c] + Dec(n')
    ensures a == a' && n == n'
  {
    SplitAtLast(a, c, Dec(n), a', Dec(n'));
    DecRoundTrip(n);
    DecRoundTrip(n');
  }
}
