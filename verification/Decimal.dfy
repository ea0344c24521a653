/** Decimal rendering of integers as `strconv.Itoa` does it, and the facts about
    digit strings on which the operator's artifact names rely. */
module Decimal {

  function Digit(d: nat): char
    requires d < 10
  {
    "0123456789"[d]
  }

  predicate IsDigit(c: char) {
    '0' <= c <= '9'
  }

  predicate AllDigits(s: string) {
    forall k :: 0 <= k < |s| ==> IsDigit(s[k])
  }

  function Digits(n: nat): (s: string)
    ensures |s| > 0 && AllDigits(s)
  {
    if n < 10 then [Digit(n)] else Digits(n / 10) + [Digit(n % 10)]
  }

  function Itoa(n: int): string {
    if n < 0 then "-" + Digits(-n) else Digits(n)
  }

  /** The number a digit string stands for. */
  function Value(s: string): int {
    if s == "" then 0 else Value(s[..|s| - 1]) * 10 + (s[|s| - 1] as int - '0' as int)
  }

  lemma {:induction false} DigitsRoundTrip(n: nat)
    ensures Value(Digits(n)) == n
  {
    if n >= 10 {
      DigitsRoundTrip(n / 10);
      assert Digits(n)[..|Digits(n)| - 1] == Digits(n / 10);
    } else {
      assert Value([Digit(n)]) == Value("") * 10 + n;
    }
  }

  lemma DigitsInjective(m: nat, n: nat)
    requires Digits(m) == Digits(n)
    ensures m == n
  {
    DigitsRoundTrip(m);
    DigitsRoundTrip(n);
  }

  lemma ItoaInjective(m: int, n: int)
    requires Itoa(m) == Itoa(n)
    ensures m == n
  {
    assert Digits(if m < 0 then -m else m)[0] != '-' && Digits(if n < 0 then -n else n)[0] != '-';
    if m < 0 {
      assert Itoa(m)[0] == '-';
      assert Itoa(m)[1..] == Digits(-m);
      assert Itoa(n)[1..] == Digits(-n);
      DigitsInjective(-m, -n);
    } else {
      assert Itoa(m)[0] != '-';
      DigitsInjective(m, n);
    }
  }

  /** A larger number never has fewer digits. */
  lemma {:induction false} DigitsMonotone(m: nat, n: nat)
    requires m <= n
    ensures |Digits(m)| <= |Digits(n)|
  {
    if m >= 10 {
      DigitsMonotone(m / 10, n / 10);
    }
  }

  /** The last character of a rendering is the number modulo ten. */
  lemma LastDigit(n: nat)
    ensures Digits(n)[|Digits(n)| - 1] == Digit(n % 10)
  {
  }

  lemma DigitDistinct(a: nat, b: nat)
    requires a < 10 && b < 10 && Digit(a) == Digit(b)
    ensures a == b
  {
  }

  /** Nothing after the separator of `a + [c] + b` is the separator again. */
  lemma LastSeparator(a: string, c: char, b: string)
    requires c !in b
    ensures var s := a + [c] + b;
            s[|a|] == c && forall k :: |a| < k < |s| ==> s[k] != c
  {
  }

  /** A string has one split at a character that its right part does not contain. */
  lemma SplitUnique(a: string, c: char, b: string, a': string, b': string)
    requires c !in b && c !in b'
    requires a + [c] + b == a' + [c] + b'
    ensures a == a' && b == b'
  {
    var s, t := a + [c] + b, a' + [c] + b';
    LastSeparator(a, c, b);
    LastSeparator(a', c, b');
    assert |a| == |a'|;
    assert a == s[..|a|] && a' == t[..|a|];
    assert b == s[|a| + 1..] && b' == t[|a| + 1..];
  }

  /** A string has one split at a character that its left part does not contain. */
  lemma FirstSplitUnique(a: string, c: char, b: string, a': string, b': string)
    requires c !in a && c !in a'
    requires a + [c] + b == a' + [c] + b'
    ensures a == a' && b == b'
  {
    var s, t := a + [c] + b, a' + [c] + b';
    assert s[|a|] == c && t[|a'|] == c;
    assert forall k :: 0 <= k < |a| ==> s[k] == a[k];
    assert forall k :: 0 <= k < |a'| ==> t[k] == a'[k];
    assert |a| == |a'|;
    assert a == s[..|a|] && a' == t[..|a|];
    assert b == s[|a| + 1..] && b' == t[|a| + 1..];
  }

  lemma SuffixUnique(a: string, a': string, e: string)
    requires a + e == a' + e
    ensures a == a'
  {
    assert |a| == |a'|;
    assert a == (a + e)[..|a|] && a' == (a' + e)[..|a|];
  }

  /** Index and version are written side by side without a separator.  Two such pairs can
      only collide when the smaller index carries the larger version. */
  lemma ConcatCollision(i: nat, p: nat, j: nat, v: nat)
    requires Digits(i) + Digits(p) == Digits(j) + Digits(v)
    requires j <= i && v <= p
    ensures i == j && p == v
  {
    DigitsMonotone(j, i);
    DigitsMonotone(v, p);
    var s, t := Digits(i) + Digits(p), Digits(j) + Digits(v);
    assert |Digits(i)| == |Digits(j)|;
    assert Digits(i) == s[..|Digits(i)|] && Digits(j) == t[..|Digits(j)|];
    assert Digits(p) == s[|Digits(i)|..] && Digits(v) == t[|Digits(j)|..];
    DigitsInjective(i, j);
    DigitsInjective(p, v);
  }

  /** Versions that differ modulo ten never produce the same concatenation. */
  lemma ConcatLastDigit(i: nat, p: nat, j: nat, v: nat)
    requires Digits(i) + Digits(p) == Digits(j) + Digits(v)
    ensures p % 10 == v % 10
  {
    LastDigit(p);
    LastDigit(v);
    var s, t := Digits(i) + Digits(p), Digits(j) + Digits(v);
    assert s[|s| - 1] == Digit(p % 10) && t[|t| - 1] == Digit(v % 10);
    DigitDistinct(p % 10, v % 10);
  }
}
