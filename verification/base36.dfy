/** Base-36 numerals as JavaScript's `Number.prototype.toString(36)` writes them for
    non-negative integers: digits `0-9a-z`, most significant first, no leading zero. */
module Base36 {

  predicate IsDigit(ch: char) {
    '0' <= ch <= '9' || 'a' <= ch <= 'z'
  }

  predicate AllDigits(s: string) {
    forall i :: 0 <= i < |s| ==> IsDigit(s[i])
  }

  /** The character for digit value `d`. */
  function DigitChar(d: nat): (ch: char)
    requires d < 36
    ensures IsDigit(ch)
    ensures ch == '0' <==> d == 0
  {
    if d < 10 then ('0' as int + d) as char else ('a' as int + (d - 10)) as char
  }

  /** The value of a digit character; the inverse of `DigitChar`. */
  function DigitValue(ch: char): (d: nat)
    requires IsDigit(ch)
    ensures d < 36
    ensures DigitChar(d) == ch
    ensures d == 0 <==> ch == '0'
  {
    if ch <= '9' then (ch as int - '0' as int) else (ch as int - 'a' as int) + 10
  }

  function Pow36(k: nat): (p: nat)
    ensures p >= 1
  {
    if k == 0 then 1 else 36 * Pow36(k - 1)
  }

  /** `n.toString(36)` */
  function ToBase36(n: nat): (r: string)
    ensures |r| >= 1
    ensures AllDigits(r)
    ensures r[0] == '0' ==> n == 0
    decreases n
  {
    if n < 36 then [DigitChar(n)] else ToBase36(n / 36) + [DigitChar(n % 36)]
  }

  /** The value of a base-36 numeral (an independent reading, most significant digit first). */
  function FromBase36(s: string): (n: nat)
    requires AllDigits(s)
    ensures n < Pow36(|s|)
  {
    if s == [] then 0 else FromBase36(s[..|s| - 1]) * 36 + DigitValue(s[|s| - 1])
  }

  /** A numeral without a leading zero is canonical. */
  predicate Canonical(s: string) {
    |s| >= 1 && AllDigits(s) && (|s| > 1 ==> s[0] != '0')
  }

  /** Reading back what `ToBase36` wrote gives the number. */
  lemma {:induction false} FromToBase36(n: nat)
    ensures FromBase36(ToBase36(n)) == n
    decreases n
  {
    if n >= 36 {
      var r := ToBase36(n);
      assert r[..|r| - 1] == ToBase36(n / 36);
      FromToBase36(n / 36);
    }
  }

  /** `ToBase36` always writes canonical numerals. */
  lemma ToBase36Canonical(n: nat)
    ensures Canonical(ToBase36(n))
  {
  }

  /** A numeral with a non-zero leading digit denotes a positive number. */
  lemma {:induction false} LeadingDigitPositive(s: string)
    requires |s| >= 1 && AllDigits(s) && s[0] != '0'
    ensures FromBase36(s) > 0
    decreases |s|
  {
    if |s| > 1 {
      var p := s[..|s| - 1];
      assert p[0] == s[0];
      LeadingDigitPositive(p);
    }
  }

  /** Writing back a canonical numeral's value gives the numeral: the other round trip. */
  lemma {:induction false} ToFromBase36(s: string)
    requires Canonical(s)
    ensures ToBase36(FromBase36(s)) == s
    decreases |s|
  {
    var n := FromBase36(s);
    var last := DigitValue(s[|s| - 1]);
    if |s| == 1 {
      assert n == last;
    } else {
      var p := s[..|s| - 1];
      assert p[0] == s[0];
      assert AllDigits(p);
      LeadingDigitPositive(p);
      ToFromBase36(p);
      var m := FromBase36(p);
      assert n == m * 36 + last;
      assert n / 36 == m && n % 36 == last;
      assert s == p + [s[|s| - 1]];
    }
  }

  /** A numeral has more than `k` digits exactly when the number is at least `36^k`. */
  lemma {:induction false} LengthExceeds(n: nat, k: nat)
    requires k >= 1
    ensures |ToBase36(n)| > k <==> n >= Pow36(k)
    decreases n
  {
    if n >= 36 {
      if k == 1 {
        assert Pow36(1) == 36;
      } else {
        LengthExceeds(n / 36, k - 1);
        assert n >= Pow36(k) <==> n / 36 >= Pow36(k - 1);
      }
    } else {
      assert Pow36(k) >= 36 by { Pow36AtLeast36(k); }
    }
  }

  lemma Pow36AtLeast36(k: nat)
    requires k >= 1
    ensures Pow36(k) >= 36
  {
  }
}
