/** Text helpers shared by the pipeline: Python's ordering of `str` values and decimal digits. */
module Strings {

  /** Python's `a <= b` on `str`: lexicographic by code point, a proper prefix sorts first. */
  predicate LessEq(a: string, b: string)
  {
    a == [] || (b != [] && (a[0] < b[0] || (a[0] == b[0] && LessEq(a[1..], b[1..]))))
  }

  /** Python's `a < b` on `str`. */
  predicate Less(a: string, b: string)
  {
    LessEq(a, b) && a != b
  }

  lemma {:induction false} LessEqReflexive(a: string)
    ensures LessEq(a, a)
  {
    if a != [] {
      LessEqReflexive(a[1..]);
    }
  }

  lemma {:induction false} LessEqTotal(a: string, b: string)
    ensures LessEq(a, b) || LessEq(b, a)
  {
    if a != [] && b != [] && a[0] == b[0] {
      LessEqTotal(a[1..], b[1..]);
    }
  }

  lemma {:induction false} LessEqAntisymmetric(a: string, b: string)
    requires LessEq(a, b) && LessEq(b, a)
    ensures a == b
  {
    if a != [] && b != [] {
      LessEqAntisymmetric(a[1..], b[1..]);
      assert a == [a[0]] + a[1..] && b == [b[0]] + b[1..];
    }
  }

  lemma {:induction false} LessEqTransitive(a: string, b: string, c: string)
    requires LessEq(a, b) && LessEq(b, c)
    ensures LessEq(a, c)
  {
    if a != [] && b != [] && c != [] && a[0] == b[0] && b[0] == c[0] {
      LessEqTransitive(a[1..], b[1..], c[1..]);
    }
  }

  /** `a < b` or `b < a` or they are equal: Python's `str` order is a strict total order. */
  lemma LessTrichotomy(a: string, b: string)
    ensures Less(a, b) || Less(b, a) || a == b
  {
    LessEqTotal(a, b);
  }

  lemma LessTransitive(a: string, b: string, c: string)
    requires Less(a, b) && LessEq(b, c)
    ensures Less(a, c)
  {
    LessEqTransitive(a, b, c);
    if a == c {
      LessEqAntisymmetric(a, b);
    }
  }

  // ---------------------------------------------------------------- decimal digits

  predicate IsDigit(c: char)
  {
    '0' <= c <= '9'
  }

  predicate AllDigits(s: string)
  {
    forall i :: 0 <= i < |s| ==> IsDigit(s[i])
  }

  function DigitValue(c: char): (v: nat)
    requires IsDigit(c)
    ensures v < 10
  {
    c as int - '0' as int
  }

  function DigitChar(v: nat): (c: char)
    requires v < 10
    ensures IsDigit(c) && DigitValue(c) == v
  {
    ('0' as int + v) as char
  }

  function Pow10(n: nat): (p: nat)
    ensures p >= 1
  {
    if n == 0 then 1 else 10 * Pow10(n - 1)
  }

  lemma {:induction false} Pow10Add(m: nat, n: nat)
    ensures Pow10(m + n) == Pow10(m) * Pow10(n)
  {
    if n > 0 {
      Pow10Add(m, n - 1);
      assert Pow10(m + n) == 10 * Pow10(m + n - 1);
    }
  }

  lemma DivMod(a: nat, unit: nat)
    requires unit >= 1
    ensures 0 <= a / unit && 0 <= a % unit < unit && a == (a / unit) * unit + a % unit
  {
  }

  /** The number a string of decimal digits spells, most significant digit first. */
  function DigitsValue(s: string): (v: nat)
    requires AllDigits(s)
    ensures v < Pow10(|s|)
  {
    if s == [] then 0 else 10 * DigitsValue(s[..|s| - 1]) + DigitValue(s[|s| - 1])
  }

  lemma {:induction false} DigitsValueAppend(a: string, b: string)
    requires AllDigits(a) && AllDigits(b)
    ensures AllDigits(a + b)
    ensures DigitsValue(a + b) == DigitsValue(a) * Pow10(|b|) + DigitsValue(b)
  {
    var ab := a + b;
    assert AllDigits(ab) by {
      forall i | 0 <= i < |ab| ensures IsDigit(ab[i]) {
        if i < |a| { assert ab[i] == a[i]; } else { assert ab[i] == b[i - |a|]; }
      }
    }
    if b == [] {
      assert ab == a;
    } else {
      var b' := b[..|b| - 1];
      assert ab[..|ab| - 1] == a + b';
      assert ab[|ab| - 1] == b[|b| - 1];
      DigitsValueAppend(a, b');
      var x, p, y, d := DigitsValue(a), Pow10(|b'|), DigitsValue(b'), DigitValue(b[|b| - 1]);
      assert DigitsValue(ab) == 10 * DigitsValue(a + b') + d;
      assert DigitsValue(b) == 10 * y + d;
      assert Pow10(|b|) == 10 * p;
      ShiftDigit(x, p, y, d);
    }
  }

  lemma ShiftDigit(x: int, p: int, y: int, d: int)
    ensures 10 * (x * p + y) + d == x * (10 * p) + (10 * y + d)
  {
  }

  // ---------------------------------------------------------------- searching

  /** Index of the first `c` in `s`, or |s| when there is none. */
  function IndexOf(s: string, c: char): (i: nat)
    ensures i <= |s|
    ensures forall j :: 0 <= j < i ==> s[j] != c
    ensures i < |s| ==> s[i] == c
  {
    if s == [] then 0 else if s[0] == c then 0 else 1 + IndexOf(s[1..], c)
  }

  lemma {:induction false} IndexOfIs(s: string, c: char, k: nat)
    requires k <= |s|
    requires forall j :: 0 <= j < k ==> s[j] != c
    requires k < |s| ==> s[k] == c
    ensures IndexOf(s, c) == k
  {
    if k > 0 {
      assert s[0] != c;
      IndexOfIs(s[1..], c, k - 1);
    }
  }

  /** Where `a` already holds `c`, appending leaves the first `c` where it was. */
  lemma IndexOfPrefix(a: string, b: string, c: char)
    requires IndexOf(a, c) < |a|
    ensures IndexOf(a + b, c) == IndexOf(a, c)
  {
    var s := a + b;
    assert forall j :: 0 <= j <= IndexOf(a, c) ==> s[j] == a[j];
    IndexOfIs(s, c, IndexOf(a, c));
  }

  /** Two texts split at their first `c` agree on both sides of it when they are equal. */
  lemma SplitAtFirst(a: string, b: string, a2: string, b2: string, c: char)
    requires IndexOf(a + [c], c) == |a| && IndexOf(a2 + [c], c) == |a2|
    requires a + [c] + b == a2 + [c] + b2
    ensures a == a2 && b == b2
  {
    var s, s2 := a + [c] + b, a2 + [c] + b2;
    IndexOfPrefix(a + [c], b, c);
    IndexOfPrefix(a2 + [c], b2, c);
    assert s[..|a|] == a && s2[..|a2|] == a2;
    assert s[|a| + 1..] == b && s2[|a2| + 1..] == b2;
  }

  lemma NoIndexInDigits(s: string, c: char)
    requires AllDigits(s) && !IsDigit(c)
    ensures IndexOf(s, c) == |s|
  {
    IndexOfIs(s, c, |s|);
  }

  /** In digits followed by a non-digit `rest[0]`, that character is first found right after them. */
  lemma IndexAfterDigits(whole: string, rest: string)
    requires AllDigits(whole) && rest != [] && !IsDigit(rest[0])
    ensures IndexOf(whole + rest, rest[0]) == |whole|
  {
    var s := whole + rest;
    assert forall j :: 0 <= j < |whole| ==> s[j] == whole[j];
    IndexOfIs(s, rest[0], |whole|);
  }

  /** Python's `str(n)` for a non-negative int: no leading zeros, "0" for zero. */
  function NatToString(n: nat): (s: string)
    ensures AllDigits(s) && |s| >= 1
    ensures |s| > 1 ==> s[0] != '0'
  {
    if n < 10 then [DigitChar(n)] else NatToString(n / 10) + [DigitChar(n % 10)]
  }

  /** Reading back what `str(n)` printed gives `n`. */
  lemma {:induction false} NatToStringRoundTrip(n: nat)
    ensures DigitsValue(NatToString(n)) == n
  {
    if n >= 10 {
      NatToStringRoundTrip(n / 10);
      var s := NatToString(n);
      assert s[..|s| - 1] == NatToString(n / 10);
    }
  }

  /** Distinct numbers print differently. */
  lemma NatToStringInjective(m: nat, n: nat)
    requires m != n
    ensures NatToString(m) != NatToString(n)
  {
    NatToStringRoundTrip(m);
    NatToStringRoundTrip(n);
  }

  /** `n` as exactly `width` digits, with leading zeros (the fractional part of a decimal). */
  function PadDigits(n: nat, width: nat): (s: string)
    requires n < Pow10(width)
    ensures AllDigits(s) && |s| == width
  {
    if width == 0 then [] else PadDigits(n / 10, width - 1) + [DigitChar(n % 10)]
  }

  lemma {:induction false} PadDigitsRoundTrip(n: nat, width: nat)
    requires n < Pow10(width)
    ensures DigitsValue(PadDigits(n, width)) == n
  {
    if width > 0 {
      PadDigitsRoundTrip(n / 10, width - 1);
      var s := PadDigits(n, width);
      assert s[..|s| - 1] == PadDigits(n / 10, width - 1);
    }
  }

  /** A number with exactly `width` significant digits prints as those digits, unpadded. */
  lemma {:induction false} NatToStringFixedWidth(n: nat, width: nat)
    requires width >= 1 && Pow10(width - 1) <= n < Pow10(width)
    ensures NatToString(n) == PadDigits(n, width)
  {
    if n >= 10 {
      assert width >= 2;
      DivMod(n, 10);
      assert Pow10(width - 1) == 10 * Pow10(width - 2);
      NatToStringFixedWidth(n / 10, width - 1);
    }
  }
}
