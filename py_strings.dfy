/**
 * The few Python string operations the chat page relies on: the substring
 * test `t in s`, the slice `s[:n]` and the decimal rendering of an integer in
 * an f-string.
 */
module PyStrings {

  predicate StartsWith(s: string, t: string)
  {
    |t| <= |s| && s[..|t|] == t
  }

  /** `t` occurs in `s` starting at index `i`. */
  ghost predicate OccursAt(s: string, t: string, i: int)
  {
    0 <= i && i + |t| <= |s| && s[i..i + |t|] == t
  }

  /** Python's `t in s` for strings (the empty string occurs in every string). */
  function Contains(s: string, t: string): bool
    decreases |s|
  {
    StartsWith(s, t) || (|s| > 0 && Contains(s[1..], t))
  }

  /** `Contains` agrees with the positional definition of a substring occurrence. */
  lemma {:induction false} ContainsIffOccurs(s: string, t: string)
    ensures Contains(s, t) <==> exists i :: OccursAt(s, t, i)
    decreases |s|
  {
    if StartsWith(s, t) {
      assert OccursAt(s, t, 0);
    } else if |s| > 0 {
      ContainsIffOccurs(s[1..], t);
      if Contains(s[1..], t) {
        var i :| OccursAt(s[1..], t, i);
        assert s[1..][i..i + |t|] == s[i + 1..i + 1 + |t|];
        assert OccursAt(s, t, i + 1);
      }
      if exists i :: OccursAt(s, t, i) {
        var i :| OccursAt(s, t, i) && i > 0;
        assert s[1..][i - 1..i - 1 + |t|] == s[i..i + |t|];
        assert OccursAt(s[1..], t, i - 1);
      }
    }
  }

  /** A string none of whose characters starts `t` cannot contain a non-empty `t`. */
  lemma {:induction false} NotContainsWithoutFirstChar(s: string, t: string)
    requires |t| > 0 && t[0] !in s
    ensures !Contains(s, t)
    decreases |s|
  {
    if |t| <= |s| {
      assert s[..|t|][0] == s[0];
    }
    if |s| > 0 {
      assert forall c :: c in s[1..] ==> c in s;
      NotContainsWithoutFirstChar(s[1..], t);
    }
  }

  /**
   * A prefix that never shows the first character of `t` does not change
   * whether `t` occurs.
   */
  lemma {:induction false} ContainsAfterForeignPrefix(p: string, s: string, t: string)
    requires |t| > 0 && t[0] !in p
    ensures Contains(p + s, t) == Contains(s, t)
    decreases |p|
  {
    if |p| > 0 {
      if |t| <= |p + s| {
        assert (p + s)[..|t|][0] == p[0];
      }
      assert (p + s)[1..] == p[1..] + s;
      assert forall c :: c in p[1..] ==> c in p;
      ContainsAfterForeignPrefix(p[1..], s, t);
    } else {
      assert p + s == s;
    }
  }

  /**
   * A suffix that starts with a character foreign to `t` and never shows the
   * first character of `t` cannot complete or hold an occurrence of `t`.
   */
  lemma {:induction false} ContainsBeforeForeignSuffix(a: string, b: string, t: string)
    requires |t| > 0 && |b| > 0 && t[0] !in b && b[0] !in t
    ensures Contains(a + b, t) == Contains(a, t)
    decreases |a|
  {
    if |a| == 0 {
      assert a + b == b;
      NotContainsWithoutFirstChar(b, t);
    } else {
      if |t| > |a| && |t| <= |a + b| {
        assert (a + b)[..|t|][|a|] == b[0] != t[|a|];
      }
      if |t| <= |a| {
        assert (a + b)[..|t|] == a[..|t|];
      }
      assert (a + b)[1..] == a[1..] + b;
      ContainsBeforeForeignSuffix(a[1..], b, t);
    }
  }

  /**
   * A prefix `x + y` in which the first character of `t` appears only at the
   * head of `y`, where `t` then fails to match at position `k`, does not
   * change whether `t` occurs.
   */
  lemma ContainsAfterNearlyForeignPrefix(x: string, y: string, s: string, t: string, k: nat)
    requires |t| > 0 && t[0] !in x
    requires k < |y| && k < |t| && y[k] != t[k]
    requires t[0] !in y[1..]
    ensures Contains(x + y + s, t) == Contains(s, t)
  {
    assert x + y + s == x + (y + s);
    ContainsAfterForeignPrefix(x, y + s, t);
    assert (y + s)[k] == y[k] != t[k];
    assert (y + s)[1..] == y[1..] + s;
    ContainsAfterForeignPrefix(y[1..], s, t);
  }

  /** Python's `s[:n]` for a non-negative `n`. */
  function Take(s: string, n: nat): (r: string)
    ensures |r| <= n && |r| <= |s|
    ensures StartsWith(s, r)
    ensures |s| <= n ==> r == s
    ensures |r| == if |s| <= n then |s| else n
  {
    if |s| <= n then s else s[..n]
  }

  function DigitChar(d: nat): (c: char)
    requires d < 10
    ensures '0' <= c <= '9'
    ensures DigitValue(c) == d
  {
    "0123456789"[d]
  }

  /** The value of a decimal digit character. */
  ghost function DigitValue(c: char): int
  {
    c as int - '0' as int
  }

  /** The number a string of decimal digits denotes, most significant digit first. */
  ghost function DigitsValue(s: string): int
  {
    if s == [] then 0 else 10 * DigitsValue(s[..|s| - 1]) + DigitValue(s[|s| - 1])
  }

  /** The decimal text Python's `str()` gives a non-negative integer. */
  function DecimalString(n: nat): (s: string)
    ensures |s| > 0
    ensures forall i :: 0 <= i < |s| ==> '0' <= s[i] <= '9'
    ensures n < 10 <==> |s| == 1
    ensures DigitsValue(s) == n
    ensures |s| > 1 ==> s[0] != '0'
    decreases n
  {
    if n < 10 then
      var s := [DigitChar(n)];
      assert s[..0] == [];
      s
    else
      var front := DecimalString(n / 10);
      var s := front + [DigitChar(n % 10)];
      assert s[..|s| - 1] == front;
      assert s[0] == front[0];
      s
  }

}
