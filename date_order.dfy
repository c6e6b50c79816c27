/**
 * Calendar dates are stored as `YYYY-MM-DD` strings and compared as Python
 * compares strings: character by character, a proper prefix being smaller.
 * For strings of that fixed format this is chronological order.
 */
module DateOrder {

  /** Python's `a < b` on strings. */
  predicate Less(a: string, b: string)
    decreases |a|
  {
    |b| > 0 && (|a| == 0 || a[0] < b[0] || (a[0] == b[0] && Less(a[1..], b[1..])))
  }

  /** Python's `a <= b` on strings. */
  predicate LessEq(a: string, b: string) {
    !Less(b, a)
  }

  lemma {:induction false} LessIrreflexive(a: string)
    ensures !Less(a, a)
  {
    if |a| > 0 {
      LessIrreflexive(a[1..]);
    }
  }

  lemma {:induction false} LessTransitive(a: string, b: string, c: string)
    requires Less(a, b) && Less(b, c)
    ensures Less(a, c)
  {
    if |a| > 0 && a[0] == b[0] && b[0] == c[0] {
      LessTransitive(a[1..], b[1..], c[1..]);
    }
  }

  /** Any two strings are equal or ordered one way. */
  lemma {:induction false} LessTotal(a: string, b: string)
    ensures a == b || Less(a, b) || Less(b, a)
  {
    if |a| > 0 && |b| > 0 && a[0] == b[0] {
      LessTotal(a[1..], b[1..]);
      if a[1..] == b[1..] {
        assert a == [a[0]] + a[1..] && b == [b[0]] + b[1..];
      }
    }
  }

  lemma LessAsymmetric(a: string, b: string)
    requires Less(a, b)
    ensures LessEq(a, b)
  {
    if Less(b, a) {
      LessTransitive(a, b, a);
      LessIrreflexive(a);
      assert false;
    }
  }

  lemma LessEqAntisymmetric(a: string, b: string)
    requires LessEq(a, b) && LessEq(b, a)
    ensures a == b
  {
    LessTotal(a, b);
  }

  lemma LessEqTransitive(a: string, b: string, c: string)
    requires LessEq(a, b) && LessEq(b, c)
    ensures LessEq(a, c)
  {
    LessTotal(b, c);
    if Less(b, c) && Less(c, a) {
      LessTransitive(b, c, a);
    }
  }

  lemma LessLessEq(a: string, b: string, c: string)
    requires Less(a, b) && LessEq(b, c)
    ensures Less(a, c)
  {
    LessTotal(b, c);
    if Less(b, c) {
      LessTransitive(a, b, c);
    }
  }

  lemma LessEqLess(a: string, b: string, c: string)
    requires LessEq(a, b) && Less(b, c)
    ensures Less(a, c)
  {
    LessTotal(a, b);
    if Less(a, b) {
      LessTransitive(a, b, c);
    }
  }
}
