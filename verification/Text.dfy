/** Byte order on text: Go compares strings, and SQLite orders TEXT columns, this way. */
module Text {

  predicate Less(a: string, b: string) {
    if b == "" then false
    else if a == "" then true
    else a[0] < b[0] || (a[0] == b[0] && Less(a[1..], b[1..]))
  }

  /** `a` does not come after `b`. */
  predicate AtMost(a: string, b: string) {
    !Less(b, a)
  }

  lemma {:induction false} Trichotomy(a: string, b: string)
    ensures Less(a, b) || a == b || Less(b, a)
    ensures !(Less(a, b) && Less(b, a))
    ensures a == b ==> !Less(a, b)
  {
    if a != "" && b != "" {
      Trichotomy(a[1..], b[1..]);
      assert a == [a[0]] + a[1..] && b == [b[0]] + b[1..];
    }
  }

  lemma {:induction false} Transitive(a: string, b: string, c: string)
    requires Less(a, b) && Less(b, c)
    ensures Less(a, c)
  {
    if a != "" && a[0] == b[0] == c[0] {
      Transitive(a[1..], b[1..], c[1..]);
    }
  }

  /** The order is total and strict, in the form that other proofs use. */
  lemma TotalOrder()
    ensures forall a, b :: Less(a, b) || a == b || Less(b, a)
    ensures forall a, b :: !(Less(a, b) && Less(b, a))
    ensures forall a :: !Less(a, a)
    ensures forall a, b, c :: Less(a, b) && Less(b, c) ==> Less(a, c)
  {
    forall a, b
      ensures Less(a, b) || a == b || Less(b, a)
      ensures !(Less(a, b) && Less(b, a))
    {
      Trichotomy(a, b);
    }
    forall a
      ensures !Less(a, a)
    {
      Trichotomy(a, a);
    }
    forall a, b, c | Less(a, b) && Less(b, c)
      ensures Less(a, c)
    {
      Transitive(a, b, c);
    }
  }

  /** Texts whose first parts have equal length are ordered by the first parts, then by the rest. */
  lemma {:induction false} LessConcat(a: string, b: string, c: string, d: string)
    requires |a| == |c|
    ensures Less(a + b, c + d) <==> Less(a, c) || (a == c && Less(b, d))
  {
    if a == "" {
      assert a + b == b && c + d == d;
      Trichotomy(a, c);
    } else {
      assert (a + b)[1..] == a[1..] + b && (c + d)[1..] == c[1..] + d;
      LessConcat(a[1..], b, c[1..], d);
      assert a == [a[0]] + a[1..] && c == [c[0]] + c[1..];
    }
  }

  function LowerChar(c: char): char {
    if 'A' <= c <= 'Z' then c - 'A' + 'a' else c
  }

  /** Lower case of the letters A to Z; logins are matched in this form. */
  function Lower(s: string): string {
    seq(|s|, i requires 0 <= i < |s| => LowerChar(s[i]))
  }

  /** `y` is the small letter of the capital `x`. */
  predicate SmallOf(x: char, y: char) {
    'A' <= x <= 'Z' && y as int == x as int + 32
  }

  /** The texts differ at most in the case of the letters A to Z. */
  predicate SameLetters(a: string, b: string) {
    |a| == |b| && forall i | 0 <= i < |a| :: a[i] == b[i] || SmallOf(a[i], b[i]) || SmallOf(b[i], a[i])
  }

  /** Lower case tells apart exactly the texts that differ in more than case. */
  lemma LowerExactly(a: string, b: string)
    ensures Lower(a) == Lower(b) <==> SameLetters(a, b)
  {
    if Lower(a) == Lower(b) {
      forall i | 0 <= i < |a|
        ensures a[i] == b[i] || SmallOf(a[i], b[i]) || SmallOf(b[i], a[i])
      {
        assert |Lower(a)| == |a| && |Lower(b)| == |b| && Lower(a)[i] == Lower(b)[i];
      }
    }
  }
}
