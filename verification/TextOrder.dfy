/** Laws of the lexicographic comparison. */
module TextOrder {
  import opened Texts

  /** A three-way comparison whose sign is antisymmetric and transitive. */
  ghost predicate Order<T(!new)>(compare: (T, T) -> int)
  {
    && (forall x, y :: compare(x, y) < 0 <==> compare(y, x) > 0)
    && (forall x, y, z :: compare(x, y) <= 0 && compare(y, z) <= 0 ==> compare(x, z) <= 0)
  }

  lemma {:induction false} LexFlips<T(!new)>(compare: (T, T) -> int, a: seq<T>, b: seq<T>)
    requires Order(compare)
    ensures Lex(compare, a, b) < 0 <==> Lex(compare, b, a) > 0
    decreases |a|
  {
    if a != [] && b != [] {
      LexFlips(compare, a[1..], b[1..]);
    }
  }

  lemma {:induction false} LexTransitive<T(!new)>(compare: (T, T) -> int, a: seq<T>, b: seq<T>, c: seq<T>)
    requires Order(compare) && Lex(compare, a, b) <= 0 && Lex(compare, b, c) <= 0
    ensures Lex(compare, a, c) <= 0
    decreases |a|
  {
    if a != [] && b != [] && c != [] {
      var x, y, z := a[0], b[0], c[0];
      if compare(x, y) == 0 && compare(y, z) == 0 {
        LexTransitive(compare, a[1..], b[1..], c[1..]);
        assert compare(z, y) == 0 && compare(y, x) == 0;
      } else {
        assert compare(z, x) > 0 || (compare(z, y) <= 0 && compare(y, x) <= 0);
      }
    }
  }

  /** `k` is the position at which two sequences first differ, in favour of the left one. */
  ghost predicate DecidesAt<T>(compare: (T, T) -> int, a: seq<T>, b: seq<T>, k: nat)
  {
    && k <= |a| && k <= |b| && a[..k] == b[..k]
    && if k < |a| && k < |b| then compare(a[k], b[k]) < 0 else k == |a| < |b|
  }

  /** Equal exactly when the comparison says so. */
  ghost predicate Strict<T(!new)>(compare: (T, T) -> int)
  {
    forall x, y :: compare(x, y) == 0 <==> x == y
  }

  lemma {:induction false} LexFindsDifference<T(!new)>(compare: (T, T) -> int, a: seq<T>, b: seq<T>) returns (k: nat)
    requires Strict(compare) && Lex(compare, a, b) < 0
    ensures DecidesAt(compare, a, b, k)
  {
    if a == [] || a[0] != b[0] {
      k := 0;
    } else {
      k := LexFindsDifference(compare, a[1..], b[1..]);
      k := k + 1;
      assert a[..k] == [a[0]] + a[1..][..k - 1] && b[..k] == [b[0]] + b[1..][..k - 1];
    }
  }

  lemma {:induction false} DifferenceDecidesLex<T(!new)>(compare: (T, T) -> int, a: seq<T>, b: seq<T>, k: nat)
    requires Strict(compare) && DecidesAt(compare, a, b, k)
    ensures Lex(compare, a, b) < 0
    decreases k
  {
    if k > 0 {
      assert a[0] == a[..k][0] == b[..k][0] == b[0];
      assert a[1..][..k - 1] == a[..k][1..] && b[1..][..k - 1] == b[..k][1..];
      DifferenceDecidesLex(compare, a[1..], b[1..], k - 1);
    }
  }

  lemma {:induction false} LexZero<T(!new)>(compare: (T, T) -> int, a: seq<T>, b: seq<T>)
    requires Strict(compare)
    ensures Lex(compare, a, b) == 0 <==> a == b
    decreases |a|
  {
    if a != [] && b != [] {
      LexZero(compare, a[1..], b[1..]);
      assert a == [a[0]] + a[1..] && b == [b[0]] + b[1..];
    }
  }
}
