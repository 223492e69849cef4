/** Sorting of texts by code point, as `sort()` and `sorted()` do. */
module TextSort {
  import opened Texts
  import opened TextOrder

  function Insert(x: string, sorted: seq<string>): seq<string>
  {
    if sorted == [] || CompareText(x, sorted[0]) <= 0 then [x] + sorted else [sorted[0]] + Insert(x, sorted[1..])
  }

  /** `refs.sort()`. */
  function Sort(refs: seq<string>): seq<string>
  {
    if refs == [] then [] else Insert(refs[0], Sort(refs[1..]))
  }

  lemma {:induction false} InsertIsPermutation(x: string, sorted: seq<string>)
    ensures multiset(Insert(x, sorted)) == multiset([x]) + multiset(sorted)
  {
    if sorted != [] && CompareText(x, sorted[0]) > 0 {
      InsertIsPermutation(x, sorted[1..]);
      assert sorted == [sorted[0]] + sorted[1..];
    }
  }

  lemma {:induction false} SortIsPermutation(refs: seq<string>)
    ensures multiset(Sort(refs)) == multiset(refs)
  {
    if refs != [] {
      SortIsPermutation(refs[1..]);
      InsertIsPermutation(refs[0], Sort(refs[1..]));
      assert refs == [refs[0]] + refs[1..];
    }
  }

  lemma InsertCommutes(x: string, y: string, s: seq<string>)
    ensures Insert(x, Insert(y, s)) == Insert(y, Insert(x, s))
    decreases |s|
  {
    CharOrder();
    LexFlips(CompareChar, x, y);
    LexFlips(CompareChar, y, x);
    LexZero(CompareChar, x, y);
    if s == [] {
      assert [x][1..] == [] && [y][1..] == [];
    } else {
      var z := s[0];
      LexFlips(CompareChar, x, z);
      LexFlips(CompareChar, y, z);
      LexFlips(CompareChar, z, x);
      LexFlips(CompareChar, z, y);
      if CompareText(x, z) <= 0 && CompareText(y, z) <= 0 {
        assert ([x] + s)[1..] == s && ([y] + s)[1..] == s;
      } else if CompareText(x, z) > 0 && CompareText(y, z) > 0 {
        InsertCommutes(x, y, s[1..]);
        assert ([z] + Insert(x, s[1..]))[1..] == Insert(x, s[1..]);
        assert ([z] + Insert(y, s[1..]))[1..] == Insert(y, s[1..]);
      } else if CompareText(x, z) <= 0 {
        if CompareText(y, x) <= 0 { LexTransitive(CompareChar, y, x, z); }
        assert ([x] + s)[1..] == s && ([z] + Insert(y, s[1..]))[0] == z;
      } else {
        if CompareText(x, y) <= 0 { LexTransitive(CompareChar, x, y, z); }
        assert ([y] + s)[1..] == s && ([z] + Insert(x, s[1..]))[0] == z;
      }
    }
  }

  lemma CharOrder()
    ensures Order(CompareChar) && Strict(CompareChar)
  {
  }

  /** Sorting forgets exactly the order: removing an element at any position and sorting it in again is the same. */
  lemma {:induction false} SortPullsFront(refs: seq<string>, k: nat)
    requires k < |refs|
    ensures Sort(refs) == Insert(refs[k], Sort(refs[..k] + refs[k + 1..]))
  {
    if k == 0 {
      assert refs[..0] + refs[1..] == refs[1..];
    } else {
      var tail := refs[1..];
      SortPullsFront(tail, k - 1);
      var rest := refs[..k] + refs[k + 1..];
      assert rest[0] == refs[0] && rest[1..] == tail[..k - 1] + tail[k..];
      InsertCommutes(refs[0], refs[k], Sort(rest[1..]));
    }
  }

  lemma WithoutOne(s: seq<string>, k: nat)
    requires k < |s|
    ensures multiset(s[..k] + s[k + 1..]) == multiset(s) - multiset{s[k]}
  {
    assert s == s[..k] + [s[k]] + s[k + 1..];
  }

  lemma {:induction false} SameMultisetSortsEqual(a: seq<string>, b: seq<string>)
    requires multiset(a) == multiset(b)
    ensures Sort(a) == Sort(b)
    decreases |a|
  {
    if a == [] {
      assert |multiset(b)| == 0;
    } else {
      assert a[0] in multiset(b);
      var k :| 0 <= k < |b| && b[k] == a[0];
      WithoutOne(a, 0);
      WithoutOne(b, k);
      assert a[..0] + a[1..] == a[1..];
      SameMultisetSortsEqual(a[1..], b[..k] + b[k + 1..]);
      SortPullsFront(b, k);
    }
  }

  /** Equal sorted lists are equal multisets: what `JSON.stringify` of the sorted references compares. */
  lemma SortedEqualIsSameMultiset(a: seq<string>, b: seq<string>)
    ensures Sort(a) == Sort(b) <==> multiset(a) == multiset(b)
  {
    SortIsPermutation(a);
    SortIsPermutation(b);
    if multiset(a) == multiset(b) {
      SameMultisetSortsEqual(a, b);
    }
  }

  predicate Ascending(sorted: seq<string>)
  {
    forall i, j :: 0 <= i < j < |sorted| ==> CompareText(sorted[i], sorted[j]) <= 0
  }

  lemma {:induction false} InsertAscends(x: string, sorted: seq<string>)
    requires Ascending(sorted)
    ensures Ascending(Insert(x, sorted))
  {
    CharOrder();
    if sorted == [] {
    } else if CompareText(x, sorted[0]) <= 0 {
      forall j | 0 <= j < |sorted| ensures CompareText(x, sorted[j]) <= 0 {
        if j > 0 {
          LexTransitive(CompareChar, x, sorted[0], sorted[j]);
        }
      }
    } else {
      var rest := Insert(x, sorted[1..]);
      InsertAscends(x, sorted[1..]);
      InsertIsPermutation(x, sorted[1..]);
      LexFlips(CompareChar, sorted[0], x);
      forall j | 0 <= j < |rest| ensures CompareText(sorted[0], rest[j]) <= 0 {
        assert rest[j] in multiset(rest);
        if rest[j] != x {
          assert rest[j] in multiset(sorted[1..]);
          var k :| 0 <= k < |sorted[1..]| && sorted[1..][k] == rest[j];
          assert sorted[k + 1] == rest[j];
        } else {
          LexFlips(CompareChar, x, sorted[0]);
        }
      }
    }
  }

  lemma {:induction false} SortAscends(refs: seq<string>)
    ensures Ascending(Sort(refs))
  {
    if refs != [] {
      SortAscends(refs[1..]);
      InsertAscends(refs[0], Sort(refs[1..]));
    }
  }

  lemma SortMembers(refs: seq<string>, x: string)
    ensures x in Sort(refs) <==> x in refs
  {
    SortIsPermutation(refs);
    assert x in Sort(refs) <==> x in multiset(Sort(refs));
    assert x in refs <==> x in multiset(refs);
  }
}
