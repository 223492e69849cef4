/** What trimming, changing case and writing numbers mean. */
module TextLaws {
  import opened Texts

  /** `t` is a part of `s` with only white space around it, and has no outer white space itself. */
  predicate IsTrimOf(s: string, t: string)
  {
    && (exists i :: 0 <= i <= |s| - |t| && StandsAlone(s, t, i))
    && (t == "" || (!IsSpace(t[0]) && !IsSpace(t[|t| - 1])))
  }

  predicate StandsAlone(s: string, t: string, i: nat)
    requires i + |t| <= |s|
  {
    s[i..i + |t|] == t && forall k :: 0 <= k < |s| && (k < i || i + |t| <= k) ==> IsSpace(s[k])
  }

  lemma SpaceBefore(s: string, t: string, i: nat)
    requires s != "" && IsSpace(s[0]) && i + |t| <= |s[1..]| && StandsAlone(s[1..], t, i)
    ensures StandsAlone(s, t, i + 1)
  {
    assert s[i + 1..i + 1 + |t|] == s[1..][i..i + |t|];
    assert forall k :: 0 < k < |s| ==> s[k] == s[1..][k - 1];
  }

  lemma SpaceAfter(s: string, t: string, i: nat)
    requires s != "" && IsSpace(s[|s| - 1]) && i + |t| <= |s| - 1 && StandsAlone(s[..|s| - 1], t, i)
    ensures StandsAlone(s, t, i)
  {
    var front := s[..|s| - 1];
    assert s[i..i + |t|] == front[i..i + |t|];
    assert forall k :: 0 <= k < |front| ==> s[k] == front[k];
  }

  lemma {:induction false} TrimStands(s: string) returns (i: nat)
    ensures i + |Trim(s)| <= |s| && StandsAlone(s, Trim(s), i)
    decreases |s|
  {
    i := 0;
    if s == "" {
    } else if IsSpace(s[0]) {
      i := TrimStands(s[1..]);
      SpaceBefore(s, Trim(s), i);
      i := i + 1;
    } else if IsSpace(s[|s| - 1]) {
      i := TrimStands(s[..|s| - 1]);
      SpaceAfter(s, Trim(s), i);
    } else {
      assert s[0..|s|] == s;
    }
  }

  /** A text without outer space lies inside any part that stands alone. */
  lemma EdgesAgree(s: string, t: string, i: nat, u: string, j: nat)
    requires i + |t| <= |s| && j + |u| <= |s| && t != ""
    requires StandsAlone(s, t, i) && StandsAlone(s, u, j) && !IsSpace(t[0]) && !IsSpace(t[|t| - 1])
    ensures j <= i && i + |t| <= j + |u|
  {
    assert !IsSpace(s[i]) && !IsSpace(s[i + |t| - 1]);
  }

  lemma TrimIsUnique(s: string, t: string, u: string)
    requires IsTrimOf(s, t) && IsTrimOf(s, u)
    ensures t == u
  {
    var i :| 0 <= i <= |s| - |t| && StandsAlone(s, t, i);
    var j :| 0 <= j <= |s| - |u| && StandsAlone(s, u, j);
    if t != "" {
      EdgesAgree(s, t, i, u, j);
    }
    if u != "" {
      EdgesAgree(s, u, j, t, i);
    }
  }

  /** Trimming removes the outer white space and nothing else. */
  lemma TrimExactly(s: string, t: string)
    ensures t == Trim(s) <==> IsTrimOf(s, t)
  {
    var i := TrimStands(s);
    if IsTrimOf(s, t) {
      TrimIsUnique(s, t, Trim(s));
    }
  }

  /** The two letters have the same place in the alphabet. */
  predicate SameLetter(lower: char, upper: char)
  {
    'a' <= lower <= 'z' && 'A' <= upper <= 'Z' && lower as int - 'a' as int == upper as int - 'A' as int
  }

  /** Character by character: a small letter has become the same capital, everything else is unchanged. */
  predicate IsUpperOf(t: string, u: string)
  {
    && |u| == |t|
    && forall i :: 0 <= i < |t| ==> SameLetter(t[i], u[i]) || (u[i] == t[i] && !('a' <= t[i] <= 'z'))
  }

  predicate IsLowerOf(t: string, u: string)
  {
    && |u| == |t|
    && forall i :: 0 <= i < |t| ==> SameLetter(u[i], t[i]) || (u[i] == t[i] && !('A' <= t[i] <= 'Z'))
  }

  lemma UpperExactly(t: string, u: string)
    ensures u == UpperText(t) <==> IsUpperOf(t, u)
  {
    if IsUpperOf(t, u) {
      forall i | 0 <= i < |t| ensures u[i] == UpperText(t)[i] {
      }
    }
  }

  lemma LowerExactly(t: string, u: string)
    ensures u == LowerText(t) <==> IsLowerOf(t, u)
  {
    if IsLowerOf(t, u) {
      forall i | 0 <= i < |t| ensures u[i] == LowerText(t)[i] {
      }
    }
  }

  /** A number reads back from its digits. */
  lemma {:induction false} DecimalRoundTrip(n: nat)
    ensures Decimal(DecimalText(n)) == n
  {
    var t := DecimalText(n);
    if n >= 10 {
      DecimalRoundTrip(n / 10);
      assert t[..|t| - 1] == DecimalText(n / 10);
    } else {
      assert t[..|t| - 1] == "";
    }
  }
}
