/** Lists built and checked element by element. */
module Lists {

  /** What `show` gives for the first `n` items, one after the other. */
  function Flat<S, T>(show: S -> seq<T>, items: seq<S>, n: nat): seq<T>
    requires n <= |items|
  {
    if n == 0 then [] else Flat(show, items, n - 1) + show(items[n - 1])
  }

  lemma {:induction false} FlatContains<S, T>(show: S -> seq<T>, items: seq<S>, n: nat, i: nat, x: T)
    requires i < n <= |items| && x in show(items[i])
    ensures x in Flat(show, items, n)
  {
    if i < n - 1 {
      FlatContains(show, items, n - 1, i, x);
    }
  }

  lemma {:induction false} FlatOrigin<S, T>(show: S -> seq<T>, items: seq<S>, n: nat, x: T) returns (i: nat)
    requires n <= |items| && x in Flat(show, items, n)
    ensures i < n && x in show(items[i])
  {
    if x in show(items[n - 1]) {
      i := n - 1;
    } else {
      i := FlatOrigin(show, items, n - 1, x);
    }
  }

  /** The first `n` items all satisfy `p`. */
  predicate Every<T>(p: T -> bool, items: seq<T>, n: nat)
    requires n <= |items|
  {
    n == 0 || (Every(p, items, n - 1) && p(items[n - 1]))
  }

  lemma {:induction false} EveryMeans<T>(p: T -> bool, items: seq<T>, n: nat)
    requires n <= |items|
    ensures Every(p, items, n) <==> forall i :: 0 <= i < n ==> p(items[i])
  {
    if n > 0 {
      EveryMeans(p, items, n - 1);
    }
  }

  /** Positions below `n`, in order. */
  predicate Positions(at: seq<nat>, n: nat)
  {
    && (forall j :: 0 <= j < |at| ==> at[j] < n)
    && (forall j, k :: 0 <= j < k < |at| ==> at[j] < at[k])
  }

  /** What `show` gives for the items that satisfy `p`. */
  function Picked<S, T>(p: S -> bool, show: S -> T, items: seq<S>): seq<T>
  {
    if items == [] then [] else (if p(items[0]) then [show(items[0])] else []) + Picked(p, show, items[1..])
  }

  /** Where these items are, from position `k` on. */
  function Places<S>(p: S -> bool, items: seq<S>, k: nat): seq<nat>
    requires k <= |items|
    decreases |items| - k
  {
    if k == |items| then [] else (if p(items[k]) then [k] else []) + Places(p, items, k + 1)
  }

  lemma {:induction false} PlacesAscend<S>(p: S -> bool, items: seq<S>, k: nat)
    requires k <= |items|
    ensures Positions(Places(p, items, k), |items|)
    ensures forall j :: 0 <= j < |Places(p, items, k)| ==> k <= Places(p, items, k)[j]
    decreases |items| - k
  {
    if k < |items| {
      PlacesAscend(p, items, k + 1);
    }
  }

  lemma {:induction false} PlacesExactly<S>(p: S -> bool, items: seq<S>, k: nat, i: nat)
    requires k <= i < |items|
    ensures i in Places(p, items, k) <==> p(items[i])
    decreases |items| - k
  {
    if k < i {
      PlacesExactly(p, items, k + 1, i);
    } else {
      PlacesAscend(p, items, k + 1);
    }
  }

  lemma {:induction false} PickedAt<S, T>(p: S -> bool, show: S -> T, items: seq<S>, k: nat)
    requires k <= |items|
    ensures var at, picked := Places(p, items, k), Picked(p, show, items[k..]);
            |picked| == |at| && forall j :: 0 <= j < |at| ==> at[j] < |items| && picked[j] == show(items[at[j]])
    decreases |items| - k
  {
    if k < |items| {
      PickedAt(p, show, items, k + 1);
      assert items[k..][0] == items[k] && items[k..][1..] == items[k + 1..];
    }
  }

  lemma PickedPositions<S, T>(p: S -> bool, show: S -> T, items: seq<S>) returns (at: seq<nat>)
    ensures Positions(at, |items|) && |Picked(p, show, items)| == |at|
    ensures forall i: nat :: i < |items| ==> (i in at <==> p(items[i]))
    ensures forall j :: 0 <= j < |at| ==> Picked(p, show, items)[j] == show(items[at[j]])
  {
    at := Places(p, items, 0);
    PlacesAscend(p, items, 0);
    PickedAt(p, show, items, 0);
    assert items[0..] == items;
    forall i: nat | i < |items| ensures i in at <==> p(items[i]) {
      PlacesExactly(p, items, 0, i);
    }
  }

  /** The entries that the items that satisfy `p` put into a map, a later one in place of an earlier one. */
  function Entered<S, T>(p: S -> bool, key: S -> string, value: S -> T, items: seq<S>): map<string, T>
  {
    if items == [] then map[]
    else
      var last, before := items[|items| - 1], Entered(p, key, value, items[..|items| - 1]);
      if p(last) then before[key(last) := value(last)] else before
  }

  lemma {:induction false} EnteredKeys<S, T>(p: S -> bool, key: S -> string, value: S -> T, items: seq<S>, k: string)
    ensures k in Entered(p, key, value, items) <==> exists i :: 0 <= i < |items| && p(items[i]) && key(items[i]) == k
  {
    if items != [] {
      var front := items[..|items| - 1];
      EnteredKeys(p, key, value, front, k);
      assert forall i :: 0 <= i < |front| ==> front[i] == items[i];
    }
  }

  /** An entry is that of the last such item with its key. */
  lemma {:induction false} EnteredValue<S, T>(p: S -> bool, key: S -> string, value: S -> T, items: seq<S>, i: nat)
    requires i < |items| && IsLastEntry(p, key, items, i)
    ensures var r := Entered(p, key, value, items);
            key(items[i]) in r && r[key(items[i])] == value(items[i])
    decreases |items|
  {
    if i < |items| - 1 {
      var front := items[..|items| - 1];
      assert IsLastEntry(p, key, front, i) by {
        assert forall m :: i < m < |front| ==> front[m] == items[m];
      }
      EnteredValue(p, key, value, front, i);
    }
  }

  /** Item `i` puts an entry, and no later item puts one with its key. */
  predicate IsLastEntry<S>(p: S -> bool, key: S -> string, items: seq<S>, i: nat)
    requires i < |items|
  {
    p(items[i]) && forall m :: i < m < |items| && p(items[m]) ==> key(items[m]) != key(items[i])
  }
}
