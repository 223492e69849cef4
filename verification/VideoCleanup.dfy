/** What one cleanup of the video store keeps and removes (engine/src/video-evidence.ts). Times are in milliseconds. */
module VideoCleanup {

  datatype State = Recording | Finished | OtherState

  /** A manifest; `expires` only means something for a temporary recording. */
  datatype Item = Item(id: string, state: State, temporary: bool, expires: int, created: int, size: nat)

  // ---------------------------------------------------------------- items

  predicate Distinct(items: seq<Item>) { forall i, j :: 0 <= i < j < |items| ==> items[i].id != items[j].id }

  function Size(items: seq<Item>): nat { if items == [] then 0 else items[0].size + Size(items[1..]) }

  function Drop(items: seq<Item>, gone: set<string>): seq<Item>
  {
    if items == [] then [] else (if items[0].id in gone then [] else [items[0]]) + Drop(items[1..], gone)
  }

  function Ids(items: seq<Item>): set<string> { set i | 0 <= i < |items| :: items[i].id }

  // ---------------------------------------------------------------- cleanup as a function

  /** An abandoned recording, or a temporary one past its time. */
  predicate Doomed(active: set<string>, now: int, item: Item)
  {
    && item.id !in active
    && ((item.state.Recording? && now - item.created > 3600000) || (item.temporary && item.expires <= now))
  }

  /** A finished temporary recording that only the quota can remove. */
  predicate Evictable(active: set<string>, now: int, item: Item)
  {
    item.id !in active && !Doomed(active, now, item) && item.temporary && item.state.Finished?
  }

  function DoomedIds(items: seq<Item>, active: set<string>, now: int): set<string>
  {
    if items == [] then {}
    else (if Doomed(active, now, items[0]) then {items[0].id} else {}) + DoomedIds(items[1..], active, now)
  }

  function Candidates(items: seq<Item>, active: set<string>, now: int): seq<Item>
  {
    if items == [] then []
    else (if Evictable(active, now, items[0]) then [items[0]] else []) + Candidates(items[1..], active, now)
  }

  /** Stable insertion, oldest first. */
  function Insert(item: Item, sorted: seq<Item>): seq<Item>
  {
    if sorted == [] || item.created <= sorted[0].created then [item] + sorted
    else [sorted[0]] + Insert(item, sorted[1..])
  }

  function Oldest(items: seq<Item>): seq<Item>
  {
    if items == [] then [] else Insert(items[0], Oldest(items[1..]))
  }

  /** How many of the oldest must go before the rest fits. */
  function Evictions(sorted: seq<Item>, max: nat): (k: nat)
    ensures k <= |sorted|
  {
    if sorted == [] || Size(sorted) <= max then 0 else 1 + Evictions(sorted[1..], max)
  }

  function EvictedIds(items: seq<Item>, active: set<string>, now: int, max: nat): set<string>
  {
    var sorted := Oldest(Candidates(items, active, now));
    Ids(sorted[..Evictions(sorted, max)])
  }

  function AfterCleanup(items: seq<Item>, active: set<string>, now: int, max: nat): seq<Item>
  {
    Drop(items, DoomedIds(items, active, now) + EvictedIds(items, active, now, max))
  }

  // ---------------------------------------------------------------- lists

  lemma {:induction false} DropMembers(items: seq<Item>, gone: set<string>, x: Item)
    ensures x in Drop(items, gone) <==> x in items && x.id !in gone
  {
    if items != [] {
      DropMembers(items[1..], gone, x);
    }
  }

  lemma {:induction false} DropDistinct(items: seq<Item>, gone: set<string>)
    requires Distinct(items)
    ensures Distinct(Drop(items, gone))
  {
    if items != [] {
      DropDistinct(items[1..], gone);
      forall x | x in Drop(items[1..], gone) ensures x.id != items[0].id {
        DropMembers(items[1..], gone, x);
      }
    }
  }

  lemma {:induction false} DropNothing(items: seq<Item>, gone: set<string>)
    requires forall i :: 0 <= i < |items| ==> items[i].id !in gone
    ensures Drop(items, gone) == items
  {
    if items != [] {
      DropNothing(items[1..], gone);
    }
  }

  lemma {:induction false} DropTwice(items: seq<Item>, a: set<string>, b: set<string>)
    ensures Drop(items, a + b) == Drop(Drop(items, a), b)
  {
    if items != [] {
      DropTwice(items[1..], a, b);
      if items[0].id in a {
        assert Drop(items, a) == Drop(items[1..], a);
      } else {
        assert Drop(items, a)[1..] == Drop(items[1..], a);
      }
    }
  }

  lemma {:induction false} CandidateMembers(items: seq<Item>, active: set<string>, now: int, x: Item)
    ensures x in Candidates(items, active, now) <==> x in items && Evictable(active, now, x)
  {
    if items != [] {
      CandidateMembers(items[1..], active, now, x);
    }
  }

  lemma {:induction false} CandidatesAfterDrop(items: seq<Item>, active: set<string>, now: int, gone: set<string>)
    ensures Candidates(Drop(items, gone), active, now) == Drop(Candidates(items, active, now), gone)
  {
    if items != [] {
      var rest := Drop(items[1..], gone);
      CandidatesAfterDrop(items[1..], active, now, gone);
      if items[0].id in gone {
        assert Drop(items, gone) == rest;
      } else {
        assert Drop(items, gone) == [items[0]] + rest && Drop(items, gone)[1..] == rest;
      }
      if Evictable(active, now, items[0]) {
        assert Candidates(items, active, now)[1..] == Candidates(items[1..], active, now);
      } else {
        assert Candidates(items, active, now) == Candidates(items[1..], active, now);
      }
    }
  }

  lemma {:induction false} DoomedMembers(items: seq<Item>, active: set<string>, now: int, x: Item)
    requires Distinct(items) && x in items
    ensures x.id in DoomedIds(items, active, now) <==> Doomed(active, now, x)
  {
    if x == items[0] {
      DoomedIdsAreTheirs(items[1..], active, now, x.id);
    } else {
      DoomedMembers(items[1..], active, now, x);
    }
  }

  lemma {:induction false} DoomedIdsAreTheirs(items: seq<Item>, active: set<string>, now: int, id: string)
    ensures id in DoomedIds(items, active, now) ==>
            exists i :: 0 <= i < |items| && items[i].id == id && Doomed(active, now, items[i])
  {
    if items != [] && id in DoomedIds(items[1..], active, now) {
      DoomedIdsAreTheirs(items[1..], active, now, id);
      var i :| 0 <= i < |items[1..]| && items[1..][i].id == id && Doomed(active, now, items[1..][i]);
      assert items[i + 1] == items[1..][i];
    }
  }

  // ---------------------------------------------------------------- sorting

  lemma {:induction false} InsertMembers(item: Item, sorted: seq<Item>, x: Item)
    ensures x in Insert(item, sorted) <==> x == item || x in sorted
  {
    if sorted != [] && item.created > sorted[0].created {
      InsertMembers(item, sorted[1..], x);
    }
  }

  lemma {:induction false} OldestMembers(items: seq<Item>, x: Item)
    ensures x in Oldest(items) <==> x in items
  {
    if items != [] {
      OldestMembers(items[1..], x);
      InsertMembers(items[0], Oldest(items[1..]), x);
    }
  }

  predicate Ascending(items: seq<Item>) { forall i, j :: 0 <= i < j < |items| ==> items[i].created <= items[j].created }

  lemma {:induction false} InsertAscending(item: Item, sorted: seq<Item>)
    requires Ascending(sorted)
    ensures Ascending(Insert(item, sorted))
  {
    if sorted != [] && item.created > sorted[0].created {
      var tail := Insert(item, sorted[1..]);
      InsertAscending(item, sorted[1..]);
      forall x | x in tail ensures sorted[0].created <= x.created {
        InsertMembers(item, sorted[1..], x);
      }
    }
  }

  lemma {:induction false} OldestAscending(items: seq<Item>)
    ensures Ascending(Oldest(items))
  {
    if items != [] {
      OldestAscending(items[1..]);
      InsertAscending(items[0], Oldest(items[1..]));
    }
  }

  lemma {:induction false} InsertDistinct(item: Item, sorted: seq<Item>)
    requires Distinct(sorted) && forall x :: x in sorted ==> x.id != item.id
    ensures Distinct(Insert(item, sorted))
  {
    if sorted != [] && item.created > sorted[0].created {
      var tail := Insert(item, sorted[1..]);
      InsertDistinct(item, sorted[1..]);
      forall x | x in tail ensures sorted[0].id != x.id {
        InsertMembers(item, sorted[1..], x);
      }
    }
  }

  lemma {:induction false} OldestDistinct(items: seq<Item>)
    requires Distinct(items)
    ensures Distinct(Oldest(items))
  {
    if items != [] {
      OldestDistinct(items[1..]);
      forall x | x in Oldest(items[1..]) ensures x.id != items[0].id {
        OldestMembers(items[1..], x);
      }
      InsertDistinct(items[0], Oldest(items[1..]));
    }
  }

  lemma {:induction false} InsertSize(item: Item, sorted: seq<Item>, gone: set<string>)
    ensures Size(Drop(Insert(item, sorted), gone)) == Size(Drop([item] + sorted, gone))
  {
    assert ([item] + sorted)[1..] == sorted;
    if sorted != [] && item.created > sorted[0].created {
      var tail := Insert(item, sorted[1..]);
      InsertSize(item, sorted[1..], gone);
      assert ([item] + sorted[1..])[1..] == sorted[1..];
      SizeConcat(if sorted[0].id in gone then [] else [sorted[0]], Drop(tail, gone));
      SizeConcat(if sorted[0].id in gone then [] else [sorted[0]], Drop(sorted[1..], gone));
      SizeConcat(if item.id in gone then [] else [item], Drop(sorted, gone));
      SizeConcat(if item.id in gone then [] else [item], Drop(sorted[1..], gone));
      assert ([sorted[0]] + tail)[1..] == tail;
    }
  }

  lemma {:induction false} SizeConcat(a: seq<Item>, b: seq<Item>)
    ensures Size(a + b) == Size(a) + Size(b)
  {
    if a == [] {
      assert a + b == b;
    } else {
      assert (a + b)[1..] == a[1..] + b;
      SizeConcat(a[1..], b);
    }
  }

  /** Sorting changes the size of no selection. */
  lemma {:induction false} OldestSize(items: seq<Item>, gone: set<string>)
    ensures Size(Drop(Oldest(items), gone)) == Size(Drop(items, gone))
  {
    if items != [] {
      var sorted := Oldest(items[1..]);
      OldestSize(items[1..], gone);
      InsertSize(items[0], sorted, gone);
      var first := if items[0].id in gone then [] else [items[0]];
      assert ([items[0]] + sorted)[1..] == sorted;
      SizeConcat(first, Drop(sorted, gone));
      SizeConcat(first, Drop(items[1..], gone));
    }
  }

  /** Dropping the first `k` of distinct items leaves the others. */
  lemma DropPrefix(items: seq<Item>, k: nat)
    requires Distinct(items) && k <= |items|
    ensures Drop(items, Ids(items[..k])) == items[k..]
  {
    var a, b := items[..k], items[k..];
    PrefixIds(items, k);
    assert items == a + b;
    DropAll(a, b, Ids(a));
    DropNothing(b, Ids(a));
  }

  lemma PrefixIds(items: seq<Item>, k: nat)
    requires Distinct(items) && k <= |items|
    ensures forall i :: 0 <= i < |items[..k]| ==> items[..k][i].id in Ids(items[..k])
    ensures forall i :: 0 <= i < |items[k..]| ==> items[k..][i].id !in Ids(items[..k])
  {
    var a, b := items[..k], items[k..];
    forall i | 0 <= i < |b| ensures b[i].id !in Ids(a) {
      forall j | 0 <= j < |a| ensures a[j].id != b[i].id {
        assert a[j] == items[j] && b[i] == items[k + i];
      }
    }
  }

  lemma {:induction false} DropAll(a: seq<Item>, b: seq<Item>, gone: set<string>)
    requires forall i :: 0 <= i < |a| ==> a[i].id in gone
    ensures Drop(a + b, gone) == Drop(b, gone)
  {
    if a == [] {
      assert a + b == b;
    } else {
      assert (a + b)[1..] == a[1..] + b;
      DropAll(a[1..], b, gone);
    }
  }

  lemma {:induction false} EvictionsAreLeast(sorted: seq<Item>, max: nat)
    ensures var k := Evictions(sorted, max);
            Size(sorted[k..]) <= max && (k > 0 ==> Size(sorted[k - 1..]) > max)
  {
    if sorted != [] && Size(sorted) > max {
      EvictionsAreLeast(sorted[1..], max);
      var k := Evictions(sorted[1..], max);
      assert sorted[1..][k..] == sorted[k + 1..];
      assert k > 0 ==> sorted[1..][k - 1..] == sorted[k..];
      assert sorted[0..] == sorted;
    }
  }

  // ---------------------------------------------------------------- what a cleanup guarantees

  lemma {:induction false} CandidatesDistinct(items: seq<Item>, active: set<string>, now: int)
    requires Distinct(items)
    ensures Distinct(Candidates(items, active, now))
  {
    if items != [] {
      CandidatesDistinct(items[1..], active, now);
      forall x | x in Candidates(items[1..], active, now) ensures x.id != items[0].id {
        CandidateMembers(items[1..], active, now, x);
      }
    }
  }

  /** The candidates that stay have the total size of the newest ones. */
  lemma RemainingSize(items: seq<Item>, active: set<string>, now: int, max: nat)
    requires Distinct(items)
    ensures var sorted := Oldest(Candidates(items, active, now));
            Size(Candidates(AfterCleanup(items, active, now, max), active, now)) ==
              Size(sorted[Evictions(sorted, max)..])
  {
    var candidates := Candidates(items, active, now);
    var sorted := Oldest(candidates);
    var doomed, evicted := DoomedIds(items, active, now), EvictedIds(items, active, now, max);
    CandidatesAfterDrop(items, active, now, doomed + evicted);
    DropTwice(candidates, doomed, evicted);
    forall i | 0 <= i < |candidates| ensures candidates[i].id !in doomed {
      CandidateMembers(items, active, now, candidates[i]);
      DoomedMembers(items, active, now, candidates[i]);
    }
    DropNothing(candidates, doomed);
    OldestSize(candidates, evicted);
    CandidatesDistinct(items, active, now);
    OldestDistinct(candidates);
    DropPrefix(sorted, Evictions(sorted, max));
  }

  /** After every cleanup the finished temporary recordings fit the quota. */
  lemma QuotaHolds(items: seq<Item>, active: set<string>, now: int, max: nat)
    requires Distinct(items)
    ensures Size(Candidates(AfterCleanup(items, active, now, max), active, now)) <= max
  {
    RemainingSize(items, active, now, max);
    EvictionsAreLeast(Oldest(Candidates(items, active, now)), max);
  }

  /** Removed for the quota alone. */
  predicate Evicted(items: seq<Item>, active: set<string>, now: int, max: nat, x: Item)
  {
    x in items && Evictable(active, now, x) && x !in AfterCleanup(items, active, now, max)
  }

  lemma EvictedPosition(items: seq<Item>, active: set<string>, now: int, max: nat, x: Item) returns (i: nat)
    requires Distinct(items) && x in items && Evictable(active, now, x)
    ensures var sorted := Oldest(Candidates(items, active, now));
            i < |sorted| && sorted[i] == x && (Evicted(items, active, now, max, x) <==> i < Evictions(sorted, max))
  {
    var candidates := Candidates(items, active, now);
    var sorted := Oldest(candidates);
    var k := Evictions(sorted, max);
    CandidateMembers(items, active, now, x);
    OldestMembers(candidates, x);
    CandidatesDistinct(items, active, now);
    OldestDistinct(candidates);
    i :| 0 <= i < |sorted| && sorted[i] == x;
    DropMembers(items, DoomedIds(items, active, now) + EvictedIds(items, active, now, max), x);
    DoomedMembers(items, active, now, x);
    assert x.id in Ids(sorted[..k]) <==> i < k by {
      if i < k {
        assert sorted[..k][i].id == x.id;
      }
    }
  }

  /** The survivors are the newest. */
  lemma NewestSurvive(items: seq<Item>, active: set<string>, now: int, max: nat, gone: Item, kept: Item)
    requires Distinct(items) && Evicted(items, active, now, max, gone)
    requires kept in items && Evictable(active, now, kept) && !Evicted(items, active, now, max, kept)
    ensures gone.created <= kept.created
  {
    var i := EvictedPosition(items, active, now, max, gone);
    var j := EvictedPosition(items, active, now, max, kept);
    OldestAscending(Candidates(items, active, now));
  }

  /** No eviction is unneeded: with the newest evicted recording the quota would have been exceeded. */
  lemma EvictionWasNeeded(items: seq<Item>, active: set<string>, now: int, max: nat, gone: Item) returns (last: Item)
    requires Distinct(items) && Evicted(items, active, now, max, gone)
    ensures Evicted(items, active, now, max, last) && gone.created <= last.created
    ensures last.size + Size(Candidates(AfterCleanup(items, active, now, max), active, now)) > max
  {
    var candidates := Candidates(items, active, now);
    var sorted := Oldest(candidates);
    var k := Evictions(sorted, max);
    var i := EvictedPosition(items, active, now, max, gone);
    last := sorted[k - 1];
    OldestMembers(candidates, last);
    CandidateMembers(items, active, now, last);
    var j := EvictedPosition(items, active, now, max, last);
    CandidatesDistinct(items, active, now);
    OldestDistinct(candidates);
    OldestAscending(candidates);
    RemainingSize(items, active, now, max);
    EvictionsAreLeast(sorted, max);
    assert sorted[k - 1..][1..] == sorted[k..];
  }

  /** A cleanup removes exactly the doomed and the evicted; an active or a finished regular recording is neither. */
  lemma RemovedExactly(items: seq<Item>, active: set<string>, now: int, max: nat, x: Item)
    requires Distinct(items) && x in items
    ensures x !in AfterCleanup(items, active, now, max) <==>
            Doomed(active, now, x) || Evicted(items, active, now, max, x)
    ensures x.id in active || (!x.temporary && x.state.Finished?) ==> x in AfterCleanup(items, active, now, max)
  {
    var candidates := Candidates(items, active, now);
    var sorted := Oldest(candidates);
    var doomed, evicted := DoomedIds(items, active, now), EvictedIds(items, active, now, max);
    DropMembers(items, doomed + evicted, x);
    DoomedMembers(items, active, now, x);
    if x.id in evicted {
      var i :| 0 <= i < Evictions(sorted, max) && sorted[..Evictions(sorted, max)][i].id == x.id;
      OldestMembers(candidates, sorted[i]);
      CandidateMembers(items, active, now, sorted[i]);
      SameId(items, sorted[i], x);
    }
  }

  lemma SameId(items: seq<Item>, x: Item, y: Item)
    requires Distinct(items) && x in items && y in items && x.id == y.id
    ensures x == y
  {
    var i :| 0 <= i < |items| && items[i] == x;
    var j :| 0 <= j < |items| && items[j] == y;
  }
}
