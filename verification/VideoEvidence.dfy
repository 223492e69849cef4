/** The video evidence store (engine/src/video-evidence.ts), with the directory of manifests as a list. */
module VideoEvidence {
  import opened VideoCleanup

  const RECORDING_LIMIT: nat := 128 * 1048576

  // ---------------------------------------------------------------- regular storage

  /** Bytes of regular recordings. */
  function RegularUsed(items: seq<Item>): nat
  {
    if items == [] then 0 else (if items[0].temporary then 0 else items[0].size) + RegularUsed(items[1..])
  }

  /** How many regular recordings are active. */
  function ActiveRegular(items: seq<Item>, active: set<string>): nat
  {
    if items == [] then 0
    else (if !items[0].temporary && items[0].id in active then 1 else 0) + ActiveRegular(items[1..], active)
  }

  /** What an item uses now, plus what it may still add while it is active. */
  function Cost(item: Item, active: set<string>): nat
  {
    if item.temporary then 0 else item.size + if item.id in active then RECORDING_LIMIT else 0
  }

  function Load(items: seq<Item>, active: set<string>): nat
  {
    if items == [] then 0 else Cost(items[0], active) + Load(items[1..], active)
  }

  lemma {:induction false} LoadSplits(items: seq<Item>, active: set<string>)
    ensures Load(items, active) == RegularUsed(items) + RECORDING_LIMIT * ActiveRegular(items, active)
  {
    if items != [] {
      LoadSplits(items[1..], active);
    }
  }

  lemma {:induction false} DropLightens(items: seq<Item>, active: set<string>, gone: set<string>)
    ensures Load(Drop(items, gone), active) <= Load(items, active)
    ensures ActiveRegular(Drop(items, gone), active) <= ActiveRegular(items, active)
  {
    if items != [] {
      DropLightens(items[1..], active, gone);
      if items[0].id in gone {
        assert Drop(items, gone) == Drop(items[1..], gone);
      } else {
        assert Drop(items, gone)[1..] == Drop(items[1..], gone);
      }
    }
  }

  /** The manifest of `item` is overwritten. */
  function Replace(items: seq<Item>, item: Item): seq<Item>
  {
    if items == [] then [] else [if items[0].id == item.id then item else items[0]] + Replace(items[1..], item)
  }

  lemma {:induction false} ReplaceMembers(items: seq<Item>, item: Item)
    ensures |Replace(items, item)| == |items|
    ensures forall i :: 0 <= i < |items| ==>
            Replace(items, item)[i] == if items[i].id == item.id then item else items[i]
  {
    if items != [] {
      ReplaceMembers(items[1..], item);
    }
  }

  /** Finishing the recording `id` never raises the load: at most the limit takes the place of the limit. */
  lemma {:induction false} FinishLightens(items: seq<Item>, active: set<string>, item: Item)
    requires item.id in active && item.size <= RECORDING_LIMIT
    requires forall i :: 0 <= i < |items| && items[i].id == item.id ==> items[i].temporary == item.temporary
    ensures Load(Replace(items, item), active - {item.id}) <= Load(items, active)
    ensures ActiveRegular(Replace(items, item), active - {item.id}) <= ActiveRegular(items, active)
  {
    if items != [] {
      FinishLightens(items[1..], active, item);
      assert Replace(items, item)[1..] == Replace(items[1..], item);
    }
  }

  lemma {:induction false} DeactivateLightens(items: seq<Item>, active: set<string>, id: string)
    ensures Load(items, active - {id}) <= Load(items, active)
    ensures ActiveRegular(items, active - {id}) <= ActiveRegular(items, active)
  {
    if items != [] {
      DeactivateLightens(items[1..], active, id);
    }
  }

  lemma {:induction false} BeginAdds(items: seq<Item>, active: set<string>, item: Item)
    requires item.size == 0 && forall i :: 0 <= i < |items| ==> items[i].id != item.id
    ensures RegularUsed(items + [item]) == RegularUsed(items)
    ensures ActiveRegular(items + [item], active + {item.id}) ==
            ActiveRegular(items, active) + if item.temporary then 0 else 1
  {
    if items == [] {
      assert items + [item] == [item];
    } else {
      assert (items + [item])[1..] == items[1..] + [item];
      BeginAdds(items[1..], active, item);
    }
  }

  /**
   * Regular storage and what active recordings may add stay within the larger of the start and quota plus `peak`
   * limits.
   */
  predicate Bounded(items: seq<Item>, active: set<string>, regularMax: nat, initial: nat, peak: nat)
  {
    && ActiveRegular(items, active) <= peak
    && (Load(items, active) <= initial || Load(items, active) < regularMax + RECORDING_LIMIT * peak)
  }

  /** Regular storage that started empty stays below the quota plus one limit per recording ever active at once. */
  lemma RegularStorageBound(items: seq<Item>, active: set<string>, regularMax: nat, peak: nat)
    requires Bounded(items, active, regularMax, 0, peak)
    ensures RegularUsed(items) == 0 || RegularUsed(items) < regularMax + RECORDING_LIMIT * peak
  {
    LoadSplits(items, active);
  }

  // ---------------------------------------------------------------- cleanup, item by item

  lemma {:induction false} CandidatesAppend(items: seq<Item>, active: set<string>, now: int, item: Item)
    ensures Candidates(items + [item], active, now) ==
            Candidates(items, active, now) + if Evictable(active, now, item) then [item] else []
  {
    if items == [] {
      assert items + [item] == [item];
    } else {
      var first := if Evictable(active, now, items[0]) then [items[0]] else [];
      var last := if Evictable(active, now, item) then [item] else [];
      var rest := Candidates(items[1..], active, now);
      assert (items + [item])[0] == items[0] && (items + [item])[1..] == items[1..] + [item];
      CandidatesAppend(items[1..], active, now, item);
      assert first + (rest + last) == (first + rest) + last;
    }
  }

  lemma {:induction false} DoomedAppend(items: seq<Item>, active: set<string>, now: int, item: Item)
    ensures DoomedIds(items + [item], active, now) ==
            DoomedIds(items, active, now) + if Doomed(active, now, item) then {item.id} else {}
  {
    if items == [] {
      assert items + [item] == [item];
    } else {
      assert (items + [item])[1..] == items[1..] + [item];
      DoomedAppend(items[1..], active, now, item);
    }
  }

  method Sweep(items: seq<Item>, active: set<string>, now: int) returns (gone: set<string>, finished: seq<Item>)
    ensures gone == DoomedIds(items, active, now) && finished == Candidates(items, active, now)
  {
    gone, finished := {}, [];
    for i := 0 to |items|
      invariant gone == DoomedIds(items[..i], active, now) && finished == Candidates(items[..i], active, now)
    {
      var item := items[i];
      assert items[..i + 1] == items[..i] + [item];
      CandidatesAppend(items[..i], active, now, item);
      DoomedAppend(items[..i], active, now, item);
      if item.id !in active {
        var orphan := item.state.Recording? && now - item.created > 3600000;
        if orphan || (item.temporary && item.expires <= now) {
          gone := gone + {item.id};
        } else if item.temporary && item.state.Finished? {
          finished := finished + [item];
        }
      }
    }
    assert items[..|items|] == items;
  }

  /** Removes the oldest until the rest fits. */
  method Evict(sorted: seq<Item>, max: nat) returns (gone: set<string>)
    ensures gone == Ids(sorted[..Evictions(sorted, max)])
  {
    gone := {};
    var total, i := Size(sorted), 0;
    assert sorted[0..] == sorted && Ids(sorted[..0]) == {};
    while i < |sorted| && total > max
      invariant i <= |sorted| && total == Size(sorted[i..])
      invariant Evictions(sorted, max) == i + Evictions(sorted[i..], max)
      invariant gone == Ids(sorted[..i])
    {
      assert sorted[i..][1..] == sorted[i + 1..];
      IdsAppend(sorted, i);
      gone, total, i := gone + {sorted[i].id}, total - sorted[i].size, i + 1;
    }
  }

  lemma IdsAppend(items: seq<Item>, i: nat)
    requires i < |items|
    ensures Ids(items[..i + 1]) == Ids(items[..i]) + {items[i].id}
  {
    var a, b := items[..i], items[..i + 1];
    assert b == a + [items[i]];
    forall id ensures id in Ids(b) <==> id in Ids(a) + {items[i].id} {
      if id in Ids(a) {
        var k :| 0 <= k < |a| && a[k].id == id;
        assert b[k].id == id;
      }
      if id in Ids(b) {
        var k :| 0 <= k < |b| && b[k].id == id;
        assert k < i ==> a[k] == b[k];
      }
      assert b[i].id == items[i].id;
    }
  }

  // ---------------------------------------------------------------- the store

  datatype Started = ReserveReached | QuotaReached | Started(item: Item)

  function Sum(sizes: seq<nat>): nat { if sizes == [] then 0 else sizes[0] + Sum(sizes[1..]) }

  /** A recording with 1 to 100 videos of 1 byte to 128 MiB in all. */
  predicate Acceptable(sizes: seq<nat>)
  {
    1 <= |sizes| <= 100 && 1 <= Sum(sizes) <= RECORDING_LIMIT
  }

  predicate AllRecording(items: seq<Item>, active: set<string>)
  {
    forall i :: 0 <= i < |items| && items[i].id in active ==> items[i].state.Recording?
  }

  const HEX_OR_DASH: set<char> :=
    {'0', '1', '2', '3', '4', '5', '6', '7', '8', '9', 'a', 'b', 'c', 'd', 'e', 'f', '-'}

  lemma HexOrDash(c: char)
    ensures c in HEX_OR_DASH <==> 'a' <= c <= 'f' || '0' <= c <= '9' || c == '-'
  {
  }

  lemma RecordingIdExactly(id: string)
    ensures IsRecordingId(id) <==> |id| == 36 && forall c :: c in id ==> c in HEX_OR_DASH
  {
    if IsRecordingId(id) {
      forall c | c in id ensures c in HEX_OR_DASH {
        var i :| 0 <= i < |id| && id[i] == c;
        HexOrDash(c);
      }
    }
    if forall c :: c in id ==> c in HEX_OR_DASH {
      forall i | 0 <= i < |id| ensures 'a' <= id[i] <= 'f' || '0' <= id[i] <= '9' || id[i] == '-' {
        HexOrDash(id[i]);
      }
    }
  }

  class VideoEvidenceStore {
    const ttl: int
    const dryRunMax: nat
    const reserve: nat
    const regularMax: nat
    var active: set<string>
    var manifests: seq<Item>
    /** Regular bytes at the start, and the most regular recordings ever active at once. */
    ghost const initial: nat
    ghost var peak: nat

    ghost predicate Valid()
      reads this
    {
      Distinct(manifests) && AllRecording(manifests, active) && Bounded(manifests, active, regularMax, initial, peak)
    }

    constructor (ttl: int, dryRunMax: nat, reserve: nat, regularMax: nat, manifests: seq<Item>)
      requires Distinct(manifests)
      ensures Valid() && active == {} && this.manifests == manifests && peak == 0
      ensures initial == RegularUsed(manifests) && this.regularMax == regularMax && this.dryRunMax == dryRunMax
      ensures this.ttl == ttl && this.reserve == reserve
    {
      this.ttl, this.dryRunMax, this.reserve, this.regularMax := ttl, dryRunMax, reserve, regularMax;
      this.active, this.manifests, this.peak, this.initial := {}, manifests, 0, RegularUsed(manifests);
      new;
      LoadSplits(manifests, {});
      NoneActive(manifests);
    }

    /** `cleanup(now)`. */
    method Cleanup(now: int)
      requires Valid()
      modifies this`manifests
      ensures Valid()
      ensures manifests == AfterCleanup(old(manifests), active, now, dryRunMax)
    {
      var gone, finished := Sweep(manifests, active, now);
      var evicted := Evict(Oldest(finished), dryRunMax);
      CleanupKeeps(manifests, active, gone + evicted);
      manifests := Drop(manifests, gone + evicted);
    }

    /** `begin(temporary)`, with the free disk space and a new id. */
    method Begin(temporary: bool, now: int, free: nat, id: string) returns (r: Started)
      requires Valid() && id !in active && forall i :: 0 <= i < |manifests| ==> manifests[i].id != id
      modifies this
      ensures Valid()
      ensures var kept := AfterCleanup(old(manifests), old(active), now, dryRunMax);
              && (r.ReserveReached? <==> free < reserve + RECORDING_LIMIT)
              && (r.QuotaReached? <==>
                  free >= reserve + RECORDING_LIMIT && !temporary && RegularUsed(kept) >= regularMax)
              && (r.Started? ==> r.item == Item(id, Recording, temporary, if temporary then now + ttl else 0, now, 0))
              && manifests == (if r.Started? then kept + [r.item] else kept)
              && active == (if r.Started? then old(active) + {id} else old(active))
              && peak == (if r.Started? then MaxNat(old(peak), ActiveRegular(manifests, active)) else old(peak))
    {
      Cleanup(now);
      NothingNew(old(manifests),
                 DoomedIds(old(manifests), active, now) + EvictedIds(old(manifests), active, now, dryRunMax), id);
      if free < reserve + RECORDING_LIMIT {
        return ReserveReached;
      }
      if !temporary && RegularUsed(manifests) >= regularMax {
        return QuotaReached;
      }
      var item := Item(id, Recording, temporary, if temporary then now + ttl else 0, now, 0);
      BeginKeeps(manifests, active, regularMax, initial, peak, item);
      manifests, active := manifests + [item], active + {id};
      peak := MaxNat(peak, ActiveRegular(manifests, active));
      r := Started(item);
    }

    /** `finish(recording)` with the sizes of its videos: whether a reference is returned. */
    method Finish(recording: Item, sizes: seq<nat>, now: int) returns (kept: bool)
      requires Valid() && recording in manifests && recording.id in active
      modifies this
      ensures Valid() && active == old(active) - {recording.id} && peak == old(peak)
      ensures var done := recording.(state := Finished, size := Sum(sizes),
                                     expires := if recording.temporary then now + ttl else 0);
              && manifests ==
                 (if Acceptable(sizes) then AfterCleanup(Replace(old(manifests), done), active, now, dryRunMax)
                  else Drop(old(manifests), {recording.id}))
              && (kept <==> Acceptable(sizes) && done in manifests)
    {
      ghost var before := manifests;
      active := active - {recording.id};
      if |sizes| == 0 || |sizes| > 100 || Sum(sizes) == 0 || Sum(sizes) > RECORDING_LIMIT {
        DeactivateLightens(manifests, active + {recording.id}, recording.id);
        assert active + {recording.id} - {recording.id} == active;
        assert active + {recording.id} == old(active);
        CleanupKeeps(manifests, active, {recording.id});
        manifests := Drop(manifests, {recording.id});
        return false;
      }
      var done := recording.(state := Finished, size := Sum(sizes),
                             expires := if recording.temporary then now + ttl else 0);
      FinishKeeps(manifests, old(active), recording, done);
      manifests := Replace(manifests, done);
      Cleanup(now);
      kept := done in manifests;
    }

    /** `deleteTemporary(id)`. */
    method DeleteTemporary(id: string) returns (ok: bool)
      requires Valid()
      modifies this`manifests
      ensures Valid()
      ensures ok <==> && |id| == 36 && (forall c :: c in id ==> c in HEX_OR_DASH) && id !in active
                      && forall i :: 0 <= i < |old(manifests)| && old(manifests)[i].id == id ==>
                        Removable(old(manifests)[i])
      ensures manifests == if ok then Drop(old(manifests), {id}) else old(manifests)
    {
      RecordingIdExactly(id);
      if !IsRecordingId(id) || id in active {
        return false;
      }
      for i := 0 to |manifests|
        invariant forall k :: 0 <= k < i && manifests[k].id == id ==> Removable(manifests[k])
        invariant manifests == old(manifests) && Valid()
      {
        if manifests[i].id == id && (!manifests[i].temporary || !manifests[i].state.Finished?) {
          return false;
        }
      }
      CleanupKeeps(manifests, active, {id});
      manifests := Drop(manifests, {id});
      ok := true;
    }
  }

  /** `/^[a-f0-9-]{36}$/`. */
  predicate IsRecordingId(id: string)
  {
    |id| == 36 && forall i :: 0 <= i < |id| ==> 'a' <= id[i] <= 'f' || '0' <= id[i] <= '9' || id[i] == '-'
  }

  predicate Removable(item: Item) { item.temporary && item.state.Finished? }

  function MaxNat(a: nat, b: nat): nat { if a >= b then a else b }

  // ---------------------------------------------------------------- the steps keep the bound

  lemma {:induction false} NoneActive(items: seq<Item>)
    ensures ActiveRegular(items, {}) == 0
  {
    if items != [] {
      NoneActive(items[1..]);
    }
  }

  lemma CleanupKeeps(items: seq<Item>, active: set<string>, gone: set<string>)
    requires Distinct(items) && AllRecording(items, active)
    ensures Distinct(Drop(items, gone)) && AllRecording(Drop(items, gone), active)
    ensures Load(Drop(items, gone), active) <= Load(items, active)
    ensures ActiveRegular(Drop(items, gone), active) <= ActiveRegular(items, active)
  {
    DropDistinct(items, gone);
    DropLightens(items, active, gone);
    var kept := Drop(items, gone);
    forall i | 0 <= i < |kept| && kept[i].id in active ensures kept[i].state.Recording? {
      DropMembers(items, gone, kept[i]);
    }
  }

  lemma NothingNew(items: seq<Item>, gone: set<string>, id: string)
    requires forall i :: 0 <= i < |items| ==> items[i].id != id
    ensures forall i :: 0 <= i < |Drop(items, gone)| ==> Drop(items, gone)[i].id != id
  {
    var kept := Drop(items, gone);
    forall i | 0 <= i < |kept| ensures kept[i].id != id {
      DropMembers(items, gone, kept[i]);
    }
  }

  lemma BeginKeeps(items: seq<Item>, active: set<string>, regularMax: nat, initial: nat, peak: nat, item: Item)
    requires Distinct(items) && AllRecording(items, active) && Bounded(items, active, regularMax, initial, peak)
    requires item.state.Recording? && item.size == 0 && forall i :: 0 <= i < |items| ==> items[i].id != item.id
    requires item.temporary || RegularUsed(items) < regularMax
    ensures Distinct(items + [item]) && AllRecording(items + [item], active + {item.id})
    ensures Bounded(items + [item], active + {item.id}, regularMax, initial,
                    MaxNat(peak, ActiveRegular(items + [item], active + {item.id})))
  {
    var all, active' := items + [item], active + {item.id};
    assert forall i :: 0 <= i < |items| ==> all[i] == items[i];
    BeginAdds(items, active, item);
    LoadSplits(items, active);
    LoadSplits(all, active');
    PeakCovers(regularMax, RegularUsed(items), ActiveRegular(items, active), ActiveRegular(all, active'), peak);
  }

  lemma PeakCovers(regularMax: nat, used: nat, before: nat, after: nat, peak: nat)
    requires before <= peak
    ensures used < regularMax ==> used + RECORDING_LIMIT * after < regularMax + RECORDING_LIMIT * MaxNat(peak, after)
    ensures RECORDING_LIMIT * peak <= RECORDING_LIMIT * MaxNat(peak, after)
  {
  }

  lemma FinishKeeps(items: seq<Item>, active: set<string>, recording: Item, done: Item)
    requires Distinct(items) && AllRecording(items, active) && recording in items && recording.id in active
    requires done.id == recording.id && done.temporary == recording.temporary && done.size <= RECORDING_LIMIT
    ensures Distinct(Replace(items, done)) && AllRecording(Replace(items, done), active - {done.id})
    ensures Load(Replace(items, done), active - {done.id}) <= Load(items, active)
    ensures ActiveRegular(Replace(items, done), active - {done.id}) <= ActiveRegular(items, active)
  {
    ReplaceMembers(items, done);
    forall i | 0 <= i < |items| && items[i].id == done.id ensures items[i].temporary == done.temporary {
      SameId(items, items[i], recording);
    }
    FinishLightens(items, active, done);
  }
}
