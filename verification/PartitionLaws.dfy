/** The overlapping parts lose nothing: they rebuild the text, and every short window is whole in some part. */
module PartitionLaws {
  import opened SourcePartition

  /** Exactly the last cut ends with the text. */
  lemma OnlyLastEnds(text: string, cuts: seq<Cut>, i: nat)
    requires Chain(text, cuts, |text|) && i < |cuts|
    ensures EndsWith(text, cuts[i]) <==> i == |cuts| - 1
    ensures i < |cuts| - 1 ==> cuts[i + 1].offset == cuts[i].offset + cuts[i].size - Overlap(cuts[i].size)
  {
    var c := cuts[i];
    assert Inside(text, c);
    AdvanceIsPositive(c.size);
    if i < |cuts| - 1 {
      assert Inside(text, cuts[i + 1]) && Next(text, c) == cuts[i + 1].offset;
    } else {
      assert Next(text, c) == |text|;
    }
  }

  /** The text read back from its parts alone: of every part but the last, what the next one does not repeat. */
  function Rejoin(parts: seq<string>): string
  {
    if parts == [] then ""
    else if |parts| == 1 then parts[0]
    else parts[0][..|parts[0]| - Overlap(|parts[0]|)] + Rejoin(parts[1..])
  }

  lemma {:induction false} RejoinFrom(text: string, cuts: seq<Cut>, parts: seq<string>, k: nat)
    requires Chain(text, cuts, |text|) && k < |cuts| == |parts|
    requires forall i :: 0 <= i < |cuts| ==> parts[i] == PartOf(text, cuts[i])
    ensures Rejoin(parts[k..]) == text[cuts[k].offset..]
    decreases |cuts| - k
  {
    OnlyLastEnds(text, cuts, k);
    var rest, c := parts[k..], cuts[k];
    assert rest[0] == parts[k] == PartOf(text, c);
    if k == |cuts| - 1 {
      assert text[c.offset..] == PartOf(text, c);
    } else {
      RejoinFrom(text, cuts, parts, k + 1);
      assert rest[1..] == parts[k + 1..];
      var next := cuts[k + 1].offset;
      assert PartOf(text, c)[..c.size - Overlap(c.size)] == text[c.offset..next];
      assert text[c.offset..next] + text[next..] == text[c.offset..];
    }
  }

  /** No character is lost, repeated or reordered: the parts determine the text. */
  lemma PartsRebuildText(text: string, chunk: nat, fits: string -> bool, cuts: seq<Cut>, parts: seq<string>)
    requires Chain(text, cuts, |text|) && Cuts(text, chunk, fits, cuts, parts)
    ensures Rejoin(parts) == text
  {
    if cuts == [] {
      assert text == "";
    } else {
      RejoinFrom(text, cuts, parts, 0);
      assert parts[0..] == parts && text[0..] == text;
    }
  }

  /** The last cut that starts at or before `a`. */
  lemma {:induction false} LastCutBefore(text: string, cuts: seq<Cut>, a: nat, n: nat) returns (k: nat)
    requires Chain(text, cuts, |text|) && 0 < n <= |cuts| && a < |text|
    ensures k < n && cuts[k].offset <= a && (k + 1 < n ==> a < cuts[k + 1].offset)
  {
    if n == 1 || cuts[n - 1].offset <= a {
      k := n - 1;
    } else {
      k := LastCutBefore(text, cuts, a, n - 1);
    }
  }

  /** Every window at most one longer than the smallest overlap lies whole in some part. */
  lemma WindowInSomePart(text: string, cuts: seq<Cut>, smallest: nat, a: nat, b: nat) returns (k: nat)
    requires Chain(text, cuts, |text|) && forall i :: 0 <= i < |cuts| - 1 ==> Overlap(cuts[i].size) >= smallest
    requires a < b <= |text| && b - a <= smallest + 1
    ensures k < |cuts| && cuts[k].offset <= a && b <= cuts[k].offset + cuts[k].size
    ensures PartOf(text, cuts[k])[a - cuts[k].offset..b - cuts[k].offset] == text[a..b]
  {
    k := LastCutBefore(text, cuts, a, |cuts|);
    OnlyLastEnds(text, cuts, k);
    var c := cuts[k];
    assert Inside(text, c);
    SliceOfSlice(text, c.offset, c.offset + c.size, a, b);
  }

  lemma SliceOfSlice(text: string, low: nat, high: nat, a: nat, b: nat)
    requires low <= a <= b <= high <= |text|
    ensures text[low..high][a - low..b - low] == text[a..b]
  {
    var part := text[low..high];
    assert |part[a - low..b - low]| == |text[a..b]|;
    forall i | 0 <= i < b - a ensures part[a - low..b - low][i] == text[a..b][i] {
      assert part[a - low + i] == text[a + i];
    }
  }
}
