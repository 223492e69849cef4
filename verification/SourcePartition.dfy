/**
 * Reading a large source in overlapping parts (the loop of `prepareGenerationContext` in
 * engine/src/generation-context.ts). `fits` says whether the request for a part stays within the input limit.
 */
module SourcePartition {

  /** A part is `text[offset..offset + size]`. */
  datatype Cut = Cut(offset: nat, size: nat)

  function Max(a: int, b: int): int { if a >= b then a else b }
  function Min(a: int, b: int): int { if a <= b then a else b }

  /** Half of the input limit less a reserve of 512 tokens, and never below 128 characters. */
  function ChunkSize(inputLimit: int): (size: nat)
    ensures size >= 128 && 2 * size + 512 >= inputLimit - 1
    ensures size > 128 ==> 2 * size + 512 <= inputLimit
  {
    Max(128, (inputLimit - 512) / 2)
  }

  /** How many characters a part that is not the last shares with the next one. */
  function Overlap(size: nat): nat { Min(160, size / 4) }

  function Advance(size: nat): int { Max(1, size - Overlap(size)) }

  function PartOf(text: string, c: Cut): string
    requires c.offset + c.size <= |text|
  {
    text[c.offset..c.offset + c.size]
  }

  predicate Inside(text: string, c: Cut) { 0 < c.size && c.offset + c.size <= |text| }

  /** The part fits, or is one character; it was made smaller only because a part twice as long did not fit. */
  predicate RightSize(text: string, chunk: nat, fits: string -> bool, c: Cut)
    requires Inside(text, c)
  {
    && (c.size == 1 || fits(PartOf(text, c)))
    && c.size <= chunk
    && (c.size == Min(chunk, |text| - c.offset) || TooLong(text, fits, c.offset, 2 * c.size)
        || TooLong(text, fits, c.offset, 2 * c.size + 1))
  }

  predicate TooLong(text: string, fits: string -> bool, offset: nat, size: nat)
  {
    offset + size <= |text| && !fits(text[offset..offset + size])
  }

  predicate EndsWith(text: string, c: Cut) { c.offset + c.size == |text| }

  /** Where the loop goes on after a cut. */
  function Next(text: string, c: Cut): nat { c.offset + if EndsWith(text, c) then c.size else Advance(c.size) }

  /** The cuts start at 0, each one starts where the one before leads to, and the last one leads to `reach`. */
  predicate Chain(text: string, cuts: seq<Cut>, reach: nat)
  {
    && (forall i :: 0 <= i < |cuts| ==> Inside(text, cuts[i]))
    && (forall i :: 0 <= i < |cuts| - 1 ==> Next(text, cuts[i]) == cuts[i + 1].offset)
    && (cuts != [] ==> Next(text, cuts[|cuts| - 1]) == reach)
    && (if cuts == [] then reach == 0 else cuts[0].offset == 0)
  }

  /** The parts are the texts of the cuts, each of the right size. */
  predicate Cuts(text: string, chunk: nat, fits: string -> bool, cuts: seq<Cut>, parts: seq<string>)
  {
    && |parts| == |cuts|
    && forall i :: 0 <= i < |cuts| ==>
         Inside(text, cuts[i]) && parts[i] == PartOf(text, cuts[i]) && RightSize(text, chunk, fits, cuts[i])
  }

  lemma AdvanceIsPositive(size: nat)
    requires size > 0
    ensures Advance(size) == size - Overlap(size) && 0 < Advance(size) <= size
  {
  }

  /** The inner loop: halve until the request fits or one character is left. */
  method FitSize(text: string, chunk: nat, fits: string -> bool, offset: nat) returns (size: nat)
    requires offset < |text| && chunk > 0
    ensures Inside(text, Cut(offset, size)) && RightSize(text, chunk, fits, Cut(offset, size))
  {
    size := Min(chunk, |text| - offset);
    while size > 1 && !fits(text[offset..offset + size])
      invariant 0 < size <= Min(chunk, |text| - offset)
      invariant size == Min(chunk, |text| - offset) || TooLong(text, fits, offset, 2 * size)
                || TooLong(text, fits, offset, 2 * size + 1)
    {
      assert 2 * (size / 2) == size || 2 * (size / 2) + 1 == size;
      size := size / 2;
    }
  }

  /** The parts of one source text. The size is never below one, so the limit error is never raised. */
  method Partition(text: string, inputLimit: int, fits: string -> bool) returns (parts: seq<string>)
    ensures exists cuts :: Chain(text, cuts, |text|) && Cuts(text, ChunkSize(inputLimit), fits, cuts, parts)
  {
    parts := [];
    ghost var cuts := [];
    var offset, chunk := 0, ChunkSize(inputLimit);
    while offset < |text|
      invariant Chain(text, cuts, offset) && offset <= |text|
      invariant Cuts(text, chunk, fits, cuts, parts)
      decreases |text| - offset
    {
      var size := FitSize(text, chunk, fits, offset);
      ExtendChain(text, cuts, Cut(offset, size));
      parts := parts + [text[offset..offset + size]];
      cuts := cuts + [Cut(offset, size)];
      offset := offset + if size == |text| - offset then size else Max(1, size - Min(160, size / 4));
    }
  }

  lemma ExtendChain(text: string, cuts: seq<Cut>, c: Cut)
    requires Chain(text, cuts, c.offset) && Inside(text, c)
    ensures Chain(text, cuts + [c], Next(text, c)) && c.offset < Next(text, c) <= |text|
  {
    AdvanceIsPositive(c.size);
    var all := cuts + [c];
    assert forall i :: 0 <= i < |cuts| ==> all[i] == cuts[i];
  }
}
