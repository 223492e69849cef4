/** The hashed stream determines its rows, and the verifier accepts what the printer produced and nothing else. */
module ManifestLaws {
  import opened Wrappers
  import opened TextOrder
  import opened ReleaseManifest

  // ---------------------------------------------------------------- reading a stream back

  /** Position of the first NUL, or the length. */
  function Nul(s: seq<Byte>): (k: nat)
    ensures k <= |s| && (k < |s| ==> s[k] == 0)
  {
    if s == [] || s[0] == 0 then 0 else 1 + Nul(s[1..])
  }

  /** The rows of a stream. */
  function Parse(s: seq<Byte>): Option<seq<Row>>
    decreases |s|
  {
    if s == [] then Some([])
    else
      var k := Nul(s);
      if k + 33 > |s| then None
      else
        var t := s[k + 33..];
        var l := Nul(t);
        if l == |t| then None
        else
          var rest := Parse(t[l + 1..]);
          if rest.None? then None
          else Some([Row(s[..k], Hex(s[k + 1..k + 33]), FromOctal(t[..l]))] + rest.value)
  }

  lemma {:induction false} NulAfter(a: seq<Byte>, tail: seq<Byte>)
    requires 0 !in a
    ensures Nul(a + [0] + tail) == |a|
  {
    if a == [] {
      assert (a + [0] + tail)[0] == 0;
    } else {
      assert (a + [0] + tail)[1..] == a[1..] + [0] + tail;
      NulAfter(a[1..], tail);
    }
  }

  lemma {:induction false} OctalRoundTrip(mode: nat)
    ensures FromOctal(OctalText(mode)) == mode && 0 !in OctalText(mode)
  {
    if mode >= 8 {
      OctalRoundTrip(mode / 8);
      assert OctalText(mode)[..|OctalText(mode)| - 1] == OctalText(mode / 8);
    }
  }

  lemma {:induction false} HexRoundTrip(s: string)
    requires IsHex(s) && |s| % 2 == 0
    ensures Hex(FromHex(s)) == s
  {
    if s != "" {
      var rest, first := s[2..], 16 * HexValue(s[0]) + HexValue(s[1]);
      HexRoundTrip(rest);
      assert FromHex(s) == [first] + FromHex(rest);
      assert first / 16 == HexValue(s[0]) && first % 16 == HexValue(s[1]);
      assert s == [s[0], s[1]] + rest;
    }
  }

  lemma {:induction false} FromHexRoundTrip(bytes: seq<Byte>)
    requires IsHex(Hex(bytes)) && |Hex(bytes)| % 2 == 0
    ensures FromHex(Hex(bytes)) == bytes
  {
    if bytes != [] {
      var h := Hex(bytes);
      assert h[2..] == Hex(bytes[1..]);
      HexIsChecksum(bytes[1..]);
      FromHexRoundTrip(bytes[1..]);
      HexDigitValue(bytes[0] / 16);
      HexDigitValue(bytes[0] % 16);
      assert h[0] == HexDigit(bytes[0] / 16) && h[1] == HexDigit(bytes[0] % 16);
      assert bytes == [bytes[0]] + bytes[1..];
    }
  }

  lemma HexDigitValue(n: int)
    requires 0 <= n < 16
    ensures IsHexDigit(HexDigit(n)) && HexValue(HexDigit(n)) == n
  {
  }

  /** Different hashes print differently. */
  lemma HexInjective(a: seq<Byte>, b: seq<Byte>)
    requires Hex(a) == Hex(b)
    ensures a == b
  {
    HexIsChecksum(a);
    HexIsChecksum(b);
    FromHexRoundTrip(a);
    FromHexRoundTrip(b);
  }

  lemma PartsReadBack(path: Path, hash: seq<Byte>, octal: seq<Byte>, tail: seq<Byte>, rest: seq<Row>)
    requires 0 !in path && |hash| == 32 && 0 !in octal && Parse(tail) == Some(rest)
    ensures Parse(path + [0] + hash + octal + [0] + tail) == Some([Row(path, Hex(hash), FromOctal(octal))] + rest)
  {
    var s, k := path + [0] + hash + octal + [0] + tail, |path|;
    Regroup(path, hash, octal, tail);
    NulAfter(path, hash + octal + [0] + tail);
    NulAfter(octal, tail);
    Slices(octal, tail);
  }

  lemma Regroup(path: Path, hash: seq<Byte>, octal: seq<Byte>, tail: seq<Byte>)
    requires |hash| == 32
    ensures var s, k := path + [0] + hash + octal + [0] + tail, |path|;
            && s == path + [0] + (hash + octal + [0] + tail)
            && s[..k] == path && s[k + 1..k + 33] == hash && s[k + 33..] == octal + [0] + tail
  {
  }

  lemma Slices(octal: seq<Byte>, tail: seq<Byte>)
    ensures var t := octal + [0] + tail; t[..|octal|] == octal && t[|octal| + 1..] == tail
  {
  }

  lemma RowReadsBack(row: Row, tail: seq<Byte>, rest: seq<Row>)
    requires Printable(row) && Parse(tail) == Some(rest)
    ensures Parse(RowBytes(row) + tail) == Some([row] + rest)
  {
    HexRoundTrip(row.sha256);
    OctalRoundTrip(row.mode);
    PartsReadBack(row.path, FromHex(row.sha256), OctalText(row.mode), tail, rest);
  }

  lemma {:induction false} ConcatFront<T>(show: T -> seq<Byte>, items: seq<T>)
    requires items != []
    ensures Concat(show, items) == show(items[0]) + Concat(show, items[1..])
    decreases |items|
  {
    var n := |items| - 1;
    if n > 0 {
      ConcatFront(show, items[..n]);
      assert items[..n][1..] == items[1..][..n - 1];
      assert items[..n][0] == items[0] && items[1..][n - 1] == items[n];
    } else {
      assert items[..0] == [] && items[1..] == [];
    }
  }

  /** `parse` undoes one `show` at the front of any text it can read. */
  ghost predicate Undoes<T(!new)>(parse: seq<Byte> -> Option<seq<T>>, show: T -> seq<Byte>, item: T)
  {
    forall tail, rest :: parse(tail) == Some(rest) ==> parse(show(item) + tail) == Some([item] + rest)
  }

  lemma {:induction false} ConcatReadsBack<T(!new)>(parse: seq<Byte> -> Option<seq<T>>, show: T -> seq<Byte>,
                                                    items: seq<T>)
    requires parse([]) == Some([]) && forall i :: 0 <= i < |items| ==> Undoes(parse, show, items[i])
    ensures parse(Concat(show, items)) == Some(items)
    decreases |items|
  {
    if items != [] {
      ConcatReadsBack(parse, show, items[1..]);
      ConcatFront(show, items);
      assert Undoes(parse, show, items[0]);
      assert items == [items[0]] + items[1..];
    }
  }

  /** Reading back the stream of any rows gives those rows. */
  lemma StreamReadsBack(rows: seq<Row>)
    requires AllPrintable(rows)
    ensures Parse(Stream(rows)) == Some(rows)
  {
    forall i | 0 <= i < |rows| ensures Undoes(Parse, RowBytes, rows[i]) {
      forall tail, rest | Parse(tail) == Some(rest) ensures Parse(RowBytes(rows[i]) + tail) == Some([rows[i]] + rest) {
        RowReadsBack(rows[i], tail, rest);
      }
    }
    ConcatReadsBack(Parse, RowBytes, rows);
  }

  /** The hashed stream is injective in its rows. */
  lemma StreamInjective(a: seq<Row>, b: seq<Row>)
    requires AllPrintable(a) && AllPrintable(b) && Stream(a) == Stream(b)
    ensures a == b
  {
    StreamReadsBack(a);
    StreamReadsBack(b);
  }

  // ---------------------------------------------------------------- the printer's manifest

  function Produced(sha: Hash, tree: Tree, version: string): Manifest
    requires AllPrintable(RowsFor(sha, tree, |tree.listed|))
  {
    var rows := RowsFor(sha, tree, |tree.listed|);
    Manifest(1, version, Digest(sha, Stream(rows)), Some(rows))
  }

  /** A manifest is accepted on the tree it was produced for. */
  lemma ProducedIsAccepted(sha: Hash, tree: Tree, version: string)
    requires IsHash(sha) && Walked(tree)
    ensures AllPrintable(RowsFor(sha, tree, |tree.listed|)) && Matches(sha, tree, Produced(sha, tree, version))
  {
    var rows := RowsFor(sha, tree, |tree.listed|);
    RowsArePrintable(sha, tree, |tree.listed|);
    forall i | 0 <= i < |rows| ensures RowAccepted(sha, tree, rows, i) {
    }
    forall i | 0 <= i < |rows| ensures PathOf(rows[i]) == tree.listed[i] && Records(rows, tree.listed[i]) {
    }
  }

  // ---------------------------------------------------------------- sorted listings

  lemma ByteOrder()
    ensures Order(CompareByte) && Strict(CompareByte)
  {
  }

  /** The order of the rows: the first byte in which two paths differ decides, and a prefix comes first. */
  lemma BeforeExactly(a: Path, b: Path)
    ensures Before(a, b) <==>
            exists k :: 0 <= k <= |a| && k <= |b| && a[..k] == b[..k]
                        && if k < |a| && k < |b| then a[k] < b[k] else k == |a| < |b|
  {
    ByteOrder();
    if Before(a, b) {
      var k := LexFindsDifference(CompareByte, a, b);
    }
    if k :| 0 <= k <= |a| && k <= |b| && a[..k] == b[..k]
            && if k < |a| && k < |b| then a[k] < b[k] else k == |a| < |b| {
      DifferenceDecidesLex(CompareByte, a, b, k);
    }
  }

  /** `part` is a whole component of the path, between slashes or its ends. */
  predicate HasComponent(path: Path, part: Path)
  {
    exists i :: 0 <= i <= |path| - |part| && IsComponentAt(path, part, i)
  }

  predicate IsComponentAt(path: Path, part: Path, i: nat)
    requires i + |part| <= |path|
  {
    var slash: Byte := 47;
    && path[i..i + |part|] == part
    && (path[..i] == [] || path[..i][i - 1] == slash)
    && (path[i + |part|..] == [] || path[i + |part|..][0] == slash)
  }

  /** A path is refused exactly when it is absolute or goes up somewhere. */
  lemma EscapesExactly(path: Path)
    ensures Escapes(path) <==> Ascii("/") <= path || HasComponent(path, Ascii(".."))
  {
    assert Ascii("/") == [47] && Ascii("..") == [46, 46];
    assert [47] <= path <==> path != [] && path[0] == 47;
    forall i | 0 <= i <= |path| - 2 ensures DotDotAt(path, i) <==> IsComponentAt(path, [46, 46], i) {
      assert path[i..i + 2] == [path[i], path[i + 1]];
    }
  }

  lemma BeforeTransitive(a: Path, b: Path, c: Path)
    requires Before(a, b) && Before(b, c)
    ensures Before(a, c)
  {
    ByteOrder();
    LexTransitive(CompareByte, a, b, c);
    LexZero(CompareByte, a, c);
    LexFlips(CompareByte, a, b);
  }

  lemma BeforeIrreflexive(a: Path)
    ensures !Before(a, a)
  {
    ByteOrder();
    LexZero(CompareByte, a, a);
  }

  lemma {:induction false} ChainIsSorted(sha: Hash, tree: Tree, rows: seq<Row>, i: nat, j: nat)
    requires RowsAccepted(sha, tree, rows, |rows|) && i < j < |rows|
    ensures Before(PathOf(rows[i]), PathOf(rows[j]))
    decreases j
  {
    assert RowAccepted(sha, tree, rows, j);
    if i < j - 1 {
      ChainIsSorted(sha, tree, rows, i, j - 1);
      BeforeTransitive(PathOf(rows[i]), PathOf(rows[j - 1]), PathOf(rows[j]));
    }
  }

  lemma FirstIn(a: seq<Path>)
    ensures a != [] ==> a[0] in a
  {
  }

  /** Two sorted listings of the same paths are the same listing. */
  lemma {:induction false} SortedUnique(a: seq<Path>, b: seq<Path>)
    requires Sorted(a) && Sorted(b) && forall p :: p in a <==> p in b
    ensures a == b
    decreases |a|
  {
    if a == [] {
      FirstIn(b);
    } else {
      assert a[0] in b;
      var first := b[0];
      assert first in a;
      if first != a[0] {
        var i :| 0 < i < |b| && b[i] == a[0];
        var j :| 0 < j < |a| && a[j] == first;
        BeforeTransitive(first, a[0], first);
        BeforeIrreflexive(first);
        assert false;
      }
      forall p ensures p in a[1..] <==> p in b[1..] {
        BeforeIrreflexive(first);
        TailMembers(a, p);
        TailMembers(b, p);
      }
      SortedUnique(a[1..], b[1..]);
      assert a == [a[0]] + a[1..] && b == [b[0]] + b[1..];
    }
  }

  lemma TailMembers(a: seq<Path>, p: Path)
    requires a != [] && Sorted(a)
    ensures p in a[1..] <==> p in a && p != a[0]
  {
    BeforeIrreflexive(a[0]);
    if p in a && p != a[0] {
      var i :| 0 <= i < |a| && a[i] == p;
      assert a[1..][i - 1] == p;
    }
    if p in a[1..] {
      var i :| 0 <= i < |a[1..]| && a[1..][i] == p;
      assert a[i + 1] == p && Before(a[0], a[i + 1]);
    }
  }

  function Paths(rows: seq<Row>): (r: seq<Path>)
    ensures |r| == |rows| && forall i :: 0 <= i < |rows| ==> r[i] == PathOf(rows[i])
  {
    if rows == [] then [] else Paths(rows[..|rows| - 1]) + [PathOf(rows[|rows| - 1])]
  }

  // ---------------------------------------------------------------- the verifier accepts nothing else

  /** No recorded path is one that the inventory leaves out. */
  predicate OnlyListed(tree: Tree, rows: seq<Row>) { forall i :: 0 <= i < |rows| ==> PathOf(rows[i]) in tree.listed }

  lemma AcceptedPathsSorted(sha: Hash, tree: Tree, rows: seq<Row>)
    requires RowsAccepted(sha, tree, rows, |rows|)
    ensures Sorted(Paths(rows))
  {
    forall i, j | 0 <= i < j < |rows| ensures Before(Paths(rows)[i], Paths(rows)[j]) {
      ChainIsSorted(sha, tree, rows, i, j);
    }
  }

  lemma SamePathsMembers(tree: Tree, rows: seq<Row>, p: Path)
    requires SamePaths(tree, rows) && OnlyListed(tree, rows)
    ensures p in Paths(rows) <==> p in tree.listed
  {
    var paths := Paths(rows);
    if p in tree.listed {
      assert Records(rows, p);
      var i :| 0 <= i < |rows| && PathOf(rows[i]) == p;
      assert paths[i] == p;
    }
    if p in paths {
      var i :| 0 <= i < |rows| && paths[i] == p;
      assert PathOf(rows[i]) in tree.listed;
    }
  }

  lemma AcceptedListsExactly(sha: Hash, tree: Tree, rows: seq<Row>)
    requires Walked(tree) && RowsAccepted(sha, tree, rows, |rows|) && SamePaths(tree, rows) && OnlyListed(tree, rows)
    ensures Paths(rows) == tree.listed
  {
    AcceptedPathsSorted(sha, tree, rows);
    forall p ensures p in Paths(rows) <==> p in tree.listed {
      SamePathsMembers(tree, rows, p);
    }
    SortedUnique(Paths(rows), tree.listed);
  }

  /** Without left-out paths the accepted manifest of a tree is exactly the produced one, up to its version text. */
  lemma AcceptedExactly(sha: Hash, tree: Tree, m: Manifest)
    requires IsHash(sha) && Walked(tree) && m.files.Some? && OnlyListed(tree, m.files.value)
    ensures AllPrintable(RowsFor(sha, tree, |tree.listed|))
    ensures Matches(sha, tree, m) <==> m == Produced(sha, tree, m.version)
  {
    ProducedIsAccepted(sha, tree, m.version);
    if Matches(sha, tree, m) {
      var rows := m.files.value;
      AcceptedListsExactly(sha, tree, rows);
      forall i | 0 <= i < |rows| ensures rows[i] == RowFor(sha, tree, tree.listed[i]) {
        assert RowAccepted(sha, tree, rows, i);
        assert Paths(rows)[i] == tree.listed[i];
      }
      assert rows == RowsFor(sha, tree, |tree.listed|);
    }
  }

  /** A file as recorded: same mode, and a content with the same hash. */
  predicate Unchanged(sha: Hash, before: Tree, after: Tree, path: Path)
  {
    var was, now := before.locate(path), after.locate(path);
    was.Some? && now.Some? && now.value.mode == was.value.mode && sha(now.value.content) == sha(was.value.content)
  }

  lemma UnchangedExactly(sha: Hash, before: Tree, after: Tree, i: nat)
    requires IsHash(sha) && Walked(before) && i < |before.listed|
    ensures RowHolds(sha, after, RowFor(sha, before, before.listed[i])) <==>
            Unchanged(sha, before, after, before.listed[i])
  {
    var path := before.listed[i];
    var was, now := before.locate(path), after.locate(path);
    HexIsChecksum(sha(was.value.content));
    if now.Some? && Hex(sha(now.value.content)) == Hex(sha(was.value.content)) {
      HexInjective(sha(now.value.content), sha(was.value.content));
    }
  }

  lemma RowsUnchanged(sha: Hash, before: Tree, after: Tree, rows: seq<Row>)
    requires IsHash(sha) && Walked(before) && rows == RowsFor(sha, before, |before.listed|)
    ensures RowsAccepted(sha, after, rows, |rows|) <==>
            forall i :: 0 <= i < |before.listed| ==> Unchanged(sha, before, after, before.listed[i])
  {
    forall i | 0 <= i < |rows|
      ensures RowAccepted(sha, after, rows, i) <==> Unchanged(sha, before, after, before.listed[i])
    {
      UnchangedExactly(sha, before, after, i);
      assert PathOf(rows[i]) == before.listed[i] && (i > 0 ==> PathOf(rows[i - 1]) == before.listed[i - 1]);
    }
  }

  lemma PathsKept(sha: Hash, before: Tree, after: Tree, rows: seq<Row>)
    requires Walked(before) && rows == RowsFor(sha, before, |before.listed|)
    ensures SamePaths(after, rows) <==>
            && (forall i :: 0 <= i < |after.listed| ==> after.listed[i] in before.listed)
            && (forall i :: 0 <= i < |before.listed| ==> before.listed[i] in after.listed || Exempt(before.listed[i]))
  {
    assert forall i :: 0 <= i < |rows| ==> PathOf(rows[i]) == before.listed[i];
    forall p ensures Records(rows, p) <==> p in before.listed {
      if p in before.listed {
        var i :| 0 <= i < |rows| && before.listed[i] == p;
        assert PathOf(rows[i]) == p;
      }
    }
  }

  /**
   * A manifest still matches a changed tree exactly when every recorded file is unchanged, nothing was added to the
   * inventory, and only exempt paths left it.
   */
  lemma MatchesExactly(sha: Hash, before: Tree, after: Tree, version: string)
    requires IsHash(sha) && Walked(before)
    ensures AllPrintable(RowsFor(sha, before, |before.listed|))
    ensures Matches(sha, after, Produced(sha, before, version)) <==>
            && (forall i :: 0 <= i < |before.listed| ==> Unchanged(sha, before, after, before.listed[i]))
            && (forall i :: 0 <= i < |after.listed| ==> after.listed[i] in before.listed)
            && (forall i :: 0 <= i < |before.listed| ==> before.listed[i] in after.listed || Exempt(before.listed[i]))
  {
    var rows := RowsFor(sha, before, |before.listed|);
    RowsArePrintable(sha, before, |before.listed|);
    RowsUnchanged(sha, before, after, rows);
    PathsKept(sha, before, after, rows);
  }
}
