/**
 * Release manifests: the printer `_release_manifest` and the verifier `_stored_release_manifest_matches`
 * (scripts/atomic_local_update.py). SHA-256 is a function from outside with 32-byte results; a path is its
 * UTF-8 bytes, which compare as the text does.
 */
module ReleaseManifest {
  import opened Wrappers
  import opened Texts

  type Byte = b: int | 0 <= b < 256

  type Path = seq<Byte>

  type Hash = seq<Byte> -> seq<Byte>

  datatype File = File(content: seq<Byte>, mode: nat)

  /**
   * A directory as the updater sees it. `locate` is `None` unless the path leads, through no symbolic link, to a
   * regular file inside; `listed` is the filtered inventory in order.
   */
  datatype Tree = Tree(locate: Path -> Option<File>, listed: seq<Path>)

  /** An entry of `files`; anything that is not a mapping with exactly the three typed keys is `NotARow`. */
  datatype Row = NotARow | Row(path: Path, sha256: string, mode: int)

  datatype Manifest = Manifest(schema: int, version: string, treeSha256: string, files: Option<seq<Row>>)

  ghost predicate IsHash(sha: Hash) { forall s :: |sha(s)| == 32 }

  function CompareByte(a: Byte, b: Byte): int { a - b }

  predicate Before(a: Path, b: Path) { Lex(CompareByte, a, b) < 0 }

  // ---------------------------------------------------------------- texts of hashes and modes

  function HexDigit(n: int): char
    requires 0 <= n < 16
  {
    if n < 10 then ('0' as int + n) as char else ('a' as int + n - 10) as char
  }

  predicate IsHexDigit(c: char) { '0' <= c <= '9' || 'a' <= c <= 'f' }

  function HexValue(c: char): (n: int)
    requires IsHexDigit(c)
    ensures 0 <= n < 16 && HexDigit(n) == c
  {
    if c <= '9' then c as int - '0' as int else c as int - 'a' as int + 10
  }

  /** `hexdigest()`. */
  function Hex(bytes: seq<Byte>): string
  {
    if bytes == [] then "" else [HexDigit(bytes[0] / 16), HexDigit(bytes[0] % 16)] + Hex(bytes[1..])
  }

  predicate IsHex(s: string) { forall i :: 0 <= i < |s| ==> IsHexDigit(s[i]) }

  /** `bytes.fromhex` on an even number of lower-case digits. */
  function FromHex(s: string): (r: seq<Byte>)
    requires IsHex(s) && |s| % 2 == 0
    ensures |r| == |s| / 2
  {
    if s == "" then [] else [16 * HexValue(s[0]) + HexValue(s[1])] + FromHex(s[2..])
  }

  /** `f"{mode:o}"`. */
  function OctalText(mode: nat): seq<Byte>
  {
    (if mode < 8 then [] else OctalText(mode / 8)) + [48 + mode % 8]
  }

  function FromOctal(s: seq<Byte>): int
  {
    if s == [] then 0 else 8 * FromOctal(s[..|s| - 1]) + s[|s| - 1] - 48
  }

  // ---------------------------------------------------------------- the stream that is hashed

  predicate IsChecksum(s: string) { |s| == 64 && IsHex(s) }

  predicate Printable(row: Row)
  {
    row.Row? && 0 !in row.path && IsChecksum(row.sha256) && row.mode >= 0
  }

  function RowBytes(row: Row): seq<Byte>
  {
    if Printable(row) then row.path + [0] + FromHex(row.sha256) + OctalText(row.mode) + [0] else []
  }

  predicate AllPrintable(rows: seq<Row>) { forall i :: 0 <= i < |rows| ==> Printable(rows[i]) }

  /** `show` of every element, one after the other. */
  function Concat<T>(show: T -> seq<Byte>, items: seq<T>): seq<Byte>
  {
    if items == [] then [] else Concat(show, items[..|items| - 1]) + show(items[|items| - 1])
  }

  function Stream(rows: seq<Row>): seq<Byte>
    requires AllPrintable(rows)
  {
    Concat(RowBytes, rows)
  }

  // ---------------------------------------------------------------- the printer

  function Digest(sha: Hash, s: seq<Byte>): string { Hex(sha(s)) }

  function RowFor(sha: Hash, tree: Tree, path: Path): Row
  {
    var file := tree.locate(path);
    if file.None? then NotARow else Row(path, Digest(sha, file.value.content), file.value.mode)
  }

  function RowsFor(sha: Hash, tree: Tree, n: nat): (rows: seq<Row>)
    requires n <= |tree.listed|
    ensures |rows| == n && forall i :: 0 <= i < n ==> rows[i] == RowFor(sha, tree, tree.listed[i])
  {
    if n == 0 then [] else RowsFor(sha, tree, n - 1) + [RowFor(sha, tree, tree.listed[n - 1])]
  }

  /** `..` as a component, or a leading slash. */
  predicate Escapes(path: Path)
  {
    || (path != [] && path[0] == 47)
    || exists i :: 0 <= i && i + 2 <= |path| && DotDotAt(path, i)
  }

  predicate DotDotAt(path: Path, i: nat)
  {
    && i + 2 <= |path| && path[i] == 46 && path[i + 1] == 46
    && (i == 0 || path[i - 1] == 47) && (i + 2 == |path| || path[i + 2] == 47)
  }

  predicate Sorted(paths: seq<Path>) { forall i, j :: 0 <= i < j < |paths| ==> Before(paths[i], paths[j]) }

  /** What a directory walk returns: existing files under the root, sorted, with permission bits as modes. */
  predicate Walked(tree: Tree)
  {
    && Sorted(tree.listed)
    && forall i :: 0 <= i < |tree.listed| ==>
         var path := tree.listed[i];
         path != [] && 0 !in path && !Escapes(path) && tree.locate(path).Some? && tree.locate(path).value.mode <= 0xFFF
  }

  lemma {:induction false} HexIsChecksum(bytes: seq<Byte>)
    ensures |Hex(bytes)| == 2 * |bytes| && IsHex(Hex(bytes))
  {
    if bytes != [] {
      HexIsChecksum(bytes[1..]);
    }
  }

  lemma RowsArePrintable(sha: Hash, tree: Tree, n: nat)
    requires IsHash(sha) && Walked(tree) && n <= |tree.listed|
    ensures AllPrintable(RowsFor(sha, tree, n))
  {
    forall i | 0 <= i < n ensures Printable(RowsFor(sha, tree, n)[i]) {
      HexIsChecksum(sha(tree.locate(tree.listed[i]).value.content));
    }
  }

  /** `_release_manifest`. */
  method ReleaseManifest(sha: Hash, tree: Tree, version: string) returns (m: Manifest)
    requires IsHash(sha) && Walked(tree)
    ensures AllPrintable(RowsFor(sha, tree, |tree.listed|))
    ensures var rows := RowsFor(sha, tree, |tree.listed|);
            m == Manifest(1, version, Digest(sha, Stream(rows)), Some(rows))
  {
    var rows: seq<Row>, stream: seq<Byte> := [], [];
    for i := 0 to |tree.listed|
      invariant rows == RowsFor(sha, tree, i) && AllPrintable(rows) && stream == Stream(rows)
    {
      RowsArePrintable(sha, tree, i + 1);
      var file := tree.locate(tree.listed[i]).value;
      var row := Row(tree.listed[i], Digest(sha, file.content), file.mode);
      assert row == RowFor(sha, tree, tree.listed[i]) == RowsFor(sha, tree, i + 1)[i];
      assert (rows + [row])[..i] == rows;
      rows := rows + [row];
      stream := stream + RowBytes(row);
    }
    m := Manifest(1, version, Digest(sha, stream), Some(rows));
  }

  // ---------------------------------------------------------------- the verifier

  /** Paths that older releases recorded and the current inventory leaves out. */
  predicate Exempt(path: Path)
  {
    || path == Ascii(".gitignore")
    || Ascii("public-release/") <= path
    || path == Ascii("automation-worker/.runner-token") || path == Ascii("automation-worker/.runner-token.pairing")
    || path == Ascii("automation-worker/.worker-instance-id") || path == Ascii("automation-worker/.maintenance")
  }

  function Ascii(s: string): Path { seq(|s|, i requires 0 <= i < |s| => (s[i] as int % 256) as Byte) }

  /** A recorded row describes the file that is there now. */
  predicate RowHolds(sha: Hash, tree: Tree, row: Row)
  {
    && row.Row? && row.path != [] && IsChecksum(row.sha256) && 0 <= row.mode <= 0xFFF && !Escapes(row.path)
    && tree.locate(row.path).Some?
    && tree.locate(row.path).value.mode == row.mode
    && Digest(sha, tree.locate(row.path).value.content) == row.sha256
  }

  function PathOf(row: Row): Path { if row.Row? then row.path else [] }

  /** Row `i` holds and comes after the row before it. */
  predicate RowAccepted(sha: Hash, tree: Tree, rows: seq<Row>, i: nat)
    requires i < |rows|
  {
    RowHolds(sha, tree, rows[i]) && (i > 0 ==> Before(PathOf(rows[i - 1]), PathOf(rows[i])))
  }

  predicate RowsAccepted(sha: Hash, tree: Tree, rows: seq<Row>, n: nat)
    requires n <= |rows|
  {
    forall i :: 0 <= i < n ==> RowAccepted(sha, tree, rows, i)
  }

  predicate Records(rows: seq<Row>, path: Path) { exists i :: 0 <= i < |rows| && PathOf(rows[i]) == path }

  /** A regular file has no NUL in its path. */
  ghost predicate NoNul(tree: Tree) { forall path :: tree.locate(path).Some? ==> 0 !in path }

  /** Everything in the inventory is recorded, and everything recorded is in the inventory or exempt. */
  predicate SamePaths(tree: Tree, rows: seq<Row>)
  {
    && (forall i :: 0 <= i < |tree.listed| ==> Records(rows, tree.listed[i]))
    && (forall i :: 0 <= i < |rows| ==> PathOf(rows[i]) in tree.listed || Exempt(PathOf(rows[i])))
  }

  predicate StreamMatches(sha: Hash, rows: seq<Row>, digest: string)
  {
    AllPrintable(rows) && digest == Digest(sha, Stream(rows))
  }

  /** What the verifier accepts. */
  predicate Matches(sha: Hash, tree: Tree, m: Manifest)
  {
    && m.schema == 1 && m.files.Some?
    && RowsAccepted(sha, tree, m.files.value, |m.files.value|)
    && StreamMatches(sha, m.files.value, m.treeSha256)
    && SamePaths(tree, m.files.value)
  }

  /** `_stored_release_manifest_matches`. */
  method StoredReleaseManifestMatches(sha: Hash, tree: Tree, m: Manifest) returns (ok: bool)
    requires NoNul(tree)
    ensures ok <==> Matches(sha, tree, m)
  {
    if m.schema != 1 || m.files.None? {
      return false;
    }
    var rows := m.files.value;
    var stream, recorded;
    ok, stream, recorded := CheckRows(sha, tree, rows);
    if !ok || Digest(sha, stream) != m.treeSha256 {
      return false;
    }
    var localState := {Ascii("automation-worker/.runner-token"), Ascii("automation-worker/.runner-token.pairing"),
      Ascii("automation-worker/.worker-instance-id"), Ascii("automation-worker/.maintenance")};
    ok := && (forall i :: 0 <= i < |tree.listed| ==> tree.listed[i] in recorded)
          && (forall i :: 0 <= i < |rows| ==>
                || PathOf(rows[i]) in tree.listed
                || PathOf(rows[i]) == Ascii(".gitignore")
                || Ascii("public-release/") <= PathOf(rows[i])
                || PathOf(rows[i]) in localState);
  }

  /** The loop over the recorded rows, which stops at the first row that does not hold. */
  method CheckRows(sha: Hash, tree: Tree, rows: seq<Row>) returns (ok: bool, stream: seq<Byte>, recorded: set<Path>)
    requires NoNul(tree)
    ensures ok <==> RowsAccepted(sha, tree, rows, |rows|)
    ensures ok ==> AllPrintable(rows) && stream == Stream(rows)
    ensures ok ==> forall path :: path in recorded <==> Records(rows, path)
  {
    stream, recorded := [], {};
    var previous: Path := [];
    for i := 0 to |rows|
      invariant RowsAccepted(sha, tree, rows, i)
      invariant AllPrintable(rows[..i]) && stream == Stream(rows[..i])
      invariant previous == if i == 0 then [] else PathOf(rows[i - 1])
      invariant forall path :: path in recorded <==> Records(rows[..i], path)
    {
      ok := CheckRow(sha, tree, previous, rows[i]);
      RowStep(sha, tree, rows, i, previous);
      if !ok {
        return;
      }
      StreamStep(rows, i);
      RecordOne(rows, i, recorded);
      stream, recorded, previous := stream + RowBytes(rows[i]), recorded + {PathOf(rows[i])}, PathOf(rows[i]);
    }
    assert rows[..|rows|] == rows;
    ok := true;
  }

  /** What the check of row `i` adds. */
  lemma RowStep(sha: Hash, tree: Tree, rows: seq<Row>, i: nat, previous: Path)
    requires i < |rows| && previous == if i == 0 then [] else PathOf(rows[i - 1])
    ensures RowAccepted(sha, tree, rows, i) <==> RowHolds(sha, tree, rows[i]) && Before(previous, PathOf(rows[i]))
    ensures RowsAccepted(sha, tree, rows, i) ==>
              (RowsAccepted(sha, tree, rows, i + 1) <==> RowAccepted(sha, tree, rows, i))
    ensures !RowAccepted(sha, tree, rows, i) ==> !RowsAccepted(sha, tree, rows, |rows|)
  {
    FirstComesAfterNothing(PathOf(rows[i]));
  }

  lemma StreamStep(rows: seq<Row>, i: nat)
    requires i < |rows| && AllPrintable(rows[..i]) && Printable(rows[i])
    ensures AllPrintable(rows[..i + 1]) && Stream(rows[..i + 1]) == Stream(rows[..i]) + RowBytes(rows[i])
  {
    assert rows[..i + 1][..i] == rows[..i] && rows[..i + 1][i] == rows[i];
  }

  lemma FirstComesAfterNothing(path: Path)
    ensures Before([], path) <==> path != []
  {
  }

  lemma RecordOne(rows: seq<Row>, i: nat, recorded: set<Path>)
    requires i < |rows| && forall path :: path in recorded <==> Records(rows[..i], path)
    ensures forall path :: path in recorded + {PathOf(rows[i])} <==> Records(rows[..i + 1], path)
  {
    forall path ensures path in recorded + {PathOf(rows[i])} <==> Records(rows[..i + 1], path) {
      assert forall k :: 0 <= k < i ==> rows[..i + 1][k] == rows[..i][k];
      assert rows[..i + 1][i] == rows[i];
    }
  }

  /** The checks of one row, in the order of the code. */
  method CheckRow(sha: Hash, tree: Tree, previous: Path, row: Row) returns (ok: bool)
    requires NoNul(tree)
    ensures ok <==> RowHolds(sha, tree, row) && Before(previous, PathOf(row))
    ensures ok ==> Printable(row)
  {
    if row.NotARow? || row.path == [] || !Before(previous, row.path) || !IsChecksum(row.sha256)
       || row.mode < 0 || row.mode > 0xFFF
    {
      return false;
    }
    if Escapes(row.path) {
      return false;
    }
    var file := tree.locate(row.path);
    if file.None? || file.value.mode != row.mode {
      return false;
    }
    ok := Digest(sha, file.value.content) == row.sha256;
  }
}
