/**
 * The file of an undelivered result (`pendingDeliveryPath` in engine/src/delivery/terminal-callback.ts): the directory
 * and the test id as it was sent, joined and normalised as POSIX paths are.
 */
module SpoolPaths {
  import opened Wrappers
  import opened Texts

  /** An absolute path, component by component. */
  type Path = seq<string>

  /** `None` when the request has no test id. */
  type TestId = Option<string>

  const SUFFIX: string := ".json"

  function FileName(testId: TestId): string
  {
    (if testId.Some? then testId.value else "undefined") + SUFFIX
  }

  /** One component of a path: an empty one and `.` stay, `..` goes up. */
  function Enter(base: Path, part: string): Path
  {
    if part == "" || part == "." then base
    else if part == ".." then (if base == [] then [] else base[..|base| - 1])
    else base + [part]
  }

  function Walk(base: Path, parts: seq<string>): Path
    decreases |parts|
  {
    if parts == [] then base else Walk(Enter(base, parts[0]), parts[1..])
  }

  /** `path.join(dir, name)`. */
  function PathOf(dir: Path, testId: TestId): Path { Walk(dir, Split(FileName(testId), '/')) }

  /** `readdirSync(dir)` has the file and it passes the filter on names. */
  predicate Listed(dir: Path, file: Path)
  {
    && |file| == |dir| + 1 && file[..|dir|] == dir
    && |file[|dir|]| >= |SUFFIX| && file[|dir|][|file[|dir|]| - |SUFFIX|..] == SUFFIX
  }

  /** A test id without a slash. */
  predicate IsPlain(t: string) { forall i :: 0 <= i < |t| ==> t[i] != '/' }

  // ---------------------------------------------------------------- which ids have which files

  lemma PlainSplits(name: string)
    requires IsPlain(name)
    ensures Split(name, '/') == [name]
  {
    assert IndexOf(name, '/') == |name|;
  }

  lemma PlainFile(dir: Path, testId: TestId)
    requires IsPlain(FileName(testId))
    ensures PathOf(dir, testId) == dir + [FileName(testId)] && Listed(dir, PathOf(dir, testId))
  {
    var name := FileName(testId);
    PlainSplits(name);
    assert name[|name| - |SUFFIX|..] == SUFFIX;
    assert Walk(dir, [name]) == Walk(Enter(dir, name), []);
  }

  /** A result of an id without a slash is listed, under its own name. */
  lemma PlainIsListed(dir: Path, t: string)
    requires IsPlain(t)
    ensures PathOf(dir, Some(t)) == dir + [t + SUFFIX] && Listed(dir, PathOf(dir, Some(t)))
  {
    PlainFile(dir, Some(t));
  }

  /** ... and two such ids have one file only if they are one id. */
  lemma PlainFilesDiffer(dir: Path, a: string, b: string)
    requires IsPlain(a) && IsPlain(b) && PathOf(dir, Some(a)) == PathOf(dir, Some(b))
    ensures a == b
  {
    PlainIsListed(dir, a);
    PlainIsListed(dir, b);
    assert (dir + [a + SUFFIX])[|dir|] == a + SUFFIX && (dir + [b + SUFFIX])[|dir|] == b + SUFFIX;
    assert (a + SUFFIX)[..|a + SUFFIX| - |SUFFIX|] == a && (b + SUFFIX)[..|b + SUFFIX| - |SUFFIX|] == b;
  }

  /** A request without a test id uses the file of the id `undefined`. */
  lemma MissingIsUndefined(dir: Path)
    ensures PathOf(dir, None) == PathOf(dir, Some("undefined")) && Listed(dir, PathOf(dir, None))
  {
    PlainFile(dir, None);
  }

  lemma SplitAfter(a: string, b: string)
    requires IsPlain(a)
    ensures Split(a + "/" + b, '/') == [a] + Split(b, '/')
  {
    var s := a + "/" + b;
    var k := IndexOf(s, '/');
    assert s[|a|] == '/';
    assert k == |a|;
    assert s[..k] == a && s[k + 1..] == b;
  }

  lemma JoinsAfter(dir: Path, a: string, t: string)
    requires IsPlain(a)
    ensures PathOf(dir, Some(a + "/" + t)) == PathOf(Enter(dir, a), Some(t))
  {
    assert FileName(Some(a + "/" + t)) == a + "/" + FileName(Some(t));
    SplitAfter(a, FileName(Some(t)));
    var parts := Split(FileName(Some(t)), '/');
    assert ([a] + parts)[1..] == parts;
  }

  /** A slash in front, or one too many, changes nothing. */
  lemma SlashIsSameFile(dir: Path, a: string, t: string)
    requires IsPlain(a)
    ensures PathOf(dir, Some("/" + t)) == PathOf(dir, Some(t))
    ensures PathOf(dir, Some(a + "//" + t)) == PathOf(dir, Some(a + "/" + t))
  {
    JoinsAfter(dir, "", t);
    assert "" + "/" + t == "/" + t;
    JoinsAfter(dir, a, "/" + t);
    JoinsAfter(dir, a, t);
    assert a + "/" + ("/" + t) == a + "//" + t;
    JoinsAfter(Enter(dir, a), "", t);
  }

  /** The root is its own parent. */
  lemma RootHasNoParent(t: string)
    ensures PathOf([], Some("../" + t)) == PathOf([], Some(t))
  {
    JoinsAfter([], "..", t);
    assert ".." + "/" + t == "../" + t;
  }

  /** `./T` has the file of `T`. */
  lemma DotIsSameFile(dir: Path, t: string)
    ensures PathOf(dir, Some("./" + t)) == PathOf(dir, Some(t))
  {
    JoinsAfter(dir, ".", t);
    assert "." + "/" + t == "./" + t;
  }

  /** `../T` has a file outside the directory, which is not listed. */
  lemma DotDotIsOutside(dir: Path, t: string)
    requires IsPlain(t) && dir != []
    ensures PathOf(dir, Some("../" + t)) == dir[..|dir| - 1] + [t + SUFFIX]
    ensures !Listed(dir, PathOf(dir, Some("../" + t)))
  {
    JoinsAfter(dir, "..", t);
    assert ".." + "/" + t == "../" + t;
    PlainIsListed(dir[..|dir| - 1], t);
  }

  /** An id that is not empty and has the same file. */
  function Alias(testId: TestId): (t: string)
    ensures t != ""
  {
    if testId.None? then "undefined" else if testId.value == "" then "./" else testId.value
  }

  lemma AliasHasSameFile(dir: Path, testId: TestId)
    ensures PathOf(dir, Some(Alias(testId))) == PathOf(dir, testId)
  {
    if testId.None? {
      MissingIsUndefined(dir);
    } else if testId.value == "" {
      DotIsSameFile(dir, "");
      assert "./" + "" == "./";
    }
  }
}
