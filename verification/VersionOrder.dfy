/**
 * The version key is a total preorder, and on Semantic Versioning texts it is the precedence of
 * section 11 of Semantic Versioning 2.0.0 up to letter case.
 */
module VersionOrder {
  import opened Wrappers
  import opened Texts
  import opened TextLaws
  import opened TextOrder
  import opened Versions

  // ---------------------------------------------------------------- total preorders

  lemma IdentifierIsOrder()
    ensures Order(CompareIdentifier)
  {
    assert Order(CompareChar);
    forall x, y ensures CompareIdentifier(x, y) < 0 <==> CompareIdentifier(y, x) > 0 {
      if x.Text? && y.Text? {
        LexFlips(CompareChar, x.t, y.t);
      }
    }
    forall x, y, z | CompareIdentifier(x, y) <= 0 && CompareIdentifier(y, z) <= 0
      ensures CompareIdentifier(x, z) <= 0
    {
      if x.Text? && y.Text? && z.Text? {
        LexTransitive(CompareChar, x.t, y.t, z.t);
      }
    }
  }

  lemma KeyFlips(a: Key, b: Key)
    ensures CompareKey(a, b) < 0 <==> CompareKey(b, a) > 0
  {
    assert Order(CompareNat);
    LexFlips(CompareNat, a.core, b.core);
    LexFlips(CompareNat, b.core, a.core);
    IdentifierIsOrder();
    LexFlips(CompareIdentifier, a.identifiers, b.identifiers);
  }

  lemma KeyTransitive(a: Key, b: Key, c: Key)
    requires CompareKey(a, b) <= 0 && CompareKey(b, c) <= 0
    ensures CompareKey(a, c) <= 0
  {
    assert Order(CompareNat);
    LexFlips(CompareNat, a.core, b.core);
    LexFlips(CompareNat, b.core, c.core);
    LexFlips(CompareNat, c.core, a.core);
    LexFlips(CompareNat, b.core, a.core);
    LexFlips(CompareNat, c.core, b.core);
    LexFlips(CompareNat, a.core, c.core);
    LexTransitive(CompareNat, a.core, b.core, c.core);
    if Lex(CompareNat, c.core, a.core) <= 0 {
      LexTransitive(CompareNat, b.core, c.core, a.core);
      LexTransitive(CompareNat, c.core, a.core, b.core);
    }
    if a.final == b.final == c.final && Lex(CompareIdentifier, a.identifiers, b.identifiers) <= 0
       && Lex(CompareIdentifier, b.identifiers, c.identifiers) <= 0 {
      IdentifierIsOrder();
      LexTransitive(CompareIdentifier, a.identifiers, b.identifiers, c.identifiers);
    }
  }

  /** The order of release keys is a total preorder. */
  lemma KeyIsOrder()
    ensures Order(CompareKey)
  {
    forall a, b ensures CompareKey(a, b) < 0 <==> CompareKey(b, a) > 0 {
      KeyFlips(a, b);
    }
    forall a, b, c | CompareKey(a, b) <= 0 && CompareKey(b, c) <= 0 ensures CompareKey(a, c) <= 0 {
      KeyTransitive(a, b, c);
    }
  }

  /** Two updates that are no downgrades compose to one that is none. */
  lemma NotDowngradeTransitive(a: string, b: string, c: string)
    requires NotDowngrade(Some(a), b) && NotDowngrade(Some(b), c)
    ensures NotDowngrade(Some(a), c)
  {
    if a != b && b != c {
      var ka, kb, kc := VersionKey(a).value, VersionKey(b).value, VersionKey(c).value;
      KeyFlips(ka, kb);
      KeyFlips(kb, kc);
      KeyFlips(ka, kc);
      KeyFlips(kb, ka);
      KeyFlips(kc, kb);
      KeyFlips(kc, ka);
      KeyTransitive(ka, kb, kc);
    }
  }

  // ---------------------------------------------------------------- Semantic Versioning 2.0.0

  /** Pre-release identifiers: numeric, or alphanumeric with at least one non-digit. */
  datatype PreId = Numeric(n: nat) | Alpha(t: string)

  /** `core` holds the major, minor and patch numbers. */
  datatype SemVer = SemVer(core: seq<nat>, pre: seq<PreId>, build: seq<string>)

  /** `[0-9A-Za-z-]+`. */
  predicate IsIdentifierText(t: string)
  {
    t != "" && AllLabelChars(t) && '.' !in t
  }

  predicate ValidPreId(p: PreId)
  {
    p.Alpha? ==> IsIdentifierText(p.t) && !AllDigits(p.t)
  }

  predicate ValidSemVer(v: SemVer)
  {
    && |v.core| == 3
    && (forall i :: 0 <= i < |v.pre| ==> ValidPreId(v.pre[i]))
    && (forall i :: 0 <= i < |v.build| ==> IsIdentifierText(v.build[i]))
  }

  function Join(parts: seq<string>, sep: char): string
  {
    if parts == [] then "" else if |parts| == 1 then parts[0] else parts[0] + [sep] + Join(parts[1..], sep)
  }

  function PreIdText(p: PreId): string { if p.Numeric? then DecimalText(p.n) else p.t }

  function PreTexts(pre: seq<PreId>): seq<string> { seq(|pre|, i requires 0 <= i < |pre| => PreIdText(pre[i])) }

  function CoreTexts(core: seq<nat>): seq<string> { seq(|core|, i requires 0 <= i < |core| => DecimalText(core[i])) }

  /** The text of a version: `major.minor.patch[-pre][+build]`. */
  function Render(v: SemVer): string
  {
    RenderHead(v) + (if v.build == [] then "" else "+" + Join(v.build, '.'))
  }

  function RenderHead(v: SemVer): string
  {
    Join(CoreTexts(v.core), '.') + (if v.pre == [] then "" else "-" + Join(PreTexts(v.pre), '.'))
  }

  // precedence, by the first difference, as section 11 words it

  predicate TextBefore(s: string, t: string)
  {
    exists k :: 0 <= k <= |s| && k <= |t| && s[..k] == t[..k] &&
                (if k < |s| && k < |t| then s[k] < t[k] else k == |s| < |t|)
  }

  /** Rule 11.4.1 to 11.4.3. */
  predicate IdBefore(p: PreId, q: PreId)
  {
    match (p, q)
    case (Numeric(m), Numeric(n)) => m < n
    case (Numeric(_), Alpha(_)) => true
    case (Alpha(_), Numeric(_)) => false
    case (Alpha(s), Alpha(t)) => TextBefore(s, t)
  }

  /** Rule 11.4: the first differing identifier decides; 11.4.4: a larger set of fields wins. */
  predicate PreBefore(p: seq<PreId>, q: seq<PreId>)
  {
    exists k :: 0 <= k <= |p| && k <= |q| && p[..k] == q[..k] &&
                (if k < |p| && k < |q| then IdBefore(p[k], q[k]) else k == |p| < |q|)
  }

  /** Rules 11.2 to 11.4; build metadata does not count (11.1). */
  predicate Precedes(a: SemVer, b: SemVer)
    requires |a.core| == |b.core| == 3
  {
    if a.core[0] != b.core[0] then a.core[0] < b.core[0]
    else if a.core[1] != b.core[1] then a.core[1] < b.core[1]
    else if a.core[2] != b.core[2] then a.core[2] < b.core[2]
    else if a.pre == [] || b.pre == [] then a.pre != [] && b.pre == []
    else PreBefore(a.pre, b.pre)
  }

  function LowerId(p: PreId): PreId { if p.Alpha? then Alpha(LowerText(p.t)) else p }

  function Lowered(v: SemVer): SemVer
  {
    v.(pre := seq(|v.pre|, i requires 0 <= i < |v.pre| => LowerId(v.pre[i])))
  }

  // ---------------------------------------------------------------- reading back what was rendered

  lemma {:induction false} IndexOfAfter(a: string, c: char, b: string)
    requires c !in a
    ensures IndexOf(a + [c] + b, c) == |a|
    ensures IndexOf(a, c) == |a|
  {
    if a == "" {
      assert a + [c] + b == [c] + b;
    } else {
      assert (a + [c] + b)[1..] == a[1..] + [c] + b;
      IndexOfAfter(a[1..], c, b);
    }
  }

  lemma {:induction false} SplitJoin(parts: seq<string>, sep: char)
    requires parts != [] && forall i :: 0 <= i < |parts| ==> sep !in parts[i]
    ensures Split(Join(parts, sep), sep) == parts
  {
    if |parts| == 1 {
      IndexOfAfter(parts[0], sep, "");
    } else {
      var rest := Join(parts[1..], sep);
      var all := parts[0] + [sep] + rest;
      IndexOfAfter(parts[0], sep, rest);
      SplitJoin(parts[1..], sep);
      assert all[..|parts[0]|] == parts[0] && all[|parts[0]| + 1..] == rest;
    }
  }

  lemma {:induction false} JoinLabels(parts: seq<string>)
    requires forall i :: 0 <= i < |parts| ==> AllLabelChars(parts[i])
    ensures AllLabelChars(Join(parts, '.'))
    ensures parts != [] && parts[0] != "" ==> Join(parts, '.') != ""
  {
    if |parts| > 1 {
      JoinLabels(parts[1..]);
    }
  }

  lemma {:induction false} JoinDigits(parts: seq<string>)
    requires forall i :: 0 <= i < |parts| ==> AllDigits(parts[i])
    ensures forall c :: c in Join(parts, '.') ==> IsDigit(c) || c == '.'
  {
    if |parts| > 1 {
      JoinDigits(parts[1..]);
    }
  }

  function KeyOf(v: SemVer): Key
  {
    Key(v.core + Padding(|v.core|), v.pre == [], IdKeys(v.pre))
  }

  function IdKeys(pre: seq<PreId>): (ids: seq<Identifier>)
    ensures |ids| == |pre|
  {
    seq(|pre|, i requires 0 <= i < |pre| => IdKey(pre[i]))
  }

  function IdKey(p: PreId): Identifier { if p.Numeric? then Number(p.n) else Text(LowerText(p.t)) }

  lemma PreTextFacts(p: PreId)
    requires ValidPreId(p)
    ensures IsIdentifierText(PreIdText(p)) && IdentifierOf(PreIdText(p)) == IdKey(p)
  {
    if p.Numeric? {
      DecimalRoundTrip(p.n);
    }
  }

  lemma CoreValue(core: seq<nat>)
    ensures NumericParts(CoreTexts(core)) && CoreOf(CoreTexts(core)) == core + Padding(|core|)
  {
    forall i | 0 <= i < |core| ensures Decimal(CoreTexts(core)[i]) == core[i] {
      DecimalRoundTrip(core[i]);
    }
  }

  lemma CoreReadsBack(core: seq<nat>)
    requires core != []
    ensures Split(Join(CoreTexts(core), '.'), '.') == CoreTexts(core)
    ensures '-' !in Join(CoreTexts(core), '.') && '+' !in Join(CoreTexts(core), '.')
  {
    SplitJoin(CoreTexts(core), '.');
    JoinDigits(CoreTexts(core));
  }

  lemma PreReadsBack(pre: seq<PreId>)
    requires pre != [] && forall i :: 0 <= i < |pre| ==> ValidPreId(pre[i])
    ensures var t := Join(PreTexts(pre), '.');
            && t != "" && AllLabelChars(t) && '+' !in t
            && Split(t, '.') == PreTexts(pre)
            && IdentifiersOf(PreTexts(pre)) == IdKeys(pre)
  {
    forall i | 0 <= i < |pre|
      ensures IsIdentifierText(PreTexts(pre)[i]) && IdentifierOf(PreTexts(pre)[i]) == IdKey(pre[i])
    {
      PreTextFacts(pre[i]);
    }
    SplitJoin(PreTexts(pre), '.');
    JoinLabels(PreTexts(pre));
  }

  lemma FinalHeadKey(core: string)
    requires '-' !in core && NumericParts(Split(core, '.'))
    ensures HeadKey(core) == Some(Key(CoreOf(Split(core, '.')), true, []))
  {
    IndexOfAfter(core, '-', "");
    assert core[..|core|] == core;
  }

  lemma PreHeadKey(core: string, pre: string)
    requires '-' !in core && NumericParts(Split(core, '.')) && pre != "" && AllLabelChars(pre)
    ensures HeadKey(core + ['-'] + pre) == Some(Key(CoreOf(Split(core, '.')), false, IdentifiersOf(Split(pre, '.'))))
  {
    var head := core + ['-'] + pre;
    IndexOfAfter(core, '-', pre);
    assert head[..|core|] == core && head[|core| + 1..] == pre;
  }

  lemma BuildIgnored(head: string, build: string)
    requires '+' !in head && build != "" && AllLabelChars(build)
    ensures VersionKey(head + ['+'] + build) == HeadKey(head)
  {
    var value := head + ['+'] + build;
    IndexOfAfter(head, '+', build);
    assert value[..|head|] == head && value[|head| + 1..] == build;
  }

  lemma NoBuild(head: string)
    requires '+' !in head
    ensures VersionKey(head) == HeadKey(head)
  {
    IndexOfAfter(head, '+', "");
    assert head[..|head|] == head;
  }

  lemma FinalReadsBack(v: SemVer)
    requires ValidSemVer(v) && v.pre == []
    ensures '+' !in RenderHead(v) && HeadKey(RenderHead(v)) == Some(KeyOf(v))
  {
    var core := Join(CoreTexts(v.core), '.');
    CoreReadsBack(v.core);
    CoreValue(v.core);
    FinalHeadKey(core);
    assert RenderHead(v) == core;
    assert KeyOf(v).identifiers == [];
  }

  lemma PreReleaseReadsBack(v: SemVer)
    requires ValidSemVer(v) && v.pre != []
    ensures '+' !in RenderHead(v) && HeadKey(RenderHead(v)) == Some(KeyOf(v))
  {
    var core, pre := Join(CoreTexts(v.core), '.'), Join(PreTexts(v.pre), '.');
    PreReadsBack(v.pre);
    CoreReadsBack(v.core);
    assert RenderHead(v) == core + ['-'] + pre;
    assert HeadKey(core + ['-'] + pre) == Some(KeyOf(v)) by {
      CoreValue(v.core);
      PreHeadKey(core, pre);
    }
  }

  lemma BuildReadsBack(v: SemVer)
    requires ValidSemVer(v) && '+' !in RenderHead(v)
    ensures VersionKey(Render(v)) == HeadKey(RenderHead(v))
  {
    var head := RenderHead(v);
    if v.build == [] {
      NoBuild(head);
      assert Render(v) == head;
    } else {
      JoinLabels(v.build);
      BuildIgnored(head, Join(v.build, '.'));
      assert Render(v) == head + ['+'] + Join(v.build, '.');
    }
  }

  /** The key of a rendered Semantic Versioning text, field by field. */
  lemma RenderReadsBack(v: SemVer)
    requires ValidSemVer(v)
    ensures VersionKey(Render(v)) == Some(KeyOf(v))
  {
    if v.pre == [] {
      FinalReadsBack(v);
    } else {
      PreReleaseReadsBack(v);
    }
    BuildReadsBack(v);
  }

  // ---------------------------------------------------------------- agreement with section 11

  lemma TextAgrees(s: string, t: string)
    ensures CompareText(s, t) < 0 <==> TextBefore(s, t)
  {
    if CompareText(s, t) < 0 {
      var k := LexFindsDifference(CompareChar, s, t);
    }
    if TextBefore(s, t) {
      var k :| 0 <= k <= |s| && k <= |t| && s[..k] == t[..k]
        && (if k < |s| && k < |t| then s[k] < t[k] else k == |s| < |t|);
      DifferenceDecidesLex(CompareChar, s, t, k);
    }
  }

  lemma IdentifierIsStrict()
    ensures Strict(CompareIdentifier)
  {
    forall x, y ensures CompareIdentifier(x, y) == 0 <==> x == y {
      if x.Text? && y.Text? {
        LexZero(CompareChar, x.t, y.t);
      }
    }
  }

  lemma IdAgrees(p: PreId, q: PreId)
    ensures CompareIdentifier(IdKey(p), IdKey(q)) < 0 <==> IdBefore(LowerId(p), LowerId(q))
    ensures IdKey(p) == IdKey(q) <==> LowerId(p) == LowerId(q)
  {
    if p.Alpha? && q.Alpha? {
      TextAgrees(LowerText(p.t), LowerText(q.t));
    }
  }

  lemma PreDecides(a: SemVer, b: SemVer, k: nat)
    requires k <= |a.pre| && k <= |b.pre|
    ensures var p, q := Lowered(a).pre, Lowered(b).pre;
            DecidesAt(CompareIdentifier, KeyOf(a).identifiers, KeyOf(b).identifiers, k) <==>
            p[..k] == q[..k] && (if k < |p| && k < |q| then IdBefore(p[k], q[k]) else k == |p| < |q|)
  {
    var p, q := Lowered(a).pre, Lowered(b).pre;
    var x, y := KeyOf(a).identifiers, KeyOf(b).identifiers;
    forall i | 0 <= i < |p| && i < |q|
      ensures x[i] == y[i] <==> p[i] == q[i]
      ensures CompareIdentifier(x[i], y[i]) < 0 <==> IdBefore(p[i], q[i])
    {
      IdAgrees(a.pre[i], b.pre[i]);
    }
    assert x[..k] == y[..k] <==> (forall i :: 0 <= i < k ==> x[i] == y[i]) by {
      assert x[..k] == y[..k] ==> forall i :: 0 <= i < k ==> x[..k][i] == y[..k][i];
    }
    assert p[..k] == q[..k] <==> (forall i :: 0 <= i < k ==> p[i] == q[i]) by {
      assert p[..k] == q[..k] ==> forall i :: 0 <= i < k ==> p[..k][i] == q[..k][i];
    }
  }

  lemma PreAgrees(a: SemVer, b: SemVer)
    ensures Lex(CompareIdentifier, KeyOf(a).identifiers, KeyOf(b).identifiers) < 0
            <==> PreBefore(Lowered(a).pre, Lowered(b).pre)
  {
    var p, q := Lowered(a).pre, Lowered(b).pre;
    IdentifierIsStrict();
    if Lex(CompareIdentifier, KeyOf(a).identifiers, KeyOf(b).identifiers) < 0 {
      var k := LexFindsDifference(CompareIdentifier, KeyOf(a).identifiers, KeyOf(b).identifiers);
      PreDecides(a, b, k);
    }
    if PreBefore(p, q) {
      var k :| 0 <= k <= |p| && k <= |q| && p[..k] == q[..k]
        && (if k < |p| && k < |q| then IdBefore(p[k], q[k]) else k == |p| < |q|);
      PreDecides(a, b, k);
      DifferenceDecidesLex(CompareIdentifier, KeyOf(a).identifiers, KeyOf(b).identifiers, k);
    }
  }

  lemma CoreAgrees(a: SemVer, b: SemVer)
    requires |a.core| == |b.core| == 3
    ensures Lex(CompareNat, KeyOf(a).core, KeyOf(b).core) ==
            (if a.core[0] != b.core[0] then CompareNat(a.core[0], b.core[0])
             else if a.core[1] != b.core[1] then CompareNat(a.core[1], b.core[1])
             else CompareNat(a.core[2], b.core[2]))
  {
    var x, y := KeyOf(a).core, KeyOf(b).core;
    assert x[1..] == [a.core[1], a.core[2], 0] && y[1..] == [b.core[1], b.core[2], 0];
    var x2, y2 := [a.core[2], 0], [b.core[2], 0];
    assert x[1..][1..] == x2 && y[1..][1..] == y2;
    assert x2[1..] == [0] && y2[1..] == [0];
    assert Lex(CompareNat, [0], [0]) == 0;
    assert Lex(CompareNat, x2, y2) == CompareNat(a.core[2], b.core[2]);
  }

  /**
   * For every two Semantic Versioning texts the release key orders them as section 11 orders
   * the same versions with lower-cased pre-release identifiers.
   */
  lemma KeyAgreesWithSection11(a: SemVer, b: SemVer)
    requires ValidSemVer(a) && ValidSemVer(b)
    ensures VersionKey(Render(a)).Some? && VersionKey(Render(b)).Some?
    ensures CompareKey(VersionKey(Render(a)).value, VersionKey(Render(b)).value) < 0
            <==> Precedes(Lowered(a), Lowered(b))
  {
    RenderReadsBack(a);
    RenderReadsBack(b);
    CoreAgrees(a, b);
    PreAgrees(a, b);
  }

  /**
   * For Semantic Versioning texts an update is let through exactly when the two texts are the same or section 11
   * does not put the candidate, in lower case, before the active version, in lower case.
   */
  lemma NotDowngradeExactly(active: SemVer, candidate: SemVer)
    requires ValidSemVer(active) && ValidSemVer(candidate)
    ensures NotDowngrade(Some(Render(active)), Render(candidate))
            <==> Render(active) == Render(candidate) || !Precedes(Lowered(candidate), Lowered(active))
  {
    KeyAgreesWithSection11(candidate, active);
  }

  predicate IsLower(v: SemVer) { Lowered(v) == v }

  /** On lower-case versions the order is exactly that of section 11. */
  lemma LowerCaseAgrees(a: SemVer, b: SemVer)
    requires ValidSemVer(a) && ValidSemVer(b) && IsLower(a) && IsLower(b)
    ensures VersionKey(Render(a)).Some? && VersionKey(Render(b)).Some?
    ensures CompareKey(VersionKey(Render(a)).value, VersionKey(Render(b)).value) < 0 <==> Precedes(a, b)
  {
    KeyAgreesWithSection11(a, b);
  }

  /** With upper-case letters it is not: any two texts that differ only there get the same key. */
  lemma CaseIsIgnored(a: SemVer, b: SemVer)
    requires ValidSemVer(a) && ValidSemVer(b) && a.core == b.core && Lowered(a).pre == Lowered(b).pre
    ensures VersionKey(Render(a)).Some? && VersionKey(Render(a)) == VersionKey(Render(b))
  {
    RenderReadsBack(a);
    RenderReadsBack(b);
    forall i | 0 <= i < |a.pre| ensures IdKeys(a.pre)[i] == IdKeys(b.pre)[i] {
      assert Lowered(a).pre[i] == Lowered(b).pre[i];
    }
    assert IdKeys(a.pre) == IdKeys(b.pre);
  }

  /** ... although section 11 puts `1.0.0-A` before `1.0.0-a`. */
  lemma UpperCaseDiffers()
    ensures var a, b := SemVer([1, 0, 0], [Alpha("A")], []), SemVer([1, 0, 0], [Alpha("a")], []);
            && ValidSemVer(a) && ValidSemVer(b) && Precedes(a, b) && !Precedes(Lowered(a), Lowered(b))
            && VersionKey(Render(a)).Some? && VersionKey(Render(a)) == VersionKey(Render(b))
  {
    var a, b := SemVer([1, 0, 0], [Alpha("A")], []), SemVer([1, 0, 0], [Alpha("a")], []);
    assert "A"[..0] == "a"[..0] && a.pre[..0] == b.pre[..0];
    assert IdBefore(a.pre[0], b.pre[0]);
    var p, q := Lowered(a).pre, Lowered(b).pre;
    assert p == q by {
      assert LowerText("A") == LowerText("a");
    }
    assert !TextBefore(p[0].t, p[0].t);
    assert !PreBefore(p, q);
    CaseIsIgnored(a, b);
  }

  // ---------------------------------------------------------------- cores of other lengths

  lemma CoreKey(core: seq<nat>)
    requires core != []
    ensures VersionKey(Join(CoreTexts(core), '.')) == Some(Key(core + Padding(|core|), true, []))
  {
    var text := Join(CoreTexts(core), '.');
    CoreReadsBack(core);
    CoreValue(core);
    FinalHeadKey(text);
    NoBuild(text);
  }

  /** Trailing zeros up to the fourth number do not count ... */
  lemma ZerosAreFilledIn(core: seq<nat>)
    requires 1 <= |core| < 4
    ensures VersionKey(Join(CoreTexts(core + [0]), '.')) == VersionKey(Join(CoreTexts(core), '.'))
  {
    CoreKey(core);
    CoreKey(core + [0]);
    assert core + Padding(|core|) == core + [0] + Padding(|core + [0]|);
  }

  /** ... and after it they do. */
  lemma LaterZerosCount(core: seq<nat>)
    requires |core| >= 4
    ensures var short, long := VersionKey(Join(CoreTexts(core), '.')), VersionKey(Join(CoreTexts(core + [0]), '.'));
            short.Some? && long.Some? && CompareKey(short.value, long.value) < 0
  {
    CoreKey(core);
    CoreKey(core + [0]);
    assert core + Padding(|core|) == core && core + [0] + Padding(|core + [0]|) == core + [0];
    PrefixIsSmaller(core, [0]);
  }

  lemma {:induction false} PrefixIsSmaller(a: seq<nat>, b: seq<nat>)
    requires b != []
    ensures Lex(CompareNat, a, a + b) < 0
  {
    if a != [] {
      assert (a + b)[1..] == a[1..] + b;
      PrefixIsSmaller(a[1..], b);
    }
  }

  // ---------------------------------------------------------------- which texts are comparable

  /** Digits in groups of one or more, with single dots between them. */
  predicate IsCore(core: string)
  {
    && core != ""
    && (forall i :: 0 <= i < |core| ==> '0' <= core[i] <= '9' || core[i] == '.')
    && (forall i :: 0 <= i < |core| && core[i] == '.' ==> 0 < i < |core| - 1 && core[i - 1] != '.')
  }

  /** `[0-9A-Za-z.-]+`. */
  predicate IsTail(tail: string)
  {
    && tail != ""
    && forall i :: 0 <= i < |tail| ==>
         || 'a' <= tail[i] <= 'z' || 'A' <= tail[i] <= 'Z' || '0' <= tail[i] <= '9' || tail[i] == '-' || tail[i] == '.'
  }

  /** The text `core[-pre][+build]`. */
  function Assembled(core: string, pre: Option<string>, build: Option<string>): string
  {
    HeadOf(core, pre) + if build.Some? then "+" + build.value else ""
  }

  function HeadOf(core: string, pre: Option<string>): string { core + if pre.Some? then "-" + pre.value else "" }

  predicate WellFormed(core: string, pre: Option<string>, build: Option<string>)
  {
    IsCore(core) && (pre.Some? ==> IsTail(pre.value)) && (build.Some? ==> IsTail(build.value))
  }

  lemma {:induction false} CoreSplits(core: string)
    ensures NumericParts(Split(core, '.')) <==> IsCore(core)
    decreases |core|
  {
    var dot, parts := IndexOf(core, '.'), Split(core, '.');
    if dot == |core| {
      assert parts[0] == core;
    } else {
      var first, rest := core[..dot], core[dot + 1..];
      CoreSplits(rest);
      assert parts == [first] + Split(rest, '.');
      FirstPart(parts, first, Split(rest, '.'));
      CoreJoins(core, first, rest);
    }
  }

  lemma FirstPart(parts: seq<string>, first: string, rest: seq<string>)
    requires parts == [first] + rest
    ensures NumericParts(parts) <==> first != "" && AllDigits(first) && NumericParts(rest)
  {
    assert parts[0] == first && forall i :: 0 <= i < |rest| ==> parts[i + 1] == rest[i];
  }

  lemma CoreJoins(core: string, first: string, rest: string)
    requires core == first + ['.'] + rest && '.' !in first
    ensures IsCore(core) <==> first != "" && AllDigits(first) && IsCore(rest)
  {
    var dot := |first|;
    assert core[dot] == '.';
    assert forall i :: 0 <= i < dot ==> core[i] == first[i];
    assert forall i :: 0 <= i < |rest| ==> rest[i] == core[dot + 1 + i];
    if first != "" && AllDigits(first) && IsCore(rest) {
      forall i | 0 <= i < |core| && core[i] == '.' ensures 0 < i < |core| - 1 && core[i - 1] != '.' {
        if i > dot {
          assert rest[i - dot - 1] == '.';
        }
      }
    }
    if IsCore(core) {
      forall i | 0 <= i < |rest| && rest[i] == '.' ensures 0 < i < |rest| - 1 && rest[i - 1] != '.' {
        assert core[dot + 1 + i] == '.';
      }
    }
  }

  lemma TailMeans(tail: string)
    ensures IsTail(tail) <==> tail != "" && AllLabelChars(tail)
    ensures IsTail(tail) ==> '+' !in tail
  {
  }

  lemma HeadExactly(core: string, pre: Option<string>)
    requires IsCore(core) && (pre.Some? ==> IsTail(pre.value))
    ensures HeadKey(HeadOf(core, pre)).Some? && '+' !in HeadOf(core, pre)
  {
    assert '-' !in core;
    CoreSplits(core);
    if pre.Some? {
      PreHeadKey(core, pre.value);
      TailMeans(pre.value);
      assert HeadOf(core, pre) == core + ['-'] + pre.value;
    } else {
      FinalHeadKey(core);
      assert HeadOf(core, pre) == core;
    }
  }

  /** A version text is comparable exactly when it has the form `core[-pre][+build]`. */
  lemma ComparableExactly(s: string)
    ensures VersionKey(s).Some? <==>
            exists core, pre, build :: WellFormed(core, pre, build) && s == Assembled(core, pre, build)
  {
    if VersionKey(s).Some? {
      var core, pre, build := Disassemble(s);
    }
    if core, pre, build :| WellFormed(core, pre, build) && s == Assembled(core, pre, build) {
      AssembledIsComparable(s, core, pre, build);
    }
  }

  lemma Disassemble(s: string) returns (core: string, pre: Option<string>, build: Option<string>)
    requires VersionKey(s).Some?
    ensures WellFormed(core, pre, build) && s == Assembled(core, pre, build)
  {
    var plus := IndexOf(s, '+');
    core, pre := DisassembleHead(s[..plus]);
    build := if plus == |s| then None else Some(s[plus + 1..]);
    if build.Some? { TailMeans(build.value); }
  }

  lemma DisassembleHead(head: string) returns (core: string, pre: Option<string>)
    requires HeadKey(head).Some?
    ensures IsCore(core) && (pre.Some? ==> IsTail(pre.value)) && head == HeadOf(core, pre)
  {
    var dash := IndexOf(head, '-');
    core := head[..dash];
    CoreSplits(core);
    if dash == |head| {
      pre := None;
    } else {
      pre := Some(head[dash + 1..]);
      TailMeans(head[dash + 1..]);
      assert head == core + ("-" + head[dash + 1..]);
    }
  }

  lemma AssembledIsComparable(s: string, core: string, pre: Option<string>, build: Option<string>)
    requires WellFormed(core, pre, build) && s == Assembled(core, pre, build)
    ensures VersionKey(s).Some?
  {
    var head := HeadOf(core, pre);
    HeadExactly(core, pre);
    if build.Some? {
      TailMeans(build.value);
      BuildIgnored(head, build.value);
      assert s == head + ['+'] + build.value;
    } else {
      NoBuild(head);
      assert s == head;
    }
  }
}
