/** The answers that a semantic review lets through, in plain terms: rows, quotes and names. */
module ReviewMeaning {
  import opened Wrappers
  import opened Texts
  import opened TextLaws
  import opened Lists
  import opened CaseContract
  import opened SemanticReview
  import opened ReviewSoundness
  import opened ReviewAcceptance
  import opened RepairAcceptance

  // ---------------------------------------------------------------- rows

  /** Item `i` is the one item with the property. */
  predicate IsOnly<T>(p: T -> bool, items: seq<T>, i: nat)
  {
    i < |items| && p(items[i]) && forall k :: 0 <= k < |items| && p(items[k]) ==> k == i
  }

  function Itself<T>(): T -> T { (item: T) => item }

  lemma OnlyExactly<T>(p: T -> bool, items: seq<T>)
    ensures |Picked(p, Itself(), items)| == 1 <==> exists i: nat :: IsOnly(p, items, i)
    ensures forall i: nat :: IsOnly(p, items, i) ==> Picked(p, Itself(), items)[0] == items[i]
  {
    var at := PickedPositions(p, Itself(), items);
    assert |at| > 1 ==> at[0] < at[1];
    if |at| == 1 {
      forall k | 0 <= k < |items| && p(items[k]) ensures k == at[0] {
        assert k in at;
      }
      assert p(items[at[0]]) by {
        assert at[0] in at;
      }
      assert IsOnly(p, items, at[0]);
    }
    forall i: nat | IsOnly(p, items, i) ensures |at| == 1 && at[0] == i {
      assert i in at;
      forall j | 0 <= j < |at| ensures at[j] == i {
        assert at[j] in at;
      }
    }
  }

  function ForCriterion(id: string): RawGrounding -> bool { (item: RawGrounding) => item.criterionId == id }

  function ForRow(id: string): RawCoverage -> bool { (item: RawCoverage) => item.id == id }

  function ForFact(id: string): RawFact -> bool { (item: RawFact) => item.factId == id }

  lemma {:induction false} GroundingsArePicked(items: seq<RawGrounding>, id: string)
    ensures GroundingsFor(items, id) == Picked(ForCriterion(id), Itself(), items)
  {
    if items != [] {
      GroundingsArePicked(items[1..], id);
    }
  }

  lemma {:induction false} CoverageIsPicked(items: seq<RawCoverage>, id: string)
    ensures CoverageFor(items, id) == Picked(ForRow(id), Itself(), items)
  {
    if items != [] {
      CoverageIsPicked(items[1..], id);
    }
  }

  lemma {:induction false} FactsArePicked(items: seq<RawFact>, id: string)
    ensures FactsFor(items, id) == Picked(ForFact(id), Itself(), items)
  {
    if items != [] {
      FactsArePicked(items[1..], id);
    }
  }

  // ---------------------------------------------------------------- quotes

  /** Some text of the source contains the passage literally. */
  ghost predicate Contains(texts: seq<string>, passage: string)
  {
    exists i, before, after :: 0 <= i < |texts| && texts[i] == before + passage + after
  }

  lemma ContainsExactly(texts: seq<string>, passage: string)
    ensures Contains(texts, passage) <==> exists i :: 0 <= i < |texts| && Includes(texts[i], passage)
  {
    if i, before, after :| 0 <= i < |texts| && texts[i] == before + passage + after {
      assert OccursAt(texts[i], passage, |before|);
    }
    if i :| 0 <= i < |texts| && Includes(texts[i], passage) {
      var k :| 0 <= k <= |texts[i]| && OccursAt(texts[i], passage, k);
      assert texts[i] == texts[i][..k] + passage + texts[i][k + |passage|..];
    }
  }

  /** A quote of at least three characters, outer white space apart, that stands in the source it names. */
  ghost predicate Verbatim(sources: map<string, seq<string>>, e: Evidence)
  {
    exists passage :: IsTrimOf(e.quote, passage) && |passage| >= 3
                      && e.sourceId in sources && Contains(sources[e.sourceId], passage)
  }

  lemma VerbatimExactly(context: Context, e: Evidence)
    ensures Verbatim(context.sources, e) <==> QuoteExists(context, e)
  {
    TrimExactly(e.quote, Trim(e.quote));
    if e.sourceId in context.sources {
      ContainsExactly(context.sources[e.sourceId], Trim(e.quote));
    }
    forall passage | IsTrimOf(e.quote, passage) ensures passage == Trim(e.quote) {
      TrimExactly(e.quote, passage);
    }
  }

  // ---------------------------------------------------------------- names of criteria

  /** Equal, or equal up to leading zeros of a number after the last dash. */
  ghost predicate SameName(a: string, b: string)
  {
    a == b || exists stem, m, n :: NumberedAlike(a, b, stem, m, n)
  }

  predicate NumberedAlike(a: string, b: string, stem: string, m: string, n: string)
  {
    && a == stem + "-" + m && b == stem + "-" + n
    && m != "" && n != "" && AllDigits(m) && AllDigits(n) && Decimal(m) == Decimal(n)
  }

  lemma {:induction false} LastDashAt(stem: string, digits: string, n: nat)
    requires AllDigits(digits) && |stem| < n <= |stem| + 1 + |digits|
    ensures LastDash(stem + "-" + digits, n) == |stem|
  {
    var id := stem + "-" + digits;
    if n - 1 == |stem| {
      assert id[n - 1] == '-';
    } else {
      assert id[n - 1] == digits[n - 2 - |stem|];
      LastDashAt(stem, digits, n - 1);
    }
  }

  lemma NumberedNormalizes(stem: string, digits: string)
    requires digits != "" && AllDigits(digits)
    ensures NormalizeId(stem + "-" + digits) == stem + "-" + DecimalText(Decimal(digits))
  {
    var id := stem + "-" + digits;
    LastDashAt(stem, digits, |id|);
    assert id[..|stem| + 1] == stem + "-" && id[|stem| + 1..] == digits;
  }

  /** The parts of a name that ends in a number. */
  lemma Numbered(id: string) returns (stem: string, digits: string)
    requires NormalizeId(id) != id
    ensures id == stem + "-" + digits && digits != "" && AllDigits(digits)
  {
    var k := LastDash(id, |id|);
    DashIsThere(id, |id|);
    stem, digits := id[..k], id[k + 1..];
  }

  lemma {:induction false} DashIsThere(id: string, n: nat)
    requires n <= |id| && LastDash(id, n) < |id|
    ensures id[LastDash(id, n)] == '-'
  {
    if n > 0 && id[n - 1] != '-' {
      DashIsThere(id, n - 1);
    }
  }

  /** A name in normal form is its own, or the number in it has no leading zero to drop. */
  lemma NormalFormAgrees(a: string, b: string)
    requires NormalizeId(a) != a && NormalizeId(a) == NormalizeId(b)
    ensures SameName(a, b)
  {
    var stem, m := Numbered(a);
    var normal := DecimalText(Decimal(m));
    NumberedNormalizes(stem, m);
    DecimalRoundTrip(Decimal(m));
    if NormalizeId(b) == b {
      assert NumberedAlike(a, b, stem, m, normal);
    } else {
      var other, n := Numbered(b);
      var also := DecimalText(Decimal(n));
      NumberedNormalizes(other, n);
      DecimalRoundTrip(Decimal(n));
      SameEnds(stem, normal, other, also);
      assert NumberedAlike(a, b, stem, m, n);
    }
  }

  lemma SameEnds(stem: string, m: string, other: string, n: string)
    requires AllDigits(m) && AllDigits(n) && stem + "-" + m == other + "-" + n
    ensures stem == other && m == n
  {
    var id := stem + "-" + m;
    LastDashAt(stem, m, |id|);
    LastDashAt(other, n, |id|);
    assert id[..|stem|] == stem && id[|stem| + 1..] == m && id[..|other|] == other && id[|other| + 1..] == n;
  }

  lemma SameNameExactly(a: string, b: string)
    ensures NormalizeId(a) == NormalizeId(b) <==> SameName(a, b)
  {
    if NormalizeId(a) == NormalizeId(b) {
      if NormalizeId(a) != a {
        NormalFormAgrees(a, b);
      } else if NormalizeId(b) != b {
        NormalFormAgrees(b, a);
        if stem, m, n :| NumberedAlike(b, a, stem, m, n) {
          assert NumberedAlike(a, b, stem, n, m);
        }
      }
    }
    if stem, m, n :| NumberedAlike(a, b, stem, m, n) {
      NumberedNormalizes(stem, m);
      NumberedNormalizes(stem, n);
    }
  }

  ghost function NamedLike(name: string): string -> bool { (id: string) => SameName(id, name) }

  /** `id` is what the text names: it is there as it stands, or it is the one that has the same name. */
  ghost predicate Names(known: seq<string>, raw: string, id: string)
  {
    var name := Trim(raw);
    if name in known then id == name
    else exists i: nat :: IsOnly(NamedLike(name), known, i) && known[i] == id
  }

  lemma {:induction false} MatchingIsPicked(ids: seq<string>, name: string)
    ensures Matching(ids, name) == Picked(NamedLike(name), Itself(), ids)
  {
    if ids != [] {
      SameNameExactly(ids[0], name);
      MatchingIsPicked(ids[1..], name);
    }
  }

  lemma CanonicalExactly(raw: string, known: seq<string>, id: string)
    ensures CanonicalId(raw, known) == Some(id) <==> Names(known, raw, id)
  {
    var name := Trim(raw);
    MatchingIsPicked(known, name);
    OnlyExactly(NamedLike(name), known);
  }

  // ---------------------------------------------------------------- what is asked for

  predicate Asked(q: Request, id: string)
  {
    id in q.ids && (q.expectedIds.Some? ==> id in q.expectedIds.value)
  }

  predicate AskedFact(q: Request, fact: Fact)
  {
    fact in q.context.facts && (q.expectedFacts.Some? ==> fact.id in q.expectedFacts.value)
  }

  lemma AskedExactly(q: Request, id: string)
    ensures id in CriterionIds(q) <==> Asked(q, id)
    ensures id in q.ids && id in Expected(q) <==> Asked(q, id)
  {
    KeepMembers(q.ids, Expected(q), id);
  }

  lemma AskedFactExactly(q: Request, fact: Fact)
    ensures fact in RequiredFacts(q) <==> AskedFact(q, fact)
  {
    if q.expectedFacts.Some? {
      KeptFactMembers(q.context.facts, SetOf(q.expectedFacts.value), fact);
    }
  }

  // ---------------------------------------------------------------- one criterion, scenario or fact

  /** Row `i` is the only one for the criterion, and all of its parts are there. */
  predicate GroundingAt(q: Request, id: string, i: nat)
  {
    && IsOnly(ForCriterion(id), q.raw.grounding, i)
    && var row := q.raw.grounding[i];
       !row.status.OtherBacking? && !Blank(row.reason) && row.evidence.Some? && row.assumptionIds.Some?
  }

  /** The row cites only passages and accepted assumptions that exist, and at least one of the kind its status needs. */
  ghost predicate BacksUp(q: Request, row: RawGrounding)
    requires row.evidence.Some? && row.assumptionIds.Some?
  {
    && (forall e :: e in row.evidence.value ==> Verbatim(q.context.sources, e))
    && (forall a :: a in row.assumptionIds.value ==> a in q.context.accepted)
    && !row.status.Unsupported?
    && (if row.status.Assumption? then row.assumptionIds.value != [] else row.evidence.value != [])
  }

  ghost predicate HasGrounding(q: Request, id: string) { exists i: nat :: GroundingAt(q, id, i) }

  ghost predicate GroundingPassesPlainly(q: Request, m: Mend, id: string)
  {
    if HasGrounding(q, id)
    then exists i: nat :: GroundingAt(q, id, i) && BacksUp(q, q.raw.grounding[i])
                          && (m.strict ==> !q.raw.grounding[i].status.Inferred?)
    else id in m.ids
  }

  lemma HasGroundingExactly(q: Request, id: string)
    ensures HasGrounding(q, id) <==> GroundingShaped(GroundingsFor(q.raw.grounding, id))
    ensures forall i: nat :: GroundingAt(q, id, i) ==> GroundingsFor(q.raw.grounding, id)[0] == q.raw.grounding[i]
  {
    GroundingsArePicked(q.raw.grounding, id);
    OnlyExactly(ForCriterion(id), q.raw.grounding);
    var entries := GroundingsFor(q.raw.grounding, id);
    if GroundingShaped(entries) {
      var i: nat :| IsOnly(ForCriterion(id), q.raw.grounding, i);
      assert GroundingAt(q, id, i);
    }
  }

  lemma BacksUpExactly(q: Request, id: string)
    requires GroundingShaped(GroundingsFor(q.raw.grounding, id))
    ensures WellGrounded(q, id) <==> BacksUp(q, GroundingsFor(q.raw.grounding, id)[0])
  {
    var row := GroundingsFor(q.raw.grounding, id)[0];
    forall e ensures Verbatim(q.context.sources, e) <==> QuoteExists(q.context, e) {
      VerbatimExactly(q.context, e);
    }
    assert AllAccepted(q.context, row.assumptionIds.value) <==>
           forall a :: a in row.assumptionIds.value ==> a in q.context.accepted;
  }

  lemma GroundingPlainlyExactly(q: Request, m: Mend, id: string)
    ensures GroundingPasses(q, m, id) <==> GroundingPassesPlainly(q, m, id)
  {
    HasGroundingExactly(q, id);
    if HasGrounding(q, id) {
      BacksUpExactly(q, id);
      var i: nat :| GroundingAt(q, id, i);
    }
  }

  /** A readable row: only steps that exist and, if it says that it covers, at least one. */
  predicate ProperCoverage(q: Request, row: RawCoverage)
  {
    && !row.status.OtherCoverage? && !Blank(row.reason)
    && (forall step :: step in row.steps ==> step.Some? && step.value in q.steps)
    && (row.status.Covered? ==> row.steps != [])
  }

  predicate CoverageAt(q: Request, id: string, i: nat)
  {
    IsOnly(ForRow(id), q.raw.coverage, i) && ProperCoverage(q, q.raw.coverage[i])
  }

  ghost predicate HasCoverage(q: Request, id: string) { exists i: nat :: CoverageAt(q, id, i) }

  ghost predicate CoveragePassesPlainly(q: Request, m: Mend, id: string)
  {
    if HasCoverage(q, id)
    then q.planned.Some? || exists i: nat :: CoverageAt(q, id, i) && q.raw.coverage[i].status.Covered?
    else id in m.ids
  }

  lemma ProperCoverageExactly(q: Request, row: RawCoverage)
    ensures ProperCoverage(q, row) <==> CoverageShaped(q, [row])
  {
    assert StepsExist(q, row.steps) <==> forall step :: step in row.steps ==> step.Some? && step.value in q.steps;
  }

  lemma HasCoverageExactly(q: Request, id: string)
    ensures HasCoverage(q, id) <==> CoverageShaped(q, CoverageFor(q.raw.coverage, id))
    ensures forall i: nat :: CoverageAt(q, id, i) ==> CoverageFor(q.raw.coverage, id)[0] == q.raw.coverage[i]
  {
    CoverageIsPicked(q.raw.coverage, id);
    OnlyExactly(ForRow(id), q.raw.coverage);
    var entries := CoverageFor(q.raw.coverage, id);
    if |entries| == 1 {
      ProperCoverageExactly(q, entries[0]);
      assert entries == [entries[0]];
      var i: nat :| IsOnly(ForRow(id), q.raw.coverage, i);
      assert CoverageAt(q, id, i) <==> CoverageShaped(q, entries);
    }
  }

  lemma CoveragePlainlyExactly(q: Request, m: Mend, id: string)
    ensures CoveragePasses(q, m, id) <==> CoveragePassesPlainly(q, m, id)
  {
    HasCoverageExactly(q, id);
    if HasCoverage(q, id) {
      var i: nat :| CoverageAt(q, id, i);
    }
  }

  /** The one row that the answer has on scenarios is about the planned one, and says that it is covered. */
  predicate ScenarioCovered(q: Request)
  {
    && q.planned.Some? && q.planned.value != ""
    && |q.raw.scenarios| == 1 && q.raw.scenarios[0].id == q.planned.value
    && ProperCoverage(q, q.raw.scenarios[0]) && q.raw.scenarios[0].status.Covered?
  }

  predicate AllFor(rows: seq<RawCoverage>, id: string) { forall i :: 0 <= i < |rows| ==> rows[i].id == id }

  lemma {:induction false} AllForOne(rows: seq<RawCoverage>, id: string)
    requires AllFor(rows, id)
    ensures CoverageFor(rows, id) == rows
  {
    if rows != [] {
      AllForOne(rows[1..], id);
    }
  }

  lemma ScenarioCoveredExactly(q: Request)
    ensures ScenarioCovered(q) <==> ScenarioShaped(q) && ScenarioAnswered(q)
  {
    if q.planned.Some? && AllFor(q.raw.scenarios, q.planned.value) {
      AllForOne(q.raw.scenarios, q.planned.value);
      if |q.raw.scenarios| == 1 {
        ProperCoverageExactly(q, q.raw.scenarios[0]);
        assert q.raw.scenarios == [q.raw.scenarios[0]];
      }
    }
  }

  /** Row `i` is the only one for the fact and repeats its source and quote, which stands there. */
  ghost predicate FactAt(q: Request, fact: Fact, i: nat)
  {
    && IsOnly(ForFact(fact.id), q.raw.facts, i)
    && var row := q.raw.facts[i];
       && row.sourceId == Text(fact.sourceId) && row.quote == Text(fact.quote)
       && fact.sourceId in q.context.sources && Contains(q.context.sources[fact.sourceId], fact.quote)
       && !row.status.OtherCoverage? && !Blank(row.reason)
       && forall id :: id in row.criterionIds ==> id in q.ids
  }

  ghost predicate FactCoveredPlainly(q: Request, fact: Fact)
  {
    exists i: nat :: FactAt(q, fact, i) && q.raw.facts[i].status.Covered? && q.raw.facts[i].criterionIds != []
  }

  lemma HasFactExactly(q: Request, fact: Fact)
    ensures (exists i: nat :: FactAt(q, fact, i)) <==> FactShaped(q, fact, FactsFor(q.raw.facts, fact.id))
    ensures forall i: nat :: FactAt(q, fact, i) ==> FactsFor(q.raw.facts, fact.id)[0] == q.raw.facts[i]
  {
    FactsArePicked(q.raw.facts, fact.id);
    OnlyExactly(ForFact(fact.id), q.raw.facts);
    var entries := FactsFor(q.raw.facts, fact.id);
    if fact.sourceId in q.context.sources {
      ContainsExactly(q.context.sources[fact.sourceId], fact.quote);
    }
    if |entries| == 1 {
      var i: nat :| IsOnly(ForFact(fact.id), q.raw.facts, i);
      assert FactAt(q, fact, i) <==> FactShaped(q, fact, entries);
    }
  }

  lemma FactPlainlyExactly(q: Request, fact: Fact)
    ensures FactAnswered(q, fact) <==> FactCoveredPlainly(q, fact)
  {
    HasFactExactly(q, fact);
    if FactAnswered(q, fact) {
      var i: nat :| FactAt(q, fact, i);
    }
  }

  // ---------------------------------------------------------------- the traceability part

  ghost predicate TracePassesPlainly(q: Request, m: Mend)
  {
    && (forall id :: Asked(q, id) ==> GroundingPassesPlainly(q, m, id))
    && (forall row :: row in q.raw.grounding ==> Asked(q, row.criterionId))
    && (if q.kind.Case? then
          && (if q.planned.None? then q.raw.scenarios == [] else ScenarioCovered(q))
          && (forall id :: Asked(q, id) ==> CoveragePassesPlainly(q, m, id))
        else m.facts || FactsPassPlainly(q))
  }

  ghost predicate FactsPassPlainly(q: Request)
  {
    && (forall fact :: AskedFact(q, fact) ==> FactCoveredPlainly(q, fact))
    && (forall row :: row in q.raw.facts ==> exists fact :: AskedFact(q, fact) && fact.id == row.factId)
  }

  lemma CriteriaPlainly(q: Request, m: Mend)
    ensures (forall i :: 0 <= i < |CriterionIds(q)| ==> GroundingPasses(q, m, CriterionIds(q)[i])) <==>
            forall id :: Asked(q, id) ==> GroundingPassesPlainly(q, m, id)
    ensures (forall i :: 0 <= i < |CriterionIds(q)| ==> CoveragePasses(q, m, CriterionIds(q)[i])) <==>
            forall id :: Asked(q, id) ==> CoveragePassesPlainly(q, m, id)
    ensures ForeignGrounding(q) <==> !forall row :: row in q.raw.grounding ==> Asked(q, row.criterionId)
  {
    forall id
      ensures GroundingPasses(q, m, id) <==> GroundingPassesPlainly(q, m, id)
      ensures CoveragePasses(q, m, id) <==> CoveragePassesPlainly(q, m, id)
      ensures id in CriterionIds(q) <==> Asked(q, id)
      ensures id in q.ids && id in Expected(q) <==> Asked(q, id)
    {
      GroundingPlainlyExactly(q, m, id);
      CoveragePlainlyExactly(q, m, id);
      AskedExactly(q, id);
    }
  }

  lemma FactsPlainly(q: Request)
    ensures FactsPassPlainly(q) <==>
            !ForeignFact(q) && forall i :: 0 <= i < |RequiredFacts(q)| ==> FactAnswered(q, RequiredFacts(q)[i])
  {
    forall fact
      ensures FactAnswered(q, fact) <==> FactCoveredPlainly(q, fact)
      ensures fact in RequiredFacts(q) <==> AskedFact(q, fact)
    {
      FactPlainlyExactly(q, fact);
      AskedFactExactly(q, fact);
    }
    var required, rows := RequiredFacts(q), q.raw.facts;
    assert (forall i :: 0 <= i < |required| ==> FactAnswered(q, required[i])) <==>
           forall fact :: AskedFact(q, fact) ==> FactCoveredPlainly(q, fact) by {
      assert forall fact :: fact in required <==> exists i :: 0 <= i < |required| && required[i] == fact;
    }
    ForeignPlainly(q);
  }

  lemma ForeignPlainly(q: Request)
    ensures ForeignFact(q) <==>
            !forall row :: row in q.raw.facts ==> exists fact :: AskedFact(q, fact) && fact.id == row.factId
  {
    var required := RequiredFacts(q);
    forall fact ensures fact in required <==> AskedFact(q, fact) {
      AskedFactExactly(q, fact);
    }
    if ForeignFact(q) {
      var i :| 0 <= i < |q.raw.facts| && forall k :: 0 <= k < |required| ==> q.raw.facts[i].factId != required[k].id;
      assert q.raw.facts[i] in q.raw.facts;
      assert forall fact :: fact in required ==> fact.id != q.raw.facts[i].factId;
    } else {
      forall row | row in q.raw.facts ensures exists fact :: AskedFact(q, fact) && fact.id == row.factId {
        var i :| 0 <= i < |q.raw.facts| && q.raw.facts[i] == row;
        var k :| 0 <= k < |required| && row.factId == required[k].id;
        assert AskedFact(q, required[k]);
      }
    }
  }

  lemma TracePlainlyExactly(q: Request, m: Mend)
    ensures TracePasses(q, m) <==> TracePassesPlainly(q, m)
  {
    CriteriaPlainly(q, m);
    ScenarioCoveredExactly(q);
    FactsPlainly(q);
    if q.kind.Case? {
      assert ScenarioAnswered(q) <==> if q.planned.None? then q.raw.scenarios == [] else ScenarioCovered(q);
      assert TracePasses(q, m) <==>
             && (forall i :: 0 <= i < |CriterionIds(q)| ==> GroundingPasses(q, m, CriterionIds(q)[i]))
             && !ForeignGrounding(q) && ScenarioAnswered(q)
             && (forall i :: 0 <= i < |CriterionIds(q)| ==> CoveragePasses(q, m, CriterionIds(q)[i]));
    } else {
      assert TracePasses(q, m) <==>
             && (forall i :: 0 <= i < |CriterionIds(q)| ==> GroundingPasses(q, m, CriterionIds(q)[i]))
             && !ForeignGrounding(q) && (m.facts || FactsPassPlainly(q));
      assert TracePassesPlainly(q, m) <==>
             && (forall id :: Asked(q, id) ==> GroundingPassesPlainly(q, m, id))
             && (forall row :: row in q.raw.grounding ==> Asked(q, row.criterionId))
             && (m.facts || FactsPassPlainly(q));
    }
  }

  // ---------------------------------------------------------------- the stated findings

  /** A finding with a severity, a message and a scope that exist, about a criterion that is asked for, if any. */
  ghost predicate Understood(q: Request, item: RawFinding)
  {
    && (item.severity.Notice? || item.severity.Blocking?)
    && (item.message.Said? ==> !Blank(item.message.text))
    && (if item.scope.None? then q.planned.None? else !item.scope.value.OtherScope?)
    && (item.criterionId == "" || exists id :: Names(q.ids, item.criterionId, id) && Asked(q, id))
    && !item.disposition.OtherDisposition?
    && (item.disposition.Actionable? || item.boundaryIds != [])
    && forall b :: b in item.boundaryIds ==> b in q.context.boundaries
  }

  predicate AboutParent(q: Request, item: RawFinding) { q.planned.Some? && item.scope == Some(ParentScope) }

  lemma UnderstoodExactly(q: Request, item: RawFinding)
    ensures FindingValid(q, item) <==> Understood(q, item)
    ensures IsParentNotice(q, item) <==> AboutParent(q, item)
  {
    assert BoundariesKnown(q, item) <==> forall b :: b in item.boundaryIds ==> b in q.context.boundaries;
    forall id
      ensures CanonicalId(item.criterionId, q.ids) == Some(id) <==> Names(q.ids, item.criterionId, id)
      ensures Names(q.ids, item.criterionId, id) ==> (id in Expected(q) <==> Asked(q, id))
    {
      CanonicalExactly(item.criterionId, q.ids, id);
      AskedExactly(q, id);
    }
  }

  /** The message is one that the repair of the criteria in `m.ids`, or of the facts, sets right. */
  ghost predicate Mended(q: Request, m: Mend, item: RawFinding)
  {
    || ((item.message.MissingGrounding? || item.message.MissingCoverage?)
        && if item.criterionId == "" then "" in m.ids
           else exists id :: Names(q.ids, item.criterionId, id) && id in m.ids)
    || ((item.message.MissingFact? || item.message.UncoveredFact? || item.message.ForeignFacts?) && m.facts)
  }

  ghost predicate TolerablePlainly(q: Request, m: Mend, item: RawFinding)
  {
    && Understood(q, item)
    && (|| item.disposition.Omission? || Mended(q, m, item)
        || (!m.strict && item.severity.Notice?)
        || (!m.strict && AboutParent(q, item))
        || (!m.strict && m.settled && item.scope == Some(ScenarioScope)))
  }

  lemma TolerablePlainlyExactly(q: Request, m: Mend, item: RawFinding)
    ensures Tolerable(q, m, item) <==> TolerablePlainly(q, m, item)
  {
    UnderstoodExactly(q, item);
    if FindingValid(q, item) && item.criterionId != "" {
      var id := ResolvedId(q, item).value;
      CanonicalExactly(item.criterionId, q.ids, id);
      forall other | Names(q.ids, item.criterionId, other) ensures other == id {
        CanonicalExactly(item.criterionId, q.ids, other);
      }
    }
    assert ScopeOf(q, item).ScenarioScope? <==> item.scope == Some(ScenarioScope);
    assert FindingValid(q, item) ==>
           (MendsMessage(m, item.message, ResolvedId(q, item).value) <==> Mended(q, m, item));
  }

  // ---------------------------------------------------------------- the whole answer

  /** `ReviewAcceptance.Passes` in plain terms. */
  ghost predicate PassesPlainly(q: Request, m: Mend)
  {
    && !q.raw.verdict.NoVerdict? && q.raw.findings.Some?
    && (forall item :: item in q.raw.findings.value ==> TolerablePlainly(q, m, item))
    && (q.stage.Traceability? ==> TracePassesPlainly(q, m))
  }

  lemma PassesPlainlyExactly(q: Request, m: Mend)
    ensures Passes(q, m) <==> PassesPlainly(q, m)
  {
    TracePlainlyExactly(q, m);
    forall item ensures Tolerable(q, m, item) <==> TolerablePlainly(q, m, item) {
      TolerablePlainlyExactly(q, m, item);
    }
    var items := ReviewerFindings(q);
    assert (forall i :: 0 <= i < |items| ==> Tolerable(q, m, items[i])) <==>
           forall item :: item in items ==> TolerablePlainly(q, m, item);
  }

  /** The traceability answer on a case says that its planned scenario is covered. */
  predicate SettledPlainly(q: Request) { q.stage.Traceability? && q.kind.Case? && ScenarioCovered(q) }

  lemma SettledExactly(q: Request)
    ensures Settled(q) <==> SettledPlainly(q)
  {
    ScenarioCoveredExactly(q);
  }

  /** The finding does not block, or says in so many words that it is about the scenario or the parent criterion. */
  predicate Outside(item: RawFinding)
  {
    || !item.severity.Blocking?
    || (item.scopeIsText && (item.scope == Some(ParentScope) || item.scope == Some(ScenarioScope)))
  }

  ghost predicate Dismissed(q: Request, item: RawFinding)
  {
    Understood(q, item) && (item.disposition.Omission? || AboutParent(q, item))
  }

  lemma DismissedExactly(q: Request, item: RawFinding)
    ensures Dismissed(q, item) <==> IsSetAside(q, item)
  {
    UnderstoodExactly(q, item);
  }

  /** Why a FAIL of the answer itself does not count: everything it states is about something else. */
  ghost predicate Excused(q: Request)
  {
    && q.raw.findings.Some? && q.raw.findings.value != []
    && (|| (&& (SettledPlainly(q) || (q.stage.Quality? && q.planned.Some?))
            && forall item :: item in q.raw.findings.value ==> Outside(item))
        || forall item :: item in q.raw.findings.value ==> Dismissed(q, item))
  }

  /** How many of the first `n` are dismissed. */
  ghost function DismissedCount(q: Request, n: nat): nat
    requires n <= |ReviewerFindings(q)|
  {
    if n == 0 then 0 else DismissedCount(q, n - 1) + if Dismissed(q, ReviewerFindings(q)[n - 1]) then 1 else 0
  }

  lemma {:induction false} SetAsideIsCount(q: Request, n: nat)
    requires n <= |ReviewerFindings(q)|
    ensures SetAside(q, n) == DismissedCount(q, n)
  {
    if n > 0 {
      SetAsideIsCount(q, n - 1);
      SetAsideStep(q, n);
    }
  }

  lemma {:induction false} CountIsFull(q: Request, n: nat)
    requires n <= |ReviewerFindings(q)|
    ensures DismissedCount(q, n) <= n
    ensures DismissedCount(q, n) == n <==> forall i :: 0 <= i < n ==> Dismissed(q, ReviewerFindings(q)[i])
  {
    if n > 0 {
      CountIsFull(q, n - 1);
    }
  }

  lemma AllSetAside(q: Request)
    ensures SetAside(q, |ReviewerFindings(q)|) == |ReviewerFindings(q)| <==>
            forall i :: 0 <= i < |ReviewerFindings(q)| ==> Dismissed(q, ReviewerFindings(q)[i])
  {
    SetAsideIsCount(q, |ReviewerFindings(q)|);
    CountIsFull(q, |ReviewerFindings(q)|);
  }

  lemma SetAsideStep(q: Request, n: nat)
    requires 0 < n <= |ReviewerFindings(q)|
    ensures SetAside(q, n) == SetAside(q, n - 1) + if Dismissed(q, ReviewerFindings(q)[n - 1]) then 1 else 0
  {
    DismissedExactly(q, ReviewerFindings(q)[n - 1]);
  }

  lemma ExcusedExactly(q: Request)
    requires q.raw.findings.Some?
    ensures RejectionExcused(q, Settled(q)) <==> Excused(q)
  {
    SettledExactly(q);
    AllSetAside(q);
    OutsideExactly(q);
  }

  lemma OutsideExactly(q: Request)
    requires q.raw.findings.Some?
    ensures OnlyOutsideFailures(q) <==>
            q.raw.findings.value != [] && forall item :: item in q.raw.findings.value ==> Outside(item)
  {
    var items := q.raw.findings.value;
    assert items == ReviewerFindings(q);
    if OnlyOutsideFailures(q) {
      forall item | item in items ensures Outside(item) {
        var i :| 0 <= i < |items| && items[i] == item;
        assert ReviewerFindings(q)[i] == item;
      }
    }
    if items != [] && forall item :: item in items ==> Outside(item) {
      forall i | 0 <= i < |items| ensures Outside(items[i]) {
        assert items[i] in items;
      }
    }
  }

  ghost predicate AcceptablePlainly(q: Request)
  {
    PassesPlainly(q, Mend(SettledPlainly(q), {}, false, false)) && (q.raw.verdict.Fail? ==> Excused(q))
  }

  /** The answers that a review lets through, in plain terms. */
  lemma AcceptableExactly(q: Request)
    ensures Acceptable(q) <==> AcceptablePlainly(q)
  {
    SettledExactly(q);
    PassesPlainlyExactly(q, Unmended(q));
    if q.raw.findings.Some? {
      ExcusedExactly(q);
    }
  }

  // ---------------------------------------------------------------- what becomes of a stated finding

  /** The finding in the report: about the named criterion, in its scope, and a notice if about the parent criterion. */
  ghost predicate Reports(q: Request, item: RawFinding, f: Finding)
  {
    && f.message == ClipMessage(item.message) && !f.conflict
    && f.scope == Some(if item.scope.Some? then item.scope.value else CaseScope)
    && (if item.criterionId == "" then f.criterionId == "" else Names(q.ids, item.criterionId, f.criterionId))
    && (f.severity.Blocking? <==> item.severity.Blocking? && !AboutParent(q, item))
    && (f.severity.Notice? <==> item.severity.Notice? || AboutParent(q, item))
  }

  /** A finding that is not understood is reported as such, a dismissed omission is not reported, any other one is. */
  lemma StatedFindingExactly(q: Request, item: RawFinding)
    ensures if !Understood(q, item) then FindingFor(q, item) == [Finding(Blocking, InvalidFinding, "", None, false)]
            else if item.disposition.Omission? then FindingFor(q, item) == []
            else |FindingFor(q, item)| == 1 && Reports(q, item, FindingFor(q, item)[0])
  {
    UnderstoodExactly(q, item);
    if FindingValid(q, item) && item.criterionId != "" {
      CanonicalExactly(item.criterionId, q.ids, ResolvedId(q, item).value);
    }
  }

  /** A blocking finding about the scenario that the answer also calls covered. */
  ghost predicate Contradicts(q: Request, item: RawFinding)
  {
    && SettledPlainly(q) && Understood(q, item) && !item.disposition.Omission?
    && item.severity.Blocking? && item.scope == Some(ScenarioScope)
  }

  /** Before reconciliation no finding is marked, and those added by the code have no scope. */
  predicate Unmarked(findings: seq<Finding>) { forall f :: f in findings ==> !f.conflict && f.scope.None? }

  lemma {:induction false} FlatUnmarked<S(!new)>(show: S -> seq<Finding>, items: seq<S>, n: nat)
    requires n <= |items| && forall x :: Unmarked(show(x))
    ensures Unmarked(Flat(show, items, n))
  {
    if n > 0 {
      FlatUnmarked(show, items, n - 1);
      assert Unmarked(show(items[n - 1]));
    }
  }

  lemma GroundingUnmarked(q: Request)
    ensures Unmarked(AllGroundingFindings(q))
  {
    forall id ensures Unmarked(GroundingFindingsBy(q)(id)) {
    }
    FlatUnmarked(GroundingFindingsBy(q), CriterionIds(q), |CriterionIds(q)|);
  }

  lemma CoverageUnmarked(q: Request)
    ensures Unmarked(AllCoverageFindings(q)) && Unmarked(ScenarioFindings(q))
  {
    forall id ensures Unmarked(CoverageFindingsBy(q)(id)) {
    }
    FlatUnmarked(CoverageFindingsBy(q), CriterionIds(q), |CriterionIds(q)|);
  }

  lemma FactsUnmarked(q: Request)
    ensures Unmarked(AllFactFindings(q))
  {
    forall fact ensures Unmarked(FactFindingsBy(q)(fact)) {
    }
    FlatUnmarked(FactFindingsBy(q), RequiredFacts(q), |RequiredFacts(q)|);
  }

  lemma TraceUnmarked(q: Request)
    ensures Unmarked(TraceFindings(q))
  {
    GroundingUnmarked(q);
    CoverageUnmarked(q);
    FactsUnmarked(q);
  }

  /** The report marks a conflict exactly when the answer contradicts itself about its scenario. */
  lemma ConflictExactly(q: Request)
    ensures (exists f :: f in Review(q).findings && f.conflict) <==>
            exists item :: item in ReviewerFindings(q) && Contradicts(q, item)
  {
    var before, settled := Opening(q) + TraceFindings(q), Settled(q);
    var own := ReconciledAll(settled, before);
    SettledExactly(q);
    assert Review(q).findings == own + Closing(q, settled, own);
    if f :| f in Review(q).findings && f.conflict {
      ConflictHasCause(q, f);
    }
    if item :| item in ReviewerFindings(q) && Contradicts(q, item) {
      CauseIsMarked(q, item);
    }
  }

  lemma ClosingUnmarked(q: Request, settled: bool, findings: seq<Finding>)
    ensures Unmarked(Closing(q, settled, findings))
  {
  }

  /** A marked finding was there before reconciliation. */
  lemma MarkedOrigin(q: Request, f: Finding) returns (g: Finding)
    requires f in Review(q).findings && f.conflict
    ensures g in Opening(q) + TraceFindings(q) && f == Reconciled(Settled(q), g)
  {
    var before, settled := Opening(q) + TraceFindings(q), Settled(q);
    var own := ReconciledAll(settled, before);
    assert Review(q).findings == own + Closing(q, settled, own);
    ClosingUnmarked(q, settled, own);
    var i :| 0 <= i < |own| && own[i] == f;
    g := before[i];
  }

  lemma ConflictHasCause(q: Request, f: Finding)
    requires f in Review(q).findings && f.conflict
    ensures exists item :: item in ReviewerFindings(q) && Contradicts(q, item)
  {
    var g := MarkedOrigin(q, f);
    var item := StatedOrigin(q, g);
    MarkedContradicts(q, item, g);
  }

  lemma MarkedContradicts(q: Request, item: RawFinding, f: Finding)
    requires f in FindingFor(q, item) && Reconciled(Settled(q), f).conflict
    ensures Contradicts(q, item)
  {
    SettledExactly(q);
    StatedFindingExactly(q, item);
  }

  /** A finding with a scope was stated by the reviewing model. */
  lemma StatedOrigin(q: Request, f: Finding) returns (item: RawFinding)
    requires f in Opening(q) + TraceFindings(q) && (f.scope.Some? || f.conflict)
    ensures item in ReviewerFindings(q) && f in FindingFor(q, item)
  {
    TraceUnmarked(q);
    assert f in Stated(q);
    var i := FlatOrigin(StatedBy(q), ReviewerFindings(q), |ReviewerFindings(q)|, f);
    item := ReviewerFindings(q)[i];
  }

  lemma CauseIsMarked(q: Request, item: RawFinding)
    requires item in ReviewerFindings(q) && Contradicts(q, item)
    ensures exists f :: f in Review(q).findings && f.conflict
  {
    var before, items := Opening(q) + TraceFindings(q), ReviewerFindings(q);
    var own := ReconciledAll(Settled(q), before);
    SettledExactly(q);
    StatedFindingExactly(q, item);
    var f := FindingFor(q, item)[0];
    var k :| 0 <= k < |items| && items[k] == item;
    FlatContains(StatedBy(q), items, |items|, k, f);
    assert f in before;
    var i :| 0 <= i < |before| && before[i] == f;
    assert own[i] == Reconciled(Settled(q), f) && own[i].conflict;
    assert Review(q).findings == own + Closing(q, Settled(q), own);
    assert own[i] in Review(q).findings;
  }

  // ---------------------------------------------------------------- the rows of the report

  function IsReal(q: Request): Evidence -> bool { (e: Evidence) => QuoteExists(q.context, e) }

  function Trimmed(): Evidence -> Evidence { (e: Evidence) => Evidence(e.sourceId, Trim(e.quote)) }

  lemma {:induction false} QuotesArePicked(q: Request, entries: seq<Evidence>)
    ensures KeepQuotes(q.context, entries) == Picked(IsReal(q), Trimmed(), entries)
  {
    if entries != [] {
      QuotesArePicked(q, entries[1..]);
    }
  }

  /** The quotes `shown` are, in order, those of the entries that stand in the source they name, trimmed. */
  ghost predicate ShowsQuotes(q: Request, shown: seq<Evidence>, entries: seq<Evidence>)
  {
    exists at :: ShownAt(q, shown, entries, at)
  }

  ghost predicate ShownAt(q: Request, shown: seq<Evidence>, entries: seq<Evidence>, at: seq<nat>)
  {
    && Positions(at, |entries|) && |shown| == |at|
    && (forall i: nat :: i < |entries| ==> (i in at <==> Verbatim(q.context.sources, entries[i])))
    && forall j :: 0 <= j < |at| ==>
         shown[j].sourceId == entries[at[j]].sourceId && IsTrimOf(entries[at[j]].quote, shown[j].quote)
  }

  lemma QuotesAreShown(q: Request, entries: seq<Evidence>)
    ensures ShowsQuotes(q, KeepQuotes(q.context, entries), entries)
  {
    QuotesArePicked(q, entries);
    var shown := KeepQuotes(q.context, entries);
    var at := PickedPositions(IsReal(q), Trimmed(), entries);
    forall i: nat | i < |entries| ensures i in at <==> Verbatim(q.context.sources, entries[i]) {
      VerbatimExactly(q.context, entries[i]);
    }
    forall j | 0 <= j < |at| ensures IsTrimOf(entries[at[j]].quote, shown[j].quote) {
      TrimExactly(entries[at[j]].quote, shown[j].quote);
    }
    assert ShownAt(q, shown, entries, at);
  }

  /** What the report says of a criterion with a readable row: its real quotes, and none if the row is UNSUPPORTED. */
  lemma GroundingRowShows(q: Request, id: string, i: nat)
    requires GroundingAt(q, id, i)
    ensures var rows, row := GroundingRow(q, id), q.raw.grounding[i];
            && |rows| == 1 && rows[0].criterionId == id && rows[0].status == row.status
            && rows[0].assumptionIds == row.assumptionIds.value && rows[0].reason == Clip(row.reason)
            && if row.status.Unsupported? then rows[0].evidence == []
               else ShowsQuotes(q, rows[0].evidence, row.evidence.value)
  {
    HasGroundingExactly(q, id);
    QuotesAreShown(q, q.raw.grounding[i].evidence.value);
  }

  // ---------------------------------------------------------------- what a first answer leaves out

  ghost predicate HasFact(q: Request, fact: Fact) { exists i: nat :: FactAt(q, fact, i) }

  /** Rows are found under the keys they were made for. */
  lemma RowFound<T(!new)>(show: string -> seq<T>, ids: seq<string>, key: T -> string, id: string)
    requires id in ids && forall x, row :: row in show(x) ==> key(row) == x
    ensures Lookup(key, Flat(show, ids, |ids|), id).None? <==> show(id) == []
  {
    var rows := Flat(show, ids, |ids|);
    LookupFinds(key, rows, id);
    if Lookup(key, rows, id).Some? {
      var i := FlatOrigin(show, ids, |ids|, Lookup(key, rows, id).value);
    } else {
      var i :| 0 <= i < |ids| && ids[i] == id;
      NoRow(show, ids, i, key, id);
    }
  }

  lemma GroundingRowExactly(q: Request, id: string)
    requires q.stage.Traceability? && id in CriterionIds(q)
    ensures GroundingOf(Review(q), id).None? <==> !HasGrounding(q, id)
  {
    RowFound(GroundingRowsBy(q), CriterionIds(q), GroundingKey, id);
    HasGroundingExactly(q, id);
  }

  lemma CoverageRowExactly(q: Request, id: string)
    requires q.stage.Traceability? && q.kind.Case? && id in CriterionIds(q)
    ensures CoverageOf(Review(q), id).None? <==> !HasCoverage(q, id)
  {
    RowFound(CoverageRowsBy(q), CriterionIds(q), CoverageKey, id);
    HasCoverageExactly(q, id);
  }

  lemma FactRowThere(q: Request, fact: Fact) returns (row: FactRow)
    requires Complete(q) && q.kind.Story? && fact in RequiredFacts(q) && FactRows(q, fact) != []
    ensures FactOf(Review(q), fact.id) == Some(row) && row in AllFactRows(q) && row.factId == fact.id
  {
    var facts := RequiredFacts(q);
    LookupFinds(FactKey, AllFactRows(q), fact.id);
    var i :| 0 <= i < |facts| && facts[i] == fact;
    if FactOf(Review(q), fact.id).None? {
      NoRow(FactRowsBy(q), facts, i, FactKey, fact.id);
      assert false;
    }
    row := FactOf(Review(q), fact.id).value;
  }

  lemma FactRowOf(q: Request, fact: Fact)
    requires Complete(q) && q.kind.Story? && AskedFact(q, fact) && HasFact(q, fact)
    ensures FactOf(Review(q), fact.id).Some?
    ensures FactCovered(Review(q).facts, fact.id) <==> FactCoveredPlainly(q, fact)
  {
    HasFactExactly(q, fact);
    FactPlainlyExactly(q, fact);
    var row := FactRowThere(q, fact);
    var other := FactOfRow(q, row);
    assert row.status == FactsFor(q.raw.facts, fact.id)[0].status;
    assert row.criterionIds == FactsFor(q.raw.facts, fact.id)[0].criterionIds;
  }

  lemma FactRowExactly(q: Request, id: string)
    requires Complete(q) && q.kind.Story?
    ensures FactOf(Review(q), id).Some? <==> exists fact :: AskedFact(q, fact) && fact.id == id && HasFact(q, fact)
    ensures forall fact :: AskedFact(q, fact) && fact.id == id && HasFact(q, fact) ==>
              (FactCovered(Review(q).facts, id) <==> FactCoveredPlainly(q, fact))
  {
    LookupFinds(FactKey, AllFactRows(q), id);
    if FactOf(Review(q), id).Some? {
      var fact := FactOfRow(q, FactOf(Review(q), id).value);
      HasFactExactly(q, fact);
      assert AskedFact(q, fact);
    }
    forall fact | AskedFact(q, fact) && fact.id == id && HasFact(q, fact)
      ensures FactOf(Review(q), id).Some?
      ensures FactCovered(Review(q).facts, id) <==> FactCoveredPlainly(q, fact)
    {
      FactRowOf(q, fact);
    }
  }

  lemma MissingExactly(q: Request, id: string)
    requires Complete(q)
    ensures id in MissingOf(q) <==>
            id in q.ids && (!HasGrounding(q, id) || (q.kind.Case? && !HasCoverage(q, id)))
  {
    MissingMembers(Review(q), q.ids, q.kind, id);
    AskedExactly(q, id);
    if id in q.ids {
      GroundingRowExactly(q, id);
      if q.kind.Case? {
        CoverageRowExactly(q, id);
      }
    }
  }

  /** A fact of the story to which the answer has no proper row, nor to another fact with its id. */
  ghost predicate FactLeftOut(q: Request, fact: Fact)
  {
    AskedFact(q, fact) && forall other :: AskedFact(q, other) && other.id == fact.id ==> !HasFact(q, other)
  }

  lemma MissingFactExactly(q: Request, id: string)
    requires Complete(q)
    ensures id in MissingFactsOf(q) <==> q.kind.Story? && exists fact :: FactLeftOut(q, fact) && fact.id == id
  {
    if q.kind.Story? {
      MissingFactMembers(Review(q), q.context.facts, id);
      FactRowExactly(q, id);
      if id in MissingFactsOf(q) {
        var i :| 0 <= i < |q.context.facts| && q.context.facts[i].id == id;
        assert FactLeftOut(q, q.context.facts[i]);
      }
    }
  }

  /** Some fact of the story is left out, and those that are not are covered. */
  ghost predicate FactsMendPlainly(q: Request)
  {
    && q.kind.Story? && (exists fact :: FactLeftOut(q, fact))
    && forall fact :: AskedFact(q, fact) && HasFact(q, fact) ==> FactCoveredPlainly(q, fact)
  }

  lemma SomeFactMissing(q: Request)
    requires Complete(q)
    ensures MissingFactsOf(q) == [] <==> q.kind.Case? || forall fact :: !FactLeftOut(q, fact)
  {
    var missing := MissingFactsOf(q);
    if missing != [] {
      MissingFactExactly(q, missing[0]);
    }
    forall fact | q.kind.Story? && FactLeftOut(q, fact) ensures missing != [] {
      MissingFactExactly(q, fact.id);
    }
  }

  lemma SomeCriterionMissing(q: Request)
    requires Complete(q)
    ensures MissingOf(q) == [] <==>
            forall id :: id in q.ids ==> HasGrounding(q, id) && (q.kind.Case? ==> HasCoverage(q, id))
  {
    var missing := MissingOf(q);
    if missing != [] {
      MissingExactly(q, missing[0]);
    }
    forall id | id in q.ids && missing == [] ensures HasGrounding(q, id) && (q.kind.Case? ==> HasCoverage(q, id)) {
      MissingExactly(q, id);
    }
  }

  lemma FactsMendableExactly(q: Request)
    requires Complete(q)
    ensures FactsMendable(q) <==> FactsMendPlainly(q)
  {
    SomeFactMissing(q);
    if q.kind.Story? {
      MendableMeans(q);
      FactsMendRows(q);
    }
  }

  /** The fact is left out of the first report, or covered there. */
  predicate MissingOrCovered(q: Request, id: string) { id in MissingFactsOf(q) || FactCovered(Review(q).facts, id) }

  lemma FactMendRow(q: Request, id: string)
    requires Complete(q) && q.kind.Story? && exists fact :: AskedFact(q, fact) && fact.id == id
    ensures MissingOrCovered(q, id) <==>
            forall fact :: AskedFact(q, fact) && HasFact(q, fact) && fact.id == id ==> FactCoveredPlainly(q, fact)
  {
    MissingFactMembers(Review(q), q.context.facts, id);
    FactRowExactly(q, id);
  }

  lemma MendableMeans(q: Request)
    requires Complete(q) && q.kind.Story?
    ensures FactsMendable(q) <==>
            MissingFactsOf(q) != [] && forall fact :: AskedFact(q, fact) ==> MissingOrCovered(q, fact.id)
  {
    forall fact | FactsMendable(q) && AskedFact(q, fact) ensures MissingOrCovered(q, fact.id) {
      var i :| 0 <= i < |q.context.facts| && q.context.facts[i] == fact;
    }
    if forall fact :: AskedFact(q, fact) ==> MissingOrCovered(q, fact.id) {
      forall i | 0 <= i < |q.context.facts| ensures MissingOrCovered(q, q.context.facts[i].id) {
        assert AskedFact(q, q.context.facts[i]);
      }
    }
  }

  lemma FactsMendRows(q: Request)
    requires Complete(q) && q.kind.Story?
    ensures (forall fact :: AskedFact(q, fact) ==> MissingOrCovered(q, fact.id)) <==>
            forall fact :: AskedFact(q, fact) && HasFact(q, fact) ==> FactCoveredPlainly(q, fact)
  {
    forall fact | AskedFact(q, fact)
      ensures MissingOrCovered(q, fact.id) <==>
              forall other :: AskedFact(q, other) && HasFact(q, other) && other.id == fact.id ==>
                FactCoveredPlainly(q, other)
    {
      FactMendRow(q, fact.id);
    }
  }

  /** What an acceptable repair sets right, in plain terms. */
  lemma MendsExactly(q: Request)
    requires Complete(q)
    ensures MendsOf(q).settled <==> SettledPlainly(q)
    ensures forall id :: id in MendsOf(q).ids <==>
              id != "" && id in q.ids && (!HasGrounding(q, id) || (q.kind.Case? && !HasCoverage(q, id)))
    ensures MendsOf(q).facts <==> FactsMendPlainly(q)
    ensures NothingMissing(q) <==>
            && (forall id :: id in q.ids ==> HasGrounding(q, id) && (q.kind.Case? ==> HasCoverage(q, id)))
            && (q.kind.Story? ==> forall fact :: !FactLeftOut(q, fact))
  {
    SettledExactly(q);
    FactsMendableExactly(q);
    SomeCriterionMissing(q);
    SomeFactMissing(q);
    forall id
      ensures id in MendsOf(q).ids <==>
              id != "" && id in q.ids && (!HasGrounding(q, id) || (q.kind.Case? && !HasCoverage(q, id)))
    {
      MissingExactly(q, id);
    }
  }

  /** The repair is asked for what the first answer left out, and for nothing else. */
  lemma RepairAsksExactly(q: Request, repairRaw: RawReview, id: string, fact: Fact)
    requires Complete(q)
    ensures Asked(RepairRequest(q, repairRaw), id) <==>
            id in q.ids && (!HasGrounding(q, id) || (q.kind.Case? && !HasCoverage(q, id)))
    ensures q.kind.Story? ==> (AskedFact(RepairRequest(q, repairRaw), fact) <==> FactLeftOut(q, fact))
    ensures RepairRequest(q, repairRaw) == q.(raw := repairRaw, expectedIds := RepairRequest(q, repairRaw).expectedIds,
                                              expectedFacts := RepairRequest(q, repairRaw).expectedFacts)
  {
    MissingExactly(q, id);
    MissingFactExactly(q, fact.id);
  }
}
