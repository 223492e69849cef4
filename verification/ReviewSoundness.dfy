/** A traceability report that is not FAIL is grounded, for every answer of the model, also to the repair. */
module ReviewSoundness {
  import opened Wrappers
  import opened Texts
  import opened Lists
  import opened CaseContract
  import opened SemanticReview

  // ---------------------------------------------------------------- what a report promises

  /** A citation of the report: at least three characters, literally in the named source. */
  predicate LiteralIn(context: Context, e: Evidence)
  {
    && |e.quote| >= 3
    && e.sourceId in context.sources
    && exists i :: 0 <= i < |context.sources[e.sourceId]| && Includes(context.sources[e.sourceId][i], e.quote)
  }

  predicate AllLiteral(context: Context, evidence: seq<Evidence>)
  {
    forall i :: 0 <= i < |evidence| ==> LiteralIn(context, evidence[i])
  }

  /** EXPLICIT or INFERRED from literal quotes, or an ASSUMPTION of accepted ids only. */
  predicate Backed(context: Context, g: Grounding)
  {
    && AllLiteral(context, g.evidence)
    && AllAccepted(context, g.assumptionIds)
    && (|| ((g.status.Explicit? || g.status.Inferred?) && g.evidence != [])
        || (g.status.Assumption? && g.assumptionIds != []))
  }

  predicate CriterionGrounded(r: Report, q: Request, id: string)
  {
    GroundingOf(r, id).Some? && Backed(q.context, GroundingOf(r, id).value)
  }

  predicate CriterionVerified(r: Report, q: Request, id: string)
  {
    CoverageOf(r, id).Some? && RowVerifies(q, CoverageOf(r, id).value)
  }

  predicate RowVerifies(q: Request, row: CoverageRow)
  {
    StepsExist(q, row.steps) && (q.planned.None? ==> row.status.Covered? && row.steps != [])
  }

  /** The row carries the source and the quote of the fact, and the quote is literally there. */
  predicate QuotesFact(context: Context, row: FactRow, fact: Fact)
  {
    && row.factId == fact.id && row.sourceId == fact.sourceId && row.quote == fact.quote
    && row.sourceId in context.sources
    && exists i :: 0 <= i < |context.sources[row.sourceId]| && Includes(context.sources[row.sourceId][i], row.quote)
  }

  predicate FactQuoted(context: Context, row: FactRow)
  {
    exists k :: 0 <= k < |context.facts| && QuotesFact(context, row, context.facts[k])
  }

  predicate FactPreserved(r: Report, q: Request, fact: Fact)
  {
    var row := FactOf(r, fact.id);
    && row.Some? && row.value.factId == fact.id && FactQuoted(q.context, row.value)
    && row.value.status.Covered? && row.value.criterionIds != []
    && forall i :: 0 <= i < |row.value.criterionIds| ==> row.value.criterionIds[i] in q.ids
  }

  predicate ScenarioVerified(r: Report, q: Request)
  {
    && q.planned.Some? && |r.scenarios| == 1
    && r.scenarios[0].id == q.planned.value && r.scenarios[0].status.Covered?
    && r.scenarios[0].steps != [] && StepsExist(q, r.scenarios[0].steps)
  }

  // ---------------------------------------------------------------- lists and maps

  lemma {:induction false} LookupPut<T>(key: T -> string, entries: seq<T>, item: T, k: string)
    ensures Lookup(key, Put(key, entries, item), k) == if key(item) == k then Some(item) else Lookup(key, entries, k)
  {
    if entries != [] && key(entries[0]) != key(item) {
      LookupPut(key, entries[1..], item, k);
    }
  }

  /** After `PutAll` a key holds one of the new items, if any has it, and otherwise what it held before. */
  ghost predicate Settles<T>(key: T -> string, before: Option<T>, items: seq<T>, k: string, after: Option<T>)
  {
    || (after.Some? && key(after.value) == k && after.value in items)
    || (after == before && forall x :: x in items ==> key(x) != k)
  }

  lemma {:induction false} LookupPutAll<T>(key: T -> string, entries: seq<T>, items: seq<T>, k: string)
    ensures Settles(key, Lookup(key, entries, k), items, k, Lookup(key, PutAll(key, entries, items), k))
    decreases |items|
  {
    if items != [] {
      var front, last := items[..|items| - 1], items[|items| - 1];
      assert items == front + [last];
      LookupPutAll(key, entries, front, k);
      LookupPut(key, PutAll(key, entries, front), last, k);
    }
  }

  lemma {:induction false} LookupFinds<T>(key: T -> string, entries: seq<T>, k: string)
    ensures var r := Lookup(key, entries, k);
            if r.Some? then r.value in entries && key(r.value) == k
            else forall i :: 0 <= i < |entries| ==> key(entries[i]) != k
  {
    if entries != [] {
      LookupFinds(key, entries[1..], k);
    }
  }

  lemma {:induction false} KeepKeeps(findings: seq<Finding>, repair: Report, resolved: seq<string>, kind: Kind,
                                     settled: bool, f: Finding)
    requires f in findings && !Dropped(repair, resolved, kind, settled, f)
    ensures f in KeepFindings(findings, repair, resolved, kind, settled)
  {
    if f != findings[0] {
      KeepKeeps(findings[1..], repair, resolved, kind, settled, f);
    }
  }

  lemma {:induction false} KeepMembers(ids: seq<string>, wanted: set<string>, id: string)
    ensures id in Keep(ids, wanted) <==> id in ids && id in wanted
  {
    if ids != [] {
      KeepMembers(ids[1..], wanted, id);
    }
  }

  lemma {:induction false} KeptFactMembers(facts: seq<Fact>, wanted: set<string>, fact: Fact)
    ensures fact in KeepFacts(facts, wanted) <==> fact in facts && fact.id in wanted
  {
    if facts != [] {
      KeptFactMembers(facts[1..], wanted, fact);
    }
  }

  lemma {:induction false} MissingMembers(r: Report, ids: seq<string>, kind: Kind, id: string)
    ensures id in MissingIds(r, ids, kind) <==>
            id in ids && (GroundingOf(r, id).None? || (kind.Case? && CoverageOf(r, id).None?))
  {
    if ids != [] {
      MissingMembers(r, ids[1..], kind, id);
    }
  }

  lemma {:induction false} MissingFactMembers(r: Report, facts: seq<Fact>, id: string)
    ensures id in MissingFacts(r, facts) <==> FactOf(r, id).None? && exists i :: 0 <= i < |facts| && facts[i].id == id
  {
    if facts != [] {
      MissingFactMembers(r, facts[1..], id);
      if exists i :: 0 <= i < |facts[1..]| && facts[1..][i].id == id {
        var i :| 0 <= i < |facts[1..]| && facts[1..][i].id == id;
        assert facts[i + 1].id == id;
      }
      if exists i :: 0 < i < |facts| && facts[i].id == id {
        var i :| 0 < i < |facts| && facts[i].id == id;
        assert facts[1..][i - 1].id == id;
      }
    }
  }

  // ---------------------------------------------------------------- findings of the sections

  lemma ReconciledKeeps(settled: bool, findings: seq<Finding>, f: Finding)
    requires f in findings && f.scope == None
    ensures f in ReconciledAll(settled, findings)
  {
    var i :| 0 <= i < |findings| && findings[i] == f;
    assert ReconciledAll(settled, findings)[i] == f;
  }

  /** A finding added by the code survives reconciliation. */
  lemma TraceFindingReported(q: Request, f: Finding)
    requires f in TraceFindings(q) && f.scope == None
    ensures f in Review(q).findings
  {
    var settled := ScenarioSettled(q, if q.stage.Traceability? && !q.kind.Story? then ScenarioRows(q) else []);
    ReconciledKeeps(settled, Opening(q) + TraceFindings(q), f);
  }

  // ---------------------------------------------------------------- a bad row is always reported

  /** A blocking finding that no repair can drop. */
  predicate Final(f: Finding)
  {
    f.severity.Blocking? && !f.message.MissingGrounding? && !f.message.MissingCoverage? && !IsFactMessage(f.message)
  }

  lemma {:induction false} KeptQuotesAreLiteral(context: Context, entries: seq<Evidence>)
    ensures AllLiteral(context, KeepQuotes(context, entries))
  {
    if entries != [] {
      KeptQuotesAreLiteral(context, entries[1..]);
    }
  }

  lemma GroundingReported(q: Request, id: string, f: Finding)
    requires q.stage.Traceability? && id in CriterionIds(q) && f in GroundingFindings(q, id) && f.scope == None
    ensures f in Review(q).findings
  {
    var ids := CriterionIds(q);
    var i :| 0 <= i < |ids| && ids[i] == id;
    FlatContains(GroundingFindingsBy(q), ids, |ids|, i, f);
    assert f in AllGroundingFindings(q);
    TraceFindingReported(q, f);
  }

  lemma CoverageReported(q: Request, id: string, f: Finding)
    requires q.stage.Traceability? && q.kind.Case? && id in CriterionIds(q) && f in CoverageFindings(q, id)
             && f.scope == None
    ensures f in Review(q).findings
  {
    var ids := CriterionIds(q);
    var i :| 0 <= i < |ids| && ids[i] == id;
    FlatContains(CoverageFindingsBy(q), ids, |ids|, i, f);
    assert f in AllCoverageFindings(q);
    TraceFindingReported(q, f);
  }

  lemma ScenarioReported(q: Request, f: Finding)
    requires q.stage.Traceability? && q.kind.Case? && f in ScenarioFindings(q) && f.scope == None
    ensures f in Review(q).findings
  {
    assert f in TraceFindings(q);
    TraceFindingReported(q, f);
  }

  lemma FactReported(q: Request, fact: Fact, f: Finding)
    requires q.stage.Traceability? && q.kind.Story? && fact in RequiredFacts(q) && f in FactFindings(q, fact)
             && f.scope == None
    ensures f in Review(q).findings
  {
    var facts := RequiredFacts(q);
    var i :| 0 <= i < |facts| && facts[i] == fact;
    FlatContains(FactFindingsBy(q), facts, |facts|, i, f);
    assert f in AllFactFindings(q);
    TraceFindingReported(q, f);
  }

  lemma UnbackedRowHasFinding(q: Request, id: string, g: Grounding) returns (f: Finding)
    requires g in GroundingRow(q, id) && !Backed(q.context, g)
    ensures f in GroundingFindings(q, id) && Final(f) && f.scope == None
  {
    var item := GroundingsFor(q.raw.grounding, id)[0];
    var kept := KeepQuotes(q.context, item.evidence.value);
    KeptQuotesAreLiteral(q.context, item.evidence.value);
    var message :=
      if !AllAccepted(q.context, item.assumptionIds.value) then CitesUnknown
      else if item.status.Explicit? then ExplicitWithoutQuote
      else if item.status.Inferred? then InferredWithoutQuote
      else if item.status.Assumption? then AssumptionWithoutId
      else UnsupportedBehaviour;
    f := Add(message, id);
  }

  /** Every grounding row of a checked review is backed, or the review blocks for good. */
  lemma GroundingSound(q: Request, g: Grounding)
    requires q.stage.Traceability? && g in Review(q).grounding
    ensures Backed(q.context, g) || exists f :: f in Review(q).findings && Final(f)
  {
    if !Backed(q.context, g) {
      var i := FlatOrigin(GroundingRowsBy(q), CriterionIds(q), |CriterionIds(q)|, g);
      var id := CriterionIds(q)[i];
      var f := UnbackedRowHasFinding(q, id, g);
      GroundingReported(q, id, f);
    }
  }

  lemma CoverageRowChecked(q: Request, id: string, r: CoverageRow) returns (f: Finding)
    requires r in CoverageRows(q, id)
    ensures StepsExist(q, r.steps) && (r.status.Covered? ==> r.steps != [])
    ensures Final(f) && f.scope == None
    ensures r.status.Covered? || q.planned.Some? || f in CoverageFindings(q, id)
  {
    f := Add(IncompleteCoverage, id);
  }

  /** A coverage row names real steps and covers its criterion, unless a scenario narrows the case, or blocks. */
  lemma CoverageSound(q: Request, r: CoverageRow)
    requires q.stage.Traceability? && q.kind.Case? && r in Review(q).coverage
    ensures StepsExist(q, r.steps) && (r.status.Covered? ==> r.steps != [])
    ensures r.status.Covered? || q.planned.Some? || exists f :: f in Review(q).findings && Final(f)
  {
    var i := FlatOrigin(CoverageRowsBy(q), CriterionIds(q), |CriterionIds(q)|, r);
    var id := CriterionIds(q)[i];
    var f := CoverageRowChecked(q, id, r);
    if f in CoverageFindings(q, id) {
      CoverageReported(q, id, f);
    }
  }

  lemma FactRowChecked(q: Request, fact: Fact, r: FactRow) returns (f: Finding)
    requires r in FactRows(q, fact)
    ensures QuotesFact(q.context, r, fact)
    ensures forall i :: 0 <= i < |r.criterionIds| ==> r.criterionIds[i] in q.ids
    ensures f.severity.Blocking? && f.message.UncoveredFact? && f.scope == None
    ensures (r.status.Covered? && r.criterionIds != []) || f in FactFindings(q, fact)
  {
    f := Add(UncoveredFact, if r.criterionIds == [] then "" else r.criterionIds[0]);
  }

  lemma RequiredIsFact(q: Request, fact: Fact)
    requires fact in RequiredFacts(q)
    ensures exists k :: 0 <= k < |q.context.facts| && q.context.facts[k] == fact
  {
    if q.expectedFacts.Some? {
      KeptFactMembers(q.context.facts, SetOf(q.expectedFacts.value), fact);
    }
  }

  /** A fact row cites only the proposal's criteria and, unless it covers its fact, is reported as such. */
  lemma FactSound(q: Request, r: FactRow)
    requires q.stage.Traceability? && q.kind.Story? && r in Review(q).facts
    ensures FactQuoted(q.context, r)
    ensures forall i :: 0 <= i < |r.criterionIds| ==> r.criterionIds[i] in q.ids
    ensures (r.status.Covered? && r.criterionIds != [])
         || exists f :: f in Review(q).findings && f.severity.Blocking? && f.message.UncoveredFact?
  {
    var i := FlatOrigin(FactRowsBy(q), RequiredFacts(q), |RequiredFacts(q)|, r);
    var fact := RequiredFacts(q)[i];
    var f := FactRowChecked(q, fact, r);
    RequiredIsFact(q, fact);
    if f in FactFindings(q, fact) {
      FactReported(q, fact, f);
    }
  }

  // ---------------------------------------------------------------- a missing row is always reported

  /** A key that the flattened rows do not have is not in any piece. */
  lemma {:induction false} NoRow<S, T>(show: S -> seq<T>, items: seq<S>, i: nat, key: T -> string, k: string)
    requires i < |items| && Lookup(key, Flat(show, items, |items|), k).None?
    requires forall x :: x in show(items[i]) ==> key(x) == k
    ensures show(items[i]) == []
  {
    LookupFinds(key, Flat(show, items, |items|), k);
    var piece := show(items[i]);
    if piece != [] {
      FlatContains(show, items, |items|, i, piece[0]);
    }
  }

  lemma GroundingMissed(q: Request, id: string)
    requires id in CriterionIds(q) && Lookup(GroundingKey, AllGroundingRows(q), id).None?
    ensures Add(MissingGrounding, id) in GroundingFindings(q, id)
  {
    var ids := CriterionIds(q);
    var i :| 0 <= i < |ids| && ids[i] == id;
    NoRow(GroundingRowsBy(q), ids, i, GroundingKey, id);
    assert GroundingRow(q, id) == [];
  }

  lemma CoverageMissed(q: Request, id: string)
    requires id in CriterionIds(q) && Lookup(CoverageKey, AllCoverageRows(q), id).None?
    ensures Add(MissingCoverage, id) in CoverageFindings(q, id)
  {
    var ids := CriterionIds(q);
    var i :| 0 <= i < |ids| && ids[i] == id;
    NoRow(CoverageRowsBy(q), ids, i, CoverageKey, id);
    assert CoverageRows(q, id) == [];
  }

  lemma FactMissed(q: Request, fact: Fact)
    requires fact in RequiredFacts(q) && Lookup(FactKey, AllFactRows(q), fact.id).None?
    ensures Add(MissingFact, "") in FactFindings(q, fact)
  {
    var facts := RequiredFacts(q);
    var i :| 0 <= i < |facts| && facts[i] == fact;
    NoRow(FactRowsBy(q), facts, i, FactKey, fact.id);
    assert FactRows(q, fact) == [];
  }

  lemma MissingGroundingReported(q: Request, id: string)
    requires q.stage.Traceability? && id in CriterionIds(q) && GroundingOf(Review(q), id).None?
    ensures Add(MissingGrounding, id) in Review(q).findings
  {
    GroundingMissed(q, id);
    GroundingReported(q, id, Add(MissingGrounding, id));
  }

  lemma MissingCoverageReported(q: Request, id: string)
    requires q.stage.Traceability? && q.kind.Case? && id in CriterionIds(q) && CoverageOf(Review(q), id).None?
    ensures Add(MissingCoverage, id) in Review(q).findings
  {
    CoverageMissed(q, id);
    CoverageReported(q, id, Add(MissingCoverage, id));
  }

  lemma MissingFactReported(q: Request, fact: Fact)
    requires q.stage.Traceability? && q.kind.Story? && fact in RequiredFacts(q) && FactOf(Review(q), fact.id).None?
    ensures Add(MissingFact, "") in Review(q).findings
  {
    FactMissed(q, fact);
    FactReported(q, fact, Add(MissingFact, ""));
  }

  // ---------------------------------------------------------------- reports before and after the merge

  lemma NotFailing(r: Report, f: Finding)
    requires r.verdict == VerdictOf(r.findings) && !r.verdict.Fail? && f in r.findings
    ensures !f.severity.Blocking?
  {
  }

  lemma MergeNotFailing(p: Report, r: Report, resolved: seq<string>, kind: Kind, resolvedFacts: seq<string>,
                        facts: seq<Fact>)
    requires !Merge(p, r, resolved, kind, resolvedFacts, facts).verdict.Fail?
    ensures forall f :: f in r.findings ==> !f.severity.Blocking?
    ensures forall f :: f in p.findings ==> !Final(f)
    ensures FactsSettled(Merge(p, r, resolved, kind, resolvedFacts, facts).facts, resolvedFacts, facts)
         || forall f :: f in p.findings ==> !(f.severity.Blocking? && IsFactMessage(f.message))
  {
    var m := Merge(p, r, resolved, kind, resolvedFacts, facts);
    var settled := FactsSettled(m.facts, resolvedFacts, facts);
    forall f | f in r.findings ensures !f.severity.Blocking? {
      assert f in m.findings;
      NotFailing(m, f);
    }
    forall f | f in p.findings && f.severity.Blocking? && !Dropped(r, resolved, kind, settled, f) ensures false {
      KeepKeeps(p.findings, r, resolved, kind, settled, f);
      NotFailing(m, f);
    }
  }

  // ---------------------------------------------------------------- the main results

  lemma RepairExpects(q: Request, repairRaw: RawReview, id: string)
    requires id in MissingIds(Review(q), q.ids, q.kind)
    ensures id in CriterionIds(RepairRequest(q, repairRaw))
  {
    MissingMembers(Review(q), q.ids, q.kind, id);
    KeepMembers(q.ids, Expected(RepairRequest(q, repairRaw)), id);
  }

  lemma MergedGrounding(p: Report, r: Report, id: string) returns (row: Option<Grounding>)
    ensures row == Lookup(GroundingKey, PutAll(GroundingKey, PutAll(GroundingKey, [], p.grounding), r.grounding), id)
    ensures row.Some? ==> row.value in p.grounding || row.value in r.grounding
    ensures row.None? ==> GroundingOf(p, id).None? && GroundingOf(r, id).None?
  {
    LookupPutAll(GroundingKey, [], p.grounding, id);
    LookupPutAll(GroundingKey, PutAll(GroundingKey, [], p.grounding), r.grounding, id);
    LookupFinds(GroundingKey, p.grounding, id);
    LookupFinds(GroundingKey, r.grounding, id);
    row := Lookup(GroundingKey, PutAll(GroundingKey, PutAll(GroundingKey, [], p.grounding), r.grounding), id);
  }

  lemma MergedCoverage(p: Report, r: Report, id: string) returns (row: Option<CoverageRow>)
    ensures row == Lookup(CoverageKey, PutAll(CoverageKey, PutAll(CoverageKey, [], p.coverage), r.coverage), id)
    ensures row.Some? ==> row.value in p.coverage || row.value in r.coverage
    ensures row.None? ==> CoverageOf(p, id).None? && CoverageOf(r, id).None?
  {
    LookupPutAll(CoverageKey, [], p.coverage, id);
    LookupPutAll(CoverageKey, PutAll(CoverageKey, [], p.coverage), r.coverage, id);
    LookupFinds(CoverageKey, p.coverage, id);
    LookupFinds(CoverageKey, r.coverage, id);
    row := Lookup(CoverageKey, PutAll(CoverageKey, PutAll(CoverageKey, [], p.coverage), r.coverage), id);
  }

  lemma MergedFact(p: Report, r: Report, id: string) returns (row: Option<FactRow>)
    ensures row == Lookup(FactKey, PutAll(FactKey, PutAll(FactKey, [], p.facts), r.facts), id)
    ensures row.Some? ==> row.value.factId == id && (row.value in p.facts || row.value in r.facts)
    ensures row.None? ==> FactOf(p, id).None? && FactOf(r, id).None?
  {
    LookupPutAll(FactKey, [], p.facts, id);
    LookupPutAll(FactKey, PutAll(FactKey, [], p.facts), r.facts, id);
    LookupFinds(FactKey, p.facts, id);
    LookupFinds(FactKey, r.facts, id);
    row := Lookup(FactKey, PutAll(FactKey, PutAll(FactKey, [], p.facts), r.facts), id);
  }

  lemma AllExpected(q: Request, id: string)
    requires q.expectedIds.None? && id in q.ids
    ensures id in CriterionIds(q)
  {
    KeepMembers(q.ids, Expected(q), id);
  }

  /** Grounding of one criterion in a report that needed no repair. */
  lemma ReviewGrounds(q: Request, id: string)
    requires q.stage.Traceability? && q.expectedIds.None? && id in q.ids && !Review(q).verdict.Fail?
    ensures CriterionGrounded(Review(q), q, id)
  {
    AllExpected(q, id);
    var p := Review(q);
    assert forall f :: f in p.findings ==> !f.severity.Blocking?;
    if GroundingOf(p, id).None? {
      MissingGroundingReported(q, id);
      assert false;
    }
    LookupFinds(GroundingKey, p.grounding, id);
    GroundingSound(q, GroundingOf(p, id).value);
  }

  lemma MergeGrounds(q: Request, q': Request, resolvedFacts: seq<string>, id: string)
    requires q.stage.Traceability? && q'.stage.Traceability? && q'.context == q.context
    requires id in CriterionIds(q') || GroundingOf(Review(q), id).Some?
    requires !Merge(Review(q), Review(q'), MissingIds(Review(q), q.ids, q.kind), q.kind, resolvedFacts,
                    q.context.facts).verdict.Fail?
    ensures CriterionGrounded(Merge(Review(q), Review(q'), MissingIds(Review(q), q.ids, q.kind), q.kind, resolvedFacts,
                                    q.context.facts), q, id)
  {
    var p, r := Review(q), Review(q');
    MergeNotFailing(p, r, MissingIds(p, q.ids, q.kind), q.kind, resolvedFacts, q.context.facts);
    var row := MergedGrounding(p, r, id);
    if row.None? {
      MissingGroundingReported(q', id);
      assert false;
    }
    if row.value in r.grounding {
      GroundingSound(q', row.value);
    } else {
      GroundingSound(q, row.value);
    }
  }

  lemma ReviewVerifies(q: Request, id: string)
    requires q.stage.Traceability? && q.kind.Case? && q.expectedIds.None? && id in q.ids && !Review(q).verdict.Fail?
    ensures CriterionVerified(Review(q), q, id)
  {
    AllExpected(q, id);
    var p := Review(q);
    assert forall f :: f in p.findings ==> !f.severity.Blocking?;
    if CoverageOf(p, id).None? {
      MissingCoverageReported(q, id);
      assert false;
    }
    LookupFinds(CoverageKey, p.coverage, id);
    CoverageSound(q, CoverageOf(p, id).value);
  }

  lemma MergeVerifies(q: Request, q': Request, resolvedFacts: seq<string>, id: string)
    requires q.stage.Traceability? && q'.stage.Traceability? && q.kind.Case? && q'.kind.Case?
    requires q'.steps == q.steps && q'.planned == q.planned
    requires id in CriterionIds(q') || CoverageOf(Review(q), id).Some?
    requires !Merge(Review(q), Review(q'), MissingIds(Review(q), q.ids, q.kind), q.kind, resolvedFacts,
                    q.context.facts).verdict.Fail?
    ensures CriterionVerified(Merge(Review(q), Review(q'), MissingIds(Review(q), q.ids, q.kind), q.kind, resolvedFacts,
                                    q.context.facts), q, id)
  {
    var p, r := Review(q), Review(q');
    MergeNotFailing(p, r, MissingIds(p, q.ids, q.kind), q.kind, resolvedFacts, q.context.facts);
    var row := MergedCoverage(p, r, id);
    if row.None? {
      MissingCoverageReported(q', id);
      assert false;
    }
    MergedRowVerifies(q, q', row.value);
  }

  lemma MergedRowVerifies(q: Request, q': Request, row: CoverageRow)
    requires q.stage.Traceability? && q'.stage.Traceability? && q.kind.Case? && q'.kind.Case?
    requires q'.steps == q.steps && q'.planned == q.planned
    requires row in Review(q).coverage || row in Review(q').coverage
    requires (forall f :: f in Review(q').findings ==> !f.severity.Blocking?)
             && (forall f :: f in Review(q).findings ==> !Final(f))
    ensures RowVerifies(q, row)
  {
    if row in Review(q').coverage {
      CoverageSound(q', row);
    } else {
      CoverageSound(q, row);
    }
  }

  lemma ReviewPreserves(q: Request, fact: Fact)
    requires q.stage.Traceability? && q.kind.Story? && fact in RequiredFacts(q) && !Review(q).verdict.Fail?
    ensures FactPreserved(Review(q), q, fact)
  {
    var p := Review(q);
    assert forall f :: f in p.findings ==> !f.severity.Blocking?;
    if FactOf(p, fact.id).None? {
      MissingFactReported(q, fact);
      assert false;
    }
    LookupFinds(FactKey, p.facts, fact.id);
    FactSound(q, FactOf(p, fact.id).value);
  }

  lemma MergePreserves(q: Request, q': Request, resolved: seq<string>, resolvedFacts: seq<string>, fact: Fact)
    requires q.stage.Traceability? && q'.stage.Traceability? && q.kind.Story? && q'.kind.Story?
    requires q'.ids == q.ids && q'.context == q.context
    requires fact in q.context.facts && (fact in RequiredFacts(q') || FactOf(Review(q), fact.id).Some?)
    requires !Merge(Review(q), Review(q'), resolved, q.kind, resolvedFacts, q.context.facts).verdict.Fail?
    ensures FactPreserved(Merge(Review(q), Review(q'), resolved, q.kind, resolvedFacts, q.context.facts), q, fact)
  {
    var p, r := Review(q), Review(q');
    var m := Merge(p, r, resolved, q.kind, resolvedFacts, q.context.facts);
    MergeNotFailing(p, r, resolved, q.kind, resolvedFacts, q.context.facts);
    var row := MergedFact(p, r, fact.id);
    if row.None? {
      MissingFactReported(q', fact);
      assert false;
    }
    if row.value in r.facts {
      FactSound(q', row.value);
    } else {
      FactSound(q, row.value);
      if FactsSettled(m.facts, resolvedFacts, q.context.facts) {
        assert FactCovered(m.facts, fact.id);
      }
    }
  }

  lemma ScenarioChecked(q: Request) returns (f: Finding)
    requires q.planned.Some?
    ensures Final(f) && f.scope == None
    ensures f in ScenarioFindings(q)
            || (ScenarioShaped(q) && CoverageFor(q.raw.scenarios, q.planned.value)[0].status.Covered?)
  {
    f := Add(if ScenarioShaped(q) then IncompleteScenario else MissingScenario, "");
  }

  /** The scenario row of a case report, unless the review blocks for good. */
  lemma ScenarioSound(q: Request)
    requires q.stage.Traceability? && q.kind.Case? && q.planned.Some?
    ensures ScenarioVerified(Review(q), q) || exists f :: f in Review(q).findings && Final(f)
  {
    var f := ScenarioChecked(q);
    if f in ScenarioFindings(q) {
      ScenarioReported(q, f);
    }
  }

  lemma MergeScenario(q: Request, q': Request, resolved: seq<string>, resolvedFacts: seq<string>)
    requires q.stage.Traceability? && q'.stage.Traceability? && q.kind.Case? && q'.kind.Case?
    requires q.planned.Some? && q'.steps == q.steps && q'.planned == q.planned
    requires !Merge(Review(q), Review(q'), resolved, q.kind, resolvedFacts, q.context.facts).verdict.Fail?
    ensures ScenarioVerified(Merge(Review(q), Review(q'), resolved, q.kind, resolvedFacts, q.context.facts), q)
  {
    MergeNotFailing(Review(q), Review(q'), resolved, q.kind, resolvedFacts, q.context.facts);
    ScenarioSound(q');
  }

  /** A request as the review loop makes it: every criterion and every required fact is expected. */
  predicate Complete(q: Request) { q.stage.Traceability? && q.expectedIds.None? && q.expectedFacts.None? }

  /** Whatever the model answered, also to the repair, a report that is not FAIL grounds every criterion. */
  lemma ReportGroundsEveryCriterion(q: Request, repairRaw: RawReview, id: string)
    requires Complete(q) && id in q.ids && !TraceabilityReport(q, repairRaw).verdict.Fail?
    ensures CriterionGrounded(TraceabilityReport(q, repairRaw), q, id)
  {
    var p := Review(q);
    var missingFacts := if q.kind.Story? then MissingFacts(p, q.context.facts) else [];
    if MissingIds(p, q.ids, q.kind) == [] && missingFacts == [] {
      ReviewGrounds(q, id);
    } else {
      MissingMembers(p, q.ids, q.kind, id);
      if GroundingOf(p, id).None? {
        RepairExpects(q, repairRaw, id);
      }
      MergeGrounds(q, RepairRequest(q, repairRaw), missingFacts, id);
    }
  }

  /** For a case, real steps are named for every criterion, and cover it unless a planned scenario narrows the case. */
  lemma ReportVerifiesEveryCriterion(q: Request, repairRaw: RawReview, id: string)
    requires Complete(q) && q.kind.Case? && id in q.ids && !TraceabilityReport(q, repairRaw).verdict.Fail?
    ensures CriterionVerified(TraceabilityReport(q, repairRaw), q, id)
  {
    var p := Review(q);
    if MissingIds(p, q.ids, q.kind) == [] {
      ReviewVerifies(q, id);
    } else {
      MissingMembers(p, q.ids, q.kind, id);
      if CoverageOf(p, id).None? {
        RepairExpects(q, repairRaw, id);
      }
      MergeVerifies(q, RepairRequest(q, repairRaw), [], id);
    }
  }

  /** A planned scenario is covered by real steps in the report that is kept. */
  lemma ReportVerifiesScenario(q: Request, repairRaw: RawReview)
    requires Complete(q) && q.kind.Case? && q.planned.Some? && !TraceabilityReport(q, repairRaw).verdict.Fail?
    ensures ScenarioVerified(TraceabilityReport(q, repairRaw), q)
  {
    var p := Review(q);
    if MissingIds(p, q.ids, q.kind) == [] {
      assert forall f :: f in p.findings ==> !f.severity.Blocking?;
      ScenarioSound(q);
    } else {
      MergeScenario(q, RepairRequest(q, repairRaw), MissingIds(p, q.ids, q.kind), []);
    }
  }

  lemma ReportCoversFact(q: Request, repairRaw: RawReview, fact: Fact)
    requires Complete(q) && q.kind.Story? && fact in q.context.facts && !TraceabilityReport(q, repairRaw).verdict.Fail?
    ensures FactPreserved(TraceabilityReport(q, repairRaw), q, fact)
  {
    var p := Review(q);
    var missing, missingFacts := MissingIds(p, q.ids, q.kind), MissingFacts(p, q.context.facts);
    if missing == [] && missingFacts == [] {
      ReviewPreserves(q, fact);
    } else {
      var q' := RepairRequest(q, repairRaw);
      MissingFactMembers(p, q.context.facts, fact.id);
      KeptFactMembers(q.context.facts, SetOf(missingFacts), fact);
      MergePreserves(q, q', missing, missingFacts, fact);
    }
  }

  /** No other required fact has this id. */
  predicate OnlyFact(context: Context, fact: Fact)
  {
    forall k :: 0 <= k < |context.facts| && context.facts[k].id == fact.id ==> context.facts[k] == fact
  }

  /** For a story, every required source fact has a row with its literal quote, covered by criteria of the proposal. */
  lemma ReportPreservesEveryFact(q: Request, repairRaw: RawReview, fact: Fact)
    requires Complete(q) && q.kind.Story? && fact in q.context.facts && !TraceabilityReport(q, repairRaw).verdict.Fail?
    ensures FactPreserved(TraceabilityReport(q, repairRaw), q, fact)
    ensures OnlyFact(q.context, fact) ==>
            QuotesFact(q.context, FactOf(TraceabilityReport(q, repairRaw), fact.id).value, fact)
  {
    ReportCoversFact(q, repairRaw, fact);
  }
}
