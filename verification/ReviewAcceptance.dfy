/** Exactly which answers the semantic review lets through. */
module ReviewAcceptance {
  import opened Wrappers
  import opened Lists
  import opened CaseContract
  import opened SemanticReview

  // ---------------------------------------------------------------- the acceptable answers, stated on the answer alone

  /** One row for the criterion, with real quotes and accepted assumptions that match its status. */
  predicate WellGrounded(q: Request, id: string)
  {
    var entries := GroundingsFor(q.raw.grounding, id);
    && GroundingShaped(entries)
    && (forall i :: 0 <= i < |entries[0].evidence.value| ==> QuoteExists(q.context, entries[0].evidence.value[i]))
    && AllAccepted(q.context, entries[0].assumptionIds.value)
    && match entries[0].status
       case Explicit => entries[0].evidence.value != []
       case Inferred => entries[0].evidence.value != []
       case Assumption => entries[0].assumptionIds.value != []
       case Unsupported => false
       case OtherBacking => false
  }

  predicate WellCovered(q: Request, id: string)
  {
    var entries := CoverageFor(q.raw.coverage, id);
    CoverageShaped(q, entries) && (q.planned.None? ==> entries[0].status.Covered?)
  }

  predicate ScenarioAnswered(q: Request)
  {
    if q.planned.None? then q.raw.scenarios == []
    else ScenarioShaped(q) && CoverageFor(q.raw.scenarios, q.planned.value)[0].status.Covered?
  }

  predicate FactAnswered(q: Request, fact: Fact)
  {
    var entries := FactsFor(q.raw.facts, fact.id);
    FactShaped(q, fact, entries) && entries[0].status.Covered? && entries[0].criterionIds != []
  }

  /**
   * What is set right elsewhere: blocking scenario findings by a covered scenario (`settled`), missing rows of the
   * criteria in `ids` and, if `facts`, everything said about source facts. If `strict`, what is left over must not
   * even be a notice.
   */
  datatype Mend = Mend(settled: bool, ids: set<string>, facts: bool, strict: bool)

  predicate MendsMessage(m: Mend, message: Message, id: string)
  {
    || ((message.MissingGrounding? || message.MissingCoverage?) && id in m.ids)
    || (IsFactMessage(message) && m.facts)
  }

  predicate GroundingPasses(q: Request, m: Mend, id: string)
  {
    || (WellGrounded(q, id) && (m.strict ==> !IsInferred(q, id)))
    || (id in m.ids && !GroundingShaped(GroundingsFor(q.raw.grounding, id)))
  }

  /** The row for the criterion calls it an inference. */
  predicate IsInferred(q: Request, id: string)
  {
    var entries := GroundingsFor(q.raw.grounding, id);
    entries != [] && entries[0].status.Inferred?
  }

  predicate CoveragePasses(q: Request, m: Mend, id: string)
  {
    WellCovered(q, id) || (id in m.ids && !CoverageShaped(q, CoverageFor(q.raw.coverage, id)))
  }

  predicate TracePasses(q: Request, m: Mend)
  {
    && (forall i :: 0 <= i < |CriterionIds(q)| ==> GroundingPasses(q, m, CriterionIds(q)[i]))
    && !ForeignGrounding(q)
    && (q.kind.Case? ==>
          ScenarioAnswered(q) && forall i :: 0 <= i < |CriterionIds(q)| ==> CoveragePasses(q, m, CriterionIds(q)[i]))
    && (q.kind.Story? && !m.facts ==>
          !ForeignFact(q) && forall i :: 0 <= i < |RequiredFacts(q)| ==> FactAnswered(q, RequiredFacts(q)[i]))
  }

  /** A finding that may be stated: valid, and if blocking then dismissed, about the parent, or set right elsewhere. */
  predicate Tolerable(q: Request, m: Mend, item: RawFinding)
  {
    && FindingValid(q, item)
    && (|| item.disposition.Omission? || MendsMessage(m, item.message, ResolvedId(q, item).value)
        || (!m.strict
            && (item.severity.Blocking? ==> IsParentNotice(q, item) || (m.settled && ScopeOf(q, item).ScenarioScope?))))
  }

  predicate Settled(q: Request)
  {
    ScenarioSettled(q, if q.stage.Traceability? && !q.kind.Story? then ScenarioRows(q) else [])
  }

  /** Everything but the verdict that the answer gives itself. */
  predicate Passes(q: Request, m: Mend)
  {
    && !q.raw.verdict.NoVerdict? && q.raw.findings.Some?
    && (forall i :: 0 <= i < |ReviewerFindings(q)| ==> Tolerable(q, m, ReviewerFindings(q)[i]))
    && (q.stage.Traceability? ==> TracePasses(q, m))
  }

  /** What one answer sets right by itself. */
  function Unmended(q: Request): Mend { Mend(Settled(q), {}, false, false) }

  predicate Acceptable(q: Request)
  {
    Passes(q, Unmended(q)) && (q.raw.verdict.Fail? ==> RejectionExcused(q, Settled(q)))
  }

  // ---------------------------------------------------------------- blocking findings, section by section

  predicate Blocks(m: Mend, f: Finding)
  {
    && (m.strict || (f.severity.Blocking? && !(m.settled && f.scope == Some(ScenarioScope))))
    && !MendsMessage(m, f.message, f.criterionId)
  }

  predicate AnyBlocks(m: Mend, findings: seq<Finding>)
  {
    exists i :: 0 <= i < |findings| && Blocks(m, findings[i])
  }

  lemma AnyBlocksConcat(m: Mend, a: seq<Finding>, b: seq<Finding>)
    ensures AnyBlocks(m, a + b) <==> AnyBlocks(m, a) || AnyBlocks(m, b)
  {
    if AnyBlocks(m, a) {
      var i :| 0 <= i < |a| && Blocks(m, a[i]);
      assert (a + b)[i] == a[i];
    }
    if AnyBlocks(m, b) {
      var i :| 0 <= i < |b| && Blocks(m, b[i]);
      assert (a + b)[|a| + i] == b[i];
    }
    if AnyBlocks(m, a + b) {
      var i :| 0 <= i < |a + b| && Blocks(m, (a + b)[i]);
      assert if i < |a| then (a + b)[i] == a[i] else (a + b)[i] == b[i - |a|];
    }
  }

  lemma AddIfBlocks(m: Mend, condition: bool, message: Message, id: string)
    ensures AnyBlocks(m, AddIf(condition, message, id)) <==> condition && !MendsMessage(m, message, id)
  {
    assert condition ==> (Blocks(m, AddIf(condition, message, id)[0]) <==> !MendsMessage(m, message, id));
  }

  lemma ReconciledBlocks(m: Mend, findings: seq<Finding>)
    ensures AnyBlocks(m.(settled := false), ReconciledAll(m.settled, findings)) <==> AnyBlocks(m, findings)
  {
    var plain, after := m.(settled := false), ReconciledAll(m.settled, findings);
    forall i | 0 <= i < |findings|
      ensures Blocks(plain, after[i]) <==> Blocks(m, findings[i])
    {
    }
  }

  lemma {:induction false} QuotesAllKept(context: Context, entries: seq<Evidence>)
    ensures |KeepQuotes(context, entries)| == |entries| <==>
            forall i :: 0 <= i < |entries| ==> QuoteExists(context, entries[i])
  {
    if entries != [] {
      QuotesAllKept(context, entries[1..]);
      assert forall i :: 0 < i < |entries| ==> entries[i] == entries[1..][i - 1];
    }
  }

  lemma AnyBlocksMore(m: Mend, before: seq<Finding>, condition: bool, message: Message, id: string)
    requires !MendsMessage(m, message, id)
    ensures AnyBlocks(m, before + AddIf(condition, message, id)) <==> AnyBlocks(m, before) || condition
  {
    AnyBlocksConcat(m, before, AddIf(condition, message, id));
    AddIfBlocks(m, condition, message, id);
  }

  /** The findings about a row of the right shape. */
  function RowFindings(unknown: bool, explicit: bool, inferred: bool, assumed: bool, unsupported: bool,
                       id: string): seq<Finding>
  {
    AddIf(unknown, CitesUnknown, id)
    + AddIf(explicit, ExplicitWithoutQuote, id) + AddIf(inferred, InferredWithoutQuote, id)
    + AddIf(assumed, AssumptionWithoutId, id) + AddIf(unsupported, UnsupportedBehaviour, id)
  }

  lemma RowBlocks(m: Mend, unknown: bool, explicit: bool, inferred: bool, assumed: bool, unsupported: bool, id: string)
    ensures AnyBlocks(m, RowFindings(unknown, explicit, inferred, assumed, unsupported, id)) <==>
            unknown || explicit || inferred || assumed || unsupported
  {
    var a := AddIf(unknown, CitesUnknown, id);
    var b := a + AddIf(explicit, ExplicitWithoutQuote, id);
    var c := b + AddIf(inferred, InferredWithoutQuote, id);
    var d := c + AddIf(assumed, AssumptionWithoutId, id);
    AddIfBlocks(m, unknown, CitesUnknown, id);
    AnyBlocksMore(m, a, explicit, ExplicitWithoutQuote, id);
    AnyBlocksMore(m, b, inferred, InferredWithoutQuote, id);
    AnyBlocksMore(m, c, assumed, AssumptionWithoutId, id);
    AnyBlocksMore(m, d, unsupported, UnsupportedBehaviour, id);
  }

  lemma ShapedRowBlocks(q: Request, m: Mend, id: string)
    requires GroundingShaped(GroundingsFor(q.raw.grounding, id))
    ensures AnyBlocks(m, GroundingFindings(q, id)) <==> !(WellGrounded(q, id) && (m.strict ==> !IsInferred(q, id)))
  {
    var item := GroundingsFor(q.raw.grounding, id)[0];
    var kept := KeepQuotes(q.context, item.evidence.value);
    var unknown := |kept| != |item.evidence.value| || !AllAccepted(q.context, item.assumptionIds.value);
    var explicit, inferred := item.status.Explicit? && kept == [], item.status.Inferred? && kept == [];
    var assumed := item.status.Assumption? && item.assumptionIds.value == [];
    var notice := if item.status.Inferred? then [Finding(Notice, InferenceNeedsReview, id, None, false)] else [];
    var row := RowFindings(unknown, explicit, inferred, assumed, item.status.Unsupported?, id);
    RowBlocks(m, unknown, explicit, inferred, assumed, item.status.Unsupported?, id);
    AnyBlocksConcat(m, row, notice);
    assert AnyBlocks(m, notice) <==> m.strict && item.status.Inferred? by {
      assert item.status.Inferred? ==> (Blocks(m, notice[0]) <==> m.strict);
    }
    QuotesAllKept(q.context, item.evidence.value);
    assert GroundingFindings(q, id) == row + notice;
  }

  lemma GroundingExactly(q: Request, m: Mend, id: string)
    ensures AnyBlocks(m, GroundingFindings(q, id)) <==> !GroundingPasses(q, m, id)
  {
    var entries := GroundingsFor(q.raw.grounding, id);
    if !GroundingShaped(entries) {
      AddIfBlocks(m, true, MissingGrounding, id);
    } else {
      ShapedRowBlocks(q, m, id);
    }
  }

  /** A flattened list blocks exactly when a piece does. */
  lemma {:induction false} FlatBlocks<S(!new)>(m: Mend, show: S -> seq<Finding>, items: seq<S>, n: nat, fine: S -> bool)
    requires n <= |items| && forall x :: AnyBlocks(m, show(x)) <==> !fine(x)
    ensures AnyBlocks(m, Flat(show, items, n)) <==> !forall i :: 0 <= i < n ==> fine(items[i])
  {
    if n > 0 {
      FlatBlocks(m, show, items, n - 1, fine);
      AnyBlocksConcat(m, Flat(show, items, n - 1), show(items[n - 1]));
    }
  }

  lemma GroundingSectionExactly(q: Request, m: Mend)
    ensures AnyBlocks(m, AllGroundingFindings(q)) <==>
            !forall i :: 0 <= i < |CriterionIds(q)| ==> GroundingPasses(q, m, CriterionIds(q)[i])
  {
    forall id ensures AnyBlocks(m, GroundingFindingsBy(q)(id)) <==> !GroundingPasses(q, m, id) {
      GroundingExactly(q, m, id);
    }
    FlatBlocks(m, GroundingFindingsBy(q), CriterionIds(q), |CriterionIds(q)|, id => GroundingPasses(q, m, id));
  }

  lemma CoverageExactly(q: Request, m: Mend, id: string)
    ensures AnyBlocks(m, CoverageFindings(q, id)) <==> !CoveragePasses(q, m, id)
  {
    var entries := CoverageFor(q.raw.coverage, id);
    if !CoverageShaped(q, entries) {
      AddIfBlocks(m, true, MissingCoverage, id);
    } else {
      AddIfBlocks(m, !entries[0].status.Covered? && q.planned.None?, IncompleteCoverage, id);
    }
  }

  lemma CoverageSectionExactly(q: Request, m: Mend)
    ensures AnyBlocks(m, AllCoverageFindings(q)) <==>
            !forall i :: 0 <= i < |CriterionIds(q)| ==> CoveragePasses(q, m, CriterionIds(q)[i])
  {
    forall id ensures AnyBlocks(m, CoverageFindingsBy(q)(id)) <==> !CoveragePasses(q, m, id) {
      CoverageExactly(q, m, id);
    }
    FlatBlocks(m, CoverageFindingsBy(q), CriterionIds(q), |CriterionIds(q)|, id => CoveragePasses(q, m, id));
  }

  lemma ScenarioExactly(q: Request, m: Mend)
    ensures AnyBlocks(m, ScenarioFindings(q)) <==> !ScenarioAnswered(q)
  {
    if q.planned.None? {
      AddIfBlocks(m, q.raw.scenarios != [], UnexpectedScenario, "");
    } else if !ScenarioShaped(q) {
      AddIfBlocks(m, true, MissingScenario, "");
    } else {
      AddIfBlocks(m, !CoverageFor(q.raw.scenarios, q.planned.value)[0].status.Covered?, IncompleteScenario, "");
    }
  }

  lemma FactAnsweredExactly(q: Request, m: Mend, fact: Fact)
    ensures AnyBlocks(m, FactFindings(q, fact)) <==> !(m.facts || FactAnswered(q, fact))
  {
    var entries := FactsFor(q.raw.facts, fact.id);
    if !FactShaped(q, fact, entries) {
      AddIfBlocks(m, true, MissingFact, "");
    } else {
      AddIfBlocks(m, !entries[0].status.Covered? || entries[0].criterionIds == [], UncoveredFact,
                  if entries[0].criterionIds == [] then "" else entries[0].criterionIds[0]);
    }
  }

  lemma FactSectionExactly(q: Request, m: Mend)
    ensures AnyBlocks(m, AllFactFindings(q)) <==>
            !(m.facts || forall i :: 0 <= i < |RequiredFacts(q)| ==> FactAnswered(q, RequiredFacts(q)[i]))
  {
    forall fact ensures AnyBlocks(m, FactFindingsBy(q)(fact)) <==> !(m.facts || FactAnswered(q, fact)) {
      FactAnsweredExactly(q, m, fact);
    }
    FlatBlocks(m, FactFindingsBy(q), RequiredFacts(q), |RequiredFacts(q)|, fact => m.facts || FactAnswered(q, fact));
  }

  lemma TolerableExactly(q: Request, m: Mend, item: RawFinding)
    ensures AnyBlocks(m, FindingFor(q, item)) <==> !Tolerable(q, m, item)
  {
    var stated := FindingFor(q, item);
    if !FindingValid(q, item) {
      AddIfBlocks(m, true, InvalidFinding, "");
    } else if !item.disposition.Omission? {
      assert |stated| == 1;
      assert AnyBlocks(m, stated) <==> Blocks(m, stated[0]);
    }
  }

  lemma StatedExactly(q: Request, m: Mend)
    ensures AnyBlocks(m, Stated(q)) <==>
            !forall i :: 0 <= i < |ReviewerFindings(q)| ==> Tolerable(q, m, ReviewerFindings(q)[i])
  {
    forall item ensures AnyBlocks(m, StatedBy(q)(item)) <==> !Tolerable(q, m, item) {
      TolerableExactly(q, m, item);
    }
    FlatBlocks(m, StatedBy(q), ReviewerFindings(q), |ReviewerFindings(q)|, item => Tolerable(q, m, item));
  }

  lemma TraceExactly(q: Request, m: Mend)
    requires q.stage.Traceability?
    ensures AnyBlocks(m, TraceFindings(q)) <==> !TracePasses(q, m)
  {
    var a, b := AllGroundingFindings(q), AddIf(ForeignGrounding(q), ForeignCriteria, "");
    GroundingSectionExactly(q, m);
    AddIfBlocks(m, ForeignGrounding(q), ForeignCriteria, "");
    AnyBlocksConcat(m, a, b);
    if q.kind.Case? {
      CoverageSectionExactly(q, m);
      ScenarioExactly(q, m);
      AnyBlocksConcat(m, AllCoverageFindings(q), ScenarioFindings(q));
      AnyBlocksConcat(m, a + b, AllCoverageFindings(q) + ScenarioFindings(q));
    } else {
      FactSectionExactly(q, m);
      AddIfBlocks(m, ForeignFact(q), ForeignFacts, "");
      AnyBlocksConcat(m, AllFactFindings(q), AddIf(ForeignFact(q), ForeignFacts, ""));
      AnyBlocksConcat(m, a + b, AllFactFindings(q) + AddIf(ForeignFact(q), ForeignFacts, ""));
    }
  }

  /** The findings before the verdict of the answer itself is looked at. */
  function OwnFindings(q: Request): seq<Finding> { ReconciledAll(Settled(q), Opening(q) + TraceFindings(q)) }

  lemma OwnFindingsExactly(q: Request, m: Mend)
    requires m.settled == Settled(q)
    ensures AnyBlocks(m.(settled := false), OwnFindings(q)) <==> !Passes(q, m)
  {
    var opening, invalid := Opening(q), q.raw.verdict.NoVerdict? || q.raw.findings.None?;
    AddIfBlocks(m, invalid, InvalidContract, "");
    StatedExactly(q, m);
    AnyBlocksConcat(m, AddIf(invalid, InvalidContract, ""), Stated(q));
    AnyBlocksConcat(m, opening, TraceFindings(q));
    if q.stage.Traceability? {
      TraceExactly(q, m);
    }
    ReconciledBlocks(m, opening + TraceFindings(q));
  }

  /** With nothing set right elsewhere, to block is to have a blocking finding. */
  lemma PlainBlocks(findings: seq<Finding>)
    ensures AnyBlocks(Mend(false, {}, false, false), findings) <==> Has(findings, Blocking)
  {
    forall i | 0 <= i < |findings|
      ensures Blocks(Mend(false, {}, false, false), findings[i]) <==> findings[i].severity.Blocking?
    {
    }
  }

  /** ... and to the strict one every finding counts. */
  lemma StrictBlocks(findings: seq<Finding>)
    ensures AnyBlocks(Mend(false, {}, false, true), findings) <==> findings != []
  {
    if findings != [] {
      assert Blocks(Mend(false, {}, false, true), findings[0]);
    }
  }

  lemma ClosingBlocks(q: Request, settled: bool, findings: seq<Finding>)
    ensures Has(findings + Closing(q, settled, findings), Blocking) <==>
            Has(findings, Blocking) || (q.raw.verdict.Fail? && !RejectionExcused(q, settled))
  {
    var all := findings + Closing(q, settled, findings);
    if Has(findings, Blocking) {
      var i :| 0 <= i < |findings| && findings[i].severity.Blocking?;
      assert all[i] == findings[i];
    } else if q.raw.verdict.Fail? && !RejectionExcused(q, settled) {
      assert all[|findings|] == Add(RejectedByReviewer, "");
    }
  }

  /** An answer passes exactly when it is acceptable: nothing bad gets through and nothing good is refused. */
  lemma ReviewAcceptsExactly(q: Request)
    ensures !Review(q).verdict.Fail? <==> Acceptable(q)
  {
    var findings := OwnFindings(q);
    OwnFindingsExactly(q, Unmended(q));
    PlainBlocks(findings);
    ClosingBlocks(q, Settled(q), findings);
    assert Review(q).findings == findings + Closing(q, Settled(q), findings);
  }

  // ---------------------------------------------------------------- exactly which answers ask for nothing

  /** Acceptable, and nothing is left for a person to look at. */
  predicate Quiet(q: Request)
  {
    && Acceptable(q) && !q.raw.verdict.Warn?
    && (forall i :: 0 <= i < |ReviewerFindings(q)| ==> ReviewerFindings(q)[i].disposition.Omission?)
    && (q.stage.Traceability? ==> forall i :: 0 <= i < |CriterionIds(q)| ==> !IsInferred(q, CriterionIds(q)[i]))
  }

  lemma StrictPasses(q: Request)
    ensures Passes(q, Unmended(q).(strict := true)) <==>
            && Passes(q, Unmended(q))
            && (forall i :: 0 <= i < |ReviewerFindings(q)| ==> ReviewerFindings(q)[i].disposition.Omission?)
            && (q.stage.Traceability? ==> forall i :: 0 <= i < |CriterionIds(q)| ==> !IsInferred(q, CriterionIds(q)[i]))
  {
    var m := Unmended(q);
    forall i | 0 <= i < |ReviewerFindings(q)|
      ensures Tolerable(q, m.(strict := true), ReviewerFindings(q)[i]) <==>
              Tolerable(q, m, ReviewerFindings(q)[i]) && ReviewerFindings(q)[i].disposition.Omission?
    {
    }
    forall i | 0 <= i < |CriterionIds(q)|
      ensures GroundingPasses(q, m.(strict := true), CriterionIds(q)[i]) <==>
              GroundingPasses(q, m, CriterionIds(q)[i]) && !IsInferred(q, CriterionIds(q)[i])
    {
    }
  }

  lemma ClosingIsEmpty(q: Request, settled: bool)
    ensures Closing(q, settled, []) == [] <==>
            !q.raw.verdict.Warn? && (q.raw.verdict.Fail? ==> RejectionExcused(q, settled))
  {
  }

  /** A report is PASS exactly for a quiet answer, FAIL exactly for one that is not acceptable, and WARN otherwise. */
  lemma ReviewVerdictExactly(q: Request)
    ensures Review(q).verdict == if !Acceptable(q) then Fail else if Quiet(q) then Pass else Warn
  {
    var findings := OwnFindings(q);
    ReviewAcceptsExactly(q);
    OwnFindingsExactly(q, Unmended(q).(strict := true));
    StrictBlocks(findings);
    StrictPasses(q);
    ClosingIsEmpty(q, Settled(q));
    assert Review(q).findings == findings + Closing(q, Settled(q), findings);
  }
}
