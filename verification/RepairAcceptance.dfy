/** Exactly when a traceability report passes after the repair of a first answer that left something out. */
module RepairAcceptance {
  import opened Wrappers
  import opened Lists
  import opened SemanticReview
  import opened ReviewSoundness
  import opened ReviewAcceptance

  // ---------------------------------------------------------------- what a repair sets right

  /** The criteria without a grounding or a coverage row in the report on the first answer. */
  function MissingOf(q: Request): seq<string> { MissingIds(Review(q), q.ids, q.kind) }

  /** The facts without a row in the report on the first answer to a story. */
  function MissingFactsOf(q: Request): seq<string>
  {
    if q.kind.Story? then MissingFacts(Review(q), q.context.facts) else []
  }

  predicate NothingMissing(q: Request) { MissingOf(q) == [] && MissingFactsOf(q) == [] }

  /** Some fact had no row, and every fact that had one was covered. */
  predicate FactsMendable(q: Request)
  {
    && MissingFactsOf(q) != []
    && forall i :: 0 <= i < |q.context.facts| ==>
         q.context.facts[i].id in MissingFactsOf(q) || FactCovered(Review(q).facts, q.context.facts[i].id)
  }

  /** What any acceptable repair sets right, whatever it says: a condition on the first answer alone. */
  function MendsOf(q: Request): Mend
  {
    Mend(Settled(q), (set id | id in MissingOf(q)) - {""}, FactsMendable(q), false)
  }

  // ---------------------------------------------------------------- findings that stay

  lemma {:induction false} KeptBlocks(findings: seq<Finding>, repair: Report, resolved: seq<string>, kind: Kind,
                                      settled: bool, m: Mend)
    requires !m.settled
    requires forall f :: Dropped(repair, resolved, kind, settled, f) <==> MendsMessage(m, f.message, f.criterionId)
    ensures AnyBlocks(m.(ids := {}, facts := false), KeepFindings(findings, repair, resolved, kind, settled)) <==>
            AnyBlocks(m, findings)
  {
    if findings != [] {
      var plain := m.(ids := {}, facts := false);
      var rest := KeepFindings(findings[1..], repair, resolved, kind, settled);
      var first := if Dropped(repair, resolved, kind, settled, findings[0]) then [] else [findings[0]];
      KeptBlocks(findings[1..], repair, resolved, kind, settled, m);
      AnyBlocksConcat(plain, first, rest);
      assert findings == [findings[0]] + findings[1..];
      AnyBlocksConcat(m, [findings[0]], findings[1..]);
      assert AnyBlocks(m, [findings[0]]) <==> Blocks(m, findings[0]) by {
        assert [findings[0]][0] == findings[0];
      }
      assert AnyBlocks(plain, first) <==> Blocks(m, findings[0]) by {
        assert first != [] ==> first[0] == findings[0];
      }
    }
  }

  lemma HasConcat(a: seq<Finding>, b: seq<Finding>)
    ensures Has(a + b, Blocking) <==> Has(a, Blocking) || Has(b, Blocking)
  {
    PlainBlocks(a);
    PlainBlocks(b);
    PlainBlocks(a + b);
    AnyBlocksConcat(Mend(false, {}, false, false), a, b);
  }

  predicate AboutMissing(f: Finding)
  {
    f.severity.Blocking? && (f.message.MissingGrounding? || f.message.MissingCoverage? || f.message.MissingFact?)
  }

  /** After such a finding nothing is added at the end. */
  lemma NothingCloses(q: Request, settled: bool, own: seq<Finding>, f: Finding)
    requires f in own + Closing(q, settled, own) && AboutMissing(f)
    ensures Closing(q, settled, own) == []
  {
    assert f in own || f in Closing(q, settled, own);
    if f in own {
      var i :| 0 <= i < |own| && own[i] == f;
    }
  }

  /** A row that is left out blocks, so the verdict of the first answer adds nothing to a report that is repaired. */
  lemma MissingSilencesVerdict(q: Request)
    requires Complete(q) && !NothingMissing(q)
    ensures Review(q).findings == OwnFindings(q)
  {
    var f := MissingReported(q);
    NothingCloses(q, Settled(q), OwnFindings(q), f);
  }

  /** The finding about something left out: it is reported, and is none of those added at the end. */
  lemma MissingReported(q: Request) returns (f: Finding)
    requires Complete(q) && !NothingMissing(q)
    ensures f in Review(q).findings && AboutMissing(f)
  {
    var p := Review(q);
    if MissingOf(q) != [] {
      var id := MissingOf(q)[0];
      MissingMembers(p, q.ids, q.kind, id);
      AllExpected(q, id);
      if GroundingOf(p, id).None? {
        MissingGroundingReported(q, id);
        f := Add(MissingGrounding, id);
      } else {
        MissingCoverageReported(q, id);
        f := Add(MissingCoverage, id);
      }
    } else {
      var id := MissingFactsOf(q)[0];
      MissingFactMembers(p, q.context.facts, id);
      var k :| 0 <= k < |q.context.facts| && q.context.facts[k].id == id;
      MissingFactReported(q, q.context.facts[k]);
      f := Add(MissingFact, "");
    }
  }

  // ---------------------------------------------------------------- an acceptable repair resolves everything

  lemma RepairResolves(q: Request, repairRaw: RawReview, id: string)
    requires Complete(q) && !Review(RepairRequest(q, repairRaw)).verdict.Fail?
    ensures FullyResolved(Review(RepairRequest(q, repairRaw)), MissingOf(q), q.kind, id) <==> id in MissingOf(q)
  {
    var q' := RepairRequest(q, repairRaw);
    var r := Review(q');
    assert forall f :: f in r.findings ==> !f.severity.Blocking?;
    if id in MissingOf(q) {
      RepairExpects(q, repairRaw, id);
      if q.kind.Case? && CoverageOf(r, id).None? {
        MissingCoverageReported(q', id);
        assert false;
      }
      if q.kind.Story? && GroundingOf(r, id).None? {
        MissingGroundingReported(q', id);
        assert false;
      }
    }
  }

  lemma FactOfRow(q: Request, row: FactRow) returns (fact: Fact)
    requires row in AllFactRows(q)
    ensures fact in RequiredFacts(q) && row in FactRows(q, fact) && row.factId == fact.id
  {
    var i := FlatOrigin(FactRowsBy(q), RequiredFacts(q), |RequiredFacts(q)|, row);
    fact := RequiredFacts(q)[i];
    assert row in FactRows(q, fact);
  }

  /** Rows of one report with one key are one row. */
  lemma SameFactSameRow(q: Request, a: FactRow, b: FactRow)
    requires a in AllFactRows(q) && b in AllFactRows(q) && a.factId == b.factId
    ensures a == b
  {
    var first := FactOfRow(q, a);
    var second := FactOfRow(q, b);
  }

  /** A row of the repair is about a fact that was missing. */
  lemma RepairRowWasMissing(q: Request, repairRaw: RawReview, row: FactRow)
    requires Complete(q) && q.kind.Story? && row in Review(RepairRequest(q, repairRaw)).facts
    ensures row.factId in MissingFactsOf(q)
  {
    var q' := RepairRequest(q, repairRaw);
    var fact := FactOfRow(q', row);
    KeptFactMembers(q.context.facts, SetOf(MissingFactsOf(q)), fact);
  }

  function MergedFacts(q: Request, repairRaw: RawReview): seq<FactRow>
  {
    PutAll(FactKey, PutAll(FactKey, [], Review(q).facts), Review(RepairRequest(q, repairRaw)).facts)
  }

  lemma RepairHasFact(q: Request, repairRaw: RawReview, id: string)
    requires Complete(q) && q.kind.Story? && id in MissingFactsOf(q)
             && !Review(RepairRequest(q, repairRaw)).verdict.Fail?
    ensures FactOf(Review(q), id).None? && FactOf(Review(RepairRequest(q, repairRaw)), id).Some?
  {
    var q' := RepairRequest(q, repairRaw);
    var r := Review(q');
    MissingFactMembers(Review(q), q.context.facts, id);
    var k :| 0 <= k < |q.context.facts| && q.context.facts[k].id == id;
    KeptFactMembers(q.context.facts, SetOf(MissingFactsOf(q)), q.context.facts[k]);
    if FactOf(r, id).None? {
      MissingFactReported(q', q.context.facts[k]);
      NotFailing(r, Add(MissingFact, ""));
      assert false;
    }
  }

  /** A row of a passing review covers its fact. */
  lemma PassingRowCovers(q: Request, row: FactRow)
    requires q.stage.Traceability? && q.kind.Story? && !Review(q).verdict.Fail? && row in Review(q).facts
    ensures row.status.Covered? && row.criterionIds != []
  {
    FactSound(q, row);
    assert forall f :: f in Review(q).findings ==> !f.severity.Blocking?;
  }

  lemma MissingFactMended(q: Request, repairRaw: RawReview, id: string)
    requires Complete(q) && q.kind.Story? && id in MissingFactsOf(q)
             && !Review(RepairRequest(q, repairRaw)).verdict.Fail?
    ensures FactCovered(MergedFacts(q, repairRaw), id)
  {
    var q' := RepairRequest(q, repairRaw);
    RepairHasFact(q, repairRaw, id);
    var row := MergedFact(Review(q), Review(q'), id);
    LookupFinds(FactKey, Review(q).facts, id);
    PassingRowCovers(q', row.value);
  }

  lemma PresentFactKept(q: Request, repairRaw: RawReview, id: string)
    requires Complete(q) && q.kind.Story? && id !in MissingFactsOf(q)
    ensures FactCovered(MergedFacts(q, repairRaw), id) <==> FactCovered(Review(q).facts, id)
  {
    var q' := RepairRequest(q, repairRaw);
    var p, r := Review(q), Review(q');
    var row := MergedFact(p, r, id);
    LookupFinds(FactKey, p.facts, id);
    if row.Some? {
      if row.value in r.facts {
        RepairRowWasMissing(q, repairRaw, row.value);
        assert false;
      }
      SameFactSameRow(q, row.value, FactOf(p, id).value);
    }
  }

  lemma FactsMendExactly(q: Request, repairRaw: RawReview)
    requires Complete(q) && !Review(RepairRequest(q, repairRaw)).verdict.Fail?
    ensures FactsSettled(MergedFacts(q, repairRaw), MissingFactsOf(q), q.context.facts) <==> FactsMendable(q)
  {
    if q.kind.Story? {
      var missing := MissingFactsOf(q);
      forall i | 0 <= i < |missing| ensures FactCovered(MergedFacts(q, repairRaw), missing[i]) {
        MissingFactMended(q, repairRaw, missing[i]);
      }
      forall i | 0 <= i < |q.context.facts|
        ensures FactCovered(MergedFacts(q, repairRaw), q.context.facts[i].id) <==>
                q.context.facts[i].id in missing || FactCovered(Review(q).facts, q.context.facts[i].id)
      {
        if q.context.facts[i].id in missing {
          MissingFactMended(q, repairRaw, q.context.facts[i].id);
        } else {
          PresentFactKept(q, repairRaw, q.context.facts[i].id);
        }
      }
    }
  }

  // ---------------------------------------------------------------- the main result

  lemma MergeBlocks(p: Report, r: Report, resolved: seq<string>, kind: Kind, resolvedFacts: seq<string>,
                    facts: seq<Fact>, m: Mend)
    requires !m.settled && !m.strict
    requires var settled := FactsSettled(PutAll(FactKey, PutAll(FactKey, [], p.facts), r.facts), resolvedFacts, facts);
             forall f :: Dropped(r, resolved, kind, settled, f) <==> MendsMessage(m, f.message, f.criterionId)
    ensures Merge(p, r, resolved, kind, resolvedFacts, facts).verdict.Fail? <==>
            AnyBlocks(m, p.findings) || Has(r.findings, Blocking)
  {
    var settled := FactsSettled(PutAll(FactKey, PutAll(FactKey, [], p.facts), r.facts), resolvedFacts, facts);
    KeptBlocks(p.findings, r, resolved, kind, settled, m);
    PlainBlocks(KeepFindings(p.findings, r, resolved, kind, settled));
    HasConcat(KeepFindings(p.findings, r, resolved, kind, settled), r.findings);
  }

  /** The merge asks for nothing exactly when every finding of the first report is dropped and the repair has none. */
  lemma MergeStays(p: Report, r: Report, resolved: seq<string>, kind: Kind, resolvedFacts: seq<string>,
                   facts: seq<Fact>, m: Mend)
    requires !m.settled && m.strict
    requires var settled := FactsSettled(PutAll(FactKey, PutAll(FactKey, [], p.facts), r.facts), resolvedFacts, facts);
             forall f :: Dropped(r, resolved, kind, settled, f) <==> MendsMessage(m, f.message, f.criterionId)
    ensures Merge(p, r, resolved, kind, resolvedFacts, facts).findings == [] <==>
            !AnyBlocks(m, p.findings) && r.findings == []
  {
    var settled := FactsSettled(PutAll(FactKey, PutAll(FactKey, [], p.facts), r.facts), resolvedFacts, facts);
    KeptBlocks(p.findings, r, resolved, kind, settled, m);
    StrictBlocks(KeepFindings(p.findings, r, resolved, kind, settled));
  }

  lemma DroppedMeans(r: Report, resolved: seq<string>, kind: Kind, m: Mend, f: Finding)
    requires FullyResolved(r, resolved, kind, f.criterionId) <==> f.criterionId in resolved
    requires f.criterionId in m.ids <==> f.criterionId in resolved && f.criterionId != ""
    ensures Dropped(r, resolved, kind, m.facts, f) <==> MendsMessage(m, f.message, f.criterionId)
  {
  }

  lemma DroppedExactly(q: Request, repairRaw: RawReview, f: Finding)
    requires Complete(q) && !Review(RepairRequest(q, repairRaw)).verdict.Fail?
    ensures Dropped(Review(RepairRequest(q, repairRaw)), MissingOf(q), q.kind,
                    FactsSettled(MergedFacts(q, repairRaw), MissingFactsOf(q), q.context.facts), f) <==>
            MendsMessage(MendsOf(q), f.message, f.criterionId)
  {
    var r, m := Review(RepairRequest(q, repairRaw)), MendsOf(q);
    FactsMendExactly(q, repairRaw);
    RepairResolves(q, repairRaw, f.criterionId);
    DroppedMeans(r, MissingOf(q), q.kind, m, f);
  }

  /** After an acceptable repair the report passes exactly when all that blocked the first answer is mended. */
  lemma MergeExactly(q: Request, repairRaw: RawReview)
    requires Complete(q) && !NothingMissing(q) && !Review(RepairRequest(q, repairRaw)).verdict.Fail?
    ensures !TraceabilityReport(q, repairRaw).verdict.Fail? <==> Passes(q, MendsOf(q))
  {
    var p, r, m := Review(q), Review(RepairRequest(q, repairRaw)), MendsOf(q).(settled := false);
    forall f
      ensures Dropped(r, MissingOf(q), q.kind,
                      FactsSettled(MergedFacts(q, repairRaw), MissingFactsOf(q), q.context.facts), f)
              <==> MendsMessage(m, f.message, f.criterionId)
    {
      DroppedExactly(q, repairRaw, f);
    }
    MergeBlocks(p, r, MissingOf(q), q.kind, MissingFactsOf(q), q.context.facts, m);
    MissingSilencesVerdict(q);
    OwnFindingsExactly(q, MendsOf(q));
  }

  lemma BadRepairFails(q: Request, repairRaw: RawReview)
    requires !NothingMissing(q) && Review(RepairRequest(q, repairRaw)).verdict.Fail?
    ensures TraceabilityReport(q, repairRaw).verdict.Fail?
  {
    var p, r := Review(q), Review(RepairRequest(q, repairRaw));
    var settled := FactsSettled(MergedFacts(q, repairRaw), MissingFactsOf(q), q.context.facts);
    HasConcat(KeepFindings(p.findings, r, MissingOf(q), q.kind, settled), r.findings);
  }

  /**
   * A traceability report passes exactly when its one answer is acceptable, or it left something out, the repair is
   * acceptable and nothing else blocked the first answer. The verdict of a repaired first answer plays no part.
   */
  lemma ReportAcceptsExactly(q: Request, repairRaw: RawReview)
    requires Complete(q)
    ensures !TraceabilityReport(q, repairRaw).verdict.Fail? <==>
            if NothingMissing(q) then Acceptable(q)
            else Passes(q, MendsOf(q)) && Acceptable(RepairRequest(q, repairRaw))
  {
    ReviewAcceptsExactly(q);
    ReviewAcceptsExactly(RepairRequest(q, repairRaw));
    if !NothingMissing(q) {
      if Review(RepairRequest(q, repairRaw)).verdict.Fail? {
        BadRepairFails(q, repairRaw);
      } else {
        MergeExactly(q, repairRaw);
      }
    }
  }

  // ---------------------------------------------------------------- exactly which reports ask for nothing

  /** No finding of the first report is left over: not even a notice. */
  predicate QuietBut(q: Request) { Passes(q, MendsOf(q).(strict := true)) }

  lemma PassMeansNothing(r: Report)
    requires r.verdict == VerdictOf(r.findings)
    ensures r.verdict.Pass? <==> r.findings == []
  {
  }

  lemma MergePasses(q: Request, repairRaw: RawReview)
    requires Complete(q) && !NothingMissing(q) && !Review(RepairRequest(q, repairRaw)).verdict.Fail?
    ensures TraceabilityReport(q, repairRaw).verdict.Pass? <==>
            QuietBut(q) && Review(RepairRequest(q, repairRaw)).verdict.Pass?
  {
    var p, r := Review(q), Review(RepairRequest(q, repairRaw));
    var m := MendsOf(q).(settled := false, strict := true);
    forall f
      ensures Dropped(r, MissingOf(q), q.kind,
                      FactsSettled(MergedFacts(q, repairRaw), MissingFactsOf(q), q.context.facts), f)
              <==> MendsMessage(m, f.message, f.criterionId)
    {
      DroppedExactly(q, repairRaw, f);
    }
    MergeStays(p, r, MissingOf(q), q.kind, MissingFactsOf(q), q.context.facts, m);
    MissingSilencesVerdict(q);
    OwnFindingsExactly(q, MendsOf(q).(strict := true));
    PassMeansNothing(r);
    PassMeansNothing(TraceabilityReport(q, repairRaw));
  }

  /** What the report on the two answers asks for: nothing, a person to look at it, or the refusal of the proposal. */
  lemma ReportVerdictExactly(q: Request, repairRaw: RawReview)
    requires Complete(q)
    ensures var repaired := RepairRequest(q, repairRaw);
            TraceabilityReport(q, repairRaw).verdict ==
              if NothingMissing(q) then (if !Acceptable(q) then Fail else if Quiet(q) then Pass else Warn)
              else if !Passes(q, MendsOf(q)) || !Acceptable(repaired) then Fail
              else if QuietBut(q) && Quiet(repaired) then Pass
              else Warn
  {
    ReviewVerdictExactly(q);
    ReportAcceptsExactly(q, repairRaw);
    if !NothingMissing(q) {
      ReviewVerdictExactly(RepairRequest(q, repairRaw));
      if Acceptable(RepairRequest(q, repairRaw)) {
        MergePasses(q, repairRaw);
      }
    }
  }
}
