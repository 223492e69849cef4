/**
 * Checked semantic reviews and their repair (engine/src/generation-review.ts). The model's
 * answer is an arbitrary value; what the code compares with fixed texts is an enumeration here.
 */
module SemanticReview {
  import opened Wrappers
  import opened Texts
  import opened Lists
  import opened CaseContract

  datatype Kind = Story | Case

  datatype Stage = Quality | Traceability

  datatype Severity = Notice | Blocking | OtherSeverity            // WARN, FAIL, anything else

  datatype Verdict = Pass | Warn | Fail | NoVerdict

  datatype ScopeTag = ScenarioScope | CaseScope | ParentScope | GlobalScope | OtherScope

  datatype Disposition = Actionable | Omission | Included | OtherDisposition

  /** The fixed messages of the code, and texts written by the reviewing model that are none of them. */
  datatype Message =
    | InvalidContract | InvalidFinding
    | MissingGrounding | CitesUnknown | ExplicitWithoutQuote | InferredWithoutQuote | AssumptionWithoutId
    | UnsupportedBehaviour | InferenceNeedsReview | ForeignCriteria
    | MissingCoverage | IncompleteCoverage
    | MissingScenario | IncompleteScenario | UnexpectedScenario
    | MissingFact | UncoveredFact | ForeignFacts
    | RejectedByReviewer | HumanReviewRequested
    | Said(text: string)

  datatype Finding = Finding(severity: Severity, message: Message, criterionId: string, scope: Option<ScopeTag>,
                             conflict: bool)

  // what the reviewing model returns

  /** `scope` is `None` when it is falsy; `scopeIsText` is false for a value that only converts to the tag. */
  datatype RawFinding = RawFinding(severity: Severity, message: Message, criterionId: string, scope: Option<ScopeTag>,
                                   scopeIsText: bool, disposition: Disposition, boundaryIds: seq<string>)

  datatype Backing = Explicit | Inferred | Assumption | Unsupported | OtherBacking

  datatype Evidence = Evidence(sourceId: string, quote: string)

  datatype RawGrounding = RawGrounding(criterionId: string, status: Backing, reason: string,
                                       evidence: Option<seq<Evidence>>, assumptionIds: Option<seq<string>>)

  datatype Coverage = Covered | Partial | NotCovered | OtherCoverage

  /** Step numbers are `None` where they are not integers. */
  datatype RawCoverage = RawCoverage(id: string, status: Coverage, steps: seq<Option<int>>, reason: string)

  datatype RawFact = RawFact(factId: string, sourceId: Loose, quote: Loose, status: Coverage, criterionIds: seq<string>,
                             reason: string)

  /** Lists that are not arrays are empty, except `findings`, whose absence is itself a defect. */
  datatype RawReview = RawReview(verdict: Verdict, findings: Option<seq<RawFinding>>, grounding: seq<RawGrounding>,
                                 coverage: seq<RawCoverage>, scenarios: seq<RawCoverage>, facts: seq<RawFact>)

  // what it is checked against

  datatype Fact = Fact(id: string, sourceId: string, quote: string)

  datatype Context = Context(sources: map<string, seq<string>>, boundaries: set<string>, accepted: set<string>,
                             facts: seq<Fact>)

  /** One call of `checkedSemanticReview`. */
  datatype Request = Request(raw: RawReview, ids: seq<string>, steps: set<int>, context: Context, kind: Kind,
                             stage: Stage, expectedIds: Option<seq<string>>, expectedFacts: Option<seq<string>>,
                             planned: Option<string>)

  datatype Grounding = Grounding(criterionId: string, status: Backing, evidence: seq<Evidence>,
                                 assumptionIds: seq<string>, reason: string)

  datatype CoverageRow = CoverageRow(id: string, status: Coverage, steps: seq<Option<int>>, reason: string)

  datatype FactRow = FactRow(factId: string, sourceId: string, quote: string, status: Coverage,
                             criterionIds: seq<string>, reason: string)

  datatype Report = Report(verdict: Verdict, findings: seq<Finding>, grounding: seq<Grounding>,
                           coverage: seq<CoverageRow>, scenarios: seq<CoverageRow>, facts: seq<FactRow>)

  // ---------------------------------------------------------------- helpers

  /** `slice(0, 2000)`. */
  function Clip(text: string): (start: string)
    ensures start <= text && |start| <= 2000 && (|start| < 2000 ==> start == text)
  {
    if |text| <= 2000 then text else text[..2000]
  }

  function ClipMessage(m: Message): Message { if m.Said? then Said(Clip(m.text)) else m }

  predicate Blank(text: string) { Trim(text) == "" }

  /** `add(message, id)`. */
  function Add(message: Message, id: string): Finding { Finding(Blocking, message, id, None, false) }

  function AddIf(condition: bool, message: Message, id: string): seq<Finding>
  {
    if condition then [Add(message, id)] else []
  }

  /** Replaces a final `-007` by `-7`. */
  function NormalizeId(id: string): string
  {
    var k := LastDash(id, |id|);
    if k < |id| && k + 1 < |id| && AllDigits(id[k + 1..]) then id[..k + 1] + DecimalText(Decimal(id[k + 1..])) else id
  }

  function LastDash(id: string, n: nat): (k: nat)
    requires n <= |id|
    ensures k <= |id|
  {
    if n == 0 then |id| else if id[n - 1] == '-' then n - 1 else LastDash(id, n - 1)
  }

  function Matching(ids: seq<string>, id: string): seq<string>
  {
    if ids == [] then [] else (if NormalizeId(ids[0]) == NormalizeId(id) then [ids[0]] else []) + Matching(ids[1..], id)
  }

  /** `canonicalCriterionId`. */
  function CanonicalId(raw: string, known: seq<string>): Option<string>
  {
    var id := Trim(raw);
    if id in known then Some(id)
    else
      var matches := Matching(known, id);
      if |matches| == 1 then Some(matches[0]) else None
  }

  function SetOf(ids: seq<string>): set<string> { set i | 0 <= i < |ids| :: ids[i] }

  function Expected(q: Request): set<string>
  {
    SetOf(if q.expectedIds.Some? then q.expectedIds.value else q.ids)
  }

  function Keep(ids: seq<string>, wanted: set<string>): seq<string>
  {
    if ids == [] then [] else (if ids[0] in wanted then [ids[0]] else []) + Keep(ids[1..], wanted)
  }

  function CriterionIds(q: Request): seq<string> { Keep(q.ids, Expected(q)) }

  function KeepFacts(facts: seq<Fact>, wanted: set<string>): seq<Fact>
  {
    if facts == [] then [] else (if facts[0].id in wanted then [facts[0]] else []) + KeepFacts(facts[1..], wanted)
  }

  function RequiredFacts(q: Request): seq<Fact>
  {
    if q.expectedFacts.None? then q.context.facts else KeepFacts(q.context.facts, SetOf(q.expectedFacts.value))
  }

  // ---------------------------------------------------------------- findings of the reviewing model

  function ScopeOf(q: Request, item: RawFinding): ScopeTag
  {
    if item.scope.Some? then item.scope.value else if q.planned.Some? then OtherScope else CaseScope
  }

  function ResolvedId(q: Request, item: RawFinding): Option<string>
  {
    if item.criterionId == "" then Some("") else CanonicalId(item.criterionId, q.ids)
  }

  predicate BoundariesKnown(q: Request, item: RawFinding)
  {
    forall i :: 0 <= i < |item.boundaryIds| ==> item.boundaryIds[i] in q.context.boundaries
  }

  predicate FindingValid(q: Request, item: RawFinding)
  {
    && !item.severity.OtherSeverity?
    && !(item.message.Said? && Blank(item.message.text))
    && !ScopeOf(q, item).OtherScope?
    && (item.criterionId != "" ==> ResolvedId(q, item).Some? && ResolvedId(q, item).value in Expected(q))
    && !item.disposition.OtherDisposition?
    && (!item.disposition.Actionable? ==> item.boundaryIds != [])
    && BoundariesKnown(q, item)
  }

  predicate IsParentNotice(q: Request, item: RawFinding) { q.planned.Some? && ScopeOf(q, item).ParentScope? }

  function FindingFor(q: Request, item: RawFinding): seq<Finding>
  {
    if !FindingValid(q, item) then [Add(InvalidFinding, "")]
    else if item.disposition.Omission? then []
    else [Finding(if IsParentNotice(q, item) && item.severity.Blocking? then Notice else item.severity,
                  ClipMessage(item.message), ResolvedId(q, item).value, Some(ScopeOf(q, item)), false)]
  }

  function ReviewerFindings(q: Request): seq<RawFinding>
  {
    if q.raw.findings.Some? then q.raw.findings.value else []
  }

  predicate IsSetAside(q: Request, item: RawFinding)
  {
    FindingValid(q, item) && (item.disposition.Omission? || IsParentNotice(q, item))
  }

  /** Dismissed omissions plus informational notices about the parent criterion. */
  function SetAside(q: Request, n: nat): nat
    requires n <= |ReviewerFindings(q)|
  {
    if n == 0 then 0
    else
      SetAside(q, n - 1) + if IsSetAside(q, ReviewerFindings(q)[n - 1]) then 1 else 0
  }

  // ---------------------------------------------------------------- grounding

  predicate QuoteExists(context: Context, e: Evidence)
  {
    && |Trim(e.quote)| >= 3
    && e.sourceId in context.sources
    && exists i :: 0 <= i < |context.sources[e.sourceId]| && Includes(context.sources[e.sourceId][i], Trim(e.quote))
  }

  function KeepQuotes(context: Context, entries: seq<Evidence>): (kept: seq<Evidence>)
    ensures |kept| <= |entries|
  {
    if entries == [] then []
    else (if QuoteExists(context, entries[0]) then [Evidence(entries[0].sourceId, Trim(entries[0].quote))] else [])
         + KeepQuotes(context, entries[1..])
  }

  function GroundingsFor(items: seq<RawGrounding>, id: string): seq<RawGrounding>
  {
    if items == [] then [] else (if items[0].criterionId == id then [items[0]] else []) + GroundingsFor(items[1..], id)
  }

  predicate GroundingShaped(entries: seq<RawGrounding>)
  {
    && |entries| == 1
    && !entries[0].status.OtherBacking? && !Blank(entries[0].reason)
    && entries[0].evidence.Some? && entries[0].assumptionIds.Some?
  }

  predicate AllAccepted(context: Context, ids: seq<string>)
  {
    forall i :: 0 <= i < |ids| ==> ids[i] in context.accepted
  }

  function GroundingFindings(q: Request, id: string): seq<Finding>
  {
    var entries := GroundingsFor(q.raw.grounding, id);
    if !GroundingShaped(entries) then [Add(MissingGrounding, id)]
    else
      var item := entries[0];
      var kept := KeepQuotes(q.context, item.evidence.value);
      AddIf(|kept| != |item.evidence.value| || !AllAccepted(q.context, item.assumptionIds.value), CitesUnknown, id)
      + AddIf(item.status.Explicit? && kept == [], ExplicitWithoutQuote, id)
      + AddIf(item.status.Inferred? && kept == [], InferredWithoutQuote, id)
      + AddIf(item.status.Assumption? && item.assumptionIds.value == [], AssumptionWithoutId, id)
      + AddIf(item.status.Unsupported?, UnsupportedBehaviour, id)
      + (if item.status.Inferred? then [Finding(Notice, InferenceNeedsReview, id, None, false)] else [])
  }

  function GroundingRow(q: Request, id: string): seq<Grounding>
  {
    var entries := GroundingsFor(q.raw.grounding, id);
    if !GroundingShaped(entries) then []
    else
      var item := entries[0];
      [Grounding(id, item.status, if item.status.Unsupported? then [] else KeepQuotes(q.context, item.evidence.value),
                 item.assumptionIds.value, Clip(item.reason))]
  }

  predicate ForeignGrounding(q: Request)
  {
    exists i :: 0 <= i < |q.raw.grounding| &&
                (q.raw.grounding[i].criterionId !in q.ids || q.raw.grounding[i].criterionId !in Expected(q))
  }

  // ---------------------------------------------------------------- coverage of criteria and scenario

  function CoverageFor(items: seq<RawCoverage>, id: string): seq<RawCoverage>
  {
    if items == [] then [] else (if items[0].id == id then [items[0]] else []) + CoverageFor(items[1..], id)
  }

  predicate StepsExist(q: Request, steps: seq<Option<int>>)
  {
    forall i :: 0 <= i < |steps| ==> steps[i].Some? && steps[i].value in q.steps
  }

  predicate CoverageShaped(q: Request, entries: seq<RawCoverage>)
  {
    && |entries| == 1
    && !entries[0].status.OtherCoverage? && !Blank(entries[0].reason)
    && StepsExist(q, entries[0].steps)
    && (entries[0].status.Covered? ==> entries[0].steps != [])
  }

  function CoverageFindings(q: Request, id: string): seq<Finding>
  {
    var entries := CoverageFor(q.raw.coverage, id);
    if !CoverageShaped(q, entries) then [Add(MissingCoverage, id)]
    else AddIf(!entries[0].status.Covered? && q.planned.None?, IncompleteCoverage, id)
  }

  function RowOf(id: string, item: RawCoverage): CoverageRow
  {
    CoverageRow(id, item.status, item.steps, Clip(item.reason))
  }

  function CoverageRows(q: Request, id: string): seq<CoverageRow>
  {
    var entries := CoverageFor(q.raw.coverage, id);
    if CoverageShaped(q, entries) then [RowOf(id, entries[0])] else []
  }

  predicate ScenarioShaped(q: Request)
  {
    && q.planned.Some? && q.planned.value != ""
    && CoverageShaped(q, CoverageFor(q.raw.scenarios, q.planned.value))
    && forall i :: 0 <= i < |q.raw.scenarios| ==> q.raw.scenarios[i].id == q.planned.value
  }

  function ScenarioFindings(q: Request): seq<Finding>
  {
    if q.planned.None? then AddIf(q.raw.scenarios != [], UnexpectedScenario, "")
    else if !ScenarioShaped(q) then [Add(MissingScenario, "")]
    else AddIf(!CoverageFor(q.raw.scenarios, q.planned.value)[0].status.Covered?, IncompleteScenario, "")
  }

  function ScenarioRows(q: Request): seq<CoverageRow>
  {
    if ScenarioShaped(q) then [RowOf(q.planned.value, CoverageFor(q.raw.scenarios, q.planned.value)[0])] else []
  }

  // ---------------------------------------------------------------- coverage of source facts

  function FactsFor(items: seq<RawFact>, id: string): seq<RawFact>
  {
    if items == [] then [] else (if items[0].factId == id then [items[0]] else []) + FactsFor(items[1..], id)
  }

  predicate FactShaped(q: Request, fact: Fact, entries: seq<RawFact>)
  {
    && |entries| == 1
    && entries[0].sourceId == Text(fact.sourceId) && entries[0].quote == Text(fact.quote)
    && fact.sourceId in q.context.sources
    && (exists i :: 0 <= i < |q.context.sources[fact.sourceId]| &&
                    Includes(q.context.sources[fact.sourceId][i], fact.quote))
    && !entries[0].status.OtherCoverage? && !Blank(entries[0].reason)
    && forall i :: 0 <= i < |entries[0].criterionIds| ==> entries[0].criterionIds[i] in q.ids
  }

  function FactFindings(q: Request, fact: Fact): seq<Finding>
  {
    var entries := FactsFor(q.raw.facts, fact.id);
    if !FactShaped(q, fact, entries) then [Add(MissingFact, "")]
    else
      AddIf(!entries[0].status.Covered? || entries[0].criterionIds == [], UncoveredFact,
            if entries[0].criterionIds == [] then "" else entries[0].criterionIds[0])
  }

  function FactRows(q: Request, fact: Fact): seq<FactRow>
  {
    var entries := FactsFor(q.raw.facts, fact.id);
    if FactShaped(q, fact, entries)
    then [FactRow(fact.id, fact.sourceId, fact.quote, entries[0].status, entries[0].criterionIds,
                  Clip(entries[0].reason))]
    else []
  }

  predicate ForeignFact(q: Request)
  {
    exists i :: 0 <= i < |q.raw.facts| &&
                forall k :: 0 <= k < |RequiredFacts(q)| ==> q.raw.facts[i].factId != RequiredFacts(q)[k].id
  }

  // ---------------------------------------------------------------- the whole report

  function StatedBy(q: Request): RawFinding -> seq<Finding> { item => FindingFor(q, item) }

  function GroundingFindingsBy(q: Request): string -> seq<Finding> { id => GroundingFindings(q, id) }

  function GroundingRowsBy(q: Request): string -> seq<Grounding> { id => GroundingRow(q, id) }

  function CoverageFindingsBy(q: Request): string -> seq<Finding> { id => CoverageFindings(q, id) }

  function CoverageRowsBy(q: Request): string -> seq<CoverageRow> { id => CoverageRows(q, id) }

  function FactFindingsBy(q: Request): Fact -> seq<Finding> { fact => FactFindings(q, fact) }

  function FactRowsBy(q: Request): Fact -> seq<FactRow> { fact => FactRows(q, fact) }

  function Stated(q: Request): seq<Finding> { Flat(StatedBy(q), ReviewerFindings(q), |ReviewerFindings(q)|) }

  function AllGroundingFindings(q: Request): seq<Finding>
  {
    Flat(GroundingFindingsBy(q), CriterionIds(q), |CriterionIds(q)|)
  }

  function AllGroundingRows(q: Request): seq<Grounding> { Flat(GroundingRowsBy(q), CriterionIds(q), |CriterionIds(q)|) }

  function AllCoverageFindings(q: Request): seq<Finding>
  {
    Flat(CoverageFindingsBy(q), CriterionIds(q), |CriterionIds(q)|)
  }

  function AllCoverageRows(q: Request): seq<CoverageRow> { Flat(CoverageRowsBy(q), CriterionIds(q), |CriterionIds(q)|) }

  function AllFactFindings(q: Request): seq<Finding> { Flat(FactFindingsBy(q), RequiredFacts(q), |RequiredFacts(q)|) }

  function AllFactRows(q: Request): seq<FactRow> { Flat(FactRowsBy(q), RequiredFacts(q), |RequiredFacts(q)|) }

  predicate Has(findings: seq<Finding>, severity: Severity)
  {
    exists i :: 0 <= i < |findings| && findings[i].severity == severity
  }

  function VerdictOf(findings: seq<Finding>): Verdict
  {
    if Has(findings, Blocking) then Fail else if findings != [] then Warn else Pass
  }

  /** Whether the single scenario row says COVERED, so that blocking scenario findings contradict it. */
  predicate ScenarioSettled(q: Request, scenarios: seq<CoverageRow>)
  {
    q.planned.Some? && |scenarios| == 1 && scenarios[0].status.Covered?
  }

  function Reconciled(settled: bool, f: Finding): Finding
  {
    if settled && f.scope == Some(ScenarioScope) && f.severity.Blocking?
    then f.(severity := Notice, conflict := true)
    else f
  }

  function ReconciledAll(settled: bool, findings: seq<Finding>): seq<Finding>
  {
    seq(|findings|, i requires 0 <= i < |findings| => Reconciled(settled, findings[i]))
  }

  /** Every blocking finding that was stated concerns the assigned scenario or the parent criterion. */
  predicate OnlyOutsideFailures(q: Request)
  {
    && ReviewerFindings(q) != []
    && forall i :: 0 <= i < |ReviewerFindings(q)| ==>
         var item := ReviewerFindings(q)[i];
         || !item.severity.Blocking?
         || (item.scopeIsText && (item.scope == Some(ParentScope) || item.scope == Some(ScenarioScope)))
  }

  predicate RejectionExcused(q: Request, settled: bool)
  {
    || (settled && OnlyOutsideFailures(q))
    || (q.planned.Some? && q.stage.Quality? && OnlyOutsideFailures(q))
    || (ReviewerFindings(q) != [] && SetAside(q, |ReviewerFindings(q)|) == |ReviewerFindings(q)|)
  }

  function Closing(q: Request, settled: bool, findings: seq<Finding>): seq<Finding>
  {
    var rejects := q.raw.verdict.Fail? && !Has(findings, Blocking) && !RejectionExcused(q, settled);
    var rejected := AddIf(rejects, RejectedByReviewer, "");
    rejected
      + (if q.raw.verdict.Warn? && findings + rejected == []
         then [Finding(Notice, HumanReviewRequested, "", None, false)] else [])
  }

  function Opening(q: Request): seq<Finding>
  {
    AddIf(q.raw.verdict.NoVerdict? || q.raw.findings.None?, InvalidContract, "")
    + Stated(q)
  }

  function TraceFindings(q: Request): seq<Finding>
  {
    if q.stage.Quality? then []
    else
      AllGroundingFindings(q)
      + AddIf(ForeignGrounding(q), ForeignCriteria, "")
      + (if q.kind.Case? then AllCoverageFindings(q) + ScenarioFindings(q)
         else AllFactFindings(q) + AddIf(ForeignFact(q), ForeignFacts, ""))
  }

  /** `checkedSemanticReview` as a value. */
  function Review(q: Request): Report
  {
    var trace, story := q.stage.Traceability?, q.kind.Story?;
    var scenarios := if trace && !story then ScenarioRows(q) else [];
    var settled := ScenarioSettled(q, scenarios);
    var findings := ReconciledAll(settled, Opening(q) + TraceFindings(q));
    var all := findings + Closing(q, settled, findings);
    Report(VerdictOf(all), all,
           if trace then AllGroundingRows(q) else [],
           if trace && !story then AllCoverageRows(q) else [],
           scenarios,
           if trace && story then AllFactRows(q) else [])
  }

  /** `checkedSemanticReview`: findings are pushed section by section and reconciled in place at the end. */
  method CheckedSemanticReview(q: Request) returns (report: Report)
    ensures report == Review(q)
  {
    var findings, setAside := StatedSection(q);
    var added, grounding, coverage, scenarios, facts := TraceSection(q);
    var settled := ScenarioSettled(q, scenarios);
    findings := ReconciledAll(settled, findings + added);
    findings := CloseFindings(q, settled, findings, setAside);
    report := Report(VerdictOf(findings), findings, grounding, coverage, scenarios, facts);
  }

  method StatedSection(q: Request) returns (findings: seq<Finding>, setAside: nat)
    ensures findings == Opening(q) && setAside == SetAside(q, |ReviewerFindings(q)|)
  {
    findings := AddIf(q.raw.verdict.NoVerdict? || q.raw.findings.None?, InvalidContract, "");
    ghost var start := findings;
    setAside := 0;
    var items := ReviewerFindings(q);
    for i := 0 to |items|
      invariant findings == start + Flat(StatedBy(q), items, i) && setAside == SetAside(q, i)
    {
      var item := items[i];
      findings := findings + FindingFor(q, item);
      if FindingValid(q, item) && (item.disposition.Omission? || IsParentNotice(q, item)) { setAside := setAside + 1; }
    }
  }

  method TraceSection(q: Request)
    returns (findings: seq<Finding>, grounding: seq<Grounding>, coverage: seq<CoverageRow>, scenarios: seq<CoverageRow>,
             facts: seq<FactRow>)
    ensures findings == TraceFindings(q)
    ensures grounding == if q.stage.Traceability? then AllGroundingRows(q) else []
    ensures coverage == if q.stage.Traceability? && q.kind.Case? then AllCoverageRows(q) else []
    ensures scenarios == if q.stage.Traceability? && q.kind.Case? then ScenarioRows(q) else []
    ensures facts == if q.stage.Traceability? && q.kind.Story? then AllFactRows(q) else []
  {
    findings, grounding, coverage, scenarios, facts := [], [], [], [], [];
    if q.stage.Quality? {
      return;
    }
    var more;
    findings, grounding := GroundingSection(q);
    findings := findings + AddIf(ForeignGrounding(q), ForeignCriteria, "");
    if q.kind.Case? {
      more, coverage := CoverageSection(q);
      findings := findings + (more + ScenarioFindings(q));
      scenarios := ScenarioRows(q);
    } else {
      more, facts := FactSection(q);
      findings := findings + (more + AddIf(ForeignFact(q), ForeignFacts, ""));
    }
  }

  method CloseFindings(q: Request, settled: bool, findings: seq<Finding>, setAside: nat) returns (all: seq<Finding>)
    requires setAside == SetAside(q, |ReviewerFindings(q)|)
    ensures all == findings + Closing(q, settled, findings)
  {
    all := findings;
    if q.raw.verdict.Fail? && !Has(findings, Blocking) && !(settled && OnlyOutsideFailures(q))
       && !(q.planned.Some? && q.stage.Quality? && OnlyOutsideFailures(q))
       && !(ReviewerFindings(q) != [] && setAside == |ReviewerFindings(q)|)
    {
      all := all + [Add(RejectedByReviewer, "")];
    }
    if q.raw.verdict.Warn? && all == [] {
      all := all + [Finding(Notice, HumanReviewRequested, "", None, false)];
    }
  }

  method GroundingSection(q: Request) returns (findings: seq<Finding>, rows: seq<Grounding>)
    ensures findings == AllGroundingFindings(q) && rows == AllGroundingRows(q)
  {
    findings, rows := [], [];
    var ids := CriterionIds(q);
    for i := 0 to |ids|
      invariant findings == Flat(GroundingFindingsBy(q), ids, i) && rows == Flat(GroundingRowsBy(q), ids, i)
    {
      findings, rows := findings + GroundingFindings(q, ids[i]), rows + GroundingRow(q, ids[i]);
    }
  }

  method CoverageSection(q: Request) returns (findings: seq<Finding>, rows: seq<CoverageRow>)
    ensures findings == AllCoverageFindings(q) && rows == AllCoverageRows(q)
  {
    findings, rows := [], [];
    var ids := CriterionIds(q);
    for i := 0 to |ids|
      invariant findings == Flat(CoverageFindingsBy(q), ids, i) && rows == Flat(CoverageRowsBy(q), ids, i)
    {
      findings, rows := findings + CoverageFindings(q, ids[i]), rows + CoverageRows(q, ids[i]);
    }
  }

  method FactSection(q: Request) returns (findings: seq<Finding>, rows: seq<FactRow>)
    ensures findings == AllFactFindings(q) && rows == AllFactRows(q)
  {
    findings, rows := [], [];
    var required := RequiredFacts(q);
    for i := 0 to |required|
      invariant findings == Flat(FactFindingsBy(q), required, i) && rows == Flat(FactRowsBy(q), required, i)
    {
      findings, rows := findings + FactFindings(q, required[i]), rows + FactRows(q, required[i]);
    }
  }

  // ---------------------------------------------------------------- repair

  /** `map.set(key(item), item)` on the values of an insertion-ordered Map. */
  function Put<T>(key: T -> string, entries: seq<T>, item: T): seq<T>
  {
    if entries == [] then [item]
    else if key(entries[0]) == key(item) then [item] + entries[1..]
    else [entries[0]] + Put(key, entries[1..], item)
  }

  function PutAll<T>(key: T -> string, entries: seq<T>, items: seq<T>): seq<T>
    decreases |items|
  {
    if items == [] then entries else Put(key, PutAll(key, entries, items[..|items| - 1]), items[|items| - 1])
  }

  function Lookup<T>(key: T -> string, entries: seq<T>, k: string): Option<T>
  {
    if entries == [] then None
    else if key(entries[0]) == k then Some(entries[0])
    else Lookup(key, entries[1..], k)
  }

  function GroundingKey(g: Grounding): string { g.criterionId }

  function CoverageKey(r: CoverageRow): string { r.id }

  function FactKey(r: FactRow): string { r.factId }

  function GroundingOf(r: Report, id: string): Option<Grounding> { Lookup(GroundingKey, r.grounding, id) }

  function CoverageOf(r: Report, id: string): Option<CoverageRow> { Lookup(CoverageKey, r.coverage, id) }

  function FactOf(r: Report, id: string): Option<FactRow> { Lookup(FactKey, r.facts, id) }

  /** `missingTraceabilityIds`. */
  function MissingIds(r: Report, ids: seq<string>, kind: Kind): seq<string>
  {
    if ids == [] then []
    else (if GroundingOf(r, ids[0]).None? || (kind.Case? && CoverageOf(r, ids[0]).None?) then [ids[0]] else [])
         + MissingIds(r, ids[1..], kind)
  }

  /** `missingStorySourceFactIds`. */
  function MissingFacts(r: Report, facts: seq<Fact>): seq<string>
  {
    if facts == [] then []
    else (if FactOf(r, facts[0].id).None? then [facts[0].id] else []) + MissingFacts(r, facts[1..])
  }

  predicate FullyResolved(repair: Report, resolved: seq<string>, kind: Kind, id: string)
  {
    && id in resolved
    && if kind.Case? then CoverageOf(repair, id).Some? else GroundingOf(repair, id).Some?
  }

  predicate IsMissingItem(repair: Report, resolved: seq<string>, kind: Kind, f: Finding)
  {
    && f.criterionId != ""
    && FullyResolved(repair, resolved, kind, f.criterionId)
    && (f.message.MissingGrounding? || f.message.MissingCoverage?)
  }

  predicate IsFactMessage(m: Message) { m.MissingFact? || m.UncoveredFact? || m.ForeignFacts? }

  predicate FactCovered(rows: seq<FactRow>, id: string)
  {
    var row := Lookup(FactKey, rows, id);
    row.Some? && row.value.status.Covered? && row.value.criterionIds != []
  }

  predicate FactsSettled(rows: seq<FactRow>, resolvedFacts: seq<string>, facts: seq<Fact>)
  {
    && resolvedFacts != []
    && (forall i :: 0 <= i < |resolvedFacts| ==> FactCovered(rows, resolvedFacts[i]))
    && (forall i :: 0 <= i < |facts| ==> FactCovered(rows, facts[i].id))
  }

  /** A finding of the primary report that the repair makes obsolete. */
  predicate Dropped(repair: Report, resolved: seq<string>, kind: Kind, factsSettled: bool, f: Finding)
  {
    IsMissingItem(repair, resolved, kind, f) || (factsSettled && IsFactMessage(f.message))
  }

  function KeepFindings(findings: seq<Finding>, repair: Report, resolved: seq<string>, kind: Kind,
                        factsSettled: bool): seq<Finding>
  {
    if findings == [] then []
    else (if Dropped(repair, resolved, kind, factsSettled, findings[0]) then [] else [findings[0]])
         + KeepFindings(findings[1..], repair, resolved, kind, factsSettled)
  }

  /** `mergeTraceabilityRepair` as a value. */
  function Merge(primary: Report, repair: Report, resolved: seq<string>, kind: Kind, resolvedFacts: seq<string>,
                 facts: seq<Fact>): Report
  {
    var factRows := PutAll(FactKey, PutAll(FactKey, [], primary.facts), repair.facts);
    var settled := FactsSettled(factRows, resolvedFacts, facts);
    var findings := KeepFindings(primary.findings, repair, resolved, kind, settled) + repair.findings;
    Report(VerdictOf(findings), findings,
           PutAll(GroundingKey, PutAll(GroundingKey, [], primary.grounding), repair.grounding),
           PutAll(CoverageKey, PutAll(CoverageKey, [], primary.coverage), repair.coverage),
           if repair.scenarios != [] then repair.scenarios else primary.scenarios,
           factRows)
  }

  method MergeRows<T>(key: T -> string, primary: seq<T>, repair: seq<T>) returns (rows: seq<T>)
    ensures rows == PutAll(key, PutAll(key, [], primary), repair)
  {
    rows := [];
    for i := 0 to |primary|
      invariant rows == PutAll(key, [], primary[..i])
    {
      assert primary[..i + 1][..i] == primary[..i];
      rows := Put(key, rows, primary[i]);
    }
    assert primary[..|primary|] == primary;
    ghost var base := rows;
    for i := 0 to |repair|
      invariant rows == PutAll(key, base, repair[..i])
    {
      assert repair[..i + 1][..i] == repair[..i];
      rows := Put(key, rows, repair[i]);
    }
    assert repair[..|repair|] == repair;
  }

  /** `mergeTraceabilityRepair`: rows of the repair overwrite those of the primary report, row by row. */
  method MergeTraceabilityRepair(primary: Report, repair: Report, resolved: seq<string>, kind: Kind,
                                 resolvedFacts: seq<string>, facts: seq<Fact>) returns (merged: Report)
    ensures merged == Merge(primary, repair, resolved, kind, resolvedFacts, facts)
  {
    var grounding := MergeRows(GroundingKey, primary.grounding, repair.grounding);
    var coverage := MergeRows(CoverageKey, primary.coverage, repair.coverage);
    var factRows := MergeRows(FactKey, primary.facts, repair.facts);
    var settled := FactsSettled(factRows, resolvedFacts, facts);
    var findings := KeepFindings(primary.findings, repair, resolved, kind, settled) + repair.findings;
    merged := Report(VerdictOf(findings), findings, grounding, coverage,
                     if repair.scenarios != [] then repair.scenarios else primary.scenarios, factRows);
  }

  /** The call on the repair answer: only the missing criteria and facts are expected. */
  function RepairRequest(q: Request, repairRaw: RawReview): Request
  {
    var primary := Review(q);
    q.(raw := repairRaw,
       expectedIds := Some(MissingIds(primary, q.ids, q.kind)),
       expectedFacts := if q.kind.Story? then Some(MissingFacts(primary, q.context.facts)) else None)
  }

  /** The traceability report of one proposal: the checked answer, merged with a repair when it left something out. */
  function TraceabilityReport(q: Request, repairRaw: RawReview): Report
  {
    var primary := Review(q);
    var missing := MissingIds(primary, q.ids, q.kind);
    var missingFacts := if q.kind.Story? then MissingFacts(primary, q.context.facts) else [];
    if missing == [] && missingFacts == [] then primary
    else Merge(primary, Review(RepairRequest(q, repairRaw)), missing, q.kind, missingFacts, q.context.facts)
  }
}
