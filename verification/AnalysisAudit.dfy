/**
 * The source-grounded audit of an analysis (engine/src/generation-analysis-review.ts). The auditor's
 * answer is an arbitrary value; texts that the code reads through `String(value || '')` are texts here.
 */
module AnalysisAudit {
  import opened Wrappers
  import opened Texts
  import opened CaseContract
  import opened SemanticReview

  datatype QuestionStatus = Answered | Unanswered | Conflicted | OutOfScope | OtherQuestionStatus

  datatype QuestionDecision = QuestionDecision(question: Loose, status: QuestionStatus, answer: Loose,
                                               boundaryId: string, evidence: Option<seq<Evidence>>, reason: string)

  datatype AssumptionStatus = IsExplicit | Necessary | Unnecessary | Uncertain | OtherAssumptionStatus

  datatype AssumptionDecision = AssumptionDecision(id: string, status: AssumptionStatus,
                                                   evidence: Option<seq<Evidence>>, reason: string)

  datatype RawAudit = RawAudit(questions: seq<QuestionDecision>, assumptions: seq<AssumptionDecision>)

  /** `leaves` are the texts inside `content`; the last three are read from it. */
  datatype Source = Source(id: string, leaves: seq<string>, isUserAnswer: bool, scopeDecision: string, question: string,
                           answer: string)

  datatype Assumed = Assumed(id: string, risk: string, text: string)

  datatype Resolution = Resolution(question: Loose, answer: string, evidence: Option<seq<Evidence>>,
                                   boundaryId: Option<string>)

  /** Entries of `proposed_assumptions` that are not objects are `None`. */
  datatype Analysis = Analysis(questions: seq<string>, assumptions: seq<Option<Assumed>>, resolved: seq<Resolution>)

  datatype Readiness = Ready | NeedsClarification | Blocked

  datatype Updated = Updated(questions: seq<Loose>, assumptions: seq<Assumed>, removed: seq<AssumptionDecision>,
                             resolved: seq<Resolution>, readiness: Readiness)

  datatype Code =
    | ResponseShapeInvalid | QuestionCountMismatch | AssumptionCountMismatch
    | QuestionMismatch | QuestionStatusInvalid
    | BoundaryInvalid | BoundaryAssertionInvalid | BoundaryReasonMissing
    | QuestionEvidenceInvalid | BoundaryUnexpected | AnswerEvidenceMissing | UnresolvedAnswerPresent
    | AssumptionMismatch | AssumptionStatusInvalid | AssumptionEvidenceInvalid | ExplicitEvidenceMissing

  /** `Threw`: the call ends in a TypeError instead of returning. */
  datatype Outcome = Rejected(code: Code) | Threw | Accepted(analysis: Updated)

  // ---------------------------------------------------------------- inputs

  function Questions(raw: seq<string>): seq<string>
  {
    if raw == [] then [] else (if Blank(raw[0]) then [] else [Trim(raw[0])]) + Questions(raw[1..])
  }

  function Objects(raw: seq<Option<Assumed>>): seq<Assumed>
  {
    if raw == [] then [] else (if raw[0].Some? then [raw[0].value] else []) + Objects(raw[1..])
  }

  /** Source id to its texts; a later source with the same id replaces an earlier one. */
  function SourceTexts(sources: seq<Source>): map<string, seq<string>>
  {
    if sources == [] then map[]
    else
      var last := sources[|sources| - 1];
      SourceTexts(sources[..|sources| - 1])[last.id := last.leaves]
  }

  /** An answer of the user that puts its question out of scope. */
  predicate ClosesScope(s: Source)
  {
    s.isUserAnswer && UpperText(s.scopeDecision) == "OUT_OF_SCOPE" && !Blank(s.question) && !Blank(s.answer)
  }

  function Boundaries(sources: seq<Source>): map<string, string>
  {
    if sources == [] then map[]
    else
      var last, before := sources[|sources| - 1], Boundaries(sources[..|sources| - 1]);
      if ClosesScope(last) then before[last.id := Trim(last.question)] else before
  }

  method ReadSources(sources: seq<Source>) returns (texts: map<string, seq<string>>, boundaries: map<string, string>)
    ensures texts == SourceTexts(sources) && boundaries == Boundaries(sources)
  {
    texts, boundaries := map[], map[];
    for i := 0 to |sources|
      invariant texts == SourceTexts(sources[..i]) && boundaries == Boundaries(sources[..i])
    {
      assert sources[..i + 1][..i] == sources[..i];
      texts := texts[sources[i].id := sources[i].leaves];
      if ClosesScope(sources[i]) {
        boundaries := boundaries[sources[i].id := Trim(sources[i].question)];
      }
    }
    assert sources[..|sources|] == sources;
  }

  // ---------------------------------------------------------------- one decision

  predicate Cited(texts: map<string, seq<string>>, e: Evidence)
  {
    && |Trim(e.quote)| >= 3 && e.sourceId in texts
    && exists i :: 0 <= i < |texts[e.sourceId]| && Includes(texts[e.sourceId][i], Trim(e.quote))
  }

  predicate ValidEvidence(texts: map<string, seq<string>>, evidence: Option<seq<Evidence>>)
  {
    evidence.Some? && forall i :: 0 <= i < |evidence.value| ==> Cited(texts, evidence.value[i])
  }

  predicate Quotes(evidence: Option<seq<Evidence>>) { evidence.Some? && evidence.value != [] }

  /** The checks of one question decision, in the order of the code. */
  function QuestionFault(texts: map<string, seq<string>>, boundaries: map<string, string>, item: QuestionDecision,
                         original: string): Option<Code>
  {
    var boundary, answered := Trim(item.boundaryId), !Blank(Shown(item.answer));
    if Trim(Shown(item.question)) != original then Some(QuestionMismatch)
    else if item.status.OtherQuestionStatus? then Some(QuestionStatusInvalid)
    else if item.status.OutOfScope? then
      if boundary == "" || boundary !in boundaries || boundaries[boundary] != original then Some(BoundaryInvalid)
      else if answered || Quotes(item.evidence) then Some(BoundaryAssertionInvalid)
      else if Blank(item.reason) then Some(BoundaryReasonMissing)
      else None
    else if !ValidEvidence(texts, item.evidence) then Some(QuestionEvidenceInvalid)
    else if boundary != "" then Some(BoundaryUnexpected)
    else if item.status.Answered? && (!answered || !Quotes(item.evidence)) then Some(AnswerEvidenceMissing)
    else if !item.status.Answered? && answered then Some(UnresolvedAnswerPresent)
    else None
  }

  /** An UNNECESSARY decision without a reason counts as UNCERTAIN. */
  function Adjusted(item: AssumptionDecision): AssumptionDecision
  {
    if item.status.Unnecessary? && Blank(item.reason) then item.(status := Uncertain) else item
  }

  function AssumptionFault(texts: map<string, seq<string>>, item: AssumptionDecision, original: Assumed): Option<Code>
  {
    if Trim(item.id) != Trim(original.id) then Some(AssumptionMismatch)
    else if item.status.OtherAssumptionStatus? then Some(AssumptionStatusInvalid)
    else if !ValidEvidence(texts, item.evidence) then Some(AssumptionEvidenceInvalid)
    else if item.status.IsExplicit? && !Quotes(item.evidence) then Some(ExplicitEvidenceMissing)
    else None
  }

  predicate Resolves(item: QuestionDecision) { item.status.Answered? || item.status.OutOfScope? }

  predicate Retains(item: AssumptionDecision) { item.status.Necessary? || item.status.Uncertain? }

  /** `item.answer.trim()` needs a text. */
  predicate AnswerReadable(item: QuestionDecision) { Resolves(item) ==> item.answer.Text? }

  function ResolutionOf(item: QuestionDecision): Resolution
  {
    Resolution(item.question, Trim(Shown(item.answer)), item.evidence,
               if item.status.OutOfScope? then Some(item.boundaryId) else None)
  }

  // ---------------------------------------------------------------- the lists of an accepted audit

  function Resolved(items: seq<QuestionDecision>): seq<Resolution>
  {
    if items == [] then [] else (if Resolves(items[0]) then [ResolutionOf(items[0])] else []) + Resolved(items[1..])
  }

  function Unresolved(items: seq<QuestionDecision>): seq<Loose>
  {
    if items == [] then [] else (if Resolves(items[0]) then [] else [items[0].question]) + Unresolved(items[1..])
  }

  function AdjustedAll(items: seq<AssumptionDecision>): (r: seq<AssumptionDecision>)
    ensures |r| == |items| && forall i :: 0 <= i < |items| ==> r[i] == Adjusted(items[i])
  {
    if items == [] then [] else [Adjusted(items[0])] + AdjustedAll(items[1..])
  }

  function Retained(items: seq<AssumptionDecision>, originals: seq<Assumed>): seq<Assumed>
    requires |items| == |originals|
  {
    if items == [] then []
    else (if Retains(items[0]) then [originals[0]] else []) + Retained(items[1..], originals[1..])
  }

  function Removed(items: seq<AssumptionDecision>): seq<AssumptionDecision>
  {
    if items == [] then [] else (if Retains(items[0]) then [] else [items[0]]) + Removed(items[1..])
  }

  predicate Critical(assumptions: seq<Assumed>)
  {
    exists i :: 0 <= i < |assumptions| && UpperText(assumptions[i].risk) == "CRITICAL"
  }

  function ReadinessOf(questions: seq<Loose>, assumptions: seq<Assumed>): Readiness
  {
    if Critical(assumptions) then Blocked
    else if questions != [] || assumptions != [] then NeedsClarification
    else Ready
  }

  // ---------------------------------------------------------------- what makes an answer acceptable

  /** Declarative form of the checks of one question. */
  predicate QuestionSettledOrOpen(texts: map<string, seq<string>>, boundaries: map<string, string>,
                                  item: QuestionDecision, original: string)
  {
    && Trim(Shown(item.question)) == original
    && match item.status
       case Answered =>
         && ValidEvidence(texts, item.evidence) && Quotes(item.evidence)
         && !Blank(Shown(item.answer)) && Blank(item.boundaryId)
       case Unanswered => ValidEvidence(texts, item.evidence) && Blank(Shown(item.answer)) && Blank(item.boundaryId)
       case Conflicted => ValidEvidence(texts, item.evidence) && Blank(Shown(item.answer)) && Blank(item.boundaryId)
       case OutOfScope =>
         && !Blank(item.boundaryId) && Trim(item.boundaryId) in boundaries
         && boundaries[Trim(item.boundaryId)] == original
         && Blank(Shown(item.answer)) && !Quotes(item.evidence) && !Blank(item.reason)
       case OtherQuestionStatus => false
  }

  predicate AssumptionWeighed(texts: map<string, seq<string>>, item: AssumptionDecision, original: Assumed)
  {
    && Trim(item.id) == Trim(original.id)
    && !item.status.OtherAssumptionStatus?
    && ValidEvidence(texts, item.evidence)
    && (item.status.IsExplicit? ==> Quotes(item.evidence))
  }

  predicate QuestionsClean(texts: map<string, seq<string>>, boundaries: map<string, string>,
                           items: seq<QuestionDecision>, qs: seq<string>)
    requires |items| == |qs|
  {
    forall i :: 0 <= i < |qs| ==> QuestionSettledOrOpen(texts, boundaries, items[i], qs[i])
  }

  predicate AssumptionsClean(texts: map<string, seq<string>>, items: seq<AssumptionDecision>, originals: seq<Assumed>)
    requires |items| == |originals|
  {
    forall i :: 0 <= i < |originals| ==> AssumptionWeighed(texts, items[i], originals[i])
  }

  predicate Clean(raw: Option<RawAudit>, analysis: Analysis, sources: seq<Source>)
  {
    var qs, originals := Questions(analysis.questions), Objects(analysis.assumptions);
    && raw.Some? && |raw.value.questions| == |qs| && |raw.value.assumptions| == |originals|
    && QuestionsClean(SourceTexts(sources), Boundaries(sources), raw.value.questions, qs)
    && AssumptionsClean(SourceTexts(sources), raw.value.assumptions, originals)
  }

  predicate Readable(items: seq<QuestionDecision>) { forall i :: 0 <= i < |items| ==> AnswerReadable(items[i]) }

  function UpdatedBy(raw: RawAudit, analysis: Analysis): Updated
    requires |raw.assumptions| == |Objects(analysis.assumptions)|
  {
    var weighed := AdjustedAll(raw.assumptions);
    var open_, kept := Unresolved(raw.questions), Retained(weighed, Objects(analysis.assumptions));
    Updated(open_, kept, Removed(weighed), analysis.resolved + Resolved(raw.questions), ReadinessOf(open_, kept))
  }

  /** The fault of each question decision, by position. */
  function QuestionFaults(texts: map<string, seq<string>>, boundaries: map<string, string>,
                          items: seq<QuestionDecision>, qs: seq<string>): nat -> Option<Code>
  {
    (i: nat) => if i < |items| && i < |qs| then QuestionFault(texts, boundaries, items[i], qs[i]) else None
  }

  function AssumptionFaults(texts: map<string, seq<string>>, items: seq<AssumptionDecision>,
                            originals: seq<Assumed>): nat -> Option<Code>
  {
    (i: nat) => if i < |items| && i < |originals| then AssumptionFault(texts, items[i], originals[i]) else None
  }

  predicate NoneBelow(fault: nat -> Option<Code>, n: nat) { forall i: nat :: i < n ==> fault(i).None? }

  /** Position `k` holds the first fault, and `code` names it. */
  predicate FirstFaultAt(fault: nat -> Option<Code>, k: nat, code: Code)
  {
    fault(k) == Some(code) && NoneBelow(fault, k)
  }

  /** Why an answer is rejected: the first check that fails, in the order of the code. */
  predicate Explains(code: Code, raw: Option<RawAudit>, analysis: Analysis, sources: seq<Source>)
  {
    var qs, originals := Questions(analysis.questions), Objects(analysis.assumptions);
    var texts, boundaries := SourceTexts(sources), Boundaries(sources);
    if raw.None? then code == ResponseShapeInvalid
    else if |raw.value.questions| != |qs| then code == QuestionCountMismatch
    else if |raw.value.assumptions| != |originals| then code == AssumptionCountMismatch
    else
      var questions := QuestionFaults(texts, boundaries, raw.value.questions, qs);
      var assumptions := AssumptionFaults(texts, AdjustedAll(raw.value.assumptions), originals);
      || (exists k :: 0 <= k < |qs| && FirstFaultAt(questions, k, code))
      || (NoneBelow(questions, |qs|) && exists k :: 0 <= k < |originals| && FirstFaultAt(assumptions, k, code))
  }

  lemma QuestionFaultExactly(texts: map<string, seq<string>>, boundaries: map<string, string>, item: QuestionDecision,
                             original: string)
    ensures QuestionFault(texts, boundaries, item, original).None? <==>
            QuestionSettledOrOpen(texts, boundaries, item, original)
  {
  }

  lemma AssumptionFaultExactly(texts: map<string, seq<string>>, item: AssumptionDecision, original: Assumed)
    ensures AssumptionFault(texts, Adjusted(item), original).None? <==> AssumptionWeighed(texts, item, original)
  {
  }

  lemma AllQuestionsExactly(texts: map<string, seq<string>>, boundaries: map<string, string>,
                            items: seq<QuestionDecision>, qs: seq<string>)
    requires |items| == |qs|
    ensures NoneBelow(QuestionFaults(texts, boundaries, items, qs), |qs|) <==>
            QuestionsClean(texts, boundaries, items, qs)
  {
    var fault := QuestionFaults(texts, boundaries, items, qs);
    forall i: nat | i < |qs| ensures fault(i).None? <==> QuestionSettledOrOpen(texts, boundaries, items[i], qs[i]) {
      QuestionFaultExactly(texts, boundaries, items[i], qs[i]);
    }
  }

  lemma AllAssumptionsExactly(texts: map<string, seq<string>>, items: seq<AssumptionDecision>, originals: seq<Assumed>)
    requires |items| == |originals|
    ensures NoneBelow(AssumptionFaults(texts, AdjustedAll(items), originals), |originals|) <==>
            AssumptionsClean(texts, items, originals)
  {
    var fault := AssumptionFaults(texts, AdjustedAll(items), originals);
    forall i: nat | i < |originals| ensures fault(i).None? <==> AssumptionWeighed(texts, items[i], originals[i]) {
      AssumptionFaultExactly(texts, items[i], originals[i]);
    }
  }

  // ---------------------------------------------------------------- the audit

  /** `checkedRequirementAnalysisAudit`. */
  method CheckedRequirementAnalysisAudit(raw: Option<RawAudit>, analysis: Analysis, sources: seq<Source>)
    returns (r: Outcome)
    ensures r.Rejected? <==> !Clean(raw, analysis, sources)
    ensures r.Rejected? ==> Explains(r.code, raw, analysis, sources)
    ensures r.Threw? <==> Clean(raw, analysis, sources) && !Readable(raw.value.questions)
    ensures r.Accepted? ==> r.analysis == UpdatedBy(raw.value, analysis)
  {
    var qs, originals := Questions(analysis.questions), Objects(analysis.assumptions);
    if raw.None? {
      return Rejected(ResponseShapeInvalid);
    }
    if |raw.value.questions| != |qs| {
      return Rejected(QuestionCountMismatch);
    }
    if |raw.value.assumptions| != |originals| {
      return Rejected(AssumptionCountMismatch);
    }
    var texts, boundaries := ReadSources(sources);
    AllQuestionsExactly(texts, boundaries, raw.value.questions, qs);
    AllAssumptionsExactly(texts, raw.value.assumptions, originals);
    var fault, index := FirstFault(QuestionFaults(texts, boundaries, raw.value.questions, qs), |qs|);
    if fault.Some? {
      return Rejected(fault.value);
    }
    var weighed := AdjustedAll(raw.value.assumptions);
    fault, index := FirstFault(AssumptionFaults(texts, weighed, originals), |originals|);
    if fault.Some? {
      return Rejected(fault.value);
    }
    var readable, resolved := ResolveQuestions(raw.value.questions);
    if !readable {
      return Threw;
    }
    var open_, kept := Unresolved(raw.value.questions), Retained(weighed, originals);
    return Accepted(Updated(open_, kept, Removed(weighed), analysis.resolved + resolved, ReadinessOf(open_, kept)));
  }

  /** The loop over decisions, which stops at the first fault. */
  method FirstFault(fault: nat -> Option<Code>, n: nat) returns (r: Option<Code>, index: nat)
    ensures r.None? ==> NoneBelow(fault, n)
    ensures r.Some? ==> index < n && FirstFaultAt(fault, index, r.value)
  {
    index := 0;
    while index < n
      invariant index <= n && NoneBelow(fault, index)
    {
      r := fault(index);
      if r.Some? {
        return;
      }
      index := index + 1;
    }
    r := None;
  }

  /** The resolved questions, unless reading an answer that is not a text throws. */
  method ResolveQuestions(items: seq<QuestionDecision>) returns (readable: bool, resolved: seq<Resolution>)
    ensures readable <==> Readable(items)
    ensures readable ==> resolved == Resolved(items)
  {
    resolved := [];
    for i := 0 to |items|
      invariant Readable(items[..i]) && resolved == Resolved(items[..i])
    {
      assert items[..i + 1] == items[..i] + [items[i]];
      ResolvedAppend(items[..i], items[i]);
      if Resolves(items[i]) {
        if !items[i].answer.Text? {
          assert !AnswerReadable(items[i]);
          return false, [];
        }
        resolved := resolved + [ResolutionOf(items[i])];
      }
      assert Readable(items[..i + 1]);
    }
    assert items[..|items|] == items;
    readable := true;
  }

  lemma {:induction false} ResolvedAppend(items: seq<QuestionDecision>, item: QuestionDecision)
    ensures Resolved(items + [item]) == Resolved(items) + if Resolves(item) then [ResolutionOf(item)] else []
  {
    if items != [] {
      assert (items + [item])[1..] == items[1..] + [item];
      ResolvedAppend(items[1..], item);
    }
  }
}
