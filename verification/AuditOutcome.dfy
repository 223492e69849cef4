/** An accepted audit decision by decision, and what each rejection means. */
module AuditOutcome {
  import opened Wrappers
  import opened Texts
  import opened TextLaws
  import opened Lists
  import opened CaseContract
  import opened SemanticReview
  import opened AnalysisAudit
  import ReviewMeaning

  // ---------------------------------------------------------------- decision by decision

  /** The positions `at` are those of the decisions that answer their question or put it out of scope, or the others. */
  predicate AtResolved(items: seq<QuestionDecision>, resolved: bool, at: seq<nat>)
  {
    && Positions(at, |items|)
    && forall i: nat :: i < |items| ==> (i in at <==> (items[i].status in {Answered, OutOfScope}) == resolved)
  }

  /** What is recorded of a resolved question: the answer trimmed, the evidence and the boundary as they were given. */
  predicate Records(r: Resolution, item: QuestionDecision)
  {
    && r.question == item.question && r.answer == Trim(Shown(item.answer)) && r.evidence == item.evidence
    && r.boundaryId == if item.status.OutOfScope? then Some(item.boundaryId) else None
  }

  lemma {:induction false} ResolvedIsPicked(items: seq<QuestionDecision>)
    ensures Resolved(items) == Picked(Resolves, ResolutionOf, items)
  {
    if items != [] {
      ResolvedIsPicked(items[1..]);
    }
  }

  lemma ResolvedExactly(items: seq<QuestionDecision>) returns (at: seq<nat>)
    ensures AtResolved(items, true, at) && |Resolved(items)| == |at|
    ensures forall j :: 0 <= j < |at| ==> Records(Resolved(items)[j], items[at[j]])
  {
    ResolvedIsPicked(items);
    at := PickedPositions(Resolves, ResolutionOf, items);
  }

  function LeavesOpen(): QuestionDecision -> bool { item => !Resolves(item) }

  function QuestionOf(): QuestionDecision -> Loose { (item: QuestionDecision) => item.question }

  lemma {:induction false} UnresolvedIsPicked(items: seq<QuestionDecision>)
    ensures Unresolved(items) == Picked(LeavesOpen(), QuestionOf(), items)
  {
    if items != [] {
      UnresolvedIsPicked(items[1..]);
    }
  }

  lemma UnresolvedExactly(items: seq<QuestionDecision>) returns (at: seq<nat>)
    ensures AtResolved(items, false, at) && |Unresolved(items)| == |at|
    ensures forall j :: 0 <= j < |at| ==> Unresolved(items)[j] == items[at[j]].question
  {
    UnresolvedIsPicked(items);
    at := PickedPositions(LeavesOpen(), QuestionOf(), items);
  }

  /** Necessary, uncertain, or dismissed without a reason. */
  predicate IsKept(item: AssumptionDecision)
  {
    item.status in {Necessary, Uncertain} || (item.status.Unnecessary? && Blank(item.reason))
  }

  predicate AtKept(items: seq<AssumptionDecision>, kept: bool, at: seq<nat>)
  {
    && Positions(at, |items|)
    && forall i: nat :: i < |items| && !items[i].status.OtherAssumptionStatus? ==>
         (i in at <==> IsKept(items[i]) == kept)
  }

  function Pairs(items: seq<AssumptionDecision>, originals: seq<Assumed>): (r: seq<(AssumptionDecision, Assumed)>)
    requires |items| == |originals|
    ensures |r| == |items| && forall i :: 0 <= i < |items| ==> r[i] == (items[i], originals[i])
  {
    if items == [] then [] else [(items[0], originals[0])] + Pairs(items[1..], originals[1..])
  }

  function KeepsFirst(): ((AssumptionDecision, Assumed)) -> bool
  {
    (pair: (AssumptionDecision, Assumed)) => Retains(Adjusted(pair.0))
  }

  function Second(): ((AssumptionDecision, Assumed)) -> Assumed { (pair: (AssumptionDecision, Assumed)) => pair.1 }

  lemma {:induction false} RetainedIsPicked(items: seq<AssumptionDecision>, originals: seq<Assumed>)
    requires |items| == |originals|
    ensures Retained(AdjustedAll(items), originals) == Picked(KeepsFirst(), Second(), Pairs(items, originals))
  {
    if items != [] {
      RetainedIsPicked(items[1..], originals[1..]);
      assert Pairs(items, originals)[1..] == Pairs(items[1..], originals[1..]);
      assert AdjustedAll(items)[1..] == AdjustedAll(items[1..]);
    }
  }

  lemma KeptExactly(item: AssumptionDecision)
    requires !item.status.OtherAssumptionStatus?
    ensures Retains(Adjusted(item)) <==> IsKept(item)
  {
  }

  lemma RetainedExactly(items: seq<AssumptionDecision>, originals: seq<Assumed>) returns (at: seq<nat>)
    requires |items| == |originals|
    ensures AtKept(items, true, at) && |Retained(AdjustedAll(items), originals)| == |at|
    ensures forall j :: 0 <= j < |at| ==> Retained(AdjustedAll(items), originals)[j] == originals[at[j]]
  {
    RetainedIsPicked(items, originals);
    at := PickedPositions(KeepsFirst(), Second(), Pairs(items, originals));
    forall i: nat | i < |items| && !items[i].status.OtherAssumptionStatus? ensures i in at <==> IsKept(items[i]) {
      KeptExactly(items[i]);
      assert Pairs(items, originals)[i] == (items[i], originals[i]);
    }
  }

  /** The decision as it was given, but for its status when it was dismissed without a reason. */
  predicate IsDecision(r: AssumptionDecision, item: AssumptionDecision)
  {
    && r.id == item.id && r.evidence == item.evidence && r.reason == item.reason
    && r.status == if IsKept(item) && item.status.Unnecessary? then Uncertain else item.status
  }

  function Drops(): AssumptionDecision -> bool { item => !Retains(Adjusted(item)) }

  lemma {:induction false} RemovedIsPicked(items: seq<AssumptionDecision>)
    ensures Removed(AdjustedAll(items)) == Picked(Drops(), Adjusted, items)
  {
    if items != [] {
      RemovedIsPicked(items[1..]);
      assert AdjustedAll(items)[1..] == AdjustedAll(items[1..]);
    }
  }

  lemma AdjustedIsDecision(item: AssumptionDecision)
    ensures IsDecision(Adjusted(item), item)
  {
  }

  lemma RemovedExactly(items: seq<AssumptionDecision>) returns (at: seq<nat>)
    ensures AtKept(items, false, at) && |Removed(AdjustedAll(items))| == |at|
    ensures forall j :: 0 <= j < |at| ==> IsDecision(Removed(AdjustedAll(items))[j], items[at[j]])
  {
    RemovedIsPicked(items);
    at := PickedPositions(Drops(), Adjusted, items);
    forall i: nat | i < |items| && !items[i].status.OtherAssumptionStatus? ensures i in at <==> !IsKept(items[i]) {
      KeptExactly(items[i]);
    }
    forall j | 0 <= j < |at| ensures IsDecision(Removed(AdjustedAll(items))[j], items[at[j]]) {
      AdjustedIsDecision(items[at[j]]);
    }
  }

  /** Where each part of an updated analysis comes from. */
  datatype Sources = Sources(resolved: seq<nat>, open_: seq<nat>, kept: seq<nat>, removed: seq<nat>)

  /**
   * The questions left open are those of the decisions that leave them open; the resolutions are added behind the
   * earlier ones; the assumptions kept are the original ones; and the decisions about the others are recorded. All in
   * the order in which they were given.
   */
  predicate IsUpdateOf(updated: Updated, raw: RawAudit, analysis: Analysis, from: Sources)
  {
    && |raw.assumptions| == |Objects(analysis.assumptions)|
    && QuestionsUpdated(updated, raw.questions, analysis.resolved, from.resolved, from.open_)
    && AssumptionsUpdated(updated, raw.assumptions, Objects(analysis.assumptions), from.kept, from.removed)
  }

  predicate QuestionsUpdated(updated: Updated, items: seq<QuestionDecision>, before: seq<Resolution>,
                             resolved: seq<nat>, open_: seq<nat>)
  {
    && AtResolved(items, true, resolved) && AtResolved(items, false, open_)
    && |updated.resolved| == |before| + |resolved| && updated.resolved[..|before|] == before
    && (forall j :: 0 <= j < |resolved| ==> Records(updated.resolved[|before| + j], items[resolved[j]]))
    && |updated.questions| == |open_|
    && (forall j :: 0 <= j < |open_| ==> updated.questions[j] == items[open_[j]].question)
  }

  predicate AssumptionsUpdated(updated: Updated, decisions: seq<AssumptionDecision>, originals: seq<Assumed>,
                               kept: seq<nat>, removed: seq<nat>)
    requires |decisions| == |originals|
  {
    && AtKept(decisions, true, kept) && AtKept(decisions, false, removed)
    && |updated.assumptions| == |kept|
    && (forall j :: 0 <= j < |kept| ==> updated.assumptions[j] == originals[kept[j]])
    && |updated.removed| == |removed|
    && (forall j :: 0 <= j < |removed| ==> IsDecision(updated.removed[j], decisions[removed[j]]))
  }

  lemma QuestionsAreUpdated(raw: RawAudit, analysis: Analysis) returns (resolved: seq<nat>, open_: seq<nat>)
    requires |raw.assumptions| == |Objects(analysis.assumptions)|
    ensures QuestionsUpdated(UpdatedBy(raw, analysis), raw.questions, analysis.resolved, resolved, open_)
  {
    resolved := ResolvedExactly(raw.questions);
    open_ := UnresolvedExactly(raw.questions);
    var before, more := analysis.resolved, Resolved(raw.questions);
    var all := UpdatedBy(raw, analysis).resolved;
    assert all == before + more;
    forall j | 0 <= j < |resolved| ensures Records(all[|before| + j], raw.questions[resolved[j]]) {
      assert all[|before| + j] == more[j];
    }
  }

  lemma AssumptionsAreUpdated(raw: RawAudit, analysis: Analysis) returns (kept: seq<nat>, removed: seq<nat>)
    requires |raw.assumptions| == |Objects(analysis.assumptions)|
    ensures AssumptionsUpdated(UpdatedBy(raw, analysis), raw.assumptions, Objects(analysis.assumptions), kept, removed)
  {
    kept := RetainedExactly(raw.assumptions, Objects(analysis.assumptions));
    removed := RemovedExactly(raw.assumptions);
  }

  /** What an accepted audit makes of every single decision. */
  lemma AcceptedExactly(raw: RawAudit, analysis: Analysis) returns (from: Sources)
    requires |raw.assumptions| == |Objects(analysis.assumptions)|
    ensures IsUpdateOf(UpdatedBy(raw, analysis), raw, analysis, from)
  {
    var resolved, open_ := QuestionsAreUpdated(raw, analysis);
    var kept, removed := AssumptionsAreUpdated(raw, analysis);
    from := Sources(resolved, open_, kept, removed);
  }

  // ---------------------------------------------------------------- what the analysis and the sources hold

  function NotBlank(): string -> bool { text => !Blank(text) }

  lemma {:induction false} QuestionsArePicked(raw: seq<string>)
    ensures Questions(raw) == Picked(NotBlank(), Trim, raw)
  {
    if raw != [] {
      QuestionsArePicked(raw[1..]);
    }
  }

  /** The questions that are looked at: those that are not blank, trimmed, in order. */
  lemma QuestionsExactly(raw: seq<string>) returns (at: seq<nat>)
    ensures Positions(at, |raw|) && |Questions(raw)| == |at|
    ensures forall i: nat :: i < |raw| ==> (i in at <==> !Blank(raw[i]))
    ensures forall j :: 0 <= j < |at| ==> Questions(raw)[j] == Trim(raw[at[j]])
  {
    QuestionsArePicked(raw);
    at := PickedPositions(NotBlank(), Trim, raw);
  }

  lemma BlankExactly(s: string)
    ensures Blank(s) <==> forall k :: 0 <= k < |s| ==> IsSpace(s[k])
  {
    var i := TrimStands(s);
    if !Blank(s) {
      assert s[i] == Trim(s)[0];
    }
  }

  function Always(): Source -> bool { (s: Source) => true }

  function IdOf(): Source -> string { (s: Source) => s.id }

  function LeavesOf(): Source -> seq<string> { (s: Source) => s.leaves }

  function Topic(): Source -> string { (s: Source) => Trim(s.question) }

  lemma {:induction false} TextsAreEntered(sources: seq<Source>)
    ensures SourceTexts(sources) == Entered(Always(), IdOf(), LeavesOf(), sources)
  {
    if sources != [] {
      TextsAreEntered(sources[..|sources| - 1]);
    }
  }

  lemma {:induction false} BoundariesAreEntered(sources: seq<Source>)
    ensures Boundaries(sources) == Entered(ClosesScope, IdOf(), Topic(), sources)
  {
    if sources != [] {
      BoundariesAreEntered(sources[..|sources| - 1]);
    }
  }

  /** A source id has the texts of the last source with that id. */
  lemma SourceTextsExactly(sources: seq<Source>, id: string)
    ensures id in SourceTexts(sources) <==> exists i :: 0 <= i < |sources| && sources[i].id == id
    ensures forall i :: 0 <= i < |sources| && sources[i].id == id && IsLastEntry(Always(), IdOf(), sources, i) ==>
              id in SourceTexts(sources) && SourceTexts(sources)[id] == sources[i].leaves
  {
    TextsAreEntered(sources);
    EnteredKeys(Always(), IdOf(), LeavesOf(), sources, id);
    forall i | 0 <= i < |sources| && sources[i].id == id && IsLastEntry(Always(), IdOf(), sources, i)
      ensures id in SourceTexts(sources) && SourceTexts(sources)[id] == sources[i].leaves
    {
      EnteredValue(Always(), IdOf(), LeavesOf(), sources, i);
    }
  }

  /** A boundary is the trimmed question of the last answer of the user with that id that closes its scope. */
  lemma BoundariesExactly(sources: seq<Source>, id: string)
    ensures id in Boundaries(sources) <==>
            exists i :: 0 <= i < |sources| && ClosesScope(sources[i]) && sources[i].id == id
    ensures forall i :: 0 <= i < |sources| && sources[i].id == id && IsLastEntry(ClosesScope, IdOf(), sources, i) ==>
              id in Boundaries(sources) && Boundaries(sources)[id] == Trim(sources[i].question)
  {
    BoundariesAreEntered(sources);
    EnteredKeys(ClosesScope, IdOf(), Topic(), sources, id);
    forall i | 0 <= i < |sources| && sources[i].id == id && IsLastEntry(ClosesScope, IdOf(), sources, i)
      ensures id in Boundaries(sources) && Boundaries(sources)[id] == Trim(sources[i].question)
    {
      EnteredValue(ClosesScope, IdOf(), Topic(), sources, i);
    }
  }

  /** Evidence is a list, empty or not, of passages that stand in the sources they name. */
  lemma EvidenceExactly(texts: map<string, seq<string>>, evidence: Option<seq<Evidence>>)
    ensures ValidEvidence(texts, evidence) <==>
            evidence.Some? && forall e :: e in evidence.value ==> ReviewMeaning.Verbatim(texts, e)
  {
    forall e ensures Cited(texts, e) <==> ReviewMeaning.Verbatim(texts, e) {
      ReviewMeaning.VerbatimExactly(Context(texts, {}, {}, []), e);
    }
  }

  // ---------------------------------------------------------------- what a rejection means

  /** What the checks look at in the decision on a question. */
  datatype Look = Look(matches: bool, named: bool, bounded: bool, answered: bool, reasoned: bool, quoted: bool,
                       valid: bool)

  function LookAt(texts: map<string, seq<string>>, boundaries: map<string, string>, item: QuestionDecision,
                  original: string): Look
  {
    var boundary := Trim(item.boundaryId);
    Look(Trim(Shown(item.question)) == original,
         boundary != "",
         boundary in boundaries && boundaries[boundary] == original,
         Trim(Shown(item.answer)) != "",
         Trim(item.reason) != "",
         item.evidence.Some? && |item.evidence.value| > 0,
         ValidEvidence(texts, item.evidence))
  }

  /** The fault that a code names, whatever else is wrong with the decision. */
  predicate QuestionHas(look: Look, status: QuestionStatus, code: Code)
  {
    match code
    case QuestionMismatch => !look.matches
    case QuestionStatusInvalid => status.OtherQuestionStatus?
    case BoundaryInvalid => status.OutOfScope? && !(look.named && look.bounded)
    case BoundaryAssertionInvalid => status.OutOfScope? && (look.answered || look.quoted)
    case BoundaryReasonMissing => status.OutOfScope? && !look.reasoned
    case QuestionEvidenceInvalid => !status.OutOfScope? && !look.valid
    case BoundaryUnexpected => !status.OutOfScope? && look.named
    case AnswerEvidenceMissing => status.Answered? && !(look.answered && look.quoted)
    case UnresolvedAnswerPresent => status in {Unanswered, Conflicted} && look.answered
    case _ => false
  }

  predicate AssumptionHas(texts: map<string, seq<string>>, item: AssumptionDecision, original: Assumed, code: Code)
  {
    match code
    case AssumptionMismatch => Trim(item.id) != Trim(original.id)
    case AssumptionStatusInvalid => item.status.OtherAssumptionStatus?
    case AssumptionEvidenceInvalid => !ValidEvidence(texts, item.evidence)
    case ExplicitEvidenceMissing => item.status.IsExplicit? && !Quotes(item.evidence)
    case _ => false
  }

  /** The order of the checks. */
  function Rank(code: Code): nat
  {
    match code
    case ResponseShapeInvalid => 0
    case QuestionCountMismatch => 1
    case AssumptionCountMismatch => 2
    case QuestionMismatch => 3
    case QuestionStatusInvalid => 4
    case BoundaryInvalid => 5
    case BoundaryAssertionInvalid => 6
    case BoundaryReasonMissing => 7
    case QuestionEvidenceInvalid => 8
    case BoundaryUnexpected => 9
    case AnswerEvidenceMissing => 10
    case UnresolvedAnswerPresent => 11
    case AssumptionMismatch => 12
    case AssumptionStatusInvalid => 13
    case AssumptionEvidenceInvalid => 14
    case ExplicitEvidenceMissing => 15
  }

  /** The first code in that order whose fault the decision has. */
  predicate IsFirstFault(look: Look, status: QuestionStatus, code: Code)
  {
    && QuestionHas(look, status, code)
    && forall c: Code :: Rank(c) < Rank(code) ==> !QuestionHas(look, status, c)
  }

  lemma FirstFaultIsUnique(look: Look, status: QuestionStatus, a: Code, b: Code)
    requires IsFirstFault(look, status, a) && IsFirstFault(look, status, b)
    ensures a == b
  {
    RankIsUnique(a, b);
  }

  lemma RankIsUnique(a: Code, b: Code)
    requires Rank(a) == Rank(b)
    ensures a == b
  {
  }

  function FirstFaultOf(look: Look, status: QuestionStatus): Option<Code>
  {
    if !look.matches then Some(QuestionMismatch)
    else match status
      case OtherQuestionStatus => Some(QuestionStatusInvalid)
      case OutOfScope =>
        if !look.named || !look.bounded then Some(BoundaryInvalid)
        else if look.answered || look.quoted then Some(BoundaryAssertionInvalid)
        else if !look.reasoned then Some(BoundaryReasonMissing)
        else None
      case _ =>
        if !look.valid then Some(QuestionEvidenceInvalid)
        else if look.named then Some(BoundaryUnexpected)
        else if status.Answered? && (!look.answered || !look.quoted) then Some(AnswerEvidenceMissing)
        else if !status.Answered? && look.answered then Some(UnresolvedAnswerPresent)
        else None
  }

  lemma FirstFaultIsFirst(look: Look, status: QuestionStatus)
    ensures var fault := FirstFaultOf(look, status);
            if fault.Some? then IsFirstFault(look, status, fault.value)
            else forall c: Code :: !QuestionHas(look, status, c)
  {
  }

  lemma QuestionFaultByLook(texts: map<string, seq<string>>, boundaries: map<string, string>, item: QuestionDecision,
                            original: string)
    ensures QuestionFault(texts, boundaries, item, original) ==
            FirstFaultOf(LookAt(texts, boundaries, item, original), item.status)
  {
  }

  /** The code of a question is the first in that order whose fault the decision has. */
  lemma QuestionCodeExactly(texts: map<string, seq<string>>, boundaries: map<string, string>, item: QuestionDecision,
                            original: string, code: Code)
    ensures QuestionFault(texts, boundaries, item, original) == Some(code) <==>
            IsFirstFault(LookAt(texts, boundaries, item, original), item.status, code)
  {
    var fault := QuestionFault(texts, boundaries, item, original);
    var look := LookAt(texts, boundaries, item, original);
    QuestionFaultByLook(texts, boundaries, item, original);
    FirstFaultIsFirst(look, item.status);
    if fault.Some? && IsFirstFault(look, item.status, code) {
      FirstFaultIsUnique(look, item.status, fault.value, code);
    }
  }

  lemma AssumptionCodeExactly(texts: map<string, seq<string>>, item: AssumptionDecision, original: Assumed, code: Code)
    ensures AssumptionFault(texts, item, original) == Some(code) <==>
            && AssumptionHas(texts, item, original, code)
            && forall c: Code :: Rank(c) < Rank(code) ==> !AssumptionHas(texts, item, original, c)
  {
    var fault := AssumptionFault(texts, item, original);
    if fault.Some? {
      assert AssumptionHas(texts, item, original, fault.value);
    }
  }
}
