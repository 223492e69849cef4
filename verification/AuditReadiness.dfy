/** What an accepted audit guarantees: nothing is lost, and READY means every point was closed on evidence. */
module AuditReadiness {
  import opened Wrappers
  import opened Texts
  import opened CaseContract
  import opened SemanticReview
  import opened AnalysisAudit

  // ---------------------------------------------------------------- order-preserving partitions

  /** `whole` is split into `a` and `b`, each in the order of `whole`. */
  ghost predicate Interleaves<T>(whole: seq<T>, a: seq<T>, b: seq<T>)
  {
    if whole == [] then a == [] && b == []
    else
      || (a != [] && a[0] == whole[0] && Interleaves(whole[1..], a[1..], b))
      || (b != [] && b[0] == whole[0] && Interleaves(whole[1..], a, b[1..]))
  }

  lemma {:induction false} InterleavingConserves<T>(whole: seq<T>, a: seq<T>, b: seq<T>)
    requires Interleaves(whole, a, b)
    ensures multiset(whole) == multiset(a) + multiset(b)
  {
    if whole != [] {
      assert whole == [whole[0]] + whole[1..];
      if a != [] && a[0] == whole[0] && Interleaves(whole[1..], a[1..], b) {
        InterleavingConserves(whole[1..], a[1..], b);
        assert a == [a[0]] + a[1..];
      } else {
        InterleavingConserves(whole[1..], a, b[1..]);
        assert b == [b[0]] + b[1..];
      }
    }
  }

  function AskedIn(resolved: seq<Resolution>): (r: seq<string>)
    ensures |r| == |resolved|
  {
    if resolved == [] then [] else [Trim(Shown(resolved[0].question))] + AskedIn(resolved[1..])
  }

  function Asked(questions: seq<Loose>): (r: seq<string>)
    ensures |r| == |questions|
  {
    if questions == [] then [] else [Trim(Shown(questions[0]))] + Asked(questions[1..])
  }

  function Named(assumptions: seq<Assumed>): (r: seq<string>)
    ensures |r| == |assumptions|
  {
    if assumptions == [] then [] else [Trim(assumptions[0].id)] + Named(assumptions[1..])
  }

  function NamedIn(removed: seq<AssumptionDecision>): (r: seq<string>)
    ensures |r| == |removed|
  {
    if removed == [] then [] else [Trim(removed[0].id)] + NamedIn(removed[1..])
  }

  lemma InterleaveLeft<T>(x: T, whole: seq<T>, a: seq<T>, b: seq<T>)
    requires Interleaves(whole, a, b)
    ensures Interleaves([x] + whole, [x] + a, b)
  {
    assert ([x] + whole)[1..] == whole && ([x] + a)[1..] == a;
  }

  lemma InterleaveRight<T>(x: T, whole: seq<T>, a: seq<T>, b: seq<T>)
    requires Interleaves(whole, a, b)
    ensures Interleaves([x] + whole, a, [x] + b)
  {
    assert ([x] + whole)[1..] == whole && ([x] + b)[1..] == b;
  }

  lemma {:induction false} QuestionsSplit(items: seq<QuestionDecision>, qs: seq<string>)
    requires |items| == |qs| && forall i :: 0 <= i < |qs| ==> Trim(Shown(items[i].question)) == qs[i]
    ensures Interleaves(qs, AskedIn(Resolved(items)), Asked(Unresolved(items)))
  {
    if items != [] {
      var resolved, unresolved := Resolved(items[1..]), Unresolved(items[1..]);
      QuestionsSplit(items[1..], qs[1..]);
      assert qs == [qs[0]] + qs[1..];
      if Resolves(items[0]) {
        InterleaveLeft(qs[0], qs[1..], AskedIn(resolved), Asked(unresolved));
        ResolvedFirst(items);
      } else {
        InterleaveRight(qs[0], qs[1..], AskedIn(resolved), Asked(unresolved));
        UnresolvedFirst(items);
      }
    }
  }

  lemma ResolvedFirst(items: seq<QuestionDecision>)
    requires items != [] && Resolves(items[0])
    ensures AskedIn(Resolved(items)) == [Trim(Shown(items[0].question))] + AskedIn(Resolved(items[1..]))
    ensures Unresolved(items) == Unresolved(items[1..])
  {
    assert Resolved(items)[1..] == Resolved(items[1..]);
  }

  lemma UnresolvedFirst(items: seq<QuestionDecision>)
    requires items != [] && !Resolves(items[0])
    ensures Asked(Unresolved(items)) == [Trim(Shown(items[0].question))] + Asked(Unresolved(items[1..]))
    ensures Resolved(items) == Resolved(items[1..])
  {
    assert Unresolved(items)[1..] == Unresolved(items[1..]);
  }

  lemma {:induction false} AssumptionsSplit(items: seq<AssumptionDecision>, originals: seq<Assumed>)
    requires |items| == |originals| && forall i :: 0 <= i < |originals| ==> Trim(items[i].id) == Trim(originals[i].id)
    ensures Interleaves(Named(originals), Named(Retained(items, originals)), NamedIn(Removed(items)))
  {
    if items != [] {
      var kept, removed, rest := Retained(items[1..], originals[1..]), Removed(items[1..]), Named(originals[1..]);
      AssumptionsSplit(items[1..], originals[1..]);
      if Retains(items[0]) {
        InterleaveLeft(Trim(originals[0].id), rest, Named(kept), NamedIn(removed));
        assert Retained(items, originals)[1..] == kept && Removed(items) == removed;
      } else {
        InterleaveRight(Trim(originals[0].id), rest, Named(kept), NamedIn(removed));
        assert Removed(items)[1..] == removed && Retained(items, originals) == kept;
      }
    }
  }

  /** An acceptable audit splits questions and assumptions in order and without loss. */
  lemma AcceptedAuditPartitions(raw: Option<RawAudit>, analysis: Analysis, sources: seq<Source>)
    requires Clean(raw, analysis, sources)
    ensures Interleaves(Questions(analysis.questions), AskedIn(Resolved(raw.value.questions)),
                        Asked(UpdatedBy(raw.value, analysis).questions))
    ensures Interleaves(Named(Objects(analysis.assumptions)), Named(UpdatedBy(raw.value, analysis).assumptions),
                        NamedIn(UpdatedBy(raw.value, analysis).removed))
    ensures UpdatedBy(raw.value, analysis).resolved == analysis.resolved + Resolved(raw.value.questions)
  {
    QuestionsSplit(raw.value.questions, Questions(analysis.questions));
    AssumptionsSplit(AdjustedAll(raw.value.assumptions), Objects(analysis.assumptions));
  }

  // ---------------------------------------------------------------- evidence in the sources

  /** The quote occurs literally in a source with the cited id. */
  predicate LiterallyIn(sources: seq<Source>, e: Evidence)
  {
    |Trim(e.quote)| >= 3 && exists k :: 0 <= k < |sources| && QuotedIn(sources[k], e)
  }

  predicate QuotedIn(s: Source, e: Evidence)
  {
    s.id == e.sourceId && exists j :: 0 <= j < |s.leaves| && Includes(s.leaves[j], Trim(e.quote))
  }

  lemma {:induction false} TextsComeFromSources(sources: seq<Source>, e: Evidence)
    requires Cited(SourceTexts(sources), e)
    ensures LiterallyIn(sources, e)
  {
    var n := |sources| - 1;
    if sources[n].id == e.sourceId {
      assert QuotedIn(sources[n], e);
    } else {
      TextsComeFromSources(sources[..n], e);
      var k :| 0 <= k < n && QuotedIn(sources[..n][k], e);
      assert QuotedIn(sources[k], e);
    }
  }

  lemma {:induction false} BoundariesComeFromUsers(sources: seq<Source>, id: string) returns (k: nat)
    requires id in Boundaries(sources)
    ensures k < |sources| && ClosesScope(sources[k]) && sources[k].id == id
            && Trim(sources[k].question) == Boundaries(sources)[id]
  {
    var n := |sources| - 1;
    if ClosesScope(sources[n]) && sources[n].id == id {
      k := n;
    } else {
      k := BoundariesComeFromUsers(sources[..n], id);
    }
  }

  predicate LiteralEvidence(sources: seq<Source>, evidence: Option<seq<Evidence>>)
  {
    Quotes(evidence) && forall i :: 0 <= i < |evidence.value| ==> LiterallyIn(sources, evidence.value[i])
  }

  lemma EvidenceIsLiteral(sources: seq<Source>, evidence: Option<seq<Evidence>>)
    requires ValidEvidence(SourceTexts(sources), evidence) && Quotes(evidence)
    ensures LiteralEvidence(sources, evidence)
  {
    forall i | 0 <= i < |evidence.value| ensures LiterallyIn(sources, evidence.value[i]) {
      TextsComeFromSources(sources, evidence.value[i]);
    }
  }

  // ---------------------------------------------------------------- readiness

  /** Answered with a literal quote, or closed by the user's own scope decision on the same question. */
  predicate QuestionClosed(sources: seq<Source>, item: QuestionDecision, original: string)
  {
    || (item.status.Answered? && !Blank(Shown(item.answer)) && LiteralEvidence(sources, item.evidence))
    || (item.status.OutOfScope? && exists k :: 0 <= k < |sources| && ScopeClosedBy(sources[k], item, original))
  }

  predicate ScopeClosedBy(s: Source, item: QuestionDecision, original: string)
  {
    ClosesScope(s) && s.id == Trim(item.boundaryId) && Trim(s.question) == original
  }

  /** Quoted as explicit, or dismissed with a reason. */
  predicate AssumptionClosed(sources: seq<Source>, item: AssumptionDecision)
  {
    || (item.status.IsExplicit? && LiteralEvidence(sources, item.evidence))
    || (item.status.Unnecessary? && !Blank(item.reason))
  }

  lemma {:induction false} NothingOpen(items: seq<QuestionDecision>)
    ensures Unresolved(items) == [] <==> forall i :: 0 <= i < |items| ==> Resolves(items[i])
  {
    if items != [] {
      NothingOpen(items[1..]);
      assert forall i :: 0 < i < |items| ==> items[i] == items[1..][i - 1];
    }
  }

  lemma {:induction false} NothingRetained(items: seq<AssumptionDecision>, originals: seq<Assumed>)
    requires |items| == |originals|
    ensures Retained(items, originals) == [] <==> forall i :: 0 <= i < |items| ==> !Retains(items[i])
  {
    if items != [] {
      NothingRetained(items[1..], originals[1..]);
      assert forall i :: 0 < i < |items| ==> items[i] == items[1..][i - 1];
    }
  }

  lemma ResolvesExactly(sources: seq<Source>, item: QuestionDecision, original: string)
    requires QuestionSettledOrOpen(SourceTexts(sources), Boundaries(sources), item, original)
    ensures Resolves(item) <==> QuestionClosed(sources, item, original)
  {
    if item.status.Answered? {
      EvidenceIsLiteral(sources, item.evidence);
    } else if item.status.OutOfScope? {
      var k := BoundariesComeFromUsers(sources, Trim(item.boundaryId));
      assert ScopeClosedBy(sources[k], item, original);
    }
  }

  lemma RemovesExactly(sources: seq<Source>, item: AssumptionDecision, original: Assumed)
    requires AssumptionWeighed(SourceTexts(sources), item, original)
    ensures !Retains(Adjusted(item)) <==> AssumptionClosed(sources, item)
  {
    if item.status.IsExplicit? {
      EvidenceIsLiteral(sources, item.evidence);
    }
  }

  /** READY exactly when every question and assumption was closed on evidence, a user decision or a stated reason. */
  lemma ReadyExactly(raw: Option<RawAudit>, analysis: Analysis, sources: seq<Source>)
    requires Clean(raw, analysis, sources)
    ensures UpdatedBy(raw.value, analysis).readiness.Ready? <==>
            && (forall i :: 0 <= i < |raw.value.questions| ==>
                  QuestionClosed(sources, raw.value.questions[i], Questions(analysis.questions)[i]))
            && (forall i :: 0 <= i < |raw.value.assumptions| ==> AssumptionClosed(sources, raw.value.assumptions[i]))
  {
    var items, weighed := raw.value.questions, AdjustedAll(raw.value.assumptions);
    var originals := Objects(analysis.assumptions);
    NothingOpen(items);
    NothingRetained(weighed, originals);
    forall i | 0 <= i < |items|
      ensures Resolves(items[i]) <==> QuestionClosed(sources, items[i], Questions(analysis.questions)[i])
    {
      ResolvesExactly(sources, items[i], Questions(analysis.questions)[i]);
    }
    forall i | 0 <= i < |weighed|
      ensures !Retains(weighed[i]) <==> AssumptionClosed(sources, raw.value.assumptions[i])
    {
      RemovesExactly(sources, raw.value.assumptions[i], originals[i]);
    }
  }

  lemma {:induction false} RetainedMembers(items: seq<AssumptionDecision>, originals: seq<Assumed>, a: Assumed)
    requires |items| == |originals|
    ensures a in Retained(items, originals) <==> exists i :: 0 <= i < |items| && Retains(items[i]) && originals[i] == a
  {
    if items != [] {
      RetainedMembers(items[1..], originals[1..], a);
      assert forall i :: 0 < i < |items| ==> items[i] == items[1..][i - 1] && originals[i] == originals[1..][i - 1];
      assert forall i :: 0 <= i < |items[1..]| ==>
        items[1..][i] == items[i + 1] && originals[1..][i] == originals[i + 1];
    }
  }

  /** BLOCKED exactly when a critical assumption was kept: necessary, uncertain, or dismissed without a reason. */
  lemma BlockedExactly(raw: Option<RawAudit>, analysis: Analysis, sources: seq<Source>)
    requires Clean(raw, analysis, sources)
    ensures UpdatedBy(raw.value, analysis).readiness.Blocked? <==>
            exists i :: 0 <= i < |raw.value.assumptions| && !AssumptionClosed(sources, raw.value.assumptions[i])
                        && UpperText(Objects(analysis.assumptions)[i].risk) == "CRITICAL"
  {
    var weighed, originals := AdjustedAll(raw.value.assumptions), Objects(analysis.assumptions);
    var kept := Retained(weighed, originals);
    forall i | 0 <= i < |weighed|
      ensures !Retains(weighed[i]) <==> AssumptionClosed(sources, raw.value.assumptions[i])
    {
      RemovesExactly(sources, raw.value.assumptions[i], originals[i]);
    }
    if Critical(kept) {
      var k :| 0 <= k < |kept| && UpperText(kept[k].risk) == "CRITICAL";
      RetainedMembers(weighed, originals, kept[k]);
    }
    forall i | 0 <= i < |weighed| && Retains(weighed[i]) && UpperText(originals[i].risk) == "CRITICAL"
      ensures Critical(kept)
    {
      RetainedMembers(weighed, originals, originals[i]);
    }
  }

  // ---------------------------------------------------------------- an answer that is left out

  lemma OneCharacter(c: char)
    requires !IsSpace(c)
    ensures Trim([c]) == [c] && !Blank([c])
  {
  }

  lemma OneBoundary(source: Source)
    requires ClosesScope(source)
    ensures Boundaries([source]) == map[source.id := Trim(source.question)]
  {
    assert [source][..0] == [];
  }

  lemma OneQuestion(q: string)
    requires Trim(q) == q && !Blank(q)
    ensures Questions([q]) == [q]
  {
    assert [q][1..] == [];
  }

  /** An OUT_OF_SCOPE decision that omits its empty answer passes every check, yet the call throws. */
  lemma OmittedAnswerThrows() returns (raw: Option<RawAudit>, analysis: Analysis, sources: seq<Source>)
    ensures Clean(raw, analysis, sources) && !Readable(raw.value.questions)
  {
    var item := QuestionDecision(Text("Q"), OutOfScope, Other(""), "B", None, "R");
    var source := Source("B", ["Q", "N"], true, "OUT_OF_SCOPE", "Q", "N");
    raw, analysis, sources := Some(RawAudit([item], [])), Analysis(["Q"], [], []), [source];
    OneCharacter('Q');
    OneCharacter('B');
    OneCharacter('R');
    OneCharacter('N');
    OneQuestion("Q");
    assert ClosesScope(source) by {
      assert UpperText("OUT_OF_SCOPE") == "OUT_OF_SCOPE";
    }
    OneBoundary(source);
    assert Trim("") == "";
    assert QuestionSettledOrOpen(SourceTexts(sources), Boundaries(sources), item, "Q");
    assert !AnswerReadable(raw.value.questions[0]);
  }
}
