/** The contract of one authored test case (engine/src/case-proposal-contract.ts). */
module CaseContract {
  import opened Wrappers
  import opened Texts

  /** A field the model may have filled with anything: a text, or a value shown as `String(value || '')`. */
  datatype Loose = Text(text: string) | Other(shown: string)

  function Shown(field: Loose): string { if field.Text? then field.text else field.shown }

  /** A step; `number` is `None` unless `Number(step.number)` is an integer. */
  datatype CaseStep = CaseStep(number: Option<int>, action: string, expected: string)

  /**
   * One element of `propuestas`. `steps` and `refs` are `None` when they are not arrays; texts are
   * the values after `String(value || '')`, and `testType` after `String(value || 'MANUAL')`.
   */
  datatype Proposal =
    | NotAnObject
    | Proposal(localId: Loose, title: string, steps: Option<seq<CaseStep>>, refs: Option<seq<string>>,
               category: string, testType: string)

  datatype Issue =
    | ObjectRequired
    | LocalIdRequired
    | TitleRequired
    | StepsRequired
    | StepSequenceInvalid(step: nat)
    | StepActionRequired(step: nat)
    | StepExpectedRequired(step: nat)
    | CriterionRefsRequired
    | CriterionRefUnknown
    | CategoryInvalid
    | TestTypeNotManual

  const CATEGORIES: set<string> :=
    {"POSITIVE", "NEGATIVE", "BOUNDARY", "STATE_TRANSITION", "RBAC", "SECURITY", "ACCESSIBILITY", "INTEGRATION",
     "PERFORMANCE"}

  /** `normalizeCaseProposalCategory`, as far as the contract sees it. */
  function Normalized(item: Proposal): Proposal
  {
    if item.NotAnObject? then item else item.(category := UpperText(Trim(item.category)))
  }

  /** What each code means: the exact condition under which it explains a failure. */
  predicate Breaks(item: Proposal, allowed: set<string>, issue: Issue)
  {
    if item.NotAnObject? then issue == ObjectRequired
    else match issue
      case ObjectRequired => false
      case LocalIdRequired => item.localId.Other? || Trim(item.localId.text) == "" || |item.localId.text| > 80
      case TitleRequired => Trim(item.title) == ""
      case StepsRequired => item.steps.None? || item.steps.value == []
      case StepSequenceInvalid(k) =>
        item.steps.Some? && 1 <= k <= |item.steps.value| && item.steps.value[k - 1].number != Some(k)
      case StepActionRequired(k) =>
        item.steps.Some? && 1 <= k <= |item.steps.value| && Trim(item.steps.value[k - 1].action) == ""
      case StepExpectedRequired(k) =>
        item.steps.Some? && 1 <= k <= |item.steps.value| && Trim(item.steps.value[k - 1].expected) == ""
      case CriterionRefsRequired => item.refs.None? || item.refs.value == []
      case CriterionRefUnknown =>
        item.refs.Some? && exists i :: 0 <= i < |item.refs.value| && item.refs.value[i] !in allowed
      case CategoryInvalid => UpperText(item.category) !in CATEGORIES
      case TestTypeNotManual => UpperText(item.testType) != "MANUAL"
  }

  /** A case that can be persisted: identified, titled, numbered from one, grounded and manual. */
  predicate MeetsContract(item: Proposal, allowed: set<string>)
  {
    && item.Proposal?
    && item.localId.Text? && Trim(item.localId.text) != "" && |item.localId.text| <= 80
    && Trim(item.title) != ""
    && item.steps.Some? && item.steps.value != []
    && (forall k :: 0 <= k < |item.steps.value| ==>
          && item.steps.value[k].number == Some(k + 1)
          && Trim(item.steps.value[k].action) != ""
          && Trim(item.steps.value[k].expected) != "")
    && item.refs.Some? && item.refs.value != []
    && (forall i :: 0 <= i < |item.refs.value| ==> item.refs.value[i] in allowed)
    && UpperText(item.category) in CATEGORIES
    && UpperText(item.testType) == "MANUAL"
  }

  predicate StepBreaks(item: Proposal, allowed: set<string>, issue: Issue, n: nat)
  {
    (issue.StepSequenceInvalid? || issue.StepActionRequired? || issue.StepExpectedRequired?)
    && issue.step <= n && Breaks(item, allowed, issue)
  }

  predicate NoRepeat(issues: seq<Issue>) { forall i, j :: 0 <= i < j < |issues| ==> issues[i] != issues[j] }

  lemma NoRepeatConcat(a: seq<Issue>, b: seq<Issue>)
    requires NoRepeat(a) && NoRepeat(b) && forall issue :: issue in a ==> issue !in b
    ensures NoRepeat(a + b)
  {
    var all := a + b;
    forall i, j | 0 <= i < j < |all| ensures all[i] != all[j] {
      if i < |a| <= j {
        assert all[i] in a && all[j] in b;
      }
    }
  }

  /** The codes about step `k`, in the order of the code. */
  function IssuesOf(step: CaseStep, k: nat): (issues: seq<Issue>)
    ensures NoRepeat(issues)
  {
    (if step.number != Some(k) then [StepSequenceInvalid(k)] else [])
    + (if Trim(step.action) == "" then [StepActionRequired(k)] else [])
    + (if Trim(step.expected) == "" then [StepExpectedRequired(k)] else [])
  }

  method StepIssues(item: Proposal, allowed: set<string>) returns (issues: seq<Issue>)
    requires item.Proposal? && item.steps.Some?
    ensures forall issue :: issue in issues <==> StepBreaks(item, allowed, issue, |item.steps.value|)
    ensures NoRepeat(issues)
  {
    var steps := item.steps.value;
    issues := [];
    for index := 0 to |steps|
      invariant forall issue :: issue in issues <==> StepBreaks(item, allowed, issue, index)
      invariant NoRepeat(issues)
    {
      var more := IssuesOf(steps[index], index + 1);
      NoRepeatConcat(issues, more);
      forall issue ensures issue in issues + more <==> StepBreaks(item, allowed, issue, index + 1) {
        assert issue in issues + more <==> issue in issues || issue in more;
      }
      issues := issues + more;
    }
  }

  /** The codes about the identity and the title. */
  predicate IsHeader(issue: Issue) { issue.LocalIdRequired? || issue.TitleRequired? }

  predicate IsAboutSteps(issue: Issue)
  {
    issue.StepsRequired? || issue.StepSequenceInvalid? || issue.StepActionRequired? || issue.StepExpectedRequired?
  }

  predicate IsTrailer(issue: Issue)
  {
    issue.CriterionRefsRequired? || issue.CriterionRefUnknown? || issue.CategoryInvalid? || issue.TestTypeNotManual?
  }

  method HeaderIssues(item: Proposal, allowed: set<string>) returns (issues: seq<Issue>)
    requires item.Proposal?
    ensures forall issue :: issue in issues <==> IsHeader(issue) && Breaks(item, allowed, issue)
    ensures NoRepeat(issues)
  {
    issues := [];
    if item.localId.Other? || Trim(item.localId.text) == "" || |item.localId.text| > 80 {
      issues := issues + [LocalIdRequired];
    }
    if Trim(item.title) == "" { issues := issues + [TitleRequired]; }
  }

  method TrailerIssues(item: Proposal, allowed: set<string>) returns (issues: seq<Issue>)
    requires item.Proposal?
    ensures forall issue :: issue in issues <==> IsTrailer(issue) && Breaks(item, allowed, issue)
    ensures NoRepeat(issues)
  {
    issues := [];
    if item.refs.None? || item.refs.value == [] {
      issues := issues + [CriterionRefsRequired];
    } else if exists i :: 0 <= i < |item.refs.value| && item.refs.value[i] !in allowed {
      issues := issues + [CriterionRefUnknown];
    }
    if UpperText(item.category) !in CATEGORIES { issues := issues + [CategoryInvalid]; }
    if UpperText(item.testType) != "MANUAL" { issues := issues + [TestTypeNotManual]; }
  }

  /** `caseProposalContractIssues`: exactly the codes whose condition holds, each once. */
  method CaseProposalContractIssues(item: Proposal, allowed: set<string>) returns (issues: seq<Issue>)
    ensures forall issue :: issue in issues <==> Breaks(item, allowed, issue)
    ensures NoRepeat(issues)
    ensures issues == [] <==> MeetsContract(item, allowed)
  {
    if item.NotAnObject? {
      return [ObjectRequired];
    }
    var header := HeaderIssues(item, allowed);
    var steps;
    if item.steps.None? || item.steps.value == [] {
      steps := [StepsRequired];
    } else {
      steps := StepIssues(item, allowed);
    }
    assert forall issue :: issue in steps <==> IsAboutSteps(issue) && Breaks(item, allowed, issue);
    var trailer := TrailerIssues(item, allowed);
    issues := header + steps + trailer;
    SectionsJoin(item, allowed, header, steps, trailer);
    ContractExactly(item, allowed, issues);
  }

  lemma SectionsJoin(item: Proposal, allowed: set<string>, header: seq<Issue>, steps: seq<Issue>, trailer: seq<Issue>)
    requires item.Proposal? && NoRepeat(header) && NoRepeat(steps) && NoRepeat(trailer)
    requires forall issue :: issue in header <==> IsHeader(issue) && Breaks(item, allowed, issue)
    requires forall issue :: issue in steps <==> IsAboutSteps(issue) && Breaks(item, allowed, issue)
    requires forall issue :: issue in trailer <==> IsTrailer(issue) && Breaks(item, allowed, issue)
    ensures forall issue :: issue in header + steps + trailer <==> Breaks(item, allowed, issue)
    ensures NoRepeat(header + steps + trailer)
  {
    NoRepeatConcat(header, steps);
    NoRepeatConcat(header + steps, trailer);
    forall issue ensures issue in header + steps + trailer <==> Breaks(item, allowed, issue) {
      assert issue.ObjectRequired? || IsHeader(issue) || IsAboutSteps(issue) || IsTrailer(issue);
    }
  }

  lemma ContractExactly(item: Proposal, allowed: set<string>, issues: seq<Issue>)
    requires forall issue :: issue in issues <==> Breaks(item, allowed, issue)
    ensures issues == [] <==> MeetsContract(item, allowed)
  {
    NoIssueIsContract(item, allowed);
    if issues == [] {
      forall issue ensures !Breaks(item, allowed, issue) {
        assert issue !in issues;
      }
    } else {
      assert issues[0] in issues;
    }
  }

  lemma NoIssueIsContract(item: Proposal, allowed: set<string>)
    ensures (forall issue :: !Breaks(item, allowed, issue)) <==> MeetsContract(item, allowed)
  {
    if forall issue :: !Breaks(item, allowed, issue) {
      assert !Breaks(item, allowed, ObjectRequired) && !Breaks(item, allowed, LocalIdRequired);
      assert !Breaks(item, allowed, TitleRequired) && !Breaks(item, allowed, StepsRequired);
      assert !Breaks(item, allowed, CriterionRefsRequired) && !Breaks(item, allowed, CriterionRefUnknown);
      assert !Breaks(item, allowed, CategoryInvalid) && !Breaks(item, allowed, TestTypeNotManual);
      forall k | 0 <= k < |item.steps.value|
        ensures item.steps.value[k].number == Some(k + 1)
        ensures Trim(item.steps.value[k].action) != "" && Trim(item.steps.value[k].expected) != ""
      {
        assert !Breaks(item, allowed, StepSequenceInvalid(k + 1));
        assert !Breaks(item, allowed, StepActionRequired(k + 1));
        assert !Breaks(item, allowed, StepExpectedRequired(k + 1));
      }
    }
  }
}
