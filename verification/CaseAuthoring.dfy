/**
 * Batched authoring of test cases (engine/src/case-authoring-batching.ts). The provider is an
 * arbitrary oracle: `answers(k)` is whatever it returns to the k-th call of a run.
 */
module CaseAuthoring {
  import opened Wrappers
  import opened Texts
  import opened TextLaws
  import opened TextSort
  import opened CaseContract

  const MAX_CASES_PER_AUTHORING_BATCH := 6
  const COMPLETION_TOKENS_PER_CASE_BUDGET := 1800

  /** A planned scenario; `refs` is `None` when `criterion_refs` is not an array. */
  datatype Scenario = Scenario(name: string, refs: Option<seq<string>>)

  /** One provider call: an exception, or a completion with its `propuestas` (empty when not an array). */
  datatype Answer = ProviderError | Reply(truncated: bool, items: seq<Proposal>)

  datatype Refusal = ScenariosRequired | ProviderFailed | OutputTruncated | ContractInvalid

  datatype Outcome = Authored(proposals: seq<Proposal>, scopes: seq<Scenario>) | Refused(refusal: Refusal)

  // ---------------------------------------------------------------- batches

  function Flatten<T>(batches: seq<seq<T>>): seq<T>
  {
    if batches == [] then [] else batches[0] + Flatten(batches[1..])
  }

  /** Visits that a list of batches can cost: a split tree over L scenarios has at most 2L - 1 nodes. */
  function Visits<T>(batches: seq<seq<T>>): int
  {
    if batches == [] then 0 else 2 * |batches[0]| - 1 + Visits(batches[1..])
  }

  predicate NoneEmpty<T(==)>(batches: seq<seq<T>>)
  {
    forall i :: 0 <= i < |batches| ==> batches[i] != []
  }

  lemma {:induction false} FlattenSnoc<T>(batches: seq<seq<T>>, b: seq<T>)
    ensures Flatten(batches + [b]) == Flatten(batches) + b
  {
    if batches == [] {
      assert batches + [b] == [b] && [b][1..] == [];
    } else {
      assert (batches + [b])[1..] == batches[1..] + [b];
      FlattenSnoc(batches[1..], b);
    }
  }

  lemma {:induction false} VisitsCount<T>(batches: seq<seq<T>>)
    ensures Visits(batches) == 2 * |Flatten(batches)| - |batches|
  {
    if batches != [] {
      VisitsCount(batches[1..]);
    }
  }

  lemma {:induction false} VisitsNonNegative<T>(batches: seq<seq<T>>)
    requires NoneEmpty(batches)
    ensures Visits(batches) >= |batches|
  {
    if batches != [] {
      VisitsNonNegative(batches[1..]);
    }
  }

  /** Completion tokens decide the batch size; `None` is a budget that is not a finite number. */
  function BatchSize(maxCompletionTokens: Option<real>): (size: nat)
    ensures 1 <= size <= MAX_CASES_PER_AUTHORING_BATCH
    ensures var budget := if maxCompletionTokens.None? then 4096.0 else maxCompletionTokens.value;
            && (size > 1 ==> (size * COMPLETION_TOKENS_PER_CASE_BUDGET) as real <= budget)
            && (size < MAX_CASES_PER_AUTHORING_BATCH ==>
                  budget < ((size + 1) * COMPLETION_TOKENS_PER_CASE_BUDGET) as real)
  {
    var budget := if maxCompletionTokens.None? then 4096
                  else if maxCompletionTokens.value.Floor < 1 then 1 else maxCompletionTokens.value.Floor;
    var fitting := budget / COMPLETION_TOKENS_PER_CASE_BUDGET;
    var capped := if fitting < MAX_CASES_PER_AUTHORING_BATCH then fitting else MAX_CASES_PER_AUTHORING_BATCH;
    if capped < 1 then 1 else capped
  }

  /** `count` is the least number of batches of the given size that hold `n` scenarios. */
  predicate IsBatchCount(count: nat, n: nat, size: nat)
  {
    n <= count * size && (count == 0 || (count - 1) * size < n)
  }

  /** The slices of a list, all of the given size but the last. */
  function Slices<T>(items: seq<T>, size: nat): seq<seq<T>>
    requires size > 0
    decreases |items|
  {
    if items == [] then [] else if |items| <= size then [items] else [items[..size]] + Slices(items[size..], size)
  }

  /** `caseAuthoringBatches`: consecutive slices, all of the batch size but the last. */
  method CaseAuthoringBatches<T(==)>(scenarios: seq<T>, maxCompletionTokens: Option<real>)
    returns (batches: seq<seq<T>>)
    ensures Flatten(batches) == scenarios && NoneEmpty(batches)
    ensures forall i :: 0 <= i < |batches| - 1 ==> |batches[i]| == BatchSize(maxCompletionTokens)
    ensures batches != [] ==> |batches[|batches| - 1]| <= BatchSize(maxCompletionTokens)
    ensures IsBatchCount(|batches|, |scenarios|, BatchSize(maxCompletionTokens))
    ensures batches == Slices(scenarios, BatchSize(maxCompletionTokens))
  {
    var size := BatchSize(maxCompletionTokens);
    batches := [];
    var index := 0;
    assert scenarios[0..] == scenarios;
    while index < |scenarios|
      invariant index == |batches| * size
                && IsBatchCount(|batches|, if index < |scenarios| then index else |scenarios|, size)
      invariant Sliced(scenarios, batches, size, if index < |scenarios| then index else |scenarios|)
    {
      var end := if index + size < |scenarios| then index + size else |scenarios|;
      SliceNext(scenarios, batches, size, index, end);
      CountNext(|batches|, size, |scenarios|);
      batches := batches + [scenarios[index..end]];
      index := index + size;
    }
    assert scenarios[..|scenarios|] == scenarios;
  }

  /** The batches are the first `end` scenarios in slices of `size`, only the last of them, at the end, shorter. */
  predicate Sliced<T(==)>(scenarios: seq<T>, batches: seq<seq<T>>, size: nat, end: nat)
    requires end <= |scenarios|
  {
    && Flatten(batches) == scenarios[..end] && NoneEmpty(batches)
    && (forall i :: 0 <= i < |batches| - 1 ==> |batches[i]| == size)
    && (batches != [] ==> |batches[|batches| - 1]| <= size && (end < |scenarios| ==> |batches[|batches| - 1]| == size))
    && size > 0 && Slices(scenarios, size) == batches + Slices(scenarios[end..], size)
  }

  lemma SlicesNext<T>(scenarios: seq<T>, size: nat, index: nat, end: nat)
    requires index < |scenarios| && size > 0
             && end == (if index + size < |scenarios| then index + size else |scenarios|)
    ensures Slices(scenarios[index..], size) == [scenarios[index..end]] + Slices(scenarios[end..], size)
  {
    var rest := scenarios[index..];
    if |rest| <= size {
      assert rest == scenarios[index..end] && scenarios[end..] == [];
    } else {
      assert rest[..size] == scenarios[index..end] && rest[size..] == scenarios[end..];
    }
  }

  lemma SliceNext<T>(scenarios: seq<T>, batches: seq<seq<T>>, size: nat, index: nat, end: nat)
    requires index < |scenarios| && size > 0
             && end == (if index + size < |scenarios| then index + size else |scenarios|)
    requires Sliced(scenarios, batches, size, index)
    ensures Sliced(scenarios, batches + [scenarios[index..end]], size, end)
  {
    var batch := scenarios[index..end];
    FlattenSnoc(batches, batch);
    assert scenarios[..end] == scenarios[..index] + batch;
    var all := batches + [batch];
    assert forall i :: 0 <= i < |batches| ==> all[i] == batches[i];
    assert all[|batches|] == batch;
    SlicesNext(scenarios, size, index, end);
    assert batches + ([batch] + Slices(scenarios[end..], size)) == all + Slices(scenarios[end..], size);
  }

  lemma CountNext(count: nat, size: nat, n: nat)
    requires size > 0 && count * size < n
    ensures (count + 1) * size == count * size + size
    ensures IsBatchCount(count + 1, if (count + 1) * size < n then (count + 1) * size else n, size)
  {
  }

  /** `splitCaseAuthoringBatch`: `None` for a batch that cannot be split. */
  function SplitCaseAuthoringBatch<T(==)>(batch: seq<T>): (halves: Option<(seq<T>, seq<T>)>)
    ensures halves.Some? <==> |batch| >= 2
    ensures halves.Some? ==> halves.value.0 != [] && halves.value.1 != [] && halves.value.0 + halves.value.1 == batch
    ensures halves.Some? ==> |halves.value.1| <= |halves.value.0| <= |halves.value.1| + 1
  {
    if |batch| < 2 then None
    else
      var middle := (|batch| + 1) / 2;
      Some((batch[..middle], batch[middle..]))
  }

  // ---------------------------------------------------------------- one batch

  function RefsOf(item: Proposal): seq<string>
  {
    if item.Proposal? && item.refs.Some? then item.refs.value else []
  }

  function ScenarioRefs(s: Scenario): seq<string> { if s.refs.Some? then s.refs.value else [] }

  /** `String(proposal.local_id || '')`. */
  function IdOf(item: Proposal): string { if item.Proposal? then Shown(item.localId) else "" }

  function IdsOf(items: seq<Proposal>): set<string> { set i | 0 <= i < |items| :: IdOf(items[i]) }

  /** The identifiers of a batch are new: not among the accepted ones, and distinct once trimmed. */
  predicate FreshIds(items: seq<Proposal>, prior: seq<Proposal>, n: nat)
  {
    forall j :: 0 <= j < n && j < |items| ==> FreshAt(items, prior, j)
  }

  predicate FreshAt(items: seq<Proposal>, prior: seq<Proposal>, j: nat)
    requires j < |items|
  {
    var id := Trim(IdOf(items[j]));
    id != "" ==> id !in IdsOf(prior) && forall i :: 0 <= i < j ==> Trim(IdOf(items[i])) != id
  }

  /** The case cites the criteria of its scenario, each as often; a scenario without a list of criteria has none. */
  predicate CitesExactly(item: Proposal, s: Scenario)
  {
    && item.Proposal? && item.refs.Some?
    && multiset(item.refs.value) == match s.refs case Some(refs) => multiset(refs) case None => multiset{}
  }

  /** One case per scenario, in order, each within its contract and citing exactly its scenario's criteria. */
  predicate Aligned(items: seq<Proposal>, batch: seq<Scenario>, allowed: set<string>)
  {
    && |items| == |batch|
    && (forall i :: 0 <= i < |items| ==> MeetsContract(items[i], allowed))
    && (forall i :: 0 <= i < |items| ==> CitesExactly(items[i], batch[i]))
  }

  method ContractHolds(items: seq<Proposal>, allowed: set<string>) returns (ok: bool)
    ensures ok <==> forall i :: 0 <= i < |items| ==> MeetsContract(items[i], allowed)
  {
    ok := true;
    for index := 0 to |items|
      invariant ok <==> forall i :: 0 <= i < index ==> MeetsContract(items[i], allowed)
    {
      var issues := CaseProposalContractIssues(items[index], allowed);
      if issues != [] { ok := false; }
    }
  }

  method RefsMatch(items: seq<Proposal>, batch: seq<Scenario>) returns (ok: bool)
    ensures ok && |items| == |batch| ==>
              forall i :: 0 <= i < |items| ==> multiset(RefsOf(items[i])) == multiset(ScenarioRefs(batch[i]))
    ensures !ok && |items| == |batch| ==>
              exists i :: 0 <= i < |items| && multiset(RefsOf(items[i])) != multiset(ScenarioRefs(batch[i]))
  {
    ok := true;
    for index := 0 to |items|
      invariant ok && |items| == |batch| ==>
                  forall i :: 0 <= i < index ==> multiset(RefsOf(items[i])) == multiset(ScenarioRefs(batch[i]))
      invariant !ok && |items| == |batch| ==>
                  exists i :: 0 <= i < index && multiset(RefsOf(items[i])) != multiset(ScenarioRefs(batch[i]))
    {
      var expected := if index < |batch| then ScenarioRefs(batch[index]) else [];
      SortedEqualIsSameMultiset(RefsOf(items[index]), expected);
      if Sort(RefsOf(items[index])) != Sort(expected) { ok := false; }
    }
  }

  /** The set `seen` after the first `n` items. */
  function Seen(items: seq<Proposal>, prior: seq<Proposal>, n: nat): set<string>
    requires n <= |items|
  {
    if n == 0 then IdsOf(prior)
    else
      var id := Trim(IdOf(items[n - 1]));
      Seen(items, prior, n - 1) + (if id != "" then {id} else {})
  }

  lemma {:induction false} SeenMembers(items: seq<Proposal>, prior: seq<Proposal>, n: nat, x: string)
    requires n <= |items|
    ensures x in Seen(items, prior, n) <==>
            x in IdsOf(prior) || (x != "" && exists i :: 0 <= i < n && Trim(IdOf(items[i])) == x)
  {
    if n > 0 {
      SeenMembers(items, prior, n - 1, x);
    }
  }

  lemma FreshStep(items: seq<Proposal>, prior: seq<Proposal>, n: nat, id: string)
    requires n < |items| && id == Trim(IdOf(items[n]))
    ensures FreshIds(items, prior, n + 1) <==> FreshIds(items, prior, n) && (id == "" || id !in Seen(items, prior, n))
    ensures Seen(items, prior, n + 1) == Seen(items, prior, n) + if id != "" then {id} else {}
  {
    SeenMembers(items, prior, n, id);
    assert FreshIds(items, prior, n + 1) <==> FreshIds(items, prior, n) && FreshAt(items, prior, n);
  }

  method IdsAreFresh(items: seq<Proposal>, prior: seq<Proposal>) returns (ok: bool)
    ensures ok <==> FreshIds(items, prior, |items|)
  {
    ok := true;
    var seen := IdsOf(prior);
    for index := 0 to |items|
      invariant seen == Seen(items, prior, index)
      invariant ok <==> FreshIds(items, prior, index)
    {
      var id := Trim(IdOf(items[index]));
      FreshStep(items, prior, index, id);
      if id != "" && id in seen { ok := false; }
      if id != "" { seen := seen + {id}; }
    }
  }

  /** `validateBatch(values)` reports no issue. */
  method BatchIsValid(items: seq<Proposal>, batch: seq<Scenario>, prior: seq<Proposal>, allowed: set<string>)
    returns (ok: bool)
    ensures ok <==> Aligned(items, batch, allowed) && FreshIds(items, prior, |items|)
  {
    var contract := ContractHolds(items, allowed);
    var refs := RefsMatch(items, batch);
    var ids := IdsAreFresh(items, prior);
    ok := contract && |items| == |batch| && refs && ids;
  }

  // ---------------------------------------------------------------- the run

  /** An earlier identifier that equals its own trim differs from every later one, trimmed. */
  predicate DistinctIds(items: seq<Proposal>)
  {
    forall i, j :: 0 <= i < j < |items| && Trim(IdOf(items[i])) == IdOf(items[i]) ==>
      IdOf(items[i]) != Trim(IdOf(items[j]))
  }

  lemma AlignedConcat(a: seq<Proposal>, b: seq<Proposal>, x: seq<Scenario>, y: seq<Scenario>, allowed: set<string>)
    requires Aligned(a, x, allowed) && Aligned(b, y, allowed)
    ensures Aligned(a + b, x + y, allowed)
  {
    var all, scopes := a + b, x + y;
    forall i | 0 <= i < |all|
      ensures MeetsContract(all[i], allowed) && CitesExactly(all[i], scopes[i])
    {
      if i < |a| {
        assert all[i] == a[i] && scopes[i] == x[i];
      } else {
        assert all[i] == b[i - |a|] && scopes[i] == y[i - |a|];
      }
    }
  }

  lemma DistinctConcat(prior: seq<Proposal>, items: seq<Proposal>, allowed: set<string>)
    requires DistinctIds(prior) && FreshIds(items, prior, |items|)
    requires forall i :: 0 <= i < |items| ==> MeetsContract(items[i], allowed)
    ensures DistinctIds(prior + items)
  {
    var all := prior + items;
    forall i, j | 0 <= i < j < |all| && Trim(IdOf(all[i])) == IdOf(all[i]) ensures IdOf(all[i]) != Trim(IdOf(all[j])) {
      if j >= |prior| {
        var k := j - |prior|;
        assert all[j] == items[k] && Trim(IdOf(items[k])) != "";
        assert FreshAt(items, prior, k);
        if i < |prior| {
          assert IdOf(prior[i]) in IdsOf(prior);
        }
      }
    }
  }

  lemma {:induction false} FlattenSplit<T>(batches: seq<seq<T>>, k: nat)
    requires k < |batches|
    ensures Flatten(batches[k..]) == batches[k] + Flatten(batches[k + 1..])
    ensures Visits(batches[k..]) == 2 * |batches[k]| - 1 + Visits(batches[k + 1..])
  {
    assert batches[k..][1..] == batches[k + 1..];
  }

  /** Replacing a batch by its halves keeps the scenarios and costs one visit less. */
  lemma SpliceKeeps<T>(batches: seq<seq<T>>, k: nat, left: seq<T>, right: seq<T>, spliced: seq<seq<T>>)
    requires k < |batches| && batches[k] == left + right
    requires spliced == batches[..k] + [left, right] + batches[k + 1..]
    ensures Flatten(spliced[k..]) == Flatten(batches[k..])
    ensures Visits(spliced[k..]) == Visits(batches[k..]) - 1
  {
    FlattenSplit(batches, k);
    FlattenSplit(spliced, k);
    FlattenSplit(spliced, k + 1);
    assert spliced[k + 2..] == batches[k + 1..];
    assert (left + right) + Flatten(batches[k + 1..]) == left + (right + Flatten(batches[k + 1..]));
  }

  /** The proposals of a completion, normalised. */
  function Parsed(answer: Answer): seq<Proposal>
    requires answer.Reply?
  {
    seq(|answer.items|, i requires 0 <= i < |answer.items| => Normalized(answer.items[i]))
  }

  /** A complete answer whose proposals can be accepted for the batch. */
  predicate Acceptable(answer: Answer, batch: seq<Scenario>, prior: seq<Proposal>, allowed: set<string>)
  {
    && answer.Reply? && !answer.truncated
    && Aligned(Parsed(answer), batch, allowed)
    && FreshIds(Parsed(answer), prior, |answer.items|)
  }

  datatype BatchResult = Accepted(values: seq<Proposal>) | Split | Failed(refusal: Refusal)

  /** What an answer leads to at once; a contract failure is left to the caller. */
  function Judge(answer: Answer, batch: seq<Scenario>, prior: seq<Proposal>, allowed: set<string>): BatchResult
  {
    if answer.ProviderError? then Failed(ProviderFailed)
    else if answer.truncated then (if |batch| >= 2 then Split else Failed(OutputTruncated))
    else if Acceptable(answer, batch, prior, allowed) then Accepted(Parsed(answer))
    else Failed(ContractInvalid)
  }

  predicate Follows(answer: Answer, batch: seq<Scenario>, prior: seq<Proposal>, allowed: set<string>,
                    result: BatchResult)
  {
    result == Judge(answer, batch, prior, allowed)
  }

  predicate NeedsRepair(answer: Answer, batch: seq<Scenario>, prior: seq<Proposal>, allowed: set<string>)
  {
    answer.Reply? && !answer.truncated && !Acceptable(answer, batch, prior, allowed)
  }

  method JudgeAnswer(answer: Answer, batch: seq<Scenario>, prior: seq<Proposal>, allowed: set<string>)
    returns (result: BatchResult)
    ensures Follows(answer, batch, prior, allowed, result)
  {
    if answer.ProviderError? {
      return Failed(ProviderFailed);
    }
    if answer.truncated {
      var halves := SplitCaseAuthoringBatch(batch);
      return if halves.Some? then Split else Failed(OutputTruncated);
    }
    var values := Parsed(answer);
    var ok := BatchIsValid(values, batch, prior, allowed);
    result := if ok then Accepted(values) else Failed(ContractInvalid);
  }

  /** One visit of a batch: a call and, when its contract fails, a single repair call. */
  method AuthorBatch(batch: seq<Scenario>, prior: seq<Proposal>, allowed: set<string>, answers: nat -> Answer,
                     calls: nat)
    returns (result: BatchResult, made: nat)
    ensures NeedsRepair(answers(calls), batch, prior, allowed) ==> made == calls + 2
    ensures !NeedsRepair(answers(calls), batch, prior, allowed) ==> made == calls + 1
    ensures Follows(answers(made - 1), batch, prior, allowed, result)
    ensures (result, made) == Visit(batch, prior, allowed, answers, calls)
  {
    result := JudgeAnswer(answers(calls), batch, prior, allowed);
    made := calls + 1;
    if result == Failed(ContractInvalid) {
      result := JudgeAnswer(answers(made), batch, prior, allowed);
      made := made + 1;
    }
  }

  /** One visit as a value: its result, and the number of calls made so far. */
  function Visit(batch: seq<Scenario>, prior: seq<Proposal>, allowed: set<string>, answers: nat -> Answer,
                 calls: nat): (BatchResult, nat)
  {
    var first := Judge(answers(calls), batch, prior, allowed);
    if first == Failed(ContractInvalid) then (Judge(answers(calls + 1), batch, prior, allowed), calls + 2)
    else (first, calls + 1)
  }

  function Budget(pending: seq<seq<Scenario>>): nat
    requires NoneEmpty(pending)
  {
    VisitsNonNegative(pending);
    Visits(pending)
  }

  lemma BudgetShrinks(pending: seq<seq<Scenario>>)
    requires pending != [] && NoneEmpty(pending)
    ensures NoneEmpty(pending[1..]) && Budget(pending[1..]) < Budget(pending)
    ensures var halves := SplitCaseAuthoringBatch(pending[0]);
            halves.Some? ==>
              var split := [halves.value.0, halves.value.1] + pending[1..];
              NoneEmpty(split) && Budget(split) < Budget(pending)
  {
    var halves := SplitCaseAuthoringBatch(pending[0]);
    if halves.Some? {
      var split := [halves.value.0, halves.value.1] + pending[1..];
      assert split == pending[..0] + [halves.value.0, halves.value.1] + pending[1..];
      SpliceKeeps(pending, 0, halves.value.0, halves.value.1, split);
      assert split[0..] == split && pending[0..] == pending;
    }
  }

  /** The whole run as a value: its outcome and the number of calls, from the pending batches on. */
  function Author(pending: seq<seq<Scenario>>, prior: seq<Proposal>, scopes: seq<Scenario>, allowed: set<string>,
                  answers: nat -> Answer, calls: nat): (Outcome, nat)
    requires NoneEmpty(pending)
    decreases Budget(pending)
  {
    if pending == [] then (Authored(prior, scopes), calls)
    else
      BudgetShrinks(pending);
      var (result, made) := Visit(pending[0], prior, allowed, answers, calls);
      var halves := SplitCaseAuthoringBatch(pending[0]);
      if result.Failed? then (Refused(result.refusal), made)
      else if result.Accepted? then
        Author(pending[1..], prior + result.values, scopes + pending[0], allowed, answers, made)
      else if halves.Some? then
        Author([halves.value.0, halves.value.1] + pending[1..], prior, scopes, allowed, answers, made)
      else (Refused(OutputTruncated), made)
  }

  /** Where a run stopped: the scenarios already covered, their accepted cases, and the batch it was at. */
  datatype Stop = Stop(done: nat, prior: seq<Proposal>, batch: seq<Scenario>)

  /** Why an answer to a batch ends the run. */
  predicate Explains(answer: Answer, batch: seq<Scenario>, prior: seq<Proposal>, allowed: set<string>, refusal: Refusal)
  {
    match refusal
    case ScenariosRequired => false
    case ProviderFailed => answer.ProviderError?
    case OutputTruncated => answer.Reply? && answer.truncated && |batch| < 2
    case ContractInvalid => answer.Reply? && !answer.truncated && !Acceptable(answer, batch, prior, allowed)
  }

  /** The batch follows the covered scenarios, and the answer to it explains the refusal. */
  predicate StoppedAt(scenarios: seq<Scenario>, allowed: set<string>, stop: Stop, answer: Answer, refusal: Refusal)
  {
    && stop.done <= |scenarios| && stop.batch != [] && stop.batch <= scenarios[stop.done..]
    && Aligned(stop.prior, scenarios[..stop.done], allowed)
    && Explains(answer, stop.batch, stop.prior, allowed, refusal)
  }

  /** What holds at the head of the loop. */
  predicate Progress(scenarios: seq<Scenario>, pending: seq<seq<Scenario>>, index: nat, proposals: seq<Proposal>,
                     scopes: seq<Scenario>, allowed: set<string>)
  {
    && index <= |pending| && NoneEmpty(pending)
    && scopes + Flatten(pending[index..]) == scenarios
    && Aligned(proposals, scopes, allowed)
    && DistinctIds(proposals)
  }

  lemma AcceptProgresses(scenarios: seq<Scenario>, pending: seq<seq<Scenario>>, index: nat, proposals: seq<Proposal>,
                         scopes: seq<Scenario>, allowed: set<string>, values: seq<Proposal>)
    requires index < |pending| && Progress(scenarios, pending, index, proposals, scopes, allowed)
    requires Aligned(values, pending[index], allowed) && FreshIds(values, proposals, |values|)
    ensures Progress(scenarios, pending, index + 1, proposals + values, scopes + pending[index], allowed)
    ensures Visits(pending[index + 1..]) < Visits(pending[index..])
  {
    var batch := pending[index];
    FlattenSplit(pending, index);
    assert scopes + (batch + Flatten(pending[index + 1..])) == (scopes + batch) + Flatten(pending[index + 1..]);
    AlignedConcat(proposals, values, scopes, batch, allowed);
    DistinctConcat(proposals, values, allowed);
  }

  lemma SplitProgresses(scenarios: seq<Scenario>, pending: seq<seq<Scenario>>, index: nat, proposals: seq<Proposal>,
                        scopes: seq<Scenario>, allowed: set<string>, spliced: seq<seq<Scenario>>)
    requires index < |pending| && Progress(scenarios, pending, index, proposals, scopes, allowed)
    requires |pending[index]| >= 2
    requires var halves := SplitCaseAuthoringBatch(pending[index]).value;
             spliced == pending[..index] + [halves.0, halves.1] + pending[index + 1..]
    ensures Progress(scenarios, spliced, index, proposals, scopes, allowed)
    ensures Visits(spliced[index..]) == Visits(pending[index..]) - 1
  {
    var halves := SplitCaseAuthoringBatch(pending[index]).value;
    SpliceKeeps(pending, index, halves.0, halves.1, spliced);
  }

  lemma StopExplained(scenarios: seq<Scenario>, pending: seq<seq<Scenario>>, index: nat, proposals: seq<Proposal>,
                      scopes: seq<Scenario>, allowed: set<string>, answer: Answer, refusal: Refusal)
    requires index < |pending| && Progress(scenarios, pending, index, proposals, scopes, allowed)
    requires Follows(answer, pending[index], proposals, allowed, Failed(refusal))
    ensures StoppedAt(scenarios, allowed, Stop(|scopes|, proposals, pending[index]), answer, refusal)
    ensures refusal != ScenariosRequired
  {
    FlattenSplit(pending, index);
    assert scenarios[..|scopes|] == scopes;
    assert scenarios[|scopes|..] == pending[index] + Flatten(pending[index + 1..]);
  }

  lemma ProgressFrom(scenarios: seq<Scenario>, pending: seq<seq<Scenario>>, index: nat, proposals: seq<Proposal>,
                     scopes: seq<Scenario>, allowed: set<string>)
    requires Progress(scenarios, pending, index, proposals, scopes, allowed)
    ensures Progress(scenarios, pending[index..], 0, proposals, scopes, allowed)
  {
    assert pending[index..][0..] == pending[index..];
  }

  /** What every run promises, from any point of it on. */
  predicate Promised(scenarios: seq<Scenario>, allowed: set<string>, answers: nat -> Answer, run: (Outcome, nat),
                     stop: Stop)
  {
    && (run.0.Authored? ==>
          run.0.scopes == scenarios && Aligned(run.0.proposals, scenarios, allowed) && DistinctIds(run.0.proposals))
    && (run.0.Refused? ==>
          && run.1 > 0 && StoppedAt(scenarios, allowed, stop, answers(run.1 - 1), run.0.refusal)
          && run.0.refusal != ScenariosRequired)
  }

  lemma VisitFollows(batch: seq<Scenario>, prior: seq<Proposal>, allowed: set<string>, answers: nat -> Answer,
                     calls: nat)
    ensures var (result, made) := Visit(batch, prior, allowed, answers, calls);
            calls < made <= calls + 2 && Follows(answers(made - 1), batch, prior, allowed, result)
  {
  }

  /** For every oracle: order, alignment, distinct identifiers, the reason of a refusal, two calls for each visit. */
  lemma {:induction false} AuthorKeepsPromise(scenarios: seq<Scenario>, pending: seq<seq<Scenario>>,
                                              prior: seq<Proposal>, scopes: seq<Scenario>, allowed: set<string>,
                                              answers: nat -> Answer, calls: nat)
    returns (stop: Stop)
    requires Progress(scenarios, pending, 0, prior, scopes, allowed)
    ensures Promised(scenarios, allowed, answers, Author(pending, prior, scopes, allowed, answers, calls), stop)
    ensures Author(pending, prior, scopes, allowed, answers, calls).1 <= calls + 2 * Visits(pending)
    decreases Budget(pending)
  {
    assert pending[0..] == pending;
    stop := Stop(0, [], []);
    if pending == [] {
      assert scopes + [] == scopes;
    } else {
      BudgetShrinks(pending);
      VisitFollows(pending[0], prior, allowed, answers, calls);
      var (result, made) := Visit(pending[0], prior, allowed, answers, calls);
      if result.Failed? {
        StopExplained(scenarios, pending, 0, prior, scopes, allowed, answers(made - 1), result.refusal);
        stop := Stop(|scopes|, prior, pending[0]);
        VisitsNonNegative(pending);
      } else if result.Accepted? {
        AcceptProgresses(scenarios, pending, 0, prior, scopes, allowed, result.values);
        ProgressFrom(scenarios, pending, 1, prior + result.values, scopes + pending[0], allowed);
        stop := AuthorKeepsPromise(scenarios, pending[1..], prior + result.values, scopes + pending[0], allowed,
                                   answers, made);
      } else {
        var halves := SplitCaseAuthoringBatch(pending[0]).value;
        var spliced := [halves.0, halves.1] + pending[1..];
        assert spliced == pending[..0] + [halves.0, halves.1] + pending[1..];
        SplitProgresses(scenarios, pending, 0, prior, scopes, allowed, spliced);
        assert spliced[0..] == spliced;
        stop := AuthorKeepsPromise(scenarios, spliced, prior, scopes, allowed, answers, made);
      }
    }
  }

  // ---------------------------------------------------------------- where the cases come from

  /** The case is the answered item but for its category, which is that of the item, trimmed and in upper case. */
  ghost predicate IsKeptFrom(kept: Proposal, item: Proposal)
  {
    && kept.Proposal? && item.Proposal?
    && kept.localId == item.localId && kept.title == item.title && kept.steps == item.steps && kept.refs == item.refs
    && kept.testType == item.testType
    && exists t :: IsTrimOf(item.category, t) && IsUpperOf(t, kept.category)
  }

  /** An item of a run: the call that was answered and the position in that answer. */
  datatype Origin = Origin(call: nat, index: nat)

  /** The origin is an item of a complete answer to one of the first `calls` calls. */
  predicate IsAnswered(answers: nat -> Answer, calls: nat, o: Origin)
  {
    && o.call < calls
    && answers(o.call).Reply? && !answers(o.call).truncated && o.index < |answers(o.call).items|
  }

  predicate IsLast(answers: nat -> Answer, o: Origin)
  {
    answers(o.call).Reply? && o.index + 1 == |answers(o.call).items|
  }

  /** The item after `o`: the next of its answer, or after its last the first of a later answer. */
  predicate Follow(answers: nat -> Answer, o: Origin, next: Origin)
  {
    if IsLast(answers, o) then next.call > o.call && next.index == 0 else next == Origin(o.call, o.index + 1)
  }

  /** Every case is kept from its origin. */
  ghost predicate AllKept(proposals: seq<Proposal>, answers: nat -> Answer, calls: nat, origins: seq<Origin>)
  {
    && |origins| == |proposals|
    && forall i :: 0 <= i < |origins| ==>
         IsAnswered(answers, calls, origins[i])
         && IsKeptFrom(proposals[i], answers(origins[i].call).items[origins[i].index])
  }

  /** The origins are whole answers, in order. */
  predicate Chained(answers: nat -> Answer, origins: seq<Origin>)
  {
    && (forall i :: 0 <= i < |origins| - 1 ==> Follow(answers, origins[i], origins[i + 1]))
    && (origins != [] ==> origins[0].index == 0 && IsLast(answers, origins[|origins| - 1]))
  }

  /** The cases are, in order, all the items of some complete answers. */
  ghost predicate Sourced(proposals: seq<Proposal>, answers: nat -> Answer, calls: nat, origins: seq<Origin>)
  {
    AllKept(proposals, answers, calls, origins) && Chained(answers, origins)
  }

  lemma NormalizedIsKept(item: Proposal)
    requires item.Proposal?
    ensures IsKeptFrom(Normalized(item), item)
  {
    TrimExactly(item.category, Trim(item.category));
    UpperExactly(Trim(item.category), UpperText(Trim(item.category)));
  }

  function OriginsOf(call: nat, n: nat): seq<Origin> { seq(n, i requires 0 <= i < n => Origin(call, i)) }

  predicate AllObjects(items: seq<Proposal>) { forall k :: 0 <= k < |items| ==> items[k].Proposal? }

  lemma AnswerIsKept(answers: nat -> Answer, call: nat)
    requires answers(call).Reply? && !answers(call).truncated && AllObjects(answers(call).items)
    ensures AllKept(Parsed(answers(call)), answers, call + 1, OriginsOf(call, |answers(call).items|))
  {
    var items := answers(call).items;
    forall i | 0 <= i < |items| ensures IsKeptFrom(Parsed(answers(call))[i], items[i]) {
      NormalizedIsKept(items[i]);
    }
  }

  lemma KeptConcat(a: seq<Proposal>, b: seq<Proposal>, answers: nat -> Answer, calls: nat,
                   x: seq<Origin>, y: seq<Origin>)
    requires AllKept(a, answers, calls, x) && AllKept(b, answers, calls, y)
    ensures AllKept(a + b, answers, calls, x + y)
  {
  }

  lemma ChainedConcat(answers: nat -> Answer, origins: seq<Origin>, call: nat)
    requires Chained(answers, origins) && answers(call).Reply?
    requires forall i :: 0 <= i < |origins| ==> origins[i].call < call
    ensures Chained(answers, origins + OriginsOf(call, |answers(call).items|))
  {
    var all := origins + OriginsOf(call, |answers(call).items|);
    forall i | 0 <= i < |all| - 1 ensures Follow(answers, all[i], all[i + 1]) {
      if i + 1 < |origins| {
        assert all[i] == origins[i] && all[i + 1] == origins[i + 1];
      }
    }
  }

  lemma SourcedMore(prior: seq<Proposal>, answers: nat -> Answer, calls: nat, origins: seq<Origin>, call: nat)
    requires Sourced(prior, answers, calls, origins) && calls <= call
    requires answers(call).Reply? && !answers(call).truncated && AllObjects(answers(call).items)
    ensures Sourced(prior + Parsed(answers(call)), answers, call + 1, origins + OriginsOf(call, |answers(call).items|))
  {
    SourcedLater(prior, answers, calls, origins, call + 1);
    AnswerIsKept(answers, call);
    KeptConcat(prior, Parsed(answers(call)), answers, call + 1, origins, OriginsOf(call, |answers(call).items|));
    ChainedConcat(answers, origins, call);
  }

  lemma ParsedAreItems(answer: Answer, batch: seq<Scenario>, allowed: set<string>)
    requires answer.Reply? && Aligned(Parsed(answer), batch, allowed)
    ensures AllObjects(answer.items)
  {
    forall k | 0 <= k < |answer.items| ensures answer.items[k].Proposal? {
      assert MeetsContract(Parsed(answer)[k], allowed);
    }
  }

  /** What a visit that does not fail tells about the last answer. */
  lemma VisitMeans(batch: seq<Scenario>, prior: seq<Proposal>, allowed: set<string>, answers: nat -> Answer, calls: nat)
    ensures var (result, made) := Visit(batch, prior, allowed, answers, calls);
            && calls < made
            && (result.Split? ==> SplitCaseAuthoringBatch(batch).Some?)
            && (result.Accepted? ==>
                  && answers(made - 1).Reply? && !answers(made - 1).truncated && AllObjects(answers(made - 1).items)
                  && result.values == Parsed(answers(made - 1)))
  {
    var (result, made) := Visit(batch, prior, allowed, answers, calls);
    VisitFollows(batch, prior, allowed, answers, calls);
    if result.Accepted? {
      ParsedAreItems(answers(made - 1), batch, allowed);
    }
  }

  /** One visit of the run. */
  lemma AuthorUnfolds(pending: seq<seq<Scenario>>, prior: seq<Proposal>, scopes: seq<Scenario>, allowed: set<string>,
                      answers: nat -> Answer, calls: nat)
    requires pending != [] && NoneEmpty(pending)
    ensures NoneEmpty(pending[1..]) && Budget(pending[1..]) < Budget(pending)
    ensures var (result, made) := Visit(pending[0], prior, allowed, answers, calls);
            var run := Author(pending, prior, scopes, allowed, answers, calls);
            var halves := SplitCaseAuthoringBatch(pending[0]);
            && (result.Failed? ==> run.0.Refused?)
            && (result.Accepted? ==>
                  run == Author(pending[1..], prior + result.values, scopes + pending[0], allowed, answers, made))
            && (result.Split? && halves.Some? ==>
                  var split := [halves.value.0, halves.value.1] + pending[1..];
                  && NoneEmpty(split) && Budget(split) < Budget(pending)
                  && run == Author(split, prior, scopes, allowed, answers, made))
  {
    BudgetShrinks(pending);
  }

  /** A visit that does not fail leads from sourced cases to sourced cases. */
  lemma VisitIsSourced(batch: seq<Scenario>, prior: seq<Proposal>, allowed: set<string>, answers: nat -> Answer,
                       calls: nat, origins: seq<Origin>)
    returns (more: seq<Origin>)
    requires Sourced(prior, answers, calls, origins)
    ensures var (result, made) := Visit(batch, prior, allowed, answers, calls);
            && (result.Split? ==> SplitCaseAuthoringBatch(batch).Some?)
            && Sourced(if result.Accepted? then prior + result.values else prior, answers, made, more)
  {
    VisitMeans(batch, prior, allowed, answers, calls);
    var (result, made) := Visit(batch, prior, allowed, answers, calls);
    if result.Accepted? {
      SourcedMore(prior, answers, calls, origins, made - 1);
      more := origins + OriginsOf(made - 1, |answers(made - 1).items|);
    } else {
      SourcedLater(prior, answers, calls, origins, made);
      more := origins;
    }
  }

  /** For every provider, from every point of a run on. */
  lemma {:induction false} AuthorIsSourced(pending: seq<seq<Scenario>>, prior: seq<Proposal>, scopes: seq<Scenario>,
                                           allowed: set<string>, answers: nat -> Answer, calls: nat,
                                           origins: seq<Origin>)
    returns (all: seq<Origin>)
    requires NoneEmpty(pending) && Sourced(prior, answers, calls, origins)
    ensures var (outcome, made) := Author(pending, prior, scopes, allowed, answers, calls);
            outcome.Authored? ==> Sourced(outcome.proposals, answers, made, all)
    decreases Budget(pending)
  {
    all := origins;
    if pending != [] {
      AuthorUnfolds(pending, prior, scopes, allowed, answers, calls);
      var (result, made) := Visit(pending[0], prior, allowed, answers, calls);
      var more := VisitIsSourced(pending[0], prior, allowed, answers, calls, origins);
      if result.Accepted? {
        all := AuthorIsSourced(pending[1..], prior + result.values, scopes + pending[0], allowed, answers, made, more);
      } else if result.Split? {
        var halves := SplitCaseAuthoringBatch(pending[0]).value;
        all := AuthorIsSourced([halves.0, halves.1] + pending[1..], prior, scopes, allowed, answers, made, more);
      }
    }
  }

  lemma SourcedLater(prior: seq<Proposal>, answers: nat -> Answer, calls: nat, origins: seq<Origin>, made: nat)
    requires Sourced(prior, answers, calls, origins) && calls <= made
    ensures Sourced(prior, answers, made, origins)
  {
  }

  // ---------------------------------------------------------------- the loop

  /**
   * `generateCaseProposalsInBatches`. For every oracle it terminates; with n scenarios in k initial
   * batches it makes at most 4n - 2k calls; if it returns, the scopes are the scenarios in order,
   * case i is within its contract and cites exactly scenario i's criteria, and the identifiers that
   * equal their own trim are distinct; the cases are, in order, all the items of some complete
   * answers, changed in nothing but the case and outer white space of their category; and it refuses
   * only for the reason its last answer gives.
   */
  method GenerateCaseProposals(scenarios: seq<Scenario>, maxCompletionTokens: Option<real>, allowed: set<string>,
                               answers: nat -> Answer)
    returns (outcome: Outcome, calls: nat, batches: nat, ghost stop: Stop)
    ensures outcome.Authored? ==> outcome.scopes == scenarios && Aligned(outcome.proposals, scenarios, allowed)
    ensures outcome.Authored? ==> DistinctIds(outcome.proposals)
    ensures outcome.Authored? ==> exists origins :: Sourced(outcome.proposals, answers, calls, origins)
    ensures outcome == Refused(ScenariosRequired) <==> scenarios == []
    ensures outcome.Refused? && scenarios != [] ==>
              calls > 0 && StoppedAt(scenarios, allowed, stop, answers(calls - 1), outcome.refusal)
    ensures calls <= 4 * |scenarios| - 2 * batches
    ensures IsBatchCount(batches, |scenarios|, BatchSize(maxCompletionTokens))
    ensures var slices := Slices(scenarios, BatchSize(maxCompletionTokens));
            scenarios != [] ==> NoneEmpty(slices) && (outcome, calls) == Author(slices, [], [], allowed, answers, 0)
  {
    var pending := CaseAuthoringBatches(scenarios, maxCompletionTokens);
    batches := |pending|;
    VisitsCount(pending);
    if pending == [] {
      return Refused(ScenariosRequired), 0, batches, Stop(0, [], []);
    }
    assert pending[0..] == pending;
    stop := AuthorKeepsPromise(scenarios, pending, [], [], allowed, answers, 0);
    ghost var origins := AuthorIsSourced(pending, [], [], allowed, answers, 0, []);
    outcome, calls := RunBatches(pending, allowed, answers);
  }

  /** The loop over the pending batches, which are split in place. */
  method RunBatches(initial: seq<seq<Scenario>>, allowed: set<string>, answers: nat -> Answer)
    returns (outcome: Outcome, calls: nat)
    requires NoneEmpty(initial)
    ensures (outcome, calls) == Author(initial, [], [], allowed, answers, 0)
  {
    var pending, proposals, scopes, index := initial, [], [], 0;
    calls := 0;
    assert pending[0..] == pending;
    ghost var run := Author(initial, [], [], allowed, answers, 0);
    while index < |pending|
      invariant RunsOn(run, pending, index, proposals, scopes, allowed, answers, calls)
      decreases if NoneEmpty(pending[index..]) then Budget(pending[index..]) else 0
    {
      ghost var before, made := pending, calls;
      var batch, result := pending[index], Failed(ProviderFailed);
      RunRest(pending, index);
      BudgetShrinks(pending[index..]);
      result, calls := AuthorBatch(batch, proposals, allowed, answers, calls);
      RunStep(run, before, index, proposals, scopes, allowed, answers, made, result, calls);
      match result {
        case Failed(refusal) =>
          return Refused(refusal), calls;
        case Split =>
          var halves := SplitCaseAuthoringBatch(batch).value;
          pending := pending[..index] + [halves.0, halves.1] + pending[index + 1..];
          RunSplits(run, before, index, proposals, scopes, allowed, answers, made, calls, pending);
          assert pending[index..] == [halves.0, halves.1] + before[index + 1..];
        case Accepted(values) =>
          proposals := proposals + values;
          scopes := scopes + batch;
          index := index + 1;
      }
    }
    outcome := Authored(proposals, scopes);
  }

  /** What is left of the run continues from the pending batches. */
  predicate RunsOn(run: (Outcome, nat), pending: seq<seq<Scenario>>, index: nat, proposals: seq<Proposal>,
                   scopes: seq<Scenario>, allowed: set<string>, answers: nat -> Answer, calls: nat)
  {
    && index <= |pending| && NoneEmpty(pending[index..])
    && run == Author(pending[index..], proposals, scopes, allowed, answers, calls)
  }

  lemma RunRest(pending: seq<seq<Scenario>>, index: nat)
    requires index < |pending| && NoneEmpty(pending[index..])
    ensures pending[index..][0] == pending[index] && pending[index..][1..] == pending[index + 1..]
    ensures NoneEmpty(pending[index + 1..])
  {
    BudgetShrinks(pending[index..]);
    assert pending[index..][1..] == pending[index + 1..];
  }

  /** One visit of the batch at `index` takes the run one step on. */
  lemma RunStep(run: (Outcome, nat), pending: seq<seq<Scenario>>, index: nat, proposals: seq<Proposal>,
                scopes: seq<Scenario>,
                allowed: set<string>, answers: nat -> Answer, calls: nat, result: BatchResult, made: nat)
    requires index < |pending| && RunsOn(run, pending, index, proposals, scopes, allowed, answers, calls)
    requires (result, made) == Visit(pending[index], proposals, allowed, answers, calls)
    ensures result.Failed? ==> run == (Refused(result.refusal), made)
    ensures result.Accepted? ==>
              RunsOn(run, pending, index + 1, proposals + result.values, scopes + pending[index], allowed, answers,
                     made)
  {
    RunRest(pending, index);
  }

  lemma RunSplits(run: (Outcome, nat), pending: seq<seq<Scenario>>, index: nat, proposals: seq<Proposal>,
                  scopes: seq<Scenario>,
                  allowed: set<string>, answers: nat -> Answer, calls: nat, made: nat, spliced: seq<seq<Scenario>>)
    requires index < |pending| && RunsOn(run, pending, index, proposals, scopes, allowed, answers, calls)
    requires (BatchResult.Split, made) == Visit(pending[index], proposals, allowed, answers, calls)
             && |pending[index]| >= 2
    requires var halves := SplitCaseAuthoringBatch(pending[index]).value;
             spliced == pending[..index] + [halves.0, halves.1] + pending[index + 1..]
    ensures RunsOn(run, spliced, index, proposals, scopes, allowed, answers, made)
  {
    var halves := SplitCaseAuthoringBatch(pending[index]).value;
    RunRest(pending, index);
    BudgetShrinks(pending[index..]);
    assert spliced[index..] == [halves.0, halves.1] + pending[index + 1..];
  }

  /** A later identifier passes beside an earlier one exactly when its trim is not the earlier text as stored. */
  lemma FreshBeside(a: Proposal, b: Proposal)
    ensures FreshIds([b], [a], 1) <==> Trim(IdOf(b)) == "" || IdOf(a) != Trim(IdOf(b))
  {
    assert [a][0] == a && [b][0] == b;
    assert IdOf(a) in IdsOf([a]);
    assert FreshIds([b], [a], 1) <==> FreshAt([b], [a], 0);
  }

  /** The provider answers with one proposal. */
  predicate AnswersWith(answer: Answer, item: Proposal) { answer == Reply(false, [item]) }

  lemma OneAccepted(scenario: Scenario, prior: seq<Proposal>, item: Proposal, allowed: set<string>,
                    answers: nat -> Answer, calls: nat)
    requires AnswersWith(answers(calls), item)
    requires Aligned([Normalized(item)], [scenario], allowed) && FreshIds([Normalized(item)], prior, 1)
    ensures Visit([scenario], prior, allowed, answers, calls) == (Accepted([Normalized(item)]), calls + 1)
  {
    assert Parsed(answers(calls)) == [Normalized(item)];
  }

  /**
   * Whatever two cases are authored in two batches, the run returns them both although their trimmed identifiers are
   * equal, whenever the first identifier has white space around it.
   */
  lemma OuterSpaceEscapes(x: Scenario, y: Scenario, a: Proposal, b: Proposal, allowed: set<string>,
                          answers: nat -> Answer)
    requires AnswersWith(answers(0), a) && AnswersWith(answers(1), b)
    requires Aligned([Normalized(a)], [x], allowed) && Aligned([Normalized(b)], [y], allowed)
    requires Trim(IdOf(Normalized(a))) == Trim(IdOf(Normalized(b))) != IdOf(Normalized(a))
    ensures NoneEmpty([[x], [y]])
    ensures Author([[x], [y]], [], [], allowed, answers, 0) == (Authored([Normalized(a), Normalized(b)], [x, y]), 2)
  {
    var p, q := Normalized(a), Normalized(b);
    var pending := [[x], [y]];
    assert pending[1..] == [[y]] && pending[1..][1..] == [];
    assert FreshIds([p], [], 1) && IdsOf([]) == {};
    OneAccepted(x, [], a, allowed, answers, 0);
    FreshBeside(p, q);
    OneAccepted(y, [p], b, allowed, answers, 1);
    assert [] + [p] == [p] && [p] + [q] == [p, q] && [] + [x] == [x] && [x] + [y] == [x, y];
    assert Author([[y]], [p], [x], allowed, answers, 1) == (Authored([p, q], [x, y]), 2);
  }
}
