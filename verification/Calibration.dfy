/**
 * Offline calibration of internal scores (engine/src/calibrate-internal-scores.ts): reviewed executions are counted
 * per source, model, workflow version and decile of the score. Scores are exact reals.
 */
module Calibration {
  import opened Wrappers
  import opened Texts
  import opened WilsonInterval

  datatype Status = Passed | Failed | Blocked | OtherStatus

  /** `score` is `None` unless it is a finite number; a reference that is not a text counts as blank. */
  datatype Row = Row(executionId: string, source: string, model: string, version: string, score: Option<real>,
                     predicted: Status, reviewed: Status, reviewedBy: string, evidence: Option<seq<string>>)

  datatype Id = Id(executionId: string, source: string, model: string, version: string)

  datatype Key = Key(source: string, model: string, version: string, lower: int)

  datatype Group = Group(total: nat, correct: nat)

  /** `order` lists the keys as the Map does, by first insertion. */
  datatype Outcome = InvalidSample | DuplicateSample | Grouped(order: seq<Key>, groups: map<Key, Group>)

  predicate Reviewed(row: Row)
  {
    && row.executionId != "" && row.source != "" && row.model != "" && row.version != ""
    && Trim(row.reviewedBy) != ""
    && row.evidence.Some? && row.evidence.value != []
    && (forall i :: 0 <= i < |row.evidence.value| ==> Trim(row.evidence.value[i]) != "")
    && row.score.Some? && 0.0 <= row.score.value <= 100.0
    && !row.predicted.OtherStatus? && !row.reviewed.OtherStatus?
  }

  function IdOf(row: Row): Id { Id(row.executionId, row.source, row.model, row.version) }

  /** `Math.min(90, Math.floor(score / 10) * 10)`. */
  function Lower(score: real): int
  {
    var decile := (score / 10.0).Floor * 10;
    if decile < 90 then decile else 90
  }

  function KeyOf(row: Row): Key
  {
    Key(row.source, row.model, row.version, if row.score.Some? then Lower(row.score.value) else 0)
  }

  // ---------------------------------------------------------------- what the groups count

  function OneIf(condition: bool): nat { if condition then 1 else 0 }

  function Total(rows: seq<Row>, n: nat, key: Key): nat
    requires n <= |rows|
  {
    if n == 0 then 0 else Total(rows, n - 1, key) + OneIf(KeyOf(rows[n - 1]) == key)
  }

  predicate Agrees(row: Row) { row.predicted == row.reviewed }

  function Correct(rows: seq<Row>, n: nat, key: Key): nat
    requires n <= |rows|
  {
    if n == 0 then 0
    else
      var last := rows[n - 1];
      Correct(rows, n - 1, key) + OneIf(KeyOf(last) == key && last.predicted == last.reviewed)
  }

  /** The keys of the first `n` rows, in order of first appearance. */
  function Keys(rows: seq<Row>, n: nat): seq<Key>
    requires n <= |rows|
  {
    if n == 0 then []
    else if KeyOf(rows[n - 1]) in Keys(rows, n - 1) then Keys(rows, n - 1)
    else Keys(rows, n - 1) + [KeyOf(rows[n - 1])]
  }

  /** Row `i` is reviewed and no earlier row has its identity. */
  predicate Usable(rows: seq<Row>, i: nat)
    requires i < |rows|
  {
    Reviewed(rows[i]) && IsNew(rows, i)
  }

  predicate IsNew(rows: seq<Row>, i: nat)
    requires i < |rows|
  {
    forall j :: 0 <= j < i ==> !SameSample(rows[j], rows[i])
  }

  predicate SameSample(a: Row, b: Row)
  {
    a.executionId == b.executionId && a.source == b.source && a.model == b.model && a.version == b.version
  }

  predicate AllUsable(rows: seq<Row>, n: nat)
    requires n <= |rows|
  {
    forall i :: 0 <= i < n ==> Usable(rows, i)
  }

  ghost predicate CountsRight(rows: seq<Row>, n: nat, groups: map<Key, Group>)
    requires n <= |rows|
  {
    && (forall k :: k in groups <==> k in Keys(rows, n))
    && (forall k :: k in groups ==> groups[k] == Group(Total(rows, n, k), Correct(rows, n, k)))
  }

  /** The grouping loop of `calibrateInternalScores`; `at` is where it stopped. */
  method GroupScores(rows: seq<Row>) returns (r: Outcome, at: nat)
    ensures at <= |rows| && AllUsable(rows, at)
    ensures r.InvalidSample? <==> at < |rows| && !Reviewed(rows[at])
    ensures r.DuplicateSample? <==> at < |rows| && Reviewed(rows[at]) && !IsNew(rows, at)
    ensures r.Grouped? ==> at == |rows| && r.order == Keys(rows, |rows|) && CountsRight(rows, |rows|, r.groups)
  {
    var seen: set<Id>, order: seq<Key>, groups: map<Key, Group> := {}, [], map[];
    at := 0;
    while at < |rows|
      invariant at <= |rows| && AllUsable(rows, at)
      invariant seen == IdsOf(rows, at)
      invariant order == Keys(rows, at) && CountsRight(rows, at, groups)
    {
      var row := rows[at];
      if || row.executionId == "" || row.source == "" || row.model == "" || row.version == ""
         || Trim(row.reviewedBy) == "" || row.evidence.None? || row.evidence.value == []
         || (exists i :: 0 <= i < |row.evidence.value| && Trim(row.evidence.value[i]) == "")
         || row.score.None? || row.score.value < 0.0 || row.score.value > 100.0
         || row.predicted.OtherStatus? || row.reviewed.OtherStatus?
      {
        return InvalidSample, at;
      }
      IdsMembers(rows, at, IdOf(row));
      if IdOf(row) in seen {
        return DuplicateSample, at;
      }
      seen := seen + {IdOf(row)};
      var key := KeyOf(row);
      KeysHave(rows, at, groups, key);
      CountOneMore(rows, at, groups);
      if key !in groups {
        order := order + [key];
      }
      groups := groups[key := Counted(groups, row)];
      at := at + 1;
    }
    r := Grouped(order, groups);
  }

  function IdsOf(rows: seq<Row>, n: nat): set<Id>
    requires n <= |rows|
  {
    if n == 0 then {} else IdsOf(rows, n - 1) + {IdOf(rows[n - 1])}
  }

  lemma {:induction false} IdsMembers(rows: seq<Row>, n: nat, id: Id)
    requires n <= |rows|
    ensures id in IdsOf(rows, n) <==> exists j :: 0 <= j < n && IdOf(rows[j]) == id
  {
    if n > 0 {
      IdsMembers(rows, n - 1, id);
    }
  }

  lemma {:induction false} NewKeyCountsZero(rows: seq<Row>, n: nat, key: Key)
    requires n <= |rows|
    ensures key !in Keys(rows, n) ==> Total(rows, n, key) == 0 && Correct(rows, n, key) == 0
  {
    if n > 0 {
      NewKeyCountsZero(rows, n - 1, key);
    }
  }

  /** The group of a row, with the row counted in. */
  function Counted(groups: map<Key, Group>, row: Row): Group
  {
    var group := if KeyOf(row) in groups then groups[KeyOf(row)] else Group(0, 0);
    Group(group.total + 1, group.correct + OneIf(Agrees(row)))
  }

  lemma KeysHave(rows: seq<Row>, n: nat, groups: map<Key, Group>, key: Key)
    requires n <= |rows| && CountsRight(rows, n, groups)
    ensures key in groups <==> key in Keys(rows, n)
  {
  }

  lemma CountOneMore(rows: seq<Row>, n: nat, groups: map<Key, Group>)
    requires n < |rows| && CountsRight(rows, n, groups)
    ensures CountsRight(rows, n + 1, groups[KeyOf(rows[n]) := Counted(groups, rows[n])])
  {
    NewKeyCountsZero(rows, n, KeyOf(rows[n]));
  }

  // ---------------------------------------------------------------- the bins partition the rows

  lemma {:induction false} KeysMembers(rows: seq<Row>, n: nat, key: Key)
    requires n <= |rows|
    ensures key in Keys(rows, n) <==> exists i :: 0 <= i < n && KeyOf(rows[i]) == key
  {
    if n > 0 {
      KeysMembers(rows, n - 1, key);
    }
  }

  predicate Distinct(keys: seq<Key>) { forall i, j :: 0 <= i < j < |keys| ==> keys[i] != keys[j] }

  lemma {:induction false} KeysDistinct(rows: seq<Row>, n: nat)
    requires n <= |rows|
    ensures Distinct(Keys(rows, n))
  {
    if n > 0 {
      KeysDistinct(rows, n - 1);
    }
  }

  /** The totals of the first `m` keys, over the first `n` rows. */
  function SumTotals(rows: seq<Row>, n: nat, keys: seq<Key>, m: nat): nat
    requires n <= |rows| && m <= |keys|
  {
    if m == 0 then 0 else SumTotals(rows, n, keys, m - 1) + Total(rows, n, keys[m - 1])
  }

  /** One more row adds one to the sum exactly when its key is among the keys. */
  lemma {:induction false} SumOneMore(rows: seq<Row>, n: nat, keys: seq<Key>, m: nat)
    requires n < |rows| && m <= |keys| && Distinct(keys)
    ensures SumTotals(rows, n + 1, keys, m) == SumTotals(rows, n, keys, m) + OneIf(KeyOf(rows[n]) in keys[..m])
  {
    if m > 0 {
      SumOneMore(rows, n, keys, m - 1);
      assert keys[..m] == keys[..m - 1] + [keys[m - 1]];
      assert keys[m - 1] !in keys[..m - 1];
    }
  }

  lemma {:induction false} SumPrefix(rows: seq<Row>, n: nat, keys: seq<Key>, more: seq<Key>, m: nat)
    requires n <= |rows| && m <= |keys|
    ensures SumTotals(rows, n, keys + more, m) == SumTotals(rows, n, keys, m)
  {
    if m > 0 {
      SumPrefix(rows, n, keys, more, m - 1);
    }
  }

  /** The totals of all bins add up to the number of rows. */
  lemma {:induction false} TotalsAddUp(rows: seq<Row>, n: nat)
    requires n <= |rows|
    ensures SumTotals(rows, n, Keys(rows, n), |Keys(rows, n)|) == n
  {
    if n > 0 {
      var before, after, key := Keys(rows, n - 1), Keys(rows, n), KeyOf(rows[n - 1]);
      TotalsAddUp(rows, n - 1);
      KeysDistinct(rows, n);
      SumOneMore(rows, n - 1, after, |after|);
      assert after[..|after|] == after;
      if key !in before {
        SumPrefix(rows, n - 1, before, [key], |before|);
        NewKeyCountsZero(rows, n - 1, key);
      }
    }
  }

  /** Two rows share a bin exactly when their source, model and version agree and no bound splits their scores. */
  lemma SameBinExactly(a: Row, b: Row)
    requires Reviewed(a) && Reviewed(b)
    ensures KeyOf(a) == KeyOf(b) <==>
            && a.source == b.source && a.model == b.model && a.version == b.version
            && forall bound :: 0 < bound < 10 ==>
                 (a.score.value >= (10 * bound) as real <==> b.score.value >= (10 * bound) as real)
  {
    ScoreInItsBin(a.score.value);
    ScoreInItsBin(b.score.value);
    var low, high := Lower(a.score.value), Lower(b.score.value);
    if low < high {
      assert b.score.value >= (10 * (high / 10)) as real && a.score.value < (10 * (high / 10)) as real;
    } else if high < low {
      assert a.score.value >= (10 * (low / 10)) as real && b.score.value < (10 * (low / 10)) as real;
    }
  }

  /** Every bin is `[lower, lower + 10)`, the last one with 100, and a row's score lies in its bin. */
  lemma ScoreInItsBin(score: real)
    requires 0.0 <= score <= 100.0
    ensures var lower := Lower(score);
            && 0 <= lower <= 90 && lower % 10 == 0
            && lower as real <= score <= (lower + 10) as real
            && (lower < 90 ==> score < (lower + 10) as real)
  {
    var k := (score / 10.0).Floor;
    assert k as real <= score / 10.0 < (k + 1) as real;
    assert 10.0 * (score / 10.0) == score;
    assert (k * 10) as real == 10.0 * k as real && (k * 10 + 10) as real == 10.0 * (k + 1) as real;
  }

  lemma {:induction false} CorrectAtMostTotal(rows: seq<Row>, n: nat, key: Key)
    requires n <= |rows|
    ensures Correct(rows, n, key) <= Total(rows, n, key)
    ensures key in Keys(rows, n) ==> Total(rows, n, key) >= 1
  {
    if n > 0 {
      CorrectAtMostTotal(rows, n - 1, key);
    }
  }

  // ---------------------------------------------------------------- the reported bins

  datatype Bin = Bin(key: Key, upper: int, total: nat, correct: nat, agreement: real, low: real, high: real)

  /** `Math.sqrt`, in exact reals. */
  ghost predicate IsSqrt(sqrt: real -> real) { forall x :: x >= 0.0 ==> IsRoot(sqrt(x), x) }

  lemma SpreadIsPositive(p: real, n: int)
    requires 0.0 <= p <= 1.0 && n >= 1
    ensures Spread(p, n) >= 0.0
  {
    Product(p, 1.0 - p);
    DivideLess(0.0, p * (1.0 - p), n as real);
    assert 4 * n * n > 0;
    DivideLess(0.0, Z * Z, (4 * n * n) as real);
  }

  /** A bin as reported: its counts, and an interval of plausible rates that needs no clamping. */
  ghost predicate Reported(rows: seq<Row>, key: Key, b: Bin)
  {
    && b.key == key && b.upper == key.lower + 10
    && b.total == Total(rows, |rows|, key) >= 1 && b.correct == Correct(rows, |rows|, key) <= b.total
    && b.agreement == Agreement(b.correct, b.total)
    && 0.0 <= b.low <= b.agreement <= b.high <= 1.0
    && forall q :: b.low <= q <= b.high <==> Plausible(b.agreement, b.total, q)
  }

  /** One element of `bins`. */
  method ReportBin(sqrt: real -> real, key: Key, group: Group) returns (b: Bin)
    requires IsSqrt(sqrt) && 1 <= group.total && group.correct <= group.total
    ensures b.key == key && b.upper == key.lower + 10 && b.total == group.total && b.correct == group.correct
    ensures b.agreement == Agreement(b.correct, b.total)
    ensures 0.0 <= b.low <= b.agreement <= b.high <= 1.0
    ensures forall q :: b.low <= q <= b.high <==> Plausible(b.agreement, b.total, q)
  {
    var n := group.total;
    var p := Agreement(group.correct, n);
    SpreadIsPositive(p, n);
    var root := sqrt(Spread(p, n));
    var center, margin := Center(p, n), Margin(root, n);
    WilsonInUnit(group.correct, n, root);
    forall q ensures center - margin <= q <= center + margin <==> Plausible(p, n, q) {
      WilsonExactly(p, n, root, q);
    }
    var low := if center - margin > 0.0 then center - margin else 0.0;
    var high := if center + margin < 1.0 then center + margin else 1.0;
    b := Bin(key, key.lower + 10, n, group.correct, p, low, high);
  }

  /** `calibrateInternalScores`: one reported bin per key, in order, or `None` when a row is refused. */
  method CalibrateInternalScores(sqrt: real -> real, rows: seq<Row>) returns (bins: Option<seq<Bin>>)
    requires IsSqrt(sqrt)
    ensures bins.Some? <==> AllUsable(rows, |rows|)
    ensures bins.Some? ==> |bins.value| == |Keys(rows, |rows|)|
    ensures bins.Some? ==> forall i :: 0 <= i < |bins.value| ==> Reported(rows, Keys(rows, |rows|)[i], bins.value[i])
  {
    var grouped, at := GroupScores(rows);
    if !grouped.Grouped? {
      assert !Usable(rows, at);
      return None;
    }
    var order, list := grouped.order, [];
    for i := 0 to |order|
      invariant |list| == i && forall k :: 0 <= k < i ==> Reported(rows, order[k], list[k])
    {
      CorrectAtMostTotal(rows, |rows|, order[i]);
      var b := ReportBin(sqrt, order[i], grouped.groups[order[i]]);
      list := list + [b];
    }
    bins := Some(list);
  }
}
