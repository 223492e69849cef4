/**
 * The asynchronous `/run-task` route (engine/src/run-routes.ts) and its spool of undelivered results
 * (engine/src/delivery/terminal-callback.ts) within one engine process. A handler runs without interruption up to its
 * first `await`, so acceptance is one step; the run itself, the delivery, the `finally` block and the two halves of a
 * redelivery are later steps that interleave with everything else.
 */
module RunRoutes {
  import opened Wrappers
  import opened Texts
  import opened TextLaws
  import opened UpdateAdmission
  import opened SpoolPaths

  type Run = nat
  type Sender = nat

  datatype Stage = Working | Delivering | Closing | Closed

  /**
   * An accepted run: its execution key, whether it asked for a callback, the file that an undelivered result goes to,
   * and whether a redelivery sends what it finds there.
   */
  datatype Accepted = Accepted(testId: TestId, key: string, callback: bool, token: bool, file: Path, sendable: bool,
                               stage: Stage)

  /** A run as it is accepted: redelivery skips an entry without an execution id or without a token. */
  function NewRun(dir: Path, testId: TestId, callback: bool, token: bool): Accepted
  {
    Accepted(testId, KeyOf(testId), callback, token,
             PathOf(dir, testId), token && testId.Some? && testId.value != "", Working)
  }

  /** A redelivery that has read a file and waits for the backend. */
  datatype Sending = Sending(file: Path, run: Run)

  datatype State = State(
    dir: Path,                        // the spool directory
    runs: map<Run, Accepted>,
    activeKeys: set<string>,          // activeExecutionIds
    leases: set<Run>,                 // run-task leases in the admission table
    spool: map<Path, Run>,            // whose result each file holds, also outside the directory
    sending: map<Sender, Sending>,    // redeliveries in progress
    acked: set<Run>,                  // results acknowledged by the backend
    marker: Marker)

  datatype Event =
    | Post(run: Run, testId: TestId, callback: bool, token: bool)
    | TaskEnds(run: Run)                       // runTask resolves or throws
    | Delivered(run: Run)                      // the callback is acknowledged
    | DeliveryFails(run: Run)                  // ... or the result is written to its file, over whatever is there
    | Finally(run: Run)
    | RedeliveryReads(sender: Sender, file: Path)
    | RedeliveryEnds(sender: Sender, acknowledged: bool)   // acknowledged: the file is unlinked, whatever it holds now
    | MarkerChanges(marker: Marker)

  datatype Reply = Started | AlreadyStarted | Blocked

  function KeyOf(testId: TestId): string { if testId.Some? then Trim(testId.value) else "" }

  function ReplyTo(s: State, testId: TestId): Reply
  {
    var key := KeyOf(testId);
    if key != "" && key in s.activeKeys then AlreadyStarted
    else if !AdmissionOpen(ReadMarker(true, s.marker)) then Blocked
    else Started
  }

  predicate At(s: State, run: Run, stage: Stage) { run in s.runs && s.runs[run].stage == stage }

  function Go(s: State, run: Run, stage: Stage): State
    requires run in s.runs
  {
    s.(runs := s.runs[run := s.runs[run].(stage := stage)])
  }

  function Step(s: State, e: Event): Option<State>
  {
    match e
    case Post(run, testId, callback, token) =>
      if run in s.runs then None
      else if !ReplyTo(s, testId).Started? then Some(s)
      else
        var key := KeyOf(testId);
        Some(s.(runs := s.runs[run := NewRun(s.dir, testId, callback, token)],
                leases := s.leases + {run},
                activeKeys := if key != "" then s.activeKeys + {key} else s.activeKeys))
    case TaskEnds(run) =>
      if At(s, run, Working) then Some(Go(s, run, if s.runs[run].callback then Delivering else Closing)) else None
    case Delivered(run) =>
      if At(s, run, Delivering) then Some(Go(s, run, Closing).(acked := s.acked + {run})) else None
    case DeliveryFails(run) =>
      if At(s, run, Delivering) then Some(Go(s, run, Closing).(spool := s.spool[s.runs[run].file := run])) else None
    case Finally(run) =>
      if At(s, run, Closing) then
        var key := s.runs[run].key;
        Some(Go(s, run, Closed).(
               leases := s.leases - {run},
               activeKeys := if key != "" then s.activeKeys - {key} else s.activeKeys))
      else None
    case RedeliveryReads(sender, file) =>
      if sender !in s.sending && CanSend(s, file) then
        Some(s.(sending := s.sending[sender := Sending(file, s.spool[file])]))
      else None
    case RedeliveryEnds(sender, acknowledged) =>
      if sender !in s.sending then None
      else if acknowledged then
        Some(s.(sending := s.sending - {sender}, acked := s.acked + {s.sending[sender].run},
                spool := s.spool - {s.sending[sender].file}))
      else Some(s.(sending := s.sending - {sender}))
    case MarkerChanges(marker) => Some(s.(marker := marker))
  }

  /** The file is listed and what it holds may be sent. */
  predicate CanSend(s: State, file: Path)
  {
    file in s.spool && Listed(s.dir, file) && s.spool[file] in s.runs && s.runs[s.spool[file]].sendable
  }

  predicate InFlight(s: State, run: Run) { run in s.runs && !s.runs[run].stage.Closed? }

  predicate Init(s: State)
  {
    s.runs == map[] && s.activeKeys == {} && s.leases == {} && s.spool == map[] && s.sending == map[] && s.acked == {}
  }

  predicate IsRun(states: seq<State>, events: seq<Event>)
  {
    && |states| == |events| + 1
    && Init(states[0])
    && forall i :: 0 <= i < |events| ==> Step(states[i], events[i]) == Some(states[i + 1])
  }

  // ---------------------------------------------------------------- one run per execution id

  ghost predicate KeyInv(s: State)
  {
    && (forall r :: InFlight(s, r) <==> r in s.leases)
    && (forall r :: r in s.leases && s.runs[r].key != "" ==> s.runs[r].key in s.activeKeys)
    && (forall q, r :: q in s.leases && r in s.leases && s.runs[q].key == s.runs[r].key != "" ==> q == r)
  }

  lemma StepKeepsKeyInv(s: State, e: Event, s': State)
    requires KeyInv(s) && Step(s, e) == Some(s')
    ensures KeyInv(s')
  {
  }

  lemma {:induction false} RunKeepsKeyInv(states: seq<State>, events: seq<Event>, i: nat)
    requires IsRun(states, events) && i < |states|
    ensures KeyInv(states[i])
  {
    if i > 0 {
      RunKeepsKeyInv(states, events, i - 1);
      StepKeepsKeyInv(states[i - 1], events[i - 1], states[i]);
    }
  }

  /** At most one run per non-empty execution id is in flight. */
  lemma OneRunPerKey(states: seq<State>, events: seq<Event>, i: nat, q: Run, r: Run)
    requires IsRun(states, events) && i < |states| && InFlight(states[i], q) && InFlight(states[i], r)
    requires states[i].runs[q].key == states[i].runs[r].key != ""
    ensures q == r
  {
    RunKeepsKeyInv(states, events, i);
  }

  ghost predicate ActiveInv(s: State)
  {
    forall key :: key in s.activeKeys ==> key != "" && exists r :: InFlight(s, r) && s.runs[r].key == key
  }

  lemma StepKeepsActive(s: State, e: Event, s': State)
    requires KeyInv(s) && ActiveInv(s) && Step(s, e) == Some(s')
    ensures ActiveInv(s')
  {
    forall key | key in s'.activeKeys ensures key != "" && exists r :: InFlight(s', r) && s'.runs[r].key == key {
      if e.Post? && key !in s.activeKeys {
        assert InFlight(s', e.run) && s'.runs[e.run].key == key;
      } else {
        var r :| InFlight(s, r) && s.runs[r].key == key;
        assert InFlight(s', r) && s'.runs[r].key == key;
      }
    }
  }

  lemma {:induction false} RunKeepsActive(states: seq<State>, events: seq<Event>, i: nat)
    requires IsRun(states, events) && i < |states|
    ensures ActiveInv(states[i])
  {
    if i > 0 {
      RunKeepsActive(states, events, i - 1);
      RunKeepsKeyInv(states, events, i - 1);
      StepKeepsActive(states[i - 1], events[i - 1], states[i]);
    }
  }

  /** A duplicate is refused exactly while the run it duplicates is in flight. */
  lemma DuplicateIsInFlight(states: seq<State>, events: seq<Event>, i: nat, testId: TestId)
    requires IsRun(states, events) && i < |states|
    ensures ReplyTo(states[i], testId).AlreadyStarted? <==>
            KeyOf(testId) != "" && exists r :: InFlight(states[i], r) && states[i].runs[r].key == KeyOf(testId)
  {
    RunKeepsActive(states, events, i);
    RunKeepsKeyInv(states, events, i);
  }

  /** A request is started exactly when it is no duplicate and no marker is there. */
  lemma StartedExactly(states: seq<State>, events: seq<Event>, i: nat, testId: TestId)
    requires IsRun(states, events) && i < |states|
    ensures ReplyTo(states[i], testId).Started? <==>
            && states[i].marker.NoMarker?
            && (KeyOf(testId) == "" || forall r :: InFlight(states[i], r) ==> states[i].runs[r].key != KeyOf(testId))
  {
    DuplicateIsInFlight(states, events, i, testId);
  }

  /** The key of a request is its trimmed test id. */
  lemma KeyExactly(testId: TestId, key: string)
    ensures KeyOf(testId) == key <==> if testId.Some? then IsTrimOf(testId.value, key) else key == ""
  {
    if testId.Some? {
      TrimExactly(testId.value, key);
    }
  }

  // ---------------------------------------------------------------- undelivered results

  /** A run that asked for a callback and whose delivery has been tried. */
  predicate Tried(s: State, r: Run)
  {
    r in s.runs && s.runs[r].callback && (s.runs[r].stage.Closing? || s.runs[r].stage.Closed?)
  }

  /** The result of the run is in its file. */
  predicate Spooled(s: State, r: Run) { r in s.runs && s.runs[r].file in s.spool && s.spool[s.runs[r].file] == r }

  /** A file holds a tried result of its own test id that is not acknowledged. */
  predicate EntryOk(s: State, f: Path)
    requires f in s.spool
  {
    Tried(s, s.spool[f]) && s.runs[s.spool[f]].file == f && s.spool[f] !in s.acked
  }

  predicate SendingOk(s: State, d: Sender)
    requires d in s.sending
  {
    Tried(s, s.sending[d].run) && s.runs[s.sending[d].run].file == s.sending[d].file
  }

  /** Files and redeliveries hold results whose delivery was tried; a result on file is not acknowledged. */
  ghost predicate SpoolInv(s: State)
  {
    && (forall f :: f in s.spool ==> EntryOk(s, f))
    && (forall d :: d in s.sending ==> SendingOk(s, d))
    && (forall r :: r in s.acked ==> Tried(s, r))
    && (forall r :: At(s, r, Delivering) ==> s.runs[r].callback)
  }

  lemma TriedStays(s: State, e: Event, s': State, r: Run)
    requires Step(s, e) == Some(s') && Tried(s, r)
    ensures Tried(s', r) && s'.runs[r].file == s.runs[r].file && s'.runs[r].sendable == s.runs[r].sendable
  {
  }

  lemma EntryKeeps(s: State, e: Event, s': State, f: Path)
    requires SpoolInv(s) && Step(s, e) == Some(s') && f in s'.spool
    ensures EntryOk(s', f)
  {
    if f in s.spool && s'.spool[f] == s.spool[f] {
      assert EntryOk(s, f);
      TriedStays(s, e, s', s.spool[f]);
      if e.RedeliveryEnds? && e.acknowledged {
        assert SendingOk(s, e.sender);
      }
    } else {
      assert e.DeliveryFails? && At(s, e.run, Delivering) && !Tried(s, e.run);
    }
  }

  lemma SendingKeeps(s: State, e: Event, s': State, d: Sender)
    requires SpoolInv(s) && Step(s, e) == Some(s') && d in s'.sending
    ensures SendingOk(s', d)
  {
    if d in s.sending {
      assert SendingOk(s, d);
      TriedStays(s, e, s', s.sending[d].run);
    } else {
      assert EntryOk(s, e.file);
    }
  }

  lemma AckedKeeps(s: State, e: Event, s': State, r: Run)
    requires SpoolInv(s) && Step(s, e) == Some(s') && r in s'.acked
    ensures Tried(s', r)
  {
    if r in s.acked {
      TriedStays(s, e, s', r);
    } else if e.RedeliveryEnds? {
      assert SendingOk(s, e.sender);
    } else {
      assert At(s, r, Delivering);
    }
  }

  lemma StepKeepsSpool(s: State, e: Event, s': State)
    requires SpoolInv(s) && Step(s, e) == Some(s')
    ensures SpoolInv(s')
  {
    forall f | f in s'.spool ensures EntryOk(s', f) {
      EntryKeeps(s, e, s', f);
    }
    forall d | d in s'.sending ensures SendingOk(s', d) {
      SendingKeeps(s, e, s', d);
    }
    forall r | r in s'.acked ensures Tried(s', r) {
      AckedKeeps(s, e, s', r);
    }
  }

  lemma {:induction false} RunKeepsSpool(states: seq<State>, events: seq<Event>, i: nat)
    requires IsRun(states, events) && i < |states|
    ensures SpoolInv(states[i])
  {
    if i > 0 {
      RunKeepsSpool(states, events, i - 1);
      StepKeepsSpool(states[i - 1], events[i - 1], states[i]);
    }
  }

  /** The files that the status counts and redelivery looks at. */
  function ListedFiles(s: State): set<Path> { set f | f in s.spool && Listed(s.dir, f) }

  predicate DrainableState(s: State)
  {
    Drainable(ReadMarker(true, s.marker), |s.leases|, if ListedFiles(s) == {} then Empty else Pending)
  }

  /** The result of the run is in a file outside the directory. */
  predicate Outside(s: State, r: Run) { Spooled(s, r) && !Listed(s.dir, s.runs[r].file) }

  /** The entry of an unacknowledged result is overwritten or unlinked by a step that does not acknowledge it. */
  predicate Displaces(s: State, e: Event, r: Run)
  {
    var next := Step(s, e);
    next.Some? && Spooled(s, r) && !Spooled(next.value, r) && r !in next.value.acked
  }

  /** A redelivery of this very result is acknowledged. */
  predicate Acknowledges(s: State, e: Event, r: Run)
  {
    e.RedeliveryEnds? && e.acknowledged && e.sender in s.sending && s.sending[e.sender].run == r
  }

  lemma TriedStep(s: State, e: Event, s': State, r: Run)
    requires Step(s, e) == Some(s') && Tried(s', r)
    ensures Tried(s, r) || r in s'.acked || Spooled(s', r)
  {
  }

  /** A tried result is acknowledged, on file, or was displaced. */
  lemma {:induction false} TriedOutcome(states: seq<State>, events: seq<Event>, i: nat, r: Run) returns (m: nat)
    requires IsRun(states, events) && i < |states| && Tried(states[i], r)
    ensures || r in states[i].acked || Spooled(states[i], r)
            || (m < i && Displaces(states[m], events[m], r)
                && forall k :: m < k < i ==> !Acknowledges(states[k], events[k], r))
  {
    m := 0;
    if i > 0 {
      var s, e, s' := states[i - 1], events[i - 1], states[i];
      TriedStep(s, e, s', r);
      if Tried(s, r) && r !in s'.acked && !Spooled(s', r) {
        m := TriedOutcome(states, events, i - 1, r);
        if Spooled(s, r) {
          m := i - 1;
        }
      }
    }
  }

  lemma AckedStep(s: State, e: Event, s': State, r: Run)
    requires Step(s, e) == Some(s') && Tried(s, r) && r !in s.acked
    ensures Tried(s', r) && (r in s'.acked <==> Acknowledges(s, e, r))
  {
    TriedStays(s, e, s', r);
  }

  lemma {:induction false} StaysUnacknowledged(states: seq<State>, events: seq<Event>, m: nat, i: nat, r: Run)
    requires IsRun(states, events) && m <= i < |states| && Tried(states[m], r) && r !in states[m].acked
    requires forall k :: m <= k < i ==> !Acknowledges(states[k], events[k], r)
    ensures Tried(states[i], r) && r !in states[i].acked
    decreases i
  {
    if m < i {
      StaysUnacknowledged(states, events, m, i - 1, r);
      assert Step(states[i - 1], events[i - 1]) == Some(states[i - 1 + 1]);
      AckedStep(states[i - 1], events[i - 1], states[i], r);
    }
  }

  /** The result of `r` was displaced before `i`, and no copy of it was acknowledged afterwards. */
  predicate LostBefore(states: seq<State>, events: seq<Event>, i: nat, r: Run)
    requires |events| < |states| && i < |states|
  {
    exists m :: 0 <= m < i && m < |events| && Displaces(states[m], events[m], r)
                && forall k :: m < k < i && k < |events| ==> !Acknowledges(states[k], events[k], r)
  }

  /**
   * When the status reports drainable, no run is in flight, and the backend has acknowledged the result of a run that
   * asked for a callback exactly when no other result displaced it for good and it is not in a file outside the
   * directory.
   */
  lemma DrainableMeansAcknowledgedExactly(states: seq<State>, events: seq<Event>, i: nat, r: Run)
    requires IsRun(states, events) && i < |states| && r in states[i].runs && DrainableState(states[i])
    ensures states[i].runs[r].stage == Closed
    ensures states[i].runs[r].callback ==>
              (r in states[i].acked <==> !LostBefore(states, events, i, r) && !Outside(states[i], r))
  {
    RunKeepsKeyInv(states, events, i);
    assert states[i].leases == {} && !InFlight(states[i], r);
    if states[i].runs[r].callback {
      var m := TriedOutcome(states, events, i, r);
      if LostBefore(states, events, i, r) {
        LostIsUnacknowledged(states, events, i, r);
      }
      RunKeepsSpool(states, events, i);
      if Spooled(states[i], r) {
        assert EntryOk(states[i], states[i].runs[r].file);
        assert states[i].runs[r].file !in ListedFiles(states[i]);
      }
    }
  }

  lemma LostIsUnacknowledged(states: seq<State>, events: seq<Event>, i: nat, r: Run)
    requires IsRun(states, events) && i < |states| && LostBefore(states, events, i, r)
    ensures r !in states[i].acked
  {
    var m :| 0 <= m < i && m < |events| && Displaces(states[m], events[m], r)
             && forall k :: m < k < i && k < |events| ==> !Acknowledges(states[k], events[k], r);
    var s, e, s' := states[m], events[m], states[m + 1];
    assert Step(s, e) == Some(s');
    RunKeepsSpool(states, events, m);
    assert EntryOk(s, s.runs[r].file);
    TriedStays(s, e, s', r);
    StaysUnacknowledged(states, events, m + 1, i, r);
  }

  // ---------------------------------------------------------------- one result per file at a time

  /** A result is written to its file while the file or a redelivery of it exists. */
  predicate Overlaps(s: State, e: Event)
  {
    && e.DeliveryFails? && e.run in s.runs
    && (s.runs[e.run].file in s.spool || exists d :: d in s.sending && s.sending[d].file == s.runs[e.run].file)
  }

  /** A result is written to a file outside the directory. */
  predicate Strays(s: State, e: Event) { e.DeliveryFails? && e.run in s.runs && !Listed(s.dir, s.runs[e.run].file) }

  /** Every undelivered result gets a listed file of its own. */
  predicate Tidy(states: seq<State>, events: seq<Event>)
    requires |events| <= |states|
  {
    forall i :: 0 <= i < |events| ==> !Overlaps(states[i], events[i]) && !Strays(states[i], events[i])
  }

  /** In such a run a redelivery holds what its file holds, or what was acknowledged. */
  ghost predicate ExclusiveInv(s: State)
  {
    && SpoolInv(s)
    && (forall r :: Tried(s, r) ==> r in s.acked || Spooled(s, r))
    && (forall f :: f in s.spool ==> Listed(s.dir, f))
    && (forall d :: d in s.sending && s.sending[d].file in s.spool ==> s.spool[s.sending[d].file] == s.sending[d].run)
  }

  lemma ExclusiveTried(s: State, e: Event, s': State, r: Run)
    requires ExclusiveInv(s) && Step(s, e) == Some(s') && !Overlaps(s, e) && Tried(s', r)
    ensures r in s'.acked || Spooled(s', r)
  {
    TriedStep(s, e, s', r);
    if Tried(s, r) && r !in s.acked {
      assert Spooled(s, r);
      if e.RedeliveryEnds? {
        assert SendingOk(s, e.sender);
      }
    }
  }

  lemma StepKeepsExclusive(s: State, e: Event, s': State)
    requires ExclusiveInv(s) && Step(s, e) == Some(s') && !Overlaps(s, e) && !Strays(s, e)
    ensures ExclusiveInv(s')
  {
    StepKeepsSpool(s, e, s');
    forall r | Tried(s', r) ensures r in s'.acked || Spooled(s', r) {
      ExclusiveTried(s, e, s', r);
    }
    forall d | d in s'.sending && s'.sending[d].file in s'.spool
      ensures s'.spool[s'.sending[d].file] == s'.sending[d].run
    {
      if e.DeliveryFails? {
        assert s.sending[d].file != s.runs[e.run].file;
      }
    }
  }

  lemma {:induction false} RunKeepsExclusive(states: seq<State>, events: seq<Event>, i: nat)
    requires IsRun(states, events) && Tidy(states, events) && i < |states|
    ensures ExclusiveInv(states[i])
  {
    if i > 0 {
      RunKeepsExclusive(states, events, i - 1);
      assert !Overlaps(states[i - 1], events[i - 1]) && !Strays(states[i - 1], events[i - 1]);
      StepKeepsExclusive(states[i - 1], events[i - 1], states[i]);
    }
  }

  /** If every undelivered result gets a listed file of its own, drainable means that every callback is acknowledged. */
  lemma DrainableMeansAcknowledged(states: seq<State>, events: seq<Event>, i: nat, r: Run)
    requires IsRun(states, events) && Tidy(states, events) && i < |states|
    requires r in states[i].runs && states[i].runs[r].callback && DrainableState(states[i])
    ensures r in states[i].acked
  {
    RunKeepsKeyInv(states, events, i);
    assert states[i].leases == {} && !InFlight(states[i], r);
    RunKeepsExclusive(states, events, i);
    assert forall f :: f in states[i].spool && Listed(states[i].dir, f) ==> f in ListedFiles(states[i]);
  }

  /** Every run has the file and the key of its test id, and is sent again exactly with a test id and a token. */
  predicate RunsNamed(s: State)
  {
    forall r :: r in s.runs ==> IsNamed(s.dir, s.runs[r])
  }

  predicate IsNamed(dir: Path, run: Accepted)
  {
    && run.file == PathOf(dir, run.testId) && run.key == KeyOf(run.testId)
    && (run.sendable <==> run.token && run.testId !in {None, Some("")})
  }

  lemma NewRunIsNamed(dir: Path, testId: TestId, callback: bool, token: bool)
    ensures IsNamed(dir, NewRun(dir, testId, callback, token))
  {
  }

  lemma RunsChange(s: State, e: Event, s': State, r: Run)
    requires Step(s, e) == Some(s') && r in s'.runs
    ensures s'.dir == s.dir
    ensures if r in s.runs then s'.runs[r] == s.runs[r].(stage := s'.runs[r].stage)
            else e.Post? && s'.runs[r] == NewRun(s.dir, e.testId, e.callback, e.token)
  {
  }

  lemma StepKeepsNames(s: State, e: Event, s': State)
    requires RunsNamed(s) && Step(s, e) == Some(s')
    ensures RunsNamed(s')
  {
    forall r | r in s'.runs ensures IsNamed(s'.dir, s'.runs[r]) {
      RunsChange(s, e, s', r);
      if r in s.runs {
        assert IsNamed(s.dir, s.runs[r]);
      } else {
        NewRunIsNamed(s.dir, e.testId, e.callback, e.token);
      }
    }
  }

  lemma {:induction false} RunKeepsNames(states: seq<State>, events: seq<Event>, i: nat)
    requires IsRun(states, events) && i < |states|
    ensures RunsNamed(states[i])
  {
    if i > 0 {
      RunKeepsNames(states, events, i - 1);
      StepKeepsNames(states[i - 1], events[i - 1], states[i]);
    }
  }

  /** With test ids that contain no slash, no result strays, and results of different ids do not share a file. */
  lemma PlainIdsShareNoFile(s: State, q: Run, r: Run)
    requires RunsNamed(s) && q in s.runs && r in s.runs
    requires s.runs[q].testId.Some? && IsPlain(s.runs[q].testId.value)
    requires s.runs[r].testId.Some? && IsPlain(s.runs[r].testId.value)
    ensures Listed(s.dir, s.runs[r].file)
    ensures s.runs[q].file == s.runs[r].file <==> s.runs[q].testId == s.runs[r].testId
  {
    PlainIsListed(s.dir, s.runs[r].testId.value);
    if s.runs[q].file == s.runs[r].file {
      PlainFilesDiffer(s.dir, s.runs[q].testId.value, s.runs[r].testId.value);
    }
  }
}
