/** Safety of every run of the update transaction: what a reader of the updater relies on. */
module UpdateSafety {
  import opened Wrappers
  import opened UpdateTransaction
  import opened UpdateInvariant

  /** Every state of a benign run satisfies the invariant. */
  lemma {:induction false} RunKeepsInv(states: seq<State>, events: seq<Event>, i: nat)
    requires BenignRun(states, events) && i < |states|
    ensures Inv(states[i])
  {
    if i == 0 {
      InitInv(states[0]);
    } else {
      RunKeepsInv(states, events, i - 1);
      StepKeepsInv(states[i - 1], events[i - 1], states[i]);
    }
  }

  // ---------------------------------------------------------------- what a step records

  /** The project being replaced is up (and was not just restored). */
  predicate OriginalUp(s: State) { s.containers.Old? && !s.containers.restored }

  /** A write accepted from a client. */
  predicate ClientWrite(e: Event) { e.OldWrites? || e.CandidateServes? || e.RestoredWrites? }

  /** The save of `committed` fails in a process that survives. */
  predicate FailsCommit(s: State, e: Event) { e.SaveFails? && s.process.Running? && s.process.pc.Commit? }

  function OneIf(condition: bool): nat { if condition then 1 else 0 }

  function BaselineOf(s: State): map<Volume, Files> { ContentsOf(s.volumes, s.history.named) }

  /** What is known since the stop is carried on, with the writes of a restored project. */
  predicate Carries(s: State, e: Event, h: History, h': History)
  {
    && h.stopped && h'.home == h.home && h'.baseline == h.baseline && h'.captured == h.captured
    && h'.owed == (if e.RestoredWrites? then OwedAfter(s, e.writes) else h.owed)
    && h'.mended == h.mended + OneIf(e.RestoredWrites?)
    && (h'.retracted ==> h.retracted || FailsCommit(s, e))
  }

  /** A stopped project stays stopped, or this is the step that stops it. */
  predicate Records(s: State, e: Event, s': State)
  {
    var h, h' := s.history, s'.history;
    && h'.accepted == h.accepted + OneIf(ClientWrite(e))
    && (h'.stopped ==>
          && h'.named == h.named
          && (Carries(s, e, h, h')
              || (OriginalUp(s) && !ClientWrite(e)
                  && h' == Stopped(h, s.containers.root, BaselineOf(s)).(live := h'.live))))
  }

  lemma PrepareRecords(s: State, s': State)
    requires s.process.Running? && AdvancePrepare(s) == Some(s')
    ensures Records(s, Advance, s')
  {
  }

  lemma ReconcileRecords(s: State, s': State)
    requires s.process.Running? && s.process.tx in s.journals && AdvanceReconcile(s) == Some(s')
    ensures Records(s, Advance, s')
  {
  }

  lemma RollbackRecords(s: State, s': State)
    requires s.process.Running? && s.process.tx in s.journals && AdvanceRollback(s) == Some(s')
    ensures Records(s, Advance, s')
  {
  }

  lemma CaptureRecords(s: State, s': State)
    requires s.process.Running? && s.process.tx in s.journals && AdvanceCapture(s) == Some(s')
    ensures Records(s, Advance, s')
  {
  }

  lemma ReleaseRecords(s: State, s': State)
    requires s.process.Running? && s.process.tx in s.journals && AdvanceRelease(s) == Some(s')
    ensures Records(s, Advance, s')
  {
  }

  lemma AdvanceRecords(s: State, s': State)
    requires s.process.Running? && Advanced(s) == Some(s')
    ensures Records(s, Advance, s')
  {
    var pc := s.process.pc;
    if pc.Scan? {
      assert s'.history == s.history;
    } else if InPreparation(pc) {
      PrepareRecords(s, s');
    } else if InReconcile(pc) {
      ReconcileRecords(s, s');
    } else if InRollback(pc) || pc.RbGiveUp? {
      RollbackRecords(s, s');
    } else if InCapture(pc) {
      CaptureRecords(s, s');
    } else {
      ReleaseRecords(s, s');
    }
  }

  lemma SaveFailsRecords(s: State, s': State)
    requires Step(s, SaveFails) == Some(s')
    ensures Records(s, SaveFails, s')
  {
    assert s'.history == s.history
      || (FailsCommit(s, SaveFails) && s'.history == s.history.(live := None, retracted := true));
  }

  lemma ProjectRecords(s: State, e: Event, s': State)
    requires Step(s, e) == Some(s') && (ClientWrite(e) || e.CandidateWrites?)
    ensures Records(s, e, s')
  {
  }

  lemma OtherRecords(s: State, e: Event, s': State)
    requires Step(s, e) == Some(s') && !ClientWrite(e) && !e.CandidateWrites? && !e.Advance? && !e.SaveFails?
    ensures Records(s, e, s')
  {
    assert s'.history == s.history || s'.history == s.history.(stopped := false);
  }

  lemma StepRecords(s: State, e: Event, s': State)
    requires Step(s, e) == Some(s')
    ensures Records(s, e, s')
  {
    if e.Advance? {
      AdvanceRecords(s, s');
    } else if e.SaveFails? {
      SaveFailsRecords(s, s');
    } else if ClientWrite(e) || e.CandidateWrites? {
      ProjectRecords(s, e, s');
    } else {
      OtherRecords(s, e, s');
    }
  }

  // ---------------------------------------------------------------- since the project stopped

  /** `j` is the last moment before `i` at which the replaced project was up. */
  predicate LastUp(states: seq<State>, j: nat, i: nat)
  {
    && j < i < |states|
    && OriginalUp(states[j])
    && forall k :: j < k <= i ==> !OriginalUp(states[k])
  }

  /** ... and it has been known as stopped ever since. */
  predicate Since(states: seq<State>, j: nat, i: nat)
  {
    LastUp(states, j, i) && !states[j].history.stopped && forall k :: j < k <= i ==> states[k].history.stopped
  }

  /** What the argument about the past needs to know of a run. */
  predicate Chronicle(states: seq<State>, events: seq<Event>)
  {
    && |states| == |events| + 1
    && !states[0].history.stopped
    && (forall i :: 0 <= i < |states| && OriginalUp(states[i]) ==> !states[i].history.stopped)
    && (forall i :: 0 <= i < |events| ==> Records(states[i], events[i], states[i + 1]))
  }

  lemma UpIsNotStopped(s: State)
    requires Core(s) && OriginalUp(s)
    ensures !s.history.stopped
  {
  }

  lemma RunIsChronicle(states: seq<State>, events: seq<Event>)
    requires BenignRun(states, events)
    ensures Chronicle(states, events)
  {
    forall i | 0 <= i < |states| && OriginalUp(states[i]) ensures !states[i].history.stopped {
      RunKeepsInv(states, events, i);
      UpIsNotStopped(states[i]);
    }
    forall i | 0 <= i < |events| ensures Records(states[i], events[i], states[i + 1]) {
      assert Step(states[i], events[i]) == Some(states[i + 1]);
      StepRecords(states[i], events[i], states[i + 1]);
    }
  }

  lemma {:induction false} StoppedSince(states: seq<State>, events: seq<Event>, i: nat) returns (j: nat)
    requires Chronicle(states, events) && i < |states| && states[i].history.stopped
    ensures Since(states, j, i)
    ensures states[i].history.baseline == BaselineOf(states[j]) && states[i].history.named == states[j].history.named
    ensures states[i].history.home == states[j].containers.root
    ensures states[i].history.captured == states[j].history.accepted && !ClientWrite(events[j])
  {
    var s, e := states[i - 1], events[i - 1];
    assert Records(s, e, states[i - 1 + 1]);
    if s.history.stopped {
      j := StoppedSince(states, events, i - 1);
    } else {
      j := i - 1;
    }
  }

  // ---------------------------------------------------------------- counting events

  function Count(p: Event -> bool, events: seq<Event>, n: nat): nat
    requires n <= |events|
  {
    if n == 0 then 0 else Count(p, events, n - 1) + OneIf(p(events[n - 1]))
  }

  lemma {:induction false} CountDiffers(p: Event -> bool, events: seq<Event>, j: nat, i: nat)
    requires j <= i <= |events|
    ensures Count(p, events, j) <= Count(p, events, i)
    ensures Count(p, events, j) < Count(p, events, i) <==> exists m :: j <= m < i && p(events[m])
  {
    if j < i {
      CountDiffers(p, events, j, i - 1);
    }
  }

  function IsClientWrite(): Event -> bool { e => ClientWrite(e) }

  function ClientWrites(events: seq<Event>, n: nat): nat
    requires n <= |events|
  {
    Count(IsClientWrite(), events, n)
  }

  /** The history counter is the number of client writes, whoever accepted them. */
  lemma {:induction false} AcceptedCountsClientWrites(states: seq<State>, events: seq<Event>, i: nat)
    requires IsRun(states, events) && i < |states|
    ensures states[i].history.accepted == states[0].history.accepted + ClientWrites(events, i)
  {
    if i > 0 {
      AcceptedCountsClientWrites(states, events, i - 1);
      assert Step(states[i - 1], events[i - 1]) == Some(states[i - 1 + 1]);
      StepRecords(states[i - 1], events[i - 1], states[i]);
    }
  }

  lemma {:induction false} RetractedSince(states: seq<State>, events: seq<Event>, j: nat, i: nat) returns (m: nat)
    requires Chronicle(states, events) && Since(states, j, i) && states[i].history.retracted
    ensures j < m < i && FailsCommit(states[m], events[m])
    decreases i
  {
    assert Records(states[i - 1], events[i - 1], states[i - 1 + 1]);
    if FailsCommit(states[i - 1], events[i - 1]) && j < i - 1 {
      m := i - 1;
    } else {
      m := RetractedSince(states, events, j, i - 1);
    }
  }

  // ---------------------------------------------------------------- rollback gives back the stopped contents

  /** A restored project writes to a volume that has no recorded backup. */
  predicate Early(s: State, e: Event, v: Volume) { e.RestoredWrites? && v in e.writes && !Backed(s, v) }

  /** The last such write from moment `j` on, before moment `i`. */
  function EarlyWrite(states: seq<State>, events: seq<Event>, j: nat, i: nat, v: Volume): Option<int>
    requires i <= |events| <= |states|
    decreases i
  {
    if i <= j then None
    else if Early(states[i - 1], events[i - 1], v) then Some(events[i - 1].writes[v])
    else EarlyWrite(states, events, j, i - 1, v)
  }

  function Overlay(files: Files, early: Option<int>): Files
  {
    if early.Some? then Files(early.value, files.marker) else files
  }

  lemma {:induction false} OwedSince(states: seq<State>, events: seq<Event>, j: nat, i: nat, v: Volume)
    requires Chronicle(states, events) && Since(states, j, i) && v in BaselineOf(states[j])
    ensures v in states[i].history.owed
    ensures states[i].history.owed[v] == Overlay(BaselineOf(states[j])[v], EarlyWrite(states, events, j, i, v))
    decreases i
  {
    assert Records(states[i - 1], events[i - 1], states[i - 1 + 1]);
    if j < i - 1 {
      OwedSince(states, events, j, i - 1, v);
    } else {
      assert !Early(states[j], events[j], v);
      assert EarlyWrite(states, events, j, j, v) == None;
    }
  }

  predicate StartsOldProject(s: State, e: Event) { e.Advance? && s.process.Running? && s.process.pc.RbUp? }

  lemma RestoredState(s: State)
    requires Inv(s) && s.process.Running? && s.process.pc.RbUp?
    ensures s.history.live.Some? && s.history.live.value in s.journals && s.history.stopped
    ensures s.containers.Down? && AllClean(s)
    ensures s.history.live == Some(s.process.tx) && s.journals[s.process.tx].oldRoot == s.history.home
    ensures MarkerOf(s, s.journals[s.history.live.value].frontend) == None
  {
    var j := s.journals[s.history.live.value];
    var i :| 0 <= i < |s.history.named| && s.history.named[i] == j.frontend;
    assert Holds(s.volumes, s.history.owed, s.history.named[i]);
  }

  /**
   * Each time a rollback starts the old project, nothing is running, the maintenance marker is
   * absent, the tree it is started from is the one from which the project last ran, and every named
   * volume holds what it held at the last moment the project was up,
   * except for what a restored project has since written to a volume without a recorded backup:
   * of those writes it holds the last one. The run may contain any number of attempts, failures,
   * failed saves and crashes, also inside snapshots, markers and earlier rollbacks.
   */
  lemma RollbackRestoresStoppedContents(states: seq<State>, events: seq<Event>, i: nat) returns (j: nat)
    requires BenignRun(states, events) && i < |events| && StartsOldProject(states[i], events[i])
    ensures states[i].containers.Down?
    ensures LastUp(states, j, i)
    ensures states[i + 1].containers == Old(states[j].containers.root, true)
    ensures states[j].history.named == states[i].history.named
    ensures forall v :: v in states[i].history.named ==>
              Content(states[i].volumes, v) ==
                Overlay(Content(states[j].volumes, v), EarlyWrite(states, events, j, i, v))
    ensures var s := states[i];
            && s.history.live.Some? && s.history.live.value in s.journals
            && MarkerOf(s, s.journals[s.history.live.value].frontend) == None
  {
    var s := states[i];
    RunKeepsInv(states, events, i);
    RestoredState(s);
    RunIsChronicle(states, events);
    j := StoppedSince(states, events, i);
    assert Step(s, events[i]) == Some(states[i + 1]);
    OldProjectStarts(s, states[i + 1]);
    forall v | v in s.history.named
      ensures Content(s.volumes, v) == Overlay(Content(states[j].volumes, v), EarlyWrite(states, events, j, i, v))
    {
      var n :| 0 <= n < |s.history.named| && s.history.named[n] == v;
      assert Holds(s.volumes, s.history.owed, s.history.named[n]);
      OwedSince(states, events, j, i, v);
    }
  }

  lemma OldProjectStarts(s: State, s': State)
    requires s.process.Running? && s.process.pc.RbUp? && s.process.tx in s.journals && Step(s, Advance) == Some(s')
    ensures s'.containers == Old(s.journals[s.process.tx].oldRoot, true)
  {
  }

  predicate EndsRollback(s: State, e: Event) { e.Advance? && s.process.Running? && s.process.pc.RbFinish? }

  lemma FinishedState(s: State)
    requires Inv(s) && s.process.Running? && s.process.pc.RbFinish?
    ensures s.process.tx in s.journals && s.history.stopped && s.containers == Old(s.history.home, true)
  {
  }

  lemma RollbackEnds(s: State, s': State)
    requires s.process.Running? && s.process.pc.RbFinish? && s.process.tx in s.journals && s.containers.Old?
    requires Step(s, Advance) == Some(s')
    ensures s'.containers == Old(s.containers.root, false)
    ensures s'.journals == s.journals[s.process.tx := s.journals[s.process.tx].(phase := RolledBack)]
  {
  }

  /** When a rollback is recorded as done, the project runs that was replaced, from the tree from which it last ran. */
  lemma RolledBackRunsOldProject(states: seq<State>, events: seq<Event>, i: nat) returns (j: nat)
    requires BenignRun(states, events) && i < |events| && EndsRollback(states[i], events[i])
    ensures LastUp(states, j, i)
    ensures states[i + 1].containers == Old(states[j].containers.root, false)
    ensures var tx := states[i].process.tx;
            tx in states[i + 1].journals && states[i + 1].journals[tx].phase == RolledBack
  {
    RunKeepsInv(states, events, i);
    FinishedState(states[i]);
    RunIsChronicle(states, events);
    j := StoppedSince(states, events, i);
    assert Step(states[i], events[i]) == Some(states[i + 1]);
    RollbackEnds(states[i], states[i + 1]);
  }

  // ---------------------------------------------------------------- admission of the candidate

  /** An unfenced candidate has a journal in release_pending or committed, unless its commit is being retracted. */
  lemma AdmittedPhase(s: State)
    requires Inv(s) && Admitted(s)
    ensures var phase := s.journals[s.containers.tx].phase;
            phase == ReleasePending || phase == Committed || (s.history.stopped && s.history.retracted)
  {
    AdmittedIsReleased(s);
  }

  /** The update that the stopped project is being replaced by: the pending one, or the candidate that is up. */
  function Subject(s: State): Option<Transaction>
  {
    if s.history.live.Some? then s.history.live
    else if s.containers.Candidate? then Some(s.containers.tx)
    else None
  }

  lemma CandidateIsSubject(s: State)
    requires Core(s) && s.history.stopped && s.containers.Candidate?
    ensures Subject(s) == Some(s.containers.tx)
  {
  }

  lemma ReleasedIsSubject(s: State, tx: Transaction)
    requires Core(s) && s.history.live == Some(tx) && s.journals[tx].phase == ReleasePending && s.history.stopped
    ensures s.containers.Candidate? && s.containers.tx == tx
  {
  }

  lemma ReconcileSubject(s: State, s': State)
    requires Reconciles(s) && InReconcile(s.process.pc) && AdvanceReconcile(s) == Some(s') && s.history.stopped
    ensures Subject(s') == Subject(s)
  {
    ReleasedIsSubject(s, s.process.tx);
  }

  lemma RollbackSubject(s: State, s': State)
    requires Rolls(s) && RollsBack(s.process.pc) && AdvanceRollback(s) == Some(s')
    requires s.history.stopped && s'.history.stopped
    ensures Subject(s') == Subject(s)
  {
  }

  lemma CaptureSubject(s: State, s': State)
    requires s.process.Running? && s.process.tx in s.journals && AdvanceCapture(s) == Some(s') && s.history.live.Some?
    ensures Subject(s') == Subject(s)
  {
  }

  lemma ReleaseSubject(s: State, s': State)
    requires s.process.Running? && s.process.tx in s.journals && AdvanceRelease(s) == Some(s') && s.history.live.Some?
    requires s.process.pc.Commit? ==> s.containers.Candidate? && Subject(s) == Some(s.containers.tx)
    ensures Subject(s') == Subject(s)
  {
  }

  lemma PrepareSubject(s: State, s': State)
    requires s.process.Running? && AdvancePrepare(s) == Some(s') && s'.history.stopped
    ensures Subject(s') == Subject(s)
  {
  }

  predicate ProcessPoint(s: State) { s.process.Running? && s.process.tx in s.journals && ProcessOk(s) }

  lemma AttemptIsLive(s: State)
    requires ProcessPoint(s) && (InCapture(s.process.pc) || InRelease(s.process.pc))
    ensures s.history.live == Some(s.process.tx)
    ensures s.process.pc.Commit? ==> In(s, ReleasePending)
  {
  }

  lemma AttemptSubject(s: State, s': State)
    requires Inv(s) && s.process.Running? && (InCapture(s.process.pc) || InRelease(s.process.pc))
    requires s.process.tx in s.journals && s.history.stopped && Advanced(s) == Some(s')
    ensures Subject(s') == Subject(s)
  {
    AttemptIsLive(s);
    if InCapture(s.process.pc) {
      CaptureSubject(s, s');
    } else {
      if s.process.pc.Commit? {
        ReleasedIsSubject(s, s.process.tx);
      }
      ReleaseSubject(s, s');
    }
  }

  lemma AdvanceSubject(s: State, s': State)
    requires Inv(s) && s.process.Running? && Advanced(s) == Some(s') && s.history.stopped && s'.history.stopped
    ensures Subject(s') == Subject(s)
  {
    var pc := s.process.pc;
    if pc.Scan? {
      assert s'.history == s.history && s'.containers == s.containers;
    } else if InPreparation(pc) {
      PrepareSubject(s, s');
    } else if InReconcile(pc) {
      ReconcileSubject(s, s');
    } else if RollsBack(pc) {
      RollbackSubject(s, s');
    } else {
      AttemptSubject(s, s');
    }
  }

  lemma SaveFailsEffect(s: State, s': State)
    requires Step(s, SaveFails) == Some(s')
    ensures s'.containers == s.containers && s.process.Running?
    ensures s'.history.live == if s.process.pc.Commit? then None else s.history.live
  {
  }

  lemma SaveFailsSubject(s: State, s': State)
    requires Inv(s) && Step(s, SaveFails) == Some(s') && s.history.stopped
    ensures Subject(s') == Subject(s)
  {
    SaveFailsEffect(s, s');
    if s.process.pc.Commit? {
      CommitIsLive(s);
      ReleasedIsSubject(s, s.process.tx);
    }
  }

  lemma CommitIsLive(s: State)
    requires s.process.Running? && s.process.pc.Commit? && ProcessOk(s)
    ensures s.process.tx in s.journals && In(s, ReleasePending)
  {
  }

  lemma OtherSubject(s: State, e: Event, s': State)
    requires Step(s, e) == Some(s') && !e.Advance? && !e.SaveFails? && s.history.stopped && s'.history.stopped
    ensures Subject(s') == Subject(s)
  {
  }

  /** While the project stays stopped, the update that replaces it stays the same. */
  lemma StepKeepsSubject(s: State, e: Event, s': State)
    requires Inv(s) && Step(s, e) == Some(s') && s.history.stopped && s'.history.stopped
    ensures Subject(s') == Subject(s)
  {
    if e.Advance? {
      AdvanceSubject(s, s');
    } else if e.SaveFails? {
      SaveFailsSubject(s, s');
    } else {
      OtherSubject(s, e, s');
    }
  }

  /** The steps of a run between stopped states keep the subject. */
  predicate OneSubject(states: seq<State>)
  {
    forall m :: 0 <= m < |states| - 1 && states[m].history.stopped && states[m + 1].history.stopped ==>
      Subject(states[m + 1]) == Subject(states[m])
  }

  lemma RunHasOneSubject(states: seq<State>, events: seq<Event>)
    requires BenignRun(states, events)
    ensures OneSubject(states)
  {
    forall m | 0 <= m < |states| - 1 && states[m].history.stopped && states[m + 1].history.stopped
      ensures Subject(states[m + 1]) == Subject(states[m])
    {
      RunKeepsInv(states, events, m);
      StepKeepsSubject(states[m], events[m], states[m + 1]);
    }
  }

  lemma {:induction false} SubjectSince(states: seq<State>, m: nat, i: nat)
    requires OneSubject(states) && m <= i < |states| && forall k :: m <= k <= i ==> states[k].history.stopped
    ensures Subject(states[m]) == Subject(states[i])
    decreases i
  {
    if m < i {
      SubjectSince(states, m, i - 1);
      assert Subject(states[i - 1 + 1]) == Subject(states[i - 1]);
    }
  }

  lemma CommitIsSubject(s: State)
    requires Inv(s) && s.process.Running? && s.process.pc.Commit?
    ensures Subject(s) == Some(s.process.tx)
  {
  }

  /** Event `m` is the failed save of `tx`'s `committed`, after moment `j` and before moment `i`. */
  predicate FailsCommitOf(states: seq<State>, events: seq<Event>, tx: Transaction, j: nat, m: nat, i: nat)
    requires i <= |events| <= |states|
  {
    j < m < i && FailsCommit(states[m], events[m]) && states[m].process.tx == tx
  }

  /** A failed commit save since the stop was that of the update in question. */
  lemma RetractedCommit(states: seq<State>, events: seq<Event>, j: nat, i: nat) returns (m: nat)
    requires BenignRun(states, events) && Since(states, j, i) && states[i].history.retracted && Subject(states[i]).Some?
    ensures FailsCommitOf(states, events, Subject(states[i]).value, j, m, i)
  {
    RunIsChronicle(states, events);
    m := RetractedSince(states, events, j, i);
    RunHasOneSubject(states, events);
    SubjectSince(states, m, i);
    RunKeepsInv(states, events, m);
    CommitIsSubject(states[m]);
  }

  /**
   * In every state of a run a candidate without the fence has a journal in release_pending or committed, or the save of
   * its own `committed` failed, in a process that survived, since the project that it replaces was last up.
   */
  lemma AdmittedOnlyAfterRelease(states: seq<State>, events: seq<Event>, i: nat) returns (j: nat, m: nat)
    requires BenignRun(states, events) && i < |states| && Admitted(states[i])
    ensures var phase := states[i].journals[states[i].containers.tx].phase;
            || phase == ReleasePending || phase == Committed
            || (Since(states, j, i) && FailsCommitOf(states, events, states[i].containers.tx, j, m, i))
  {
    j, m := 0, 0;
    RunKeepsInv(states, events, i);
    AdmittedPhase(states[i]);
    if states[i].history.stopped && states[i].history.retracted {
      RunIsChronicle(states, events);
      j := StoppedSince(states, events, i);
      CandidateIsSubject(states[i]);
      m := RetractedCommit(states, events, j, i);
    }
  }

  // ---------------------------------------------------------------- accepted writes

  predicate Restores(s: State, e: Event)
  {
    && e.Advance? && s.process.Running? && s.process.pc.RbRestore?
    && s.process.tx in s.journals && s.process.pc.k < |s.journals[s.process.tx].backups|
  }

  /** The archive that a restore needs is there, as the project left its volume. */
  lemma RestoredArchive(s: State, tx: Transaction, k: nat)
    requires Inv(s) && s.process.Running? && s.process.pc == RbRestore(k) && s.process.tx == tx
    requires tx in s.journals && k < |s.journals[tx].backups|
    ensures s.history.stopped && CountsOk(s.history, s.history.retracted)
    ensures var (v, name) := s.journals[tx].backups[k];
            && v in s.history.named && v in s.history.baseline
            && name in s.archives && s.archives[name] == Whole(s.history.baseline[v], s.history.captured)
  {
    assert BackupOk(tx, s.journals[tx].backups[k], k, s.history, s.archives);
  }

  lemma RestoreCopies(s: State, s': State)
    requires Restores(s, Advance) && Step(s, Advance) == Some(s')
    ensures var (v, name) := s.journals[s.process.tx].backups[s.process.pc.k];
            name in s.archives && s.archives[name].Whole? && s'.volumes == s.volumes[v := s.archives[name].files]
  {
    assert AdvanceRollback(s) == Some(s');
  }

  /** The restore at moment `i` copies the contents of its volume from moment `j`, and nothing else. */
  predicate CopiesFrom(states: seq<State>, i: nat, j: nat, accepted: nat)
    requires j < i < |states| - 1 && Restores(states[i], Advance)
  {
    var s := states[i];
    var (v, name) := s.journals[s.process.tx].backups[s.process.pc.k];
    && name in s.archives && s.archives[name] == Whole(Content(states[j].volumes, v), accepted)
    && states[i + 1].volumes == s.volumes[v := Content(states[j].volumes, v)]
  }

  /** Every restore brings back a volume as it was when the replaced project was last up. */
  lemma RestoreCopiesStopped(states: seq<State>, events: seq<Event>, i: nat) returns (j: nat)
    requires BenignRun(states, events) && i < |events| && Restores(states[i], events[i])
    ensures Since(states, j, i) && !ClientWrite(events[j])
    ensures CopiesFrom(states, i, j, states[0].history.accepted + ClientWrites(events, j))
    ensures CountsOk(states[i].history, states[i].history.retracted)
    ensures states[i].history.captured == states[0].history.accepted + ClientWrites(events, j)
  {
    var s := states[i];
    RunKeepsInv(states, events, i);
    RestoredArchive(s, s.process.tx, s.process.pc.k);
    RunIsChronicle(states, events);
    j := StoppedSince(states, events, i);
    AcceptedCountsClientWrites(states, events, j);
    assert Step(s, events[i]) == Some(states[i + 1]);
    RestoreCopies(s, states[i + 1]);
  }

  // ---------------------------------------------------------------- one pending update at a time

  /** The refusal "Multiple interrupted updates" is never reached. */
  lemma AtMostOnePending(states: seq<State>, events: seq<Event>, i: nat)
    requires BenignRun(states, events) && i < |states|
    ensures |PendingSet(states[i])| <= 1
  {
    RunKeepsInv(states, events, i);
    PendingSetIsLive(states[i]);
  }

  /** With no update pending some project is up: a finished, rejected or abandoned update never leaves an outage. */
  lemma QuietMeansRunning(states: seq<State>, events: seq<Event>, i: nat)
    requires BenignRun(states, events) && i < |states| && PendingSet(states[i]) == {}
    ensures !states[i].containers.Down?
  {
    RunKeepsInv(states, events, i);
    PendingSetIsLive(states[i]);
  }
}
