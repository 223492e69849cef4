/** How one call of the updater ends, and which way the phases of the journals go. */
module UpdateOutcomes {
  import opened Wrappers
  import opened UpdateTransaction
  import opened UpdateInvariant
  import opened UpdateSafety

  // ---------------------------------------------------------------- which way the phases go

  /** What may follow a phase; only the save of `committed` can be taken back. */
  predicate Follows(from: Phase, to: Phase)
  {
    match from
    case Preparing => to == StoppingOldProject || to == CandidateRejected || to == AbandonedBeforeMutation
    case StoppingOldProject => to == SnapshotComplete || to == RollingBack || to == RecoveryRequired
    case SnapshotComplete => to == CandidateDatabaseStarting || to == RollingBack || to == RecoveryRequired
    case CandidateDatabaseStarting => to == MigrationStarted || to == RollingBack || to == RecoveryRequired
    case MigrationStarted => to == CandidateServicesStarting || to == RollingBack || to == RecoveryRequired
    case CandidateServicesStarting => to == ReleasePending || to == RollingBack || to == RecoveryRequired
    case ReleasePending => to == Committed
    case Committed => to == RollingBack || to == RecoveryRequired
    case RollingBack => to == RolledBack || to == RecoveryRequired
    case RecoveryRequired => to == RollingBack
    case RolledBack | CandidateRejected | AbandonedBeforeMutation => false
  }

  /** The journal of `t` keeps its phase, is abandoned by a scan, or moves on as the updater's own. */
  predicate MovesOn(s: State, s': State, t: Transaction)
    requires t in s.journals && s.process.Running?
  {
    && t in s'.journals
    && var from, to := s.journals[t].phase, s'.journals[t].phase;
       || from == to
       || (Follows(from, to)
           && (to == AbandonedBeforeMutation <==> s.process.pc.Scan?)
           && (to != AbandonedBeforeMutation ==> t == s.process.tx)
           && (from == Committed ==> s.process.inRun && s.history.retracted))
  }

  /** The updater is not about to write the first journal of its transaction. */
  predicate PastFirstSave(s: State) { s.process.Running? && !s.process.pc.SavePreparing? }

  lemma PrepareMovesOn(s: State, s': State, t: Transaction)
    requires Prepares(s) && InPreparation(s.process.pc) && PastFirstSave(s)
    requires t in s.journals && AdvancePrepare(s) == Some(s')
    ensures MovesOn(s, s', t)
  {
  }

  lemma ReconcileMovesOn(s: State, s': State, t: Transaction)
    requires Reconciles(s) && InReconcile(s.process.pc) && t in s.journals && AdvanceReconcile(s) == Some(s')
    ensures MovesOn(s, s', t)
  {
  }

  /** The phase that a save of the rollback writes. */
  function RollbackPhase(pc: Pc): Option<Phase>
  {
    match pc
    case RbSave => Some(RollingBack)
    case RbGiveUp => Some(RecoveryRequired)
    case RbFinish => Some(RolledBack)
    case _ => None
  }

  lemma RollbackJournals(s: State, s': State)
    requires s.process.Running? && s.process.tx in s.journals && AdvanceRollback(s) == Some(s')
    ensures var phase, tx := RollbackPhase(s.process.pc), s.process.tx;
            s'.journals == if phase.None? then s.journals else s.journals[tx := s.journals[tx].(phase := phase.value)]
  {
  }

  lemma RollbackMovesOn(s: State, s': State, t: Transaction)
    requires Rolls(s) && RollsBack(s.process.pc) && t in s.journals && AdvanceRollback(s) == Some(s')
    ensures MovesOn(s, s', t)
  {
    RollbackJournals(s, s');
    if RollbackPhase(s.process.pc).None? {
      SameJournals(s, s');
    } else {
      RollbackSaves(s, s', t);
    }
  }

  lemma RollbackSaves(s: State, s': State, t: Transaction)
    requires Rolls(s) && t in s.journals && RollbackPhase(s.process.pc).Some?
    requires var tx := s.process.tx;
             s'.journals == s.journals[tx := s.journals[tx].(phase := RollbackPhase(s.process.pc).value)]
    ensures MovesOn(s, s', t)
  {
  }

  lemma SameJournals(s: State, s': State)
    requires s.process.Running? && s'.journals == s.journals
    ensures forall t :: t in s.journals ==> MovesOn(s, s', t)
  {
  }

  lemma CaptureMovesOn(s: State, s': State, t: Transaction)
    requires Owned(s) && InCapture(s.process.pc) && t in s.journals && AdvanceCapture(s) == Some(s')
    requires !s.process.pc.StopOld? ==> StagePoint(s)
    ensures MovesOn(s, s', t)
  {
  }

  /** The phase that a save of the release writes. */
  function ReleasePhase(pc: Pc): Option<Phase>
  {
    match pc
    case SaveServices => Some(CandidateServicesStarting)
    case SaveReleasePending => Some(ReleasePending)
    case Commit => Some(Committed)
    case _ => None
  }

  lemma ReleaseJournals(s: State, s': State)
    requires s.process.Running? && s.process.tx in s.journals && InRelease(s.process.pc)
    requires AdvanceRelease(s) == Some(s')
    ensures var phase, tx := ReleasePhase(s.process.pc), s.process.tx;
            s'.journals == if phase.None? then s.journals else s.journals[tx := s.journals[tx].(phase := phase.value)]
  {
  }

  lemma ReleaseMovesOn(s: State, s': State, t: Transaction)
    requires Owned(s) && InRelease(s.process.pc) && t in s.journals && AdvanceRelease(s) == Some(s')
    requires !s.process.pc.HandlerFence? ==> StagePoint(s)
    ensures MovesOn(s, s', t)
  {
    ReleaseJournals(s, s');
    if ReleasePhase(s.process.pc).None? {
      SameJournals(s, s');
    } else {
      ReleaseSaves(s, s', t);
    }
  }

  lemma ReleaseSaves(s: State, s': State, t: Transaction)
    requires Owned(s) && StagePoint(s) && t in s.journals && ReleasePhase(s.process.pc).Some?
    requires var tx := s.process.tx;
             s'.journals == s.journals[tx := s.journals[tx].(phase := ReleasePhase(s.process.pc).value)]
    ensures MovesOn(s, s', t)
  {
  }

  lemma AttemptMovesOn(s: State, s': State, t: Transaction)
    requires Inv(s) && PastFirstSave(s) && t in s.journals && Advanced(s) == Some(s')
    requires InPreparation(s.process.pc) || InCapture(s.process.pc)
    ensures MovesOn(s, s', t)
  {
    if InPreparation(s.process.pc) {
      PrepareMovesOn(s, s', t);
    } else {
      CaptureMovesOn(s, s', t);
    }
  }

  lemma EndMovesOn(s: State, s': State, t: Transaction)
    requires Inv(s) && PastFirstSave(s) && t in s.journals && Advanced(s) == Some(s')
    requires InReconcile(s.process.pc) || RollsBack(s.process.pc)
    ensures MovesOn(s, s', t)
  {
    if InReconcile(s.process.pc) {
      ReconcileMovesOn(s, s', t);
    } else {
      RollbackMovesOn(s, s', t);
    }
  }

  lemma AdvanceMovesOn(s: State, s': State, t: Transaction)
    requires Inv(s) && PastFirstSave(s) && t in s.journals && Advanced(s) == Some(s')
    ensures MovesOn(s, s', t)
  {
    var pc := s.process.pc;
    if InPreparation(pc) || InCapture(pc) {
      AttemptMovesOn(s, s', t);
    } else if InReconcile(pc) || RollsBack(pc) {
      EndMovesOn(s, s', t);
    } else if InRelease(pc) {
      ReleaseMovesOn(s, s', t);
    }
  }

  lemma SaveFailsMovesOn(s: State, s': State, t: Transaction)
    requires Owned(s) && InStage(s.process.pc) && StagePoint(s) && t in s.journals && SaveFailed(s) == Some(s')
    ensures MovesOn(s, s', t)
  {
    var saved := WithMemory(s).value;
    assert s'.journals == saved.journals;
    MemoryMovesOn(s, saved, t);
  }

  lemma MemoryMovesOn(s: State, saved: State, t: Transaction)
    requires Owned(s) && InStage(s.process.pc) && StagePoint(s) && t in s.journals && WithMemory(s) == Some(saved)
    ensures MovesOn(s, saved, t)
  {
  }

  /** Every other event leaves the journals alone. */
  lemma OthersKeepJournals(s: State, e: Event, s': State)
    requires Step(s, e) == Some(s') && !e.Advance? && !e.SaveFails? && !e.Abandon? && !e.Reject?
    ensures s'.journals == s.journals
  {
  }

  lemma RefusalMovesOn(s: State, e: Event, s': State, t: Transaction)
    requires Step(s, e) == Some(s') && (e.Abandon? || e.Reject?) && s.process.Running? && t in s.journals
    requires e.Reject? ==> PreparePoint(s)
    ensures MovesOn(s, s', t)
  {
  }

  lemma SaveFailsIsStage(s: State, s': State)
    requires Inv(s) && s.process.Running? && s.process.tx in s.journals && SaveFailed(s) == Some(s')
    ensures InStage(s.process.pc) && StagePoint(s)
  {
  }

  lemma RejectIsPrepared(s: State, s': State)
    requires Inv(s) && Step(s, Reject) == Some(s')
    ensures PreparePoint(s)
  {
  }

  /** Each phase is followed only by those that may follow it, and only its own updater moves a journal on. */
  lemma PhasesMoveOn(s: State, e: Event, s': State, t: Transaction)
    requires Inv(s) && PastFirstSave(s) && t in s.journals && Step(s, e) == Some(s')
    ensures MovesOn(s, s', t)
  {
    if e.Advance? {
      AdvanceMovesOn(s, s', t);
    } else if e.SaveFails? {
      SaveFailsIsStage(s, s');
      SaveFailsMovesOn(s, s', t);
    } else if e.Abandon? {
      RefusalMovesOn(s, e, s', t);
    } else if e.Reject? {
      RejectIsPrepared(s, s');
      RefusalMovesOn(s, e, s', t);
    } else {
      OthersKeepJournals(s, e, s');
      SameJournals(s, s');
    }
  }

  // ---------------------------------------------------------------- refusals touch nothing

  predicate Refusal(phase: Phase) { phase == CandidateRejected || phase == AbandonedBeforeMutation }

  predicate NewRefusal(s: State, s': State, t: Transaction)
  {
    && t in s.journals && !Refusal(s.journals[t].phase)
    && t in s'.journals && Refusal(s'.journals[t].phase)
  }

  lemma AdvanceRefusesNothing(s: State, s': State, t: Transaction)
    requires s.process.Running? && Advanced(s) == Some(s')
    ensures !NewRefusal(s, s', t)
  {
    var pc := s.process.pc;
    if InPreparation(pc) {
      assert AdvancePrepare(s) == Some(s');
    } else if InReconcile(pc) {
      assert AdvanceReconcile(s) == Some(s');
    } else if RollsBack(pc) {
      RollbackJournals(s, s');
    } else if InCapture(pc) {
      assert AdvanceCapture(s) == Some(s');
    }
  }

  lemma SaveFailsRefusesNothing(s: State, s': State, t: Transaction)
    requires s.process.Running? && s.process.tx in s.journals && SaveFailed(s) == Some(s')
    ensures !NewRefusal(s, s', t)
  {
    MemoryRefusesNothing(s, WithMemory(s).value, t);
    assert s'.journals == WithMemory(s).value.journals;
  }

  lemma MemoryRefusesNothing(s: State, saved: State, t: Transaction)
    requires s.process.Running? && s.process.tx in s.journals && WithMemory(s) == Some(saved)
    ensures !NewRefusal(s, saved, t)
  {
  }

  /** A journal becomes rejected or abandoned only from `preparing`, and only that journal and the updater change. */
  lemma RefusalTouchesNothing(s: State, e: Event, s': State, t: Transaction)
    requires Inv(s) && PastFirstSave(s) && Step(s, e) == Some(s') && NewRefusal(s, s', t)
    ensures s.journals[t].phase == Preparing
    ensures s' == s.(process := s'.process, journals := s.journals[t := s'.journals[t]])
    ensures s'.journals[t] == s.journals[t].(phase := s'.journals[t].phase)
  {
    PhasesMoveOn(s, e, s', t);
    if e.Advance? {
      AdvanceRefusesNothing(s, s', t);
    } else if e.SaveFails? {
      SaveFailsRefusesNothing(s, s', t);
    } else if !e.Abandon? && !e.Reject? {
      OthersKeepJournals(s, e, s');
    }
  }

  /** A rejected candidate is recorded as such, and the project that is up stays what it was. */
  lemma RejectionIsRecorded(s: State, s': State)
    requires Inv(s) && Step(s, Reject) == Some(s')
    ensures var tx := s.process.tx;
            && tx in s'.journals && s'.journals[tx].phase == CandidateRejected && PendingSet(s') == {}
            && s'.containers.Old? && !s'.containers.restored && s'.containers == s.containers && s'.volumes == s.volumes
  {
    RejectIsPrepared(s, s');
    RejectedState(s, s');
  }

  lemma RejectedState(s: State, s': State)
    requires Prepares(s) && (s.process.pc.Build? || s.process.pc.SaveStopping?) && Step(s, Reject) == Some(s')
    ensures var tx := s.process.tx;
            && tx in s'.journals && s'.journals[tx].phase == CandidateRejected && PendingSet(s') == {}
            && s'.containers.Old? && !s'.containers.restored && s'.containers == s.containers && s'.volumes == s.volumes
  {
    PendingSetIsLive(s');
  }

  // ---------------------------------------------------------------- what committed means

  /** The candidate of the journal is up, without a fence, and is the active release. */
  predicate IsReleased(s: State, t: Transaction)
    requires t in s.journals
  {
    var j := s.journals[t];
    && s.containers == Candidate(t, j.candidateRoot, true) && MarkerOf(s, j.frontend) == None
    && s.pointer == Some(j.version) && s.active == Some(j.candidateRoot)
  }

  lemma CommitPoint(s: State)
    requires Owned(s) && (s.process.pc.Commit? || s.process.pc.RcCommit?)
    requires if s.process.pc.Commit? then StagePoint(s) else ReconcilePoint(s)
    ensures IsReleased(s, s.process.tx)
  {
  }

  predicate NewCommit(s: State, s': State, t: Transaction)
  {
    && t in s.journals && s.journals[t].phase != Committed
    && t in s'.journals && s'.journals[t].phase == Committed
  }

  /** The step writes `committed` and changes nothing that the release consists of. */
  predicate OnlyCommits(s: State, s': State, t: Transaction)
    requires s.process.Running? && t in s.journals && t in s'.journals
  {
    && (s.process.pc.Commit? || s.process.pc.RcCommit?) && t == s.process.tx
    && s'.containers == s.containers && s'.volumes == s.volumes && s'.pointer == s.pointer && s'.active == s.active
    && s'.journals[t] == s.journals[t].(phase := Committed)
  }

  lemma AdvanceCommits(s: State, s': State, t: Transaction)
    requires s.process.Running? && Advanced(s) == Some(s') && NewCommit(s, s', t)
    ensures OnlyCommits(s, s', t)
  {
    var pc := s.process.pc;
    if RollsBack(pc) {
      RollbackJournals(s, s');
    }
  }

  lemma SaveFailsCommits(s: State, s': State, t: Transaction)
    requires s.process.Running? && s.process.tx in s.journals && SaveFailed(s) == Some(s') && NewCommit(s, s', t)
    ensures OnlyCommits(s, s', t) && s.process.pc.Commit?
  {
    assert s'.journals == WithMemory(s).value.journals;
  }

  lemma OthersCommitNothing(s: State, e: Event, s': State, t: Transaction)
    requires Step(s, e) == Some(s') && !e.Advance? && !e.SaveFails?
    ensures !NewCommit(s, s', t)
  {
    if !e.Abandon? && !e.Reject? {
      OthersKeepJournals(s, e, s');
    }
  }

  lemma CommitStep(s: State, e: Event, s': State, t: Transaction)
    requires Step(s, e) == Some(s') && NewCommit(s, s', t)
    ensures s.process.Running? && OnlyCommits(s, s', t)
  {
    if e.Advance? {
      AdvanceCommits(s, s', t);
    } else if e.SaveFails? {
      SaveFailsCommits(s, s', t);
    } else {
      OthersCommitNothing(s, e, s', t);
    }
  }

  lemma CommitsReleased(s: State)
    requires Inv(s) && s.process.Running? && s.process.tx in s.journals
    requires s.process.pc.Commit? || s.process.pc.RcCommit?
    ensures IsReleased(s, s.process.tx)
  {
    CommitPoint(s);
  }

  lemma StaysReleased(s: State, s': State, t: Transaction)
    requires s.process.Running? && t in s.journals && t in s'.journals && OnlyCommits(s, s', t) && IsReleased(s, t)
    ensures IsReleased(s', t)
  {
  }

  /** An update becomes committed only when its candidate is released: up, unfenced and active. */
  lemma CommittedMeansReleased(states: seq<State>, events: seq<Event>, i: nat, t: Transaction)
    requires BenignRun(states, events) && i < |events| && NewCommit(states[i], states[i + 1], t)
    ensures IsReleased(states[i + 1], t)
  {
    RunKeepsInv(states, events, i);
    assert Step(states[i], events[i]) == Some(states[i + 1]);
    CommitStep(states[i], events[i], states[i + 1], t);
    CommitsReleased(states[i]);
    StaysReleased(states[i], states[i + 1], t);
  }

  // ---------------------------------------------------------------- how a call returns

  /** The call ends by itself: it was not killed, and no command failed just now. */
  predicate Returns(s: State, e: Event, s': State)
  {
    s.process.Running? && s'.process.Idle? && (e.Advance? || e.Reject?)
  }

  /** Nothing is pending, or the updater's own journal says that recovery is required, or the release is fenced. */
  predicate Settled(s': State, tx: Transaction)
  {
    || PendingSet(s') == {}
    || (&& PendingSet(s') == {tx}
        && (|| s'.journals[tx].phase == RecoveryRequired
            || (&& s'.journals[tx].phase == ReleasePending && MarkerOf(s', s'.journals[tx].frontend) == Some(tx)
                && !Admitted(s'))))
  }

  /** The points of the attempt and of the recovery at which nothing is pending after the step. */
  predicate Closes(pc: Pc) { pc.Commit? || pc.RcCommit? || pc.RbFinish? }

  /** Where a call can return by itself. */
  lemma ReturnPoint(s: State, s': State)
    requires s.process.Running? && Advanced(s) == Some(s') && s'.process.Idle?
    ensures var pc := s.process.pc;
            pc.Scan? || pc.CheckDowngrade? || Closes(pc) || pc.RbGiveUp? || pc.HandlerFence?
  {
    var pc := s.process.pc;
    if InPreparation(pc) {
      assert AdvancePrepare(s) == Some(s');
    } else if RollsBack(pc) {
      assert AdvanceRollback(s) == Some(s');
    }
  }

  lemma ClosingReturns(s: State, s': State)
    requires s.process.Running? && Closes(s.process.pc) && Advanced(s) == Some(s')
    ensures s'.history.live == None
  {
  }

  lemma GiveUpReturns(s: State, s': State)
    requires s.process.Running? && s.process.pc.RbGiveUp? && Advanced(s) == Some(s')
    ensures var tx := s.process.tx;
            s'.history.live == Some(tx) && tx in s'.journals && s'.journals[tx].phase == RecoveryRequired
  {
  }

  lemma FenceReturns(s: State, s': State)
    requires s.process.Running? && s.process.pc.HandlerFence? && Advanced(s) == Some(s')
    ensures s'.history == s.history && s'.journals == s.journals && s'.containers == s.containers
    ensures s.process.tx in s.journals && MarkerOf(s', s.journals[s.process.tx].frontend) == Some(s.process.tx)
  {
  }

  lemma RefusalReturns(s: State, e: Event, s': State)
    requires Inv(s) && Step(s, e) == Some(s') && Returns(s, e, s')
    requires e.Reject? || s.process.pc.Scan? || s.process.pc.CheckDowngrade?
    ensures s'.history.live == None
  {
    if e.Reject? {
      RejectIsPrepared(s, s');
    } else if s.process.pc.Scan? {
      PendingSetIsLive(s);
    }
  }

  lemma FencePoint(s: State)
    requires Inv(s) && s.process.Running? && s.process.pc.HandlerFence?
    ensures In(s, ReleasePending)
  {
    assert EdgePoint(s);
  }

  lemma FencedAtReturn(s: State, s': State)
    requires Inv(s) && s.process.Running? && s.process.pc.HandlerFence? && Advanced(s) == Some(s')
    ensures var tx := s.process.tx;
            && s'.history.live == Some(tx) && tx in s'.journals && s'.journals[tx].phase == ReleasePending
            && MarkerOf(s', s'.journals[tx].frontend) == Some(tx) && !Admitted(s')
  {
    FencePoint(s);
    ReleasedIsSubject(s, s.process.tx);
    FenceReturns(s, s');
  }

  lemma ReturnStep(s: State, e: Event, s': State)
    requires Inv(s) && Inv(s') && Step(s, e) == Some(s') && Returns(s, e, s')
    ensures Settled(s', s.process.tx)
  {
    PendingSetIsLive(s');
    if e.Reject? || s.process.pc.Scan? || s.process.pc.CheckDowngrade? {
      RefusalReturns(s, e, s');
    } else {
      ReturnPoint(s, s');
      if Closes(s.process.pc) {
        ClosingReturns(s, s');
      } else if s.process.pc.RbGiveUp? {
        GiveUpReturns(s, s');
      } else {
        FencedAtReturn(s, s');
      }
    }
  }

  /**
   * A call that returns by itself leaves nothing pending, or asks for recovery in its own journal, or leaves its
   * release pending behind its own fence.
   */
  lemma CallsEndSettled(states: seq<State>, events: seq<Event>, i: nat)
    requires BenignRun(states, events) && i < |events| && Returns(states[i], events[i], states[i + 1])
    ensures Settled(states[i + 1], states[i].process.tx)
  {
    RunKeepsInv(states, events, i);
    RunKeepsInv(states, events, i + 1);
    assert Step(states[i], events[i]) == Some(states[i + 1]);
    ReturnStep(states[i], events[i], states[i + 1]);
  }

  // ---------------------------------------------------------------- failing commands

  predicate GivesUp(s: State) { s.process.Running? && s.process.pc.RbGiveUp? }

  lemma AdvanceGivesUpNever(s: State, s': State)
    requires s.process.Running? && Advanced(s) == Some(s')
    ensures !GivesUp(s')
  {
    var pc := s.process.pc;
    if InPreparation(pc) {
      assert AdvancePrepare(s) == Some(s');
    } else if RollsBack(pc) {
      assert AdvanceRollback(s) == Some(s');
    }
  }

  lemma FailGivesUp(s: State, s': State)
    requires s.process.Running? && Failed(s) == s' && GivesUp(s')
    ensures s'.process.inRun && InRollback(s.process.pc)
  {
  }

  lemma SaveFailsGivesUpNever(s: State, s': State)
    requires s.process.Running? && s.process.tx in s.journals && SaveFailed(s) == Some(s')
    ensures !GivesUp(s')
  {
    assert s'.process.pc.HandlerFence? || s'.process.pc.RbSave?;
  }

  lemma OthersGiveUpNever(s: State, e: Event, s': State)
    requires Step(s, e) == Some(s') && !e.Advance? && !e.Fail? && !e.SaveFails? && GivesUp(s')
    ensures GivesUp(s) && s'.process.inRun == s.process.inRun
  {
  }

  /** Only a rollback that the failed attempt itself began is given up. */
  lemma {:induction false} GiveUpIsOwn(states: seq<State>, events: seq<Event>, i: nat)
    requires IsRun(states, events) && i < |states| && GivesUp(states[i])
    ensures states[i].process.inRun
  {
    if i > 0 {
      var s, e, s' := states[i - 1], events[i - 1], states[i];
      assert Step(s, e) == Some(s');
      if e.Advance? {
        AdvanceGivesUpNever(s, s');
      } else if e.Fail? {
        FailGivesUp(s, s');
      } else if e.SaveFails? {
        SaveFailsGivesUpNever(s, s');
      } else {
        OthersGiveUpNever(s, e, s');
        GiveUpIsOwn(states, events, i - 1);
      }
    }
  }

  /** Where a failing command ends the call at once: there is nothing left that the call could put in order. */
  predicate EndsAtFailure(s: State)
    requires s.process.Running?
  {
    || s.history.live == None                                     // nothing has been stopped
    || s.process.pc.Scan?
    || Progress(s.process) == 1                                   // a recovery, which the next call takes up again
    || s.process.pc.RbGiveUp? || s.process.pc.HandlerFence?       // the handler's last action
  }

  /** A failing command ends the call only there: everywhere else the handler takes over, or records that it gave up. */
  lemma FailureIsHandled(states: seq<State>, events: seq<Event>, i: nat)
    requires BenignRun(states, events) && i < |events| && events[i].Fail? && states[i + 1].process.Idle?
    ensures states[i].process.Running? && EndsAtFailure(states[i])
    ensures states[i + 1] == states[i].(process := Idle)
  {
    RunKeepsInv(states, events, i);
    assert Step(states[i], events[i]) == Some(states[i + 1]);
    FailureStep(states[i], states[i + 1]);
  }

  lemma FailureStep(s: State, s': State)
    requires Inv(s) && Step(s, Fail) == Some(s') && s'.process.Idle?
    ensures s.process.Running? && EndsAtFailure(s) && s' == s.(process := Idle)
  {
    FailureEnds(s, s');
    if InPreparation(s.process.pc) || s.process.pc.Validate? {
      PrepareIsQuiet(s);
    } else {
      EndsElsewhere(s);
    }
  }

  lemma PrepareIsQuiet(s: State)
    requires Inv(s) && s.process.Running? && (InPreparation(s.process.pc) || s.process.pc.Validate?)
    ensures s.history.live == None
  {
  }

  lemma EndsElsewhere(s: State)
    requires s.process.Running? && !InPreparation(s.process.pc) && !s.process.pc.Validate?
    requires !InTry(s.process.pc) && !(InRollback(s.process.pc) && s.process.inRun)
    ensures EndsAtFailure(s)
  {
  }

  lemma FailureEnds(s: State, s': State)
    requires s.process.Running? && Failed(s) == s' && s'.process.Idle?
    ensures s' == s.(process := Idle) && !InTry(s.process.pc) && !(InRollback(s.process.pc) && s.process.inRun)
  {
  }

  predicate NewRequirement(s: State, s': State, t: Transaction)
  {
    && t in s.journals && s.journals[t].phase != RecoveryRequired
    && t in s'.journals && s'.journals[t].phase == RecoveryRequired
  }

  lemma RecoveryRequiredPoint(s: State, e: Event, s': State, t: Transaction)
    requires PastFirstSave(s) && Step(s, e) == Some(s') && NewRequirement(s, s', t)
    ensures s.process.pc.RbGiveUp? && t == s.process.tx
  {
    if e.Advance? {
      RecoveryRequiredAdvance(s, s', t);
    } else if e.SaveFails? {
      SaveFailsRequiresNothing(s, s', t);
    } else if !e.Abandon? && !e.Reject? {
      OthersKeepJournals(s, e, s');
    }
  }

  lemma SaveFailsRequiresNothing(s: State, s': State, t: Transaction)
    requires s.process.Running? && s.process.tx in s.journals && SaveFailed(s) == Some(s')
    ensures !NewRequirement(s, s', t)
  {
    MemoryRequiresNothing(s, WithMemory(s).value, t);
    assert s'.journals == WithMemory(s).value.journals;
  }

  lemma MemoryRequiresNothing(s: State, saved: State, t: Transaction)
    requires s.process.Running? && s.process.tx in s.journals && WithMemory(s) == Some(saved)
    ensures !NewRequirement(s, saved, t)
  {
  }

  lemma RecoveryRequiredAdvance(s: State, s': State, t: Transaction)
    requires PastFirstSave(s) && Advanced(s) == Some(s') && NewRequirement(s, s', t)
    ensures s.process.pc.RbGiveUp? && t == s.process.tx
  {
    var pc := s.process.pc;
    if RollsBack(pc) {
      RollbackJournals(s, s');
    }
  }

  /** A journal says that recovery is required only after its own attempt failed to roll back. */
  lemma RecoveryRequiredIsOwn(states: seq<State>, events: seq<Event>, i: nat, t: Transaction)
    requires IsRun(states, events) && i < |events| && PastFirstSave(states[i])
    requires NewRequirement(states[i], states[i + 1], t)
    ensures states[i].process.tx == t && states[i].process.inRun
  {
    assert Step(states[i], events[i]) == Some(states[i + 1]);
    RecoveryRequiredPoint(states[i], events[i], states[i + 1], t);
    GiveUpIsOwn(states, events, i);
  }

  // ---------------------------------------------------------------- one call, one attempt

  /** How far a call is: looking for journals, recovering, preparing, replacing the project, handling a failure. */
  function Progress(p: Process): nat
    requires p.Running?
  {
    match p.pc
    case Scan => 0
    case RcFence | RcVerify | RcActivate | RcUnfence | RcCommit => 1
    case RbSave | RbDown | RbRestore(_) | RbUp | RbFinish => if p.inRun then 8 else 1
    case CheckDowngrade => 2
    case Validate => 3
    case SavePreparing => 4
    case Build => 5
    case CheckFence => 6
    case RbGiveUp | HandlerFence => 8
    case _ => 7
  }

  /** The call goes forward, and from the first save of its journal to a later part. */
  predicate Forward(s: State, s': State)
    requires s.process.Running?
  {
    s'.process.Running? ==>
      Progress(s.process) <= Progress(s'.process) && (s.process.pc.SavePreparing? ==> Progress(s'.process) > 4)
  }

  lemma PrepareForward(s: State, s': State)
    requires s.process.Running? && InPreparation(s.process.pc) && AdvancePrepare(s) == Some(s')
    ensures Forward(s, s')
  {
  }

  lemma ReconcileForward(s: State, s': State)
    requires s.process.Running? && s.process.tx in s.journals && InReconcile(s.process.pc)
    requires AdvanceReconcile(s) == Some(s')
    ensures Forward(s, s')
  {
  }

  lemma RollbackForward(s: State, s': State)
    requires s.process.Running? && s.process.tx in s.journals && RollsBack(s.process.pc)
    requires AdvanceRollback(s) == Some(s')
    ensures Forward(s, s')
  {
  }

  lemma CaptureForward(s: State, s': State)
    requires s.process.Running? && s.process.tx in s.journals && InCapture(s.process.pc)
    requires AdvanceCapture(s) == Some(s')
    ensures Forward(s, s')
  {
  }

  lemma ReleaseForward(s: State, s': State)
    requires s.process.Running? && s.process.tx in s.journals && InRelease(s.process.pc)
    requires AdvanceRelease(s) == Some(s')
    ensures Forward(s, s')
  {
  }

  lemma AdvanceProgress(s: State, s': State)
    requires s.process.Running? && Advanced(s) == Some(s')
    ensures Forward(s, s')
  {
    var pc := s.process.pc;
    if InPreparation(pc) {
      PrepareForward(s, s');
    } else if InReconcile(pc) {
      ReconcileForward(s, s');
    } else if RollsBack(pc) {
      RollbackForward(s, s');
    } else if InCapture(pc) {
      CaptureForward(s, s');
    } else if InRelease(pc) {
      ReleaseForward(s, s');
    }
  }

  lemma FailProgress(s: State, s': State)
    requires s.process.Running? && Failed(s) == s' && s'.process.Running?
    ensures Progress(s.process) <= Progress(s'.process)
  {
  }

  lemma SaveFailsProgress(s: State, s': State)
    requires s.process.Running? && s.process.tx in s.journals && SaveFailed(s) == Some(s')
    ensures s'.process.Running? && Progress(s'.process) == 8
  {
    assert s'.process.pc.HandlerFence? || (s'.process.pc.RbSave? && s'.process.inRun);
  }

  lemma OtherProgress(s: State, e: Event, s': State)
    requires Step(s, e) == Some(s') && !e.Start? && !e.Advance? && !e.Fail? && !e.SaveFails?
    requires s.process.Running? && s'.process.Running?
    ensures Progress(s.process) <= Progress(s'.process)
  {
  }

  lemma StepProgress(s: State, e: Event, s': State)
    requires Step(s, e) == Some(s') && !e.Start? && s'.process.Running?
    ensures s.process.Running? && Progress(s.process) <= Progress(s'.process)
    ensures e.Advance? && s.process.pc.SavePreparing? ==> Progress(s'.process) > 4
  {
    OnlyStartStarts(s, e, s');
    if e.Advance? {
      AdvanceProgress(s, s');
    } else if e.Fail? {
      FailProgress(s, s');
    } else if e.SaveFails? {
      SaveFailsProgress(s, s');
    } else {
      OtherProgress(s, e, s');
    }
  }

  lemma OnlyStartStarts(s: State, e: Event, s': State)
    requires Step(s, e) == Some(s') && !e.Start? && s'.process.Running?
    ensures s.process.Running?
  {
  }

  predicate NoStart(events: seq<Event>, i: nat, j: nat)
  {
    i <= j <= |events| && forall k :: i <= k < j ==> !events[k].Start?
  }

  /** Within one call nothing is done twice: the updater never comes back to an earlier part. */
  lemma {:induction false} CallGoesForward(states: seq<State>, events: seq<Event>, i: nat, j: nat)
    requires IsRun(states, events) && NoStart(events, i, j) && states[j].process.Running?
    ensures states[i].process.Running? && Progress(states[i].process) <= Progress(states[j].process)
    decreases j
  {
    if i < j {
      assert Step(states[j - 1], events[j - 1]) == Some(states[j]);
      StepProgress(states[j - 1], events[j - 1], states[j]);
      CallGoesForward(states, events, i, j - 1);
    }
  }

  /** A call makes at most one attempt: after a failure and its rollback it does not begin another one. */
  lemma OneAttemptPerCall(states: seq<State>, events: seq<Event>, i: nat, j: nat)
    requires IsRun(states, events) && i < j && NoStart(events, i, j) && states[j].process.Running?
    requires states[i].process.Running? && states[i].process.pc.SavePreparing? && events[i].Advance?
    ensures !states[j].process.pc.SavePreparing?
  {
    CallGoesForward(states, events, i + 1, j);
    assert Step(states[i], events[i]) == Some(states[i + 1]);
    StepProgress(states[i], events[i], states[i + 1]);
  }

  // ---------------------------------------------------------------- a withdrawn release

  /** While a failure is handled the active release and the transaction stay. */
  predicate SameRelease(s: State, s': State)
    requires s.process.Running? && s'.process.Running?
  {
    s'.pointer == s.pointer && s'.active == s.active && s'.process.tx == s.process.tx
  }

  lemma HandlingRollback(s: State, s': State)
    requires s.process.Running? && s.process.tx in s.journals && RollsBack(s.process.pc) && Progress(s.process) == 8
    requires AdvanceRollback(s) == Some(s') && s'.process.Running?
    ensures SameRelease(s, s')
  {
  }

  lemma HandlingAdvance(s: State, s': State)
    requires s.process.Running? && Progress(s.process) == 8 && Advanced(s) == Some(s') && s'.process.Running?
    ensures SameRelease(s, s')
  {
    if RollsBack(s.process.pc) {
      HandlingRollback(s, s');
    }
  }

  lemma HandlingOther(s: State, e: Event, s': State)
    requires s.process.Running? && Progress(s.process) == 8 && Step(s, e) == Some(s') && s'.process.Running?
    requires !e.Advance? && !e.SaveFails?
    ensures SameRelease(s, s')
  {
  }

  lemma NoSaveInHandler(s: State)
    requires s.process.Running? && Progress(s.process) == 8 && s.process.tx in s.journals
    ensures SaveFailed(s) == None
  {
  }

  lemma HandlingStep(s: State, e: Event, s': State)
    requires s.process.Running? && Progress(s.process) == 8 && Step(s, e) == Some(s') && s'.process.Running?
    ensures SameRelease(s, s')
  {
    if e.Advance? {
      HandlingAdvance(s, s');
    } else if e.SaveFails? {
      NoSaveInHandler(s);
    } else {
      HandlingOther(s, e, s');
    }
  }

  lemma {:induction false} HandlingKeepsRelease(states: seq<State>, events: seq<Event>, i: nat, j: nat)
    requires IsRun(states, events) && NoStart(events, i, j) && states[j].process.Running?
    requires states[i].process.Running? && Progress(states[i].process) == 8
    ensures SameRelease(states[i], states[j])
    decreases j
  {
    if i < j {
      assert Step(states[j - 1], events[j - 1]) == Some(states[j]);
      StepProgress(states[j - 1], events[j - 1], states[j]);
      CallGoesForward(states, events, i, j - 1);
      MostProgress(states[j - 1].process);
      HandlingKeepsRelease(states, events, i, j - 1);
      HandlingStep(states[j - 1], events[j - 1], states[j]);
    }
  }

  lemma MostProgress(p: Process)
    requires p.Running?
    ensures Progress(p) <= 8
  {
  }

  lemma CommitOwned(s: State)
    requires Inv(s) && s.process.Running? && s.process.pc.Commit?
    ensures s.process.tx in s.journals && IsReleased(s, s.process.tx)
  {
    CommitsReleased(s);
  }

  lemma CommitWithdrawn(s: State, s': State)
    requires s.process.Running? && s.process.tx in s.journals && s.process.pc.Commit? && SaveFailed(s) == Some(s')
    ensures s'.process.Running? && Progress(s'.process) == 8 && SameRelease(s, s')
  {
    SaveFailsProgress(s, s');
    assert s'.process.tx == s.process.tx;
  }

  lemma Withdrawal(s: State, s': State)
    requires s.process.Running? && s.process.tx in s.journals && s.process.pc.Commit? && Step(s, SaveFails) == Some(s')
    ensures s'.process.Running? && Progress(s'.process) == 8 && SameRelease(s, s')
  {
    CommitWithdrawn(s, s');
  }

  lemma FinishKeepsRelease(s: State, s': State)
    requires s.process.Running? && s.process.pc.RbFinish? && Step(s, Advance) == Some(s')
    ensures s'.pointer == s.pointer && s'.active == s.active
  {
  }

  lemma RollbackDone(s: State, s': State)
    requires Inv(s) && s.process.Running? && s.process.pc.RbFinish? && Step(s, Advance) == Some(s')
    ensures var tx := s.process.tx;
            tx in s'.journals && s'.journals[tx].phase == RolledBack && s'.containers.Old?
    ensures s'.pointer == s.pointer && s'.active == s.active
  {
    FinishedState(s);
    RollbackEnds(s, s');
    FinishKeepsRelease(s, s');
  }

  /**
   * When the save of `committed` fails and the handler's rollback ends, the old project runs, but the release that was
   * withdrawn is still the active one: nothing takes the pointer back.
   */
  lemma WithdrawnReleaseStaysActive(states: seq<State>, events: seq<Event>, m: nat, i: nat)
    requires BenignRun(states, events) && m < i < |events| && NoStart(events, m, i)
    requires states[m].process.Running? && states[m].process.pc.Commit? && events[m].SaveFails?
    requires EndsRollback(states[i], events[i])
    ensures var tx := states[m].process.tx;
            && tx in states[m].journals && tx in states[i + 1].journals
            && states[i + 1].journals[tx].phase == RolledBack && states[i + 1].containers.Old?
            && states[i + 1].pointer == Some(states[m].journals[tx].version)
            && states[i + 1].active == Some(states[m].journals[tx].candidateRoot)
  {
    RunKeepsInv(states, events, m);
    RunKeepsInv(states, events, i);
    assert Step(states[m], events[m]) == Some(states[m + 1]) && Step(states[i], events[i]) == Some(states[i + 1]);
    CommitOwned(states[m]);
    Withdrawal(states[m], states[m + 1]);
    HandlingKeepsRelease(states, events, m + 1, i);
    RollbackDone(states[i], states[i + 1]);
  }
}
