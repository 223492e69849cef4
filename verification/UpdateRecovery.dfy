/** How an interrupted update ends, and exactly when it can end. */
module UpdateRecovery {
  import opened Wrappers
  import opened UpdateTransaction
  import opened UpdateInvariant
  import opened UpdateSafety

  // ---------------------------------------------------------------- how a recovery ends

  /**
   * The updater is busy recovering `tx`, whose journal was release_pending (or not) when it was found. `only` says
   * that it was called to recover and nothing else.
   */
  predicate Recovering(s: State, tx: Transaction, release: bool, only: bool)
  {
    && s.process.Running?
    && s.process.tx == tx && s.process.reconcileOnly == only
    && tx in s.journals
    && (if release then
          InReconcile(s.process.pc) && s.journals[tx].phase == ReleasePending
        else
          InRollback(s.process.pc) && !s.process.inRun && Recoverable(s.journals[tx].phase))
  }

  /** The recovery of `tx` is over, its journal records the outcome, and the call returns or goes on to the update. */
  predicate Ended(s: State, tx: Transaction, release: bool, only: bool)
  {
    && (if only then s.process.Idle? else s.process.Running? && s.process.pc.CheckDowngrade? && s.process.tx == tx)
    && tx in s.journals
    && s.journals[tx].phase == (if release then Committed else RolledBack)
  }

  predicate Uninterrupted(e: Event) { !e.Fail? && !e.Crash? && !e.SaveFails? }

  lemma ReconcileProgress(s: State, s': State)
    requires s.process.Running? && s.process.tx in s.journals && AdvanceReconcile(s) == Some(s')
    requires Recovering(s, s.process.tx, true, s.process.reconcileOnly)
    ensures var tx, only := s.process.tx, s.process.reconcileOnly;
            Recovering(s', tx, true, only) || Ended(s', tx, true, only)
  {
  }

  lemma RollbackProgress(s: State, s': State)
    requires s.process.Running? && s.process.tx in s.journals && AdvanceRollback(s) == Some(s')
    requires Recovering(s, s.process.tx, false, s.process.reconcileOnly)
    ensures var tx, only := s.process.tx, s.process.reconcileOnly;
            Recovering(s', tx, false, only) || Ended(s', tx, false, only)
  {
  }

  lemma RecoveryStep(s: State, e: Event, s': State, tx: Transaction, release: bool, only: bool)
    requires Recovering(s, tx, release, only) && Uninterrupted(e) && Step(s, e) == Some(s')
    ensures Recovering(s', tx, release, only) || Ended(s', tx, release, only)
  {
    if e.Advance? {
      if release {
        ReconcileProgress(s, s');
      } else {
        RollbackProgress(s, s');
      }
    }
  }

  /** Consecutive states of an uninterrupted stretch of a run. */
  predicate Stretch(states: seq<State>, events: seq<Event>)
  {
    && |states| == |events| + 1
    && forall i :: 0 <= i < |events| ==> Uninterrupted(events[i]) && Step(states[i], events[i]) == Some(states[i + 1])
  }

  lemma {:induction false} RecoveryRun(states: seq<State>, events: seq<Event>, tx: Transaction, release: bool,
                                       only: bool)
    requires Stretch(states, events)
    requires Recovering(states[0], tx, release, only)
    requires forall i :: 0 < i < |events| ==> !Ended(states[i], tx, release, only)
    ensures Recovering(states[|events|], tx, release, only) || Ended(states[|events|], tx, release, only)
  {
    if |events| > 0 {
      var n := |events| - 1;
      RecoveryRun(states[..n + 1], events[..n], tx, release, only);
      RecoveryStep(states[n], events[n], states[n + 1], tx, release, only);
    }
  }

  lemma ScanFindsLive(s: State, s': State)
    requires Inv(s) && s.process.Running? && s.process.pc.Scan? && s.history.live.Some? && Advanced(s) == Some(s')
    ensures Recovering(s', s.history.live.value, s.journals[s.history.live.value].phase == ReleasePending,
                       s.process.reconcileOnly)
  {
    PendingSetIsLive(s);
  }

  /**
   * A recovery that is not interrupted stays with the journal it found until it ends, and it
   * ends in committed when that journal was release_pending and in rolled_back otherwise. Then
   * the call returns if it was made to recover only, and otherwise the update goes on.
   */
  lemma RecoveryOutcome(found: State, states: seq<State>, events: seq<Event>, tx: Transaction, release: bool,
                        only: bool)
    requires Inv(found) && found.process.Running? && found.process.pc.Scan? && found.history.live == Some(tx)
    requires release == (found.journals[tx].phase == ReleasePending) && only == found.process.reconcileOnly
    requires Stretch(states, events) && Advanced(found) == Some(states[0])
    requires forall i :: 0 <= i < |events| ==> !Ended(states[i], tx, release, only)
    ensures Recovering(states[|events|], tx, release, only) || Ended(states[|events|], tx, release, only)
  {
    ScanFindsLive(found, states[0]);
    RecoveryRun(states, events, tx, release, only);
  }

  // ---------------------------------------------------------------- what the updater can reach

  /** The state reached by a list of events, if every one of them is possible. */
  function Exec(s: State, events: seq<Event>): Option<State>
    decreases |events|
  {
    if events == [] then Some(s)
    else
      var next := Step(s, events[0]);
      if next.None? then None else Exec(next.value, events[1..])
  }

  predicate OwnStep(e: Event) { e.Start? || e.Abandon? || e.Advance? || e.Validated? }

  predicate OwnSteps(events: seq<Event>) { forall i :: 0 <= i < |events| ==> OwnStep(events[i]) }

  /** From `s` the updater can reach `s'` by its own steps, with no failure, crash or fault. */
  ghost predicate Reaches(s: State, s': State)
  {
    exists events :: OwnSteps(events) && Exec(s, events) == Some(s')
  }

  lemma ReachesSelf(s: State)
    ensures Reaches(s, s)
  {
    assert OwnSteps([]) && Exec(s, []) == Some(s);
  }

  lemma ReachesStep(s: State, e: Event, s': State, s'': State)
    requires OwnStep(e) && Step(s, e) == Some(s') && Reaches(s', s'')
    ensures Reaches(s, s'')
  {
    var events :| OwnSteps(events) && Exec(s', events) == Some(s'');
    assert ([e] + events)[1..] == events;
    assert OwnSteps([e] + events) && Exec(s, [e] + events) == Some(s'');
  }

  /** The updater works on the pending journal `tx` and stands at the given program point. */
  predicate AtPoint(s: State, tx: Transaction, pc: Pc)
  {
    && Inv(s)
    && s.process.Running? && s.process.pc == pc && s.process.tx == tx
    && s.history.live == Some(tx) && tx in s.journals
  }

  /** `s'` is the next state, with the same process at `pc`. */
  predicate Moves(s: State, s': State, tx: Transaction, pc: Pc)
  {
    Step(s, Advance) == Some(s') && s.process.Running? && s'.process == s.process.(pc := pc) && AtPoint(s', tx, pc)
  }

  // ---------------------------------------------------------------- a rollback always gets to the old project

  lemma RollbackAdvances(s: State, tx: Transaction, pc: Pc, next: Pc) returns (s': State)
    requires AtPoint(s, tx, pc)
    requires (pc, next) in {(RbSave, RbDown), (RbDown, RbRestore(0)), (RbUp, RbFinish)}
    ensures Moves(s, s', tx, next)
    ensures s.history.stopped ==> s'.history == s.history
  {
    assert AdvanceRollback(s).Some?;
    s' := Step(s, Advance).value;
    StepKeepsInv(s, Advance, s');
  }

  /** Every recorded backup of the pending journal has its archive. */
  lemma BackupIsWhole(s: State, tx: Transaction, k: nat)
    requires AtPoint(s, tx, RbRestore(k))
    ensures k < |s.journals[tx].backups| ==>
            s.journals[tx].backups[k].1 in s.archives && s.archives[s.journals[tx].backups[k].1].Whole?
  {
    var backups := s.journals[tx].backups;
    if k < |backups| {
      assert BackupOk(tx, backups[k], k, s.history, s.archives);
    }
  }

  lemma RestoreEnabled(s: State, tx: Transaction, k: nat) returns (s': State)
    requires s.process.Running? && s.process.pc == RbRestore(k) && s.process.tx == tx && tx in s.journals
    requires k < |s.journals[tx].backups| ==>
             s.journals[tx].backups[k].1 in s.archives && s.archives[s.journals[tx].backups[k].1].Whole?
    ensures AdvanceRollback(s) == Some(s') && Step(s, Advance) == Some(s')
    ensures s'.journals == s.journals && s'.history == s.history && s'.containers == s.containers
    ensures s'.archives == s.archives
    ensures s'.process == s.process.(pc := if k < |s.journals[tx].backups| then RbRestore(k + 1) else RbUp)
  {
    s' := AdvanceRollback(s).value;
  }

  lemma RestoreMoves(s: State, tx: Transaction, k: nat) returns (s': State)
    requires AtPoint(s, tx, RbRestore(k))
    ensures Moves(s, s', tx, if k < |s.journals[tx].backups| then RbRestore(k + 1) else RbUp)
    ensures s'.journals == s.journals && s'.history == s.history
  {
    BackupIsWhole(s, tx, k);
    s' := RestoreEnabled(s, tx, k);
    StepKeepsInv(s, Advance, s');
  }

  /** Volumes are being restored, whatever is running meanwhile. */
  predicate Copying(s: State, tx: Transaction, k: nat)
  {
    && s.process.Running? && s.process.pc == RbRestore(k) && s.process.tx == tx
    && tx in s.journals && k <= |s.journals[tx].backups|
    && Distinct(s.history.named)
    && BackupsOk(tx, s.journals[tx].backups, s.history, s.archives)
    && Clean(s.volumes, s.history.named, s.history.owed, 0, k)
  }

  /** The state of a rollback that differs from `s` only in its volumes and program point. */
  predicate SameButVolumes(s: State, s': State, pc: Pc)
  {
    && s.process.Running? && s'.process == s.process.(pc := pc)
    && s'.journals == s.journals && s'.history == s.history && s'.containers == s.containers
    && s'.archives == s.archives
  }

  lemma CopyOne(s: State, tx: Transaction, k: nat) returns (s': State)
    requires Copying(s, tx, k) && k < |s.journals[tx].backups|
    ensures Step(s, Advance) == Some(s') && SameButVolumes(s, s', RbRestore(k + 1)) && Copying(s', tx, k + 1)
  {
    assert BackupOk(tx, s.journals[tx].backups[k], k, s.history, s.archives);
    s' := RestoreEnabled(s, tx, k);
    RestoreKeepsClean(s.volumes, s.history.named, s.history.owed, k, 0, k);
  }

  lemma {:induction false} CopyAll(s: State, tx: Transaction, k: nat) returns (s': State)
    requires Copying(s, tx, k)
    ensures Reaches(s, s') && SameButVolumes(s, s', RbUp)
    ensures Clean(s'.volumes, s.history.named, s.history.owed, 0, |s.journals[tx].backups|)
    decreases |s.journals[tx].backups| - k
  {
    var s1;
    if k < |s.journals[tx].backups| {
      s1 := CopyOne(s, tx, k);
      s' := CopyAll(s1, tx, k + 1);
    } else {
      s1 := RestoreEnabled(s, tx, k);
      s' := s1;
      ReachesSelf(s');
    }
    ReachesStep(s, Advance, s1, s');
  }

  lemma {:induction false} ExecKeepsInv(s: State, events: seq<Event>)
    requires Inv(s) && OwnSteps(events) && Exec(s, events).Some?
    ensures Inv(Exec(s, events).value)
    decreases |events|
  {
    if events != [] {
      StepKeepsInv(s, events[0], Step(s, events[0]).value);
      ExecKeepsInv(Step(s, events[0]).value, events[1..]);
    }
  }

  lemma ReachesKeepsInv(s: State, s': State)
    requires Inv(s) && Reaches(s, s')
    ensures Inv(s')
  {
    var events :| OwnSteps(events) && Exec(s, events) == Some(s');
    ExecKeepsInv(s, events);
  }

  lemma RestoreCopying(s: State, tx: Transaction, k: nat)
    requires AtPoint(s, tx, RbRestore(k))
    ensures Copying(s, tx, k)
  {
  }

  /** From any restore point the remaining archives are all there, and the rollback gets to the old project. */
  lemma RestoreReachesUp(s: State, tx: Transaction, k: nat) returns (s': State)
    requires AtPoint(s, tx, RbRestore(k))
    ensures Reaches(s, s') && AtPoint(s', tx, RbUp)
    ensures s'.process == s.process.(pc := RbUp) && s'.history == s.history
  {
    RestoreCopying(s, tx, k);
    s' := CopyAll(s, tx, k);
    ReachesKeepsInv(s, s');
  }

  lemma RollbackReachesUp(s: State, tx: Transaction) returns (s': State)
    requires AtPoint(s, tx, RbSave)
    ensures Reaches(s, s') && AtPoint(s', tx, RbUp)
    ensures s'.process == s.process.(pc := RbUp) && (s.history.stopped ==> s'.history == s.history)
  {
    var s1 := RollbackAdvances(s, tx, RbSave, RbDown);
    var s2 := RollbackAdvances(s1, tx, RbDown, RbRestore(0));
    s' := RestoreReachesUp(s2, tx, 0);
    ReachesStep(s1, Advance, s2, s');
    ReachesStep(s, Advance, s1, s');
  }

  // ---------------------------------------------------------------- a recovery that can end

  /** The good end of a reconcile-only run for a journal found pending. */
  predicate Reconciled(s: State, tx: Transaction, release: bool)
  {
    && s.history.live == None
    && Ended(s, tx, release, true)
    && var j := s.journals[tx];
       if release then
         && Admitted(s) && s.containers.tx == tx && s.containers.croot == j.candidateRoot
         && s.pointer == Some(j.version) && s.active == Some(j.candidateRoot)
       else s.containers == Old(j.oldRoot, false)
  }

  /** A reconcile-only run recovers `tx`. */
  predicate Reconciling(s: State, tx: Transaction, pc: Pc)
  {
    AtPoint(s, tx, pc) && s.process.reconcileOnly && !s.process.inRun
  }

  function MarkerFor(s: State, tx: Transaction): Option<string>
    requires tx in s.journals
  {
    MarkerOf(s, s.journals[tx].frontend)
  }

  /** The journal's own fence is in place, or none at all. */
  predicate OwnMarker(s: State, tx: Transaction)
    requires tx in s.journals
  {
    MarkerFor(s, tx) == None || MarkerFor(s, tx) == Some(tx)
  }

  lemma EndsIn(s: State, tx: Transaction, release: bool) returns (s': State)
    requires Reconciling(s, tx, if release then RcCommit else RbFinish)
    ensures Reaches(s, s') && Reconciled(s', tx, release)
  {
    if release {
      s' := CommitsIn(s, tx);
    } else {
      s' := RollsBackIn(s, tx);
    }
    ReachesSelf(s');
    ReachesStep(s, Advance, s', s');
  }

  lemma CommitsIn(s: State, tx: Transaction) returns (s': State)
    requires Reconciling(s, tx, RcCommit)
    ensures Step(s, Advance) == Some(s') && Reconciled(s', tx, true)
  {
    s' := Step(s, Advance).value;
    StepKeepsInv(s, Advance, s');
  }

  lemma RollsBackIn(s: State, tx: Transaction) returns (s': State)
    requires Reconciling(s, tx, RbFinish)
    ensures Step(s, Advance) == Some(s') && Reconciled(s', tx, false)
  {
    s' := Step(s, Advance).value;
    StepKeepsInv(s, Advance, s');
  }

  lemma ReconcileAdvances(s: State, tx: Transaction, pc: Pc, next: Pc) returns (s': State)
    requires Reconciling(s, tx, pc) && OwnMarker(s, tx)
    requires (pc, next) in {(RcFence, RcVerify), (RcVerify, RcActivate), (RcActivate, RcUnfence), (RcUnfence, RcCommit)}
    ensures Step(s, Advance) == Some(s') && Reconciling(s', tx, next) && OwnMarker(s', tx)
  {
    assert AdvanceReconcile(s).Some?;
    s' := Step(s, Advance).value;
    StepKeepsInv(s, Advance, s');
  }

  lemma ReconcileCompletes(s: State, tx: Transaction) returns (s': State)
    requires Reconciling(s, tx, RcFence) && OwnMarker(s, tx)
    ensures Reaches(s, s') && Reconciled(s', tx, true)
  {
    var s1 := ReconcileAdvances(s, tx, RcFence, RcVerify);
    var s2 := ReconcileAdvances(s1, tx, RcVerify, RcActivate);
    var s3 := ReconcileAdvances(s2, tx, RcActivate, RcUnfence);
    var s4 := ReconcileAdvances(s3, tx, RcUnfence, RcCommit);
    s' := EndsIn(s4, tx, true);
    ReachesStep(s3, Advance, s4, s');
    ReachesStep(s2, Advance, s3, s');
    ReachesStep(s1, Advance, s2, s');
    ReachesStep(s, Advance, s1, s');
  }

  lemma ReachesThrough(s: State, s1: State, s2: State)
    requires Reaches(s, s1) && Reaches(s1, s2)
    ensures Reaches(s, s2)
  {
    var a :| OwnSteps(a) && Exec(s, a) == Some(s1);
    var b :| OwnSteps(b) && Exec(s1, b) == Some(s2);
    ExecThrough(s, a, b);
    assert OwnSteps(a + b);
  }

  lemma {:induction false} ExecThrough(s: State, a: seq<Event>, b: seq<Event>)
    requires Exec(s, a).Some?
    ensures Exec(s, a + b) == Exec(Exec(s, a).value, b)
    decreases |a|
  {
    if a == [] {
      assert a + b == b;
    } else {
      assert (a + b)[0] == a[0] && (a + b)[1..] == a[1..] + b;
      ExecThrough(Step(s, a[0]).value, a[1..], b);
    }
  }

  lemma RollbackCompletes(s: State, tx: Transaction) returns (s': State)
    requires Reconciling(s, tx, RbSave)
    ensures Reaches(s, s') && Reconciled(s', tx, false)
  {
    var s1 := RollbackReachesUp(s, tx);
    var s2 := RollbackAdvances(s1, tx, RbUp, RbFinish);
    s' := EndsIn(s2, tx, false);
    ReachesStep(s1, Advance, s2, s');
    ReachesThrough(s, s1, s');
  }

  predicate Scanning(s: State, tx: Transaction)
  {
    && Inv(s)
    && s.process.Running? && s.process.pc.Scan? && s.process.reconcileOnly
    && s.history.live == Some(tx) && tx in s.journals
  }

  function PreparingSet(s: State): set<Transaction>
  {
    set t | t in s.journals && s.journals[t].phase == Preparing
  }

  lemma AbandonShrinks(s: State, t: Transaction)
    requires t in PreparingSet(s)
    ensures PreparingSet(Saved(s, t, AbandonedBeforeMutation)) == PreparingSet(s) - {t}
  {
  }

  lemma AbandonAdvances(s: State, tx: Transaction, t: Transaction, s': State)
    requires Scanning(s, tx) && t in PreparingSet(s) && s' == Saved(s, t, AbandonedBeforeMutation)
    ensures Step(s, Abandon(t)) == Some(s')
    ensures Scanning(s', tx) && s'.journals[tx] == s.journals[tx] && s'.volumes == s.volumes
  {
    AbandonKeepsPending(s, t, s');
    AbandonKeeps(s, t, s');
  }

  lemma DecideAdvances(s: State, tx: Transaction) returns (s': State)
    requires Scanning(s, tx) && PreparingSet(s) == {}
    ensures Step(s, Advance) == Some(s') && s'.volumes == s.volumes && s'.journals == s.journals
    ensures Reconciling(s', tx, if s.journals[tx].phase == ReleasePending then RcFence else RbSave)
  {
    assert NoPreparing(s) by {
      forall t | t in s.journals ensures s.journals[t].phase != Preparing {
        assert t !in PreparingSet(s);
      }
    }
    PendingSetIsLive(s);
    s' := ScanDone(s);
    ScanKeeps(s);
  }

  /** Reads every journal, abandons the unfinished preparations and decides. */
  lemma {:induction false} ScanReaches(s: State, tx: Transaction) returns (s': State)
    requires Scanning(s, tx)
    ensures Reaches(s, s') && s'.volumes == s.volumes
    ensures Reconciling(s', tx, if s.journals[tx].phase == ReleasePending then RcFence else RbSave)
    ensures s'.journals[tx] == s.journals[tx] && s'.history == s.history
    decreases |PreparingSet(s)|
  {
    if PreparingSet(s) == {} {
      s' := DecideAdvances(s, tx);
      ReachesSelf(s');
      ReachesStep(s, Advance, s', s');
    } else {
      var t :| t in PreparingSet(s);
      var s1 := Saved(s, t, AbandonedBeforeMutation);
      AbandonAdvances(s, tx, t, s1);
      AbandonShrinks(s, t);
      s' := ScanReaches(s1, tx);
      ReachesStep(s, Abandon(t), s1, s');
    }
  }

  lemma StartScans(s: State, tx: Transaction) returns (s': State)
    requires Inv(s) && s.process.Idle? && s.history.live == Some(tx)
    ensures Step(s, Start(tx, "", "", true)) == Some(s') && Scanning(s', tx)
    ensures s'.journals == s.journals && s'.volumes == s.volumes && s'.history == s.history
  {
    s' := Step(s, Start(tx, "", "", true)).value;
    StepKeepsInv(s, Start(tx, "", "", true), s');
  }

  lemma RecoveryCompletes(s: State, tx: Transaction) returns (s': State)
    requires Inv(s) && s.process.Idle? && s.history.live == Some(tx)
    requires s.journals[tx].phase == ReleasePending ==> OwnMarker(s, tx)
    ensures Reaches(s, s') && Reconciled(s', tx, s.journals[tx].phase == ReleasePending)
  {
    var s1 := StartScans(s, tx);
    var s2 := ScanReaches(s1, tx);
    if s.journals[tx].phase == ReleasePending {
      s' := ReconcileCompletes(s2, tx);
    } else {
      s' := RollbackCompletes(s2, tx);
    }
    ReachesThrough(s1, s2, s');
    ReachesStep(s, Start(tx, "", "", true), s1, s');
  }

  // ---------------------------------------------------------------- a recovery that cannot end

  /** The release of `tx` is pending behind a marker file whose text is not its own. */
  predicate TornFence(s: State, tx: Transaction)
  {
    && s.history.live == Some(tx) && tx in s.journals && s.journals[tx].phase == ReleasePending
    && !OwnMarker(s, tx)
  }

  /** ... and the updater, if it runs, is on its way to the fence. */
  predicate Stuck(s: State, tx: Transaction) { Inv(s) && BeforeFence(s, tx) }

  predicate BeforeFence(s: State, tx: Transaction)
  {
    && TornFence(s, tx)
    && (s.process.Running? ==>
          s.process.pc.Scan? || (s.process.tx == tx && (s.process.pc.RcFence? || s.process.pc.HandlerFence?)))
  }

  lemma StuckAdvance(s: State, s': State, tx: Transaction)
    requires Stuck(s, tx) && s.process.Running? && Advanced(s) == Some(s')
    ensures s.process.pc.Scan? && s'.journals == s.journals && s'.volumes == s.volumes && s'.history == s.history
    ensures s'.process.Running? && s'.process.pc.RcFence? && s'.process.tx == tx
  {
    PendingSetIsLive(s);
  }

  lemma StuckProcess(s: State, e: Event, s': State, tx: Transaction)
    requires BeforeFence(s, tx) && Step(s, e) == Some(s') && (e.Start? || e.Abandon? || e.Fail? || e.Crash?)
    ensures TornFence(s', tx) && (s'.process.Idle? || s'.process.pc.Scan?)
  {
    if e.Abandon? {
      assert e.tx != tx;
    }
  }

  /** No project event is possible but writes of the candidate itself, which leave the marker alone. */
  lemma StuckProject(s: State, e: Event, s': State, tx: Transaction)
    requires Stuck(s, tx) && Step(s, e) == Some(s')
    requires e.OldWrites? || e.CandidateWrites? || e.CandidateServes? || e.RestoredWrites?
    ensures e.CandidateWrites? && TornFence(s', tx) && s'.process == s.process
  {
    WritesKeepMarkers(s.volumes, e.writes);
  }

  lemma StuckOther(s: State, e: Event, tx: Transaction)
    requires BeforeFence(s, tx)
    requires e.Tear? || e.SaveFails? || e.DownFails? || e.Validated? || e.Reject?
    ensures Step(s, e) == None
  {
  }

  /** No step whatever gets past the torn fence. */
  lemma StuckStep(s: State, e: Event, s': State, tx: Transaction)
    requires Stuck(s, tx) && Benign(s, e) && Step(s, e) == Some(s')
    ensures Stuck(s', tx)
  {
    StepKeepsInv(s, e, s');
    if e.Advance? {
      StuckAdvance(s, s', tx);
    } else if e.Start? || e.Abandon? || e.Fail? || e.Crash? {
      StuckProcess(s, e, s', tx);
    } else if e.OldWrites? || e.CandidateWrites? || e.CandidateServes? || e.RestoredWrites? {
      StuckProject(s, e, s', tx);
    } else {
      StuckOther(s, e, tx);
    }
  }

  /** Once stuck, a run stays stuck. */
  predicate StaysStuck(states: seq<State>, tx: Transaction)
  {
    forall m :: 0 <= m < |states| - 1 && Stuck(states[m], tx) ==> Stuck(states[m + 1], tx)
  }

  lemma RunStaysStuck(states: seq<State>, events: seq<Event>, tx: Transaction)
    requires BenignRun(states, events)
    ensures StaysStuck(states, tx)
  {
    forall m | 0 <= m < |states| - 1 && Stuck(states[m], tx) ensures Stuck(states[m + 1], tx) {
      StuckStep(states[m], events[m], states[m + 1], tx);
    }
  }

  lemma {:induction false} StuckFrom(states: seq<State>, i: nat, k: nat, tx: Transaction)
    requires StaysStuck(states, tx) && i <= k < |states| && Stuck(states[i], tx)
    ensures Stuck(states[k], tx)
    decreases k
  {
    if i < k {
      StuckFrom(states, i, k - 1, tx);
      assert Stuck(states[k - 1 + 1], tx);
    }
  }

  /** A marker cut while its release is pending blocks every later run: the journal stays release_pending for good. */
  lemma TornMarkerBlocksRecovery(states: seq<State>, events: seq<Event>, i: nat, k: nat, tx: Transaction)
    requires BenignRun(states, events) && i <= k < |states| && states[i].process.Idle? && TornFence(states[i], tx)
    ensures TornFence(states[k], tx)
  {
    RunKeepsInv(states, events, i);
    RunStaysStuck(states, events, tx);
    StuckFrom(states, i, k, tx);
  }

  /** Every cut of the fence while a release is pending ends there. */
  lemma CutFenceBlocks(s: State, torn: Files, s': State)
    requires Inv(s) && s.process.Running? && (s.process.pc.RcFence? || s.process.pc.HandlerFence?)
    requires Step(s, Tear(torn)) == Some(s')
    ensures Stuck(s', s.process.tx)
  {
    FenceIsPending(s);
    TearCuts(s, torn, s');
    StepKeepsInv(s, Tear(torn), s');
    CutFence(s, torn, s');
  }

  lemma FenceIsPending(s: State)
    requires Inv(s) && s.process.Running? && (s.process.pc.RcFence? || s.process.pc.HandlerFence?)
    ensures s.process.tx in s.journals && In(s, ReleasePending)
  {
  }

  lemma TearCuts(s: State, torn: Files, s': State)
    requires s.process.Running? && s.process.tx in s.journals && Step(s, Tear(torn)) == Some(s')
    ensures Cut(s, torn) == Some(s')
  {
  }

  lemma CutFence(s: State, torn: Files, s': State)
    requires s.process.Running? && s.process.tx in s.journals && In(s, ReleasePending)
    requires (s.process.pc.RcFence? || s.process.pc.HandlerFence?) && Cut(s, torn) == Some(s')
    ensures TornFence(s', s.process.tx) && s'.process == s.process
  {
    CutEffect(s, torn, s');
    assert MarkerFor(s', s.process.tx) == torn.marker;
  }

  lemma {:induction false} StuckExec(s: State, events: seq<Event>, tx: Transaction)
    requires Stuck(s, tx) && OwnSteps(events) && Exec(s, events).Some?
    ensures Stuck(Exec(s, events).value, tx)
    decreases |events|
  {
    if events != [] {
      var s1 := Step(s, events[0]).value;
      StuckStep(s, events[0], s1, tx);
      StuckExec(s1, events[1..], tx);
    }
  }

  /** The updater can carry the pending update `tx` to its end, committed exactly when it was release_pending. */
  ghost predicate CanRecover(s: State, tx: Transaction)
    requires tx in s.journals
  {
    exists s' :: Reaches(s, s') && Reconciled(s', tx, s.journals[tx].phase == ReleasePending)
  }

  /**
   * Wherever a benign run left an update pending, a reconcile-only run can carry it to its end,
   * with a project up afterwards, exactly when a pending release has its own marker or none.
   */
  lemma RecoveryCanCompleteExactly(states: seq<State>, events: seq<Event>, i: nat, tx: Transaction)
    requires BenignRun(states, events) && i < |states|
    requires states[i].process.Idle? && tx in states[i].journals && IsPending(states[i].journals[tx].phase)
    ensures CanRecover(states[i], tx) <==> (states[i].journals[tx].phase == ReleasePending ==> OwnMarker(states[i], tx))
  {
    var s := states[i];
    RunKeepsInv(states, events, i);
    assert s.history.live == Some(tx);
    if s.journals[tx].phase == ReleasePending && !OwnMarker(s, tx) {
      forall s' | Reaches(s, s') ensures !Reconciled(s', tx, true) {
        var own :| OwnSteps(own) && Exec(s, own) == Some(s');
        StuckExec(s, own, tx);
      }
    } else {
      var s' := RecoveryCompletes(s, tx);
    }
  }
}
