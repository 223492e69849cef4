/**
 * What the environment can do to an update: for every reachable state in which an assumption fails, or in which a
 * write is lost, how it comes about.
 */
module UpdateFaults {
  import opened Wrappers
  import opened UpdateTransaction
  import opened UpdateInvariant
  import opened UpdateSafety
  import opened UpdateRecovery
  import opened UpdateProgress

  // ---------------------------------------------------------------- a project that does not go down

  lemma DownFailsCopies(s: State, tx: Transaction) returns (s1: State)
    requires AtPoint(s, tx, RbDown)
    ensures Step(s, DownFails) == Some(s1) && Copying(s1, tx, 0) && SameButVolumes(s, s1, RbRestore(0))
  {
    s1 := Step(s, DownFails).value;
  }

  /** The write of whatever project is running. */
  function ProjectWrite(c: Containers, writes: map<Volume, int>): Event
    requires !c.Down?
  {
    if c.Candidate? then CandidateWrites(writes) else if c.restored then RestoredWrites(writes) else OldWrites(writes)
  }

  lemma RunningProjectWrites(s: State, writes: map<Volume, int>) returns (s': State)
    requires !s.containers.Down?
    ensures Step(s, ProjectWrite(s.containers, writes)) == Some(s')
    ensures s'.volumes == Written(s.volumes, writes) && s'.process == s.process && s'.containers == s.containers
  {
    s' := Step(s, ProjectWrite(s.containers, writes)).value;
  }

  /** A rollback is about to start the old project while `c` is still running and has just written `writes`. */
  predicate StartsBesides(s: State, tx: Transaction, c: Containers, before: map<Volume, Files>,
                          writes: map<Volume, int>)
  {
    && s.process.Running? && s.process.pc.RbUp? && s.process.tx == tx
    && s.containers == c && s.volumes == Written(before, writes)
  }

  /**
   * Whenever `down` fails, is ignored and anything is still up, the rollback goes on beside it: the old project is
   * started while that project runs and on whatever it has just written.
   */
  lemma IgnoredDownBreaksRollback(s: State, tx: Transaction, writes: map<Volume, int>)
    returns (s1: State, s2: State, s3: State)
    requires AtPoint(s, tx, RbDown) && !s.containers.Down?
    ensures Step(s, DownFails) == Some(s1) && Reaches(s1, s2)
    ensures Step(s2, ProjectWrite(s.containers, writes)) == Some(s3)
    ensures StartsBesides(s3, tx, s.containers, s2.volumes, writes)
  {
    s1 := DownFailsCopies(s, tx);
    s2 := CopyAll(s1, tx, 0);
    s3 := RunningProjectWrites(s2, writes);
  }

  /** ... and if it is a candidate with its frontend, it takes traffic although its journal is rolling_back. */
  lemma IgnoredDownAdmitsCandidate(s: State, tx: Transaction) returns (s1: State, s2: State)
    requires AtPoint(s, tx, RbDown) && s.containers.Candidate? && s.containers.web
    ensures Step(s, DownFails) == Some(s1) && Reaches(s1, s2)
    ensures Admitted(s2) && s2.containers.tx == tx && s2.journals[tx].phase == RollingBack
  {
    s1 := DownFailsCopies(s, tx);
    s2 := CopyAll(s1, tx, 0);
    FrontendRestored(s, s2, tx);
  }

  lemma FrontendRestored(s: State, s2: State, tx: Transaction)
    requires AtPoint(s, tx, RbDown) && s.containers.Candidate?
    requires Clean(s2.volumes, s.history.named, s.history.owed, 0, |s.journals[tx].backups|)
    ensures s.containers.tx == tx && Content(s2.volumes, s.journals[tx].frontend).marker == None
    ensures s.journals[tx].phase == RollingBack
  {
    var h, frontend := s.history, s.journals[tx].frontend;
    assert StoppedOk(s, tx, s.journals[tx]);
    var i :| 0 <= i < |h.named| && h.named[i] == frontend;
    assert Holds(s2.volumes, h.owed, h.named[i]);
  }

  // ---------------------------------------------------------------- a commit that could not be saved

  /** The handler of a failed commit save takes the released candidate down and restores the old contents. */
  lemma CommitFailureRollsBack(s: State, tx: Transaction) returns (s': State)
    requires Inv(s) && s.process.Running? && s.process.pc.RbSave? && s.process.tx == tx && tx in s.journals
             && Retracting(s)
    ensures Reaches(s, s') && AtPoint(s', tx, RbUp) && AllClean(s') && s'.history == s.history.(live := Some(tx))
  {
    var s1 := RetractionSaved(s, tx);
    var s2 := RollbackAdvances(s1, tx, RbDown, RbRestore(0));
    s' := RestoreReachesUp(s2, tx, 0);
    RestoredState(s');
    ReachesStep(s1, Advance, s2, s');
    ReachesStep(s, Advance, s1, s');
  }

  lemma RetractionSaved(s: State, tx: Transaction) returns (s1: State)
    requires Inv(s) && s.process.Running? && s.process.pc.RbSave? && s.process.tx == tx && tx in s.journals
             && Retracting(s)
    ensures Step(s, Advance) == Some(s1) && AtPoint(s1, tx, RbDown)
    ensures s1.history == s.history.(live := Some(tx)) && s1.history.stopped
  {
    s1 := Step(s, Advance).value;
    StepKeepsInv(s, Advance, s1);
  }

  lemma CommitCounts(s: State, tx: Transaction)
    requires AtPoint(s, tx, Commit)
    ensures s.history.captured <= s.history.accepted
  {
    CommitIsStopped(s, tx);
    StoppedCounts(s, tx);
  }

  lemma CommitIsStopped(s: State, tx: Transaction)
    requires s.process.Running? && s.process.pc.Commit? && s.process.tx == tx && tx in s.journals && ProcessOk(s)
    ensures s.history.stopped
  {
  }

  lemma StoppedCounts(s: State, tx: Transaction)
    requires Core(s) && s.history.live == Some(tx) && s.history.stopped
    ensures s.history.captured <= s.history.accepted
  {
  }

  lemma CommitIsStage(s: State)
    requires Inv(s) && s.process.Running? && s.process.pc.Commit?
    ensures Stage(s)
  {
  }

  lemma CommitIsAdmitted(s: State, tx: Transaction)
    requires AtPoint(s, tx, Commit)
    ensures Admitted(s)
  {
    assert Stage(s);
  }

  /** What a write of the candidate's clients does. */
  lemma ServesEffect(s: State, writes: map<Volume, int>) returns (s1: State)
    requires Admitted(s)
    ensures Step(s, CandidateServes(writes)) == Some(s1)
    ensures s1.history == s.history.(accepted := s.history.accepted + 1)
    ensures s1.process == s.process && s1.journals == s.journals
  {
    s1 := Step(s, CandidateServes(writes)).value;
  }

  lemma ReleasedServes(s: State, tx: Transaction, writes: map<Volume, int>) returns (s1: State)
    requires AtPoint(s, tx, Commit)
    ensures Admitted(s) && Step(s, CandidateServes(writes)) == Some(s1) && AtPoint(s1, tx, Commit)
    ensures s1.history == s.history.(accepted := s.history.accepted + 1)
  {
    CommitIsAdmitted(s, tx);
    s1 := ServesEffect(s, writes);
    StepKeepsInv(s, CandidateServes(writes), s1);
  }

  lemma CommitFailsEffect(s: State, tx: Transaction) returns (s1: State)
    requires s.process.Running? && s.process.pc.Commit? && s.process.tx == tx && tx in s.journals
    ensures Step(s, SaveFails) == Some(s1) && SaveFailed(s) == Some(s1) && FailsCommit(s, SaveFails)
    ensures s1.process == s.process.(pc := RbSave, inRun := true) && tx in s1.journals
    ensures s1.history == s.history.(live := None, retracted := true)
  {
    s1 := Step(s, SaveFails).value;
  }

  lemma CommitFails(s: State, tx: Transaction) returns (s1: State)
    requires AtPoint(s, tx, Commit)
    ensures Step(s, SaveFails) == Some(s1) && Inv(s1) && FailsCommit(s, SaveFails)
    ensures s1.process.Running? && s1.process.pc.RbSave? && s1.process.tx == tx && tx in s1.journals && Retracting(s1)
    ensures s1.history == s.history.(live := None, retracted := true)
  {
    s1 := CommitFailsEffect(s, tx);
    CommitIsStage(s);
    CommitSaveFailsKeeps(s, s1);
    RollbackInv(s1);
  }

  /**
   * At every commit a client write may be accepted, the save may then fail, and the handler starts the old project on
   * contents that owe nothing to that write.
   */
  lemma SurvivedCommitFailureLosesWrite(s: State, tx: Transaction, writes: map<Volume, int>)
    returns (s1: State, s2: State, s3: State)
    requires AtPoint(s, tx, Commit)
    ensures Step(s, CandidateServes(writes)) == Some(s1) && Step(s1, SaveFails) == Some(s2) && Reaches(s2, s3)
    ensures AtPoint(s3, tx, RbUp) && AllClean(s3)
    ensures s3.history.owed == s.history.owed && s3.history.named == s.history.named
    ensures s3.history.captured < s3.history.accepted
  {
    s1 := ReleasedServes(s, tx, writes);
    s2 := CommitFails(s1, tx);
    s3 := CommitFailureRollsBack(s2, tx);
    CommitCounts(s, tx);
  }

  // ---------------------------------------------------------------- a restored project that writes

  /** The next reconcile-only run, after the updater has died. */
  lemma RestartReachesUp(s: State, tx: Transaction) returns (s': State)
    requires Inv(s) && s.process.Idle? && s.history.live == Some(tx) && s.history.stopped
    requires s.journals[tx].phase != ReleasePending
    ensures Reaches(s, s') && AtPoint(s', tx, RbUp) && s'.history == s.history
  {
    var s1 := StartScans(s, tx);
    var s2 := ScanReaches(s1, tx);
    s' := RollbackReachesUp(s2, tx);
    ReachesThrough(s1, s2, s');
    ReachesStep(s, Start(tx, "", "", true), s1, s');
  }

  lemma RestoredWritesEffect(s: State, writes: map<Volume, int>) returns (s1: State)
    requires s.containers.Old? && s.containers.restored
    ensures Step(s, RestoredWrites(writes)) == Some(s1)
    ensures s1.history == Mended(s, writes) && s1.history.stopped == s.history.stopped && s1.journals == s.journals
  {
    s1 := Step(s, RestoredWrites(writes)).value;
  }

  lemma RestoredWritesStep(s: State, tx: Transaction, writes: map<Volume, int>) returns (s1: State)
    requires Inv(s) && s.containers.Old? && s.containers.restored && s.history.live == Some(tx)
    ensures Step(s, RestoredWrites(writes)) == Some(s1) && Inv(s1) && Inv(Exit(s1))
    ensures s1.history == Mended(s, writes) && s1.history.stopped && s1.journals == s.journals
    ensures Recoverable(s.journals[tx].phase)
  {
    RestoredPending(s);
    s1 := RestoredWritesEffect(s, writes);
    StepKeepsInv(s, RestoredWrites(writes), s1);
    SameCore(s1, Exit(s1));
  }

  /**
   * Every write of a restored project to a named volume without a recorded backup is still there when a later rollback
   * starts the project again.
   */
  lemma EarlyWriteSurvivesRollback(s: State, tx: Transaction, writes: map<Volume, int>, v: Volume)
    returns (s1: State, s2: State)
    requires Inv(s) && s.containers.Old? && s.containers.restored && s.history.live == Some(tx)
    requires v in s.history.named && v in writes && v in s.history.owed && !Backed(s, v)
    ensures Step(s, RestoredWrites(writes)) == Some(s1) && Reaches(Exit(s1), s2)
    ensures AtPoint(s2, tx, RbUp) && Content(s2.volumes, v).data == writes[v]
  {
    s1 := RestoredWritesStep(s, tx, writes);
    s2 := RestartReachesUp(Exit(s1), tx);
    RestoredState(s2);
    var n :| 0 <= n < |s.history.named| && s.history.named[n] == v;
    assert Holds(s2.volumes, s2.history.owed, s2.history.named[n]);
  }

  /** Every write of a restored project to a volume with a backup is overwritten by the next rollback. */
  lemma LateWriteIsOverwritten(s: State, tx: Transaction, writes: map<Volume, int>, v: Volume)
    returns (s1: State, s2: State)
    requires Inv(s) && s.containers.Old? && s.containers.restored && s.history.live == Some(tx)
    requires v in s.history.named && v in writes && v in s.history.owed && Backed(s, v)
    ensures Step(s, RestoredWrites(writes)) == Some(s1) && Reaches(Exit(s1), s2)
    ensures AtPoint(s2, tx, RbUp) && Content(s2.volumes, v) == s.history.owed[v]
    ensures s2.history.accepted == s.history.accepted + 1
  {
    s1 := RestoredWritesStep(s, tx, writes);
    s2 := RestartReachesUp(Exit(s1), tx);
    RestoredState(s2);
    var n :| 0 <= n < |s.history.named| && s.history.named[n] == v;
    assert Holds(s2.volumes, s2.history.owed, s2.history.named[n]);
  }

  // ---------------------------------------------------------------- all of these states are reached

  /** From every quiet installation: a restored project none of whose volumes has a backup. */
  lemma CanRestoreUnbacked(s: State, plan: Plan) returns (s1: State, s2: State, s3: State)
    requires Quiet(s, plan)
    ensures Reaches(s, s1) && Step(s1, Fail) == Some(s2) && Reaches(s2, s3)
    ensures Inv(s3) && s3.containers.Old? && s3.containers.restored && s3.history.live == Some(plan.tx)
    ensures plan.tx in s3.journals && s3.journals[plan.tx].backups == []
  {
    s1 := CanStop(s, plan);
    s2 := FailedSnapshot(s1, plan);
    s3 := NothingToRestore(s2, plan.tx);
  }

  /** A failure in the attempt before its release makes the handler roll back. */
  lemma FailEffect(s: State) returns (s': State)
    requires s.process.Running? && InTry(s.process.pc)
    requires s.process.tx in s.journals && s.journals[s.process.tx].phase != ReleasePending
    ensures Step(s, Fail) == Some(s') && s' == s.(process := s.process.(pc := RbSave, inRun := true))
  {
    s' := Step(s, Fail).value;
  }

  lemma FailedSnapshot(s: State, plan: Plan) returns (s': State)
    requires Doing(s, plan, Snapshot(0), None) && Equipped(s, plan)
    ensures Step(s, Fail) == Some(s') && AtPoint(s', plan.tx, RbSave) && s'.history.stopped
    ensures s'.journals[plan.tx].backups == []
  {
    assert s.process.tx in s.journals && s.journals[s.process.tx].phase != ReleasePending;
    s' := FailEffect(s);
    StepKeepsInv(s, Fail, s');
  }

  lemma RollbackFields(s: State, s': State, tx: Transaction)
    requires s.process.Running? && s.process.tx == tx && tx in s.journals && Step(s, Advance) == Some(s')
    requires s.process.pc.RbSave? || s.process.pc.RbDown? || s.process.pc.RbUp?
    ensures tx in s'.journals && s'.journals[tx].backups == s.journals[tx].backups
    ensures s.process.pc.RbSave? ==> s'.containers == s.containers
    ensures s.process.pc.RbUp? ==> s'.containers.Old? && s'.containers.restored
  {
    assert AdvanceRollback(s) == Some(s');
  }

  lemma NothingToRestore(s: State, tx: Transaction) returns (s': State)
    requires AtPoint(s, tx, RbSave) && s.history.stopped && s.journals[tx].backups == []
    ensures Reaches(s, s') && AtPoint(s', tx, RbFinish) && s'.journals[tx].backups == []
    ensures s'.containers.Old? && s'.containers.restored
  {
    var s1 := RollbackAdvances(s, tx, RbSave, RbDown);
    RollbackFields(s, s1, tx);
    var s2 := RollbackAdvances(s1, tx, RbDown, RbRestore(0));
    RollbackFields(s1, s2, tx);
    var s3 := RestoreMoves(s2, tx, 0);
    s' := RollbackAdvances(s3, tx, RbUp, RbFinish);
    RollbackFields(s3, s', tx);
    ReachesSelf(s');
    ReachesStep(s3, Advance, s', s');
    ReachesStep(s2, Advance, s3, s');
    ReachesStep(s1, Advance, s2, s');
    ReachesStep(s, Advance, s1, s');
  }

  /** From every quiet installation: a rollback whose `down` finds a candidate with its frontend up. */
  lemma CanRollBackCandidate(s: State, plan: Plan) returns (s1: State, s2: State, s3: State)
    requires Quiet(s, plan)
    ensures Reaches(s, s1) && Step(s1, Fail) == Some(s2) && Step(s2, Advance) == Some(s3)
    ensures AtPoint(s3, plan.tx, RbDown) && s3.containers.Candidate? && s3.containers.web
  {
    var s0 := CanStop(s, plan);
    s1 := CanVerify(s0, plan);
    ReachesThrough(s, s0, s1);
    s2 := FailedVerify(s1, plan);
    s3 := RollbackAdvances(s2, plan.tx, RbSave, RbDown);
    RollbackFields(s2, s3, plan.tx);
  }

  lemma FailedVerify(s: State, plan: Plan) returns (s': State)
    requires Doing(s, plan, Verify, Some(plan.tx)) && Equipped(s, plan)
    ensures Step(s, Fail) == Some(s') && AtPoint(s', plan.tx, RbSave)
    ensures s'.containers.Candidate? && s'.containers.web
  {
    assert s.process.tx in s.journals && s.journals[s.process.tx].phase != ReleasePending;
    s' := FailEffect(s);
    StepKeepsInv(s, Fail, s');
  }

  /** From every quiet installation: an unfenced candidate whose commit is about to be saved. */
  lemma CanReachCommit(s: State, plan: Plan) returns (s': State)
    requires Quiet(s, plan)
    ensures Reaches(s, s') && AtPoint(s', plan.tx, Commit)
  {
    var s1 := CanStop(s, plan);
    var s2 := CanVerify(s1, plan);
    s' := CanRelease(s2, plan);
    ReachesThrough(s1, s2, s');
    ReachesThrough(s, s1, s');
    CommitPoint(s', plan);
  }

  lemma CommitPoint(s: State, plan: Plan)
    requires Doing(s, plan, Commit, None)
    ensures AtPoint(s, plan.tx, Commit)
  {
    assert Stage(s);
  }
}
