/** The inductive invariant of the update transaction and its preservation by every benign step. */
module UpdateInvariant {
  import opened Wrappers
  import opened UpdateTransaction

  // The parts below take only the components they speak about, so a step that leaves those
  // components alone keeps them without further argument.

  predicate LiveIsPending(journals: map<Transaction, Journal>, live: Option<Transaction>)
  {
    && (live.Some? ==> live.value in journals)
    && forall t :: t in journals ==> (IsPending(journals[t].phase) <==> live == Some(t))
  }

  /** The volume holds what is owed to the replaced project. */
  predicate Holds(volumes: map<Volume, Files>, owed: map<Volume, Files>, v: Volume)
  {
    v in owed && Content(volumes, v) == owed[v]
  }

  /** The named volumes from position `lo` up to `hi` hold what is owed. */
  predicate Clean(volumes: map<Volume, Files>, named: seq<Volume>, owed: map<Volume, Files>, lo: nat, hi: nat)
  {
    hi <= |named| && forall i :: lo <= i < hi ==> Holds(volumes, owed, named[i])
  }

  /**
   * The `i`-th recorded backup is the `i`-th named volume, archived whole as it was when the project
   * stopped, and nothing else is owed for it.
   */
  predicate BackupOk(tx: Transaction, backup: (Volume, BackupName), i: nat, h: History,
                     archives: map<BackupName, Archive>)
  {
    && i < |h.named|
    && backup == (h.named[i], NameOf(tx, i))
    && NameOf(tx, i) in archives
    && h.named[i] in h.baseline && h.named[i] in h.owed
    && h.owed[h.named[i]] == h.baseline[h.named[i]]
    && archives[NameOf(tx, i)] == Whole(h.baseline[h.named[i]], h.captured)
  }

  predicate BackupsOk(tx: Transaction, backups: seq<(Volume, BackupName)>, h: History,
                      archives: map<BackupName, Archive>)
  {
    && |backups| <= |h.named|
    && forall i :: 0 <= i < |backups| ==> BackupOk(tx, backups[i], i, h, archives)
  }

  /** The replaced project had no marker, and is owed none. */
  predicate NoMarkerOwed(h: History, frontend: Volume)
  {
    && frontend in h.baseline && h.baseline[frontend].marker == None
    && frontend in h.owed && h.owed[frontend].marker == None
  }

  /** Client writes since the stop were accepted by a restored project, unless the candidate was released. */
  predicate CountsOk(h: History, released: bool)
  {
    h.captured + h.mended <= h.accepted && (!released ==> h.accepted == h.captured + h.mended)
  }

  /** Which containers may run, phase by phase, once the replaced project has stopped. */
  predicate PhaseOk(phase: Phase, c: Containers, tx: Transaction, marker: Option<string>, saved: bool, retracted: bool)
  {
    var mine := c.Candidate? && c.tx == tx;
    var fenced := marker == Some(tx);
    match phase
    case StoppingOldProject => !retracted && c.Down?
    case SnapshotComplete => !retracted && c.Down? && saved
    case CandidateDatabaseStarting => !retracted && saved && fenced && (c.Down? || (mine && !c.web))
    case MigrationStarted => !retracted && saved && fenced && mine && !c.web
    case CandidateServicesStarting => !retracted && saved && fenced && mine
    case ReleasePending => !retracted && saved && mine && c.web
    case _ => c.Down? || (c.Old? && c.restored) || (mine && saved && (fenced || retracted))
  }

  predicate Unstopped(j: Journal, c: Containers, marker: Option<string>)
  {
    && c.Old? && !c.restored && c.root == j.oldRoot
    && j.backups == []
    && marker == None
    && (j.phase == StoppingOldProject || j.phase == RollingBack || j.phase == RecoveryRequired)
  }

  /** The journal names the tree of the stopped project, and what is up runs from the tree that the journal says. */
  predicate RootsOk(c: Containers, h: History, j: Journal)
  {
    && j.oldRoot == h.home
    && (c.Old? ==> c.root == h.home)
    && (c.Candidate? ==> c.croot == j.candidateRoot)
  }

  /** Every named volume can be brought back: it has a backup, or holds what is owed. */
  predicate StoppedOk(s: State, tx: Transaction, j: Journal)
  {
    var h := s.history;
    && PhaseOk(j.phase, s.containers, tx, MarkerOf(s, j.frontend), |j.backups| == |h.named|, h.retracted)
    && RootsOk(s.containers, h, j)
    && BackupsOk(tx, j.backups, h, s.archives)
    && NoMarkerOwed(h, j.frontend)
    && CountsOk(h, j.phase == ReleasePending || h.retracted)
    && (Recoverable(j.phase) ==> Clean(s.volumes, h.named, h.owed, |j.backups|, |h.named|))
  }

  predicate LiveOk(s: State, tx: Transaction, j: Journal)
  {
    && j.frontend in s.history.named
    && Distinct(s.history.named)
    && if s.history.stopped then StoppedOk(s, tx, j) else Unstopped(j, s.containers, MarkerOf(s, j.frontend))
  }

  predicate QuietOk(c: Containers, journals: map<Transaction, Journal>, stopped: bool)
  {
    || (c.Old? && !c.restored && !stopped)
    || (c.Candidate? && c.web && c.tx in journals && journals[c.tx].phase == Committed)
  }

  /** Nothing is pending and the attempt's own inventory is sound. */
  predicate PreparedOk(s: State)
    requires s.process.Running?
  {
    var p := s.process;
    && s.containers == Old(p.oldRoot, false)
    && p.frontend in p.named
    && Distinct(p.named)
  }

  predicate OwnJournal(s: State)
    requires s.process.Running?
  {
    var p := s.process;
    && p.tx in s.journals
    && s.journals[p.tx] == Journal(Preparing, p.version, p.root, p.oldRoot, p.frontend, [])
  }

  /** The process works on the pending journal, which is in the given phase. */
  predicate In(s: State, phase: Phase)
    requires s.process.Running?
  {
    && s.process.tx in s.journals
    && s.history.live == Some(s.process.tx)
    && s.journals[s.process.tx].phase == phase
  }

  /** ... and it is the attempt that wrote that journal. */
  predicate Own(s: State, phase: Phase)
    requires s.process.Running?
  {
    && In(s, phase)
    && s.history.named == s.process.named
    && s.journals[s.process.tx].frontend == s.process.frontend
    && s.journals[s.process.tx].version == s.process.version
    && s.journals[s.process.tx].candidateRoot == s.process.root
  }

  predicate WebUp(s: State) { s.containers.Candidate? && s.containers.web }

  predicate AllClean(s: State) { Clean(s.volumes, s.history.named, s.history.owed, 0, |s.history.named|) }

  /** The handler rolls back although `committed` is already durable, and the released candidate is up. */
  predicate Retracting(s: State)
    requires s.process.Running? && s.process.tx in s.journals
  {
    var p, h := s.process, s.history;
    var j := s.journals[p.tx];
    && p.inRun && h.live == None && h.stopped && h.retracted
    && j.phase == Committed && s.pointer == Some(j.version) && s.active == Some(j.candidateRoot)
    && RootsOk(s.containers, h, j)
    && s.containers.Candidate? && s.containers.tx == p.tx && s.containers.web
    && j.frontend in h.named && Distinct(h.named) && |j.backups| == |h.named|
    && BackupsOk(p.tx, j.backups, h, s.archives) && NoMarkerOwed(h, j.frontend) && CountsOk(h, true)
  }

  // ---------------------------------------------------------------- program points

  predicate InRelease(pc: Pc)
  {
    || pc.SaveServices? || pc.ServicesUp? || pc.Verify? || pc.SaveReleasePending?
    || pc.Activate? || pc.Unfence? || pc.Commit? || pc.HandlerFence?
  }

  predicate InStage(pc: Pc) { (InCapture(pc) && !pc.StopOld?) || (InRelease(pc) && !pc.HandlerFence?) }

  predicate RollsBack(pc: Pc) { InRollback(pc) || pc.RbGiveUp? }

  /** The durable phase at each program point between the stop of the old project and the commit. */
  function PhaseAt(pc: Pc): Phase
  {
    if pc.Snapshot? || pc.RecordBackup? then StoppingOldProject
    else if pc.WriteMarker? || pc.SaveDbStarting? then SnapshotComplete
    else if pc.DbUp? || pc.SaveMigration? then CandidateDatabaseStarting
    else if pc.Migrate? || pc.SaveServices? then MigrationStarted
    else if pc.ServicesUp? || pc.Verify? || pc.SaveReleasePending? then CandidateServicesStarting
    else ReleasePending
  }

  predicate SnapshotOk(s: State, k: nat)
    requires s.process.Running? && s.process.tx in s.journals
  {
    && AllClean(s) && s.history.owed == s.history.baseline && s.history.mended == 0
    && k == |s.journals[s.process.tx].backups| && k <= |s.process.named|
  }

  /** The active release is the one that the process works on. */
  predicate Activated(s: State)
    requires s.process.Running?
  {
    s.pointer == Some(s.process.version) && s.active == Some(s.process.root)
  }

  /** At each of those program points the attempt works on its own journal, and a little more is known. */
  predicate StagePoint(s: State)
    requires s.process.Running? && s.process.tx in s.journals
  {
    var p, h := s.process, s.history;
    && Own(s, PhaseAt(p.pc)) && h.stopped
    && match p.pc
       case Snapshot(k) => SnapshotOk(s, k)
       case RecordBackup(k) =>
         SnapshotOk(s, k) && k < |p.named| && BackupOk(p.tx, (p.named[k], NameOf(p.tx, k)), k, h, s.archives)
       case SaveDbStarting => MarkerOf(s, p.frontend) == Some(p.tx)
       case DbUp => s.containers.Down?
       case SaveMigration => s.containers.Candidate?
       case Verify | SaveReleasePending => WebUp(s)
       case Activate => MarkerOf(s, p.frontend) == Some(p.tx)
       case Unfence => Activated(s) && MarkerOf(s, p.frontend) == Some(p.tx)
       case Commit => Activated(s) && MarkerOf(s, p.frontend) == None
       case _ => true
  }

  predicate RollbackPoint(s: State)
    requires s.process.Running? && s.process.tx in s.journals
  {
    var p, h := s.process, s.history;
    match p.pc
    case RbDown => In(s, RollingBack)
    case RbRestore(k) =>
      && In(s, RollingBack) && h.stopped && s.containers.Down?
      && k <= |s.journals[p.tx].backups| && Clean(s.volumes, h.named, h.owed, 0, k)
    case RbUp => In(s, RollingBack) && h.stopped && s.containers.Down? && AllClean(s)
    case RbFinish => In(s, RollingBack) && h.stopped && s.containers.Old? && s.containers.restored
    case _ => (h.live == Some(p.tx) && Recoverable(s.journals[p.tx].phase)) || Retracting(s)
  }

  predicate ReconcilePoint(s: State)
    requires s.process.Running? && s.process.tx in s.journals
  {
    var j, marker := s.journals[s.process.tx], MarkerOf(s, s.journals[s.process.tx].frontend);
    && In(s, ReleasePending) && j.version == s.process.version && j.candidateRoot == s.process.root
    && match s.process.pc
       case RcFence => true
       case RcUnfence => Activated(s) && marker == Some(s.process.tx)
       case RcCommit => Activated(s) && marker == None
       case _ => marker == Some(s.process.tx)
  }

  predicate PreparePoint(s: State)
    requires s.process.Running?
  {
    && s.history.live == None
    && match s.process.pc
       case SavePreparing => PreparedOk(s)
       case Build | CheckFence => PreparedOk(s) && OwnJournal(s)
       case SaveStopping => PreparedOk(s) && OwnJournal(s) && MarkerOf(s, s.process.frontend) == None
       case _ => true
  }

  /** The two points outside these groups: the old project is being stopped, or the handler fences. */
  predicate EdgePoint(s: State)
    requires s.process.Running? && s.process.tx in s.journals
  {
    if s.process.pc.StopOld? then Own(s, StoppingOldProject) && !s.history.stopped
    else In(s, ReleasePending) && s.history.stopped
  }

  /** What holds at each program point of a running updater. */
  predicate ProcessOk(s: State)
    requires s.process.Running?
  {
    var pc := s.process.pc;
    if pc.Scan? then true
    else if InPreparation(pc) || pc.Validate? then PreparePoint(s)
    else
      && s.process.tx in s.journals
      && if InReconcile(pc) then ReconcilePoint(s)
         else if RollsBack(pc) then RollbackPoint(s)
         else if InStage(pc) then StagePoint(s)
         else EdgePoint(s)
  }

  /** The part that does not depend on the updater's process. */
  predicate Core(s: State)
  {
    && LiveIsPending(s.journals, s.history.live)
    && match s.history.live
       case Some(tx) => LiveOk(s, tx, s.journals[tx])
       case None => QuietOk(s.containers, s.journals, s.history.stopped)
  }

  predicate Inv(s: State) { Core(s) && (s.process.Running? ==> ProcessOk(s)) }

  // The lemmas about single steps speak about one group of program points only.

  predicate Prepares(s: State) { Core(s) && s.process.Running? && PreparePoint(s) }

  predicate Owned(s: State) { Core(s) && s.process.Running? && s.process.tx in s.journals }

  predicate Reconciles(s: State) { Owned(s) && ReconcilePoint(s) }

  predicate Rolls(s: State) { Owned(s) && RollbackPoint(s) }

  predicate Stage(s: State) { Owned(s) && StagePoint(s) }

  lemma SameCore(s: State, s': State)
    requires Core(s) && s'.journals == s.journals && s'.volumes == s.volumes && s'.archives == s.archives
    requires s'.containers == s.containers && s'.history == s.history
    ensures Core(s')
  {
  }

  lemma PrepareInv(s: State)
    requires Prepares(s) && (InPreparation(s.process.pc) || s.process.pc.Validate?)
    ensures Inv(s)
  {
  }

  lemma ReconcileInv(s: State)
    requires Reconciles(s) && InReconcile(s.process.pc)
    ensures Inv(s)
  {
  }

  lemma RollbackInv(s: State)
    requires Rolls(s) && RollsBack(s.process.pc)
    ensures Inv(s)
  {
  }

  lemma StageInv(s: State)
    requires Stage(s) && InStage(s.process.pc)
    ensures Inv(s)
  {
  }

  lemma EdgeInv(s: State)
    requires Owned(s) && EdgePoint(s) && (s.process.pc.StopOld? || s.process.pc.HandlerFence?)
    ensures Inv(s)
  {
  }

  // ---------------------------------------------------------------- journals, volumes and archives

  lemma InitInv(s: State)
    requires Init(s)
    ensures Inv(s)
  {
  }

  lemma TerminalKeepsPending(journals: map<Transaction, Journal>, live: Option<Transaction>, tx: Transaction,
                             j: Journal)
    requires LiveIsPending(journals, live) && live != Some(tx) && !IsPending(j.phase)
    ensures LiveIsPending(journals[tx := j], live)
  {
  }

  lemma ClearedKeepsPending(journals: map<Transaction, Journal>, tx: Transaction, j: Journal)
    requires LiveIsPending(journals, Some(tx)) && !IsPending(j.phase)
    ensures LiveIsPending(journals[tx := j], None)
  {
  }

  /** Putting back what is owed for a named volume dirties no other volume. */
  lemma RestoreKeepsClean(volumes: map<Volume, Files>, named: seq<Volume>, owed: map<Volume, Files>, k: nat, lo: nat,
                          hi: nat)
    requires k < |named| && Distinct(named) && named[k] in owed
    requires Clean(volumes, named, owed, lo, hi)
    ensures Clean(volumes[named[k] := owed[named[k]]], named, owed, lo, hi)
    ensures hi == k ==> Clean(volumes[named[k] := owed[named[k]]], named, owed, lo, k + 1)
  {
  }

  /** Writing the next archive leaves the recorded ones alone. */
  lemma ArchiveKeepsBackups(tx: Transaction, backups: seq<(Volume, BackupName)>, h: History,
                            archives: map<BackupName, Archive>, archive: Archive)
    requires BackupsOk(tx, backups, h, archives)
    ensures BackupsOk(tx, backups, h, archives[NameOf(tx, |backups|) := archive])
  {
  }

  lemma PendingSetIsLive(s: State)
    requires LiveIsPending(s.journals, s.history.live)
    ensures PendingSet(s) == if s.history.live.Some? then {s.history.live.value} else {}
  {
  }

  // ---------------------------------------------------------------- preparation

  lemma CheckDowngradeKeeps(s: State, s': State)
    requires Prepares(s) && s.process.pc.CheckDowngrade? && AdvancePrepare(s) == Some(s')
    ensures Core(s') && (s'.process.Idle? || (s'.process.pc.Validate? && Prepares(s')))
  {
  }

  lemma SavePreparingKeeps(s: State, s': State)
    requires Prepares(s) && s.process.pc.SavePreparing? && AdvancePrepare(s) == Some(s')
    ensures Prepares(s') && s'.process.pc.Build?
  {
  }

  lemma BuiltKeeps(s: State, s': State)
    requires Prepares(s) && (s.process.pc.Build? || s.process.pc.CheckFence?) && AdvancePrepare(s) == Some(s')
    ensures Prepares(s') && (s'.process.pc.CheckFence? || s'.process.pc.SaveStopping?)
  {
  }

  lemma SaveStoppingKeeps(s: State, s': State)
    requires Prepares(s) && s.process.pc.SaveStopping? && AdvancePrepare(s) == Some(s')
    ensures Owned(s') && s'.process.pc.StopOld? && EdgePoint(s')
  {
  }

  lemma PrepareKeeps(s: State, s': State)
    requires Prepares(s) && InPreparation(s.process.pc) && AdvancePrepare(s) == Some(s')
    ensures Inv(s')
  {
    var pc := s.process.pc;
    if pc.CheckDowngrade? {
      CheckDowngradeKeeps(s, s');
      if s'.process.Running? {
        PrepareInv(s');
      }
    } else if pc.SavePreparing? {
      SavePreparingKeeps(s, s');
      PrepareInv(s');
    } else if pc.SaveStopping? {
      SaveStoppingKeeps(s, s');
      EdgeInv(s');
    } else {
      BuiltKeeps(s, s');
      PrepareInv(s');
    }
  }

  // ---------------------------------------------------------------- reconciliation

  /** Once release_pending is durable nothing depends on what the volumes hold. */
  lemma ReleasedVolumesFree(s: State, volumes: map<Volume, Files>)
    requires Owned(s) && In(s, ReleasePending)
    ensures Core(s.(volumes := volumes))
  {
  }

  lemma RcFenceKeeps(s: State, s': State)
    requires Reconciles(s) && s.process.pc.RcFence? && AdvanceReconcile(s) == Some(s')
    ensures Reconciles(s') && InReconcile(s'.process.pc)
  {
    ReleasedVolumesFree(s, s'.volumes);
  }

  lemma RcMiddleKeeps(s: State, s': State)
    requires Reconciles(s) && (s.process.pc.RcVerify? || s.process.pc.RcActivate?) && AdvanceReconcile(s) == Some(s')
    ensures Reconciles(s') && InReconcile(s'.process.pc)
  {
  }

  lemma RcUnfenceKeeps(s: State, s': State)
    requires Reconciles(s) && s.process.pc.RcUnfence? && AdvanceReconcile(s) == Some(s')
    ensures Reconciles(s') && InReconcile(s'.process.pc)
  {
    ReleasedVolumesFree(s, s'.volumes);
  }

  /** The step closed the journal `tx` in a terminal phase and left nothing pending. */
  predicate Closes(s: State, tx: Transaction, phase: Phase, s': State)
  {
    && tx in s.journals && s'.journals == s.journals[tx := s.journals[tx].(phase := phase)]
    && s'.history.live == None
    && (s'.process.Idle? || s'.process.pc.CheckDowngrade?)
  }

  lemma ClosingKeeps(s: State, tx: Transaction, phase: Phase, s': State)
    requires LiveIsPending(s.journals, Some(tx)) && !IsPending(phase) && Closes(s, tx, phase, s')
    requires QuietOk(s'.containers, s'.journals, s'.history.stopped)
    ensures Inv(s')
  {
    ClearedKeepsPending(s.journals, tx, s.journals[tx].(phase := phase));
    if s'.process.Running? {
      PrepareInv(s');
    }
  }

  lemma RcCommitCloses(s: State, s': State)
    requires s.process.Running? && s.process.tx in s.journals && s.process.pc.RcCommit?
             && AdvanceReconcile(s) == Some(s')
    ensures Closes(s, s.process.tx, Committed, s') && s'.containers == s.containers
  {
  }

  lemma RcCommitKeeps(s: State, s': State)
    requires Reconciles(s) && s.process.pc.RcCommit? && AdvanceReconcile(s) == Some(s')
    ensures Inv(s')
  {
    RcCommitCloses(s, s');
    ClosingKeeps(s, s.process.tx, Committed, s');
  }

  lemma ReconcileKeeps(s: State, s': State)
    requires Reconciles(s) && InReconcile(s.process.pc) && AdvanceReconcile(s) == Some(s')
    ensures Inv(s')
  {
    var pc := s.process.pc;
    if pc.RcCommit? {
      RcCommitKeeps(s, s');
    } else {
      if pc.RcFence? {
        RcFenceKeeps(s, s');
      } else if pc.RcUnfence? {
        RcUnfenceKeeps(s, s');
      } else {
        RcMiddleKeeps(s, s');
      }
      ReconcileInv(s');
    }
  }

  // ---------------------------------------------------------------- rollback

  /** The journal of a rollback that goes on or is given up is pending, also when it was committed before. */
  predicate PendingIn(s: State, tx: Transaction, phase: Phase)
    requires tx in s.journals
  {
    var j := s.journals[tx].(phase := phase);
    && LiveIsPending(s.journals[tx := j], Some(tx))
    && LiveOk(s.(journals := s.journals[tx := j], history := s.history.(live := Some(tx))), tx, j)
  }

  lemma PendingStays(s: State, tx: Transaction, phase: Phase)
    requires LiveIsPending(s.journals, Some(tx)) && s.history.live == Some(tx) && LiveOk(s, tx, s.journals[tx])
    requires Recoverable(s.journals[tx].phase) && (phase == RollingBack || phase == RecoveryRequired)
    ensures PendingIn(s, tx, phase)
  {
  }

  lemma PendingAgain(s: State, phase: Phase)
    requires s.process.Running? && s.process.tx in s.journals && Retracting(s) && LiveIsPending(s.journals, None)
    requires phase == RollingBack || phase == RecoveryRequired
    ensures PendingIn(s, s.process.tx, phase)
  {
  }

  lemma StillPending(s: State, phase: Phase)
    requires Rolls(s) && (s.process.pc.RbSave? || s.process.pc.RbGiveUp?)
             && (phase == RollingBack || phase == RecoveryRequired)
    ensures PendingIn(s, s.process.tx, phase)
  {
    if s.history.live.Some? {
      PendingStays(s, s.process.tx, phase);
    } else {
      PendingAgain(s, phase);
    }
  }

  lemma RbSaveKeeps(s: State, s': State)
    requires Rolls(s) && s.process.pc.RbSave? && AdvanceRollback(s) == Some(s')
    ensures Rolls(s') && s'.process.pc.RbDown?
  {
    StillPending(s, RollingBack);
  }

  lemma RbGiveUpKeeps(s: State, s': State)
    requires Rolls(s) && s.process.pc.RbGiveUp? && AdvanceRollback(s) == Some(s')
    ensures Core(s') && s'.process.Idle?
  {
    StillPending(s, RecoveryRequired);
  }

  /** The rollback itself stops a project that was never stopped; nothing has touched its volumes. */
  lemma StoppedByRollback(s: State, s': State)
    requires Rolls(s) && s.process.pc.RbDown? && !s.history.stopped && AdvanceRollback(s) == Some(s')
    ensures Rolls(s') && s'.process.pc.RbRestore?
  {
    var h' := s'.history;
    assert h'.stopped && Clean(s'.volumes, h'.named, h'.owed, 0, |h'.named|);
    assert BackupsOk(s.process.tx, s.journals[s.process.tx].backups, h', s'.archives);
  }

  lemma RbDownKeeps(s: State, s': State)
    requires Rolls(s) && s.process.pc.RbDown? && AdvanceRollback(s) == Some(s')
    ensures Rolls(s') && s'.process.pc.RbRestore?
  {
    if !s.history.stopped {
      StoppedByRollback(s, s');
    } else {
      assert s'.history == s.history && s'.volumes == s.volumes && s'.journals == s.journals;
    }
  }

  lemma RbRestoreKeeps(s: State, s': State)
    requires Rolls(s) && s.process.pc.RbRestore? && AdvanceRollback(s) == Some(s')
    ensures Rolls(s') && (s'.process.pc.RbRestore? || s'.process.pc.RbUp?)
  {
    var p, h := s.process, s.history;
    var k, backups := p.pc.k, s.journals[p.tx].backups;
    if k < |backups| {
      assert BackupOk(p.tx, backups[k], k, h, s.archives);
      RestoreKeepsClean(s.volumes, h.named, h.owed, k, 0, k);
      RestoreKeepsClean(s.volumes, h.named, h.owed, k, |backups|, |h.named|);
    } else {
      assert AllClean(s);
    }
  }

  lemma RbUpKeeps(s: State, s': State)
    requires Rolls(s) && s.process.pc.RbUp? && AdvanceRollback(s) == Some(s')
    ensures Rolls(s') && s'.process.pc.RbFinish?
  {
  }

  lemma RbFinishKeeps(s: State, s': State)
    requires Rolls(s) && s.process.pc.RbFinish? && AdvanceRollback(s) == Some(s')
    ensures Inv(s')
  {
    assert Closes(s, s.process.tx, RolledBack, s');
    assert s'.containers == s.containers.(restored := false) && !s'.history.stopped;
    ClosingKeeps(s, s.process.tx, RolledBack, s');
  }

  lemma RollbackKeeps(s: State, s': State)
    requires Rolls(s) && RollsBack(s.process.pc) && AdvanceRollback(s) == Some(s')
    ensures Inv(s')
  {
    var pc := s.process.pc;
    if pc.RbFinish? {
      RbFinishKeeps(s, s');
    } else if pc.RbGiveUp? {
      RbGiveUpKeeps(s, s');
    } else {
      if pc.RbSave? {
        RbSaveKeeps(s, s');
      } else if pc.RbDown? {
        RbDownKeeps(s, s');
      } else if pc.RbRestore? {
        RbRestoreKeeps(s, s');
      } else {
        RbUpKeeps(s, s');
      }
      RollbackInv(s');
    }
  }

  // ---------------------------------------------------------------- the attempt

  lemma StopOldKeeps(s: State, s': State)
    requires Owned(s) && s.process.pc.StopOld? && EdgePoint(s) && AdvanceCapture(s) == Some(s')
    ensures Stage(s') && InStage(s'.process.pc)
  {
  }

  lemma SnapshotDoneKeeps(s: State, s': State)
    requires Stage(s) && s.process.pc.Snapshot? && s.process.pc.k >= |s.process.named| && AdvanceCapture(s) == Some(s')
    ensures Stage(s') && InStage(s'.process.pc)
  {
  }

  lemma SnapshotCopyKeeps(s: State, s': State)
    requires Stage(s) && s.process.pc.Snapshot? && s.process.pc.k < |s.process.named| && AdvanceCapture(s) == Some(s')
    ensures Stage(s') && InStage(s'.process.pc)
  {
    var p, h := s.process, s.history;
    var k, backups := p.pc.k, s.journals[p.tx].backups;
    var copy := Whole(Content(s.volumes, p.named[k]), h.accepted);
    assert Holds(s.volumes, h.owed, p.named[k]);
    ArchiveKeepsBackups(p.tx, backups, h, s.archives, copy);
    assert BackupOk(p.tx, (p.named[k], NameOf(p.tx, k)), k, h, s'.archives);
  }

  lemma OneMoreBackup(tx: Transaction, backups: seq<(Volume, BackupName)>, b: (Volume, BackupName), h: History,
                      archives: map<BackupName, Archive>)
    requires BackupsOk(tx, backups, h, archives) && BackupOk(tx, b, |backups|, h, archives)
    ensures BackupsOk(tx, backups + [b], h, archives)
  {
  }

  lemma RecordBackupKeeps(s: State, s': State)
    requires Stage(s) && s.process.pc.RecordBackup? && AdvanceCapture(s) == Some(s')
    ensures Stage(s') && InStage(s'.process.pc)
  {
    var p, k := s.process, s.process.pc.k;
    var backups, b := s.journals[p.tx].backups, (p.named[k], NameOf(p.tx, k));
    OneMoreBackup(p.tx, backups, b, s.history, s.archives);
    assert s'.journals[p.tx].backups == backups + [b];
  }

  lemma WriteMarkerKeeps(s: State, s': State)
    requires Stage(s) && s.process.pc.WriteMarker? && AdvanceCapture(s) == Some(s')
    ensures Stage(s') && InStage(s'.process.pc)
  {
  }

  /** What is running allows the pending journal to be in `phase`. */
  predicate PhaseAllowed(s: State, tx: Transaction, phase: Phase)
    requires tx in s.journals
  {
    var j := s.journals[tx];
    PhaseOk(phase, s.containers, tx, MarkerOf(s, j.frontend), |j.backups| == |s.history.named|, s.history.retracted)
  }

  /** A save that moves the pending journal on to a phase that its surroundings allow. */
  lemma PhaseSaveKeeps(s: State, tx: Transaction, phase: Phase, s': State)
    requires Core(s) && tx in s.journals && s.history.live == Some(tx) && s.history.stopped
    requires s' == Saved(s, tx, phase).(process := s'.process) && IsPending(phase) && Recoverable(s.journals[tx].phase)
    requires PhaseAllowed(s, tx, phase)
    ensures Core(s')
  {
  }

  /** The point after the save, and the phase saved there. */
  predicate SaveGoes(from: Pc, to: Pc)
  {
    || (from.SaveDbStarting? && to.DbUp?) || (from.SaveMigration? && to.Migrate?)
    || (from.SaveServices? && to.ServicesUp?) || (from.SaveReleasePending? && to.Activate?)
  }

  lemma NextPhaseAllowed(s: State, pc: Pc)
    requires Stage(s) && SaveGoes(s.process.pc, pc)
    ensures PhaseAllowed(s, s.process.tx, PhaseAt(pc)) && (pc.DbUp? ==> s.containers.Down?)
    ensures MarkerOf(s, s.process.frontend) == Some(s.process.tx)
  {
  }

  lemma SavedPoint(s: State, pc: Pc, s': State)
    requires s.process.Running? && s.process.tx in s.journals && StagePoint(s) && SaveGoes(s.process.pc, pc)
    requires s' == Go(Saved(s, s.process.tx, PhaseAt(pc)), pc) && (pc.DbUp? ==> s.containers.Down?)
    requires MarkerOf(s, s.process.frontend) == Some(s.process.tx)
    ensures s'.process.Running? && s'.process.tx in s'.journals && StagePoint(s') && InStage(pc)
  {
  }

  lemma SavedKeeps(s: State, pc: Pc, s': State)
    requires Stage(s) && SaveGoes(s.process.pc, pc) && s' == Go(Saved(s, s.process.tx, PhaseAt(pc)), pc)
    ensures Stage(s') && InStage(s'.process.pc)
  {
    NextPhaseAllowed(s, pc);
    PhaseSaveKeeps(s, s.process.tx, PhaseAt(pc), s');
    SavedPoint(s, pc, s');
  }

  lemma SaveDbStartingKeeps(s: State, s': State)
    requires Stage(s) && s.process.pc.SaveDbStarting? && AdvanceCapture(s) == Some(s')
    ensures Stage(s') && InStage(s'.process.pc)
  {
    SavedKeeps(s, DbUp, s');
  }

  lemma DbUpKeeps(s: State, s': State)
    requires Stage(s) && s.process.pc.DbUp? && AdvanceCapture(s) == Some(s')
    ensures Stage(s') && InStage(s'.process.pc)
  {
  }

  lemma SaveMigrationKeeps(s: State, s': State)
    requires Stage(s) && s.process.pc.SaveMigration? && AdvanceCapture(s) == Some(s')
    ensures Stage(s') && InStage(s'.process.pc)
  {
    SavedKeeps(s, Migrate, s');
  }

  lemma MigrateKeeps(s: State, s': State)
    requires Stage(s) && s.process.pc.Migrate? && AdvanceCapture(s) == Some(s')
    ensures Stage(s') && InStage(s'.process.pc)
  {
    SameCore(s, s');
  }

  lemma ReleaseSaves(s: State, pc: Pc, s': State)
    requires s.process.Running? && s.process.tx in s.journals && SaveGoes(s.process.pc, pc)
             && AdvanceRelease(s) == Some(s')
    ensures s' == Go(Saved(s, s.process.tx, PhaseAt(pc)), pc)
  {
  }

  lemma SaveServicesKeeps(s: State, s': State)
    requires Stage(s) && s.process.pc.SaveServices? && AdvanceRelease(s) == Some(s')
    ensures Stage(s') && InStage(s'.process.pc)
  {
    ReleaseSaves(s, ServicesUp, s');
    SavedKeeps(s, ServicesUp, s');
  }

  lemma ServicesUpKeeps(s: State, s': State)
    requires Stage(s) && s.process.pc.ServicesUp? && AdvanceRelease(s) == Some(s')
    ensures Stage(s') && InStage(s'.process.pc)
  {
  }

  lemma VerifyKeeps(s: State, s': State)
    requires Stage(s) && s.process.pc.Verify? && AdvanceRelease(s) == Some(s')
    ensures Stage(s') && InStage(s'.process.pc)
  {
    SameCore(s, s');
  }

  lemma SaveReleasePendingKeeps(s: State, s': State)
    requires Stage(s) && s.process.pc.SaveReleasePending? && AdvanceRelease(s) == Some(s')
    ensures Stage(s') && InStage(s'.process.pc)
  {
    ReleaseSaves(s, Activate, s');
    SavedKeeps(s, Activate, s');
  }

  lemma ActivatedPoint(s: State, s': State)
    requires s.process.Running? && s.process.tx in s.journals && s.process.pc.Activate? && StagePoint(s)
    requires AdvanceRelease(s) == Some(s')
    ensures s' == s.(pointer := s'.pointer, active := s'.active, process := s.process.(pc := Unfence))
    ensures StagePoint(s')
  {
  }

  lemma ActivateKeeps(s: State, s': State)
    requires Stage(s) && s.process.pc.Activate? && AdvanceRelease(s) == Some(s')
    ensures Stage(s') && InStage(s'.process.pc)
  {
    ActivatedPoint(s, s');
    SameCore(s, s');
  }

  lemma UnfenceEffect(s: State, s': State)
    requires s.process.Running? && s.process.tx in s.journals && s.process.pc.Unfence? && AdvanceRelease(s) == Some(s')
    requires MarkerOf(s, s.process.frontend) == Some(s.process.tx)
    ensures s' == s.(volumes := s'.volumes, process := s.process.(pc := Commit))
    ensures MarkerOf(s', s.process.frontend) == None
  {
  }

  lemma UnfenceKeeps(s: State, s': State)
    requires Stage(s) && s.process.pc.Unfence? && AdvanceRelease(s) == Some(s')
    ensures Stage(s') && InStage(s'.process.pc)
  {
    UnfenceEffect(s, s');
    ReleasedVolumesFree(s, s'.volumes);
    SameCore(s.(volumes := s'.volumes), s');
    UnfencedPoint(s, s');
  }

  lemma UnfencedPoint(s: State, s': State)
    requires s.process.Running? && s.process.tx in s.journals && s.process.pc.Unfence? && StagePoint(s)
    requires s' == s.(volumes := s'.volumes, process := s.process.(pc := Commit))
    requires MarkerOf(s', s.process.frontend) == None
    ensures StagePoint(s')
  {
  }

  lemma CommitKeeps(s: State, s': State)
    requires Stage(s) && s.process.pc.Commit? && AdvanceRelease(s) == Some(s')
    ensures Inv(s')
  {
    assert Closes(s, s.process.tx, Committed, s') && s'.containers == s.containers;
    ClosingKeeps(s, s.process.tx, Committed, s');
  }

  lemma HandlerFenceKeeps(s: State, s': State)
    requires Owned(s) && s.process.pc.HandlerFence? && EdgePoint(s) && AdvanceRelease(s) == Some(s')
    ensures Core(s') && s'.process.Idle?
  {
  }

  lemma CaptureStageKeeps(s: State, s': State)
    requires Stage(s) && InCapture(s.process.pc) && !s.process.pc.StopOld? && AdvanceCapture(s) == Some(s')
    ensures Stage(s') && InStage(s'.process.pc)
  {
    match s.process.pc
    case Snapshot(k) =>
      if k < |s.process.named| {
        SnapshotCopyKeeps(s, s');
      } else {
        SnapshotDoneKeeps(s, s');
      }
    case RecordBackup(_) => RecordBackupKeeps(s, s');
    case WriteMarker => WriteMarkerKeeps(s, s');
    case SaveDbStarting => SaveDbStartingKeeps(s, s');
    case DbUp => DbUpKeeps(s, s');
    case SaveMigration => SaveMigrationKeeps(s, s');
    case Migrate => MigrateKeeps(s, s');
  }

  lemma CaptureKeeps(s: State, s': State)
    requires Inv(s) && s.process.Running? && InCapture(s.process.pc) && s.process.tx in s.journals
    requires AdvanceCapture(s) == Some(s')
    ensures Inv(s')
  {
    if s.process.pc.StopOld? {
      StopOldKeeps(s, s');
    } else {
      CaptureStageKeeps(s, s');
    }
    StageInv(s');
  }

  lemma ReleaseStageKeeps(s: State, s': State)
    requires Stage(s) && InRelease(s.process.pc) && !s.process.pc.Commit? && !s.process.pc.HandlerFence?
    requires AdvanceRelease(s) == Some(s')
    ensures Stage(s') && InStage(s'.process.pc)
  {
    match s.process.pc
    case SaveServices => SaveServicesKeeps(s, s');
    case ServicesUp => ServicesUpKeeps(s, s');
    case Verify => VerifyKeeps(s, s');
    case SaveReleasePending => SaveReleasePendingKeeps(s, s');
    case Activate => ActivateKeeps(s, s');
    case Unfence => UnfenceKeeps(s, s');
  }

  lemma ReleaseKeeps(s: State, s': State)
    requires Inv(s) && s.process.Running? && InRelease(s.process.pc) && s.process.tx in s.journals
    requires AdvanceRelease(s) == Some(s')
    ensures Inv(s')
  {
    if s.process.pc.Commit? {
      CommitKeeps(s, s');
    } else if s.process.pc.HandlerFence? {
      HandlerFenceKeeps(s, s');
    } else {
      ReleaseStageKeeps(s, s');
      StageInv(s');
    }
  }

  lemma ScanKeeps(s: State)
    requires Core(s) && s.process.Running? && s.process.pc.Scan? && NoPreparing(s)
    ensures Inv(ScanDone(s))
  {
    PendingSetIsLive(s);
    var s' := ScanDone(s);
    assert Core(s');
    if s.history.live.Some? {
      var tx := s.history.live.value;
      assert s'.process.Running? && s'.process.tx == tx;
      if s.journals[tx].phase == ReleasePending {
        ReconcileInv(s');
      } else {
        RollbackInv(s');
      }
    }
  }

  lemma AdvanceKeeps(s: State, s': State)
    requires Inv(s) && s.process.Running? && Advanced(s) == Some(s')
    ensures Inv(s')
  {
    var pc := s.process.pc;
    if pc.Scan? {
      ScanKeeps(s);
    } else if InPreparation(pc) {
      PrepareKeeps(s, s');
    } else if InReconcile(pc) {
      ReconcileKeeps(s, s');
    } else if RollsBack(pc) {
      RollbackKeeps(s, s');
    } else if InCapture(pc) {
      CaptureKeeps(s, s');
    } else {
      ReleaseKeeps(s, s');
    }
  }

  // ---------------------------------------------------------------- failures

  /** The exception handler of an attempt finds its own journal pending. */
  lemma HandledKeeps(s: State)
    requires Core(s) && s.process.Running? && s.history.live == Some(s.process.tx)
    ensures Inv(Handled(s))
  {
    var s' := Handled(s);
    SameCore(s, s');
    if s.journals[s.process.tx].phase == ReleasePending {
      EdgeInv(s');
    } else {
      RollbackInv(s');
    }
  }

  /** Inside the `try` block the pending journal is the attempt's own. */
  lemma TryOwnsLive(s: State)
    requires s.process.Running? && ProcessOk(s) && InTry(s.process.pc)
    ensures s.process.tx in s.journals && s.history.live == Some(s.process.tx)
  {
  }

  lemma GivingUpKeeps(s: State)
    requires Rolls(s) && InRollback(s.process.pc) && s.process.inRun
    ensures Inv(Go(s, RbGiveUp))
  {
    var s' := Go(s, RbGiveUp);
    assert Core(s');
    RollbackInv(s');
  }

  lemma FailKeeps(s: State)
    requires Inv(s) && s.process.Running?
    ensures Inv(Failed(s))
  {
    if InTry(s.process.pc) {
      TryOwnsLive(s);
      HandledKeeps(s);
    } else if InRollback(s.process.pc) && s.process.inRun {
      GivingUpKeeps(s);
    } else {
      assert Core(Exit(s));
    }
  }

  /** A save that fails in a surviving process leaves the journal as a successful one would. */
  lemma SaveFailsLikeCapture(s: State, s1: State)
    requires s.process.Running? && s.process.tx in s.journals && InCapture(s.process.pc) && WithMemory(s) == Some(s1)
    ensures AdvanceCapture(s).Some? && s1 == AdvanceCapture(s).value.(process := s.process)
  {
  }

  lemma SaveFailsLikeRelease(s: State, s1: State)
    requires s.process.Running? && s.process.tx in s.journals && WithMemory(s) == Some(s1)
    requires s.process.pc.SaveServices? || s.process.pc.SaveReleasePending?
    ensures AdvanceRelease(s).Some? && s1 == AdvanceRelease(s).value.(process := s.process)
  {
  }

  lemma CommitSaveFailsKeeps(s: State, s': State)
    requires Stage(s) && s.process.pc.Commit? && SaveFailed(s) == Some(s')
    ensures Rolls(s') && s'.process.pc.RbSave? && Retracting(s')
  {
    var tx := s.process.tx;
    ClearedKeepsPending(s.journals, tx, s.journals[tx].(phase := Committed));
  }

  lemma SavePoints(s: State)
    requires s.process.Running? && s.process.tx in s.journals && WithMemory(s).Some?
    ensures var pc := s.process.pc;
            || (InCapture(pc) && !pc.StopOld?) || pc.SaveServices? || pc.SaveReleasePending? || pc.Commit?
  {
  }

  lemma SavedStageKeeps(s: State, s1: State)
    requires Stage(s1) && s.process.Running? && s.process.tx == s1.process.tx
    ensures Inv(Handled(s1.(process := s.process)))
  {
    var s2 := s1.(process := s.process);
    assert Core(s2);
    HandledKeeps(s2);
  }

  lemma SaveFailsKeeps(s: State, s': State)
    requires Stage(s) && SaveFailed(s) == Some(s')
    ensures Inv(s')
  {
    SavePoints(s);
    var pc, s1 := s.process.pc, WithMemory(s).value;
    if pc.Commit? {
      CommitSaveFailsKeeps(s, s');
      RollbackInv(s');
    } else if InCapture(pc) {
      SaveFailsLikeCapture(s, s1);
      CaptureStageKeeps(s, AdvanceCapture(s).value);
      SavedStageKeeps(s, AdvanceCapture(s).value);
    } else {
      SaveFailsLikeRelease(s, s1);
      ReleaseStageKeeps(s, AdvanceRelease(s).value);
      SavedStageKeeps(s, AdvanceRelease(s).value);
    }
  }

  lemma CutSnapshotKeeps(s: State, torn: Files, s': State)
    requires Stage(s) && s.process.pc.Snapshot? && Cut(s, torn) == Some(s')
    ensures Stage(s') && s'.process == s.process
  {
  }

  lemma CutRestoreKeeps(s: State, torn: Files, s': State)
    requires Rolls(s) && s.process.pc.RbRestore? && Cut(s, torn) == Some(s')
    ensures Rolls(s') && s'.process == s.process
  {
    var p := s.process;
    var backups := s.journals[p.tx].backups;
    assert BackupOk(p.tx, backups[p.pc.k], p.pc.k, s.history, s.archives);
  }

  /** A marker that is cut keeps the fence closed and leaves everything else alone. */
  lemma FirstMarkerCutKeeps(s: State, torn: Files, s': State)
    requires Stage(s) && s.process.pc.WriteMarker? && Cut(s, torn) == Some(s')
    ensures Stage(s') && s'.process == s.process
  {
  }

  lemma LaterMarkerCutKeeps(s: State, torn: Files, s': State)
    requires Owned(s) && In(s, ReleasePending) && s.history.stopped
    requires (s.process.pc.RcFence? || s.process.pc.HandlerFence?) && Cut(s, torn) == Some(s')
    ensures Owned(s') && s'.process == s.process && s'.journals == s.journals && s'.history == s.history
  {
  }

  lemma CutEffect(s: State, torn: Files, s': State)
    requires s.process.Running? && s.process.tx in s.journals && Cut(s, torn) == Some(s')
    ensures s'.journals == s.journals && s'.history == s.history && s'.process == s.process
    ensures s'.pointer == s.pointer && s'.active == s.active
  {
  }

  lemma CutPoints(s: State, torn: Files)
    requires s.process.Running? && s.process.tx in s.journals && Cut(s, torn).Some?
    ensures var pc := s.process.pc;
            pc.Snapshot? || pc.RbRestore? || pc.WriteMarker? || pc.RcFence? || pc.HandlerFence?
  {
  }

  lemma ReleasedIsStopped(s: State)
    requires Core(s) && s.process.Running? && In(s, ReleasePending)
    ensures s.history.stopped
  {
  }

  lemma CutMarkerKeeps(s: State, torn: Files, s': State)
    requires Owned(s) && ProcessOk(s) && (s.process.pc.RcFence? || s.process.pc.HandlerFence?)
             && Cut(s, torn) == Some(s')
    ensures Inv(s')
  {
    ReleasedIsStopped(s);
    LaterMarkerCutKeeps(s, torn, s');
    if s.process.pc.RcFence? {
      ReconcileInv(s');
    } else {
      EdgeInv(s');
    }
  }

  lemma CutStageKeeps(s: State, torn: Files, s': State)
    requires Stage(s) && (s.process.pc.Snapshot? || s.process.pc.WriteMarker?) && Cut(s, torn) == Some(s')
    ensures Inv(s')
  {
    if s.process.pc.Snapshot? {
      CutSnapshotKeeps(s, torn, s');
    } else {
      FirstMarkerCutKeeps(s, torn, s');
    }
    StageInv(s');
  }

  lemma TearKeeps(s: State, torn: Files, s': State)
    requires Owned(s) && ProcessOk(s) && Cut(s, torn) == Some(s')
    ensures Inv(s')
  {
    CutPoints(s, torn);
    var pc := s.process.pc;
    if pc.RbRestore? {
      CutRestoreKeeps(s, torn, s');
      RollbackInv(s');
    } else if pc.RcFence? || pc.HandlerFence? {
      CutMarkerKeeps(s, torn, s');
    } else {
      CutStageKeeps(s, torn, s');
    }
  }

  lemma DownFailsKeeps(s: State, s': State)
    requires Rolls(s) && s.process.pc.RbDown? && s.containers.Down? && s' == Go(s, RbRestore(0))
    ensures Inv(s')
  {
    assert Rolls(s');
    RollbackInv(s');
  }

  // ---------------------------------------------------------------- other steps of the updater

  lemma ValidatedKeeps(s: State, named: seq<Volume>, frontend: Volume, s': State)
    requires Prepares(s) && ValidatedStep(s, named, frontend) == Some(s')
    ensures Inv(s')
  {
    assert Core(s') && PreparedOk(s') && s'.process.pc.SavePreparing?;
    PrepareInv(s');
  }

  predicate Abandoning(s: State, tx: Transaction, s': State)
  {
    && Core(s) && tx in s.journals && s.journals[tx].phase == Preparing
    && s' == Saved(s, tx, AbandonedBeforeMutation)
  }

  lemma AbandonKeepsPending(s: State, tx: Transaction, s': State)
    requires Abandoning(s, tx, s')
    ensures s.history.live != Some(tx) && LiveIsPending(s'.journals, s'.history.live)
  {
    TerminalKeepsPending(s.journals, s.history.live, tx, s'.journals[tx]);
  }

  lemma AbandonKeepsLive(s: State, tx: Transaction, live: Transaction, s': State)
    requires Abandoning(s, tx, s') && s.history.live == Some(live) && live != tx
    ensures live in s'.journals && LiveOk(s', live, s'.journals[live])
  {
    JournalChangeKeepsLive(s, live, s'.journals);
  }

  lemma AbandonKeeps(s: State, tx: Transaction, s': State)
    requires Abandoning(s, tx, s')
    ensures Core(s')
  {
    AbandonKeepsPending(s, tx, s');
    if s.history.live.Some? {
      AbandonKeepsLive(s, tx, s.history.live.value, s');
    }
  }

  /** The pending transaction does not depend on other journals. */
  lemma JournalChangeKeepsLive(s: State, tx: Transaction, journals: map<Transaction, Journal>)
    requires tx in s.journals && tx in journals && journals[tx] == s.journals[tx]
    requires LiveOk(s, tx, s.journals[tx])
    ensures LiveOk(s.(journals := journals), tx, journals[tx])
  {
  }

  lemma RejectKeeps(s: State, s': State)
    requires Prepares(s) && (s.process.pc.Build? || s.process.pc.SaveStopping?)
    requires s' == Exit(Saved(s, s.process.tx, CandidateRejected))
    ensures Inv(s')
  {
    var tx := s.process.tx;
    TerminalKeepsPending(s.journals, None, tx, s.journals[tx].(phase := CandidateRejected));
  }

  lemma ScanStepKeeps(s: State, e: Event, s': State)
    requires Inv(s) && Step(s, e) == Some(s') && (e.Start? || e.Abandon? || e.Reject? || e.Validated?)
    ensures Inv(s')
  {
    match e
    case Start(_, _, _, _) => assert Core(s');
    case Abandon(tx) => AbandonKeeps(s, tx, s');
    case Reject => RejectKeeps(s, s');
    case Validated(named, frontend) => ValidatedKeeps(s, named, frontend, s');
  }

  lemma FaultStepKeeps(s: State, e: Event, s': State)
    requires Inv(s) && Benign(s, e) && Step(s, e) == Some(s') && (e.Tear? || e.DownFails?)
    ensures Inv(s')
  {
    match e
    case Tear(torn) => TearKeeps(s, torn, s');
    case DownFails => DownFailsKeeps(s, s');
  }

  lemma SaveStepKeeps(s: State, s': State)
    requires Inv(s) && Step(s, SaveFails) == Some(s')
    ensures Inv(s')
  {
    SavePoints(s);
    SaveFailsKeeps(s, s');
  }

  // ---------------------------------------------------------------- steps of the projects

  ghost predicate SameMarkers(volumes: map<Volume, Files>, volumes': map<Volume, Files>)
  {
    forall v :: Content(volumes', v).marker == Content(volumes, v).marker
  }

  lemma WritesKeepMarkers(volumes: map<Volume, Files>, writes: map<Volume, int>)
    ensures SameMarkers(volumes, Written(volumes, writes))
  {
  }

  lemma OldVolumesKeep(s: State, volumes: map<Volume, Files>, accepted: nat)
    requires Inv(s) && s.containers.Old? && !s.containers.restored && SameMarkers(s.volumes, volumes)
    ensures Inv(s.(volumes := volumes, history := s.history.(accepted := accepted)))
  {
    assert s.history.live.Some? ==> !s.history.stopped;
  }

  lemma CandidatePending(s: State, tx: Transaction)
    requires Core(s) && s.containers.Candidate? && s.history.live == Some(tx)
    ensures s.history.stopped
    ensures s.journals[tx].phase != StoppingOldProject && s.journals[tx].phase != SnapshotComplete
  {
  }

  lemma CandidateCaptures(s: State)
    requires Inv(s) && s.containers.Candidate? && s.process.Running?
    ensures !s.process.pc.Snapshot? && !s.process.pc.RecordBackup? && !s.process.pc.WriteMarker?
  {
    if s.history.live.Some? {
      CandidatePending(s, s.history.live.value);
    }
  }

  /** While a candidate is up, no program point depends on what the volumes hold. */
  lemma CandidatePoints(s: State)
    requires Inv(s) && s.containers.Candidate? && s.process.Running?
    ensures var pc := s.process.pc;
            !pc.RbRestore? && !pc.RbUp? && !pc.Snapshot? && !pc.RecordBackup? && !pc.WriteMarker?
  {
    CandidateCaptures(s);
  }

  lemma CandidateVolumesKeep(s: State, volumes: map<Volume, Files>)
    requires Inv(s) && s.containers.Candidate? && SameMarkers(s.volumes, volumes)
    ensures Inv(s.(volumes := volumes))
  {
    if s.process.Running? {
      CandidatePoints(s);
    }
  }

  /** Client writes reach a candidate only after `release_pending`, or when its commit is being retracted. */
  lemma AdmittedIsReleased(s: State)
    requires Inv(s) && Admitted(s)
    ensures s.history.live.Some? ==>
              s.history.stopped && (s.journals[s.history.live.value].phase == ReleasePending || s.history.retracted)
  {
  }

  lemma ServedLiveKeeps(s: State, accepted: nat)
    requires Inv(s) && Admitted(s) && s.history.accepted <= accepted && s.history.live.Some?
    ensures var s' := s.(history := s.history.(accepted := accepted));
            LiveOk(s', s.history.live.value, s.journals[s.history.live.value])
  {
    AdmittedIsReleased(s);
    var tx, h' := s.history.live.value, s.history.(accepted := accepted);
    var backups := s.journals[tx].backups;
    assert forall i :: 0 <= i < |backups| && BackupOk(tx, backups[i], i, s.history, s.archives) ==>
                         BackupOk(tx, backups[i], i, h', s.archives);
  }

  lemma ServedKeeps(s: State, accepted: nat)
    requires Inv(s) && Admitted(s) && s.history.accepted <= accepted
    ensures Inv(s.(history := s.history.(accepted := accepted)))
  {
    if s.history.live.Some? {
      ServedLiveKeeps(s, accepted);
    }
    if s.process.Running? {
      CandidatePoints(s);
    }
  }

  /** A restored project dirties only volumes that have a backup; for the others its writes are owed. */
  lemma OwedFollowsWrites(s: State, tx: Transaction, writes: map<Volume, int>, i: nat)
    requires Inv(s) && s.history.live == Some(tx) && s.history.stopped && Recoverable(s.journals[tx].phase)
    requires |s.journals[tx].backups| <= i < |s.history.named|
    ensures Holds(Written(s.volumes, writes), OwedAfter(s, writes), s.history.named[i])
  {
    var backups, named := s.journals[tx].backups, s.history.named;
    assert Holds(s.volumes, s.history.owed, named[i]);
    assert !Backed(s, named[i]) by {
      forall k | 0 <= k < |backups| ensures backups[k].0 != named[i] {
        assert BackupOk(tx, backups[k], k, s.history, s.archives);
      }
    }
  }

  lemma MendedKeepsBackups(s: State, tx: Transaction, writes: map<Volume, int>)
    requires s.history.live == Some(tx) && tx in s.journals
    requires BackupsOk(tx, s.journals[tx].backups, s.history, s.archives)
    ensures BackupsOk(tx, s.journals[tx].backups, Mended(s, writes), s.archives)
  {
    var backups := s.journals[tx].backups;
    forall i | 0 <= i < |backups| ensures BackupOk(tx, backups[i], i, Mended(s, writes), s.archives) {
      assert BackupOk(tx, backups[i], i, s.history, s.archives);
      assert Backed(s, backups[i].0);
    }
  }

  lemma RestoredPending(s: State)
    requires Core(s) && s.containers.Old? && s.containers.restored
    ensures s.history.live.Some? && s.history.stopped && Recoverable(s.journals[s.history.live.value].phase)
  {
  }

  /** While a restored project is up, no program point depends on what the volumes hold. */
  lemma RestoredPoints(s: State)
    requires Inv(s) && s.containers.Old? && s.containers.restored && s.process.Running?
    ensures var pc := s.process.pc; pc.Scan? || pc.RbSave? || pc.RbGiveUp? || pc.RbDown? || pc.RbFinish?
  {
    RestoredPending(s);
  }

  lemma RestoredLiveKeeps(s: State, tx: Transaction, writes: map<Volume, int>, s': State)
    requires Inv(s) && s.containers.Old? && s.containers.restored && s.history.live == Some(tx)
    requires s' == s.(volumes := Written(s.volumes, writes), history := Mended(s, writes))
    ensures LiveOk(s', tx, s'.journals[tx])
  {
    RestoredPending(s);
    WritesKeepMarkers(s.volumes, writes);
    MendedKeepsBackups(s, tx, writes);
    forall i | |s.journals[tx].backups| <= i < |s.history.named|
      ensures Holds(s'.volumes, s'.history.owed, s.history.named[i])
    {
      OwedFollowsWrites(s, tx, writes, i);
    }
  }

  lemma RestoredVolumesKeep(s: State, writes: map<Volume, int>, s': State)
    requires Inv(s) && s.containers.Old? && s.containers.restored
    requires s' == s.(volumes := Written(s.volumes, writes), history := Mended(s, writes))
    ensures Inv(s')
  {
    RestoredPending(s);
    RestoredLiveKeeps(s, s.history.live.value, writes, s');
    if s.process.Running? {
      RestoredPoints(s);
    }
  }

  lemma ServeKeeps(s: State, writes: map<Volume, int>, s': State)
    requires Inv(s) && Admitted(s)
    requires s' == s.(volumes := Written(s.volumes, writes), history := s.history.(accepted := s.history.accepted + 1))
    ensures Inv(s')
  {
    WritesKeepMarkers(s.volumes, writes);
    var s1 := s.(history := s.history.(accepted := s.history.accepted + 1));
    ServedKeeps(s, s.history.accepted + 1);
    CandidateVolumesKeep(s1, Written(s.volumes, writes));
  }

  lemma OldWritesKeeps(s: State, writes: map<Volume, int>, s': State)
    requires Inv(s) && s.containers.Old? && !s.containers.restored
    requires s' == s.(volumes := Written(s.volumes, writes), history := s.history.(accepted := s.history.accepted + 1))
    ensures Inv(s')
  {
    WritesKeepMarkers(s.volumes, writes);
    OldVolumesKeep(s, Written(s.volumes, writes), s.history.accepted + 1);
  }

  lemma CandidateWritesKeeps(s: State, writes: map<Volume, int>, s': State)
    requires Inv(s) && s.containers.Candidate?
    requires s' == s.(volumes := Written(s.volumes, writes))
    ensures Inv(s')
  {
    WritesKeepMarkers(s.volumes, writes);
    CandidateVolumesKeep(s, Written(s.volumes, writes));
  }

  lemma ServingStepKeeps(s: State, e: Event, s': State)
    requires Inv(s) && Step(s, e) == Some(s') && (e.OldWrites? || e.CandidateServes?)
    ensures Inv(s')
  {
    match e
    case OldWrites(writes) => OldWritesKeeps(s, writes, s');
    case CandidateServes(writes) => ServeKeeps(s, writes, s');
  }

  lemma ProjectStepKeeps(s: State, e: Event, s': State)
    requires Inv(s) && Step(s, e) == Some(s') && (e.CandidateWrites? || e.RestoredWrites?)
    ensures Inv(s')
  {
    match e
    case CandidateWrites(writes) => CandidateWritesKeeps(s, writes, s');
    case RestoredWrites(writes) => RestoredVolumesKeep(s, writes, s');
  }

  /** Every benign step keeps the invariant. */
  lemma StepKeepsInv(s: State, e: Event, s': State)
    requires Inv(s) && Benign(s, e) && Step(s, e) == Some(s')
    ensures Inv(s')
  {
    if e.Advance? {
      AdvanceKeeps(s, s');
    } else if e.Fail? {
      FailKeeps(s);
    } else if e.Crash? {
      assert Core(s');
    } else if e.OldWrites? || e.CandidateServes? {
      ServingStepKeeps(s, e, s');
    } else if e.CandidateWrites? || e.RestoredWrites? {
      ProjectStepKeeps(s, e, s');
    } else if e.Tear? || e.DownFails? {
      FaultStepKeeps(s, e, s');
    } else if e.SaveFails? {
      SaveStepKeeps(s, s');
    } else {
      ScanStepKeeps(s, e, s');
    }
  }
}
