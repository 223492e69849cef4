/**
 * The crash-recoverable update transaction of scripts/atomic_local_update.py.
 *
 * A run is a sequence of events. Every event carries the choices made outside the updater
 * (traffic, command failures, crashes), so one step is a function. Durable parts of the state
 * survive a crash of the updater: journals, volumes, archives in the backup volumes, the
 * active-release pointer and the containers themselves, which belong to the Docker daemon.
 */
module UpdateTransaction {
  import opened Wrappers
  import opened Versions

  type Volume = string
  type Transaction = string
  type Root = string

  datatype Phase =
    | Preparing
    | StoppingOldProject
    | SnapshotComplete
    | CandidateDatabaseStarting
    | MigrationStarted
    | CandidateServicesStarting
    | ReleasePending
    | Committed
    | RollingBack
    | RolledBack
    | RecoveryRequired
    | CandidateRejected
    | AbandonedBeforeMutation

  /** The set `recoverable` of `_recover_interrupted_transaction`. */
  predicate Recoverable(phase: Phase)
  {
    || phase == StoppingOldProject
    || phase == SnapshotComplete
    || phase == CandidateDatabaseStarting
    || phase == MigrationStarted
    || phase == CandidateServicesStarting
    || phase == RollingBack
    || phase == RecoveryRequired
  }

  predicate IsPending(phase: Phase) { Recoverable(phase) || phase == ReleasePending }

  /** What a volume holds: its data and, in the frontend volume, the text of the `.maintenance` file. */
  datatype Files = Files(data: int, marker: Option<string>)

  /**
   * A backup volume is named after the first twelve characters of the transaction and the
   * position of its source. The digest of the source name is left out, so the model has every
   * name collision between transactions that the code has.
   */
  datatype BackupName = BackupName(prefix: string, index: nat)

  function NameOf(tx: Transaction, index: nat): BackupName
  {
    BackupName(if |tx| <= 12 then tx else tx[..12], index)
  }

  /** `accepted` is a history value: how many client writes existed when the archive was made. */
  datatype Archive = Torn | Whole(files: Files, accepted: nat)

  datatype Containers =
    | Down
    | Old(root: Root, restored: bool)                     // restored: started by a rollback not yet recorded
    | Candidate(tx: Transaction, croot: Root, web: bool)  // web: the frontend is up as well

  datatype Journal = Journal(
    phase: Phase,
    version: string,
    candidateRoot: Root,
    oldRoot: Root,
    frontend: Volume,
    backups: seq<(Volume, BackupName)>)

  datatype Pc =
    | Scan
    // reconciling a release_pending journal
    | RcFence | RcVerify | RcActivate | RcUnfence | RcCommit
    // rolling back
    | RbSave | RbDown | RbRestore(k: nat) | RbUp | RbFinish | RbGiveUp
    // a new attempt
    | CheckDowngrade | Validate | SavePreparing | Build | CheckFence | SaveStopping
    | StopOld | Snapshot(k: nat) | RecordBackup(k: nat) | WriteMarker | SaveDbStarting
    | DbUp | SaveMigration | Migrate | SaveServices | ServicesUp | Verify | SaveReleasePending
    | Activate | Unfence | Commit
    // the exception handler of a release_pending attempt
    | HandlerFence

  datatype Process =
    | Idle
    | Running(
        pc: Pc, tx: Transaction,
        version: string, root: Root,
        oldRoot: Root, named: seq<Volume>,
        frontend: Volume, inRun: bool,          // a rollback called by the attempt's own exception handler
        reconcileOnly: bool)

  /**
   * History variables: they record the past for the statements and never influence a step. From
   * `home` to `retracted` they speak about the time since the replaced project stopped.
   */
  datatype History = History(
    live: Option<Transaction>,     // the transaction whose journal is pending
    named: seq<Volume>,            // named volumes of the project being replaced
    home: Root,                    // the tree from which that project ran when it stopped
    stopped: bool,                 // that project has stopped and is not back
    baseline: map<Volume, Files>,  // what its named volumes held when it stopped
    owed: map<Volume, Files>,      // ... with what a restored project wrote to volumes without a backup
    captured: nat,                 // client writes accepted when it stopped
    mended: nat,                   // client writes accepted by a restored project since then
    retracted: bool,               // the save of `committed` failed and the handler rolls back
    accepted: nat)                 // client writes accepted so far

  datatype State = State(
    journals: map<Transaction, Journal>,
    volumes: map<Volume, Files>,
    archives: map<BackupName, Archive>,
    containers: Containers,
    pointer: Option<string>,       // the version of the active release
    active: Option<Root>,          // ... and its tree
    process: Process,
    history: History)

  datatype Event =
    // the updater
    | Start(tx: Transaction, version: string, root: Root, reconcileOnly: bool)
    | Abandon(tx: Transaction)
    | Advance                       // the current command or save succeeds
    | Validated(named: seq<Volume>, frontend: Volume)
    | Reject                        // image validation or the baseline comparison fails
    | Tear(torn: Files)             // a copy, or the write of the marker, has begun and is not complete
    | Fail                          // the current command reports failure; its effect may have happened
    | Crash
    // the projects
    | OldWrites(writes: map<Volume, int>)
    | CandidateWrites(writes: map<Volume, int>)
    | CandidateServes(writes: map<Volume, int>)
    | RestoredWrites(writes: map<Volume, int>)
    // faults
    | DownFails                     // `compose down` fails and the failure is ignored
    | SaveFails                     // a save inside the `try` block fails and the process survives

  // ---------------------------------------------------------------- volumes

  function Content(volumes: map<Volume, Files>, v: Volume): Files
  {
    if v in volumes then volumes[v] else Files(0, None)
  }

  function ContentsOf(volumes: map<Volume, Files>, named: seq<Volume>): map<Volume, Files>
  {
    map v | v in named :: Content(volumes, v)
  }

  /** Projects write data; none of them creates or removes `.maintenance`. */
  function Written(volumes: map<Volume, Files>, writes: map<Volume, int>): map<Volume, Files>
  {
    map v | v in volumes.Keys + writes.Keys ::
      if v in writes then Files(writes[v], Content(volumes, v).marker) else volumes[v]
  }

  function MarkerOf(s: State, v: Volume): Option<Transaction> { Content(s.volumes, v).marker }

  function WithMarker(s: State, v: Volume, marker: Option<Transaction>): State
  {
    s.(volumes := s.volumes[v := Files(Content(s.volumes, v).data, marker)])
  }

  // ---------------------------------------------------------------- steps

  function Go(s: State, pc: Pc): State
    requires s.process.Running?
  {
    s.(process := s.process.(pc := pc))
  }

  function Exit(s: State): State { s.(process := Idle) }

  /** Sets the phase of a journal and saves it. */
  function Saved(s: State, tx: Transaction, phase: Phase): State
    requires tx in s.journals
  {
    s.(journals := s.journals[tx := s.journals[tx].(phase := phase)])
  }

  /** A finished recovery returns in reconcile-only mode and otherwise goes on to the attempt. */
  function Recovered(s: State): State
    requires s.process.Running?
  {
    if s.process.reconcileOnly then Exit(s) else Go(s, CheckDowngrade)
  }

  predicate NoPreparing(s: State)
  {
    forall t :: t in s.journals ==> s.journals[t].phase != Preparing
  }

  function PendingSet(s: State): set<Transaction>
  {
    set t | t in s.journals && IsPending(s.journals[t].phase)
  }

  function Only(ts: set<Transaction>): (t: Transaction)
    requires |ts| == 1
    ensures ts == {t}
  {
    assert ts != {};
    var t :| t in ts;
    assert ts - {t} == {} by {
      assert |ts - {t}| == 0;
    }
    assert forall u :: u in ts ==> u == t;
    t
  }

  /** The decision after every journal has been read. */
  function ScanDone(s: State): State
    requires s.process.Running?
  {
    var pending := PendingSet(s);
    if |pending| > 1 then Exit(s)                     // "Multiple interrupted updates"
    else if |pending| == 0 then Recovered(s)
    else
      var t := Only(pending);
      var j := s.journals[t];
      var p := s.process.(tx := t, version := j.version, root := j.candidateRoot, inRun := false);
      s.(process := p.(pc := if j.phase == ReleasePending then RcFence else RbSave))
  }

  /** `_ensure_maintenance_marker`: present with this transaction, or created; on any other text it fails. */
  function EnsuredMarker(s: State, v: Volume, tx: Transaction): Option<State>
  {
    if MarkerOf(s, v) == None || MarkerOf(s, v) == Some(tx) then Some(WithMarker(s, v, Some(tx))) else None
  }

  /**
   * `_remove_maintenance_marker`: the comparison is not the last command of its list, so `sh -e` goes on when it fails,
   * and a marker with any other text is left in place without a failure.
   */
  function RemovedMarker(s: State, v: Volume, tx: Transaction): State
  {
    if MarkerOf(s, v) == Some(tx) then WithMarker(s, v, None) else s
  }

  /** The replaced project has stopped: from here on its contents are owed to it. */
  function Stopped(h: History, root: Root, contents: map<Volume, Files>): History
  {
    h.(stopped := true, home := root, baseline := contents, owed := contents,
       captured := h.accepted, mended := 0, retracted := false)
  }

  /** The project is down from here on; if it was the one being replaced, this is when it stopped. */
  function BroughtDown(s: State): State
  {
    var h := s.history;
    if s.containers.Old? && !s.containers.restored then
      s.(containers := Down,
         history := Stopped(h, s.containers.root, ContentsOf(s.volumes, h.named)))
    else s.(containers := Down)
  }

  /** The exception handler of the attempt. */
  function Handled(s: State): State
    requires s.process.Running?
  {
    var p := s.process;
    if p.tx in s.journals && s.journals[p.tx].phase == ReleasePending then Go(s, HandlerFence)
    else s.(process := p.(pc := RbSave, inRun := true))
  }

  predicate InRollback(pc: Pc)
  {
    pc.RbSave? || pc.RbDown? || pc.RbRestore? || pc.RbUp? || pc.RbFinish?
  }

  /** Program points covered by the attempt's `try` block. */
  predicate InTry(pc: Pc)
  {
    || pc.StopOld? || pc.Snapshot? || pc.RecordBackup? || pc.WriteMarker? || pc.SaveDbStarting?
    || pc.DbUp? || pc.SaveMigration? || pc.Migrate? || pc.SaveServices? || pc.ServicesUp?
    || pc.Verify? || pc.SaveReleasePending? || pc.Activate? || pc.Unfence? || pc.Commit?
  }

  function Failed(s: State): State
    requires s.process.Running?
  {
    var p := s.process;
    if InTry(p.pc) then Handled(s)
    else if InRollback(p.pc) && p.inRun then Go(s, RbGiveUp)
    else Exit(s)
  }

  function AdvanceReconcile(s: State): Option<State>
    requires s.process.Running? && s.process.tx in s.journals
  {
    var p := s.process;
    var j := s.journals[p.tx];
    match p.pc
    case RcFence =>
      var r := EnsuredMarker(s, j.frontend, p.tx);
      if r.None? then None else Some(Go(r.value, RcVerify))
    case RcVerify =>
      if s.containers.Candidate? && s.containers.tx == p.tx && s.containers.web then Some(Go(s, RcActivate)) else None
    case RcActivate => Some(Go(s.(pointer := Some(p.version), active := Some(p.root)), RcUnfence))
    case RcUnfence => Some(Go(RemovedMarker(s, j.frontend, p.tx), RcCommit))
    case RcCommit =>
      Some(Recovered(Saved(s, p.tx, Committed).(history := s.history.(live := None))))
    case _ => None
  }

  function AdvanceRollback(s: State): Option<State>
    requires s.process.Running? && s.process.tx in s.journals
  {
    var p := s.process;
    var j := s.journals[p.tx];
    match p.pc
    case RbSave => Some(Go(Saved(s, p.tx, RollingBack).(history := s.history.(live := Some(p.tx))), RbDown))
    case RbDown => Some(Go(BroughtDown(s), RbRestore(0)))
    case RbRestore(k) =>
      if k >= |j.backups| then Some(Go(s, RbUp))
      else
        var (v, name) := j.backups[k];
        if name in s.archives && s.archives[name].Whole? then
          Some(Go(s.(volumes := s.volumes[v := s.archives[name].files]), RbRestore(k + 1)))
        else None
    case RbUp => Some(Go(s.(containers := Old(j.oldRoot, true)), RbFinish))
    case RbFinish =>
      var done := Saved(s, p.tx, RolledBack).(
        containers := if s.containers.Old? then s.containers.(restored := false) else s.containers,
        history := s.history.(live := None, stopped := false));
      Some(if p.inRun then Exit(done) else Recovered(done))
    case RbGiveUp => Some(Exit(Saved(s, p.tx, RecoveryRequired).(history := s.history.(live := Some(p.tx)))))
    case _ => None
  }

  function AdvancePrepare(s: State): Option<State>
    requires s.process.Running?
  {
    var p := s.process;
    match p.pc
    case CheckDowngrade => Some(if NotDowngrade(s.pointer, p.version) then Go(s, Validate) else Exit(s))
    case SavePreparing =>
      Some(Go(s.(journals := s.journals[p.tx := Journal(Preparing, p.version, p.root, p.oldRoot, p.frontend, [])]),
              Build))
    case Build => Some(Go(s, CheckFence))
    case CheckFence => if MarkerOf(s, p.frontend) == None then Some(Go(s, SaveStopping)) else None
    case SaveStopping =>
      if s.containers == Old(p.oldRoot, false) && p.tx in s.journals then
        Some(Go(Saved(s, p.tx, StoppingOldProject).(
                  history := s.history.(live := Some(p.tx), named := p.named, stopped := false)), StopOld))
      else None
    case _ => None
  }

  /** The attempt from stopping the old project to the migration. */
  function AdvanceCapture(s: State): Option<State>
    requires s.process.Running? && s.process.tx in s.journals
  {
    var p := s.process;
    var j := s.journals[p.tx];
    match p.pc
    case StopOld => Some(Go(BroughtDown(s), Snapshot(0)))
    case Snapshot(k) =>
      if k >= |p.named| then Some(Go(Saved(s, p.tx, SnapshotComplete), WriteMarker))
      else
        var copy := Whole(Content(s.volumes, p.named[k]), s.history.accepted);
        Some(Go(s.(archives := s.archives[NameOf(p.tx, k) := copy]), RecordBackup(k)))
    case RecordBackup(k) =>
      if k >= |p.named| then None else Some(Go(s.(journals := s.journals[p.tx := Recorded(p, j, k)]), Snapshot(k + 1)))
    case WriteMarker =>
      if MarkerOf(s, p.frontend) == None then Some(Go(WithMarker(s, p.frontend, Some(p.tx)), SaveDbStarting)) else None
    case SaveDbStarting => Some(Go(Saved(s, p.tx, CandidateDatabaseStarting), DbUp))
    case DbUp => Some(Go(s.(containers := Candidate(p.tx, p.root, false)), SaveMigration))
    case SaveMigration => Some(Go(Saved(s, p.tx, MigrationStarted), Migrate))
    case Migrate => Some(Go(s, SaveServices))
    case _ => None
  }

  /** The journal with the backup of the `k`-th named volume. */
  function Recorded(p: Process, j: Journal, k: nat): Journal
    requires p.Running? && k < |p.named|
  {
    j.(backups := j.backups + [(p.named[k], NameOf(p.tx, k))])
  }

  /** The attempt from starting the services to the end, and its handler's fence. */
  function AdvanceRelease(s: State): Option<State>
    requires s.process.Running? && s.process.tx in s.journals
  {
    var p := s.process;
    var j := s.journals[p.tx];
    match p.pc
    case SaveServices => Some(Go(Saved(s, p.tx, CandidateServicesStarting), ServicesUp))
    case ServicesUp => Some(Go(s.(containers := Candidate(p.tx, p.root, true)), Verify))
    case Verify => if MarkerOf(s, p.frontend) != None then Some(Go(s, SaveReleasePending)) else None
    case SaveReleasePending => Some(Go(Saved(s, p.tx, ReleasePending), Activate))
    case Activate => Some(Go(s.(pointer := Some(p.version), active := Some(p.root)), Unfence))
    case Unfence => Some(Go(RemovedMarker(s, p.frontend, p.tx), Commit))
    case Commit => Some(Exit(Saved(s, p.tx, Committed).(history := s.history.(live := None))))
    case HandlerFence =>
      var r := EnsuredMarker(s, j.frontend, p.tx);
      if r.None? then None else Some(Exit(r.value))
    case _ => None
  }

  predicate InPreparation(pc: Pc)
  {
    pc.CheckDowngrade? || pc.SavePreparing? || pc.Build? || pc.CheckFence? || pc.SaveStopping?
  }

  predicate InReconcile(pc: Pc)
  {
    pc.RcFence? || pc.RcVerify? || pc.RcActivate? || pc.RcUnfence? || pc.RcCommit?
  }

  predicate InCapture(pc: Pc)
  {
    || pc.StopOld? || pc.Snapshot? || pc.RecordBackup? || pc.WriteMarker?
    || pc.SaveDbStarting? || pc.DbUp? || pc.SaveMigration? || pc.Migrate?
  }

  function Advanced(s: State): Option<State>
    requires s.process.Running?
  {
    var pc := s.process.pc;
    if pc.Scan? then (if NoPreparing(s) then Some(ScanDone(s)) else None)
    else if InPreparation(pc) then AdvancePrepare(s)
    else if s.process.tx !in s.journals then None
    else if InReconcile(pc) then AdvanceReconcile(s)
    else if InRollback(pc) || pc.RbGiveUp? then AdvanceRollback(s)
    else if InCapture(pc) then AdvanceCapture(s)
    else AdvanceRelease(s)
  }

  /** The project that is running becomes the old project of the new attempt. */
  function ValidatedStep(s: State, named: seq<Volume>, frontend: Volume): Option<State>
    requires s.process.Running?
  {
    var p := s.process;
    if !p.pc.Validate? || frontend !in named || !Distinct(named) then None
    else if s.containers.Old? && !s.containers.restored then
      Some(s.(process := p.(pc := SavePreparing, oldRoot := s.containers.root, named := named, frontend := frontend)))
    else if s.containers.Candidate? && s.containers.web then
      Some(s.(containers := Old(s.containers.croot, false), history := s.history.(stopped := false),
              process := p.(pc := SavePreparing, oldRoot := s.containers.croot, named := named, frontend := frontend)))
    else None
  }

  predicate Distinct(named: seq<Volume>)
  {
    forall i, j :: 0 <= i < j < |named| ==> named[i] != named[j]
  }

  /** A copy or a marker that is cut: the marker file exists, with a text that is not the transaction. */
  function Cut(s: State, torn: Files): Option<State>
    requires s.process.Running? && s.process.tx in s.journals
  {
    var p := s.process;
    var j := s.journals[p.tx];
    match p.pc
    case Snapshot(k) =>
      if k < |p.named| then Some(s.(archives := s.archives[NameOf(p.tx, k) := Torn])) else None
    case RbRestore(k) =>
      if k < |j.backups| then Some(s.(volumes := s.volumes[j.backups[k].0 := torn])) else None
    case WriteMarker => CutMarker(s, p.frontend, p.tx, torn.marker)
    case RcFence | HandlerFence => CutMarker(s, j.frontend, p.tx, torn.marker)
    case _ => None
  }

  function CutMarker(s: State, v: Volume, tx: Transaction, marker: Option<string>): Option<State>
  {
    if MarkerOf(s, v) == None && marker.Some? && marker != Some(tx) then Some(WithMarker(s, v, marker)) else None
  }

  /** The journal in memory at a save inside the `try` block, made durable. */
  function WithMemory(s: State): Option<State>
    requires s.process.Running? && s.process.tx in s.journals
  {
    var p := s.process;
    match p.pc
    case Snapshot(k) => if k >= |p.named| then Some(Saved(s, p.tx, SnapshotComplete)) else None
    case RecordBackup(k) =>
      if k < |p.named| then Some(s.(journals := s.journals[p.tx := Recorded(p, s.journals[p.tx], k)])) else None
    case SaveDbStarting => Some(Saved(s, p.tx, CandidateDatabaseStarting))
    case SaveMigration => Some(Saved(s, p.tx, MigrationStarted))
    case SaveServices => Some(Saved(s, p.tx, CandidateServicesStarting))
    case SaveReleasePending => Some(Saved(s, p.tx, ReleasePending))
    case Commit => Some(Saved(s, p.tx, Committed).(history := s.history.(live := None, retracted := true)))
    case _ => None
  }

  /**
   * A save inside the `try` block fails and the process survives. The journal in memory is already
   * the new one: the handler saves it and decides on its phase.
   */
  function SaveFailed(s: State): Option<State>
    requires s.process.Running? && s.process.tx in s.journals
  {
    var saved := WithMemory(s);
    if saved.None? then None else Some(Handled(saved.value))
  }

  /** The pending journal records a backup of the volume. */
  predicate Backed(s: State, v: Volume)
  {
    && s.history.live.Some? && s.history.live.value in s.journals
    && var backups := s.journals[s.history.live.value].backups;
       exists i :: 0 <= i < |backups| && backups[i].0 == v
  }

  /** A restored project writes: volumes without a recorded backup keep that write through later rollbacks. */
  function OwedAfter(s: State, writes: map<Volume, int>): map<Volume, Files>
  {
    var owed := s.history.owed;
    map v | v in owed :: if v in writes && !Backed(s, v) then Files(writes[v], owed[v].marker) else owed[v]
  }

  function Mended(s: State, writes: map<Volume, int>): History
  {
    var h := s.history;
    h.(owed := OwedAfter(s, writes), mended := h.mended + 1, accepted := h.accepted + 1)
  }

  function Step(s: State, e: Event): Option<State>
  {
    match e
    case Start(tx, version, root, reconcileOnly) =>
      if s.process.Idle? then
        Some(s.(process := Running(Scan, tx, version, root, root, [], "", false, reconcileOnly)))
      else None
    case Abandon(tx) =>
      if s.process.Running? && s.process.pc.Scan? && tx in s.journals && s.journals[tx].phase == Preparing then
        Some(Saved(s, tx, AbandonedBeforeMutation))
      else None
    case Advance => if s.process.Running? then Advanced(s) else None
    case Validated(named, frontend) => if s.process.Running? then ValidatedStep(s, named, frontend) else None
    case Reject =>
      if s.process.Running? && (s.process.pc.Build? || s.process.pc.SaveStopping?) && s.process.tx in s.journals then
        Some(Exit(Saved(s, s.process.tx, CandidateRejected)))
      else None
    case Tear(torn) =>
      if s.process.Running? && s.process.tx in s.journals then Cut(s, torn) else None
    case Fail => if s.process.Running? then Some(Failed(s)) else None
    case Crash => if s.process.Running? then Some(Exit(s)) else None
    case OldWrites(writes) =>
      if s.containers.Old? && !s.containers.restored then
        Some(s.(volumes := Written(s.volumes, writes), history := s.history.(accepted := s.history.accepted + 1)))
      else None
    case CandidateWrites(writes) =>
      if s.containers.Candidate? then Some(s.(volumes := Written(s.volumes, writes))) else None
    case CandidateServes(writes) =>
      if Admitted(s) then
        Some(s.(volumes := Written(s.volumes, writes), history := s.history.(accepted := s.history.accepted + 1)))
      else None
    case DownFails =>
      if s.process.Running? && s.process.pc.RbDown? then Some(Go(s, RbRestore(0))) else None
    case RestoredWrites(writes) =>
      if s.containers.Old? && s.containers.restored then
        Some(s.(volumes := Written(s.volumes, writes), history := Mended(s, writes)))
      else None
    case SaveFails => if s.process.Running? && s.process.tx in s.journals then SaveFailed(s) else None
  }

  /** The candidate's frontend is up and its nginx sees no `.maintenance` file. */
  predicate Admitted(s: State)
  {
    && s.containers.Candidate?
    && s.containers.web
    && s.containers.tx in s.journals
    && MarkerOf(s, s.journals[s.containers.tx].frontend) == None
  }

  // ---------------------------------------------------------------- runs

  /** An installation with a running project and no interrupted update. */
  predicate Init(s: State)
  {
    && s.process.Idle?
    && s.containers.Old?
    && !s.containers.restored
    && s.history.live == None
    && !s.history.stopped
    && forall t :: t in s.journals ==> !IsPending(s.journals[t].phase)
  }

  /** The environment behaves: an ignored failure of `down` means that nothing was up. */
  predicate Benign(s: State, e: Event) { e.DownFails? ==> s.containers.Down? }

  predicate IsRun(states: seq<State>, events: seq<Event>)
  {
    && |states| == |events| + 1
    && Init(states[0])
    && forall i :: 0 <= i < |events| ==> Step(states[i], events[i]) == Some(states[i + 1])
  }

  predicate BenignRun(states: seq<State>, events: seq<Event>)
  {
    && IsRun(states, events)
    && forall i :: 0 <= i < |events| ==> Benign(states[i], events[i])
  }
}
