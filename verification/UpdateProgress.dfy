/** Nothing of its own stands in the way of an update: from every quiet installation it can be committed. */
module UpdateProgress {
  import opened Wrappers
  import opened Versions
  import opened UpdateTransaction
  import opened UpdateInvariant
  import opened UpdateSafety
  import opened UpdateRecovery

  /** What an attempt brings along: its transaction, version and source, and the inventory it will find. */
  datatype Plan = Plan(tx: Transaction, version: string, root: Root, named: seq<Volume>, frontend: Volume)

  /** The attempt of `plan` stands at `pc` and the marker file is as given. */
  predicate Doing(s: State, plan: Plan, pc: Pc, marker: Option<string>)
  {
    && Inv(s) && s.process.Running? && s.process.pc == pc && !s.process.reconcileOnly
    && s.process.tx == plan.tx && s.process.version == plan.version && s.process.root == plan.root
    && MarkerOf(s, plan.frontend) == marker
  }

  /** ... with its inventory taken. */
  predicate Equipped(s: State, plan: Plan)
  {
    s.process.Running? && s.process.named == plan.named && s.process.frontend == plan.frontend
  }

  /** Nothing is pending, no marker is left, and the plan is no downgrade. */
  predicate Quiet(s: State, plan: Plan)
  {
    && Inv(s) && s.process.Idle? && s.history.live == None
    && NotDowngrade(s.pointer, plan.version)
    && plan.frontend in plan.named && Distinct(plan.named)
    && MarkerOf(s, plan.frontend) == None
  }

  // ---------------------------------------------------------------- up to the stop of the old project

  lemma QuietScan(s: State, t: Transaction, s': State)
    requires Inv(s) && s.process.Running? && s.process.pc.Scan? && s.history.live == None
    requires t in PreparingSet(s) && s' == Saved(s, t, AbandonedBeforeMutation)
    ensures Step(s, Abandon(t)) == Some(s') && Inv(s')
  {
    AbandonKeeps(s, t, s');
  }

  lemma {:induction false} ScanToCheck(s: State, plan: Plan) returns (s': State)
    requires Doing(s, plan, Scan, None) && s.history.live == None
    ensures Reaches(s, s') && Doing(s', plan, CheckDowngrade, None) && s'.history.live == None
            && s'.pointer == s.pointer
    decreases |PreparingSet(s)|
  {
    if PreparingSet(s) == {} {
      assert NoPreparing(s) by {
        forall t | t in s.journals ensures s.journals[t].phase != Preparing {
          assert t !in PreparingSet(s);
        }
      }
      PendingSetIsLive(s);
      s' := ScanDone(s);
      ScanKeeps(s);
      ReachesSelf(s');
      ReachesStep(s, Advance, s', s');
    } else {
      var t :| t in PreparingSet(s);
      var s1 := Saved(s, t, AbandonedBeforeMutation);
      QuietScan(s, t, s1);
      AbandonShrinks(s, t);
      s' := ScanToCheck(s1, plan);
      ReachesStep(s, Abandon(t), s1, s');
    }
  }

  lemma CheckToValidate(s: State, plan: Plan) returns (s': State)
    requires Doing(s, plan, CheckDowngrade, None) && s.history.live == None && NotDowngrade(s.pointer, plan.version)
    ensures Step(s, Advance) == Some(s') && Doing(s', plan, Validate, None) && s'.history.live == None
  {
    s' := Step(s, Advance).value;
    StepKeepsInv(s, Advance, s');
  }

  lemma ValidateToSave(s: State, plan: Plan) returns (s': State)
    requires Doing(s, plan, Validate, None) && s.history.live == None
    requires plan.frontend in plan.named && Distinct(plan.named)
    ensures Step(s, Validated(plan.named, plan.frontend)) == Some(s')
    ensures Doing(s', plan, SavePreparing, None) && Equipped(s', plan)
  {
    var e := Validated(plan.named, plan.frontend);
    s' := Step(s, e).value;
    StepKeepsInv(s, e, s');
  }

  lemma PrepareMoves(s: State, plan: Plan, pc: Pc, next: Pc) returns (s': State)
    requires Doing(s, plan, pc, None) && Equipped(s, plan)
    requires (pc, next) in {(SavePreparing, Build), (Build, CheckFence), (CheckFence, SaveStopping),
                            (SaveStopping, StopOld)}
    ensures Step(s, Advance) == Some(s') && Doing(s', plan, next, None) && Equipped(s', plan)
  {
    assert AdvancePrepare(s).Some?;
    s' := Step(s, Advance).value;
    StepKeepsInv(s, Advance, s');
  }

  lemma StopToSnapshot(s: State, plan: Plan) returns (s': State)
    requires Doing(s, plan, StopOld, None) && Equipped(s, plan)
    ensures Step(s, Advance) == Some(s') && Doing(s', plan, Snapshot(0), None) && Equipped(s', plan)
  {
    s' := Step(s, Advance).value;
    StepKeepsInv(s, Advance, s');
  }

  lemma SaveToSnapshot(s: State, plan: Plan) returns (s': State)
    requires Doing(s, plan, SavePreparing, None) && Equipped(s, plan)
    ensures Reaches(s, s') && Doing(s', plan, Snapshot(0), None) && Equipped(s', plan)
  {
    var s1 := PrepareMoves(s, plan, SavePreparing, Build);
    var s2 := PrepareMoves(s1, plan, Build, CheckFence);
    var s3 := PrepareMoves(s2, plan, CheckFence, SaveStopping);
    var s4 := PrepareMoves(s3, plan, SaveStopping, StopOld);
    s' := StopToSnapshot(s4, plan);
    ReachesSelf(s');
    ReachesStep(s4, Advance, s', s');
    ReachesStep(s3, Advance, s4, s');
    ReachesStep(s2, Advance, s3, s');
    ReachesStep(s1, Advance, s2, s');
    ReachesStep(s, Advance, s1, s');
  }

  /** From every quiet installation an attempt gets to the point where the old project has stopped. */
  lemma CanStop(s: State, plan: Plan) returns (s': State)
    requires Quiet(s, plan)
    ensures Reaches(s, s') && Doing(s', plan, Snapshot(0), None) && Equipped(s', plan)
  {
    var start := Start(plan.tx, plan.version, plan.root, false);
    var s1 := Step(s, start).value;
    StepKeepsInv(s, start, s1);
    var s2 := ScanToCheck(s1, plan);
    var s3 := CheckToValidate(s2, plan);
    var s4 := ValidateToSave(s3, plan);
    s' := SaveToSnapshot(s4, plan);
    ReachesStep(s3, Validated(plan.named, plan.frontend), s4, s');
    ReachesStep(s2, Advance, s3, s');
    ReachesThrough(s1, s2, s');
    ReachesStep(s, start, s1, s');
  }

  // ---------------------------------------------------------------- up to the verified candidate

  lemma SnapshotMoves(s: State, plan: Plan, k: nat) returns (s': State)
    requires Doing(s, plan, Snapshot(k), None) && Equipped(s, plan) && k < |plan.named|
    ensures Reaches(s, s') && Doing(s', plan, Snapshot(k + 1), None) && Equipped(s', plan)
  {
    var s1 := Step(s, Advance).value;
    StepKeepsInv(s, Advance, s1);
    s' := RecordMoves(s1, plan, k);
    ReachesSelf(s');
    ReachesStep(s1, Advance, s', s');
    ReachesStep(s, Advance, s1, s');
  }

  lemma RecordMoves(s: State, plan: Plan, k: nat) returns (s': State)
    requires Doing(s, plan, RecordBackup(k), None) && Equipped(s, plan) && k < |plan.named|
    ensures Step(s, Advance) == Some(s') && Doing(s', plan, Snapshot(k + 1), None) && Equipped(s', plan)
  {
    s' := Step(s, Advance).value;
    StepKeepsInv(s, Advance, s');
  }

  lemma {:induction false} SnapshotAll(s: State, plan: Plan, k: nat) returns (s': State)
    requires Doing(s, plan, Snapshot(k), None) && Equipped(s, plan) && k <= |plan.named|
    ensures Reaches(s, s') && Doing(s', plan, Snapshot(|plan.named|), None) && Equipped(s', plan)
    decreases |plan.named| - k
  {
    if k == |plan.named| {
      s' := s;
      ReachesSelf(s);
    } else {
      var s1 := SnapshotMoves(s, plan, k);
      s' := SnapshotAll(s1, plan, k + 1);
      ReachesThrough(s, s1, s');
    }
  }

  lemma SnapshotToFence(s: State, plan: Plan) returns (s': State)
    requires Doing(s, plan, Snapshot(|plan.named|), None) && Equipped(s, plan)
    ensures Step(s, Advance) == Some(s') && Doing(s', plan, WriteMarker, None) && Equipped(s', plan)
  {
    s' := Step(s, Advance).value;
    StepKeepsInv(s, Advance, s');
  }

  lemma FenceMoves(s: State, plan: Plan) returns (s': State)
    requires Doing(s, plan, Snapshot(|plan.named|), None) && Equipped(s, plan)
    ensures Reaches(s, s') && Doing(s', plan, SaveDbStarting, Some(plan.tx)) && Equipped(s', plan)
  {
    var s1 := SnapshotToFence(s, plan);
    s' := MarkerMoves(s1, plan);
    ReachesSelf(s');
    ReachesStep(s1, Advance, s', s');
    ReachesStep(s, Advance, s1, s');
  }

  lemma MarkerMoves(s: State, plan: Plan) returns (s': State)
    requires Doing(s, plan, WriteMarker, None) && Equipped(s, plan)
    ensures Step(s, Advance) == Some(s') && Doing(s', plan, SaveDbStarting, Some(plan.tx)) && Equipped(s', plan)
  {
    s' := Step(s, Advance).value;
    StepKeepsInv(s, Advance, s');
  }

  lemma CaptureMoves(s: State, plan: Plan, pc: Pc, next: Pc) returns (s': State)
    requires Doing(s, plan, pc, Some(plan.tx)) && Equipped(s, plan)
    requires (pc, next) in {(SaveDbStarting, DbUp), (DbUp, SaveMigration), (SaveMigration, Migrate),
                            (Migrate, SaveServices)}
    ensures Step(s, Advance) == Some(s') && Doing(s', plan, next, Some(plan.tx)) && Equipped(s', plan)
  {
    assert AdvanceCapture(s).Some?;
    s' := Step(s, Advance).value;
    StepKeepsInv(s, Advance, s');
  }

  lemma ServiceMoves(s: State, plan: Plan, pc: Pc, next: Pc) returns (s': State)
    requires Doing(s, plan, pc, Some(plan.tx)) && Equipped(s, plan)
    requires (pc, next) in {(SaveServices, ServicesUp), (ServicesUp, Verify)}
    ensures Step(s, Advance) == Some(s') && Doing(s', plan, next, Some(plan.tx)) && Equipped(s', plan)
  {
    assert AdvanceRelease(s).Some?;
    s' := Step(s, Advance).value;
    StepKeepsInv(s, Advance, s');
  }

  lemma ReleaseMoves(s: State, plan: Plan, pc: Pc, next: Pc) returns (s': State)
    requires Doing(s, plan, pc, Some(plan.tx)) && Equipped(s, plan)
    requires (pc, next) in {(Verify, SaveReleasePending), (SaveReleasePending, Activate), (Activate, Unfence)}
    ensures Step(s, Advance) == Some(s') && Doing(s', plan, next, Some(plan.tx)) && Equipped(s', plan)
  {
    assert AdvanceRelease(s).Some?;
    s' := Step(s, Advance).value;
    StepKeepsInv(s, Advance, s');
  }

  lemma FenceToServices(s: State, plan: Plan) returns (s': State)
    requires Doing(s, plan, SaveDbStarting, Some(plan.tx)) && Equipped(s, plan)
    ensures Reaches(s, s') && Doing(s', plan, SaveServices, Some(plan.tx)) && Equipped(s', plan)
  {
    var s1 := CaptureMoves(s, plan, SaveDbStarting, DbUp);
    var s2 := CaptureMoves(s1, plan, DbUp, SaveMigration);
    var s3 := CaptureMoves(s2, plan, SaveMigration, Migrate);
    s' := CaptureMoves(s3, plan, Migrate, SaveServices);
    ReachesSelf(s');
    ReachesStep(s3, Advance, s', s');
    ReachesStep(s2, Advance, s3, s');
    ReachesStep(s1, Advance, s2, s');
    ReachesStep(s, Advance, s1, s');
  }

  /** From the stop of the old project an attempt gets to a candidate that serves behind the fence. */
  lemma CanVerify(s: State, plan: Plan) returns (s': State)
    requires Doing(s, plan, Snapshot(0), None) && Equipped(s, plan)
    ensures Reaches(s, s') && Doing(s', plan, Verify, Some(plan.tx)) && Equipped(s', plan)
  {
    var s1 := SnapshotAll(s, plan, 0);
    var s2 := FenceMoves(s1, plan);
    var s3 := FenceToServices(s2, plan);
    var s4 := ServiceMoves(s3, plan, SaveServices, ServicesUp);
    s' := ServiceMoves(s4, plan, ServicesUp, Verify);
    ReachesSelf(s');
    ReachesStep(s4, Advance, s', s');
    ReachesStep(s3, Advance, s4, s');
    ReachesThrough(s2, s3, s');
    ReachesThrough(s1, s2, s');
    ReachesThrough(s, s1, s');
  }

  // ---------------------------------------------------------------- up to the commit

  lemma UnfenceEnabled(s: State, plan: Plan) returns (s': State)
    requires Doing(s, plan, Unfence, Some(plan.tx)) && Equipped(s, plan)
    ensures Step(s, Advance) == Some(s') && s'.process == s.process.(pc := Commit)
            && MarkerOf(s', plan.frontend) == None
  {
    s' := Step(s, Advance).value;
  }

  lemma UnfenceMoves(s: State, plan: Plan) returns (s': State)
    requires Doing(s, plan, Unfence, Some(plan.tx)) && Equipped(s, plan)
    ensures Step(s, Advance) == Some(s') && Doing(s', plan, Commit, None) && Equipped(s', plan)
  {
    s' := UnfenceEnabled(s, plan);
    StepKeepsInv(s, Advance, s');
  }

  /** From a candidate that serves behind the fence an attempt gets to the unfenced candidate. */
  lemma CanRelease(s: State, plan: Plan) returns (s': State)
    requires Doing(s, plan, Verify, Some(plan.tx)) && Equipped(s, plan)
    ensures Reaches(s, s') && Doing(s', plan, Commit, None) && Equipped(s', plan)
  {
    var s1 := ReleaseMoves(s, plan, Verify, SaveReleasePending);
    var s2 := ReleaseMoves(s1, plan, SaveReleasePending, Activate);
    var s3 := ReleaseMoves(s2, plan, Activate, Unfence);
    s' := UnfenceMoves(s3, plan);
    ReachesSelf(s');
    ReachesStep(s3, Advance, s', s');
    ReachesStep(s2, Advance, s3, s');
    ReachesStep(s1, Advance, s2, s');
    ReachesStep(s, Advance, s1, s');
  }

  /** The update is over: committed, active, and its candidate takes traffic. */
  predicate Updated(s: State, plan: Plan)
  {
    && s.process.Idle? && plan.tx in s.journals && s.journals[plan.tx].phase == Committed
    && s.pointer == Some(plan.version) && s.active == Some(plan.root)
    && Admitted(s) && s.containers == Candidate(plan.tx, plan.root, true)
  }

  lemma ReleasedUp(s: State, plan: Plan)
    requires Doing(s, plan, Commit, None) && Equipped(s, plan)
    ensures Admitted(s) && s.containers == Candidate(plan.tx, plan.root, true)
    ensures s.pointer == Some(plan.version) && s.active == Some(plan.root)
  {
    assert Stage(s);
  }

  lemma CanCommit(s: State, plan: Plan) returns (s': State)
    requires Doing(s, plan, Commit, None) && Equipped(s, plan)
    ensures Step(s, Advance) == Some(s') && Updated(s', plan)
  {
    ReleasedUp(s, plan);
    s' := CommitSaves(s);
  }

  lemma CommitSaves(s: State) returns (s': State)
    requires s.process.Running? && s.process.pc.Commit? && s.process.tx in s.journals
    ensures Step(s, Advance) == Some(s') && s'.process.Idle? && s'.containers == s.containers
    ensures s'.pointer == s.pointer && s'.active == s.active && s'.volumes == s.volumes
    ensures s'.journals == s.journals[s.process.tx := s.journals[s.process.tx].(phase := Committed)]
  {
    s' := Step(s, Advance).value;
  }

  /** From every quiet moment of a benign run an uninterrupted update ends committed, active and serving. */
  lemma UpdateCanComplete(states: seq<State>, events: seq<Event>, i: nat, plan: Plan) returns (s': State)
    requires BenignRun(states, events) && i < |states| && states[i].process.Idle? && PendingSet(states[i]) == {}
    requires NotDowngrade(states[i].pointer, plan.version) && plan.frontend in plan.named && Distinct(plan.named)
    requires MarkerOf(states[i], plan.frontend) == None
    ensures Reaches(states[i], s') && Updated(s', plan)
  {
    var s := states[i];
    RunKeepsInv(states, events, i);
    PendingSetIsLive(s);
    var s1 := CanStop(s, plan);
    var s2 := CanVerify(s1, plan);
    var s3 := CanRelease(s2, plan);
    s' := CanCommit(s3, plan);
    ReachesSelf(s');
    ReachesStep(s3, Advance, s', s');
    ReachesThrough(s2, s3, s');
    ReachesThrough(s1, s2, s');
    ReachesThrough(s, s1, s');
  }
}
