/** Over every run the active-release pointer never names an older release. */
module UpdatePointer {
  import opened Wrappers
  import opened Versions
  import opened VersionOrder
  import opened UpdateTransaction
  import opened UpdateInvariant
  import opened UpdateSafety

  /** The version that may still become active: of the pending journal, or of the attempt being prepared. */
  function Candidacy(s: State): Option<string>
  {
    if s.history.live.Some? && s.history.live.value in s.journals then Some(s.journals[s.history.live.value].version)
    else if s.process.Running? &&
            (s.process.pc.Validate? || (InPreparation(s.process.pc) && !s.process.pc.CheckDowngrade?))
      then Some(s.process.version)
    else None
  }

  predicate PointerOk(pointer: Option<string>, candidacy: Option<string>)
  {
    candidacy.Some? ==> NotDowngrade(pointer, candidacy.value)
  }

  /** A step moves the pointer only to the version that was a candidate, and creates a candidate only past the check. */
  predicate PointerStep(s: State, s': State)
  {
    && (s'.pointer == s.pointer || (Candidacy(s).Some? && s'.pointer == Candidacy(s)))
    && (|| Candidacy(s') == None
        || Candidacy(s') == Candidacy(s)
        || (s'.pointer == s.pointer && PointerOk(s.pointer, Candidacy(s'))))
  }

  lemma PreparePointer(s: State, s': State)
    requires Prepares(s) && AdvancePrepare(s) == Some(s') && InPreparation(s.process.pc)
    ensures PointerStep(s, s')
  {
  }

  lemma ReconcileActivates(s: State, s': State)
    requires s.process.Running? && s.process.tx in s.journals && AdvanceReconcile(s) == Some(s')
    ensures s'.pointer == s.pointer || s'.pointer == Some(s.process.version)
  {
  }

  lemma ReconcileVersion(s: State, s': State)
    requires s.process.Running? && s.process.tx in s.journals && AdvanceReconcile(s) == Some(s')
    ensures s.process.tx in s'.journals && s'.journals[s.process.tx].version == s.journals[s.process.tx].version
  {
  }

  lemma ReconcileLive(s: State, s': State)
    requires s.process.Running? && s.process.tx in s.journals && AdvanceReconcile(s) == Some(s')
    ensures || s'.history.live == s.history.live
            || (s'.history.live == None && (s'.process.Running? ==> s'.process.pc.CheckDowngrade?))
  {
  }

  lemma ReconcilePointer(s: State, s': State)
    requires Reconciles(s) && AdvanceReconcile(s) == Some(s')
    ensures PointerStep(s, s')
  {
    ReconcileActivates(s, s');
    ReconcileVersion(s, s');
    ReconcileLive(s, s');
  }

  lemma RollbackEffect(s: State, s': State)
    requires s.process.Running? && s.process.tx in s.journals && AdvanceRollback(s) == Some(s')
    ensures s'.pointer == s.pointer
    ensures s.process.tx in s'.journals && s'.journals[s.process.tx].version == s.journals[s.process.tx].version
  {
  }

  lemma RollbackLive(s: State, s': State)
    requires s.process.Running? && s.process.tx in s.journals && AdvanceRollback(s) == Some(s')
    ensures if s.process.pc.RbFinish?
            then s'.history.live == None && (s'.process.Running? ==> s'.process.pc.CheckDowngrade?)
            else s'.history.live == s.history.live || s'.history.live == Some(s.process.tx)
  {
  }

  /** A rollback leaves the pointer alone; one of a committed journal makes its version a candidate again. */
  lemma RollbackPointer(s: State, s': State)
    requires Rolls(s) && RollsBack(s.process.pc) && AdvanceRollback(s) == Some(s')
    ensures PointerStep(s, s')
  {
    RollbackEffect(s, s');
    RollbackLive(s, s');
    assert s.history.live == Some(s.process.tx) || (s.history.live == None && Retracting(s));
  }

  lemma CaptureEffect(s: State, s': State)
    requires s.process.Running? && s.process.tx in s.journals && AdvanceCapture(s) == Some(s')
    ensures s'.pointer == s.pointer && s'.history.live == s.history.live
    ensures s.process.tx in s'.journals && s'.journals[s.process.tx].version == s.journals[s.process.tx].version
  {
  }

  lemma CapturePointer(s: State, s': State)
    requires Owned(s) && s.history.live == Some(s.process.tx) && AdvanceCapture(s) == Some(s')
    ensures PointerStep(s, s')
  {
    CaptureEffect(s, s');
  }

  lemma ReleaseMoves(s: State, s': State)
    requires s.process.Running? && s.process.tx in s.journals && AdvanceRelease(s) == Some(s')
    ensures s'.pointer == s.pointer || (s.process.pc.Activate? && s'.pointer == Some(s.process.version))
  {
  }

  lemma ReleaseLive(s: State, s': State)
    requires s.process.Running? && s.process.tx in s.journals && AdvanceRelease(s) == Some(s')
    ensures s'.history.live == s.history.live || (s'.process.Idle? && s'.history.live == None)
  {
  }

  lemma ReleaseVersion(s: State, s': State)
    requires s.process.Running? && s.process.tx in s.journals && AdvanceRelease(s) == Some(s')
    ensures s.process.tx in s'.journals && s'.journals[s.process.tx].version == s.journals[s.process.tx].version
  {
  }

  lemma ReleasePointer(s: State, s': State)
    requires Owned(s) && s.history.live == Some(s.process.tx) && AdvanceRelease(s) == Some(s')
    requires s.process.pc.Activate? ==> s.journals[s.process.tx].version == s.process.version
    ensures PointerStep(s, s')
  {
    ReleaseMoves(s, s');
    ReleaseLive(s, s');
    ReleaseVersion(s, s');
  }

  lemma ScanPointer(s: State, s': State)
    requires Core(s) && s.process.Running? && s.process.pc.Scan? && Advanced(s) == Some(s')
    ensures PointerStep(s, s')
  {
  }

  lemma AdvancePointer(s: State, s': State)
    requires Inv(s) && s.process.Running? && Advanced(s) == Some(s')
    ensures PointerStep(s, s')
  {
    var pc := s.process.pc;
    if pc.Scan? {
      ScanPointer(s, s');
    } else if InPreparation(pc) {
      PreparePointer(s, s');
    } else if InReconcile(pc) {
      ReconcilePointer(s, s');
    } else if RollsBack(pc) {
      RollbackPointer(s, s');
    } else if InCapture(pc) {
      CapturePointer(s, s');
    } else {
      ReleasePointer(s, s');
    }
  }

  lemma FailPointer(s: State)
    requires Inv(s) && s.process.Running?
    ensures PointerStep(s, Failed(s))
  {
    var s' := Failed(s);
    assert s'.journals == s.journals && s'.history == s.history && s'.pointer == s.pointer;
  }

  lemma SaveFailsEffect(s: State, s1: State)
    requires s.process.Running? && s.process.tx in s.journals && WithMemory(s) == Some(s1)
    ensures s1.pointer == s.pointer && (s1.history.live == s.history.live || s1.history.live == None)
    ensures s1.process == s.process
  {
  }

  lemma SaveFailsVersion(s: State, s1: State)
    requires s.process.Running? && s.process.tx in s.journals && WithMemory(s) == Some(s1)
    ensures s.process.tx in s1.journals && s1.journals[s.process.tx].version == s.journals[s.process.tx].version
  {
  }

  lemma SaveFailsPointer(s: State, s': State)
    requires Owned(s) && s.history.live == Some(s.process.tx) && SaveFailed(s) == Some(s')
    ensures PointerStep(s, s')
  {
    SaveFailsEffect(s, WithMemory(s).value);
    SaveFailsVersion(s, WithMemory(s).value);
  }

  lemma ProcessPointer(s: State, e: Event, s': State)
    requires Inv(s) && Step(s, e) == Some(s') && (e.Start? || e.Validated? || e.Crash?)
    ensures PointerStep(s, s')
  {
    assert s'.journals == s.journals && s'.history.live == s.history.live && s'.pointer == s.pointer;
  }

  lemma AbandonPointer(s: State, e: Event, s': State)
    requires Inv(s) && Step(s, e) == Some(s') && (e.Abandon? || e.Reject?)
    ensures PointerStep(s, s')
  {
    assert s'.history == s.history && s'.pointer == s.pointer;
    if e.Abandon? {
      assert s.history.live != Some(e.tx);
    }
  }

  lemma SamePointer(s: State, s': State)
    requires s'.journals == s.journals && s'.history.live == s.history.live && s'.pointer == s.pointer
    requires s'.process == s.process || (s.history.live.Some? && s.history.live.value in s.journals)
    ensures PointerStep(s, s')
  {
  }

  lemma WritePointer(s: State, e: Event, s': State)
    requires Step(s, e) == Some(s') && (e.OldWrites? || e.CandidateWrites? || e.CandidateServes? || e.RestoredWrites?)
    ensures PointerStep(s, s')
  {
    SamePointer(s, s');
  }

  lemma FaultPointer(s: State, e: Event, s': State)
    requires Step(s, e) == Some(s') && (e.Tear? || (e.DownFails? && Rolls(s)))
    ensures PointerStep(s, s')
  {
    if e.Tear? {
      CutEffect(s, e.torn, s');
    }
    SamePointer(s, s');
  }

  lemma StepPointer(s: State, e: Event, s': State)
    requires Inv(s) && Step(s, e) == Some(s')
    ensures PointerStep(s, s')
  {
    if e.Advance? {
      AdvancePointer(s, s');
    } else if e.Fail? {
      FailPointer(s);
    } else if e.SaveFails? {
      SavePoints(s);
      assert SaveFailed(s) == Some(s') && s.history.live == Some(s.process.tx);
      SaveFailsPointer(s, s');
    } else if e.Start? || e.Validated? || e.Crash? {
      ProcessPointer(s, e, s');
    } else if e.Abandon? || e.Reject? {
      AbandonPointer(s, e, s');
    } else if e.Tear? || e.DownFails? {
      FaultPointer(s, e, s');
    } else {
      WritePointer(s, e, s');
    }
  }

  predicate NoOlder(a: Option<string>, b: Option<string>)
  {
    a.Some? ==> b.Some? && NotDowngrade(a, b.value)
  }

  lemma NoOlderExtends(a: Option<string>, s: State, s': State)
    requires NoOlder(a, s.pointer) && PointerOk(s.pointer, Candidacy(s)) && PointerStep(s, s')
    ensures NoOlder(a, s'.pointer) && PointerOk(s'.pointer, Candidacy(s'))
  {
    if a.Some? && s'.pointer != s.pointer {
      NotDowngradeTransitive(a.value, s.pointer.value, s'.pointer.value);
    }
  }

  predicate PointerRun(states: seq<State>)
  {
    && |states| > 0
    && Candidacy(states[0]) == None
    && forall i :: 0 <= i < |states| - 1 ==> PointerStep(states[i], states[i + 1])
  }

  lemma RunMovesPointer(states: seq<State>, events: seq<Event>)
    requires BenignRun(states, events)
    ensures PointerRun(states)
  {
    forall i | 0 <= i < |states| - 1 ensures PointerStep(states[i], states[i + 1]) {
      RunKeepsInv(states, events, i);
      StepPointer(states[i], events[i], states[i + 1]);
    }
  }

  lemma {:induction false} PointerRunKeeps(states: seq<State>, i: nat, j: nat)
    requires PointerRun(states) && i <= j < |states|
    ensures PointerOk(states[j].pointer, Candidacy(states[j]))
    ensures NoOlder(states[i].pointer, states[j].pointer)
    decreases j
  {
    if j > 0 {
      var k := if i < j then i else j - 1;
      PointerRunKeeps(states, k, j - 1);
      assert PointerStep(states[j - 1], states[j - 1 + 1]);
      NoOlderExtends(states[k].pointer, states[j - 1], states[j]);
    }
  }

  /** Between any two moments of a run the active release is kept or replaced by one that is no downgrade. */
  lemma PointerNeverGoesBack(states: seq<State>, events: seq<Event>, i: nat, j: nat)
    requires BenignRun(states, events) && i <= j < |states|
    ensures NoOlder(states[i].pointer, states[j].pointer)
  {
    RunMovesPointer(states, events);
    PointerRunKeeps(states, i, j);
  }
}
