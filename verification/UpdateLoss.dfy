/** Which accepted writes a rollback discards, volume by volume. */
module UpdateLoss {
  import opened Wrappers
  import opened UpdateTransaction
  import opened UpdateInvariant
  import opened UpdateSafety

  // ---------------------------------------------------------------- backups are final once a rollback has begun

  /** The pending update `tx` is being rolled back, with these backups. */
  predicate RollsOn(s: State, tx: Transaction, backups: seq<(Volume, BackupName)>)
  {
    && s.history.live == Some(tx) && tx in s.journals && s.journals[tx].backups == backups
    && (s.journals[tx].phase == RollingBack || s.journals[tx].phase == RecoveryRequired)
  }

  /** At the other program points no such update is pending, or the process is working on another phase of it. */
  lemma RollsOnPoints(s: State, tx: Transaction, backups: seq<(Volume, BackupName)>)
    requires s.process.Running? && ProcessOk(s) && RollsOn(s, tx, backups)
    ensures var pc := s.process.pc; pc.Scan? || (RollsBack(pc) && s.process.tx == tx)
  {
  }

  lemma RollbackRollsOn(s: State, s': State, backups: seq<(Volume, BackupName)>)
    requires s.process.Running? && s.process.tx in s.journals && AdvanceRollback(s) == Some(s')
    requires RollsOn(s, s.process.tx, backups) && !s.process.pc.RbFinish?
    ensures RollsOn(s', s.process.tx, backups)
  {
  }

  lemma FinishIsNotStopped(s: State, s': State)
    requires s.process.Running? && s.process.tx in s.journals && s.process.pc.RbFinish?
    requires AdvanceRollback(s) == Some(s')
    ensures !s'.history.stopped
  {
  }

  lemma AdvanceRollsOn(s: State, s': State, tx: Transaction, backups: seq<(Volume, BackupName)>)
    requires s.process.Running? && ProcessOk(s) && RollsOn(s, tx, backups) && Advanced(s) == Some(s')
    requires s'.history.stopped
    ensures RollsOn(s', tx, backups)
  {
    RollsOnPoints(s, tx, backups);
    if s.process.pc.Scan? {
      assert s'.journals == s.journals && s'.history == s.history;
    } else if s.process.pc.RbFinish? {
      FinishIsNotStopped(s, s');
    } else {
      RollbackRollsOn(s, s', backups);
    }
  }

  lemma OtherRollsOn(s: State, e: Event, s': State, tx: Transaction, backups: seq<(Volume, BackupName)>)
    requires s.process.Running? ==> var pc := s.process.pc; pc.Scan? || (RollsBack(pc) && s.process.tx == tx)
    requires RollsOn(s, tx, backups) && Step(s, e) == Some(s') && !e.Advance?
    ensures RollsOn(s', tx, backups)
  {
  }

  lemma StepRollsOn(s: State, e: Event, s': State, tx: Transaction, backups: seq<(Volume, BackupName)>)
    requires s.process.Running? ==> ProcessOk(s)
    requires RollsOn(s, tx, backups) && Step(s, e) == Some(s') && s'.history.stopped
    ensures RollsOn(s', tx, backups)
  {
    if e.Advance? {
      AdvanceRollsOn(s, s', tx, backups);
    } else {
      if s.process.Running? {
        RollsOnPoints(s, tx, backups);
      }
      OtherRollsOn(s, e, s', tx, backups);
    }
  }

  predicate KeepsRolling(states: seq<State>, tx: Transaction, backups: seq<(Volume, BackupName)>)
  {
    forall m :: 0 <= m < |states| - 1 && RollsOn(states[m], tx, backups) && states[m + 1].history.stopped ==>
      RollsOn(states[m + 1], tx, backups)
  }

  lemma RunKeepsRolling(states: seq<State>, events: seq<Event>, tx: Transaction, backups: seq<(Volume, BackupName)>)
    requires BenignRun(states, events)
    ensures KeepsRolling(states, tx, backups)
  {
    forall m | 0 <= m < |states| - 1 && RollsOn(states[m], tx, backups) && states[m + 1].history.stopped
      ensures RollsOn(states[m + 1], tx, backups)
    {
      RunKeepsInv(states, events, m);
      StepRollsOn(states[m], events[m], states[m + 1], tx, backups);
    }
  }

  lemma {:induction false} RollsOnSince(states: seq<State>, m: nat, i: nat, tx: Transaction,
                                        backups: seq<(Volume, BackupName)>)
    requires KeepsRolling(states, tx, backups) && m <= i < |states| && RollsOn(states[m], tx, backups)
    requires forall k :: m <= k <= i ==> states[k].history.stopped
    ensures RollsOn(states[i], tx, backups)
    decreases i
  {
    if m < i {
      RollsOnSince(states, m, i - 1, tx, backups);
      assert RollsOn(states[i - 1 + 1], tx, backups);
    }
  }

  lemma RestoredRollsOn(s: State)
    requires Core(s) && s.containers.Old? && s.containers.restored
    ensures s.history.live.Some? && s.history.live.value in s.journals
    ensures RollsOn(s, s.history.live.value, s.journals[s.history.live.value].backups)
  {
    RestoredPending(s);
  }

  // ---------------------------------------------------------------- what a restore discards

  function RestoredVolume(s: State): Volume
    requires Restores(s, Advance)
  {
    s.journals[s.process.tx].backups[s.process.pc.k].0
  }

  /** The archive that is put back was made when the installation had accepted no more than `accepted` client writes. */
  predicate PutsBackArchive(s: State, accepted: nat)
    requires Restores(s, Advance)
  {
    var name := s.journals[s.process.tx].backups[s.process.pc.k].1;
    name in s.archives && s.archives[name].Whole? && s.archives[name].accepted <= accepted
  }

  predicate WritesTo(e: Event, v: Volume) { ClientWrite(e) && v in e.writes }

  /** The restore at moment `i` puts back an archive from before event `m`, a client write to the restored volume. */
  predicate Discards(states: seq<State>, events: seq<Event>, i: nat, m: nat)
    requires i < |events| < |states| && Restores(states[i], Advance)
  {
    && m < i && WritesTo(events[m], RestoredVolume(states[i]))
    && PutsBackArchive(states[i], states[m].history.accepted)
  }

  lemma NoOldWrites(states: seq<State>, events: seq<Event>, j: nat, i: nat)
    requires BenignRun(states, events) && Since(states, j, i) && i < |events| && !ClientWrite(events[j])
    ensures forall m :: j <= m < i ==> !events[m].OldWrites?
  {
    forall m | j <= m < i ensures !events[m].OldWrites? {
      assert Step(states[m], events[m]) == Some(states[m + 1]);
      assert m == j || !OriginalUp(states[m]);
    }
  }

  /** An archive of moment `j` is older than exactly the client writes from `j` on. */
  lemma ArchiveAge(states: seq<State>, events: seq<Event>, j: nat, m: nat)
    requires IsRun(states, events) && j < |states| && m < |events| && ClientWrite(events[m])
    ensures states[j].history.accepted <= states[m].history.accepted <==> j <= m
  {
    AcceptedCountsClientWrites(states, events, j);
    AcceptedCountsClientWrites(states, events, m);
    if j <= m {
      CountDiffers(IsClientWrite(), events, j, m);
    } else {
      CountDiffers(IsClientWrite(), events, m, j);
    }
  }

  lemma RestoringRollsOn(s: State)
    requires Inv(s) && Restores(s, Advance)
    ensures s.history.live == Some(s.process.tx) && Subject(s) == Some(s.process.tx) && s.history.stopped
    ensures s.journals[s.process.tx].phase == RollingBack
  {
  }

  lemma WhileRestored(states: seq<State>, events: seq<Event>, m: nat) returns (tx: Transaction)
    requires BenignRun(states, events) && m < |events| && events[m].RestoredWrites?
    ensures states[m].history.live == Some(tx) && tx in states[m].journals
    ensures RollsOn(states[m], tx, states[m].journals[tx].backups)
  {
    RunKeepsInv(states, events, m);
    assert Step(states[m], events[m]) == Some(states[m + 1]);
    RestoredRollsOn(states[m]);
    tx := states[m].history.live.value;
  }

  /** A write of a restored project that is discarded went to a volume with a recorded backup. */
  lemma RestoredWriteWasBacked(states: seq<State>, events: seq<Event>, j: nat, m: nat, i: nat)
    requires BenignRun(states, events) && Since(states, j, i) && j < m < i < |events|
    requires Restores(states[i], events[i]) && events[m].RestoredWrites?
    ensures Backed(states[m], RestoredVolume(states[i]))
  {
    var tx := WhileRestored(states, events, m);
    var backups := states[m].journals[tx].backups;
    RunKeepsRolling(states, events, tx, backups);
    RollsOnSince(states, m, i, tx, backups);
    WhileRestoring(states, events, i);
    assert backups[states[i].process.pc.k].0 == RestoredVolume(states[i]);
  }

  lemma WhileRestoring(states: seq<State>, events: seq<Event>, i: nat)
    requires BenignRun(states, events) && i < |events| && Restores(states[i], events[i])
    ensures var s := states[i];
            && s.history.live == Some(s.process.tx) && Subject(s) == Some(s.process.tx) && s.history.stopped
            && (s.history.retracted || Unmended(s.history) == 0)
  {
    RunKeepsInv(states, events, i);
    RestoringRollsOn(states[i]);
    if !states[i].history.retracted {
      UnretractedCounts(states[i]);
    }
  }

  /** While nothing is retracted, only a restored project adds to the accepted writes of a stopped one. */
  lemma UnretractedCounts(s: State)
    requires Core(s) && s.history.stopped && s.history.live.Some? && !s.history.retracted
    requires s.journals[s.history.live.value].phase == RollingBack
    ensures s.history.accepted == s.history.captured + s.history.mended
  {
  }

  /** Client writes that no restored project accepted since the stop. */
  function Unmended(h: History): int { h.accepted - h.captured - h.mended }

  lemma {:induction false} ServesRaises(states: seq<State>, events: seq<Event>, j: nat, m: nat, i: nat)
    requires Chronicle(states, events) && Since(states, j, i) && j < m < i && events[m].CandidateServes?
    ensures Unmended(states[i].history) > Unmended(states[m].history)
    decreases i
  {
    assert Records(states[i - 1], events[i - 1], states[i - 1 + 1]);
    if m < i - 1 {
      assert Since(states, j, i - 1);
      ServesRaises(states, events, j, m, i - 1);
    }
  }

  lemma {:induction false} UnmendedIsNat(states: seq<State>, events: seq<Event>, j: nat, m: nat)
    requires Chronicle(states, events) && Since(states, j, m) && !ClientWrite(events[j])
    ensures Unmended(states[m].history) >= 0
    decreases m
  {
    assert Records(states[m - 1], events[m - 1], states[m - 1 + 1]);
    if j < m - 1 {
      UnmendedIsNat(states, events, j, m - 1);
    }
  }

  lemma WhileServing(states: seq<State>, events: seq<Event>, m: nat)
    requires BenignRun(states, events) && m < |events| && events[m].CandidateServes? && states[m].history.stopped
    ensures states[m].containers.Candidate? && Subject(states[m]) == Some(states[m].containers.tx)
  {
    RunKeepsInv(states, events, m);
    assert Step(states[m], events[m]) == Some(states[m + 1]);
    CandidateIsSubject(states[m]);
  }

  /** Writes of the candidate's clients show that its commit was retracted. */
  lemma ServedIsRetracted(states: seq<State>, events: seq<Event>, j: nat, m: nat, i: nat)
    requires BenignRun(states, events) && Since(states, j, i) && j < m < i < |events| && !ClientWrite(events[j])
    requires Restores(states[i], events[i]) && events[m].CandidateServes?
    ensures states[i].history.retracted && Subject(states[i]).Some?
  {
    RunIsChronicle(states, events);
    assert Since(states, j, m);
    UnmendedIsNat(states, events, j, m);
    ServesRaises(states, events, j, m, i);
    WhileRestoring(states, events, i);
  }

  /** A write of the candidate's clients is discarded only after its own commit could not be saved. */
  lemma ServedWriteWasRetracted(states: seq<State>, events: seq<Event>, j: nat, m: nat, i: nat) returns (n: nat)
    requires BenignRun(states, events) && Since(states, j, i) && j < m < i < |events| && !ClientWrite(events[j])
    requires Restores(states[i], events[i]) && events[m].CandidateServes?
    ensures states[m].containers.Candidate?
    ensures FailsCommitOf(states, events, states[m].containers.tx, j, n, i)
  {
    ServedIsRetracted(states, events, j, m, i);
    n := RetractedCommit(states, events, j, i);
    WhileServing(states, events, m);
    RunHasOneSubject(states, events);
    SubjectSince(states, m, i);
  }

  /** What event `m` must be, for a restore of `v` at moment `i` to discard it; the project stopped at moment `j`. */
  predicate Exposed(states: seq<State>, events: seq<Event>, j: nat, i: nat, m: nat, v: Volume)
    requires m < i <= |events| <= |states|
  {
    || (events[m].RestoredWrites? && v in events[m].writes && Backed(states[m], v))
    || (events[m].CandidateServes? && v in events[m].writes && states[m].containers.Candidate?
        && exists n :: j < n < i && FailsCommitOf(states, events, states[m].containers.tx, j, n, i))
  }

  lemma DiscardedIsExposed(states: seq<State>, events: seq<Event>, j: nat, m: nat, i: nat)
    requires BenignRun(states, events) && Since(states, j, i) && j <= m < i < |events| && !ClientWrite(events[j])
    requires Restores(states[i], events[i]) && WritesTo(events[m], RestoredVolume(states[i]))
    ensures Exposed(states, events, j, i, m, RestoredVolume(states[i]))
  {
    NoOldWrites(states, events, j, i);
    if events[m].RestoredWrites? {
      RestoredWriteWasBacked(states, events, j, m, i);
    } else {
      var n := ServedWriteWasRetracted(states, events, j, m, i);
    }
  }

  lemma DiscardsSince(states: seq<State>, events: seq<Event>, j: nat, m: nat, i: nat)
    requires BenignRun(states, events) && Since(states, j, i) && i < |events| && Restores(states[i], events[i])
    requires CopiesFrom(states, i, j, states[0].history.accepted + ClientWrites(events, j))
    ensures Discards(states, events, i, m) <==> j <= m < i && WritesTo(events[m], RestoredVolume(states[i]))
  {
    if m < i && ClientWrite(events[m]) {
      AcceptedCountsClientWrites(states, events, j);
      ArchiveAge(states, events, j, m);
    }
  }

  /**
   * A restore changes its own volume only, to what it held at moment `j`, when the replaced project was last up, and
   * discards exactly the client writes to that volume since then. Every one of them was accepted by a restored project
   * after the volume's backup was recorded, or by a candidate whose own `committed` could not be saved.
   */
  lemma RestoreDiscardsExactly(states: seq<State>, events: seq<Event>, i: nat) returns (j: nat)
    requires BenignRun(states, events) && i < |events| && Restores(states[i], events[i])
    ensures LastUp(states, j, i)
    ensures var v := RestoredVolume(states[i]);
            states[i + 1].volumes == states[i].volumes[v := Content(states[j].volumes, v)]
    ensures forall m: nat :: Discards(states, events, i, m) <==>
              j <= m < i && WritesTo(events[m], RestoredVolume(states[i]))
    ensures forall m: nat :: Discards(states, events, i, m) <==>
              j <= m < i && Exposed(states, events, j, i, m, RestoredVolume(states[i]))
  {
    j := RestoreCopiesStopped(states, events, i);
    forall m: nat
      ensures Discards(states, events, i, m) <==> j <= m < i && WritesTo(events[m], RestoredVolume(states[i]))
      ensures Discards(states, events, i, m) <==>
                j <= m < i && Exposed(states, events, j, i, m, RestoredVolume(states[i]))
    {
      DiscardsSince(states, events, j, m, i);
      if j <= m < i && WritesTo(events[m], RestoredVolume(states[i])) {
        DiscardedIsExposed(states, events, j, m, i);
      }
    }
  }

  // ---------------------------------------------------------------- writes that are never discarded

  /** No restore at all discards a write of the original project. */
  lemma OriginalWritesAreKept(states: seq<State>, events: seq<Event>, i: nat, m: nat)
    requires BenignRun(states, events) && i < |events| && Restores(states[i], events[i])
    requires m < |events| && events[m].OldWrites?
    ensures !Discards(states, events, i, m)
  {
    var j := RestoreDiscardsExactly(states, events, i);
  }

  /** ... nor a write of a restored project to a volume without a recorded backup. */
  lemma UnbackedWritesAreKept(states: seq<State>, events: seq<Event>, i: nat, m: nat)
    requires BenignRun(states, events) && i < |events| && Restores(states[i], events[i])
    requires m < i && events[m].RestoredWrites? && !Backed(states[m], RestoredVolume(states[i]))
    ensures !Discards(states, events, i, m)
  {
    var j := RestoreDiscardsExactly(states, events, i);
  }

  /** ... nor any write to a volume that the replaced project did not name. */
  lemma UnnamedVolumesAreKept(states: seq<State>, events: seq<Event>, i: nat, v: Volume)
    requires BenignRun(states, events) && i < |events| && Restores(states[i], events[i])
    requires v !in states[i].history.named
    ensures v != RestoredVolume(states[i])
    ensures Content(states[i + 1].volumes, v) == Content(states[i].volumes, v)
  {
    RunKeepsInv(states, events, i);
    RestoredArchive(states[i], states[i].process.tx, states[i].process.pc.k);
    var j := RestoreDiscardsExactly(states, events, i);
  }
}
