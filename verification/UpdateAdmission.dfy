/**
 * The engine's update fence and its leases (engine/src/update-admission.ts).
 *
 * The marker file belongs to the file system: other processes create and remove it between any
 * two system calls of the engine, so each call is a step of its own.
 */
module UpdateAdmission {
  import opened Wrappers

  type Transaction = string
  type Lease = nat
  type Caller = nat

  /** What is on disk: nothing, a file created but not yet written, a complete marker, or other contents. */
  datatype Marker = NoMarker | HalfWritten | Fence(owner: Transaction) | Corrupt

  /** What `readMarker` reports. */
  datatype Reading = Disabled | Absent | Present(owner: Transaction) | Invalid

  function ReadMarker(configured: bool, marker: Marker): Reading
  {
    if !configured then Disabled
    else match marker
      case NoMarker => Absent
      case Fence(owner) => Present(owner)
      case _ => Invalid
  }

  /** `assertAdmissionOpen` does not throw. */
  predicate AdmissionOpen(reading: Reading) { reading.Disabled? || reading.Absent? }

  datatype SpoolState = Empty | Pending | Unavailable

  /** `status().drainable`. */
  predicate Drainable(reading: Reading, active: nat, spool: SpoolState)
  {
    reading.Present? && active == 0 && spool == Empty
  }

  // ---------------------------------------------------------------- one process, call by call

  datatype LeaseKind = RunTask | RunTaskSync | External

  /** The lease table of one engine process; each reading of the marker is an input. */
  class LeaseTable {
    var leases: map<Lease, LeaseKind>

    constructor ()
      ensures leases == map[]
    {
      leases := map[];
    }

    /** `beginLease`: checked, registered, checked again, and taken back when the second check fails. */
    method BeginLease(kind: LeaseKind, id: Lease, first: Reading, second: Reading) returns (granted: bool)
      requires id !in leases
      modifies this
      ensures granted <==> AdmissionOpen(first) && AdmissionOpen(second)
      ensures leases == if granted then old(leases)[id := kind] else old(leases)
    {
      if !AdmissionOpen(first) {
        return false;
      }
      leases := leases[id := kind];
      granted := AdmissionOpen(second);
      if !granted {
        leases := leases - {id};
        assert leases == old(leases);
      }
    }

    /** The closure returned by `beginLease`; calling it twice is calling it once. */
    method Release(id: Lease)
      modifies this
      ensures leases == old(leases) - {id}
    {
      leases := leases - {id};
    }

    method Status(reading: Reading, spool: SpoolState) returns (drainable: bool, active: nat)
      ensures active == |leases|
      ensures drainable <==> reading.Present? && leases == map[] && spool == Empty
    {
      active := |leases|;
      drainable := Drainable(reading, active, spool);
      assert leases == map[] <==> |leases| == 0;
    }
  }

  /** A request that holds a lease while it runs: a status taken meanwhile is not drainable, and nothing stays. */
  method ServeRequest(table: LeaseTable, kind: LeaseKind, id: Lease, first: Reading, second: Reading, during: Reading,
                      spool: SpoolState)
    returns (granted: bool, drainable: bool)
    requires id !in table.leases
    modifies table
    ensures granted <==> AdmissionOpen(first) && AdmissionOpen(second)
    ensures granted ==> !drainable
    ensures table.leases == old(table.leases)
  {
    granted := table.BeginLease(kind, id, first, second);
    var active;
    drainable, active := table.Status(during, spool);
    table.Release(id);
    assert granted ==> id in old(table.leases)[id := kind];
    assert table.leases == old(table.leases);
  }

  // ---------------------------------------------------------------- many callers and processes

  datatype LeaseStage = Checked | Registered

  /** `Unlinked`: the file that the call created, and still has open, was unlinked meanwhile. */
  datatype FenceStage = SawAbsent | Created | Unlinked

  datatype State = State(
    marker: Marker,
    attempts: map<Lease, LeaseStage>,                         // beginLease calls in progress
    leases: set<Lease>,                                       // the lease table
    granted: set<Lease>,                                      // leases whose caller got through
    acquiring: map<Caller, (Transaction, FenceStage)>,        // acquireFence calls in progress
    releasing: map<Caller, Transaction>)                      // releaseFence calls past their read

  datatype Event =
    | CheckLease(id: Lease)
    | RegisterLease(id: Lease)
    | RecheckLease(id: Lease)
    | EndLease(id: Lease)
    | LookToAcquire(c: Caller, tx: Transaction)
    | CreateMarker(c: Caller)       // O_CREAT | O_EXCL
    | WriteMarker(c: Caller)
    | AcquirerDies(c: Caller)
    | LookToRelease(c: Caller, tx: Transaction)
    | Unlink(c: Caller)

  function Read(s: State): Reading { ReadMarker(true, s.marker) }

  /** The lease is granted by this step. */
  predicate Grants(s: State, e: Event)
  {
    e.RecheckLease? && e.id in s.attempts && s.attempts[e.id].Registered? && AdmissionOpen(Read(s))
  }

  function Step(s: State, e: Event): Option<State>
  {
    match e
    case CheckLease(id) =>
      if id in s.attempts || id in s.leases then None
      else if AdmissionOpen(Read(s)) then Some(s.(attempts := s.attempts[id := Checked]))
      else Some(s)
    case RegisterLease(id) =>
      if id in s.attempts && s.attempts[id].Checked? then
        Some(s.(attempts := s.attempts[id := Registered], leases := s.leases + {id}))
      else None
    case RecheckLease(id) =>
      if id in s.attempts && s.attempts[id].Registered? then
        if Grants(s, e) then Some(s.(attempts := s.attempts - {id}, granted := s.granted + {id}))
        else Some(s.(attempts := s.attempts - {id}, leases := s.leases - {id}))
      else None
    case EndLease(id) =>
      if id in s.granted then Some(s.(granted := s.granted - {id}, leases := s.leases - {id})) else None
    case LookToAcquire(c, tx) =>
      if c in s.acquiring then None
      else if s.marker.NoMarker? then Some(s.(acquiring := s.acquiring[c := (tx, SawAbsent)]))
      else Some(s)                                            // already ours, another owner's, or unreadable
    case CreateMarker(c) =>
      if c in s.acquiring && s.acquiring[c].1.SawAbsent? then
        if s.marker.NoMarker?
        then Some(s.(marker := HalfWritten, acquiring := s.acquiring[c := (s.acquiring[c].0, Created)]))
        else Some(s.(acquiring := s.acquiring - {c}))          // EEXIST
      else None
    case WriteMarker(c) =>
      if c in s.acquiring && !s.acquiring[c].1.SawAbsent? then
        Some(s.(marker := if s.acquiring[c].1.Created? then Fence(s.acquiring[c].0) else s.marker,
                acquiring := s.acquiring - {c}))
      else None
    case AcquirerDies(c) => if c in s.acquiring then Some(s.(acquiring := s.acquiring - {c})) else None
    case LookToRelease(c, tx) =>
      if c in s.releasing then None
      else if s.marker == Fence(tx) then Some(s.(releasing := s.releasing[c := tx]))
      else Some(s)                                            // absent, another owner's, or unreadable
    case Unlink(c) =>
      if c in s.releasing then
        Some(s.(marker := NoMarker, releasing := s.releasing - {c}, acquiring := WithoutFile(s.acquiring)))
      else None
  }

  /** The marker is gone: a call that was about to write to it writes to an unlinked file. */
  function WithoutFile(acquiring: map<Caller, (Transaction, FenceStage)>): map<Caller, (Transaction, FenceStage)>
  {
    map c | c in acquiring :: (acquiring[c].0, if acquiring[c].1.Created? then Unlinked else acquiring[c].1)
  }

  predicate Init(s: State)
  {
    && s.marker.NoMarker? && s.attempts == map[] && s.leases == {} && s.granted == {}
    && s.acquiring == map[] && s.releasing == map[]
  }

  predicate IsRun(states: seq<State>, events: seq<Event>)
  {
    && |states| == |events| + 1
    && Init(states[0])
    && forall i :: 0 <= i < |events| ==> Step(states[i], events[i]) == Some(states[i + 1])
  }

  /** Every owner has at most one release in flight. */
  predicate OneReleaseEach(s: State)
  {
    forall c, d :: c in s.releasing && d in s.releasing && s.releasing[c] == s.releasing[d] ==> c == d
  }

  // ---------------------------------------------------------------- leases

  /** The calls of `beginLease` that have entered the table and not yet checked again. */
  function Entered(s: State): set<Lease> { set id | id in s.attempts && s.attempts[id].Registered? }

  /** The table holds exactly the leases that were granted and not ended, and the calls that have just entered. */
  predicate LeaseInv(s: State)
  {
    s.leases == s.granted + Entered(s) && forall id :: id in s.attempts ==> id !in s.granted
  }

  lemma StepKeepsLeases(s: State, e: Event, s': State)
    requires LeaseInv(s) && Step(s, e) == Some(s')
    ensures LeaseInv(s')
  {
  }

  lemma {:induction false} RunKeepsLeases(states: seq<State>, events: seq<Event>, i: nat)
    requires IsRun(states, events) && i < |states|
    ensures LeaseInv(states[i])
  {
    if i > 0 {
      RunKeepsLeases(states, events, i - 1);
      StepKeepsLeases(states[i - 1], events[i - 1], states[i]);
    }
  }

  /** A call of `beginLease` that nothing interrupts does to the table what `LeaseTable.BeginLease` says. */
  lemma UninterruptedLease(s: State, id: Lease) returns (s1: State, s2: State, s3: State)
    requires LeaseInv(s) && id !in s.attempts && id !in s.leases
    ensures Step(s, CheckLease(id)) == Some(s1)
    ensures !AdmissionOpen(Read(s)) ==> s1 == s
    ensures AdmissionOpen(Read(s)) ==> Step(s1, RegisterLease(id)) == Some(s2) && Step(s2, RecheckLease(id)) == Some(s3)
    ensures AdmissionOpen(Read(s)) ==> s3 == s.(leases := s.leases + {id}, granted := s.granted + {id})
  {
    s1 := Step(s, CheckLease(id)).value;
    s2, s3 := s1, s1;
    if AdmissionOpen(Read(s)) {
      s2 := Step(s1, RegisterLease(id)).value;
      s3 := Step(s2, RecheckLease(id)).value;
      assert s3.attempts == s.attempts;
    }
  }

  /** The whole life of such a lease, as `ServeRequest` says of the class: the state is the one before. */
  lemma UninterruptedRequest(s: State, id: Lease) returns (s3: State)
    requires LeaseInv(s) && id !in s.attempts && id !in s.leases && AdmissionOpen(Read(s))
    ensures Step(s3, EndLease(id)) == Some(s)
    ensures s3.granted == s.granted + {id}
  {
    var s1, s2;
    s1, s2, s3 := UninterruptedLease(s, id);
    assert s3.leases - {id} == s.leases && s3.granted - {id} == s.granted;
  }

  /** A call that finds the marker set when it looks again takes its entry out of the table. */
  lemma RefusedLeaseLeavesNothing(s: State, id: Lease, s': State)
    requires LeaseInv(s) && id in s.attempts && s.attempts[id].Registered? && !AdmissionOpen(Read(s))
    requires Step(s, RecheckLease(id)) == Some(s')
    ensures id !in s'.leases && id !in s'.granted && id !in s'.attempts
    ensures s'.leases == s.leases - {id} && s'.granted == s.granted
  {
  }

  /** What a request and a status make of the marker file. */
  lemma ReadingExactly(configured: bool, marker: Marker, active: nat, spool: SpoolState)
    ensures AdmissionOpen(ReadMarker(configured, marker)) <==> !configured || marker == NoMarker
    ensures Drainable(ReadMarker(configured, marker), active, spool) <==>
            configured && (exists tx :: marker == Fence(tx)) && active == 0 && spool == Empty
  {
  }

  /** In every state of a run the table holds exactly the granted leases and the calls that have just entered. */
  lemma TableIsExact(states: seq<State>, events: seq<Event>, i: nat)
    requires IsRun(states, events) && i < |states|
    ensures states[i].leases == states[i].granted + Entered(states[i])
    ensures states[i].granted !! Entered(states[i])
  {
    RunKeepsLeases(states, events, i);
  }

  lemma MarkerStep(s: State, e: Event, s': State)
    requires Step(s, e) == Some(s') && !e.Unlink? && !s.marker.NoMarker?
    ensures !s'.marker.NoMarker?
  {
  }

  /** With a marker of any kind on disk no step grants a lease. */
  lemma ClosedStep(s: State, e: Event, s': State)
    requires !s.marker.NoMarker? && s.granted == {} && Step(s, e) == Some(s')
    ensures !Grants(s, e) && s'.granted == {}
  {
  }

  /** A marker stays, whole or not, until somebody unlinks it. */
  lemma {:induction false} MarkerStays(states: seq<State>, events: seq<Event>, i: nat, k: nat)
    requires IsRun(states, events) && i <= k < |states| && !states[i].marker.NoMarker?
    requires forall m :: i <= m < k ==> !events[m].Unlink?
    ensures !states[k].marker.NoMarker?
    decreases k
  {
    if i < k {
      MarkerStays(states, events, i, k - 1);
      MarkerStep(states[k - 1], events[k - 1], states[k]);
    }
  }

  /**
   * A status call read a fence at moment i and counted no lease at a later moment j. Until the
   * marker is unlinked no lease is granted and none is held, whatever steps of lease calls and of
   * other processes come in between.
   */
  lemma {:induction false} DrainedStaysClosed(states: seq<State>, events: seq<Event>, i: nat, j: nat, k: nat)
    requires IsRun(states, events) && i <= j <= k < |states|
    requires Read(states[i]).Present? && states[j].leases == {}
    requires forall m :: i <= m < k ==> !events[m].Unlink?
    ensures forall m :: j <= m < k ==> !Grants(states[m], events[m])
    ensures states[k].granted == {} && !states[k].marker.NoMarker?
    decreases k
  {
    MarkerStays(states, events, i, k);
    if j == k {
      RunKeepsLeases(states, events, k);
    } else {
      DrainedStaysClosed(states, events, i, j, k - 1);
      ClosedStep(states[k - 1], events[k - 1], states[k]);
    }
  }

  /** Between a marker, whole or half-written, and a later grant somebody unlinked a marker. */
  lemma GrantNeedsUnlink(states: seq<State>, events: seq<Event>, i: nat, k: nat) returns (m: nat)
    requires IsRun(states, events) && i <= k < |events| && !states[i].marker.NoMarker? && Grants(states[k], events[k])
    ensures i <= m < k && events[m].Unlink?
  {
    if forall m :: i <= m < k ==> !events[m].Unlink? {
      MarkerStays(states, events, i, k);
      assert false;
    }
    m :| i <= m < k && events[m].Unlink?;
  }

  // ---------------------------------------------------------------- fences

  predicate OneReleaseRun(states: seq<State>) { forall i :: 0 <= i < |states| ==> OneReleaseEach(states[i]) }

  predicate FenceInv(s: State)
  {
    && (forall c :: c in s.acquiring && s.acquiring[c].1.Created? ==> s.marker.HalfWritten?)
    && (forall c, d :: c in s.acquiring && d in s.acquiring ==>
          s.acquiring[c].1.Created? && s.acquiring[d].1.Created? ==> c == d)
    && (forall c :: c in s.releasing ==> s.marker == Fence(s.releasing[c]))
  }

  lemma StepKeepsFence(s: State, e: Event, s': State)
    requires FenceInv(s) && OneReleaseEach(s) && Step(s, e) == Some(s')
    ensures FenceInv(s')
  {
    if e.Unlink? {
      assert forall d :: d in s.releasing ==> s.releasing[d] == s.releasing[e.c];
    }
  }

  lemma {:induction false} RunKeepsFence(states: seq<State>, events: seq<Event>, i: nat)
    requires IsRun(states, events) && OneReleaseRun(states) && i < |states|
    ensures FenceInv(states[i])
  {
    if i > 0 {
      RunKeepsFence(states, events, i - 1);
      assert OneReleaseEach(states[i - 1]);
      StepKeepsFence(states[i - 1], events[i - 1], states[i]);
    }
  }

  /** An unlink removes the fence of the very transaction that asked for it. */
  lemma OnlyOwnerUnlinks(states: seq<State>, events: seq<Event>, i: nat)
    requires IsRun(states, events) && OneReleaseRun(states) && i < |events| && events[i].Unlink?
    ensures events[i].c in states[i].releasing && states[i].marker == Fence(states[i].releasing[events[i].c])
    ensures states[i + 1].marker == NoMarker
  {
    RunKeepsFence(states, events, i);
    assert Step(states[i], events[i]) == Some(states[i + 1]);
  }

  /** The owner of the fence changes only by way of no marker at all. */
  lemma {:induction false} OwnerChangesThroughAbsent(states: seq<State>, events: seq<Event>, a: nat, b: nat)
    returns (m: nat)
    requires IsRun(states, events) && OneReleaseRun(states) && a < b < |states|
    requires states[a].marker.Fence? && states[b].marker.Fence? && states[a].marker != states[b].marker
    ensures a < m < b && states[m].marker == NoMarker
    decreases b - a
  {
    RunKeepsFence(states, events, a);
    assert Step(states[a], events[a]) == Some(states[a + 1]);
    if states[a + 1].marker == states[a].marker {
      m := OwnerChangesThroughAbsent(states, events, a + 1, b);
    } else {
      m := a + 1;
    }
  }

  /** With one release per owner in flight a fence keeps its owner until it is unlinked. */
  lemma {:induction false} FenceStays(states: seq<State>, events: seq<Event>, i: nat, k: nat)
    requires IsRun(states, events) && OneReleaseRun(states) && i <= k < |states|
    requires states[i].marker.Fence? && forall m :: i <= m < k ==> !events[m].Unlink?
    ensures states[k].marker == states[i].marker
    decreases k
  {
    if i < k {
      FenceStays(states, events, i, k - 1);
      RunKeepsFence(states, events, k - 1);
      assert Step(states[k - 1], events[k - 1]) == Some(states[k - 1 + 1]);
    }
  }

  /** An uninterrupted acquire and release of a fence leave the state as it was. */
  lemma UninterruptedFence(s: State, c: Caller, tx: Transaction) returns (s3: State, s4: State)
    requires s.marker.NoMarker? && c !in s.acquiring && c !in s.releasing
    requires forall x :: x in s.acquiring ==> !s.acquiring[x].1.Created?
    ensures s3 == s.(marker := Fence(tx)) && Step(s3, LookToRelease(c, tx)) == Some(s4)
    ensures Step(s4, Unlink(c)) == Some(s)
  {
    var s1, s2;
    s1, s2, s3 := FenceIsSet(s, c, tx);
    assert s3.acquiring == s.acquiring;
    s4 := Step(s3, LookToRelease(c, tx)).value;
    assert WithoutFile(s.acquiring) == s.acquiring && s4.releasing - {c} == s.releasing;
  }

  /** A call that another one has overtaken ends without touching the marker, and so does one that finds a marker. */
  lemma LateAcquirerLeavesNothing(s: State, c: Caller, tx: Transaction, s': State)
    requires !s.marker.NoMarker? && c in s.acquiring && s.acquiring[c].1.SawAbsent?
    requires Step(s, CreateMarker(c)) == Some(s')
    ensures s' == s.(acquiring := s.acquiring - {c}) && Step(s', LookToAcquire(c, tx)) == Some(s')
  {
  }

  // ---------------------------------------------------------------- two releases of one owner

  /** The fence of `tx` is set by a caller that finds no marker. */
  lemma FenceIsSet(s: State, c: Caller, tx: Transaction) returns (s1: State, s2: State, s3: State)
    requires s.marker.NoMarker? && c !in s.acquiring
    ensures Step(s, LookToAcquire(c, tx)) == Some(s1) && Step(s1, CreateMarker(c)) == Some(s2)
    ensures Step(s2, WriteMarker(c)) == Some(s3)
    ensures s3 == s.(marker := Fence(tx), acquiring := s3.acquiring)
    ensures s3.acquiring == s1.acquiring - {c} && s1.acquiring == s.acquiring[c := (tx, SawAbsent)]
  {
    s1 := Step(s, LookToAcquire(c, tx)).value;
    s2 := Step(s1, CreateMarker(c)).value;
    s3 := Step(s2, WriteMarker(c)).value;
  }

  /**
   * Wherever two releases of one owner are past their read, one of them can remove the fence that any other owner has
   * set after the first one was done.
   */
  lemma DoubleReleaseRemovesOtherFence(s: State, c: Caller, d: Caller, x: Caller, tx: Transaction)
    returns (s1: State, s2: State, s3: State, s4: State, s5: State)
    requires c != d && c in s.releasing && d in s.releasing && s.releasing[c] == s.releasing[d] != tx
             && x !in s.acquiring
    ensures Step(s, Unlink(c)) == Some(s1) && Step(s1, LookToAcquire(x, tx)) == Some(s2)
    ensures Step(s2, CreateMarker(x)) == Some(s3) && Step(s3, WriteMarker(x)) == Some(s4)
    ensures s4.marker == Fence(tx) && d in s4.releasing && s4.releasing[d] != tx
    ensures Step(s4, Unlink(d)) == Some(s5) && s5.marker == NoMarker
  {
    s1 := Step(s, Unlink(c)).value;
    s2, s3, s4 := FenceIsSet(s1, x, tx);
    s5 := Step(s4, Unlink(d)).value;
  }

  /** ... or the file that this owner is about to write, whose call then ends without an error and without a fence. */
  lemma DoubleReleasePreventsFence(s: State, c: Caller, d: Caller, x: Caller, tx: Transaction)
    returns (s1: State, s2: State, s3: State, s4: State, s5: State)
    requires c != d && c in s.releasing && d in s.releasing && x !in s.acquiring
    ensures Step(s, Unlink(c)) == Some(s1) && Step(s1, LookToAcquire(x, tx)) == Some(s2)
    ensures Step(s2, CreateMarker(x)) == Some(s3) && Step(s3, Unlink(d)) == Some(s4)
    ensures Step(s4, WriteMarker(x)) == Some(s5) && s5.marker == NoMarker && x !in s5.acquiring
  {
    s1 := Step(s, Unlink(c)).value;
    s2 := Step(s1, LookToAcquire(x, tx)).value;
    s3 := Step(s2, CreateMarker(x)).value;
    s4 := Step(s3, Unlink(d)).value;
    s5 := Step(s4, WriteMarker(x)).value;
  }

  /** Any two calls that look at their own fence in turn are such a pair. */
  lemma DoubleReleaseIsReachable(s: State, c: Caller, d: Caller, tx: Transaction) returns (s1: State, s2: State)
    requires s.marker == Fence(tx) && c != d && c !in s.releasing && d !in s.releasing
    ensures Step(s, LookToRelease(c, tx)) == Some(s1) && Step(s1, LookToRelease(d, tx)) == Some(s2)
    ensures c in s2.releasing && d in s2.releasing && s2.releasing[c] == s2.releasing[d] == tx
    ensures !OneReleaseEach(s2)
  {
    s1 := Step(s, LookToRelease(c, tx)).value;
    s2 := Step(s1, LookToRelease(d, tx)).value;
  }
}
