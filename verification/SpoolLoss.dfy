/** When the engine can still be drained, and which results are lost when it is. */
module SpoolLoss {
  import opened Wrappers
  import UpdateAdmission
  import opened SpoolPaths
  import opened RunRoutes

  function Exec(s: State, events: seq<Event>): Option<State>
    decreases |events|
  {
    if events == [] then Some(s)
    else
      var next := Step(s, events[0]);
      if next.None? then None else Exec(next.value, events[1..])
  }

  /** None of the events changes the marker. */
  predicate KeepMarker(events: seq<Event>) { forall i :: 0 <= i < |events| ==> !events[i].MarkerChanges? }

  /** Some events lead from `s` to `s'`; none of them changes the marker if `kept`. */
  ghost predicate Leads(s: State, s': State, kept: bool)
  {
    exists events :: (kept ==> KeepMarker(events)) && Exec(s, events) == Some(s')
  }

  lemma LeadsSelf(s: State)
    ensures Leads(s, s, true) && Leads(s, s, false)
  {
    assert KeepMarker([]) && Exec(s, []) == Some(s);
  }

  lemma LeadsStep(s: State, e: Event, s': State, s'': State, kept: bool)
    requires Step(s, e) == Some(s') && Leads(s', s'', kept) && (kept ==> !e.MarkerChanges?)
    ensures Leads(s, s'', kept)
  {
    var events :| (kept ==> KeepMarker(events)) && Exec(s', events) == Some(s'');
    assert ([e] + events)[1..] == events;
    assert kept ==> KeepMarker([e] + events);
    assert Exec(s, [e] + events) == Some(s'');
  }

  lemma LeadsThrough(s: State, s1: State, s2: State, kept: bool)
    requires Leads(s, s1, kept) && Leads(s1, s2, kept)
    ensures Leads(s, s2, kept)
  {
    var a :| (kept ==> KeepMarker(a)) && Exec(s, a) == Some(s1);
    var b :| (kept ==> KeepMarker(b)) && Exec(s1, b) == Some(s2);
    ExecThrough(s, a, b);
    assert kept ==> KeepMarker(a + b);
  }

  lemma {:induction false} ExecThrough(s: State, a: seq<Event>, b: seq<Event>)
    requires Exec(s, a).Some?
    ensures Exec(s, a + b) == Exec(Exec(s, a).value, b)
    decreases |a|
  {
    if a == [] {
      assert a + b == b;
    } else {
      assert (a + b)[0] == a[0] && (a + b)[1..] == a[1..] + b;
      ExecThrough(Step(s, a[0]).value, a[1..], b);
    }
  }

  lemma LeadsFreely(s: State, s': State)
    requires Leads(s, s', true)
    ensures Leads(s, s', false)
  {
  }

  ghost predicate Sound(s: State) { KeyInv(s) && ActiveInv(s) && SpoolInv(s) && RunsNamed(s) }

  lemma StepKeepsSound(s: State, e: Event, s': State)
    requires Sound(s) && Step(s, e) == Some(s')
    ensures Sound(s')
  {
    StepKeepsKeyInv(s, e, s');
    StepKeepsActive(s, e, s');
    StepKeepsSpool(s, e, s');
    StepKeepsNames(s, e, s');
  }

  lemma {:induction false} ExecKeepsSound(s: State, events: seq<Event>)
    requires Sound(s) && Exec(s, events).Some?
    ensures Sound(Exec(s, events).value)
    decreases |events|
  {
    if events != [] {
      StepKeepsSound(s, events[0], Step(s, events[0]).value);
      ExecKeepsSound(Step(s, events[0]).value, events[1..]);
    }
  }

  lemma LeadsKeepsSound(s: State, s': State, kept: bool)
    requires Sound(s) && Leads(s, s', kept)
    ensures Sound(s')
  {
    var events :| (kept ==> KeepMarker(events)) && Exec(s, events) == Some(s');
    ExecKeepsSound(s, events);
  }

  lemma LeadsNow(s: State, e: Event, s': State, kept: bool)
    requires Step(s, e) == Some(s') && (kept ==> !e.MarkerChanges?)
    ensures Leads(s, s', kept)
  {
    LeadsSelf(s');
    LeadsStep(s, e, s', s', kept);
  }

  /** Two steps, neither of which changes the marker. */
  lemma LeadsTwice(s: State, e: Event, s': State, e': Event, s'': State)
    requires Step(s, e) == Some(s') && Step(s', e') == Some(s'') && !e.MarkerChanges? && !e'.MarkerChanges?
    ensures Leads(s, s'', true)
  {
    LeadsNow(s', e', s'', true);
    LeadsStep(s, e, s', s'', true);
  }

  lemma SetMarker(s: State, marker: UpdateAdmission.Marker) returns (s': State)
    ensures s' == s.(marker := marker) && Leads(s, s', false)
  {
    s' := Step(s, MarkerChanges(marker)).value;
    LeadsNow(s, MarkerChanges(marker), s', false);
  }

  // ---------------------------------------------------------------- a lost result stays lost

  /** What is in the file of the run can be sent by a redelivery. */
  predicate OnOffer(s: State, r: Run) { Spooled(s, r) && Listed(s.dir, s.runs[r].file) && s.runs[r].sendable }

  /** The result of a tried delivery is neither acknowledged nor held by anything that could still deliver it. */
  ghost predicate Lost(s: State, r: Run)
  {
    Tried(s, r) && r !in s.acked && !OnOffer(s, r) && forall d :: d in s.sending ==> s.sending[d].run != r
  }

  lemma LostStep(s: State, e: Event, s': State, r: Run)
    requires SpoolInv(s) && Lost(s, r) && Step(s, e) == Some(s')
    ensures Lost(s', r)
  {
    TriedStays(s, e, s', r);
    if e.RedeliveryReads? {
      assert EntryOk(s, e.file);
    }
  }

  /** Whatever happens next, a lost result is never acknowledged. */
  lemma {:induction false} LostForGood(s: State, events: seq<Event>, r: Run)
    requires Sound(s) && Lost(s, r) && Exec(s, events).Some?
    ensures Lost(Exec(s, events).value, r)
    decreases |events|
  {
    if events != [] {
      var s' := Step(s, events[0]).value;
      StepKeepsSound(s, events[0], s');
      LostStep(s, events[0], s', r);
      LostForGood(s', events[1..], r);
    }
  }

  /** A result whose delivery has just failed is lost at once exactly when its file is not listed or not sent. */
  lemma FailedResultIsLost(s: State, r: Run, s': State)
    requires Sound(s) && Step(s, DeliveryFails(r)) == Some(s')
    ensures Lost(s', r) <==> !Listed(s.dir, s.runs[r].file) || !s.runs[r].sendable
  {
    NeverTried(s, r);
    FailedEffect(s, r, s');
  }

  lemma FailedEffect(s: State, r: Run, s': State)
    requires Step(s, DeliveryFails(r)) == Some(s')
    requires r !in s.acked && s.runs[r].callback && forall x :: x in s.sending ==> s.sending[x].run != r
    ensures Lost(s', r) <==> !Listed(s.dir, s.runs[r].file) || !s.runs[r].sendable
  {
    assert Spooled(s', r) && s'.runs[r].file == s.runs[r].file && s'.runs[r].sendable == s.runs[r].sendable;
  }

  // ---------------------------------------------------------------- entries that redelivery skips

  /** A listed file that no redelivery sends, because it holds no execution id or no token. */
  predicate Skipped(s: State, f: Path)
  {
    f in s.spool && Listed(s.dir, f) && s.spool[f] in s.runs && !s.runs[s.spool[f]].sendable
  }

  /** A run in flight whose result can still take the place of what the file holds, and be sent. */
  predicate CanReplace(s: State, r: Run, f: Path)
  {
    && r in s.runs && (s.runs[r].stage.Working? || s.runs[r].stage.Delivering?)
    && s.runs[r].callback && s.runs[r].sendable && s.runs[r].file == f
  }

  /** A redelivery that read the file earlier will unlink it, or such a run can replace what it holds. */
  predicate CanGo(s: State, f: Path)
  {
    || (exists d :: d in s.sending && s.sending[d].file == f)
    || (exists r :: r in s.runs && CanReplace(s, r, f))
  }

  predicate AllCanGo(s: State) { forall f :: f in s.spool && Skipped(s, f) ==> CanGo(s, f) }

  /** The fence is set, so that no run is accepted, and nothing in flight frees the file. */
  predicate Blocked(s: State, f: Path) { s.marker.Fence? && Skipped(s, f) && !CanGo(s, f) }

  lemma BlockedStep(s: State, e: Event, s': State, f: Path)
    requires SpoolInv(s) && Blocked(s, f) && Step(s, e) == Some(s') && !e.MarkerChanges?
    ensures Blocked(s', f)
  {
    assert EntryOk(s, f);
    TriedStays(s, e, s', s.spool[f]);
    BlockedEntry(s, e, s', f);
    forall d | d in s'.sending ensures s'.sending[d].file != f {
    }
    forall r | r in s'.runs ensures !CanReplace(s', r, f) {
      assert r in s.runs && (CanReplace(s', r, f) ==> CanReplace(s, r, f));
    }
  }

  /** The entry may be overwritten, but only by one that is skipped as well. */
  lemma BlockedEntry(s: State, e: Event, s': State, f: Path)
    requires SpoolInv(s) && Blocked(s, f) && Step(s, e) == Some(s') && !e.MarkerChanges?
    ensures Skipped(s', f) && s'.marker == s.marker
  {
    if e.DeliveryFails? && s.runs[e.run].file == f {
      assert !CanReplace(s, e.run, f);
    } else if e.RedeliveryEnds? {
      assert s.sending[e.sender].file != f;
    }
  }

  lemma {:induction false} BlockedForGood(s: State, events: seq<Event>, f: Path)
    requires Sound(s) && Blocked(s, f) && KeepMarker(events) && Exec(s, events).Some?
    ensures Blocked(Exec(s, events).value, f)
    decreases |events|
  {
    if events != [] {
      var s' := Step(s, events[0]).value;
      StepKeepsSound(s, events[0], s');
      BlockedStep(s, events[0], s', f);
      assert KeepMarker(events[1..]);
      BlockedForGood(s', events[1..], f);
    }
  }

  // ---------------------------------------------------------------- draining behind the fence

  lemma OneLess(sending: map<Sender, Sending>, d: Sender)
    requires d in sending
    ensures |sending - {d}| < |sending|
  {
    assert (sending - {d}).Keys == sending.Keys - {d};
    assert |sending - {d}| == |(sending - {d}).Keys| && |sending| == |sending.Keys|;
  }

  lemma EndsEffect(s: State, d: Sender, acknowledged: bool) returns (s': State)
    requires d in s.sending
    ensures Step(s, RedeliveryEnds(d, acknowledged)) == Some(s')
    ensures s'.sending == s.sending - {d} && s'.marker == s.marker
  {
    s' := Step(s, RedeliveryEnds(d, acknowledged)).value;
  }

  /** Every redelivery in progress is acknowledged, and unlinks its file. */
  lemma {:induction false} EndSending(s: State) returns (s': State)
    ensures Leads(s, s', true) && s'.sending == map[] && s'.marker == s.marker && (AllCanGo(s) ==> AllCanGo(s'))
    decreases |s.sending|
  {
    if s.sending == map[] {
      s' := s;
      LeadsSelf(s);
    } else {
      var d :| d in s.sending;
      var s1 := EndsEffect(s, d, true);
      EndedCanGo(s, d, s1);
      OneLess(s.sending, d);
      s' := EndSending(s1);
      LeadsStep(s, RedeliveryEnds(d, true), s1, s', true);
    }
  }

  lemma EndedCanGo(s: State, d: Sender, s': State)
    requires Step(s, RedeliveryEnds(d, true)) == Some(s')
    ensures AllCanGo(s) ==> AllCanGo(s')
  {
    if AllCanGo(s) {
      forall f | f in s'.spool && Skipped(s', f) ensures CanGo(s', f) {
        assert Skipped(s, f) && CanGo(s, f) && f != s.sending[d].file;
        if x :| x in s.sending && s.sending[x].file == f {
          assert x in s'.sending && s'.sending[x].file == f;
        } else {
          var r :| r in s.runs && CanReplace(s, r, f);
          assert CanReplace(s', r, f);
        }
      }
    }
  }

  /** A result that can be sent goes to its file; any other is delivered. */
  function Outcome(s: State, r: Run): Event
    requires At(s, r, Delivering)
  {
    if s.runs[r].sendable then DeliveryFails(r) else Delivered(r)
  }

  function NextOf(s: State, r: Run): Event
    requires InFlight(s, r)
  {
    if At(s, r, Working) then TaskEnds(r) else if At(s, r, Delivering) then Outcome(s, r) else Finally(r)
  }

  lemma NextKeepsGoing(s: State, r: Run, s': State)
    requires SpoolInv(s) && InFlight(s, r) && Step(s, NextOf(s, r)) == Some(s') && s.sending == map[]
    ensures AllCanGo(s) ==> AllCanGo(s')
  {
    if AllCanGo(s) {
      forall f | f in s'.spool && Skipped(s', f) ensures CanGo(s', f) {
        assert Skipped(s, f) && CanGo(s, f);
        var x :| x in s.runs && CanReplace(s, x, f);
        assert x in s'.runs && CanReplace(s', x, f);
      }
    }
  }

  function Rest(s: State, r: Run): nat
    requires r in s.runs
  {
    match s.runs[r].stage
    case Working => 3
    case Delivering => 2
    case Closing => 1
    case Closed => 0
  }

  lemma NextEffect(s: State, r: Run) returns (s': State)
    requires InFlight(s, r) && s.sending == map[]
    ensures Step(s, NextOf(s, r)) == Some(s') && s'.sending == map[] && s'.marker == s.marker
    ensures r in s'.runs && Rest(s', r) < Rest(s, r)
    ensures s'.leases == if InFlight(s', r) then s.leases else s.leases - {r}
  {
    s' := Step(s, NextOf(s, r)).value;
  }

  lemma {:induction false} CloseRun(s: State, r: Run) returns (s': State)
    requires Sound(s) && InFlight(s, r) && s.sending == map[]
    ensures Leads(s, s', true) && Sound(s') && s'.sending == map[] && s'.leases == s.leases - {r}
    ensures s'.marker == s.marker && (AllCanGo(s) ==> AllCanGo(s'))
    decreases Rest(s, r)
  {
    var s1 := NextEffect(s, r);
    StepKeepsSound(s, NextOf(s, r), s1);
    LeadsNow(s, NextOf(s, r), s1, true);
    NextKeepsGoing(s, r, s1);
    if InFlight(s1, r) {
      s' := CloseRun(s1, r);
      LeadsThrough(s, s1, s', true);
    } else {
      s' := s1;
    }
  }

  lemma {:induction false} CloseAll(s: State) returns (s': State)
    requires Sound(s) && s.sending == map[]
    ensures Leads(s, s', true) && Sound(s') && s'.sending == map[] && s'.leases == {}
    ensures s'.marker == s.marker && (AllCanGo(s) ==> AllCanGo(s'))
    decreases |s.leases|
  {
    if s.leases == {} {
      s' := s;
      LeadsSelf(s);
    } else {
      var r :| r in s.leases;
      assert InFlight(s, r);
      var s1 := CloseRun(s, r);
      s' := CloseAll(s1);
      LeadsThrough(s, s1, s', true);
    }
  }

  /** Nothing is in flight and nothing is being redelivered. */
  predicate AtRest(s: State) { s.sending == map[] && s.leases == {} }

  lemma NothingSkipped(s: State)
    requires Sound(s) && AtRest(s) && AllCanGo(s)
    ensures forall f :: f in s.spool ==> !Skipped(s, f)
  {
    assert forall r :: r in s.runs ==> !InFlight(s, r);
    assert forall f, r :: r in s.runs ==> !CanReplace(s, r, f);
  }

  lemma RedeliveryEffect(s: State, f: Path) returns (s1: State, s': State)
    requires s.sending == map[] && CanSend(s, f)
    ensures Step(s, RedeliveryReads(0, f)) == Some(s1) && Step(s1, RedeliveryEnds(0, true)) == Some(s')
    ensures s'.spool == s.spool - {f} && s'.sending == map[] && s'.leases == s.leases
    ensures s'.marker == s.marker && s'.runs == s.runs && s'.dir == s.dir
  {
    s1 := Step(s, RedeliveryReads(0, f)).value;
    s' := Step(s1, RedeliveryEnds(0, true)).value;
  }

  /** Everything that is listed can be sent. */
  predicate AllSendable(s: State) { forall f :: f in ListedFiles(s) ==> CanSend(s, f) }

  lemma RestIsSendable(s: State)
    requires SpoolInv(s) && forall f :: f in s.spool ==> !Skipped(s, f)
    ensures AllSendable(s)
  {
    forall f | f in ListedFiles(s) ensures CanSend(s, f) {
      assert EntryOk(s, f);
    }
  }

  lemma {:induction false} RedeliverAll(s: State) returns (s': State)
    requires AtRest(s) && AllSendable(s)
    ensures Leads(s, s', true) && AtRest(s') && ListedFiles(s') == {} && s'.marker == s.marker
    decreases |ListedFiles(s)|
  {
    if ListedFiles(s) == {} {
      s' := s;
      LeadsSelf(s);
    } else {
      var f :| f in ListedFiles(s);
      var s1, s2 := RedeliveryEffect(s, f);
      assert ListedFiles(s2) == ListedFiles(s) - {f};
      s' := RedeliverAll(s2);
      LeadsTwice(s, RedeliveryReads(0, f), s1, RedeliveryEnds(0, true), s2);
      LeadsThrough(s, s2, s', true);
    }
  }

  lemma DrainBehindFence(s: State) returns (s': State)
    requires Sound(s) && s.marker.Fence? && AllCanGo(s)
    ensures Leads(s, s', true) && Sound(s') && AtRest(s') && DrainableState(s')
  {
    var s1 := EndSending(s);
    LeadsKeepsSound(s, s1, true);
    var s2 := CloseAll(s1);
    NothingSkipped(s2);
    RestIsSendable(s2);
    s' := RedeliverAll(s2);
    LeadsThrough(s, s1, s2, true);
    LeadsThrough(s, s2, s', true);
    LeadsKeepsSound(s, s', true);
  }

  /** While the fence stays the engine becomes drainable. */
  ghost predicate CanDrain(s: State)
  {
    exists events :: KeepMarker(events) && Exec(s, events).Some? && DrainableState(Exec(s, events).value)
  }

  /**
   * Behind a fence a reachable engine can still become drainable exactly when every entry that redelivery skips, for
   * want of an execution id or a token, is about to be unlinked or can be replaced by the result of a run in flight.
   */
  lemma CanDrainExactly(s: State)
    requires Sound(s) && s.marker.Fence?
    ensures CanDrain(s) <==> AllCanGo(s)
  {
    if AllCanGo(s) {
      var s' := DrainBehindFence(s);
      var events :| KeepMarker(events) && Exec(s, events) == Some(s');
    } else {
      var f :| f in s.spool && Skipped(s, f) && !CanGo(s, f);
      forall events | KeepMarker(events) && Exec(s, events).Some? ensures !DrainableState(Exec(s, events).value) {
        BlockedForGood(s, events, f);
        BlockedIsCounted(Exec(s, events).value, f);
      }
    }
  }

  lemma BlockedIsCounted(s: State, f: Path)
    requires Blocked(s, f)
    ensures !DrainableState(s)
  {
    assert f in ListedFiles(s);
  }

  // ---------------------------------------------------------------- draining with the fence lifted

  lemma FreshRun(runs: set<Run>) returns (r: Run)
    ensures r !in runs
  {
    r := Above(runs);
  }

  lemma {:induction false} Above(runs: set<Run>) returns (r: Run)
    ensures forall x :: x in runs ==> x < r
    decreases |runs|
  {
    if runs == {} {
      r := 0;
    } else {
      var x :| x in runs;
      var y := Above(runs - {x});
      r := if x < y then y else x + 1;
      assert forall z :: z in runs ==> z == x || z in runs - {x};
    }
  }

  lemma StartEffect(s: State, testId: TestId, token: bool, r: Run) returns (s1: State, s2: State)
    requires s.activeKeys == {} && s.marker.NoMarker? && r !in s.runs
    ensures Step(s, Post(r, testId, true, token)) == Some(s1) && Step(s1, TaskEnds(r)) == Some(s2)
    ensures s2.runs == s.runs[r := NewRun(s.dir, testId, true, token).(stage := Delivering)]
    ensures s2.spool == s.spool && s2.sending == s.sending && s2.marker == s.marker && s2.dir == s.dir
    ensures s2.leases == s.leases + {r}
  {
    s1 := Step(s, Post(r, testId, true, token)).value;
    s2 := Step(s1, TaskEnds(r)).value;
  }

  lemma FailEffect(s: State, r: Run) returns (s1: State, s2: State)
    requires At(s, r, Delivering)
    ensures Step(s, DeliveryFails(r)) == Some(s1) && Step(s1, Finally(r)) == Some(s2)
    ensures s2.runs == s.runs[r := s.runs[r].(stage := Closed)]
    ensures s2.spool == s.spool[s.runs[r].file := r] && s2.leases == s.leases - {r}
    ensures s2.sending == s.sending && s2.marker == s.marker && s2.dir == s.dir
  {
    s1 := Step(s, DeliveryFails(r)).value;
    s2 := Step(s1, Finally(r)).value;
  }

  lemma NoKeyAtRest(s: State)
    requires KeyInv(s) && ActiveInv(s) && AtRest(s)
    ensures s.activeKeys == {}
  {
    assert forall q :: !InFlight(s, q);
  }

  /** A run is taken to the delivery of its result. */
  lemma DeliveringRun(s: State, testId: TestId, token: bool, r: Run) returns (s': State)
    requires s.activeKeys == {} && AtRest(s) && s.marker.NoMarker? && r !in s.runs
    ensures Leads(s, s', true)
    ensures s'.runs == s.runs[r := NewRun(s.dir, testId, true, token).(stage := Delivering)]
    ensures s'.spool == s.spool && s'.sending == map[] && s'.marker == s.marker && s'.dir == s.dir && s'.leases == {r}
  {
    var s1;
    s1, s' := StartEffect(s, testId, token, r);
    LeadsTwice(s, Post(r, testId, true, token), s1, TaskEnds(r), s');
  }

  /** A run whose delivery fails, from its acceptance to its end. */
  lemma UndeliveredRun(s: State, testId: TestId, token: bool, r: Run) returns (s': State)
    requires s.activeKeys == {} && AtRest(s) && s.marker.NoMarker? && r !in s.runs
    ensures Leads(s, s', true) && AtRest(s') && s'.marker == s.marker && s'.dir == s.dir
    ensures s'.spool == s.spool[PathOf(s.dir, testId) := r]
    ensures s'.runs == s.runs[r := NewRun(s.dir, testId, true, token).(stage := Closed)]
  {
    var s1 := DeliveringRun(s, testId, token, r);
    var s2;
    s2, s' := FailEffect(s1, r);
    LeadsTwice(s1, DeliveryFails(r), s2, Finally(r), s');
    LeadsThrough(s, s1, s', true);
  }

  function SkippedFiles(s: State): set<Path> { set f | f in s.spool && Skipped(s, f) }

  /** Another test id with the same file takes the place of a skipped entry. */
  lemma ReplaceOne(s: State, f: Path) returns (s': State)
    requires Sound(s) && AtRest(s) && s.marker.NoMarker? && f in s.spool && Skipped(s, f)
    ensures Leads(s, s', true) && Sound(s') && AtRest(s') && s'.marker == s.marker
    ensures SkippedFiles(s') == SkippedFiles(s) - {f}
  {
    var testId := s.runs[s.spool[f]].testId;
    assert EntryOk(s, f);
    AliasHasSameFile(s.dir, testId);
    var r := FreshRun(s.runs.Keys);
    NoKeyAtRest(s);
    s' := UndeliveredRun(s, Some(Alias(testId)), true, r);
    LeadsKeepsSound(s, s', true);
    assert s'.spool == s.spool[f := r];
    forall g ensures g in SkippedFiles(s') <==> g in SkippedFiles(s) && g != f {
      if g != f && g in s.spool {
        assert EntryOk(s, g) && s'.spool[g] == s.spool[g];
      }
    }
  }

  lemma {:induction false} ReplaceAll(s: State) returns (s': State)
    requires Sound(s) && AtRest(s) && s.marker.NoMarker?
    ensures Leads(s, s', true) && Sound(s') && AtRest(s') && SkippedFiles(s') == {}
    decreases |SkippedFiles(s)|
  {
    if SkippedFiles(s) == {} {
      s' := s;
      LeadsSelf(s);
    } else {
      var f :| f in SkippedFiles(s);
      var s1 := ReplaceOne(s, f);
      s' := ReplaceAll(s1);
      LeadsThrough(s, s1, s', true);
    }
  }

  /** Without a fence first, every reachable engine can be drained: by overwriting what redelivery skips. */
  lemma CanDrainByOverwriting(s: State) returns (s': State)
    requires Sound(s)
    ensures Leads(s, s', false) && Sound(s') && AtRest(s') && DrainableState(s')
  {
    var s1 := Emptied(s);
    var s2 := SetMarker(s1, UpdateAdmission.Fence("u"));
    LeadsThrough(s, s1, s2, false);
    LeadsKeepsSound(s, s2, false);
    assert AllCanGo(s2) by {
      assert forall f :: f in s2.spool && Skipped(s2, f) ==> f in SkippedFiles(s1);
    }
    s' := DrainBehindFence(s2);
    LeadsFreely(s2, s');
    LeadsThrough(s, s2, s', false);
  }

  /** Everything has come to rest, and every skipped entry was replaced. */
  lemma Emptied(s: State) returns (s': State)
    requires Sound(s)
    ensures Leads(s, s', false) && Sound(s') && AtRest(s') && SkippedFiles(s') == {}
  {
    var s1 := Rested(s);
    var s2 := SetMarker(s1, UpdateAdmission.NoMarker);
    LeadsFreely(s, s1);
    LeadsThrough(s, s1, s2, false);
    LeadsKeepsSound(s, s2, false);
    s' := ReplaceAll(s2);
    LeadsFreely(s2, s');
    LeadsThrough(s, s2, s', false);
  }

  lemma Rested(s: State) returns (s': State)
    requires Sound(s)
    ensures Leads(s, s', true) && Sound(s') && AtRest(s')
  {
    var s1 := EndSending(s);
    LeadsKeepsSound(s, s1, true);
    s' := CloseAll(s1);
    LeadsThrough(s, s1, s', true);
  }

  /** Drained, and with the fence lifted again. */
  lemma Reopened(s: State) returns (s': State)
    requires Sound(s)
    ensures Leads(s, s', false) && Sound(s') && AtRest(s') && s'.marker.NoMarker?
  {
    var s1 := CanDrainByOverwriting(s);
    s' := SetMarker(s1, UpdateAdmission.NoMarker);
    LeadsThrough(s, s1, s', false);
    LeadsKeepsSound(s, s', false);
  }

  /** From every reachable state: one undelivered result without a test id, and no fence lets the engine drain. */
  lemma BlockIsReachable(s: State) returns (s': State)
    requires Sound(s)
    ensures Leads(s, s', false) && Sound(s') && s'.marker.Fence? && !CanDrain(s')
  {
    var s1 := Reopened(s);
    s' := AnonymousRun(s1);
    LeadsThrough(s, s1, s', false);
  }

  lemma AnonymousRun(s: State) returns (s': State)
    requires Sound(s) && AtRest(s) && s.marker.NoMarker?
    ensures Leads(s, s', false) && Sound(s') && s'.marker.Fence? && !CanDrain(s')
  {
    var r := FreshRun(s.runs.Keys);
    NoKeyAtRest(s);
    var s1 := UndeliveredRun(s, None, true, r);
    s' := SetMarker(s1, UpdateAdmission.Fence("u"));
    LeadsFreely(s, s1);
    LeadsThrough(s, s1, s', false);
    LeadsKeepsSound(s, s', false);
    MissingIsUndefined(s.dir);
    AnonymousBlocks(s', r);
    CanDrainExactly(s');
  }

  lemma AnonymousBlocks(s: State, r: Run)
    requires Sound(s) && AtRest(s) && s.marker.Fence? && r in s.runs && !s.runs[r].sendable
    requires Spooled(s, r) && Listed(s.dir, s.runs[r].file)
    ensures !AllCanGo(s)
  {
    var f := s.runs[r].file;
    assert Skipped(s, f);
    forall q | q in s.runs ensures !CanReplace(s, q, f) {
      assert !InFlight(s, q);
    }
  }

  lemma LostAfterDrain(s: State, r: Run) returns (s': State)
    requires Sound(s) && Lost(s, r)
    ensures Leads(s, s', false) && DrainableState(s') && Lost(s', r)
  {
    s' := CanDrainByOverwriting(s);
    var events :| Exec(s, events) == Some(s');
    LostForGood(s, events, r);
  }

  // ---------------------------------------------------------------- an overlap loses a result

  lemma {:induction false} StopSending(s: State) returns (s': State)
    ensures Leads(s, s', true) && s' == s.(sending := map[])
    decreases |s.sending|
  {
    if s.sending == map[] {
      s' := s;
      LeadsSelf(s);
    } else {
      var d :| d in s.sending;
      var s1 := StopEffect(s, d);
      OneLess(s.sending, d);
      s' := StopSending(s1);
      LeadsStep(s, RedeliveryEnds(d, false), s1, s', true);
    }
  }

  lemma StopEffect(s: State, d: Sender) returns (s': State)
    requires d in s.sending
    ensures Step(s, RedeliveryEnds(d, false)) == Some(s') && s' == s.(sending := s.sending - {d})
  {
    s' := Step(s, RedeliveryEnds(d, false)).value;
  }

  /** The file is overwritten: the result it held can be lost. */
  lemma OverwriteLoses(s: State, q: Run, s1: State) returns (s2: State, r: Run)
    requires Sound(s) && Step(s, DeliveryFails(q)) == Some(s1) && s.runs[q].file in s.spool
    ensures Leads(s1, s2, true) && Sound(s2) && Lost(s2, r)
  {
    r := s.spool[s.runs[q].file];
    assert EntryOk(s, s.runs[q].file);
    s2 := StopSending(s1);
    OverwriteEffect(s, q, s1, r);
    StepKeepsSound(s, DeliveryFails(q), s1);
    LeadsKeepsSound(s1, s2, true);
  }

  lemma OverwriteEffect(s: State, q: Run, s1: State, r: Run)
    requires Step(s, DeliveryFails(q)) == Some(s1) && Tried(s, r) && r !in s.acked && s.runs[r].file == s.runs[q].file
    ensures Lost(s1.(sending := map[]), r)
  {
    assert r != q && s1.spool[s.runs[q].file] == q;
  }

  /** A redelivery that read the file before unlinks the new result unsent. */
  lemma UnlinkLoses(s: State, q: Run, d: Sender, s1: State) returns (s2: State)
    requires Sound(s) && Step(s, DeliveryFails(q)) == Some(s1)
    requires d in s.sending && s.sending[d].file == s.runs[q].file
    ensures Leads(s1, s2, true) && Sound(s2) && Lost(s2, q)
  {
    NeverTried(s, q);
    StepKeepsSound(s, DeliveryFails(q), s1);
    s2 := EndsEffect(s1, d, true);
    LeadsNow(s1, RedeliveryEnds(d, true), s2, true);
    LeadsKeepsSound(s1, s2, true);
    UnlinkEffect(s, q, d, s1, s2);
  }

  lemma NeverTried(s: State, q: Run)
    requires SpoolInv(s) && At(s, q, Delivering)
    ensures q !in s.acked && s.runs[q].callback && forall x :: x in s.sending ==> s.sending[x].run != q
  {
    assert !Tried(s, q);
    forall x | x in s.sending ensures s.sending[x].run != q {
      assert SendingOk(s, x);
    }
  }

  lemma UnlinkEffect(s: State, q: Run, d: Sender, s1: State, s2: State)
    requires Step(s, DeliveryFails(q)) == Some(s1) && d in s.sending && s.sending[d].file == s.runs[q].file
    requires q !in s.acked && s.runs[q].callback && forall x :: x in s.sending ==> s.sending[x].run != q
    requires Step(s1, RedeliveryEnds(d, true)) == Some(s2)
    ensures Lost(s2, q)
  {
  }

  /**
   * Whenever a result is written to a file that still exists or is being redelivered, what follows can leave the engine
   * drainable with an accepted result that is lost.
   */
  lemma OverlapCanLoseResult(s: State, e: Event, s1: State) returns (s': State, r: Run)
    requires Sound(s) && Overlaps(s, e) && Step(s, e) == Some(s1)
    ensures Leads(s1, s', false) && DrainableState(s') && Lost(s', r)
  {
    var s2;
    if s.runs[e.run].file in s.spool {
      s2, r := OverwriteLoses(s, e.run, s1);
    } else {
      var d :| d in s.sending && s.sending[d].file == s.runs[e.run].file;
      s2 := UnlinkLoses(s, e.run, d, s1);
      r := e.run;
    }
    s' := LostAfterDrain(s2, r);
    LeadsFreely(s1, s2);
    LeadsThrough(s1, s2, s', false);
  }

  /** The same holds whenever a result is written to a file outside the directory, and then it is that result. */
  lemma StrayIsLost(s: State, e: Event, s1: State) returns (s': State)
    requires Sound(s) && Strays(s, e) && Step(s, e) == Some(s1)
    ensures Leads(s1, s', false) && DrainableState(s') && Lost(s', e.run)
  {
    StepKeepsSound(s, e, s1);
    FailedResultIsLost(s, e.run, s1);
    s' := LostAfterDrain(s1, e.run);
  }

  /** From every reachable state, two failed deliveries of one test id overlap. */
  lemma OverlapIsReachable(s: State, testId: TestId) returns (s': State, q: Run)
    requires Sound(s)
    ensures Leads(s, s', false) && Sound(s') && Step(s', DeliveryFails(q)).Some? && Overlaps(s', DeliveryFails(q))
    ensures s'.runs[q].testId == testId
  {
    var s1 := Reopened(s);
    s', q := TwoFailures(s1, testId);
    LeadsThrough(s, s1, s', false);
    LeadsKeepsSound(s, s', false);
  }

  lemma OverlapsNow(s: State, q: Run, f: Path)
    requires At(s, q, Delivering) && s.runs[q].file == f && f in s.spool
    ensures Step(s, DeliveryFails(q)).Some? && Overlaps(s, DeliveryFails(q))
  {
  }

  lemma TwoFailures(s: State, testId: TestId) returns (s': State, q: Run)
    requires Sound(s) && AtRest(s) && s.marker.NoMarker?
    ensures Leads(s, s', false) && Step(s', DeliveryFails(q)).Some? && Overlaps(s', DeliveryFails(q))
    ensures s'.runs[q].testId == testId
  {
    var r := FreshRun(s.runs.Keys);
    NoKeyAtRest(s);
    var s1 := UndeliveredRun(s, testId, true, r);
    LeadsKeepsSound(s, s1, true);
    NoKeyAtRest(s1);
    q := FreshRun(s1.runs.Keys);
    s' := DeliveringRun(s1, testId, true, q);
    OverlapsNow(s', q, PathOf(s.dir, testId));
    LeadsThrough(s, s1, s', true);
    LeadsFreely(s, s');
  }
}
