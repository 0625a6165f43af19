/**
  A claimed send: its claim's token is the claiming call's, its outcome is recorded at most once and by nobody else, and
  while the lease a `go` gave runs, no look can read it as lost.
  */
module StoreSends {
  import opened Wrappers
  import opened Records
  import opened ApprovalBinding
  import opened ApprovalOutcome
  import opened ApprovalTransitions
  import opened RecordInvariant
  import opened RecordMoves
  import opened Retention
  import opened StoreMachine
  import opened StoreFrames
  import opened StoreRecords
  import opened StoreLocks
  import opened StoreClaims

  // ---------- tokens ----------

  predicate ClaimedBy(w: World, id: string, c: nat) {
    id in w.log.claims && w.log.claims[id].call == c
  }

  predicate MarkersOk(w: World) {
    forall id | id in w.markers ::
      var m := w.markers[id]; ClaimedBy(w, id, m.creator) && (m.token.Some? ==> m.token.value == m.creator)
  }

  // A renewal or an outcome goes on only with the claim's own token.
  predicate HoldersOk(w: World) {
    forall c | c in w.calls && w.calls[c].at.Settled? && TokenOf(ActOf(w.calls[c].job)).Some? ::
      ClaimedBy(w, w.calls[c].id, TokenOf(ActOf(w.calls[c].job)).value)
  }

  lemma MarksAndSettles(w: World, c: nat, loads: bool)
    requires Claimed(w) && MarkersOk(w) && HoldersOk(w) && c in w.calls
    ensures var e := Operation(w, c, loads);
            var id := w.calls[c].id;
            && (e.marking.MarkerSet? ==>
                  && ClaimedBy(w, id, c) && e.marking.marker.creator == c
                  && (e.marking.marker.token.Some? ==> e.marking.marker.token.value == c))
            && (e.at.Some? && e.at.value.Settled? && TokenOf(ActOf(w.calls[c].job)).Some? ==>
                  ClaimedBy(w, id, TokenOf(ActOf(w.calls[c].job)).value))
  {
    hide Decide, MintChild, Decode, VerdictOf, Open, ParentProblem, ReadsParent, Locked, ClaimsMatch, ReturnsOk, ActOf, TokenOf;
  }

  lemma StepTokens(w: World, step: Step)
    requires Claimed(w) && MarkersOk(w) && HoldersOk(w) && Enabled(w, step)
    ensures MarkersOk(Apply(w, step)) && HoldersOk(Apply(w, step))
  {
    hide Operation, Locked, ClaimsMatch, ClaimantsOk, ReturnsOk, CreateOf, ActOf, TokenOf, Ready, JobFits;
    ClaimsStayOk(w, step);
    if step.Advance? { MarksAndSettles(w, step.c, step.loads); }
  }

  lemma ClaimsStayOk(w: World, step: Step)
    requires Claimed(w) && Enabled(w, step)
    ensures forall id, c | ClaimedBy(w, id, c) :: ClaimedBy(Apply(w, step), id, c)
  {
    hide Operation, Locked, ClaimsMatch, ClaimantsOk, ReturnsOk, CreateOf;
    ClaimsStay(w, step);
  }

  // ---------- outcomes and leases ----------

  predicate Outcomed(state: State) {
    state == Used || state == Failed
  }

  // What a `go` at a time says of the record from then on.
  predicate LeaseHolds(r: Record, at: int, clock: int) {
    && PastClaim(r.state)
    && (r.state == Sending ==> r.Renewed().At? && at <= r.Renewed().ms)
    && (r.state == Unknown ==> at + SENDING_LEASE_MS <= clock)
  }

  // No longer under way: lost, or with its outcome.
  predicate SendOver(state: State) {
    state == Unknown || state == Used || state == Failed
  }

  predicate OutcomeOk(w: World, o: Return) {
    && ClaimedBy(w, o.id, o.call)
    && (o.id in w.files ==> w.files[o.id].RecordFile? && Outcomed(w.files[o.id].record.state))
  }

  predicate GoOk(w: World, g: Go) {
    && g.id in w.log.claims && g.at <= w.clock
    && (g.id in w.files ==> w.files[g.id].RecordFile? && LeaseHolds(w.files[g.id].record, g.at, w.clock))
  }

  predicate OutcomesOk(w: World) {
    && (forall i | 0 <= i < |w.log.outcomes| :: OutcomeOk(w, w.log.outcomes[i]))
    && (forall i, j | 0 <= i < j < |w.log.outcomes| :: w.log.outcomes[i].id != w.log.outcomes[j].id)
  }

  predicate LeasesOk(w: World) {
    forall i | 0 <= i < |w.log.goes| :: GoOk(w, w.log.goes[i])
  }

  ghost predicate Sent(w: World) {
    Claimed(w) && MarkersOk(w) && HoldersOk(w) && OutcomesOk(w) && LeasesOk(w)
  }

  // What becomes of a file in one step: it stays, moves on, goes, or is made of nothing.
  predicate FileMoves(w: World, next: World, id: string) {
    id in next.files ==>
      if id in w.files then
        next.files[id] == w.files[id]
        || (w.files[id].RecordFile? && next.files[id].RecordFile?
            && MovesOn(w.files[id].record, next.files[id].record, next.clock))
      else id !in w.made
  }

  lemma StepFileMoves(w: World, step: Step, id: string)
    requires Locked(w) && Enabled(w, step)
    ensures FileMoves(w, Apply(w, step), id)
  {
    hide Operation, Locked, CreateOf, MovesOn, Ready;
    if step.Advance? {
      WhereItWritesOk(w, step.c, step.loads);
      WriteMovesOn(w, step.c, step.loads);
    }
  }

  // A claimed file's state stays outcomed, and its lease stays held, whatever the step.
  lemma MovedOnStays(r: Record, next: Record, clock: int, later: int)
    requires MovesOn(r, next, later) && clock <= later
    ensures Outcomed(r.state) ==> Outcomed(next.state)
    ensures SendOver(r.state) ==> SendOver(next.state)
    ensures forall at: int | LeaseHolds(r, at, clock) :: LeaseHolds(next, at, later)
  {
  }

  lemma OutcomeStays(w: World, step: Step, o: Return)
    requires Claimed(w) && Enabled(w, step) && OutcomeOk(w, o)
    ensures OutcomeOk(Apply(w, step), o)
  {
    hide Apply, Enabled, Locked, ClaimantsOk, ReturnsOk, MovesOn, LeaseHolds;
    var next := Apply(w, step);
    StepFileMoves(w, step, o.id);
    ClaimsStayOk(w, step);
    assert ClaimMatches(w, o.id);
    if o.id in next.files && o.id in w.files && w.files[o.id] != next.files[o.id] {
      MovedOnStays(w.files[o.id].record, next.files[o.id].record, next.clock, next.clock);
    }
  }

  lemma GoStays(w: World, step: Step, g: Go)
    requires Claimed(w) && Enabled(w, step) && GoOk(w, g)
    ensures GoOk(Apply(w, step), g)
  {
    hide Apply, Enabled, Locked, ClaimantsOk, ReturnsOk, MovesOn;
    var next := Apply(w, step);
    StepFileMoves(w, step, g.id);
    ClaimsStay(w, step);
    StepClock(w, step);
    assert ClaimMatches(w, g.id);
    if g.id in next.files && g.id in w.files && w.files[g.id] != next.files[g.id] {
      MovedOnStays(w.files[g.id].record, next.files[g.id].record, w.clock, next.clock);
    }
  }

  lemma StepClock(w: World, step: Step)
    requires Enabled(w, step)
    ensures w.clock <= Apply(w, step).clock
  {
    hide Grows;
    assert Grows(w, Apply(w, step)) ==> w.clock <= Apply(w, step).clock by { GrowsClock(w, Apply(w, step)); }
    StepGrows(w, step);
  }

  lemma GrowsClock(w: World, next: World)
    ensures Grows(w, next) ==> w.clock <= next.clock
  {
  }

  // ---------- what is said of a send ----------

  // The one operation that adds to the outcomes or says `go`: a decision on the claim's own record.
  lemma SendLogAfter(w: World, c: nat, loads: bool)
    requires |w.history| > 0 && c in w.calls
    ensures var call := w.calls[c];
            var log := Operation(w, c, loads).log;
            && (log.outcomes == w.log.outcomes
                || (Deciding(call) && ActOf(call.job).Complete? && DecisionOf(call).Put?
                    && log.outcomes == w.log.outcomes + [Return(call.id, ActOf(call.job).token)]))
            && (log.goes == w.log.goes
                || (Deciding(call) && ActOf(call.job).Heartbeat? && call.at.o.current.state == Sending
                    && log.goes == w.log.goes + [Go(call.id, call.at.now)]))
  {
    hide Decide, MintChild, Decode, VerdictOf, Open, ParentProblem, ReadsParent, ActOf, PersonOf;
  }

  predicate Deciding(call: Call) {
    call.at.Settled? && call.at.o.Opened? && call.at.looked && !call.job.Use?
  }

  // The file such a decision leaves behind.
  lemma DecidedFile(w: World, c: nat, loads: bool)
    requires Locked(w) && c in w.calls && Deciding(w.calls[c])
    ensures var call := w.calls[c];
            var d := DecisionOf(call);
            && call.id in w.files && w.files[call.id] == RecordFile(call.at.o.current)
            && Run(w, c, Operation(w, c, loads)).files ==
               (if d.Put? then w.files[call.id := RecordFile(d.next)] else w.files)
            && call.at.now <= w.clock && Sound(call.at.o.current)
  {
    hide Decide, RecordOk, OneHolder, FilesOk, JobFits, ActOf;
    CallIsOk(w, c);
    RecordIsSound(w, w.calls[c].id, w.calls[c].at.o.current);
  }

  lemma RecordIsSound(w: World, id: string, r: Record)
    requires |w.history| > 0 && RecordOk(w, id, r)
    ensures Sound(r)
  {
    hide Sound;
  }

  // An outcome is recorded of a send under way or lost.
  lemma NewOutcome(w: World, c: nat, loads: bool)
    requires Sent(w) && Enabled(w, Advance(c, loads))
    requires var call := w.calls[c]; Deciding(call) && ActOf(call.job).Complete? && DecisionOf(call).Put?
    ensures var call := w.calls[c];
            var o := Return(call.id, ActOf(call.job).token);
            && (call.at.o.current.state == Sending || call.at.o.current.state == Unknown)
            && call.id in w.files && w.files[call.id] == RecordFile(call.at.o.current)
            && OutcomeOk(Apply(w, Advance(c, loads)), o)
  {
    hide Operation, Locked, ClaimsMatch, ClaimantsOk, ReturnsOk, OutcomesOk, LeasesOk, Ready, Sound;
    DecidedFile(w, c, loads);
    ClaimsStayOk(w, Advance(c, loads));
    assert ClaimedBy(w, w.calls[c].id, ActOf(w.calls[c].job).token);
    CompleteDecides(w.calls[c]);
  }

  lemma CompleteDecides(call: Call)
    requires Deciding(call) && ActOf(call.job).Complete? && DecisionOf(call).Put?
    ensures call.at.o.current.state == Sending || call.at.o.current.state == Unknown
    ensures Outcomed(DecisionOf(call).next.state)
  {
  }

  lemma NewGo(w: World, c: nat, loads: bool)
    requires Sent(w) && Enabled(w, Advance(c, loads))
    requires var call := w.calls[c];
             Deciding(call) && ActOf(call.job).Heartbeat? && call.at.o.current.state == Sending
    ensures var call := w.calls[c];
            && call.id in w.files && w.files[call.id] == RecordFile(call.at.o.current)
            && GoOk(Apply(w, Advance(c, loads)), Go(call.id, call.at.now))
  {
    hide Operation, Locked, ClaimantsOk, ReturnsOk, OutcomesOk, LeasesOk, Ready, Sound;
    DecidedFile(w, c, loads);
    ClaimsStay(w, Advance(c, loads));
    assert ClaimMatches(w, w.calls[c].id);
    SendingIsRenewed(w.calls[c].at.o.current);
    HeartbeatDecides(w.calls[c]);
  }

  lemma HeartbeatDecides(call: Call)
    requires Deciding(call) && ActOf(call.job).Heartbeat? && call.at.o.current.state == Sending
    requires call.at.o.current.Renewed().At?
    ensures var d := DecisionOf(call);
            var r := if d.Put? then d.next else call.at.o.current;
            r.state == Sending && r.Renewed().At? && call.at.now <= r.Renewed().ms
  {
  }

  lemma StepOutcomes(w: World, step: Step)
    requires Sent(w) && Enabled(w, step)
    ensures OutcomesOk(Apply(w, step))
  {
    hide Operation, Claimed, MarkersOk, HoldersOk, LeasesOk, OutcomeOk, CreateOf, Ready, ActOf, DecisionOf;
    var next := Apply(w, step);
    forall i | 0 <= i < |w.log.outcomes| ensures OutcomeOk(next, w.log.outcomes[i]) {
      OutcomeStays(w, step, w.log.outcomes[i]);
    }
    if step.Advance? {
      SendLogAfter(w, step.c, step.loads);
      if next.log.outcomes != w.log.outcomes {
        NewOutcome(w, step.c, step.loads);
        FirstOutcome(w, w.calls[step.c].id);
      }
    }
  }

  lemma FirstOutcome(w: World, id: string)
    requires OutcomesOk(w) && id in w.files && w.files[id].RecordFile? && !Outcomed(w.files[id].record.state)
    ensures forall i | 0 <= i < |w.log.outcomes| :: w.log.outcomes[i].id != id
  {
  }

  lemma StepLeases(w: World, step: Step)
    requires Sent(w) && Enabled(w, step)
    ensures LeasesOk(Apply(w, step))
  {
    hide Operation, Claimed, MarkersOk, HoldersOk, OutcomesOk, GoOk, CreateOf, Ready, ActOf, DecisionOf;
    var next := Apply(w, step);
    forall i | 0 <= i < |w.log.goes| ensures GoOk(next, w.log.goes[i]) {
      GoStays(w, step, w.log.goes[i]);
    }
    if step.Advance? {
      SendLogAfter(w, step.c, step.loads);
      if next.log.goes != w.log.goes { NewGo(w, step.c, step.loads); }
    }
  }

  lemma StepSent(w: World, step: Step)
    requires Sent(w) && Enabled(w, step)
    ensures Sent(Apply(w, step))
  {
    hide Apply, Claimed, MarkersOk, HoldersOk, OutcomesOk, LeasesOk;
    StepClaimed(w, step);
    StepTokens(w, step);
    StepOutcomes(w, step);
    StepLeases(w, step);
  }

  lemma InitIsSent(w: World)
    requires Init(w) && w.exclusive
    ensures Sent(w)
  {
    InitIsClaimed(w);
  }

  // ---------- a send that is over ----------

  // Lost or finished, or deleted since.
  predicate Over(w: World, id: string) {
    id in w.log.claims && (id in w.files ==> w.files[id].RecordFile? && SendOver(w.files[id].record.state))
  }

  // It is never under way again, and no fence says `go` for it.
  lemma StepOver(w: World, step: Step, id: string)
    requires Sent(w) && Enabled(w, step) && Over(w, id)
    ensures Over(Apply(w, step), id)
    ensures w.log.goes <= Apply(w, step).log.goes
    ensures forall i | |w.log.goes| <= i < |Apply(w, step).log.goes| :: Apply(w, step).log.goes[i].id != id
  {
    hide Operation, Locked, ClaimantsOk, ReturnsOk, MarkersOk, HoldersOk, OutcomesOk, LeasesOk, MovesOn, CreateOf, Ready,
         GoOk, ActOf, DecisionOf;
    var next := Apply(w, step);
    StepFileMoves(w, step, id);
    ClaimsStay(w, step);
    assert ClaimMatches(w, id);
    if id in next.files && id in w.files && w.files[id] != next.files[id] {
      MovedOnStays(w.files[id].record, next.files[id].record, next.clock, next.clock);
    }
    if step.Advance? {
      SendLogAfter(w, step.c, step.loads);
      if next.log.goes != w.log.goes { NewGo(w, step.c, step.loads); }
    }
  }
}
