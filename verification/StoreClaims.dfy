/**
  An approval is claimed once: the record enters a claimed state at most once, by one call, and only that call goes on
  to create the claim's marker and to return. Without retention the marker alone gives as much, even where the record
  lock excludes nobody.
  */
module StoreClaims {
  import opened Wrappers
  import opened Records
  import opened ApprovalBinding
  import opened ApprovalValidate
  import opened ApprovalOutcome
  import opened ApprovalTransitions
  import opened Standing
  import opened RecordInvariant
  import opened RecordMoves
  import opened Decisions
  import opened Retention
  import opened StoreMachine
  import opened StoreFrames
  import opened StoreRecords
  import opened StoreLocks

  // ---------- entering a claim ----------

  predicate EntersClaim(call: Call) {
    && call.at.Settled? && call.at.o.Opened? && call.at.looked && !call.job.Use?
    && var d := DecisionOf(call);
       d.Put? && PastClaim(d.next.state) && !PastClaim(call.at.o.current.state)
  }

  function ClaimOf(c: nat, call: Call): Claim
    requires EntersClaim(call)
  {
    Claim(c, call.at.readAt, ActOf(call.job), DecisionOf(call).next)
  }

  lemma ClaimsAfter(w: World, c: nat, loads: bool)
    requires |w.history| > 0 && c in w.calls
    ensures var call := w.calls[c];
            Operation(w, c, loads).log.claims ==
            if EntersClaim(call) then w.log.claims[call.id := ClaimOf(c, call)] else w.log.claims
  {
    hide Decide, MintChild, Decode, VerdictOf, Open, ParentProblem, ReadsParent, ActOf, PersonOf;
  }

  // Whoever enters a claim holds a record that was active, that the person it needs approved, and that was still in
  // reach of the configuration read under the lock.
  lemma EntryIsWarranted(w: World, call: Call)
    requires |w.history| > 0 && CallOk(w, call) && EntersClaim(call)
    ensures call.job.Do? && IsClaimAct(call.job.act)
    ensures call.at.o.current == call.at.o.stored && call.at.o.stored.Active()
    ensures DecisionOf(call).next.base == call.at.o.stored.base && Warranted(DecisionOf(call).next)
    ensures call.at.readAt < |w.history|
    ensures AsPrepared(call.job.act, call.at.o.stored.base)
    ensures var b := call.at.o.stored.base;
            b.kind != DisclosureKind ==>
              InReach(b, w.history[call.at.readAt]) && Permits(w.history[call.at.readAt], DecisionOf(call).next)
  {
    hide RecordOk, JobFits, OpenRecord, Decide, InReach, Warranted, Permits, AsPrepared;
    var at := call.at;
    EntryFollows(w, call.id, at.o.stored, call.job, at.config, at.problem, at.now);
  }

  lemma EntryFollows(w: World, id: string, r: Record, job: Job, config: Option<Config>, problem: Option<string>, now: int)
    requires |w.history| > 0 && RecordOk(w, id, r) && !AnomalousDisclosure(r, now)
    requires MatchesRecord(r.base.kind, r.base.channel, r.base.inboxId, ExpectOf(ActOf(job)))
    requires var o := OpenRecord(r, ActOf(job), config, now);
             var d := Decide(ActOf(job), o.current, o.outcome, o.live, problem, now);
             d.Put? && PastClaim(d.next.state) && !PastClaim(o.current.state)
    ensures var o := OpenRecord(r, ActOf(job), config, now);
            var d := Decide(ActOf(job), o.current, o.outcome, o.live, problem, now);
            && job.Do? && IsClaimAct(job.act) && o.current == r && r.Active()
            && d.next.base == r.base && Warranted(d.next)
            && AsPrepared(job.act, r.base)
            && (r.base.kind != DisclosureKind ==>
                  config.Some? && InReach(r.base, config.value) && Permits(config.value, d.next))
  {
    hide OpenRecord, Decide, Warranted, InReach, Permits, AsPrepared, Sound, Rooted, Vouched, AnomalousDisclosure, PastClaim;
    var o := OpenRecord(r, ActOf(job), config, now);
    JobsKind(r, job);
    if IsClaimAct(ActOf(job)) { ClaimIsPermitted(r, ActOf(job), config, problem, now); }
    ClaimIsWarranted(r, ActOf(job), config, problem, now);
    DecideKeepsBase(ActOf(job), o.current, o.outcome, o.live, problem, now);
  }

  lemma JobsKind(r: Record, job: Job)
    requires MatchesRecord(r.base.kind, r.base.channel, r.base.inboxId, ExpectOf(ActOf(job)))
    ensures ExpectOf(ActOf(job)).kind.Some? ==> ExpectOf(ActOf(job)).kind == Some(r.base.kind)
    ensures IsClaimAct(ActOf(job)) ==> job.Do? && ExpectOf(ActOf(job)).kind == Some(r.base.kind)
  {
  }

  // ---------- every write moves a record on ----------

  // What a locked write makes of the record that was there.
  predicate MovesOn(r: Record, next: Record, clock: int) {
    && next.base == r.base && Stays(r.state, next.state)
    && (r.state == Sending && next.state == Sending ==>
          r.Renewed().At? && next.Renewed().At? && r.Renewed().ms <= next.Renewed().ms)
    && (next.state == Unknown && r.state != Unknown ==>
          r.state == Sending && r.Renewed().At? && r.Renewed().ms + SENDING_LEASE_MS <= clock)
  }

  lemma SendingIsRenewed(r: Record)
    requires Sound(r) && r.state == Sending
    ensures r.Renewed().At?
  {
  }

  lemma OpenIsDerivedOrRevoked(r: Record, act: Act, config: Option<Config>, now: int)
    ensures var cur := OpenRecord(r, act, config, now).current;
            var derived := Derive(r, now);
            cur == derived || (derived.Active() && cur.base == derived.base && cur.state == Revoked)
  {
    hide Derive;
  }

  lemma OpenMovesOn(r: Record, act: Act, config: Option<Config>, now: int, clock: int)
    requires Sound(r) && now <= clock
    ensures var cur := OpenRecord(r, act, config, now).current;
            MovesOn(r, cur, clock) && (PastClaim(cur.state) ==> PastClaim(r.state))
  {
    hide Sound, OpenRecord, Derive;
    OpenIsDerivedOrRevoked(r, act, config, now);
    DeriveMovesOn(r, now, clock);
  }

  lemma DeriveMovesOn(r: Record, now: int, clock: int)
    requires Sound(r) && now <= clock
    ensures MovesOn(r, Derive(r, now), clock) && (PastClaim(Derive(r, now).state) ==> PastClaim(r.state))
  {
    if r.state == Sending { SendingIsRenewed(r); }
    hide Sound;
  }

  lemma DecidesNoLoss(act: Act, cur: Record, outcome: Outcome, live: Option<LiveGate>, problem: Option<string>, now: int)
    ensures var d := Decide(act, cur, outcome, live, problem, now);
            d.Put? && d.next.state == Unknown ==> cur.state == Unknown
  {
    hide SameExpectation, SameDisclosureBinding, ChangeDigest, DownloadDigest, NarrowedFurther, StricterPolicy;
  }

  lemma DecisionMovesOn(w: World, call: Call)
    requires |w.history| > 0 && CallOk(w, call) && call.at.Settled? && DecisionOf(call).Put?
    ensures MovesOn(call.at.o.current, DecisionOf(call).next, w.clock)
  {
    hide RecordOk, Decide, OpenRecord, MovesOn, JobFits;
    var at := call.at;
    DecidedMovesOn(w, call.id, at.o.stored, ActOf(call.job), at.config, at.problem, at.now);
  }

  lemma DecidedMovesOn(w: World, id: string, r: Record, act: Act, config: Option<Config>, problem: Option<string>, now: int)
    requires |w.history| > 0 && RecordOk(w, id, r) && !AnomalousDisclosure(r, now)
    requires RecordOk(w, id, OpenRecord(r, act, config, now).current)
    ensures var o := OpenRecord(r, act, config, now);
            var d := Decide(act, o.current, o.outcome, o.live, problem, now);
            d.Put? ==> MovesOn(o.current, d.next, w.clock)
  {
    hide Decide, OpenRecord, Warranted, Rooted, Vouched, Sound;
    var o := OpenRecord(r, act, config, now);
    var d := Decide(act, o.current, o.outcome, o.live, problem, now);
    OpenedActive(r, act, config, now);
    DecideMoves(o.current, o.outcome, o.live, act, problem, now);
    DecidesNoLoss(act, o.current, o.outcome, o.live, problem, now);
    if o.current.state == Sending {
      SendingIsRenewed(o.current);
      if d.Put? && d.next.state == Sending { RenewalIsATime(act, o.current, o.outcome, o.live, problem, now); }
    }
  }

  lemma RenewalIsATime(act: Act, cur: Record, outcome: Outcome, live: Option<LiveGate>, problem: Option<string>, now: int)
    requires cur.state == Sending && cur.Renewed().At? && (IsClaimAct(act) ==> outcome.error.Some?)
    ensures var d := Decide(act, cur, outcome, live, problem, now);
            d.Put? && d.next.state == Sending ==> d.next.Renewed().At? && cur.Renewed().ms <= d.next.Renewed().ms
  {
    hide SameExpectation, SameDisclosureBinding, ChangeDigest, DownloadDigest, NarrowedFurther, StricterPolicy;
  }

  // What an operation writes over: its own record as it read it, or a standing approval as it stands.
  lemma WriteMovesOn(w: World, c: nat, loads: bool)
    requires Locked(w) && c in w.calls && Ready(w, c)
    ensures var e := Operation(w, c, loads);
            e.wrote.Some? && !e.minted ==>
              var id := e.wrote.value.id;
              && id in w.files && w.files[id].RecordFile?
              && MovesOn(w.files[id].record, e.wrote.value.record, w.clock)
              && (PastClaim(e.wrote.value.record.state) && !PastClaim(w.files[id].record.state) ==>
                    EntersClaim(w.calls[c]) && id == w.calls[c].id)
  {
    hide MovesOn, OpenRecord, Decide, MintChild, RecordOk, Derive, ReadsParent, Kept, OneHolder, VerdictOf, EntersClaim,
         ReadParent, Finish, Mint;
    var call := w.calls[c];
    assert Kept(w) && CallOk(w, call) && Fresh(w.files, call) by { CallIsOk(w, c); }
    match call.at {
      case Seen(config, _, now, o) => OkOpenMovesOn(w, call.id, o.stored, ActOf(call.job), config, now);
      case Settled(_, _, _, o, _, _) => SettledMovesOn(w, c, loads);
      case Examined(now, before, _) =>
        if before.V2? { OkDeriveMovesOn(w, call.id, before.record, now); }
      case _ =>
    }
  }

  lemma SettledMovesOn(w: World, c: nat, loads: bool)
    requires Locked(w) && c in w.calls && w.calls[c].at.Settled?
    ensures var e := Operation(w, c, loads);
            e.wrote.Some? && !e.minted ==>
              var id := e.wrote.value.id;
              && id in w.files && w.files[id].RecordFile?
              && MovesOn(w.files[id].record, e.wrote.value.record, w.clock)
              && (PastClaim(e.wrote.value.record.state) && !PastClaim(w.files[id].record.state) ==>
                    EntersClaim(w.calls[c]) && id == w.calls[c].id)
  {
    hide MovesOn, OpenRecord, Decide, MintChild, RecordOk, Derive, ReadsParent, Kept, OneHolder, VerdictOf, EntersClaim,
         PersonOf, ParentProblem, SaysEnded, PastClaim, IsClaimAct;
    var call := w.calls[c];
    assert Kept(w) && CallOk(w, call) && Fresh(w.files, call) by { CallIsOk(w, c); }
    if !call.at.looked { ParentMovesOn(w, call); } else if !call.job.Use? { EnteredOrNot(w, call); }
  }

  lemma CallIsOk(w: World, c: nat)
    requires Locked(w) && c in w.calls
    ensures Kept(w) && |w.history| > 0 && CallOk(w, w.calls[c]) && Fresh(w.files, w.calls[c]) && c < w.nextCall
  {
  }

  lemma OkOpenMovesOn(w: World, id: string, r: Record, act: Act, config: Option<Config>, now: int)
    requires |w.history| > 0 && RecordOk(w, id, r) && now <= w.clock
    ensures var cur := OpenRecord(r, act, config, now).current;
            MovesOn(r, cur, w.clock) && (PastClaim(cur.state) ==> PastClaim(r.state))
  {
    OpenMovesOn(r, act, config, now, w.clock);
  }

  lemma OkDeriveMovesOn(w: World, id: string, r: Record, now: int)
    requires |w.history| > 0 && RecordOk(w, id, r) && now <= w.clock
    ensures MovesOn(r, Derive(r, now), w.clock) && (PastClaim(Derive(r, now).state) ==> PastClaim(r.state))
  {
    DeriveMovesOn(r, now, w.clock);
  }

  lemma EnteredOrNot(w: World, call: Call)
    requires |w.history| > 0 && CallOk(w, call) && call.at.Settled? && call.at.looked && !call.job.Use?
    ensures DecisionOf(call).Put? ==>
              && MovesOn(call.at.o.current, DecisionOf(call).next, w.clock)
              && (PastClaim(DecisionOf(call).next.state) && !PastClaim(call.at.o.current.state) ==> EntersClaim(call))
  {
    if DecisionOf(call).Put? { DecisionMovesOn(w, call); }
  }

  lemma ParentMovesOn(w: World, call: Call)
    requires Kept(w) && call.at.Settled? && call.at.o.Opened?
    ensures var e := ReadParent(w, call);
            e.wrote.Some? ==>
              var id := e.wrote.value.id;
              && id in w.files && w.files[id].RecordFile?
              && MovesOn(w.files[id].record, e.wrote.value.record, w.clock)
              && (PastClaim(e.wrote.value.record.state) ==> PastClaim(w.files[id].record.state))
  {
    hide MovesOn, RecordOk, OpenRecord, ParentProblem;
    var child := call.at.o.current;
    if ReadParent(w, call).wrote.Some? {
      var id := child.base.standingId.value;
      OkOpenMovesOn(w, id, w.files[id].record, ParentLook(child), Some(Live(w)), w.clock);
    }
  }

  // ---------- one claim an id ----------

  // A record is past its claim exactly when its claim is in the history, and stays so; a deleted one's id names nothing.
  predicate ClaimMatches(w: World, id: string) {
    && (id in w.log.claims ==>
          && id in w.made && w.log.claims[id].call < w.nextCall
          && (id in w.files ==> w.files[id].RecordFile? && PastClaim(w.files[id].record.state)
                                && w.files[id].record.base == w.log.claims[id].record.base))
    && (id in w.files && w.files[id].RecordFile? && PastClaim(w.files[id].record.state) ==> id in w.log.claims)
  }

  ghost predicate ClaimsMatch(w: World) {
    forall id: string :: ClaimMatches(w, id)
  }

  predicate Claimant(at: Point) {
    (at.Leaving? && at.claimed) || at.Marking? || at.Writing? || at.Returning?
  }

  predicate ClaimantsOk(w: World) {
    forall c | c in w.calls && Claimant(w.calls[c].at) ::
      && w.calls[c].id in w.log.claims && w.log.claims[w.calls[c].id].call == c
      && w.calls[c].job.Do? && IsClaimAct(w.calls[c].job.act)
  }

  predicate ReturnsOk(w: World) {
    && (forall i | 0 <= i < |w.log.returned| ::
          var ret := w.log.returned[i];
          ret.id in w.log.claims && w.log.claims[ret.id].call == ret.call && ret.call !in w.calls)
    && (forall i, j | 0 <= i < j < |w.log.returned| :: w.log.returned[i].id != w.log.returned[j].id)
  }

  ghost predicate Claimed(w: World) {
    Locked(w) && ClaimsMatch(w) && ClaimantsOk(w) && ReturnsOk(w)
  }

  lemma InitIsClaimed(w: World)
    requires Init(w) && w.exclusive
    ensures Claimed(w)
  {
    InitIsLocked(w);
  }

  // A claim is entered where there is none yet.
  lemma EntryIsFirst(w: World, c: nat)
    requires Locked(w) && ClaimsMatch(w) && c in w.calls && EntersClaim(w.calls[c])
    ensures w.calls[c].id !in w.log.claims && w.calls[c].id in w.made
    ensures w.calls[c].id in w.files && w.files[w.calls[c].id].RecordFile?
    ensures w.files[w.calls[c].id].record == w.calls[c].at.o.current
  {
    hide DecisionOf, RecordOk, OneHolder, ViewOk, JobFits;
    assert ClaimMatches(w, w.calls[c].id);
    CallIsOk(w, c);
  }

  lemma ClaimsStay(w: World, step: Step)
    requires Locked(w) && ClaimsMatch(w) && Enabled(w, step)
    ensures forall id | id in w.log.claims :: id in Apply(w, step).log.claims && Apply(w, step).log.claims[id] == w.log.claims[id]
  {
    hide Operation, EntersClaim, Locked, ClaimOf, CreateOf;
    if step.Advance? {
      ClaimsAfter(w, step.c, step.loads);
      if EntersClaim(w.calls[step.c]) { EntryIsFirst(w, step.c); }
    }
  }

  lemma MintedIsApproved(w: World, c: nat, loads: bool)
    requires |w.history| > 0 && c in w.calls && Operation(w, c, loads).wrote.Some? && Operation(w, c, loads).minted
    ensures Operation(w, c, loads).wrote.value.record.state == Approved
  {
    hide Decide, Decode, VerdictOf, Open, ParentProblem, ReadsParent;
  }

  lemma AdvanceClaimsMatch(w: World, c: nat, loads: bool, id: string)
    requires Claimed(w) && Enabled(w, Advance(c, loads))
    ensures ClaimMatches(Apply(w, Advance(c, loads)), id)
  {
    hide Apply, Operation, Claimed, Enabled, ClaimMatches;
    AdvanceHasItsCall(w, c, loads);
    var e := Operation(w, c, loads);
    if e.wrote.Some? && e.wrote.value.id == id { WrittenMatches(w, c, loads); } else { ElsewhereMatches(w, c, loads, id); }
  }

  lemma AdvanceHasItsCall(w: World, c: nat, loads: bool)
    requires Claimed(w) && Enabled(w, Advance(c, loads))
    ensures |w.history| > 0 && c in w.calls
  {
    hide Claimed, Ready;
  }

  lemma WrittenMatches(w: World, c: nat, loads: bool)
    requires Claimed(w) && Enabled(w, Advance(c, loads)) && Operation(w, c, loads).wrote.Some?
    ensures ClaimMatches(Apply(w, Advance(c, loads)), Operation(w, c, loads).wrote.value.id)
  {
    hide Operation, EntersClaim, ClaimantsOk, ReturnsOk, MovesOn, ClaimOf, Locked, Ready, DecisionOf, CallOk, Kept, Fresh;
    var e := Operation(w, c, loads);
    CallIsOk(w, c);
    assert ClaimMatches(w, e.wrote.value.id);
    ClaimsAfter(w, c, loads);
    if e.minted { WhereItWritesOk(w, c, loads); MintedIsApproved(w, c, loads); } else { WriteMovesOnOk(w, c, loads); }
    if EntersClaim(w.calls[c]) { EntryIsFirst(w, c); EntryWrites(w, c, loads); }
  }

  lemma ElsewhereMatches(w: World, c: nat, loads: bool, id: string)
    requires Claimed(w) && Enabled(w, Advance(c, loads))
    requires var wrote := Operation(w, c, loads).wrote; wrote.None? || wrote.value.id != id
    ensures ClaimMatches(Apply(w, Advance(c, loads)), id)
  {
    hide Operation, EntersClaim, ClaimantsOk, ReturnsOk, ClaimOf, Locked, Ready, DecisionOf, CallOk;
    assert ClaimMatches(w, id);
    ClaimsAfter(w, c, loads);
    if EntersClaim(w.calls[c]) { EntryWrites(w, c, loads); }
  }

  lemma WhereItWritesOk(w: World, c: nat, loads: bool)
    requires Locked(w) && c in w.calls && Ready(w, c)
    ensures var e := Operation(w, c, loads);
            e.wrote.Some? && e.minted ==> e.wrote.value.id !in w.made && e.wrote.value.id !in w.files
  {
    hide Operation, LockFree, OneHolder, AllFresh, RecordOk;
    WhereItWrites(w, c, loads);
  }

  lemma WriteMovesOnOk(w: World, c: nat, loads: bool)
    requires Locked(w) && c in w.calls && Ready(w, c)
    ensures var e := Operation(w, c, loads);
            e.wrote.Some? && !e.minted ==>
              var id := e.wrote.value.id;
              && id in w.files && w.files[id].RecordFile?
              && e.wrote.value.record.base == w.files[id].record.base
              && (PastClaim(w.files[id].record.state) ==> PastClaim(e.wrote.value.record.state))
              && (PastClaim(e.wrote.value.record.state) && !PastClaim(w.files[id].record.state) ==>
                    EntersClaim(w.calls[c]) && id == w.calls[c].id)
  {
    hide Operation, Locked, EntersClaim;
    WriteMovesOn(w, c, loads);
  }

  // The step that enters a claim writes the claimed record, and goes on to the marker.
  lemma EntryWrites(w: World, c: nat, loads: bool)
    requires |w.history| > 0 && c in w.calls && EntersClaim(w.calls[c])
    ensures var e := Operation(w, c, loads);
            && e.wrote == Some(Wrote(w.calls[c].id, DecisionOf(w.calls[c]).next)) && !e.minted
            && ClaimOf(c, w.calls[c]).record.base == e.wrote.value.record.base && ClaimOf(c, w.calls[c]).call == c
            && PastClaim(e.wrote.value.record.state)
  {
    hide Decide, ActOf;
  }

  lemma StepClaimsMatch(w: World, step: Step)
    requires Claimed(w) && Enabled(w, step)
    ensures ClaimsMatch(Apply(w, step))
  {
    hide Operation, Locked, ClaimantsOk, ReturnsOk, CreateOf, Sound, CreationFits, ClaimMatches;
    forall id: string ensures ClaimMatches(Apply(w, step), id) {
      assert ClaimMatches(w, id);
      if step.Advance? { AdvanceClaimsMatch(w, step.c, step.loads, id); } else { OtherStepClaimMatches(w, step, id); }
    }
  }

  lemma OtherStepClaimMatches(w: World, step: Step, id: string)
    requires ClaimMatches(w, id) && Enabled(w, step) && !step.Advance?
    ensures ClaimMatches(Apply(w, step), id)
  {
    hide CreateOf, Sound, CreationFits;
    if step.Make? { CreationRooted(w.history, step.creation, step.newId, step.preparedBy, w.clock); }
  }

  // Only a call that has entered its claim goes on past its lock.
  lemma ClaimantAfter(w: World, c: nat, loads: bool)
    requires |w.history| > 0 && c in w.calls
    ensures var e := Operation(w, c, loads);
            e.at.Some? && Claimant(e.at.value) ==> Claimant(w.calls[c].at) || ClaimsFrom(w.calls[c])
  {
    hide Decide, MintChild, Decode, VerdictOf, Open, ParentProblem, ReadsParent, ActOf;
  }

  // The decision is a claim, and claims.
  predicate ClaimsFrom(call: Call) {
    && call.at.Settled? && call.at.o.Opened? && call.at.looked && !call.job.Use?
    && var d := DecisionOf(call); d.Put? && PastClaim(d.next.state) && IsClaimAct(ActOf(call.job))
  }

  lemma ClaimsFromEnters(w: World, call: Call)
    requires |w.history| > 0 && CallOk(w, call) && ClaimsFrom(call)
    ensures EntersClaim(call)
  {
    var at := call.at;
    var act := ActOf(call.job);
    ClaimActEnters(w, call.id, at.o.stored, act, at.config, at.problem, at.now) by { hide Decide; }
    hide Decide, OpenRecord, RecordOk, JobFits;
  }

  lemma ClaimActEnters(w: World, id: string, r: Record, act: Act, config: Option<Config>, problem: Option<string>, now: int)
    requires |w.history| > 0 && RecordOk(w, id, r) && !AnomalousDisclosure(r, now) && IsClaimAct(act)
    ensures var o := OpenRecord(r, act, config, now);
            Decide(act, o.current, o.outcome, o.live, problem, now).Put? ==> !PastClaim(o.current.state)
  {
    hide OpenRecord, Sound, AnomalousDisclosure, InWindow, Decide;
    var o := OpenRecord(r, act, config, now);
    OpenedActive(r, act, config, now);
    ClaimsUnrefused(o.current, o.outcome, o.live, act, problem, now);
  }

  lemma StepClaimants(w: World, step: Step)
    requires Claimed(w) && Enabled(w, step)
    ensures ClaimantsOk(Apply(w, step))
  {
    hide Operation, Locked, ReturnsOk, CreateOf, EntersClaim, ClaimsFrom, ClaimsMatch, CallOk, JobFits, DecisionOf;
    ClaimsStay(w, step);
    if step.Advance? { ActorClaims(w, step.c, step.loads); }
  }

  lemma ActorClaims(w: World, c: nat, loads: bool)
    requires Claimed(w) && Enabled(w, Advance(c, loads))
    ensures var e := Operation(w, c, loads);
            e.at.Some? && Claimant(e.at.value) ==>
              && w.calls[c].id in e.log.claims && e.log.claims[w.calls[c].id].call == c
              && w.calls[c].job.Do? && IsClaimAct(w.calls[c].job.act)
  {
    hide Operation, Locked, ReturnsOk, EntersClaim, ClaimsFrom, ClaimsMatch, CallOk, Claimant, DecisionOf, Ready;
    CallIsOk(w, c);
    ClaimsAfter(w, c, loads);
    ClaimantAfter(w, c, loads);
    if ClaimsFrom(w.calls[c]) {
      ClaimsFromEnters(w, w.calls[c]);
      EntryIsWarranted(w, w.calls[c]);
    } else if Claimant(w.calls[c].at) {
      assert !EntersClaim(w.calls[c]) by { ClaimantDoesNotEnter(w.calls[c]); }
    }
  }

  lemma ClaimantDoesNotEnter(call: Call)
    requires Claimant(call.at)
    ensures !EntersClaim(call)
  {
  }

  lemma ReturnedAfter(w: World, c: nat, loads: bool)
    requires |w.history| > 0 && c in w.calls
    ensures var e := Operation(w, c, loads);
            e.log.returned ==
            if w.calls[c].at.Returning? then w.log.returned + [Return(w.calls[c].id, c)] else w.log.returned
    ensures w.calls[c].at.Returning? ==> Operation(w, c, loads).at.None?
  {
    hide Decide, MintChild, Decode, VerdictOf, Open, ParentProblem, ReadsParent, ActOf;
  }

  lemma StepReturns(w: World, step: Step)
    requires Claimed(w) && Enabled(w, step)
    ensures ReturnsOk(Apply(w, step))
  {
    hide Operation, Locked, CreateOf, ViewOk, FilesOk;
    ClaimsStay(w, step);
    forall i | 0 <= i < |w.log.returned| ensures w.log.returned[i].call < w.nextCall {
      assert ClaimMatches(w, w.log.returned[i].id);
    }
    if step.Advance? {
      CallIsOk(w, step.c);
      ReturnedAfter(w, step.c, step.loads);
    }
  }

  lemma StepClaimed(w: World, step: Step)
    requires Claimed(w) && Enabled(w, step)
    ensures Claimed(Apply(w, step))
  {
    hide Operation, Locked, ClaimsMatch, ClaimantsOk, ReturnsOk, CreateOf;
    StepLocked(w, step);
    StepClaimsMatch(w, step);
    StepClaimants(w, step);
    StepReturns(w, step);
  }

  // ---------- without the lock ----------

  // With nobody to delete one, a marker once created stays, and says who created it.
  predicate MarkedCalls(w: World) {
    forall c | c in w.calls && (w.calls[c].at.Writing? || w.calls[c].at.Returning?) ::
      w.calls[c].id in w.markers && w.markers[w.calls[c].id].creator == c
  }

  predicate MarkedReturns(w: World) {
    && (forall i | 0 <= i < |w.log.returned| ::
          var ret := w.log.returned[i];
          && ret.id in w.markers && w.markers[ret.id].creator == ret.call && ret.call !in w.calls && ret.call < w.nextCall)
    && (forall i, j | 0 <= i < j < |w.log.returned| :: w.log.returned[i].id != w.log.returned[j].id)
  }

  predicate Marked(w: World) {
    !w.retains && Kept(w) && MarkedCalls(w) && MarkedReturns(w)
  }

  lemma InitIsMarked(w: World)
    requires Init(w) && !w.retains
    ensures Marked(w)
  {
    InitIsKept(w);
  }

  // Only the call that creates a marker writes into it.
  lemma MarkingOperation(w: World, c: nat, loads: bool)
    requires Marked(w) && c in w.calls
    ensures var e := Operation(w, c, loads);
            var id := w.calls[c].id;
            && !e.marking.MarkerGoes?
            && (e.marking.MarkerSet? ==>
                  e.marking.marker.creator == c && (id in w.markers ==> w.markers[id].creator == c))
            && (e.at.Some? && (e.at.value.Writing? || e.at.value.Returning?) ==>
                  w.calls[c].at.Writing? || (w.calls[c].at.Marking? && e.marking.MarkerSet?))
  {
    hide Decide, MintChild, Decode, VerdictOf, Open, ParentProblem, ReadsParent, RecordOk, SeenOk;
    assert CallOk(w, w.calls[c]);
  }

  lemma StepMarked(w: World, step: Step)
    requires Marked(w) && Enabled(w, step)
    ensures Marked(Apply(w, step))
  {
    hide Operation, FilesOk, CallOk, CreateOf, Ready;
    StepKept(w, step);
    if step.Advance? {
      MarkingOperation(w, step.c, step.loads);
      ReturnedAfter(w, step.c, step.loads);
    }
  }
}
