/**
  What every run of the store keeps, from a store at rest, however its calls' operations interleave and wherever they
  crash.
  */
module StoreRuns {
  import opened Wrappers
  import opened Records
  import opened ApprovalBinding
  import opened ApprovalValidate
  import opened ApprovalOutcome
  import opened ApprovalTransitions
  import opened RecordInvariant
  import opened RecordMoves
  import opened Decisions
  import opened Retention
  import opened StoreMachine
  import opened StoreFrames
  import opened StoreRecords
  import opened StoreLocks
  import opened StoreClaims
  import opened StoreSends
  import opened StoreEnds
  import opened StoreRetention

  // ---------- invariants over runs ----------

  // With the record lock or without it.
  ghost predicate Always(w: World) {
    ClaimsReach(w) && RowsKept(w)
  }

  // With a record lock that excludes.
  ghost predicate Safe(w: World) {
    Sent(w) && Concluded(w) && Retained(w)
  }

  lemma {:induction false} RunAlways(w: World, steps: seq<Step>)
    requires Always(w) && Legal(w, steps)
    ensures Always(After(w, steps))
    decreases |steps|
  {
    hide Apply, Enabled, ClaimsReach, RowsKept;
    if steps != [] {
      StepReached(w, steps[0]);
      StepRowed(w, steps[0]);
      RunAlways(Apply(w, steps[0]), steps[1..]);
    }
  }

  lemma {:induction false} RunSafe(w: World, steps: seq<Step>)
    requires Safe(w) && Legal(w, steps)
    ensures Safe(After(w, steps))
    decreases |steps|
  {
    hide Apply, Enabled, Sent, Concluded, Retained;
    if steps != [] {
      StepSent(w, steps[0]);
      StepConcluded(w, steps[0]);
      StepRetained(w, steps[0]);
      RunSafe(Apply(w, steps[0]), steps[1..]);
    }
  }

  lemma {:induction false} RunMarked(w: World, steps: seq<Step>)
    requires Marked(w) && Legal(w, steps)
    ensures Marked(After(w, steps))
    decreases |steps|
  {
    hide Apply, Enabled, Marked;
    if steps != [] {
      StepMarked(w, steps[0]);
      RunMarked(Apply(w, steps[0]), steps[1..]);
    }
  }

  lemma RunFromRest(w: World, steps: seq<Step>)
    requires Init(w) && Legal(w, steps)
    ensures Always(After(w, steps))
    ensures w.exclusive ==> Safe(After(w, steps))
    ensures !w.retains ==> Marked(After(w, steps))
  {
    hide Legal, After, Always, Safe, Marked;
    InitIsAlways(w);
    RunAlways(w, steps);
    if w.exclusive { RunSafe(w, steps); }
    if !w.retains { InitIsMarked(w); RunMarked(w, steps); }
  }

  lemma InitIsAlways(w: World)
    requires Init(w)
    ensures Always(w)
    ensures w.exclusive ==> Safe(w)
  {
    hide Init, ClaimsReach, RowsKept, Sent, Concluded, Retained;
    InitIsReached(w);
    InitIsRowed(w);
    if w.exclusive {
      InitIsSent(w);
      InitIsConcluded(w);
      InitIsRetained(w);
    }
  }

  // ---------- one claim ----------

  // No id's claim ever returns twice: with a record lock that excludes, whatever retention does; and without retention,
  // even where the lock excludes nobody.
  lemma AtMostOneReturn(w: World, steps: seq<Step>)
    requires Init(w) && Legal(w, steps) && (w.exclusive || !w.retains)
    ensures var returned := After(w, steps).log.returned;
            forall i, j | 0 <= i < j < |returned| :: returned[i].id != returned[j].id
  {
    hide Init, Legal, After, Always, Locked, ClaimsMatch, ClaimantsOk, Concluded, Retained, MarkersOk, HoldersOk,
         OutcomesOk, LeasesOk, Kept;
    RunFromRest(w, steps);
  }

  // Every claim there ever was is of what was prepared, as its caller gave it then; rests on a person where one is needed;
  // and was allowed, and in reach, by the configuration its call read under the lock.
  lemma EveryClaimWasAllowed(w: World, steps: seq<Step>, id: string)
    requires Init(w) && Legal(w, steps)
    ensures var last := After(w, steps);
            id in last.log.claims ==>
              var claim := last.log.claims[id];
              && PastClaim(claim.record.state) && AsPrepared(claim.act, claim.record.base) && Warranted(claim.record)
              && claim.readAt < |last.history|
              && (claim.record.base.kind != DisclosureKind ==>
                    && InReach(claim.record.base, last.history[claim.readAt])
                    && Permits(last.history[claim.readAt], claim.record))
  {
    hide Init, Legal, After, RowsKept, HistoryOk, Kept, Safe, Marked, AsPrepared, Warranted, InReach, Permits;
    RunFromRest(w, steps);
  }

  // ---------- every record ----------

  // Everything the store writes, its own integrity check accepts.
  lemma EveryStoredRecordIsValid(w: World, steps: seq<Step>, id: string)
    requires Init(w) && Legal(w, steps)
    ensures var files := After(w, steps).files;
            id in files && files[id].RecordFile? ==>
              ValidateV2(files[id].record, id) == Valid && Decode(id, files[id]) == V2(files[id].record)
  {
    hide Init, Legal, After, RowsKept, HistoryOk, CallsOk, RecordOk, Safe, Marked, ValidateV2, Decode;
    RunFromRest(w, steps);
    var last := After(w, steps);
    if id in last.files && last.files[id].RecordFile? {
      OkDecodes(last, id, last.files[id].record);
      OkIsValid(last, id, last.files[id].record);
    }
  }

  lemma OkIsValid(w: World, id: string, r: Record)
    requires |w.history| > 0 && RecordOk(w, id, r)
    ensures ValidateV2(r, id) == Valid
  {
    ValidIsWellFormed(r, id);
  }

  // ---------- no act without its person ----------

  predicate GivenBy(people: set<Person>, r: Record, answer: Option<Answer>) {
    r.approvedVia.Some? && Person(r.base.approvalId, BindingDigestOf(r.base), r.approvedVia.value, answer) in people
  }

  // Whose decision the act of a claimed record rests on, by its kind.
  predicate HasItsPerson(people: set<Person>, r: Record) {
    match r.base.kind
    case SendKind =>
      if r.IsChild() then StandingApproved(people, r.base)
      else r.base.route != Some(ChatRoute) ==>
        GivenBy(people, r, None) && (r.approvedVia == Some(Terminal) || r.approvedVia == Some(Elicitation))
    case ChangeKind =>
      r.base.requiredPolicy != PolicyChat ==>
        GivenBy(people, r, None) && (r.approvedVia == Some(Terminal) || r.approvedVia == Some(App))
    case DownloadKind =>
      r.base.requiredPolicy != PolicyChat ==>
        r.answer.Some? && GivenBy(people, r, r.answer)
        && (r.approvedVia == Some(Terminal) || r.approvedVia == Some(Elicitation))
    case DisclosureKind =>
      GivenBy(people, r, None) && (r.approvedVia == Some(Terminal) || r.approvedVia == Some(App))
    case StandingKind => false
  }

  lemma WarrantedHasItsPerson(people: set<Person>, r: Record)
    requires Sound(r) && Warranted(r) && Vouched(people, r) && PastClaim(r.state)
    ensures HasItsPerson(people, r)
  {
    hide StandingApproved, BindingDigestOf;
    EvidenceFitsItsKind(r);
    hide Sound;
  }

  lemma EvidenceFitsItsKind(r: Record)
    requires Sound(r) && PastClaim(r.state)
    ensures r.base.kind != StandingKind && r.bindingDigest == BindingDigestOf(r.base)
    ensures r.approvedVia.Some? && !r.IsChild() ==>
              match r.base.kind
              case SendKind => r.approvedVia == Some(Terminal) || r.approvedVia == Some(Elicitation)
              case DownloadKind => r.answer.Some? && (r.approvedVia == Some(Terminal) || r.approvedVia == Some(Elicitation))
              case _ => r.approvedVia == Some(Terminal) || r.approvedVia == Some(App)
  {
    hide BindingDigestOf;
  }

  lemma NoActWithoutItsPerson(w: World, steps: seq<Step>, id: string)
    requires Init(w) && Legal(w, steps)
    ensures var last := After(w, steps);
            id in last.files && last.files[id].RecordFile? ==>
              var r := last.files[id].record;
              && (PastClaim(r.state) ==> HasItsPerson(last.log.people, r))
              && (r.IsChild() ==> StandingApproved(last.log.people, r.base))
  {
    hide Init, Legal, After, RowsKept, HistoryOk, CallsOk, Safe, Marked, HasItsPerson, Sound, Warranted, Rooted,
         StandingApproved;
    RunFromRest(w, steps);
    var last := After(w, steps);
    if id in last.files && last.files[id].RecordFile? {
      var r := last.files[id].record;
      assert RecordOk(last, id, r);
      if PastClaim(r.state) { WarrantedHasItsPerson(last.log.people, r); }
    }
  }

  // A use is minted only while its standing approval, as it stands in its file under its lock, is approved at a terminal
  // and in reach of the configuration read there; and it carries that one's epochs.
  lemma UseIsMintedInForce(w: World, c: nat, loads: bool)
    requires Locked(w) && c in w.calls && Operation(w, c, loads).wrote.Some? && Operation(w, c, loads).minted
    ensures var id := w.calls[c].id;
            var child := Operation(w, c, loads).wrote.value.record;
            && w.calls[c].at.Settled? && w.calls[c].at.readAt < |w.history|
            && id in w.files && w.files[id].RecordFile?
            && var parent := w.files[id].record;
               && parent.base.kind == StandingKind && parent.state == Approved && parent.approvedVia == Some(Terminal)
               && InReach(parent.base, w.history[w.calls[c].at.readAt])
               && child.base.standingId == Some(id) && child.base.inboxId == parent.base.inboxId
               && child.base.sendEpoch == parent.base.sendEpoch && child.base.standingEpoch == parent.base.standingEpoch
  {
    hide FilesOk, OneHolder, OpenRecord, MintChild, InReach, RecordOk, Finish, ReadFile, Settle, ReadParent, Examine,
         SettleDerived, CreateMarker, WriteToken, AppendRow, Unlock, AnswerCaller;
    var call := w.calls[c];
    CallIsOk(w, c);
    OnlyUsesMint(w, c, loads);
    MintedInForce(w, call.id, call.at.o.stored, call.job.input, call.at.config, call.job.preparedBy, call.at.now);
  }

  lemma OnlyUsesMint(w: World, c: nat, loads: bool)
    requires |w.history| > 0 && c in w.calls && Operation(w, c, loads).wrote.Some? && Operation(w, c, loads).minted
    ensures var call := w.calls[c];
            && call.at.Settled? && call.at.o.Opened? && call.job.Use?
            && var made := MintChild(call.job.input, call.id, call.at.o.outcome, call.at.o.live, call.job.preparedBy,
                                     call.at.now);
               made.Made? && Operation(w, c, loads).wrote.value.record == made.record
  {
    hide Decide, MintChild, Decode, VerdictOf, Open, ParentProblem, ReadsParent, ActOf;
  }

  lemma MintedInForce(w: World, id: string, r: Record, input: UseInput, config: Option<Config>, preparedBy: Option<string>,
                      now: int)
    requires |w.history| > 0 && RecordOk(w, id, r) && !AnomalousDisclosure(r, now)
    requires MatchesRecord(r.base.kind, r.base.channel, r.base.inboxId, ExpectOf(ActOf(Use(input, preparedBy))))
    requires var o := OpenRecord(r, ActOf(Use(input, preparedBy)), config, now);
             MintChild(input, id, o.outcome, o.live, preparedBy, now).Made?
    ensures var o := OpenRecord(r, ActOf(Use(input, preparedBy)), config, now);
            var child := MintChild(input, id, o.outcome, o.live, preparedBy, now).record;
            && o.current == r && r.base.kind == StandingKind && r.state == Approved && r.approvedVia == Some(Terminal)
            && config.Some? && InReach(r.base, config.value)
            && child.base.standingId == Some(id) && child.base.inboxId == r.base.inboxId
            && child.base.sendEpoch == r.base.sendEpoch && child.base.standingEpoch == r.base.standingEpoch
  {
    UseOpensItsStanding(r, input, config, now);
    UseIsInReach(r, ActOf(Use(input, preparedBy)), config, now);
    hide Sound, OpenRecord, AnomalousDisclosure, MatchesRecord, Rooted, Vouched;
  }

  lemma UseIsInReach(r: Record, act: Act, config: Option<Config>, now: int)
    requires Sound(r) && !AnomalousDisclosure(r, now) && r.base.kind == StandingKind && ActionOf(act) == Claiming
    requires OpenRecord(r, act, config, now).outcome.error.None?
    ensures OpenRecord(r, act, config, now).current == r && config.Some? && InReach(r.base, config.value)
  {
    OpenedActive(r, act, config, now);
    hide Sound, Derive, AnomalousDisclosure, InWindow, Classify;
    DeriveKeepsBase(r, now);
    RevokesActive(Derive(r, now), act, GateOf(config, r.base), now);
    if Derive(r, now).Active() { ActiveIsInWindow(r, now); }
    UnrefusedIsReached(r, act, config, now);
  }

  // ---------- what ended ----------

  // What a locked look or action called expired or revoked is not claimed, then or later, whatever the configuration.
  lemma EndedIsNeverClaimed(w: World, steps: seq<Step>, more: seq<Step>, id: string)
    requires Init(w) && w.exclusive && Legal(w, steps) && Legal(After(w, steps), more)
    requires id in After(w, steps).log.ended
    ensures var last := After(After(w, steps), more);
            && id !in last.log.claims
            && (forall i | 0 <= i < |last.log.returned| :: last.log.returned[i].id != id)
            && (id in last.files ==> last.files[id].RecordFile? && !PastClaim(last.files[id].record.state))
  {
    hide Init, Legal, After, Always, Sent, Retained, Marked, Locked, ClaimsMatch, ClaimantsOk, HistoryOk, ReadersRooted,
         ReadersEnded, InReach;
    RunFromRest(w, steps);
    RunSafe(After(w, steps), more);
    RunEndedGrows(After(w, steps), more);
    NonEmptyHistory(After(After(w, steps), more).history);
    assert EndedFile(After(After(w, steps), more), id);
  }

  lemma {:induction false} RunEndedGrows(w: World, steps: seq<Step>)
    requires Legal(w, steps)
    ensures w.log.ended <= After(w, steps).log.ended
    decreases |steps|
  {
    hide Apply, Enabled, EpochsGrow, OwnersStayGone;
    if steps != [] {
      StepGrows(w, steps[0]);
      RunEndedGrows(Apply(w, steps[0]), steps[1..]);
    }
  }

  // ---------- the epoch fence ----------

  // What the calls that read their configuration only after a commit claim, they claim under it or a later one.
  predicate LateClaims(w: World, commit: nat, early: set<nat>, done: set<string>) {
    && commit < |w.history|
    && (forall c | c in w.calls && HasRead(w.calls[c].at) && c !in early :: commit <= w.calls[c].at.readAt)
    && (forall id | id in w.log.claims && id !in done && w.log.claims[id].call !in early ::
          commit <= w.log.claims[id].readAt)
  }

  lemma StepLateClaims(w: World, step: Step, commit: nat, early: set<nat>, done: set<string>)
    requires Enabled(w, step) && LateClaims(w, commit, early, done)
    ensures LateClaims(Apply(w, step), commit, early, done)
  {
    hide Operation, EntersClaim, DecisionOf, CreateOf, Ready, ConfigFits;
    if step.Advance? {
      ReadsOnce(w, step.c, step.loads);
      ClaimsAfter(w, step.c, step.loads);
      if EntersClaim(w.calls[step.c]) { EntersAtSettled(w.calls[step.c]); }
    }
  }

  lemma {:induction false} RunLateClaims(w: World, steps: seq<Step>, commit: nat, early: set<nat>, done: set<string>)
    requires LateClaims(w, commit, early, done) && Legal(w, steps)
    ensures LateClaims(After(w, steps), commit, early, done)
    decreases |steps|
  {
    hide Apply, Enabled, LateClaims;
    if steps != [] {
      StepLateClaims(w, steps[0], commit, early, done);
      RunLateClaims(Apply(w, steps[0]), steps[1..], commit, early, done);
    }
  }

  // After a commit, no send prepared under an earlier epoch is claimed by any claim whose locked configuration read
  // follows it, whatever is configured later; and no standing approval's use under an earlier standing epoch.
  lemma EpochFence(w: World, before: seq<Step>, after: seq<Step>, id: string)
    requires Init(w) && Legal(w, before) && Legal(After(w, before), after)
    requires id in After(After(w, before), after).log.claims && id !in After(w, before).log.claims
    requires var c := After(After(w, before), after).log.claims[id].call;
             c in After(w, before).calls ==> !HasRead(After(w, before).calls[c].at)
    ensures var commit := After(w, before).history;
            var b := After(After(w, before), after).log.claims[id].record.base;
            && |commit| > 0
            && (b.kind == SendKind && b.ownerScope == OwnerScoped ==>
                  b.sendEpoch.Or(0) >= SendEpochOf(commit[|commit| - 1], b.inboxId))
            && (IsChildBase(b) ==> b.standingEpoch.Some? && b.standingEpoch.value >= commit[|commit| - 1].standingEpoch)
            && (b.kind != DisclosureKind && b.ownerScope == OwnerScoped && EverOwner(commit, b.inboxId) ==>
                  b.inboxId in commit[|commit| - 1].owners)
  {
    hide Init, Legal, After, RowsKept, Kept, Safe, Marked;
    var mid := After(w, before);
    var last := After(mid, after);
    RunFromRest(w, before);
    RunAlways(mid, after);
    RunHistory(mid, after);
    var commit := |mid.history| - 1;
    var early := set c | c in mid.calls && HasRead(mid.calls[c].at);
    RunLateClaims(mid, after, commit, early, mid.log.claims.Keys);
    var claim := last.log.claims[id];
    assert ClaimInReach(last.history, claim) && commit <= claim.readAt;
    hide HistoryOk, ClaimInReach, LateClaims, HasRead, AsPrepared, Permits;
    ReachedLater(last.history, commit, claim);
    assert last.history[commit] == mid.history[commit] && last.history[..commit + 1] == mid.history;
  }

  lemma ReachedLater(history: seq<Config>, commit: nat, claim: Claim)
    requires HistoryOk(history) && ClaimInReach(history, claim) && commit <= claim.readAt
    ensures var b := claim.record.base;
            && (b.kind == SendKind && b.ownerScope == OwnerScoped ==>
                  b.sendEpoch.Or(0) >= SendEpochOf(history[commit], b.inboxId))
            && (IsChildBase(b) ==> b.standingEpoch.Some? && b.standingEpoch.value >= history[commit].standingEpoch)
            && (b.kind != DisclosureKind && b.ownerScope == OwnerScoped && EverOwner(history[..commit + 1], b.inboxId) ==>
                  b.inboxId in history[commit].owners)
  {
    hide AsPrepared, Warranted, Permits, PastClaim;
    var owner := claim.record.base.inboxId;
    assert SendEpochOf(history[commit], owner) <= SendEpochOf(history[claim.readAt], owner);
    assert EverOwner(history[..commit + 1], owner) && owner in history[claim.readAt].owners ==> owner in history[commit].owners;
  }

  lemma {:induction false} RunHistory(w: World, steps: seq<Step>)
    requires HistoryOk(w.history) && Legal(w, steps)
    ensures HistoryOk(After(w, steps).history) && w.history <= After(w, steps).history
    decreases |steps|
  {
    hide Apply, Enabled, HistoryOk;
    if steps != [] {
      StepHistory(w, steps[0]);
      RunHistory(Apply(w, steps[0]), steps[1..]);
    }
  }

  // ---------- a claimed send ----------

  // The token in a marker is the call's whose claim the record's is.
  lemma TokenIsTheClaimants(w: World, steps: seq<Step>, id: string, token: nat)
    requires Init(w) && w.exclusive && Legal(w, steps)
    ensures HoldsClaim(After(w, steps), id, token) ==> ClaimedBy(After(w, steps), id, token)
  {
    hide Init, Legal, After, Always, Claimed, HoldersOk, OutcomesOk, LeasesOk, Concluded, Retained, Marked;
    RunFromRest(w, steps);
    assert Safe(After(w, steps)) && MarkersOk(After(w, steps));
  }

  // Whoever opens a send within the lease a `go` gave does not find it lost.
  lemma LeaseIsKept(w: World, steps: seq<Step>, go: Go, act: Act, config: Option<Config>)
    requires Init(w) && w.exclusive && Legal(w, steps)
    requires go in After(w, steps).log.goes && After(w, steps).clock < go.at + SENDING_LEASE_MS
    ensures var last := After(w, steps);
            var o := Open(Found(last, go.id), act, config, last.clock);
            o.Opened? ==> o.stored.state != Unknown && o.current.state != Unknown && o.outcome.record.state != Unknown
  {
    hide Init, Legal, After, Always, Claimed, MarkersOk, HoldersOk, OutcomesOk, Concluded, Retained, Marked, Decode;
    RunFromRest(w, steps);
    var last := After(w, steps);
    assert GoOk(last, go);
    if go.id in last.files { LeasedIsNotLost(go.id, last.files[go.id].record, go.at, act, config, last.clock); }
  }

  lemma LeasedIsNotLost(id: string, r: Record, at: int, act: Act, config: Option<Config>, now: int)
    requires LeaseHolds(r, at, now) && now < at + SENDING_LEASE_MS
    ensures var o := Open(Some(Decode(id, RecordFile(r))), act, config, now);
            o.Opened? ==> o.stored.state != Unknown && o.current.state != Unknown && o.outcome.record.state != Unknown
  {
    hide ValidateV2, LiveGateOf;
  }

  // A send once lost or finished is never under way again, and no later fence says `go` for it.
  lemma {:induction false} OverStaysOver(w: World, steps: seq<Step>, id: string)
    requires Safe(w) && Over(w, id) && Legal(w, steps)
    ensures Over(After(w, steps), id)
    ensures w.log.goes <= After(w, steps).log.goes
    ensures forall i | |w.log.goes| <= i < |After(w, steps).log.goes| :: After(w, steps).log.goes[i].id != id
    decreases |steps|
  {
    hide Apply, Enabled, Safe, Over;
    if steps != [] {
      SafeParts(w);
      StepOver(w, steps[0], id);
      RunSafe(w, [steps[0]]) by { assert Legal(w, [steps[0]]); }
      assert After(w, [steps[0]]) == Apply(w, steps[0]);
      OverStaysOver(Apply(w, steps[0]), steps[1..], id);
    }
  }

  lemma SafeParts(w: World)
    requires Safe(w)
    ensures Sent(w) && Concluded(w) && Retained(w)
  {
  }

  lemma NeverBackFromLost(w: World, steps: seq<Step>, more: seq<Step>, id: string)
    requires Init(w) && w.exclusive && Legal(w, steps) && Legal(After(w, steps), more)
    requires var files := After(w, steps).files;
             id in files && files[id].RecordFile? && files[id].record.state == Unknown
    ensures var mid := After(w, steps);
            var last := After(mid, more);
            && (id in last.files ==> last.files[id].RecordFile? && SendOver(last.files[id].record.state))
            && mid.log.goes <= last.log.goes
            && forall i | |mid.log.goes| <= i < |last.log.goes| :: last.log.goes[i].id != id
  {
    hide Init, Legal, After, Always, Safe, Marked, Locked, ClaimantsOk, ReturnsOk, MarkersOk, HoldersOk, OutcomesOk,
         LeasesOk, Concluded, Retained;
    RunFromRest(w, steps);
    var mid := After(w, steps);
    SafeParts(mid);
    assert ClaimMatches(mid, id);
    OverStaysOver(mid, more, id);
  }

  // An outcome is recorded at most once, by the call whose claim it was, and the record then says so for good.
  lemma OneOutcome(w: World, steps: seq<Step>)
    requires Init(w) && w.exclusive && Legal(w, steps)
    ensures var last := After(w, steps);
            && (forall i, j | 0 <= i < j < |last.log.outcomes| :: last.log.outcomes[i].id != last.log.outcomes[j].id)
            && (forall i | 0 <= i < |last.log.outcomes| ::
                  var o := last.log.outcomes[i];
                  && o.id in last.log.claims && last.log.claims[o.id].call == o.call
                  && (o.id in last.files ==>
                        last.files[o.id].RecordFile? && Outcomed(last.files[o.id].record.state)))
  {
    hide Init, Legal, After, Always, Claimed, MarkersOk, HoldersOk, LeasesOk, Concluded, Retained, Marked;
    RunFromRest(w, steps);
  }

  // ---------- retention ----------

  // Wherever a deletion was cut, an approval whose record is gone has its row, ninety days past its finish.
  lemma NothingLostWithoutItsRow(w: World, steps: seq<Step>, id: string)
    requires Init(w) && Legal(w, steps)
    ensures var last := After(w, steps);
            id in last.made && id !in last.files ==>
              id in last.log.rows && last.log.rows[id].finishedAt + NINETY_DAYS <= last.clock
  {
    hide Init, Legal, After, ClaimsReach, Safe, Marked, Kept;
    RunFromRest(w, steps);
  }

  lemma DeletionsAreDue(w: World, steps: seq<Step>, step: Step, id: string)
    requires Init(w) && w.exclusive && Legal(w, steps) && Enabled(After(w, steps), step)
    requires id in After(w, steps).files && id !in Apply(After(w, steps), step).files
    ensures var last := After(w, steps);
            && id in last.log.rows && last.log.rows[id].finishedAt + NINETY_DAYS <= last.clock
            && IsRowOf(last.log.rows[id], last.files[id])
            && (last.files[id].RecordFile? ==>
                  ValidateV2(last.files[id].record, id) == Valid && IsFinished(last.files[id].record.state))
            && (last.files[id].LegacyFile? ==> last.files[id].legacy.state == Used)
            && !last.files[id].Garbled?
  {
    hide Init, Legal, After, Apply, Enabled, Always, Sent, Concluded, Retained, Marked, VerdictOf, Decode, ValidateV2, IsRowOf;
    RunFromRest(w, steps);
    DeletionIsDue(After(w, steps), step, id);
  }
}
