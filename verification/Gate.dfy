/**
  What may be done with a record, from the record, the clock and the configuration's own fields alone: when it is in force,
  when the configuration ends it, and exactly which acts go through (packages/core/src/approvals.ts, `#derive` and the
  decisions, and packages/core/src/approval-outcome.ts).
  */
module Gate {
  import opened Wrappers
  import opened Records
  import opened ApprovalBinding
  import opened ApprovalValidate
  import opened ApprovalOutcome
  import opened ApprovalTransitions
  import opened RecordInvariant
  import opened RecordMoves
  import opened Decisions
  import opened LookAndAct
  import opened Policies
  import opened Standing
  import opened Texts

  // ---------- time ----------

  const MINUTE_MS := 60_000

  // When an active record ends: what waits, as long after its making as it was given; what is approved, as long after its
  // approval, and a standing approval no later than it was narrowed to. A download's question keeps its first end.
  function EndOf(r: Record): int
    requires r.createdAt.At? && (r.state == Approved && r.base.kind != DownloadKind ==> r.approvedAt.At?)
  {
    if r.state != Approved || r.base.kind == DownloadKind then r.createdAt.ms + r.base.pendingMs
    else
      var whole := r.approvedAt.ms + r.base.approvedMs.Or(0);
      if r.base.kind == StandingKind && r.narrowed.Some? && r.narrowed.value.expiresDays.Some?
      then Least(whole, r.approvedAt.ms + r.narrowed.value.expiresDays.value * 24 * 60 * MINUTE_MS)
      else whole
  }

  function Least(a: int, b: int): int {
    if a <= b then a else b
  }

  // The clock is behind the record's own times.
  predicate ClockBehind(r: Record, now: int) {
    (r.createdAt.At? && now < r.createdAt.ms) || (r.state == Approved && r.approvedAt.At? && now < r.approvedAt.ms)
  }

  predicate InForce(r: Record, now: int) {
    && (r.state == Pending || r.state == Approved)
    && r.createdAt.At? && (r.state == Approved && r.base.kind != DownloadKind ==> r.approvedAt.At?)
    && !ClockBehind(r, now) && now < EndOf(r)
  }

  // When a send's claimant last said it is at work: its last renewal, or its claim.
  function LastRenewed(r: Record): Stamp {
    if r.sendingHeartbeatAt.At? then r.sendingHeartbeatAt else r.sendingAt
  }

  lemma SoundTimes(r: Record)
    requires Sound(r)
    ensures r.createdAt.At? && (r.state == Approved && r.base.kind != DownloadKind ==> r.approvedAt.At?)
    ensures r.state == Approved ==> LapsesAt(r) == At(EndOf(r))
    ensures r.state == Pending ==> LapsesAt(r) == At(EndOf(r))
    ensures r.state == Sending || r.state == Unknown ==> LastRenewed(r) == r.Renewed() && r.Renewed().At?
  {
    hide BindingDigestOf, CanonicalDisclosureBinding;
  }

  // Reading a record makes of it exactly what the clock says.
  lemma DerivedExactly(r: Record, now: int)
    requires Sound(r)
    ensures r.createdAt.At? && (r.state == Approved && r.base.kind != DownloadKind ==> r.approvedAt.At?)
    ensures InForce(r, now) ==> Derive(r, now) == r
    ensures r.Active() && ClockBehind(r, now) ==>
              Derive(r, now) == r.(state := Expired, reason := Some(CLOCK_ANOMALY), expiredAt := At(now))
    ensures r.Active() && !ClockBehind(r, now) && now >= EndOf(r) ==>
              Derive(r, now) == r.(state := Expired, reason := Some(WINDOW_PASSED), expiredAt := At(EndOf(r)))
    ensures r.state == Sending ==>
              LastRenewed(r).At?
              && Derive(r, now) == if now >= LastRenewed(r).ms + 2 * MINUTE_MS
                                   then r.(state := Unknown, reason := Some(STALE_LEASE_REASON)) else r
    ensures !r.Active() && r.state != Sending ==> Derive(r, now) == r
    ensures Derive(r, now).Active() <==> InForce(r, now)
  {
    SoundTimes(r);
    hide Sound, LapsesAt, EndOf;
  }

  // ---------- what the configuration says ----------

  // The account is still there, no epoch has moved on.
  predicate Reaches(config: Config, b: Base) {
    && (b.ownerScope == OwnerScoped ==> b.inboxId in config.owners)
    && (b.kind == SendKind || b.kind == StandingKind ==> b.sendEpoch.Some? && EpochIs(config, b.inboxId, b.sendEpoch.value))
    && (b.kind == StandingKind || IsChildBase(b) ==> b.standingEpoch == Some(config.standingEpoch))
  }

  // Sending is turned off for it.
  predicate TurnedOff(config: Config, b: Base) {
    && (b.kind == SendKind || b.kind == StandingKind) && b.inboxId in config.owners
    && (SendsUnder(config, b.inboxId, PolicyNever) || b.requiredPolicy == PolicyNever)
  }

  // A standing approval, approved while its account's changes went without a person, of an account whose do no longer.
  predicate Tightened(config: Config, r: Record) {
    && r.base.kind == StandingKind && r.state == Approved
    && AsksConfirm(config, Some(r.base.inboxId)) && r.approvedChangePolicy != Some(PolicyConfirm)
  }

  // What the configuration leaves of a record in force.
  predicate Stands(config: Config, r: Record) {
    Reaches(config, r.base) && !TurnedOff(config, r.base) && !Tightened(config, r)
  }

  lemma ReachesIsInReach(config: Config, r: Record)
    requires Sound(r) && r.base.kind != DisclosureKind
    ensures Reaches(config, r.base) <==> InReach(r.base, config)
    ensures r.base.kind == SendKind || r.base.kind == StandingKind ==> r.base.ownerScope == OwnerScoped
    ensures r.base.kind == DownloadKind ==> r.base.ownerScope == OwnerScoped
    ensures r.base.kind == ChangeKind ==> r.base.change.Some?
    ensures r.base.kind == SendKind || r.base.kind == StandingKind ==> r.base.sendEpoch.Some? && r.base.sendEpoch.value >= 0
    ensures r.base.kind == StandingKind || IsChildBase(r.base) ==> r.base.standingEpoch.Some?
  {
  }

  // The gate, in the configuration's own words.
  lemma GateSays(config: Config, r: Record)
    requires Sound(r) && r.base.kind != DisclosureKind
    ensures var live := LiveGateOf(config, r.base);
            && (OwnerIsRemoved(r, Some(live)) <==> r.base.ownerScope == OwnerScoped && r.base.inboxId !in config.owners)
            && (LiveNever(r, Some(live)) <==> TurnedOff(config, r.base))
            && (live.owner == Present <==> r.base.ownerScope == OwnerScoped && r.base.inboxId in config.owners)
            && live.standingEpoch == Some(config.standingEpoch)
            && (r.base.kind == StandingKind && r.state == Approved && r.base.inboxId in config.owners ==>
                  (ChangePolicyTightened(r.approvedChangePolicy, live.changePolicy) <==> Tightened(config, r)))
            && (Sends(r) && r.base.inboxId in config.owners ==>
                  (live.sendEpoch == Some(r.base.sendEpoch.Or(0)) <==> EpochIs(config, r.base.inboxId, r.base.sendEpoch.value)))
  {
    ReachesIsInReach(config, r);
    if r.base.ownerScope == OwnerScoped { SendPolicySaid(config, r.base, PolicyNever); }
    if r.base.ownerScope == OwnerScoped ==> r.base.inboxId in config.owners { GateChangePolicySaid(config, r.base); }
    StandingEpochSaid(config, r.base);
    hide Sound, LiveGateOf, SendsUnder, AsksConfirm, TouchesConfirm, EpochIs, Reaches, InReach;
  }

  lemma StandingEpochSaid(config: Config, b: Base)
    ensures LiveGateOf(config, b).standingEpoch == Some(config.standingEpoch)
    ensures b.ownerScope != OwnerScoped ==> LiveGateOf(config, b).owner == NoOwner
  {
  }

  // ---------- what a configuration ends ----------

  // Acts on the record, which turning sending off revokes; a look only says so.
  predicate IsActing(act: Act) {
    || act.IssueChallenge? || act.IssueDisclosureChallenge? || act.Approve? || act.ApproveDisclosure? || act.AnswerDownload?
    || act.ClaimForSend? || act.ClaimForChange? || act.ClaimForDownload? || act.ClaimForDisclosure? || act.Complete?
    || (act.Inspect? && (act.action == Approving || act.action == Claiming))
  }

  // Neither an act nor a look before one: what derives is only shown.
  predicate OnlyLooks(act: Act) {
    act.Heartbeat? || (act.Inspect? && (act.action == Inspecting || act.action == Waiting))
  }

  // Why the configuration ends a record in force, if it does.
  function EndedBy(config: Config, r: Record, acting: bool): Option<string> {
    if r.base.ownerScope == OwnerScoped && r.base.inboxId !in config.owners then Some(OWNER_REMOVED_REASON)
    else if TurnedOff(config, r.base) then (if acting then Some(NEVER_REASON) else None)
    else if (r.base.kind == SendKind || r.base.kind == StandingKind)
            && !(r.base.sendEpoch.Some? && EpochIs(config, r.base.inboxId, r.base.sendEpoch.value))
    then Some(SEND_EPOCH_REASON)
    else if (r.base.kind == StandingKind || IsChildBase(r.base)) && r.base.standingEpoch != Some(config.standingEpoch)
    then Some(STANDING_EPOCH_REASON)
    else if Tightened(config, r) then Some(CHANGE_POLICY_TIGHTENED_REASON)
    else None
  }

  // A record in force, read under a configuration: ended for just that reason, or as it was; and stored as ended by an
  // act, and by a look only where a policy was tightened.
  lemma EndedExactly(r: Record, act: Act, config: Config, now: int)
    requires Sound(r) && InForce(r, now) && r.base.kind != DisclosureKind
    ensures var o := OpenRecord(r, act, Some(config), now);
            var reason := EndedBy(config, r, IsActing(act));
            && (reason.None? ==> o.outcome.record == r && o.current == r && o.outcome.error.None?)
            && (reason.Some? ==>
                  && o.outcome.record == r.(state := Revoked, reason := reason, revokedAt := At(now), challengeHash := None)
                  && o.outcome.error == Some(if reason == Some(NEVER_REASON) then PolicyIsNever else ApprovalVoid)
                  && o.current == if !OnlyLooks(act) || (act.Inspect? && reason == Some(CHANGE_POLICY_TIGHTENED_REASON))
                                  then o.outcome.record else r)
  {
    DerivedExactly(r, now);
    RevocationSaid(config, r, IsActing(act));
    TighteningIsOfStandings(config, r, IsActing(act));
    ReasonsDiffer();
    ActionsSay(act);
    var live := LiveGateOf(config, r.base);
    ClassifiedBy(r, ActionOf(act), live, now);
    hide Sound, Derive, InForce, LiveGateOf, DerivedRevocation, EndedBy, Classify, ActionOf, IsActing, OnlyLooks;
  }

  lemma ActionsSay(act: Act)
    ensures IsActing(act) <==> ActionOf(act) == Approving || ActionOf(act) == Claiming
    ensures OnlyLooks(act) <==> ActionOf(act) == Inspecting || ActionOf(act) == Waiting
  {
  }

  lemma TighteningIsOfStandings(config: Config, r: Record, acting: bool)
    ensures EndedBy(config, r, acting) == Some(CHANGE_POLICY_TIGHTENED_REASON) ==> r.base.kind == StandingKind
  {
    ReasonsDiffer();
    hide TurnedOff, EpochIs;
  }

  // What a classification makes of the revocation it derives.
  lemma ClassifiedBy(r: Record, action: Action, live: LiveGate, now: int)
    requires r.Active() && r.base.kind != DisclosureKind
    ensures var revocation := DerivedRevocation(r, Some(live), action == Approving || action == Claiming);
            var outcome := Classify(r, action, Some(live), now);
            && outcome.revokes == revocation.Some?
            && outcome.record == (if revocation.None? then r else RevokedBy(r, revocation.value, now))
            && outcome.error == (if revocation.None? then None
                                 else Some(if revocation == Some(NEVER_REASON) then PolicyIsNever else ApprovalVoid))
            && (revocation.Some? ==> outcome.reason == revocation)
  {
    hide LiveNever, IsClaimable, DerivedRevocation;
  }

  lemma ReasonsDiffer()
    ensures OWNER_REMOVED_REASON != NEVER_REASON && SEND_EPOCH_REASON != NEVER_REASON && STANDING_EPOCH_REASON != NEVER_REASON
    ensures CHANGE_POLICY_TIGHTENED_REASON != NEVER_REASON && OWNER_REMOVED_REASON != CHANGE_POLICY_TIGHTENED_REASON
    ensures SEND_EPOCH_REASON != CHANGE_POLICY_TIGHTENED_REASON && STANDING_EPOCH_REASON != CHANGE_POLICY_TIGHTENED_REASON
  {
    assert |OWNER_REMOVED_REASON| == 34 && |NEVER_REASON| == 37 && |CHANGE_POLICY_TIGHTENED_REASON| == 55;
    assert |SEND_EPOCH_REASON| == 62 && |STANDING_EPOCH_REASON| == 53;
  }

  lemma RevocationSaid(config: Config, r: Record, acting: bool)
    requires Sound(r) && r.Active() && r.base.kind != DisclosureKind
    ensures DerivedRevocation(r, Some(LiveGateOf(config, r.base)), acting) == EndedBy(config, r, acting)
  {
    GateSays(config, r);
    ReachesIsInReach(config, r);
    hide Sound, LiveGateOf, TurnedOff, Tightened, Reaches, InReach, EpochIs, LiveNever, OwnerIsRemoved;
    hide ChangePolicyTightened;
  }

  // ---------- who may act ----------

  // In force, and nothing the configuration says is against it. A disclosure has no account and no policy.
  predicate Unhindered(r: Record, config: Option<Config>, now: int) {
    InForce(r, now) && (r.base.kind == DisclosureKind || (config.Some? && Stands(config.value, r)))
  }

  lemma EndedByNothing(config: Config, r: Record)
    ensures EndedBy(config, r, true).None? <==> Stands(config, r)
  {
    hide EpochIs, SendsUnder, AsksConfirm;
  }

  // An act is refused nothing, and finds the record as it is stored, exactly then.
  lemma ActsExactly(r: Record, act: Act, config: Option<Config>, now: int)
    requires Sound(r) && !AnomalousDisclosure(r, now) && IsActing(act)
    ensures OpenRecord(r, act, config, now).outcome.error.None? <==> Unhindered(r, config, now)
    ensures Unhindered(r, config, now) ==> OpenRecord(r, act, config, now).current == r
  {
    DerivedExactly(r, now);
    OpenedActive(r, act, config, now);
    if InForce(r, now) && config.Some? && r.base.kind != DisclosureKind {
      EndedExactly(r, act, config.value, now);
      EndedByNothing(config.value, r);
    }
    if !InForce(r, now) { LapsedIsRefused(r, act, config, now); }
    if InForce(r, now) { NoConfigNoAct(r, act, config, now); }
    hide Sound, Derive, InForce, EndedBy, Stands, Classify;
  }

  lemma LapsedIsRefused(r: Record, act: Act, config: Option<Config>, now: int)
    requires !Derive(r, now).Active()
    ensures OpenRecord(r, act, config, now).outcome.error.Some?
  {
    hide Derive, LiveNever, IsClaimable;
  }

  lemma NoConfigNoAct(r: Record, act: Act, config: Option<Config>, now: int)
    requires IsActing(act) && Derive(r, now) == r && r.Active()
    ensures r.base.kind == DisclosureKind ==> OpenRecord(r, act, config, now).outcome.error.None?
    ensures r.base.kind == DisclosureKind ==> OpenRecord(r, act, config, now).current == r
    ensures r.base.kind != DisclosureKind && config.None? ==> OpenRecord(r, act, config, now).outcome.error.Some?
  {
    hide Derive, IsClaimable;
  }

  // ---------- what may be claimed ----------

  // Approved by a person, or left to a yes in the chat by what it was prepared under and by every account it touches now.
  predicate MayBeClaimed(config: Config, r: Record) {
    match r.base.kind
    case SendKind =>
      r.state == Approved || (r.base.route == Some(ChatRoute) && SendsUnder(config, r.base.inboxId, PolicyChat))
    case ChangeKind =>
      r.state == Approved || (r.base.route == Some(ChatRoute) && !TouchesConfirm(config, r.base.change.Or(NoChange())))
    case DownloadKind =>
      r.state == Approved || (r.base.requiredPolicy == PolicyChat && !AsksConfirm(config, Some(r.base.inboxId)))
    case DisclosureKind => r.state == Approved
    case StandingKind => false
  }

  function NoChange(): ChangeBinding {
    ChangeBinding("", None, [], [], [], [])
  }

  lemma ClaimableSaid(config: Config, r: Record)
    requires Sound(r) && r.Active() && r.base.kind != DisclosureKind && Reaches(config, r.base)
    ensures IsClaimable(r, LiveGateOf(config, r.base)) <==> MayBeClaimed(config, r)
  {
    ReachesIsInReach(config, r);
    if r.base.ownerScope == OwnerScoped { SendPolicySaid(config, r.base, PolicyChat); }
    GateChangePolicySaid(config, r.base);
    hide Sound, LiveGateOf, SendsUnder, AsksConfirm, TouchesConfirm, EpochIs;
  }

  // A look calls a record claimable exactly when it is in force, the configuration leaves it standing, and a person
  // approved it or nobody it touches asks for one.
  lemma ClaimableExactly(r: Record, config: Option<Config>, now: int)
    requires Sound(r) && !AnomalousDisclosure(r, now)
    ensures LooksClaimable(r, config, now) <==>
            && Unhindered(r, config, now)
            && (if r.base.kind == DisclosureKind then r.state == Approved else MayBeClaimed(config.value, r))
  {
    var act := Inspect(Claiming, Expect(None, None, None));
    ActsExactly(r, act, config, now);
    LookAndClaimSeeTheSame(r, act, config, now);
    DeriveKeepsBase(r, now);
    if Unhindered(r, config, now) {
      DerivedExactly(r, now);
      UnhinderedClassifies(r, config, now);
      if r.base.kind != DisclosureKind {
        GateSays(config.value, r);
        ClaimableSaid(config.value, r);
      }
    }
    hide Sound, Derive, LooksClaimable, Unhindered, Classify, LiveGateOf, IsClaimable, MayBeClaimed;
  }

  lemma UnhinderedClassifies(r: Record, config: Option<Config>, now: int)
    requires Sound(r) && Unhindered(r, config, now) && Derive(r, now) == r && r.Active()
    ensures var o := OpenRecord(r, Inspect(Claiming, Expect(None, None, None)), config, now);
            o.outcome.claimable <==>
              if r.base.kind == DisclosureKind then r.state == Approved
              else IsClaimable(r, LiveGateOf(config.value, r.base))
    ensures r.base.kind != DisclosureKind ==> Reaches(config.value, r.base)
  {
    if r.base.kind != DisclosureKind {
      GateSays(config.value, r);
      RevocationSaid(config.value, r, true);
      EndedByNothing(config.value, r);
    }
    hide Sound, Derive, InForce, LiveGateOf, TurnedOff, Tightened, IsClaimable, EpochIs, DerivedRevocation, EndedBy, LiveNever;
  }

  // So its matching claim goes through exactly then.
  lemma ClaimGoesThroughExactly(r: Record, config: Option<Config>, now: int)
    requires Sound(r) && !AnomalousDisclosure(r, now)
    ensures MatchingClaimClaims(r, config, now) <==>
            && Unhindered(r, config, now)
            && (if r.base.kind == DisclosureKind then r.state == Approved else MayBeClaimed(config.value, r))
  {
    LookAgreesWithAct(r, config, now);
    ClaimableExactly(r, config, now);
    hide LooksClaimable, MatchingClaimClaims, Unhindered, MayBeClaimed, Sound;
  }

  // ---------- what may be approved, answered, ended and narrowed ----------

  // What an act decides of a record, read under a configuration, and what is then stored.
  function Decided(r: Record, act: Act, config: Option<Config>, now: int): Decision {
    var o := OpenRecord(r, act, config, now);
    Decide(act, o.current, o.outcome, o.live, None, now)
  }

  function StoredBy(r: Record, act: Act, config: Option<Config>, now: int): Record {
    var d := Decided(r, act, config, now);
    if d.Put? then d.next else OpenRecord(r, act, config, now).current
  }

  // A code is issued to a waiting record nothing hinders, and to no other; nothing else of it changes.
  lemma IssueGoesThroughExactly(r: Record, act: Act, config: Option<Config>, now: int)
    requires Sound(r) && !AnomalousDisclosure(r, now) && (act.IssueChallenge? || act.IssueDisclosureChallenge?)
    ensures Decided(r, act, config, now).Put? <==> r.state == Pending && Unhindered(r, config, now)
    ensures Decided(r, act, config, now).Put? ==>
              Decided(r, act, config, now) == Put(r.(challengeHash := Some(CodeOf(act.challenge))), None)
  {
    ActsExactly(r, act, config, now);
    hide Sound, OpenRecord, Unhindered, CodeOf;
    if !Unhindered(r, config, now) { assert Decided(r, act, config, now).Refuse?; }
  }

  // The code that was issued, as it is typed, for the very content prepared; by a way the kind takes; while it waits and
  // nothing hinders it. It then carries that binding, opens its own window, and a standing approval keeps the policy.
  lemma ApprovalGoesThroughExactly(r: Record, kind: Kind, via: ApprovalVia, draft: LiveDraft, answer: string,
                                   config: Option<Config>, now: int)
    requires Sound(r) && r.base.kind == kind && kind != DisclosureKind && (via == App ==> kind == ChangeKind)
    ensures var d := Decided(r, Approve(kind, via, draft, answer), config, now);
            && (d.Put? && d.next.state == Approved <==>
                  && r.state == Pending && Unhindered(r, config, now)
                  && (kind == ChangeKind ==> via == Terminal || via == App) && (kind == StandingKind ==> via == Terminal)
                  && r.challengeHash == Some(CodeOf(answer))
                  && draft.draftMessageId == r.base.draftMessageId && draft.contentDigest == r.base.contentDigest)
            && (d.Put? && d.next.state == Approved ==>
                  && config.Some?
                  && d.next == r.(state := Approved, approvedVia := Some(via), approvedAt := At(now),
                                  usableUntil := At(now + r.base.approvedMs.Or(24 * 60 * MINUTE_MS)),
                                  approvedBindingDigest := r.bindingDigest, challengeHash := None,
                                  approvedChangePolicy :=
                                    if kind != StandingKind then r.approvedChangePolicy
                                    else if AsksConfirm(config.value, Some(r.base.inboxId)) then Some(PolicyConfirm)
                                    else Some(PolicyChat)))
  {
    hide Sound, OpenRecord, Unhindered, LiveGateOf, AsksConfirm, CodeOf, DecideApprove, AnomalousDisclosure;
    var act := Approve(kind, via, draft, answer);
    var o := OpenRecord(r, act, config, now);
    OrdinaryIsNoDisclosure(r, now);
    ActsExactly(r, act, config, now);
    ApprovedExactly(o.current, o.outcome, o.live, kind, via, draft, answer, now);
    if Unhindered(r, config, now) {
      LiveIsTheGate(r, act, config, now);
      PolicyIsKept(r, config, now);
      ApprovalMakes(r, o.outcome, o.live, kind, via, draft, answer, now);
    }
  }

  lemma OrdinaryIsNoDisclosure(r: Record, now: int)
    requires r.base.kind != DisclosureKind
    ensures !AnomalousDisclosure(r, now)
  {
  }

  lemma PolicyIsKept(r: Record, config: Option<Config>, now: int)
    requires Sound(r) && Unhindered(r, config, now) && r.base.kind != DisclosureKind
    ensures config.Some?
    ensures r.base.kind == StandingKind ==>
              LiveGateOf(config.value, r.base).changePolicy ==
              if AsksConfirm(config.value, Some(r.base.inboxId)) then Some(PolicyConfirm) else Some(PolicyChat)
  {
    hide Sound, InForce, LiveGateOf, AsksConfirm, EpochIs, TurnedOff, Tightened, InReach;
    if r.base.kind == StandingKind {
      ReachesIsInReach(config.value, r);
      GateChangePolicySaid(config.value, r.base);
    }
  }

  lemma LiveIsTheGate(r: Record, act: Act, config: Option<Config>, now: int)
    ensures OpenRecord(r, act, config, now).live == GateOf(config, r.base)
  {
    DeriveKeepsBase(r, now);
    hide Derive, Classify;
  }

  lemma ApprovalMakes(r: Record, outcome: Outcome, live: Option<LiveGate>, kind: Kind, via: ApprovalVia, draft: LiveDraft,
                      answer: string, now: int)
    ensures var d := DecideApprove(r, outcome, live, kind, via, draft, answer, now);
            d.Put? && d.next.state == Approved ==>
              d.next == r.(state := Approved, approvedVia := Some(via), approvedAt := At(now),
                           usableUntil := At(now + r.base.approvedMs.Or(24 * 60 * MINUTE_MS)),
                           approvedBindingDigest := r.bindingDigest, challengeHash := None,
                           approvedChangePolicy :=
                             if r.base.kind != StandingKind then r.approvedChangePolicy
                             else Some(if live.Some? then live.value.changePolicy.Or(PolicyChat) else PolicyChat))
  {
    hide CodeOf;
  }

  // A disclosure, by its code, at a terminal or in the app, for the same binding.
  lemma DisclosureGoesThroughExactly(r: Record, binding: DisclosureBinding, answer: string, channel: Via,
                                     config: Option<Config>, now: int)
    requires Sound(r) && !AnomalousDisclosure(r, now) && r.base.kind == DisclosureKind
    ensures var d := Decided(r, ApproveDisclosure(binding, answer, channel), config, now);
            && (d.Put? && d.next.state == Approved <==>
                  && r.state == Pending && InForce(r, now) && (channel == Terminal || channel == App)
                  && r.base.disclosure == Some(binding) && r.challengeHash == Some(CodeOf(answer)))
            && (d.Put? && d.next.state == Approved ==>
                  d.next == r.(state := Approved, approvedVia := Some(channel), approvedAt := At(now),
                               usableUntil := At(now + 24 * 60 * MINUTE_MS), approvedDigest := Some(binding.digest),
                               challengeHash := None))
  {
    var act := ApproveDisclosure(binding, answer, channel);
    var o := OpenRecord(r, act, config, now);
    ActsExactly(r, act, config, now);
    SameIsEqual(r, binding);
    DisclosureApprovedExactly(o.current, o.outcome, binding, answer, channel, now);
    hide Sound, OpenRecord, InForce, CodeOf, SameDisclosureBinding;
  }

  lemma SameIsEqual(r: Record, binding: DisclosureBinding)
    requires Sound(r) && r.base.kind == DisclosureKind
    ensures r.base.disclosure.Some?
    ensures SameDisclosureBinding(r.base.disclosure.value, binding) <==> r.base.disclosure == Some(binding)
  {
    hide StrictlyIncreasing, VersionsFit;
  }

  // A question is answered once, while it waits and nothing hinders it.
  lemma AnswerGoesThroughExactly(r: Record, via: AnswerVia, saved: Answer, config: Option<Config>, now: int)
    requires Sound(r) && r.base.kind == DownloadKind
    ensures var d := Decided(r, AnswerDownload(via, saved), config, now);
            && (d.Put? <==> r.state == Pending && Unhindered(r, config, now))
            && (d.Put? ==>
                  d.next == r.(state := Approved, approvedVia := Some(via), answer := Some(saved),
                               approvedDigest := Some(AnswerDigest(r.bindingDigest, saved))))
  {
    var act := AnswerDownload(via, saved);
    var o := OpenRecord(r, act, config, now);
    ActsExactly(r, act, config, now);
    if o.outcome.error.None? { AnsweredExactly(r, o.outcome, via, saved); }
    hide Sound, OpenRecord, Unhindered, AnswerDigest, DownloadDigest;
  }

  // Revoking ends whatever is in force, waiting or approved, under any configuration or none: for the reason given, or the
  // one the configuration had already; and leaves everything else as reading makes it.
  lemma RevokeEndsExactly(r: Record, reason: string, expecting: Expect, config: Option<Config>, now: int)
    requires Sound(r)
    ensures var act := Revoke(reason, expecting);
            var ended := if r.base.kind == DisclosureKind || config.None? then None else EndedBy(config.value, r, false);
            if InForce(r, now)
            then StoredBy(r, act, config, now) ==
                 r.(state := Revoked, reason := Some(ended.Or(reason)), revokedAt := At(now), challengeHash := None)
            else Decided(r, act, config, now).Keep? && StoredBy(r, act, config, now) == Derive(r, now)
  {
    hide Sound, Derive, InForce, EndedBy, StoredBy, Decided;
    if InForce(r, now) {
      RevokesInForce(r, reason, expecting, config, now);
    } else {
      RevokesNothing(r, reason, expecting, config, now);
    }
  }

  lemma RevokesInForce(r: Record, reason: string, expecting: Expect, config: Option<Config>, now: int)
    requires Sound(r) && InForce(r, now)
    ensures var ended := if r.base.kind == DisclosureKind || config.None? then None else EndedBy(config.value, r, false);
            StoredBy(r, Revoke(reason, expecting), config, now) ==
            r.(state := Revoked, reason := Some(ended.Or(reason)), revokedAt := At(now), challengeHash := None)
  {
    hide Sound, Derive, InForce, EndedBy, OpenRecord;
    var act := Revoke(reason, expecting);
    DerivedExactly(r, now);
    InForceIsActive(r, now);
    if r.base.kind != DisclosureKind && config.Some? {
      EndedExactly(r, act, config.value, now);
    } else {
      NothingDerives(r, act, config, now);
    }
  }

  lemma InForceIsActive(r: Record, now: int)
    requires InForce(r, now)
    ensures r.Active()
  {
  }

  lemma RevokesNothing(r: Record, reason: string, expecting: Expect, config: Option<Config>, now: int)
    requires Sound(r) && !InForce(r, now)
    ensures var act := Revoke(reason, expecting);
            Decided(r, act, config, now).Keep? && StoredBy(r, act, config, now) == Derive(r, now)
  {
    hide Sound, Derive, InForce, Classify;
    DerivedExactly(r, now);
    RevokesActive(Derive(r, now), Revoke(reason, expecting), GateOf(config, Derive(r, now).base), now);
  }

  lemma NothingDerives(r: Record, act: Act, config: Option<Config>, now: int)
    requires Derive(r, now) == r && r.Active() && (r.base.kind == DisclosureKind || config.None?)
    ensures OpenRecord(r, act, config, now).current == r
    ensures act.NarrowStanding? ==> OpenRecord(r, act, config, now).outcome.error.None?
  {
    hide Derive, IsClaimable;
  }

  // A standing approval in force is narrowed to less of what is in force: the narrowing kept, and nothing else changed.
  lemma NarrowingGoesThroughExactly(r: Record, owner: string, asked: Narrowing, config: Option<Config>, now: int)
    requires Sound(r) && r.base.kind == StandingKind
    ensures r.base.standing.Some?
    ensures var s := r.base.standing.value;
            var d := Decided(r, NarrowStanding(owner, asked), config, now);
            && (d.Put? <==>
                  && InForce(r, now) && (config.Some? ==> EndedBy(config.value, r, false).None?)
                  && OnlyLess(s, r.narrowed, asked))
            && (d.Put? ==>
                  && d.next.narrowed.Some? && d.next == r.(narrowed := d.next.narrowed)
                  && StandingDays(s, d.next.narrowed) == asked.expiresDays.Or(StandingDays(s, r.narrowed))
                  && forall use ::
                       Covers(s, d.next.narrowed, use) <==>
                         && Covers(s, r.narrowed, use)
                         && (asked.keep.Some? ==> use.content in asked.keep.value)
                         && (asked.places.Some? ==> use.channel in asked.places.value))
  {
    hide Sound, InForce, EndedBy, OnlyLess, Covers, StandingDays, StandingBindingOk, NarrowingOk, Decided;
    StandingIsOk(r);
    NarrowsExactly(r, owner, asked, config, now);
    if OnlyLess(r.base.standing.value, r.narrowed, asked) { FurtherIs(r.base.standing.value, r.narrowed, asked); }
  }

  // What goes through of a narrowing, and what is then stored.
  lemma NarrowsExactly(r: Record, owner: string, asked: Narrowing, config: Option<Config>, now: int)
    requires Sound(r) && r.base.kind == StandingKind && r.base.standing.Some? && StandingBindingOk(r.base.standing.value)
    ensures var s := r.base.standing.value;
            var d := Decided(r, NarrowStanding(owner, asked), config, now);
            && (d.Put? <==>
                  && InForce(r, now) && (config.Some? ==> EndedBy(config.value, r, false).None?)
                  && OnlyLess(s, r.narrowed, asked))
            && (d.Put? ==>
                  && NarrowedFurther(s, r.narrowed, asked).Narrower?
                  && d.next == r.(narrowed := Some(NarrowedFurther(s, r.narrowed, asked).narrowing)))
  {
    hide Sound, OpenRecord, Derive, InForce, EndedBy, OnlyLess, NarrowedFurther, StandingBindingOk;
    var act := NarrowStanding(owner, asked);
    DerivedExactly(r, now);
    NarrowedExactly(r.base.standing.value, r.narrowed, asked);
    if InForce(r, now) {
      if config.Some? { EndedExactly(r, act, config.value, now); } else { NothingDerives(r, act, config, now); }
    } else {
      LapsedIsRefused(r, act, config, now);
    }
  }

  lemma FurtherIs(s: StandingBinding, narrowed: Option<Narrowing>, asked: Narrowing)
    requires StandingBindingOk(s) && NarrowingOk(s, narrowed) && OnlyLess(s, narrowed, asked)
    ensures NarrowedFurther(s, narrowed, asked).Narrower?
    ensures var further := NarrowedFurther(s, narrowed, asked).narrowing;
            && StandingDays(s, Some(further)) == asked.expiresDays.Or(StandingDays(s, narrowed))
            && forall use ::
                 Covers(s, Some(further), use) <==>
                   && Covers(s, narrowed, use)
                   && (asked.keep.Some? ==> use.content in asked.keep.value)
                   && (asked.places.Some? ==> use.channel in asked.places.value)
  {
    hide StandingBindingOk, NarrowingOk, OnlyLess, NarrowedFurther, Covers, StandingDays;
    NarrowedExactly(s, narrowed, asked);
    var further := NarrowedFurther(s, narrowed, asked).narrowing;
    forall use
      ensures Covers(s, Some(further), use) <==>
              && Covers(s, narrowed, use) && (asked.keep.Some? ==> use.content in asked.keep.value)
              && (asked.places.Some? ==> use.channel in asked.places.value)
    {
      NarrowingOnlyTakesAway(s, narrowed, asked, use);
    }
    NarrowingOnlyTakesAway(s, narrowed, asked, StandingUse("", "", Plain("")));
  }

  lemma StandingIsOk(r: Record)
    requires Sound(r) && r.base.kind == StandingKind
    ensures r.base.standing.Some? && StandingBindingOk(r.base.standing.value) && NarrowingOk(r.base.standing.value, r.narrowed)
  {
    hide BindingDigestOf;
  }

  // ---------- a send under way ----------

  // A renewal moves the lease of a send still under way to now, if that is later; and touches nothing else.
  lemma RenewalExactly(r: Record, token: nat, config: Option<Config>, now: int)
    requires Sound(r) && r.base.kind == SendKind
    ensures var d := Decided(r, Heartbeat(token), config, now);
            && (d.Put? <==>
                  r.state == Sending && LastRenewed(r).ms < now < LastRenewed(r).ms + 2 * MINUTE_MS)
            && (d.Put? ==> d.next == r.(sendingHeartbeatAt := At(now)))
  {
    hide Sound, Derive, InForce, EndOf, OpenRecord, LapsesAt;
    DerivedExactly(r, now);
    if r.Active() && !InForce(r, now) { LapsedIsExpired(r, now); }
    SoundTimes(r);
    LookKeepsState(r, Heartbeat(token), config, now);
  }

  lemma LookKeepsState(r: Record, act: Act, config: Option<Config>, now: int)
    requires act.Heartbeat?
    ensures OpenRecord(r, act, config, now).current == Derive(r, now)
  {
    hide Derive, Classify;
  }

  // ---------- what is refused, and as what ----------

  // Before a record is even looked for: what no such act may ever do.
  lemma RefusedEarlyExactly(act: Act)
    ensures EarlyRefusal(act) ==
            if (act.IssueChallenge? || act.Approve?) && act.kind == DisclosureKind then Some(ApprovalRequired)
            else if act.Approve? && act.via == App && act.kind != ChangeKind then Some(ApprovalRequired)
            else if act.ClaimForDisclosure? && act.deadlineMs.Some? && act.deadlineMs.value <= 0 then Some(BadData)
            else if act.Complete? && act.outcome == Accepted("") then Some(BadData)
            else None
  {
  }

  // How an act on a record is refused, by what reading makes of it.
  function RefusedAs(r: Record, config: Option<Config>, now: int): Option<ErrorCode>
    requires Sound(r)
  {
    if InForce(r, now) then
      if r.base.kind == DisclosureKind then None
      else if config.None? then Some(ConfigMissing)
      else
        var ended := EndedBy(config.value, r, true);
        if ended.None? then None else Some(if ended == Some(NEVER_REASON) then PolicyIsNever else ApprovalVoid)
    else if r.Active() || r.state == Expired then Some(ApprovalExpired)
    else if r.state == Sending && LastRenewed(r).At? && now < LastRenewed(r).ms + 2 * MINUTE_MS then Some(ApprovalPending)
    else if r.state == Sending || r.state == Unknown then Some(OutcomeUnknown)
    else Some(ApprovalVoid)
  }

  lemma RefusalIsExact(r: Record, act: Act, config: Option<Config>, now: int)
    requires Sound(r) && !AnomalousDisclosure(r, now) && IsActing(act)
    ensures OpenRecord(r, act, config, now).outcome.error == RefusedAs(r, config, now)
  {
    hide Sound, Derive, InForce, EndedBy, OpenRecord, AnomalousDisclosure;
    DerivedExactly(r, now);
    if InForce(r, now) {
      InForceIsActive(r, now);
      if r.base.kind != DisclosureKind && config.Some? {
        EndedExactly(r, act, config.value, now);
      } else {
        NoConfigNoAct(r, act, config, now);
        if r.base.kind != DisclosureKind { MissingIsSaid(r, act, now); }
      }
    } else {
      if r.base.kind == DisclosureKind { DisclosuresAreNotSent(r, now); }
      if r.Active() { LapsedIsExpired(r, now); }
      EndedStateSays(r, act, config, now);
    }
  }

  lemma LapsedIsExpired(r: Record, now: int)
    requires Sound(r) && r.Active() && !InForce(r, now)
    ensures Derive(r, now).state == Expired
  {
    hide Sound, Derive, EndOf;
    DerivedExactly(r, now);
  }

  lemma DisclosuresAreNotSent(r: Record, now: int)
    requires Sound(r) && r.base.kind == DisclosureKind
    ensures Derive(r, now).state != Sending && Derive(r, now).state != Unknown
  {
    hide BindingDigestOf;
  }

  lemma MissingIsSaid(r: Record, act: Act, now: int)
    requires IsActing(act) && Derive(r, now) == r && r.Active() && r.base.kind != DisclosureKind
    ensures OpenRecord(r, act, None, now).outcome.error == Some(ConfigMissing)
  {
    hide Derive;
  }

  lemma EndedStateSays(r: Record, act: Act, config: Option<Config>, now: int)
    requires !Derive(r, now).Active() && (r.base.kind == DisclosureKind ==> Derive(r, now).state != Sending)
    requires r.base.kind == DisclosureKind ==> Derive(r, now).state != Unknown
    ensures OpenRecord(r, act, config, now).outcome.error ==
            Some(match Derive(r, now).state
                 case Expired => ApprovalExpired
                 case Sending => ApprovalPending
                 case Unknown => OutcomeUnknown
                 case _ => ApprovalVoid)
  {
    DeriveKeepsBase(r, now);
    hide Derive, LiveNever, IsClaimable;
  }

  // ---------- a use's standing approval ----------

  // A use's claim finds its standing approval covering it exactly when that is on record under its id, for the account the
  // use is for, approved, in force and left standing by the configuration, and its content and place are still permitted.
  lemma StandingCoversExactly(found: Option<Stored>, child: Record, config: Option<Config>, now: int)
    requires found.Some? && found.value.V2? ==> Sound(found.value.record) && !AnomalousDisclosure(found.value.record, now)
    requires child.base.standingId.Some? && child.base.standingUse.Some?
    ensures ParentProblem(child, Open(found, Inspect(Claiming, Expect(Some(StandingKind), None, Some(child.base.inboxId))),
                                      config, now)).None? <==>
            && found.Some? && found.value.V2?
            && var p := found.value.record;
               && p.base.kind == StandingKind && p.base.inboxId == child.base.inboxId
               && p.state == Approved && Unhindered(p, config, now)
               && p.base.standing.Some? && Covers(p.base.standing.value, p.narrowed, child.base.standingUse.value)
  {
    hide Sound, OpenRecord, Derive, Unhindered, Covers, AnomalousDisclosure;
    var act := Inspect(Claiming, Expect(Some(StandingKind), None, Some(child.base.inboxId)));
    if found.Some? && found.value.V2? {
      var p := found.value.record;
      ActsExactly(p, act, config, now);
      if OpenRecord(p, act, config, now).outcome.error.None? { UnrefusedIsItself(p, act, config, now); }
      if Unhindered(p, config, now) { UnhinderedIsDerived(p, config, now); }
    }
  }

  lemma UnhinderedIsDerived(r: Record, config: Option<Config>, now: int)
    requires Sound(r) && Unhindered(r, config, now)
    ensures Derive(r, now) == r && r.Active()
  {
    hide Sound, Derive, Stands;
    DerivedExactly(r, now);
  }

  lemma UnrefusedIsItself(r: Record, act: Act, config: Option<Config>, now: int)
    requires Sound(r) && OpenRecord(r, act, config, now).outcome.error.None?
    ensures OpenRecord(r, act, config, now).outcome.record == Derive(r, now)
    ensures Derive(r, now).Active() ==> Derive(r, now) == r
  {
    hide Sound, Derive, Classify, EndOf;
    DerivedIsKnown(r, now);
    UnrefusedIsAsRead(Derive(r, now), ActionOf(act), GateOf(config, Derive(r, now).base), now);
  }

  lemma UnrefusedIsAsRead(read: Record, action: Action, live: Option<LiveGate>, now: int)
    requires Classify(read, action, live, now).error.None?
    ensures Classify(read, action, live, now).record == read
  {
    hide LiveNever, IsClaimable, DerivedRevocation, OwnerIsRemoved;
  }

  // ---------- what a look shows ----------

  // What is shown of a record in force: its state, a question answered as answered; why the configuration would end it, or
  // that sending is turned off; and that its account is gone, if it is.
  lemma ShownExactly(r: Record, config: Config, now: int)
    requires Sound(r) && InForce(r, now) && r.base.kind != DisclosureKind
    ensures var o := OpenRecord(r, Inspect(Inspecting, Expect(None, None, None)), Some(config), now);
            var ended := EndedBy(config, r, false);
            && (ended.None? ==>
                  && o.outcome.state == (if r.base.kind == DownloadKind && r.state == Approved then Answered else Stated(r.state))
                  && o.outcome.reason == (if TurnedOff(config, r.base) then Some(NEVER_NOTICE) else r.reason)
                  && !o.outcome.ownerRemoved)
            && (ended.Some? ==>
                  && o.outcome.state == Stated(Revoked) && o.outcome.reason == ended && !o.outcome.claimable
                  && (o.outcome.ownerRemoved <==> r.base.inboxId !in config.owners && r.base.ownerScope == OwnerScoped))
  {
    var act := Inspect(Inspecting, Expect(None, None, None));
    DerivedExactly(r, now);
    RevocationSaid(config, r, false);
    GateSays(config, r);
    ShownAs(r, LiveGateOf(config, r.base), now);
    hide Sound, Derive, InForce, LiveGateOf, DerivedRevocation, Classify, TurnedOff, Tightened, EpochIs, OwnerIsRemoved, LiveNever;
  }

  lemma ShownAs(r: Record, live: LiveGate, now: int)
    requires r.Active() && r.base.kind != DisclosureKind
    ensures var revocation := DerivedRevocation(r, Some(live), false);
            var outcome := Classify(r, Inspecting, Some(live), now);
            && outcome.ownerRemoved == OwnerIsRemoved(r, Some(live))
            && (revocation.None? ==>
                  && outcome.state == (if r.base.kind == DownloadKind && r.state == Approved then Answered else Stated(r.state))
                  && outcome.reason == (if LiveNever(r, Some(live)) then Some(NEVER_NOTICE) else r.reason))
            && (revocation.Some? ==> outcome.state == Stated(Revoked) && outcome.reason == revocation && !outcome.claimable)
  {
    hide LiveNever, IsClaimable, DerivedRevocation, OwnerIsRemoved;
  }

  // ---------- which records an act is about ----------

  // What a look or a revocation was told to look for, and whether a record is that; a disclosure is asked for by its kind
  // alone.
  predicate IsAskedFor(e: Expect, kind: Kind, channel: string, owner: string) {
    && (e.kind == None || e.kind == Some(kind))
    && (e.channel == None || (kind != DisclosureKind && e.channel == Some(channel)))
    && (e.owner == None || (kind != DisclosureKind && e.owner == Some(owner)))
  }

  // Every other act is for one kind, and a send's claim and a narrowing for one account.
  predicate IsAbout(act: Act, kind: Kind, channel: string, owner: string) {
    match act
    case Inspect(_, expecting) => IsAskedFor(expecting, kind, channel, owner)
    case Revoke(_, expecting) => IsAskedFor(expecting, kind, channel, owner)
    case IssueChallenge(k, _) => kind == k
    case Approve(k, _, _, _) => kind == k
    case ClaimForSend(inboxId, _, _, _, _) => kind == SendKind && owner == inboxId
    case NarrowStanding(account, _) => kind == StandingKind && owner == account
    case Heartbeat(_) | Complete(_, _) => kind == SendKind
    case ClaimForChange(_, _, _) => kind == ChangeKind
    case ClaimForDownload(_, _) | AnswerDownload(_, _) => kind == DownloadKind
    case IssueDisclosureChallenge(_) | ApproveDisclosure(_, _, _) | ClaimForDisclosure(_, _) => kind == DisclosureKind
  }

  // The account an act names, if it names one.
  predicate NamesNoOwner(act: Act) {
    match act
    case Inspect(_, expecting) => expecting.owner == None
    case Revoke(_, expecting) => expecting.owner == None
    case ClaimForSend(_, _, _, _, _) | NarrowStanding(_, _) => false
    case _ => true
  }

  // A record an act is not about is as if it were not there. One this release did not write, or that its integrity check
  // refuses, is void; and if whose it is cannot be told, it is not there for whoever names an account.
  lemma FoundExactly(found: Option<Stored>, act: Act, config: Option<Config>, now: int)
    ensures found.None? ==> Open(found, act, config, now) == Refusal(NotFound)
    ensures found.Some? && found.value.V2? ==>
              var r := found.value.record;
              Open(found, act, config, now) ==
              if IsAbout(act, r.base.kind, r.base.channel, r.base.inboxId) then OpenRecord(r, act, config, now)
              else Refusal(NotFound)
    ensures found.Some? && found.value.Unreadable? ==>
              Open(found, act, config, now) == Refusal(if NamesNoOwner(act) then ApprovalVoid else NotFound)
    ensures found.Some? && found.value.Corrupt? ==>
              var r := found.value.record;
              var trusted := found.value.why.Invalid? && found.value.why.ownerTrusted;
              Open(found, act, config, now) ==
              Refusal(if (if trusted then IsAbout(act, r.base.kind, r.base.channel, r.base.inboxId) else NamesNoOwner(act))
                      then ApprovalVoid else NotFound)
  {
    hide OpenRecord;
  }

  lemma LegacyIsVoid(l: LegacyRecord, act: Act, config: Option<Config>, now: int)
    ensures Open(Some(Legacy(l)), act, config, now) ==
            Refusal(if IsAbout(act, l.kind, "", l.inboxId)
                       && ((act.Inspect? || act.Revoke?) ==> act.expecting.channel == None)
                    then ApprovalVoid else NotFound)
  {
  }
}
