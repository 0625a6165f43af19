/**
  How one record moves: nothing it was made with changes, a claim is entered once and never left backwards, evidence is
  never replaced, and what an owner's removal or an epoch ended is never claimed.
  */
module RecordMoves {
  import opened Wrappers
  import opened Records
  import opened ApprovalBinding
  import opened ApprovalValidate
  import opened ApprovalOutcome
  import opened ApprovalTransitions
  import opened Standing
  import opened RecordInvariant

  // Past a claim: a send under way or over, or anything used.
  predicate PastClaim(state: State) {
    state == Sending || state == Used || state == Failed || state == Unknown
  }

  predicate Stays(before: State, after: State) {
    match before
    case Pending => true
    case Approved => after != Pending
    case Sending => PastClaim(after)
    case Unknown => after == Unknown || after == Used || after == Failed
    case _ => after == before
  }

  // One locked step of a record, at a clock reading `now`.
  predicate Moves(r: Record, next: Record, now: int) {
    && next.base == r.base && next.bindingDigest == r.bindingDigest
    && next.createdAt == r.createdAt && next.expiresAt == r.expiresAt
    && Stays(r.state, next.state)
    && (r.approvedVia.Some? ==>
          next.approvedVia == r.approvedVia && next.approvedAt == r.approvedAt && next.answer == r.answer)
    && (next.approvedAt == r.approvedAt || next.approvedAt == At(now))
    && (r.state == Sending && next.state == Sending ==> !Later(r.Renewed(), next.Renewed()))
  }

  lemma PendingHasNoEvidence(r: Record)
    requires Sound(r) && r.state == Pending
    ensures r.approvedVia.None? && r.approvedAt == NoStamp
  {
  }

  predicate MovesTo(cur: Record, d: Decision, now: int) {
    d.Put? ==> Moves(cur, d.next, now)
  }

  lemma ApproveMoves(cur: Record, outcome: Outcome, live: Option<LiveGate>, kind: Kind, via: ApprovalVia,
                     draft: LiveDraft, answer: string, now: int)
    requires Sound(cur)
    ensures MovesTo(cur, DecideApprove(cur, outcome, live, kind, via, draft, answer, now), now)
  {
    if cur.state == Pending { PendingHasNoEvidence(cur); }
    hide Sound;
  }

  lemma ApproveDisclosureMoves(cur: Record, outcome: Outcome, binding: DisclosureBinding, answer: string, channel: Via,
                               now: int)
    requires Sound(cur)
    ensures MovesTo(cur, DecideApproveDisclosure(cur, outcome, binding, answer, channel, now), now)
  {
    if cur.state == Pending { PendingHasNoEvidence(cur); }
    hide Sound, SameDisclosureBinding;
  }

  lemma AnswerMoves(cur: Record, outcome: Outcome, via: AnswerVia, answer: Answer, now: int)
    requires Sound(cur) && (outcome.error.None? ==> cur.Active())
    ensures MovesTo(cur, DecideAnswer(cur, outcome, via, answer), now)
  {
    if cur.state == Pending { PendingHasNoEvidence(cur); }
    hide Sound;
  }

  lemma ClaimMoves(cur: Record, outcome: Outcome, live: Option<LiveGate>, act: Act, parentProblem: Option<string>,
                   now: int)
    requires act.ClaimForSend? || act.ClaimForChange? || act.ClaimForDownload? || act.ClaimForDisclosure?
    requires outcome.error.None? ==> cur.Active()
    ensures MovesTo(cur, Decide(act, cur, outcome, live, parentProblem, now), now)
  {
    hide SameExpectation, SameDisclosureBinding, StricterPolicy, ChangeDigest, DownloadDigest;
  }

  lemma DecideMoves(cur: Record, outcome: Outcome, live: Option<LiveGate>, act: Act, parentProblem: Option<string>,
                    now: int)
    requires Sound(cur)
    requires (ActionOf(act) == Approving || ActionOf(act) == Claiming) && outcome.error.None? ==> cur.Active()
    ensures MovesTo(cur, Decide(act, cur, outcome, live, parentProblem, now), now)
  {
    hide Sound, DecideApprove, DecideApproveDisclosure, DecideAnswer, DecideClaimForSend, DecideClaimForChange,
         DecideClaimForDownload, DecideClaimForDisclosure, NarrowedFurther;
    match act {
      case Approve(kind, via, draft, answer) => ApproveMoves(cur, outcome, live, kind, via, draft, answer, now);
      case ApproveDisclosure(binding, answer, channel) =>
        ApproveDisclosureMoves(cur, outcome, binding, answer, channel, now);
      case AnswerDownload(via, answer) => AnswerMoves(cur, outcome, via, answer, now);
      case ClaimForSend(_, _, _, _, _) => ClaimMoves(cur, outcome, live, act, parentProblem, now);
      case ClaimForChange(_, _, _) => ClaimMoves(cur, outcome, live, act, parentProblem, now);
      case ClaimForDownload(_, _) => ClaimMoves(cur, outcome, live, act, parentProblem, now);
      case ClaimForDisclosure(_, _) => ClaimMoves(cur, outcome, live, act, parentProblem, now);
      case _ =>
    }
  }

  // ---------- claims ----------

  // What an outcome that calls a record claimable says of it, and of the configuration it was read under.
  lemma ClaimableMeans(r: Record, act: Act, config: Option<Config>, now: int)
    requires Sound(r) && OpenRecord(r, act, config, now).outcome.claimable
    ensures var o := OpenRecord(r, act, config, now);
            && o.current.Active() && o.current == r
            && (r.base.kind == DisclosureKind ==> r.state == Approved)
            && (r.base.kind != DisclosureKind ==> config.Some? && o.live.Some? && IsClaimable(r, o.live.value)
                                                  && InReach(r.base, config.value))
  {
    DeriveKeepsBase(r, now);
    if Derive(r, now).Active() { ActiveIsInWindow(r, now); }
    hide Sound, Derive, InWindow, IsClaimable, GoverningChangePolicy;
  }

  // The owner is still there and no epoch has moved on: what an owner's removal and `never` end, for good.
  predicate InReach(b: Base, config: Config) {
    && (b.ownerScope == OwnerScoped ==> b.inboxId in config.owners)
    && (b.ownerScope == OwnerScoped && (b.kind == SendKind || b.kind == StandingKind) ==>
          b.sendEpoch.Or(0) == SendEpochOf(config, b.inboxId))
    && (b.kind == StandingKind || IsChildBase(b) ==> b.standingEpoch == Some(config.standingEpoch))
  }

  predicate IsClaimAct(act: Act) {
    act.ClaimForSend? || act.ClaimForChange? || act.ClaimForDownload? || act.ClaimForDisclosure?
  }

  // Who has to have decided before it is claimed: a person, outside the chat.
  predicate NeedsPerson(b: Base) {
    match b.kind
    case SendKind => b.route != Some(ChatRoute)
    case ChangeKind | DownloadKind => b.requiredPolicy != PolicyChat
    case DisclosureKind => true
    case StandingKind => false
  }

  predicate Warranted(r: Record) {
    PastClaim(r.state) && NeedsPerson(r.base) ==> r.approvedVia.Some?
  }

  lemma ApprovedHasEvidence(r: Record)
    requires Sound(r) && r.state == Approved
    ensures r.approvedVia.Some?
  {
  }

  // Only a claim enters a claimed state, from an active record its outcome does not refuse; every record it enters is
  // warranted; and it is made under the epochs the record was made under.
  lemma ClaimIsWarranted(r: Record, act: Act, config: Option<Config>, parentProblem: Option<string>, now: int)
    requires Sound(r) && !AnomalousDisclosure(r, now)
    requires ExpectOf(act).kind.Some? ==> ExpectOf(act).kind == Some(r.base.kind)
    ensures var o := OpenRecord(r, act, config, now);
            var d := Decide(act, o.current, o.outcome, o.live, parentProblem, now);
            d.Put? && PastClaim(d.next.state) && !PastClaim(o.current.state) ==>
              && IsClaimAct(act) && o.current == r && r.Active() && Warranted(d.next)
              && (r.base.kind != DisclosureKind ==> config.Some? && InReach(r.base, config.value))
  {
    hide Sound, OpenRecord, Decide, InWindow, AnomalousDisclosure, InReach, IsClaimable, Warranted;
    var o := OpenRecord(r, act, config, now);
    var d := Decide(act, o.current, o.outcome, o.live, parentProblem, now);
    if o.outcome.claimable { ClaimableMeans(r, act, config, now); }
    if r.state == Approved { ApprovedHasEvidence(r); }
    OpenedActive(r, act, config, now);
    if IsClaimAct(act) && o.outcome.error.None? {
      UnrefusedInReach(r, act, config, now);
      ClaimDecisionWarranted(o.current, o.outcome, o.live, act, parentProblem, now);
    } else {
      OtherActsClaimNothing(o.current, o.outcome, o.live, act, parentProblem, now);
    }
  }

  lemma UnrefusedInReach(r: Record, act: Act, config: Option<Config>, now: int)
    requires Sound(r) && !AnomalousDisclosure(r, now)
    requires IsClaimAct(act) && OpenRecord(r, act, config, now).outcome.error.None?
    ensures var o := OpenRecord(r, act, config, now);
            && o.current == r && r.Active()
            && (r.base.kind != DisclosureKind ==> config.Some? && InReach(r.base, config.value))
            && (r.base.kind != DisclosureKind && o.outcome.claimable ==> IsClaimable(r, o.live.value))
  {
    OpenedActive(r, act, config, now);
    hide Sound, Derive, AnomalousDisclosure, InWindow, Classify;
    DeriveKeepsBase(r, now);
    var live := GateOf(config, r.base);
    RevokesActive(Derive(r, now), act, live, now);
    if Derive(r, now).Active() { ActiveIsInWindow(r, now); }
    if r.base.kind != DisclosureKind { UnrefusedIsReached(r, act, config, now); }
  }

  // A classification for a claim that refuses nothing: the gate is there, and the record in its reach.
  lemma UnrefusedIsReached(r: Record, act: Act, config: Option<Config>, now: int)
    requires r.base.kind != DisclosureKind && r.Active() && ActionOf(act) == Claiming
    requires Classify(r, ActionOf(act), GateOf(config, r.base), now).error.None?
    ensures config.Some? && InReach(r.base, config.value)
    ensures var outcome := Classify(r, ActionOf(act), GateOf(config, r.base), now);
            outcome.claimable ==> outcome.record == r && IsClaimable(r, LiveGateOf(config.value, r.base))
  {
    hide IsClaimable, GoverningChangePolicy;
  }

  lemma ClaimDecisionWarranted(cur: Record, outcome: Outcome, live: Option<LiveGate>, act: Act,
                               parentProblem: Option<string>, now: int)
    requires IsClaimAct(act) && ExpectOf(act).kind == Some(cur.base.kind) && cur.Active()
    requires outcome.claimable && cur.base.kind != DisclosureKind ==> live.Some? && IsClaimable(cur, live.value)
    requires cur.state == Approved ==> cur.approvedVia.Some?
    ensures var d := Decide(act, cur, outcome, live, parentProblem, now);
            d.Put? && PastClaim(d.next.state) ==> Warranted(d.next)
  {
    hide SameExpectation, SameDisclosureBinding, ChangeDigest, DownloadDigest;
  }

  lemma OtherActsClaimNothing(cur: Record, outcome: Outcome, live: Option<LiveGate>, act: Act,
                              parentProblem: Option<string>, now: int)
    requires IsClaimAct(act) ==> outcome.error.Some?
    ensures var d := Decide(act, cur, outcome, live, parentProblem, now);
            d.Put? && PastClaim(d.next.state) ==> PastClaim(cur.state)
  {
    hide SameExpectation, SameDisclosureBinding, ChangeDigest, DownloadDigest, NarrowedFurther;
  }

  // A look that reads a record as expired or revoked has written so, or saw the owner or the epoch it belongs to gone.
  lemma EndedOrOutOfReach(r: Record, act: Act, config: Option<Config>, now: int)
    requires Sound(r) && (act.Heartbeat? ==> r.base.kind == SendKind)
    requires var state := OpenRecord(r, act, config, now).outcome.record.state; state == Expired || state == Revoked
    ensures var o := OpenRecord(r, act, config, now);
            || o.current.state == Expired || o.current.state == Revoked
            || (o.current.Active() && o.current == r && r.base.kind != DisclosureKind
                && config.Some? && !InReach(r.base, config.value))
  {
    DeriveKeepsBase(r, now);
    DerivedIsKnown(r, now);
    hide Sound, Derive, IsClaimable, GoverningChangePolicy, StricterPolicy;
  }

  lemma DerivedIsKnown(r: Record, now: int)
    ensures Derive(r, now).Active() ==> Derive(r, now) == r
  {
  }
}
