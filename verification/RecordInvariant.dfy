/**
  Every record the store writes, it also accepts: creation, derivation and each decision keep `Sound`, which implies
  `validateV2` answers that the record is valid. Each statement is exact: where a caller can make the store write a
  record its own validator refuses, the condition says so, in both directions.
  */
module RecordInvariant {
  import opened Wrappers
  import opened Records
  import opened ApprovalBinding
  import opened ApprovalValidate
  import opened ApprovalOutcome
  import opened ApprovalTransitions
  import opened Standing
  import opened Texts

  // Valid, and in order.
  predicate Sound(r: Record) {
    WellFormed(r) && Orderly(r)
  }

  // What creation and the decisions guarantee beyond what is checked: a waiting record has attempts left, and a route is
  // what the stored policy asked for.
  predicate Orderly(r: Record) {
    && (r.base.kind == DisclosureKind ==> DisclosureShape(r))
    && 0 <= r.challengeAttempts
    && (r.state == Pending ==> r.challengeAttempts < MAX_CHALLENGE_ATTEMPTS && r.approvedAt == NoStamp)
    && (r.base.kind == ChangeKind ==>
          (r.base.route == Some(ChatRoute) <==> r.base.requiredPolicy == PolicyChat))
    && (r.base.kind == SendKind && !r.IsChild() ==>
          (r.base.route == Some(ConfirmRoute) <==> r.base.requiredPolicy == PolicyConfirm))
  }

  lemma SoundDecodes(r: Record, fileId: string)
    requires Sound(r) && r.base.approvalId == fileId
    ensures Decode(fileId, RecordFile(r)) == V2(r)
  {
    ValidIsWellFormed(r, fileId);
  }

  // What is in order reads back as itself exactly when it is well formed: exactly when the integrity check accepts it.
  lemma OrderlyDecodes(r: Record)
    requires Orderly(r)
    ensures Decode(r.base.approvalId, RecordFile(r)) == V2(r) <==> WellFormed(r)
    ensures ValidateV2(r, r.base.approvalId) == Valid <==> WellFormed(r)
  {
    ValidIsWellFormed(r, r.base.approvalId);
    assert r.base.kind == DisclosureKind ==> DisclosureShape(r);
    hide WellFormed, ValidateV2, Orderly, DisclosureShape;
  }

  // ---------- creation ----------

  predicate PreparedByOk(preparedBy: Option<string>) {
    preparedBy.Some? ==> IsConnectionId(preparedBy.value)
  }

  lemma CreateSound(input: SendInput, id: string, preparedBy: Option<string>, now: int)
    requires PreparedByOk(preparedBy) && Create(input, id, preparedBy, now).Made?
    ensures Sound(Create(input, id, preparedBy, now).record) <==> input.inboxId != "" && input.sendEpoch >= 0
  {
  }

  // The one demand on whoever prepares a send: else the store writes what its own check refuses.
  lemma SendReadsBack(input: SendInput, id: string, preparedBy: Option<string>, now: int)
    requires PreparedByOk(preparedBy) && Create(input, id, preparedBy, now).Made?
    ensures var r := Create(input, id, preparedBy, now).record;
            && (ValidateV2(r, id) == Valid <==> input.inboxId != "" && input.sendEpoch >= 0)
            && (Decode(id, RecordFile(r)) == V2(r) <==> input.inboxId != "" && input.sendEpoch >= 0)
  {
    var r := Create(input, id, preparedBy, now).record;
    CreateSound(input, id, preparedBy, now);
    assert Orderly(r) && r.base.approvalId == id;
    hide WellFormed, Orderly, Create, Decode, ValidateV2;
    OrderlyDecodes(r);
  }

  lemma CreateChangeSound(channel: string, change: ChangeBinding, policy: ChangePolicy, id: string,
                          preparedBy: Option<string>, now: int)
    requires PreparedByOk(preparedBy) && CreateChange(channel, change, policy, id, preparedBy, now).Made?
    ensures Sound(CreateChange(channel, change, policy, id, preparedBy, now).record)
  {
  }

  lemma CreateDownloadSound(channel: string, download: DownloadBinding, policy: ChangePolicy, id: string,
                            preparedBy: Option<string>, now: int)
    requires PreparedByOk(preparedBy) && CreateDownload(channel, download, policy, id, preparedBy, now).Made?
    ensures Sound(CreateDownload(channel, download, policy, id, preparedBy, now).record) <==> download.targetId != ""
  {
  }

  lemma DownloadReadsBack(channel: string, download: DownloadBinding, policy: ChangePolicy, id: string,
                          preparedBy: Option<string>, now: int)
    requires PreparedByOk(preparedBy) && CreateDownload(channel, download, policy, id, preparedBy, now).Made?
    ensures var r := CreateDownload(channel, download, policy, id, preparedBy, now).record;
            && (ValidateV2(r, id) == Valid <==> download.targetId != "")
            && (Decode(id, RecordFile(r)) == V2(r) <==> download.targetId != "")
  {
    var r := CreateDownload(channel, download, policy, id, preparedBy, now).record;
    CreateDownloadSound(channel, download, policy, id, preparedBy, now);
    assert Orderly(r) && r.base.approvalId == id;
    hide WellFormed, Orderly, CreateDownload, Decode, ValidateV2;
    OrderlyDecodes(r);
  }

  lemma CreateStandingSound(binding: StandingBinding, inboxSub: string, sendEpoch: int, standingEpoch: int, id: string,
                            preparedBy: Option<string>, now: int)
    requires PreparedByOk(preparedBy)
    requires CreateStanding(binding, inboxSub, sendEpoch, standingEpoch, id, preparedBy, now).Made?
    ensures Sound(CreateStanding(binding, inboxSub, sendEpoch, standingEpoch, id, preparedBy, now).record)
  {
  }

  lemma CreateDisclosureSound(binding: DisclosureBinding, id: string, preparedBy: Option<string>, now: int)
    requires PreparedByOk(preparedBy) && CreateDisclosure(binding, id, preparedBy, now).Made?
    ensures Sound(CreateDisclosure(binding, id, preparedBy, now).record)
  {
  }

  lemma MintChildSound(input: UseInput, parentId: string, parent: Outcome, live: Option<LiveGate>,
                       preparedBy: Option<string>, now: int)
    requires PreparedByOk(preparedBy) && MintChild(input, parentId, parent, live, preparedBy, now).Made?
    requires IsApprovalId(parentId) && parentId != input.approvalId && input.inboxId != ""
    ensures Sound(MintChild(input, parentId, parent, live, preparedBy, now).record)
  {
  }

  // ---------- derivation ----------

  // A disclosure seen before it was made or approved.
  predicate AnomalousDisclosure(r: Record, now: int) {
    r.base.kind == DisclosureKind && r.Active() && SeenBeforeMade(r, now)
  }

  lemma DeriveSound(r: Record, now: int)
    requires Sound(r)
    ensures Sound(Derive(r, now)) <==> !AnomalousDisclosure(r, now)
  {
    if Derive(r, now) != r {
      if r.base.kind == DisclosureKind {
        DisclosureExpirySound(r, Derive(r, now));
      } else if r.Active() {
        OrdinaryExpirySound(r, Derive(r, now));
      } else {
        LostSendSound(r);
      }
    }
  }

  lemma DeriveOrderly(r: Record, now: int)
    requires Orderly(r)
    ensures Orderly(Derive(r, now)) && Derive(r, now).base == r.base
  {
  }

  // What derivation writes, the integrity check refuses at exactly one time: of a disclosure seen before it was made or
  // approved.
  lemma DerivedReadsBack(r: Record, now: int)
    requires Sound(r)
    ensures ValidateV2(Derive(r, now), r.base.approvalId) == Valid <==> !AnomalousDisclosure(r, now)
    ensures Decode(r.base.approvalId, RecordFile(Derive(r, now))) == V2(Derive(r, now)) <==> !AnomalousDisclosure(r, now)
  {
    DeriveSound(r, now);
    DeriveOrderly(r, now);
    hide WellFormed, Orderly, Derive, Decode, ValidateV2, AnomalousDisclosure;
    OrderlyDecodes(Derive(r, now));
  }

  // A record to show things on.
  const SOME_SEND := SendInput("gmail", "me", None, "draft", Sha(ContentOf(false, "")), Sha(ContentOf(false, "")), 1,
                               PolicyChat, PolicyChat, Expectation(["a@b"], [], [], "subject"))
  const SOME_ID := "ap_00000000000000000000000000"
  const SOME_BINDING := DisclosureBinding(Sha(ContentOf(false, "")), "intent", RuleActivation,
                                            [DisclosureVersion(RuleV, "rule", 1)])

  lemma SpoiltIsMade()
    ensures IsApprovalId(SOME_ID) && CreateDisclosure(SOME_BINDING, SOME_ID, None, 1000).Made?
  {
    assert SOME_BINDING.versions[0] in SOME_BINDING.versions;
    assert VersionsFit(RuleActivation, SOME_BINDING.versions);
  }

  // Such a record there is: a disclosure prepared at one second, and looked at by a clock set back to zero.
  lemma AClockSetBackSpoilsADisclosure()
    ensures IsApprovalId(SOME_ID) && CreateDisclosure(SOME_BINDING, SOME_ID, None, 1000).Made?
    ensures var r := CreateDisclosure(SOME_BINDING, SOME_ID, None, 1000).record;
            && ValidateV2(r, SOME_ID) == Valid && Decode(SOME_ID, RecordFile(r)) == V2(r)
            && ValidateV2(Derive(r, 0), SOME_ID) != Valid
            && Decode(SOME_ID, RecordFile(Derive(r, 0))) != V2(Derive(r, 0))
  {
    hide WellFormed, Orderly, Derive, Decode, ValidateV2, CanonicalDisclosureBinding, IsApprovalId, BindingDigestOf;
    SpoiltIsMade();
    var r := CreateDisclosure(SOME_BINDING, SOME_ID, None, 1000).record;
    CreateDisclosureSound(SOME_BINDING, SOME_ID, None, 1000);
    OrderlyDecodes(r);
    DerivedReadsBack(r, 0);
  }

  lemma DisclosureExpirySound(r: Record, expired: Record)
    requires Sound(r) && r.base.kind == DisclosureKind && r.Active()
    requires expired == r.(state := Expired, reason := expired.reason, expiredAt := expired.expiredAt)
    requires expired.expiredAt.At?
    ensures Sound(expired) <==> !Later(SinceOf(r), expired.expiredAt)
  {
  }

  lemma OrdinaryExpirySound(r: Record, expired: Record)
    requires Sound(r) && r.base.kind != DisclosureKind && r.Active()
    requires expired == r.(state := Expired, reason := expired.reason, expiredAt := expired.expiredAt)
    requires expired.expiredAt.At?
    requires expired.reason == Some(CLOCK_ANOMALY) || !Later(SinceOf(r), expired.expiredAt)
    ensures Sound(expired)
  {
    assert TimesWellFormed(expired);
    assert EvidenceWellFormed(expired);
  }

  lemma LostSendSound(r: Record)
    requires Sound(r) && r.state == Sending
    ensures Sound(r.(state := Unknown, reason := Some(STALE_LEASE_REASON)))
  {
  }

  // What derivation leaves active is inside its window at that time.
  lemma ActiveIsInWindow(r: Record, now: int)
    requires Sound(r) && Derive(r, now).Active()
    ensures Derive(r, now) == r && InWindow(r, At(now)) && r.createdAt.ms <= now
  {
  }

  lemma DisclosureRevocationSound(r: Record, revoked: Record, now: int)
    requires Sound(r) && r.Active() && InWindow(r, At(now)) && r.base.kind == DisclosureKind
    requires revoked == r.(state := Revoked, reason := revoked.reason, revokedAt := At(now), challengeHash := revoked.challengeHash)
    ensures Sound(revoked)
  {
  }

  lemma OrdinaryRevocationSound(r: Record, revoked: Record, now: int)
    requires Sound(r) && r.Active() && InWindow(r, At(now)) && r.base.kind != DisclosureKind
    requires revoked == r.(state := Revoked, reason := revoked.reason, revokedAt := At(now), challengeHash := revoked.challengeHash)
    ensures Sound(revoked) <==> revoked.reason != Some(CLOCK_ANOMALY)
  {
    assert EvidenceWellFormed(r) <==> EvidenceWellFormed(revoked);
    assert TimesWellFormed(revoked) <==> revoked.reason != Some(CLOCK_ANOMALY);
  }

  lemma RevocationSound(r: Record, reason: string, now: int)
    requires Sound(r) && r.Active() && InWindow(r, At(now))
    ensures Sound(RevokedBy(r, reason, now)) <==> r.base.kind == DisclosureKind || reason != CLOCK_ANOMALY
    ensures Sound(VoidedBy(r, reason, now)) <==> r.base.kind == DisclosureKind || reason != CLOCK_ANOMALY
  {
    hide Sound, InWindow;
    if r.base.kind == DisclosureKind {
      DisclosureRevocationSound(r, RevokedBy(r, reason, now), now);
      DisclosureRevocationSound(r, VoidedBy(r, reason, now), now);
    } else {
      OrdinaryRevocationSound(r, RevokedBy(r, reason, now), now);
      OrdinaryRevocationSound(r, VoidedBy(r, reason, now), now);
    }
  }

  // ---------- a locked transition ----------

  lemma DeriveKeepsBase(r: Record, now: int)
    ensures Derive(r, now).base == r.base
  {
  }

  // A classification revokes only an active record that is no disclosure, and never in the clock anomaly's words.
  lemma RevokesActive(derived: Record, act: Act, live: Option<LiveGate>, now: int)
    ensures var outcome := Classify(derived, ActionOf(act), live, now);
            outcome.revokes ==>
              && derived.Active() && derived.base.kind != DisclosureKind
              && outcome.record == RevokedBy(derived, outcome.record.reason.Or(""), now)
              && outcome.record.reason.Some? && outcome.record.reason != Some(CLOCK_ANOMALY)
  {
    hide LiveNever;
  }

  lemma OpenSound(r: Record, act: Act, config: Option<Config>, now: int)
    requires Sound(r) && !AnomalousDisclosure(r, now)
    ensures Sound(OpenRecord(r, act, config, now).current)
    ensures OpenRecord(r, act, config, now).current.base == r.base
  {
    hide Sound, Derive, Classify, InWindow, AnomalousDisclosure;
    DeriveSound(r, now);
    DeriveKeepsBase(r, now);
    var o := OpenRecord(r, act, config, now);
    RevokesActive(Derive(r, now), act, o.live, now);
    if o.outcome.revokes {
      ActiveIsInWindow(r, now);
      RevocationSound(r, o.outcome.record.reason.value, now);
    }
  }

  // What a classification that refuses nothing, or calls the record claimable, says of it.
  lemma UnrefusedIsActive(derived: Record, act: Act, live: Option<LiveGate>, now: int)
    ensures var outcome := Classify(derived, ActionOf(act), live, now);
            && ((ActionOf(act) == Approving || ActionOf(act) == Claiming) && outcome.error.None?
                ==> derived.Active() && !outcome.revokes && (live.Some? || derived.base.kind == DisclosureKind))
            && (outcome.claimable ==> derived.Active())
  {
    hide LiveNever, IsClaimable;
  }

  lemma ClaimableIsNotRevoked(derived: Record, act: Act, live: Option<LiveGate>, now: int)
    ensures var outcome := Classify(derived, ActionOf(act), live, now); outcome.claimable ==> !outcome.revokes
  {
  }

  // What an opened record still is when its outcome refuses nothing: in the state it was stored in, and in its window.
  lemma OpenedActive(r: Record, act: Act, config: Option<Config>, now: int)
    requires Sound(r) && !AnomalousDisclosure(r, now)
    ensures var o := OpenRecord(r, act, config, now);
            && (o.current.Active() ==> o.current == r && InWindow(r, At(now)) && r.createdAt.ms <= now)
            && ((ActionOf(act) == Approving || ActionOf(act) == Claiming) && o.outcome.error.None?
                ==> o.current.Active() && (o.live.Some? || r.base.kind == DisclosureKind))
            && (o.outcome.claimable ==> o.current.Active())
  {
    hide Sound, Derive, Classify, InWindow, AnomalousDisclosure;
    DeriveKeepsBase(r, now);
    var live := GateOf(config, Derive(r, now).base);
    RevokesActive(Derive(r, now), act, live, now);
    UnrefusedIsActive(Derive(r, now), act, live, now);
    ClaimableIsNotRevoked(Derive(r, now), act, live, now);
    if Derive(r, now).Active() { ActiveIsInWindow(r, now); }
  }

  // What the caller has to keep to, act by act, for what is written to be a record the validator accepts: a reason is not
  // the store's own word for a clock anomaly, and a download's question is answered, not approved by its code.
  predicate CallerFits(act: Act, cur: Record) {
    match act
    case Revoke(reason, _) => cur.base.kind == DisclosureKind || reason != CLOCK_ANOMALY
    case Complete(_, FailedWith(error)) => error != CLOCK_ANOMALY
    case Approve(kind, _, draft, answer) => kind != DownloadKind || !AnsweredForItself(cur, draft, answer)
    case _ => true
  }

  lemma WrongAnswerSound(r: Record, now: int)
    requires Sound(r) && r.state == Pending && InWindow(r, At(now))
    ensures WrongAnswer(r, now).Put? && Sound(WrongAnswer(r, now).next)
  {
    var counted := r.(challengeAttempts := r.challengeAttempts + 1);
    if counted.challengeAttempts < MAX_CHALLENGE_ATTEMPTS {
      assert Sound(counted);
    } else {
      assert Sound(VoidedBy(r, TOO_MANY_ANSWERS, now)) by { RevocationSound(r, TOO_MANY_ANSWERS, now); }
    }
  }

  lemma ApprovedSound(r: Record, live: Option<LiveGate>, via: ApprovalVia, now: int)
    requires Sound(r) && r.state == Pending && InWindow(r, At(now)) && r.base.kind != DisclosureKind
    requires via == App ==> r.base.kind == ChangeKind
    requires r.base.kind == ChangeKind ==> via == Terminal || via == App
    requires r.base.kind == StandingKind ==> via == Terminal
    ensures Sound(ApprovedBy(r, live, via, now)) <==> r.base.kind != DownloadKind
  {
    var next := ApprovedBy(r, live, via, now);
    if r.base.kind != DownloadKind {
      assert TimesWellFormed(next);
      assert EvidenceWellFormed(next);
    }
  }

  lemma ClaimedSound(r: Record, now: int)
    requires Sound(r) && r.Active() && InWindow(r, At(now))
    ensures r.base.kind == SendKind ==> Sound(r.(state := Sending, sendingAt := At(now)))
    ensures r.base.kind == ChangeKind || r.base.kind == DownloadKind
            || (r.base.kind == DisclosureKind && r.state == Approved) ==>
            Sound(r.(state := Used, usedAt := At(now)))
  {
  }

  lemma CompletedSound(r: Record, result: SendOutcome, at: int)
    requires Sound(r) && (r.state == Sending || r.state == Unknown) && r.Renewed().At? && at >= r.Renewed().ms
    requires result.Accepted? ==> result.sentMessageId != ""
    ensures result.Accepted? ==>
              Sound(r.(state := Used, sentMessageId := Some(result.sentMessageId), sentAt := At(at), usedAt := At(at),
                       reason := None))
    ensures result.FailedWith? ==>
              (Sound(r.(state := Failed, reason := Some(result.error), failedAt := At(at)))
               <==> result.error != CLOCK_ANOMALY)
  {
  }

  lemma AnsweredSound(r: Record, via: AnswerVia, answer: Answer)
    requires Sound(r) && r.base.kind == DownloadKind && r.state == Pending
    ensures Sound(r.(state := Approved, approvedVia := Some(via),
                     approvedDigest := Some(AnswerDigest(r.bindingDigest, answer)), answer := Some(answer)))
  {
  }

  lemma DisclosureApprovedSound(r: Record, channel: Via, now: int)
    requires Sound(r) && r.base.kind == DisclosureKind && r.state == Pending && InWindow(r, At(now))
    requires channel == Terminal || channel == App
    ensures r.base.disclosure.Some?
    ensures Sound(r.(state := Approved, approvedVia := Some(channel), approvedAt := At(now),
                     usableUntil := At(now + APPROVED_MS), approvedDigest := Some(r.base.disclosure.value.digest),
                     challengeHash := None))
  {
  }

  lemma IssuedSound(r: Record, hash: string)
    requires Sound(r)
    ensures Sound(r.(challengeHash := Some(hash)))
  {
  }

  lemma RenewedSound(r: Record, now: int)
    requires Sound(r) && r.state == Sending && r.Renewed().At? && now > r.Renewed().ms
    ensures Sound(r.(sendingHeartbeatAt := At(now)))
  {
  }

  lemma NarrowedSound(r: Record, asked: Narrowing)
    requires Sound(r) && r.base.kind == StandingKind && r.base.standing.Some?
    requires NarrowedFurther(r.base.standing.value, r.narrowed, asked).Narrower?
    ensures Sound(r.(narrowed := Some(NarrowedFurther(r.base.standing.value, r.narrowed, asked).narrowing)))
  {
    hide NarrowedFurther, BindingDigestOf;
    NarrowingOnlyTakesAway(r.base.standing.value, r.narrowed, asked, StandingUse("", "", Plain("")));
  }

  lemma DecideApproveSound(cur: Record, outcome: Outcome, live: Option<LiveGate>, kind: Kind, via: ApprovalVia,
                           draft: LiveDraft, answer: string, now: int)
    requires Sound(cur) && (cur.Active() ==> InWindow(cur, At(now)))
    requires cur.base.kind == kind && kind != DisclosureKind && (via == App ==> kind == ChangeKind)
    ensures var d := DecideApprove(cur, outcome, live, kind, via, draft, answer, now);
            d.Put? ==> (Sound(d.next) <==> kind != DownloadKind || !AnsweredForItself(cur, draft, answer))
  {
    hide Sound, WellFormed;
    var d := DecideApprove(cur, outcome, live, kind, via, draft, answer, now);
    if d.Put? {
      if d.next == ApprovedBy(cur, live, via, now) {
        ApprovedSound(cur, live, via, now);
      } else {
        RevocationSound(cur, WRONG_CHANNEL, now);
        RevocationSound(cur, CONTENT_CHANGED, now);
        WrongAnswerSound(cur, now);
      }
    }
  }

  lemma DecideApproveDisclosureSound(cur: Record, outcome: Outcome, binding: DisclosureBinding, answer: string,
                                     channel: Via, now: int)
    requires Sound(cur) && (cur.Active() ==> InWindow(cur, At(now))) && cur.base.kind == DisclosureKind
    ensures var d := DecideApproveDisclosure(cur, outcome, binding, answer, channel, now);
            d.Put? ==> Sound(d.next)
  {
    hide Sound, WellFormed, InWindow;
    var d := DecideApproveDisclosure(cur, outcome, binding, answer, channel, now);
    if d.Put? {
      RevocationSound(cur, BINDING_CHANGED, now);
      WrongAnswerSound(cur, now);
      DisclosureApprovedSound(cur, channel, now);
    }
  }

  lemma DecideClaimSound(cur: Record, outcome: Outcome, live: Option<LiveGate>, act: Act,
                         parentProblem: Option<string>, now: int)
    requires Sound(cur) && (cur.Active() ==> InWindow(cur, At(now)))
    requires act.ClaimForSend? || act.ClaimForChange? || act.ClaimForDownload? || act.ClaimForDisclosure?
    requires ExpectOf(act).kind == Some(cur.base.kind) && parentProblem != Some(CLOCK_ANOMALY)
    requires outcome.error.None? ==> cur.Active()
    ensures var d := Decide(act, cur, outcome, live, parentProblem, now);
            d.Put? ==> Sound(d.next)
  {
    hide Sound, WellFormed, InWindow, SameExpectation, Covers, SameDisclosureBinding;
    var d := Decide(act, cur, outcome, live, parentProblem, now);
    if d.Put? {
      ClaimedSound(cur, now);
      RevocationSound(cur, CONTENT_CHANGED, now);
      RevocationSound(cur, WRONG_CHANNEL, now);
      RevocationSound(cur, BINDING_CHANGED, now);
      if parentProblem.Some? { RevocationSound(cur, parentProblem.value, now); }
    }
  }

  lemma DecideCompleteSound(cur: Record, outcome: Outcome, result: SendOutcome, now: int)
    requires Sound(cur) && cur.base.kind == SendKind && (result.Accepted? ==> result.sentMessageId != "")
    ensures var d := DecideComplete(cur, outcome, result, now);
            d.Put? ==> (Sound(d.next) <==> result != FailedWith(CLOCK_ANOMALY))
  {
    if cur.state == Sending || cur.state == Unknown { CompletedSound(cur, result, CompletedAt(cur, now)); }
  }

  lemma DecideOtherSound(cur: Record, outcome: Outcome, live: Option<LiveGate>, act: Act, now: int)
    requires Sound(cur) && (cur.Active() ==> InWindow(cur, At(now)))
    requires act.IssueChallenge? || act.IssueDisclosureChallenge? || act.Heartbeat? || act.Revoke?
             || act.AnswerDownload? || act.NarrowStanding?
    requires ExpectOf(act).kind.Some? ==> ExpectOf(act).kind == Some(cur.base.kind)
    requires act.AnswerDownload? && outcome.error.None? ==> cur.Active()
    ensures var d := Decide(act, cur, outcome, live, None, now);
            d.Put? ==> (Sound(d.next) <==> CallerFits(act, cur))
  {
    hide WellFormed, Orderly, InWindow, NarrowedFurther, CodeOf;
    if act.IssueChallenge? { IssuedSound(cur, CodeOf(act.challenge)); }
    if act.IssueDisclosureChallenge? { IssuedSound(cur, CodeOf(act.challenge)); }
    if act.Revoke? && cur.Active() { RevocationSound(cur, act.reason, now); }
    if act.Heartbeat? && cur.state == Sending && cur.Renewed().At? && now > cur.Renewed().ms { RenewedSound(cur, now); }
    if act.AnswerDownload? && cur.state == Pending { AnsweredSound(cur, act.answeredVia, act.saved); }
    if act.NarrowStanding? && cur.base.standing.Some?
       && NarrowedFurther(cur.base.standing.value, cur.narrowed, act.asked).Narrower? {
      NarrowedSound(cur, act.asked);
    }
  }

  // Every decision keeps the invariant, for exactly the callers that keep to `CallerFits`.
  lemma DecideSound(r: Record, act: Act, config: Option<Config>, parentProblem: Option<string>, now: int)
    requires Sound(r) && !AnomalousDisclosure(r, now)
    requires EarlyRefusal(act).None? && parentProblem != Some(CLOCK_ANOMALY)
    requires MatchesRecord(r.base.kind, r.base.channel, r.base.inboxId, ExpectOf(act))
    ensures var o := OpenRecord(r, act, config, now);
            var d := Decide(act, o.current, o.outcome, o.live, parentProblem, now);
            d.Put? ==> d.next.base == r.base && (Sound(d.next) <==> CallerFits(act, o.current))
  {
    hide Sound, WellFormed, InWindow, OpenRecord;
    var o := OpenRecord(r, act, config, now);
    OpenSound(r, act, config, now);
    OpenedActive(r, act, config, now);
    DecideKeepsBase(act, o.current, o.outcome, o.live, parentProblem, now);
    match act {
      case Inspect(_, _) =>
      case Approve(kind, via, draft, answer) =>
        DecideApproveSound(o.current, o.outcome, o.live, kind, via, draft, answer, now);
      case ApproveDisclosure(binding, answer, channel) =>
        DecideApproveDisclosureSound(o.current, o.outcome, binding, answer, channel, now);
      case ClaimForSend(_, _, _, _, _) => DecideClaimSound(o.current, o.outcome, o.live, act, parentProblem, now);
      case ClaimForChange(_, _, _) => DecideClaimSound(o.current, o.outcome, o.live, act, parentProblem, now);
      case ClaimForDownload(_, _) => DecideClaimSound(o.current, o.outcome, o.live, act, parentProblem, now);
      case ClaimForDisclosure(_, _) => DecideClaimSound(o.current, o.outcome, o.live, act, parentProblem, now);
      case Complete(_, result) => DecideCompleteSound(o.current, o.outcome, result, now);
      case _ => DecideOtherSound(o.current, o.outcome, o.live, act, now);
    }
  }

  // What is not valid of a decision's record is so by the integrity check: nothing else it keeps is ever lost.
  lemma DecideOrderly(act: Act, cur: Record, outcome: Outcome, live: Option<LiveGate>, parentProblem: Option<string>,
                      now: int)
    requires Orderly(cur) && EarlyRefusal(act).None?
    requires ExpectOf(act).kind.Some? ==> ExpectOf(act).kind == Some(cur.base.kind)
    requires (ActionOf(act) == Approving || ActionOf(act) == Claiming) && outcome.error.None? ==> cur.Active()
    ensures var d := Decide(act, cur, outcome, live, parentProblem, now);
            d.Put? ==> Orderly(d.next)
  {
    hide SameExpectation, SameDisclosureBinding, ChangeDigest, DownloadDigest, NarrowedFurther, StricterPolicy, AnswerDigest;
  }

  // What a decision writes reads back as itself, and the integrity check accepts it, for exactly those callers.
  lemma DecisionReadsBack(r: Record, act: Act, config: Option<Config>, parentProblem: Option<string>, now: int)
    requires Sound(r) && !AnomalousDisclosure(r, now)
    requires EarlyRefusal(act).None? && parentProblem != Some(CLOCK_ANOMALY)
    requires MatchesRecord(r.base.kind, r.base.channel, r.base.inboxId, ExpectOf(act))
    ensures var o := OpenRecord(r, act, config, now);
            var d := Decide(act, o.current, o.outcome, o.live, parentProblem, now);
            var id := r.base.approvalId;
            d.Put? ==>
              && (ValidateV2(d.next, id) == Valid <==> CallerFits(act, o.current))
              && (Decode(id, RecordFile(d.next)) == V2(d.next) <==> CallerFits(act, o.current))
  {
    var o := OpenRecord(r, act, config, now);
    var d := Decide(act, o.current, o.outcome, o.live, parentProblem, now);
    hide WellFormed, Orderly, OpenRecord, Decide, Decode, ValidateV2, CallerFits, AnomalousDisclosure, EarlyRefusal,
         InWindow;
    OpenSound(r, act, config, now);
    OpenedActive(r, act, config, now);
    DecideSound(r, act, config, parentProblem, now);
    DecideOrderly(act, o.current, o.outcome, o.live, parentProblem, now);
    if d.Put? { OrderlyDecodes(d.next); }
  }

  // Such a caller there is: one that revokes a send in the store's own word for a clock anomaly.
  lemma AReasonSpoilsARecord()
    ensures IsApprovalId(SOME_ID) && Create(SOME_SEND, SOME_ID, None, 0).Made?
    ensures var r := Create(SOME_SEND, SOME_ID, None, 0).record;
            var act := Revoke(CLOCK_ANOMALY, Expect(None, None, None));
            var o := OpenRecord(r, act, None, 1);
            var d := Decide(act, o.current, o.outcome, o.live, None, 1);
            && ValidateV2(r, SOME_ID) == Valid && d.Put?
            && ValidateV2(d.next, SOME_ID) != Valid && Decode(SOME_ID, RecordFile(d.next)) != V2(d.next)
  {
    var r := Create(SOME_SEND, SOME_ID, None, 0).record;
    var act := Revoke(CLOCK_ANOMALY, Expect(None, None, None));
    SomeSendOpens(act);
    CreateSound(SOME_SEND, SOME_ID, None, 0);
    hide WellFormed, Orderly, OpenRecord, ValidateV2, Decode, Create, IsApprovalId;
    OrderlyDecodes(r);
    DecisionReadsBack(r, act, None, None, 1);
  }

  lemma SomeSendOpens(act: Act)
    requires act.Revoke?
    ensures IsApprovalId(SOME_ID) && Create(SOME_SEND, SOME_ID, None, 0).Made?
    ensures var r := Create(SOME_SEND, SOME_ID, None, 0).record;
            && r.base.approvalId == SOME_ID && r.base.kind == SendKind && r.Active()
            && OpenRecord(r, act, None, 1).current == r
  {
    hide BindingDigestOf;
  }

  lemma DecideKeepsBase(act: Act, cur: Record, outcome: Outcome, live: Option<LiveGate>,
                        parentProblem: Option<string>, now: int)
    ensures var d := Decide(act, cur, outcome, live, parentProblem, now);
            d.Put? ==> d.next.base == cur.base
  {
  }
}
