/**
  When each decision of the store goes through, exactly, and what it then makes of the record: an approval only of what
  was shown and with the code that was issued, a claim only of what was prepared, an outcome as the provider gave it.
  */
module Decisions {
  import opened Wrappers
  import opened Records
  import opened ApprovalBinding
  import opened ApprovalValidate
  import opened ApprovalOutcome
  import opened ApprovalTransitions
  import opened Policies
  import opened Texts
  import opened RecordInvariant
  import opened RecordMoves

  // ---------- approvals ----------

  // A person's way of approving that this kind takes.
  predicate ViaFits(kind: Kind, via: ApprovalVia) {
    match kind
    case ChangeKind => via == Terminal || via == App
    case StandingKind => via == Terminal
    case _ => true
  }

  lemma ApprovedExactly(cur: Record, outcome: Outcome, live: Option<LiveGate>, kind: Kind, via: ApprovalVia,
                        draft: LiveDraft, answer: string, now: int)
    ensures var d := DecideApprove(cur, outcome, live, kind, via, draft, answer, now);
            && (d.Put? && d.next.state == Approved <==>
                  outcome.error.None? && cur.state == Pending && ViaFits(kind, via) && AnsweredForItself(cur, draft, answer))
            && (d.Put? && d.next.state == Approved ==>
                  && d.failure.None? && d.next.approvedVia == Some(via) && d.next.approvedAt == At(now)
                  && d.next.approvedBindingDigest == cur.bindingDigest && d.next.challengeHash.None?
                  && d.next.usableUntil == At(now + cur.base.approvedMs.Or(APPROVED_MS)))
            && (d.Put? && d.next.state != Approved ==>
                  d.failure.Some? && d.next.approvedVia == cur.approvedVia
                  && (d.next.state == Revoked || (d.next.state == Pending && d.next.challengeAttempts > cur.challengeAttempts)))
  {
  }

  // Each wrong code counts, and the third ends it: whatever three are tried, no fourth is looked at.
  lemma ThreeWrongCodesVoid(r: Record, first: int, second: int, third: int)
    requires Sound(r) && r.state == Pending && r.challengeAttempts == 0
    ensures WrongAnswer(r, first).Put? && WrongAnswer(r, first).next.state == Pending
    ensures var one := WrongAnswer(r, first).next;
            WrongAnswer(one, second).Put? && WrongAnswer(one, second).next.state == Pending
    ensures var two := WrongAnswer(WrongAnswer(r, first).next, second).next;
            WrongAnswer(two, third).Put? && WrongAnswer(two, third).next.state == Revoked
            && WrongAnswer(two, third).failure == Some(ApprovalVoid)
  {
    hide Sound;
  }

  lemma DisclosureApprovedExactly(cur: Record, outcome: Outcome, binding: DisclosureBinding, answer: string, channel: Via,
                                  now: int)
    ensures var d := DecideApproveDisclosure(cur, outcome, binding, answer, channel, now);
            && (d.Put? && d.next.state == Approved <==>
                  && outcome.error.None? && cur.state == Pending && (channel == Terminal || channel == App)
                  && cur.base.disclosure.Some? && SameDisclosureBinding(cur.base.disclosure.value, binding)
                  && cur.challengeHash == Some(CodeOf(answer)))
            && (d.Put? && d.next.state == Approved ==>
                  && d.next.approvedDigest == Some(cur.base.disclosure.value.digest) && d.next.approvedVia == Some(channel)
                  && d.next.approvedAt == At(now))
  {
    hide SameDisclosureBinding;
  }

  lemma AnsweredExactly(cur: Record, outcome: Outcome, via: AnswerVia, answer: Answer)
    requires Sound(cur) && cur.base.kind == DownloadKind && (outcome.error.None? ==> cur.Active())
    ensures var d := DecideAnswer(cur, outcome, via, answer);
            && (d.Put? <==> outcome.error.None? && cur.state == Pending)
            && (d.Put? ==> d.next.state == Approved && d.next.answer == Some(answer)
                           && d.next.approvedDigest == Some(AnswerDigest(cur.bindingDigest, answer)))
  {
    assert cur.base.download.Some? && DownloadDigest(cur.base.download.value) == cur.base.contentDigest;
    hide Sound, DownloadDigest;
  }

  // ---------- claims ----------

  // The claim is of what was prepared, as its caller computes it now, and was not cancelled while it waited.
  predicate AsPrepared(act: Act, b: Base) {
    match act
    case ClaimForSend(_, inboxSub, draft, expected, cancelled) =>
      && !cancelled
      && draft.draftMessageId == b.draftMessageId && draft.contentDigest == b.contentDigest
      && SameExpectation(expected, b.expected)
      && (b.inboxSub.Some? && b.inboxSub.value != "" ==> inboxSub == b.inboxSub)
    case ClaimForChange(change, _, cancelled) => !cancelled && ChangeDigest(change) == b.contentDigest
    case ClaimForDownload(download, cancelled) => !cancelled && DownloadDigest(download) == b.contentDigest
    case ClaimForDisclosure(binding, _) => b.disclosure.Some? && SameDisclosureBinding(b.disclosure.value, binding)
    case _ => false
  }

  // The policy governing a change, as the stricter of what the caller, the gate and the record say.
  function Governing(policy: Policy, live: Option<LiveGate>, required: Policy): Policy {
    StricterPolicy(StricterPolicy(policy, if live.Some? then live.value.changePolicy.Or(PolicyConfirm) else PolicyConfirm),
                   required)
  }

  // Whether a decision claims, exactly.
  lemma SendClaimedExactly(cur: Record, outcome: Outcome, act: Act, problem: Option<string>, now: int)
    requires act.ClaimForSend?
    ensures var d := DecideClaimForSend(cur, outcome, act, problem, now);
            && (d.Put? && PastClaim(d.next.state) <==>
                  && outcome.error.None? && outcome.claimable && problem.None? && AsPrepared(act, cur.base)
                  && (cur.state == Approved ==> cur.approvedBindingDigest == cur.bindingDigest))
            && (d.Put? && PastClaim(d.next.state) ==> d.next == cur.(state := Sending, sendingAt := At(now)))
            && (d.Put? && !PastClaim(d.next.state) ==> d.next.state == Revoked && d.failure == Some(ApprovalVoid))
  {
    hide SameExpectation;
  }

  lemma ChangeClaimedExactly(cur: Record, outcome: Outcome, live: Option<LiveGate>, act: Act, now: int)
    requires act.ClaimForChange?
    ensures var d := DecideClaimForChange(cur, outcome, live, act.change, act.policy, act.cancelled, now);
            && (d.Put? && PastClaim(d.next.state) <==>
                  && outcome.error.None? && AsPrepared(act, cur.base)
                  && ((outcome.claimable && Governing(act.policy, live, cur.base.requiredPolicy) == PolicyChat)
                      || (cur.state == Approved && (cur.approvedVia == Some(Terminal) || cur.approvedVia == Some(App)))))
            && (d.Put? && PastClaim(d.next.state) ==> d.next == cur.(state := Used, usedAt := At(now)))
  {
    hide ChangeDigest;
  }

  lemma DownloadClaimedExactly(cur: Record, outcome: Outcome, act: Act, now: int)
    requires act.ClaimForDownload? && cur.base.download.Some?
    requires DownloadDigest(cur.base.download.value) == cur.base.contentDigest
    ensures var d := DecideClaimForDownload(cur, outcome, act.download, act.cancelled, now);
            && (d.Put? <==> outcome.error.None? && outcome.claimable && AsPrepared(act, cur.base))
            && (d.Put? ==> d.next == cur.(state := Used, usedAt := At(now)))
            && (outcome.error.None? && !act.cancelled && DownloadDigest(act.download) != cur.base.contentDigest
                ==> d == Refuse(Usage))
  {
    hide DownloadDigest;
  }

  lemma DisclosureClaimedExactly(cur: Record, outcome: Outcome, act: Act, now: int)
    requires act.ClaimForDisclosure?
    ensures var d := DecideClaimForDisclosure(cur, outcome, act.binding, act.deadlineMs, now);
            && (d.Put? && PastClaim(d.next.state) <==>
                  && outcome.error.None? && cur.state == Approved && AsPrepared(act, cur.base)
                  && cur.approvedDigest == Some(cur.base.disclosure.value.digest)
                  && (act.deadlineMs.Some? ==> now < act.deadlineMs.value))
            && (d.Put? && PastClaim(d.next.state) ==> d.next == cur.(state := Used, usedAt := At(now)))
  {
    hide SameDisclosureBinding;
  }

  // Whatever claims, claims what was prepared.
  lemma ClaimsAsPrepared(cur: Record, outcome: Outcome, live: Option<LiveGate>, act: Act, problem: Option<string>, now: int)
    requires IsClaimAct(act) && (outcome.error.None? ==> cur.Active())
    ensures var d := Decide(act, cur, outcome, live, problem, now);
            d.Put? && PastClaim(d.next.state) ==>
              && AsPrepared(act, cur.base) && (act.ClaimForSend? ==> problem.None?)
              && d.next.approvedVia == cur.approvedVia
  {
    hide SameExpectation, SameDisclosureBinding, ChangeDigest, DownloadDigest, StricterPolicy;
  }

  // ---------- what the configuration allows ----------

  // A claimed record was allowed by the configuration's own words: sending not turned off for its account, and, without a
  // person's decision, a policy that takes a yes in the chat for everything it touches.
  predicate Permits(config: Config, r: Record) {
    match r.base.kind
    case SendKind =>
      && r.base.inboxId in config.owners
      && !SendsUnder(config, r.base.inboxId, PolicyNever) && r.base.requiredPolicy != PolicyNever
      && (r.approvedVia.None? ==> SendsUnder(config, r.base.inboxId, PolicyChat))
    case ChangeKind =>
      r.approvedVia.None? ==>
        r.base.requiredPolicy == PolicyChat && r.base.change.Some? && !TouchesConfirm(config, r.base.change.value)
    case DownloadKind =>
      r.approvedVia.None? ==> r.base.requiredPolicy == PolicyChat && !AsksConfirm(config, Some(r.base.inboxId))
    case DisclosureKind => r.approvedVia.Some?
    case StandingKind => false
  }

  lemma UnrefusedIsPermitted(r: Record, act: Act, config: Config, now: int)
    requires Sound(r) && !AnomalousDisclosure(r, now) && r.base.kind != DisclosureKind && IsClaimAct(act)
    requires OpenRecord(r, act, Some(config), now).outcome.error.None?
    ensures !LiveNever(r, Some(LiveGateOf(config, r.base)))
    ensures var o := OpenRecord(r, act, Some(config), now);
            o.live == Some(LiveGateOf(config, r.base)) && (o.outcome.claimable ==> IsClaimable(r, LiveGateOf(config, r.base)))
  {
    OpenedActive(r, act, Some(config), now);
    hide Sound, Derive, AnomalousDisclosure, InWindow, LiveGateOf;
    DeriveKeepsBase(r, now);
    if Derive(r, now).Active() { ActiveIsInWindow(r, now); }
  }

  lemma OwnersAndChanges(r: Record)
    requires Sound(r)
    ensures r.base.kind != ChangeKind && r.base.kind != DisclosureKind ==> r.base.ownerScope == OwnerScoped
    ensures r.base.kind == ChangeKind ==> r.base.change.Some?
  {
  }

  lemma SendersAreOwned(r: Record)
    requires Sound(r) && r.base.kind == SendKind
    ensures r.base.ownerScope == OwnerScoped
  {
  }

  // Whoever enters a claim was allowed to, by the configuration read under the lock.
  lemma ClaimIsPermitted(r: Record, act: Act, config: Option<Config>, problem: Option<string>, now: int)
    requires Sound(r) && !AnomalousDisclosure(r, now)
    requires IsClaimAct(act) && ExpectOf(act).kind == Some(r.base.kind)
    ensures var o := OpenRecord(r, act, config, now);
            var d := Decide(act, o.current, o.outcome, o.live, problem, now);
            d.Put? && PastClaim(d.next.state) && !PastClaim(o.current.state) ==>
              && AsPrepared(act, r.base)
              && (r.base.kind != DisclosureKind ==> config.Some? && Permits(config.value, d.next))
  {
    var o := OpenRecord(r, act, config, now);
    var d := Decide(act, o.current, o.outcome, o.live, problem, now);
    ClaimIsWarranted(r, act, config, problem, now);
    OpenedActive(r, act, config, now);
    ClaimsAsPrepared(o.current, o.outcome, o.live, act, problem, now);
    DecideKeepsBase(act, o.current, o.outcome, o.live, problem, now);
    if d.Put? && PastClaim(d.next.state) && !PastClaim(o.current.state) && r.base.kind != DisclosureKind {
      if r.state == Approved { ApprovedHasEvidence(r); }
      OwnersAndChanges(r);
      ClaimsUnrefused(o.current, o.outcome, o.live, act, problem, now);
      UnrefusedIsPermitted(r, act, config.value, now);
      PermittedByDecision(r, o.outcome, act, config.value, problem, now);
    }
    hide Sound, OpenRecord, Decide, AsPrepared, InReach;
  }

  lemma ClaimsUnrefused(cur: Record, outcome: Outcome, live: Option<LiveGate>, act: Act, problem: Option<string>, now: int)
    requires IsClaimAct(act)
    ensures var d := Decide(act, cur, outcome, live, problem, now); d.Put? ==> outcome.error.None?
  {
    hide SameExpectation, SameDisclosureBinding, ChangeDigest, DownloadDigest, StricterPolicy;
  }

  lemma PermittedByDecision(r: Record, outcome: Outcome, act: Act, config: Config, problem: Option<string>, now: int)
    requires r.base.kind != DisclosureKind && IsClaimAct(act) && ExpectOf(act).kind == Some(r.base.kind)
    requires r.Active() && (r.state == Approved ==> r.approvedVia.Some?) && InReach(r.base, config)
    requires r.base.kind == SendKind || r.base.kind == DownloadKind ==> r.base.ownerScope == OwnerScoped
    requires r.base.kind == ChangeKind ==> r.base.change.Some?
    requires !LiveNever(r, Some(LiveGateOf(config, r.base)))
    requires outcome.claimable ==> IsClaimable(r, LiveGateOf(config, r.base))
    requires var d := Decide(act, r, outcome, Some(LiveGateOf(config, r.base)), problem, now);
             d.Put? && PastClaim(d.next.state)
    ensures Permits(config, Decide(act, r, outcome, Some(LiveGateOf(config, r.base)), problem, now).next)
  {
    if r.base.ownerScope == OwnerScoped {
      SendPolicySaid(config, r.base, PolicyNever);
      SendPolicySaid(config, r.base, PolicyChat);
    }
    GateChangePolicySaid(config, r.base);
    hide SameExpectation, SameDisclosureBinding, ChangeDigest, DownloadDigest, LiveGateOf, SendsUnder, AsksConfirm,
         TouchesConfirm;
  }

  // ---------- outcomes ----------

  // The outcome is the provider's, at no time before the lease was last renewed.
  lemma CompletedExactly(cur: Record, outcome: Outcome, result: SendOutcome, now: int)
    requires Sound(cur)
    ensures var d := DecideComplete(cur, outcome, result, now);
            && (d.Put? <==> cur.state == Sending || cur.state == Unknown)
            && (d.Put? && result.Accepted? ==>
                  && d.next.state == Used && d.next.sentMessageId == Some(result.sentMessageId) && d.next.reason.None?
                  && d.next.usedAt.At? && d.next.usedAt == d.next.sentAt
                  && now <= d.next.usedAt.ms && (cur.Renewed().At? ==> cur.Renewed().ms <= d.next.usedAt.ms)
                  && (d.next.usedAt.ms == now || d.next.usedAt == cur.Renewed()))
            && (d.Put? && result.FailedWith? ==>
                  && d.next.state == Failed && d.next.reason == Some(result.error) && d.next.failedAt.At?
                  && now <= d.next.failedAt.ms && (cur.Renewed().At? ==> cur.Renewed().ms <= d.next.failedAt.ms))
  {
    hide Sound;
  }
}
