/**
  What a new record holds of what it was made from, and what a claim must then bring (packages/core/src/approvals.ts,
  the creations and `createStandingChild`): each field is the input's, each lifetime and policy the kind's.
  */
module Creations {
  import opened Wrappers
  import opened Records
  import opened ApprovalBinding
  import opened ApprovalValidate
  import opened ApprovalOutcome
  import opened ApprovalTransitions
  import opened Recipients
  import opened Texts
  import opened RecordInvariant
  import opened RecordMoves
  import opened Decisions
  import opened Standing
  import opened Gate

  const MINUTES := 60_000

  // ---------- digests fix what they are of ----------

  // The same change: its target, what it loosens and sets, however ordered, its effects and what was done at once.
  predicate SameChange(a: ChangeBinding, b: ChangeBinding) {
    && a.target == b.target && multiset(a.loosened) == multiset(b.loosened) && multiset(a.settings) == multiset(b.settings)
    && a.effects == b.effects && a.doneAtOnce == b.doneAtOnce
  }

  predicate SameDownload(a: DownloadBinding, b: DownloadBinding) {
    && a.targetInbox == b.targetInbox && a.targetName == b.targetName && a.targetId == b.targetId
    && a.operation == b.operation && a.request == b.request && a.files == b.files && a.names == b.names
  }

  lemma DigestsFixContent(a: ChangeBinding, b: ChangeBinding, c: DownloadBinding, d: DownloadBinding)
    ensures ChangeDigest(a) == ChangeDigest(b) <==> SameChange(a, b)
    ensures DownloadDigest(c) == DownloadDigest(d) <==> SameDownload(c, d)
  {
  }

  lemma StandingDigestFixesIt(a: StandingBinding, b: StandingBinding)
    ensures StandingDigest(a) == StandingDigest(b) <==> a == b.(summary := a.summary)
  {
  }

  lemma AnswerDigestFixesIt(a: Option<Digest>, x: Answer, b: Option<Digest>, y: Answer)
    ensures AnswerDigest(a, x) == AnswerDigest(b, y) <==> a == b && x == y
  {
  }

  // ---------- a new record ----------

  // Waiting, for so many minutes from now; bound to what it holds; and nothing decided of it.
  predicate IsNew(r: Record, id: string, preparedBy: Option<string>, minutes: int, now: int) {
    && r.base.approvalId == id && r.base.preparedBy == preparedBy && r.base.digestVersion == 2
    && r.state == Pending && r.createdAt == At(now) && r.expiresAt == At(now + minutes * MINUTES)
    && r.base.pendingMs == minutes * MINUTES && r.bindingDigest == BindingDigestOf(r.base)
    && Untouched(r)
    && r.approvedAt == NoStamp && r.usableUntil == NoStamp && r.approvedVia.None? && r.approvedBindingDigest.None?
  }

  predicate Untouched(r: Record) {
    && r.sendingAt == NoStamp && r.sendingHeartbeatAt == NoStamp && r.usedAt == NoStamp && r.sentAt == NoStamp
    && r.failedAt == NoStamp && r.revokedAt == NoStamp && r.expiredAt == NoStamp && r.approvedDigest.None?
    && r.approvedChangePolicy.None? && r.answer.None? && r.narrowed.None? && r.sentMessageId.None? && r.reason.None?
    && r.challengeHash.None? && r.challengeAttempts == 0
  }

  // The stricter of two policies: `never` if either is, else `confirm` if either is.
  predicate IsStricterOf(p: Policy, a: Policy, b: Policy) {
    p == if a == PolicyNever || b == PolicyNever then PolicyNever
         else if a == PolicyConfirm || b == PolicyConfirm then PolicyConfirm
         else PolicyChat
  }

  predicate IsChannel(s: string) {
    s == "core" || s == "gmail" || s == "resend" || s == "slack" || s == "whatsapp"
  }

  // A send waits for a person outside the chat if a policy asks for one: half an hour, and not ten minutes.
  lemma SendIsMadeOf(input: SendInput, id: string, preparedBy: Option<string>, now: int)
    ensures var made := Create(input, id, preparedBy, now);
            && (made.Made? <==> IsHex64(input.contentDigest) && IsChannel(input.channel))
            && (made.Made? ==>
                  var b := made.record.base;
                  var confirmed := b.requiredPolicy == PolicyConfirm;
                  && IsNew(made.record, id, preparedBy, if confirmed then 30 else 10, now)
                  && b.kind == SendKind && b.approvedMs == Some(24 * 60 * MINUTES)
                  && b.route == Some(if confirmed then ConfirmRoute else ChatRoute)
                  && b.channel == input.channel && b.ownerScope == OwnerScoped && b.inboxId == input.inboxId
                  && b.inboxSub == input.inboxSub && b.draftId == input.draftId && b.draftMessageId == input.draftMessageId
                  && b.contentDigest == input.contentDigest && b.expected == input.expected
                  && b.policy == input.policy && IsStricterOf(b.requiredPolicy, input.policy, input.requiredPolicy)
                  && b.sendEpoch == Some(input.sendEpoch) && b.standingId.None? && b.standingUse.None?)
  {
    hide BindingDigestOf;
  }

  // A change is of the account it is to, or of one that is to be, or of everything.
  lemma ChangeIsMadeOf(channel: string, change: ChangeBinding, policy: ChangePolicy, id: string, preparedBy: Option<string>,
                       now: int)
    ensures var made := CreateChange(channel, change, policy, id, preparedBy, now);
            && (made.Made? <==> IsChannel(channel))
            && (made.Made? ==>
                  var b := made.record.base;
                  && IsNew(made.record, id, preparedBy, if policy == PolicyConfirm then 30 else 10, now)
                  && b.kind == ChangeKind && b.approvedMs == Some(24 * 60 * MINUTES) && b.channel == channel
                  && b.route == Some(if policy == PolicyConfirm then ConfirmRoute else ChatRoute)
                  && b.policy == policy && b.requiredPolicy == policy && b.change == Some(change)
                  && b.expected.subject == change.summary
                  && (change.target.None? ==> b.ownerScope == Global && b.inboxId == "")
                  && (change.target.Some? && change.target.value.id.None? ==> b.ownerScope == Prospective && b.inboxId == "")
                  && (change.target.Some? && change.target.value.id.Some? ==>
                        b.ownerScope == OwnerScoped && b.inboxId == change.target.value.id.value)
                  && forall claimed :: ChangeDigest(claimed) == b.contentDigest <==> SameChange(claimed, change))
  {
    forall claimed { DigestsFixContent(claimed, change, NoDownload(), NoDownload()); }
    hide BindingDigestOf, SameChange;
  }

  function NoDownload(): DownloadBinding {
    DownloadBinding("", false, "", "", "", "", [], [], "", "", None)
  }

  function NothingChanged(): ChangeBinding {
    ChangeBinding("", None, [], [], [], [])
  }

  lemma DownloadIsMadeOf(channel: string, download: DownloadBinding, policy: ChangePolicy, id: string,
                         preparedBy: Option<string>, now: int)
    ensures var made := CreateDownload(channel, download, policy, id, preparedBy, now);
            && (made.Made? <==>
                  IsChannel(channel)
                  && (download.listing.Some? ==>
                        && |download.listing.value| == |download.names|
                        && forall i | 0 <= i < |download.names| :: download.listing.value[i].name == download.names[i]))
            && (made.Made? ==>
                  var b := made.record.base;
                  && IsNew(made.record, id, preparedBy, 30, now)
                  && b.kind == DownloadKind && b.approvedMs.None? && b.route.None? && b.channel == channel
                  && b.policy == policy && b.requiredPolicy == policy && b.download == Some(download)
                  && b.ownerScope == OwnerScoped && b.inboxId == download.targetId
                  && forall claimed :: DownloadDigest(claimed) == b.contentDigest <==> SameDownload(claimed, download))
  {
    forall claimed { DigestsFixContent(NothingChanged(), NothingChanged(), claimed, download); }
    if download.listing.Some? { ListingFitsExactly(download); }
    hide BindingDigestOf, SameDownload, ListingFits;
  }

  lemma ListingFitsExactly(d: DownloadBinding)
    requires d.listing.Some?
    ensures ListingFits(d) <==>
            && |d.listing.value| == |d.names|
            && forall i | 0 <= i < |d.names| :: d.listing.value[i].name == d.names[i]
  {
    var names := NamesOf(d.listing.value);
    if ListingFits(d) {
      forall i | 0 <= i < |d.names| ensures d.listing.value[i].name == d.names[i] { assert names[i] == d.names[i]; }
    }
  }

  // A standing approval is confirmed, for the days its limits say.
  lemma StandingIsMadeOf(binding: StandingBinding, inboxSub: string, sendEpoch: int, standingEpoch: int, id: string,
                         preparedBy: Option<string>, now: int)
    ensures var made := CreateStanding(binding, inboxSub, sendEpoch, standingEpoch, id, preparedBy, now);
            && (made.Made? <==> StandingBindingOk(binding) && inboxSub != "" && sendEpoch >= 0 && standingEpoch >= 0)
            && (made.Made? ==>
                  var b := made.record.base;
                  && IsNew(made.record, id, preparedBy, 30, now)
                  && b.kind == StandingKind && b.approvedMs == Some(binding.limits.expiresDays * 24 * 60 * MINUTES)
                  && b.route == Some(ConfirmRoute) && b.channel == "slack" && b.policy == PolicyConfirm
                  && b.requiredPolicy == PolicyConfirm && b.standing == Some(binding) && b.ownerScope == OwnerScoped
                  && b.inboxId == binding.targetId && b.inboxSub == Some(inboxSub) && b.sendEpoch == Some(sendEpoch)
                  && b.standingEpoch == Some(standingEpoch) && b.contentDigest == StandingDigest(binding))
  {
    hide BindingDigestOf, StandingBindingOk;
  }

  lemma DisclosureIsMadeOf(binding: DisclosureBinding, id: string, preparedBy: Option<string>, now: int)
    ensures var made := CreateDisclosure(binding, id, preparedBy, now);
            && (made.Made? <==> CanonicalDisclosureBinding(binding).Some?)
            && (made.Made? ==>
                  var b := made.record.base;
                  && IsNew(made.record, id, preparedBy, 30, now)
                  && b.kind == DisclosureKind && b.approvedMs == Some(24 * 60 * MINUTES) && b.disclosure == Some(binding))
  {
    hide BindingDigestOf, CanonicalDisclosureBinding;
  }

  // ---------- one use ----------

  // A use is approved in advance as it is made, for two minutes; it names its standing approval, and what it is of is the
  // caller's. It is made only from one that is approved, at a terminal and for the binding it holds, under its epochs and
  // its account's own subject.
  lemma UseIsMadeOf(input: UseInput, parentId: string, parent: Outcome, live: Option<LiveGate>, preparedBy: Option<string>,
                    now: int)
    ensures var made := MintChild(input, parentId, parent, live, preparedBy, now);
            && (made.Made? <==>
                  && IsHex64(input.contentDigest) && input.use.channel != "" && input.use.thread != "" && IsHex64(input.use.content)
                  && input.sendEpoch >= 0 && input.standingEpoch >= 0 && IsApprovalId(input.approvalId)
                  && parent.error.None? && parent.record.state == Approved
                  && parent.record.approvedVia == Some(Terminal)
                  && parent.record.approvedBindingDigest == parent.record.bindingDigest
                  && parent.record.base.standingEpoch == Some(input.standingEpoch)
                  && parent.record.base.sendEpoch == Some(input.sendEpoch)
                  && parent.record.base.inboxSub == Some(input.inboxSub))
            && (made.Made? ==>
                  var r := made.record;
                  var b := r.base;
                  && Untouched(r) && r.state == Approved && r.approvedVia == Some(InAdvance)
                  && r.bindingDigest == BindingDigestOf(b) && r.approvedBindingDigest == r.bindingDigest
                  && r.createdAt == At(now) && r.approvedAt == At(now)
                  && r.expiresAt == At(now + 2 * MINUTES) && r.usableUntil == At(now + 2 * MINUTES)
                  && UseBaseIs(b, input, parentId, preparedBy)
                  && (b.policy == PolicyChat <==> live.Some? && live.value.sendPolicy == Some(PolicyChat)))
  {
    hide BindingDigestOf, IsApprovalId, IsHex64;
  }

  predicate UseBaseIs(b: Base, input: UseInput, parentId: string, preparedBy: Option<string>) {
    && b.approvalId == input.approvalId && b.kind == SendKind && b.route == Some(StandingRoute) && b.preparedBy == preparedBy
    && b.pendingMs == 2 * MINUTES && b.approvedMs == Some(2 * MINUTES) && b.channel == "slack" && b.ownerScope == OwnerScoped
    && b.inboxId == input.inboxId && b.inboxSub == Some(input.inboxSub) && b.draftId == input.draftId
    && b.draftMessageId == input.draftMessageId && b.contentDigest == input.contentDigest && b.expected == input.expected
    && b.requiredPolicy == PolicyConfirm && (b.policy == PolicyChat || b.policy == PolicyConfirm)
    && b.sendEpoch == Some(input.sendEpoch) && b.standingEpoch == Some(input.standingEpoch)
    && b.standingId == Some(parentId) && b.standingUse == Some(input.use)
  }

  // ---------- what a claim must bring ----------

  // To the same people, whatever their order, their names and the case of their addresses, under the same subject.
  predicate ToTheSame(a: Expectation, b: Expectation) {
    && Addresses(a.to) == Addresses(b.to) && Addresses(a.cc) == Addresses(b.cc) && Addresses(a.bcc) == Addresses(b.bcc)
    && Trim(a.subject) == Trim(b.subject)
  }

  // No address of either holds a newline, and none is empty.
  predicate InLines(e: Expectation) {
    forall x | x in Addresses(e.to) + Addresses(e.cc) + Addresses(e.bcc) :: OneLine(x) && x != ""
  }

  lemma SameExpectationExactly(a: Expectation, b: Expectation)
    ensures ToTheSame(a, b) ==> SameExpectation(a, b)
    ensures InLines(a) && InLines(b) ==> (SameExpectation(a, b) <==> ToTheSame(a, b))
  {
    SameListExactly(a.to, b.to);
    SameListExactly(a.cc, b.cc);
    SameListExactly(a.bcc, b.bcc);
    hide SameList, Trim, OneLine;
    if InLines(a) && InLines(b) {
      assert "" !in Addresses(a.to) + Addresses(a.cc) + Addresses(a.bcc);
      assert "" !in Addresses(b.to) + Addresses(b.cc) + Addresses(b.bcc);
      NoneIsEmpty(a.to, b.to);
      NoneIsEmpty(a.cc, b.cc);
      NoneIsEmpty(a.bcc, b.bcc);
    }
    hide Addresses;
  }

  lemma NoneIsEmpty(a: seq<string>, b: seq<string>)
    requires "" !in Addresses(a) && "" !in Addresses(b)
    ensures Addresses(a) <= {""} && Addresses(b) <= {""} ==> Addresses(a) == Addresses(b)
  {
    hide Addresses;
    if Addresses(a) <= {""} && Addresses(b) <= {""} {
      assert Addresses(a) == {} && Addresses(b) == {};
    }
  }

  // A claim is of what was prepared exactly when it brings the prepared message to the prepared people, the change or the
  // request itself, or the very binding; and, but for a disclosure's, was not cancelled.
  lemma AsPreparedExactly(act: Act, r: Record)
    requires Sound(r) && IsClaimAct(act) && ExpectOf(act).kind == Some(r.base.kind)
    ensures act.ClaimForSend? ==>
              (AsPrepared(act, r.base) <==>
                 && !act.cancelled && act.draft.draftMessageId == r.base.draftMessageId
                 && act.draft.contentDigest == r.base.contentDigest && SameExpectation(act.expected, r.base.expected)
                 && (r.base.inboxSub.None? || r.base.inboxSub == Some("") || r.base.inboxSub == act.inboxSub))
    ensures act.ClaimForChange? ==>
              r.base.change.Some? && (AsPrepared(act, r.base) <==> !act.cancelled && SameChange(act.change, r.base.change.value))
    ensures act.ClaimForDownload? ==>
              r.base.download.Some?
              && (AsPrepared(act, r.base) <==> !act.cancelled && SameDownload(act.download, r.base.download.value))
    ensures act.ClaimForDisclosure? ==> (AsPrepared(act, r.base) <==> r.base.disclosure == Some(act.binding))
  {
    if act.ClaimForDisclosure? { SameIsEqual(r, act.binding); }
    hide BindingDigestOf, CanonicalDisclosureBinding, SameDisclosureBinding;
  }
}
