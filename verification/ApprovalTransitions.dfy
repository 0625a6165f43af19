/**
  What the approval store decides (packages/core/src/approvals.ts), as functions of the record read under its lock, the
  configuration read there, one reading of the clock, and what the caller brought.
  */
module ApprovalTransitions {
  import opened Wrappers
  import opened Records
  import opened ApprovalBinding
  import opened ApprovalValidate
  import opened ApprovalOutcome
  import opened Recipients
  import opened Standing
  import opened Texts

  // ---------- files ----------

  // A record an earlier release wrote: read, never claimed.
  datatype LegacyRecord = LegacyRecord(
    approvalId: string, kind: Kind, inboxId: string, state: State, createdAt: Stamp, updatedAt: Stamp,
    approvedAt: Stamp, sendingAt: Stamp, sentAt: Stamp, sentMessageId: Option<string>)

  datatype File = RecordFile(record: Record) | LegacyFile(legacy: LegacyRecord) | Garbled

  datatype Stored = V2(record: Record) | Legacy(legacy: LegacyRecord) | Corrupt(record: Record, why: Validation) | Unreadable

  // The closed shape of a disclosure: none of the fields a send, a change or a download ends with, nor a use's.
  predicate DisclosureShape(r: Record) {
    && r.base.standingId.None? && r.base.standingUse.None?
    && r.sendingAt == NoStamp && r.sendingHeartbeatAt == NoStamp && r.sentAt == NoStamp && r.failedAt == NoStamp
    && r.sentMessageId.None? && r.approvedBindingDigest.None? && r.approvedChangePolicy.None?
  }

  function Decode(fileId: string, file: File): Stored {
    match file
    case Garbled => Unreadable
    case LegacyFile(legacy) => if legacy.approvalId == fileId then Legacy(legacy) else Unreadable
    case RecordFile(r) =>
      if r.base.kind == DisclosureKind && !DisclosureShape(r) then Unreadable
      else if ValidateV2(r, fileId) == Valid then V2(r)
      else Corrupt(r, ValidateV2(r, fileId))
  }

  // ---------- derived states ----------

  predicate SeenBeforeMade(r: Record, now: int) {
    Before(now, r.createdAt) || (r.state == Approved && Before(now, r.approvedAt))
  }

  // When an active record lapses: an approved one at the end of its own window, narrowed or not.
  function LapsesAt(r: Record): Stamp {
    var deadline := if r.state == Approved && r.base.kind != DownloadKind && r.usableUntil != NoStamp
                    then r.usableUntil else r.expiresAt;
    if r.base.kind == StandingKind && r.state == Approved && r.approvedAt.At? && r.base.standing.Some? then
      var narrowed := r.approvedAt.ms + StandingDays(r.base.standing.value, r.narrowed) * DAY_MS;
      if Before(narrowed, deadline) then At(narrowed) else deadline
    else deadline
  }

  // `#derive`: an expiry, or a send whose claimant stopped renewing its lease; else the record itself.
  function Derive(r: Record, now: int): Record {
    if r.Active() then
      if SeenBeforeMade(r, now) then r.(state := Expired, reason := Some(CLOCK_ANOMALY), expiredAt := At(now))
      else if Reached(now, LapsesAt(r)) then
        r.(state := Expired, reason := Some(WINDOW_PASSED), expiredAt := LapsesAt(r))
      else r
    else if r.state == Sending && r.Renewed().At? && now >= r.Renewed().ms + SENDING_LEASE_MS then
      r.(state := Unknown, reason := Some(STALE_LEASE_REASON))
    else r
  }

  // ---------- creation ----------

  // What a creation or a use makes, or the code it is refused with.
  datatype Made = Made(record: Record) | NotMade(code: ErrorCode)

  function Unbound(b: Base, state: State, createdAt: int, binding: Option<Digest>): Record {
    Record(b, binding, state, At(createdAt), At(createdAt + b.pendingMs),
           NoStamp, NoStamp, NoStamp, NoStamp, NoStamp, NoStamp, NoStamp, NoStamp, NoStamp,
           None, None, None, None, None, None, None, None, None, 0)
  }

  function Bound(b: Base, createdAt: int): Record {
    Unbound(b, Pending, createdAt, BindingDigestOf(b))
  }

  datatype SendInput = SendInput(
    channel: string, inboxId: string, inboxSub: Option<string>, draftId: string, draftMessageId: Digest,
    contentDigest: Digest, sendEpoch: int, policy: Policy, requiredPolicy: Policy, expected: Expectation)

  function SendBase(input: SendInput, id: string, preparedBy: Option<string>): Base {
    var required := StricterPolicy(input.policy, input.requiredPolicy);
    var route := if required == PolicyConfirm then ConfirmRoute else ChatRoute;
    Base(id, SendKind, DIGEST_VERSION, preparedBy, PendingMsOf(route), Some(APPROVED_MS), input.channel, OwnerScoped,
         Some(route), input.inboxId, input.inboxSub, input.draftId, input.draftMessageId, input.contentDigest,
         input.expected, input.policy, required, Some(input.sendEpoch), None, None, None, None, None, None, None)
  }

  function Create(input: SendInput, id: string, preparedBy: Option<string>, now: int): Made {
    if !IsHex64(input.contentDigest) || !IsKnownChannel(input.channel) then NotMade(Unexpected)
    else Made(Bound(SendBase(input, id, preparedBy), now))
  }

  function ChangeBase(channel: string, change: ChangeBinding, policy: ChangePolicy, id: string,
                      preparedBy: Option<string>): Base {
    var owner := if change.target.Some? then change.target.value.id else None;
    var scope := if change.target.None? then Global else if owner.None? then Prospective else OwnerScoped;
    var route := if policy == PolicyConfirm then ConfirmRoute else ChatRoute;
    var digest := ChangeDigest(change);
    Base(id, ChangeKind, DIGEST_VERSION, preparedBy, PendingMsOf(route), Some(APPROVED_MS), channel, scope,
         Some(route), owner.Or(""), None, "change", digest, digest, Expectation([], [], [], change.summary),
         policy, policy, None, None, None, None, Some(change), None, None, None)
  }

  function CreateChange(channel: string, change: ChangeBinding, policy: ChangePolicy, id: string,
                        preparedBy: Option<string>, now: int): Made {
    if !IsKnownChannel(channel) then NotMade(Unexpected)
    else Made(Bound(ChangeBase(channel, change, policy, id, preparedBy), now))
  }

  function DownloadBase(channel: string, download: DownloadBinding, policy: ChangePolicy, id: string,
                        preparedBy: Option<string>): Base {
    var digest := DownloadDigest(download);
    Base(id, DownloadKind, DIGEST_VERSION, preparedBy, DOWNLOAD_MS, None, channel, OwnerScoped, None,
         download.targetId, None, "download", digest, digest, Expectation([], [], [], download.summary),
         policy, policy, None, None, None, None, None, Some(download), None, None)
  }

  function CreateDownload(channel: string, download: DownloadBinding, policy: ChangePolicy, id: string,
                          preparedBy: Option<string>, now: int): Made {
    if !ListingFits(download) || !IsKnownChannel(channel) then NotMade(Unexpected)
    else Made(Bound(DownloadBase(channel, download, policy, id, preparedBy), now))
  }

  function StandingBase(binding: StandingBinding, inboxSub: string, sendEpoch: int, standingEpoch: int, id: string,
                        preparedBy: Option<string>): Base {
    var digest := StandingDigest(binding);
    Base(id, StandingKind, DIGEST_VERSION, preparedBy, CONFIRM_MS, Some(binding.limits.expiresDays * DAY_MS), "slack",
         OwnerScoped, Some(ConfirmRoute), binding.targetId, Some(inboxSub), "standing", digest, digest,
         Expectation([], [], [], binding.summary), PolicyConfirm, PolicyConfirm, Some(sendEpoch), Some(standingEpoch),
         None, None, None, None, Some(binding), None)
  }

  function CreateStanding(binding: StandingBinding, inboxSub: string, sendEpoch: int, standingEpoch: int, id: string,
                          preparedBy: Option<string>, now: int): Made {
    if !StandingBindingOk(binding) || inboxSub == "" then NotMade(BadData)
    else if sendEpoch < 0 || standingEpoch < 0 then NotMade(Unexpected)
    else Made(Bound(StandingBase(binding, inboxSub, sendEpoch, standingEpoch, id, preparedBy), now))
  }

  function DisclosureBase(binding: DisclosureBinding, id: string, preparedBy: Option<string>): Base {
    Base(id, DisclosureKind, DIGEST_VERSION, preparedBy, CONFIRM_MS, Some(APPROVED_MS), "", Global, None, "", None, "",
         Plain(""), Plain(""), Expectation([], [], [], ""), PolicyConfirm, PolicyConfirm, None, None, None, None,
         None, None, None, Some(binding))
  }

  function CreateDisclosure(binding: DisclosureBinding, id: string, preparedBy: Option<string>, now: int): Made {
    if CanonicalDisclosureBinding(binding).None? then NotMade(BadData)
    else Made(Bound(DisclosureBase(binding, id, preparedBy), now))
  }

  // ---------- one use of a standing approval ----------

  datatype UseInput = UseInput(
    approvalId: string, sendEpoch: int, standingEpoch: int, inboxId: string, inboxSub: string, draftId: string,
    draftMessageId: Digest, contentDigest: Digest, expected: Expectation, use: StandingUse)

  function ChildBase(input: UseInput, parentId: string, live: Option<LiveGate>, preparedBy: Option<string>): Base {
    var policy := if live.Some? && live.value.sendPolicy == Some(PolicyChat) then PolicyChat else PolicyConfirm;
    Base(input.approvalId, SendKind, DIGEST_VERSION, preparedBy, CHILD_MS, Some(CHILD_MS), "slack", OwnerScoped,
         Some(StandingRoute), input.inboxId, Some(input.inboxSub), input.draftId, input.draftMessageId,
         input.contentDigest, input.expected, policy, PolicyConfirm, Some(input.sendEpoch), Some(input.standingEpoch),
         Some(parentId), Some(input.use), None, None, None, None)
  }

  // `createStandingChild`, after its parent was read, derived and classified for a claim.
  function MintChild(input: UseInput, parentId: string, parent: Outcome, live: Option<LiveGate>,
                     preparedBy: Option<string>, now: int): Made {
    var standing := parent.record;
    if !IsHex64(input.contentDigest) || !StandingUseOk(Some(input.use)) then NotMade(Unexpected)
    else if input.sendEpoch < 0 || input.standingEpoch < 0 then NotMade(Unexpected)
    else if !IsApprovalId(input.approvalId) then NotMade(Unexpected)
    else if parent.error.Some? then NotMade(parent.error.value)
    else if standing.state == Pending then NotMade(ApprovalPending)
    else if standing.state != Approved then NotMade(ApprovalVoid)
    else if standing.approvedVia != Some(Terminal) || standing.approvedBindingDigest != standing.bindingDigest
    then NotMade(ApprovalVoid)
    else if standing.base.standingEpoch != Some(input.standingEpoch)
            || standing.base.sendEpoch != Some(input.sendEpoch) then NotMade(ApprovalVoid)
    else if standing.base.inboxSub != Some(input.inboxSub) then NotMade(ApprovalVoid)
    else
      var sealed := Unbound(ChildBase(input, parentId, live, preparedBy), Approved, now,
                            BindingDigestOf(ChildBase(input, parentId, live, preparedBy)));
      Made(sealed.(approvedVia := Some(InAdvance), approvedAt := At(now), usableUntil := At(now + CHILD_MS),
                   approvedBindingDigest := sealed.bindingDigest))
  }

  // ---------- what callers ask ----------

  type ApprovalVia = v: Via | v == Terminal || v == Elicitation || v == App witness Terminal
  type AnswerVia = v: Via | v == Terminal || v == Elicitation witness Terminal

  datatype LiveDraft = LiveDraft(draftMessageId: Digest, contentDigest: Digest)

  datatype SendOutcome = Accepted(sentMessageId: string) | FailedWith(error: string)

  // What is expected of an id before anything of its record is looked at.
  datatype Expect = Expect(kind: Option<Kind>, channel: Option<string>, owner: Option<string>)

  datatype Act =
    | Inspect(action: Action, expecting: Expect)
    | IssueChallenge(kind: Kind, challenge: string)
    | IssueDisclosureChallenge(challenge: string)
    | Approve(kind: Kind, via: ApprovalVia, draft: LiveDraft, answer: string)
    | ApproveDisclosure(binding: DisclosureBinding, answer: string, channel: Via)
    | ClaimForSend(inboxId: string, inboxSub: Option<string>, draft: LiveDraft, expected: Expectation, cancelled: bool)
    | ClaimForChange(change: ChangeBinding, policy: Policy, cancelled: bool)
    | ClaimForDownload(download: DownloadBinding, cancelled: bool)
    | ClaimForDisclosure(binding: DisclosureBinding, deadlineMs: Option<int>)
    | Heartbeat(token: nat)
    | Complete(token: nat, outcome: SendOutcome)
    | Revoke(reason: string, expecting: Expect)
    | AnswerDownload(answeredVia: AnswerVia, saved: Answer)
    | NarrowStanding(owner: string, asked: Narrowing)

  function ActionOf(act: Act): Action {
    match act
    case Inspect(action, _) => action
    case IssueChallenge(_, _) | IssueDisclosureChallenge(_) | Approve(_, _, _, _) | ApproveDisclosure(_, _, _)
    | AnswerDownload(_, _) => Approving
    case ClaimForSend(_, _, _, _, _) | ClaimForChange(_, _, _) | ClaimForDownload(_, _) | ClaimForDisclosure(_, _)
    | Complete(_, _) => Claiming
    case Heartbeat(_) => Inspecting
    case Revoke(_, _) | NarrowStanding(_, _) => Revoking
  }

  function ExpectOf(act: Act): Expect {
    match act
    case Inspect(_, expecting) => expecting
    case Revoke(_, expecting) => expecting
    case IssueChallenge(kind, _) => Expect(Some(kind), None, None)
    case Approve(kind, _, _, _) => Expect(Some(kind), None, None)
    case IssueDisclosureChallenge(_) | ApproveDisclosure(_, _, _) | ClaimForDisclosure(_, _) =>
      Expect(Some(DisclosureKind), None, None)
    case ClaimForSend(inboxId, _, _, _, _) => Expect(Some(SendKind), None, Some(inboxId))
    case ClaimForChange(_, _, _) => Expect(Some(ChangeKind), None, None)
    case ClaimForDownload(_, _) | AnswerDownload(_, _) => Expect(Some(DownloadKind), None, None)
    case Heartbeat(_) | Complete(_, _) => Expect(Some(SendKind), None, None)
    case NarrowStanding(owner, _) => Expect(Some(StandingKind), None, Some(owner))
  }

  // The token a renewal or an outcome is held to.
  function TokenOf(act: Act): Option<nat> {
    match act
    case Heartbeat(token) => Some(token)
    case Complete(token, _) => Some(token)
    case _ => None
  }

  // What is refused before the lock is asked for.
  function EarlyRefusal(act: Act): Option<ErrorCode> {
    match act
    case IssueChallenge(kind, _) => if kind == DisclosureKind then Some(ApprovalRequired) else None
    case Approve(kind, via, _, _) =>
      if kind == DisclosureKind || (via == App && kind != ChangeKind) then Some(ApprovalRequired) else None
    case ClaimForDisclosure(_, deadline) => if deadline.Some? && deadline.value <= 0 then Some(BadData) else None
    case Complete(_, Accepted(id)) => if id == "" then Some(BadData) else None
    case _ => None
  }

  predicate MatchesExpectation(found: Stored, expecting: Expect) {
    match found
    case Unreadable => expecting.owner.None?
    case Corrupt(r, why) =>
      if why.Invalid? && why.ownerTrusted then MatchesRecord(r.base.kind, r.base.channel, r.base.inboxId, expecting)
      else expecting.owner.None?
    case Legacy(l) => MatchesRecord(l.kind, "", l.inboxId, expecting.(channel := None)) && expecting.channel.None?
    case V2(r) => MatchesRecord(r.base.kind, r.base.channel, r.base.inboxId, expecting)
  }

  predicate MatchesRecord(kind: Kind, channel: string, owner: string, expecting: Expect) {
    if kind == DisclosureKind then
      (expecting.kind.None? || expecting.kind == Some(DisclosureKind)) && expecting.channel.None? && expecting.owner.None?
    else
      && (expecting.kind.None? || expecting.kind == Some(kind))
      && (expecting.channel.None? || expecting.channel == Some(channel))
      && (expecting.owner.None? || expecting.owner == Some(owner))
  }

  // ---------- a locked transition ----------

  // What reading a record under its lock finds: a refusal, or the record as stored, as it now stands, and its outcome.
  datatype Opened =
    | Refusal(code: ErrorCode)
    | Opened(stored: Record, current: Record, outcome: Outcome, live: Option<LiveGate>)

  function GateOf(config: Option<Config>, b: Base): Option<LiveGate> {
    if config.None? then None else Some(LiveGateOf(config.value, b))
  }

  // A look persists a derived revocation only when a loosening could take it back; an act always does.
  predicate Persists(act: Act, outcome: Outcome) {
    outcome.revokes
    && ((ActionOf(act) != Inspecting && ActionOf(act) != Waiting) || (act.Inspect? && WrittenAtALook(outcome)))
  }

  function Open(found: Option<Stored>, act: Act, config: Option<Config>, now: int): Opened {
    if found.None? || !MatchesExpectation(found.value, ExpectOf(act)) then Refusal(NotFound)
    else if !found.value.V2? then Refusal(ApprovalVoid)
    else OpenRecord(found.value.record, act, config, now)
  }

  function OpenRecord(r: Record, act: Act, config: Option<Config>, now: int): (o: Opened)
    ensures o.Opened?
  {
    var derived := Derive(r, now);
    var live := GateOf(config, derived.base);
    var outcome := Classify(derived, ActionOf(act), live, now);
    Opened(r, if Persists(act, outcome) then outcome.record else derived, outcome, live)
  }

  // What a decision makes of the record: refused with nothing more written, left as it is, or the next record.
  datatype Decision = Refuse(code: ErrorCode) | Keep | Put(next: Record, failure: Option<ErrorCode>)

  // A revocation that leaves an issued challenge's hash where it is, as the void paths of an approval do.
  function VoidedBy(r: Record, reason: string, at: int): Record {
    r.(state := Revoked, reason := Some(reason), revokedAt := At(at))
  }

  const CONTENT_CHANGED := "the draft content changed after the preview"
  const WRONG_CHANNEL := "this was not approved at a terminal"
  const TOO_MANY_ANSWERS := "too many wrong answers to the challenge"
  const BINDING_CHANGED := "the disclosure binding changed after it was prepared"

  // A wrong answer: one more attempt, and the third voids it.
  function WrongAnswer(r: Record, now: int): Decision {
    var counted := r.(challengeAttempts := r.challengeAttempts + 1);
    if counted.challengeAttempts >= MAX_CHALLENGE_ATTEMPTS
    then Put(VoidedBy(counted, TOO_MANY_ANSWERS, now), Some(ApprovalVoid))
    else Put(counted, Some(ApprovalRequired))
  }

  // The code shown to the person, its hash kept in place of any issued before.
  function DecideIssue(cur: Record, outcome: Outcome, challenge: string): Decision {
    if outcome.error.Some? then Refuse(outcome.error.value)
    else if cur.state != Pending then Refuse(Usage)
    else Put(cur.(challengeHash := Some(CodeOf(challenge))), None)
  }

  function DecideApprove(cur: Record, outcome: Outcome, live: Option<LiveGate>, kind: Kind, via: ApprovalVia,
                         draft: LiveDraft, answer: string, now: int): Decision {
    if outcome.error.Some? then Refuse(outcome.error.value)
    else if cur.state != Pending then Refuse(Usage)
    else if cur.challengeHash.None? then Refuse(ApprovalRequired)
    else if (kind == ChangeKind && via != Terminal && via != App) || (kind == StandingKind && via != Terminal)
    then Put(VoidedBy(cur, WRONG_CHANNEL, now), Some(ApprovalVoid))
    else if draft != LiveDraft(cur.base.draftMessageId, cur.base.contentDigest)
    then Put(VoidedBy(cur, CONTENT_CHANGED, now), Some(ApprovalVoid))
    else if Some(CodeOf(answer)) != cur.challengeHash then WrongAnswer(cur, now)
    else Put(ApprovedBy(cur, live, via, now), None)
  }

  // The code typed is the one issued, for the very content the record was prepared for.
  predicate AnsweredForItself(cur: Record, draft: LiveDraft, answer: string) {
    && cur.challengeHash == Some(CodeOf(answer))
    && draft.draftMessageId == cur.base.draftMessageId && draft.contentDigest == cur.base.contentDigest
  }

  function ApprovedBy(cur: Record, live: Option<LiveGate>, via: Via, now: int): Record {
    cur.(state := Approved, approvedVia := Some(via), approvedAt := At(now),
         usableUntil := At(now + cur.base.approvedMs.Or(APPROVED_MS)), approvedBindingDigest := cur.bindingDigest,
         challengeHash := None,
         approvedChangePolicy := if cur.base.kind == StandingKind
                                 then Some(if live.Some? then live.value.changePolicy.Or(PolicyChat) else PolicyChat)
                                 else cur.approvedChangePolicy)
  }

  function DecideApproveDisclosure(cur: Record, outcome: Outcome, binding: DisclosureBinding, answer: string, channel: Via,
                                   now: int): Decision {
    if outcome.error.Some? then Refuse(outcome.error.value)
    else if cur.state != Pending then Refuse(Usage)
    else if channel != Terminal && channel != App then Refuse(ApprovalRequired)
    else if cur.challengeHash.None? then Refuse(ApprovalRequired)
    else if cur.base.disclosure.None? || !SameDisclosureBinding(cur.base.disclosure.value, binding)
    then Put(RevokedBy(cur, BINDING_CHANGED, now), Some(ApprovalVoid))
    else if Some(CodeOf(answer)) != cur.challengeHash then WrongAnswer(cur, now)
    else Put(cur.(state := Approved, approvedVia := Some(channel), approvedAt := At(now),
                  usableUntil := At(now + APPROVED_MS), approvedDigest := Some(cur.base.disclosure.value.digest),
                  challengeHash := None), None)
  }

  predicate SameExpectation(a: Expectation, b: Expectation) {
    && SameList(a.to, b.to) && SameList(a.cc, b.cc) && SameList(a.bcc, b.bcc) && Trim(a.subject) == Trim(b.subject)
  }

  // `claimForSend`: `parentProblem` is what reading a standing child's parent found, when there was anything to read.
  function DecideClaimForSend(cur: Record, outcome: Outcome, act: Act, parentProblem: Option<string>, now: int): Decision
    requires act.ClaimForSend?
  {
    if outcome.error.Some? then Refuse(outcome.error.value)
    else if act.cancelled then Refuse(Usage)
    else if parentProblem.Some? then Put(RevokedBy(cur, parentProblem.value, now), Some(ApprovalVoid))
    else if cur.base.inboxSub.Some? && cur.base.inboxSub.value != "" && cur.base.inboxSub != act.inboxSub
    then Put(RevokedBy(cur, CONTENT_CHANGED, now), Some(ApprovalVoid))
    else if act.draft != LiveDraft(cur.base.draftMessageId, cur.base.contentDigest)
    then Put(RevokedBy(cur, CONTENT_CHANGED, now), Some(ApprovalVoid))
    else if !SameExpectation(act.expected, cur.base.expected)
    then Put(RevokedBy(cur, CONTENT_CHANGED, now), Some(ApprovalVoid))
    else if !outcome.claimable then Refuse(ApprovalPending)
    else if cur.state == Approved && cur.approvedBindingDigest != cur.bindingDigest
    then Put(RevokedBy(cur, CONTENT_CHANGED, now), Some(ApprovalVoid))
    else Put(cur.(state := Sending, sendingAt := At(now)), None)
  }

  function DecideClaimForChange(cur: Record, outcome: Outcome, live: Option<LiveGate>, change: ChangeBinding,
                                policy: Policy, cancelled: bool, now: int): Decision {
    var gate := if live.Some? then live.value.changePolicy.Or(PolicyConfirm) else PolicyConfirm;
    var governing := StricterPolicy(policy, gate);
    if outcome.error.Some? then Refuse(outcome.error.value)
    else if cancelled then Refuse(Usage)
    else if ChangeDigest(change) != cur.base.contentDigest
    then Put(VoidedBy(cur, CONTENT_CHANGED, now), Some(ApprovalVoid))
    else if !outcome.claimable || StricterPolicy(governing, cur.base.requiredPolicy) != PolicyChat then
      if cur.state != Approved then Refuse(ApprovalPending)
      else if cur.approvedVia != Some(Terminal) && cur.approvedVia != Some(App)
      then Put(VoidedBy(cur, WRONG_CHANNEL, now), Some(ApprovalVoid))
      else Put(cur.(state := Used, usedAt := At(now)), None)
    else Put(cur.(state := Used, usedAt := At(now)), None)
  }

  function DecideClaimForDownload(cur: Record, outcome: Outcome, download: DownloadBinding, cancelled: bool,
                                  now: int): Decision {
    if outcome.error.Some? then Refuse(outcome.error.value)
    else if cancelled then Refuse(Usage)
    else if cur.base.download.None? || DownloadDigest(cur.base.download.value) != cur.base.contentDigest
    then Put(VoidedBy(cur, CONTENT_CHANGED, now), Some(ApprovalVoid))
    else if DownloadDigest(download) != cur.base.contentDigest then Refuse(Usage)
    else if !outcome.claimable then Refuse(ApprovalPending)
    else Put(cur.(state := Used, usedAt := At(now)), None)
  }

  function DecideClaimForDisclosure(cur: Record, outcome: Outcome, binding: DisclosureBinding, deadlineMs: Option<int>,
                                    now: int): Decision {
    if outcome.error.Some? then Refuse(outcome.error.value)
    else if deadlineMs.Some? && now >= deadlineMs.value then Refuse(ApprovalVoid)
    else if cur.state == Pending then Refuse(ApprovalPending)
    else if cur.state != Approved then Refuse(ApprovalVoid)
    else if cur.base.disclosure.None? || !SameDisclosureBinding(cur.base.disclosure.value, binding)
            || cur.approvedDigest != Some(cur.base.disclosure.value.digest)
    then Put(RevokedBy(cur, BINDING_CHANGED, now), Some(ApprovalVoid))
    else Put(cur.(state := Used, usedAt := At(now)), None)
  }

  // A clock behind the last renewal writes nothing: the lease it gave is still good.
  function DecideHeartbeat(cur: Record, now: int): Decision {
    if cur.state == Sending && cur.Renewed().At? && now > cur.Renewed().ms
    then Put(cur.(sendingHeartbeatAt := At(now)), None)
    else Keep
  }

  // Never before the claim or its last renewal, whatever the clock says.
  function CompletedAt(cur: Record, now: int): int {
    if cur.Renewed().At? && cur.Renewed().ms > now then cur.Renewed().ms else now
  }

  function DecideComplete(cur: Record, outcome: Outcome, result: SendOutcome, now: int): Decision {
    if cur.state != Sending && cur.state != Unknown then Refuse(outcome.error.Or(ApprovalVoid))
    else
      var at := At(CompletedAt(cur, now));
      match result
      case Accepted(id) =>
        Put(cur.(state := Used, sentMessageId := Some(id), sentAt := at, usedAt := at, reason := None), None)
      case FailedWith(error) => Put(cur.(state := Failed, reason := Some(error), failedAt := at), None)
  }

  function DecideAnswer(cur: Record, outcome: Outcome, via: AnswerVia, answer: Answer): Decision {
    if outcome.error.Some? then Refuse(outcome.error.value)
    else if cur.state == Approved then Refuse(ApprovalVoid)
    else if cur.base.download.None? || DownloadDigest(cur.base.download.value) != cur.base.contentDigest
    then Refuse(ApprovalVoid)
    else Put(cur.(state := Approved, approvedVia := Some(via),
                  approvedDigest := Some(AnswerDigest(cur.bindingDigest, answer)), answer := Some(answer)), None)
  }

  // What is asked is of what is in force, and only ever less; anything else is refused.
  function DecideNarrow(cur: Record, outcome: Outcome, asked: Narrowing): Decision {
    if outcome.error.Some? then Refuse(outcome.error.value)
    else if !cur.Active() || cur.base.standing.None? then Refuse(ApprovalVoid)
    else
      match NarrowedFurther(cur.base.standing.value, cur.narrowed, asked)
      case Narrower(narrowing) => Put(cur.(narrowed := Some(narrowing)), None)
      case Widening => Refuse(Usage)
      case OutOfRange => Refuse(BadData)
  }

  function Decide(act: Act, cur: Record, outcome: Outcome, live: Option<LiveGate>, parentProblem: Option<string>,
                  now: int): Decision {
    match act
    case Inspect(_, _) => Keep
    case IssueChallenge(_, challenge) => DecideIssue(cur, outcome, challenge)
    case IssueDisclosureChallenge(challenge) => DecideIssue(cur, outcome, challenge)
    case Approve(kind, via, draft, answer) => DecideApprove(cur, outcome, live, kind, via, draft, answer, now)
    case ApproveDisclosure(binding, answer, channel) => DecideApproveDisclosure(cur, outcome, binding, answer, channel, now)
    case ClaimForSend(_, _, _, _, _) => DecideClaimForSend(cur, outcome, act, parentProblem, now)
    case ClaimForChange(change, policy, cancelled) =>
      DecideClaimForChange(cur, outcome, live, change, policy, cancelled, now)
    case ClaimForDownload(download, cancelled) => DecideClaimForDownload(cur, outcome, download, cancelled, now)
    case ClaimForDisclosure(binding, deadlineMs) => DecideClaimForDisclosure(cur, outcome, binding, deadlineMs, now)
    case Heartbeat(_) => DecideHeartbeat(cur, now)
    case Complete(_, result) => DecideComplete(cur, outcome, result, now)
    case Revoke(reason, _) => if cur.Active() then Put(RevokedBy(cur, reason, now), None) else Keep
    case AnswerDownload(via, answer) => DecideAnswer(cur, outcome, via, answer)
    case NarrowStanding(_, asked) => DecideNarrow(cur, outcome, asked)
  }

  // What a standing child's claim finds of its parent, read and classified for a claim.
  function ParentProblem(child: Record, parent: Opened): Option<string> {
    if child.base.standingId.None? || child.base.standingUse.None? then Some("it names no standing approval")
    else if parent.Refusal? then Some("its standing approval could not be read")
    else
      var p := parent.outcome.record;
      if parent.outcome.error.Some? || p.state != Approved || p.base.standing.None?
      then Some("its standing approval has ended")
      else if !Covers(p.base.standing.value, p.narrowed, child.base.standingUse.value)
      then Some("its standing approval no longer covers it")
      else None
  }

  // The parent is read only for a standing child whose claim is not refused already.
  predicate ReadsParent(act: Act, cur: Record, outcome: Outcome) {
    act.ClaimForSend? && outcome.error.None? && cur.base.route == Some(StandingRoute) && cur.state == Approved
  }
}
