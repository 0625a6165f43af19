/**
  The integrity check of a version-2 record (packages/core/src/approval-validate.ts): the source's chain of early
  returns, each with its reason, and beside it `WellFormed`, which says in one piece what a valid record is.
  */
module ApprovalValidate {
  import opened Wrappers
  import opened Records
  import opened ApprovalBinding

  datatype Reason =
    | FileNameMismatch | BindingMissing | BindingMalformed | BindingMismatch | WrongShape | DigestVersionOff
    | ContentDigestMalformed | ContentDigestMismatch | IdentityContradiction | ListingMismatch | NarrowingInvalid
    | StateImpossible | LifetimeMismatch | TimestampInvalid | TimestampMissing | TimestampMisplaced
    | TimestampMisordered | SentIdMissing | EvidenceMissing | EvidenceInvalid | EvidenceContradictory

  datatype Validation = Valid | Invalid(reason: Reason, ownerTrusted: bool)

  // ---------- the source's checks, in its order ----------

  predicate ReachableState(b: Base, state: State) {
    match b.kind
    case SendKind => b.route == Some(StandingRoute) ==> state != Pending
    case ChangeKind | DownloadKind | DisclosureKind =>
      state == Pending || state == Approved || state == Used || state == Expired || state == Revoked
    case StandingKind => state == Pending || state == Approved || state == Expired || state == Revoked
  }

  predicate ClaimedSend(state: State) {
    state == Sending || state == Used || state == Failed || state == Unknown
  }

  function StampsOf(r: Record): seq<Stamp> {
    [r.createdAt, r.expiresAt, r.approvedAt, r.usableUntil, r.sendingAt, r.sendingHeartbeatAt, r.usedAt, r.sentAt,
     r.failedAt, r.revokedAt, r.expiredAt]
  }

  predicate Readable(stamps: seq<Stamp>) {
    BadStamp !in stamps
  }

  function Times(stamps: seq<Stamp>): seq<Option<int>>
    requires Readable(stamps)
  {
    seq(|stamps|, i requires 0 <= i < |stamps| => if stamps[i].At? then Some(stamps[i].ms) else None)
  }

  // The loop that fills the record of times: the first string that is no time fails the whole.
  method ReadTimes(stamps: seq<Stamp>) returns (times: Option<seq<Option<int>>>)
    ensures times.Some? <==> Readable(stamps)
    ensures times.Some? ==> times.value == Times(stamps)
  {
    var read: seq<Option<int>> := [];
    for i := 0 to |stamps|
      invariant |read| == i
      invariant forall k | 0 <= k < i :: stamps[k] != BadStamp
      invariant forall k | 0 <= k < i :: read[k] == if stamps[k].At? then Some(stamps[k].ms) else None
    {
      if stamps[i] == BadStamp {
        return None;
      }
      read := read + [if stamps[i].At? then Some(stamps[i].ms) else None];
    }
    assert Readable(stamps);
    assert read == Times(stamps);
    return Some(read);
  }

  function CheckIdentity(b: Base): Option<Reason> {
    if !IsKnownChannel(b.channel) then Some(IdentityContradiction)
    else if b.kind != ChangeKind && (b.ownerScope != OwnerScoped || b.inboxId == "") then Some(IdentityContradiction)
    else if b.kind == ChangeKind && !ChangeOwnerFits(b) then Some(IdentityContradiction)
    else if b.kind == SendKind || b.kind == StandingKind then
      if !WholeEpoch(b.sendEpoch) then Some(IdentityContradiction) else CheckStandingIdentity(b)
    else if b.sendEpoch.Some? then Some(IdentityContradiction)
    else CheckStandingIdentity(b)
  }

  // A change's scope and owner are what its target says.
  predicate ChangeOwnerFits(b: Base) {
    if b.change.None? || b.change.value.target.None? then b.ownerScope == Global && b.inboxId == ""
    else if b.change.value.target.value.id.None? then b.ownerScope == Prospective && b.inboxId == ""
    else b.ownerScope == OwnerScoped && b.inboxId == b.change.value.target.value.id.value
  }

  predicate WholeEpoch(epoch: Option<int>) {
    epoch.Some? && epoch.value >= 0
  }

  predicate IsChildBase(b: Base) {
    b.kind == SendKind && b.route == Some(StandingRoute)
  }

  function CheckStandingIdentity(b: Base): Option<Reason> {
    var child := IsChildBase(b);
    if (b.kind == StandingKind || child) && (b.channel != "slack" || !WholeEpoch(b.standingEpoch))
    then Some(IdentityContradiction)
    else if !(b.kind == StandingKind || child) && b.standingEpoch.Some? then Some(IdentityContradiction)
    else if child && (b.standingId.None? || !IsApprovalId(b.standingId.value)) then Some(IdentityContradiction)
    else if child && b.standingId == Some(b.approvalId) then Some(IdentityContradiction)
    else if child && !StandingUseOk(b.standingUse) then Some(IdentityContradiction)
    else if !child && (b.standingId.Some? || b.standingUse.Some?) then Some(IdentityContradiction)
    else if b.kind == StandingKind && (b.standing.None? || b.standing.value.targetId != b.inboxId)
    then Some(IdentityContradiction)
    else if b.kind == DownloadKind && (b.download.None? || b.download.value.targetId != b.inboxId)
    then Some(IdentityContradiction)
    else if b.kind == DownloadKind && !ListingFits(b.download.value) then Some(ListingMismatch)
    else None
  }

  function NamesOf(listing: seq<ListedFile>): seq<string> {
    seq(|listing|, i requires 0 <= i < |listing| => listing[i].name)
  }

  predicate ListingFits(d: DownloadBinding) {
    d.listing.Some? ==> NamesOf(d.listing.value) == d.names
  }

  function CheckLifetime(b: Base): Option<Reason> {
    match b.kind
    case DownloadKind =>
      if b.pendingMs != DOWNLOAD_MS || b.route.Some? || b.approvedMs.Some? then Some(LifetimeMismatch) else None
    case StandingKind =>
      if b.route != Some(ConfirmRoute) || b.pendingMs != CONFIRM_MS then Some(LifetimeMismatch)
      else if b.standing.None? || !(1 <= b.standing.value.limits.expiresDays <= 30) then Some(LifetimeMismatch)
      else if b.approvedMs != Some(b.standing.value.limits.expiresDays * DAY_MS) then Some(LifetimeMismatch)
      else if b.policy != PolicyConfirm || b.requiredPolicy != PolicyConfirm then Some(LifetimeMismatch)
      else None
    case _ =>
      if IsChildBase(b) then
        if b.pendingMs != CHILD_MS || b.approvedMs != Some(CHILD_MS) then Some(LifetimeMismatch) else None
      else if b.route != Some(ChatRoute) && b.route != Some(ConfirmRoute) then Some(LifetimeMismatch)
      else if b.pendingMs != PendingMsOf(b.route.value) || b.approvedMs != Some(APPROVED_MS)
      then Some(LifetimeMismatch)
      else None
  }

  predicate OnlyIn(stamp: Stamp, allowed: bool) {
    stamp == NoStamp || allowed
  }

  // Where each time may be at all, and which a state cannot be without.
  function CheckPlacement(r: Record): Option<Reason> {
    var kind := r.base.kind;
    if r.createdAt == NoStamp || r.expiresAt == NoStamp then Some(TimestampMissing)
    else if !(r.createdAt.At? && r.expiresAt.At? && r.expiresAt.ms - r.createdAt.ms == r.base.pendingMs)
    then Some(LifetimeMismatch)
    else if r.reason == Some(CLOCK_ANOMALY) && r.state != Expired then Some(TimestampMisplaced)
    else if kind == DownloadKind && (r.approvedAt != NoStamp || r.usableUntil != NoStamp) then Some(TimestampMisplaced)
    else if kind != SendKind && (r.sendingAt != NoStamp || r.sendingHeartbeatAt != NoStamp || r.sentAt != NoStamp
                                 || r.failedAt != NoStamp) then Some(TimestampMisplaced)
    else if !OnlyIn(r.usedAt, r.state == Used) || !OnlyIn(r.sentAt, r.state == Used)
            || !OnlyIn(r.failedAt, r.state == Failed) || !OnlyIn(r.revokedAt, r.state == Revoked)
            || !OnlyIn(r.expiredAt, r.state == Expired) then Some(TimestampMisplaced)
    else if kind == SendKind && (!OnlyIn(r.sendingAt, ClaimedSend(r.state))
                                 || !OnlyIn(r.sendingHeartbeatAt, ClaimedSend(r.state))) then Some(TimestampMisplaced)
    else if kind == SendKind && ClaimedSend(r.state) && r.sendingAt == NoStamp then Some(TimestampMissing)
    else if r.state == Used && r.usedAt == NoStamp then Some(TimestampMissing)
    else if r.state == Used && kind == SendKind && r.sentAt == NoStamp then Some(TimestampMissing)
    else if r.state == Failed && r.failedAt == NoStamp then Some(TimestampMissing)
    else if r.state == Revoked && r.revokedAt == NoStamp then Some(TimestampMissing)
    else if r.state == Expired && r.expiredAt == NoStamp then Some(TimestampMissing)
    else None
  }

  // The approved window: together or not at all.
  function CheckWindow(r: Record): Option<Reason> {
    if (r.approvedAt == NoStamp) != (r.usableUntil == NoStamp) then Some(TimestampMissing)
    else if r.state == Approved && r.base.kind != DownloadKind && r.approvedAt == NoStamp then Some(TimestampMissing)
    else if r.approvedAt.At? && r.usableUntil.At? && r.createdAt.At? && r.expiresAt.At? then
      if r.state == Pending then Some(TimestampMisplaced)
      else if !(r.createdAt.ms <= r.approvedAt.ms < r.expiresAt.ms) then Some(TimestampMisordered)
      else if r.base.approvedMs != Some(r.usableUntil.ms - r.approvedAt.ms) then Some(LifetimeMismatch)
      else if r.IsChild() && r.approvedAt != r.createdAt then Some(TimestampMisordered)
      else None
    else if r.IsChild() then Some(TimestampMissing)
    else None
  }

  function SinceOf(r: Record): Stamp {
    if r.approvedAt == NoStamp then r.createdAt else r.approvedAt
  }

  function DeadlineOf(r: Record): Stamp {
    if r.usableUntil == NoStamp then r.expiresAt else r.usableUntil
  }

  // `since <= at < deadline`.
  predicate InWindow(r: Record, at: Stamp) {
    at.At? && SinceOf(r).At? && DeadlineOf(r).At? && SinceOf(r).ms <= at.ms < DeadlineOf(r).ms
  }

  predicate Later(a: Stamp, b: Stamp) {
    a.At? && b.At? && a.ms > b.ms
  }

  function CheckOrder(r: Record): Option<Reason> {
    var kind := r.base.kind;
    if r.sendingAt != NoStamp && !InWindow(r, r.sendingAt) then Some(TimestampMisordered)
    else if r.sendingHeartbeatAt != NoStamp
            && (r.sendingAt == NoStamp || Later(r.sendingAt, r.sendingHeartbeatAt)) then Some(TimestampMisordered)
    else if r.sendingHeartbeatAt != NoStamp
            && Later(r.sendingHeartbeatAt, if r.usedAt == NoStamp then r.failedAt else r.usedAt)
    then Some(TimestampMisordered)
    else if kind == SendKind && r.state == Used && (r.sentMessageId.None? || r.sentMessageId.value == "")
    then Some(SentIdMissing)
    else if kind == SendKind && r.state == Used && r.usedAt != r.sentAt then Some(TimestampMisordered)
    else if kind == SendKind && r.state == Used && (r.sendingAt == NoStamp || Later(r.sendingAt, r.sentAt))
    then Some(TimestampMisordered)
    else if !(kind == SendKind && r.state == Used) && r.sentMessageId.Some? then Some(TimestampMisplaced)
    else if r.failedAt != NoStamp && (r.sendingAt == NoStamp || Later(r.sendingAt, r.failedAt))
    then Some(TimestampMisordered)
    else if kind != SendKind && r.usedAt != NoStamp && !InWindow(r, r.usedAt) then Some(TimestampMisordered)
    else if r.revokedAt != NoStamp && !InWindow(r, r.revokedAt) then Some(TimestampMisordered)
    else if r.expiredAt != NoStamp && !(r.state == Expired && r.reason == Some(CLOCK_ANOMALY))
            && Later(SinceOf(r), r.expiredAt) then Some(TimestampMisordered)
    else None
  }

  function CheckTimestamps(r: Record): Option<Reason> {
    var placement := CheckPlacement(r);
    if placement.Some? then placement
    else
      var window := CheckWindow(r);
      if window.Some? then window else CheckOrder(r)
  }

  function AnswerOnRecord(r: Record): Option<Answer> {
    if r.base.download.Some? then r.answer else None
  }

  function CheckDownloadEvidence(r: Record): Option<Reason> {
    var answer := AnswerOnRecord(r);
    if r.approvedBindingDigest.Some? then Some(EvidenceContradictory)
    else if r.approvedVia.None? && r.approvedDigest.None? && answer.None? then
      (if r.state == Approved then Some(EvidenceMissing) else None)
    else if r.approvedVia.None? || r.approvedDigest.None? || answer.None? then Some(EvidenceMissing)
    else if r.state == Pending then Some(EvidenceContradictory)
    else if r.approvedDigest != Some(AnswerDigest(r.bindingDigest, answer.value)) then Some(EvidenceContradictory)
    else None
  }

  function CheckEvidence(r: Record): Option<Reason> {
    var kind := r.base.kind;
    var via := r.approvedVia;
    if via == Some(OtherVia) then Some(EvidenceInvalid)
    else if via == Some(App) && kind != ChangeKind then Some(EvidenceInvalid)
    else if (via == Some(InAdvance)) != (r.IsChild() && via.Some?) then Some(EvidenceInvalid)
    else if r.approvedChangePolicy.Some? && (kind != StandingKind || r.approvedAt == NoStamp)
    then Some(EvidenceContradictory)
    else if kind == DownloadKind then CheckDownloadEvidence(r)
    else if r.approvedDigest.Some? then Some(EvidenceContradictory)
    else if r.approvedAt == NoStamp then
      (if via.Some? || r.approvedBindingDigest.Some? then Some(EvidenceContradictory) else None)
    else if via.None? || r.approvedBindingDigest.None? then Some(EvidenceMissing)
    else if kind == StandingKind && r.approvedChangePolicy != Some(PolicyChat)
            && r.approvedChangePolicy != Some(PolicyConfirm) then Some(EvidenceMissing)
    else if kind == ChangeKind && via != Some(Terminal) && via != Some(App) then Some(EvidenceInvalid)
    else if kind == StandingKind && via != Some(Terminal) then Some(EvidenceInvalid)
    else if r.IsChild() && via != Some(InAdvance) then Some(EvidenceInvalid)
    else if r.approvedBindingDigest != r.bindingDigest then Some(EvidenceContradictory)
    else None
  }

  function CheckDisclosure(r: Record): Option<Reason> {
    if !ReachableState(r.base, r.state) then Some(StateImpossible)
    else if r.base.disclosure.None? || CanonicalDisclosureBinding(r.base.disclosure.value).None? then Some(WrongShape)
    else if r.base.pendingMs != CONFIRM_MS || r.base.approvedMs != Some(APPROVED_MS) then Some(LifetimeMismatch)
    else if !Readable(StampsOf(r)) then Some(TimestampInvalid)
    else if r.createdAt == NoStamp || r.expiresAt == NoStamp then Some(TimestampMissing)
    else if !(r.createdAt.At? && r.expiresAt.At? && r.expiresAt.ms - r.createdAt.ms == CONFIRM_MS)
    then Some(LifetimeMismatch)
    else if (r.approvedAt == NoStamp) != (r.usableUntil == NoStamp) then Some(TimestampMissing)
    else if r.approvedAt.At? && !(r.createdAt.ms <= r.approvedAt.ms < r.expiresAt.ms) then Some(TimestampMisordered)
    else if r.approvedAt.At? && r.usableUntil.At? && r.usableUntil.ms - r.approvedAt.ms != APPROVED_MS
    then Some(LifetimeMismatch)
    else if r.state == Approved && r.approvedAt == NoStamp then Some(TimestampMissing)
    else if r.state == Used && r.usedAt == NoStamp then Some(TimestampMissing)
    else if r.state != Used && r.usedAt != NoStamp then Some(TimestampMisplaced)
    else if r.state == Revoked && r.revokedAt == NoStamp then Some(TimestampMissing)
    else if r.state != Revoked && r.revokedAt != NoStamp then Some(TimestampMisplaced)
    else if r.state == Expired && r.expiredAt == NoStamp then Some(TimestampMissing)
    else if r.state != Expired && r.expiredAt != NoStamp then Some(TimestampMisplaced)
    else if r.usedAt != NoStamp && !(r.approvedAt.At? && InWindow(r, r.usedAt)) then Some(TimestampMisordered)
    else if r.revokedAt.At?
            && !(r.createdAt.ms <= r.revokedAt.ms && DeadlineOf(r).At? && r.revokedAt.ms < DeadlineOf(r).ms)
    then Some(TimestampMisordered)
    else if r.expiredAt != NoStamp && Later(SinceOf(r), r.expiredAt) then Some(TimestampMisordered)
    else if !(0 <= r.challengeAttempts <= 3) then Some(EvidenceInvalid)
    else if r.approvedAt == NoStamp then
      (if r.approvedVia.Some? || r.approvedDigest.Some? then Some(EvidenceContradictory) else None)
    else if (r.approvedVia != Some(Terminal) && r.approvedVia != Some(App))
            || r.approvedDigest != Some(r.base.disclosure.value.digest) then Some(EvidenceContradictory)
    else None
  }

  function CheckContent(r: Record): Option<Reason> {
    var b := r.base;
    if !IsHex64(b.contentDigest) then Some(ContentDigestMalformed)
    else if b.kind == ChangeKind && (b.change.None? || ChangeDigest(b.change.value) != b.contentDigest)
    then Some(ContentDigestMismatch)
    else if b.kind == DownloadKind && (b.download.None? || DownloadDigest(b.download.value) != b.contentDigest)
    then Some(ContentDigestMismatch)
    else if b.kind == StandingKind then
      if b.standing.None? || !StandingBindingOk(b.standing.value) then Some(WrongShape)
      else if StandingDigest(b.standing.value) != b.contentDigest then Some(ContentDigestMismatch)
      else if !NarrowingOk(b.standing.value, r.narrowed) then Some(NarrowingInvalid)
      else None
    else if b.standing.Some? || r.narrowed.Some? then Some(WrongShape)
    else None
  }

  function CheckOrdinary(r: Record): Option<Reason> {
    var content := CheckContent(r);
    if content.Some? then content
    else
      var identity := CheckIdentity(r.base);
      if identity.Some? then identity
      else if !ReachableState(r.base, r.state) then Some(StateImpossible)
      else
        var lifetime := CheckLifetime(r.base);
        if lifetime.Some? then lifetime
        else if !Readable(StampsOf(r)) then Some(TimestampInvalid)
        else
          var times := CheckTimestamps(r);
          if times.Some? then times else CheckEvidence(r)
  }

  function CheckVerified(r: Record): Option<Reason> {
    if r.base.digestVersion != DIGEST_VERSION then Some(DigestVersionOff)
    else if r.base.preparedBy.Some? && !IsConnectionId(r.base.preparedBy.value) then Some(WrongShape)
    else if r.base.kind == DisclosureKind then CheckDisclosure(r)
    else CheckOrdinary(r)
  }

  function ValidateV2(r: Record, fileId: string): Validation {
    if r.base.approvalId != fileId then Invalid(FileNameMismatch, false)
    else if r.bindingDigest.None? then Invalid(BindingMissing, false)
    else if !IsHex64(r.bindingDigest.value) then Invalid(BindingMalformed, false)
    else if BindingDigestOf(r.base).None? then Invalid(WrongShape, false)
    else if BindingDigestOf(r.base) != r.bindingDigest then Invalid(BindingMismatch, false)
    else
      var verified := CheckVerified(r);
      if verified.Some? then Invalid(verified.value, true) else Valid
  }

  // ---------- what a valid record is ----------

  // What never changes after a record is made.
  predicate BaseWellFormed(b: Base) {
    && b.digestVersion == DIGEST_VERSION
    && (b.preparedBy.Some? ==> IsConnectionId(b.preparedBy.value))
    && BindingDigestOf(b).Some?
    && if b.kind == DisclosureKind then b.pendingMs == CONFIRM_MS && b.approvedMs == Some(APPROVED_MS)
       else OrdinaryBaseWellFormed(b)
  }

  predicate OrdinaryBaseWellFormed(b: Base) {
    && IsHex64(b.contentDigest)
    && IsKnownChannel(b.channel)
    && (b.kind == ChangeKind ==>
          && b.change.Some? && b.contentDigest == ChangeDigest(b.change.value) && ChangeOwnerFits(b))
    && (b.kind != ChangeKind ==> b.ownerScope == OwnerScoped && b.inboxId != "")
    && (b.kind == DownloadKind ==>
          && b.download.Some? && b.contentDigest == DownloadDigest(b.download.value)
          && b.download.value.targetId == b.inboxId && ListingFits(b.download.value)
          && b.pendingMs == DOWNLOAD_MS && b.route.None? && b.approvedMs.None?)
    && (b.kind == StandingKind ==>
          && b.standing.Some? && StandingBindingOk(b.standing.value)
          && b.contentDigest == StandingDigest(b.standing.value) && b.standing.value.targetId == b.inboxId
          && b.route == Some(ConfirmRoute) && b.pendingMs == CONFIRM_MS
          && b.approvedMs == Some(b.standing.value.limits.expiresDays * DAY_MS)
          && b.policy == PolicyConfirm && b.requiredPolicy == PolicyConfirm)
    && (b.kind != StandingKind ==> b.standing.None?)
    && (if b.kind == SendKind || b.kind == StandingKind then WholeEpoch(b.sendEpoch) else b.sendEpoch.None?)
    && (if b.kind == StandingKind || IsChildBase(b) then b.channel == "slack" && WholeEpoch(b.standingEpoch)
        else b.standingEpoch.None?)
    && (if IsChildBase(b)
        then && b.standingId.Some? && IsApprovalId(b.standingId.value) && b.standingId.value != b.approvalId
             && StandingUseOk(b.standingUse) && b.pendingMs == CHILD_MS && b.approvedMs == Some(CHILD_MS)
        else b.standingId.None? && b.standingUse.None?)
    && (b.kind == ChangeKind || (b.kind == SendKind && !IsChildBase(b)) ==>
          && (b.route == Some(ChatRoute) || b.route == Some(ConfirmRoute))
          && b.pendingMs == PendingMsOf(b.route.value) && b.approvedMs == Some(APPROVED_MS))
  }

  // When the record may be acted on: from its creation or approval up to its deadline.
  predicate Windowed(r: Record) {
    && r.createdAt.At? && r.expiresAt.At? && r.expiresAt.ms == r.createdAt.ms + r.base.pendingMs
    && (r.approvedAt.At? || r.approvedAt == NoStamp)
    && (if r.approvedAt.At?
        then && r.usableUntil.At? && r.base.approvedMs == Some(r.usableUntil.ms - r.approvedAt.ms)
             && r.createdAt.ms <= r.approvedAt.ms < r.expiresAt.ms
        else r.usableUntil == NoStamp)
  }

  // Each ending has its own time, and no other has one.
  predicate Ended(stamp: Stamp, inState: bool) {
    if inState then stamp.At? else stamp == NoStamp
  }

  predicate TimesWellFormed(r: Record) {
    var send := r.base.kind == SendKind;
    && Windowed(r)
    && (r.approvedAt.At? ==> r.state != Pending && r.base.kind != DownloadKind)
    && (r.state == Approved && r.base.kind != DownloadKind ==> r.approvedAt.At?)
    && (r.IsChild() ==> r.approvedAt == r.createdAt)
    && Ended(r.usedAt, r.state == Used)
    && Ended(r.sentAt, r.state == Used && send)
    && Ended(r.failedAt, r.state == Failed)
    && Ended(r.revokedAt, r.state == Revoked)
    && Ended(r.expiredAt, r.state == Expired)
    && Ended(r.sendingAt, send && ClaimedSend(r.state))
    && (r.sendingHeartbeatAt != NoStamp ==>
          r.sendingHeartbeatAt.At? && r.sendingAt.At? && r.sendingAt.ms <= r.sendingHeartbeatAt.ms)
    && (r.sendingAt.At? ==> InWindow(r, r.sendingAt))
    && (r.usedAt.At? ==>
          if send then r.usedAt == r.sentAt && !Later(r.Renewed(), r.usedAt) else InWindow(r, r.usedAt))
    && (r.failedAt.At? ==> !Later(r.Renewed(), r.failedAt))
    && (r.revokedAt.At? ==> InWindow(r, r.revokedAt))
    && (r.expiredAt.At? ==> r.reason == Some(CLOCK_ANOMALY) || !Later(SinceOf(r), r.expiredAt))
    && (r.reason == Some(CLOCK_ANOMALY) ==> r.state == Expired)
    && (if send && r.state == Used then r.sentMessageId.Some? && r.sentMessageId.value != ""
        else r.sentMessageId.None?)
  }

  // Whose decision a record carries: none, or a person's for its own binding by a way its kind allows.
  predicate EvidenceWellFormed(r: Record) {
    match r.base.kind
    case DownloadKind =>
      && r.approvedBindingDigest.None? && r.approvedChangePolicy.None?
      && (if r.answer.Some?
          then && (r.approvedVia == Some(Terminal) || r.approvedVia == Some(Elicitation)) && r.state != Pending
               && r.approvedDigest == Some(AnswerDigest(r.bindingDigest, r.answer.value))
          else r.approvedVia.None? && r.approvedDigest.None? && r.state != Approved)
    case _ =>
      && r.approvedDigest.None?
      && (if r.approvedAt.At?
          then && r.approvedBindingDigest == r.bindingDigest
               && match r.base.kind
                  case SendKind => if r.IsChild() then r.approvedVia == Some(InAdvance)
                                   else r.approvedVia == Some(Terminal) || r.approvedVia == Some(Elicitation)
                  case ChangeKind => r.approvedVia == Some(Terminal) || r.approvedVia == Some(App)
                  case _ => r.approvedVia == Some(Terminal)
          else r.approvedVia.None? && r.approvedBindingDigest.None?)
      && (if r.base.kind == StandingKind && r.approvedAt.At?
          then r.approvedChangePolicy == Some(PolicyChat) || r.approvedChangePolicy == Some(PolicyConfirm)
          else r.approvedChangePolicy.None?)
  }

  predicate DisclosureWellFormed(r: Record) {
    && r.base.disclosure.Some?
    && Windowed(r)
    && r.sendingAt != BadStamp && r.sendingHeartbeatAt != BadStamp && r.sentAt != BadStamp && r.failedAt != BadStamp
    && (r.state == Approved ==> r.approvedAt.At?)
    && Ended(r.usedAt, r.state == Used)
    && Ended(r.revokedAt, r.state == Revoked)
    && Ended(r.expiredAt, r.state == Expired)
    && (r.usedAt.At? ==> r.approvedAt.At? && InWindow(r, r.usedAt))
    && (r.revokedAt.At? ==> r.createdAt.ms <= r.revokedAt.ms < DeadlineOf(r).ms)
    && (r.expiredAt.At? ==> !Later(SinceOf(r), r.expiredAt))
    && 0 <= r.challengeAttempts <= 3
    && (if r.approvedAt.At?
        then && (r.approvedVia == Some(Terminal) || r.approvedVia == Some(App))
             && r.approvedDigest == Some(r.base.disclosure.value.digest)
        else r.approvedVia.None? && r.approvedDigest.None?)
  }

  predicate WellFormed(r: Record) {
    && BaseWellFormed(r.base)
    && r.bindingDigest == BindingDigestOf(r.base)
    && ReachableState(r.base, r.state)
    && if r.base.kind == DisclosureKind then DisclosureWellFormed(r)
       else
         && (r.narrowed.Some? ==> r.base.standing.Some? && NarrowingOk(r.base.standing.value, r.narrowed))
         && TimesWellFormed(r)
         && EvidenceWellFormed(r)
  }

  // ---------- its parts, in plain words ----------

  // A use is never asked about; a change, a question and a disclosure are never under way; a standing approval is never used
  // up.
  lemma StatesAre(b: Base, state: State)
    ensures ReachableState(b, state) <==>
            if b.kind == SendKind then !(b.route == Some(StandingRoute) && state == Pending)
            else if b.kind == StandingKind then state in {Pending, Approved, Expired, Revoked}
            else state in {Pending, Approved, Used, Expired, Revoked}
  {
  }

  // What is done with a record is done from its approval and before that lapses, or, of one never approved, from its making
  // and before its question does.
  lemma WindowIs(r: Record, at: int)
    requires r.createdAt.At? && r.expiresAt.At? && (r.approvedAt.At? <==> r.usableUntil.At?)
    requires r.approvedAt != BadStamp && r.usableUntil != BadStamp
    ensures InWindow(r, At(at)) <==>
            if r.approvedAt.At? then r.approvedAt.ms <= at < r.usableUntil.ms else r.createdAt.ms <= at < r.expiresAt.ms
  {
  }

  // A change is of the account its target is, of one that is to be, or of none; a use names its place, its thread and its
  // content.
  lemma OwnersAre(b: Base)
    ensures ChangeOwnerFits(b) <==>
            if b.change.None? || b.change.value.target.None? then b.ownerScope == Global && b.inboxId == ""
            else match b.change.value.target.value.id
                 case None => b.ownerScope == Prospective && b.inboxId == ""
                 case Some(id) => b.ownerScope == OwnerScoped && b.inboxId == id
    ensures StandingUseOk(b.standingUse) <==>
            && b.standingUse.Some? && |b.standingUse.value.channel| > 0 && |b.standingUse.value.thread| > 0
            && IsHex64(b.standingUse.value.content)
  {
  }

  // ---------- the checks accept exactly the valid records ----------

  lemma BaseChecked(b: Base)
    requires b.kind != DisclosureKind
    requires BindingDigestOf(b).Some? && b.digestVersion == DIGEST_VERSION
    requires b.preparedBy.Some? ==> IsConnectionId(b.preparedBy.value)
    ensures BaseWellFormed(b) <==>
            && CheckIdentity(b).None? && CheckLifetime(b).None? && IsHex64(b.contentDigest)
            && (b.kind == ChangeKind ==> b.change.Some? && ChangeDigest(b.change.value) == b.contentDigest)
            && (b.kind == DownloadKind ==> b.download.Some? && DownloadDigest(b.download.value) == b.contentDigest)
            && (b.kind == StandingKind ==>
                  && b.standing.Some? && StandingBindingOk(b.standing.value)
                  && StandingDigest(b.standing.value) == b.contentDigest)
            && (b.kind != StandingKind ==> b.standing.None?)
  {
  }

  lemma StampsByName(r: Record)
    ensures var s := StampsOf(r);
            && s[0] == r.createdAt && s[1] == r.expiresAt && s[2] == r.approvedAt && s[3] == r.usableUntil
            && s[4] == r.sendingAt && s[5] == r.sendingHeartbeatAt && s[6] == r.usedAt && s[7] == r.sentAt
            && s[8] == r.failedAt && s[9] == r.revokedAt && s[10] == r.expiredAt
  {
  }

  lemma TimesChecked(r: Record)
    requires r.base.kind != DisclosureKind && ReachableState(r.base, r.state)
    ensures Readable(StampsOf(r)) && CheckTimestamps(r).None? <==> TimesWellFormed(r)
  {
    StampsByName(r);
  }

  lemma EvidenceChecked(r: Record)
    requires r.base.kind != DisclosureKind && TimesWellFormed(r) && r.bindingDigest.Some?
    requires r.base.kind == DownloadKind ==> r.base.download.Some?
    ensures CheckEvidence(r).None? <==> EvidenceWellFormed(r)
  {
    assert r.approvedVia.Some? ==>
        var via := r.approvedVia.value;
        via.Terminal? || via.Elicitation? || via.App? || via.InAdvance? || via.OtherVia?;
  }

  lemma DisclosureChecked(r: Record)
    requires r.base.kind == DisclosureKind && BindingDigestOf(r.base).Some?
    requires r.base.digestVersion == DIGEST_VERSION
    requires r.base.preparedBy.Some? ==> IsConnectionId(r.base.preparedBy.value)
    ensures CheckDisclosure(r).None? <==>
            BaseWellFormed(r.base) && ReachableState(r.base, r.state) && DisclosureWellFormed(r)
  {
    hide IsConnectionId, StrictlyIncreasing, VersionsFit;
    StampsByName(r);
  }

  lemma ValidIsWellFormed(r: Record, fileId: string)
    ensures ValidateV2(r, fileId) == Valid <==> r.base.approvalId == fileId && WellFormed(r)
  {
    if BindingDigestOf(r.base).Some? && r.base.digestVersion == DIGEST_VERSION
       && (r.base.preparedBy.Some? ==> IsConnectionId(r.base.preparedBy.value)) {
      if r.base.kind == DisclosureKind {
        DisclosureChecked(r);
      } else {
        BaseChecked(r.base);
        if ReachableState(r.base, r.state) {
          TimesChecked(r);
          if r.bindingDigest == BindingDigestOf(r.base) && TimesWellFormed(r) && BaseWellFormed(r.base) { EvidenceChecked(r); }
        }
      }
    }
  }
}
