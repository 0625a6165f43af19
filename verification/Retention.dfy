/**
  What daily retention decides for one record (packages/core/src/approval-maintenance.ts): `finishedAtOf`,
  `legacyFinishedAt` and `verdictOf`.
  */
module Retention {
  import opened Wrappers
  import opened Records
  import opened ApprovalBinding
  import opened ApprovalValidate
  import opened ApprovalTransitions

  const RETENTION_MS := 90 * DAY_MS

  // The `approval.retained` row: whose it was, what it was, how it finished and when.
  datatype Row = Row(owner: string, kind: Kind, state: State, finishedAt: int, providerId: Option<string>, legacy: bool)

  function TimeOf(stamp: Stamp): Option<int> {
    if stamp.At? then Some(stamp.ms) else None
  }

  function FinishedAtOf(r: Record): Option<int> {
    match r.state
    case Used => TimeOf(r.usedAt)
    case Failed => TimeOf(r.failedAt)
    case Unknown => TimeOf(UnknownAtOf(r))
    case Revoked => TimeOf(r.revokedAt)
    case Expired => TimeOf(r.expiredAt)
    case _ => None
  }

  predicate NotAfter(stamp: Stamp, updated: int) {
    stamp == NoStamp || (stamp.At? && stamp.ms <= updated)
  }

  // An earlier release's used record finished when it was last written, if no time it holds says otherwise.
  function LegacyFinishedAt(l: LegacyRecord): Option<int> {
    if l.state == Used && l.updatedAt.At? && l.createdAt.At? && l.createdAt.ms <= l.updatedAt.ms
       && NotAfter(l.approvedAt, l.updatedAt.ms) && NotAfter(l.sendingAt, l.updatedAt.ms)
       && NotAfter(l.sentAt, l.updatedAt.ms)
    then Some(l.updatedAt.ms) else None
  }

  function NonEmpty(id: Option<string>): Option<string> {
    if id == Some("") then None else id
  }

  // The row to delete it with, or nothing to keep it.
  function VerdictOf(stored: Stored, now: int): Option<Row> {
    match stored
    case V2(r) =>
      var finished := FinishedAtOf(r);
      if finished.None? || now < finished.value + RETENTION_MS then None
      else
        Some(Row(if r.base.kind == DisclosureKind then "" else r.base.inboxId, r.base.kind, r.state, finished.value,
                 if r.base.kind == SendKind && r.state == Used then NonEmpty(r.sentMessageId) else None, false))
    case Legacy(l) =>
      var finished := LegacyFinishedAt(l);
      if finished.None? || now < finished.value + RETENTION_MS then None
      else Some(Row(l.inboxId, l.kind, Used, finished.value, NonEmpty(l.sentMessageId), true))
    case _ => None
  }

  predicate IsFinished(state: State) {
    state != Pending && state != Approved && state != Sending
  }

  // ---------- what it promises, in a record's own times ----------

  const NINETY_DAYS := 90 * 24 * 60 * 60_000

  // That a record finished, and when: a lost send two minutes after its claimant last said it was at work.
  predicate FinishedAt(r: Record, at: int) {
    match r.state
    case Used => r.usedAt == At(at)
    case Failed => r.failedAt == At(at)
    case Revoked => r.revokedAt == At(at)
    case Expired => r.expiredAt == At(at)
    case Unknown =>
      (if r.sendingHeartbeatAt.At? then r.sendingHeartbeatAt else r.sendingAt) == At(at - 2 * 60_000)
    case Pending | Approved | Sending => false
  }

  // An earlier release's record that was used, when it was last written, nothing it holds being later.
  predicate LegacyFinished(l: LegacyRecord, at: int) {
    && l.state == Used && l.updatedAt == At(at)
    && l.createdAt.At? && l.createdAt.ms <= at
    && forall s | s in {l.approvedAt, l.sendingAt, l.sentAt} :: s == NoStamp || (s.At? && s.ms <= at)
  }

  // A valid record has one time it finished at exactly when it is finished: none is kept for lack of one.
  lemma FinishedHasATime(r: Record, fileId: string)
    requires ValidateV2(r, fileId) == Valid
    ensures IsFinished(r.state) <==> exists at :: FinishedAt(r, at)
    ensures forall at :: FinishedAtOf(r) == Some(at) <==> FinishedAt(r, at)
  {
    ValidIsWellFormed(r, fileId);
    if IsFinished(r.state) {
      assert FinishedAtOf(r).Some? && FinishedAt(r, FinishedAtOf(r).value);
    }
  }

  lemma LegacyHasATime(l: LegacyRecord)
    ensures forall at :: LegacyFinishedAt(l) == Some(at) <==> LegacyFinished(l, at)
  {
  }

  // Only a valid finished record, or an earlier release's used one, is ever deleted, and only ninety days after it
  // finished; and every such record is, from then on.
  lemma VerdictExact(fileId: string, file: File, now: int)
    ensures VerdictOf(Decode(fileId, file), now).Some? <==>
            || (file.RecordFile? && Decode(fileId, file).V2? && ValidateV2(file.record, fileId) == Valid
                && exists at | at + NINETY_DAYS <= now :: FinishedAt(file.record, at))
            || (file.LegacyFile? && file.legacy.approvalId == fileId
                && exists at | at + NINETY_DAYS <= now :: LegacyFinished(file.legacy, at))
  {
    hide ValidateV2, FinishedAt, LegacyFinished, FinishedAtOf, LegacyFinishedAt;
    if file.RecordFile? && ValidateV2(file.record, fileId) == Valid { FinishedHasATime(file.record, fileId); }
    if file.LegacyFile? { LegacyHasATime(file.legacy); }
  }

  // Whose the record was, what it was, how it finished and when, and a used send's message at the provider.
  predicate IsRowOf(row: Row, file: File) {
    match file
    case RecordFile(r) =>
      && FinishedAt(r, row.finishedAt) && !row.legacy && row.kind == r.base.kind && row.state == r.state
      && row.owner == (if r.base.kind == DisclosureKind then "" else r.base.inboxId)
      && row.providerId == (if r.base.kind == SendKind && r.state == Used then r.sentMessageId else None)
      && (r.base.kind == SendKind && r.state == Used ==> row.providerId.Some? && row.providerId.value != "")
    case LegacyFile(l) =>
      && LegacyFinished(l, row.finishedAt) && row.legacy && row.kind == l.kind && row.state == Used
      && row.owner == l.inboxId
      && row.providerId == (if l.sentMessageId == Some("") then None else l.sentMessageId)
    case Garbled => false
  }

  // The row it is deleted with says just that.
  lemma RowSays(fileId: string, file: File, now: int)
    requires VerdictOf(Decode(fileId, file), now).Some?
    ensures var row := VerdictOf(Decode(fileId, file), now).value;
            row.finishedAt + NINETY_DAYS <= now && IsRowOf(row, file)
  {
    if file.RecordFile? {
      var r := file.record;
      assert ValidateV2(r, fileId) == Valid;
      FinishedHasATime(r, fileId);
      if r.base.kind == SendKind && r.state == Used { UsedSendHasItsMessage(r, fileId); }
    }
    if file.LegacyFile? { LegacyHasATime(file.legacy); }
    hide ValidateV2, FinishedAt, LegacyFinished, FinishedAtOf, LegacyFinishedAt;
  }

  lemma UsedSendHasItsMessage(r: Record, fileId: string)
    requires ValidateV2(r, fileId) == Valid && r.base.kind == SendKind && r.state == Used
    ensures r.sentMessageId.Some? && r.sentMessageId.value != ""
  {
    ValidIsWellFormed(r, fileId);
  }
}
