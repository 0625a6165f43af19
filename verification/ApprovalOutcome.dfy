/**
  What the configuration says of a record, and what an action on it is (packages/core/src/approval-outcome.ts). Of a
  refusal only its code is kept.
  */
module ApprovalOutcome {
  import opened Wrappers
  import opened Records

  datatype Action = Inspecting | Approving | Claiming | Waiting | Revoking

  datatype ErrorCode =
    | NotFound | ConfigMissing | PolicyIsNever | ApprovalVoid | ApprovalExpired | ApprovalPending | ApprovalRequired
    | OutcomeUnknown | Usage | BadData | Unexpected

  // ---------- configuration ----------

  // A change policy is `chat` or `confirm`.
  type ChangePolicy = p: Policy | p != PolicyNever witness PolicyChat

  datatype OwnerEntry = OwnerEntry(sendPolicy: Option<Policy>, changePolicy: Option<ChangePolicy>)

  // Mailboxes and accounts by their immutable id.
  datatype Config = Config(
    owners: map<string, OwnerEntry>,
    defaultSend: Policy,
    defaultChange: Option<ChangePolicy>,
    sendEpochs: map<string, nat>,
    standingEpoch: nat)

  function SendEpochOf(config: Config, ownerId: string): nat {
    if ownerId in config.sendEpochs then config.sendEpochs[ownerId] else 0
  }

  function DefaultChangePolicy(config: Config): ChangePolicy {
    config.defaultChange.Or(PolicyChat)
  }

  function ChangePolicyById(config: Config, id: Option<string>): ChangePolicy {
    if id.Some? && id.value in config.owners
    then config.owners[id.value].changePolicy.Or(DefaultChangePolicy(config))
    else DefaultChangePolicy(config)
  }

  // The strictest of the policies over everything the change touches.
  function GoverningChangePolicy(config: Config, change: ChangeBinding): ChangePolicy {
    var target := if change.target.Some? then change.target.value.id else None;
    if ChangePolicyById(config, target) == PolicyConfirm
       || exists s | s in change.loosened :: ChangePolicyById(config, s.owner) == PolicyConfirm
    then PolicyConfirm
    else PolicyChat
  }

  datatype Presence = Present | Removed | NoOwner

  datatype LiveGate = LiveGate(
    owner: Presence,
    sendPolicy: Option<Policy>,
    changePolicy: Option<ChangePolicy>,
    sendEpoch: Option<int>,
    standingEpoch: Option<int>)

  // The live gate of one record, from the one configuration read under its lock.
  function LiveGateOf(config: Config, b: Base): LiveGate {
    var governs := b.kind == ChangeKind && b.change.Some?;
    if b.ownerScope != OwnerScoped then
      var policy := if governs then GoverningChangePolicy(config, b.change.value) else DefaultChangePolicy(config);
      LiveGate(NoOwner, None, Some(policy), None, Some(config.standingEpoch))
    else if b.inboxId !in config.owners then
      LiveGate(Removed, None, None, None, Some(config.standingEpoch))
    else
      var entry := config.owners[b.inboxId];
      var policy := if governs then GoverningChangePolicy(config, b.change.value)
                    else entry.changePolicy.Or(DefaultChangePolicy(config));
      LiveGate(Present, Some(entry.sendPolicy.Or(config.defaultSend)), Some(policy),
               Some(SendEpochOf(config, b.inboxId)), Some(config.standingEpoch))
  }

  // ---------- outcomes ----------

  const OWNER_REMOVED_REASON := "its mailbox or account was removed"
  const SEND_EPOCH_REASON := "sending was turned off since this was prepared (policy: never)"
  const STANDING_EPOCH_REASON := "standing approvals were ended since this was approved"
  const CHANGE_POLICY_TIGHTENED_REASON := "the change policy was tightened since this was approved"
  const NEVER_REASON := "sending is turned off (policy: never)"
  const NEVER_NOTICE := "sending is turned off (policy: never); any use revokes it"

  // A record's state as anyone may be told it: a download's answered question says so.
  datatype PublicState = Stated(state: State) | Answered

  datatype Outcome = Outcome(
    state: PublicState,
    claimable: bool,
    ownerRemoved: bool,
    reason: Option<string>,
    record: Record,
    revokes: bool,
    error: Option<ErrorCode>)

  predicate ChangePolicyTightened(approved: Option<Policy>, live: Option<Policy>) {
    live == Some(PolicyConfirm) && approved != Some(PolicyConfirm)
  }

  // Fenced as a send is: a standing approval sends through its children.
  predicate Sends(r: Record) {
    r.base.kind == SendKind || r.base.kind == StandingKind
  }

  predicate StandingBound(r: Record) {
    r.base.kind == StandingKind || r.IsChild()
  }

  predicate LiveNever(r: Record, live: Option<LiveGate>) {
    Sends(r) && live.Some? && live.value.owner == Present
    && StricterPolicy(live.value.sendPolicy.Or(PolicyNever), r.base.requiredPolicy) == PolicyNever
  }

  predicate OwnerIsRemoved(r: Record, live: Option<LiveGate>) {
    r.base.ownerScope == OwnerScoped && live.Some? && live.value.owner == Removed
  }

  // The revocation a classification derives from the configuration alone, or none; a live `never` revokes only an act.
  function DerivedRevocation(r: Record, live: Option<LiveGate>, acting: bool): Option<string> {
    if r.Active() && OwnerIsRemoved(r, live) then Some(OWNER_REMOVED_REASON)
    else if r.Active() && LiveNever(r, live) then (if acting then Some(NEVER_REASON) else None)
    else if r.Active() && Sends(r) && live.Some? && live.value.owner == Present
            && Some(r.base.sendEpoch.Or(0)) != live.value.sendEpoch then Some(SEND_EPOCH_REASON)
    else if r.Active() && StandingBound(r) && live.Some? && live.value.standingEpoch.Some?
            && r.base.standingEpoch != live.value.standingEpoch then Some(STANDING_EPOCH_REASON)
    else if r.base.kind == StandingKind && r.state == Approved && live.Some? && live.value.owner == Present
            && ChangePolicyTightened(r.approvedChangePolicy, live.value.changePolicy)
    then Some(CHANGE_POLICY_TIGHTENED_REASON)
    else None
  }

  function RevokedBy(r: Record, reason: string, at: int): Record {
    r.(state := Revoked, reason := Some(reason), revokedAt := At(at), challengeHash := None)
  }

  predicate DownloadClaimable(state: State, requiredPolicy: Policy, liveChangePolicy: Option<Policy>) {
    state == Approved
    || (state == Pending && requiredPolicy == PolicyChat && liveChangePolicy == Some(PolicyChat))
  }

  predicate IsClaimable(r: Record, live: LiveGate) {
    match r.base.kind
    case SendKind => r.state == Approved || (r.base.route == Some(ChatRoute) && live.sendPolicy == Some(PolicyChat))
    case ChangeKind => r.state == Approved || (r.base.route == Some(ChatRoute) && live.changePolicy == Some(PolicyChat))
    case DownloadKind => DownloadClaimable(r.state, r.base.requiredPolicy, live.changePolicy)
    case DisclosureKind => r.state == Approved
    case StandingKind => false
  }

  function ErrorOf(r: Record, action: Action, live: Option<LiveGate>, revokedByNever: bool): Option<ErrorCode> {
    match r.state
    case Pending | Approved =>
      if live.None? && (action == Approving || action == Claiming) then Some(ConfigMissing) else None
    case Revoked => Some(if revokedByNever then PolicyIsNever else ApprovalVoid)
    case Expired => Some(ApprovalExpired)
    case Used | Failed => Some(ApprovalVoid)
    case Sending => Some(ApprovalPending)
    case Unknown => Some(OutcomeUnknown)
  }

  function ClassifyDisclosure(r: Record): Outcome {
    var error := match r.state
      case Pending | Approved => None
      case Expired => Some(ApprovalExpired)
      case _ => Some(ApprovalVoid);
    Outcome(Stated(r.state), r.state == Approved, false, r.reason, r, false, error)
  }

  function ClassifyOrdinary(read: Record, action: Action, live: Option<LiveGate>, now: int): Outcome {
    var acting := action == Approving || action == Claiming;
    var revocation := DerivedRevocation(read, live, acting);
    var record := if revocation.None? then read else RevokedBy(read, revocation.value, now);
    var notice := record.Active() && live.Some? && LiveNever(read, live);
    var claimable := record.Active() && live.Some? && !LiveNever(read, live) && IsClaimable(record, live.value);
    var state := if record.base.kind == DownloadKind && (record.state == Approved || record.state == Used)
                 then Answered else Stated(record.state);
    Outcome(state, claimable, OwnerIsRemoved(read, live),
            if notice then Some(NEVER_NOTICE) else record.reason,
            record, revocation.Some?,
            ErrorOf(record, action, live, revocation == Some(NEVER_REASON)))
  }

  // `classifyV2`: a version-2 record, its derived expiry already applied.
  function Classify(read: Record, action: Action, live: Option<LiveGate>, now: int): Outcome {
    if read.base.kind == DisclosureKind then ClassifyDisclosure(read) else ClassifyOrdinary(read, action, live, now)
  }

  // Whether even a look writes this outcome's revocation down: only the one a loosening could take back.
  predicate WrittenAtALook(outcome: Outcome) {
    outcome.revokes && outcome.record.base.kind == StandingKind
    && outcome.reason == Some(CHANGE_POLICY_TIGHTENED_REASON)
  }
}
