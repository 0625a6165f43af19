/**
  The stored approval record and everything it is made of (packages/core/src/approvals.ts).

  Digests are symbolic: `Sha(p)` is the SHA-256 of the canonical JSON of `p`, so two digests are equal exactly when what
  they were taken of is. `Plain` is any other stored string. A time is a number of milliseconds; a stored time field may
  be absent (`NoStamp`) or a string that is no time (`BadStamp`), which every comparison answers `false`, as `NaN` does.
  */
module Records {
  import opened Wrappers

  datatype Kind = SendKind | ChangeKind | DownloadKind | DisclosureKind | StandingKind

  datatype State = Pending | Approved | Sending | Used | Failed | Unknown | Expired | Revoked

  datatype Route = ChatRoute | ConfirmRoute | StandingRoute | OtherRoute

  datatype Policy = PolicyChat | PolicyConfirm | PolicyNever

  datatype Via = Terminal | Elicitation | App | InAdvance | OtherVia

  datatype OwnerScope = OwnerScoped | Prospective | Global

  datatype Stamp = NoStamp | BadStamp | At(ms: int)

  // `now < Date.parse(stamp)` and `now >= Date.parse(stamp)`: both false of a string that is no time.
  predicate Before(now: int, stamp: Stamp) {
    stamp.At? && now < stamp.ms
  }

  predicate Reached(now: int, stamp: Stamp) {
    stamp.At? && now >= stamp.ms
  }

  datatype Expectation = Expectation(to: seq<string>, cc: seq<string>, bcc: seq<string>, subject: string)

  datatype StandingUse = StandingUse(channel: string, thread: string, content: Digest)

  datatype ChangeTarget = ChangeTarget(inbox: bool, name: string, id: Option<string>)

  // One setting's move: its path, the account it belongs to, and its values before and after.
  datatype Setting = Setting(path: string, owner: Option<string>, was: string, now: string)

  datatype ChangeBinding = ChangeBinding(
    summary: string,
    target: Option<ChangeTarget>,
    loosened: seq<Setting>,
    settings: seq<Setting>,
    effects: seq<string>,
    doneAtOnce: seq<string>)

  datatype ListedFile = ListedFile(name: string, size: Option<nat>, flags: seq<string>)

  datatype DownloadBinding = DownloadBinding(
    summary: string,
    targetInbox: bool,
    targetName: string,
    targetId: string,
    operation: string,
    request: string,
    files: seq<string>,
    names: seq<string>,
    downloads: string,
    current: string,
    listing: Option<seq<ListedFile>>)

  datatype Answer = InDownloads | InCurrent | InFolder(folder: string)

  datatype StandingContent = StandingContent(reaction: bool, text: string, digest: Digest)

  datatype Places = ThreadsIAmIn | ExactPlaces(ids: seq<string>)

  datatype Limits = Limits(perThread: int, perHour: int, perDay: int, perSender: int, expiresDays: int)

  datatype StandingBinding = StandingBinding(
    summary: string,
    targetName: string,
    targetId: string,
    contents: seq<StandingContent>,
    places: Places,
    limits: Limits,
    proposedByPerson: bool,
    replacing: Option<string>,
    warnings: seq<string>)

  // What a narrowing keeps. Of its limits, only the days: the store reads no other.
  datatype Narrowing = Narrowing(keep: Option<seq<Digest>>, places: Option<seq<string>>, expiresDays: Option<int>)

  datatype VersionKind = RuleV | TargetV | SubscriberV | JudgeV | JudgeBudgetV | JudgeKindV

  datatype DisclosureVersion = DisclosureVersion(kind: VersionKind, id: string, version: int)

  datatype ActivationKind = RuleActivation | JudgeBudgetActivation | JudgeKindActivation | EnableAll | Subscription

  datatype DisclosureBinding = DisclosureBinding(
    digest: Digest,
    activationIntentId: string,
    activationKind: ActivationKind,
    versions: seq<DisclosureVersion>)

  datatype Digest = Sha(of: Payload) | Plain(text: string)

  // Everything the store takes a digest of.
  datatype Payload =
    | BindingOf(bound: BindingObject)
    | ChangeOf(target: Option<ChangeTarget>, loosened: multiset<Setting>, settings: multiset<Setting>,
               effects: seq<string>, doneAtOnce: seq<string>)
    | DownloadOf(targetInbox: bool, targetName: string, targetId: string, operation: string, request: string,
                 files: seq<string>, names: seq<string>)
    | StandingOf(targetName: string, targetId: string, contents: seq<StandingContent>, places: Places, limits: Limits,
                 proposedByPerson: bool, replacing: Option<string>, warnings: seq<string>)
    | ContentOf(reaction: bool, text: string)
    | AnswerOf(binding: Option<Digest>, answer: Answer)

  datatype Identity = Identity(
    approvalId: string,
    channel: string,
    ownerScope: OwnerScope,
    inboxId: string,
    inboxSub: Option<string>,
    draftId: string,
    draftMessageId: Digest,
    expected: Expectation,
    sendEpoch: Option<int>,
    standingEpoch: Option<int>,
    standingId: Option<string>,
    standingUse: Option<StandingUse>)

  datatype BindingObject =
    | OrdinaryObject(kind: Kind, contentDigest: Digest, route: Option<Route>, pendingMs: int, approvedMs: Option<int>,
                     identity: Identity)
    | DownloadObject(contentDigest: Digest, pendingMs: int, policy: Policy, requiredPolicy: Policy,
                     identity: Identity, downloads: string, current: string, listing: Option<seq<ListedFile>>)
    | DisclosureObject(approvalId: string, disclosure: DisclosureBinding)

  // The part of a record that is written when it is made and never again. A disclosure has none of the fields from
  // `channel` to `standingUse`; they hold fixed placeholders there and no function reads them.
  datatype Base = Base(
    approvalId: string,
    kind: Kind,
    digestVersion: int,
    preparedBy: Option<string>,
    pendingMs: int,
    approvedMs: Option<int>,
    channel: string,
    ownerScope: OwnerScope,
    route: Option<Route>,
    inboxId: string,
    inboxSub: Option<string>,
    draftId: string,
    draftMessageId: Digest,
    contentDigest: Digest,
    expected: Expectation,
    policy: Policy,
    requiredPolicy: Policy,
    sendEpoch: Option<int>,
    standingEpoch: Option<int>,
    standingId: Option<string>,
    standingUse: Option<StandingUse>,
    change: Option<ChangeBinding>,
    download: Option<DownloadBinding>,
    standing: Option<StandingBinding>,
    disclosure: Option<DisclosureBinding>)

  datatype Record = Record(
    base: Base,
    bindingDigest: Option<Digest>,
    state: State,
    createdAt: Stamp,
    expiresAt: Stamp,
    approvedAt: Stamp,
    usableUntil: Stamp,
    sendingAt: Stamp,
    sendingHeartbeatAt: Stamp,
    usedAt: Stamp,
    sentAt: Stamp,
    failedAt: Stamp,
    revokedAt: Stamp,
    expiredAt: Stamp,
    approvedVia: Option<Via>,
    approvedBindingDigest: Option<Digest>,
    approvedDigest: Option<Digest>,
    approvedChangePolicy: Option<Policy>,
    answer: Option<Answer>,
    narrowed: Option<Narrowing>,
    sentMessageId: Option<string>,
    reason: Option<string>,
    challengeHash: Option<string>,
    challengeAttempts: int)
  {
    // Pending or approved: the only states a claim, an expiry or a revocation starts from.
    predicate Active() {
      state == Pending || state == Approved
    }

    // One use of a standing approval: a send on the `standing` route.
    predicate IsChild() {
      base.kind == SendKind && base.route == Some(StandingRoute)
    }

    // `sendingHeartbeatAt ?? sendingAt`: from when the sending lease runs.
    function Renewed(): Stamp {
      if sendingHeartbeatAt.NoStamp? then sendingAt else sendingHeartbeatAt
    }
  }

  const DIGEST_VERSION := 2

  const CHAT_MS := 600_000
  const CONFIRM_MS := 1_800_000
  const APPROVED_MS := 86_400_000
  const DOWNLOAD_MS := 1_800_000
  const CHILD_MS := 120_000
  const SENDING_LEASE_MS := 120_000
  const DAY_MS := 86_400_000

  const MAX_CHALLENGE_ATTEMPTS := 3

  const CLOCK_ANOMALY := "clock-anomaly"
  const WINDOW_PASSED := "the approval window passed"
  const STALE_LEASE_REASON := "the sending process stopped before recording an outcome"

  predicate IsCrockford(c: char) {
    '0' <= c <= '9' || ('A' <= c <= 'Z' && c !in "ILOU")
  }

  // `ap_` and 26 characters; a connection's id is `cn_` and 26.
  predicate IsTaggedId(tag: string, s: string) {
    |s| == |tag| + 26 && s[..|tag|] == tag && forall i | |tag| <= i < |s| :: IsCrockford(s[i])
  }

  predicate IsApprovalId(s: string) {
    IsTaggedId("ap_", s)
  }

  predicate IsConnectionId(s: string) {
    IsTaggedId("cn_", s)
  }

  predicate IsHexDigit(c: char) {
    '0' <= c <= '9' || 'a' <= c <= 'f'
  }

  // Lowercase hex of 64 characters: every SHA-256, and any other string of that shape.
  predicate IsHex64(d: Digest) {
    match d
    case Sha(_) => true
    case Plain(text) => |text| == 64 && forall i | 0 <= i < 64 :: IsHexDigit(text[i])
  }

  function Rank(p: Policy): nat {
    match p
    case PolicyChat => 0
    case PolicyConfirm => 1
    case PolicyNever => 2
  }

  function StricterPolicy(a: Policy, b: Policy): Policy {
    if Rank(a) >= Rank(b) then a else b
  }
}
