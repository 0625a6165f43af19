# Approvals, the activity log, agent labels and envelopes

A Dafny model of four parts of the communications core, and proofs of what they are for.

**The approval store** (`packages/core/src/approvals.ts` and the `approval-*.ts` files beside it). A send, a change, a
download, a standing approval or a standing disclosure waits as a file until somebody may act on it once. The files are
shared by every process on the machine: each action takes a record's lock, reads the configuration, reads the record,
derives what the clock has made of it, decides, writes, lets go, and, for a claim, creates a marker nobody else can
create. Any of these operations may be the last a process makes.

- `Records`, `ApprovalBinding`, `ApprovalOutcome`, `ApprovalValidate`, `ApprovalTransitions`, `Standing`, `Recipients`,
  `Texts`: the record, its binding, the live gate and the classification, the integrity check, narrowings, the comparison
  of recipients, and every creation and decision, as functions.
- `RecordInvariant`, `RecordMoves`, `Decisions`, `LookAndAct`, `Retention`: what those keep and when each goes through, one
  record at a time.
- `Policies`, `Gate`, `Creations`: the same in the words of the inputs alone. When a record is in force, what ends it, and
  exactly which acts go through, from the record's own times and the configuration's own fields; and what a new record holds
  of what it was made from.
- `StoreMachine`: the store as a machine. A world holds the files, the markers, the clock, every configuration so far and
  every call at the point between two of its operations; a step is a tick, a new configuration, a creation, a new call,
  the next operation of any call, or a crash of one. `exclusive` says whether the record lock excludes anybody, and
  `retains` whether retention ever deletes. `Log` holds what has happened; no step reads it.
- `StoreFrames`, `StoreRecords`, `StoreLocks`, `StoreClaims`, `StoreSends`, `StoreEnds`, `StoreRetention`: the invariants,
  each kept by every step. `StoreRuns`: what follows for every sequence of steps from a store at rest. `StorePeople`: what
  the history's entries stand for. `StoreKeeping`: how long a record is there.
- `StoreCalls` and the class in `ApprovalStore.dfy` (module `StoreObject`): one call made in place, step by step, and that
  the machine's operations of that call, uninterrupted, come to exactly that. `StoreDisclosures`: a disclosure's whole life
  as such a run. `StoreLooks`: what a look, a list and a claim's token are worth.
- `Maintenance`, `RetentionSlot`: the daily batch, its cursor and the sweep it makes over many days; one slot of it.

**The activity log** (`packages/core/src/activity.ts`). `ActivityText` and `ActivityLine` are the text, the JSON and the
line; `ActivityGiven` what a line keeps of what it was given; `ActivityBounds` and `ActivityFitted` the line normaliser, its
byte bound and its read-back; `ActivityWriting` the text of a line and what a session is looked for by in it, and
`ActivityBytes` its length in UTF-8; `ActivityShow` the bounded buffer of newest lines; `ActivitySessions` the summaries,
from lines and from day indexes.

**The agent label** (`packages/core/src/agent-label.ts`), in `AgentLabel`, and **the envelope splitter**
(`apps/desktop/src/envelope.ts`), in `Envelope`.

## What the model takes for granted

- A time is whole milliseconds, and a text that is no time compares as `NaN` does. A locked call reads the clock once, as
  it reads its file; the source reads it several times within the lock. The clock of the machine never goes back; what a
  clock set back does is stated of one record (`DerivedReadsBack`).
- A digest is the value it was taken of, so two are equal exactly when those are.
- A claim's token is its call's number: sixteen random bytes are taken to be nobody else's.
- A lock is mutual exclusion, let go when its holder ends. Each file write, exclusive create and unlink is one operation.
  A standing child's claim looks at its standing approval in one operation, under that one's own lock.
- Ids are never used twice, and a call names an id only once it has been made. Epochs never go down, and an owner once
  removed does not return under its id. These are the conditions in `Enabled`.
- Callers keep to `ActFits` and `CreationFits`: no reason given is the store's own word for a clock anomaly, `approve` is
  not called for a download's question, and a creation names an owner that was configured and epochs read from the
  configuration. `DecisionReadsBack`, `SendReadsBack` and `DownloadReadsBack` say, both ways, which of these the integrity
  check needs of the record written.

Where the code and its comments part, the model follows the code. `inspect` writes a revocation a tightened change policy
derives for a standing approval, although its comment says a look never writes one. And the integrity check does not
accept everything `#derive` writes: a disclosure looked at by a clock set back before it was made is written as expired
before it was created, and only the check of the other kinds exempts that (`DerivedReadsBack`,
`AClockSetBackSpoilsADisclosure`). And a list (`inspectAll`) reads its configuration before any lock: what it shows as
revoked may be a record made since, for an account or under an epoch it did not know yet, which is then claimed
(`ListedYetClaimableExactly`, `AListMayBeTooEarly`). Last, recipients are compared as their sorted addresses joined by
newlines, which surely tells lists apart by their addresses where no address holds a newline (`SameListExactly`), and where
one does may not (`ANewlineMixesAddresses`). And the ninety days a record is kept run from when it finished, which for a
standing approval narrowed to fewer days than have passed is a day already over: it may be gone before ninety days from
when it was last in force (`NarrowedIntoThePast`, `ANarrowedApprovalGoesEarly`), and no other record is (`KeptNinetyDays`).

## Model

| member | source | states |
|---|---|---|
| StoreRuns.AtMostOneReturn | packages/core/src/approvals.ts:1589-1730 | in every interleaving and with crashes anywhere, no approval's claim returns twice: with an excluding record lock whatever retention does, and without retention even if the lock excludes nobody |
| StoreRuns.EveryClaimWasAllowed | packages/core/src/approvals.ts:1589-1667 | every claim any run makes is of what was prepared, as its caller computed it then, rests on a person where its kind needs one, and, but for a disclosure, was in reach of the configuration read under the lock and allowed by its own fields: the account there and its send policy, its own or the default, not never; and, without a person's decision, that policy chat, or no account the change touches, or the download is from, asking for confirm |
| StoreRuns.EveryStoredRecordIsValid | packages/core/src/approval-validate.ts:139-157 | every version-2 record any run stores, the integrity check accepts, and it reads back as itself |
| StoreRuns.NoActWithoutItsPerson | packages/core/src/approval-outcome.ts:756-791 | in every run, a claimed send outside the chat, confirm change, download asked under confirm or disclosure carries a decision a person gave for its own binding, by a way its kind allows; a use of a standing approval exists only with that one's approval at a terminal under the same epochs and account |
| StorePeople.NobodyElseDecided | packages/core/src/approvals.ts:1500-1571 | whoever a step of any run adds to the people of the history decided so on the record as their call read it: waiting, by the code issued, for the message prepared, in a way its kind takes; or answered its question; for its own binding |
| StorePeople.DecisionIsSaid | packages/core/src/approvals.ts:1177-1187 | a claim, an outcome and a go are in the history exactly where the step that made them wrote, or found the send under way |
| StorePeople.LeavingIsSaid | packages/core/src/approvals.ts:1189-1190 | a return is said where the marker was made, an end where the lock goes, a row before the unlink |
| StoreDisclosures.ADisclosureIsUsed | packages/core/src/approvals.ts:1097-1460 | from any store with no call inside a lock, a legal run prepares any accepted binding, issues its code, approves it with that code at the terminal or in the app, and its claim returns |
| StoreDisclosures.AUsedDisclosureHasItsPerson | packages/core/src/approvals.ts:1349-1460 | from a store at rest, such a run ends with the disclosure used, resting on the decision of the person who approved it |
| StoreRuns.UseIsMintedInForce | packages/core/src/approvals.ts:1998-2113 | a use is minted only while its standing approval, in its file under its lock, is approved at a terminal and in reach of the configuration read there, and it carries that one's account and epochs |
| StoreRuns.EndedIsNeverClaimed | packages/core/src/approvals.ts:1203-1230 | what a locked look or action once called expired or revoked is never claimed later in the run, whatever the configuration becomes |
| StoreRuns.EpochFence | packages/core/src/approvals.ts:1161-1178 | after a commit, a claim whose locked configuration read follows it is never of a send prepared under an earlier send epoch, of a use under an earlier standing epoch, or of an owner that commit had removed |
| StoreRuns.LeaseIsKept | packages/core/src/approvals.ts:1749-1775 | within two minutes of a renewal or fence that said go, nobody who opens the send, for any act and configuration, finds it stored, derived or classified as unknown |
| StoreRuns.NeverBackFromLost | packages/core/src/approvals.ts:1003-1008 | a send once stored unknown is never under way again, and no later fence says go for it |
| StoreRuns.OneOutcome | packages/core/src/approvals.ts:2323-2360 | an outcome is recorded at most once for an id, by the call that claimed it, and the record then says so for good |
| StoreRuns.TokenIsTheClaimants | packages/core/src/approvals.ts:1733-1742 | in every run, a token a marker holds is that of the very call whose claim the record's is |
| StoreLooks.OnlyTheClaimantsToken | packages/core/src/approvals.ts:1733-1766 | in every run, a renewal or an outcome under a token other than the claiming call's is refused and changes neither file nor marker |
| StoreRuns.NothingLostWithoutItsRow | packages/core/src/approval-maintenance.ts:560-604 | in every run, locked or not, a made record that is gone has its retention row, and ninety days have passed since the finish that row gives (which is the record's own: Retention.RowSays) |
| StoreRuns.DeletionsAreDue | packages/core/src/approval-maintenance.ts:488-604 | whatever step deletes a record, it was valid and finished (or an earlier release's used one) at least ninety days before, by its own time for its state, and its row gives that time, its owner, kind, state and, of a used send, the message at the provider |
| StoreKeeping.KeptNinetyDays | packages/core/src/approval-maintenance.ts:181-237 | in every run, a record that could still be acted on at a reading of the clock, with no call at work on it, is there at every later reading within ninety days, unless somebody narrows it to an end before that reading |
| StoreKeeping.StepKeeps | packages/core/src/approval-maintenance.ts:488-604 | every step, in any interleaving, keeps such a record from being over before then, and from being gone within ninety days |
| StoreKeeping.NarrowedIntoThePast | packages/core/src/approvals.ts:2121-2140 | exactly such a narrowing of a standing approval, where it goes through, leaves it due ninety days after that earlier end |
| StoreKeeping.ANarrowedApprovalGoesEarly | packages/core/src/approvals.ts:986-997 | there is such a case: approved for thirty days, narrowed after twenty to one, due after ninety-two |
| StoreRuns.RunSafe | packages/core/src/approvals.ts:1145-1190 | every run keeps the invariants of claims, tokens, outcomes, leases, ended records and retention |
| StoreRuns.RunAlways | packages/core/src/approvals.ts:1145-1190 | every run, with the lock or without it, keeps every record valid, rooted in the configuration's history and vouched for, every claim in reach of what it read, and every loss behind its row |
| StoreRuns.OverStaysOver | packages/core/src/approvals.ts:1749-1766 | from any safe world, a send that is lost or finished stays so over every run, and says go to nobody |
| StoreRuns.RunLateClaims | packages/core/src/approvals.ts:1157-1163 | whoever reads the configuration after a commit claims under that commit or a later one |
| StoreRecords.StepKept | packages/core/src/approvals.ts:975-1190 | every step, in any interleaving, leaves every stored record and every record a call holds valid, warranted and vouched for |
| StoreRecords.DecisionOk | packages/core/src/approvals.ts:1181-1187 | what a locked decision writes is valid again, and any evidence it gains is the act of the person who gave it |
| StoreRecords.MintOk | packages/core/src/approvals.ts:2055-2113 | a minted use is valid, and its standing approval's decision is among those people gave |
| StoreLocks.StepLocked | packages/core/src/approvals.ts:1160-1188 | while a call holds a record's lock, the file stays what the call last read or wrote, through every other call's step |
| StoreClaims.StepClaimed | packages/core/src/approvals.ts:1708-1730 | a record is past its claim exactly when its claim is in the history, and only the call that entered it goes on to its marker and returns |
| StoreClaims.StepMarked | packages/core/src/approvals.ts:1704-1730 | without retention, a marker stays with the call that created it, and only that call returns, whatever the lock does |
| StoreClaims.EntryIsWarranted | packages/core/src/approvals.ts:1597-1649 | whoever enters a claim holds an active record that its person approved where one is needed, still in reach of the configuration read under the lock |
| StoreClaims.WriteMovesOn | packages/core/src/approvals.ts:1177-1187 | every write over a record leaves what it was made with, moves its state forward, never shortens its lease, and calls it unknown only once the lease has run out |
| StoreSends.StepSent | packages/core/src/approvals.ts:1733-1766 | every step keeps: a marker's token is the claiming call's, only its holder renews or finishes, each go's lease holds, each outcome stands |
| StoreSends.NewOutcome | packages/core/src/approvals.ts:2329-2357 | an outcome is recorded only of a send under way or lost, with the claim's token |
| StoreSends.StepOver | packages/core/src/approvals.ts:1752-1766 | no step brings a lost or finished send back, or says go for it |
| StoreEnds.StepConcluded | packages/core/src/approvals.ts:1169-1178 | every step keeps: what was said to have ended is ended as stored, deleted, or out of the configuration's reach for good, and no call that could still decide on it read otherwise |
| StoreEnds.OutOfReachStays | packages/core/src/approval-outcome.ts:638-676 | a removed owner, a send epoch or a standing epoch that ended a record at one commit ends it at every later one |
| StoreEnds.EndedIsNotEntered | packages/core/src/approval-outcome.ts:130-132 | no call enters the claim of a record a look called ended, or that it calls ended itself |
| StoreRetention.StepRowed | packages/core/src/approval-maintenance.ts:561-565 | in every interleaving, no unlink comes before its row |
| StoreRetention.MarkersGoAfterRows | packages/core/src/approval-maintenance.ts:590-597 | a claim marker goes only when its record's row is there |
| StoreRetention.DeletionIsDue | packages/core/src/approval-maintenance.ts:225-262 | the same of the step itself: the record unlinked is the one its row was decided on |
| StoreCalls.UninterruptedCall | packages/core/src/approvals.ts:1145-1190 | a call's operations with none of another's between them leave exactly the files and markers the whole call does, and return a claim exactly when it does |
| StoreCalls.AloneIsARun | packages/core/src/approvals.ts:1160-1188 | where no other call holds a lock, that is a run of the machine: the call waits for nothing, and ends |
| StoreCalls.ForetoldClaimReturns | packages/core/src/approval-outcome.ts:678-684 | what a look calls claimable, with no marker yet, no other call in between and, for a use, a standing approval in force that covers it, its matching claim claims and returns |
| StoreCalls.UncoveredUseIsVoid | packages/core/src/approvals.ts:1601-1620 | a use a look calls claimable, whose standing approval as that claim reads it has ended, cannot be read or no longer covers it, is stored as revoked by any claim not cancelled, and nothing is marked |
| StoreObject.ApprovalStore.Transition | packages/core/src/approvals.ts:1145-1190 | one call in place: what it leaves and answers is `CallOver` of what it found |
| StoreObject.ApprovalStore.ClaimForSend | packages/core/src/approvals.ts:1589-1667 | the send claim's chain of checks in place: the same result, and a marker with its own token exactly when it is claimed |
| StoreLooks.ALookSettles | packages/core/src/approvals.ts:1203-1230 | a look touches no other file, changes of its own record neither what it was made with nor its evidence, enters no claim, and leaves a second look at that instant nothing to write |
| StoreLooks.ListedEndHolds | packages/core/src/approvals.ts:2441-2482 | what a list shows as ended, of a record made under the configuration the list read or an earlier one, is stored as ended or out of reach of every configuration from then on |
| StoreLooks.ListedYetClaimableExactly | packages/core/src/approvals.ts:2455-2469 | a record that is claimable now was listed as ended exactly when the list's configuration had not yet its account or the send or standing epoch it was prepared under, and did not itself turn sending off; the list left it as it was, and its claim goes through |
| StoreLooks.AListMayBeTooEarly | packages/core/src/approvals.ts:2455-2469 | there is such a record: a send one list does not know the account of, another the epoch of, and its claim goes through |
| StoreObject.ApprovalStore.StandingParentProblem | packages/core/src/approvals.ts:1676-1702 | a child's standing approval, looked at as its claim looks at it, and what that look writes |
| StoreObject.ApprovalStore.MarkClaimed | packages/core/src/approvals.ts:1704-1730 | a marker is created only where there is none, and no other marker changes |
| StoreObject.ApprovalStore.Fence | packages/core/src/approvals.ts:1749-1775 | go exactly while the token's send still reads as under way, and the lease then runs from now at least; nothing else is touched |
| StoreObject.ClaimedOnce | packages/core/src/approvals.ts:1704-1725 | a claim needs that there be no marker, leaves one, and no call takes a marker away or changes it |
| StoreObject.RefusalKeepsTheRecord | packages/core/src/approvals.ts:1584-1586 | a refusal that voids nothing leaves the record as it read |
| RecordInvariant.DecisionReadsBack | packages/core/src/approvals.ts:1474-2392 | what is decided on a valid record, the integrity check accepts and it reads back as itself, for exactly the callers that keep to `CallerFits`; from any other the store writes a record its own check refuses |
| RecordInvariant.AReasonSpoilsARecord | packages/core/src/approvals.ts:2386-2391 | there is such a caller: a send revoked with the store's own word for a clock anomaly as its reason is written as a record the integrity check refuses |
| RecordInvariant.DerivedReadsBack | packages/core/src/approvals.ts:975-1009 | an expiry or a lost send, the integrity check accepts and it reads back as itself, except for exactly a disclosure seen before it was made or approved |
| RecordInvariant.AClockSetBackSpoilsADisclosure | packages/core/src/approval-validate.ts:255-262 | there is such a disclosure: accepted as it is made, and refused by the integrity check once a clock set back has derived it |
| RecordInvariant.SendReadsBack | packages/core/src/approvals.ts:1044-1094 | a send is made one the integrity check accepts, and reads back as itself, exactly when it names an owner and an epoch of zero or more |
| RecordInvariant.CreateChangeSound | packages/core/src/approvals.ts:1784-1835 | every change is made valid, whatever its target |
| RecordInvariant.DownloadReadsBack | packages/core/src/approvals.ts:2144-2211 | a download's question is made one the integrity check accepts, and reads back as itself, exactly when it names its account |
| RecordInvariant.CreateStandingSound | packages/core/src/approvals.ts:1903-1953 | every standing approval made is valid |
| RecordInvariant.CreateDisclosureSound | packages/core/src/approvals.ts:1097-1118 | every disclosure made is valid |
| RecordInvariant.MintChildSound | packages/core/src/approvals.ts:2066-2113 | every use of a standing approval is made valid |
| RecordInvariant.OpenSound | packages/core/src/approvals.ts:1164-1178 | what a locked call finds, its derived state and revocation included, is valid |
| RecordInvariant.ActiveIsInWindow | packages/core/src/approvals.ts:978-1001 | what derivation leaves active is as stored and inside its own window at that time |
| LookAndAct.DeriveCommutes | packages/core/src/approvals.ts:975-1009 | deriving earlier and then later is deriving later, exactly unless the earlier clock was behind the record's own times |
| LookAndAct.LooksChangeNothingLater | packages/core/src/approvals.ts:1203-1230 | however often a record is looked at in between, under whatever configurations, a later act finds, refuses and claims what it would have, unless a look was by a clock set back or stored a revocation |
| RecordMoves.ClaimIsWarranted | packages/core/src/approval-outcome.ts:638-697 | only a claim claims, from an active record its outcome does not refuse, with the person it needs, under the owner and epochs it was made for |
| RecordMoves.DecideMoves | packages/core/src/approvals.ts:1474-2392 | no decision takes a state back, replaces evidence, or moves an approval to another time |
| RecordMoves.EndedOrOutOfReach | packages/core/src/approval-outcome.ts:130-132 | what reads as ended is written so, or is out of reach by its owner or an epoch: the one revocation that loosening could take back is written at the look |
| Decisions.ApprovedExactly | packages/core/src/approvals.ts:1500-1571 | an approval goes through exactly with the issued code, for the very content prepared, from pending, by a way the kind takes; it then carries that binding and opens its own window; a miss counts or voids |
| Decisions.ThreeWrongCodesVoid | packages/core/src/approvals.ts:1543-1558 | any third wrong code voids the record |
| Decisions.DisclosureApprovedExactly | packages/core/src/approvals.ts:1349-1415 | a disclosure is approved exactly at a terminal or in the app, with the issued code, for the same binding |
| Decisions.AnsweredExactly | packages/core/src/approvals.ts:2220-2246 | a question is answered exactly once, while pending, and the answer is bound to its binding |
| Decisions.SendClaimedExactly | packages/core/src/approvals.ts:1602-1649 | a send is claimed exactly when nothing refuses it, a look calls it claimable, its parent covers it, and account, draft, content, recipients and approved binding are those prepared; any mismatch voids it |
| Decisions.ChangeClaimedExactly | packages/core/src/approvals.ts:1851-1883 | a change is claimed exactly for its own digest, on the chat's yes where every policy is chat, else on a terminal's or the app's |
| Decisions.DownloadClaimedExactly | packages/core/src/approvals.ts:2280-2304 | a download is claimed exactly when claimable and the same request; another request is refused and leaves the question open |
| Decisions.DisclosureClaimedExactly | packages/core/src/approvals.ts:1430-1460 | a disclosure is claimed exactly when approved, for the same binding and digest, before the caller's deadline |
| Decisions.CompletedExactly | packages/core/src/approvals.ts:2333-2357 | an outcome is recorded exactly from sending or unknown, as the provider gave it, at no time before now or the last renewal |
| Decisions.ClaimIsPermitted | packages/core/src/approval-outcome.ts:638-697 | a decision that claims is of what was prepared, and allowed by the fields of the configuration it was classified under, as EveryClaimWasAllowed says |
| Gate.ClaimGoesThroughExactly | packages/core/src/approval-outcome.ts:678-783 | a matching claim goes through exactly when the record is in force, nothing the configuration says hinders it, and a person approved it or, for a send, the account's policy is chat, for a change, none it touches asks for confirm, for a download, neither it nor its account does |
| Gate.ClaimableExactly | packages/core/src/approval-outcome.ts:678-783 | a look calls it claimable exactly then |
| Gate.DerivedExactly | packages/core/src/approvals.ts:975-1009 | reading expires a record exactly when the clock is behind its times or past its own end, narrowed or not, and loses a send exactly two minutes after its last renewal |
| Gate.EndedExactly | packages/core/src/approval-outcome.ts:638-676 | a record in force is read as ended exactly by its account gone, sending turned off when it is acted on, an epoch moved on, or a change policy tightened, for the first of those reasons; what an act stores of that, and a look only of the last |
| Gate.ActsExactly | packages/core/src/approval-outcome.ts:638-690 | an act is refused nothing, and finds the record as stored, exactly when it is in force and nothing the configuration says is against it |
| Gate.RefusalIsExact | packages/core/src/approval-outcome.ts:800-900 | which code an act is refused with, by what reading makes of the record |
| Gate.RefusedEarlyExactly | packages/core/src/approvals.ts:1306-1325 | what is refused before a record is looked for |
| Gate.FoundExactly | packages/core/src/approvals.ts:847-873 | a record is opened exactly by the acts that are about its kind and account; to others it is not there; one the integrity check refuses is void, or not there if whose it is cannot be told |
| Gate.ShownExactly | packages/core/src/approval-outcome.ts:678-702 | what a look shows of a record in force: its state, an answered question as answered, why it has ended, or that sending is turned off |
| Gate.IssueGoesThroughExactly | packages/core/src/approvals.ts:1306-1345 | a code is issued exactly to a waiting record nothing hinders, and replaces any before it |
| Gate.ApprovalGoesThroughExactly | packages/core/src/approvals.ts:1474-1571 | an approval goes through exactly for a waiting record nothing hinders, by its code, for the message prepared, in a way its kind takes; and makes of it just an approved one with its own window, a standing approval keeping the change policy its account has |
| Gate.DisclosureGoesThroughExactly | packages/core/src/approvals.ts:1349-1415 | a disclosure's, exactly by its code, at a terminal or in the app, for the very same binding |
| Gate.AnswerGoesThroughExactly | packages/core/src/approvals.ts:2220-2246 | a question is answered exactly once, while it waits and nothing hinders it |
| Gate.RevokeEndsExactly | packages/core/src/approvals.ts:2371-2400 | a revocation ends whatever is in force, waiting or approved, under any configuration or none, for the reason given or the one the configuration had; and leaves any other record as reading makes it |
| Gate.NarrowingGoesThroughExactly | packages/core/src/approvals.ts:2121-2140 | a narrowing goes through exactly of a standing approval in force, when it only takes away; what is then permitted is what was, of what was kept, for as many days as asked |
| Gate.RenewalExactly | packages/core/src/approvals.ts:1749-1766 | a renewal moves the lease to now exactly of a send under way within its lease, and never back |
| Gate.StandingCoversExactly | packages/core/src/approvals.ts:1676-1702 | a use is covered exactly by the standing approval it names, for its account, approved, in force, left standing by the configuration, and still permitting its content and place |
| Policies.SendPolicySaid | packages/core/src/approval-outcome.ts:82-103 | the gate's send policy is the account's own, or the default if it has none; its epoch the account's, or zero |
| Policies.GoverningSaid | packages/core/src/config.ts:1083-1098 | a change is governed by confirm exactly when the account it is to, or one a setting it loosens belongs to, asks for it, itself or by the default |
| Standing.NarrowedExactly | packages/core/src/standing.ts:418-445 | a narrowing is accepted exactly when all it keeps is in force, it keeps something, and its days are no more than are left of it |
| Standing.LimitsAre | packages/core/src/standing.ts:123-132 | the limits a standing approval may have, and that its contents and places are each named once |
| Standing.NarrowingOnlyTakesAway | packages/core/src/standing.ts:376-445 | what it leaves covers a use exactly when what was in force did and the use is of what was kept |
| Standing.CoversExactly | packages/core/src/approvals.ts:1690-1702 | a use is covered exactly when its content was approved, its place is one, and both are still kept |
| Creations.SendIsMadeOf | packages/core/src/approvals.ts:1044-1094 | a send is made of just its input: its account, message, content and recipients, the stricter of its policies, ten minutes for the chat or thirty for a person |
| Creations.ChangeIsMadeOf | packages/core/src/approvals.ts:1784-1835 | a change of the change itself, scoped by its target; and only the same change has its digest |
| Creations.DownloadIsMadeOf | packages/core/src/approvals.ts:2144-2211 | a question of its request and account, whose listing names its files; and only the same request has its digest |
| Creations.StandingIsMadeOf | packages/core/src/approvals.ts:1903-1953 | a standing approval of its binding, account, subject and epochs, for the days its limits say |
| Creations.DisclosureIsMadeOf | packages/core/src/approvals.ts:1097-1118 | a disclosure of any accepted binding, and no other |
| Creations.UseIsMadeOf | packages/core/src/approvals.ts:1998-2113 | a use exactly of a standing approval approved at a terminal for its own binding, under its epochs and subject; with the caller's message and recipients, approved in advance for two minutes |
| Creations.AsPreparedExactly | packages/core/src/approvals.ts:1602-1649 | a claim is of what was prepared exactly when it brings the prepared message to the prepared recipients, the same change, the same request, or the very binding |
| Creations.SameExpectationExactly | packages/core/src/approvals.ts:2557-2571 | recipients are the same exactly when each list has the same addresses and the subject is the same but for the blanks around it, where no address is empty or holds a newline |
| Texts.CodesMatchExactly | packages/core/src/ids.ts:35-44 | a code typed matches the one issued exactly when they are the same letters, whatever their case and the blanks around them |
| Texts.AddressIs | packages/core/src/digest.ts:104-107 | an entry's address is what it ends with in angle brackets, or else the entry; without the blanks around it, in lower case |
| Recipients.SameListExactly | packages/core/src/approvals.ts:2561-2564 | lists with the same addresses always compare as the same recipients; where no address holds a newline only they do, but that none and an empty one are not told apart |
| Recipients.ANewlineMixesAddresses | packages/core/src/approvals.ts:2561-2564 | where one does, different addresses may compare as the same: a case where they do |
| LookAndAct.LookAgreesWithAct | packages/core/src/approval-outcome.ts:678-684 | a look's claimable is exactly whether the matching claim, at that instant and gate, moves the record |
| ApprovalValidate.ValidIsWellFormed | packages/core/src/approval-validate.ts:139-500 | the chain of early returns accepts exactly the records that are well formed, under their own file's name |
| ApprovalValidate.EvidenceChecked | packages/core/src/approval-validate.ts:455-500 | the evidence checks accept exactly no evidence, or a person's for this binding by a way the kind allows |
| ApprovalValidate.TimesChecked | packages/core/src/approval-validate.ts:369-452 | the timestamp checks accept exactly the times each state has, each inside its window |
| ApprovalValidate.WindowIs | packages/core/src/approval-validate.ts:423-445 | the window those times are held to: from the approval and before it lapses, or from the making and before the question does |
| ApprovalValidate.StatesAre | packages/core/src/approval-validate.ts:84-106 | which states each kind may be in: a use never pending, a standing approval never used, only a send under way |
| ApprovalValidate.ReadTimes | packages/core/src/approval-validate.ts:369-385 | the loop gives every time, or nothing if any text is no time |
| ApprovalBinding.AcceptedBindingsAreUnique | packages/core/src/approval-binding.ts:81-147 | two accepted disclosure bindings of the same versions have the same list, and sameness is equality on accepted bindings |
| ApprovalBinding.AcceptedExactly | packages/core/src/approval-binding.ts:91-139 | a disclosure's binding is accepted, unchanged, exactly when it has a digest and an intent, and versions named, numbered from one, in their order, of the kinds it is for |
| ApprovalBinding.VersionOrderIs | packages/core/src/approval-binding.ts:81-84 | that order is of the kind's name, then the id, alphabetically, then the number |
| ApprovalBinding.CompareVersionsTotal | packages/core/src/approval-binding.ts:81-89 | exactly one of before, same and after |
| ApprovalBinding.CompareVersionsTransitive | packages/core/src/approval-binding.ts:81-89 | the order of versions is transitive |
| ApprovalBinding.SameSetSameList | packages/core/src/approval-binding.ts:105-120 | strictly increasing lists of the same versions are the same list |
| ApprovalBinding.BindingFixesWhatIsActedOn | packages/core/src/approval-binding.ts:310-397 | a binding digest fixes the id, owner, draft, route, lifetimes, epochs and content it was taken of |
| Retention.FinishedHasATime | packages/core/src/approval-maintenance.ts:181-204 | a valid record has one time it finished at exactly when it is finished: the stored time of its state, and for a lost send two minutes after its last renewal |
| Retention.VerdictExact | packages/core/src/approval-maintenance.ts:211-262 | exactly the valid records finished ninety days ago by that time, and an earlier release's used ones last written ninety days ago and holding nothing later, are due |
| Retention.RowSays | packages/core/src/approval-maintenance.ts:225-262 | the row a record is deleted with gives that time, and its owner, kind, state and, of a used send, its message at the provider; none of a disclosure's owner |
| RetentionSlot.ApprovalDirectory.RunSlot | packages/core/src/approval-maintenance.ts:488-558 | with any step failing or late: nothing else touched, no row but the verdict, no marker before its row, no record before both; without trouble, deleted exactly when due |
| RetentionSlot.ApprovalDirectory.Prune | packages/core/src/approval-maintenance.ts:561-604 | row, then marker, then record, and what fails stops the rest |
| Maintenance.NoSlotIsPassedOver | packages/core/src/approval-maintenance.ts:414-476 | over any batches and directory changes since a sweep began, every slot at or before the cursor has been attempted and was not busy |
| Maintenance.BatchKeepsTheSweep | packages/core/src/approval-maintenance.ts:432-462 | one batch, however it was cut short, keeps that |
| Maintenance.TakenOnExactly | packages/core/src/approval-maintenance.ts:426-431 | a batch takes a slot on exactly when it is past the cursor with fewer than two hundred before it |
| Maintenance.WaitingSlotIsTakenOn | packages/core/src/approval-maintenance.ts:414-462 | whatever is made, rewritten or removed between batches without busy slots or lateness, a slot that stays, with no more before it than there were, is taken on by the batch its place says: the k-th that waits in batch k/200 rounded up |
| Maintenance.CleanSweepCovers | packages/core/src/approval-maintenance.ts:414-462 | where what is made or rewritten meanwhile sorts after all that was listed, every slot that waited is taken on within n/200 batches rounded up, one when there are none, n being how many waited; unless it was removed or rewritten before its turn |
| Maintenance.NewSlotsMayDelay | packages/core/src/approval-maintenance.ts:426-431 | to sort after the cursor alone is not enough for that: a case where new slots leave one out of both batches it would have had |
| Maintenance.SweepTakesInOrder | packages/core/src/approval-maintenance.ts:426-462 | whatever happens to the directory, a sweep takes slots on in their order, none twice |
| Maintenance.StillSweepIsExact | packages/core/src/approval-maintenance.ts:414-462 | over a directory left alone, the sweep is over in exactly n/200 batches rounded up, one when there are none, and has taken on just its slots |
| Maintenance.BatchesAreOfTwoHundred | packages/core/src/approval-maintenance.ts:426-431 | n/200 rounded up: every batch but the last takes two hundred |
| Maintenance.CleanBatchAdvances | packages/core/src/approval-maintenance.ts:455-462 | a clean batch leaves the cursor after its two-hundredth slot, or cleared at the end |
| Maintenance.RunBatch | packages/core/src/approval-maintenance.ts:414-476 | the loop leaves the cursor before the earliest busy slot, after the last attempted, cleared at the end, or as it was where the lock was lost, and counts what it did |
| Maintenance.Begin | packages/core/src/approval-maintenance.ts:340-385 | a batch begins exactly when none was ever attempted, or the last attempt was a day ago or more; then, or where that time is more than five minutes ahead, the attempt is recorded as of now |
| Maintenance.PositionsAreOrdered | packages/core/src/approval-maintenance.ts:146-149 | of two slots exactly one is before, same or after, and the same only if they are one |
| Maintenance.OldestComesFirst | packages/core/src/approval-maintenance.ts:146-149 | that order is of the time written, then of the id, alphabetically |
| Maintenance.PositionsAreTransitive | packages/core/src/approval-maintenance.ts:146-149 | the order of slots by time and id is transitive |
| ActivityText.CutIsShorten | packages/core/src/activity.ts:235-241 | the cut over UTF-16 units is the cut over whole characters: unchanged up to the bound, else one fewer and an ellipsis |
| ActivityText.CutBounds | packages/core/src/activity.ts:235-241 | never past its bound, and cutting again changes nothing |
| ActivityBounds.BoundedLineIsBounded | packages/core/src/activity.ts:418-480 | whatever the input, every field of the line is within its bound and of its form |
| ActivityBounds.BoundedLineReadsBack | packages/core/src/activity.ts:418-480 | a bounded line, as it is written, reads back as itself, field by field |
| ActivityFitted.EveryLineFits | packages/core/src/activity.ts:335-396 | whatever the input, the line as JSON takes at most 16384 bytes with its newline |
| ActivityBytes.EveryLineIsWrittenInItsBound | packages/core/src/activity.ts:339-342 | those bytes are the length in UTF-8 of the text it is written as, whatever it holds |
| ActivityBytes.WrittenBytes | packages/core/src/activity.ts:339-342 | the same of any JSON a line is made of |
| ActivityFitted.EveryLineCounts | packages/core/src/activity.ts:343-349 | its items are those of the first fifty given that have an id, all of them unless it was truncated and then the first of them; its count is how many were given, or the count given if that is larger, truncated or not; with no list, the count given |
| ActivityGiven.WordsAsGiven | packages/core/src/activity.ts:418-455 | its time, kind, outcome and act are those given, and where none fits, now, a read, and that it went well |
| ActivityGiven.TextsAsGiven | packages/core/src/activity.ts:418-470 | its texts are those given, whole up to their bounds and else cut with an ellipsis |
| ActivityGiven.LinksAsGiven | packages/core/src/activity.ts:402-416 | a link is the provider's id given, whole, or left out |
| ActivityGiven.ItemAsGiven | packages/core/src/activity.ts:255-276 | an item's texts are those given, up to their bounds, its sender left out only if it has neither name nor address |
| ActivityGiven.SessionAsGiven | packages/core/src/activity.ts:295-320 | a session key given is kept, and only then is the line grouped; else it stands alone under a fresh one |
| ActivityGiven.CallerAsGiven | packages/core/src/activity.ts:278-331 | its client has a name, its connection an id that is one and a name, its parent a start and a process |
| ActivityGiven.RecipientsAsGiven | packages/core/src/activity.ts:436-442 | its recipients are the texts among the first fifty given |
| ActivityGiven.CountsAsGiven | packages/core/src/activity.ts:426-435 | its counts are the first ten given under a plain name with a whole number |
| ActivityGiven.ShortenedAsItWas | packages/core/src/activity.ts:369-391 | a line shortened to fit has its words as they were, up to the shorter bounds, and everything else unchanged |
| ActivityFitted.FittedKeeps | packages/core/src/activity.ts:350-368 | no item is dropped that could have been kept, and no recipient before the last item |
| ActivityFitted.FittedFits | packages/core/src/activity.ts:369-396 | once the words are shortened the line always fits, so none is ever dropped whole |
| ActivityFitted.WrittenLineReadsBack | packages/core/src/activity.ts:335-496 | every written line, truncated or not, reads back as itself |
| ActivityFitted.Fit | packages/core/src/activity.ts:350-396 | the popping loops end in the fitted line |
| ActivityShow.Show | packages/core/src/activity.ts:1047-1085 | the buffer gives the first `limit` of the stable newest-first sort of every matching line met, `more` exactly when more matched, and a summary that is what every line of the session met adds up to, by those lines alone |
| ActivityShow.LinesMetAreTheSessions | packages/core/src/activity.ts:1057-1068 | over files of lines the log wrote, each of its own day, newest first, the lines met are every line of the session since then and no other |
| ActivityShow.MatchingIsAllOfIt | packages/core/src/activity.ts:1248-1256 | the matching lines are those of the kind, outcome, channel and account asked, by its alias or its id, each as often as it was met |
| ActivityWriting.EveryLineIsFound | packages/core/src/activity.ts:1052-1053 | whatever the input, the text a line is written as contains what its session is looked for by |
| ActivityShow.LookingLosesNothing | packages/core/src/activity.ts:1065-1067 | among lines the log wrote, looking for the key before reading a line whole loses none |
| ActivityShow.Meet | packages/core/src/activity.ts:1068-1081 | sorting and cutting back at twice the limit keeps what the buffer stands for, and the buffer never past it |
| ActivityShow.AnyStableSortIsSorted | packages/core/src/activity.ts:1244-1246 | a stable newest-first sort (section 23.1.3.30 of ECMA-262) leaves one result only, the one the proofs use |
| ActivityShow.StoppingLosesNothing | packages/core/src/activity.ts:1062-1063 | where files hold their own days, stopping at the first day too old loses no line |
| ActivitySessions.MergeIsAssociative | packages/core/src/activity.ts:598-626 | merging groups as it may, all but the client and parent |
| ActivitySessions.FoldOfConcat | packages/core/src/activity.ts:563-650 | two parts of a session's lines, added up apart and then together, are the whole |
| ActivitySessions.Sessions | packages/core/src/activity.ts:1021-1041 | from day indexes and lines alike, each session listed is what its own lines in the time asked add up to, by those lines alone, and every session with a line is listed |
| ActivitySessions.DayAggregates | packages/core/src/activity.ts:986-1015 | a day's index has each of its sessions once, as its lines add up, by those lines alone |
| ActivitySessions.FoldAddsUp | packages/core/src/activity.ts:563-626 | one line merged after another: each kind and outcome as often as a line has it; first and last seen the least and greatest time; surfaces, processes, channels and accounts just those of the lines, none empty; grouped if one is; the connection of the latest line through one; the folder of the earliest server line, or of the earliest; its client and parent, or some line's if it has none |
| ActivitySessions.MergeAddsUp | packages/core/src/activity.ts:598-626 | two groups so added up are, merged, what their lines together add up to |
| ActivitySessions.LinesAreThoseSince | packages/core/src/activity.ts:1021-1037 | where each file holds its own day, the lines a list is of are exactly those of the days kept that are recent enough |
| ActivitySessions.OfKeyIsAllOfIt | packages/core/src/activity.ts:629-632 | a session's lines are those under its key, each as often as it is there |
| ActivitySessions.IndexAgreesWithLines | packages/core/src/activity.ts:980-1041 | two ways to the same lines agree on the sessions and on all they say but the client and parent |
| ActivitySessions.ClientDependsOnGrouping | packages/core/src/activity.ts:611-612 | the client fallback does depend on the grouping: a case where it does |
| ActivitySessions.ClientSettledExactly | packages/core/src/activity.ts:598-612 | exactly when it does not, for any three |
| AgentLabel.ResolveIdentity | packages/core/src/agent-label.ts:245-260 | what the message asks; else the word of a matching rule that names the conversation if any matching does, of those alike in that, names kinds if any does, and of those alike in both, says agent if any does; else agent |
| AgentLabel.OrderDoesNotCount | packages/core/src/agent-label.ts:245-260 | the identity depends only on which rules there are |
| AgentLabel.DecidedIdentity | packages/core/src/agent-label.ts:239-260 | an act is the person's own exactly when some matching me rule is narrower than every matching agent rule: it names a conversation and that does not, or, alike in that, names kinds and that does not |
| AgentLabel.RuleMatchesExactly | packages/core/src/agent-label.ts:222-237 | a rule matches acts of its account, of a kind it names if it names any, and in the channel or with the person it names; by mail, to at least one recipient and none it does not name |
| AgentLabel.AddressMatchesExactly | packages/core/src/agent-label.ts:216-220 | a rule names an address in any case of letters, or with an @ first, every address that is a name without one and then that |
| AgentLabel.LooseningIsNeverMissed | packages/core/src/agent-label.ts:282-303 | a change that lists no loosening of the rules leaves every act that goes out as the agent's so |
| AgentLabel.TighteningIsNeverListed | packages/core/src/agent-label.ts:282-287 | adding agent rules and removing me rules lists nothing |
| AgentLabel.ClassifyChange | packages/core/src/agent-label.ts:288-317 | each path is listed exactly when its setting loosens: the word, the default counted, or the name or the icons change; a me rule is there that was not, or an agent rule no longer, whatever the order of their kinds; a workspace becomes labelled. With what was and what is, of styles each workspace's that moved |
| Envelope.SplitUndoesPrint | apps/desktop/src/envelope.ts:3-11 | the splitter gives back any app text and envelopes the printer wrote, adjacent text merged and empty text dropped |
| Envelope.PiecesPrintTheText | apps/desktop/src/envelope.ts:22-42 | on every input, the pieces printed again are the text: nothing is lost or added |
| Envelope.SplitEnvelopes | apps/desktop/src/envelope.ts:22-42 | the scanning loop ends, and its parts are the pieces' |
| Envelope.ReadOpeningComplete | apps/desktop/src/envelope.ts:16-19 | every text that begins with an opening tag of the pattern is read as that tag, whatever follows |
| Envelope.ReadOpeningSound | apps/desktop/src/envelope.ts:16-19 | only such a text is |
| Envelope.ClosingIsFound | apps/desktop/src/envelope.ts:31-33 | the first closing tag after an opening is the envelope's own, whatever follows it |

## Left out

- A provider's step that outlives the two minutes a `go` gave it.
- That turning sending off raises the send epoch: `send-epoch.ts` is not part of this model, and an epoch is taken as it stands in the configuration.
- A cancellation as an event that may land while a claim waits: it is a value of the call.
- ActivitySessions.IndexAgreesWithLines: not the client and the parent, whose fallback depends on the grouping (`ClientSettledExactly`).
- Which day files there are, and that they come newest first: the directory listing's.
- A slot whose stat fails, and a file whose time is set back behind the cursor: a sweep leaves either for another.
- The sorting of a listing; enumerating and pairing file names, and the state file's own parsing, are left out.
- Of the reason sending is turned off, that it names the kind of account, or the approval: the model has one wording.
- Refusal wording, hints, handoffs and the public approval object: of a refusal only its code is kept, and whether anything was written.
- `updatedAt` of a version-2 record, which nothing reads; a claim marker's process and time; risk flags, which nothing decides by.
- Records of an earlier release: read, never claimed, and deleted when due; that release's own derivation and the rewriting of one that is revoked are left out.
- The shape checks of stored fields (`approval-stored.ts`): a file is a record, an earlier release's, or unreadable.
- Of a standing approval's binding, the rules for the words of a content and for emoji; of a narrowing, the limits other than its days.
- A use reads its standing approval and the configuration once under that one's lock; the source reads both again there before it mints.
- Times whose year needs more than four digits, and white space and letters beyond ASCII in addresses and typed codes.
- Numbers in a line other than whole ones as they are written; the fraction and exponent forms of JSON numbers never are.
- The day files, the once-a-day pruning, the failure file and the parents file of the activity log; which session a process belongs to.
- Label phrases, names and the reading of label settings; the person's identity and the behaviour rules.
- Neutralising what a sender wrote before it is put in an envelope (`untrusted.ts`): that a content lacks its own closing tag is where the round trip begins.
- Lists (`inspectAll`) are no calls of the machine: what they write is what a look at each record writes under the configuration read before (`ListedEndHolds`, `ListedYetClaimableExactly`); their filters and order, and `list`, which writes nothing, are left out.
- A line somebody rewrote with a space after a key's colon: it reads as a line, but looking for its session does not find it.
- Every screen, command and provider adapter.
