/**
  What a version-2 approval binds (packages/core/src/approval-binding.ts), and the digests of what a change, a download
  and a standing approval permit.
  */
module ApprovalBinding {
  import opened Wrappers
  import opened Records

  // ---------- disclosure bindings ----------

  // The source compares the kinds as text; this is their alphabetical order.
  function VersionKindRank(k: VersionKind): nat {
    match k
    case JudgeV => 0
    case JudgeBudgetV => 1
    case JudgeKindV => 2
    case RuleV => 3
    case SubscriberV => 4
    case TargetV => 5
  }

  // `one < two ? -1 : one > two ? 1 : 0` on text.
  function CompareText(one: string, two: string): int {
    if one == [] && two == [] then 0
    else if one == [] then -1
    else if two == [] then 1
    else if one[0] != two[0] then (if one[0] < two[0] then -1 else 1)
    else CompareText(one[1..], two[1..])
  }

  function CompareVersions(left: DisclosureVersion, right: DisclosureVersion): int {
    var byKind := VersionKindRank(left.kind) - VersionKindRank(right.kind);
    if byKind != 0 then byKind
    else
      var byId := CompareText(left.id, right.id);
      if byId != 0 then byId else left.version - right.version
  }

  predicate StrictlyIncreasing(versions: seq<DisclosureVersion>) {
    forall i | 0 < i < |versions| :: CompareVersions(versions[i - 1], versions[i]) < 0
  }

  predicate VersionsFit(kind: ActivationKind, versions: seq<DisclosureVersion>) {
    match kind
    case RuleActivation =>
      && (exists v | v in versions :: v.kind == RuleV)
      && (forall v | v in versions :: v.kind != JudgeBudgetV && v.kind != JudgeKindV)
    case JudgeBudgetActivation => |versions| == 1 && versions[0].kind == JudgeBudgetV
    case JudgeKindActivation => |versions| == 1 && versions[0].kind == JudgeKindV
    case Subscription => |versions| == 1 && versions[0].kind == SubscriberV
    case EnableAll => forall v | v in versions :: v.kind == RuleV
  }

  // The binding, exactly as given, or nothing where the source throws: it never reorders.
  function CanonicalDisclosureBinding(b: DisclosureBinding): Option<DisclosureBinding> {
    if !IsHex64(b.digest) || b.activationIntentId == "" then None
    else if exists v | v in b.versions :: v.id == "" || v.version < 1 then None
    else if !StrictlyIncreasing(b.versions) then None
    else if !VersionsFit(b.activationKind, b.versions) then None
    else Some(b)
  }

  predicate SameDisclosureBinding(left: DisclosureBinding, right: DisclosureBinding) {
    CanonicalDisclosureBinding(left).Some? && CanonicalDisclosureBinding(left) == CanonicalDisclosureBinding(right)
  }

  lemma {:induction false} CompareTextAntisymmetric(one: string, two: string)
    ensures CompareText(one, two) == -CompareText(two, one)
    ensures CompareText(one, two) == 0 <==> one == two
    decreases |one|
  {
    if one != [] && two != [] && one[0] == two[0] {
      CompareTextAntisymmetric(one[1..], two[1..]);
      assert one == [one[0]] + one[1..] && two == [two[0]] + two[1..];
    }
  }

  lemma {:induction false} CompareTextTransitive(a: string, b: string, c: string)
    requires CompareText(a, b) < 0 && CompareText(b, c) < 0
    ensures CompareText(a, c) < 0
    decreases |a|
  {
    if a != [] && b != [] && c != [] && a[0] == b[0] == c[0] {
      CompareTextTransitive(a[1..], b[1..], c[1..]);
    }
  }

  // One text is before another: where they first differ its character is less, or it ends there.
  ghost predicate ComesBefore(one: string, two: string) {
    exists k: nat | k <= |one| && k < |two| :: DifferAt(one, two, k)
  }

  predicate DifferAt(one: string, two: string, k: nat)
    requires k <= |one| && k < |two|
  {
    one[..k] == two[..k] && (k == |one| || one[k] < two[k])
  }

  lemma {:induction false} TextOrderIsAlphabetical(one: string, two: string)
    ensures CompareText(one, two) < 0 <==> ComesBefore(one, two)
    decreases |one|
  {
    if one != [] && two != [] && one[0] == two[0] {
      TextOrderIsAlphabetical(one[1..], two[1..]);
      if ComesBefore(one[1..], two[1..]) {
        var k: nat :| k <= |one[1..]| && k < |two[1..]| && DifferAt(one[1..], two[1..], k);
        assert one[..k + 1] == [one[0]] + one[1..][..k] && two[..k + 1] == [two[0]] + two[1..][..k];
        assert DifferAt(one, two, k + 1);
      }
      if ComesBefore(one, two) {
        var k: nat :| k <= |one| && k < |two| && DifferAt(one, two, k);
        assert k > 0;
        assert one[1..][..k - 1] == one[..k][1..] && two[1..][..k - 1] == two[..k][1..];
        assert DifferAt(one[1..], two[1..], k - 1);
      }
    } else if two != [] && (one == [] || one[0] < two[0]) {
      assert DifferAt(one, two, 0);
    } else {
      forall k: nat | 0 < k <= |one| && k < |two| ensures !DifferAt(one, two, k) {
        assert one[..k][0] == one[0] && two[..k][0] == two[0];
      }
    }
  }

  // The names the kinds of a version are written with, and so ordered by.
  function VersionKindText(k: VersionKind): string {
    match k
    case RuleV => "rule"
    case TargetV => "target"
    case SubscriberV => "subscriber"
    case JudgeV => "judge"
    case JudgeBudgetV => "judge-budget"
    case JudgeKindV => "judge-kind"
  }

  lemma JudgesInOrder()
    ensures CompareText("judge", "judge-budget") < 0 && CompareText("judge", "judge-kind") < 0
    ensures CompareText("judge-budget", "judge-kind") < 0
  {
    assert DifferAt("judge", "judge-budget", 5) && DifferAt("judge", "judge-kind", 5);
    assert "judge-budget"[6] == 'b' && "judge-kind"[6] == 'k' && "judge-budget"[..6] == "judge-kind"[..6];
    assert DifferAt("judge-budget", "judge-kind", 6);
    TextOrderIsAlphabetical("judge", "judge-budget");
    TextOrderIsAlphabetical("judge", "judge-kind");
    TextOrderIsAlphabetical("judge-budget", "judge-kind");
  }

  lemma VersionKindsInOrder(a: VersionKind, b: VersionKind)
    ensures VersionKindRank(a) < VersionKindRank(b) <==> CompareText(VersionKindText(a), VersionKindText(b)) < 0
  {
    JudgesInOrder();
    FirstLettersDecide(a, b);
    CompareTextAntisymmetric(VersionKindText(a), VersionKindText(b));
    CompareTextAntisymmetric("judge", "judge-budget");
    CompareTextAntisymmetric("judge", "judge-kind");
    CompareTextAntisymmetric("judge-budget", "judge-kind");
    hide CompareText;
  }

  lemma FirstLettersDecide(a: VersionKind, b: VersionKind)
    ensures var one := VersionKindText(a);
            var two := VersionKindText(b);
            one[0] != two[0] ==> (CompareText(one, two) < 0 <==> one[0] < two[0])
  {
  }

  // Versions are in the order of their kind's name, then of their id, then of their number.
  lemma VersionOrderIs(a: DisclosureVersion, b: DisclosureVersion)
    ensures CompareVersions(a, b) < 0 <==>
            || ComesBefore(VersionKindText(a.kind), VersionKindText(b.kind))
            || (a.kind == b.kind && ComesBefore(a.id, b.id))
            || (a.kind == b.kind && a.id == b.id && a.version < b.version)
  {
    VersionKindsInOrder(a.kind, b.kind);
    TextOrderIsAlphabetical(VersionKindText(a.kind), VersionKindText(b.kind));
    TextOrderIsAlphabetical(a.id, b.id);
    CompareTextAntisymmetric(a.id, b.id);
    hide CompareText, ComesBefore, VersionKindText;
  }

  // What a list of versions is for says which kinds it may hold: a rule's, at least one rule's and no judge's limits; the
  // others but one version of one kind, and enabling all, rules alone.
  predicate FitFor(kind: ActivationKind, versions: seq<DisclosureVersion>) {
    match kind
    case RuleActivation =>
      && (exists i | 0 <= i < |versions| :: versions[i].kind == RuleV)
      && forall i | 0 <= i < |versions| ::
           versions[i].kind in {RuleV, TargetV, SubscriberV, JudgeV}
    case JudgeBudgetActivation => |versions| == 1 && versions[0].kind == JudgeBudgetV
    case JudgeKindActivation => |versions| == 1 && versions[0].kind == JudgeKindV
    case Subscription => |versions| == 1 && versions[0].kind == SubscriberV
    case EnableAll => forall i | 0 <= i < |versions| :: versions[i].kind == RuleV
  }

  // A binding is accepted, as it is, exactly when it is whole: a digest, an intent, and versions that are named and
  // numbered, in their order, of the kinds it is for.
  lemma AcceptedExactly(b: DisclosureBinding)
    ensures CanonicalDisclosureBinding(b).Some? <==>
            && IsHex64(b.digest) && b.activationIntentId != ""
            && (forall i | 0 <= i < |b.versions| :: b.versions[i].id != "" && b.versions[i].version >= 1)
            && (forall i | 0 < i < |b.versions| :: CompareVersions(b.versions[i - 1], b.versions[i]) < 0)
            && FitFor(b.activationKind, b.versions)
    ensures CanonicalDisclosureBinding(b).Some? ==> CanonicalDisclosureBinding(b) == Some(b)
  {
    FitForExactly(b.activationKind, b.versions);
    hide CompareVersions, VersionsFit, FitFor, IsHex64;
  }

  lemma FitForExactly(kind: ActivationKind, versions: seq<DisclosureVersion>)
    ensures VersionsFit(kind, versions) <==> FitFor(kind, versions)
  {
    if VersionsFit(kind, versions) && kind.RuleActivation? {
      var v :| v in versions && v.kind == RuleV;
      var i :| 0 <= i < |versions| && versions[i] == v;
      assert versions[i].kind == RuleV;
    }
  }

  // A strict total order: exactly one of before, same and after, and transitive.
  lemma CompareVersionsTotal(a: DisclosureVersion, b: DisclosureVersion)
    ensures CompareVersions(a, b) == 0 <==> a == b
    ensures CompareVersions(a, b) < 0 <==> CompareVersions(b, a) > 0
  {
    CompareTextAntisymmetric(a.id, b.id);
  }

  lemma CompareVersionsTransitive(a: DisclosureVersion, b: DisclosureVersion, c: DisclosureVersion)
    requires CompareVersions(a, b) < 0 && CompareVersions(b, c) < 0
    ensures CompareVersions(a, c) < 0
  {
    CompareTextAntisymmetric(a.id, b.id);
    CompareTextAntisymmetric(b.id, c.id);
    if CompareText(a.id, b.id) < 0 && CompareText(b.id, c.id) < 0 {
      CompareTextTransitive(a.id, b.id, c.id);
    }
  }

  lemma {:induction false} FirstIsLeast(versions: seq<DisclosureVersion>, k: nat)
    requires StrictlyIncreasing(versions) && 0 < k < |versions|
    ensures CompareVersions(versions[0], versions[k]) < 0
  {
    if k > 1 {
      FirstIsLeast(versions, k - 1);
      CompareVersionsTransitive(versions[0], versions[k - 1], versions[k]);
    }
  }

  // The head of a strictly increasing list is not again in its tail.
  lemma HeadNotInTail(versions: seq<DisclosureVersion>)
    requires StrictlyIncreasing(versions) && |versions| > 0
    ensures forall v | v in versions[1..] :: CompareVersions(versions[0], v) < 0 && v != versions[0]
  {
    forall v | v in versions[1..] ensures CompareVersions(versions[0], v) < 0 && v != versions[0] {
      var k :| 0 <= k < |versions| - 1 && versions[1..][k] == v;
      FirstIsLeast(versions, k + 1);
      CompareVersionsTotal(versions[0], v);
    }
  }

  // Two strictly increasing lists of the same versions are the same list.
  lemma {:induction false} SameSetSameList(left: seq<DisclosureVersion>, right: seq<DisclosureVersion>)
    requires StrictlyIncreasing(left) && StrictlyIncreasing(right)
    requires forall v :: v in left <==> v in right
    ensures left == right
  {
    assert right != [] ==> right[0] in left;
    if left != [] {
      assert left[0] in right;
      HeadNotInTail(left);
      HeadNotInTail(right);
      if left[0] != right[0] {
        assert left[0] in right[1..] && right[0] in left[1..];
        CompareVersionsTotal(left[0], right[0]);
        assert false;
      }
      assert left == [left[0]] + left[1..] && right == [right[0]] + right[1..];
      forall v ensures v in left[1..] <==> v in right[1..] {
        if v in left[1..] { assert v in left && v != left[0]; }
        if v in right[1..] { assert v in right && v != right[0]; }
      }
      SameSetSameList(left[1..], right[1..]);
    }
  }

  // Accepted bindings are canonical: one that names the same versions for the same purpose is the same binding, and
  // `sameDisclosureBinding` is then equality.
  lemma AcceptedBindingsAreUnique(left: DisclosureBinding, right: DisclosureBinding)
    requires CanonicalDisclosureBinding(left).Some? && CanonicalDisclosureBinding(right).Some?
    ensures SameDisclosureBinding(left, right) <==> left == right
    ensures (forall v :: v in left.versions <==> v in right.versions) ==> left.versions == right.versions
    ensures SameDisclosureBinding(left, right) <==>
            && left.digest == right.digest
            && left.activationIntentId == right.activationIntentId
            && left.activationKind == right.activationKind
            && (forall v :: v in left.versions <==> v in right.versions)
  {
    if forall v :: v in left.versions <==> v in right.versions {
      SameSetSameList(left.versions, right.versions);
    }
  }

  // ---------- content digests ----------

  // The loosenings and settings are sorted before they are digested, so only which they are counts; the effects are not.
  function ChangeDigest(c: ChangeBinding): Digest {
    Sha(ChangeOf(c.target, multiset(c.loosened), multiset(c.settings), c.effects, c.doneAtOnce))
  }

  function DownloadDigest(d: DownloadBinding): Digest {
    Sha(DownloadOf(d.targetInbox, d.targetName, d.targetId, d.operation, d.request, d.files, d.names))
  }

  function StandingDigest(s: StandingBinding): Digest {
    Sha(StandingOf(s.targetName, s.targetId, s.contents, s.places, s.limits, s.proposedByPerson, s.replacing, s.warnings))
  }

  function AnswerDigest(binding: Option<Digest>, answer: Answer): Digest {
    Sha(AnswerOf(binding, answer))
  }

  // ---------- the binding ----------

  function PendingMsOf(route: Route): int {
    if route == StandingRoute then CHILD_MS
    else if route == ConfirmRoute then CONFIRM_MS
    else CHAT_MS
  }

  predicate IsKnownChannel(channel: string) {
    channel == "core" || channel == "gmail" || channel == "resend" || channel == "slack" || channel == "whatsapp"
  }

  function UnknownAtOf(r: Record): Stamp {
    if r.Renewed().At? then At(r.Renewed().ms + SENDING_LEASE_MS) else NoStamp
  }

  // Why a use names no place, thread or content; true when it names all three.
  predicate StandingUseOk(use: Option<StandingUse>) {
    use.Some? && use.value.channel != "" && use.value.thread != "" && IsHex64(use.value.content)
  }

  function IdentityOf(b: Base): Identity {
    Identity(
      b.approvalId, b.channel, b.ownerScope, b.inboxId, b.inboxSub, b.draftId, b.draftMessageId, b.expected,
      if b.kind == SendKind || b.kind == StandingKind then b.sendEpoch else None,
      b.standingEpoch, b.standingId, b.standingUse)
  }

  // The object the binding digest is taken of, or nothing where the source throws.
  function BindingObjectOf(b: Base): Option<BindingObject> {
    match b.kind
    case DisclosureKind =>
      if b.disclosure.None? then None
      else
        var canonical := CanonicalDisclosureBinding(b.disclosure.value);
        if canonical.None? then None else Some(DisclosureObject(b.approvalId, canonical.value))
    case DownloadKind =>
      if b.download.None? then None
      else
        var d := b.download.value;
        Some(DownloadObject(b.contentDigest, b.pendingMs, b.policy, b.requiredPolicy, IdentityOf(b),
                            d.downloads, d.current, d.listing))
    case _ =>
      Some(OrdinaryObject(b.kind, b.contentDigest, b.route, b.pendingMs, b.approvedMs, IdentityOf(b)))
  }

  function BindingDigestOf(b: Base): Option<Digest> {
    var bound := BindingObjectOf(b);
    if bound.None? then None else Some(Sha(BindingOf(bound.value)))
  }

  // A binding digest that recomputes fixes everything the store acts on: the id, the owner, the draft, the route, the
  // lifetimes, the epochs and the content.
  lemma BindingFixesWhatIsActedOn(a: Base, b: Base)
    requires BindingDigestOf(a).Some? && BindingDigestOf(a) == BindingDigestOf(b)
    ensures a.kind == b.kind && a.approvalId == b.approvalId
    ensures a.kind != DisclosureKind ==>
              && a.contentDigest == b.contentDigest && a.pendingMs == b.pendingMs
              && IdentityOf(a) == IdentityOf(b)
    ensures a.kind == SendKind || a.kind == ChangeKind || a.kind == StandingKind ==>
              a.route == b.route && a.approvedMs == b.approvedMs
    ensures a.kind == DownloadKind ==>
              && a.policy == b.policy && a.requiredPolicy == b.requiredPolicy
              && a.download.value.downloads == b.download.value.downloads
              && a.download.value.current == b.download.value.current
              && a.download.value.listing == b.download.value.listing
    ensures a.kind == DisclosureKind ==> a.disclosure == b.disclosure
  {
  }

  // ---------- standing approvals ----------

  // Of `standingBindingProblem`, everything but the rules about the words of a content and the emoji list.
  predicate StandingBindingOk(s: StandingBinding) {
    && s.targetId != ""
    && |s.contents| > 0
    && (forall c | c in s.contents :: c.digest == Sha(ContentOf(c.reaction, c.text)))
    && (forall i, j | 0 <= i < j < |s.contents| :: s.contents[i].digest != s.contents[j].digest)
    && (s.places.ExactPlaces? ==>
          && |s.places.ids| > 0
          && forall i, j | 0 <= i < j < |s.places.ids| :: s.places.ids[i] != s.places.ids[j])
    && 1 <= s.limits.perThread <= 3
    && 1 <= s.limits.perHour <= 30
    && 1 <= s.limits.perDay <= 100
    && 1 <= s.limits.perSender <= 10
    && 1 <= s.limits.expiresDays <= 30
    && (s.replacing.Some? ==> IsApprovalId(s.replacing.value))
  }

  predicate HoldsContent(contents: seq<StandingContent>, digest: Digest) {
    exists c | c in contents :: c.digest == digest
  }

  // `standingNarrowingProblem` answering null: it only ever takes away.
  predicate NarrowingOk(s: StandingBinding, narrowed: Option<Narrowing>) {
    narrowed.Some? ==>
      var n := narrowed.value;
      && (n.keep.Some? ==> |n.keep.value| > 0 && forall d | d in n.keep.value :: HoldsContent(s.contents, d))
      && (n.places.Some? ==>
            s.places.ExactPlaces? && |n.places.value| > 0 && forall p | p in n.places.value :: p in s.places.ids)
      && (n.expiresDays.Some? ==> 1 <= n.expiresDays.value <= s.limits.expiresDays)
  }

  function StandingDays(s: StandingBinding, narrowed: Option<Narrowing>): int {
    if narrowed.Some? && narrowed.value.expiresDays.Some? && narrowed.value.expiresDays.value < s.limits.expiresDays
    then narrowed.value.expiresDays.value
    else s.limits.expiresDays
  }

  // Whether the standing approval, as narrowed, still holds the content and covers the place a child is bound to.
  predicate Covers(s: StandingBinding, narrowed: Option<Narrowing>, use: StandingUse) {
    && HoldsContent(s.contents, use.content)
    && (narrowed.Some? && narrowed.value.keep.Some? ==> use.content in narrowed.value.keep.value)
    && (s.places.ExactPlaces? ==> use.channel in s.places.ids)
    && (s.places.ExactPlaces? && narrowed.Some? && narrowed.value.places.Some? ==>
          use.channel in narrowed.value.places.value)
  }
}
