/**
  A look agrees with the act it foretells: `claimable`, as `inspect` reports it, is exactly whether the claim made at
  that instant under that configuration moves the record (packages/core/src/approval-outcome.ts, `isClaimable`).
  */
module LookAndAct {
  import opened Wrappers
  import opened Records
  import opened ApprovalBinding
  import opened ApprovalValidate
  import opened ApprovalOutcome
  import opened ApprovalTransitions
  import opened RecordInvariant

  // The claim of exactly what the record was prepared for: not cancelled, under the policy the configuration gives.
  function MatchingClaim(r: Record, live: Option<LiveGate>): Option<Act> {
    var draft := LiveDraft(r.base.draftMessageId, r.base.contentDigest);
    var policy := if live.Some? then live.value.changePolicy.Or(PolicyConfirm) else PolicyConfirm;
    match r.base.kind
    case SendKind => Some(ClaimForSend(r.base.inboxId, r.base.inboxSub, draft, r.base.expected, false))
    case ChangeKind => if r.base.change.Some? then Some(ClaimForChange(r.base.change.value, policy, false)) else None
    case DownloadKind => if r.base.download.Some? then Some(ClaimForDownload(r.base.download.value, false)) else None
    case DisclosureKind =>
      if r.base.disclosure.Some? then Some(ClaimForDisclosure(r.base.disclosure.value, None)) else None
    case StandingKind => None
  }

  predicate IsClaimed(state: State) {
    state == Sending || state == Used
  }

  // Whether `act` on `r` claims it; for a standing child, with a parent that still covers it.
  predicate Claims(r: Record, act: Act, config: Option<Config>, now: int) {
    var o := OpenRecord(r, act, config, now);
    var d := Decide(act, o.current, o.outcome, o.live, None, now);
    d.Put? && IsClaimed(d.next.state)
  }

  predicate LooksClaimable(r: Record, config: Option<Config>, now: int) {
    OpenRecord(r, Inspect(Inspecting, Expect(None, None, None)), config, now).outcome.claimable
  }

  predicate MatchingClaimClaims(r: Record, config: Option<Config>, now: int) {
    var claim := MatchingClaim(r, GateOf(config, r.base));
    claim.Some? && Claims(r, claim.value, config, now)
  }

  // The same instant and gate call a record claimable alike for a look and for a claim; and what a claim then finds is
  // the record as stored, refused for nothing.
  lemma LookAndClaimSeeTheSame(r: Record, act: Act, config: Option<Config>, now: int)
    requires Sound(r) && ActionOf(act) == Claiming
    ensures LooksClaimable(r, config, now) <==> OpenRecord(r, act, config, now).outcome.claimable
    ensures var o := OpenRecord(r, act, config, now);
            o.outcome.claimable ==> o.outcome.error.None? && o.current == r && r.Active()
  {
    hide Sound, Derive, Classify, GateOf;
    var live := GateOf(config, Derive(r, now).base);
    SameClaimable(Derive(r, now), live, now);
    if Derive(r, now).Active() { ActiveIsInWindow(r, now); }
  }

  lemma SameClaimable(derived: Record, live: Option<LiveGate>, now: int)
    ensures Classify(derived, Inspecting, live, now).claimable <==> Classify(derived, Claiming, live, now).claimable
    ensures var outcome := Classify(derived, Claiming, live, now);
            outcome.claimable ==> outcome.error.None? && !outcome.revokes && derived.Active()
  {
    hide LiveNever, IsClaimable;
  }

  lemma LookAgreesWithAct(r: Record, config: Option<Config>, now: int)
    requires Sound(r)
    ensures LooksClaimable(r, config, now) <==> MatchingClaimClaims(r, config, now)
  {
    var claim := MatchingClaim(r, GateOf(config, r.base));
    if claim.Some? {
      LookAndClaimSeeTheSame(r, claim.value, config, now);
      ClaimDecidesByLook(r, claim.value, config, now);
    } else {
      NothingToClaim(r, config, now);
    }
    hide Sound, OpenRecord, Decide;
  }

  lemma NothingToClaim(r: Record, config: Option<Config>, now: int)
    requires Sound(r) && MatchingClaim(r, GateOf(config, r.base)).None?
    ensures !LooksClaimable(r, config, now)
  {
    hide Derive, LiveNever;
    DeriveKeepsBase(r, now);
  }

  // The matching claim moves the record exactly when its own outcome calls it claimable.
  lemma ClaimDecidesByLook(r: Record, act: Act, config: Option<Config>, now: int)
    requires Sound(r) && MatchingClaim(r, GateOf(config, r.base)) == Some(act)
    requires var o := OpenRecord(r, act, config, now);
             o.outcome.claimable ==> o.outcome.error.None? && o.current == r && r.Active()
    ensures Claims(r, act, config, now) <==> OpenRecord(r, act, config, now).outcome.claimable
  {
    OpenKeepsMatch(r, act, config, now);
    match r.base.kind {
      case SendKind => SendDecidesByLook(r, act, config, now);
      case ChangeKind => ChangeDecidesByLook(r, act, config, now);
      case DownloadKind => DownloadDecidesByLook(r, act, config, now);
      case DisclosureKind => DisclosureDecidesByLook(r, act, config, now);
      case StandingKind =>
    }
    hide Sound, OpenRecord, Decide;
  }

  lemma OpenKeepsMatch(r: Record, act: Act, config: Option<Config>, now: int)
    ensures var o := OpenRecord(r, act, config, now);
            && o.current.base == r.base && o.live == GateOf(config, r.base)
            && o.current.approvedVia == r.approvedVia && o.current.approvedDigest == r.approvedDigest
  {
    hide LiveNever, GateOf;
  }

  lemma SendDecidesByLook(r: Record, act: Act, config: Option<Config>, now: int)
    requires Sound(r) && r.base.kind == SendKind && MatchingClaim(r, GateOf(config, r.base)) == Some(act)
    requires var o := OpenRecord(r, act, config, now);
             o.current.base == r.base && (o.outcome.claimable ==> o.outcome.error.None? && o.current == r && r.Active())
    ensures Claims(r, act, config, now) <==> OpenRecord(r, act, config, now).outcome.claimable
  {
    if r.state == Approved { ApprovedForItself(r); }
    hide Sound, OpenRecord, SameExpectation;
    SameAsItself(r.base.expected);
  }

  lemma ApprovedForItself(r: Record)
    requires Sound(r) && r.base.kind == SendKind && r.state == Approved
    ensures r.approvedBindingDigest == r.bindingDigest
  {
  }

  lemma SameAsItself(e: Expectation)
    ensures SameExpectation(e, e)
  {
  }

  // A change in force is claimable: only a send is fenced by a policy of its own.
  lemma ApprovedChangeIsClaimable(r: Record, act: Act, config: Option<Config>, now: int)
    requires r.base.kind == ChangeKind && ActionOf(act) == Claiming
    ensures var o := OpenRecord(r, act, config, now);
            o.outcome.error.None? && o.current.state == Approved ==> o.outcome.claimable
    ensures var o := OpenRecord(r, act, config, now);
            o.outcome.claimable ==> o.current.state == Approved
                                    || (o.live.Some? && o.live.value.changePolicy == Some(PolicyChat)
                                        && r.base.route == Some(ChatRoute))
  {
    DeriveKeepsBase(r, now);
    hide Derive, LiveGateOf;
  }

  lemma ChangeDecidesByLook(r: Record, act: Act, config: Option<Config>, now: int)
    requires Sound(r) && r.base.kind == ChangeKind && MatchingClaim(r, GateOf(config, r.base)) == Some(act)
    requires var o := OpenRecord(r, act, config, now);
             && o.current.base == r.base && o.live == GateOf(config, r.base)
             && (o.outcome.claimable ==> o.outcome.error.None? && o.current == r && r.Active())
    ensures Claims(r, act, config, now) <==> OpenRecord(r, act, config, now).outcome.claimable
  {
    ApprovedChangeIsClaimable(r, act, config, now);
    ChangeFacts(r);
    hide Sound, OpenRecord, GateOf, ChangeDigest;
  }

  lemma ChangeFacts(r: Record)
    requires Sound(r) && r.base.kind == ChangeKind
    ensures r.base.change.Some? && ChangeDigest(r.base.change.value) == r.base.contentDigest
    ensures r.base.route == Some(ChatRoute) <==> r.base.requiredPolicy == PolicyChat
    ensures r.state == Approved ==> r.approvedVia == Some(Terminal) || r.approvedVia == Some(App)
  {
  }

  lemma DownloadDecidesByLook(r: Record, act: Act, config: Option<Config>, now: int)
    requires Sound(r) && r.base.kind == DownloadKind && MatchingClaim(r, GateOf(config, r.base)) == Some(act)
    requires var o := OpenRecord(r, act, config, now);
             o.current.base == r.base && (o.outcome.claimable ==> o.outcome.error.None? && o.current == r && r.Active())
    ensures Claims(r, act, config, now) <==> OpenRecord(r, act, config, now).outcome.claimable
  {
    assert r.base.download.Some? && DownloadDigest(r.base.download.value) == r.base.contentDigest;
    hide Sound, OpenRecord, GateOf, DownloadDigest;
  }

  lemma DisclosureDecidesByLook(r: Record, act: Act, config: Option<Config>, now: int)
    requires Sound(r) && r.base.kind == DisclosureKind && MatchingClaim(r, GateOf(config, r.base)) == Some(act)
    requires var o := OpenRecord(r, act, config, now);
             && o.current.base == r.base && o.current.approvedDigest == r.approvedDigest
             && (o.outcome.claimable ==> o.outcome.error.None? && o.current == r && r.Active())
    ensures Claims(r, act, config, now) <==> OpenRecord(r, act, config, now).outcome.claimable
  {
    DisclosureFacts(r);
    DisclosureClaimable(r, act, config, now);
    hide Sound, OpenRecord, GateOf, SameDisclosureBinding;
  }

  lemma DisclosureFacts(r: Record)
    requires Sound(r) && r.base.kind == DisclosureKind
    ensures r.base.disclosure.Some? && SameDisclosureBinding(r.base.disclosure.value, r.base.disclosure.value)
    ensures r.state == Approved ==> r.approvedDigest == Some(r.base.disclosure.value.digest)
  {
  }

  lemma DisclosureClaimable(r: Record, act: Act, config: Option<Config>, now: int)
    requires r.base.kind == DisclosureKind
    ensures var o := OpenRecord(r, act, config, now);
            o.outcome.claimable <==> o.current.state == Approved
  {
    DeriveKeepsBase(r, now);
    hide Derive;
  }

  // ---------- looks in between ----------

  // Deriving at one time and then at a later one is deriving at the later one, exactly unless the clock of the first was
  // behind the record's own times: that look ends it.
  lemma DeriveCommutes(r: Record, first: int, later: int)
    requires first <= later
    ensures Derive(Derive(r, first), later) == Derive(r, later) <==>
            first == later || !(r.Active() && SeenBeforeMade(r, first))
  {
  }

  // A look or an act at a record: under which configuration, and when.
  datatype Glance = Glance(act: Act, config: Option<Config>, at: int)

  // What is stored after some looks, none of which decides anything.
  function Looked(r: Record, glances: seq<Glance>): Record
    decreases |glances|
  {
    if glances == [] then r
    else Looked(OpenRecord(r, glances[0].act, glances[0].config, glances[0].at).current, glances[1..])
  }

  predicate InOrder(glances: seq<Glance>, now: int) {
    && (forall i, j | 0 <= i < j < |glances| :: glances[i].at <= glances[j].at)
    && (forall i | 0 <= i < |glances| :: glances[i].at <= now)
  }

  lemma {:induction false} RevokedStays(r: Record, glances: seq<Glance>)
    requires r.state == Revoked
    ensures Looked(r, glances).state == Revoked
    decreases |glances|
  {
    if glances != [] {
      var g := glances[0];
      RevokedReadsAsItIs(r, g);
      RevokedStays(OpenRecord(r, g.act, g.config, g.at).current, glances[1..]);
    }
  }

  lemma RevokedReadsAsItIs(r: Record, g: Glance)
    requires r.state == Revoked
    ensures OpenRecord(r, g.act, g.config, g.at).current.state == Revoked
  {
    hide LiveNever, IsClaimable;
  }

  // A look stores what derivation gives, or a revocation of what was active.
  lemma OpenDerivesOrRevokes(r: Record, g: Glance)
    ensures var o := OpenRecord(r, g.act, g.config, g.at);
            o.current == Derive(r, g.at) || (o.current.state == Revoked && r.state != Revoked)
  {
    RevokesActive(Derive(r, g.at), g.act, GateOf(g.config, Derive(r, g.at).base), g.at);
    hide LiveNever, IsClaimable, Classify;
  }

  // However often a record is looked at in between, whatever the configurations, a later act finds what it would have
  // found: unless a look was by a clock behind the record's own times, or stored a revocation.
  lemma {:induction false} LooksChangeNothingLater(r: Record, glances: seq<Glance>, act: Act, config: Option<Config>,
                                                   now: int)
    requires InOrder(glances, now) && (glances != [] ==> !(r.Active() && SeenBeforeMade(r, glances[0].at)))
    requires Looked(r, glances).state == Revoked ==> r.state == Revoked
    ensures var after := OpenRecord(Looked(r, glances), act, config, now);
            var alone := OpenRecord(r, act, config, now);
            after.current == alone.current && after.outcome == alone.outcome && after.live == alone.live
    decreases |glances|
  {
    if glances != [] {
      var g := glances[0];
      var next := OpenRecord(r, g.act, g.config, g.at).current;
      OpenDerivesOrRevokes(r, g);
      if next.state == Revoked { RevokedStays(next, glances[1..]); }
      DeriveCommutes(r, g.at, now);
      StillNotBefore(r, g.at, glances);
      hide OpenRecord, Derive, SeenBeforeMade;
      assert InOrder(glances[1..], now);
      LooksChangeNothingLater(next, glances[1..], act, config, now);
      OpensAlike(next, r, act, config, now);
    }
  }

  lemma StillNotBefore(r: Record, at: int, glances: seq<Glance>)
    requires glances != [] && glances[0].at == at && !(r.Active() && SeenBeforeMade(r, at))
    requires forall i, j | 0 <= i < j < |glances| :: glances[i].at <= glances[j].at
    ensures |glances| > 1 ==> var next := Derive(r, at); !(next.Active() && SeenBeforeMade(next, glances[1].at))
  {
  }

  lemma OpensAlike(a: Record, b: Record, act: Act, config: Option<Config>, now: int)
    requires Derive(a, now) == Derive(b, now)
    ensures var x := OpenRecord(a, act, config, now);
            var y := OpenRecord(b, act, config, now);
            x.current == y.current && x.outcome == y.outcome && x.live == y.live
  {
    hide Derive, Classify;
  }
}
