/**
  What looks, lists and tokens are worth to whoever uses them (packages/core/src/approvals.ts, `inspect`, `inspectAll`
  and `#holdsClaim`): a look settles a record and touches no other, a list's word holds for what was made before it, and
  a token other than the claimant's does nothing.
  */
module StoreLooks {
  import opened Wrappers
  import opened Records
  import opened ApprovalBinding
  import opened ApprovalOutcome
  import opened ApprovalTransitions
  import opened RecordInvariant
  import opened RecordMoves
  import opened Decisions
  import opened LookAndAct
  import opened StoreMachine
  import opened StoreRecords
  import opened StoreSends
  import opened StoreEnds
  import opened StoreRuns
  import opened StoreCalls

  // ---------- a look ----------

  // What a look leaves of a record: all it was made with, its evidence, and no claim that was not there.
  predicate OnlyEnded(before: Record, after: Record) {
    && after.base == before.base && after.bindingDigest == before.bindingDigest && after.createdAt == before.createdAt
    && after.approvedAt == before.approvedAt && after.approvedVia == before.approvedVia && after.answer == before.answer
    && (PastClaim(after.state) ==> PastClaim(before.state))
  }

  // A look touches no other file, takes nothing from the record it reads, and leaves nothing for a second look at that
  // instant to write.
  lemma ALookSettles(files: map<string, File>, id: string, act: Act, config: Option<Config>, now: int)
    ensures var after := AfterLook(files, id, Open(FoundIn(files, id), act, config, now));
            && after.Keys == files.Keys && after - {id} == files - {id}
            && (id in files && after[id] != files[id] ==>
                  && files[id].RecordFile? && after[id].RecordFile?
                  && files[id].record.state != after[id].record.state && OnlyEnded(files[id].record, after[id].record))
            && AfterLook(after, id, Open(FoundIn(after, id), act, config, now)) == after
  {
    var o := Open(FoundIn(files, id), act, config, now);
    if o.Opened? {
      StoredIsTheFile(files, id, act, config, now);
      OpenKeeps(o.stored, act, config, now);
      OpenTwice(o.stored, act, config, now);
      hide OpenRecord, MatchesExpectation;
    }
  }

  lemma OpenTwice(r: Record, act: Act, config: Option<Config>, now: int)
    ensures var once := OpenRecord(r, act, config, now).current;
            OpenRecord(once, act, config, now).current == once
  {
    DeriveKeepsBase(r, now);
    RevokesActive(Derive(r, now), act, GateOf(config, Derive(r, now).base), now);
    DeriveCommutes(r, now, now);
    var once := OpenRecord(r, act, config, now).current;
    if once.state == Revoked { RevokedIsLeft(once, act, config, now); }
    hide Derive, Classify, LiveGateOf;
  }

  lemma RevokedIsLeft(r: Record, act: Act, config: Option<Config>, now: int)
    requires r.state == Revoked
    ensures OpenRecord(r, act, config, now).current == r
  {
    hide LiveNever, IsClaimable;
  }

  // ---------- a list ----------

  // How a list looks at each record, under the one configuration it read before any lock.
  function ListLook(): Act {
    Inspect(Inspecting, Expect(None, None, None))
  }

  predicate ListedAsEnded(r: Record, config: Config, now: int) {
    var state := OpenRecord(r, ListLook(), Some(config), now).outcome.record.state;
    state == Expired || state == Revoked
  }

  // What a list shows as ended, of a record made under the configuration it read or an earlier one, is stored as ended, or
  // out of reach of every configuration from then on.
  lemma ListedEndHolds(history: seq<Config>, k: nat, j: nat, r: Record, now: int)
    requires HistoryOk(history) && k <= j < |history| && Sound(r)
    requires Rooted(history[..k + 1], r.base) && ListedAsEnded(r, history[k], now)
    ensures var current := OpenRecord(r, ListLook(), Some(history[k]), now).current;
            EndedState(current.state) || !InReach(r.base, history[j])
  {
    EndedOrOutOfReach(r, ListLook(), Some(history[k]), now);
    var current := OpenRecord(r, ListLook(), Some(history[k]), now).current;
    hide HistoryOk, Rooted, Sound, OpenRecord, InReach;
    if !EndedState(current.state) { OutOfReachStays(history, k, j, r.base); }
  }

  // Of a record that is claimable now, whatever the list's configuration was: it was listed as ended exactly when that
  // configuration had not yet its account or the epochs it was prepared under, and did not itself turn sending off. The
  // list has then left it as it was, and its claim goes through.
  lemma ListedYetClaimableExactly(r: Record, early: Config, live: Config, now: int)
    requires Sound(r) && LooksClaimable(r, Some(live), now)
    ensures ListedAsEnded(r, early, now) <==>
            r.base.kind != DisclosureKind && !InReach(r.base, early) && !LiveNever(r, Some(LiveGateOf(early, r.base)))
    ensures OpenRecord(r, ListLook(), Some(early), now).current == r
    ensures MatchingClaimClaims(r, Some(live), now)
  {
    LookAgreesWithAct(r, Some(live), now);
    ClaimableIsActive(r, live, now);
    if r.base.kind == SendKind { SendersAreOwned(r); }
    hide Sound, LooksClaimable, MatchingClaimClaims, LiveNever, InReach;
    ListedExactly(r, early, now);
  }

  lemma ClaimableIsActive(r: Record, live: Config, now: int)
    requires Sound(r) && LooksClaimable(r, Some(live), now)
    ensures r.Active() && Derive(r, now) == r && r.base.kind != StandingKind
  {
    var act := Inspect(Inspecting, Expect(None, None, None));
    NoStandingIsClaimable(r, live, now);
    hide Sound, Derive, Classify, GateOf;
    UnrefusedIsActive(Derive(r, now), act, GateOf(Some(live), Derive(r, now).base), now);
    if Derive(r, now).Active() { ActiveIsInWindow(r, now); }
  }

  lemma NoStandingIsClaimable(r: Record, live: Config, now: int)
    requires LooksClaimable(r, Some(live), now)
    ensures r.base.kind != StandingKind
  {
    DeriveKeepsBase(r, now);
    hide Derive, LiveNever, LiveGateOf;
  }

  lemma ListedExactly(r: Record, early: Config, now: int)
    requires r.Active() && Derive(r, now) == r && r.base.kind != StandingKind
    requires r.base.kind == SendKind ==> r.base.ownerScope == OwnerScoped
    ensures ListedAsEnded(r, early, now) <==>
            r.base.kind != DisclosureKind && !InReach(r.base, early) && !LiveNever(r, Some(LiveGateOf(early, r.base)))
    ensures OpenRecord(r, ListLook(), Some(early), now).current == r
  {
    hide Derive, IsClaimable, GoverningChangePolicy, StricterPolicy;
  }

  // Such records there are: a send prepared for an account, and under an epoch, that two lists' configurations had not yet.
  const NEW_ACCOUNT := OwnerEntry(Some(PolicyChat), None)
  const NOW_LIVE := Config(map["me" := NEW_ACCOUNT], PolicyChat, None, map["me" := 1], 0)
  const BEFORE_ACCOUNT := Config(map[], PolicyChat, None, map[], 0)
  const BEFORE_EPOCH := Config(map["me" := NEW_ACCOUNT], PolicyChat, None, map[], 0)

  lemma AListMayBeTooEarly()
    ensures Create(SOME_SEND, SOME_ID, None, 0).Made?
    ensures var r := Create(SOME_SEND, SOME_ID, None, 0).record;
            && Sound(r) && MatchingClaimClaims(r, Some(NOW_LIVE), 1)
            && ListedAsEnded(r, BEFORE_ACCOUNT, 1) && OpenRecord(r, ListLook(), Some(BEFORE_ACCOUNT), 1).current == r
            && ListedAsEnded(r, BEFORE_EPOCH, 1) && OpenRecord(r, ListLook(), Some(BEFORE_EPOCH), 1).current == r
  {
    CreateSound(SOME_SEND, SOME_ID, None, 0);
    NewSendIsClaimable();
    hide Sound, LooksClaimable, MatchingClaimClaims, ListedAsEnded, OpenRecord;
    var r := Create(SOME_SEND, SOME_ID, None, 0).record;
    ListedYetClaimableExactly(r, BEFORE_ACCOUNT, NOW_LIVE, 1);
    ListedYetClaimableExactly(r, BEFORE_EPOCH, NOW_LIVE, 1);
  }

  lemma NewSendIsClaimable()
    ensures Create(SOME_SEND, SOME_ID, None, 0).Made?
    ensures LooksClaimable(Create(SOME_SEND, SOME_ID, None, 0).record, Some(NOW_LIVE), 1)
  {
    hide BindingDigestOf;
  }

  // ---------- a token ----------

  // In every run, a renewal or an outcome under a token other than its claimant's is refused, and changes nothing.
  lemma OnlyTheClaimantsToken(w: World, steps: seq<Step>, c: nat, id: string, act: Act, config: Option<Config>, now: int)
    requires Init(w) && w.exclusive && Legal(w, steps) && (act.Heartbeat? || act.Complete?)
    ensures var last := After(w, steps);
            var left := CallOver(Disk(last.files, last.markers), c, id, act, config, now);
            !left.1.Refused? ==> id in last.log.claims && last.log.claims[id].call == act.token
    ensures var last := After(w, steps);
            !(id in last.log.claims && last.log.claims[id].call == act.token) ==>
              CallOver(Disk(last.files, last.markers), c, id, act, config, now).0 == Disk(last.files, last.markers)
  {
    hide Init, Legal, After, Open, EarlyRefusal, DecideOver, EndOver;
    TokenIsTheClaimants(w, steps, id, act.token);
  }
}
