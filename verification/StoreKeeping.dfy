/**
  How long a record is kept: while it may still be acted on it is not deleted, nor within ninety days of then, in any
  run; but for a standing approval narrowed to an end already past, which counts as finished back then.
  */
module StoreKeeping {
  import opened Wrappers
  import opened Records
  import opened ApprovalBinding
  import opened ApprovalValidate
  import opened ApprovalOutcome
  import opened ApprovalTransitions
  import opened Standing
  import opened RecordInvariant
  import opened RecordMoves
  import opened Texts
  import opened Policies
  import opened Gate
  import opened Retention
  import opened StoreMachine
  import opened StoreFrames
  import opened StoreRecords
  import opened StoreLocks
  import opened StoreClaims
  import opened StoreSends
  import opened StoreEnds
  import opened StoreRetention
  import opened StoreRuns

  // ---------- one record ----------

  // Not over before `t`: it ends then or later, or finished then or later.
  predicate NotOverBefore(r: Record, t: int) {
    match r.state
    case Pending | Approved =>
      r.createdAt.At? && (r.state == Approved && r.base.kind != DownloadKind ==> r.approvedAt.At?) && EndOf(r) >= t
    case Sending | Unknown => LastRenewed(r).At? && LastRenewed(r).ms + 2 * MINUTE_MS >= t
    case Used => r.usedAt.At? && r.usedAt.ms >= t
    case Failed => r.failedAt.At? && r.failedAt.ms >= t
    case Revoked => r.revokedAt.At? && r.revokedAt.ms >= t
    case Expired => r.expiredAt.At? && r.expiredAt.ms >= t
  }

  // May still be acted on: in force, or a send under way within its lease.
  predicate StillOpen(r: Record, now: int) {
    InForce(r, now) || (r.state == Sending && LastRenewed(r).At? && now < LastRenewed(r).ms + 2 * MINUTE_MS)
  }

  // A narrowing of an approved standing approval to fewer days than have passed.
  predicate EndsBefore(r: Record, act: Act, t: int) {
    && act.NarrowStanding? && act.asked.expiresDays.Some? && act.asked.expiresDays.value >= 1 && r.approvedAt.At?
    && r.approvedAt.ms + act.asked.expiresDays.value * 24 * 60 * MINUTE_MS < t
  }

  lemma DeriveIsNotOver(r: Record, now: int, t: int)
    requires Sound(r) && NotOverBefore(r, t) && now >= t
    ensures NotOverBefore(Derive(r, now), t)
  {
    DerivedExactly(r, now);
    hide Sound, EndOf;
  }

  lemma OpenIsNotOver(r: Record, act: Act, config: Option<Config>, now: int, t: int)
    requires Sound(r) && NotOverBefore(r, t) && now >= t
    ensures NotOverBefore(OpenRecord(r, act, config, now).current, t)
  {
    hide Sound, Derive, Classify, NotOverBefore;
    DeriveIsNotOver(r, now, t);
    DeriveKeepsBase(r, now);
    RevokesActive(Derive(r, now), act, GateOf(config, r.base), now);
    var o := OpenRecord(r, act, config, now);
    if o.current != Derive(r, now) { OverNow(o.current, now, t); }
  }

  // What each state's times are, in a record of the store.
  lemma SoundForKeeping(r: Record)
    requires Sound(r)
    ensures r.Active() ==> r.createdAt.At? && r.base.pendingMs >= 0 && !r.sendingHeartbeatAt.At?
    ensures r.base.kind != DownloadKind ==> r.base.approvedMs.Or(0) >= 0
    ensures r.state == Sending || r.state == Unknown ==> LastRenewed(r) == r.Renewed() && r.Renewed().At?
    ensures r.base.kind == StandingKind ==>
              r.base.standing.Some? && r.base.approvedMs == Some(r.base.standing.value.limits.expiresDays * DAY_MS)
    ensures r.base.kind == StandingKind && r.narrowed.Some? && r.narrowed.value.expiresDays.Some? ==>
              r.narrowed.value.expiresDays.value >= 1
  {
    hide BindingDigestOf, CanonicalDisclosureBinding;
  }

  // A decision leaves it so, but for a narrowing to an end before that.
  lemma DecisionIsNotOver(act: Act, cur: Record, outcome: Outcome, live: Option<LiveGate>, problem: Option<string>,
                          now: int, t: int)
    requires Sound(cur) && NotOverBefore(cur, t) && now >= t && !EndsBefore(cur, act, t)
    requires ExpectOf(act).kind.Some? ==> ExpectOf(act).kind == Some(cur.base.kind)
    requires (ActionOf(act) == Approving || ActionOf(act) == Claiming) && outcome.error.None? ==> cur.Active()
    ensures var d := Decide(act, cur, outcome, live, problem, now);
            d.Put? ==> NotOverBefore(d.next, t)
  {
    hide Sound, NotOverBefore, EndsBefore, DecideApprove, DecideApproveDisclosure, DecideAnswer, DecideClaimForSend,
         DecideClaimForChange, DecideClaimForDownload, DecideClaimForDisclosure, DecideNarrow, DecideIssue,
         DecideHeartbeat, DecideComplete, RevokedBy;
    match act {
      case Approve(kind, via, draft, answer) => ApproveIsNotOver(cur, outcome, live, kind, via, draft, answer, now, t);
      case ApproveDisclosure(binding, answer, channel) =>
        ApproveDisclosureIsNotOver(cur, outcome, binding, answer, channel, now, t);
      case AnswerDownload(via, answer) => AnswerIsNotOver(cur, outcome, via, answer, now, t);
      case ClaimForSend(_, _, _, _, _) => SendClaimIsNotOver(cur, outcome, act, problem, now, t);
      case ClaimForChange(_, _, _) => OtherClaimIsNotOver(cur, outcome, live, act, now, t);
      case ClaimForDownload(_, _) => OtherClaimIsNotOver(cur, outcome, live, act, now, t);
      case ClaimForDisclosure(_, _) => OtherClaimIsNotOver(cur, outcome, live, act, now, t);
      case NarrowStanding(_, asked) => NarrowingIsNotOver(cur, outcome, act, now, t);
      case _ => OtherIsNotOver(cur, outcome, live, act, now, t);
    }
  }

  // What is over now, is over no earlier than now; and what is under way or waits, holds from now.
  lemma OverNow(r: Record, now: int, t: int)
    requires now >= t
    requires (r.state == Revoked && r.revokedAt == At(now)) || (r.state == Used && r.usedAt == At(now))
    ensures NotOverBefore(r, t)
  {
  }

  lemma SendingNow(r: Record, now: int, t: int)
    requires now >= t && r.state == Sending && r.sendingAt == At(now) && !r.sendingHeartbeatAt.At?
    ensures NotOverBefore(r, t)
  {
  }

  // A record as it was but for what its end does not depend on.
  lemma SameEnd(r: Record, next: Record, t: int)
    requires NotOverBefore(r, t) && next.base == r.base && next.state == r.state && next.createdAt == r.createdAt
    requires next.approvedAt == r.approvedAt && next.narrowed == r.narrowed && r.Active()
    ensures NotOverBefore(next, t)
  {
  }

  lemma ApprovedNow(r: Record, next: Record, now: int, t: int)
    requires Sound(r) && r.state == Pending && NotOverBefore(r, t) && now >= t
    requires next.base == r.base && next.state == Approved && next.createdAt == r.createdAt && next.narrowed == r.narrowed
    requires r.base.kind != DownloadKind ==> next.approvedAt == At(now)
    ensures NotOverBefore(next, t)
  {
    SoundForKeeping(r);
    hide Sound;
  }

  lemma WrongAnswerIsNotOver(cur: Record, now: int, t: int)
    requires cur.state == Pending && NotOverBefore(cur, t) && now >= t
    ensures WrongAnswer(cur, now).Put? && NotOverBefore(WrongAnswer(cur, now).next, t)
  {
    hide NotOverBefore;
    var next := WrongAnswer(cur, now).next;
    if next.state == Revoked { OverNow(next, now, t); } else { SameEnd(cur, next, t); }
  }

  lemma ApproveIsNotOver(cur: Record, outcome: Outcome, live: Option<LiveGate>, kind: Kind, via: ApprovalVia,
                         draft: LiveDraft, answer: string, now: int, t: int)
    requires Sound(cur) && NotOverBefore(cur, t) && now >= t
    ensures var d := DecideApprove(cur, outcome, live, kind, via, draft, answer, now); d.Put? ==> NotOverBefore(d.next, t)
  {
    hide Sound, CodeOf, NotOverBefore, WrongAnswer;
    var d := DecideApprove(cur, outcome, live, kind, via, draft, answer, now);
    if d.Put? {
      WrongAnswerIsNotOver(cur, now, t);
      OverNow(VoidedBy(cur, WRONG_CHANNEL, now), now, t);
      OverNow(VoidedBy(cur, CONTENT_CHANGED, now), now, t);
      ApprovedNow(cur, ApprovedBy(cur, live, via, now), now, t);
      hide VoidedBy, ApprovedBy;
    }
  }

  lemma ApproveDisclosureIsNotOver(cur: Record, outcome: Outcome, binding: DisclosureBinding, answer: string,
                                   channel: Via, now: int, t: int)
    requires Sound(cur) && NotOverBefore(cur, t) && now >= t
    ensures var d := DecideApproveDisclosure(cur, outcome, binding, answer, channel, now);
            d.Put? ==> NotOverBefore(d.next, t)
  {
    hide Sound, CodeOf, SameDisclosureBinding, NotOverBefore, WrongAnswer;
    var d := DecideApproveDisclosure(cur, outcome, binding, answer, channel, now);
    if d.Put? {
      WrongAnswerIsNotOver(cur, now, t);
      OverNow(RevokedBy(cur, BINDING_CHANGED, now), now, t);
      if d != WrongAnswer(cur, now) && d.next.state == Approved { ApprovedNow(cur, d.next, now, t); }
    }
  }

  lemma AnswerIsNotOver(cur: Record, outcome: Outcome, via: AnswerVia, answer: Answer, now: int, t: int)
    requires Sound(cur) && NotOverBefore(cur, t) && now >= t && cur.base.kind == DownloadKind
    requires outcome.error.None? ==> cur.Active()
    ensures var d := DecideAnswer(cur, outcome, via, answer); d.Put? ==> NotOverBefore(d.next, t)
  {
    hide Sound, DownloadDigest, AnswerDigest, NotOverBefore;
    var d := DecideAnswer(cur, outcome, via, answer);
    if d.Put? { ApprovedNow(cur, d.next, now, t); }
  }

  lemma SendClaimIsNotOver(cur: Record, outcome: Outcome, act: Act, problem: Option<string>, now: int, t: int)
    requires Sound(cur) && now >= t && (outcome.error.None? ==> cur.Active()) && act.ClaimForSend?
    ensures var d := DecideClaimForSend(cur, outcome, act, problem, now); d.Put? ==> NotOverBefore(d.next, t)
  {
    SoundForKeeping(cur);
    hide Sound, SameExpectation, NotOverBefore;
    var d := DecideClaimForSend(cur, outcome, act, problem, now);
    if d.Put? {
      if d.next.state == Sending { SendingNow(d.next, now, t); } else { OverNow(d.next, now, t); }
    }
  }

  lemma OtherClaimIsNotOver(cur: Record, outcome: Outcome, live: Option<LiveGate>, act: Act, now: int, t: int)
    requires now >= t && (act.ClaimForChange? || act.ClaimForDownload? || act.ClaimForDisclosure?)
    ensures var d := Decide(act, cur, outcome, live, None, now); d.Put? ==> NotOverBefore(d.next, t)
  {
    hide SameDisclosureBinding, ChangeDigest, DownloadDigest, StricterPolicy, NotOverBefore;
    var d := Decide(act, cur, outcome, live, None, now);
    if d.Put? { OverNow(d.next, now, t); }
  }

  lemma OtherIsNotOver(cur: Record, outcome: Outcome, live: Option<LiveGate>, act: Act, now: int, t: int)
    requires Sound(cur) && NotOverBefore(cur, t) && now >= t
    requires act.Inspect? || act.IssueChallenge? || act.IssueDisclosureChallenge? || act.Heartbeat? || act.Complete? || act.Revoke?
    ensures var d := Decide(act, cur, outcome, live, None, now); d.Put? ==> NotOverBefore(d.next, t)
  {
    hide Sound, CodeOf, NotOverBefore, DecideComplete;
    var d := Decide(act, cur, outcome, live, None, now);
    if d.Put? {
      if act.Revoke? { OverNow(d.next, now, t); }
      if act.IssueChallenge? || act.IssueDisclosureChallenge? { SameEnd(cur, d.next, t); }
      if act.Heartbeat? { RenewedNow(cur, now, t); }
      if act.Complete? { CompletedNow(cur, outcome, act.outcome, now, t); }
    }
  }

  lemma RenewedNow(cur: Record, now: int, t: int)
    requires now >= t
    ensures var d := DecideHeartbeat(cur, now); d.Put? ==> NotOverBefore(d.next, t)
  {
  }

  lemma CompletedNow(cur: Record, outcome: Outcome, result: SendOutcome, now: int, t: int)
    requires now >= t
    ensures var d := DecideComplete(cur, outcome, result, now); d.Put? ==> NotOverBefore(d.next, t)
  {
  }

  lemma NarrowingIsNotOver(cur: Record, outcome: Outcome, act: Act, now: int, t: int)
    requires Sound(cur) && NotOverBefore(cur, t) && act.NarrowStanding? && !EndsBefore(cur, act, t)
    ensures var d := DecideNarrow(cur, outcome, act.asked); d.Put? ==> NotOverBefore(d.next, t)
  {
    SoundForKeeping(cur);
    hide Sound, ContentsKept, PlacesKept, DigestsOf, HoldsContent;
  }

  // ---------- in every interleaving ----------

  // The call has read the clock.
  predicate ReadsClock(at: Point) {
    at.Seen? || at.Settled? || at.Examined? || at.Judged? || at.Rowed? || at.Unmarked?
  }

  // It was approved when it was, or later than `t`.
  predicate ApprovedAsThen(was: Record, r: Record, t: int) {
    r.approvedAt == was.approvedAt || (r.approvedAt.At? && r.approvedAt.ms >= t)
  }

  predicate JobEndsBefore(was: Record, job: Job, t: int) {
    job.Do? && EndsBefore(was, job.act, t)
  }

  predicate FileKeeps(w: World, id: string, was: Record, t: int) {
    id in w.files ==>
      w.files[id].RecordFile? && NotOverBefore(w.files[id].record, t) && ApprovedAsThen(was, w.files[id].record, t)
  }

  // Nothing of the record is over before `t`, and it is not gone but ninety days after.
  predicate Keeps(w: World, id: string, was: Record, t: int) {
    && t <= w.clock && id in w.made
    && FileKeeps(w, id, was, t)
    && (id !in w.files ==> t + NINETY_DAYS <= w.clock)
    && (forall c | c in w.calls && w.calls[c].id == id && ReadsClock(w.calls[c].at) :: w.calls[c].at.now >= t)
    && (forall c | c in w.calls && w.calls[c].id == id :: !JobEndsBefore(was, w.calls[c].job, t))
  }

  // The clock is read once.
  lemma ClockOperation(w: World, c: nat, loads: bool)
    requires |w.history| > 0 && c in w.calls
    ensures var e := Operation(w, c, loads);
            e.at.Some? && ReadsClock(e.at.value) ==>
              e.at.value.now == w.clock || (ReadsClock(w.calls[c].at) && e.at.value.now == w.calls[c].at.now)
  {
    hide ReadFile, Settle, ReadParent, Finish, Mint, Examine, SettleDerived, VerdictOf;
    if w.calls[c].at.Settled? && w.calls[c].at.o.Opened? { FinishLeaves(w, c); }
    ReadingLeaves(w, w.calls[c]);
  }

  predicate ReadAt(e: Effect, now: int) {
    e.at.Some? && ReadsClock(e.at.value) ==> e.at.value.now == now
  }

  lemma ReadingLeaves(w: World, call: Call)
    ensures call.at.Configured? ==> ReadAt(ReadFile(w, call), w.clock)
    ensures call.at.Seen? && call.at.o.Opened? ==> ReadAt(Settle(w, call), call.at.now)
    ensures |w.history| > 0 && call.at.Settled? && call.at.o.Opened? ==> ReadAt(ReadParent(w, call), call.at.now)
    ensures ReadAt(Examine(w, call), w.clock)
    ensures call.at.Examined? ==> ReadAt(SettleDerived(w, call), call.at.now)
  {
    hide Decode, Open, ParentProblem, ParentOpened, ReadsParent, ActOf, TokenOf, HoldsClaim, Derive;
  }

  lemma FinishLeaves(w: World, c: nat)
    requires c in w.calls && w.calls[c].at.Settled? && w.calls[c].at.o.Opened?
    ensures Finish(w, c, w.calls[c]).at.Some? && Finish(w, c, w.calls[c]).at.value.Leaving?
    ensures w.calls[c].job.Use? ==> Mint(w, w.calls[c]).at.Some? && Mint(w, w.calls[c]).at.value.Leaving?
    ensures w.calls[c].job.Use? ==> (Mint(w, w.calls[c]).wrote.Some? ==> Mint(w, w.calls[c]).minted)
  {
    hide Decide, MintChild;
  }

  // What a call writes over its record, that is not over, is not over.
  lemma WriteKeeps(w: World, c: nat, loads: bool, was: Record, t: int)
    requires Locked(w) && c in w.calls && t <= w.clock
    requires ReadsClock(w.calls[c].at) ==> w.calls[c].at.now >= t
    requires !JobEndsBefore(was, w.calls[c].job, t) && FileKeeps(w, w.calls[c].id, was, t)
    ensures var e := Operation(w, c, loads);
            e.wrote.Some? && e.wrote.value.id == w.calls[c].id && !e.minted ==>
              NotOverBefore(e.wrote.value.record, t) && ApprovedAsThen(was, e.wrote.value.record, t)
  {
    hide NotOverBefore, ApprovedAsThen, OpenRecord, Decide, MintChild, RecordOk, Derive, ReadsParent, Kept, OneHolder,
         VerdictOf, ReadParent, Finish, Mint;
    var call := w.calls[c];
    assert Kept(w) && CallOk(w, call) && Fresh(w.files, call) by { CallIsOk(w, c); }
    match call.at {
      case Seen(config, _, now, o) => OkOpenKeeps(w, call.id, o.stored, ActOf(call.job), config, now, was, t);
      case Settled(_, _, _, _, looked, _) =>
        if !looked {
          ParentKeeps(w, c, call.id, was, t);
        } else if call.job.Do? {
          DecisionKeeps(w, c, was, t);
        } else {
          FinishLeaves(w, c);
        }
      case Examined(now, before, _) => if before.V2? { OkDeriveKeeps(w, call.id, before.record, now, was, t); }
      case _ =>
    }
  }

  lemma OkOpenKeeps(w: World, id: string, r: Record, act: Act, config: Option<Config>, now: int, was: Record, t: int)
    requires |w.history| > 0 && RecordOk(w, id, r) && NotOverBefore(r, t) && ApprovedAsThen(was, r, t) && now >= t
    ensures var cur := OpenRecord(r, act, config, now).current; NotOverBefore(cur, t) && ApprovedAsThen(was, cur, t)
  {
    OpenIsNotOver(r, act, config, now, t);
    OpenKeeps(r, act, config, now);
    hide Sound, OpenRecord, NotOverBefore;
  }

  lemma OkDeriveKeeps(w: World, id: string, r: Record, now: int, was: Record, t: int)
    requires |w.history| > 0 && RecordOk(w, id, r) && NotOverBefore(r, t) && ApprovedAsThen(was, r, t) && now >= t
    ensures NotOverBefore(Derive(r, now), t) && ApprovedAsThen(was, Derive(r, now), t)
  {
    DeriveIsNotOver(r, now, t);
    DeriveKeeps(r, now);
    hide Sound, Derive, NotOverBefore;
  }

  lemma DecisionKeeps(w: World, c: nat, was: Record, t: int)
    requires |w.history| > 0 && c in w.calls && CallOk(w, w.calls[c]) && w.calls[c].at.Settled? && w.calls[c].job.Do?
    requires w.calls[c].at.now >= t && !JobEndsBefore(was, w.calls[c].job, t)
    requires NotOverBefore(w.calls[c].at.o.current, t) && ApprovedAsThen(was, w.calls[c].at.o.current, t)
    ensures var e := Finish(w, c, w.calls[c]);
            e.wrote.Some? ==> NotOverBefore(e.wrote.value.record, t) && ApprovedAsThen(was, e.wrote.value.record, t)
  {
    var call := w.calls[c];
    DecidedKeeps(w, call.id, call.at.o.stored, call.job.act, call.at.config, call.at.problem, call.at.now, was, t);
    hide NotOverBefore, ApprovedAsThen, OpenRecord, Decide, RecordOk, JobFits;
  }

  lemma DecidedKeeps(w: World, id: string, r: Record, act: Act, config: Option<Config>, problem: Option<string>, now: int,
                     was: Record, t: int)
    requires |w.history| > 0 && RecordOk(w, id, r) && !AnomalousDisclosure(r, now) && now >= t
    requires RecordOk(w, id, OpenRecord(r, act, config, now).current)
    requires MatchesRecord(r.base.kind, r.base.channel, r.base.inboxId, ExpectOf(act)) && !EndsBefore(was, act, t)
    requires var cur := OpenRecord(r, act, config, now).current; NotOverBefore(cur, t) && ApprovedAsThen(was, cur, t)
    ensures var o := OpenRecord(r, act, config, now);
            var d := Decide(act, o.current, o.outcome, o.live, problem, now);
            d.Put? ==> NotOverBefore(d.next, t) && ApprovedAsThen(was, d.next, t)
  {
    hide Sound, OpenRecord, Decide, NotOverBefore, ApprovedAsThen, EndsBefore, AnomalousDisclosure, InWindow, Rooted, Vouched,
         Warranted;
    var o := OpenRecord(r, act, config, now);
    OpenedActive(r, act, config, now);
    OpenKeeps(r, act, config, now);
    assert ExpectOf(act).kind.Some? ==> ExpectOf(act).kind == Some(r.base.kind);
    DecidingKeeps(act, o.current, o.outcome, o.live, problem, now, was, t);
  }

  lemma DecidingKeeps(act: Act, cur: Record, outcome: Outcome, live: Option<LiveGate>, problem: Option<string>, now: int,
                      was: Record, t: int)
    requires Sound(cur) && NotOverBefore(cur, t) && ApprovedAsThen(was, cur, t) && !EndsBefore(was, act, t) && now >= t
    requires ExpectOf(act).kind.Some? ==> ExpectOf(act).kind == Some(cur.base.kind)
    requires (ActionOf(act) == Approving || ActionOf(act) == Claiming) && outcome.error.None? ==> cur.Active()
    ensures var d := Decide(act, cur, outcome, live, problem, now);
            d.Put? ==> NotOverBefore(d.next, t) && ApprovedAsThen(was, d.next, t)
  {
    hide Sound, Decide, NotOverBefore, ActionOf, ExpectOf;
    assert !EndsBefore(cur, act, t);
    DecisionIsNotOver(act, cur, outcome, live, problem, now, t);
    DecideMoves(cur, outcome, live, act, problem, now);
  }

  // Nor is what a use's claim writes over the standing approval it looks at.
  lemma ParentKeeps(w: World, c: nat, id: string, was: Record, t: int)
    requires |w.history| > 0 && Kept(w) && c in w.calls && w.calls[c].at.Settled? && w.calls[c].at.o.Opened? && t <= w.clock
    requires FileKeeps(w, id, was, t)
    ensures var e := ReadParent(w, w.calls[c]);
            e.wrote.Some? && e.wrote.value.id == id ==>
              NotOverBefore(e.wrote.value.record, t) && ApprovedAsThen(was, e.wrote.value.record, t)
  {
    var child := w.calls[c].at.o.current;
    var parent := ParentOpened(w, child);
    hide NotOverBefore, ApprovedAsThen, RecordOk, OpenRecord, ParentProblem, CallsOk;
    if parent.Opened? && child.base.standingId == Some(id) {
      ParentIsOpened(w, child, id);
      OkOpenKeeps(w, id, w.files[id].record, ParentLook(child), Some(Live(w)), w.clock, was, t);
    }
  }

  lemma ParentIsOpened(w: World, child: Record, id: string)
    requires |w.history| > 0 && ParentOpened(w, child).Opened? && child.base.standingId == Some(id)
    ensures id in w.files && w.files[id].RecordFile?
    ensures ParentOpened(w, child) == OpenRecord(w.files[id].record, ParentLook(child), Some(Live(w)), w.clock)
  {
    hide OpenRecord, ValidateV2;
  }

  // An operation writes over no record but its own, or a standing approval it looks at.
  lemma WritesElsewhere(w: World, c: nat, loads: bool, id: string)
    requires Kept(w) && c in w.calls && id != w.calls[c].id && Operation(w, c, loads).wrote.Some?
    requires Operation(w, c, loads).wrote.value.id == id && !Operation(w, c, loads).minted
    ensures w.calls[c].at.Settled? && w.calls[c].at.o.Opened? && !w.calls[c].at.looked
    ensures Operation(w, c, loads) == ReadParent(w, w.calls[c])
  {
    hide Decide, MintChild, Decode, VerdictOf, OpenRecord, ParentProblem, ReadsParent, RecordOk, ReadParent;
  }

  // ---------- a step ----------

  lemma AdvanceKeepsFile(w: World, c: nat, loads: bool, id: string, was: Record, t: int)
    requires Retained(w) && Keeps(w, id, was, t) && c in w.calls && Enabled(w, Advance(c, loads))
    ensures var next := Apply(w, Advance(c, loads));
            && FileKeeps(next, id, was, t) && (id !in next.files ==> t + NINETY_DAYS <= next.clock)
  {
    hide Operation, NotOverBefore, ApprovedAsThen, JobEndsBefore, Kept, AllFresh, OneHolder, RowsTrue, Ready, VerdictOf,
         IsRowOf, FinishedAt, Decode;
    var e := Operation(w, c, loads);
    UnlinksAlone(w, c, loads);
    if e.wrote.Some? && e.wrote.value.id == id {
      WhereItWrites(w, c, loads) by { assert Kept(w); }
      if w.calls[c].id == id {
        WriteKeeps(w, c, loads, was, t);
      } else {
        WritesElsewhere(w, c, loads, id);
        CallIsOk(w, c);
        ParentKeeps(w, c, id, was, t);
      }
    }
    if e.unlinks && w.calls[c].id == id && id in w.files { UnlinkedIsDue(w, c, t); }
  }

  lemma UnlinksAlone(w: World, c: nat, loads: bool)
    requires |w.history| > 0 && c in w.calls
    ensures Operation(w, c, loads).unlinks ==> w.calls[c].at.Unmarked? && Operation(w, c, loads).wrote.None?
  {
    hide Operation, VerdictOf;
    RetentionOperation(w, c, loads);
  }

  lemma UnlinkedIsDue(w: World, c: nat, t: int)
    requires Retained(w) && c in w.calls && w.calls[c].at.Unmarked? && w.calls[c].id in w.files
    requires w.files[w.calls[c].id].RecordFile? && NotOverBefore(w.files[w.calls[c].id].record, t)
    ensures t + NINETY_DAYS <= w.clock
  {
    hide Retained, NotOverBefore, VerdictOf, FinishedAt, Decode;
    var id := w.calls[c].id;
    DeleterIsDue(w, c);
    RowSays(id, w.files[id], w.calls[c].at.now);
    FinishIsNotBefore(w.files[id].record, w.log.rows[id].finishedAt, t);
  }

  lemma FinishIsNotBefore(r: Record, at: int, t: int)
    requires NotOverBefore(r, t) && FinishedAt(r, at)
    ensures at >= t
  {
  }

  lemma StepKeeps(w: World, step: Step, id: string, was: Record, t: int)
    requires Retained(w) && Keeps(w, id, was, t) && Enabled(w, step)
    requires step.Ask? && step.id == id ==> !JobEndsBefore(was, step.job, t)
    ensures Keeps(Apply(w, step), id, was, t)
  {
    hide Operation, NotOverBefore, ApprovedAsThen, JobEndsBefore, Retained, FileKeeps, Ready, CreateOf, JobFits,
         CreationFits, ConfigFits;
    StepClock(w, step);
    StepGrowsMade(w, step);
    if step.Advance? {
      AdvanceKeepsFile(w, step.c, step.loads, id, was, t);
      ClockOperation(w, step.c, step.loads);
    } else {
      SameFileKeeps(w, step, id, was, t);
    }
  }

  lemma SameFileKeeps(w: World, step: Step, id: string, was: Record, t: int)
    requires Keeps(w, id, was, t) && Enabled(w, step) && !step.Advance?
    ensures FileKeeps(Apply(w, step), id, was, t) && (id in Apply(w, step).files <==> id in w.files)
  {
    hide NotOverBefore, ApprovedAsThen, JobEndsBefore, CreateOf, JobFits, CreationFits, ConfigFits;
  }

  predicate NothingEndsBefore(steps: seq<Step>, id: string, was: Record, t: int) {
    forall k | 0 <= k < |steps| && steps[k].Ask? && steps[k].id == id :: !JobEndsBefore(was, steps[k].job, t)
  }

  lemma {:induction false} RunKeeps(w: World, steps: seq<Step>, id: string, was: Record, t: int)
    requires Retained(w) && Keeps(w, id, was, t) && Legal(w, steps) && NothingEndsBefore(steps, id, was, t)
    ensures Keeps(After(w, steps), id, was, t)
    decreases |steps|
  {
    hide Apply, Enabled, Retained, Keeps, JobEndsBefore;
    if steps != [] {
      StepKeeps(w, steps[0], id, was, t);
      StepRetained(w, steps[0]);
      RunKeeps(Apply(w, steps[0]), steps[1..], id, was, t);
    }
  }

  // ---------- over runs ----------

  lemma StillOpenIsNotOver(r: Record, now: int)
    requires StillOpen(r, now)
    ensures NotOverBefore(r, now)
  {
  }

  // A record that could still be acted on at some reading of the clock, no call being at work on it, is there at every
  // later reading short of ninety days after: as long as nobody narrows it to days that have already passed.
  lemma KeptNinetyDays(w: World, steps: seq<Step>, more: seq<Step>, id: string)
    requires Init(w) && w.exclusive && Legal(w, steps) && Legal(After(w, steps), more)
    requires var mid := After(w, steps);
             && id in mid.files && mid.files[id].RecordFile? && StillOpen(mid.files[id].record, mid.clock)
             && LockFree(mid, id)
             && (forall c | c in mid.calls && mid.calls[c].id == id ::
                   !JobEndsBefore(mid.files[id].record, mid.calls[c].job, mid.clock))
             && NothingEndsBefore(more, id, mid.files[id].record, mid.clock)
    ensures var mid := After(w, steps);
            var last := After(mid, more);
            id !in last.files ==> mid.clock + NINETY_DAYS <= last.clock
  {
    hide Init, Legal, After, Always, Sent, Concluded, Retained, Marked, StillOpen, NotOverBefore, JobEndsBefore,
         NothingEndsBefore;
    RunFromRest(w, steps);
    var mid := After(w, steps);
    var r := mid.files[id].record;
    StillOpenIsNotOver(r, mid.clock);
    FileIsMade(mid, id);
    assert Keeps(mid, id, r, mid.clock);
    RunKeeps(mid, more, id, r, mid.clock);
  }

  lemma FileIsMade(w: World, id: string)
    requires Retained(w) && id in w.files && w.files[id].RecordFile?
    ensures id in w.made
  {
    assert RecordOk(w, id, w.files[id].record);
    hide AllFresh, OneHolder, RowsTrue, Sound, Warranted, Rooted, Vouched, IsApprovalId;
  }

  // ---------- the one exception ----------

  // Exactly such a narrowing, where it goes through, ends the approval back then, so that it is gone from ninety days
  // after that day: before ninety days after it was in force.
  lemma NarrowedIntoThePast(r: Record, act: Act, config: Option<Config>, t: int)
    requires Sound(r) && r.base.kind == StandingKind && r.state == Approved && act.NarrowStanding?
    requires Decided(r, act, config, t).Put? && EndsBefore(r, act, t)
    ensures var next := Decided(r, act, config, t).next;
            var due := r.approvedAt.ms + act.asked.expiresDays.value * 24 * 60 * MINUTE_MS + NINETY_DAYS;
            && due < t + NINETY_DAYS
            && forall now | now >= due && now >= t :: VerdictOf(V2(Derive(next, now)), now).Some?
  {
    hide Sound, Decided, OnlyLess, EndedBy, Covers, EndOf, Derive, InForce, VerdictOf;
    NarrowedIsSound(r, act, config, t);
    NarrowedEnds(r, act, config, t);
    var next := Decided(r, act, config, t).next;
    var due := r.approvedAt.ms + act.asked.expiresDays.value * 24 * 60 * MINUTE_MS + NINETY_DAYS;
    forall now | now >= due && now >= t ensures VerdictOf(V2(Derive(next, now)), now).Some? {
      PastItsEndIsDue(next, t, now);
    }
  }

  lemma PastItsEndIsDue(r: Record, t: int, now: int)
    requires Sound(r) && r.state == Approved && r.createdAt.At? && (r.base.kind != DownloadKind ==> r.approvedAt.At?)
    requires !ClockBehind(r, t) && now >= t && now >= EndOf(r) + NINETY_DAYS
    ensures VerdictOf(V2(Derive(r, now)), now).Some?
  {
    hide Sound, Derive, EndOf;
    DerivedExactly(r, now);
  }

  lemma NarrowedIsSound(r: Record, act: Act, config: Option<Config>, t: int)
    requires Sound(r) && r.base.kind == StandingKind && act.NarrowStanding? && Decided(r, act, config, t).Put?
    ensures Sound(Decided(r, act, config, t).next)
  {
    hide Sound, OpenRecord, AnomalousDisclosure;
    NoStandingIsAnomalous(r, t);
    OpenSound(r, act, config, t);
    var o := OpenRecord(r, act, config, t);
    NarrowDecisionIsSound(o.current, o.outcome, act.asked);
  }

  lemma NoStandingIsAnomalous(r: Record, now: int)
    requires r.base.kind == StandingKind
    ensures !AnomalousDisclosure(r, now)
  {
  }

  lemma NarrowDecisionIsSound(cur: Record, outcome: Outcome, asked: Narrowing)
    requires Sound(cur) && cur.base.kind == StandingKind
    ensures var d := DecideNarrow(cur, outcome, asked); d.Put? ==> Sound(d.next)
  {
    hide Sound, NarrowedFurther;
    var d := DecideNarrow(cur, outcome, asked);
    if d.Put? { NarrowedSound(cur, asked); }
  }

  lemma NarrowedEnds(r: Record, act: Act, config: Option<Config>, t: int)
    requires Sound(r) && r.base.kind == StandingKind && r.state == Approved && act.NarrowStanding?
    requires Decided(r, act, config, t).Put? && EndsBefore(r, act, t)
    ensures var next := Decided(r, act, config, t).next;
            && next.state == Approved && next.createdAt == r.createdAt && next.approvedAt == r.approvedAt
            && next.createdAt.At? && !ClockBehind(next, t)
            && EndOf(next) == r.approvedAt.ms + act.asked.expiresDays.value * 24 * 60 * MINUTE_MS
  {
    NarrowingGoesThroughExactly(r, act.owner, act.asked, config, t);
    SoundForKeeping(r);
    hide Sound, Decided, EndedBy, Covers, KeepOf, PlacesOf;
  }

  const SOME_STANDING := StandingBinding("summary", "acct", "acct", [StandingContent(false, "ok", Sha(ContentOf(false, "ok")))],
                                         ThreadsIAmIn, Limits(1, 1, 1, 1, 30), true, None, [])
  const DAY := 24 * 60 * MINUTE_MS

  // One approved for thirty days, narrowed after twenty of them to one: due after ninety-two, not after a hundred and ten.
  lemma ANarrowedApprovalGoesEarly()
    ensures IsApprovalId(SOME_ID) && CreateStanding(SOME_STANDING, "sub", 0, 0, SOME_ID, None, 0).Made?
    ensures var r := ApprovedBy(CreateStanding(SOME_STANDING, "sub", 0, 0, SOME_ID, None, 0).record, None, Terminal, 1);
            var act := NarrowStanding("acct", Narrowing(None, None, Some(1)));
            && Sound(r) && StillOpen(r, 20 * DAY)
            && Decided(r, act, None, 20 * DAY).Put?
            && VerdictOf(V2(Derive(Decided(r, act, None, 20 * DAY).next, 92 * DAY)), 92 * DAY).Some?
            && 92 * DAY < 20 * DAY + NINETY_DAYS
  {
    var made := CreateStanding(SOME_STANDING, "sub", 0, 0, SOME_ID, None, 0).record;
    var r := ApprovedBy(made, None, Terminal, 1);
    var act := NarrowStanding("acct", Narrowing(None, None, Some(1)));
    StandingIsMade();
    CreateStandingSound(SOME_STANDING, "sub", 0, 0, SOME_ID, None, 0);
    assert InWindow(made, At(1));
    ApprovedSound(made, None, Terminal, 1);
    assert InForce(r, 20 * DAY);
    assert EndsBefore(r, act, 20 * DAY);
    NarrowingGoesThroughExactly(r, "acct", Narrowing(None, None, Some(1)), None, 20 * DAY);
    hide Sound, Decided, Derive, VerdictOf, EndedBy, Covers;
    NarrowedIntoThePast(r, act, None, 20 * DAY);
  }

  lemma StandingIsMade()
    ensures IsApprovalId(SOME_ID) && CreateStanding(SOME_STANDING, "sub", 0, 0, SOME_ID, None, 0).Made?
  {
    assert SOME_STANDING.contents[0] in SOME_STANDING.contents;
  }
}
