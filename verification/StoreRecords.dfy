/**
  What every record keeps in every interleaving, whether or not the record lock excludes anybody: it is one the
  integrity check accepts, it was made under an owner and epochs that the configuration once had, and whatever evidence
  it carries is a decision some person gave for it.
  */
module StoreRecords {
  import opened Wrappers
  import opened Records
  import opened ApprovalBinding
  import opened ApprovalValidate
  import opened ApprovalOutcome
  import opened ApprovalTransitions
  import opened Standing
  import opened RecordInvariant
  import opened RecordMoves
  import opened Retention
  import opened StoreMachine
  import opened StoreFrames

  // ---------- one record ----------

  // Its owner was configured once, and its epochs are not ahead of the configuration's.
  predicate Rooted(history: seq<Config>, b: Base)
    requires |history| > 0
  {
    var live := history[|history| - 1];
    && (b.kind != DisclosureKind && b.ownerScope == OwnerScoped ==> EverOwner(history, b.inboxId))
    && (b.kind == SendKind || b.kind == StandingKind ==> b.sendEpoch.Or(0) <= SendEpochOf(live, b.inboxId))
    && (b.standingEpoch.Some? ==> b.standingEpoch.value <= live.standingEpoch)
  }

  // A binding of a standing approval under the epochs and for the account a use of it names.
  predicate BindsStanding(binding: Option<Digest>, b: Base) {
    && binding.Some? && binding.value.Sha? && binding.value.of.BindingOf? && binding.value.of.bound.OrdinaryObject?
    && var bound := binding.value.of.bound;
       && bound.kind == StandingKind
       && bound.identity.sendEpoch == b.sendEpoch && bound.identity.standingEpoch == b.standingEpoch
       && bound.identity.inboxId == b.inboxId && bound.identity.inboxSub == b.inboxSub
       && Some(bound.identity.approvalId) == b.standingId
  }

  // The standing approval a use is of was approved, at a terminal.
  predicate StandingApproved(people: set<Person>, b: Base) {
    exists p | p in people :: Some(p.id) == b.standingId && p.via == Terminal && BindsStanding(p.binding, b)
  }

  // The evidence a record carries is a person's decision for its own binding; a use's is its standing approval's.
  predicate Vouched(people: set<Person>, r: Record) {
    && (r.approvedVia.Some? && !r.IsChild() ==>
          Person(r.base.approvalId, r.bindingDigest, r.approvedVia.value,
                 if r.base.kind == DownloadKind then r.answer else None) in people)
    && (r.IsChild() ==> StandingApproved(people, r.base))
  }

  predicate Past(stamp: Stamp, clock: int) {
    stamp.At? ==> stamp.ms <= clock
  }

  predicate RecordOk(w: World, id: string, r: Record)
    requires |w.history| > 0
  {
    && r.base.approvalId == id && IsApprovalId(id) && id in w.made
    && Sound(r) && Warranted(r)
    && Past(r.createdAt, w.clock) && Past(r.approvedAt, w.clock)
    && Rooted(w.history, r.base)
    && Vouched(w.log.people, r)
  }

  predicate StoredOk(w: World, id: string, stored: Stored)
    requires |w.history| > 0
  {
    stored.V2? ==> RecordOk(w, id, stored.record)
  }

  lemma RecordStaysOk(w: World, next: World, id: string, r: Record)
    requires Grows(w, next) && RecordOk(w, id, r)
    ensures RecordOk(next, id, r)
  {
    hide Sound, Warranted, SendEpochOf, EverOwner, BindsStanding, IsApprovalId;
    if r.IsChild() {
      var p :| p in w.log.people && Some(p.id) == r.base.standingId && p.via == Terminal && BindsStanding(p.binding, r.base);
      assert p in next.log.people;
    }
  }

  lemma NotAnomalous(w: World, id: string, r: Record)
    requires |w.history| > 0 && RecordOk(w, id, r)
    ensures !AnomalousDisclosure(r, w.clock)
  {
  }

  // ---------- the whole store ----------

  // What a call holds between two operations.
  predicate ViewOk(w: World, call: Call)
    requires |w.history| > 0
  {
    match call.at
    case Configured(config, readAt) => ConfigRead(w, config, readAt) && !call.job.Retain?
    case Seen(config, readAt, now, o) => ConfigRead(w, config, readAt) && !call.job.Retain? && SeenOk(w, call, config, now, o)
    case Settled(config, readAt, now, o, _, problem) =>
      && ConfigRead(w, config, readAt) && !call.job.Retain? && SeenOk(w, call, config, now, o)
      && RecordOk(w, call.id, o.current) && problem != Some(CLOCK_ANOMALY)
    case Examined(now, before, after) =>
      call.job.Retain? && now <= w.clock && StoredOk(w, call.id, before) && StoredOk(w, call.id, after)
    case Judged(now, stored) => call.job.Retain? && now <= w.clock && StoredOk(w, call.id, stored)
    case Rowed(now, stored) => call.job.Retain? && now <= w.clock && StoredOk(w, call.id, stored)
    case Unmarked(now, stored) => call.job.Retain? && now <= w.clock && StoredOk(w, call.id, stored)
    case _ => true
  }

  predicate ConfigRead(w: World, config: Option<Config>, readAt: nat) {
    readAt < |w.history| && (config.Some? ==> config.value == w.history[readAt])
  }

  predicate SeenOk(w: World, call: Call, config: Option<Config>, now: int, o: Opened)
    requires |w.history| > 0
  {
    && o.Opened? && now <= w.clock
    && RecordOk(w, call.id, o.stored) && !AnomalousDisclosure(o.stored, now)
    && o == OpenRecord(o.stored, ActOf(call.job), config, now)
    && MatchesRecord(o.stored.base.kind, o.stored.base.channel, o.stored.base.inboxId, ExpectOf(ActOf(call.job)))
  }

  predicate CallOk(w: World, call: Call)
    requires |w.history| > 0
  {
    call.id in w.made && JobFits(w, call.job) && ViewOk(w, call)
  }

  predicate FilesOk(w: World)
    requires |w.history| > 0
  {
    forall id | id in w.files && w.files[id].RecordFile? :: RecordOk(w, id, w.files[id].record)
  }

  predicate CallsOk(w: World)
    requires |w.history| > 0
  {
    forall c | c in w.calls :: c < w.nextCall && CallOk(w, w.calls[c])
  }

  predicate Kept(w: World) {
    |w.history| > 0 && FilesOk(w) && CallsOk(w)
  }

  lemma InitIsKept(w: World)
    requires Init(w)
    ensures Kept(w)
  {
  }

  lemma CallStaysOk(w: World, next: World, call: Call)
    requires Grows(w, next) && CallOk(w, call)
    ensures CallOk(next, call)
  {
    hide RecordOk, OpenRecord, MatchesRecord, AnomalousDisclosure, ActFits, PreparedByOk;
    var at := call.at;
    match at {
      case Seen(_, _, _, o) => RecordStaysOk(w, next, call.id, o.stored);
      case Settled(_, _, _, o, _, _) => RecordStaysOk(w, next, call.id, o.stored); RecordStaysOk(w, next, call.id, o.current);
      case Examined(_, before, after) =>
        if before.V2? { RecordStaysOk(w, next, call.id, before.record); }
        if after.V2? { RecordStaysOk(w, next, call.id, after.record); }
      case Judged(_, stored) => if stored.V2? { RecordStaysOk(w, next, call.id, stored.record); }
      case Rowed(_, stored) => if stored.V2? { RecordStaysOk(w, next, call.id, stored.record); }
      case Unmarked(_, stored) => if stored.V2? { RecordStaysOk(w, next, call.id, stored.record); }
      case _ =>
    }
  }

  // ---------- what each operation writes and holds ----------

  // What an operation writes is a record as good as any, and so is what the call holds after it.
  predicate EffectOk(w: World, call: Call, e: Effect)
    requires |w.history| > 0
  {
    && (e.wrote.Some? ==> RecordOk(w, e.wrote.value.id, e.wrote.value.record))
    && (e.at.Some? ==> ViewOk(w, call.(at := e.at.value)))
  }

  lemma FoundOk(w: World, id: string)
    requires Kept(w) && Found(w, id).Some?
    ensures StoredOk(w, id, Found(w, id).value)
  {
  }

  // Reading changes neither what a record was made with nor its evidence, and enters no claim.
  lemma OpenKeeps(r: Record, act: Act, config: Option<Config>, now: int)
    ensures var cur := OpenRecord(r, act, config, now).current;
            && cur.base == r.base && cur.bindingDigest == r.bindingDigest && cur.createdAt == r.createdAt
            && cur.approvedAt == r.approvedAt && cur.approvedVia == r.approvedVia && cur.answer == r.answer
            && (PastClaim(cur.state) ==> PastClaim(r.state))
  {
  }

  lemma OpenedOk(w: World, id: string, r: Record, act: Act, config: Option<Config>, now: int)
    requires |w.history| > 0 && RecordOk(w, id, r) && !AnomalousDisclosure(r, now)
    ensures RecordOk(w, id, OpenRecord(r, act, config, now).current)
  {
    OpenSound(r, act, config, now);
    OpenKeeps(r, act, config, now);
    hide Sound, OpenRecord, AnomalousDisclosure, SendEpochOf, EverOwner, BindsStanding, IsApprovalId;
    assert Vouched(w.log.people, OpenRecord(r, act, config, now).current);
  }

  lemma ReadFileOk(w: World, call: Call)
    requires Kept(w) && call.at.Configured? && CallOk(w, call)
    ensures EffectOk(w, call, ReadFile(w, call))
  {
    hide RecordOk, MatchesRecord, AnomalousDisclosure, ActFits, PreparedByOk, FilesOk, CallsOk, Decode, Derive, Classify;
    var o := Open(Found(w, call.id), ActOf(call.job), call.at.config, w.clock);
    assert o.Opened? ==> Found(w, call.id) == Some(V2(o.stored));
    hide OpenRecord;
    if o.Opened? {
      FoundOk(w, call.id);
      NotAnomalous(w, call.id, o.stored);
    }
  }

  lemma SettleOk(w: World, call: Call)
    requires |w.history| > 0 && call.at.Seen? && CallOk(w, call)
    ensures EffectOk(w, call, Settle(w, call))
  {
    hide RecordOk, OpenRecord, MatchesRecord, AnomalousDisclosure, ActFits, PreparedByOk, ReadsParent, ActOf, TokenOf,
         ExpectOf;
    var at := call.at;
    OpenedOk(w, call.id, at.o.stored, ActOf(call.job), at.config, at.now);
  }

  lemma ProblemIsNoAnomaly(child: Record, parent: Opened)
    ensures ParentProblem(child, parent) != Some(CLOCK_ANOMALY)
  {
    hide Covers;
  }

  lemma ReadParentOk(w: World, call: Call)
    requires Kept(w) && call.at.Settled? && CallOk(w, call)
    ensures EffectOk(w, call, ReadParent(w, call))
  {
    hide RecordOk, MatchesRecord, AnomalousDisclosure, ActFits, PreparedByOk, ParentProblem, FilesOk, CallsOk, Decode;
    var child := call.at.o.current;
    var parent := ParentOpened(w, child);
    assert parent.Opened? ==> child.base.standingId.Some?
                              && Found(w, child.base.standingId.value) == Some(V2(parent.stored));
    hide OpenRecord;
    ProblemIsNoAnomaly(child, parent);
    if parent.Opened? && child.base.standingId.Some? {
      var id := child.base.standingId.value;
      FoundOk(w, id);
      NotAnomalous(w, id, parent.stored);
      OpenedOk(w, id, parent.stored, ParentLook(child), Some(Live(w)), w.clock);
    }
  }

  lemma ExamineOk(w: World, call: Call)
    requires Kept(w) && CallOk(w, call) && call.job.Retain?
    ensures EffectOk(w, call, Examine(w, call))
  {
    hide RecordOk, Derive, Decode, FilesOk, CallsOk, JobFits, AnomalousDisclosure;
    if call.id in w.files {
      FoundOk(w, call.id);
      var stored := Decode(call.id, w.files[call.id]);
      if stored.V2? {
        NotAnomalous(w, call.id, stored.record);
        DerivedOk(w, call.id, stored.record);
      }
    }
  }

  lemma DerivedOk(w: World, id: string, r: Record)
    requires |w.history| > 0 && RecordOk(w, id, r) && !AnomalousDisclosure(r, w.clock)
    ensures RecordOk(w, id, Derive(r, w.clock))
  {
    DeriveSound(r, w.clock);
    DeriveKeeps(r, w.clock);
    hide Sound, Derive, AnomalousDisclosure, SendEpochOf, EverOwner, BindsStanding, IsApprovalId;
    assert Vouched(w.log.people, Derive(r, w.clock));
  }

  lemma DeriveKeeps(r: Record, now: int)
    ensures var cur := Derive(r, now);
            && cur.base == r.base && cur.bindingDigest == r.bindingDigest && cur.createdAt == r.createdAt
            && cur.approvedAt == r.approvedAt && cur.approvedVia == r.approvedVia && cur.answer == r.answer
            && (PastClaim(cur.state) ==> PastClaim(r.state))
  {
  }

  // ---------- a decision ----------

  // A record gains evidence only by a person's act, which says whose it is.
  lemma EvidenceIsAPersons(id: string, act: Act, cur: Record, outcome: Outcome, live: Option<LiveGate>,
                           parentProblem: Option<string>, now: int)
    requires ExpectOf(act).kind.Some? ==> ExpectOf(act).kind == Some(cur.base.kind)
    requires act.Approve? ==> cur.base.kind != DownloadKind && act.kind != DisclosureKind
    requires cur.base.approvalId == id && cur.approvedVia.None?
    ensures var d := Decide(act, cur, outcome, live, parentProblem, now);
            d.Put? && d.next.approvedVia.Some? ==>
              Person(id, d.next.bindingDigest, d.next.approvedVia.value,
                     if cur.base.kind == DownloadKind then d.next.answer else None) in PersonOf(id, act, d.next)
  {
    hide SameExpectation, SameDisclosureBinding, ChangeDigest, DownloadDigest, NarrowedFurther, StricterPolicy, IsClaimable;
  }

  lemma DecisionOk(w: World, next: World, id: string, act: Act, config: Option<Config>, parentProblem: Option<string>,
                   r: Record, now: int)
    requires |w.history| > 0 && RecordOk(w, id, r) && !AnomalousDisclosure(r, now) && now <= w.clock
    requires ActFits(act) && parentProblem != Some(CLOCK_ANOMALY)
    requires MatchesRecord(r.base.kind, r.base.channel, r.base.inboxId, ExpectOf(act))
    requires var o := OpenRecord(r, act, config, now);
             var d := Decide(act, o.current, o.outcome, o.live, parentProblem, now);
             d.Put? && next == w.(log := next.log) && w.log.people + PersonOf(id, act, d.next) <= next.log.people
    ensures var o := OpenRecord(r, act, config, now);
            RecordOk(next, id, Decide(act, o.current, o.outcome, o.live, parentProblem, now).next)
  {
    var o := OpenRecord(r, act, config, now);
    var d := Decide(act, o.current, o.outcome, o.live, parentProblem, now);
    OpenedOk(w, id, r, act, config, now);
    OpenKeeps(r, act, config, now);
    DecideSound(r, act, config, parentProblem, now);
    OpenedActive(r, act, config, now);
    DecideMoves(o.current, o.outcome, o.live, act, parentProblem, now);
    ClaimIsWarranted(r, act, config, parentProblem, now);
    if o.current.approvedVia.None? {
      EvidenceIsAPersons(id, act, o.current, o.outcome, o.live, parentProblem, now);
    }
    DecisionOkByParts(w, next, id, act, o.current, d.next, now);
  }

  // A record moved on: still as good, if it is sound and warranted, and its evidence is old or a person's of this act.
  lemma DecisionOkByParts(w: World, next: World, id: string, act: Act, cur: Record, moved: Record, now: int)
    requires |w.history| > 0 && RecordOk(w, id, cur) && now <= w.clock
    requires next == w.(log := next.log) && w.log.people + PersonOf(id, act, moved) <= next.log.people
    requires Moves(cur, moved, now) && Sound(moved)
    requires Warranted(moved)
    requires cur.approvedVia.None? && moved.approvedVia.Some? ==>
               Person(id, moved.bindingDigest, moved.approvedVia.value,
                      if cur.base.kind == DownloadKind then moved.answer else None) in PersonOf(id, act, moved)
    ensures RecordOk(next, id, moved)
  {
    hide Sound, Warranted, PersonOf, SendEpochOf, EverOwner, BindsStanding, IsApprovalId;
    if cur.IsChild() {
      var p :| p in w.log.people && Some(p.id) == cur.base.standingId && p.via == Terminal && BindsStanding(p.binding, cur.base);
      assert p in next.log.people;
    }
  }

  lemma FinishOk(w: World, c: nat, call: Call)
    requires |w.history| > 0 && call.at.Settled? && call.job.Do? && CallOk(w, call)
    ensures EffectOk(w.(log := Finish(w, c, call).log), call, Finish(w, c, call))
  {
    hide RecordOk, OpenRecord, MatchesRecord, AnomalousDisclosure, ActFits, PreparedByOk, Decide, PersonOf;
    var at := call.at;
    var e := Finish(w, c, call);
    if DecisionOf(call).Put? {
      DecisionOk(w, w.(log := e.log), call.id, call.job.act, at.config, at.problem, at.o.stored, at.now);
    }
  }

  // A use names its standing approval as the person approved it.
  lemma BoundAsApproved(parent: Record, b: Base)
    requires Sound(parent) && parent.base.kind == StandingKind
    requires parent.base.sendEpoch == b.sendEpoch && parent.base.standingEpoch == b.standingEpoch
    requires parent.base.inboxId == b.inboxId && parent.base.inboxSub == b.inboxSub
    requires Some(parent.base.approvalId) == b.standingId
    ensures BindsStanding(parent.bindingDigest, b)
  {
  }

  // What a use is made with.
  lemma MintMakes(input: UseInput, parentId: string, parent: Outcome, live: Option<LiveGate>, preparedBy: Option<string>,
                  now: int)
    requires MintChild(input, parentId, parent, live, preparedBy, now).Made?
    ensures var child := MintChild(input, parentId, parent, live, preparedBy, now).record;
            && child.base.approvalId == input.approvalId && IsApprovalId(input.approvalId)
            && child.IsChild() && child.state == Approved && child.createdAt == At(now) && child.approvedAt == At(now)
            && child.base.standingId == Some(parentId) && child.base.inboxId == input.inboxId
            && child.base.sendEpoch == parent.record.base.sendEpoch
            && child.base.standingEpoch == parent.record.base.standingEpoch
            && child.base.inboxSub == parent.record.base.inboxSub
            && parent.record.state == Approved && parent.record.approvedVia == Some(Terminal)
  {
    hide StandingUseOk, IsHex64, BindingDigestOf, IsApprovalId;
  }

  lemma MintOk(w: World, call: Call)
    requires |w.history| > 0 && call.at.Settled? && call.job.Use? && CallOk(w, call)
    requires Mint(w, call).wrote.Some?
    ensures Mint(w, call).minted
    ensures RecordOk(w.(made := w.made + {Mint(w, call).wrote.value.id}), Mint(w, call).wrote.value.id,
                     Mint(w, call).wrote.value.record)
  {
    hide Sound, OpenRecord, MatchesRecord, AnomalousDisclosure, MintChild, ActFits, BindsStanding, StandingApproved,
         SendEpochOf, EverOwner;
    var at := call.at;
    var input := call.job.input;
    var r := at.o.stored;
    MintMakes(input, call.id, at.o.outcome, at.o.live, call.job.preparedBy, at.now);
    UseOpensItsStanding(r, input, at.config, at.now);
    assert at.o.outcome.record == r && r.base.approvalId == call.id;
    MintChildSound(input, call.id, at.o.outcome, at.o.live, call.job.preparedBy, at.now);
    var child := Mint(w, call).wrote.value.record;
    BoundAsApproved(r, child.base);
    PersonStands(w, r, child.base);
  }

  lemma PersonStands(w: World, r: Record, b: Base)
    requires |w.history| > 0 && RecordOk(w, r.base.approvalId, r) && r.base.kind == StandingKind
    requires r.approvedVia == Some(Terminal) && Some(r.base.approvalId) == b.standingId
    requires BindsStanding(r.bindingDigest, b)
    ensures StandingApproved(w.log.people, b)
  {
    hide Sound, Warranted, Rooted, BindsStanding;
    var p := Person(r.base.approvalId, r.bindingDigest, Terminal, None);
    assert p in w.log.people && BindsStanding(p.binding, b);
  }

  // A use mints only from a standing approval in force, which classification left as it was stored.
  lemma UseOpensItsStanding(r: Record, input: UseInput, config: Option<Config>, now: int)
    requires Sound(r) && !AnomalousDisclosure(r, now)
    requires MatchesRecord(r.base.kind, r.base.channel, r.base.inboxId, ExpectOf(ActOf(Use(input, None))))
    requires OpenRecord(r, ActOf(Use(input, None)), config, now).outcome.record.state == Approved
    ensures OpenRecord(r, ActOf(Use(input, None)), config, now).outcome.record == r
    ensures r.base.kind == StandingKind && r.base.inboxId == input.inboxId && r.base.inboxId != ""
    ensures r.base.ownerScope == OwnerScoped
  {
  }

  // ---------- a step ----------

  lemma EffectStaysOk(w: World, next: World, call: Call, e: Effect)
    requires Grows(w, next) && EffectOk(w, call, e) && call.id in w.made && JobFits(w, call.job)
    ensures EffectOk(next, call, e)
  {
    if e.at.Some? { CallStaysOk(w, next, call.(at := e.at.value)); }
    if e.wrote.Some? { RecordStaysOk(w, next, e.wrote.value.id, e.wrote.value.record); }
    hide RecordOk, ViewOk, Grows, JobFits;
  }

  // The operations that only move a call on, over what it holds already.
  lemma PlainOperationOk(w: World, c: nat, loads: bool)
    requires Kept(w) && c in w.calls
    requires var at := w.calls[c].at;
             !at.Configured? && !at.Seen? && !at.Settled? && !at.Examined? && !(at.Holding? && w.calls[c].job.Retain?)
    ensures EffectOk(w, w.calls[c], Operation(w, c, loads))
  {
    hide RecordOk, SeenOk, JobFits, VerdictOf, ActOf, ReadFile, Settle, ReadParent, Finish, Mint, Examine, SettleDerived;
    assert CallOk(w, w.calls[c]);
  }

  lemma OperationOk(w: World, c: nat, loads: bool)
    requires Kept(w) && c in w.calls
    ensures EffectOk(Run(w, c, Operation(w, c, loads)), w.calls[c], Operation(w, c, loads))
  {
    hide EffectOk, RecordOk, ReadFile, Settle, ReadParent, Finish, Mint, Examine, SettleDerived, AppendRow, Unlock,
         CreateMarker, WriteToken, AnswerCaller, SeenOk, ActFits, PreparedByOk, Grows;
    var call := w.calls[c];
    var e := Operation(w, c, loads);
    var next := Run(w, c, e);
    assert CallOk(w, call);
    if call.at.Settled? && call.at.looked && call.at.o.Opened? && call.job.Do? {
      FinishOk(w, c, call);
      FinishGrows(w, c);
      EffectStaysOk(w.(log := e.log), next, call, e);
    } else if call.at.Settled? && call.at.looked && call.at.o.Opened? && call.job.Use? {
      MintIsOk(w, call);
      MintGrows(w, c);
      EffectStaysOk(w.(made := next.made), next, call, e);
    } else {
      HeldOperationOk(w, c, loads);
      RunGrows(w, c, loads);
      EffectStaysOk(w, next, call, e);
    }
  }

  lemma RunGrows(w: World, c: nat, loads: bool)
    requires |w.history| > 0 && c in w.calls
    ensures Grows(w, Run(w, c, Operation(w, c, loads)))
  {
    hide Operation;
    OperationLogs(w, c, loads);
  }

  lemma FinishGrows(w: World, c: nat)
    requires |w.history| > 0 && c in w.calls && w.calls[c].at.Settled? && w.calls[c].at.o.Opened?
    ensures var e := Finish(w, c, w.calls[c]); Grows(w.(log := e.log), Run(w, c, e))
  {
    hide Finish;
  }

  lemma MintGrows(w: World, c: nat)
    requires |w.history| > 0 && c in w.calls && w.calls[c].at.Settled? && w.calls[c].at.o.Opened? && w.calls[c].job.Use?
    ensures var next := Run(w, c, Mint(w, w.calls[c])); Grows(w.(made := next.made), next)
  {
    hide MintChild;
  }

  lemma HeldOperationOk(w: World, c: nat, loads: bool)
    requires Kept(w) && c in w.calls
    requires !(w.calls[c].at.Settled? && w.calls[c].at.looked && w.calls[c].at.o.Opened?)
    ensures EffectOk(w, w.calls[c], Operation(w, c, loads))
  {
    hide EffectOk, RecordOk, ReadFile, Settle, ReadParent, Finish, Mint, Examine, SettleDerived, AppendRow, Unlock,
         CreateMarker, WriteToken, AnswerCaller, JobFits;
    var call := w.calls[c];
    assert CallOk(w, call);
    match call.at {
      case Configured(_, _) => ReadFileOk(w, call);
      case Seen(_, _, _, _) => SettleOk(w, call);
      case Settled(_, _, _, _, _, _) => ReadParentOk(w, call);
      case Examined(_, _, _) => SettleDerivedOk(w, call);
      case Holding => if call.job.Retain? { ExamineOk(w, call); } else { PlainOperationOk(w, c, loads); }
      case _ => PlainOperationOk(w, c, loads);
    }
  }

  lemma SettleDerivedOk(w: World, call: Call)
    requires |w.history| > 0 && call.at.Examined? && CallOk(w, call)
    ensures EffectOk(w, call, SettleDerived(w, call))
  {
    hide RecordOk;
  }

  lemma MintIsOk(w: World, call: Call)
    requires Kept(w) && call.at.Settled? && call.at.o.Opened? && call.job.Use? && CallOk(w, call)
    ensures var e := Mint(w, call);
            EffectOk(w.(made := if e.wrote.Some? && e.minted then w.made + {e.wrote.value.id} else w.made), call, e)
  {
    hide RecordOk, MintChild, SeenOk, JobFits;
    if Mint(w, call).wrote.Some? { MintOk(w, call); }
  }

  lemma AdvanceKept(w: World, c: nat, loads: bool)
    requires Kept(w) && c in w.calls && Enabled(w, Advance(c, loads))
    ensures Kept(Apply(w, Advance(c, loads)))
  {
    hide RecordOk, ViewOk, Operation, Ready, JobFits;
    var e := Operation(w, c, loads);
    var next := Run(w, c, e);
    StepGrows(w, Advance(c, loads));
    OperationOk(w, c, loads);
    forall d | d in next.calls ensures d < next.nextCall && CallOk(next, next.calls[d]) {
      CallStaysOk(w, next, w.calls[d]);
    }
    forall id | id in next.files && next.files[id].RecordFile? ensures RecordOk(next, id, next.files[id].record) {
      if id in w.files && w.files[id] == next.files[id] { RecordStaysOk(w, next, id, w.files[id].record); }
    }
  }

  lemma OthersKept(w: World, next: World)
    requires Kept(w) && Grows(w, next)
    requires forall id | id in next.files && next.files[id].RecordFile? ::
               (id in w.files && next.files[id] == w.files[id]) || RecordOk(next, id, next.files[id].record)
    requires forall d | d in next.calls ::
               (d in w.calls && next.calls[d] == w.calls[d]) || (d < next.nextCall && CallOk(next, next.calls[d]))
    ensures Kept(next)
  {
    hide RecordOk, CallOk;
    forall d | d in next.calls ensures d < next.nextCall && CallOk(next, next.calls[d]) {
      if d in w.calls && next.calls[d] == w.calls[d] { CallStaysOk(w, next, w.calls[d]); }
    }
    forall id | id in next.files && next.files[id].RecordFile? ensures RecordOk(next, id, next.files[id].record) {
      if id in w.files && w.files[id] == next.files[id] { RecordStaysOk(w, next, id, w.files[id].record); }
    }
  }

  lemma CreationRooted(history: seq<Config>, creation: Creation, id: string, preparedBy: Option<string>, now: int)
    requires |history| > 0 && CreationFits(history, creation) && PreparedByOk(preparedBy)
    requires CreateOf(creation, id, preparedBy, now).Made?
    ensures var r := CreateOf(creation, id, preparedBy, now).record;
            && r.base.approvalId == id && Sound(r) && Rooted(history, r.base)
            && r.state == Pending && r.createdAt == At(now) && r.approvedAt == NoStamp && r.approvedVia.None? && !r.IsChild()
  {
    match creation {
      case OfSend(input) => CreateSound(input, id, preparedBy, now);
      case OfChange(channel, change, policy) => CreateChangeSound(channel, change, policy, id, preparedBy, now);
      case OfDownload(channel, download, policy) => CreateDownloadSound(channel, download, policy, id, preparedBy, now);
      case OfStanding(standing, inboxSub, sendEpoch, standingEpoch) =>
        CreateStandingSound(standing, inboxSub, sendEpoch, standingEpoch, id, preparedBy, now);
      case OfDisclosure(disclosure) => CreateDisclosureSound(disclosure, id, preparedBy, now);
    }
    hide Sound, EverOwner;
  }

  // Every step keeps every record valid, rooted and vouched for.
  lemma StepKept(w: World, step: Step)
    requires Kept(w) && Enabled(w, step)
    ensures Kept(Apply(w, step))
  {
    hide Operation, Ready, JobFits, CreateOf;
    StepGrows(w, step);
    match step {
      case Advance(c, loads) => AdvanceKept(w, c, loads);
      case Make(id, creation, preparedBy) =>
        CreationRooted(w.history, creation, id, preparedBy, w.clock);
        hide Sound, EverOwner, SendEpochOf, IsApprovalId, BindsStanding, ViewOk;
        OthersKept(w, Apply(w, step));
      case Ask(id, job) => AskKept(w, id, job);
      case _ =>
        hide RecordOk;
        OthersKept(w, Apply(w, step));
    }
  }

  lemma AskKept(w: World, id: string, job: Job)
    requires Kept(w) && Enabled(w, Ask(id, job))
    ensures Kept(Apply(w, Ask(id, job)))
  {
    hide RecordOk, ActFits, PreparedByOk, Operation, Ready;
    var next := Apply(w, Ask(id, job));
    StepGrows(w, Ask(id, job));
    assert CallOk(next, next.calls[w.nextCall]);
    OthersKept(w, next);
  }
}
