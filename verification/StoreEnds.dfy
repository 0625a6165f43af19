/**
  What is over stays over: a claim is made only in reach of the configuration its call read, and a record that a locked
  look called expired or revoked is never claimed afterwards, whatever the configuration becomes.
  */
module StoreEnds {
  import opened Wrappers
  import opened Records
  import opened ApprovalBinding
  import opened ApprovalOutcome
  import opened ApprovalTransitions
  import opened RecordInvariant
  import opened RecordMoves
  import opened Decisions
  import opened Retention
  import opened StoreMachine
  import opened StoreFrames
  import opened StoreRecords
  import opened StoreLocks
  import opened StoreClaims

  // ---------- the configuration's history ----------

  ghost predicate EpochsOrdered(history: seq<Config>) {
    forall i, j, o: string | 0 <= i <= j < |history| ::
      SendEpochOf(history[i], o) <= SendEpochOf(history[j], o) && history[i].standingEpoch <= history[j].standingEpoch
  }

  // An owner known at a commit and missing from it is missing from every later one.
  ghost predicate RemovalsLast(history: seq<Config>) {
    forall i, j, o: string | 0 <= i <= j < |history| ::
      EverOwner(history[..i + 1], o) && o in history[j].owners ==> o in history[i].owners
  }

  ghost predicate HistoryOk(history: seq<Config>) {
    |history| > 0 && EpochsOrdered(history) && RemovalsLast(history)
  }

  lemma HistoryGrows(history: seq<Config>, config: Config)
    requires HistoryOk(history) && ConfigFits(history, config)
    ensures HistoryOk(history + [config])
  {
    var next := history + [config];
    var last := |history| - 1;
    forall i, j, o: string | 0 <= i <= j < |next|
      ensures SendEpochOf(next[i], o) <= SendEpochOf(next[j], o) && next[i].standingEpoch <= next[j].standingEpoch
    {
      if i < |history| { assert SendEpochOf(history[i], o) <= SendEpochOf(history[last], o); }
    }
    forall i, j, o: string | 0 <= i <= j < |next| && EverOwner(next[..i + 1], o) && o in next[j].owners
      ensures o in next[i].owners
    {
      if i < |history| {
        assert next[..i + 1] == history[..i + 1];
        if j == |history| {
          KnownLater(history, i, o);
          assert EverOwner(history[..i + 1], o) && o in history[last].owners;
        }
      }
    }
  }

  lemma KnownLater(history: seq<Config>, i: nat, o: string)
    requires i < |history| && EverOwner(history[..i + 1], o)
    ensures EverOwner(history, o)
  {
    var k :| 0 <= k <= i && o in history[..i + 1][k].owners;
    assert o in history[k].owners;
  }

  // What a commit put out of reach of a record made before it stays out of reach.
  lemma OutOfReachStays(history: seq<Config>, k: nat, j: nat, b: Base)
    requires HistoryOk(history) && k <= j < |history| && b.kind != DisclosureKind
    requires Rooted(history[..k + 1], b) && !InReach(b, history[k])
    ensures !InReach(b, history[j])
  {
    assert history[..k + 1][|history[..k + 1]| - 1] == history[k];
    assert SendEpochOf(history[k], b.inboxId) <= SendEpochOf(history[j], b.inboxId);
    assert EverOwner(history[..k + 1], b.inboxId) && b.inboxId in history[j].owners ==> b.inboxId in history[k].owners;
  }

  // ---------- claims are made in reach ----------

  predicate ClaimInReach(history: seq<Config>, claim: Claim) {
    && claim.readAt < |history|
    && AsPrepared(claim.act, claim.record.base) && Warranted(claim.record) && PastClaim(claim.record.state)
    && (claim.record.base.kind != DisclosureKind ==>
          InReach(claim.record.base, history[claim.readAt]) && Permits(history[claim.readAt], claim.record))
  }

  ghost predicate ClaimsReach(w: World) {
    Kept(w) && HistoryOk(w.history) && forall id | id in w.log.claims :: ClaimInReach(w.history, w.log.claims[id])
  }

  lemma InitIsReached(w: World)
    requires Init(w)
    ensures ClaimsReach(w)
  {
    InitIsKept(w);
  }

  lemma StepHistory(w: World, step: Step)
    requires HistoryOk(w.history) && Enabled(w, step)
    ensures HistoryOk(Apply(w, step).history) && w.history <= Apply(w, step).history
  {
    hide Operation, HistoryOk, CreateOf, ConfigFits;
    if step.Configure? {
      assert ConfigFits(w.history, step.next);
      HistoryGrows(w.history, step.next) by { NonEmptyHistory(w.history); }
    }
  }

  lemma NonEmptyHistory(history: seq<Config>)
    requires HistoryOk(history)
    ensures |history| > 0
  {
  }

  lemma StepReached(w: World, step: Step)
    requires ClaimsReach(w) && Enabled(w, step)
    ensures ClaimsReach(Apply(w, step))
  {
    hide Operation, HistoryOk, FilesOk, CallOk, InReach, Permits, AsPrepared, Warranted, EntersClaim, DecisionOf, CreateOf,
         Ready;
    StepKept(w, step);
    StepHistory(w, step);
    if step.Advance? {
      ClaimsAfter(w, step.c, step.loads);
      if EntersClaim(w.calls[step.c]) { EntryInReach(w, step.c); }
    }
  }

  lemma EntryInReach(w: World, c: nat)
    requires Kept(w) && c in w.calls && EntersClaim(w.calls[c])
    ensures ClaimInReach(w.history, ClaimOf(c, w.calls[c]))
  {
    hide InReach, Permits, AsPrepared, Warranted, FilesOk, CallOk, DecisionOf;
    EntryIsWarranted(w, w.calls[c]);
  }

  // ---------- readers ----------

  predicate HasRead(at: Point) {
    at.Configured? || at.Seen? || at.Settled?
  }

  // What a call's configuration is held against was made before that configuration was read.
  predicate ReaderRooted(w: World, call: Call) {
    HasRead(call.at) ==>
      && call.at.readAt < |w.history|
      && (call.id in w.files && w.files[call.id].RecordFile? ==>
            Rooted(w.history[..call.at.readAt + 1], w.files[call.id].record.base))
  }

  predicate ReadersRooted(w: World) {
    forall c | c in w.calls :: ReaderRooted(w, w.calls[c])
  }

  // A call reads its configuration once, and keeps what it read.
  lemma ReadsOnce(w: World, c: nat, loads: bool)
    requires |w.history| > 0 && c in w.calls
    ensures var e := Operation(w, c, loads);
            e.at.Some? && HasRead(e.at.value) ==>
              && e.at.value.readAt == (if HasRead(w.calls[c].at) then w.calls[c].at.readAt else |w.history| - 1)
              && (w.calls[c].at.Holding? ==> e.wrote.None?)
              && (HasRead(w.calls[c].at) || w.calls[c].at.Holding?)
  {
    hide Decide, MintChild, Decode, VerdictOf, Open, ParentProblem, ReadsParent, ActOf;
  }

  // A locked write leaves what its record was made with.
  lemma BaseStays(w: World, step: Step, id: string)
    requires Locked(w) && Enabled(w, step) && id in w.files && w.files[id].RecordFile?
    ensures id in Apply(w, step).files ==>
              Apply(w, step).files[id].RecordFile? && Apply(w, step).files[id].record.base == w.files[id].record.base
  {
    hide Operation, Locked, EntersClaim, CreateOf, Ready;
    if step.Advance? {
      WhereItWritesOk(w, step.c, step.loads);
      WriteMovesOnOk(w, step.c, step.loads);
    }
  }

  lemma NothingNew(w: World, step: Step, id: string)
    requires Locked(w) && Enabled(w, step) && id in w.made && id !in w.files
    ensures id !in Apply(w, step).files
  {
    hide Operation, Locked, EntersClaim, CreateOf, Ready;
    if step.Advance? {
      WhereItWritesOk(w, step.c, step.loads);
      WriteMovesOnOk(w, step.c, step.loads);
    }
  }

  // The same of a file no version-2 record is in: nothing writes one there.
  lemma OldFileStays(w: World, step: Step, id: string)
    requires Locked(w) && Enabled(w, step) && id in w.files && !w.files[id].RecordFile?
    ensures id in Apply(w, step).files ==> Apply(w, step).files[id] == w.files[id]
  {
    hide Operation, Locked, EntersClaim, CreateOf, Ready;
    if step.Advance? {
      WhereItWritesOk(w, step.c, step.loads);
      WriteMovesOnOk(w, step.c, step.loads);
    }
  }

  // A reader stays rooted while it keeps what it read and its file what it was made with.
  lemma ReaderStaysRooted(w: World, next: World, call: Call, moved: Call)
    requires ReaderRooted(w, call) && HasRead(call.at) && moved.id == call.id
    requires HasRead(moved.at) ==> moved.at.readAt == call.at.readAt
    requires w.history <= next.history
    requires call.id in next.files && next.files[call.id].RecordFile? ==>
               call.id in w.files && w.files[call.id].RecordFile?
               && next.files[call.id].record.base == w.files[call.id].record.base
    ensures ReaderRooted(next, moved)
  {
    hide Rooted;
    if HasRead(moved.at) {
      assert next.history[..moved.at.readAt + 1] == w.history[..call.at.readAt + 1];
    }
  }

  lemma FileKeepsBase(w: World, step: Step, id: string)
    requires Locked(w) && Enabled(w, step) && id in w.made
    ensures var files := Apply(w, step).files;
            id in files && files[id].RecordFile? ==>
              id in w.files && w.files[id].RecordFile? && files[id].record.base == w.files[id].record.base
  {
    hide Apply, Enabled, Locked;
    if id !in w.files { NothingNew(w, step, id); }
    else if w.files[id].RecordFile? { BaseStays(w, step, id); }
    else { OldFileStays(w, step, id); }
  }

  lemma StepReaders(w: World, step: Step)
    requires Locked(w) && HistoryOk(w.history) && ReadersRooted(w) && Enabled(w, step)
    ensures ReadersRooted(Apply(w, step))
  {
    var next := Apply(w, step);
    StepHistory(w, step);
    forall d | d in next.calls ensures ReaderRooted(next, next.calls[d]) {
      if d in w.calls { CallIsOk(w, d); FileKeepsBase(w, step, w.calls[d].id); OneReader(w, step, d); }
      else { NewCallReadsNothing(w, step, d); }
    }
  }

  lemma NewCallReadsNothing(w: World, step: Step, d: nat)
    requires Enabled(w, step) && d !in w.calls && d in Apply(w, step).calls
    ensures ReaderRooted(Apply(w, step), Apply(w, step).calls[d])
  {
    hide Operation, Rooted, CreateOf;
  }

  lemma OneReader(w: World, step: Step, d: nat)
    requires Locked(w) && ReadersRooted(w) && Enabled(w, step) && d in w.calls && d in Apply(w, step).calls
    requires w.history <= Apply(w, step).history && d < w.nextCall
    requires var files := Apply(w, step).files;
             var id := w.calls[d].id;
             id in files && files[id].RecordFile? ==>
               id in w.files && w.files[id].RecordFile? && files[id].record.base == w.files[id].record.base
    ensures ReaderRooted(Apply(w, step), Apply(w, step).calls[d])
  {
    hide Operation, Rooted, CreateOf, Locked, ReaderRooted, Ready;
    var next := Apply(w, step);
    assert ReaderRooted(w, w.calls[d]);
    assert next.calls[d].id == w.calls[d].id;
    if step.Advance? && step.c == d { ReadsOnce(w, d, step.loads); }
    if HasRead(w.calls[d].at) {
      ReaderStaysRooted(w, next, w.calls[d], next.calls[d]);
    } else if step.Advance? && step.c == d {
      if HasRead(next.calls[d].at) { FirstRead(w, next, next.calls[d]); } else { NotRead(next, next.calls[d]); }
    } else {
      NotRead(next, next.calls[d]);
    }
  }

  lemma NotRead(w: World, call: Call)
    requires !HasRead(call.at)
    ensures ReaderRooted(w, call)
  {
  }

  lemma FirstRead(w: World, next: World, call: Call)
    requires Locked(w) && HasRead(call.at) && call.at.readAt == |w.history| - 1
    requires w.history <= next.history
    requires call.id in next.files && next.files[call.id].RecordFile? ==>
               call.id in w.files && w.files[call.id].RecordFile?
               && next.files[call.id].record.base == w.files[call.id].record.base
    ensures ReaderRooted(next, call)
  {
    hide Rooted, Sound, Warranted, Vouched, CallsOk, OneHolder, AllFresh;
    assert next.history[..|w.history|] == w.history;
    assert call.id in w.files && w.files[call.id].RecordFile? ==> RecordOk(w, call.id, w.files[call.id].record);
  }

  // ---------- what a look said has ended ----------

  predicate EndedState(state: State) {
    state == Expired || state == Revoked
  }

  // Never claimed, and never to be: ended as it is stored, out of the configuration's reach for good, or deleted.
  predicate EndedFile(w: World, id: string)
    requires |w.history| > 0
  {
    && id in w.made && id !in w.log.claims
    && (id in w.files ==>
          && w.files[id].RecordFile?
          && var r := w.files[id].record;
             EndedState(r.state) || (r.Active() && r.base.kind != DisclosureKind && !InReach(r.base, Live(w))))
  }

  // No call that could still decide on it read a configuration it was in reach of.
  predicate ReadersEnded(w: World, id: string) {
    id in w.files && w.files[id].RecordFile? && w.files[id].record.Active() ==>
      forall c | c in w.calls && w.calls[c].id == id && HasRead(w.calls[c].at) ::
        w.calls[c].at.readAt < |w.history| && !InReach(w.files[id].record.base, w.history[w.calls[c].at.readAt])
  }

  predicate EndedAll(w: World)
    requires |w.history| > 0
  {
    && (forall id | id in w.log.ended :: EndedFile(w, id) && ReadersEnded(w, id))
    && (forall c | c in w.calls && w.calls[c].at.Leaving? && w.calls[c].at.ended :: EndedFile(w, w.calls[c].id))
  }

  ghost predicate Concluded(w: World) {
    Claimed(w) && HistoryOk(w.history) && ReadersRooted(w) && EndedAll(w)
  }

  // No call enters a claim of what a look ended.
  lemma EndedIsNotEntered(w: World, c: nat)
    requires Concluded(w) && c in w.calls && EntersClaim(w.calls[c])
    ensures w.calls[c].id !in w.log.ended
    ensures forall d | d in w.calls && w.calls[d].at.Leaving? && w.calls[d].at.ended :: w.calls[d].id != w.calls[c].id
    ensures !SaysEnded(w.calls[c].at.o)
  {
    hide EntersClaim, InReach, DecisionOf, Kept, AllFresh, ClaimsMatch, ClaimantsOk, ReturnsOk, HistoryOk, OpenRecord,
         CallOk, SaysEnded, OneHolder, PastClaim, Warranted, Permits, AsPrepared;
    var call := w.calls[c];
    CallIsOk(w, c);
    NoneLeavesBeside(w, c);
    EntryIsFirst(w, c);
    EntryIsWarranted(w, call);
    assert call.at.Settled? && call.at.o.Opened? by { EntersAtSettled(call); }
    if call.at.o.stored.base.kind == DisclosureKind {
      DisclosureSaysItself(w, call);
    } else {
      assert InReach(call.at.o.stored.base, w.history[call.at.readAt]);
      if SaysEnded(call.at.o) { SaysEndedMeans(w, call); }
    }
  }

  // Whoever enters a claim holds the lock alone.
  lemma NoneLeavesBeside(w: World, c: nat)
    requires Locked(w) && c in w.calls && EntersClaim(w.calls[c])
    ensures forall d | d in w.calls && w.calls[d].at.Leaving? :: w.calls[d].id != w.calls[c].id
  {
    hide Kept, AllFresh, EntersClaim;
    EntersAtSettled(w.calls[c]);
  }

  lemma EntersAtSettled(call: Call)
    requires EntersClaim(call)
    ensures call.at.Settled? && call.at.o.Opened? && call.at.looked
  {
  }

  lemma DisclosureSaysItself(w: World, call: Call)
    requires |w.history| > 0 && CallOk(w, call) && call.at.Settled? && call.at.o.stored.base.kind == DisclosureKind
    ensures SaysEnded(call.at.o) ==> EndedState(call.at.o.current.state)
  {
    hide RecordOk, Derive, ActOf, ExpectOf;
    DeriveKeeps(call.at.o.stored, call.at.now);
  }

  // What it is that says ended: the record as it is stored, or the configuration read under the lock.
  lemma SaysEndedMeans(w: World, call: Call)
    requires |w.history| > 0 && CallOk(w, call) && call.at.Settled? && SaysEnded(call.at.o)
    ensures call.at.readAt < |w.history|
    ensures var cur := call.at.o.current;
            || EndedState(cur.state)
            || (cur.Active() && cur.base.kind != DisclosureKind && !InReach(cur.base, w.history[call.at.readAt]))
  {
    hide OpenRecord, InReach, Warranted, Rooted, Vouched, JobFits, Sound;
    var at := call.at;
    EndedOrOutOfReach(at.o.stored, ActOf(call.job), at.config, at.now);
  }

  // An ended record's file after a step that claims nothing of it.
  lemma EndedFileStays(w: World, step: Step, id: string)
    requires Concluded(w) && Enabled(w, step) && EndedFile(w, id)
    requires step.Advance? && EntersClaim(w.calls[step.c]) ==> w.calls[step.c].id != id
    ensures EndedFile(Apply(w, step), id)
  {
    hide Operation, Kept, OneHolder, AllFresh, ClaimsMatch, ClaimantsOk, ReturnsOk, EntersClaim, InReach, HistoryOk,
         CreateOf, Ready, DecisionOf, ReadersRooted, EndedAll;
    var next := Apply(w, step);
    StepHistory(w, step);
    FileKeepsBase(w, step, id);
    if id in w.files && id in next.files { EndedRecordStays(w, step, id); }
    StepGrowsMade(w, step);
    if step.Advance? { ClaimsAfter(w, step.c, step.loads); }
    if id !in w.files { NothingNew(w, step, id); }
  }

  lemma StepGrowsMade(w: World, step: Step)
    requires Enabled(w, step)
    ensures w.made <= Apply(w, step).made
  {
    hide Operation, CreateOf, Ready;
  }

  lemma EndedRecordStays(w: World, step: Step, id: string)
    requires Concluded(w) && Enabled(w, step) && EndedFile(w, id) && id in w.files && id in Apply(w, step).files
    requires step.Advance? && EntersClaim(w.calls[step.c]) ==> w.calls[step.c].id != id
    ensures var next := Apply(w, step);
            && |next.history| > 0 && next.files[id].RecordFile?
            && var r := next.files[id].record;
               EndedState(r.state) || (r.Active() && r.base.kind != DisclosureKind && !InReach(r.base, Live(next)))
  {
    hide Operation, OneHolder, AllFresh, ClaimsMatch, ClaimantsOk, ReturnsOk, EntersClaim, InReach, HistoryOk,
         CreateOf, Ready, DecisionOf, ReadersRooted, EndedAll, RecordOk, CallsOk;
    var next := Apply(w, step);
    StepHistory(w, step);
    var b := w.files[id].record.base;
    if w.files[id].record.Active() {
      FileRooted(w, id);
      var last := |w.history| - 1;
      assert next.history[..last + 1] == w.history;
      OutOfReachStays(next.history, last, |next.history| - 1, b) by { NonEmptyNext(w, step); }
    }
    if step.Advance? {
      WhereItWritesOk(w, step.c, step.loads);
      WriteMovesOn(w, step.c, step.loads);
    }
  }

  lemma NonEmptyNext(w: World, step: Step)
    requires Enabled(w, step) && HistoryOk(w.history)
    ensures HistoryOk(Apply(w, step).history) && |Apply(w, step).history| >= |w.history| > 0
  {
    hide Operation, CreateOf, EpochsOrdered, RemovalsLast, ConfigFits;
    StepHistory(w, step);
  }

  lemma FileRooted(w: World, id: string)
    requires Kept(w) && id in w.files && w.files[id].RecordFile?
    ensures Rooted(w.history, w.files[id].record.base)
  {
    hide Rooted, Sound, Warranted, Vouched;
    assert RecordOk(w, id, w.files[id].record);
  }

  // A reader of an ended record keeps what it read, and a new one reads the configuration that ended it.
  lemma ReadersStayEnded(w: World, step: Step, id: string)
    requires Concluded(w) && Enabled(w, step) && EndedFile(w, id) && ReadersEnded(w, id)
    requires step.Advance? && EntersClaim(w.calls[step.c]) ==> w.calls[step.c].id != id
    ensures ReadersEnded(Apply(w, step), id)
  {
    hide Operation, OneHolder, AllFresh, ClaimsMatch, ClaimantsOk, ReturnsOk, EntersClaim, InReach, CreateOf, Ready,
         DecisionOf, ReadersRooted, EndedAll, RecordOk, FilesOk, CallOk, HistoryOk;
    var next := Apply(w, step);
    StepHistory(w, step);
    NonEmptyNext(w, step);
    FileKeepsBase(w, step, id);
    WasActive(w, step, id);
    if step.Advance? { ReadsOnce(w, step.c, step.loads); }
    assert forall k | 0 <= k < |w.history| :: next.history[k] == w.history[k];
  }

  lemma WasActive(w: World, step: Step, id: string)
    requires Concluded(w) && Enabled(w, step) && EndedFile(w, id)
    ensures var files := Apply(w, step).files;
            id in files && files[id].RecordFile? && files[id].record.Active() ==>
              id in w.files && w.files[id].RecordFile? && w.files[id].record.Active()
  {
    hide Operation, Kept, OneHolder, AllFresh, ClaimsMatch, ClaimantsOk, ReturnsOk, EntersClaim, InReach, CreateOf, Ready,
         ReadersRooted, EndedAll, HistoryOk;
    if id !in w.files { NothingNew(w, step, id); }
    if step.Advance? {
      WhereItWritesOk(w, step.c, step.loads);
      WriteMovesOn(w, step.c, step.loads);
    }
  }

  // While one call leaves with its lock, no other reads.
  lemma LeavingAlone(w: World, c: nat)
    requires Locked(w) && c in w.calls && w.calls[c].at.Leaving?
    ensures ReadersEnded(w, w.calls[c].id)
  {
    hide Kept, AllFresh, InReach;
  }

  lemma EndedAfter(w: World, c: nat, loads: bool)
    requires |w.history| > 0 && c in w.calls
    ensures var call := w.calls[c];
            var e := Operation(w, c, loads);
            && e.log.ended == (if call.at.Leaving? && call.at.ended then w.log.ended + {call.id} else w.log.ended)
            && (e.at.Some? && e.at.value.Leaving? && e.at.value.ended ==>
                  call.at.Settled? && call.at.o.Opened? && SaysEnded(call.at.o))
            && (call.at.Leaving? ==> e.wrote.None? && !e.unlinks && !e.minted)
  {
    hide Decide, MintChild, Decode, VerdictOf, Open, ParentProblem, ReadsParent, ActOf, SaysEnded;
  }

  // A call that says ended leaves a record that is.
  lemma SaidEndedIsEnded(w: World, c: nat, loads: bool)
    requires Concluded(w) && Enabled(w, Advance(c, loads))
    requires w.calls[c].at.Settled? && w.calls[c].at.o.Opened? && SaysEnded(w.calls[c].at.o)
    ensures |Apply(w, Advance(c, loads)).history| > 0
    ensures EndedFile(Apply(w, Advance(c, loads)), w.calls[c].id)
  {
    hide Concluded, Apply, Enabled, Operation, EntersClaim, SaysEnded, EndedFile;
    AdvanceNamesACall(w, c, loads);
    if EntersClaim(w.calls[c]) {
      EndedIsNotEntered(w, c);
      assert false;
    } else {
      EndedNow(w, c);
      EndedFileStays(w, Advance(c, loads), w.calls[c].id);
    }
  }

  lemma AdvanceNamesACall(w: World, c: nat, loads: bool)
    requires Enabled(w, Advance(c, loads))
    ensures |w.history| > 0 && c in w.calls && |Apply(w, Advance(c, loads)).history| > 0
  {
    hide Operation, Ready;
  }

  lemma EndedNow(w: World, c: nat)
    requires Concluded(w) && c in w.calls
    requires w.calls[c].at.Settled? && w.calls[c].at.o.Opened? && SaysEnded(w.calls[c].at.o)
    ensures EndedFile(w, w.calls[c].id)
  {
    hide InReach, SaysEnded, OneHolder, FilesOk, HistoryOk, DecisionOf, EndedAll, OpenRecord, Rooted, RecordOk;
    var call := w.calls[c];
    CallIsOk(w, c);
    SaysEndedMeans(w, call);
    assert ReaderRooted(w, call) && ClaimMatches(w, call.id);
    var cur := call.at.o.current;
    if cur.Active() {
      NonEmptyHistory(w.history);
      OutOfReachStays(w.history, call.at.readAt, |w.history| - 1, cur.base);
    }
  }

  lemma StepEnded(w: World, step: Step)
    requires Concluded(w) && Enabled(w, step)
    ensures |Apply(w, step).history| > 0 && EndedAll(Apply(w, step))
  {
    hide Operation, Claimed, HistoryOk, ReadersRooted, EntersClaim, InReach, SaysEnded, CreateOf, Ready, EndedFile,
         ReadersEnded;
    var next := Apply(w, step);
    NonEmptyNext(w, step);
    if step.Advance? {
      EndedAfter(w, step.c, step.loads);
      if EntersClaim(w.calls[step.c]) { EndedIsNotEntered(w, step.c); }
    }
    forall id | id in w.log.ended ensures EndedFile(next, id) && ReadersEnded(next, id) {
      EndedFileStays(w, step, id);
      ReadersStayEnded(w, step, id);
    }
    forall d | d in next.calls && next.calls[d].at.Leaving? && next.calls[d].at.ended
      ensures EndedFile(next, next.calls[d].id)
    {
      if step.Advance? && step.c == d {
        SaidEndedIsEnded(w, d, step.loads);
      } else {
        LeavingStays(w, step, d);
      }
    }
    if step.Advance? && w.calls[step.c].at.Leaving? && w.calls[step.c].at.ended {
      var id := w.calls[step.c].id;
      LeavingDoesNotEnter(w.calls[step.c]);
      EndedFileStays(w, step, id);
      LeavingAloneOk(w, step.c);
      ReadersStayEnded(w, step, id);
    }
  }

  lemma LeavingDoesNotEnter(call: Call)
    requires call.at.Leaving?
    ensures !EntersClaim(call)
  {
  }

  lemma LeavingAloneOk(w: World, c: nat)
    requires Concluded(w) && c in w.calls && w.calls[c].at.Leaving?
    ensures ReadersEnded(w, w.calls[c].id)
  {
    hide Locked, ReadersEnded, ClaimsMatch, ClaimantsOk, ReturnsOk, EndedAll;
    LeavingAlone(w, c);
  }

  lemma LeavingStays(w: World, step: Step, d: nat)
    requires Concluded(w) && Enabled(w, step) && d in Apply(w, step).calls && (step.Advance? ==> step.c != d)
    requires Apply(w, step).calls[d].at.Leaving? && Apply(w, step).calls[d].at.ended
    requires step.Advance? && EntersClaim(w.calls[step.c]) ==>
               forall d | d in w.calls && w.calls[d].at.Leaving? && w.calls[d].at.ended :: w.calls[d].id != w.calls[step.c].id
    ensures EndedFile(Apply(w, step), Apply(w, step).calls[d].id)
  {
    hide Operation, Claimed, HistoryOk, ReadersRooted, EntersClaim, InReach, CreateOf, Ready, EndedFile, ReadersEnded;
    EndedFileStays(w, step, w.calls[d].id);
  }

  lemma StepConcluded(w: World, step: Step)
    requires Concluded(w) && Enabled(w, step)
    ensures Concluded(Apply(w, step))
  {
    hide Apply, Claimed, HistoryOk, ReadersRooted, EndedAll;
    StepClaimed(w, step);
    StepHistory(w, step);
    ClaimedIsLocked(w);
    StepReaders(w, step);
    StepEnded(w, step);
  }

  lemma ClaimedIsLocked(w: World)
    requires Claimed(w)
    ensures Locked(w)
  {
    hide Locked;
  }

  lemma InitIsConcluded(w: World)
    requires Init(w) && w.exclusive
    ensures Concluded(w)
  {
    InitIsClaimed(w);
  }
}
