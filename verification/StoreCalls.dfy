/**
  One call of the approval store, uninterrupted (packages/core/src/approvals.ts, `#transition` and what follows it), as a
  function of the files and markers it finds; and that it is what the machine's operations of that call come to.
  */
module StoreCalls {
  import opened Wrappers
  import opened Records
  import opened ApprovalBinding
  import opened ApprovalOutcome
  import opened ApprovalTransitions
  import opened RecordInvariant
  import opened RecordMoves
  import opened LookAndAct
  import opened Retention
  import opened StoreMachine
  import opened StoreFrames
  import opened StoreRecords

  datatype Disk = Disk(files: map<string, File>, markers: map<string, Marker>)

  // What a call comes to: refused, done with its record as it now stands, or claimed, with the claim's token.
  datatype Reply = Refused(code: ErrorCode) | Stands(record: Record) | Claimed(record: Record, token: nat)

  function FoundIn(files: map<string, File>, id: string): Option<Stored> {
    if id in files then Some(Decode(id, files[id])) else None
  }

  // What a look writes: the state reading derived, when it is another than the one stored.
  function AfterLook(files: map<string, File>, id: string, o: Opened): map<string, File> {
    if o.Opened? && o.current.state != o.stored.state then files[id := RecordFile(o.current)] else files
  }

  // What is opened is the record in the file; and where its state is the one stored, it is that record still.
  lemma StoredIsTheFile(files: map<string, File>, id: string, act: Act, config: Option<Config>, now: int)
    requires Open(FoundIn(files, id), act, config, now).Opened?
    ensures var o := Open(FoundIn(files, id), act, config, now);
            && id in files && files[id] == RecordFile(o.stored) && o == OpenRecord(o.stored, act, config, now)
            && (o.current.state == o.stored.state ==> o.current == o.stored)
  {
  }

  predicate TokenFits(markers: map<string, Marker>, id: string, act: Act) {
    TokenOf(act).Some? ==> id in markers && markers[id].token == TokenOf(act)
  }

  // A standing child's parent, opened as its claim opens it.
  function ParentIn(files: map<string, File>, child: Record, config: Option<Config>, now: int): Opened {
    if child.base.standingId.None? then Refusal(NotFound)
    else Open(FoundIn(files, child.base.standingId.value), ParentLook(child), config, now)
  }

  function AfterParent(files: map<string, File>, child: Record, config: Option<Config>, now: int): map<string, File> {
    if child.base.standingId.None? then files
    else AfterLook(files, child.base.standingId.value, ParentIn(files, child, config, now))
  }

  // The files a decision is made over, and what it is.
  datatype Decided = Decided(files: map<string, File>, o: Opened, decision: Decision)

  function DecideOver(files: map<string, File>, id: string, act: Act, config: Option<Config>, now: int): Decided {
    var o := Open(FoundIn(files, id), act, config, now);
    if o.Refusal? then Decided(files, o, Refuse(o.code))
    else
      var looked := AfterLook(files, id, o);
      if ReadsParent(act, o.current, o.outcome) then
        var problem := ParentProblem(o.current, ParentIn(looked, o.current, config, now));
        Decided(AfterParent(looked, o.current, config, now), o, Decide(act, o.current, o.outcome, o.live, problem, now))
      else
        Decided(looked, o, Decide(act, o.current, o.outcome, o.live, None, now))
  }

  // What a call is refused with before it decides anything, or the record as it opens it.
  function BeginOver(d: Disk, id: string, act: Act, config: Option<Config>, now: int): Opened {
    if EarlyRefusal(act).Some? then Refusal(EarlyRefusal(act).value)
    else
      var o := Open(FoundIn(d.files, id), act, config, now);
      if o.Opened? && !TokenFits(d.markers, id, act) then Refusal(Unexpected) else o
  }

  // What a call's decision leaves over the files it was made over, and what it answers.
  function EndOver(d: Disk, c: nat, id: string, act: Act, current: Record, decision: Decision): (Disk, Reply) {
    match decision
    case Refuse(code) => (d, Refused(code))
    case Keep => (d, Stands(current))
    case Put(next, failure) =>
      var written := d.(files := d.files[id := RecordFile(next)]);
      if failure.Some? then (written, Refused(failure.value))
      else if !IsClaimAct(act) then (written, Stands(next))
      else if id in d.markers then (written, Refused(ApprovalVoid))
      else (written.(markers := d.markers[id := MarkerOf(c, act)]), Claimed(next, c))
  }

  // The call `c` made over a disk: what it leaves, and what it answers.
  function CallOver(d: Disk, c: nat, id: string, act: Act, config: Option<Config>, now: int): (Disk, Reply) {
    var o := BeginOver(d, id, act, config, now);
    if o.Refusal? then (d, Refused(o.code))
    else
      var decided := DecideOver(d.files, id, act, config, now);
      EndOver(d.(files := decided.files), c, id, act, o.current, decided.decision)
  }

  // A send's marker holds its claim's token.
  function MarkerOf(c: nat, act: Act): Marker {
    Marker(c, if act.ClaimForSend? then Some(c) else None)
  }

  // ---------- a call alone is a run of the machine ----------

  // What is left of a call once it is at a point: each of its operations brings it nearer its end.
  function ToGo(at: Point): nat {
    match at
    case Asking => 10
    case Holding => 9
    case Configured(_, _) => 8
    case Seen(_, _, _, _) => 7
    case Settled(_, _, _, _, looked, _) => if looked then 5 else 6
    case Examined(_, _, _) => 8
    case Judged(_, _) => 7
    case Rowed(_, _) => 6
    case Unmarked(_, _) => 5
    case Leaving(_, _) => 4
    case Marking => 3
    case Writing => 2
    case Returning => 1
  }

  lemma OperationIsProgress(w: World, c: nat, loads: bool)
    requires |w.history| > 0 && c in w.calls
    ensures var e := Operation(w, c, loads); e.at.Some? ==> ToGo(e.at.value) < ToGo(w.calls[c].at)
  {
    hide Decide, MintChild, Decode, VerdictOf, Open, ParentProblem, ReadsParent, ActOf;
  }

  // The world once a call has run to its end, none of another's operations between its own.
  function Alone(w: World, c: nat, loads: bool): World
    requires |w.history| > 0
    decreases if c in w.calls then 1 + ToGo(w.calls[c].at) else 0
  {
    if c !in w.calls then w
    else
      OperationIsProgress(w, c, loads);
      Alone(Run(w, c, Operation(w, c, loads)), c, loads)
  }

  function Next(w: World, c: nat, loads: bool): World
    requires |w.history| > 0 && c in w.calls
  {
    Run(w, c, Operation(w, c, loads))
  }

  lemma AloneNext(w: World, c: nat, loads: bool)
    requires |w.history| > 0 && c in w.calls
    ensures Next(w, c, loads).history == w.history && Next(w, c, loads).clock == w.clock
    ensures Alone(w, c, loads) == Alone(Next(w, c, loads), c, loads)
  {
    hide Operation;
  }

  lemma AloneEnded(w: World, c: nat, loads: bool)
    requires |w.history| > 0 && c !in w.calls
    ensures Alone(w, c, loads) == w
  {
  }

  // The disk a call alone leaves, and whether it returned a claim.
  predicate Leaves(w: World, last: World, c: nat, files: map<string, File>, markers: map<string, Marker>, claimed: bool)
    requires c in w.calls
  {
    && last.files == files && last.markers == markers && c !in last.calls
    && last.log.returned == w.log.returned + if claimed then [Return(w.calls[c].id, c)] else []
  }

  lemma AloneFromWriting(w: World, c: nat, loads: bool)
    requires |w.history| > 0 && c in w.calls && w.calls[c].at.Writing? && w.calls[c].job.Do?
    requires w.calls[c].id in w.markers && w.markers[w.calls[c].id] == Marker(c, None)
    ensures Leaves(w, Alone(w, c, loads), c, w.files, w.markers[w.calls[c].id := MarkerOf(c, w.calls[c].job.act)], true)
  {
    hide Alone;
    var w1 := Next(w, c, loads);
    var w2 := Next(w1, c, loads);
    AloneNext(w, c, loads);
    AloneNext(w1, c, loads);
    AloneEnded(w2, c, loads);
    assert w1.markers == w.markers[w.calls[c].id := MarkerOf(c, w.calls[c].job.act)];
  }

  lemma AloneFromLeaving(w: World, c: nat, loads: bool)
    requires |w.history| > 0 && c in w.calls && w.calls[c].at.Leaving? && w.calls[c].job.Do?
    ensures var id := w.calls[c].id;
            var claims := w.calls[c].at.claimed && id !in w.markers;
            Leaves(w, Alone(w, c, loads), c, w.files,
                   if claims then w.markers[id := MarkerOf(c, w.calls[c].job.act)] else w.markers, claims)
  {
    hide Alone;
    var w1 := Next(w, c, loads);
    AloneNext(w, c, loads);
    if w.calls[c].at.claimed {
      var w2 := Next(w1, c, loads);
      AloneNext(w1, c, loads);
      if w.calls[c].id in w.markers {
        AloneEnded(w2, c, loads);
      } else {
        AloneFromWriting(w2, c, loads);
        var id := w.calls[c].id;
        assert w2.markers[id := MarkerOf(c, w.calls[c].job.act)] == w.markers[id := MarkerOf(c, w.calls[c].job.act)];
      }
    } else {
      AloneEnded(w1, c, loads);
    }
  }

  // A decision's writes, and the claim it goes on to.
  lemma AloneFromFinish(w: World, c: nat, loads: bool)
    requires |w.history| > 0 && c in w.calls && w.calls[c].job.Do?
    requires w.calls[c].at.Settled? && w.calls[c].at.o.Opened? && w.calls[c].at.looked
    ensures var call := w.calls[c];
            var d := DecisionOf(call);
            var claims := d.Put? && IsClaimAct(call.job.act) && PastClaim(d.next.state) && call.id !in w.markers;
            Leaves(w, Alone(w, c, loads), c, if d.Put? then w.files[call.id := RecordFile(d.next)] else w.files,
                   if claims then w.markers[call.id := MarkerOf(c, call.job.act)] else w.markers, claims)
  {
    hide Alone, DecisionOf, SaysEnded, PersonOf, PastClaim, IsClaimAct;
    var w1 := Next(w, c, loads);
    AloneNext(w, c, loads);
    AloneFromLeaving(w1, c, loads);
  }

  // A claim of a record that fails no check is past its claim; no other decision is.
  lemma ClaimsWithoutFailure(act: Act, cur: Record, outcome: Outcome, live: Option<LiveGate>, problem: Option<string>,
                             now: int)
    requires IsClaimAct(act)
    ensures var d := Decide(act, cur, outcome, live, problem, now);
            d.Put? ==> (d.failure.None? <==> PastClaim(d.next.state))
  {
    hide SameExpectation, SameDisclosureBinding, ChangeDigest, DownloadDigest, StricterPolicy;
  }

  lemma AloneFromSettled(w: World, c: nat, loads: bool)
    requires |w.history| > 0 && c in w.calls && w.calls[c].job.Do?
    requires w.calls[c].at.Settled? && w.calls[c].at.o.Opened? && !w.calls[c].at.looked
    ensures var call := w.calls[c];
            var child := call.at.o.current;
            var parent := ParentOpened(w, child);
            var files := if child.base.standingId.None? then w.files
                         else AfterLook(w.files, child.base.standingId.value, parent);
            var d := Decide(call.job.act, child, call.at.o.outcome, call.at.o.live, ParentProblem(child, parent), call.at.now);
            var claims := d.Put? && IsClaimAct(call.job.act) && PastClaim(d.next.state) && call.id !in w.markers;
            Leaves(w, Alone(w, c, loads), c, if d.Put? then files[call.id := RecordFile(d.next)] else files,
                   if claims then w.markers[call.id := MarkerOf(c, call.job.act)] else w.markers, claims)
  {
    hide Alone, Decide, ParentOpened, ParentProblem, PastClaim, IsClaimAct;
    var w1 := Next(w, c, loads);
    AloneNext(w, c, loads);
    AloneFromFinish(w1, c, loads);
  }

  lemma ParentNeedsConfig(r: Record, act: Act, config: Option<Config>, now: int)
    requires var o := OpenRecord(r, act, config, now); ReadsParent(act, o.current, o.outcome)
    requires r.base.kind != DisclosureKind
    ensures config.Some?
  {
  }

  // From an opened record on: the token, what reading derived, the decision and the claim.
  lemma AloneFromSeen(w: World, c: nat, loads: bool)
    requires |w.history| > 0 && c in w.calls && w.calls[c].job.Do?
    requires w.calls[c].at.Seen? && w.calls[c].at.o.Opened? && w.calls[c].at.now == w.clock
    requires var call := w.calls[c];
             ReadsParent(call.job.act, call.at.o.current, call.at.o.outcome) ==> call.at.config == Some(Live(w))
    ensures var call := w.calls[c];
            var o := call.at.o;
            var act := call.job.act;
            var looked := AfterLook(w.files, call.id, o);
            var asks := ReadsParent(act, o.current, o.outcome);
            var problem := if asks then ParentProblem(o.current, ParentIn(looked, o.current, call.at.config, w.clock)) else None;
            var files := if asks then AfterParent(looked, o.current, call.at.config, w.clock) else looked;
            var d := Decide(act, o.current, o.outcome, o.live, problem, w.clock);
            var claims := d.Put? && IsClaimAct(act) && PastClaim(d.next.state) && call.id !in w.markers;
            if !TokenFits(w.markers, call.id, act) then Leaves(w, Alone(w, c, loads), c, w.files, w.markers, false)
            else Leaves(w, Alone(w, c, loads), c, if d.Put? then files[call.id := RecordFile(d.next)] else files,
                        if claims then w.markers[call.id := MarkerOf(c, act)] else w.markers, claims)
  {
    hide Alone, Decide, Open, ParentProblem, PastClaim, IsClaimAct, ReadsParent, TokenOf;
    var w1 := Next(w, c, loads);
    AloneNext(w, c, loads);
    if !TokenFits(w.markers, w.calls[c].id, w.calls[c].job.act) {
      AloneFromLeaving(w1, c, loads);
    } else if ReadsParent(w.calls[c].job.act, w.calls[c].at.o.current, w.calls[c].at.o.outcome) {
      AloneFromSettled(w1, c, loads);
    } else {
      AloneFromFinish(w1, c, loads);
    }
  }

  // A call's operations, none of another's between them, come to exactly what the call does.
  lemma UninterruptedCall(w: World, c: nat, loads: bool)
    requires |w.history| > 0 && c in w.calls && w.calls[c].at.Asking? && w.calls[c].job.Do?
    requires EarlyRefusal(w.calls[c].job.act).None?
    ensures var config := if loads then Some(Live(w)) else None;
            var left := CallOver(Disk(w.files, w.markers), c, w.calls[c].id, w.calls[c].job.act, config, w.clock);
            Leaves(w, Alone(w, c, loads), c, left.0.files, left.0.markers, left.1.Claimed?)
  {
    hide Alone, Decide, OpenRecord, Decode, ParentProblem, PastClaim, IsClaimAct, ReadsParent, TokenOf, ParentIn,
         AfterParent, ExpectOf, MatchesRecord, Open, Leaves, EndOver, DecideOver, Operation;
    var call := w.calls[c];
    var config := if loads then Some(Live(w)) else None;
    var o := Open(FoundIn(w.files, call.id), call.job.act, config, w.clock);
    AloneFromAsking(w, c, loads);
    if o.Refusal? {
      LeavesRefused(w, c, loads);
    } else {
      LeavesSeen(w, c, loads);
    }
  }

  // The lock, the configuration and the file.
  function Read(w: World, c: nat, loads: bool): World
    requires |w.history| > 0 && c in w.calls && w.calls[c].job.Do?
  {
    var config := if loads then Some(Live(w)) else None;
    var o := Open(FoundIn(w.files, w.calls[c].id), w.calls[c].job.act, config, w.clock);
    w.(calls := w.calls[c := w.calls[c].(at := if o.Refusal? then Leaving(false, false)
                                                else Seen(config, |w.history| - 1, w.clock, o))])
  }

  lemma AloneFromAsking(w: World, c: nat, loads: bool)
    requires |w.history| > 0 && c in w.calls && w.calls[c].at.Asking? && w.calls[c].job.Do?
    ensures Alone(w, c, loads) == Alone(Read(w, c, loads), c, loads)
  {
    hide Alone, Open, Decode;
    var w1 := Next(w, c, loads);
    var w2 := Next(w1, c, loads);
    var w3 := Next(w2, c, loads);
    AloneNext(w, c, loads);
    AloneNext(w1, c, loads);
    AloneNext(w2, c, loads);
    assert w3 == Read(w, c, loads);
  }

  lemma LeavesRefused(w: World, c: nat, loads: bool)
    requires |w.history| > 0 && c in w.calls && w.calls[c].job.Do?
    requires Read(w, c, loads).calls[c].at.Leaving?
    ensures Leaves(w, Alone(Read(w, c, loads), c, loads), c, w.files, w.markers, false)
  {
    hide Alone, Open;
    AloneFromLeaving(Read(w, c, loads), c, loads);
  }

  lemma LeavesSeen(w: World, c: nat, loads: bool)
    requires |w.history| > 0 && c in w.calls && w.calls[c].job.Do? && EarlyRefusal(w.calls[c].job.act).None?
    requires Read(w, c, loads).calls[c].at.Seen?
    ensures var config := if loads then Some(Live(w)) else None;
            var left := CallOver(Disk(w.files, w.markers), c, w.calls[c].id, w.calls[c].job.act, config, w.clock);
            Leaves(w, Alone(Read(w, c, loads), c, loads), c, left.0.files, left.0.markers, left.1.Claimed?)
  {
    hide Alone, Decide, OpenRecord, Decode, ParentProblem, PastClaim, IsClaimAct, ReadsParent, TokenOf, ParentIn,
         AfterParent, ExpectOf, MatchesRecord, EndOver;
    var call := w.calls[c];
    var config := if loads then Some(Live(w)) else None;
    OpenedParent(w.files, call.id, call.job.act, config, w.clock);
    AloneFromSeen(Read(w, c, loads), c, loads);
    if TokenFits(w.markers, call.id, call.job.act) {
      CallOverOpened(Disk(w.files, w.markers), c, call.id, call.job.act, config, w.clock);
    }
  }

  lemma OpenedParent(files: map<string, File>, id: string, act: Act, config: Option<Config>, now: int)
    requires Open(FoundIn(files, id), act, config, now).Opened?
    ensures var o := Open(FoundIn(files, id), act, config, now); ReadsParent(act, o.current, o.outcome) ==> config.Some?
  {
    hide Decode;
    var o := Open(FoundIn(files, id), act, config, now);
    if ReadsParent(act, o.current, o.outcome) {
      ParentNeedsConfig(o.stored, act, config, now);
    }
  }

  // What a call over an opened record leaves, said as the machine's last operations say it.
  lemma CallOverOpened(d: Disk, c: nat, id: string, act: Act, config: Option<Config>, now: int)
    requires EarlyRefusal(act).None? && Open(FoundIn(d.files, id), act, config, now).Opened?
    requires TokenFits(d.markers, id, act)
    ensures var decided := DecideOver(d.files, id, act, config, now);
            var x := decided.decision;
            var claims := x.Put? && IsClaimAct(act) && PastClaim(x.next.state) && id !in d.markers;
            var left := CallOver(d, c, id, act, config, now);
            && left.0.files == (if x.Put? then decided.files[id := RecordFile(x.next)] else decided.files)
            && left.0.markers == (if claims then d.markers[id := MarkerOf(c, act)] else d.markers)
            && left.1.Claimed? == claims
  {
    hide Decide, Open, ParentProblem, PastClaim, ReadsParent, AfterParent, ParentIn, IsClaimAct, EndOver, TokenFits,
         EarlyRefusal;
    var o := Open(FoundIn(d.files, id), act, config, now);
    var looked := AfterLook(d.files, id, o);
    var problem := if ReadsParent(act, o.current, o.outcome)
                   then ParentProblem(o.current, ParentIn(looked, o.current, config, now)) else None;
    var decided := DecideOver(d.files, id, act, config, now);
    if IsClaimAct(act) { ClaimsWithoutFailure(act, o.current, o.outcome, o.live, problem, now); }
    EndsClaimed(d.(files := decided.files), c, id, act, o.current, decided.decision);
  }

  lemma EndsClaimed(d: Disk, c: nat, id: string, act: Act, current: Record, x: Decision)
    requires IsClaimAct(act) && x.Put? ==> (x.failure.None? <==> PastClaim(x.next.state))
    ensures var claims := x.Put? && IsClaimAct(act) && PastClaim(x.next.state) && id !in d.markers;
            var left := EndOver(d, c, id, act, current, x);
            && left.0.files == (if x.Put? then d.files[id := RecordFile(x.next)] else d.files)
            && left.0.markers == (if claims then d.markers[id := MarkerOf(c, act)] else d.markers)
            && left.1.Claimed? == claims
  {
    hide IsClaimAct, PastClaim, MarkerOf;
  }

  // ---------- and a run it is ----------

  ghost function StepsAlone(w: World, c: nat, loads: bool): seq<Step>
    requires |w.history| > 0
    decreases if c in w.calls then 1 + ToGo(w.calls[c].at) else 0
  {
    if c !in w.calls then []
    else
      OperationIsProgress(w, c, loads);
      [Advance(c, loads)] + StepsAlone(Next(w, c, loads), c, loads)
  }

  // No other call holds a lock.
  predicate OthersHoldNothing(w: World, c: nat) {
    forall d | d in w.calls && d != c :: !HoldsLock(w.calls[d].at)
  }

  // A use's standing approval is never the use itself.
  lemma ParentIsAnother(w: World, id: string, r: Record)
    requires |w.history| > 0 && RecordOk(w, id, r) && r.base.standingId.Some?
    ensures r.base.standingId.value != id
  {
  }

  lemma AloneIsReady(w: World, c: nat, loads: bool)
    requires Kept(w) && c in w.calls && OthersHoldNothing(w, c)
    ensures Ready(w, c) && OthersHoldNothing(Next(w, c, loads), c)
  {
    hide Operation, FilesOk, RecordOk;
    var at := w.calls[c].at;
    assert CallOk(w, w.calls[c]);
    if at.Settled? && at.o.current.base.standingId.Some? { ParentIsAnother(w, w.calls[c].id, at.o.current); }
  }

  // Where no other call holds a lock, a call alone is a run of the machine.
  lemma {:induction false} AloneIsARun(w: World, c: nat, loads: bool)
    requires Kept(w) && OthersHoldNothing(w, c)
    ensures Legal(w, StepsAlone(w, c, loads)) && After(w, StepsAlone(w, c, loads)) == Alone(w, c, loads)
    decreases if c in w.calls then 1 + ToGo(w.calls[c].at) else 0
  {
    if c in w.calls {
      AloneIsReady(w, c, loads);
      AdvanceKept(w, c, loads);
      OperationIsProgress(w, c, loads);
      hide Operation, Kept, Ready, OthersHoldNothing;
      AloneIsARun(Next(w, c, loads), c, loads);
      assert StepsAlone(w, c, loads)[1..] == StepsAlone(Next(w, c, loads), c, loads);
    }
  }

  // ---------- what a look foretells comes about ----------

  // What a use's claim asks of its standing approval as it reads: in force, and still covering the use.
  predicate StillCovers(parent: Opened, child: Record) {
    && child.base.standingId.Some? && child.base.standingUse.Some?
    && parent.Opened? && parent.outcome.error.None? && parent.outcome.record.state == Approved
    && parent.outcome.record.base.standing.Some?
    && Covers(parent.outcome.record.base.standing.value, parent.outcome.record.narrowed, child.base.standingUse.value)
  }

  // A record a look calls claimable, no marker yet, no call in the way, and for a use a standing approval that still
  // covers it: its matching claim returns.
  lemma ForetoldClaimReturns(w: World, c: nat, r: Record)
    requires Kept(w) && c in w.calls && w.calls[c].at.Asking? && w.calls[c].job.Do?
    requires var id := w.calls[c].id; id in w.files && w.files[id] == RecordFile(r) && id !in w.markers
    requires MatchingClaim(r, GateOf(Some(Live(w)), r.base)) == Some(w.calls[c].job.act)
    requires LooksClaimable(r, Some(Live(w)), w.clock)
    requires r.IsChild() ==> StillCovers(ParentIn(w.files, r, Some(Live(w)), w.clock), r)
    ensures Alone(w, c, true).log.returned == w.log.returned + [Return(w.calls[c].id, c)]
  {
    hide FilesOk, CallsOk, Alone, LooksClaimable, Claims, MatchingClaim, CallOver, GateOf, Sound, Decode, EarlyRefusal,
         TokenOf, IsClaimAct, MatchesRecord, ExpectOf, StillCovers, ParentIn;
    var call := w.calls[c];
    var act := call.job.act;
    var d := Disk(w.files, w.markers);
    RecordInFile(w, call.id, r);
    LookAgreesWithAct(r, Some(Live(w)), w.clock);
    MatchingClaimFits(r, act, GateOf(Some(Live(w)), r.base));
    UninterruptedCall(w, c, true);
    MatchingCallClaims(d, c, call.id, r, act, Some(Live(w)), w.clock);
  }

  lemma RecordInFile(w: World, id: string, r: Record)
    requires Kept(w) && id in w.files && w.files[id] == RecordFile(r)
    ensures Sound(r) && Decode(id, w.files[id]) == V2(r)
  {
    hide CallsOk;
    assert RecordOk(w, id, r);
    SoundDecodes(r, id);
  }

  // The matching claim is one its record expects, and it needs no token.
  lemma MatchingClaimFits(r: Record, act: Act, live: Option<LiveGate>)
    requires Sound(r) && MatchingClaim(r, live) == Some(act)
    ensures IsClaimAct(act) && EarlyRefusal(act).None? && TokenOf(act).None?
    ensures MatchesRecord(r.base.kind, r.base.channel, r.base.inboxId, ExpectOf(act))
  {
    hide Sound;
  }

  lemma MatchingCallClaims(d: Disk, c: nat, id: string, r: Record, act: Act, config: Option<Config>, now: int)
    requires FoundIn(d.files, id) == Some(V2(r)) && id !in d.markers && IsClaimAct(act) && Sound(r)
    requires EarlyRefusal(act).None? && TokenOf(act).None?
    requires MatchesRecord(r.base.kind, r.base.channel, r.base.inboxId, ExpectOf(act))
    requires LooksClaimable(r, config, now) && Claims(r, act, config, now)
    requires r.IsChild() ==> StillCovers(ParentIn(d.files, r, config, now), r)
    ensures CallOver(d, c, id, act, config, now).1.Claimed?
  {
    hide Decide, OpenRecord, MatchesRecord, EarlyRefusal, FoundIn, ParentIn, Sound, LooksClaimable, CallOver, ReadsParent,
         StillCovers, ParentProblem, IsClaimAct, DecideOver, TokenOf, ExpectOf;
    var o := OpenRecord(r, act, config, now);
    ClaimingSeesIt(r, act, config, now);
    CallOnAsStored(d, c, id, r, act, config, now);
    if ReadsParent(act, r, o.outcome) {
      ReadsOnlyForAUse(r, act, o.outcome);
      CoveredHasNoProblem(ParentIn(d.files, r, config, now), r);
    }
    ClaimsWithoutFailure(act, r, o.outcome, o.live, None, now);
  }

  // A call on a record that reads as it is stored.
  lemma CallOnAsStored(d: Disk, c: nat, id: string, r: Record, act: Act, config: Option<Config>, now: int)
    requires FoundIn(d.files, id) == Some(V2(r)) && EarlyRefusal(act).None? && TokenOf(act).None?
    requires MatchesRecord(r.base.kind, r.base.channel, r.base.inboxId, ExpectOf(act))
    requires OpenRecord(r, act, config, now).current == r && OpenRecord(r, act, config, now).stored == r
    ensures var o := OpenRecord(r, act, config, now);
            var problem := if ReadsParent(act, r, o.outcome)
                           then ParentProblem(r, ParentIn(d.files, r, config, now)) else None;
            CallOver(d, c, id, act, config, now) ==
            EndOver(d.(files := DecideOver(d.files, id, act, config, now).files), c, id, act, r,
                    Decide(act, r, o.outcome, o.live, problem, now))
  {
    hide Decide, OpenRecord, MatchesRecord, EarlyRefusal, FoundIn, ParentIn, AfterParent, ReadsParent, ParentProblem,
         EndOver, TokenOf;
  }

  lemma CoveredHasNoProblem(parent: Opened, child: Record)
    ensures ParentProblem(child, parent).None? <==> StillCovers(parent, child)
  {
    hide Covers;
  }

  lemma ClaimingSeesIt(r: Record, act: Act, config: Option<Config>, now: int)
    requires Sound(r) && IsClaimAct(act) && LooksClaimable(r, config, now)
    ensures var o := OpenRecord(r, act, config, now); o.current == r && o.stored == r
  {
    LookAndClaimSeeTheSame(r, act, config, now);
    hide Sound, LooksClaimable;
  }

  lemma ReadsOnlyForAUse(r: Record, act: Act, outcome: Outcome)
    requires ReadsParent(act, r, outcome) && MatchesRecord(r.base.kind, r.base.channel, r.base.inboxId, ExpectOf(act))
    ensures r.IsChild()
  {
  }

  // A use whose standing approval has ended, cannot be read, or no longer covers it is voided by any claim that is not
  // refused for itself: what was a look's claimable is stored as revoked, and no marker is made.
  lemma UncoveredUseIsVoid(d: Disk, c: nat, id: string, r: Record, act: Act, config: Option<Config>, now: int)
    requires FoundIn(d.files, id) == Some(V2(r)) && Sound(r) && r.IsChild() && LooksClaimable(r, config, now)
    requires act.ClaimForSend? && !act.cancelled && act.inboxId == r.base.inboxId
    requires !StillCovers(ParentIn(d.files, r, config, now), r)
    ensures var left := CallOver(d, c, id, act, config, now);
            && left.1 == Refused(ApprovalVoid) && left.0.markers == d.markers
            && id in left.0.files && left.0.files[id].RecordFile?
            && left.0.files[id].record.state == Revoked && left.0.files[id].record.base == r.base
  {
    hide OpenRecord, FoundIn, ParentIn, Sound, LooksClaimable, StillCovers, ParentProblem, CallOver, DecideOver,
         SameExpectation;
    var o := OpenRecord(r, act, config, now);
    LookAndClaimSeeTheSame(r, act, config, now);
    ClaimingSeesIt(r, act, config, now);
    UseIsApproved(r);
    CallOnAsStored(d, c, id, r, act, config, now);
    CoveredHasNoProblem(ParentIn(d.files, r, config, now), r);
  }

  lemma UseIsApproved(r: Record)
    requires Sound(r) && r.IsChild() && r.Active()
    ensures r.state == Approved && r.base.standingId.Some? && r.base.standingUse.Some?
  {
  }
}
