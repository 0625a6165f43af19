/**
  What the machine's history stands for: each thing it says happened is what a call did at that step, and a person is in
  it only who decided, by the code issued, for what was prepared.
  */
module StorePeople {
  import opened Wrappers
  import opened Records
  import opened ApprovalBinding
  import opened ApprovalValidate
  import opened ApprovalOutcome
  import opened ApprovalTransitions
  import opened Texts
  import opened RecordInvariant
  import opened RecordMoves
  import opened Decisions
  import opened Retention
  import opened StoreMachine
  import opened StoreFrames
  import opened StoreRecords
  import opened StoreClaims
  import opened StoreEnds
  import opened StoreRetention
  import opened StoreRuns

  // ---------- what each operation says ----------

  // An approval, a claim, an outcome: said where the decision that made it was written. A renewal says `go` where it found
  // the send under way, written or not.
  lemma DecisionIsSaid(w: World, c: nat)
    requires c in w.calls && w.calls[c].at.Settled? && w.calls[c].at.o.Opened?
    ensures var call := w.calls[c];
            var act := ActOf(call.job);
            var cur := call.at.o.current;
            var d := DecisionOf(call);
            var log := Finish(w, c, call).log;
            && log.goes == w.log.goes + (if act.Heartbeat? && cur.state == Sending then [Go(call.id, call.at.now)] else [])
            && log.outcomes == w.log.outcomes + (if act.Complete? && d.Put? then [Return(call.id, act.token)] else [])
            && log.claims == (if d.Put? && IsEntered(cur, d.next)
                              then w.log.claims[call.id := Claim(c, call.at.readAt, act, d.next)] else w.log.claims)
            && log.returned == w.log.returned && log.ended == w.log.ended && log.rows == w.log.rows
  {
    hide Decide, PersonOf, SaysEnded;
  }

  // From waiting or approved to under way or used.
  predicate IsEntered(cur: Record, next: Record) {
    && (next.state == Sending || next.state == Used || next.state == Failed || next.state == Unknown)
    && (cur.state == Pending || cur.state == Approved || cur.state == Expired || cur.state == Revoked)
  }

  // A claim's return is said once its marker is there; an ended record, as its lock goes; a row, before the unlink.
  lemma LeavingIsSaid(w: World, c: nat, loads: bool)
    requires |w.history| > 0 && c in w.calls
    ensures var call := w.calls[c];
            var log := Operation(w, c, loads).log;
            && (call.at.Returning? ==> log == w.log.(returned := w.log.returned + [Return(call.id, c)]))
            && (call.at.Leaving? ==> log == w.log.(ended := if call.at.ended then w.log.ended + {call.id} else w.log.ended))
            && (call.at.Judged? && VerdictOf(call.at.stored, call.at.now).Some? ==>
                  log == w.log.(rows := w.log.rows[call.id := VerdictOf(call.at.stored, call.at.now).value]))
            && (call.at.Settled? && call.at.o.Opened? && call.at.looked ==>
                  var next := Operation(w, c, loads).at;
                  next.Some? && next.value.Leaving?
                  && (next.value.ended <==> call.at.o.outcome.record.state == Expired || call.at.o.outcome.record.state == Revoked))
  {
    hide VerdictOf, Decide, MintChild, PersonOf, Decode, OpenRecord, ParentProblem, ReadsParent;
  }

  // ---------- who decided ----------

  // A person approved a record that waited: by its code, for the message it was prepared with, in a way the kind takes;
  // or answered its question; and it is their decision for that record's own binding.
  predicate DecidedOn(p: Person, act: Act, r: Record) {
    && p.id == r.base.approvalId && p.binding == BindingDigestOf(r.base) && r.state == Pending
    && match act
       case Approve(kind, via, draft, answer) =>
         && r.base.kind == kind && kind != DisclosureKind && p.via == via && p.answer.None?
         && (kind == ChangeKind ==> via == Terminal || via == App) && (kind == StandingKind ==> via == Terminal)
         && r.challengeHash == Some(CodeOf(answer))
         && draft.draftMessageId == r.base.draftMessageId && draft.contentDigest == r.base.contentDigest
       case ApproveDisclosure(binding, answer, channel) =>
         && r.base.kind == DisclosureKind && p.via == channel && (channel == Terminal || channel == App) && p.answer.None?
         && r.challengeHash == Some(CodeOf(answer))
       case AnswerDownload(via, saved) => r.base.kind == DownloadKind && p.via == via && p.answer == Some(saved)
       case _ => false
  }

  lemma PersonSaysSo(id: string, r: Record, act: Act, config: Option<Config>, problem: Option<string>, now: int, p: Person)
    requires Sound(r) && !AnomalousDisclosure(r, now) && r.base.approvalId == id && ActFits(act)
    requires MatchesRecord(r.base.kind, r.base.channel, r.base.inboxId, ExpectOf(act))
    requires var o := OpenRecord(r, act, config, now);
             var d := Decide(act, o.current, o.outcome, o.live, problem, now);
             d.Put? && p in PersonOf(id, act, d.next)
    ensures DecidedOn(p, act, r)
  {
    hide Sound, OpenRecord, AnomalousDisclosure, InWindow, BindingDigestOf, Decide, DecidedOn, PersonOf;
    OpenSound(r, act, config, now);
    OpenedActive(r, act, config, now);
    OpenKeeps(r, act, config, now);
    BoundAsMade(r);
    var o := OpenRecord(r, act, config, now);
    PersonDecides(id, o.current, o.outcome, o.live, act, problem, now, p);
    if o.current.Active() { DecidedOnTheSame(p, act, o.current, r); }
  }

  lemma DecidedOnTheSame(p: Person, act: Act, cur: Record, r: Record)
    requires DecidedOn(p, act, cur) && cur == r
    ensures DecidedOn(p, act, r)
  {
  }

  lemma PersonDecides(id: string, cur: Record, outcome: Outcome, live: Option<LiveGate>, act: Act, problem: Option<string>,
                      now: int, p: Person)
    requires Sound(cur) && cur.base.approvalId == id && cur.bindingDigest == BindingDigestOf(cur.base) && ActFits(act)
    requires ExpectOf(act).kind.Some? ==> ExpectOf(act).kind == Some(cur.base.kind)
    requires ActionOf(act) == Approving && outcome.error.None? ==> cur.Active()
    requires var d := Decide(act, cur, outcome, live, problem, now); d.Put? && p in PersonOf(id, act, d.next)
    ensures DecidedOn(p, act, cur) && cur.Active()
  {
    hide Sound, BindingDigestOf, DecideApprove, DecideApproveDisclosure, DecideAnswer, CodeOf, SameDisclosureBinding,
         DownloadDigest, AnswerDigest;
    DecisionKeepsBinding(act, cur, outcome, live, problem, now);
    match act {
      case Approve(kind, via, draft, answer) => ApprovedExactly(cur, outcome, live, kind, via, draft, answer, now);
      case ApproveDisclosure(binding, answer, channel) =>
        DisclosureApprovedExactly(cur, outcome, binding, answer, channel, now);
      case AnswerDownload(via, saved) => AnsweredExactly(cur, outcome, via, saved);
      case _ =>
    }
  }

  lemma BoundAsMade(r: Record)
    requires Sound(r)
    ensures r.bindingDigest == BindingDigestOf(r.base)
  {
    hide BindingDigestOf;
  }

  lemma DecisionKeepsBinding(act: Act, cur: Record, outcome: Outcome, live: Option<LiveGate>, problem: Option<string>, now: int)
    ensures var d := Decide(act, cur, outcome, live, problem, now);
            (act.Approve? || act.ApproveDisclosure? || act.AnswerDownload?) && d.Put? ==> d.next.bindingDigest == cur.bindingDigest
  {
    hide CodeOf, SameDisclosureBinding, DownloadDigest, AnswerDigest;
  }

  lemma NewPersonIsOfADecision(w: World, c: nat, loads: bool, p: Person)
    requires |w.history| > 0 && c in w.calls && p in Operation(w, c, loads).log.people && p !in w.log.people
    ensures var call := w.calls[c];
            && call.at.Settled? && call.at.o.Opened? && DecisionOf(call).Put?
            && p in PersonOf(call.id, ActOf(call.job), DecisionOf(call).next)
  {
    hide VerdictOf, Decide, MintChild, PersonOf, Decode, OpenRecord, ParentProblem, ReadsParent;
  }

  // Nobody is said to have decided but who did: in any run, whoever the next step adds decided so, on the record as their
  // call read it.
  lemma NobodyElseDecided(w: World, steps: seq<Step>, step: Step, p: Person)
    requires Init(w) && Legal(w, steps) && Enabled(After(w, steps), step)
    requires p !in After(w, steps).log.people && p in Apply(After(w, steps), step).log.people
    ensures var last := After(w, steps);
            && step.Advance? && step.c in last.calls
            && var call := last.calls[step.c];
               && call.at.Settled? && call.at.o.Opened? && call.job.Do? && p.id == call.id
               && DecidedOn(p, call.job.act, call.at.o.stored)
  {
    hide Init, Legal, After, RowsFirst, ClaimsReach, Safe, Marked, Operation, DecidedOn, ConfigFits, CreationFits,
         CreateOf, FilesOk;
    RunFromRest(w, steps);
    var last := After(w, steps);
    assert step.Advance?;
    NewPersonIsOfADecision(last, step.c, step.loads, p);
    var call := last.calls[step.c];
    assert CallOk(last, call);
    hide RecordOk;
    CallDecided(last, step.c, p);
  }

  lemma CallDecided(w: World, c: nat, p: Person)
    requires |w.history| > 0 && c in w.calls && CallOk(w, w.calls[c]) && w.calls[c].at.Settled? && w.calls[c].at.o.Opened?
    requires DecisionOf(w.calls[c]).Put? && p in PersonOf(w.calls[c].id, ActOf(w.calls[c].job), DecisionOf(w.calls[c]).next)
    ensures w.calls[c].job.Do? && p.id == w.calls[c].id && DecidedOn(p, w.calls[c].job.act, w.calls[c].at.o.stored)
  {
    var call := w.calls[c];
    var at := call.at;
    if call.job.Do? {
      PersonSaysSo(call.id, at.o.stored, call.job.act, at.config, at.problem, at.now, p);
    }
    hide DecidedOn, Decide, OpenRecord, Sound, MatchesRecord, ActFits, Warranted, Rooted, Vouched, AnomalousDisclosure;
  }
}
