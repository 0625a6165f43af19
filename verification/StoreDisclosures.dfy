/**
  A standing disclosure's whole life in the store (packages/core/src/approvals.ts, `createDisclosure` to
  `claimForDisclosure`): prepared, its code issued, approved by that code, and claimed, as a run of the machine.
  */
module StoreDisclosures {
  import opened Wrappers
  import opened Records
  import opened ApprovalBinding
  import opened ApprovalOutcome
  import opened ApprovalTransitions
  import opened RecordInvariant
  import opened RecordMoves
  import opened Retention
  import opened StoreMachine
  import opened StoreFrames
  import opened StoreRecords
  import opened StoreRuns
  import opened StoreCalls
  import opened Texts

  // ---------- one call after another ----------

  // Every record in order, and no call inside a lock.
  predicate Quiet(w: World) {
    Kept(w) && forall c | c in w.calls :: !HoldsLock(w.calls[c].at)
  }

  lemma RestIsQuiet(w: World)
    requires Init(w)
    ensures Quiet(w) && w.markers == map[]
  {
    InitIsKept(w);
    hide Kept;
  }

  lemma {:induction false} AloneKeeps(w: World, c: nat, loads: bool)
    requires |w.history| > 0 && (c in w.calls ==> w.calls[c].job.Do?)
    ensures var last := Alone(w, c, loads);
            && last.history == w.history && last.clock == w.clock && last.made == w.made && last.nextCall == w.nextCall
            && last.calls == w.calls - {c}
    decreases if c in w.calls then 1 + ToGo(w.calls[c].at) else 0
  {
    if c in w.calls {
      OperationIsProgress(w, c, loads);
      DoesNotMint(w, c, loads);
      hide Operation;
      var next := Next(w, c, loads);
      AloneKeeps(next, c, loads);
      assert next.calls - {c} == w.calls - {c};
    }
  }

  lemma DoesNotMint(w: World, c: nat, loads: bool)
    requires |w.history| > 0 && c in w.calls && w.calls[c].job.Do?
    ensures !Operation(w, c, loads).minted
  {
    hide Decide, Decode, VerdictOf, Open, ParentProblem, ReadsParent;
  }

  lemma {:induction false} RunKept(w: World, steps: seq<Step>)
    requires Kept(w) && Legal(w, steps)
    ensures Kept(After(w, steps))
    decreases |steps|
  {
    hide Apply, Enabled, Kept;
    if steps != [] {
      StepKept(w, steps[0]);
      RunKept(Apply(w, steps[0]), steps[1..]);
    }
  }

  lemma {:induction false} RunThenRun(w: World, steps: seq<Step>, more: seq<Step>)
    requires Legal(w, steps) && Legal(After(w, steps), more)
    ensures Legal(w, steps + more) && After(w, steps + more) == After(After(w, steps), more)
    decreases |steps|
  {
    hide Apply, Enabled;
    if steps == [] {
      assert steps + more == more;
    } else {
      RunThenRun(Apply(w, steps[0]), steps[1..], more);
      assert (steps + more)[1..] == steps[1..] + more;
    }
  }

  // A world that a run from another reaches.
  ghost predicate Reaches(w: World, last: World) {
    exists steps :: Legal(w, steps) && After(w, steps) == last
  }

  lemma ReachesOn(a: World, b: World, c: World)
    requires Reaches(a, b) && Reaches(b, c)
    ensures Reaches(a, c)
  {
    hide Legal, After;
    var s :| Legal(a, s) && After(a, s) == b;
    var t :| Legal(b, t) && After(b, t) == c;
    RunThenRun(a, s, t);
  }

  lemma OneStepReaches(w: World, step: Step)
    requires Enabled(w, step)
    ensures Reaches(w, Apply(w, step))
  {
    hide Enabled, Apply;
    var next := Apply(w, step);
    assert Legal(next, []) && After(next, []) == next;
    assert [step][1..] == [] && Legal(w, [step]) && After(w, [step]) == next;
  }

  function Asked(w: World, id: string, act: Act): World {
    w.(calls := w.calls[w.nextCall := Call(id, Do(act), Asking)], nextCall := w.nextCall + 1)
  }

  // A whole call, asked and run to its end with no other in between.
  function Called(w: World, id: string, act: Act): World
    requires |w.history| > 0
  {
    Alone(Asked(w, id, act), w.nextCall, true)
  }

  // It is a run from any quiet world, leaves it quiet, and what it leaves is `CallOver` of what it found.
  lemma CallReaches(w: World, id: string, act: Act)
    requires Quiet(w) && id in w.made && ActFits(act)
    ensures var next := Called(w, id, act);
            var left := CallOver(Disk(w.files, w.markers), w.nextCall, id, act, Some(Live(w)), w.clock);
            && Reaches(w, next) && Quiet(next)
            && next.history == w.history && next.clock == w.clock && next.made == w.made
            && next.files == left.0.files && next.markers == left.0.markers
            && next.log.returned == w.log.returned + if left.1.Claimed? then [Return(id, w.nextCall)] else []
  {
    hide FilesOk, CallOk, Legal, After, Alone, CallOver, ActFits, StepsAlone, Operation;
    var asked := Asked(w, id, act);
    var c := w.nextCall;
    assert Enabled(w, Ask(id, Do(act))) && Apply(w, Ask(id, Do(act))) == asked;
    OneStepReaches(w, Ask(id, Do(act)));
    StepKept(w, Ask(id, Do(act)));
    AloneIsARun(asked, c, true);
    assert Reaches(asked, Called(w, id, act));
    ReachesOn(w, asked, Called(w, id, act));
    RunKept(asked, StepsAlone(asked, c, true));
    AloneKeeps(asked, c, true);
    FitsIsAsked(act);
    UninterruptedCall(asked, c, true);
  }

  lemma FitsIsAsked(act: Act)
    requires ActFits(act)
    ensures EarlyRefusal(act).None?
  {
  }

  // ---------- a disclosure ----------

  predicate IsDisclosureAct(act: Act) {
    act.IssueDisclosureChallenge? || act.ApproveDisclosure? || (act.ClaimForDisclosure? && act.deadlineMs.None?)
  }

  // On a disclosure that time has made nothing of, a call comes to its decision.
  lemma DisclosureCall(d: Disk, c: nat, id: string, r: Record, act: Act, config: Config, now: int)
    requires FoundIn(d.files, id) == Some(V2(r)) && IsDisclosureAct(act)
    requires r.base.kind == DisclosureKind && r.Active() && Derive(r, now) == r
    ensures CallOver(d, c, id, act, Some(config), now) ==
            EndOver(d, c, id, act, r, Decide(act, r, ClassifyDisclosure(r), GateOf(Some(config), r.base), None, now))
  {
    hide Derive, Decide, EndOver, FoundIn, LiveGateOf, ClassifyDisclosure;
    ActiveDisclosure(r);
    var o := Open(FoundIn(d.files, id), act, Some(config), now);
    assert o.Opened? && o.current == r && o.outcome == ClassifyDisclosure(r);
  }

  lemma ActiveDisclosure(r: Record)
    requires r.base.kind == DisclosureKind && r.Active()
    ensures ClassifyDisclosure(r).error.None? && !ClassifyDisclosure(r).revokes
  {
  }

  // The record at each stage of the life, all at one reading of the clock.
  function Prepared(binding: DisclosureBinding, id: string, preparedBy: Option<string>, now: int): Record {
    Bound(DisclosureBase(binding, id, preparedBy), now)
  }

  function Issued(r: Record, challenge: string): Record {
    r.(challengeHash := Some(CodeOf(challenge)))
  }

  function ApprovedAt(r: Record, digest: Digest, via: Via, now: int): Record {
    r.(state := Approved, approvedVia := Some(via), approvedAt := At(now), usableUntil := At(now + APPROVED_MS),
       approvedDigest := Some(digest), challengeHash := None)
  }

  lemma IssueIssues(binding: DisclosureBinding, id: string, preparedBy: Option<string>, challenge: string, now: int,
                    live: Option<LiveGate>)
    requires CreateDisclosure(binding, id, preparedBy, now).Made?
    ensures var r := Prepared(binding, id, preparedBy, now);
            && CreateDisclosure(binding, id, preparedBy, now).record == r
            && r.base.kind == DisclosureKind && r.Active() && Derive(r, now) == r
            && Decide(IssueDisclosureChallenge(challenge), r, ClassifyDisclosure(r), live, None, now)
               == Put(Issued(r, challenge), None)
  {
    hide CanonicalDisclosureBinding, BindingDigestOf;
  }

  // An accepted binding is the same as itself.
  lemma AcceptedIsItself(binding: DisclosureBinding)
    requires CanonicalDisclosureBinding(binding).Some?
    ensures SameDisclosureBinding(binding, binding)
  {
  }

  lemma ApproveApproves(binding: DisclosureBinding, id: string, preparedBy: Option<string>, challenge: string,
                        answer: string, via: Via, now: int, live: Option<LiveGate>)
    requires CreateDisclosure(binding, id, preparedBy, now).Made? && (via == Terminal || via == App)
    requires CodeOf(answer) == CodeOf(challenge)
    ensures var r := Issued(Prepared(binding, id, preparedBy, now), challenge);
            && r.base.kind == DisclosureKind && r.Active() && Derive(r, now) == r
            && Decide(ApproveDisclosure(binding, answer, via), r, ClassifyDisclosure(r), live, None, now)
               == Put(ApprovedAt(r, binding.digest, via, now), None)
  {
    AcceptedIsItself(binding);
    hide CanonicalDisclosureBinding, BindingDigestOf, SameDisclosureBinding;
  }

  lemma ClaimClaims(binding: DisclosureBinding, id: string, preparedBy: Option<string>, challenge: string, via: Via,
                    now: int, live: Option<LiveGate>)
    requires CreateDisclosure(binding, id, preparedBy, now).Made?
    ensures var r := ApprovedAt(Issued(Prepared(binding, id, preparedBy, now), challenge), binding.digest, via, now);
            && r.base.kind == DisclosureKind && r.Active() && Derive(r, now) == r
            && Decide(ClaimForDisclosure(binding, None), r, ClassifyDisclosure(r), live, None, now)
               == Put(r.(state := Used, usedAt := At(now)), None)
  {
    AcceptedIsItself(binding);
    hide CanonicalDisclosureBinding, BindingDigestOf, SameDisclosureBinding;
  }

  // What a disclosure's call leaves in a quiet world whose file is that disclosure.
  lemma DisclosureCallReaches(w: World, id: string, r: Record, act: Act, next: Record)
    requires Quiet(w) && id in w.made && ActFits(act) && IsDisclosureAct(act)
    requires id in w.files && w.files[id] == RecordFile(r) && id !in w.markers
    requires r.base.kind == DisclosureKind && r.Active() && Derive(r, w.clock) == r
    requires Decide(act, r, ClassifyDisclosure(r), GateOf(Some(Live(w)), r.base), None, w.clock) == Put(next, None)
    ensures var last := Called(w, id, act);
            && Reaches(w, last) && Quiet(last) && last.history == w.history && last.clock == w.clock && id in last.made
            && id in last.files && last.files[id] == RecordFile(next)
            && (!act.ClaimForDisclosure? ==> id !in last.markers)
            && last.log.returned == w.log.returned + if act.ClaimForDisclosure? then [Return(id, w.nextCall)] else []
  {
    hide Quiet, Decide, Derive, ClassifyDisclosure, CallOver, Called, FilesOk, CallsOk, Reaches, ActFits, Decode;
    QuietIsKept(w);
    CallReaches(w, id, act);
    RecordInFile(w, id, r);
    DisclosureCall(Disk(w.files, w.markers), w.nextCall, id, r, act, Live(w), w.clock);
  }

  lemma QuietIsKept(w: World)
    requires Quiet(w)
    ensures Kept(w)
  {
  }

  // Prepared for a binding, used once, by a person's decision given this way.
  predicate DisclosedOnce(w: World, id: string, binding: DisclosureBinding, via: Via) {
    && id in w.files && w.files[id].RecordFile?
    && var r := w.files[id].record;
       && r.base.kind == DisclosureKind && r.base.disclosure == Some(binding)
       && r.state == Used && r.approvedVia == Some(via) && r.approvedDigest == Some(binding.digest)
  }

  lemma MakeReaches(w: World, id: string, binding: DisclosureBinding, preparedBy: Option<string>)
    requires Quiet(w) && IsApprovalId(id) && id !in w.made && id !in w.files
    requires PreparedByOk(preparedBy) && CanonicalDisclosureBinding(binding).Some?
    ensures Enabled(w, Make(id, OfDisclosure(binding), preparedBy))
    ensures CreateDisclosure(binding, id, preparedBy, w.clock).Made?
    ensures var made := Apply(w, Make(id, OfDisclosure(binding), preparedBy));
            && Reaches(w, made) && Quiet(made) && id in made.made && made.markers == w.markers && made.log == w.log
            && made.clock == w.clock && made.history == w.history
            && id in made.files && made.files[id] == RecordFile(Prepared(binding, id, preparedBy, w.clock))
  {
    hide CanonicalDisclosureBinding, FilesOk, CallOk, Reaches, BindingDigestOf;
    var step := Make(id, OfDisclosure(binding), preparedBy);
    OneStepReaches(w, step);
    StepKept(w, step);
  }

  lemma UsedAtLast(w: World, used: World, id: string, binding: DisclosureBinding, preparedBy: Option<string>,
                   challenge: string, via: Via, now: int, c: nat)
    requires Reaches(w, used) && used.log.returned == w.log.returned + [Return(id, c)]
    requires var r := ApprovedAt(Issued(Prepared(binding, id, preparedBy, now), challenge), binding.digest, via, now);
             id in used.files && used.files[id] == RecordFile(r.(state := Used, usedAt := At(now)))
    ensures exists steps ::
              && Legal(w, steps) && DisclosedOnce(After(w, steps), id, binding, via)
              && exists c :: After(w, steps).log.returned == w.log.returned + [Return(id, c)]
  {
    hide Legal, After, BindingDigestOf;
    var steps :| Legal(w, steps) && After(w, steps) == used;
    assert DisclosedOnce(After(w, steps), id, binding, via);
  }

  // Reached from a world at the same instant, with this record in its file and nothing claimed on the way.
  ghost predicate StandsAs(start: World, w: World, id: string, r: Record) {
    && Quiet(w) && Reaches(start, w) && w.clock == start.clock && id in w.made
    && id in w.files && w.files[id] == RecordFile(r) && id !in w.markers && w.log.returned == start.log.returned
  }

  lemma IssueStands(start: World, w: World, id: string, binding: DisclosureBinding, preparedBy: Option<string>,
                    challenge: string) returns (next: World)
    requires StandsAs(start, w, id, Prepared(binding, id, preparedBy, start.clock))
    requires CreateDisclosure(binding, id, preparedBy, start.clock).Made?
    ensures StandsAs(start, next, id, Issued(Prepared(binding, id, preparedBy, start.clock), challenge))
  {
    hide Quiet, Derive, Decide, ClassifyDisclosure, Reaches, Called, CreateDisclosure, Prepared, GateOf;
    QuietIsKept(w);
    var r := Prepared(binding, id, preparedBy, start.clock);
    var act := IssueDisclosureChallenge(challenge);
    IssueIssues(binding, id, preparedBy, challenge, start.clock, GateOf(Some(Live(w)), r.base));
    DisclosureCallReaches(w, id, r, act, Issued(r, challenge));
    next := Called(w, id, act);
    ReachesOn(start, w, next);
  }

  lemma ApproveStands(start: World, w: World, id: string, binding: DisclosureBinding, preparedBy: Option<string>,
                      challenge: string, answer: string, via: Via) returns (next: World)
    requires CodeOf(answer) == CodeOf(challenge)
    requires StandsAs(start, w, id, Issued(Prepared(binding, id, preparedBy, start.clock), challenge))
    requires CreateDisclosure(binding, id, preparedBy, start.clock).Made? && (via == Terminal || via == App)
    ensures StandsAs(start, next, id, ApprovedAt(Issued(Prepared(binding, id, preparedBy, start.clock), challenge),
                                                 binding.digest, via, start.clock))
  {
    hide Quiet, Derive, Decide, ClassifyDisclosure, Reaches, Called, CreateDisclosure, Prepared, GateOf, Issued, ApprovedAt;
    QuietIsKept(w);
    var r := Issued(Prepared(binding, id, preparedBy, start.clock), challenge);
    var act := ApproveDisclosure(binding, answer, via);
    ApproveApproves(binding, id, preparedBy, challenge, answer, via, start.clock, GateOf(Some(Live(w)), r.base));
    DisclosureCallReaches(w, id, r, act, ApprovedAt(r, binding.digest, via, start.clock));
    next := Called(w, id, act);
    ReachesOn(start, w, next);
  }

  lemma ClaimReturns(start: World, w: World, id: string, binding: DisclosureBinding, preparedBy: Option<string>,
                     challenge: string, via: Via)
    requires CreateDisclosure(binding, id, preparedBy, start.clock).Made?
    requires StandsAs(start, w, id, ApprovedAt(Issued(Prepared(binding, id, preparedBy, start.clock), challenge),
                                               binding.digest, via, start.clock))
    ensures exists steps ::
              && Legal(start, steps) && DisclosedOnce(After(start, steps), id, binding, via)
              && exists c :: After(start, steps).log.returned == start.log.returned + [Return(id, c)]
  {
    hide Quiet, Derive, Decide, ClassifyDisclosure, Reaches, Called, CreateDisclosure, Prepared, GateOf, Issued, ApprovedAt,
         Legal, After, DisclosedOnce;
    QuietIsKept(w);
    var r := ApprovedAt(Issued(Prepared(binding, id, preparedBy, start.clock), challenge), binding.digest, via, start.clock);
    var act := ClaimForDisclosure(binding, None);
    ClaimClaims(binding, id, preparedBy, challenge, via, start.clock, GateOf(Some(Live(w)), r.base));
    DisclosureCallReaches(w, id, r, act, r.(state := Used, usedAt := At(start.clock)));
    ReachesOn(start, w, Called(w, id, act));
    UsedAtLast(start, Called(w, id, act), id, binding, preparedBy, challenge, via, start.clock, w.nextCall);
  }

  // Any accepted binding, under any id not yet used, in any store where no call is inside a lock: a run of the machine
  // prepares it, issues a code, approves it with that code, typed in any case, at the terminal or in the app, and claims
  // it, once.
  lemma ADisclosureIsUsed(w: World, id: string, binding: DisclosureBinding, preparedBy: Option<string>,
                          challenge: string, answer: string, via: Via)
    requires CodeOf(answer) == CodeOf(challenge)
    requires Quiet(w) && IsApprovalId(id) && id !in w.made && id !in w.files && id !in w.markers
    requires PreparedByOk(preparedBy) && CanonicalDisclosureBinding(binding).Some? && (via == Terminal || via == App)
    ensures exists steps ::
              && Legal(w, steps) && DisclosedOnce(After(w, steps), id, binding, via)
              && exists c :: After(w, steps).log.returned == w.log.returned + [Return(id, c)]
  {
    hide Quiet, Reaches, Legal, After, Apply, Enabled, CreateDisclosure, CanonicalDisclosureBinding, Prepared, DisclosedOnce,
         Issued, ApprovedAt;
    MakeReaches(w, id, binding, preparedBy);
    var made := Apply(w, Make(id, OfDisclosure(binding), preparedBy));
    var issued := IssueStands(w, made, id, binding, preparedBy, challenge);
    var approved := ApproveStands(w, issued, id, binding, preparedBy, challenge, answer, via);
    ClaimReturns(w, approved, id, binding, preparedBy, challenge, via);
  }

  // From a store at rest, then, the run theorems speak of disclosures too: one is used, and rests on the decision of the
  // person who approved it.
  lemma AUsedDisclosureHasItsPerson(w: World, id: string, binding: DisclosureBinding, challenge: string, via: Via)
    requires Init(w) && IsApprovalId(id) && id !in w.made
    requires CanonicalDisclosureBinding(binding).Some? && (via == Terminal || via == App)
    ensures exists steps ::
              && Legal(w, steps) && DisclosedOnce(After(w, steps), id, binding, via)
              && HasItsPerson(After(w, steps).log.people, After(w, steps).files[id].record)
  {
    RestIsQuiet(w);
    assert id !in w.files;
    hide Init, Quiet, Legal, After, CanonicalDisclosureBinding, HasItsPerson;
    ADisclosureIsUsed(w, id, binding, None, challenge, challenge, via);
    var steps :|
      && Legal(w, steps) && DisclosedOnce(After(w, steps), id, binding, via)
      && exists c :: After(w, steps).log.returned == w.log.returned + [Return(id, c)];
    NoActWithoutItsPerson(w, steps, id);
  }
}
