/**
  What the record lock gives: while a call holds it, its record's file is what the call last read or wrote.
  */
module StoreLocks {
  import opened Wrappers
  import opened Records
  import opened ApprovalBinding
  import opened ApprovalValidate
  import opened ApprovalOutcome
  import opened ApprovalTransitions
  import opened RecordInvariant
  import opened RecordMoves
  import opened Retention
  import opened StoreMachine
  import opened StoreFrames
  import opened StoreRecords

  predicate OneHolder(w: World) {
    forall c, d | c in w.calls && d in w.calls && HoldsLock(w.calls[c].at) && HoldsLock(w.calls[d].at)
                  && w.calls[c].id == w.calls[d].id :: c == d
  }

  // The file is what the call between its two operations takes it to be.
  predicate Fresh(files: map<string, File>, call: Call) {
    match call.at
    case Seen(_, _, _, o) => o.Opened? && call.id in files && files[call.id] == RecordFile(o.stored)
    case Settled(_, _, _, o, _, _) => o.Opened? && call.id in files && files[call.id] == RecordFile(o.current)
    case Examined(now, before, after) =>
      && call.id in files && before == Decode(call.id, files[call.id])
      && after == (if before.V2? then V2(Derive(before.record, now)) else before)
    case Judged(_, stored) => call.id in files && stored == Decode(call.id, files[call.id])
    case Rowed(_, stored) => call.id in files && stored == Decode(call.id, files[call.id])
    case Unmarked(_, stored) => call.id in files && stored == Decode(call.id, files[call.id])
    case _ => true
  }

  predicate AllFresh(w: World) {
    forall c | c in w.calls :: Fresh(w.files, w.calls[c])
  }

  predicate Locked(w: World) {
    w.exclusive && Kept(w) && OneHolder(w) && AllFresh(w)
  }

  lemma InitIsLocked(w: World)
    requires Init(w) && w.exclusive
    ensures Locked(w)
  {
  }

  // ---------- nobody writes under another's lock ----------

  // Where an operation may write: its own record under its lock, a standing approval whose lock is free, or an id
  // nothing was made under.
  lemma WhereItWrites(w: World, c: nat, loads: bool)
    requires Kept(w) && c in w.calls && Ready(w, c) && w.exclusive
    ensures var e := Operation(w, c, loads);
            && (e.wrote.Some? ==>
                  || (e.wrote.value.id == w.calls[c].id && HoldsLock(w.calls[c].at) && !e.minted)
                  || (LockFree(w, e.wrote.value.id) && !e.minted && e.wrote.value.id in w.files)
                  || (e.wrote.value.id !in w.made && e.minted && e.wrote.value.id !in w.files))
            && (e.unlinks ==> HoldsLock(w.calls[c].at))
            && (e.marking.MarkerGoes? ==> HoldsLock(w.calls[c].at))
  {
    hide Decide, MintChild, Decode, VerdictOf, OpenRecord, ParentProblem, ReadsParent, LockFree, RecordOk;
    assert CallOk(w, w.calls[c]);
  }

  lemma HeldFileStays(w: World, step: Step, d: nat)
    requires Locked(w) && Enabled(w, step) && d in w.calls && HoldsLock(w.calls[d].at)
    requires step.Advance? ==> step.c != d
    ensures var id := w.calls[d].id;
            && (id in Apply(w, step).files <==> id in w.files)
            && (id in w.files ==> Apply(w, step).files[id] == w.files[id])
  {
    hide Operation, RecordOk, ViewOk, CreateOf, JobFits, Ready;
    assert CallOk(w, w.calls[d]);
    if step.Advance? { WhereItWrites(w, step.c, step.loads); }
  }

  // ---------- a step ----------

  // The lock is held from `Asking` on, and taken only where it is free.
  lemma LockOperation(w: World, c: nat, loads: bool)
    requires |w.history| > 0 && c in w.calls
    ensures var e := Operation(w, c, loads);
            e.at.Some? && HoldsLock(e.at.value) ==> HoldsLock(w.calls[c].at) || w.calls[c].at.Asking?
  {
    hide Decide, MintChild, Decode, VerdictOf, Open, ParentProblem, ReadsParent;
  }

  lemma StepOneHolder(w: World, step: Step)
    requires Locked(w) && Enabled(w, step)
    ensures OneHolder(Apply(w, step))
  {
    hide Operation, Kept, AllFresh, CreateOf;
    if step.Advance? { LockOperation(w, step.c, step.loads); }
  }

  lemma UnchangedStateIsUnchanged(r: Record, act: Act, config: Option<Config>, now: int)
    ensures var o := OpenRecord(r, act, config, now); o.current.state == r.state ==> o.current == r
    ensures Derive(r, now).state == r.state ==> Derive(r, now) == r
  {
  }

  lemma OkDecodes(w: World, id: string, r: Record)
    requires |w.history| > 0 && RecordOk(w, id, r)
    ensures Decode(id, RecordFile(r)) == V2(r)
  {
    SoundDecodes(r, id);
  }

  lemma OperationIsFresh(w: World, c: nat, loads: bool)
    requires Locked(w) && c in w.calls && Ready(w, c)
    ensures var e := Operation(w, c, loads);
            e.at.Some? ==> Fresh(Run(w, c, e).files, w.calls[c].(at := e.at.value))
  {
    hide RecordOk, Decide, MintChild, VerdictOf, OpenRecord, ReadsParent, Derive, Decode, Finish, Mint, ReadParent, ActOf,
         TokenOf, HoldsClaim;
    var call := w.calls[c];
    assert CallOk(w, call) && Fresh(w.files, call);
    match call.at {
      case Configured(_, _) => ReadFileIsFresh(w, call);
      case Seen(config, _, now, o) => UnchangedStateIsUnchanged(o.stored, ActOf(call.job), config, now);
      case Settled(_, _, _, o, _, _) => SettledIsFresh(w, c, loads);
      case Examined(now, before, after) =>
        if before.V2? {
          UnchangedStateIsUnchanged(before.record, Inspect(Inspecting, Expect(None, None, None)), None, now);
          OkDecodes(w, call.id, after.record);
        }
      case _ =>
    }
  }

  lemma ReadFileIsFresh(w: World, call: Call)
    requires Locked(w) && call.at.Configured?
    ensures Fresh(w.files, call.(at := ReadFile(w, call).at.value))
  {
    hide Classify, Derive, Persists, ValidateV2, Kept, AllFresh, OneHolder;
  }

  lemma SettledIsFresh(w: World, c: nat, loads: bool)
    requires Locked(w) && c in w.calls && Ready(w, c) && w.calls[c].at.Settled?
    ensures var e := Operation(w, c, loads);
            e.at.Some? ==> Fresh(Run(w, c, e).files, w.calls[c].(at := e.at.value))
  {
    hide RecordOk, Decide, MintChild, OpenRecord, Decode;
    assert CallOk(w, w.calls[c]) && Fresh(w.files, w.calls[c]);
  }

  lemma StepFresh(w: World, step: Step)
    requires Locked(w) && Enabled(w, step)
    ensures AllFresh(Apply(w, step))
  {
    hide Operation, FilesOk, CallOk, CreateOf, JobFits, Ready, Fresh, OneHolder;
    var next := Apply(w, step);
    forall d | d in next.calls ensures Fresh(next.files, next.calls[d]) {
      if step.Advance? && d == step.c {
        OperationIsFresh(w, step.c, step.loads);
      } else if d in w.calls && HoldsLock(w.calls[d].at) {
        HeldFileStays(w, step, d);
        assert Fresh(next.files, next.calls[d]) by { FreshElsewhere(w.files, next.files, w.calls[d]); }
      } else {
        LocklessIsFresh(next.files, next.calls[d]);
      }
    }
  }

  lemma FreshElsewhere(files: map<string, File>, next: map<string, File>, call: Call)
    requires Fresh(files, call)
    requires call.id in next <==> call.id in files
    requires call.id in files ==> next[call.id] == files[call.id]
    ensures Fresh(next, call)
  {
    hide Decode, Derive;
  }

  lemma LocklessIsFresh(files: map<string, File>, call: Call)
    requires !HoldsLock(call.at)
    ensures Fresh(files, call)
  {
    hide Decode, Derive;
  }

  lemma StepLocked(w: World, step: Step)
    requires Locked(w) && Enabled(w, step)
    ensures Locked(Apply(w, step))
  {
    hide Kept, OneHolder, AllFresh, Operation, CreateOf, Ready;
    StepKept(w, step);
    StepOneHolder(w, step);
    StepFresh(w, step);
  }
}
