/**
  Retention is safe wherever it is cut: nothing is unlinked before its row is there, and what is deleted is, under its
  lock, a valid finished record (or an earlier release's used one) ninety days past its finish.
  */
module StoreRetention {
  import opened Wrappers
  import opened Records
  import opened ApprovalValidate
  import opened ApprovalOutcome
  import opened ApprovalTransitions
  import opened RecordInvariant
  import opened Retention
  import opened StoreMachine
  import opened StoreFrames
  import opened StoreRecords
  import opened StoreLocks

  // ---------- a row first, in every interleaving ----------

  predicate Deleting(at: Point) {
    at.Rowed? || at.Unmarked?
  }

  predicate RowsFirst(w: World) {
    && (forall id | id in w.made :: id in w.files || id in w.log.rows)
    && (forall c | c in w.calls && Deleting(w.calls[c].at) :: w.calls[c].id in w.log.rows)
    && (forall id | id in w.log.rows :: w.log.rows[id].finishedAt + RETENTION_MS <= w.clock)
  }

  predicate RowsKept(w: World) {
    Kept(w) && RowsFirst(w)
  }

  lemma InitIsRowed(w: World)
    requires Init(w)
    ensures RowsKept(w)
  {
    InitIsKept(w);
  }

  // What an operation says of retention, and what it unlinks.
  lemma RetentionOperation(w: World, c: nat, loads: bool)
    requires |w.history| > 0 && c in w.calls
    ensures var call := w.calls[c];
            var e := Operation(w, c, loads);
            && (e.log.rows == w.log.rows
                || (call.at.Judged? && VerdictOf(call.at.stored, call.at.now).Some?
                    && e.log.rows == w.log.rows[call.id := VerdictOf(call.at.stored, call.at.now).value]))
            && (e.unlinks ==> call.at.Unmarked? && e.wrote.None?)
            && (e.marking.MarkerGoes? ==> call.at.Rowed? || (call.at.Holding? && call.id !in w.files))
            && (e.at.Some? && Deleting(e.at.value) ==>
                  (Deleting(call.at) && e.log.rows == w.log.rows
                   && e.at.value.stored == call.at.stored && e.at.value.now == call.at.now)
                  || (call.at.Judged? && VerdictOf(call.at.stored, call.at.now).Some?
                      && e.log.rows == w.log.rows[call.id := VerdictOf(call.at.stored, call.at.now).value]
                      && e.at.value.stored == call.at.stored && e.at.value.now == call.at.now))
  {
    hide VerdictOf, Decode, ReadFile, Settle, ReadParent, Finish, Mint, Examine, SettleDerived, CreateMarker, WriteToken,
         AnswerCaller, Unlock;
    var call := w.calls[c];
    if call.at.Settled? && call.at.o.Opened? { DecisionsRetainNothing(w, c, loads); }
    LooksRetainNothing(w, c, loads);
  }

  lemma DecisionsRetainNothing(w: World, c: nat, loads: bool)
    requires |w.history| > 0 && c in w.calls && w.calls[c].at.Settled? && w.calls[c].at.o.Opened?
    ensures var e := Operation(w, c, loads);
            && e.log.rows == w.log.rows && !e.unlinks && e.marking.MarkerStays?
            && (e.at.Some? ==> !Deleting(e.at.value))
  {
    hide Decide, MintChild, Decode, Open, ParentProblem, ReadsParent, ActOf, DecisionOf, SaysEnded, PersonOf, ParentOpened;
  }

  lemma LooksRetainNothing(w: World, c: nat, loads: bool)
    requires |w.history| > 0 && c in w.calls
    ensures var call := w.calls[c];
            var e := Operation(w, c, loads);
            !call.at.Settled? && !call.at.Judged? && !Deleting(call.at) ==>
              && e.log.rows == w.log.rows && !e.unlinks && (e.at.Some? ==> !Deleting(e.at.value))
              && (e.marking.MarkerGoes? ==> call.at.Holding? && call.id !in w.files)
  {
    hide Decode, Open, TokenOf, HoldsClaim, Derive, ActOf, ReadsParent, Finish, Mint, ReadParent, AppendRow;
  }

  lemma VerdictIsDue(stored: Stored, now: int)
    ensures var row := VerdictOf(stored, now); row.Some? ==> row.value.finishedAt + RETENTION_MS <= now
  {
  }

  lemma StepRowed(w: World, step: Step)
    requires RowsKept(w) && Enabled(w, step)
    ensures RowsKept(Apply(w, step))
  {
    hide Operation, FilesOk, ViewOk, CreateOf, Ready, JobFits, VerdictOf;
    StepKept(w, step);
    if step.Advance? {
      RetentionOperation(w, step.c, step.loads);
      JudgedBefore(w, step.c);
    }
  }

  lemma JudgedBefore(w: World, c: nat)
    requires Kept(w) && c in w.calls
    ensures w.calls[c].at.Judged? ==>
              var row := VerdictOf(w.calls[c].at.stored, w.calls[c].at.now);
              row.Some? ==> row.value.finishedAt + RETENTION_MS <= w.clock
  {
    hide FilesOk, StoredOk, VerdictOf;
    if w.calls[c].at.Judged? {
      assert CallOk(w, w.calls[c]);
      VerdictIsDue(w.calls[c].at.stored, w.calls[c].at.now);
    }
  }

  // A marker goes only with its record's row there.
  lemma MarkersGoAfterRows(w: World, step: Step, id: string)
    requires RowsKept(w) && Enabled(w, step) && id in w.markers && id !in Apply(w, step).markers
    ensures id in w.log.rows
  {
    hide Operation, FilesOk, ViewOk, CreateOf, Ready, JobFits, VerdictOf;
    if step.Advance? {
      RetentionOperation(w, step.c, step.loads);
      assert CallOk(w, w.calls[step.c]);
    }
  }

  // ---------- exactly what is due, under the lock ----------

  predicate RowsTrue(w: World) {
    forall c | c in w.calls && Deleting(w.calls[c].at) ::
      && w.calls[c].id in w.log.rows
      && VerdictOf(w.calls[c].at.stored, w.calls[c].at.now) == Some(w.log.rows[w.calls[c].id])
  }

  predicate Retained(w: World) {
    Locked(w) && RowsTrue(w)
  }

  lemma StepRetained(w: World, step: Step)
    requires Retained(w) && Enabled(w, step)
    ensures Retained(Apply(w, step))
  {
    hide Operation, Kept, AllFresh, CreateOf, Ready, VerdictOf;
    StepLocked(w, step);
    if step.Advance? { RetentionOperation(w, step.c, step.loads); }
  }

  lemma InitIsRetained(w: World)
    requires Init(w) && w.exclusive
    ensures Retained(w)
  {
    InitIsLocked(w);
  }

  // A record is deleted only when it is due, as its row says.
  lemma DeletionIsDue(w: World, step: Step, id: string)
    requires Retained(w) && Enabled(w, step) && id in w.files && id !in Apply(w, step).files
    ensures id in w.log.rows && Apply(w, step).log.rows == w.log.rows
    ensures w.log.rows[id].finishedAt + NINETY_DAYS <= w.clock && IsRowOf(w.log.rows[id], w.files[id])
    ensures w.files[id].RecordFile? ==>
              ValidateV2(w.files[id].record, id) == Valid && IsFinished(w.files[id].record.state)
    ensures w.files[id].LegacyFile? ==> w.files[id].legacy.state == Used
    ensures !w.files[id].Garbled?
  {
    hide Operation, Kept, OneHolder, CreateOf, Ready, VerdictOf, ValidateV2, Decode, IsRowOf;
    assert step.Advance?;
    RetentionOperation(w, step.c, step.loads);
    DeleterIsDue(w, step.c);
    assert id == w.calls[step.c].id;
    var now := w.calls[step.c].at.now;
    assert VerdictOf(Decode(id, w.files[id]), now) == Some(w.log.rows[id]);
    DueIsFinished(id, w.files[id], now);
    RowSays(id, w.files[id], now);
  }

  lemma DeleterIsDue(w: World, c: nat)
    requires Retained(w) && c in w.calls && w.calls[c].at.Unmarked?
    ensures var call := w.calls[c];
            && call.at.now <= w.clock && call.id in w.files && call.at.stored == Decode(call.id, w.files[call.id])
            && call.id in w.log.rows && VerdictOf(call.at.stored, call.at.now) == Some(w.log.rows[call.id])
  {
    hide FilesOk, OneHolder, StoredOk, VerdictOf, Decode;
    assert CallOk(w, w.calls[c]) && Fresh(w.files, w.calls[c]);
  }

  lemma DueIsFinished(id: string, file: File, now: int)
    requires VerdictOf(Decode(id, file), now).Some?
    ensures !file.Garbled?
    ensures file.RecordFile? ==> ValidateV2(file.record, id) == Valid && IsFinished(file.record.state)
    ensures file.LegacyFile? ==> file.legacy.state == Used
  {
    hide ValidateV2;
  }
}
