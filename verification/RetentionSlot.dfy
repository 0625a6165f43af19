/**
  One slot of a retention batch (packages/core/src/approval-maintenance.ts, `runSlot` and `prune`): the record opened
  under its lock, its derived state written, and, when it is due, its row, its marker and itself, in that order, with
  any step failing or coming too late.
  */
module RetentionSlot {
  import opened Wrappers
  import opened Records
  import opened ApprovalValidate
  import opened ApprovalTransitions
  import opened Retention

  datatype Step = LockTry | Opening | Reading | Writing | Pruning | Appending | MarkerUnlink | RecordUnlink

  // What goes wrong in one slot, if anything: its lock is held, a step fails, or the deadline comes before one.
  datatype Trouble = NoTrouble | HeldElsewhere | FailsAt(step: Step) | LateAt(step: Step)

  datatype SlotOutcome = SlotDone | SlotFailed | SlotBusy | SlotDeadline

  // The record as retention reads it: with its derived state, when it is a version-2 one.
  function AsRead(id: string, file: File, now: int): Stored {
    var stored := Decode(id, file);
    if stored.V2? then V2(Derive(stored.record, now)) else stored
  }

  // What is left of a file that is not deleted: itself, or itself with its derived state written.
  predicate Settles(id: string, was: File, left: File, now: int) {
    left == was || (Decode(id, was).V2? && left == RecordFile(Derive(Decode(id, was).record, now)))
  }

  class ApprovalDirectory {
    var files: map<string, File>
    var markers: set<string>
    var rows: seq<(string, Row)>

    // No unlink starts before the row is there; what fails stops the rest.
    method Prune(id: string, row: Row, trouble: Trouble) returns (outcome: SlotOutcome)
      modifies this
      ensures rows == old(rows) || rows == old(rows) + [(id, row)]
      ensures rows == old(rows) ==> markers == old(markers) && files == old(files)
      ensures markers == old(markers) || markers == old(markers) - {id}
      ensures files == old(files) || (files == old(files) - {id} && id !in markers)
      ensures outcome == SlotDone <==> trouble !in {FailsAt(Appending), FailsAt(MarkerUnlink), FailsAt(RecordUnlink)}
      ensures outcome == SlotDone ==> rows == old(rows) + [(id, row)] && id !in markers && id !in files
      ensures outcome == SlotDone || outcome == SlotFailed
    {
      if trouble == FailsAt(Appending) {
        return SlotFailed;
      }
      rows := rows + [(id, row)];
      if trouble == FailsAt(MarkerUnlink) {
        return SlotFailed;
      }
      markers := markers - {id};
      if trouble == FailsAt(RecordUnlink) {
        return SlotFailed;
      }
      files := files - {id};
      return SlotDone;
    }

    method RunSlot(id: string, now: int, trouble: Trouble) returns (outcome: SlotOutcome)
      modifies this
      // Nothing but this approval's own file, marker and row is touched.
      ensures files - {id} == old(files) - {id} && markers - {id} == old(markers) - {id}
      ensures rows == old(rows) || (exists row :: rows == old(rows) + [(id, row)])
      // A row is only ever the verdict on the record as it read.
      ensures rows != old(rows) ==>
                && id in old(files) && VerdictOf(AsRead(id, old(files)[id], now), now).Some?
                && rows == old(rows) + [(id, VerdictOf(AsRead(id, old(files)[id], now), now).value)]
      // No marker goes before its row, and no record before its row and its marker.
      ensures id in old(markers) && id !in markers && id in old(files) ==> rows != old(rows)
      ensures id in old(files) && id !in files ==> rows != old(rows) && id !in markers
      // What is kept is as it was, or has its derived state written.
      ensures id in files ==> id in old(files) && Settles(id, old(files)[id], files[id], now)
      // Without trouble: deleted exactly when it is due, and otherwise left with its derived state.
      ensures trouble == NoTrouble ==>
                && outcome == SlotDone
                && (id in files <==> id in old(files) && VerdictOf(AsRead(id, old(files)[id], now), now).None?)
                && (id !in old(files) ==> id !in markers)
                && (id in files && Decode(id, old(files)[id]).V2? ==>
                      files[id] == RecordFile(Derive(Decode(id, old(files)[id]).record, now)))
      ensures trouble == HeldElsewhere ==> outcome == SlotBusy && files == old(files) && markers == old(markers)
    {
      hide Decode, Derive, VerdictOf;
      if trouble == LateAt(LockTry) {
        return SlotDeadline;
      }
      if trouble == HeldElsewhere {
        return SlotBusy;
      }
      if trouble == FailsAt(LockTry) {
        return SlotFailed;
      }
      if trouble == LateAt(Opening) {
        return SlotDeadline;
      }
      if trouble == FailsAt(Reading) {
        return SlotFailed;
      }
      if id !in files {
        // A claim marker whose record is gone: nothing it guards remains.
        if trouble == FailsAt(MarkerUnlink) {
          return SlotFailed;
        }
        markers := markers - {id};
        return SlotDone;
      }
      var stored := Decode(id, files[id]);
      if stored.V2? {
        var derived := Derive(stored.record, now);
        if derived.state != stored.record.state {
          if trouble == LateAt(Writing) {
            return SlotDeadline;
          }
          if trouble == FailsAt(Writing) {
            return SlotFailed;
          }
          files := files[id := RecordFile(derived)];
          stored := V2(derived);
        } else {
          DerivedIsItself(id, files[id], now);
        }
      }
      var verdict := VerdictOf(stored, now);
      if verdict.None? {
        return SlotDone;
      }
      if trouble == LateAt(Pruning) {
        return SlotDeadline;
      }
      outcome := Prune(id, verdict.value, trouble);
    }
  }

  lemma DerivedIsItself(id: string, file: File, now: int)
    requires Decode(id, file).V2? && Derive(Decode(id, file).record, now).state == Decode(id, file).record.state
    ensures Derive(Decode(id, file).record, now) == Decode(id, file).record
    ensures file == RecordFile(Decode(id, file).record)
  {
    hide ValidateV2;
  }
}
