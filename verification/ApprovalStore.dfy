/**
  The store as one process runs a call of it (packages/core/src/approvals.ts, `ApprovalStore`): files rewritten step by
  step under a lock, the decision taken between two writes, the claim marker created last. What a call does is
  `StoreCalls.CallOver`, which is what the machine's operations of it come to.
  */
module StoreObject {
  import opened Wrappers
  import opened Records
  import opened ApprovalOutcome
  import opened ApprovalTransitions
  import opened RecordMoves
  import opened StoreMachine
  import opened StoreCalls

  class ApprovalStore {
    var files: map<string, File>
    var markers: map<string, Marker>

    function OnDisk(): Disk
      reads this
    {
      Disk(files, markers)
    }

    // A new approval, written where nothing was.
    method Create(id: string, creation: Creation, preparedBy: Option<string>, now: int) returns (made: Made)
      requires id !in files
      modifies this`files
      ensures made == CreateOf(creation, id, preparedBy, now)
      ensures files == if made.Made? then old(files)[id := RecordFile(made.record)] else old(files)
    {
      made := CreateOf(creation, id, preparedBy, now);
      if made.Made? {
        files := files[id := RecordFile(made.record)];
      }
    }

    // A look: the record read, classified, and what reading derived written.
    method Inspect(id: string, act: Act, config: Option<Config>, now: int) returns (o: Opened)
      modifies this`files
      ensures o == Open(FoundIn(old(files), id), act, config, now)
      ensures files == AfterLook(old(files), id, o)
    {
      o := Open(FoundIn(files, id), act, config, now);
      if o.Opened? {
        if o.current.state != o.stored.state {
          files := files[id := RecordFile(o.current)];
        }
      }
    }

    method HoldsClaim(id: string, token: nat) returns (held: bool)
      ensures held <==> id in markers && markers[id].token == Some(token)
    {
      if id !in markers {
        return false;
      }
      return markers[id].token == Some(token);
    }

    // Why a standing child may not be claimed now, or nothing: its standing approval looked at under its own lock.
    method StandingParentProblem(child: Record, config: Option<Config>, now: int) returns (problem: Option<string>)
      modifies this`files
      ensures problem == ParentProblem(child, ParentIn(old(files), child, config, now))
      ensures files == AfterParent(old(files), child, config, now)
    {
      hide Open, ParentProblem;
      if child.base.standingId.None? {
        return ParentProblem(child, Refusal(NotFound));
      }
      var parent := Inspect(child.base.standingId.value, ParentLook(child), config, now);
      return ParentProblem(child, parent);
    }

    // Created only where there is none: the single use, whatever the lock did.
    method MarkClaimed(c: nat, id: string, act: Act) returns (created: bool)
      modifies this`markers
      ensures created <==> id !in old(markers)
      ensures markers == if created then old(markers)[id := MarkerOf(c, act)] else old(markers)
    {
      if id in markers {
        return false;
      }
      markers := markers[id := Marker(c, None)];
      if act.ClaimForSend? {
        markers := markers[id := Marker(c, Some(c))];
      }
      return true;
    }

    // What comes before a decision: the record read and classified, the claim's token checked where one is needed, and
    // only then what reading derived written.
    method Begin(id: string, act: Act, config: Option<Config>, now: int) returns (o: Opened)
      modifies this`files
      ensures o == BeginOver(old(OnDisk()), id, act, config, now)
      ensures files == AfterLook(old(files), id, o)
    {
      hide Open, EarlyRefusal, TokenOf;
      if EarlyRefusal(act).Some? {
        return Refusal(EarlyRefusal(act).value);
      }
      o := Open(FoundIn(files, id), act, config, now);
      if o.Refusal? {
        return;
      }
      if TokenOf(act).Some? {
        var held := HoldsClaim(id, TokenOf(act).value);
        if !held {
          return Refusal(Unexpected);
        }
      }
      if o.current.state != o.stored.state {
        files := files[id := RecordFile(o.current)];
      }
    }

    // What a decision comes to: nothing more, a write, or a write and the claim's marker.
    method End(c: nat, id: string, act: Act, current: Record, decision: Decision) returns (reply: Reply)
      modifies this
      ensures (OnDisk(), reply) == EndOver(old(OnDisk()), c, id, act, current, decision)
    {
      hide IsClaimAct, MarkerOf;
      match decision {
        case Refuse(code) => return Refused(code);
        case Keep => return Stands(current);
        case Put(next, failure) =>
          files := files[id := RecordFile(next)];
          if failure.Some? {
            return Refused(failure.value);
          }
          if !IsClaimAct(act) {
            return Stands(next);
          }
          var created := MarkClaimed(c, id, act);
          return if created then Claimed(next, c) else Refused(ApprovalVoid);
      }
    }

    // One call, from its lock to its answer.
    method Transition(c: nat, id: string, act: Act, config: Option<Config>, now: int) returns (reply: Reply)
      modifies this
      ensures (OnDisk(), reply) == CallOver(old(OnDisk()), c, id, act, config, now)
    {
      hide Open, Decide, ParentProblem, ReadsParent, EarlyRefusal, TokenOf, EndOver, TokenFits;
      var o := Begin(id, act, config, now);
      if o.Refusal? {
        return Refused(o.code);
      }
      var problem: Option<string> := None;
      if ReadsParent(act, o.current, o.outcome) {
        problem := StandingParentProblem(o.current, config, now);
      }
      var decision := Decide(act, o.current, o.outcome, o.live, problem, now);
      reply := End(c, id, act, o.current, decision);
    }

    // What is decided of a send's claim: refused as it is, voided where what it sends is not what was prepared, or claimed.
    static method DecideSend(act: Act, current: Record, outcome: Outcome, problem: Option<string>, now: int)
      returns (decision: Decision)
      requires act.ClaimForSend?
      ensures decision == DecideClaimForSend(current, outcome, act, problem, now)
    {
      hide SameExpectation;
      if outcome.error.Some? {
        return Refuse(outcome.error.value);
      }
      if act.cancelled {
        return Refuse(Usage);
      }
      var failure: Option<ErrorCode> := None;
      var next := current;
      if problem.Some? {
        failure := Some(ApprovalVoid);
        next := RevokedBy(current, problem.value, now);
      } else if current.base.inboxSub.Some? && current.base.inboxSub.value != "" && current.base.inboxSub != act.inboxSub {
        failure := Some(ApprovalVoid);
        next := RevokedBy(current, CONTENT_CHANGED, now);
      } else if act.draft.draftMessageId != current.base.draftMessageId {
        failure := Some(ApprovalVoid);
        next := RevokedBy(current, CONTENT_CHANGED, now);
      } else if act.draft.contentDigest != current.base.contentDigest {
        failure := Some(ApprovalVoid);
        next := RevokedBy(current, CONTENT_CHANGED, now);
      } else if !SameExpectation(act.expected, current.base.expected) {
        failure := Some(ApprovalVoid);
        next := RevokedBy(current, CONTENT_CHANGED, now);
      } else if !outcome.claimable {
        return Refuse(ApprovalPending);
      } else if current.state == Approved && current.approvedBindingDigest != current.bindingDigest {
        failure := Some(ApprovalVoid);
        next := RevokedBy(current, CONTENT_CHANGED, now);
      } else {
        next := current.(state := Sending, sendingAt := At(now));
      }
      return Put(next, failure);
    }

    // The claim of a send: looked at, decided, written, and marked once.
    method ClaimForSend(c: nat, id: string, act: Act, config: Option<Config>, now: int) returns (reply: Reply)
      requires act.ClaimForSend?
      modifies this
      ensures (OnDisk(), reply) == CallOver(old(OnDisk()), c, id, act, config, now)
      ensures reply.Claimed? ==> id !in old(markers) && id in markers && markers[id] == Marker(c, Some(c))
      ensures !reply.Claimed? ==> markers == old(markers)
    {
      hide Open, ParentProblem, ReadsParent, DecideClaimForSend, BeginOver, EndOver;
      SendBegins(OnDisk(), id, act, config, now);
      var o := Inspect(id, act, config, now);
      if o.Refusal? {
        return Refused(o.code);
      }
      var problem: Option<string> := None;
      if ReadsParent(act, o.current, o.outcome) {
        problem := StandingParentProblem(o.current, config, now);
      }
      var decision := DecideSend(act, o.current, o.outcome, problem, now);
      SendEnds(OnDisk(), c, id, act, o.current, decision);
      reply := End(c, id, act, o.current, decision);
    }

    // `go` exactly while the token's send is still under way as it reads now, its lease then renewed to now at least.
    method Fence(id: string, token: nat, config: Option<Config>, now: int) returns (go: bool)
      modifies this`files
      ensures go <==> LeaseHeld(old(OnDisk()), id, token, config, now)
      ensures go ==> && id in files && files[id].RecordFile? && files[id].record.state == Sending
                     && (files[id].record.Renewed().At? ==> now <= files[id].record.Renewed().ms)
      ensures files - {id} == old(files) - {id}
    {
      hide OpenRecord, Decode, ExpectOf, MatchesRecord;
      var act := Heartbeat(token);
      var held := HoldsClaim(id, token);
      if !held {
        return false;
      }
      var o := Inspect(id, act, config, now);
      if o.Refusal? || o.current.state != Sending {
        return false;
      }
      StoredIsTheFile(old(files), id, act, config, now);
      var decision := DecideHeartbeat(o.current, now);
      if decision.Put? {
        files := files[id := RecordFile(decision.next)];
      }
      return true;
    }
  }

  // The token is the claim's, and the send reads, now, as under way.
  predicate LeaseHeld(d: Disk, id: string, token: nat, config: Option<Config>, now: int) {
    && id in d.markers && d.markers[id].token == Some(token)
    && var o := Open(FoundIn(d.files, id), Heartbeat(token), config, now);
       o.Opened? && o.current.state == Sending
  }

  // A send's claim needs no token, and is refused for nothing before its record is read.
  lemma SendBegins(d: Disk, id: string, act: Act, config: Option<Config>, now: int)
    requires act.ClaimForSend?
    ensures BeginOver(d, id, act, config, now) == Open(FoundIn(d.files, id), act, config, now)
  {
    hide Open;
  }

  lemma SendEnds(d: Disk, c: nat, id: string, act: Act, current: Record, decision: Decision)
    requires act.ClaimForSend?
    ensures var left := EndOver(d, c, id, act, current, decision);
            if left.1.Claimed? then id !in d.markers && left.0.markers == d.markers[id := Marker(c, Some(c))]
            else left.0.markers == d.markers
  {
  }

  // A claim is answered once: while its marker stands, no call claims it again, whatever its file has become.
  lemma ClaimedOnce(d: Disk, c: nat, id: string, act: Act, config: Option<Config>, now: int)
    ensures var left := CallOver(d, c, id, act, config, now);
            && (left.1.Claimed? ==> IsClaimAct(act) && id !in d.markers && id in left.0.markers)
            && (id in d.markers ==> id in left.0.markers && left.0.markers[id] == d.markers[id])
  {
    hide Open, DecideOver, TokenFits, EarlyRefusal, IsClaimAct;
  }

  // A refusal that voids nothing leaves the record as it read: it can still be approved, or claimed again.
  lemma RefusalKeepsTheRecord(d: Disk, c: nat, id: string, act: Act, config: Option<Config>, now: int)
    requires act.ClaimForSend?
    ensures var o := Open(FoundIn(d.files, id), act, config, now);
            var left := CallOver(d, c, id, act, config, now);
            o.Opened? && (left.1 == Refused(ApprovalPending) || left.1 == Refused(Usage)) ==>
              left.0.markers == d.markers && id in left.0.files
              && (!ReadsParent(act, o.current, o.outcome) ==> left.0.files == AfterLook(d.files, id, o))
  {
    hide OpenRecord, Decode, ParentProblem, SameExpectation, ParentIn, MatchesRecord;
    if Open(FoundIn(d.files, id), act, config, now).Opened? { StoredIsTheFile(d.files, id, act, config, now); }
  }
}
