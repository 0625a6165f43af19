/**
  What one step of the store may touch: it moves one call at most, writes one record at most, and nothing that has been
  said, made or configured is ever taken back.
  */
module StoreFrames {
  import opened Wrappers
  import opened Records
  import opened ApprovalOutcome
  import opened ApprovalTransitions
  import opened RecordMoves
  import opened Retention
  import opened StoreMachine

  // Everything that only grows.
  ghost predicate Grows(w: World, next: World) {
    && next.exclusive == w.exclusive && next.retains == w.retains
    && w.clock <= next.clock && w.nextCall <= next.nextCall
    && 0 < |w.history| <= |next.history| && w.history == next.history[..|w.history|]
    && w.made <= next.made
    && LogGrows(w.log, next.log)
    && EpochsGrow(w, next)
    && OwnersStayGone(w, next)
  }

  predicate LogGrows(log: Log, next: Log) {
    && log.people <= next.people && log.ended <= next.ended
    && log.returned <= next.returned && log.goes <= next.goes && log.outcomes <= next.outcomes
    && log.rows.Keys <= next.rows.Keys && log.claims.Keys <= next.claims.Keys
  }

  ghost predicate EpochsGrow(w: World, next: World)
    requires |w.history| > 0 && |next.history| > 0
  {
    && (forall o: string :: SendEpochOf(Live(w), o) <= SendEpochOf(Live(next), o))
    && Live(w).standingEpoch <= Live(next).standingEpoch
  }

  ghost predicate OwnersStayGone(w: World, next: World)
    requires |w.history| > 0 && |next.history| > 0
  {
    forall o: string :: EverOwner(w.history, o) ==>
      EverOwner(next.history, o) && (o in Live(next).owners ==> o in Live(w).owners)
  }

  lemma FinishLogs(w: World, c: nat, call: Call)
    requires call.at.Settled? && call.at.o.Opened?
    ensures LogGrows(w.log, Finish(w, c, call).log)
  {
    hide DecisionOf, SaysEnded, PersonOf, ActOf, PastClaim, IsClaimAct;
  }

  // The reads, the settling writes, a use and the marker say nothing.
  lemma QuietOperations(w: World, c: nat, call: Call)
    ensures call.at.Configured? ==> ReadFile(w, call).log == w.log
    ensures call.at.Seen? && call.at.o.Opened? ==> Settle(w, call).log == w.log
    ensures |w.history| > 0 && call.at.Settled? && call.at.o.Opened? ==> ReadParent(w, call).log == w.log
    ensures call.at.Settled? && call.at.o.Opened? && call.job.Use? ==> Mint(w, call).log == w.log
    ensures call.at.Examined? ==> SettleDerived(w, call).log == w.log
    ensures Examine(w, call).log == w.log && CreateMarker(w, c, call).log == w.log && WriteToken(w, c, call).log == w.log
  {
    hide Open, ReadsParent, ParentOpened, ParentProblem, MintChild, SaysEnded, Derive, Decode, ActOf, TokenOf, HoldsClaim;
  }

  lemma OperationLogs(w: World, c: nat, loads: bool)
    requires |w.history| > 0 && c in w.calls
    ensures LogGrows(w.log, Operation(w, c, loads).log)
  {
    hide Finish, ReadFile, Settle, ReadParent, Mint, SettleDerived, Examine, CreateMarker, WriteToken, VerdictOf;
    var call := w.calls[c];
    QuietOperations(w, c, call);
    if call.at.Settled? && call.at.o.Opened? { FinishLogs(w, c, call); }
  }

  lemma StepGrows(w: World, step: Step)
    requires Enabled(w, step)
    ensures Grows(w, Apply(w, step))
  {
    hide Operation;
    match step {
      case Configure(next) => ConfigureGrows(w, next);
      case Advance(c, loads) => OperationLogs(w, c, loads);
      case _ =>
    }
  }

  lemma ConfigureGrows(w: World, config: Config)
    requires |w.history| > 0 && ConfigFits(w.history, config)
    ensures Grows(w, w.(history := w.history + [config]))
  {
    var next := w.(history := w.history + [config]);
    forall o: string | EverOwner(w.history, o)
      ensures EverOwner(next.history, o) && (o in Live(next).owners ==> o in Live(w).owners)
    {
      var k :| 0 <= k < |w.history| && o in w.history[k].owners;
      assert next.history[k] == w.history[k];
    }
  }
}
