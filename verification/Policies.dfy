/**
  What a configuration says of one account, in its own fields: the policies its acts go under and its send epoch
  (packages/core/src/approval-outcome.ts, `liveGateOf`).
  */
module Policies {
  import opened Wrappers
  import opened Records
  import opened ApprovalOutcome

  // The account's own send policy, or the default where it has none.
  predicate SendsUnder(config: Config, account: string, policy: Policy) {
    && account in config.owners
    && (config.owners[account].sendPolicy == Some(policy)
        || (config.owners[account].sendPolicy.None? && config.defaultSend == policy))
  }

  // Changes to it wait for a person: it says so, or says nothing and the default does.
  predicate AsksConfirm(config: Config, account: Option<string>) {
    if account.Some? && account.value in config.owners && config.owners[account.value].changePolicy.Some?
    then config.owners[account.value].changePolicy == Some(PolicyConfirm)
    else config.defaultChange == Some(PolicyConfirm)
  }

  // The account a change is to, or one that a setting it loosens belongs to, asks for a person.
  predicate TouchesConfirm(config: Config, change: ChangeBinding) {
    || AsksConfirm(config, if change.target.Some? then change.target.value.id else None)
    || exists s | s in change.loosened :: AsksConfirm(config, s.owner)
  }

  predicate EpochIs(config: Config, account: string, epoch: int) {
    if account in config.sendEpochs then config.sendEpochs[account] == epoch else epoch == 0
  }

  // ---------- the gate says the same ----------

  lemma SendPolicySaid(config: Config, b: Base, policy: Policy)
    requires b.ownerScope == OwnerScoped
    ensures LiveGateOf(config, b).sendPolicy == Some(policy) <==> SendsUnder(config, b.inboxId, policy)
    ensures LiveGateOf(config, b).owner == (if b.inboxId in config.owners then Present else Removed)
    ensures b.inboxId in config.owners ==> LiveGateOf(config, b).sendPolicy.Some? && LiveGateOf(config, b).sendEpoch.Some?
    ensures b.inboxId in config.owners ==>
              forall epoch: int :: LiveGateOf(config, b).sendEpoch == Some(epoch) <==> EpochIs(config, b.inboxId, epoch)
  {
  }

  lemma ChangePolicySaid(config: Config, id: Option<string>)
    ensures ChangePolicyById(config, id) == PolicyConfirm <==> AsksConfirm(config, id)
  {
  }

  lemma GoverningSaid(config: Config, change: ChangeBinding)
    ensures GoverningChangePolicy(config, change) == PolicyConfirm <==> TouchesConfirm(config, change)
  {
    hide ChangePolicyById, AsksConfirm;
    ChangePolicySaid(config, if change.target.Some? then change.target.value.id else None);
    forall s | s in change.loosened { ChangePolicySaid(config, s.owner); }
  }

  // A change is governed by everything it touches, whatever its scope; any other record by its own account.
  lemma GateChangePolicySaid(config: Config, b: Base)
    requires b.ownerScope == OwnerScoped ==> b.inboxId in config.owners
    ensures LiveGateOf(config, b).changePolicy.Some?
    ensures b.kind == ChangeKind && b.change.Some? ==>
              (LiveGateOf(config, b).changePolicy == Some(PolicyConfirm) <==> TouchesConfirm(config, b.change.value))
    ensures b.kind != ChangeKind && b.ownerScope == OwnerScoped ==>
              (LiveGateOf(config, b).changePolicy == Some(PolicyConfirm) <==> AsksConfirm(config, Some(b.inboxId)))
  {
    hide TouchesConfirm, GoverningChangePolicy;
    if b.kind == ChangeKind && b.change.Some? { GoverningSaid(config, b.change.value); }
  }
}
