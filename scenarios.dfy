/** Sequences of canister calls, each from any valid state, showing what the
    operations' contracts imply together. */
module Scenarios {
  import opened Candid
  import opened Token
  import opened Dao

  /** Registering twice: the first call admits the caller, the second finds a
      member (the applicant record is already gone) and changes nothing. */
  method RegisterTwice(d: Dao, caller: Principal, p1: ApplicantPayload, p2: ApplicantPayload, now1: nat, now2: nat)
    returns (first: Result<Principal, Error>, second: Result<Principal, Error>)
    requires d.Valid() && caller !in d.applicants && caller !in d.members
    modifies d`applicants, d`members, d`managers, d.ledger
    ensures d.Valid()
    ensures first == Ok(caller) && second == Err(ApplicantIsMember)
    ensures caller in d.members && caller !in d.applicants
    ensures d.members[caller] == Member(caller, p1.alias, p1.about, 0, now1, None)
    ensures Balance(d.ledger.balances, d.GetAccountForMember(caller)) == InitialTokens
  {
    first := d.ApplicantsAdd(caller, p1, now1);
    second := d.ApplicantsAdd(caller, p2, now2);
  }

  /** Starting with no manager, the first identity admitted becomes the
      manager and the second does not. */
  method BootstrapOnce(d: Dao, a: Principal, b: Principal, pa: ApplicantPayload, pb: ApplicantPayload, now: nat)
    requires d.Valid() && d.managers == map[] && a != b
    requires a !in d.applicants && a !in d.members && b !in d.applicants && b !in d.members
    modifies d`applicants, d`members, d`managers, d.ledger
    ensures d.Valid()
    ensures a in d.members && b in d.members
    ensures d.managers.Keys == {a}
  {
    var ra := d.ApplicantsAdd(a, pa, now);
    var rb := d.ApplicantsAdd(b, pb, now);
  }

  /** The voter list is never checked: one member's three yes votes accept a
      fresh proposal, and a fourth vote is refused and counted nowhere. */
  method OneMemberClosesProposal(d: Dao, m: Principal, payload: ProposalPayload, id: string, now: nat)
    returns (last: Result<Proposal, Error>)
    requires d.Valid() && m in d.members && id !in d.proposals
    modifies d`proposals
    ensures d.Valid()
    ensures id in d.proposals && d.proposals[id].state == Accepted
    ensures d.proposals[id].votesYes == 3 && d.proposals[id].votesNo == 0
    ensures last == Err(ProposalNotOpen)
  {
    var added := d.ProposalsAdd(m, payload, id, now);
    var v1 := d.ProposalsVoteYes(m, id);
    assert v1.Ok? && v1.value.votesYes == 1 && v1.value.votesNo == 0 && v1.value.state == Open;
    var v2 := d.ProposalsVoteYes(m, id);
    assert v2.Ok? && v2.value.votesYes == 2 && v2.value.votesNo == 0 && v2.value.state == Open;
    var v3 := d.ProposalsVoteYes(m, id);
    assert v3.Ok? && v3.value.votesYes == 3 && v3.value.votesNo == 0 && v3.value.state == Accepted;
    last := d.ProposalsVoteNo(m, id);
  }

  /** Tokens sent to the default account of someone not yet admitted are lost
      when that identity is admitted: the mint overwrites them with 100. */
  method MintOverwritesEarlierTokens(d: Dao, sender: Principal, newcomer: Principal, amount: nat,
                                     payload: ApplicantPayload, now: nat)
    returns (sent: TransferResult)
    requires d.Valid() && newcomer !in d.applicants && newcomer !in d.members
    requires amount <= Balance(d.ledger.balances, Account(sender, None)) && sender != newcomer
    modifies d`applicants, d`members, d`managers, d.ledger
    ensures sent == Ok(amount)
    ensures Balance(d.ledger.balances, Account(newcomer, None)) == InitialTokens
  {
    sent := d.ledger.Icrc1Transfer(sender, TransferArgs(amount, None, None, None, None, Account(newcomer, None)));
    var admitted := d.ApplicantsAdd(newcomer, payload, now);
  }

  /** On a ledger with no balances, admitting one identity leaves 100 tokens
      in all, while `icrc1_total_supply` still reports 1,000,000. */
  method SupplyIsNotTheSumOfBalances(d: Dao, c: Principal, payload: ApplicantPayload, now: nat)
    requires d.Valid() && d.ledger.balances == map[] && c !in d.applicants && c !in d.members
    modifies d`applicants, d`members, d`managers, d.ledger
    ensures Total(d.ledger.balances) == InitialTokens
    ensures Total(d.ledger.balances) != Icrc1TotalSupply()
  {
    var admitted := d.ApplicantsAdd(c, payload, now);
    TotalUpdate(map[], Account(c, None), InitialTokens);
    assert Total(map[]) == 0;
  }
}
