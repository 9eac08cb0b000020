/** The DAO canister (backend/index.ts): applicants are admitted and promoted
    to members at once, the first member becomes the manager, members table
    proposals and vote on them, and promotion mints the member's tokens. */
module Dao {
  import opened Candid
  import StableStore
  import opened Token

  // ---------------------------------------------------------------------------
  // Records of the four stores.

  datatype Applicant = Applicant(id: Principal, alias: string, about: string, createdAt: nat, updatedAt: Option<nat>)

  datatype ApplicantPayload = ApplicantPayload(alias: string, about: string)

  datatype Member = Member(id: Principal, alias: string, about: string, votes: nat, createdAt: nat, updatedAt: Option<nat>)

  /** The `(id, alias)` pair offered as a transfer destination. */
  datatype CompactMember = CompactMember(id: Principal, alias: string)

  datatype Manager = Manager(id: Principal, alias: string, about: string, createdAt: nat, updatedAt: Option<nat>)

  datatype ProposalState = Open | Accepted | Rejected | Executing | Succeeded | Failed(reason: string)

  datatype Proposal = Proposal(
    id: string,
    createdAt: nat,
    updatedAt: Option<nat>,
    proposer: Principal,
    title: string,
    description: string,
    canisterId: string,
    canisterMethod: string,
    canisterMethodParam: string,
    state: ProposalState,
    votesYes: nat,
    votesNo: nat,
    voters: seq<Principal>)

  datatype ProposalPayload = ProposalPayload(
    title: string,
    description: string,
    canisterId: string,
    canisterMethod: string,
    canisterMethodParam: string)

  /** What `get_principal_profile` reports about the caller. */
  datatype PrincipalProfile = PrincipalProfile(alias: string, about: string, isManager: bool, isMember: bool, isApplicant: bool)

  /** Which counter a vote increments. */
  datatype Choice = Yes | No

  /** The canister's error results, one per message it returns. */
  datatype Error =
    | ApplicantExists
    | ApplicantIsMember
    | MemberExists
    | ApplicantMissing
    | CannotGetMembers
    | CannotAddProposals
    | CannotVote
    | ProposalNotOpen
    | ProposalMissing
    | CannotGetProposals

  function Message(e: Error): string
  {
    match e
    case ApplicantExists => "Applicant already exists."
    case ApplicantIsMember => "Applicant is already a Member."
    case MemberExists => "Member already exists."
    case ApplicantMissing => "Applicant doesn't exist."
    case CannotGetMembers => "Caller can't get Members."
    case CannotAddProposals => "Caller can't add Proposals."
    case CannotVote => "Caller can't vote."
    case ProposalNotOpen => "Proposal is not Open"
    case ProposalMissing => "Proposal doesn't exist"
    case CannotGetProposals => "Caller can't get proposals."
  }

  /** Every error has its own message, so a caller can tell them apart. */
  lemma MessagesAreDistinct(e1: Error, e2: Error)
    ensures Message(e1) == Message(e2) ==> e1 == e2
  {
  }

  /** Tokens minted to a member on admission. */
  const InitialTokens: nat := 100

  // ---------------------------------------------------------------------------
  // The voting rule.

  /** A proposal closes once either counter exceeds 2. */
  predicate AreCloseConditionsMet(p: Proposal)
  {
    p.votesYes > 2 || p.votesNo > 2
  }

  /** An open proposal after one more vote for `choice`. */
  function Voted(p: Proposal, choice: Choice): (q: Proposal)
    requires p.state == Open
    ensures q.votesYes == p.votesYes + (if choice.Yes? then 1 else 0)
    ensures q.votesNo == p.votesNo + (if choice.No? then 1 else 0)
    ensures q.state == Accepted <==> AreCloseConditionsMet(q) && q.votesYes > q.votesNo
    ensures q.state == Rejected <==> AreCloseConditionsMet(q) && q.votesYes <= q.votesNo
    ensures q.state == Open <==> !AreCloseConditionsMet(q)
    ensures q == p.(votesYes := q.votesYes, votesNo := q.votesNo, state := q.state)
  {
    var counted := if choice.Yes? then p.(votesYes := p.votesYes + 1) else p.(votesNo := p.votesNo + 1);
    if !AreCloseConditionsMet(counted) then counted
    else if counted.votesYes > counted.votesNo then counted.(state := Accepted)
    else counted.(state := Rejected)
  }

  /** The proposals the voting rule can produce from a fresh one: no voter is
      ever recorded, an open proposal has at most 2 votes on each side, and a
      closed one was closed by the counter that reached 3. */
  ghost predicate Reachable(p: Proposal)
  {
    && p.voters == []
    && match p.state
       case Open => p.votesYes <= 2 && p.votesNo <= 2
       case Accepted => p.votesYes == 3 && p.votesNo <= 2
       case Rejected => p.votesNo == 3 && p.votesYes <= 2
       case _ => false
  }

  /** A vote keeps a proposal reachable; in particular `Executing`, `Succeeded`
      and `Failed` are never entered, and a tie never closes a proposal: the
      counter that first exceeds 2 decides the outcome. */
  lemma VotePreservesReachable(p: Proposal, choice: Choice)
    requires Reachable(p) && p.state == Open
    ensures Reachable(Voted(p, choice))
    ensures Voted(p, choice).state == Accepted <==> choice == Yes && p.votesYes == 2
    ensures Voted(p, choice).state == Rejected <==> choice == No && p.votesNo == 2
  {
  }

  /** While a proposal is open, each vote adds exactly one to its total and
      neither counter decreases. */
  lemma VotesOnlyGrowWhileOpen(p: Proposal, choice: Choice)
    requires p.state == Open
    ensures Voted(p, choice).votesYes + Voted(p, choice).votesNo == p.votesYes + p.votesNo + 1
    ensures Voted(p, choice).votesYes >= p.votesYes && Voted(p, choice).votesNo >= p.votesNo
  {
  }

  /** The `(id, alias)` pairs of the members under `ks`, in that order,
      leaving out `caller`. */
  ghost function OthersAlong(members: map<Principal, Member>, ks: seq<Principal>, caller: Principal): seq<CompactMember>
    requires forall k :: k in ks ==> k in members
  {
    if ks == [] then []
    else
      var k := ks[|ks| - 1];
      OthersAlong(members, ks[..|ks| - 1], caller)
        + (if k != caller then [CompactMember(k, members[k].alias)] else [])
  }

  /** Along distinct keys, the pairs are exactly the keys other than `caller`,
      each once, with the alias stored for it. */
  lemma {:induction false} OthersAlongExact(members: map<Principal, Member>, ks: seq<Principal>, caller: Principal)
    requires forall k :: k in ks ==> k in members
    requires forall i, j :: 0 <= i < j < |ks| ==> ks[i] != ks[j]
    ensures forall k :: k in ks && k != caller ==> CompactMember(k, members[k].alias) in OthersAlong(members, ks, caller)
    ensures forall c :: c in OthersAlong(members, ks, caller) ==> c.id in ks && c.id != caller && c.alias == members[c.id].alias
    ensures forall i, j :: 0 <= i < j < |OthersAlong(members, ks, caller)| ==>
      OthersAlong(members, ks, caller)[i].id != OthersAlong(members, ks, caller)[j].id
  {
    if ks != [] {
      var init := ks[..|ks| - 1];
      var k := ks[|ks| - 1];
      assert forall x :: x in init ==> x in ks;
      OthersAlongExact(members, init, caller);
      assert k !in init by {
        forall j | 0 <= j < |init| ensures init[j] != k { assert init[j] == ks[j]; }
      }
      assert forall x :: x in ks ==> x in init || x == k by {
        forall x | x in ks ensures x in init || x == k {
          var j :| 0 <= j < |ks| && ks[j] == x;
          if j < |ks| - 1 { assert init[j] == x; }
        }
      }
    }
  }

  /** The `(id, alias)` of every member other than `caller`, each once, in the
      order the store yields its values. */
  method MembersOtherThan(members: map<Principal, Member>, caller: Principal) returns (ret: seq<CompactMember>)
    requires forall p :: p in members ==> members[p].id == p
    ensures forall p :: p in members && p != caller ==> CompactMember(p, members[p].alias) in ret
    ensures forall c :: c in ret ==> c.id in members && c.id != caller && c.alias == members[c.id].alias
    ensures forall i, j :: 0 <= i < j < |ret| ==> ret[i].id != ret[j].id
  {
    var vs;
    ghost var keys;
    vs, keys := StableStore.Values(members);
    ret := [];
    var i := 0;
    while i < |vs|
      invariant 0 <= i <= |vs|
      invariant ret == OthersAlong(members, keys[..i], caller)
    {
      var member := vs[i];
      assert keys[..i + 1][..i] == keys[..i];
      if member.id != caller {
        ret := ret + [CompactMember(member.id, member.alias)];
      }
      i := i + 1;
    }
    assert keys[..i] == keys;
    OthersAlongExact(members, keys, caller);
  }

  // ---------------------------------------------------------------------------
  // The canister state.

  class Dao {
    var applicants: map<Principal, Applicant>
    var members: map<Principal, Member>
    var managers: map<Principal, Manager>
    var proposals: map<string, Proposal>
    /** The token ledger whose balances promotion mints. */
    const ledger: Ledger

    /** Every record is stored under its own id, every proposal is reachable
        and was tabled by a member, managers are members, and there is at
        most one manager. */
    ghost predicate WellFormed()
      reads this
    {
      && (forall p :: p in applicants ==> applicants[p].id == p)
      && (forall p :: p in members ==> members[p].id == p)
      && (forall p :: p in managers ==> managers[p].id == p)
      && (forall k :: k in proposals ==> proposals[k].id == k && Reachable(proposals[k]) && proposals[k].proposer in members)
      && managers.Keys <= members.Keys
      && |managers| <= 1
    }

    /** No identity is both an applicant and a member. */
    ghost predicate Disjoint()
      reads this
    {
      applicants.Keys !! members.Keys
    }

    ghost predicate Valid()
      reads this
    {
      WellFormed() && Disjoint()
    }

    constructor (ledger: Ledger)
      ensures Valid() && this.ledger == ledger
      ensures applicants == map[] && members == map[] && managers == map[] && proposals == map[]
    {
      applicants, members, managers, proposals := map[], map[], map[], map[];
      this.ledger := ledger;
    }

    /** In a valid state a manager is never an applicant. */
    lemma ManagerIsNeverApplicant(p: Principal)
      requires Valid()
      ensures p in managers ==> p in members && p !in applicants
    {
    }

    // -------------------------------------------------------------------------
    // Roles.

    predicate CallerIsMember(caller: Principal)
      reads this
    {
      caller in members
    }

    /** Because managers are members, this accepts exactly the members. */
    predicate CallerIsManagerOrMember(caller: Principal)
      reads this
      ensures WellFormed() ==> (CallerIsManagerOrMember(caller) <==> caller in members)
    {
      caller in managers || caller in members
    }

    /** The caller's roles, and the alias and about of the member record, else
        the applicant record, else the manager record, as the lookups overwrite
        them. (A manager is always a member in a valid state, so the last case
        does not arise there.) */
    method GetPrincipalProfile(caller: Principal) returns (profile: PrincipalProfile)
      ensures profile.isManager == (caller in managers)
      ensures profile.isMember == (caller in members)
      ensures profile.isApplicant == (caller !in members && caller in applicants)
      ensures caller in members ==> profile.alias == members[caller].alias && profile.about == members[caller].about
      ensures caller !in members && caller in applicants ==>
        profile.alias == applicants[caller].alias && profile.about == applicants[caller].about
      ensures caller !in members && caller !in applicants && caller in managers ==>
        profile.alias == managers[caller].alias && profile.about == managers[caller].about
      ensures caller !in members && caller !in applicants && caller !in managers ==>
        profile == PrincipalProfile("", "", false, false, false)
      ensures Valid() && profile.isApplicant ==> !profile.isManager && !profile.isMember
    {
      profile := PrincipalProfile("", "", false, false, false);
      profile := profile.(isManager := caller in managers);
      if caller in managers {
        var manager := managers[caller];
        profile := profile.(alias := manager.alias, about := manager.about, isManager := true);
      }
      if caller in members {
        var member := members[caller];
        profile := profile.(alias := member.alias, about := member.about, isMember := true);
      } else if caller in applicants {
        var applicant := applicants[caller];
        profile := profile.(alias := applicant.alias, about := applicant.about, isApplicant := true);
      }
    }

    // -------------------------------------------------------------------------
    // Membership lifecycle.

    /** Registers the caller and admits it at once. Fails, changing nothing,
        if the caller is already an applicant or already a member. Otherwise
        the caller ends as a member with no votes and the payload's alias and
        about, no longer an applicant, the manager if there was none, and
        with exactly 100 tokens in its default account. */
    method ApplicantsAdd(caller: Principal, payload: ApplicantPayload, now: nat) returns (r: Result<Principal, Error>)
      requires Valid()
      modifies this`applicants, this`members, this`managers, ledger
      ensures Valid()
      ensures caller in old(applicants) ==> r == Err(ApplicantExists)
      ensures caller !in old(applicants) && caller in old(members) ==> r == Err(ApplicantIsMember)
      ensures r.Err? ==> unchanged(this) && unchanged(ledger)
      ensures caller !in old(applicants) && caller !in old(members) ==>
        && r == Ok(caller)
        && applicants == old(applicants)
        && members == old(members)[caller := Member(caller, payload.alias, payload.about, 0, now, None)]
        && managers == (if old(managers) == map[] then map[caller := Manager(caller, payload.alias, payload.about, now, None)] else old(managers))
        && ledger.balances == old(ledger.balances)[GetAccountForMember(caller) := InitialTokens]
        && Balance(ledger.balances, GetAccountForMember(caller)) == InitialTokens
    {
      if caller !in applicants {
        if caller !in members {
          var newApplicant := Applicant(caller, payload.alias, payload.about, now, None);
          applicants := applicants[newApplicant.id := newApplicant];
          r := MembersAddFromApplicant(caller, now);
          assert old(applicants)[caller := newApplicant] - {caller} == old(applicants);
        } else {
          r := Err(ApplicantIsMember);
        }
      } else {
        r := Err(ApplicantExists);
      }
    }

    /** Promotes an applicant: inserts the member, makes it the manager if
        there is none yet, removes the applicant and mints its tokens. Fails,
        changing nothing, if there is no applicant record or there already is
        a member record. */
    method MembersAddFromApplicant(p: Principal, now: nat) returns (r: Result<Principal, Error>)
      requires WellFormed()
      modifies this`applicants, this`members, this`managers, ledger
      ensures WellFormed()
      ensures old(Disjoint()) ==> Disjoint()
      ensures p !in old(applicants) ==> r == Err(ApplicantMissing)
      ensures p in old(applicants) && p in old(members) ==> r == Err(MemberExists)
      ensures r.Err? ==> unchanged(this) && unchanged(ledger)
      ensures p in old(applicants) && p !in old(members) ==>
        var a := old(applicants)[p];
        && r == Ok(p)
        && members == old(members)[p := Member(p, a.alias, a.about, 0, now, None)]
        && managers == (if old(managers) == map[] then map[p := Manager(p, a.alias, a.about, now, None)] else old(managers))
        && applicants == old(applicants) - {p}
        && ledger.balances == old(ledger.balances)[GetAccountForMember(p) := InitialTokens]
    {
      if p in applicants {
        var applicant := applicants[p];
        if p !in members {
          var newMember := Member(p, applicant.alias, applicant.about, 0, now, None);
          members := members[newMember.id := newMember];
          if |managers| == 0 {
            var newManager := Manager(newMember.id, newMember.alias, newMember.about, newMember.createdAt, newMember.updatedAt);
            managers := managers[newManager.id := newManager];
          }
          applicants := applicants - {newMember.id};
          MemberSetInitialTokens(newMember.id);
          r := Ok(p);
        } else {
          r := Err(MemberExists);
        }
      } else {
        r := Err(ApplicantMissing);
      }
    }

    /** The ledger account a member's tokens go to: no subaccount. */
    function GetAccountForMember(member: Principal): Account
    {
      Account(member, None)
    }

    method MemberSetInitialTokens(member: Principal)
      modifies ledger
      ensures ledger.balances == old(ledger.balances)[GetAccountForMember(member) := InitialTokens]
    {
      var account := GetAccountForMember(member);
      ledger.MintAndSetBalanceOf(account, InitialTokens);
    }

    // -------------------------------------------------------------------------
    // Listings.

    /** Every member record, once each, to managers and members only. */
    method MembersGet(caller: Principal) returns (r: Result<seq<Member>, Error>)
      ensures r.Err? <==> caller !in managers && caller !in members
      ensures r.Err? ==> r.error == CannotGetMembers
      ensures r.Ok? ==>
        && |r.value| == |members|
        && (forall i :: 0 <= i < |r.value| ==> r.value[i] in members.Values)
        && (forall p :: p in members ==> members[p] in r.value)
    {
      if !CallerIsManagerOrMember(caller) {
        return Err(CannotGetMembers);
      }
      var vs;
      ghost var keys;
      vs, keys := StableStore.Values(members);
      r := Ok(vs);
    }

    /** The `(id, alias)` of every member other than the caller, each once,
        to managers and members only. */
    method GetMembersToTransfer(caller: Principal) returns (r: Result<seq<CompactMember>, Error>)
      requires Valid()
      ensures r.Err? <==> caller !in managers && caller !in members
      ensures r.Err? ==> r.error == CannotGetMembers
      ensures r.Ok? ==>
        && (forall p :: p in members && p != caller ==> CompactMember(p, members[p].alias) in r.value)
        && (forall c :: c in r.value ==> c.id in members && c.id != caller && c.alias == members[c.id].alias)
        && (forall i, j :: 0 <= i < j < |r.value| ==> r.value[i].id != r.value[j].id)
    {
      if !CallerIsManagerOrMember(caller) {
        return Err(CannotGetMembers);
      }
      var ret := MembersOtherThan(members, caller);
      r := Ok(ret);
    }

    /** Every proposal, once each, to members only. */
    method ProposalsGet(caller: Principal) returns (r: Result<seq<Proposal>, Error>)
      ensures r.Err? <==> !CallerIsMember(caller)
      ensures r.Err? ==> r.error == CannotGetProposals
      ensures r.Ok? ==>
        && |r.value| == |proposals|
        && (forall i :: 0 <= i < |r.value| ==> r.value[i] in proposals.Values)
        && (forall k :: k in proposals ==> proposals[k] in r.value)
    {
      if !CallerIsMember(caller) {
        return Err(CannotGetProposals);
      }
      var vs;
      ghost var keys;
      vs, keys := StableStore.Values(proposals);
      r := Ok(vs);
    }

    // -------------------------------------------------------------------------
    // Proposals.

    /** Tables a proposal under `id`, members only. The new proposal is open,
        with no votes and no voters, and the caller as proposer. `id` comes
        from the environment's UUID generator; were it already taken, the
        old proposal would be overwritten. */
    method ProposalsAdd(caller: Principal, payload: ProposalPayload, id: string, now: nat) returns (r: Result<string, Error>)
      requires Valid()
      modifies this`proposals
      ensures Valid()
      ensures !CallerIsMember(caller) ==> r == Err(CannotAddProposals) && proposals == old(proposals)
      ensures CallerIsMember(caller) ==>
        && r == Ok(id)
        && proposals == old(proposals)[id := Proposal(id, now, None, caller, payload.title, payload.description,
                                                       payload.canisterId, payload.canisterMethod,
                                                       payload.canisterMethodParam, Open, 0, 0, [])]
      ensures CallerIsMember(caller) && id !in old(proposals) ==> |proposals| == |old(proposals)| + 1
    {
      if !CallerIsMember(caller) {
        return Err(CannotAddProposals);
      }
      var newProposal := Proposal(id, now, None, caller, payload.title, payload.description,
                                  payload.canisterId, payload.canisterMethod, payload.canisterMethodParam,
                                  Open, 0, 0, []);
      proposals := proposals[newProposal.id := newProposal];
      r := Ok(newProposal.id);
    }

    /** A yes vote. The voter list is never consulted or extended, so a member
        may vote any number of times. */
    method ProposalsVoteYes(caller: Principal, id: string) returns (r: Result<Proposal, Error>)
      requires Valid()
      modifies this`proposals
      ensures Valid()
      ensures !CallerIsMember(caller) ==> r == Err(CannotVote)
      ensures CallerIsMember(caller) && id !in old(proposals) ==> r == Err(ProposalMissing)
      ensures CallerIsMember(caller) && id in old(proposals) && old(proposals)[id].state != Open ==> r == Err(ProposalNotOpen)
      ensures r.Err? ==> proposals == old(proposals)
      ensures r.Ok? <==> CallerIsMember(caller) && id in old(proposals) && old(proposals)[id].state == Open
      ensures r.Ok? ==>
        && r.value == Voted(old(proposals)[id], Yes)
        && proposals == old(proposals)[id := r.value]
    {
      if !CallerIsMember(caller) {
        return Err(CannotVote);
      }
      if id in proposals {
        var proposal := proposals[id];
        if proposal.state == Open {
          VotePreservesReachable(proposal, Yes);
          proposal := proposal.(votesYes := proposal.votesYes + 1);
          if AreCloseConditionsMet(proposal) {
            if proposal.votesYes > proposal.votesNo {
              proposal := proposal.(state := Accepted);
            } else {
              proposal := proposal.(state := Rejected);
            }
          }
          proposals := proposals[id := proposal];
          r := Ok(proposal);
        } else {
          r := Err(ProposalNotOpen);
        }
      } else {
        r := Err(ProposalMissing);
      }
    }

    /** A no vote; the mirror image of ProposalsVoteYes. */
    method ProposalsVoteNo(caller: Principal, id: string) returns (r: Result<Proposal, Error>)
      requires Valid()
      modifies this`proposals
      ensures Valid()
      ensures !CallerIsMember(caller) ==> r == Err(CannotVote)
      ensures CallerIsMember(caller) && id !in old(proposals) ==> r == Err(ProposalMissing)
      ensures CallerIsMember(caller) && id in old(proposals) && old(proposals)[id].state != Open ==> r == Err(ProposalNotOpen)
      ensures r.Err? ==> proposals == old(proposals)
      ensures r.Ok? <==> CallerIsMember(caller) && id in old(proposals) && old(proposals)[id].state == Open
      ensures r.Ok? ==>
        && r.value == Voted(old(proposals)[id], No)
        && proposals == old(proposals)[id := r.value]
    {
      if !CallerIsMember(caller) {
        return Err(CannotVote);
      }
      if id in proposals {
        var proposal := proposals[id];
        if proposal.state == Open {
          VotePreservesReachable(proposal, No);
          proposal := proposal.(votesNo := proposal.votesNo + 1);
          if AreCloseConditionsMet(proposal) {
            if proposal.votesYes > proposal.votesNo {
              proposal := proposal.(state := Accepted);
            } else {
              proposal := proposal.(state := Rejected);
            }
          }
          proposals := proposals[id := proposal];
          r := Ok(proposal);
        } else {
          r := Err(ProposalNotOpen);
        }
      } else {
        r := Err(ProposalMissing);
      }
    }
  }
}
