# Master DAO canister — a Dafny model of its backend

The backend is a small DAO that runs as a sequential state machine over five stable key-value stores:

- **applicants**, **members** and **managers**, each keyed by principal;
- **proposals**, keyed by a UUID string;
- **account balances**, keyed by an ICRC-1 account (an owner plus an optional subaccount).

A caller registers with `applicants_add`. Registration is approved at once:

- the applicant record becomes a member record;
- the first member ever admitted also becomes the manager;
- the applicant record is removed;
- 100 tokens are written to the member's default account (no subaccount).

Members table proposals and vote yes or no. A proposal closes as soon as either counter exceeds 2: it is `Accepted` if yes > no, `Rejected` otherwise. The token side answers the ICRC-1 metadata queries with constants. `icrc1_transfer` moves tokens from the caller's account. When funds are insufficient it reports a transfer of 0 rather than an error.

## Layout

- `candid.dfy` (module `Candid`): `Option`, `Result`, `Principal`, `Blob`, `Nat8`, `Nat64`.
- `stable_store.dfy` (module `StableStore`): `Values`, the `values()` read of a stable map. Each store is a Dafny `map`, and the order of its values is left open.
- `token.dfy` (module `Token`, backend/token.ts):
  - the account and transfer types, and the metadata functions;
  - pure functions over the balance table: `Balance`, `Transferred`, `Total`, with lemmas about them;
  - class `Ledger`, which owns the `account_balances` store and has the imperative operations.
- `dao.dfy` (module `Dao`, backend/index.ts):
  - the records, and the voting rule as the function `Voted`;
  - class `Dao`, with the four stores as fields and a reference to the `Ledger`. Its `Valid()` invariant has two parts. `WellFormed()` says records are stored under their own ids, every proposal is reachable and was tabled by a member, managers are members, and there is at most one manager. `Disjoint()` says no identity is both applicant and member.
- `scenarios.dfy` (module `Scenarios`): sequences of calls from any valid state, showing how the contracts combine.

Inputs from the environment are parameters:

- the caller's principal (`ic.caller()`);
- the time (`ic.time()`), taken as one `now` per call because the time is fixed during one message;
- the UUID of a new proposal.

The small helpers `CallerIsMember`, `AreCloseConditionsMet`, `GetAccountForMember` and `Message` are modelled as plain functions:

- `CallerIsMember`, `AreCloseConditionsMet` and `GetAccountForMember` appear in the contracts below, where they state who may call, when a proposal closes, and which account receives the minted tokens.
- `Message` maps each `Error` to the exact text the canister returns. The lemma `MessagesAreDistinct` shows no two errors share a text.

The model follows the code in these places, where another reading might expect different behaviour:

- A second registration of the same identity fails with "Applicant is already a Member.", not with "already exists". Promotion has already removed the applicant record.
- `members_get` and `get_members_to_transfer` admit a manager or a member. `proposals_add`, the votes and `proposals_get` admit members only.
- The initial tokens go to the account whose subaccount is `None`.
- The manager record is built from the new member's fields (`{...new_member}`). The model keeps the manager fields (id, alias, about, createdAt, updatedAt) and drops `votes`.

## Model

| member | source | states |
|---|---|---|
| `StableStore.Values` | backend/index.ts:250 | the result holds every value of the store exactly once, one per key, in a key order that is left open |
| `Token.MetadataIsConstant` | backend/token.ts:61-121 | decimals 0, fee 0, minting account None, name "Master DAO Token", symbol "MDT", total supply the literal 1,000,000 |
| `Token.Transferred` | backend/token.ts:99-106 | with sufficient funds: for `from != to` the sender loses `amount` and the receiver gains it; a self-transfer leaves that balance as it was; every other account is unchanged; only `from` and `to` may gain a record |
| `Token.TotalUpdate` | backend/token.ts:136-152 | overwriting one balance with `v` changes the sum of all balances by `v` minus the overwritten balance |
| `Token.TransferConservesTotal` | backend/token.ts:99-106 | a transfer with sufficient funds leaves the sum of all balances unchanged |
| `Token.Ledger.GetBalanceOf` | backend/token.ts:124-133 | the stored balance, or 0 for an account with no record |
| `Token.Ledger.SetBalanceOf` | backend/token.ts:136-142 | the account's entry becomes the given balance; no other entry changes |
| `Token.Ledger.MintAndSetBalanceOf` | backend/token.ts:145-152 | the balance becomes exactly the minted amount: it overwrites and does not add; other accounts are unchanged; the supply changes by the amount minus the overwritten balance |
| `Token.Ledger.Icrc1BalanceOf` | backend/token.ts:78-81 | the account's balance, 0 when no record exists |
| `Token.Ledger.Icrc1Transfer` | backend/token.ts:90-109 | never `Err`; if `amount <= balance(caller, from_subaccount)` it returns `Ok(amount)`, applies `Transferred` and conserves the total; otherwise it returns `Ok(0)` with the ledger unchanged |
| `Dao.Voted` | backend/index.ts:327-337 | on an open proposal: exactly the chosen counter rises by 1; `Accepted` iff the close rule holds and yes > no; `Rejected` iff it holds and yes <= no (a tie closes as `Rejected`); `Open` iff it does not hold; every other field is unchanged |
| `Dao.AreCloseConditionsMet` | backend/index.ts:300-302 | the close rule `yes > 2 || no > 2`; what it decides is stated by `Voted` and `VotePreservesReachable` |
| `Dao.VotePreservesReachable` | backend/index.ts:300-302 | from a reachable open proposal, a vote keeps it reachable: no voter recorded, no execution state entered, and at most 2 votes a side while open. It is `Accepted` exactly when a yes vote takes yes to 3 and `Rejected` exactly when a no vote takes no to 3, so a tie never closes a reachable proposal |
| `Dao.VotesOnlyGrowWhileOpen` | backend/index.ts:359-369 | while open, each vote adds exactly one to the total and neither counter decreases |
| `Dao.MessagesAreDistinct` | backend/index.ts:195-384 | the ten error texts the canister returns are pairwise different, so the text identifies the error |
| `Dao.OthersAlongExact` | backend/index.ts:262-270 | filtering the caller out of a list of distinct member ids gives each other id exactly once, with its stored alias, and nothing else |
| `Dao.MembersOtherThan` | backend/index.ts:262-270 | exactly the members other than the caller, as `(id, alias)` pairs, each id once |
| `Dao.Dao.ManagerIsNeverApplicant` | backend/index.ts:219-225 | in a valid state a manager is a member and not an applicant |
| `Dao.Dao.CallerIsMember` | backend/index.ts:305-307 | the caller is a member; it is the gate in the ensures of `ProposalsAdd`, `ProposalsGet` and the two votes |
| `Dao.Dao.CallerIsManagerOrMember` | backend/index.ts:310-312 | in a valid state, being a manager or member is the same as being a member |
| `Dao.Dao.GetPrincipalProfile` | backend/index.ts:128-170 | the three flags are store membership, with `is_applicant` only for non-members; alias and about come from the member record, else the applicant record, else the manager record, else empty; an identity in no store gets all flags false and empty texts; in a valid state an applicant is neither member nor manager |
| `Dao.Dao.ApplicantsAdd` | backend/index.ts:173-199 | "already exists" if the caller is an applicant; otherwise "already a Member" if the caller is a member; on either error no store changes. Otherwise: `Ok(caller)`; the caller becomes a member with 0 votes and the payload's alias and about; it is not an applicant; it is the manager exactly when there was none; its default account holds exactly 100; the invariant is kept |
| `Dao.Dao.MembersAddFromApplicant` | backend/index.ts:202-239 | "doesn't exist" without an applicant record; "Member already exists" if the identity is also a member; on either error nothing changes. Otherwise: member inserted; manager inserted iff the manager store was empty; applicant removed; 100 tokens minted to the default account; well-formedness and disjointness kept |
| `Dao.Dao.GetAccountForMember` | backend/index.ts:390-396 | the account `(member, None)`; it names the account receiving the minted tokens in the ensures of `ApplicantsAdd`, `MembersAddFromApplicant` and `MemberSetInitialTokens` |
| `Dao.Dao.MemberSetInitialTokens` | backend/index.ts:399-402 | the `(member, None)` account's balance is set to 100 and nothing else changes |
| `Dao.Dao.MembersGet` | backend/index.ts:242-251 | an error exactly for callers who are neither manager nor member; otherwise as many entries as there are members, every member record among them |
| `Dao.Dao.GetMembersToTransfer` | backend/index.ts:254-271 | an error exactly for callers who are neither manager nor member; otherwise exactly the other members as `(id, alias)` pairs, each id once |
| `Dao.Dao.ProposalsGet` | backend/index.ts:379-387 | an error exactly for non-members; otherwise as many entries as there are proposals, every proposal among them |
| `Dao.Dao.ProposalsAdd` | backend/index.ts:274-297 | an error for a non-member, with the store unchanged; otherwise `Ok(id)` and the store gains an open proposal under `id`: 0 yes, 0 no, no voters, the caller as proposer, and the payload's fields. With a fresh id the store grows by one |
| `Dao.Dao.ProposalsVoteYes` | backend/index.ts:315-344 | errors, in this order, for a non-member, a missing id and a proposal that is not open, each leaving the store unchanged; otherwise the proposal becomes `Voted(p, Yes)`. The voter list is not checked, so repeated votes count |
| `Dao.Dao.ProposalsVoteNo` | backend/index.ts:347-376 | the same as the yes vote, with `Voted(p, No)` |
| `Scenarios.RegisterTwice` | backend/index.ts:177-198 | a second registration of an admitted identity fails with "already a Member" and leaves the first registration's member record and 100 tokens |
| `Scenarios.BootstrapOnce` | backend/index.ts:219-222 | starting with no manager, after two admissions only the first identity is manager; both are members |
| `Scenarios.OneMemberClosesProposal` | backend/index.ts:316-344 | three yes votes by one member accept a fresh proposal (3 yes, 0 no); a fourth vote is refused with "not Open" |
| `Scenarios.MintOverwritesEarlierTokens` | backend/token.ts:145-152 | tokens transferred to a not-yet-admitted identity's default account are replaced by 100 on admission, not added to |
| `Scenarios.SupplyIsNotTheSumOfBalances` | backend/token.ts:118-121 | after one admission on an empty ledger the balances sum to 100, while the reported total supply is 1,000,000 |

## Left out

- Generating the UUID, and the `globalThis.crypto` random-bytes workaround: the id of a new proposal is a parameter. If it collided with an existing id, the model overwrites that proposal, as the store's `insert` would.
- `ic.caller()` and `ic.time()`: environment inputs passed as parameters. Timestamps are stored and not interpreted.
- StableBTreeMap internals are not modelled: memory ids, key and value size limits, serialization and persistence. The order of `values()` depends on a key encoding that the model does not see, so it is left open.
- The `$query`/`$update` decorators, Candid encoding and call serialization: each call runs to completion on its own, which is what the methods assume.
- The ICRC-1 transfer fields `fee`, `memo` and `created_at_time` are carried in `TransferArgs` and ignored, as in the code. The `TransferError` arms are declared and never produced.
- The stored `AccountBalance` record repeats its key. The model keeps only the balance.
- The variant-probing helpers `isOk`, `getOk`, `isSome`, `getSome` and `isThisVariant`: pattern matching and discriminators replace them.
- The React front end (src/) only calls the backend and adds no logic.
