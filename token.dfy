/** The canister's token: a ledger of balances per account with the ICRC-1
    query and transfer surface (backend/token.ts). */
module Token {
  import opened Candid

  /** A ledger key: an owner and an optional subaccount. */
  datatype Account = Account(owner: Principal, subaccount: Option<Blob>)

  /** Arguments of `icrc1_transfer`. Only `to`, `fromSubaccount` and `amount`
      take part in the transfer; the others are accepted and ignored. */
  datatype TransferArgs = TransferArgs(
    amount: nat,
    createdAtTime: Option<Nat64>,
    fee: Option<nat>,
    fromSubaccount: Option<Blob>,
    memo: Option<Blob>,
    to: Account)

  /** The ICRC-1 transfer errors. The ledger never produces any of them. */
  datatype TransferError =
    | BadBurn(minBurnAmount: nat)
    | BadFee(expectedFee: nat)
    | CreatedInFuture(ledgerTime: Nat64)
    | Duplicate(duplicateOf: nat)
    | GenericError(errorCode: nat, message: string)
    | InsufficientFunds(balance: nat)
    | TemporarilyUnavailable
    | TooOld

  type TransferResult = Result<nat, TransferError>

  // ---------------------------------------------------------------------------
  // Metadata queries: fixed answers that do not look at the ledger.

  function Icrc1Decimals(): Nat8 { 0 }

  function Icrc1Fee(): nat { 0 }

  function Icrc1MintingAccount(): Option<Account> { None }

  function Icrc1Name(): string { "Master DAO Token" }

  function Icrc1Symbol(): string { "MDT" }

  function Icrc1TotalSupply(): nat { 1_000_000 }

  /** The metadata is constant; the reported total supply is a literal, not
      computed from the balances actually held. */
  lemma MetadataIsConstant()
    ensures Icrc1Decimals() == 0 && Icrc1Fee() == 0 && Icrc1MintingAccount() == None
    ensures Icrc1Name() == "Master DAO Token" && Icrc1Symbol() == "MDT"
    ensures Icrc1TotalSupply() == 1_000_000
  {
  }

  // ---------------------------------------------------------------------------
  // The balance table as a value.

  /** The balance of `a`; an account with no record holds 0. */
  function Balance(m: map<Account, nat>, a: Account): nat
  {
    if a in m then m[a] else 0
  }

  /** The table after a transfer of `amount` from `from` to `to`: the debit is
      written first and the credit re-reads the table, as the ledger does. */
  function Transferred(m: map<Account, nat>, from: Account, to: Account, amount: nat): (r: map<Account, nat>)
    requires amount <= Balance(m, from)
    ensures r.Keys == m.Keys + {from, to}
    ensures from != to ==> r[from] == Balance(m, from) - amount && r[to] == Balance(m, to) + amount
    ensures from == to ==> r[from] == Balance(m, from)
    ensures forall a :: a in m && a != from && a != to ==> r[a] == m[a]
  {
    var debited := m[from := Balance(m, from) - amount];
    debited[to := Balance(debited, to) + amount]
  }

  /** Some key of a non-empty table; Total takes its entries in this order. */
  ghost function AnyKey(m: map<Account, nat>): Account
    requires m != map[]
  {
    var a :| a in m; a
  }

  /** The sum of all balances in the table. */
  ghost function Total(m: map<Account, nat>): nat
    decreases |m|
  {
    if m == map[] then 0
    else
      var a := AnyKey(m);
      m[a] + Total(m - {a})
  }

  /** Total may take out any entry first, whichever key AnyKey picks. */
  lemma {:induction false} TotalRemove(m: map<Account, nat>, a: Account)
    requires a in m
    ensures Total(m) == m[a] + Total(m - {a})
    decreases |m|
  {
    var b := AnyKey(m);
    if b != a {
      assert m - {b} - {a} == m - {a} - {b};
      TotalRemove(m - {b}, a);
      TotalRemove(m - {a}, b);
    }
  }

  /** Overwriting one balance changes the total by the difference. */
  lemma {:induction false} TotalUpdate(m: map<Account, nat>, a: Account, v: nat)
    ensures Total(m[a := v]) + Balance(m, a) == Total(m) + v
  {
    TotalRemove(m[a := v], a);
    assert m[a := v] - {a} == m - {a};
    if a in m {
      TotalRemove(m, a);
    } else {
      assert m - {a} == m;
    }
  }

  /** A transfer with sufficient funds conserves the sum of all balances. */
  lemma TransferConservesTotal(m: map<Account, nat>, from: Account, to: Account, amount: nat)
    requires amount <= Balance(m, from)
    ensures Total(Transferred(m, from, to, amount)) == Total(m)
  {
    var debited := m[from := Balance(m, from) - amount];
    TotalUpdate(m, from, Balance(m, from) - amount);
    TotalUpdate(debited, to, Balance(debited, to) + amount);
  }

  // ---------------------------------------------------------------------------
  // The ledger's stable store.

  class Ledger {
    /** The `account_balances` store. Each stored record repeats its key,
        so the model keeps only the balance. */
    var balances: map<Account, nat>

    constructor ()
      ensures balances == map[]
    {
      balances := map[];
    }

    method GetBalanceOf(account: Account) returns (balance: nat)
      ensures account in balances ==> balance == balances[account]
      ensures account !in balances ==> balance == 0
    {
      balance := 0;
      if account in balances {
        balance := balances[account];
      }
    }

    method SetBalanceOf(account: Account, balance: nat)
      modifies this
      ensures balances == old(balances)[account := balance]
    {
      balances := balances[account := balance];
    }

    /** Writes `balance` over whatever `account` held: nothing is added. */
    method MintAndSetBalanceOf(account: Account, balance: nat)
      modifies this
      ensures balances == old(balances)[account := balance]
      ensures Balance(balances, account) == balance
      ensures Total(balances) + Balance(old(balances), account) == Total(old(balances)) + balance
    {
      TotalUpdate(balances, account, balance);
      balances := balances[account := balance];
    }

    method Icrc1BalanceOf(account: Account) returns (balance: nat)
      ensures balance == Balance(balances, account)
    {
      balance := GetBalanceOf(account);
    }

    /** Moves `args.amount` from the caller's account to `args.to`. Insufficient
        funds are reported as a transfer of 0, never as an `Err`. */
    method Icrc1Transfer(caller: Principal, args: TransferArgs) returns (r: TransferResult)
      modifies this
      ensures r.Ok?
      ensures var from := Account(caller, args.fromSubaccount);
        if args.amount <= Balance(old(balances), from) then
          && r == Ok(args.amount)
          && balances == Transferred(old(balances), from, args.to, args.amount)
          && Total(balances) == Total(old(balances))
        else
          r == Ok(0) && balances == old(balances)
    {
      var from := Account(caller, args.fromSubaccount);
      var to := args.to;
      var fromBalance := GetBalanceOf(from);
      var retBal := 0;
      if fromBalance - args.amount >= 0 {
        SetBalanceOf(from, fromBalance - args.amount);
        var toBalance := GetBalanceOf(to);
        SetBalanceOf(to, toBalance + args.amount);
        retBal := args.amount;
        TransferConservesTotal(old(balances), from, to, args.amount);
      }
      r := Ok(retBal);
    }
  }
}
