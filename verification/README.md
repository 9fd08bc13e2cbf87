# rust-cli-bank ledger, modelled in Dafny

A model of the ledger at the heart of a small command-line bank. The store
(`Accounts`) maps an account name to one `Account { name, balance, debt }`. Five
operations act on it:

- `create_account` inserts a zeroed record, or reports that the name exists and changes nothing;
- `deposit` retires debt before anything reaches the balance;
- `withdraw` is bounded by the balance;
- `loan` raises debt and balance together, up to a total debt of 1000;
- `account_balance` is a read-only snapshot.

Layout:

- `models.dfy` (module `Models`): the `Account` record, the `AccountList` map and the empty list of a new store.
- `ledger.dfy` (module `Ledger`): each operation as a function from a list to an outcome and a new list.
  Beside each function are the lemmas on its boundaries (`amount == debt`, `balance == amount`, `debt + amount == 1000`).
  The invariant every operation keeps is `Sound`: balance ≥ 0 and 0 ≤ debt ≤ 1000.
- `actions.dfy` (module `Actions`): the class `Accounts`. Its field `list: map<string, Account>` is updated in place by methods.
  Each method follows the branches of the source, and its `ensures` equates its answer and the new list with the `Ledger` function.
- `sessions.dfy` (module `Sessions`): any sequence of requests run on a store.
  From a fresh store, every account that exists was created by a request, sits under its own name, and is sound.

Money is exact: a `real` stands for the source's `f32`. Each error string becomes a kind of the `Error` datatype:

- "invalid amount" and "loan amount must be positive" become `InvalidAmount`;
- "account not found" becomes `AccountNotFound`;
- "invalid balance" becomes `InsufficientBalance`;
- "loan limit exceeded" becomes `LoanLimitExceeded`.

The printed "Account already exists!" report becomes the `AlreadyExists` outcome.
The printed balance report becomes an `Option` of the pair (balance, debt).

Two behaviours of the code are worth noting:

- `withdraw` has no check that the amount is positive (see Findings).
- A deposit smaller than the debt only lowers the debt. So after a loan of 200, a deposit of 50 leaves balance 200 and debt 150.
  `Sessions.AliceSession` proves that the session loan 200, deposit 50, withdraw 100 ends at balance 100, debt 150, and that a further loan of 900 is refused.

## Model

| member | source | states |
|---|---|---|
| `Models.NewList` | src/models.rs:13-18 | a new store holds no account, so every lookup misses |
| `Ledger.CreateAccount` | src/actions.rs:12-23 | reports `AlreadyExists` iff the name is present, and then the list is unchanged; otherwise exactly one key is added, holding a record named by the key with balance 0 and debt 0; every other record is untouched |
| `Ledger.Credit` | src/actions.rs:32-42 | a deposit always raises balance − debt by exactly the amount; for a positive amount and non-negative debt, the new debt is max(debt − amount, 0) and the balance gains max(amount − debt, 0) |
| `Ledger.Deposit` | src/actions.rs:25-45 | succeeds iff amount > 0 and the account exists; a non-positive amount is `InvalidAmount` (checked first), a missing name `AccountNotFound`; a failure leaves the list unchanged and creates nothing; only the named record changes, by the debt-first rule |
| `Ledger.Withdraw` | src/actions.rs:47-55 | succeeds iff the account exists and balance ≥ amount, with no sign check on the amount; errors are `AccountNotFound`, then `InsufficientBalance`; on success the balance drops by exactly the amount and debt and name stay; a failure changes nothing; only the named record changes |
| `Ledger.CheckedWithdraw` | src/actions.rs:47-55 | the corrected withdrawal: succeeds iff amount > 0, the account exists and balance ≥ amount; errors in order `InvalidAmount`, `AccountNotFound`, `InsufficientBalance`; on success the balance drops by exactly the (positive) amount, so strictly, and name and debt stay; a failure changes nothing; only the named record changes |
| `Ledger.Loan` | src/actions.rs:57-71 | succeeds iff amount > 0, the account exists and debt + amount ≤ 1000; errors in order `InvalidAmount`, `AccountNotFound`, `LoanLimitExceeded`; on success debt and balance both rise by exactly the amount, leaving balance − debt unchanged; a failure changes nothing; only the named record changes |
| `Ledger.AccountBalance` | src/actions.rs:73-84 | a snapshot exists iff the account does, and it holds that account's balance and debt |
| `Ledger.DepositOfExactDebt` | src/actions.rs:32-36 | depositing exactly the outstanding debt succeeds, sets debt to 0 and leaves the balance unchanged |
| `Ledger.DepositBelowDebt` | src/actions.rs:37-39 | a positive deposit below the debt lowers debt by exactly the amount and leaves the balance unchanged |
| `Ledger.DepositWithoutDebt` | src/actions.rs:40-42 | with no debt, the balance rises by exactly the amount and debt stays 0 |
| `Ledger.LoanUpToLimit` | src/actions.rs:63-68 | a loan that brings the debt to exactly 1000 is granted |
| `Ledger.WithdrawWholeBalance` | src/actions.rs:49-50 | withdrawing exactly the balance is allowed and leaves balance 0 |
| `Ledger.CreateTwice` | src/actions.rs:12-22 | creating a name a second time reports `AlreadyExists` and leaves the list as the first call left it (no reset) |
| `Ledger.CreateKeepsSound` | src/actions.rs:12-22 | creation keeps every record sound and keyed by its own name |
| `Ledger.CreditKeepsSound` | src/actions.rs:32-42 | a positive deposit on a sound record yields a sound record |
| `Ledger.DepositKeepsSound` | src/actions.rs:25-45 | deposit keeps every record sound and keyed by its own name |
| `Ledger.WithdrawKeepsSound` | src/actions.rs:47-55 | withdraw as written keeps every record sound, even for a negative amount |
| `Ledger.LoanKeepsSound` | src/actions.rs:57-71 | loan keeps every record sound: debt never exceeds 1000 |
| `Ledger.NegativeWithdrawalRaisesBalance` | src/actions.rs:47-55 | as written, a negative withdrawal from an existing account succeeds and strictly raises its balance |
| `Ledger.CheckedWithdrawNeverRaises` | src/actions.rs:47-55 | the corrected withdrawal never raises a balance and agrees with the as-written one on every positive amount |
| `Actions.Accounts.constructor` | src/models.rs:14-18 | a new store is empty and valid |
| `Actions.Accounts.CreateAccount` | src/actions.rs:12-23 | the answer and new list are those of `Ledger.CreateAccount`; the store stays valid |
| `Actions.Accounts.Deposit` | src/actions.rs:25-45 | updating the record in place, branch by branch, yields the answer and list of `Ledger.Deposit`; the store stays valid |
| `Actions.Accounts.Withdraw` | src/actions.rs:47-55 | yields the answer and list of `Ledger.Withdraw` (as written); the store stays valid |
| `Actions.Accounts.CheckedWithdraw` | src/actions.rs:47-55 | yields the answer and list of `Ledger.CheckedWithdraw`; the store stays valid |
| `Actions.Accounts.Loan` | src/actions.rs:57-71 | yields the answer and list of `Ledger.Loan`; the store stays valid |
| `Actions.Accounts.AccountBalance` | src/actions.rs:73-84 | changes nothing; returns the `Ledger.AccountBalance` snapshot, whose balance is ≥ 0 and whose debt is between 0 and 1000 on a valid store |
| `Sessions.ApplyKeepsSound` | src/actions.rs:11-85 | every request keeps all records sound and keyed by their own names |
| `Sessions.RunKeepsSound` | src/actions.rs:11-85 | any sequence of requests keeps all records sound and keyed by their own names |
| `Sessions.ApplyKeys` | src/actions.rs:21 | no request removes a key, and only the creation of that name adds one |
| `Sessions.RunKeys` | src/actions.rs:21 | over any sequence, keys are never removed, and every final key was present at the start or created by a request of the sequence |
| `Sessions.SessionFromNewStore` | src/models.rs:13-19 | from a new store, after any sequence, every account was created by a request, is named by its key, and has balance ≥ 0 and 0 ≤ debt ≤ 1000 |
| `Sessions.AliceSession` | src/actions.rs:25-71 | loan 200, deposit 50 and withdraw 100 on a new account leave balance 100 and debt 150; a further loan of 900 is refused with `LoanLimitExceeded` and changes nothing; a deposit to a missing name is `AccountNotFound` and creates nothing |

## Left out

- src/main.rs, the interactive menu loop: terminal I/O, screen clearing and `expect` panics. `Sessions.Run` stands in for "any sequence of operations" the loop can issue.
- src/utils.rs: `take_input` reads stdin, and `str_to_float` wraps the standard library's `f32` parser. The amount arrives in the model as a parameter.
- The `println!` output of `create_account` and `account_balance`. Each report becomes a returned value (`AlreadyExists`, an `Option` snapshot).
- `f32` arithmetic: rounding, NaN, infinities and `{:.2}` formatting. Amounts are exact reals.
  With a NaN amount, the source's `amount <= 0.0` guard lets the call through. The model has no such value.
- `HashMap` hashing; a Dafny `map` keeps at most one record per name, which is all the program relies on.
- `Account` is a value stored in the map. The source's `get_mut` update in place becomes replacing the map entry.
  The store owns its records exclusively, so no aliasing is lost.

## Findings

| source | as written | input that shows it | evidently intended | confidence | as-written member | corrected member |
|---|---|---|---|---|---|---|
| src/actions.rs:47-55 | `withdraw` only checks the account exists and balance ≥ amount; unlike `deposit` (src/actions.rs:26-28) and `loan` (src/actions.rs:58-60), it does not refuse a non-positive amount | withdraw(-5, "alice") on an existing account with balance 100: succeeds and sets the balance to 105 | a non-positive amount is refused with `InvalidAmount`, so a withdrawal never raises a balance | high, not executed | `Ledger.NegativeWithdrawalRaisesBalance` (on `Ledger.Withdraw`) | `Ledger.CheckedWithdraw`, with `Ledger.CheckedWithdrawNeverRaises` and `Actions.Accounts.CheckedWithdraw` |

The program as shipped uses the as-written `withdraw`.
So `Actions.Accounts.Withdraw` and `Sessions.Run` keep that behaviour, and the invariant lemmas are proved for it.
A negative withdrawal raises the balance, so it cannot break balance ≥ 0.
