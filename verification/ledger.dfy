/** The rules of the five ledger operations (src/actions.rs) as functions on the
    account list: what each operation answers and which list it leaves behind.
    The methods of `Actions.Accounts` are proved to compute exactly these. */
module Ledger {
  import opened Models

  /** The fixed ceiling on one account's outstanding debt. */
  const LoanLimit: real := 1000.0

  /** The failures the operations report (each replaces one of the source's error strings). */
  datatype Error =
    | InvalidAmount        // "invalid amount", "loan amount must be positive"
    | AccountNotFound      // "account not found"
    | InsufficientBalance  // "invalid balance"
    | LoanLimitExceeded    // "loan limit exceeded"

  /** The answer of deposit, withdraw and loan. */
  datatype Outcome = Ok | Err(error: Error)

  /** The answer of account creation: a fresh account, or the "already exists" report. */
  datatype CreateOutcome = Created | AlreadyExists

  datatype Option<T> = None | Some(value: T)

  /** An operation's answer together with the list it leaves behind. */
  datatype Step<T> = Step(outcome: T, list: AccountList)

  /** The invariant every record keeps: no negative balance, debt between 0 and the ceiling. */
  ghost predicate Sound(a: Account) {
    a.balance >= 0.0 && 0.0 <= a.debt <= LoanLimit
  }

  ghost predicate AllSound(list: AccountList) {
    forall name :: name in list ==> Sound(list[name])
  }

  function Max(x: real, y: real): real {
    if x >= y then x else y
  }

  /** The record `create_account` inserts: zero balance, zero debt. */
  function FreshAccount(name: string): Account {
    Account(name, 0.0, 0.0)
  }

  /** `create_account`: a fresh record under a new name; a name already present is
      reported and the whole list stays as it was. */
  function CreateAccount(list: AccountList, name: string): (s: Step<CreateOutcome>)
    ensures s.outcome == AlreadyExists <==> name in list
    ensures name in list ==> s.list == list
    ensures s.list.Keys == list.Keys + {name}
    ensures name !in list ==> s.list[name] == FreshAccount(name)
    ensures forall other :: other in list ==> s.list[other] == list[other]
  {
    if name in list then Step(AlreadyExists, list)
    else Step(Created, list[name := FreshAccount(name)])
  }

  /** A deposit applied to one record, debt first: the amount retires debt and only
      the surplus reaches the balance. Measured as balance minus debt, the account
      always gains exactly `amount`. */
  function Credit(a: Account, amount: real): (r: Account)
    ensures r.name == a.name
    ensures r.balance - r.debt == a.balance - a.debt + amount
    ensures amount > 0.0 && a.debt >= 0.0 ==>
              r.debt == Max(a.debt - amount, 0.0) && r.balance == a.balance + Max(amount - a.debt, 0.0)
  {
    if a.debt > 0.0 then
      if amount >= a.debt then a.(debt := 0.0, balance := a.balance + (amount - a.debt))
      else a.(debt := a.debt - amount)
    else a.(balance := a.balance + amount)
  }

  /** `deposit`: the amount is checked before the name is looked up; a failure
      changes nothing and creates no account. */
  function Deposit(list: AccountList, amount: real, name: string): (s: Step<Outcome>)
    ensures s.outcome == Ok <==> amount > 0.0 && name in list
    ensures amount <= 0.0 ==> s.outcome == Err(InvalidAmount)
    ensures amount > 0.0 && name !in list ==> s.outcome == Err(AccountNotFound)
    ensures s.outcome != Ok ==> s.list == list
    ensures OnlyTouches(list, s.list, name)
    ensures s.outcome == Ok ==> s.list[name] == Credit(list[name], amount)
  {
    if amount <= 0.0 then Step(Err(InvalidAmount), list)
    else if name !in list then Step(Err(AccountNotFound), list)
    else Step(Ok, list[name := Credit(list[name], amount)])
  }

  /** `withdraw` as written: bounded by the balance only, with no check that the
      amount is positive. */
  function Withdraw(list: AccountList, amount: real, name: string): (s: Step<Outcome>)
    ensures s.outcome == Ok <==> name in list && list[name].balance >= amount
    ensures name !in list ==> s.outcome == Err(AccountNotFound)
    ensures name in list && list[name].balance < amount ==> s.outcome == Err(InsufficientBalance)
    ensures s.outcome != Ok ==> s.list == list
    ensures OnlyTouches(list, s.list, name)
    ensures s.outcome == Ok ==>
              && s.list[name].name == list[name].name
              && s.list[name].balance == list[name].balance - amount
              && s.list[name].debt == list[name].debt
  {
    if name !in list then Step(Err(AccountNotFound), list)
    else if list[name].balance >= amount then
      Step(Ok, list[name := list[name].(balance := list[name].balance - amount)])
    else Step(Err(InsufficientBalance), list)
  }

  /** `withdraw` with the positivity check that `deposit` and `loan` perform. */
  function CheckedWithdraw(list: AccountList, amount: real, name: string): (s: Step<Outcome>)
    ensures s.outcome == Ok <==> amount > 0.0 && name in list && list[name].balance >= amount
    ensures amount <= 0.0 ==> s.outcome == Err(InvalidAmount)
    ensures amount > 0.0 && name !in list ==> s.outcome == Err(AccountNotFound)
    ensures amount > 0.0 && name in list && list[name].balance < amount ==> s.outcome == Err(InsufficientBalance)
    ensures s.outcome != Ok ==> s.list == list
    ensures OnlyTouches(list, s.list, name)
    ensures s.outcome == Ok ==>
              && s.list[name].name == list[name].name
              && s.list[name].balance == list[name].balance - amount
              && s.list[name].balance < list[name].balance
              && s.list[name].debt == list[name].debt
  {
    if amount <= 0.0 then Step(Err(InvalidAmount), list)
    else Withdraw(list, amount, name)
  }

  /** `loan`: the amount, the name and the ceiling are checked in that order; a
      granted loan raises debt and balance by the same amount. */
  function Loan(list: AccountList, amount: real, name: string): (s: Step<Outcome>)
    ensures s.outcome == Ok <==> amount > 0.0 && name in list && list[name].debt + amount <= LoanLimit
    ensures amount <= 0.0 ==> s.outcome == Err(InvalidAmount)
    ensures amount > 0.0 && name !in list ==> s.outcome == Err(AccountNotFound)
    ensures amount > 0.0 && name in list && list[name].debt + amount > LoanLimit ==>
              s.outcome == Err(LoanLimitExceeded)
    ensures s.outcome != Ok ==> s.list == list
    ensures OnlyTouches(list, s.list, name)
    ensures s.outcome == Ok ==>
              && s.list[name].name == list[name].name
              && s.list[name].balance == list[name].balance + amount
              && s.list[name].debt == list[name].debt + amount
              && s.list[name].balance - s.list[name].debt == list[name].balance - list[name].debt
  {
    if amount <= 0.0 then Step(Err(InvalidAmount), list)
    else if name !in list then Step(Err(AccountNotFound), list)
    else if list[name].debt + amount > LoanLimit then Step(Err(LoanLimitExceeded), list)
    else Step(Ok, list[name := list[name].(debt := list[name].debt + amount,
                                           balance := list[name].balance + amount)])
  }

  /** `account_balance`: a snapshot of balance and debt, or "not found". */
  function AccountBalance(list: AccountList, name: string): (r: Option<(real, real)>)
    ensures r.Some? <==> name in list
    ensures r.Some? ==> r.value.0 == list[name].balance && r.value.1 == list[name].debt
  {
    if name in list then Some((list[name].balance, list[name].debt)) else None
  }

  // ---------------------------------------------------------------------------
  // Boundary cases of the five operations

  /** A deposit of exactly the debt clears it and leaves the balance where it was. */
  lemma DepositOfExactDebt(list: AccountList, name: string)
    requires name in list && list[name].debt > 0.0
    ensures Deposit(list, list[name].debt, name).outcome == Ok
    ensures Deposit(list, list[name].debt, name).list[name].debt == 0.0
    ensures Deposit(list, list[name].debt, name).list[name].balance == list[name].balance
  {
  }

  /** A deposit below the debt only lowers the debt. */
  lemma DepositBelowDebt(list: AccountList, amount: real, name: string)
    requires name in list && 0.0 < amount < list[name].debt
    ensures Deposit(list, amount, name).list[name].debt == list[name].debt - amount
    ensures Deposit(list, amount, name).list[name].balance == list[name].balance
  {
  }

  /** A deposit into a debt-free account goes entirely to the balance. */
  lemma DepositWithoutDebt(list: AccountList, amount: real, name: string)
    requires name in list && amount > 0.0 && list[name].debt == 0.0
    ensures Deposit(list, amount, name).list[name].balance == list[name].balance + amount
    ensures Deposit(list, amount, name).list[name].debt == 0.0
  {
  }

  /** A loan that brings the debt to exactly the ceiling is granted. */
  lemma LoanUpToLimit(list: AccountList, name: string)
    requires name in list && list[name].debt < LoanLimit
    ensures Loan(list, LoanLimit - list[name].debt, name).outcome == Ok
    ensures Loan(list, LoanLimit - list[name].debt, name).list[name].debt == LoanLimit
  {
  }

  /** Withdrawing the whole balance is allowed and empties it. */
  lemma WithdrawWholeBalance(list: AccountList, name: string)
    requires name in list
    ensures Withdraw(list, list[name].balance, name).outcome == Ok
    ensures Withdraw(list, list[name].balance, name).list[name].balance == 0.0
  {
  }

  /** Creating an account a second time leaves it exactly as the first call made it. */
  lemma CreateTwice(list: AccountList, name: string)
    ensures CreateAccount(CreateAccount(list, name).list, name).outcome == AlreadyExists
    ensures CreateAccount(CreateAccount(list, name).list, name).list == CreateAccount(list, name).list
  {
  }

  // ---------------------------------------------------------------------------
  // The invariant every operation keeps

  lemma CreateKeepsSound(list: AccountList, name: string)
    requires AllSound(list) && WellKeyed(list)
    ensures AllSound(CreateAccount(list, name).list) && WellKeyed(CreateAccount(list, name).list)
  {
  }

  lemma CreditKeepsSound(a: Account, amount: real)
    requires Sound(a) && amount > 0.0
    ensures Sound(Credit(a, amount))
  {
  }

  lemma DepositKeepsSound(list: AccountList, amount: real, name: string)
    requires AllSound(list) && WellKeyed(list)
    ensures AllSound(Deposit(list, amount, name).list) && WellKeyed(Deposit(list, amount, name).list)
  {
    if amount > 0.0 && name in list {
      CreditKeepsSound(list[name], amount);
    }
  }

  /** As written, withdraw keeps the invariant even for a negative amount: the
      balance can only rise then. */
  lemma WithdrawKeepsSound(list: AccountList, amount: real, name: string)
    requires AllSound(list) && WellKeyed(list)
    ensures AllSound(Withdraw(list, amount, name).list) && WellKeyed(Withdraw(list, amount, name).list)
  {
  }

  lemma LoanKeepsSound(list: AccountList, amount: real, name: string)
    requires AllSound(list) && WellKeyed(list)
    ensures AllSound(Loan(list, amount, name).list) && WellKeyed(Loan(list, amount, name).list)
  {
  }

  // ---------------------------------------------------------------------------
  // Finding: withdraw has no positivity check

  /** As written, a negative withdrawal from an existing account with a
      non-negative balance succeeds and raises the balance. */
  lemma NegativeWithdrawalRaisesBalance(list: AccountList, amount: real, name: string)
    requires name in list && list[name].balance >= 0.0 && amount < 0.0
    ensures Withdraw(list, amount, name).outcome == Ok
    ensures Withdraw(list, amount, name).list[name].balance > list[name].balance
  {
  }

  /** The corrected withdrawal never raises a balance, and agrees with the
      as-written one on every positive amount. */
  lemma CheckedWithdrawNeverRaises(list: AccountList, amount: real, name: string)
    requires name in list
    ensures CheckedWithdraw(list, amount, name).list[name].balance <= list[name].balance
    ensures amount > 0.0 ==> CheckedWithdraw(list, amount, name) == Withdraw(list, amount, name)
  {
  }
}
