/** The store object and its operations (the `Actions` implementation for
    `Accounts`, src/actions.rs). Each mutating method looks the record up, updates
    its fields and puts it back, and is proved to leave exactly the list the
    corresponding `Ledger` function describes. */
module Actions {
  import opened Models
  import opened Ledger

  class Accounts {
    var list: AccountList

    /** The store's invariant: every record is sound and sits under its own name. */
    ghost predicate Valid()
      reads this
    {
      AllSound(list) && WellKeyed(list)
    }

    /** `Accounts::new`: an empty store. */
    constructor ()
      ensures Valid()
      ensures list == NewList()
    {
      list := map[];
    }

    method CreateAccount(name: string) returns (r: CreateOutcome)
      requires Valid()
      modifies this
      ensures Valid()
      ensures r == Ledger.CreateAccount(old(list), name).outcome
      ensures list == Ledger.CreateAccount(old(list), name).list
    {
      Ledger.CreateKeepsSound(list, name);
      if name in list {
        r := AlreadyExists;
      } else {
        list := list[name := FreshAccount(name)];
        r := Created;
      }
    }

    method Deposit(amount: real, name: string) returns (r: Outcome)
      requires Valid()
      modifies this
      ensures Valid()
      ensures r == Ledger.Deposit(old(list), amount, name).outcome
      ensures list == Ledger.Deposit(old(list), amount, name).list
    {
      Ledger.DepositKeepsSound(list, amount, name);
      if amount <= 0.0 {
        return Err(InvalidAmount);
      }
      if name !in list {
        return Err(AccountNotFound);
      }
      var account := list[name];
      if account.debt > 0.0 {
        if amount >= account.debt {
          var leftover := amount - account.debt;
          account := account.(debt := 0.0);
          account := account.(balance := account.balance + leftover);
        } else {
          account := account.(debt := account.debt - amount);
        }
      } else {
        account := account.(balance := account.balance + amount);
      }
      list := list[name := account];
      r := Ok;
    }

    /** As written: no check that `amount` is positive. */
    method Withdraw(amount: real, name: string) returns (r: Outcome)
      requires Valid()
      modifies this
      ensures Valid()
      ensures r == Ledger.Withdraw(old(list), amount, name).outcome
      ensures list == Ledger.Withdraw(old(list), amount, name).list
    {
      Ledger.WithdrawKeepsSound(list, amount, name);
      if name !in list {
        return Err(AccountNotFound);
      }
      var account := list[name];
      if account.balance >= amount {
        account := account.(balance := account.balance - amount);
        list := list[name := account];
        r := Ok;
      } else {
        r := Err(InsufficientBalance);
      }
    }

    /** The corrected withdrawal: a non-positive amount is refused first. */
    method CheckedWithdraw(amount: real, name: string) returns (r: Outcome)
      requires Valid()
      modifies this
      ensures Valid()
      ensures r == Ledger.CheckedWithdraw(old(list), amount, name).outcome
      ensures list == Ledger.CheckedWithdraw(old(list), amount, name).list
    {
      if amount <= 0.0 {
        return Err(InvalidAmount);
      }
      r := Withdraw(amount, name);
    }

    method Loan(amount: real, name: string) returns (r: Outcome)
      requires Valid()
      modifies this
      ensures Valid()
      ensures r == Ledger.Loan(old(list), amount, name).outcome
      ensures list == Ledger.Loan(old(list), amount, name).list
    {
      Ledger.LoanKeepsSound(list, amount, name);
      if amount <= 0.0 {
        return Err(InvalidAmount);
      }
      if name !in list {
        return Err(AccountNotFound);
      }
      var account := list[name];
      if account.debt + amount > LoanLimit {
        return Err(LoanLimitExceeded);
      }
      account := account.(debt := account.debt + amount);
      account := account.(balance := account.balance + amount);
      list := list[name := account];
      r := Ok;
    }

    /** Read-only: reports the snapshot and changes nothing. */
    method AccountBalance(name: string) returns (r: Option<(real, real)>)
      ensures r == Ledger.AccountBalance(list, name)
      ensures Valid() && r.Some? ==> r.value.0 >= 0.0 && 0.0 <= r.value.1 <= LoanLimit
    {
      if name in list {
        var account := list[name];
        r := Some((account.balance, account.debt));
      } else {
        r := None;
      }
    }
  }
}
