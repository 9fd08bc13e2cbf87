/** Any sequence of ledger requests, applied one after another to a store. This is
    what the store sees over a session: a fresh store (src/models.rs:14-18) and then
    one operation at a time, each run to completion before the next. */
module Sessions {
  import opened Models
  import Ledger

  /** One request to the ledger. */
  datatype Request =
    | CreateReq(name: string)
    | DepositReq(amount: real, name: string)
    | WithdrawReq(amount: real, name: string)
    | LoanReq(amount: real, name: string)
    | BalanceReq(name: string)

  /** The list one request leaves behind; a failed request leaves it as it was. */
  function Apply(list: AccountList, req: Request): AccountList {
    match req
    case CreateReq(name) => Ledger.CreateAccount(list, name).list
    case DepositReq(amount, name) => Ledger.Deposit(list, amount, name).list
    case WithdrawReq(amount, name) => Ledger.Withdraw(list, amount, name).list
    case LoanReq(amount, name) => Ledger.Loan(list, amount, name).list
    case BalanceReq(_) => list
  }

  /** The list left after running `reqs` in order from `list`. */
  function Run(list: AccountList, reqs: seq<Request>): AccountList
    decreases |reqs|
  {
    if reqs == [] then list else Run(Apply(list, reqs[0]), reqs[1..])
  }

  /** Every request keeps the invariant and keys every record by its own name. */
  lemma ApplyKeepsSound(list: AccountList, req: Request)
    requires Ledger.AllSound(list) && WellKeyed(list)
    ensures Ledger.AllSound(Apply(list, req)) && WellKeyed(Apply(list, req))
  {
    match req
    case CreateReq(name) => Ledger.CreateKeepsSound(list, name);
    case DepositReq(amount, name) => Ledger.DepositKeepsSound(list, amount, name);
    case WithdrawReq(amount, name) => Ledger.WithdrawKeepsSound(list, amount, name);
    case LoanReq(amount, name) => Ledger.LoanKeepsSound(list, amount, name);
    case BalanceReq(_) =>
  }

  lemma {:induction false} RunKeepsSound(list: AccountList, reqs: seq<Request>)
    requires Ledger.AllSound(list) && WellKeyed(list)
    ensures Ledger.AllSound(Run(list, reqs)) && WellKeyed(Run(list, reqs))
    decreases |reqs|
  {
    if reqs != [] {
      ApplyKeepsSound(list, reqs[0]);
      RunKeepsSound(Apply(list, reqs[0]), reqs[1..]);
    }
  }

  /** Only account creation adds a key, and no request removes one. */
  lemma ApplyKeys(list: AccountList, req: Request)
    ensures list.Keys <= Apply(list, req).Keys
    ensures forall name :: name in Apply(list, req) && name !in list ==> req == CreateReq(name)
  {
  }

  /** Accounts are never deleted, and every key a session ends with was there at
      the start or was created by one of its requests. */
  lemma {:induction false} RunKeys(list: AccountList, reqs: seq<Request>)
    ensures list.Keys <= Run(list, reqs).Keys
    ensures forall name :: name in Run(list, reqs) ==> name in list || CreateReq(name) in reqs
    decreases |reqs|
  {
    if reqs != [] {
      var next := Apply(list, reqs[0]);
      ApplyKeys(list, reqs[0]);
      RunKeys(next, reqs[1..]);
      forall name | name in Run(list, reqs)
        ensures name in list || CreateReq(name) in reqs
      {
        if name !in list && name !in next {
          assert CreateReq(name) in reqs[1..];
        }
      }
    }
  }

  /** From a fresh store, after any session, every account was created by a request
      of that session, sits under its own name, and has a non-negative balance and
      a debt between 0 and the ceiling. */
  lemma {:induction false} SessionFromNewStore(reqs: seq<Request>)
    ensures forall name :: name in Run(NewList(), reqs) ==>
              && CreateReq(name) in reqs
              && Run(NewList(), reqs)[name].name == name
              && Ledger.Sound(Run(NewList(), reqs)[name])
  {
    RunKeys(NewList(), reqs);
    RunKeepsSound(NewList(), reqs);
  }

  /** A session on alice: loan 200 (balance 200, debt 200), deposit 50, which only
      lowers the debt to 150, withdraw 100 (balance 100), then a loan of 900 that the
      ceiling refuses (150 + 900 > 1000). A deposit to the absent bob creates nothing. */
  lemma AliceSession()
    ensures var before := Run(NewList(), [CreateReq("alice"), LoanReq(200.0, "alice"),
                                          DepositReq(50.0, "alice"), WithdrawReq(100.0, "alice")]);
            && before == map["alice" := Account("alice", 100.0, 150.0)]
            && Ledger.Loan(before, 900.0, "alice") == Ledger.Step(Ledger.Err(Ledger.LoanLimitExceeded), before)
            && Ledger.Deposit(before, 10.0, "bob") == Ledger.Step(Ledger.Err(Ledger.AccountNotFound), before)
  {
  }
}
