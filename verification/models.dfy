/** The account record and the store that owns every record (src/models.rs).
    Money is exact: a `real` stands for the source's `f32` amount. */
module Models {

  /** One named account: spendable funds and outstanding loan principal. */
  datatype Account = Account(name: string, balance: real, debt: real)

  /** The store's `list`: a map, so each name has at most one record. */
  type AccountList = map<string, Account>

  /** The list a new store starts with: no account under any name, so every lookup misses. */
  function NewList(): (list: AccountList)
    ensures forall name :: name !in list
    ensures |list| == 0
  {
    map[]
  }

  /** Every record sits under its own name. */
  ghost predicate WellKeyed(list: AccountList) {
    forall name :: name in list ==> list[name].name == name
  }

  /** `after` has the keys of `before` and differs from it at most at `name`. */
  ghost predicate OnlyTouches(before: AccountList, after: AccountList, name: string) {
    && after.Keys == before.Keys
    && forall other :: other in before && other != name ==> after[other] == before[other]
  }
}
