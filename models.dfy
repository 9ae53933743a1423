/**
 * The four tables. A record's primary key is not part of the record: the
 * store maps keys to records and queries return `Row(id, record)`.
 * Amounts are the parsed floats, kept as reals (nothing computes with them);
 * timestamps are integers supplied by the caller.
 */
module Models {
  import opened Wrappers
  import opened Passwords

  /** `username` and `email` are required and unique; `password` holds the hash. */
  datatype User = User(username: string, email: string, password: PasswordHash)

  /** `frequency` may be null; `date` is required and defaults to the creation time. */
  datatype Transaction = Transaction(
    amount: real,
    category: string,
    transactionType: string,
    frequency: Option<string>,
    date: int,
    userId: nat)

  datatype Budget = Budget(category: string, amount: real, period: string, userId: nat)

  /** `currentAmount` defaults to 0; `dateCreated` defaults to the creation time. */
  datatype SavingsGoal = SavingsGoal(
    name: string,
    targetAmount: real,
    currentAmount: real,
    dateCreated: int,
    userId: nat)

  /** The two unique constraints of the user table: a username, and an email, identifies at most one user. */
  ghost predicate UniqueAccounts(users: map<nat, User>)
  {
    forall a, b :: a in users && b in users && a != b ==>
      users[a].username != users[b].username && users[a].email != users[b].email
  }

  /**
   * Every owner column names an existing user. The schema declares the foreign
   * keys, but SQLite does not enforce them unless asked to, so this is a
   * property the handlers may or may not keep, not a constraint of the store.
   */
  ghost predicate OwnersExist(
    users: map<nat, User>,
    transactions: map<nat, Transaction>,
    budgets: map<nat, Budget>,
    goals: map<nat, SavingsGoal>)
    ensures users == map[] ==>
      (OwnersExist(users, transactions, budgets, goals) <==> transactions == map[] && budgets == map[] && goals == map[])
  {
    && (forall k :: k in transactions ==> transactions[k].userId in users)
    && (forall k :: k in budgets ==> budgets[k].userId in users)
    && (forall k :: k in goals ==> goals[k].userId in users)
  }

  /** Every transaction has a frequency: the non-null `frequency` column of the earlier schema. */
  predicate FrequenciesPresent(transactions: map<nat, Transaction>) {
    forall k :: k in transactions ==> transactions[k].frequency.Some?
  }
}
