/** The persisted records of the expense tracker: users and their expenses.
    Identifiers are the primary keys the database assigns. */
module Records {
  import opened Wrappers

  /** A calendar date as the date field parses it (`YYYY-MM-DD`). */
  datatype Date = Date(year: int, month: int, day: int)

  /** A registered user; `passwordHash` is the salted one-way digest, never the
      raw password. */
  datatype User = User(id: nat, username: string, email: string, passwordHash: string)

  /** One expense row. `amount` is exact here (the source stores a float);
      `userId` is the owner, a reference to `User.id`. */
  datatype Expense = Expense(
    id: nat,
    title: string,
    amount: real,
    category: string,
    date: Date,
    notes: Option<string>,
    userId: nat)
}
