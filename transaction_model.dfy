/**
 * The MyMoneyNotes ledger entity. Its fields are the ones the view model fills in when it builds a
 * record and the ones the list screen reads; the key is assumed to be an auto-generated Int that
 * defaults to 0.
 */
module TransactionModel {

  /** The two kinds of ledger entry (Kotlin enum `TransactionType`). */
  datatype TransactionType = INCOME | EXPENSE

  /** The key value that means "let the store assign one" (an auto-generated Int primary key left at 0). */
  const UnsetId: int := 0

  /**
   * One ledger row. `kind` is the source's `type` field (a Dafny keyword); `amount` is in minor
   * currency units and `date` in milliseconds since the epoch.
   */
  datatype Transaction = Transaction(
    id: int,
    kind: TransactionType,
    category: string,
    amount: int,
    date: int,
    note: string)

  /** The record the view model builds: the key is left at its default, every other field is given. */
  function NewTransaction(kind: TransactionType, category: string, amount: int, date: int, note: string): (t: Transaction)
    ensures t.id == UnsetId
    ensures t.kind == kind && t.category == category && t.amount == amount
    ensures t.date == date && t.note == note
  {
    Transaction(UnsetId, kind, category, amount, date, note)
  }
}
