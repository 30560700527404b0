/** Record types of the finance tracker: transactions, categories, budget jars
    and the derived per-jar allocation view (src/types/index.ts), plus the two
    small wrappers the rest of the model uses for absent values and for the
    outcome of a call into the persistence service. */
module Types {

  /** A value that may be missing (`undefined`/`null` in the source). */
  datatype Option<+T> = None | Some(value: T)

  /** What one call into the persistence service resolved to: the value it
      returned, or a rejection. The core never looks inside an error, so the
      rejection carries nothing. */
  datatype Outcome<+T> = Ok(value: T) | Err

  /** A month as `Date.getMonth` returns it: 0 is January. */
  type Month0 = m: int | 0 <= m < 12

  /** A day of the month as `Date.getDate` returns it. */
  type DayOfMonth = d: int | 1 <= d <= 31 witness 1

  /** A calendar day, already parsed from the record's `YYYY-MM-DD` string. */
  datatype Date = Date(year: int, month: Month0, day: DayOfMonth)

  /** A transaction's `type` is exactly one of 'income' or 'expense'. */
  datatype TxType = Income | Expense

  /** A transaction record. `isOptimistic` is the client-only flag that the
      optional field carries; a record without the field has it false. */
  datatype Transaction = Transaction(
    id: int,
    date: Date,
    amount: real,
    category: string,
    kind: TxType,
    description: string,
    isOptimistic: bool)

  /** A transaction before the store has assigned it an id
      (`Omit<Transaction, 'id'>`). */
  datatype TransactionDraft = TransactionDraft(
    date: Date,
    amount: real,
    category: string,
    kind: TxType,
    description: string)

  datatype Category = Category(id: string, name: string, color: string)

  /** A budget envelope receiving `percentage` (a fraction) of monthly income. */
  datatype Jar = Jar(id: string, name: string, percentage: real, color: string)

  /** A partial map from category id to jar id: a lookup may be absent. */
  type CategoryMapping = map<string, string>

  /** One line of a jar's per-category breakdown. */
  datatype CategoryShare = CategoryShare(id: string, name: string, amount: real)

  /** A jar extended with its derived figures; `percentage` is reused for the
      progress value, capped at 100. */
  datatype JarAllocationData = JarAllocationData(
    id: string,
    name: string,
    percentage: real,
    color: string,
    target: real,
    current: real,
    isOver: bool,
    categories: seq<CategoryShare>)

  /** The record the store persists for a draft under the id it assigned. */
  function Persisted(d: TransactionDraft, id: int): (t: Transaction)
  {
    Transaction(id, d.date, d.amount, d.category, d.kind, d.description, false)
  }
}
