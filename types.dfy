/**
 * The records the tracker works on: a transaction, the draft a new one is
 * made from, the period selector, the totals of a view and the two kinds of
 * chart data point.
 */
module FinanceTypes {
  import opened Calendar

  datatype TransactionType = Income | Expense

  /**
   * One recorded income or expense. `amount` is a magnitude in minor currency
   * units; its direction is carried by `kind` (the source's `type` field).
   */
  datatype Transaction = Transaction(
    id: string,
    name: string,
    amount: int,
    kind: TransactionType,
    category: string,
    date: Date,
    paymentMethod: string)

  /** A transaction without its id, as handed to the store to be added. */
  datatype Draft = Draft(
    name: string,
    amount: int,
    kind: TransactionType,
    category: string,
    date: Date,
    paymentMethod: string)

  /** The draft's fields with the given id. */
  function WithId(d: Draft, id: string): (t: Transaction)
    ensures t.id == id
    ensures Draft(t.name, t.amount, t.kind, t.category, t.date, t.paymentMethod) == d
  {
    Transaction(id, d.name, d.amount, d.kind, d.category, d.date, d.paymentMethod)
  }

  /**
   * The period selector. The four named periods are the declared ones;
   * `Unrecognised` stands for any other value that reaches the filter at run
   * time, which the filter treats like `All`.
   */
  datatype Period = Week | Month | Year | All | Unrecognised(tag: string)

  /** The filtered view together with its totals. */
  datatype FinanceState = FinanceState(
    transactions: seq<Transaction>,
    balance: int,
    totalIncome: int,
    totalExpense: int)

  /**
   * One month of the cash-flow chart. The source also carries a short locale
   * month label; the calendar month it is derived from is kept instead.
   */
  datatype MonthBucket = MonthBucket(key: MonthKey, income: int, expense: int)

  /** One slice of the expense-category chart. */
  datatype CategoryEntry = CategoryEntry(name: string, value: int)

  function AmountOf(t: Transaction): int { t.amount }

  function DayOf(t: Transaction): int {
    DayNumber(t.date)
  }
}
