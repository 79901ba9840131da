/**
 * The finance store of the `useFinance` hook: the list of transactions with
 * its two mutators, and the views derived from it, the period-filtered list
 * sorted newest first and its income, expense and balance totals.
 */
module UseFinance {
  import opened Calendar
  import opened FinanceTypes
  import opened Sequences
  import opened StableSort

  // ---------------------------------------------------------------------------
  // Period filter

  /**
   * Whether a transaction dated `d` belongs to `period`, seen from the
   * calendar date `now`. Year and month are calendar rules; the week rule
   * keeps every date from seven days before `now` on, with no upper bound.
   * Any value other than the four named periods keeps everything.
   */
  predicate InPeriod(d: Date, period: Period, now: Date) {
    match period
    case All => true
    case Year => d.year == now.year
    case Month => d.month == now.month && d.year == now.year
    case Week => DayNumber(d) >= DayNumber(now) - 7
    case Unrecognised(_) => true
  }

  function InPeriodPred(period: Period, now: Date): Transaction -> bool {
    (t: Transaction) => InPeriod(t.date, period, now)
  }

  /** The stored transactions that belong to the period, in store order. */
  function InPeriodOf(transactions: seq<Transaction>, period: Period, now: Date): seq<Transaction> {
    Filter(transactions, InPeriodPred(period, now))
  }

  /** `filteredTransactions`: the period's transactions, newest date first. */
  function FilterTransactions(transactions: seq<Transaction>, period: Period, now: Date): seq<Transaction> {
    SortDesc(InPeriodOf(transactions, period, now), DayOf)
  }

  /**
   * The view holds each stored transaction that belongs to the period exactly
   * as many times as the store does, and nothing else.
   */
  lemma FilterTransactionsExact(transactions: seq<Transaction>, period: Period, now: Date, t: Transaction)
    ensures multiset(FilterTransactions(transactions, period, now))[t]
         == if InPeriod(t.date, period, now) then multiset(transactions)[t] else 0
  {
    SortDescPermutation(InPeriodOf(transactions, period, now), DayOf);
    FilterCount(transactions, InPeriodPred(period, now), t);
  }

  lemma FilterTransactionsMembers(transactions: seq<Transaction>, period: Period, now: Date)
    ensures forall t :: t in FilterTransactions(transactions, period, now)
                    <==> t in transactions && InPeriod(t.date, period, now)
    ensures |FilterTransactions(transactions, period, now)| <= |transactions|
  {
    var view := FilterTransactions(transactions, period, now);
    SortDescPermutation(InPeriodOf(transactions, period, now), DayOf);
    forall t ensures t in view <==> t in transactions && InPeriod(t.date, period, now) {
      FilterTransactionsExact(transactions, period, now, t);
    }
  }

  /** The view is ordered by date, newest first. */
  lemma FilterTransactionsSorted(transactions: seq<Transaction>, period: Period, now: Date)
    ensures forall i, j :: 0 <= i < j < |FilterTransactions(transactions, period, now)| ==>
              DayNumber(FilterTransactions(transactions, period, now)[i].date)
                >= DayNumber(FilterTransactions(transactions, period, now)[j].date)
  {
    SortDescSorted(InPeriodOf(transactions, period, now), DayOf);
  }

  /** Transactions sharing a date appear in the view in their store order. */
  lemma FilterTransactionsStable(transactions: seq<Transaction>, period: Period, now: Date, day: int)
    ensures WithKey(FilterTransactions(transactions, period, now), DayOf, day)
         == WithKey(InPeriodOf(transactions, period, now), DayOf, day)
  {
    SortDescStable(InPeriodOf(transactions, period, now), DayOf, day);
  }

  /** Sorting the view again changes nothing. */
  lemma FilterTransactionsIdempotent(transactions: seq<Transaction>, period: Period, now: Date)
    ensures SortDesc(FilterTransactions(transactions, period, now), DayOf)
         == FilterTransactions(transactions, period, now)
  {
    SortDescIdempotent(InPeriodOf(transactions, period, now), DayOf);
  }

  /** 'all', and any unrecognised period, only reorders the store. */
  lemma FilterTransactionsAll(transactions: seq<Transaction>, period: Period, now: Date)
    requires period.All? || period.Unrecognised?
    ensures FilterTransactions(transactions, period, now) == SortDesc(transactions, DayOf)
    ensures |FilterTransactions(transactions, period, now)| == |transactions|
  {
    FilterAll(transactions, InPeriodPred(period, now));
    SortDescPermutation(transactions, DayOf);
  }

  /**
   * The four named periods: 'year' and 'month' keep exactly the dates of the
   * calendar year, and of the calendar month of that year, that `now` falls
   * in; 'week' keeps exactly the dates from seven days before `now` on, so a
   * date after `now` is kept too.
   */
  lemma PeriodRules(transactions: seq<Transaction>, now: Date)
    ensures forall t :: t in FilterTransactions(transactions, Year, now)
                    <==> t in transactions && t.date.year == now.year
    ensures forall t :: t in FilterTransactions(transactions, Month, now)
                    <==> t in transactions && t.date.year == now.year && t.date.month == now.month
    ensures forall t :: t in FilterTransactions(transactions, Week, now)
                    <==> t in transactions && DayNumber(t.date) >= DayNumber(now) - 7
    ensures forall t :: t in transactions && DayNumber(t.date) >= DayNumber(now) ==>
                    t in FilterTransactions(transactions, Week, now)
  {
    FilterTransactionsMembers(transactions, Year, now);
    FilterTransactionsMembers(transactions, Month, now);
    FilterTransactionsMembers(transactions, Week, now);
  }

  /**
   * The week rule's bound is the calendar date seven days before `now`, the
   * date `setDate(now.getDate() - 7)` moves to.
   */
  lemma WeekBound(d: Date, now: Date)
    requires ValidDate(now)
    ensures InPeriod(d, Week, now) <==> DayNumber(d) >= DayNumber(DaysEarlier(now, 7))
    ensures InPeriod(DaysEarlier(now, 7), Week, now)
    ensures !InPeriod(DaysEarlier(now, 8), Week, now)
  {
  }

  /**
   * 'month' is the calendar month, not the last thirty days: on March 1st the
   * day before is outside the month but inside the week.
   */
  lemma MonthIsCalendarMonth()
    ensures !InPeriod(Date(2024, 2, 29), Month, Date(2024, 3, 1))
    ensures InPeriod(Date(2024, 2, 29), Week, Date(2024, 3, 1))
    ensures InPeriod(Date(2024, 2, 29), Year, Date(2024, 3, 1))
  {
    assert DayNumber(Date(2024, 3, 1)) == DayNumber(Date(2024, 2, 29)) + 1;
  }

  // ---------------------------------------------------------------------------
  // Totals

  function OfKind(kind: TransactionType): Transaction -> bool {
    (t: Transaction) => t.kind == kind
  }

  function OfKindInPeriod(kind: TransactionType, period: Period, now: Date): Transaction -> bool {
    (t: Transaction) => t.kind == kind && InPeriod(t.date, period, now)
  }

  /** Sum of the amounts of the transactions of one kind. */
  function Total(view: seq<Transaction>, kind: TransactionType): int {
    Sum(Filter(view, OfKind(kind)), AmountOf)
  }

  /** `stats`: the view with its income and expense totals and their difference. */
  function ComputeStats(view: seq<Transaction>): FinanceState {
    var income := Total(view, Income);
    var expense := Total(view, Expense);
    FinanceState(view, income - expense, income, expense)
  }

  /** What a transaction adds to the balance: its amount, negated for an expense. */
  function SignedAmount(t: Transaction): int {
    if t.kind == Income then t.amount else -t.amount
  }

  lemma {:induction false} TotalCons(t: Transaction, view: seq<Transaction>, kind: TransactionType)
    ensures Total([t] + view, kind) == Total(view, kind) + (if t.kind == kind then t.amount else 0)
  {
    assert ([t] + view)[1..] == view;
  }

  /**
   * The balance is the net signed sum of the view: each income counts up and
   * each expense counts down. An empty view has all three totals zero.
   */
  lemma {:induction false} StatsBalance(view: seq<Transaction>)
    ensures ComputeStats(view).transactions == view
    ensures ComputeStats(view).balance == Sum(view, SignedAmount)
    ensures ComputeStats(view).balance == ComputeStats(view).totalIncome - ComputeStats(view).totalExpense
    ensures view == [] ==> ComputeStats(view) == FinanceState([], 0, 0, 0)
  {
    if view != [] {
      StatsBalance(view[1..]);
      assert view == [view[0]] + view[1..];
      TotalCons(view[0], view[1..], Income);
      TotalCons(view[0], view[1..], Expense);
    }
  }

  /** Totals do not depend on the order of the transactions. */
  lemma TotalPermutation(a: seq<Transaction>, b: seq<Transaction>, kind: TransactionType)
    requires multiset(a) == multiset(b)
    ensures Total(a, kind) == Total(b, kind)
  {
    FilterPermutation(a, b, OfKind(kind));
    SumPermutation(Filter(a, OfKind(kind)), Filter(b, OfKind(kind)), AmountOf);
  }

  /**
   * The totals shown for a period are the sums, over the whole store, of the
   * amounts of the transactions of each kind that belong to the period.
   */
  lemma StatsOfStore(transactions: seq<Transaction>, period: Period, now: Date)
    ensures ComputeStats(FilterTransactions(transactions, period, now)).totalIncome
         == Sum(Filter(transactions, OfKindInPeriod(Income, period, now)), AmountOf)
    ensures ComputeStats(FilterTransactions(transactions, period, now)).totalExpense
         == Sum(Filter(transactions, OfKindInPeriod(Expense, period, now)), AmountOf)
  {
    var kept := InPeriodOf(transactions, period, now);
    SortDescPermutation(kept, DayOf);
    TotalPermutation(FilterTransactions(transactions, period, now), kept, Income);
    TotalPermutation(FilterTransactions(transactions, period, now), kept, Expense);
    FilterFilter(transactions, InPeriodPred(period, now), OfKind(Income), OfKindInPeriod(Income, period, now));
    FilterFilter(transactions, InPeriodPred(period, now), OfKind(Expense), OfKindInPeriod(Expense, period, now));
  }

  /**
   * Adding a transaction changes a period's totals by its amount, under its
   * own kind, exactly when its date belongs to the period.
   */
  lemma StatsAfterAdd(t: Transaction, transactions: seq<Transaction>, period: Period, now: Date)
    ensures ComputeStats(FilterTransactions([t] + transactions, period, now)).totalIncome
         == ComputeStats(FilterTransactions(transactions, period, now)).totalIncome
            + (if t.kind == Income && InPeriod(t.date, period, now) then t.amount else 0)
    ensures ComputeStats(FilterTransactions([t] + transactions, period, now)).totalExpense
         == ComputeStats(FilterTransactions(transactions, period, now)).totalExpense
            + (if t.kind == Expense && InPeriod(t.date, period, now) then t.amount else 0)
  {
    StatsOfStore([t] + transactions, period, now);
    StatsOfStore(transactions, period, now);
    assert ([t] + transactions)[1..] == transactions;
    if t.kind == Income && InPeriod(t.date, period, now) {
      assert (Filter([t] + transactions, OfKindInPeriod(Income, period, now)))[1..]
          == Filter(transactions, OfKindInPeriod(Income, period, now));
    }
    if t.kind == Expense && InPeriod(t.date, period, now) {
      assert (Filter([t] + transactions, OfKindInPeriod(Expense, period, now)))[1..]
          == Filter(transactions, OfKindInPeriod(Expense, period, now));
    }
  }

  // ---------------------------------------------------------------------------
  // Store

  /** No two stored transactions share an id. */
  predicate UniqueIds(transactions: seq<Transaction>) {
    forall i, j :: 0 <= i < j < |transactions| ==> transactions[i].id != transactions[j].id
  }

  /** No stored transaction has this id. */
  predicate IsFreshId(transactions: seq<Transaction>, id: string) {
    forall t :: t in transactions ==> t.id != id
  }

  function HasOtherId(id: string): Transaction -> bool {
    (t: Transaction) => t.id != id
  }

  /** `deleteTransaction`'s filter: every transaction except those with this id. */
  function WithoutId(transactions: seq<Transaction>, id: string): seq<Transaction> {
    Filter(transactions, HasOtherId(id))
  }

  /**
   * Deleting leaves no transaction with the id, keeps every other one with the
   * same multiplicity, and keeps their relative order.
   */
  lemma DeleteSpec(transactions: seq<Transaction>, id: string)
    ensures IsFreshId(WithoutId(transactions, id), id)
    ensures forall t: Transaction :: t.id != id ==> multiset(WithoutId(transactions, id))[t] == multiset(transactions)[t]
    ensures IsSubsequence(WithoutId(transactions, id), transactions)
  {
    forall t: Transaction | t.id != id ensures multiset(WithoutId(transactions, id))[t] == multiset(transactions)[t] {
      FilterCount(transactions, HasOtherId(id), t);
    }
    FilterIsSubsequence(transactions, HasOtherId(id));
  }

  /** Deleting an id that is not stored leaves the list unchanged. */
  lemma DeleteAbsent(transactions: seq<Transaction>, id: string)
    requires IsFreshId(transactions, id)
    ensures WithoutId(transactions, id) == transactions
  {
    FilterAll(transactions, HasOtherId(id));
  }

  /** With unique ids, deleting a stored id removes exactly one transaction. */
  lemma {:induction false} DeletePresent(transactions: seq<Transaction>, id: string)
    requires UniqueIds(transactions)
    requires !IsFreshId(transactions, id)
    ensures |WithoutId(transactions, id)| == |transactions| - 1
  {
    if transactions[0].id == id {
      assert IsFreshId(transactions[1..], id) by {
        forall t | t in transactions[1..] ensures t.id != id {
          var j :| 0 <= j < |transactions[1..]| && transactions[1..][j] == t;
          assert transactions[j + 1] == t;
        }
      }
      DeleteAbsent(transactions[1..], id);
    } else {
      assert UniqueIds(transactions[1..]) by {
        forall i, j | 0 <= i < j < |transactions[1..]|
          ensures transactions[1..][i].id != transactions[1..][j].id
        {
          assert transactions[1..][i] == transactions[i + 1];
          assert transactions[1..][j] == transactions[j + 1];
        }
      }
      assert !IsFreshId(transactions[1..], id) by {
        var t :| t in transactions && t.id == id;
        assert t != transactions[0];
      }
      DeletePresent(transactions[1..], id);
    }
  }

  /** Filtering out transactions never makes two ids collide. */
  lemma {:induction false} WithoutIdUnique(transactions: seq<Transaction>, id: string)
    requires UniqueIds(transactions)
    ensures UniqueIds(WithoutId(transactions, id))
  {
    if transactions != [] {
      var rest := transactions[1..];
      assert UniqueIds(rest) by {
        forall i, j | 0 <= i < j < |rest| ensures rest[i].id != rest[j].id {
          assert rest[i] == transactions[i + 1] && rest[j] == transactions[j + 1];
        }
      }
      WithoutIdUnique(rest, id);
      if transactions[0].id != id {
        var r := WithoutId(rest, id);
        assert IsFreshId(rest, transactions[0].id) by {
          forall t | t in rest ensures t.id != transactions[0].id {
            var j :| 0 <= j < |rest| && rest[j] == t;
            assert transactions[j + 1] == t;
          }
        }
        assert WithoutId(transactions, id) == [transactions[0]] + r;
        forall i, j | 0 <= i < j < |[transactions[0]] + r|
          ensures ([transactions[0]] + r)[i].id != ([transactions[0]] + r)[j].id
        {
          if i == 0 {
            assert ([transactions[0]] + r)[j] == r[j - 1];
            assert r[j - 1] in rest;
          } else {
            assert ([transactions[0]] + r)[i] == r[i - 1];
            assert ([transactions[0]] + r)[j] == r[j - 1];
          }
        }
      }
    }
  }

  /** Prepending a transaction with a fresh id keeps the ids unique. */
  lemma PrependUnique(t: Transaction, transactions: seq<Transaction>)
    requires UniqueIds(transactions)
    requires IsFreshId(transactions, t.id)
    ensures UniqueIds([t] + transactions)
  {
    var r := [t] + transactions;
    forall i, j | 0 <= i < j < |r| ensures r[i].id != r[j].id {
      assert r[j] == transactions[j - 1];
      if i > 0 {
        assert r[i] == transactions[i - 1];
      }
    }
  }

  /**
   * The hook's state: the stored transactions, newest addition first, and the
   * selected period ('month' at start).
   */
  class FinanceStore {
    var transactions: seq<Transaction>
    var filterPeriod: Period

    /** `restored` is the list read back from storage, `[]` when there is none. */
    constructor (restored: seq<Transaction>)
      ensures transactions == restored
      ensures filterPeriod == Month
    {
      transactions := restored;
      filterPeriod := Month;
    }

    method SetFilterPeriod(period: Period)
      modifies this
      ensures filterPeriod == period
      ensures transactions == old(transactions)
    {
      filterPeriod := period;
    }

    /** Adds the draft, with the freshly generated `id`, at the front of the list. */
    method AddTransaction(draft: Draft, id: string)
      requires IsFreshId(transactions, id)
      modifies this
      ensures transactions == [WithId(draft, id)] + old(transactions)
      ensures |transactions| == |old(transactions)| + 1
      ensures filterPeriod == old(filterPeriod)
      ensures UniqueIds(old(transactions)) ==> UniqueIds(transactions)
    {
      var t := WithId(draft, id);
      if UniqueIds(transactions) {
        PrependUnique(t, transactions);
      }
      transactions := [t] + transactions;
    }

    /** Removes every transaction with this id; an absent id changes nothing. */
    method DeleteTransaction(id: string)
      modifies this
      ensures transactions == WithoutId(old(transactions), id)
      ensures IsFreshId(transactions, id)
      ensures IsFreshId(old(transactions), id) ==> transactions == old(transactions)
      ensures UniqueIds(old(transactions)) ==> UniqueIds(transactions)
      ensures filterPeriod == old(filterPeriod)
    {
      DeleteSpec(transactions, id);
      if IsFreshId(transactions, id) {
        DeleteAbsent(transactions, id);
      }
      if UniqueIds(transactions) {
        WithoutIdUnique(transactions, id);
      }
      transactions := WithoutId(transactions, id);
    }
  }
}
