/**
 * The two aggregations behind the charts: the monthly cash-flow series (income
 * and expense per calendar month, the last six months) and the top five
 * expense categories. Both take the transactions handed to the chart view.
 */
module ChartsView {
  import opened Calendar
  import opened FinanceTypes
  import opened Sequences
  import opened StableSort

  // ---------------------------------------------------------------------------
  // Monthly cash flow: specification

  /** Sort key for oldest-first: the negated day number. */
  function NegDayOf(t: Transaction): int {
    -DayNumber(t.date)
  }

  /** `[...transactions].sort((a, b) => date(a) - date(b))`: oldest first, stable. */
  function SortByDateAsc(transactions: seq<Transaction>): seq<Transaction> {
    SortDesc(transactions, NegDayOf)
  }

  /** The dictionary key `${getMonth()}-${getFullYear()}` of a transaction. */
  function KeyOf(t: Transaction): MonthKey {
    MonthKeyOf(t.date)
  }

  function IncomeIn(key: MonthKey): Transaction -> bool {
    (t: Transaction) => t.kind == Income && KeyOf(t) == key
  }

  /** Everything that is not an income is booked as expense. */
  function ExpenseIn(key: MonthKey): Transaction -> bool {
    (t: Transaction) => t.kind != Income && KeyOf(t) == key
  }

  /** The bucket for month `key`: its summed income and expense. */
  function BucketFor(s: seq<Transaction>, key: MonthKey): MonthBucket {
    MonthBucket(key, Sum(Filter(s, IncomeIn(key)), AmountOf), Sum(Filter(s, ExpenseIn(key)), AmountOf))
  }

  /** `Object.values(data)`: one bucket per month, in the order the months first occur in `s`. */
  function Buckets(s: seq<Transaction>): (r: seq<MonthBucket>)
    ensures |r| == |DistinctKeys(s, KeyOf)|
    ensures forall i :: 0 <= i < |r| ==> r[i] == BucketFor(s, DistinctKeys(s, KeyOf)[i])
  {
    var keys := DistinctKeys(s, KeyOf);
    seq(|keys|, i requires 0 <= i < |keys| => BucketFor(s, keys[i]))
  }

  /** `monthlyData`: the buckets of the date-sorted input, the last six of them. */
  function MonthlySeries(transactions: seq<Transaction>): seq<MonthBucket> {
    LastN(Buckets(SortByDateAsc(transactions)), 6)
  }

  // ---------------------------------------------------------------------------
  // Monthly cash flow: the loop

  /** `data[key].income += t.amount`, or `.expense` for anything not an income. */
  function AddTo(b: MonthBucket, t: Transaction): MonthBucket {
    if t.kind == Income then b.(income := b.income + t.amount)
    else b.(expense := b.expense + t.amount)
  }

  /** What the loop of `MonthlyData` knows after walking `s`. */
  ghost predicate MonthlyInv(s: seq<Transaction>, keys: seq<MonthKey>, data: map<MonthKey, MonthBucket>) {
    && keys == DistinctKeys(s, KeyOf)
    && (forall k :: k in data <==> k in keys)
    && (forall k :: k in data ==> data[k] == BucketFor(s, k))
  }

  /**
   * One step of the loop, `if (!data[key]) data[key] = {…}` followed by the
   * addition, as a relation between the state before it and the state after
   * it: a missing bucket is created empty and its key appended, then the
   * amount is added.
   */
  ghost predicate MonthlyStep(keys: seq<MonthKey>, data: map<MonthKey, MonthBucket>, t: Transaction,
                              keys': seq<MonthKey>, data': map<MonthKey, MonthBucket>)
  {
    var key := KeyOf(t);
    && keys' == (if key in data then keys else keys + [key])
    && (forall k :: k in data' <==> k in data || k == key)
    && (forall k :: k in data' ==>
          data'[k] == if k == key then AddTo(if k in data then data[k] else MonthBucket(key, 0, 0), t) else data[k])
  }

  lemma MonthlyStepPreserves(s: seq<Transaction>, keys: seq<MonthKey>, data: map<MonthKey, MonthBucket>, t: Transaction,
                             keys': seq<MonthKey>, data': map<MonthKey, MonthBucket>)
    requires MonthlyInv(s, keys, data)
    requires MonthlyStep(keys, data, t, keys', data')
    ensures MonthlyInv(s + [t], keys', data')
  {
    var key := KeyOf(t);
    assert keys' == DistinctKeys(s + [t], KeyOf) by {
      DistinctKeysSnoc(s, t, KeyOf);
    }
    assert forall k :: k in data' <==> k in keys' by {
      assert forall k :: k in keys' <==> k in keys || k == key;
    }
    if key !in data {
      NoKeyNoSum(s, key);
    }
    MonthlyValuesStep(s, data, t, data');
  }

  /** The buckets stay equal to the monthly sums across one step. */
  lemma MonthlyValuesStep(s: seq<Transaction>, data: map<MonthKey, MonthBucket>, t: Transaction,
                          data': map<MonthKey, MonthBucket>)
    requires forall k :: k in data ==> data[k] == BucketFor(s, k)
    requires KeyOf(t) !in data ==> BucketFor(s, KeyOf(t)) == MonthBucket(KeyOf(t), 0, 0)
    requires forall k :: k in data' <==> k in data || k == KeyOf(t)
    requires forall k :: k in data' ==>
               data'[k] == if k == KeyOf(t) then AddTo(if k in data then data[k] else MonthBucket(k, 0, 0), t) else data[k]
    ensures forall k :: k in data' ==> data'[k] == BucketFor(s + [t], k)
  {
    forall k | k in data' ensures data'[k] == BucketFor(s + [t], k) {
      BucketStep(s, t, k);
    }
  }

  /**
   * The `forEach` over the sorted transactions: `data` gets one bucket per
   * month, in order of first occurrence (`keys`), holding the month's sums.
   */
  method BucketByMonth(sorted: seq<Transaction>) returns (keys: seq<MonthKey>, data: map<MonthKey, MonthBucket>)
    ensures keys == DistinctKeys(sorted, KeyOf)
    ensures forall k :: k in data <==> k in keys
    ensures forall k :: k in data ==> data[k] == BucketFor(sorted, k)
  {
    keys := [];
    data := map[];
    for i := 0 to |sorted|
      invariant MonthlyInv(sorted[..i], keys, data)
    {
      var t := sorted[i];
      var key := KeyOf(t);
      ghost var keys0, data0 := keys, data;
      if key !in data {
        data := data[key := MonthBucket(key, 0, 0)];
        keys := keys + [key];
      }
      data := data[key := AddTo(data[key], t)];
      assert sorted[..i + 1] == sorted[..i] + [t];
      MonthlyStepPreserves(sorted[..i], keys0, data0, t, keys, data);
    }
    assert sorted[..|sorted|] == sorted;
  }

  /** `monthlyData`: sorts a copy oldest first, buckets it by month, keeps the last six buckets. */
  method MonthlyData(transactions: seq<Transaction>) returns (buckets: seq<MonthBucket>)
    ensures buckets == MonthlySeries(transactions)
  {
    var sorted := SortByDateAsc(transactions);
    var keys, data := BucketByMonth(sorted);
    var all := seq(|keys|, j requires 0 <= j < |keys| => data[keys[j]]);
    BucketsOfLoop(sorted, keys, data);
    buckets := LastN(all, 6);
  }

  /** Once the loop has walked all of `s`, its dictionary lists the buckets of `s`. */
  lemma BucketsOfLoop(s: seq<Transaction>, keys: seq<MonthKey>, data: map<MonthKey, MonthBucket>)
    requires MonthlyInv(s, keys, data)
    ensures seq(|keys|, j requires 0 <= j < |keys| => data[keys[j]]) == Buckets(s)
  {
  }

  /** Adding a transaction to the input changes only its own month's bucket, by its amount. */
  lemma BucketStep(s: seq<Transaction>, t: Transaction, k: MonthKey)
    ensures BucketFor(s + [t], k) == if KeyOf(t) == k then AddTo(BucketFor(s, k), t) else BucketFor(s, k)
  {
    SumFilterSnoc(s, t, IncomeIn(k), AmountOf);
    SumFilterSnoc(s, t, ExpenseIn(k), AmountOf);
  }

  /** A month with no transaction has an empty bucket. */
  lemma NoKeyNoSum(s: seq<Transaction>, k: MonthKey)
    requires k !in DistinctKeys(s, KeyOf)
    ensures BucketFor(s, k) == MonthBucket(k, 0, 0)
  {
    FilterNone(s, IncomeIn(k));
    FilterNone(s, ExpenseIn(k));
  }

  // ---------------------------------------------------------------------------
  // Monthly cash flow: properties

  /** Every bucket, before the last six are kept. */
  function AllMonthBuckets(transactions: seq<Transaction>): seq<MonthBucket> {
    Buckets(SortByDateAsc(transactions))
  }

  /** The months that occur in the input. */
  function MonthsOf(transactions: seq<Transaction>): set<MonthKey> {
    set t | t in transactions :: KeyOf(t)
  }

  lemma {:induction false} DistinctCard<K>(s: seq<K>)
    requires Distinct(s)
    ensures |set x | x in s| == |s|
  {
    if s != [] {
      var t := s[1..];
      assert Distinct(t) by {
        forall i, j | 0 <= i < j < |t| ensures t[i] != t[j] {
          assert t[i] == s[i + 1] && t[j] == s[j + 1];
        }
      }
      DistinctCard(t);
      assert s[0] !in t;
      assert (set x | x in s) == (set x | x in t) + {s[0]};
    }
  }

  /** A bucket counts the same transactions whatever order the input is in. */
  lemma BucketForPermutation(a: seq<Transaction>, b: seq<Transaction>, k: MonthKey)
    requires multiset(a) == multiset(b)
    ensures BucketFor(a, k) == BucketFor(b, k)
  {
    FilterPermutation(a, b, IncomeIn(k));
    SumPermutation(Filter(a, IncomeIn(k)), Filter(b, IncomeIn(k)), AmountOf);
    FilterPermutation(a, b, ExpenseIn(k));
    SumPermutation(Filter(a, ExpenseIn(k)), Filter(b, ExpenseIn(k)), AmountOf);
  }

  /** The sorted input holds the same transactions as the input. */
  lemma SortByDateAscElements(transactions: seq<Transaction>)
    ensures multiset(SortByDateAsc(transactions)) == multiset(transactions)
    ensures forall t :: t in SortByDateAsc(transactions) <==> t in transactions
  {
    SortDescPermutation(transactions, NegDayOf);
    var sorted := SortByDateAsc(transactions);
    forall t ensures t in sorted <==> t in transactions {
      assert t in sorted <==> t in multiset(sorted);
      assert t in transactions <==> t in multiset(transactions);
    }
  }

  /** The months of the buckets are the months of the input. */
  lemma AllMonthBucketsKeys(transactions: seq<Transaction>)
    ensures |AllMonthBuckets(transactions)| == |MonthsOf(transactions)|
    ensures forall i :: 0 <= i < |AllMonthBuckets(transactions)| ==>
              AllMonthBuckets(transactions)[i].key == DistinctKeys(SortByDateAsc(transactions), KeyOf)[i]
    ensures forall k :: k in MonthsOf(transactions) <==> k in DistinctKeys(SortByDateAsc(transactions), KeyOf)
  {
    var sorted := SortByDateAsc(transactions);
    var keys := DistinctKeys(sorted, KeyOf);
    SortByDateAscElements(transactions);
    assert (set x | x in keys) == MonthsOf(transactions);
    DistinctCard(keys);
  }

  /** Each bucket's totals, summed over the input in its own order. */
  lemma AllMonthBucketsSums(transactions: seq<Transaction>)
    ensures forall b :: b in AllMonthBuckets(transactions) ==>
              && b.income == Sum(Filter(transactions, IncomeIn(b.key)), AmountOf)
              && b.expense == Sum(Filter(transactions, ExpenseIn(b.key)), AmountOf)
  {
    var sorted := SortByDateAsc(transactions);
    var all := AllMonthBuckets(transactions);
    SortByDateAscElements(transactions);
    forall b | b in all
      ensures b.income == Sum(Filter(transactions, IncomeIn(b.key)), AmountOf)
      ensures b.expense == Sum(Filter(transactions, ExpenseIn(b.key)), AmountOf)
    {
      var i :| 0 <= i < |all| && all[i] == b;
      assert b == BucketFor(sorted, b.key);
      BucketForPermutation(sorted, transactions, b.key);
    }
  }

  lemma AllMonthBucketsOnePerMonth(transactions: seq<Transaction>)
    ensures forall i, j :: 0 <= i < j < |AllMonthBuckets(transactions)| ==>
              AllMonthBuckets(transactions)[i].key != AllMonthBuckets(transactions)[j].key
    ensures forall k :: k in MonthsOf(transactions) <==>
              exists i :: 0 <= i < |AllMonthBuckets(transactions)| && AllMonthBuckets(transactions)[i].key == k
  {
    var keys := DistinctKeys(SortByDateAsc(transactions), KeyOf);
    var all := AllMonthBuckets(transactions);
    AllMonthBucketsKeys(transactions);
    forall k ensures k in MonthsOf(transactions) <==> exists i :: 0 <= i < |all| && all[i].key == k {
      if k in MonthsOf(transactions) {
        var i :| 0 <= i < |keys| && keys[i] == k;
        assert all[i].key == k;
      }
    }
  }

  /**
   * There is exactly one bucket per month that occurs in the input, and each
   * bucket's income and expense are the sums, over the input, of the income
   * and of the other transactions of that month.
   */
  lemma AllMonthBucketsSpec(transactions: seq<Transaction>)
    ensures |AllMonthBuckets(transactions)| == |MonthsOf(transactions)|
    ensures forall i, j :: 0 <= i < j < |AllMonthBuckets(transactions)| ==>
              AllMonthBuckets(transactions)[i].key != AllMonthBuckets(transactions)[j].key
    ensures forall k :: k in MonthsOf(transactions) <==>
              exists i :: 0 <= i < |AllMonthBuckets(transactions)| && AllMonthBuckets(transactions)[i].key == k
    ensures forall b :: b in AllMonthBuckets(transactions) ==>
              && b.income == Sum(Filter(transactions, IncomeIn(b.key)), AmountOf)
              && b.expense == Sum(Filter(transactions, ExpenseIn(b.key)), AmountOf)
  {
    AllMonthBucketsKeys(transactions);
    AllMonthBucketsOnePerMonth(transactions);
    AllMonthBucketsSums(transactions);
  }

  /** At most six buckets are kept, and they are the last ones. */
  lemma MonthlySeriesLastSix(transactions: seq<Transaction>)
    ensures |MonthlySeries(transactions)| <= 6
    ensures |MonthlySeries(transactions)|
         == if |MonthsOf(transactions)| < 6 then |MonthsOf(transactions)| else 6
    ensures MonthlySeries(transactions)
         == AllMonthBuckets(transactions)[|AllMonthBuckets(transactions)| - |MonthlySeries(transactions)|..]
  {
    AllMonthBucketsSpec(transactions);
  }

  /** A month first seen at a later, valid date comes after every month seen before it. */
  lemma NewMonthIsLater(init: seq<Transaction>, last: Transaction)
    requires forall m :: 0 <= m < |init| ==> ValidDate(init[m].date) && DayNumber(init[m].date) <= DayNumber(last.date)
    requires ValidDate(last.date)
    requires KeyOf(last) !in DistinctKeys(init, KeyOf)
    ensures forall i :: 0 <= i < |DistinctKeys(init, KeyOf)| ==> MonthBefore(DistinctKeys(init, KeyOf)[i], KeyOf(last))
  {
    var p := DistinctKeys(init, KeyOf);
    forall i | 0 <= i < |p| ensures MonthBefore(p[i], KeyOf(last)) {
      assert p[i] in p;
      var m :| 0 <= m < |init| && KeyOf(init[m]) == p[i];
      DayNumberMonotone(init[m].date, last.date);
    }
  }

  /** Oldest-first sorted valid dates yield their months in strictly increasing order. */
  lemma {:induction false} DistinctKeysChronological(s: seq<Transaction>)
    requires forall i :: 0 <= i < |s| ==> ValidDate(s[i].date)
    requires SortedDesc(s, NegDayOf)
    ensures forall i, j :: 0 <= i < j < |DistinctKeys(s, KeyOf)| ==>
              MonthBefore(DistinctKeys(s, KeyOf)[i], DistinctKeys(s, KeyOf)[j])
  {
    if s != [] {
      var init := s[..|s| - 1];
      var last := s[|s| - 1];
      assert s == init + [last];
      assert forall i :: 0 <= i < |init| ==> init[i] == s[i];
      DistinctKeysChronological(init);
      if KeyOf(last) !in DistinctKeys(init, KeyOf) {
        assert forall m :: 0 <= m < |init| ==> NegDayOf(s[m]) >= NegDayOf(last);
        NewMonthIsLater(init, last);
      }
    }
  }

  /**
   * The last six of a sequence of buckets in strictly increasing month order
   * are in that order too, and any bucket left out is older than every one kept.
   */
  lemma LastSixChronological(all: seq<MonthBucket>)
    requires forall i, j :: 0 <= i < j < |all| ==> MonthBefore(all[i].key, all[j].key)
    ensures forall i, j :: 0 <= i < j < |LastN(all, 6)| ==> MonthBefore(LastN(all, 6)[i].key, LastN(all, 6)[j].key)
    ensures forall i :: 0 <= i < |all| && all[i] !in LastN(all, 6) ==>
              forall b :: b in LastN(all, 6) ==> MonthBefore(all[i].key, b.key)
  {
    var series := LastN(all, 6);
    var off := |all| - |series|;
    forall i | 0 <= i < |all| && all[i] !in series
      ensures forall b :: b in series ==> MonthBefore(all[i].key, b.key)
    {
      forall b | b in series ensures MonthBefore(all[i].key, b.key) {
        var j :| 0 <= j < |series| && series[j] == b;
        assert b == all[off + j];
      }
    }
  }

  /**
   * With valid dates, the buckets run in strictly increasing calendar order,
   * and every month of the input that is not shown is older than every month
   * that is: the series shows the most recent six months that have data.
   */
  lemma MonthlySeriesChronological(transactions: seq<Transaction>)
    requires forall t :: t in transactions ==> ValidDate(t.date)
    ensures forall i, j :: 0 <= i < j < |AllMonthBuckets(transactions)| ==>
              MonthBefore(AllMonthBuckets(transactions)[i].key, AllMonthBuckets(transactions)[j].key)
    ensures forall i, j :: 0 <= i < j < |MonthlySeries(transactions)| ==>
              MonthBefore(MonthlySeries(transactions)[i].key, MonthlySeries(transactions)[j].key)
    ensures forall k, b :: (k in MonthsOf(transactions) && b in MonthlySeries(transactions)
              && (forall c :: c in MonthlySeries(transactions) ==> c.key != k)) ==> MonthBefore(k, b.key)
  {
    var sorted := SortByDateAsc(transactions);
    var all := AllMonthBuckets(transactions);
    SortByDateAscElements(transactions);
    SortDescSorted(transactions, NegDayOf);
    forall i | 0 <= i < |sorted| ensures ValidDate(sorted[i].date) {
      assert sorted[i] in transactions;
    }
    DistinctKeysChronological(sorted);
    AllMonthBucketsKeys(transactions);
    LastSixChronological(all);
    forall k, b | k in MonthsOf(transactions) && b in LastN(all, 6)
      && (forall c :: c in LastN(all, 6) ==> c.key != k)
      ensures MonthBefore(k, b.key)
    {
      AllMonthBucketsOnePerMonth(transactions);
      var i :| 0 <= i < |all| && all[i].key == k;
    }
  }

  // ---------------------------------------------------------------------------
  // Expense categories: specification

  function CategoryOf(t: Transaction): string {
    t.category
  }

  function IsExpense(t: Transaction): bool {
    t.kind == Expense
  }

  /** `transactions.filter(t => t.type === 'expense')`. */
  function Expenses(transactions: seq<Transaction>): seq<Transaction> {
    Filter(transactions, IsExpense)
  }

  function InCategory(c: string): Transaction -> bool {
    (t: Transaction) => t.category == c
  }

  function ExpenseInCategory(c: string): Transaction -> bool {
    (t: Transaction) => t.kind == Expense && t.category == c
  }

  /** The summed amount of the transactions of `s` in category `c`. */
  function CategoryTotal(s: seq<Transaction>, c: string): int {
    Sum(Filter(s, InCategory(c)), AmountOf)
  }

  /** `Object.keys(data).map(...)`: one entry per expense category, in first-occurrence order. */
  function CategoryTotals(transactions: seq<Transaction>): (r: seq<CategoryEntry>)
    ensures |r| == |DistinctKeys(Expenses(transactions), CategoryOf)|
    ensures forall i :: 0 <= i < |r| ==>
              r[i] == CategoryEntry(DistinctKeys(Expenses(transactions), CategoryOf)[i],
                                    CategoryTotal(Expenses(transactions), DistinctKeys(Expenses(transactions), CategoryOf)[i]))
  {
    var e := Expenses(transactions);
    var names := DistinctKeys(e, CategoryOf);
    seq(|names|, i requires 0 <= i < |names| => CategoryEntry(names[i], CategoryTotal(e, names[i])))
  }

  function ValueOf(e: CategoryEntry): int {
    e.value
  }

  function NameOf(e: CategoryEntry): string {
    e.name
  }

  /** `.sort((a, b) => b.value - a.value)`: largest total first, stable. */
  function CategoryRanking(transactions: seq<Transaction>): seq<CategoryEntry> {
    SortDesc(CategoryTotals(transactions), ValueOf)
  }

  /** `categoryData`: the five largest expense categories. */
  function TopCategories(transactions: seq<Transaction>): seq<CategoryEntry> {
    Take(CategoryRanking(transactions), 5)
  }

  // ---------------------------------------------------------------------------
  // Expense categories: the loop

  /** What the loop of `CategoryData` knows after walking `s`. */
  ghost predicate CategoryInv(s: seq<Transaction>, names: seq<string>, data: map<string, int>) {
    && names == DistinctKeys(s, CategoryOf)
    && (forall c :: c in data <==> c in names)
    && (forall c :: c in data ==> data[c] == CategoryTotal(s, c))
  }

  /**
   * One step of the loop, `if (!data[c]) data[c] = 0; data[c] += t.amount`,
   * as a relation between the state before it and the state after it.
   * A key is appended to the key order only when it is new; resetting an
   * existing entry that holds 0 to 0 changes nothing.
   */
  ghost predicate CategoryStep(names: seq<string>, data: map<string, int>, t: Transaction,
                               names': seq<string>, data': map<string, int>)
  {
    var c := t.category;
    && names' == (if c in data then names else names + [c])
    && (forall k :: k in data' <==> k in data || k == c)
    && (forall k :: k in data' ==> data'[k] == if k == c then (if k in data then data[k] else 0) + t.amount else data[k])
  }

  lemma CategoryStepPreserves(s: seq<Transaction>, names: seq<string>, data: map<string, int>, t: Transaction,
                              names': seq<string>, data': map<string, int>)
    requires CategoryInv(s, names, data)
    requires CategoryStep(names, data, t, names', data')
    ensures CategoryInv(s + [t], names', data')
  {
    var c := t.category;
    assert names' == DistinctKeys(s + [t], CategoryOf) by {
      DistinctKeysSnoc(s, t, CategoryOf);
      assert CategoryOf(t) == c;
    }
    assert forall k :: k in data' <==> k in names' by {
      assert forall k :: k in names' <==> k in names || k == c;
    }
    if c !in data {
      CategoryTotalFresh(s, c);
    }
    CategoryValuesStep(s, data, t, data');
  }

  /** The entries stay equal to the category totals across one step. */
  lemma CategoryValuesStep(s: seq<Transaction>, data: map<string, int>, t: Transaction, data': map<string, int>)
    requires forall k :: k in data ==> data[k] == CategoryTotal(s, k)
    requires t.category !in data ==> CategoryTotal(s, t.category) == 0
    requires forall k :: k in data' <==> k in data || k == t.category
    requires forall k :: k in data' ==>
               data'[k] == if k == t.category then (if k in data then data[k] else 0) + t.amount else data[k]
    ensures forall k :: k in data' ==> data'[k] == CategoryTotal(s + [t], k)
  {
    forall k | k in data' ensures data'[k] == CategoryTotal(s + [t], k) {
      CategoryTotalStep(s, t, k);
    }
  }

  /** Adding a transaction adds its amount to its own category's total and to no other. */
  lemma CategoryTotalStep(s: seq<Transaction>, t: Transaction, c: string)
    ensures CategoryTotal(s + [t], c) == CategoryTotal(s, c) + if t.category == c then t.amount else 0
  {
    SumFilterSnoc(s, t, InCategory(c), AmountOf);
  }

  /** A category not yet seen has total 0, the value the loop starts its entry from. */
  lemma CategoryTotalFresh(s: seq<Transaction>, c: string)
    requires c !in DistinctKeys(s, CategoryOf)
    ensures CategoryTotal(s, c) == 0
  {
    forall x | x in s ensures !InCategory(c)(x) {
      var i :| 0 <= i < |s| && s[i] == x;
    }
    FilterNone(s, InCategory(c));
  }

  /**
   * The `forEach` over the expenses: `data` gets one entry per category, in
   * order of first occurrence (`names`), holding the category's summed amount.
   */
  method SumByCategory(expenses: seq<Transaction>) returns (names: seq<string>, data: map<string, int>)
    ensures names == DistinctKeys(expenses, CategoryOf)
    ensures forall c :: c in data <==> c in names
    ensures forall c :: c in data ==> data[c] == CategoryTotal(expenses, c)
  {
    names := [];
    data := map[];
    for i := 0 to |expenses|
      invariant CategoryInv(expenses[..i], names, data)
    {
      var t := expenses[i];
      ghost var names0, data0 := names, data;
      if t.category !in data {
        names := names + [t.category];
      }
      if t.category !in data || data[t.category] == 0 {
        data := data[t.category := 0];
      }
      data := data[t.category := data[t.category] + t.amount];
      assert expenses[..i + 1] == expenses[..i] + [t];
      CategoryStepPreserves(expenses[..i], names0, data0, t, names, data);
    }
    assert expenses[..|expenses|] == expenses;
  }

  /** `categoryData`: sums the expenses per category, then ranks the categories and keeps five. */
  method CategoryData(transactions: seq<Transaction>) returns (entries: seq<CategoryEntry>)
    ensures entries == TopCategories(transactions)
  {
    var names, data := SumByCategory(Expenses(transactions));
    var totals := seq(|names|, j requires 0 <= j < |names| => CategoryEntry(names[j], data[names[j]]));
    CategoryEntriesOfLoop(transactions, names, data);
    entries := Take(SortDesc(totals, ValueOf), 5);
  }

  /** Once the loop has walked every expense, its dictionary lists the category totals. */
  lemma CategoryEntriesOfLoop(transactions: seq<Transaction>, names: seq<string>, data: map<string, int>)
    requires CategoryInv(Expenses(transactions), names, data)
    ensures seq(|names|, j requires 0 <= j < |names| => CategoryEntry(names[j], data[names[j]]))
         == CategoryTotals(transactions)
  {
  }

  // ---------------------------------------------------------------------------
  // Expense categories: properties

  /** The categories that some expense of the input carries. */
  function ExpenseCategories(transactions: seq<Transaction>): set<string> {
    set t | t in transactions && t.kind == Expense :: t.category
  }

  /** A category's total over the expenses is the sum over the input's expenses in it. */
  lemma CategoryTotalOfExpenses(transactions: seq<Transaction>, c: string)
    ensures CategoryTotal(Expenses(transactions), c) == Sum(Filter(transactions, ExpenseInCategory(c)), AmountOf)
  {
    FilterFilter(transactions, IsExpense, InCategory(c), ExpenseInCategory(c));
  }

  /** The category names collected from the expenses are the expense categories. */
  lemma CategoryNames(transactions: seq<Transaction>)
    ensures (set c | c in DistinctKeys(Expenses(transactions), CategoryOf)) == ExpenseCategories(transactions)
  {
    var e := Expenses(transactions);
    var names := DistinctKeys(e, CategoryOf);
    forall c | c in names ensures c in ExpenseCategories(transactions) {
      var i :| 0 <= i < |e| && CategoryOf(e[i]) == c;
      assert e[i] in e;
    }
    forall c | c in ExpenseCategories(transactions) ensures c in names {
      var t :| t in transactions && t.kind == Expense && t.category == c;
      FilterCount(transactions, IsExpense, t);
      assert t in multiset(e);
      var i :| 0 <= i < |e| && e[i] == t;
      assert CategoryOf(e[i]) == c;
    }
  }

  /** The entries name each expense category exactly once. */
  lemma CategoryTotalsNames(transactions: seq<Transaction>)
    ensures DistinctBy(CategoryTotals(transactions), NameOf)
    ensures |CategoryTotals(transactions)| == |ExpenseCategories(transactions)|
    ensures forall c :: c in ExpenseCategories(transactions) <==>
              exists i :: 0 <= i < |CategoryTotals(transactions)| && CategoryTotals(transactions)[i].name == c
  {
    var names := DistinctKeys(Expenses(transactions), CategoryOf);
    var totals := CategoryTotals(transactions);
    CategoryNames(transactions);
    DistinctCard(names);
    forall i, j | 0 <= i < j < |totals| ensures NameOf(totals[i]) != NameOf(totals[j]) {
      assert totals[i].name == names[i] && totals[j].name == names[j];
    }
    forall c ensures c in ExpenseCategories(transactions) <==>
      exists i :: 0 <= i < |totals| && totals[i].name == c
    {
      if c in ExpenseCategories(transactions) {
        assert c in names;
        var i :| 0 <= i < |names| && names[i] == c;
        assert totals[i].name == c;
      }
    }
  }

  /** Each entry carries the summed amount of the input's expenses in its category. */
  lemma CategoryTotalsValues(transactions: seq<Transaction>)
    ensures forall e :: e in CategoryTotals(transactions) ==>
              e.value == Sum(Filter(transactions, ExpenseInCategory(e.name)), AmountOf)
  {
    var totals := CategoryTotals(transactions);
    forall x | x in totals ensures x.value == Sum(Filter(transactions, ExpenseInCategory(x.name)), AmountOf) {
      var i :| 0 <= i < |totals| && totals[i] == x;
      CategoryTotalOfExpenses(transactions, x.name);
    }
  }

  /** The entries name each expense category once and carry its total. */
  lemma CategoryTotalsSpec(transactions: seq<Transaction>)
    ensures DistinctBy(CategoryTotals(transactions), NameOf)
    ensures |CategoryTotals(transactions)| == |ExpenseCategories(transactions)|
    ensures forall c :: c in ExpenseCategories(transactions) <==>
              exists i :: 0 <= i < |CategoryTotals(transactions)| && CategoryTotals(transactions)[i].name == c
    ensures forall e :: e in CategoryTotals(transactions) ==>
              e.value == Sum(Filter(transactions, ExpenseInCategory(e.name)), AmountOf)
  {
    CategoryTotalsNames(transactions);
    CategoryTotalsValues(transactions);
  }

  lemma CategoryRankingElements(transactions: seq<Transaction>)
    ensures multiset(CategoryRanking(transactions)) == multiset(CategoryTotals(transactions))
    ensures |CategoryRanking(transactions)| == |CategoryTotals(transactions)|
    ensures forall e :: e in CategoryRanking(transactions) <==> e in CategoryTotals(transactions)
  {
    var totals := CategoryTotals(transactions);
    SortDescPermutation(totals, ValueOf);
    forall e ensures e in CategoryRanking(transactions) <==> e in totals {
      assert e in CategoryRanking(transactions) <==> e in multiset(CategoryRanking(transactions));
    }
  }

  /**
   * At most five entries, one per category, largest total first: all the
   * expense categories when there are at most five of them.
   */
  lemma TopCategoriesShape(transactions: seq<Transaction>)
    ensures |TopCategories(transactions)| <= 5
    ensures |TopCategories(transactions)|
         == if |ExpenseCategories(transactions)| < 5 then |ExpenseCategories(transactions)| else 5
    ensures forall i, j :: 0 <= i < j < |TopCategories(transactions)| ==>
              TopCategories(transactions)[i].name != TopCategories(transactions)[j].name
    ensures forall i, j :: 0 <= i < j < |TopCategories(transactions)| ==>
              TopCategories(transactions)[i].value >= TopCategories(transactions)[j].value
  {
    var ranking := CategoryRanking(transactions);
    CategoryTotalsSpec(transactions);
    CategoryRankingElements(transactions);
    SortDescSorted(CategoryTotals(transactions), ValueOf);
    SortDescDistinctBy(CategoryTotals(transactions), ValueOf, NameOf);
    var top := TopCategories(transactions);
    forall i, j | 0 <= i < j < |top| ensures top[i].name != top[j].name && top[i].value >= top[j].value {
      assert top[i] == ranking[i] && top[j] == ranking[j];
      assert NameOf(ranking[i]) != NameOf(ranking[j]);
      assert ValueOf(ranking[i]) >= ValueOf(ranking[j]);
    }
  }

  /**
   * Each entry names a category of some expense, and its value is the sum of
   * the amounts of the expenses in exactly that category; incomes never count.
   */
  lemma TopCategoriesValues(transactions: seq<Transaction>)
    ensures forall e :: e in TopCategories(transactions) ==>
              && e.name in ExpenseCategories(transactions)
              && e.value == Sum(Filter(transactions, ExpenseInCategory(e.name)), AmountOf)
  {
    CategoryTotalsSpec(transactions);
    CategoryRankingElements(transactions);
    var totals := CategoryTotals(transactions);
    forall e | e in TopCategories(transactions)
      ensures e.name in ExpenseCategories(transactions)
      ensures e.value == Sum(Filter(transactions, ExpenseInCategory(e.name)), AmountOf)
    {
      assert e in CategoryRanking(transactions);
      var i :| 0 <= i < |totals| && totals[i] == e;
    }
  }

  /**
   * A category that is left out is not larger than any category shown, and
   * then five categories are shown.
   */
  lemma TopCategoriesLeftOut(transactions: seq<Transaction>, c: string)
    requires c in ExpenseCategories(transactions)
    requires forall e :: e in TopCategories(transactions) ==> e.name != c
    ensures |TopCategories(transactions)| == 5
    ensures forall e :: e in TopCategories(transactions) ==>
              Sum(Filter(transactions, ExpenseInCategory(c)), AmountOf) <= e.value
  {
    var totals := CategoryTotals(transactions);
    CategoryTotalsNames(transactions);
    CategoryTotalsValues(transactions);
    CategoryRankingElements(transactions);
    SortDescSorted(totals, ValueOf);
    var i :| 0 <= i < |totals| && totals[i].name == c;
    assert totals[i] in totals;
    RankingLeftOut(CategoryRanking(transactions), totals[i]);
  }

  /** An entry of a ranking that is not among the first five is not above any of them. */
  lemma RankingLeftOut(ranking: seq<CategoryEntry>, x: CategoryEntry)
    requires SortedDesc(ranking, ValueOf)
    requires x in ranking && x !in Take(ranking, 5)
    ensures |Take(ranking, 5)| == 5
    ensures forall e :: e in Take(ranking, 5) ==> x.value <= e.value
  {
    var top := Take(ranking, 5);
    var k :| 0 <= k < |ranking| && ranking[k] == x;
    assert k >= |top|;
    forall e | e in top ensures x.value <= e.value {
      var j :| 0 <= j < |top| && top[j] == e;
      assert ranking[j] == e;
      assert ValueOf(ranking[j]) >= ValueOf(ranking[k]);
    }
  }

  /** The totals of the categories `names` over `s`, added up. */
  function SumOfTotals(s: seq<Transaction>, names: seq<string>): int {
    if names == [] then 0 else CategoryTotal(s, names[0]) + SumOfTotals(s, names[1..])
  }

  /** Entries that carry the totals of `names`, in order, add up to `SumOfTotals`. */
  lemma {:induction false} SumOfEntries(r: seq<CategoryEntry>, s: seq<Transaction>, names: seq<string>)
    requires |r| == |names|
    requires forall i :: 0 <= i < |r| ==> r[i].value == CategoryTotal(s, names[i])
    ensures Sum(r, ValueOf) == SumOfTotals(s, names)
  {
    if r != [] {
      SumOfEntries(r[1..], s, names[1..]);
    }
  }

  /** One more transaction adds its amount to the sum once, if its category is among `names`. */
  lemma {:induction false} SumOfTotalsStep(s: seq<Transaction>, t: Transaction, names: seq<string>)
    requires Distinct(names)
    ensures SumOfTotals(s + [t], names)
         == SumOfTotals(s, names) + if t.category in names then t.amount else 0
  {
    if names != [] {
      var rest := names[1..];
      assert Distinct(rest) by {
        forall i, j | 0 <= i < j < |rest| ensures rest[i] != rest[j] {
          assert rest[i] == names[i + 1] && rest[j] == names[j + 1];
        }
      }
      assert names[0] !in rest;
      assert t.category in names <==> t.category == names[0] || t.category in rest;
      SumOfTotalsStep(s, t, rest);
      CategoryTotalStep(s, t, names[0]);
    }
  }

  lemma {:induction false} SumOfTotalsSnoc(s: seq<Transaction>, names: seq<string>, c: string)
    ensures SumOfTotals(s, names + [c]) == SumOfTotals(s, names) + CategoryTotal(s, c)
  {
    if names == [] {
      assert names + [c] == [c];
    } else {
      assert (names + [c])[1..] == names[1..] + [c];
      SumOfTotalsSnoc(s, names[1..], c);
    }
  }

  /** The per-category totals of `s` add up to the total of `s`: the categories partition it. */
  lemma {:induction false} SumOfTotalsPartition(s: seq<Transaction>)
    ensures SumOfTotals(s, DistinctKeys(s, CategoryOf)) == Sum(s, AmountOf)
  {
    if s != [] {
      var init := s[..|s| - 1];
      var t := s[|s| - 1];
      var names := DistinctKeys(init, CategoryOf);
      assert s == init + [t];
      SumOfTotalsPartition(init);
      DistinctKeysSnoc(init, t, CategoryOf);
      SumAppend(init, [t], AmountOf);
      assert Sum([t], AmountOf) == t.amount + Sum([t][1..], AmountOf);
      SumOfTotalsStep(init, t, names);
      if t.category !in names {
        SumOfTotalsSnoc(s, names, t.category);
        CategoryTotalStep(init, t, t.category);
        CategoryTotalFresh(init, t.category);
      }
    }
  }

  /**
   * Over all categories the values add up to the total of the expenses, so no
   * expense is counted twice or lost.
   */
  lemma CategoryTotalsSum(transactions: seq<Transaction>)
    ensures Sum(CategoryTotals(transactions), ValueOf) == Sum(Expenses(transactions), AmountOf)
    ensures Sum(CategoryRanking(transactions), ValueOf) == Sum(Expenses(transactions), AmountOf)
  {
    var e := Expenses(transactions);
    SumOfEntries(CategoryTotals(transactions), e, DistinctKeys(e, CategoryOf));
    SumOfTotalsPartition(e);
    SortDescPermutation(CategoryTotals(transactions), ValueOf);
    SumPermutation(CategoryRanking(transactions), CategoryTotals(transactions), ValueOf);
  }

  /** A prefix of non-negative values adds up to no more than the whole. */
  lemma PrefixSumBound(r: seq<CategoryEntry>, k: nat)
    requires k <= |r|
    requires forall e :: e in r ==> e.value >= 0
    ensures Sum(r[..k], ValueOf) <= Sum(r, ValueOf)
  {
    assert r == r[..k] + r[k..];
    SumAppend(r[..k], r[k..], ValueOf);
    SumNonNegative(r[k..], ValueOf);
  }

  /**
   * With non-negative amounts, every slice of the category chart lies between
   * 0 and the total of all expenses, and the slices shown add up to at most
   * that total.
   */
  lemma TopCategoriesBounded(transactions: seq<Transaction>)
    requires forall t :: t in transactions ==> t.amount >= 0
    ensures forall e :: e in TopCategories(transactions) ==>
              0 <= e.value <= Sum(Expenses(transactions), AmountOf)
    ensures Sum(TopCategories(transactions), ValueOf) <= Sum(Expenses(transactions), AmountOf)
  {
    var ranking := CategoryRanking(transactions);
    TopCategoriesValues(transactions);
    forall e | e in TopCategories(transactions) ensures 0 <= e.value <= Sum(Expenses(transactions), AmountOf) {
      SumNonNegative(Filter(transactions, ExpenseInCategory(e.name)), AmountOf);
      SumFilterMonotone(transactions, ExpenseInCategory(e.name), IsExpense, AmountOf);
    }
    CategoryTotalsValues(transactions);
    CategoryRankingElements(transactions);
    forall e | e in ranking ensures e.value >= 0 {
      assert e in CategoryTotals(transactions);
      SumNonNegative(Filter(transactions, ExpenseInCategory(e.name)), AmountOf);
    }
    CategoryTotalsSum(transactions);
    PrefixSumBound(ranking, |TopCategories(transactions)|);
  }

  /** The entries list the expense categories in the order in which each first occurs among the expenses. */
  lemma CategoryTotalsFirstOccurrence(transactions: seq<Transaction>)
    ensures forall i, j :: 0 <= i < j < |CategoryTotals(transactions)| ==>
              FirstBefore(Expenses(transactions), CategoryOf,
                          CategoryTotals(transactions)[i].name, CategoryTotals(transactions)[j].name)
  {
    DistinctKeysFirstOccurrence(Expenses(transactions), CategoryOf);
  }

  /** Among categories with equal totals, the ranking keeps the order of first occurrence. */
  lemma CategoryRankingStable(transactions: seq<Transaction>, v: int)
    ensures WithKey(CategoryRanking(transactions), ValueOf, v) == WithKey(CategoryTotals(transactions), ValueOf, v)
  {
    SortDescStable(CategoryTotals(transactions), ValueOf, v);
  }

  /** Inserting an income anywhere in the input changes no category. */
  lemma TopCategoriesIgnoreIncome(a: seq<Transaction>, t: Transaction, b: seq<Transaction>)
    requires t.kind == Income
    ensures TopCategories(a + [t] + b) == TopCategories(a + b)
  {
    FilterAppend(a + [t], b, IsExpense);
    FilterAppend(a, [t], IsExpense);
    FilterAppend(a, b, IsExpense);
    assert Filter([t], IsExpense) == Filter([t][1..], IsExpense) == [];
    assert Expenses(a + [t] + b) == Expenses(a + b);
  }

  /** Empty input gives empty charts. */
  lemma ChartsOfEmpty()
    ensures MonthlySeries([]) == []
    ensures TopCategories([]) == []
  {
    assert SortByDateAsc([]) == [];
    assert DistinctKeys(SortByDateAsc([]), KeyOf) == [];
    assert Expenses([]) == [];
    assert DistinctKeys(Expenses([]), CategoryOf) == [];
    assert CategoryTotals([]) == [];
  }
}
