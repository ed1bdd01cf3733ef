/**
 * The Records page (src/pages/Records.tsx): the month, bank and category
 * filters over the transaction list, the month choices, the totals of the
 * filtered rows and the empty-state message.
 */
module Records {
  import opened Types
  import opened Seqs
  import opened LedgerRules

  /** A filter drop-down: "all", or one chosen value. */
  datatype Selector<T> = All | Only(value: T)

  predicate Matches<T(==)>(s: Selector<T>, x: T) {
    s.All? || s.value == x
  }

  /**
   * `t.purpose?.category?.id`: the id of the category joined through the
   * transaction's purpose, missing when the purpose or its category is.
   */
  function TransactionCategory(purposes: seq<Purpose>, categories: seq<Category>, t: Transaction): (r: Option<Id>)
    ensures r.Some? ==> t.purposeId.Some? && exists i :: 0 <= i < |categories| && categories[i].id == r.value
  {
    if t.purposeId.None? then None
    else
      match PurposeCategory(purposes, categories, t.purposeId.value)
      case None => None
      case Some(k) => Some(categories[k].id)
  }

  datatype Filters = Filters(month: Selector<Month>, bank: Selector<Id>, category: Selector<Id>)

  const NoFilters: Filters := Filters(All, All, All)

  /** A row passes all three filters. */
  function Shown(f: Filters, purposes: seq<Purpose>, categories: seq<Category>, t: Transaction): (b: bool)
    ensures f == NoFilters ==> b
    ensures f.category.Only? && t.purposeId.None? ==> !b
    ensures b ==> Matches(f.month, t.month) && Matches(f.bank, t.bankId)
  {
    Matches(f.month, t.month) && Matches(f.bank, t.bankId) &&
    (f.category.All? || TransactionCategory(purposes, categories, t) == Some(f.category.value))
  }

  /** `filteredTransactions`: the rows that pass, in the order fetched, each as often as fetched. */
  function FilteredTransactions(f: Filters, purposes: seq<Purpose>, categories: seq<Category>,
                                transactions: seq<Transaction>): (r: seq<Transaction>)
    ensures forall t :: t in r <==> t in transactions && Shown(f, purposes, categories, t)
    ensures SubsequenceOf(r, transactions)
    ensures forall t :: multiset(r)[t] == if Shown(f, purposes, categories, t) then multiset(transactions)[t] else 0
    ensures f == NoFilters ==> r == transactions
  {
    var p := (t: Transaction) => Shown(f, purposes, categories, t);
    FilterCount(transactions, p);
    Filter(transactions, p)
  }

  /** A transaction without a purpose never passes a specific category filter. */
  lemma NoPurposeNeverInCategory(purposes: seq<Purpose>, categories: seq<Category>, transactions: seq<Transaction>,
                                 f: Filters, t: Transaction)
    requires f.category.Only? && t.purposeId.None?
    ensures t !in FilteredTransactions(f, purposes, categories, transactions)
  {
  }

  /**
   * Choosing only a month shows exactly the transactions the dashboard counts
   * for that month, so the page's totals are the dashboard's monthly totals.
   */
  lemma MonthFilterIsDashboardMonth(purposes: seq<Purpose>, categories: seq<Category>,
                                    transactions: seq<Transaction>, month: Month)
    ensures FilteredTransactions(Filters(Only(month), All, All), purposes, categories, transactions) ==
      InMonth(transactions, month)
    ensures FilteredIncome(Filters(Only(month), All, All), purposes, categories, transactions) ==
      MonthlyIncome(transactions, month)
    ensures FilteredExpenses(Filters(Only(month), All, All), purposes, categories, transactions) ==
      MonthlyExpenses(transactions, month)
  {
    var f := Filters(Only(month), All, All);
    FilterCongruent(transactions, (t: Transaction) => Shown(f, purposes, categories, t),
                    (t: Transaction) => t.month == month);
  }

  /**
   * The "Total Income" of the summary: the income amounts of the filtered
   * rows, at most the income of all rows, and all of it with no filter set.
   */
  function FilteredIncome(f: Filters, purposes: seq<Purpose>, categories: seq<Category>,
                          transactions: seq<Transaction>): (r: real)
    ensures AmountsNonNegative(transactions) ==> 0.0 <= r <= SumAmounts(transactions, Income)
    ensures f == NoFilters ==> r == SumAmounts(transactions, Income)
  {
    var shown := FilteredTransactions(f, purposes, categories, transactions);
    SumAmountsSubsequence(shown, transactions, Income);
    SumAmounts(shown, Income)
  }

  /** The "Total Expenses" of the summary, bounded the same way. */
  function FilteredExpenses(f: Filters, purposes: seq<Purpose>, categories: seq<Category>,
                            transactions: seq<Transaction>): (r: real)
    ensures AmountsNonNegative(transactions) ==> 0.0 <= r <= SumAmounts(transactions, Expense)
    ensures f == NoFilters ==> r == SumAmounts(transactions, Expense)
  {
    var shown := FilteredTransactions(f, purposes, categories, transactions);
    SumAmountsSubsequence(shown, transactions, Expense);
    SumAmounts(shown, Expense)
  }

  // ------------------------------------------------------- month choices

  ghost predicate StrictlyDecreasing(s: seq<Month>) {
    forall i, j :: 0 <= i < j < |s| ==> s[i] > s[j]
  }

  function Months(transactions: seq<Transaction>): seq<Month> {
    seq(|transactions|, i requires 0 <= i < |transactions| => transactions[i].month)
  }

  /** Insert a month into a newest-first list of distinct months. */
  function InsertDescending(keys: seq<Month>, m: Month): (r: seq<Month>)
    requires StrictlyDecreasing(keys)
    ensures StrictlyDecreasing(r)
    ensures forall x :: x in r <==> x in keys || x == m
  {
    if |keys| == 0 then [m]
    else if m == keys[0] then keys
    else if m > keys[0] then
      var r := [m] + keys;
      assert forall i :: 0 < i < |r| ==> r[i] == keys[i - 1] && keys[i - 1] <= keys[0];
      r
    else
      var rest := InsertDescending(keys[1..], m);
      assert keys == [keys[0]] + keys[1..];
      assert forall x :: x in keys[1..] ==> x < keys[0];
      assert forall x :: x in rest ==> x < keys[0];
      var r := [keys[0]] + rest;
      assert forall i :: 0 < i < |r| ==> r[i] == rest[i - 1] && r[i] in rest;
      r
  }

  /**
   * The month drop-down: `[...new Set(months)].sort().reverse()`, each month
   * of a transaction once, newest first.
   */
  function MonthChoices(transactions: seq<Transaction>): (r: seq<Month>)
    ensures StrictlyDecreasing(r)
    ensures forall m :: m in r <==> m in Months(transactions)
  {
    if |transactions| == 0 then []
    else
      var rest := MonthChoices(transactions[1..]);
      assert Months(transactions) == [transactions[0].month] + Months(transactions[1..]);
      InsertDescending(rest, transactions[0].month)
  }

  /** Every month choice selects at least one transaction. */
  lemma {:induction false} EveryMonthChoiceShowsRows(purposes: seq<Purpose>, categories: seq<Category>,
                                                     transactions: seq<Transaction>, m: Month)
    requires m in MonthChoices(transactions)
    ensures |FilteredTransactions(Filters(Only(m), All, All), purposes, categories, transactions)| > 0
  {
    var i :| 0 <= i < |transactions| && Months(transactions)[i] == m;
    assert transactions[i] in FilteredTransactions(Filters(Only(m), All, All), purposes, categories, transactions);
  }

  // ---------------------------------------------------------- the table

  /** What the table area shows. */
  datatype TableView = Rows(shown: seq<Transaction>) | StartByAdding | TryAdjustingFilters

  function Table(f: Filters, purposes: seq<Purpose>, categories: seq<Category>,
                 transactions: seq<Transaction>): (v: TableView)
    ensures v.StartByAdding? <==> |transactions| == 0
    ensures v.TryAdjustingFilters? <==>
      |transactions| > 0 && forall t :: t in transactions ==> !Shown(f, purposes, categories, t)
    ensures v.Rows? ==> v.shown == FilteredTransactions(f, purposes, categories, transactions) && |v.shown| > 0
  {
    var shown := FilteredTransactions(f, purposes, categories, transactions);
    if |shown| > 0 then Rows(shown)
    else if |transactions| == 0 then StartByAdding
    else TryAdjustingFilters
  }
}
