/**
 * The pure rules of the budget ledger (src/hooks/useBudgetData.ts): how a
 * transaction moves a bank balance and a category's `spent`, how the monthly
 * rollover recomputes a category, and the aggregates derived on every read.
 * The mutations in module BudgetData are proved to follow these rules.
 */
module LedgerRules {
  import opened Types
  import opened Seqs

  // ---------------------------------------------------------------- lookups

  function BankIds(banks: seq<Bank>): seq<Id> {
    seq(|banks|, i requires 0 <= i < |banks| => banks[i].id)
  }

  function CategoryIds(categories: seq<Category>): seq<Id> {
    seq(|categories|, i requires 0 <= i < |categories| => categories[i].id)
  }

  function PurposeIds(purposes: seq<Purpose>): seq<Id> {
    seq(|purposes|, i requires 0 <= i < |purposes| => purposes[i].id)
  }

  function TransactionIds(transactions: seq<Transaction>): seq<Id> {
    seq(|transactions|, i requires 0 <= i < |transactions| => transactions[i].id)
  }

  /** `banks.find((b) => b.id === id)`, as an index. */
  function FindBank(banks: seq<Bank>, id: Id): (r: Option<nat>)
    ensures r.Some? ==> r.value < |banks| && banks[r.value].id == id
    ensures r.None? ==> forall i :: 0 <= i < |banks| ==> banks[i].id != id
  {
    var ids := BankIds(banks);
    assert forall i :: 0 <= i < |banks| ==> ids[i] == banks[i].id && ids[i] in ids;
    IndexOf(ids, id)
  }

  function FindCategory(categories: seq<Category>, id: Id): (r: Option<nat>)
    ensures r.Some? ==> r.value < |categories| && categories[r.value].id == id
    ensures r.None? ==> forall i :: 0 <= i < |categories| ==> categories[i].id != id
  {
    var ids := CategoryIds(categories);
    assert forall i :: 0 <= i < |categories| ==> ids[i] == categories[i].id && ids[i] in ids;
    IndexOf(ids, id)
  }

  function FindPurpose(purposes: seq<Purpose>, id: Id): (r: Option<nat>)
    ensures r.Some? ==> r.value < |purposes| && purposes[r.value].id == id
    ensures r.None? ==> forall i :: 0 <= i < |purposes| ==> purposes[i].id != id
  {
    var ids := PurposeIds(purposes);
    assert forall i :: 0 <= i < |purposes| ==> ids[i] == purposes[i].id && ids[i] in ids;
    IndexOf(ids, id)
  }

  // ------------------------------------------------------ row updates by id

  /** `update({ balance: v }).eq("id", id)` on the banks table. */
  function SetBalance(banks: seq<Bank>, id: Id, v: real): (r: seq<Bank>)
    ensures |r| == |banks| && BankIds(r) == BankIds(banks)
  {
    seq(|banks|, i requires 0 <= i < |banks| => if banks[i].id == id then Bank(id, v) else banks[i])
  }

  /** The columns one category update writes; `None` leaves a column as it is. */
  datatype CategoryPatch = CategoryPatch(
    percentage: Option<real>,
    monthlyLimit: Option<real>,
    spent: Option<real>,
    rollover: Option<real>,
    lastReset: Option<Month>)

  function Pick<T>(written: Option<T>, current: Option<T>): Option<T> {
    if written.Some? then written else current
  }

  function Patch(c: Category, p: CategoryPatch): Category {
    Category(c.id, Pick(p.percentage, c.percentage), Pick(p.monthlyLimit, c.monthlyLimit),
             Pick(p.spent, c.spent), Pick(p.rollover, c.rollover), Pick(p.lastReset, c.lastReset))
  }

  /** `update(patch).eq("id", id)` on the budget_categories table. */
  function UpdateCategories(categories: seq<Category>, id: Id, p: CategoryPatch): (r: seq<Category>)
    ensures |r| == |categories| && CategoryIds(r) == CategoryIds(categories)
  {
    seq(|categories|, i requires 0 <= i < |categories| =>
      if categories[i].id == id then Patch(categories[i], p) else categories[i])
  }

  function SpentPatch(spent: real): CategoryPatch {
    CategoryPatch(None, None, Some(spent), None, None)
  }

  /** With distinct ids, updating the row with id `b[i].id` touches row `i` only. */
  lemma SetBalanceAt(banks: seq<Bank>, i: nat, v: real)
    requires Distinct(BankIds(banks)) && i < |banks|
    ensures SetBalance(banks, banks[i].id, v) == banks[i := Bank(banks[i].id, v)]
  {
    var r := SetBalance(banks, banks[i].id, v);
    forall j | 0 <= j < |banks| && j != i
      ensures r[j] == banks[j]
    {
      assert BankIds(banks)[j] != BankIds(banks)[i];
    }
  }

  lemma UpdateCategoriesAt(categories: seq<Category>, i: nat, p: CategoryPatch)
    requires Distinct(CategoryIds(categories)) && i < |categories|
    ensures UpdateCategories(categories, categories[i].id, p) == categories[i := Patch(categories[i], p)]
  {
    var r := UpdateCategories(categories, categories[i].id, p);
    forall j | 0 <= j < |categories| && j != i
      ensures r[j] == categories[j]
    {
      assert CategoryIds(categories)[j] != CategoryIds(categories)[i];
    }
  }

  // ------------------------------------------- transaction effects

  /** The balance after `addTransaction`: income adds the amount, an expense subtracts it. */
  function BalanceOnAdd(balance: real, t: Transaction): real {
    if t.kind == Income then balance + t.amount else balance - t.amount
  }

  /** The balance after `deleteTransaction`: the opposite movement. */
  function BalanceOnDelete(balance: real, t: Transaction): real {
    if t.kind == Income then balance - t.amount else balance + t.amount
  }

  /** The movement a transaction makes to its bank: +amount for income, -amount for an expense. */
  function Signed(t: Transaction): real {
    if t.kind == Income then t.amount else -t.amount
  }

  /** The banks after addTransaction's balance write; an unknown bank id changes nothing. */
  function CreditBank(banks: seq<Bank>, t: Transaction): (r: seq<Bank>)
    ensures |r| == |banks| && BankIds(r) == BankIds(banks)
  {
    match FindBank(banks, t.bankId)
    case None => banks
    case Some(i) => SetBalance(banks, t.bankId, BalanceOnAdd(banks[i].balance, t))
  }

  /** The banks after deleteTransaction's balance write. */
  function DebitBank(banks: seq<Bank>, t: Transaction): (r: seq<Bank>)
    ensures |r| == |banks| && BankIds(r) == BankIds(banks)
  {
    match FindBank(banks, t.bankId)
    case None => banks
    case Some(i) => SetBalance(banks, t.bankId, BalanceOnDelete(banks[i].balance, t))
  }

  /** JavaScript truthiness of an optional id: missing and empty are both false. */
  predicate Truthy(id: Option<Id>) {
    id.Some? && id.value != ""
  }

  /** The index of the category a purpose belongs to, when both rows are found. */
  function PurposeCategory(purposes: seq<Purpose>, categories: seq<Category>, purposeId: Id): (r: Option<nat>)
    ensures r.Some? ==> r.value < |categories|
  {
    match FindPurpose(purposes, purposeId)
    case None => None
    case Some(pi) => FindCategory(categories, purposes[pi].categoryId)
  }

  /** The category whose `spent` a transaction moves: only an expense with a resolvable purpose. */
  function ChargedCategory(purposes: seq<Purpose>, categories: seq<Category>, t: Transaction): (r: Option<nat>)
    ensures r.Some? ==> r.value < |categories| && t.kind == Expense && Truthy(t.purposeId)
  {
    if t.kind == Expense && Truthy(t.purposeId) then PurposeCategory(purposes, categories, t.purposeId.value)
    else None
  }

  /** The categories after addTransaction's `spent` write: `spent + amount` on the charged category. */
  function ChargeSpent(categories: seq<Category>, purposes: seq<Purpose>, t: Transaction): (r: seq<Category>)
    ensures |r| == |categories| && CategoryIds(r) == CategoryIds(categories)
  {
    match ChargedCategory(purposes, categories, t)
    case None => categories
    case Some(ci) =>
      UpdateCategories(categories, categories[ci].id, SpentPatch(OrZero(categories[ci].spent) + t.amount))
  }

  /** The categories after deleteTransaction's `spent` write: `max(0, spent - amount)`. */
  function RefundSpent(categories: seq<Category>, purposes: seq<Purpose>, t: Transaction): (r: seq<Category>)
    ensures |r| == |categories| && CategoryIds(r) == CategoryIds(categories)
  {
    match ChargedCategory(purposes, categories, t)
    case None => categories
    case Some(ci) =>
      UpdateCategories(categories, categories[ci].id, SpentPatch(Max(0.0, OrZero(categories[ci].spent) - t.amount)))
  }

  /** `delete().eq("id", id)` on the transactions table. */
  function RemoveTransaction(transactions: seq<Transaction>, id: Id): (r: seq<Transaction>)
    ensures forall t :: t in r <==> t in transactions && t.id != id
  {
    Filter(transactions, (t: Transaction) => t.id != id)
  }

  /** The transaction insert is accepted unless the store rejects it or the id is taken. */
  predicate InsertAccepted(transactions: seq<Transaction>, t: Transaction, fails: set<Write>) {
    TransactionInsert !in fails && t.id !in TransactionIds(transactions)
  }

  /** addTransaction's bank write is attempted and rejected. */
  predicate BankWriteRejected(banks: seq<Bank>, t: Transaction, fails: set<Write>) {
    FindBank(banks, t.bankId).Some? && BankUpdate(t.bankId) in fails
  }

  /** A `spent` write on the category of `t` is attempted and rejected. */
  predicate SpentWriteRejected(categories: seq<Category>, purposes: seq<Purpose>, t: Transaction, fails: set<Write>) {
    match ChargedCategory(purposes, categories, t)
    case None => false
    case Some(ci) => CategoryUpdate(categories[ci].id) in fails
  }

  function ChargedId(categories: seq<Category>, purposes: seq<Purpose>, t: Transaction): Id
    requires ChargedCategory(purposes, categories, t).Some?
  {
    categories[ChargedCategory(purposes, categories, t).value].id
  }

  /**
   * addTransaction's balance write: the transaction's bank moves by the
   * signed amount and no other bank changes; an unknown bank id changes nothing.
   */
  lemma CreditBankEffect(banks: seq<Bank>, t: Transaction)
    requires Distinct(BankIds(banks))
    ensures var r := CreditBank(banks, t);
      forall i :: 0 <= i < |banks| ==>
        r[i].id == banks[i].id &&
        r[i].balance == if banks[i].id == t.bankId then banks[i].balance + Signed(t) else banks[i].balance
  {
    match FindBank(banks, t.bankId)
    case None =>
    case Some(k) =>
      SetBalanceAt(banks, k, BalanceOnAdd(banks[k].balance, t));
      forall i | 0 <= i < |banks| && i != k
        ensures banks[i].id != t.bankId
      {
        assert BankIds(banks)[i] != BankIds(banks)[k];
      }
  }

  /**
   * addTransaction's `spent` write: only an expense with a truthy purpose id
   * whose purpose and category both exist raises that category's `spent` by
   * the amount; every other category, and every category for income or an
   * unresolved purpose, keeps its row.
   */
  lemma ChargeSpentEffect(categories: seq<Category>, purposes: seq<Purpose>, t: Transaction)
    requires Distinct(CategoryIds(categories))
    ensures ChargedCategory(purposes, categories, t).Some? <==>
      t.kind == Expense && Truthy(t.purposeId) &&
      exists pi :: 0 <= pi < |purposes| && purposes[pi].id == t.purposeId.value &&
        FindPurpose(purposes, t.purposeId.value) == Some(pi) &&
        FindCategory(categories, purposes[pi].categoryId).Some?
    ensures ChargedCategory(purposes, categories, t).None? ==> ChargeSpent(categories, purposes, t) == categories
    ensures match ChargedCategory(purposes, categories, t)
      case None => true
      case Some(ci) =>
        var r := ChargeSpent(categories, purposes, t);
        r[ci] == categories[ci].(spent := Some(OrZero(categories[ci].spent) + t.amount)) &&
        forall j :: 0 <= j < |categories| && j != ci ==> r[j] == categories[j]
  {
    match ChargedCategory(purposes, categories, t)
    case None =>
    case Some(ci) =>
      UpdateCategoriesAt(categories, ci, SpentPatch(OrZero(categories[ci].spent) + t.amount));
  }

  /**
   * deleteTransaction's balance write: the transaction's bank moves back by
   * the signed amount and no other bank changes; an unknown bank id changes nothing.
   */
  lemma DebitBankEffect(banks: seq<Bank>, t: Transaction)
    requires Distinct(BankIds(banks))
    ensures var r := DebitBank(banks, t);
      forall i :: 0 <= i < |banks| ==>
        r[i].id == banks[i].id &&
        r[i].balance == if banks[i].id == t.bankId then banks[i].balance - Signed(t) else banks[i].balance
  {
    match FindBank(banks, t.bankId)
    case None =>
    case Some(k) =>
      SetBalanceAt(banks, k, BalanceOnDelete(banks[k].balance, t));
      forall i | 0 <= i < |banks| && i != k
        ensures banks[i].id != t.bankId
      {
        assert BankIds(banks)[i] != BankIds(banks)[k];
      }
  }

  /**
   * deleteTransaction's `spent` write: the category an expense was charged to
   * gets `max(0, spent - amount)` (null read as 0) and every other category
   * keeps its row; with no charged category nothing changes.
   */
  lemma RefundSpentEffect(categories: seq<Category>, purposes: seq<Purpose>, t: Transaction)
    requires Distinct(CategoryIds(categories))
    ensures ChargedCategory(purposes, categories, t).None? ==> RefundSpent(categories, purposes, t) == categories
    ensures match ChargedCategory(purposes, categories, t)
      case None => true
      case Some(ci) =>
        var r := RefundSpent(categories, purposes, t);
        r[ci] == categories[ci].(spent := Some(Max(0.0, OrZero(categories[ci].spent) - t.amount))) &&
        forall j :: 0 <= j < |categories| && j != ci ==> r[j] == categories[j]
  {
    match ChargedCategory(purposes, categories, t)
    case None =>
    case Some(ci) =>
      UpdateCategoriesAt(categories, ci, SpentPatch(Max(0.0, OrZero(categories[ci].spent) - t.amount)));
  }

  // -------------------------------------------------- round trips

  /** Deleting a transaction after adding it restores the balance exactly. */
  lemma BalanceRoundTrip(balance: real, t: Transaction)
    ensures BalanceOnDelete(BalanceOnAdd(balance, t), t) == balance
    ensures BalanceOnAdd(balance, t) == balance + Signed(t)
  {
  }

  /** addTransaction then deleteTransaction of the same row leaves every bank as it was. */
  lemma BanksRoundTrip(banks: seq<Bank>, t: Transaction)
    requires Distinct(BankIds(banks))
    ensures DebitBank(CreditBank(banks, t), t) == banks
  {
    match FindBank(banks, t.bankId)
    case None =>
    case Some(i) =>
      var b1 := CreditBank(banks, t);
      SetBalanceAt(banks, i, BalanceOnAdd(banks[i].balance, t));
      DistinctIndexOf(BankIds(b1), i);
      assert FindBank(b1, t.bankId) == Some(i);
      SetBalanceAt(b1, i, BalanceOnDelete(b1[i].balance, t));
  }

  /**
   * addTransaction then deleteTransaction of the same row restores every
   * category, except that the charged category's `spent` reads back as
   * `Some(old value or 0)`; it is exactly restored when it was non-null.
   * Needs the charged `spent` to be non-negative, which every write keeps.
   */
  lemma SpentRoundTrip(categories: seq<Category>, purposes: seq<Purpose>, t: Transaction)
    requires Distinct(CategoryIds(categories))
    requires ChargedCategory(purposes, categories, t).Some? ==>
      OrZero(categories[ChargedCategory(purposes, categories, t).value].spent) >= 0.0
    ensures RefundSpent(ChargeSpent(categories, purposes, t), purposes, t) ==
      match ChargedCategory(purposes, categories, t)
      case None => categories
      case Some(ci) => categories[ci := categories[ci].(spent := Some(OrZero(categories[ci].spent)))]
  {
    match ChargedCategory(purposes, categories, t)
    case None =>
    case Some(ci) =>
      var c1 := ChargeSpent(categories, purposes, t);
      UpdateCategoriesAt(categories, ci, SpentPatch(OrZero(categories[ci].spent) + t.amount));
      assert CategoryIds(c1) == CategoryIds(categories);
      assert c1[ci].id == categories[ci].id;
      assert ChargedCategory(purposes, c1, t) == Some(ci) by {
        var pi := FindPurpose(purposes, t.purposeId.value).value;
        DistinctIndexOf(CategoryIds(categories), ci);
        assert CategoryIds(c1)[ci] == purposes[pi].categoryId;
      }
      UpdateCategoriesAt(c1, ci, SpentPatch(Max(0.0, OrZero(c1[ci].spent) - t.amount)));
  }

  /** Adding a transaction with a fresh id and then deleting it restores the transaction list. */
  lemma TransactionsRoundTrip(transactions: seq<Transaction>, t: Transaction)
    requires t.id !in TransactionIds(transactions)
    ensures RemoveTransaction(transactions + [t], t.id) == transactions
  {
    var p := (x: Transaction) => x.id != t.id;
    FilterAppend(transactions, t, p);
    forall x | x in transactions
      ensures p(x)
    {
      var i :| 0 <= i < |transactions| && transactions[i] == x;
      assert TransactionIds(transactions)[i] == x.id;
    }
  }

  /** `spent` never becomes negative through a deletion, whatever the amount. */
  lemma RefundKeepsSpentNonNegative(categories: seq<Category>, purposes: seq<Purpose>, t: Transaction)
    requires Distinct(CategoryIds(categories))
    requires forall i :: 0 <= i < |categories| ==> OrZero(categories[i].spent) >= 0.0
    ensures var r := RefundSpent(categories, purposes, t);
      forall i :: 0 <= i < |r| ==> OrZero(r[i].spent) >= 0.0
  {
    match ChargedCategory(purposes, categories, t)
    case None =>
    case Some(ci) =>
      UpdateCategoriesAt(categories, ci, SpentPatch(Max(0.0, OrZero(categories[ci].spent) - t.amount)));
  }

  /** Deleting an 80 expense from a category that has spent 50 leaves it at 0, not -30. */
  lemma RefundClampsAtZero(categories: seq<Category>, purposes: seq<Purpose>, t: Transaction, ci: nat)
    requires Distinct(CategoryIds(categories))
    requires ChargedCategory(purposes, categories, t) == Some(ci)
    requires categories[ci].spent == Some(50.0) && t.amount == 80.0
    ensures RefundSpent(categories, purposes, t)[ci].spent == Some(0.0)
  {
    UpdateCategoriesAt(categories, ci, SpentPatch(Max(0.0, OrZero(categories[ci].spent) - t.amount)));
  }

  // ------------------------------------------------- monthly rollover

  /**
   * `income * (percentage / 100)`: the whole income at 100 %, nothing for a
   * null percentage, and never negative for a non-negative income and share.
   */
  function BaseLimit(income: real, percentage: Option<real>): (r: real)
    ensures r * 100.0 == income * OrZero(percentage)
    ensures OrZero(percentage) == 100.0 ==> r == income
    ensures percentage.None? ==> r == 0.0
    ensures income >= 0.0 && OrZero(percentage) >= 0.0 ==> r >= 0.0
  {
    income * (OrZero(percentage) / 100.0)
  }

  /** The budget available to a category this period: base limit plus carried-over rollover. */
  function AvailableBudget(income: real, c: Category): (r: real)
    ensures r - BaseLimit(income, c.percentage) == OrZero(c.rollover)
    ensures OrZero(c.rollover) >= 0.0 ==> r >= BaseLimit(income, c.percentage)
  {
    BaseLimit(income, c.percentage) + OrZero(c.rollover)
  }

  /** The rollover carried into the next period: the unspent budget, never negative. */
  function NewRollover(income: real, c: Category): (r: real)
    ensures r >= 0.0
    ensures r >= AvailableBudget(income, c) - OrZero(c.spent)
    ensures r == 0.0 || r == AvailableBudget(income, c) - OrZero(c.spent)
  {
    Max(0.0, AvailableBudget(income, c) - OrZero(c.spent))
  }

  /** A category is processed unless its marker already names the current month. */
  function NeedsRollover(c: Category, month: Month): (b: bool)
    ensures c.lastReset.None? ==> b
    ensures !b ==> c.lastReset == Some(month)
  {
    c.lastReset != Some(month)
  }

  /** The reset write: spent 0, the new rollover and the month marker; percentage and limit are not written. */
  function RolloverPatch(income: real, c: Category, month: Month): (p: CategoryPatch)
    ensures p.percentage.None? && p.monthlyLimit.None?
    ensures p.spent == Some(0.0) && p.lastReset == Some(month)
    ensures p.rollover.Some? && p.rollover.value >= 0.0
  {
    CategoryPatch(None, None, Some(0.0), Some(NewRollover(income, c)), Some(month))
  }

  /** One category after the reset loop has visited it. */
  function ResetCategory(income: real, c: Category, month: Month): (r: Category)
    ensures r.id == c.id && r.percentage == c.percentage && r.monthlyLimit == c.monthlyLimit
    ensures r.lastReset == Some(month)
    ensures r == c <==> !NeedsRollover(c, month)
    ensures NeedsRollover(c, month) ==> r.spent == Some(0.0) && r.rollover == Some(NewRollover(income, c))
  {
    if NeedsRollover(c, month) then Patch(c, RolloverPatch(income, c, month)) else c
  }

  /** The categories after the reset loop has visited the first `k` of them. */
  function PartialReset(categories: seq<Category>, income: real, month: Month, k: nat): (r: seq<Category>)
    ensures |r| == |categories| && CategoryIds(r) == CategoryIds(categories)
  {
    seq(|categories|, i requires 0 <= i < |categories| =>
      if i < k then ResetCategory(income, categories[i], month) else categories[i])
  }

  /** The categories after a complete reset. */
  function ResetAll(categories: seq<Category>, income: real, month: Month): (r: seq<Category>)
    ensures |r| == |categories| && CategoryIds(r) == CategoryIds(categories)
  {
    PartialReset(categories, income, month, |categories|)
  }

  predicate RolloverRejected(c: Category, month: Month, fails: set<Write>) {
    NeedsRollover(c, month) && CategoryUpdate(c.id) in fails
  }

  /** Where the reset loop stops: the first processed category whose write is rejected, else the end. */
  function ResetStop(categories: seq<Category>, month: Month, fails: set<Write>): (r: nat)
    ensures r <= |categories|
    ensures forall i :: 0 <= i < r ==> !RolloverRejected(categories[i], month, fails)
    ensures r < |categories| ==> RolloverRejected(categories[r], month, fails)
  {
    if |categories| == 0 then 0
    else if RolloverRejected(categories[0], month, fails) then 0
    else 1 + ResetStop(categories[1..], month, fails)
  }

  /** Every category the reset processes ends with spent 0, a non-negative rollover and this month's marker. */
  lemma ResetProcessed(categories: seq<Category>, income: real, month: Month, i: nat)
    requires i < |categories| && NeedsRollover(categories[i], month)
    ensures var c := ResetAll(categories, income, month)[i];
      c.spent == Some(0.0) && c.lastReset == Some(month) &&
      c.rollover == Some(Max(0.0, AvailableBudget(income, categories[i]) - OrZero(categories[i].spent))) &&
      c.percentage == categories[i].percentage && c.monthlyLimit == categories[i].monthlyLimit
  {
  }

  /** The reset is idempotent within a month: a second run changes nothing. */
  lemma ResetIdempotent(categories: seq<Category>, income: real, month: Month)
    ensures ResetAll(ResetAll(categories, income, month), income, month) == ResetAll(categories, income, month)
  {
  }

  /** Re-running the reset after a run that stopped early gives the same result as one full run. */
  lemma ResetResumes(categories: seq<Category>, income: real, month: Month, k: nat)
    ensures ResetAll(PartialReset(categories, income, month, k), income, month) == ResetAll(categories, income, month)
  {
  }

  /** Worked example: base 1000, rollover 200, spent 1500 carries 0 forward. */
  lemma RolloverOverspendExample(c: Category)
    requires c.percentage == Some(50.0) && c.rollover == Some(200.0) && c.spent == Some(1500.0)
    ensures BaseLimit(2000.0, c.percentage) == 1000.0
    ensures NewRollover(2000.0, c) == 0.0
  {
  }

  /** Worked example: base 1000, no rollover, spent 600 carries 400 forward. */
  lemma RolloverCarryExample(c: Category)
    requires c.percentage == Some(50.0) && c.rollover == None && c.spent == Some(600.0)
    ensures NewRollover(2000.0, c) == 400.0
    ensures AvailableBudget(2000.0, Patch(c, RolloverPatch(2000.0, c, 0))) == 1400.0
  {
  }

  // ------------------------------------------------ needsMonthlyReset

  /** Some category carries a non-null marker other than the current month. */
  function NeedsMonthlyReset(categories: seq<Category>, month: Month): (b: bool)
    ensures b ==> exists i :: 0 <= i < |categories| && NeedsRollover(categories[i], month)
  {
    exists i :: 0 <= i < |categories| && categories[i].lastReset.Some? && categories[i].lastReset != Some(month)
  }

  /** When the banner is raised, a reset does change the categories. */
  lemma FlaggedResetChangesSomething(categories: seq<Category>, income: real, month: Month)
    requires NeedsMonthlyReset(categories, month)
    ensures ResetAll(categories, income, month) != categories
  {
    var i :| 0 <= i < |categories| && categories[i].lastReset.Some? && categories[i].lastReset != Some(month);
    assert ResetAll(categories, income, month)[i].lastReset == Some(month);
  }

  /** After a complete reset the banner is down. */
  lemma ResetClearsFlag(categories: seq<Category>, income: real, month: Month)
    ensures !NeedsMonthlyReset(ResetAll(categories, income, month), month)
  {
    var r := ResetAll(categories, income, month);
    forall i | 0 <= i < |r|
      ensures r[i].lastReset == Some(month)
    {
    }
  }

  /**
   * A category whose marker is null never raises the banner (the banner is
   * the same with that category removed), even though the reset does
   * process and rewrite it: the banner and the reset disagree on it.
   */
  lemma NullMarkerProcessedButNotFlagged(categories: seq<Category>, i: nat, income: real, month: Month)
    requires i < |categories| && categories[i].lastReset.None?
    ensures NeedsMonthlyReset(categories, month) ==
      NeedsMonthlyReset(categories[..i] + categories[i + 1..], month)
    ensures ResetAll(categories, income, month)[i].lastReset == Some(month)
    ensures ResetAll(categories, income, month)[i] != categories[i]
  {
    var rest := categories[..i] + categories[i + 1..];
    assert forall j :: 0 <= j < i ==> rest[j] == categories[j];
    assert forall j :: i <= j < |rest| ==> rest[j] == categories[j + 1];
    if NeedsMonthlyReset(categories, month) {
      var j :| 0 <= j < |categories| && categories[j].lastReset.Some? && categories[j].lastReset != Some(month);
      var k := if j < i then j else j - 1;
      assert rest[k] == categories[j];
    }
    if NeedsMonthlyReset(rest, month) {
      var k :| 0 <= k < |rest| && rest[k].lastReset.Some? && rest[k].lastReset != Some(month);
      var j := if k < i then k else k + 1;
      assert categories[j] == rest[k];
    }
  }

  /** With every marker non-null, no banner means the reset is a no-op. */
  lemma UnflaggedResetIsNoOp(categories: seq<Category>, income: real, month: Month)
    requires forall i :: 0 <= i < |categories| ==> categories[i].lastReset.Some?
    requires !NeedsMonthlyReset(categories, month)
    ensures ResetAll(categories, income, month) == categories
  {
    var r := ResetAll(categories, income, month);
    forall i | 0 <= i < |categories|
      ensures r[i] == categories[i]
    {
      assert !(categories[i].lastReset.Some? && categories[i].lastReset != Some(month));
    }
  }

  // --------------------------------------------------- aggregates

  /** `banks.reduce((sum, bank) => sum + bank.balance, 0)`; never negative while no balance is. */
  function TotalBalance(banks: seq<Bank>): (r: real)
    ensures (forall i :: 0 <= i < |banks| ==> banks[i].balance >= 0.0) ==> r >= 0.0
  {
    if |banks| == 0 then 0.0 else banks[0].balance + TotalBalance(banks[1..])
  }

  /** An update whose id matches no bank writes nothing. */
  lemma {:induction false} SetBalanceAbsentId(banks: seq<Bank>, id: Id, v: real)
    requires id !in BankIds(banks)
    ensures SetBalance(banks, id, v) == banks
  {
    forall i | 0 <= i < |banks|
      ensures banks[i].id != id
    {
      assert BankIds(banks)[i] == banks[i].id;
    }
  }

  /** Overwriting one balance changes the total by exactly the difference. */
  lemma {:induction false} TotalBalanceAfterSet(banks: seq<Bank>, i: nat, v: real)
    requires Distinct(BankIds(banks)) && i < |banks|
    ensures TotalBalance(SetBalance(banks, banks[i].id, v)) == TotalBalance(banks) + (v - banks[i].balance)
  {
    var id := banks[i].id;
    var r := SetBalance(banks, id, v);
    assert r[1..] == SetBalance(banks[1..], id, v);
    assert BankIds(banks[1..]) == BankIds(banks)[1..];
    if i == 0 {
      assert id !in BankIds(banks[1..]) by {
        forall j | 0 <= j < |banks[1..]|
          ensures BankIds(banks[1..])[j] != id
        {
          assert BankIds(banks)[j + 1] != BankIds(banks)[0];
        }
      }
      SetBalanceAbsentId(banks[1..], id, v);
    } else {
      assert BankIds(banks)[0] != BankIds(banks)[i];
      TotalBalanceAfterSet(banks[1..], i - 1, v);
    }
  }

  /** totalBalance moves by the signed amount of an added transaction whose bank exists. */
  lemma TotalBalanceAfterAdd(banks: seq<Bank>, t: Transaction)
    requires Distinct(BankIds(banks))
    ensures TotalBalance(CreditBank(banks, t)) ==
      TotalBalance(banks) + (if FindBank(banks, t.bankId).Some? then Signed(t) else 0.0)
  {
    match FindBank(banks, t.bankId)
    case None =>
    case Some(i) => TotalBalanceAfterSet(banks, i, BalanceOnAdd(banks[i].balance, t));
  }

  /** totalBalance moves back by the signed amount of a deleted transaction whose bank exists. */
  lemma TotalBalanceAfterDelete(banks: seq<Bank>, t: Transaction)
    requires Distinct(BankIds(banks))
    ensures TotalBalance(DebitBank(banks, t)) ==
      TotalBalance(banks) - (if FindBank(banks, t.bankId).Some? then Signed(t) else 0.0)
  {
    match FindBank(banks, t.bankId)
    case None =>
    case Some(i) => TotalBalanceAfterSet(banks, i, BalanceOnDelete(banks[i].balance, t));
  }

  /** Every amount is at least 0, as the add form enters them. */
  predicate AmountsNonNegative(transactions: seq<Transaction>) {
    forall t :: t in transactions ==> t.amount >= 0.0
  }

  /** The sum of the amounts of the transactions of one type. */
  function SumAmounts(transactions: seq<Transaction>, kind: TxType): (r: real)
    ensures AmountsNonNegative(transactions) ==> r >= 0.0
  {
    if |transactions| == 0 then 0.0
    else (if transactions[0].kind == kind then transactions[0].amount else 0.0) + SumAmounts(transactions[1..], kind)
  }

  lemma {:induction false} SumAmountsAppend(transactions: seq<Transaction>, t: Transaction, kind: TxType)
    ensures SumAmounts(transactions + [t], kind) ==
      SumAmounts(transactions, kind) + (if t.kind == kind then t.amount else 0.0)
  {
    if |transactions| == 0 {
      assert transactions + [t] == [t];
    } else {
      assert (transactions + [t])[1..] == transactions[1..] + [t];
      SumAmountsAppend(transactions[1..], t, kind);
    }
  }

  /**
   * Dropping rows never raises the sum of non-negative amounts: the sum over
   * a subsequence is at most the sum over the whole list.
   */
  lemma {:induction false} SumAmountsSubsequence(r: seq<Transaction>, s: seq<Transaction>, kind: TxType)
    requires SubsequenceOf(r, s)
    ensures AmountsNonNegative(s) ==> SumAmounts(r, kind) <= SumAmounts(s, kind)
    decreases |s|
  {
    if |r| > 0 && AmountsNonNegative(s) {
      assert AmountsNonNegative(s[1..]) by {
        forall t | t in s[1..] ensures t in s {
          assert s == [s[0]] + s[1..];
        }
      }
      assert s[0] in s;
      if r[0] == s[0] && SubsequenceOf(r[1..], s[1..]) {
        SumAmountsSubsequence(r[1..], s[1..], kind);
      } else {
        SumAmountsSubsequence(r, s[1..], kind);
      }
    }
  }

  /** The transactions dated in `month`. */
  function InMonth(transactions: seq<Transaction>, month: Month): (r: seq<Transaction>)
    ensures forall t :: t in r <==> t in transactions && t.month == month
    ensures SubsequenceOf(r, transactions)
    ensures forall t :: multiset(r)[t] == if t.month == month then multiset(transactions)[t] else 0
  {
    var p := (t: Transaction) => t.month == month;
    FilterCount(transactions, p);
    Filter(transactions, p)
  }

  lemma InMonthAppend(transactions: seq<Transaction>, t: Transaction, month: Month)
    ensures InMonth(transactions + [t], month) == InMonth(transactions, month) + (if t.month == month then [t] else [])
  {
    FilterAppend(transactions, t, (t: Transaction) => t.month == month);
  }

  /** This month's income: between 0 and the income of all months. */
  function MonthlyIncome(transactions: seq<Transaction>, month: Month): (r: real)
    ensures AmountsNonNegative(transactions) ==> 0.0 <= r <= SumAmounts(transactions, Income)
  {
    var m := InMonth(transactions, month);
    SumAmountsSubsequence(m, transactions, Income);
    SumAmounts(m, Income)
  }

  /** This month's expenses: between 0 and the expenses of all months. */
  function MonthlyExpenses(transactions: seq<Transaction>, month: Month): (r: real)
    ensures AmountsNonNegative(transactions) ==> 0.0 <= r <= SumAmounts(transactions, Expense)
  {
    var m := InMonth(transactions, month);
    SumAmountsSubsequence(m, transactions, Expense);
    SumAmounts(m, Expense)
  }

  /**
   * `(profile?.monthly_income || 0) - monthlyExpenses`: never above the
   * income, and never below it by more than all expenses ever recorded.
   */
  function RemainingBudget(income: Option<real>, transactions: seq<Transaction>, month: Month): (r: real)
    ensures AmountsNonNegative(transactions) ==>
      OrZero(income) - SumAmounts(transactions, Expense) <= r <= OrZero(income)
  {
    OrZero(income) - MonthlyExpenses(transactions, month)
  }

  /**
   * Recording a transaction moves this month's income or expense total by its
   * amount when it is dated this month, and the remaining budget with it.
   */
  lemma MonthlyTotalsAfterInsert(transactions: seq<Transaction>, t: Transaction, month: Month, income: Option<real>)
    ensures MonthlyIncome(transactions + [t], month) ==
      MonthlyIncome(transactions, month) + (if t.month == month && t.kind == Income then t.amount else 0.0)
    ensures MonthlyExpenses(transactions + [t], month) ==
      MonthlyExpenses(transactions, month) + (if t.month == month && t.kind == Expense then t.amount else 0.0)
    ensures RemainingBudget(income, transactions + [t], month) ==
      RemainingBudget(income, transactions, month) - (if t.month == month && t.kind == Expense then t.amount else 0.0)
  {
    InMonthAppend(transactions, t, month);
    if t.month == month {
      SumAmountsAppend(InMonth(transactions, month), t, Income);
      SumAmountsAppend(InMonth(transactions, month), t, Expense);
    } else {
      assert InMonth(transactions, month) + [] == InMonth(transactions, month);
    }
  }
}
