/**
 * The Budgets page (src/pages/Budgets.tsx): the per-category budget card,
 * the allocation total, and the two save handlers that write income,
 * percentages and monthly limits.
 */
module Budgets {
  import opened Types
  import opened Seqs
  import opened LedgerRules
  import opened BudgetData

  // ------------------------------------------------------- usage thresholds

  /** `limit > 0 ? (spent / limit) * 100 : 0`. */
  function PercentUsed(spent: real, limit: real): (r: real)
    ensures limit > 0.0 ==> r * limit == spent * 100.0
    ensures limit <= 0.0 ==> r == 0.0
  {
    if limit > 0.0 then (spent / limit) * 100.0 else 0.0
  }

  /** With a positive limit, the percentage reaches `t` exactly when spending reaches `t`% of the limit. */
  lemma PercentThreshold(spent: real, limit: real, t: real)
    requires limit > 0.0
    ensures PercentUsed(spent, limit) >= t <==> spent * 100.0 >= t * limit
  {
    var p := PercentUsed(spent, limit);
    assert (p - t) * limit == spent * 100.0 - t * limit;
    if p >= t {
      assert (p - t) * limit >= 0.0;
    } else {
      assert (t - p) * limit > 0.0;
    }
  }

  /** How a usage bar is coloured: red from 100%, amber from 80%, the category colour below. */
  datatype Status = Normal | Warning | Exceeded

  function StatusOf(percent: real): (s: Status)
    ensures s == Exceeded <==> percent >= 100.0
    ensures s == Warning <==> 80.0 <= percent < 100.0
    ensures s == Normal <==> percent < 80.0
  {
    if percent >= 100.0 then Exceeded else if percent >= 80.0 then Warning else Normal
  }

  /** `Math.min(percent, 100)`: the bar never overflows its track. */
  function BarWidth(percent: real): (w: real)
    ensures w <= 100.0
    ensures percent <= 100.0 ==> w == percent
    ensures percent >= 100.0 ==> w == 100.0
  {
    Min(percent, 100.0)
  }

  /**
   * The colour in terms of money: with a positive limit, red exactly when
   * spending reaches the limit and amber exactly when it reaches four fifths
   * of it without reaching the limit; with no positive limit, never flagged.
   */
  lemma StatusMeaning(spent: real, limit: real)
    ensures limit > 0.0 ==> (StatusOf(PercentUsed(spent, limit)) == Exceeded <==> spent >= limit)
    ensures limit > 0.0 ==>
      (StatusOf(PercentUsed(spent, limit)) == Warning <==> 5.0 * spent >= 4.0 * limit && spent < limit)
    ensures limit <= 0.0 ==> StatusOf(PercentUsed(spent, limit)) == Normal
  {
    if limit > 0.0 {
      PercentThreshold(spent, limit, 100.0);
      PercentThreshold(spent, limit, 80.0);
    }
  }

  // ------------------------------------------------------------ the card

  /** What one category card shows. */
  datatype CategoryCard = CategoryCard(
    baseLimit: real,
    rollover: real,
    showsRollover: bool,
    limit: real,
    spent: real,
    remaining: real,
    percentUsed: real,
    status: Status,
    width: real)

  function Card(income: real, c: Category): (card: CategoryCard)
    ensures card.limit == card.baseLimit + card.rollover && card.limit == AvailableBudget(income, c)
    ensures card.showsRollover <==> OrZero(c.rollover) > 0.0
    ensures card.baseLimit == BaseLimit(income, c.percentage) && card.rollover == OrZero(c.rollover)
    ensures card.spent == OrZero(c.spent) && card.remaining == card.limit - card.spent
    ensures card.remaining < 0.0 <==> OrZero(c.spent) > card.limit
    ensures card.percentUsed == PercentUsed(card.spent, card.limit)
    ensures card.status == StatusOf(card.percentUsed) && card.width == BarWidth(card.percentUsed)
    ensures card.limit > 0.0 ==> (card.status == Exceeded <==> OrZero(c.spent) >= card.limit)
    ensures card.limit > 0.0 ==>
      (card.status == Warning <==> 5.0 * OrZero(c.spent) >= 4.0 * card.limit && OrZero(c.spent) < card.limit)
    ensures card.limit <= 0.0 ==> card.status == Normal
    ensures card.width <= 100.0
  {
    var baseLimit := BaseLimit(income, c.percentage);
    var rollover := OrZero(c.rollover);
    var limit := baseLimit + rollover;
    var spent := OrZero(c.spent);
    var percentUsed := PercentUsed(spent, limit);
    StatusMeaning(spent, limit);
    CategoryCard(baseLimit, rollover, rollover > 0.0, limit, spent, limit - spent,
                 percentUsed, StatusOf(percentUsed), BarWidth(percentUsed))
  }

  /**
   * Spending exactly the whole budget already draws the bar red, while the
   * remaining amount is 0 and not drawn as negative.
   */
  lemma ExactLimitReadsExceeded(income: real, c: Category)
    requires AvailableBudget(income, c) > 0.0 && OrZero(c.spent) == AvailableBudget(income, c)
    ensures Card(income, c).status == Exceeded
    ensures Card(income, c).remaining == 0.0
  {
  }

  /**
   * A category with no positive budget is never flagged, however much was
   * spent, while its remaining amount is drawn negative.
   */
  lemma ZeroBudgetOverspendNotFlagged(income: real, c: Category)
    requires AvailableBudget(income, c) <= 0.0 && OrZero(c.spent) > AvailableBudget(income, c)
    ensures Card(income, c).status == Normal && Card(income, c).percentUsed == 0.0
    ensures Card(income, c).remaining < 0.0
  {
  }

  // -------------------------------------------------- allocation total

  /** `categories.reduce((sum, c) => sum + Number(c.percentage), 0)`; a null percentage counts as 0. */
  function TotalPercentage(categories: seq<Category>): (r: real)
    ensures (forall i :: 0 <= i < |categories| ==> OrZero(categories[i].percentage) >= 0.0) ==> r >= 0.0
    ensures (forall i :: 0 <= i < |categories| ==> OrZero(categories[i].percentage) == 0.0) ==> r == 0.0
  {
    if |categories| == 0 then 0.0 else OrZero(categories[0].percentage) + TotalPercentage(categories[1..])
  }

  /**
   * The total is drawn as a warning whenever it is not exactly 100, so also
   * when there is no category at all or none has a percentage yet.
   */
  function AllocationFlagged(categories: seq<Category>): (b: bool)
    ensures |categories| == 0 ==> b
    ensures (forall i :: 0 <= i < |categories| ==> OrZero(categories[i].percentage) == 0.0) ==> b
  {
    TotalPercentage(categories) != 100.0
  }

  /** Replacing one category changes the total by the change of its percentage. */
  lemma {:induction false} TotalPercentageReplace(categories: seq<Category>, i: nat, c: Category)
    requires i < |categories|
    ensures TotalPercentage(categories[i := c]) ==
      TotalPercentage(categories) - OrZero(categories[i].percentage) + OrZero(c.percentage)
  {
    if i > 0 {
      assert categories[i := c][1..] == categories[1..][i - 1 := c];
      TotalPercentageReplace(categories[1..], i - 1, c);
    }
  }

  // ---------------------------------------------------- saving income

  /** The limit column `handleSaveIncome` writes for a category. */
  function LimitPatch(income: real, c: Category): CategoryPatch {
    CategoryPatch(None, Some(BaseLimit(income, c.percentage)), None, None, None)
  }

  /** A category whose stored limit is its share of `income`. */
  predicate LimitConsistent(c: Category, income: real) {
    c.monthlyLimit == Some(BaseLimit(income, c.percentage))
  }

  /** The categories after the income loop has written the first `k` limits. */
  function WithLimits(categories: seq<Category>, income: real, k: nat): (r: seq<Category>)
    ensures |r| == |categories| && CategoryIds(r) == CategoryIds(categories)
  {
    seq(|categories|, i requires 0 <= i < |categories| =>
      if i < k then Patch(categories[i], LimitPatch(income, categories[i])) else categories[i])
  }

  /** Where the income loop stops: the first category whose write is rejected, else the end. */
  function LimitStop(categories: seq<Category>, fails: set<Write>): (r: nat)
    ensures r <= |categories|
    ensures forall i :: 0 <= i < r ==> CategoryUpdate(categories[i].id) !in fails
    ensures r < |categories| ==> CategoryUpdate(categories[r].id) in fails
  {
    if |categories| == 0 then 0
    else if CategoryUpdate(categories[0].id) in fails then 0
    else 1 + LimitStop(categories[1..], fails)
  }

  /**
   * After a complete save every limit is its category's share of the new
   * income, and no other column has changed.
   */
  lemma SavedIncomeLimitsConsistent(categories: seq<Category>, income: real)
    ensures var r := WithLimits(categories, income, |categories|);
      forall i :: 0 <= i < |r| ==>
        LimitConsistent(r[i], income) && r[i].percentage == categories[i].percentage &&
        r[i].spent == categories[i].spent && r[i].rollover == categories[i].rollover &&
        r[i].lastReset == categories[i].lastReset
  {
  }

  /**
   * `handleSaveIncome`: store `parseFloat(text) || 0` as the monthly income,
   * then write each category's limit in order. A rejected write ends the
   * handler; limits written before it stay.
   */
  method HandleSaveIncome(ledger: Ledger, parsed: Option<real>, fails: set<Write>) returns (r: Outcome)
    requires ledger.Valid()
    modifies ledger
    ensures ledger.Valid()
    ensures ledger.banks == old(ledger.banks) && ledger.purposes == old(ledger.purposes)
    ensures ledger.transactions == old(ledger.transactions) && ledger.adjustments == old(ledger.adjustments)
    ensures ProfileUpdate in fails ==>
      r == Failure(ProfileUpdate) && ledger.monthlyIncome == old(ledger.monthlyIncome) &&
      ledger.categories == old(ledger.categories)
    ensures ProfileUpdate !in fails ==>
      var stop := LimitStop(old(ledger.categories), fails);
      ledger.monthlyIncome == Some(OrZero(parsed)) &&
      ledger.categories == WithLimits(old(ledger.categories), OrZero(parsed), stop) &&
      r == if stop == |old(ledger.categories)| then Success else Failure(CategoryUpdate(old(ledger.categories)[stop].id))
    ensures r == Success ==>
      forall i :: 0 <= i < |ledger.categories| ==> LimitConsistent(ledger.categories[i], OrZero(ledger.monthlyIncome))
  {
    if ProfileUpdate in fails {
      return Failure(ProfileUpdate);
    }
    var income := OrZero(parsed);
    ledger.monthlyIncome := Some(income);
    var snapshot := ledger.categories;
    ghost var stop := LimitStop(snapshot, fails);
    var i := 0;
    while i < |snapshot|
      invariant 0 <= i <= stop
      invariant ledger.categories == WithLimits(snapshot, income, i)
      invariant ledger.Valid()
      invariant ledger.monthlyIncome == Some(income)
      invariant ledger.banks == old(ledger.banks) && ledger.purposes == old(ledger.purposes)
      invariant ledger.transactions == old(ledger.transactions) && ledger.adjustments == old(ledger.adjustments)
    {
      var c := snapshot[i];
      if CategoryUpdate(c.id) in fails {
        return Failure(CategoryUpdate(c.id));
      }
      UpdateCategoriesAt(ledger.categories, i, LimitPatch(income, c));
      ledger.categories := UpdateCategories(ledger.categories, c.id, LimitPatch(income, c));
      i := i + 1;
    }
    SavedIncomeLimitsConsistent(snapshot, income);
    r := Success;
  }

  // ------------------------------------------------ saving a percentage

  /**
   * The columns `handleSavePercentage` writes. `entry` is the edited text
   * parsed, `None` when the field was never edited or is empty: both are
   * read as "0".
   */
  function PercentagePatch(entry: Option<real>, income: Option<real>): CategoryPatch {
    CategoryPatch(Some(OrZero(entry)), Some(BaseLimit(OrZero(income), Some(OrZero(entry)))), None, None, None)
  }

  /**
   * A saved category holds the entered percentage and its share of the
   * current income; the total allocation moves by the change of percentage,
   * and no other category changes.
   */
  lemma PercentageSaved(categories: seq<Category>, i: nat, entry: Option<real>, income: Option<real>)
    requires Distinct(CategoryIds(categories)) && i < |categories|
    ensures var r := UpdateCategories(categories, categories[i].id, PercentagePatch(entry, income));
      r[i].percentage == Some(OrZero(entry)) && LimitConsistent(r[i], OrZero(income)) &&
      r[i].spent == categories[i].spent && r[i].rollover == categories[i].rollover &&
      (forall j :: 0 <= j < |r| && j != i ==> r[j] == categories[j]) &&
      TotalPercentage(r) == TotalPercentage(categories) - OrZero(categories[i].percentage) + OrZero(entry)
  {
    var p := PercentagePatch(entry, income);
    UpdateCategoriesAt(categories, i, p);
    TotalPercentageReplace(categories, i, Patch(categories[i], p));
  }

  /** Saving without editing the field writes a 0% share and a 0 limit, whatever was stored. */
  lemma UneditedSaveWritesZero(categories: seq<Category>, i: nat, income: Option<real>)
    requires Distinct(CategoryIds(categories)) && i < |categories|
    ensures var r := UpdateCategories(categories, categories[i].id, PercentagePatch(None, income));
      r[i].percentage == Some(0.0) && r[i].monthlyLimit == Some(0.0)
  {
    UpdateCategoriesAt(categories, i, PercentagePatch(None, income));
  }

  /** `handleSavePercentage`: one category write of percentage and limit. */
  method HandleSavePercentage(ledger: Ledger, categoryId: Id, entry: Option<real>, fails: set<Write>) returns (r: Outcome)
    requires ledger.Valid()
    modifies ledger
    ensures ledger.Valid()
    ensures ledger.banks == old(ledger.banks) && ledger.purposes == old(ledger.purposes)
    ensures ledger.transactions == old(ledger.transactions) && ledger.adjustments == old(ledger.adjustments)
    ensures ledger.monthlyIncome == old(ledger.monthlyIncome)
    ensures CategoryUpdate(categoryId) in fails ==>
      r == Failure(CategoryUpdate(categoryId)) && ledger.categories == old(ledger.categories)
    ensures CategoryUpdate(categoryId) !in fails ==>
      r == Success &&
      ledger.categories == UpdateCategories(old(ledger.categories), categoryId, PercentagePatch(entry, old(ledger.monthlyIncome)))
  {
    if CategoryUpdate(categoryId) in fails {
      return Failure(CategoryUpdate(categoryId));
    }
    ledger.categories := UpdateCategories(ledger.categories, categoryId, PercentagePatch(entry, ledger.monthlyIncome));
    r := Success;
  }
}
