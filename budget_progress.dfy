/**
 * The dashboard's budget usage panel (src/components/dashboard/BudgetProgress.tsx):
 * one row per category, with warning and exceeded markers, and a message
 * when there is no category.
 */
module BudgetProgress {
  import opened Types
  import opened LedgerRules
  import opened Budgets

  /** One row of the panel. */
  datatype ProgressRow = ProgressRow(
    totalLimit: real,
    percentage: real,
    isWarning: bool,
    isExceeded: bool,
    width: real)

  function Row(monthlyIncome: real, c: Category): (row: ProgressRow)
    ensures row.totalLimit == AvailableBudget(monthlyIncome, c)
    ensures !(row.isWarning && row.isExceeded)
    ensures row.isExceeded <==> row.totalLimit > 0.0 && OrZero(c.spent) >= row.totalLimit
    ensures row.isWarning <==>
      row.totalLimit > 0.0 && 5.0 * OrZero(c.spent) >= 4.0 * row.totalLimit && OrZero(c.spent) < row.totalLimit
    ensures row.percentage == PercentUsed(OrZero(c.spent), row.totalLimit)
    ensures row.width == BarWidth(row.percentage) && row.width <= 100.0
  {
    var totalLimit := BaseLimit(monthlyIncome, c.percentage) + OrZero(c.rollover);
    var percentage := PercentUsed(OrZero(c.spent), totalLimit);
    StatusMeaning(OrZero(c.spent), totalLimit);
    ProgressRow(totalLimit, percentage, 80.0 <= percentage < 100.0, percentage >= 100.0, BarWidth(percentage))
  }

  /** The panel: the rows in category order, and the "no categories" message. */
  datatype Panel = Panel(rows: seq<ProgressRow>, showsEmptyMessage: bool)

  function UsagePanel(monthlyIncome: real, categories: seq<Category>): (p: Panel)
    ensures |p.rows| == |categories|
    ensures forall i :: 0 <= i < |categories| ==> p.rows[i] == Row(monthlyIncome, categories[i])
    ensures p.showsEmptyMessage <==> |categories| == 0
  {
    Panel(seq(|categories|, i requires 0 <= i < |categories| => Row(monthlyIncome, categories[i])),
          |categories| == 0)
  }

  /** The dashboard row and the Budgets card agree on the limit, the bar width and the colour. */
  lemma RowAgreesWithCard(monthlyIncome: real, c: Category)
    ensures Row(monthlyIncome, c).totalLimit == Card(monthlyIncome, c).limit
    ensures Row(monthlyIncome, c).width == Card(monthlyIncome, c).width
    ensures Row(monthlyIncome, c).isExceeded <==> Card(monthlyIncome, c).status == Exceeded
    ensures Row(monthlyIncome, c).isWarning <==> Card(monthlyIncome, c).status == Warning
  {
  }
}
