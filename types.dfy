/**
 * The records of the budget tracker's store, reduced to the fields the ledger
 * logic reads or writes (banks, budget_categories, purposes, transactions,
 * bank_adjustments and the profile's monthly income).
 */
module Types {

  datatype Option<+T> = None | Some(value: T)

  /** A row identifier (a UUID string in the store). */
  type Id = string

  /** A calendar month as one comparable number: year * 12 + month index. */
  type Month = int

  /**
   * `x || 0` on a nullable number. JavaScript arithmetic also treats `null`
   * as 0, so this is how every nullable amount enters a computation.
   */
  function OrZero(x: Option<real>): real {
    match x
    case Some(v) => v
    case None => 0.0
  }

  function Max(a: real, b: real): real {
    if a >= b then a else b
  }

  function Min(a: real, b: real): real {
    if a <= b then a else b
  }

  datatype TxType = Income | Expense

  datatype Bank = Bank(id: Id, balance: real)

  /** A budget category; every numeric column but the id is nullable in the store. */
  datatype Category = Category(
    id: Id,
    percentage: Option<real>,
    monthlyLimit: Option<real>,
    spent: Option<real>,
    rollover: Option<real>,
    lastReset: Option<Month>)

  datatype Purpose = Purpose(id: Id, name: string, categoryId: Id)

  /** A transaction row; `month` is the month key of its transaction date. */
  datatype Transaction = Transaction(
    id: Id,
    bankId: Id,
    purposeId: Option<Id>,
    kind: TxType,
    amount: real,
    month: Month)

  /** One row of the append-only balance adjustment log. */
  datatype BankAdjustment = BankAdjustment(
    bankId: Id,
    previousBalance: real,
    newBalance: real,
    amount: real,
    reason: Option<string>)

  /** The store writes the ledger performs; a write whose target is in a `fails` set is rejected. */
  datatype Write =
    | TransactionInsert
    | TransactionDelete(txId: Id)
    | BankUpdate(bankId: Id)
    | CategoryUpdate(categoryId: Id)
    | AdjustmentInsert
    | ProfileUpdate
    | PurposeInsert

  /** How a mutation ended: completed, or stopped by the first rejected write. */
  datatype Outcome = Success | Failure(at: Write)
}
