/**
 * The ledger state of src/hooks/useBudgetData.ts and its three multi-step
 * mutations. The fields are the rows the hook holds (banks, categories,
 * purposes, transactions, the profile's monthly income) plus the adjustment
 * log of src/hooks/useBankAdjustments.ts. Each store write is an update of a
 * field; a write whose target is in `fails` is rejected by the store.
 */
module BudgetData {
  import opened Types
  import opened Seqs
  import opened LedgerRules

  class Ledger {
    var banks: seq<Bank>
    var categories: seq<Category>
    var purposes: seq<Purpose>
    var transactions: seq<Transaction>
    var monthlyIncome: Option<real>
    var adjustments: seq<BankAdjustment>

    /** Bank, category and purpose ids are primary keys. */
    ghost predicate Valid()
      reads this
    {
      Distinct(BankIds(banks)) && Distinct(CategoryIds(categories)) && Distinct(PurposeIds(purposes))
    }

    constructor (banks: seq<Bank>, categories: seq<Category>, purposes: seq<Purpose>, monthlyIncome: Option<real>)
      requires Distinct(BankIds(banks)) && Distinct(CategoryIds(categories)) && Distinct(PurposeIds(purposes))
      ensures Valid()
      ensures this.banks == banks && this.categories == categories && this.purposes == purposes
      ensures this.monthlyIncome == monthlyIncome && transactions == [] && adjustments == []
    {
      this.banks := banks;
      this.categories := categories;
      this.purposes := purposes;
      this.monthlyIncome := monthlyIncome;
      transactions := [];
      adjustments := [];
    }

    /**
     * `addTransaction`: insert the row, then move the bank balance, then, for
     * an expense with a resolvable purpose, raise the category's `spent`.
     * Each write that the store rejects ends the mutation; earlier writes stay.
     */
    method AddTransaction(t: Transaction, fails: set<Write>) returns (r: Outcome)
      requires Valid()
      modifies this
      ensures Valid()
      ensures purposes == old(purposes) && monthlyIncome == old(monthlyIncome) && adjustments == old(adjustments)
      ensures !InsertAccepted(old(transactions), t, fails) ==>
        r == Failure(TransactionInsert) && transactions == old(transactions) &&
        banks == old(banks) && categories == old(categories)
      ensures InsertAccepted(old(transactions), t, fails) ==> transactions == old(transactions) + [t]
      ensures InsertAccepted(old(transactions), t, fails) && BankWriteRejected(old(banks), t, fails) ==>
        r == Failure(BankUpdate(t.bankId)) && banks == old(banks) && categories == old(categories)
      ensures InsertAccepted(old(transactions), t, fails) && !BankWriteRejected(old(banks), t, fails) ==>
        banks == CreditBank(old(banks), t)
      ensures (InsertAccepted(old(transactions), t, fails) && !BankWriteRejected(old(banks), t, fails) &&
               SpentWriteRejected(old(categories), purposes, t, fails)) ==>
        r == Failure(CategoryUpdate(ChargedId(old(categories), purposes, t))) && categories == old(categories)
      ensures (InsertAccepted(old(transactions), t, fails) && !BankWriteRejected(old(banks), t, fails) &&
               !SpentWriteRejected(old(categories), purposes, t, fails)) ==>
        r == Success && categories == ChargeSpent(old(categories), purposes, t)
    {
      if TransactionInsert in fails || t.id in TransactionIds(transactions) {
        return Failure(TransactionInsert);
      }
      transactions := transactions + [t];
      var ok := CreditBalance(t, fails);
      if !ok {
        return Failure(BankUpdate(t.bankId));
      }
      ok := ChargeCategory(t, fails);
      if !ok {
        return Failure(CategoryUpdate(ChargedId(categories, purposes, t)));
      }
      r := Success;
    }

    /** addTransaction's balance step: move the bank found in the snapshot, unless the write is rejected. */
    method CreditBalance(t: Transaction, fails: set<Write>) returns (ok: bool)
      requires Valid()
      modifies this
      ensures Valid()
      ensures ok <==> !BankWriteRejected(old(banks), t, fails)
      ensures banks == if ok then CreditBank(old(banks), t) else old(banks)
      ensures categories == old(categories) && purposes == old(purposes) && transactions == old(transactions)
      ensures monthlyIncome == old(monthlyIncome) && adjustments == old(adjustments)
    {
      var bank := FindBank(banks, t.bankId);
      if bank.Some? {
        var newBalance := BalanceOnAdd(banks[bank.value].balance, t);
        if BankUpdate(t.bankId) in fails {
          return false;
        }
        banks := SetBalance(banks, t.bankId, newBalance);
      }
      ok := true;
    }

    /**
     * addTransaction's category step: for an expense with a truthy purpose id
     * whose purpose and category are in the snapshot, raise `spent` by the
     * amount, unless the write is rejected.
     */
    method ChargeCategory(t: Transaction, fails: set<Write>) returns (ok: bool)
      requires Valid()
      modifies this
      ensures Valid()
      ensures ok <==> !SpentWriteRejected(old(categories), purposes, t, fails)
      ensures categories == if ok then ChargeSpent(old(categories), purposes, t) else old(categories)
      ensures banks == old(banks) && purposes == old(purposes) && transactions == old(transactions)
      ensures monthlyIncome == old(monthlyIncome) && adjustments == old(adjustments)
    {
      if t.kind == Expense && Truthy(t.purposeId) {
        var purpose := FindPurpose(purposes, t.purposeId.value);
        if purpose.Some? {
          var category := FindCategory(categories, purposes[purpose.value].categoryId);
          if category.Some? {
            var c := categories[category.value];
            if CategoryUpdate(c.id) in fails {
              return false;
            }
            categories := UpdateCategories(categories, c.id, SpentPatch(OrZero(c.spent) + t.amount));
          }
        }
      }
      ok := true;
    }

    /**
     * `deleteTransaction`: reverse the balance movement, lower the category's
     * `spent` clamped at 0, then delete the row. The store's answers to the
     * two reversal writes are not checked: a rejected reversal is skipped and
     * the mutation goes on. Only a rejected delete fails the mutation.
     */
    method DeleteTransaction(t: Transaction, fails: set<Write>) returns (r: Outcome)
      requires Valid()
      modifies this
      ensures Valid()
      ensures purposes == old(purposes) && monthlyIncome == old(monthlyIncome) && adjustments == old(adjustments)
      ensures banks == if BankUpdate(t.bankId) in fails then old(banks) else DebitBank(old(banks), t)
      ensures categories ==
        if SpentWriteRejected(old(categories), purposes, t, fails) then old(categories)
        else RefundSpent(old(categories), purposes, t)
      ensures r == Success <==> TransactionDelete(t.id) !in fails
      ensures r == Failure(TransactionDelete(t.id)) <==> TransactionDelete(t.id) in fails
      ensures transactions ==
        if TransactionDelete(t.id) in fails then old(transactions) else RemoveTransaction(old(transactions), t.id)
    {
      ReverseBalance(t, fails);
      RefundCategory(t, fails);
      if TransactionDelete(t.id) in fails {
        return Failure(TransactionDelete(t.id));
      }
      transactions := RemoveTransaction(transactions, t.id);
      r := Success;
    }

    /** deleteTransaction's balance step; the store's answer is not checked, so a rejected write is skipped. */
    method ReverseBalance(t: Transaction, fails: set<Write>)
      requires Valid()
      modifies this
      ensures Valid()
      ensures banks == if BankUpdate(t.bankId) in fails then old(banks) else DebitBank(old(banks), t)
      ensures categories == old(categories) && purposes == old(purposes) && transactions == old(transactions)
      ensures monthlyIncome == old(monthlyIncome) && adjustments == old(adjustments)
    {
      var bank := FindBank(banks, t.bankId);
      if bank.Some? {
        var newBalance := BalanceOnDelete(banks[bank.value].balance, t);
        if BankUpdate(t.bankId) !in fails {
          banks := SetBalance(banks, t.bankId, newBalance);
        }
      }
    }

    /** deleteTransaction's category step: lower `spent`, clamped at 0; a rejected write is skipped. */
    method RefundCategory(t: Transaction, fails: set<Write>)
      requires Valid()
      modifies this
      ensures Valid()
      ensures categories ==
        if SpentWriteRejected(old(categories), purposes, t, fails) then old(categories)
        else RefundSpent(old(categories), purposes, t)
      ensures banks == old(banks) && purposes == old(purposes) && transactions == old(transactions)
      ensures monthlyIncome == old(monthlyIncome) && adjustments == old(adjustments)
    {
      if t.kind == Expense && Truthy(t.purposeId) {
        var purpose := FindPurpose(purposes, t.purposeId.value);
        if purpose.Some? {
          var category := FindCategory(categories, purposes[purpose.value].categoryId);
          if category.Some? {
            var c := categories[category.value];
            if CategoryUpdate(c.id) !in fails {
              categories := UpdateCategories(categories, c.id, SpentPatch(Max(0.0, OrZero(c.spent) - t.amount)));
            }
          }
        }
      }
    }

    /**
     * `resetMonthlyBudgets`: for each category in order, skip it when its
     * marker is already the current month; otherwise set `spent` to 0, carry
     * the unspent budget (never negative) into `rollover_balance`, and stamp
     * the marker. A rejected write ends the loop; the categories before it
     * stay reset.
     */
    method ResetMonthlyBudgets(month: Month, fails: set<Write>) returns (r: Outcome)
      requires Valid()
      modifies this
      ensures Valid()
      ensures banks == old(banks) && purposes == old(purposes) && transactions == old(transactions)
      ensures monthlyIncome == old(monthlyIncome) && adjustments == old(adjustments)
      ensures var stop := ResetStop(old(categories), month, fails);
        categories == PartialReset(old(categories), OrZero(monthlyIncome), month, stop) &&
        r == if stop == |old(categories)| then Success else Failure(CategoryUpdate(old(categories)[stop].id))
      ensures r == Success ==> categories == ResetAll(old(categories), OrZero(monthlyIncome), month)
    {
      var snapshot := categories;
      var income := OrZero(monthlyIncome);
      ghost var stop := ResetStop(snapshot, month, fails);
      var i := 0;
      while i < |snapshot|
        invariant 0 <= i <= stop
        invariant categories == PartialReset(snapshot, income, month, i)
        invariant Valid()
        invariant banks == old(banks) && purposes == old(purposes) && transactions == old(transactions)
        invariant monthlyIncome == old(monthlyIncome) && adjustments == old(adjustments)
      {
        var c := snapshot[i];
        if c.lastReset != Some(month) {
          if CategoryUpdate(c.id) in fails {
            return Failure(CategoryUpdate(c.id));
          }
          UpdateCategoriesAt(categories, i, RolloverPatch(income, c, month));
          categories := UpdateCategories(categories, c.id, RolloverPatch(income, c, month));
        }
        i := i + 1;
      }
      r := Success;
    }
  }
}
