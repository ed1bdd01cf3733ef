/**
 * The balance adjustment mutation of src/hooks/useBankAdjustments.ts: log the
 * change, then overwrite the bank's balance. The log is append-only and is
 * read back newest first.
 */
module BankAdjustments {
  import opened Types
  import opened Seqs
  import opened LedgerRules
  import opened BudgetData
  import opened AdjustBalanceDialog

  /** `reason || null`: a missing or empty reason is stored as null. */
  function StoredReason(reason: Option<string>): (r: Option<string>)
    ensures r.None? <==> reason.None? || reason.value == ""
    ensures r.Some? ==> r == reason
  {
    if reason.Some? && reason.value != "" then reason else None
  }

  /** The row the mutation inserts; its amount is the signed change it records. */
  function LogRow(bankId: Id, previousBalance: real, newBalance: real, reason: Option<string>): (row: BankAdjustment)
    ensures row.bankId == bankId && row.reason == StoredReason(reason)
    ensures row.previousBalance + row.amount == row.newBalance
    ensures row.previousBalance == previousBalance && row.newBalance == newBalance
  {
    BankAdjustment(bankId, previousBalance, newBalance, newBalance - previousBalance, StoredReason(reason))
  }

  /** The log as the query returns it: ordered by creation time, newest first. */
  function NewestFirst(log: seq<BankAdjustment>): (r: seq<BankAdjustment>)
    ensures |r| == |log|
    ensures forall i :: 0 <= i < |log| ==> r[i] == log[|log| - 1 - i]
  {
    if |log| == 0 then [] else [log[|log| - 1]] + NewestFirst(log[..|log| - 1])
  }

  /**
   * `adjustBalance`: insert the log row, then write the new balance. A
   * rejected log insert stops before the balance write; a rejected balance
   * write leaves the logged row in place.
   */
  method AdjustBalance(ledger: Ledger, bankId: Id, previousBalance: real, newBalance: real,
                       reason: Option<string>, fails: set<Write>) returns (r: Outcome)
    requires ledger.Valid()
    modifies ledger
    ensures ledger.Valid()
    ensures ledger.categories == old(ledger.categories) && ledger.purposes == old(ledger.purposes)
    ensures ledger.transactions == old(ledger.transactions) && ledger.monthlyIncome == old(ledger.monthlyIncome)
    ensures AdjustmentInsert in fails ==>
      r == Failure(AdjustmentInsert) && ledger.adjustments == old(ledger.adjustments) && ledger.banks == old(ledger.banks)
    ensures AdjustmentInsert !in fails ==>
      ledger.adjustments == old(ledger.adjustments) + [LogRow(bankId, previousBalance, newBalance, reason)]
    ensures (AdjustmentInsert !in fails && BankUpdate(bankId) in fails) ==>
      r == Failure(BankUpdate(bankId)) && ledger.banks == old(ledger.banks)
    ensures (AdjustmentInsert !in fails && BankUpdate(bankId) !in fails) ==>
      r == Success && ledger.banks == SetBalance(old(ledger.banks), bankId, newBalance)
  {
    if AdjustmentInsert in fails {
      return Failure(AdjustmentInsert);
    }
    ledger.adjustments := ledger.adjustments + [LogRow(bankId, previousBalance, newBalance, reason)];
    if BankUpdate(bankId) in fails {
      return Failure(BankUpdate(bankId));
    }
    ledger.banks := SetBalance(ledger.banks, bankId, newBalance);
    r := Success;
  }

  /** After a logged adjustment, the newest entry of the log as read back is that adjustment. */
  lemma NewestEntryIsLatestAdjustment(log: seq<BankAdjustment>, row: BankAdjustment)
    ensures NewestFirst(log + [row])[0] == row
    ensures NewestFirst(log + [row])[1..] == NewestFirst(log)
  {
    var r := NewestFirst(log + [row]);
    assert forall i :: 0 <= i < |log| ==> r[1..][i] == (log + [row])[|log| - 1 - i];
  }

  /**
   * When the dialog passes the bank's current balance as the previous one,
   * the logged amount is the change of the bank's balance and of the total
   * balance across banks.
   */
  lemma LoggedAmountIsBalanceChange(banks: seq<Bank>, i: nat, newBalance: real, reason: Option<string>)
    requires Distinct(BankIds(banks)) && i < |banks|
    ensures var row := LogRow(banks[i].id, banks[i].balance, newBalance, reason);
      SetBalance(banks, banks[i].id, newBalance)[i].balance == banks[i].balance + row.amount &&
      TotalBalance(SetBalance(banks, banks[i].id, newBalance)) == TotalBalance(banks) + row.amount
  {
    SetBalanceAt(banks, i, newBalance);
    TotalBalanceAfterSet(banks, i, newBalance);
  }

  /** The amount logged for a dialog submission is the difference the dialog displayed. */
  lemma LoggedAmountIsDisplayedDifference(bank: Bank, mode: AdjustmentType, parsed: Option<real>, reason: string)
    ensures var row := LogRow(bank.id, bank.balance, CalculateNewBalance(mode, bank.balance, parsed), SentReason(reason));
      row.amount == Difference(mode, bank.balance, parsed) &&
      (row.reason.None? <==> AllSpace(reason)) &&
      (row.reason.Some? ==> row.reason.value == Trim(reason))
  {
  }
}
