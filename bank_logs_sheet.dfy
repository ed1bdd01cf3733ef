/**
 * The balance history sheet (src/components/banks/BankLogsSheet.tsx): the
 * adjustment log restricted to one bank, each entry's trend marker, and the
 * loading and empty states.
 */
module BankLogsSheet {
  import opened Types
  import opened Seqs
  import opened AdjustBalanceDialog
  import opened BankAdjustments

  /** `adjustments.filter((a) => a.bank_id === bank.id)`, in the order given. */
  function BankLog(adjustments: seq<BankAdjustment>, bankId: Id): (r: seq<BankAdjustment>)
    ensures forall a :: a in r <==> a in adjustments && a.bankId == bankId
    ensures SubsequenceOf(r, adjustments)
    ensures forall a :: multiset(r)[a] == if a.bankId == bankId then multiset(adjustments)[a] else 0
  {
    var p := (a: BankAdjustment) => a.bankId == bankId;
    FilterCount(adjustments, p);
    Filter(adjustments, p)
  }

  /** The icon of an entry: up for a positive amount, a dash for zero, down otherwise. */
  datatype Trend = Up | Flat | Down

  function TrendOf(a: BankAdjustment): (t: Trend)
    ensures t == Up <==> a.amount > 0.0
    ensures t == Flat <==> a.amount == 0.0
    ensures t == Down <==> a.amount < 0.0
  {
    if a.amount == 0.0 then Flat else if a.amount > 0.0 then Up else Down
  }

  /** Only a positive amount is written with a leading "+". */
  function PlusSign(a: BankAdjustment): (b: bool)
    ensures b <==> TrendOf(a) == Up
  {
    a.amount > 0.0
  }

  /** The sheet's body. */
  datatype SheetView = Loading | NoAdjustments | Entries(shown: seq<BankAdjustment>)

  function Sheet(adjustments: seq<BankAdjustment>, bankId: Id, isLoading: bool): (v: SheetView)
    ensures v.Loading? <==> isLoading
    ensures v.NoAdjustments? <==> !isLoading && forall a :: a in adjustments ==> a.bankId != bankId
    ensures v.Entries? ==> v.shown == BankLog(adjustments, bankId) && |v.shown| > 0
  {
    if isLoading then Loading
    else
      var shown := BankLog(adjustments, bankId);
      if |shown| == 0 then NoAdjustments else Entries(shown)
  }

  /**
   * A successful adjustment of a bank appears first in that bank's sheet,
   * ahead of its earlier entries, and in no other bank's sheet.
   */
  lemma AdjustmentListedFirst(log: seq<BankAdjustment>, bankId: Id, previousBalance: real, newBalance: real,
                              reason: Option<string>, otherBank: Id)
    requires otherBank != bankId
    ensures var row := LogRow(bankId, previousBalance, newBalance, reason);
      BankLog(NewestFirst(log + [row]), bankId) == [row] + BankLog(NewestFirst(log), bankId) &&
      BankLog(NewestFirst(log + [row]), otherBank) == BankLog(NewestFirst(log), otherBank)
  {
    var row := LogRow(bankId, previousBalance, newBalance, reason);
    NewestEntryIsLatestAdjustment(log, row);
    var s := NewestFirst(log + [row]);
    assert s == [row] + NewestFirst(log);
  }

  /**
   * The entry's trend agrees with the change of balance it records, and a
   * reason shown under an entry is never blank.
   */
  lemma EntryMatchesBalances(bankId: Id, previousBalance: real, newBalance: real, reason: Option<string>)
    ensures var row := LogRow(bankId, previousBalance, newBalance, reason);
      (TrendOf(row) == Up <==> newBalance > previousBalance) &&
      (TrendOf(row) == Flat <==> newBalance == previousBalance) &&
      (TrendOf(row) == Down <==> newBalance < previousBalance) &&
      (row.reason.Some? ==> row.reason.value != "")
  {
  }

  /**
   * A zero adjustment is previewed in the dialog as an increase, with a "+",
   * but listed in the sheet with the flat marker and no "+".
   */
  lemma ZeroAdjustmentSignsDisagree(bank: Bank, reason: string)
    ensures ShownAsIncrease(Add, bank.balance, None)
    ensures var row := LogRow(bank.id, bank.balance, CalculateNewBalance(Add, bank.balance, None), SentReason(reason));
      TrendOf(row) == Flat && !PlusSign(row)
  {
  }
}
