/**
 * The balance adjustment dialog (src/components/banks/AdjustBalanceDialog.tsx):
 * the new balance for the three modes, the difference shown before
 * confirming, and the form state reset after a submission.
 */
module AdjustBalanceDialog {
  import opened Types

  datatype AdjustmentType = SetTo | Add | Subtract

  /**
   * `calculateNewBalance`. `parsed` is `parseFloat` of the amount field, `None`
   * when that is NaN; like `|| 0`, both NaN and 0 enter as 0.
   */
  function CalculateNewBalance(mode: AdjustmentType, balance: real, parsed: Option<real>): (r: real)
    ensures mode == SetTo ==> r == OrZero(parsed)
    ensures mode == Add ==> r - balance == OrZero(parsed)
    ensures mode == Subtract ==> r >= 0.0
    ensures mode == Subtract && OrZero(parsed) <= balance ==> r == balance - OrZero(parsed)
    ensures mode == Subtract && OrZero(parsed) > balance ==> r == 0.0
  {
    var value := OrZero(parsed);
    match mode
    case Add => balance + value
    case Subtract => Max(0.0, balance - value)
    case SetTo => value
  }

  /** The "Adjustment" line of the dialog: new balance minus current balance. */
  function Difference(mode: AdjustmentType, balance: real, parsed: Option<real>): (d: real)
    ensures mode == SetTo ==> d == OrZero(parsed) - balance
    ensures mode == Add ==> d == OrZero(parsed)
    ensures mode == Subtract ==> d == Max(-balance, -OrZero(parsed))
  {
    CalculateNewBalance(mode, balance, parsed) - balance
  }

  /** The difference is drawn as an increase (with a "+") exactly when it is not negative. */
  function ShownAsIncrease(mode: AdjustmentType, balance: real, parsed: Option<real>): (b: bool)
    ensures mode == SetTo ==> (b <==> OrZero(parsed) >= balance)
    ensures mode == Add ==> (b <==> OrZero(parsed) >= 0.0)
    ensures mode == Subtract ==> (b <==> balance <= 0.0 || OrZero(parsed) <= 0.0)
  {
    Difference(mode, balance, parsed) >= 0.0
  }

  /** An unparseable amount counts as 0: "set" gives 0 and "add" leaves the balance as it is. */
  lemma UnparseableAmountIsZero(balance: real)
    ensures CalculateNewBalance(SetTo, balance, None) == 0.0
    ensures CalculateNewBalance(Add, balance, None) == balance
    ensures Difference(Add, balance, None) == 0.0 && ShownAsIncrease(Add, balance, None)
    ensures CalculateNewBalance(Subtract, balance, None) == Max(0.0, balance)
  {
  }

  /**
   * On a non-negative balance, subtracting a non-negative amount never shows
   * an increase beyond 0 and never takes away more than the balance.
   */
  lemma SubtractStaysWithinBalance(balance: real, parsed: Option<real>)
    requires balance >= 0.0 && OrZero(parsed) >= 0.0
    ensures -balance <= Difference(Subtract, balance, parsed) <= 0.0
    ensures ShownAsIncrease(Subtract, balance, parsed) <==> OrZero(parsed) == 0.0 || balance == 0.0
  {
  }

  /** Adding shows exactly the entered amount as the difference. */
  lemma AddShowsEnteredAmount(balance: real, parsed: Option<real>)
    ensures Difference(Add, balance, parsed) == OrZero(parsed)
    ensures ShownAsIncrease(Add, balance, parsed) <==> OrZero(parsed) >= 0.0
  {
  }

  // ----------------------------------------------------------------- trim

  /** The whitespace `String.prototype.trim` removes (the common code points). */
  predicate IsSpace(c: char) {
    c == ' ' || c == '\t' || c == '\n' || c == '\r' || c == '\U{B}' || c == '\U{C}' ||
    c == '\U{A0}' || c == '\U{FEFF}' || c == '\U{2028}' || c == '\U{2029}'
  }

  predicate AllSpace(s: string) {
    forall k :: 0 <= k < |s| ==> IsSpace(s[k])
  }

  function TrimStart(s: string): (r: string)
    ensures |r| <= |s| && r == s[|s| - |r|..]
    ensures AllSpace(s[..|s| - |r|])
    ensures |r| > 0 ==> !IsSpace(r[0])
  {
    if |s| > 0 && IsSpace(s[0]) then TrimStart(s[1..]) else s
  }

  function TrimEnd(s: string): (r: string)
    ensures |r| <= |s| && r == s[..|r|]
    ensures AllSpace(s[|r|..])
    ensures |r| > 0 ==> !IsSpace(r[|r| - 1])
  {
    if |s| > 0 && IsSpace(s[|s| - 1]) then
      var r := TrimEnd(s[..|s| - 1]);
      assert s[..|s| - 1][..|r|] == s[..|r|];
      assert s[|r|..] == s[..|s| - 1][|r|..] + [s[|s| - 1]];
      r
    else s
  }

  lemma AllSpaceConcat(a: string, b: string)
    ensures AllSpace(a + b) <==> AllSpace(a) && AllSpace(b)
  {
    if AllSpace(a + b) {
      assert forall k :: 0 <= k < |a| ==> a[k] == (a + b)[k];
      assert forall k :: 0 <= k < |b| ==> b[k] == (a + b)[|a| + k];
    }
  }

  /**
   * `String.prototype.trim`: the string with its whitespace prefix and suffix
   * cut off; empty exactly when the string is all whitespace.
   */
  function Trim(s: string): (r: string)
    ensures exists a, b :: 0 <= a <= b <= |s| && r == s[a..b] && AllSpace(s[..a]) && AllSpace(s[b..])
    ensures r == "" <==> AllSpace(s)
    ensures |r| > 0 ==> !IsSpace(r[0]) && !IsSpace(r[|r| - 1])
  {
    var t := TrimStart(s);
    var r := TrimEnd(t);
    TrimParts(s, t, r);
    r
  }

  lemma TrimParts(s: string, t: string, r: string)
    requires |t| <= |s| && t == s[|s| - |t|..] && AllSpace(s[..|s| - |t|])
    requires |t| > 0 ==> !IsSpace(t[0])
    requires |r| <= |t| && r == t[..|r|] && AllSpace(t[|r|..])
    requires |r| > 0 ==> !IsSpace(r[|r| - 1])
    ensures exists a, b :: 0 <= a <= b <= |s| && r == s[a..b] && AllSpace(s[..a]) && AllSpace(s[b..])
    ensures r == "" <==> AllSpace(s)
    ensures |r| > 0 ==> !IsSpace(r[0]) && !IsSpace(r[|r| - 1])
  {
    var a := |s| - |t|;
    var b := a + |r|;
    assert r == s[a..b] && s[b..] == t[|r|..];
    assert s == s[..|s| - |t|] + t;
    AllSpaceConcat(s[..|s| - |t|], t);
    assert t == r + t[|r|..];
    AllSpaceConcat(r, t[|r|..]);
    if |r| > 0 {
      assert r[0] == t[0];
    }
  }

  /** `reason.trim() || undefined`. */
  function SentReason(reason: string): (r: Option<string>)
    ensures r.None? <==> AllSpace(reason)
    ensures r.Some? ==> r.value != "" && r.value == Trim(reason)
  {
    var t := Trim(reason);
    if t == "" then None else Some(t)
  }

  /** What `handleSubmit` passes to the adjust callback. */
  datatype AdjustRequest = AdjustRequest(bankId: Id, newBalance: real, reason: Option<string>)

  /** The dialog's form state. */
  class AdjustForm {
    var open: bool
    var mode: AdjustmentType
    var amount: string
    var reason: string

    constructor ()
      ensures !open && mode == SetTo && amount == "" && reason == ""
    {
      open := false;
      mode := SetTo;
      amount := "";
      reason := "";
    }

    /** The Confirm button is enabled only when not pending and the amount is not empty. */
    function CanSubmit(pending: bool): (b: bool)
      reads this
      ensures pending ==> !b
      ensures b ==> |amount| > 0
    {
      !pending && amount != ""
    }

    /**
     * `handleSubmit`: send the request for `bank`; once the callback has
     * resolved (`delivered`), clear the amount and reason, return to "set"
     * and close. When the callback rejects, the form keeps its state.
     * `parsed` is `parseFloat` of the current amount text. The form can only
     * be submitted through the enabled Confirm button.
     */
    method HandleSubmit(bank: Bank, parsed: Option<real>, delivered: bool) returns (request: AdjustRequest)
      requires CanSubmit(false)
      modifies this
      ensures request == AdjustRequest(bank.id, CalculateNewBalance(old(mode), bank.balance, parsed), SentReason(old(reason)))
      ensures delivered ==> !open && mode == SetTo && amount == "" && reason == "" && !CanSubmit(false)
      ensures !delivered ==> open == old(open) && mode == old(mode) && amount == old(amount) && reason == old(reason)
    {
      request := AdjustRequest(bank.id, CalculateNewBalance(mode, bank.balance, parsed), SentReason(reason));
      if delivered {
        amount := "";
        reason := "";
        mode := SetTo;
        open := false;
      }
    }
  }
}
