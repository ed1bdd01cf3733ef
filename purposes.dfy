/**
 * The Purposes page (src/pages/Purposes.tsx): purposes grouped under their
 * category, and the add form with its enable and reset rules.
 */
module Purposes {
  import opened Types
  import opened Seqs
  import opened LedgerRules
  import opened BudgetData

  /** `purposes.filter((p) => p.category_id === categoryId)`. */
  function PurposesOf(purposes: seq<Purpose>, categoryId: Id): (r: seq<Purpose>)
    ensures forall p :: p in r <==> p in purposes && p.categoryId == categoryId
    ensures SubsequenceOf(r, purposes)
    ensures forall p :: multiset(r)[p] == if p.categoryId == categoryId then multiset(purposes)[p] else 0
  {
    var keep := (p: Purpose) => p.categoryId == categoryId;
    FilterCount(purposes, keep);
    Filter(purposes, keep)
  }

  /** One card of the page: a category and its purposes. */
  datatype Group = Group(category: Category, purposes: seq<Purpose>)

  /** `purposesByCategory`: one group per category, in category order. */
  function PurposesByCategory(categories: seq<Category>, purposes: seq<Purpose>): (r: seq<Group>)
    ensures |r| == |categories|
    ensures forall i :: 0 <= i < |r| ==>
      r[i].category == categories[i] && r[i].purposes == PurposesOf(purposes, categories[i].id)
  {
    seq(|categories|, i requires 0 <= i < |categories| => Group(categories[i], PurposesOf(purposes, categories[i].id)))
  }

  /** A purpose whose category is not among the categories is shown in no group. */
  lemma OrphanInNoGroup(categories: seq<Category>, purposes: seq<Purpose>, p: Purpose)
    requires forall i :: 0 <= i < |categories| ==> categories[i].id != p.categoryId
    ensures forall i :: 0 <= i < |categories| ==> p !in PurposesByCategory(categories, purposes)[i].purposes
  {
  }

  /**
   * With distinct category ids, a purpose whose category exists is shown in
   * exactly one group, that category's, as many times as it is listed.
   */
  lemma PurposeInExactlyOneGroup(categories: seq<Category>, purposes: seq<Purpose>, p: Purpose, k: nat)
    requires Distinct(CategoryIds(categories)) && k < |categories| && categories[k].id == p.categoryId
    ensures var groups := PurposesByCategory(categories, purposes);
      multiset(groups[k].purposes)[p] == multiset(purposes)[p] &&
      forall i :: 0 <= i < |categories| && i != k ==> p !in groups[i].purposes
  {
    forall i | 0 <= i < |categories| && i != k
      ensures categories[i].id != p.categoryId
    {
      assert CategoryIds(categories)[i] != CategoryIds(categories)[k];
    }
  }

  /** The add form's state. */
  class PurposeForm {
    var name: string
    var categoryId: Id
    var dialogOpen: bool

    constructor ()
      ensures name == "" && categoryId == "" && !dialogOpen
    {
      name := "";
      categoryId := "";
      dialogOpen := false;
    }

    /** The Add button is enabled only when a category is chosen and no add is pending. */
    function AddEnabled(pending: bool): (b: bool)
      reads this
      ensures pending ==> !b
      ensures b ==> |categoryId| > 0
    {
      !pending && categoryId != ""
    }

    /**
     * `handleAdd`: insert the purpose; once the insert succeeds, clear the
     * name and category and close the dialog. A rejected insert leaves both
     * the purposes and the form as they were. Purposes are listed newest
     * first, so the new row heads the list. `newId` is the fresh key the
     * store assigns. The form can only be submitted through the enabled Add
     * button with its required name filled in.
     */
    method HandleAdd(ledger: Ledger, newId: Id, fails: set<Write>) returns (r: Outcome)
      requires AddEnabled(false) && name != ""
      requires ledger.Valid() && newId !in PurposeIds(ledger.purposes)
      modifies this, ledger
      ensures ledger.Valid()
      ensures ledger.banks == old(ledger.banks) && ledger.categories == old(ledger.categories)
      ensures ledger.transactions == old(ledger.transactions) && ledger.monthlyIncome == old(ledger.monthlyIncome)
      ensures ledger.adjustments == old(ledger.adjustments)
      ensures PurposeInsert in fails ==>
        r == Failure(PurposeInsert) && ledger.purposes == old(ledger.purposes) &&
        name == old(name) && categoryId == old(categoryId) && dialogOpen == old(dialogOpen)
      ensures PurposeInsert !in fails ==>
        r == Success && ledger.purposes == [Purpose(newId, old(name), old(categoryId))] + old(ledger.purposes) &&
        name == "" && categoryId == "" && !dialogOpen && !AddEnabled(false)
    {
      if PurposeInsert in fails {
        return Failure(PurposeInsert);
      }
      var ids := PurposeIds(ledger.purposes);
      ledger.purposes := [Purpose(newId, name, categoryId)] + ledger.purposes;
      assert PurposeIds(ledger.purposes) == [newId] + ids;
      name := "";
      categoryId := "";
      dialogOpen := false;
      r := Success;
    }
  }

  /** A newly added purpose heads its category's group and leaves every other group as it was. */
  lemma AddedPurposeHeadsItsGroup(categories: seq<Category>, purposes: seq<Purpose>, p: Purpose)
    ensures forall i :: 0 <= i < |categories| ==>
      PurposesByCategory(categories, [p] + purposes)[i].purposes ==
        (if categories[i].id == p.categoryId then [p] else []) + PurposesByCategory(categories, purposes)[i].purposes
  {
    forall i | 0 <= i < |categories|
      ensures PurposesOf([p] + purposes, categories[i].id) ==
        (if categories[i].id == p.categoryId then [p] else []) + PurposesOf(purposes, categories[i].id)
    {
      assert ([p] + purposes)[1..] == purposes;
    }
  }
}
