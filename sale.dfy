/**
 * The pieces of addTransaction: the per-line-item stock update, its closed
 * form over a whole sale (and over a history of sales), and the credit a
 * sale on account opens.
 */
module Sale {
  import opened Wrappers
  import opened Types
  import opened Seqs

  /** Moves `quantity` units of one medicine from stock to sold. */
  function Sell(m: Medicine, quantity: int): (r: Medicine)
    ensures r.stock == m.stock - quantity && r.sold == m.sold + quantity
    ensures r.stock + r.sold == m.stock + m.sold
    ensures r.(stock := m.stock, sold := m.sold) == m
  {
    m.(stock := m.stock - quantity, sold := m.sold + quantity)
  }

  /** The updater queued for one line item: every medicine with that id sells the quantity. */
  function SellItem(ms: seq<Medicine>, item: LineItem): (r: seq<Medicine>)
    ensures |r| == |ms|
    ensures forall k :: 0 <= k < |ms| ==>
      r[k] == if ms[k].id == item.medicineId then Sell(ms[k], item.quantity) else ms[k]
  {
    MapWhere(ms, (m: Medicine) => m.id == item.medicineId, (m: Medicine) => Sell(m, item.quantity))
  }

  /** Total quantity of the line items that name medicine `id`. */
  function QuantityFor(items: seq<LineItem>, id: string): int
  {
    if items == [] then 0
    else
      var last := items[|items| - 1];
      QuantityFor(items[..|items| - 1], id) + (if last.medicineId == id then last.quantity else 0)
  }

  /**
   * The line items' updaters applied in turn, first item first. Each medicine
   * ends up having sold the total quantity of the items naming it; the list
   * keeps its length and order, and ids do not change.
   */
  function SellAll(ms: seq<Medicine>, items: seq<LineItem>): (r: seq<Medicine>)
    ensures |r| == |ms|
    ensures forall k :: 0 <= k < |ms| ==> r[k] == Sell(ms[k], QuantityFor(items, ms[k].id))
    decreases |items|
  {
    if items == [] then ms
    else SellItem(SellAll(ms, items[..|items| - 1]), items[|items| - 1])
  }

  /** A medicine that no line item names has a total quantity of zero. */
  lemma {:induction false} QuantityForUnnamed(items: seq<LineItem>, id: string)
    requires forall i :: 0 <= i < |items| ==> items[i].medicineId != id
    ensures QuantityFor(items, id) == 0
  {
    if items != [] {
      QuantityForUnnamed(items[..|items| - 1], id);
    }
  }

  /** Line items with non-negative quantities never add up to a negative total. */
  lemma {:induction false} QuantityForNonNegative(items: seq<LineItem>, id: string)
    requires forall i :: 0 <= i < |items| ==> items[i].quantity >= 0
    ensures QuantityFor(items, id) >= 0
  {
    if items != [] {
      QuantityForNonNegative(items[..|items| - 1], id);
    }
  }

  /** A sale moves units between stock and sold: their sum is unchanged for every medicine. */
  lemma SaleConservesUnits(ms: seq<Medicine>, items: seq<LineItem>)
    ensures forall k :: 0 <= k < |ms| ==>
      SellAll(ms, items)[k].stock + SellAll(ms, items)[k].sold == ms[k].stock + ms[k].sold
  {
  }

  /** A medicine that no line item names is left exactly as it was. */
  lemma SaleLeavesUnnamed(ms: seq<Medicine>, items: seq<LineItem>, k: nat)
    requires k < |ms|
    requires forall i :: 0 <= i < |items| ==> items[i].medicineId != ms[k].id
    ensures SellAll(ms, items)[k] == ms[k]
  {
    QuantityForUnnamed(items, ms[k].id);
  }

  /** With non-negative quantities, sold never falls and stock never rises. */
  lemma SaleSoldMonotone(ms: seq<Medicine>, items: seq<LineItem>, k: nat)
    requires k < |ms|
    requires forall i :: 0 <= i < |items| ==> items[i].quantity >= 0
    ensures SellAll(ms, items)[k].sold >= ms[k].sold
    ensures SellAll(ms, items)[k].stock <= ms[k].stock
  {
    QuantityForNonNegative(items, ms[k].id);
  }

  /** Total quantity of medicine `id` over a history of sales. */
  function SoldIn(txns: seq<Transaction>, id: string): int
  {
    if txns == [] then 0
    else SoldIn(txns[..|txns| - 1], id) + QuantityFor(txns[|txns| - 1].medicines, id)
  }

  /**
   * The medicine list after the sales `txns`, oldest first: each medicine's
   * stock has fallen and its sold count risen by its total over all of them.
   */
  function SellHistory(ms: seq<Medicine>, txns: seq<Transaction>): (r: seq<Medicine>)
    ensures |r| == |ms|
    ensures forall k :: 0 <= k < |ms| ==> r[k] == Sell(ms[k], SoldIn(txns, ms[k].id))
    decreases |txns|
  {
    if txns == [] then ms
    else SellAll(SellHistory(ms, txns[..|txns| - 1]), txns[|txns| - 1].medicines)
  }

  /** A sale opens a credit when it is flagged as on account and leaves something owing. */
  predicate OpensCredit(txn: Transaction): (b: bool)
    ensures b ==> txn.isCredit == Some(true) && txn.creditAmount > 0.0
    ensures txn.isCredit != Some(true) ==> !b
    ensures txn.creditAmount <= 0.0 ==> !b
    ensures txn.isCredit == Some(true) && txn.creditAmount > 0.0 ==> b
  {
    txn.isCredit == Some(true) && txn.creditAmount > 0.0
  }

  /** The credit record a sale on account creates, under the caller-supplied id. */
  function SaleCredit(txn: Transaction, creditId: string): (c: Credit)
    ensures c.id == creditId && c.patientId == txn.patientId
    ensures c.amount == txn.creditAmount && c.date == txn.date
    ensures c.status == Pending && c.notes == None
  {
    Credit(creditId, txn.patientId, txn.creditAmount, txn.date, Pending, None)
  }

  /**
   * The credit list after a sale: exactly one new credit in front when the
   * sale opens one, none otherwise; the earlier credits follow unchanged.
   */
  function SaleCredits(credits: seq<Credit>, txn: Transaction, creditId: string): (r: seq<Credit>)
    ensures |r| == if OpensCredit(txn) then |credits| + 1 else |credits|
    ensures r[|r| - |credits|..] == credits
    ensures OpensCredit(txn) ==> r[0] == SaleCredit(txn, creditId)
  {
    if OpensCredit(txn) then [SaleCredit(txn, creditId)] + credits else credits
  }

  /**
   * A sale of 4 units of a medicine with 100 in stock and none sold leaves 96
   * in stock and 4 sold; paid in full, it opens no credit.
   */
  lemma CashSaleExample(m: Medicine, txn: Transaction, credits: seq<Credit>, creditId: string)
    requires m.id == "m1" && m.stock == 100 && m.sold == 0
    requires txn.medicines == [LineItem("m1", 4, 40.0)]
    requires txn.creditAmount == 0.0 && txn.isCredit == Some(false)
    ensures SellAll([m], txn.medicines) == [m.(stock := 96, sold := 4)]
    ensures SaleCredits(credits, txn, creditId) == credits
  {
  }

  /** A sale on account with 500 owing opens exactly one pending credit of 500. */
  lemma CreditSaleExample(txn: Transaction, credits: seq<Credit>, creditId: string)
    requires txn.creditAmount == 500.0 && txn.isCredit == Some(true)
    ensures var r := SaleCredits(credits, txn, creditId);
            |r| == |credits| + 1 && r[0].status == Pending && r[0].amount == 500.0
  {
  }
}
