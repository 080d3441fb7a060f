/**
 * The basket page: the running total shown under the items, and the
 * quantity buttons, which send an update only for a quantity of at least 1.
 */
module BasketPage {
  import opened Common
  import opened Models
  import opened BasketController

  /** The price shown on one line: cost times quantity. */
  function LineCost(line: BasketLine): real
  {
    Price(line.cost, line.quantity)
  }

  /** `calculateTotal`: `reduce` from 0, adding each line's cost in order. */
  function CalculateTotal(lines: seq<BasketLine>): (r: real)
    ensures r == SumCosts(lines)
    ensures lines == [] ==> r == 0.0
  {
    FoldIsSum(0.0, lines);
    FoldTotal(0.0, lines)
  }

  function FoldTotal(acc: real, lines: seq<BasketLine>): real
    decreases |lines|
  {
    if lines == [] then acc else FoldTotal(acc + LineCost(lines[0]), lines[1..])
  }

  /** The sum of the line costs, as a reference. */
  function SumCosts(lines: seq<BasketLine>): real
  {
    if lines == [] then 0.0 else SumCosts(lines[..|lines| - 1]) + LineCost(lines[|lines| - 1])
  }

  lemma {:induction false} SumCostsFirst(lines: seq<BasketLine>)
    requires lines != []
    ensures SumCosts(lines) == LineCost(lines[0]) + SumCosts(lines[1..])
  {
    if |lines| > 1 {
      var init := lines[..|lines| - 1];
      SumCostsFirst(init);
      assert init[1..] == lines[1..][..|lines[1..]| - 1];
    } else {
      assert lines[1..] == [];
      assert lines[..0] == [];
    }
  }

  lemma {:induction false} FoldIsSum(acc: real, lines: seq<BasketLine>)
    ensures FoldTotal(acc, lines) == acc + SumCosts(lines)
    decreases |lines|
  {
    if lines != [] {
      FoldIsSum(acc + LineCost(lines[0]), lines[1..]);
      SumCostsFirst(lines);
    }
  }

  /** The sum of the `totalCost` of some transactions. */
  function LedgerTotal(txs: seq<Transaction>): real
  {
    if txs == [] then 0.0 else LedgerTotal(txs[..|txs| - 1]) + txs[|txs| - 1].totalCost
  }

  /** Checking out charges what the page showed: for the lines `getBasket`
      builds from a basket, the transactions of a checkout of that basket
      add up to the displayed total. */
  lemma {:induction false} CheckoutChargesDisplayedTotal(username: string, items: seq<BasketItem>,
                                                         needs: map<NeedId, Need>, now: Time, lines: seq<BasketLine>)
    requires AllNeedsPresent(items, needs)
    requires |lines| == |items|
    requires forall i :: 0 <= i < |items| ==> lines[i] == Line(items[i], needs[items[i].needId])
    ensures LedgerTotal(Ledger(username, items, needs, now)) == CalculateTotal(lines)
  {
    if items != [] {
      var n := |items|;
      CheckoutChargesDisplayedTotal(username, items[..n - 1], needs, now, lines[..n - 1]);
      var l := Ledger(username, items, needs, now);
      assert l[..n - 1] == Ledger(username, items[..n - 1], needs, now);
      assert l == l[..n - 1] + [l[n - 1]];
      assert SumCosts(lines) == SumCosts(lines[..n - 1]) + LineCost(lines[n - 1]);
    }
  }

  /** The body of a quantity update. */
  datatype UpdateRequest = UpdateRequest(itemId: ItemId, quantity: real)

  /** `handleUpdateQuantity`: nothing is sent for a quantity below 1. */
  function HandleUpdateQuantity(itemId: ItemId, newQuantity: real): (r: Option<UpdateRequest>)
    ensures r.None? <==> newQuantity < 1.0
    ensures r.Some? ==> r.value == UpdateRequest(itemId, newQuantity)
  {
    if newQuantity < 1.0 then None else Some(UpdateRequest(itemId, newQuantity))
  }

  function MinusButton(line: BasketLine): Option<UpdateRequest>
  {
    HandleUpdateQuantity(line.id, line.quantity - 1.0)
  }

  function PlusButton(line: BasketLine): Option<UpdateRequest>
  {
    HandleUpdateQuantity(line.id, line.quantity + 1.0)
  }

  /** "−" at quantity 1 sends nothing and "+" asks for one more; whatever
      the page sends passes the controller's request check. */
  lemma QuantityButtons(line: BasketLine)
    requires line.quantity >= 1.0
    ensures MinusButton(line).None? <==> line.quantity < 2.0
    ensures PlusButton(line) == Some(UpdateRequest(line.id, line.quantity + 1.0))
    ensures MinusButton(line).Some? ==> !BadQuantity(Some(MinusButton(line).value.quantity))
    ensures !BadQuantity(Some(PlusButton(line).value.quantity))
  {
  }
}
