/**
 * The need card's display logic: the priority badge's style class and the
 * funding-progress block, whose figures fall back to values computed from
 * cost and quantity when the need carries none.
 */
module NeedCard {
  import opened Common
  import opened Models

  /** `getPriorityClass`. */
  function PriorityClass(priority: string): (c: string)
    ensures priority == "High" ==> c == "priority-high"
    ensures priority == "Medium" ==> c == "priority-medium"
    ensures priority == "Low" ==> c == "priority-low"
    ensures priority !in PRIORITIES ==> c == ""
  {
    match priority
    case "High" => "priority-high"
    case "Medium" => "priority-medium"
    case "Low" => "priority-low"
    case _ => ""
  }

  /** Every need the schema accepts gets a badge style, and distinct
      priorities get distinct styles. */
  lemma PriorityClassOfStoredNeed(n: Need, m: Need)
    requires ValidNeed(n) && ValidNeed(m)
    ensures PriorityClass(n.priority) != ""
    ensures PriorityClass(n.priority) == PriorityClass(m.priority) <==> n.priority == m.priority
  {
  }

  /** The fields the card reads; the progress fields may be absent. */
  datatype CardNeed = CardNeed(
    cost: real,
    quantity: Option<real>,
    amountRaised: Option<real>,
    amountLeft: Option<real>,
    totalGoal: Option<real>,
    progressPercentage: Option<real>)

  datatype Progress = Progress(raised: real, left: real, goal: real, percentage: real, width: real)

  /** The bar's width: the percentage clamped to [0, 100]. */
  function BarWidth(percentage: real): (w: real)
    ensures 0.0 <= w <= 100.0
    ensures 0.0 <= percentage <= 100.0 ==> w == percentage
    ensures percentage < 0.0 ==> w == 0.0
    ensures percentage > 100.0 ==> w == 100.0
  {
    var atLeastZero := if percentage > 0.0 then percentage else 0.0;
    if atLeastZero < 100.0 then atLeastZero else 100.0
  }

  /** The block is drawn only when cost is non-zero and quantity is present. */
  predicate ShowsProgress(n: CardNeed)
  {
    n.cost != 0.0 && n.quantity.Some?
  }

  /** The progress block, when it is drawn. */
  function ProgressOf(n: CardNeed): (r: Option<Progress>)
    ensures r.Some? <==> ShowsProgress(n)
    ensures r.Some? ==> 0.0 <= r.value.width <= 100.0
  {
    if !ShowsProgress(n) then None
    else
      var raised := OrElse(n.amountRaised, 0.0);
      var left := OrElse(n.amountLeft, n.quantity.value * n.cost);
      var goal := OrElse(n.totalGoal, raised + left);
      var percentage := if n.progressPercentage.Some? then n.progressPercentage.value
                        else if goal > 0.0 then raised / goal * 100.0 else 0.0;
      Some(Progress(raised, left, goal, percentage, BarWidth(percentage)))
  }

  lemma RatioAtMostHundred(raised: real, left: real)
    requires raised >= 0.0 && left >= 0.0 && raised + left > 0.0
    ensures 0.0 <= raised / (raised + left) * 100.0 <= 100.0
  {
    var g := raised + left;
    assert raised / g <= 1.0 by {
      assert raised <= g;
    }
  }

  /** With only raised and left supplied (and both non-negative), the
      computed goal is their sum and the percentage already lies in
      [0, 100], so the bar shows it unclamped. */
  lemma FallbackPercentageInRange(n: CardNeed)
    requires ShowsProgress(n) && n.amountRaised.Some? && n.amountLeft.Some?
    requires n.totalGoal.None? && n.progressPercentage.None?
    requires n.amountRaised.value >= 0.0 && n.amountLeft.value >= 0.0
    ensures var p := ProgressOf(n).value;
      && p.goal == p.raised + p.left
      && 0.0 <= p.percentage <= 100.0
      && p.width == p.percentage
  {
    var raised, left := n.amountRaised.value, n.amountLeft.value;
    if raised + left > 0.0 {
      RatioAtMostHundred(raised, left);
    }
  }

  /** The card as a stored need gives it: no progress fields. */
  function CardOf(n: Need): CardNeed
  {
    CardNeed(n.cost, Some(n.quantity), None, None, None, None)
  }

  /** For a need as the API returns it, the block appears exactly when the
      cost is non-zero, its goal is the stock's value and it reads 0 %,
      however much of the need has been funded. */
  lemma StoredNeedShowsNoProgress(n: Need)
    ensures ProgressOf(CardOf(n)).Some? <==> n.cost != 0.0
    ensures ProgressOf(CardOf(n)).Some? ==>
              var p := ProgressOf(CardOf(n)).value;
              && p.raised == 0.0
              && p.left == n.quantity * n.cost
              && p.goal == p.left
              && p.percentage == 0.0 && p.width == 0.0
  {
  }
}
