/**
 * The helper dashboard's list logic: the search, category and priority
 * filters applied to the needs fetched from `/needs/priority`, and the
 * request sent when a helper adds a need to the basket.
 */
module HelperDashboard {
  import opened Common
  import opened Models
  import BasketController

  /** The filter value that means "no filter". */
  const ALL: string := "All"

  /** Name or description contains the query, ignoring case. */
  predicate MatchesSearch(n: Need, query: string)
  {
    IncludesIgnoringCase(n.name, query) || IncludesIgnoringCase(n.description, query)
  }

  /** One step of the pipeline: filter when the control is active, pass the
      list through unchanged when it is not. */
  function FilterWhen(s: seq<Need>, active: bool, p: Need -> bool): seq<Need>
  {
    if active then Filter(s, p) else s
  }

  /** `filterNeeds`: search (when the query is non-empty), then category,
      then priority (each when not `All`). */
  function FilterNeeds(needs: seq<Need>, searchQuery: string, categoryFilter: string, priorityFilter: string): (r: seq<Need>)
    ensures |r| <= |needs|
    ensures forall i :: 0 <= i < |r| ==> r[i] in needs && Shown(r[i], searchQuery, categoryFilter, priorityFilter)
  {
    var afterSearch := FilterWhen(needs, searchQuery != "", (n: Need) => MatchesSearch(n, searchQuery));
    var afterCategory := FilterWhen(afterSearch, categoryFilter != ALL, (n: Need) => n.category == categoryFilter);
    FilterWhen(afterCategory, priorityFilter != ALL, (n: Need) => n.priority == priorityFilter)
  }

  /** The combined condition: a need is shown when it meets every active
      control. */
  predicate Shown(n: Need, searchQuery: string, categoryFilter: string, priorityFilter: string)
  {
    && (searchQuery == "" || MatchesSearch(n, searchQuery))
    && (categoryFilter == ALL || n.category == categoryFilter)
    && (priorityFilter == ALL || n.priority == priorityFilter)
  }

  /** The pipeline is a single filter by the combined condition. */
  lemma {:induction false} FilterNeedsIsOneFilter(needs: seq<Need>, q: string, c: string, p: string)
    ensures FilterNeeds(needs, q, c, p) == Filter(needs, (n: Need) => Shown(n, q, c, p))
  {
    if needs != [] {
      FilterNeedsIsOneFilter(needs[1..], q, c, p);
    }
  }

  /** What the dashboard lists: an order-preserving selection of the
      fetched needs, holding every copy of each need that meets the active
      controls and nothing else. */
  lemma FilterNeedsSpec(needs: seq<Need>, q: string, c: string, p: string)
    ensures var r := FilterNeeds(needs, q, c, p);
      && Subsequence(r, needs)
      && (forall i :: 0 <= i < |r| ==> Shown(r[i], q, c, p))
      && (forall i :: 0 <= i < |needs| && Shown(needs[i], q, c, p) ==> needs[i] in r)
      && (forall n :: multiset(r)[n] == if Shown(n, q, c, p) then multiset(needs)[n] else 0)
  {
    FilterNeedsIsOneFilter(needs, q, c, p);
    forall n ensures multiset(FilterNeeds(needs, q, c, p))[n] == if Shown(n, q, c, p) then multiset(needs)[n] else 0 {
      FilterMultiset(needs, (m: Need) => Shown(m, q, c, p), n);
    }
  }

  /** With no active control the list is shown as fetched. */
  lemma NoFilterKeepsAll(needs: seq<Need>)
    ensures FilterNeeds(needs, "", ALL, ALL) == needs
  {
  }

  /** The body of the add-to-basket request. */
  datatype AddRequest = AddRequest(needId: NeedId, quantity: real)

  /** `handleAddToBasket`: always one unit of the chosen need. */
  function AddRequestFor(need: Need): (r: AddRequest)
    ensures r.needId == need.id && r.quantity == 1.0
  {
    AddRequest(need.id, 1.0)
  }

  /** The dashboard's request always passes the controller's request check,
      and is above stock exactly when less than one unit is left. */
  lemma AddRequestWellFormed(need: Need)
    ensures !BasketController.BadQuantity(Some(AddRequestFor(need).quantity))
    ensures AddRequestFor(need).quantity > need.quantity <==> need.quantity < 1.0
  {
  }
}
