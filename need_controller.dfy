/**
 * The need catalogue controller: listing, search, the priority ranking
 * and the manager's create / update / delete operations.
 */
module NeedController {
  import opened Common
  import opened Models
  import opened Store

  // ---------------------------------------------------------------------
  // Priority ranking (getNeedsByPriority)
  // ---------------------------------------------------------------------

  /** `priorityOrder`: High 3, Medium 2, Low 1 (no stored need has another value). */
  function Rank(priority: string): int
  {
    if priority == "High" then 3
    else if priority == "Medium" then 2
    else if priority == "Low" then 1
    else 0
  }

  /** The comparator handed to `Array.prototype.sort`: negative when `a`
      goes before `b`. Higher rank first, then time-sensitive first, then
      higher frequency count first; there is no further tie-break. */
  function Compare(a: Need, b: Need): (r: int)
    ensures r == 0 <==> Rank(a.priority) == Rank(b.priority) && a.isTimeSensitive == b.isTimeSensitive
                        && a.frequencyCount == b.frequencyCount
    ensures r < 0 <==> || Rank(a.priority) > Rank(b.priority)
                       || (Rank(a.priority) == Rank(b.priority) && a.isTimeSensitive && !b.isTimeSensitive)
                       || (Rank(a.priority) == Rank(b.priority) && a.isTimeSensitive == b.isTimeSensitive
                           && a.frequencyCount > b.frequencyCount)
  {
    if Rank(a.priority) != Rank(b.priority) then Rank(b.priority) - Rank(a.priority)
    else if a.isTimeSensitive != b.isTimeSensitive then (if b.isTimeSensitive then 1 else -1)
    else b.frequencyCount - a.frequencyCount
  }

  /** `a` may stand before `b` in a sorted result. */
  predicate InOrder(a: Need, b: Need)
  {
    Compare(a, b) <= 0
  }

  ghost predicate SortedByPriority(s: seq<Need>)
  {
    forall i, j :: 0 <= i < j < |s| ==> InOrder(s[i], s[j])
  }

  /** The comparator is a total preorder, so sorting by it is meaningful. */
  lemma InOrderTotalPreorder(a: Need, b: Need, c: Need)
    ensures InOrder(a, b) || InOrder(b, a)
    ensures Compare(a, b) == -Compare(b, a)
    ensures InOrder(a, b) && InOrder(b, c) ==> InOrder(a, c)
  {
  }

  /** Insertion of `x` into a sorted list, after every element that may
      precede it (so that equal elements keep their arrival order). */
  function Insert(s: seq<Need>, x: Need): (r: seq<Need>)
    requires SortedByPriority(s)
    ensures SortedByPriority(r)
    ensures multiset(r) == multiset(s) + multiset{x}
    decreases |s|, 0
  {
    if s == [] then [x]
    else if Compare(x, s[0]) < 0 then
      assert forall j :: 0 <= j < |s| ==> InOrder(x, s[j]) by {
        forall j | 0 <= j < |s| ensures InOrder(x, s[j]) {
          InOrderTotalPreorder(x, s[0], s[j]);
        }
      }
      [x] + s
    else
      var t := Insert(s[1..], x);
      assert s == [s[0]] + s[1..];
      InsertAfter(s[1..], x, s[0]);
      [s[0]] + t
  }

  /** A need that may precede every element and `x` may precede every
      element of the insertion. */
  lemma {:induction false} InsertAfter(s: seq<Need>, x: Need, h: Need)
    requires SortedByPriority(s) && InOrder(h, x)
    requires forall i :: 0 <= i < |s| ==> InOrder(h, s[i])
    ensures forall j :: 0 <= j < |Insert(s, x)| ==> InOrder(h, Insert(s, x)[j])
    decreases |s|, 1
  {
    if s != [] && Compare(x, s[0]) >= 0 {
      InsertAfter(s[1..], x, h);
    }
  }

  /** `needs.sort(comparator)`. The engine's sort is stable, so its result
      is the stable insertion sort's. */
  function SortByPriority(s: seq<Need>): (r: seq<Need>)
    ensures SortedByPriority(r)
    ensures multiset(r) == multiset(s)
  {
    if s == [] then []
    else
      assert s == s[..|s| - 1] + [s[|s| - 1]];
      Insert(SortByPriority(s[..|s| - 1]), s[|s| - 1])
  }

  /** Read off the ranking: High before Medium before Low; within a
      priority, time-sensitive first; within both, higher frequency first. */
  lemma PriorityOrder(s: seq<Need>, i: int, j: int)
    requires 0 <= i < j < |SortByPriority(s)|
    ensures var r := SortByPriority(s);
      && Rank(r[i].priority) >= Rank(r[j].priority)
      && (Rank(r[i].priority) == Rank(r[j].priority) ==> r[i].isTimeSensitive || !r[j].isTimeSensitive)
      && (Rank(r[i].priority) == Rank(r[j].priority) && r[i].isTimeSensitive == r[j].isTimeSensitive
          ==> r[i].frequencyCount >= r[j].frequencyCount)
  {
    var r := SortByPriority(s);
    assert InOrder(r[i], r[j]);
  }

  method GetNeedsByPriority(db: Database) returns (r: Reply<seq<Need>>)
    requires db.Valid()
    ensures r.Ok? && r.status == OK
    ensures |r.value| == |db.needs|
    ensures forall n :: multiset(r.value)[n] == if n in db.needs.Values then 1 else 0
    ensures SortedByPriority(r.value)
  {
    var all := db.FindAllNeeds();
    r := Ok(OK, SortByPriority(all));
    assert |multiset(r.value)| == |multiset(all)|;
  }

  // ---------------------------------------------------------------------
  // Reads
  // ---------------------------------------------------------------------

  // The list reads ask the database for `sort({ priority: -1,
  // isTimeSensitive: -1 })`. The database compares the priority strings,
  // so descending means Medium, then Low, then High. The members below
  // model that order as written and the order by rank that is evidently
  // meant (High first, as in getNeedsByPriority); the controllers use the
  // latter.

  /** Position of a priority in descending string order: "Medium" > "Low" > "High". */
  function StringRank(priority: string): int
  {
    if priority == "Medium" then 3
    else if priority == "Low" then 2
    else if priority == "High" then 1
    else 0
  }

  /** The ranks agree with the string comparison on the schema's values. */
  lemma StringRankIsStringOrder(a: string, b: string)
    requires a in PRIORITIES && b in PRIORITIES
    ensures StringRank(a) < StringRank(b) <==> LexLess(a, b)
  {
    assert "High"[0] == 'H' && "Low"[0] == 'L' && "Medium"[0] == 'M';
  }

  function TimeSensitiveBit(n: Need): int
  {
    if n.isTimeSensitive then 1 else 0
  }

  /** The sort key as written: priority by string, then time-sensitive first. */
  function ListKeyAsWritten(n: Need): int
  {
    2 * StringRank(n.priority) + TimeSensitiveBit(n)
  }

  /** The sort key as meant: priority by rank, then time-sensitive first. */
  function ListKey(n: Need): int
  {
    2 * Rank(n.priority) + TimeSensitiveBit(n)
  }

  function ListOrderAsWritten(s: seq<Need>): seq<Need>
  {
    SortDesc(s, ListKeyAsWritten)
  }

  function ListOrder(s: seq<Need>): seq<Need>
  {
    SortDesc(s, ListKey)
  }

  /** As written, a High need is listed after every Medium and Low need. */
  lemma HighListedLastAsWritten(s: seq<Need>, i: int, j: int)
    requires forall k :: 0 <= k < |s| ==> ValidNeed(s[k])
    requires 0 <= i < j < |ListOrderAsWritten(s)|
    requires ListOrderAsWritten(s)[i].priority == "High"
    ensures ListOrderAsWritten(s)[j].priority == "High"
  {
    var r := ListOrderAsWritten(s);
    assert r[j] in multiset(s);
    assert ListKeyAsWritten(r[i]) >= ListKeyAsWritten(r[j]);
  }

  /** A time-sensitive High need and a Low one come back Low first. */
  lemma HighAfterLowAsWritten()
    ensures var high := Need(0, "Insulin", "", 30.0, 2.0, "Medical", "High", true, None, 0);
            var low := Need(1, "Socks", "", 2.0, 40.0, "Clothing", "Low", false, None, 0);
            ListOrderAsWritten([high, low]) == [low, high]
  {
    var high := Need(0, "Insulin", "", 30.0, 2.0, "Medical", "High", true, None, 0);
    var low := Need(1, "Socks", "", 2.0, 40.0, "Clothing", "Low", false, None, 0);
    assert [high, low][..1] == [high];
    assert [high][..0] == [];
  }

  /** As meant: High before Medium before Low, and within a priority the
      time-sensitive needs first; the same two leading keys as the ranking
      of getNeedsByPriority. */
  lemma ListOrderRanks(s: seq<Need>, i: int, j: int)
    requires 0 <= i < j < |ListOrder(s)|
    ensures var r := ListOrder(s);
      && Rank(r[i].priority) >= Rank(r[j].priority)
      && (Rank(r[i].priority) == Rank(r[j].priority) ==> r[i].isTimeSensitive || !r[j].isTimeSensitive)
  {
    var r := ListOrder(s);
    assert ListKey(r[i]) >= ListKey(r[j]);
  }

  /** `getAllNeeds`: every stored need once, in the list order. */
  method GetAllNeeds(db: Database) returns (r: Reply<seq<Need>>)
    requires db.Valid()
    ensures r.Ok? && r.status == OK
    ensures forall n :: multiset(r.value)[n] == if n in db.needs.Values then 1 else 0
    ensures SortedDesc(r.value, ListKey)
  {
    var all := db.FindAllNeeds();
    r := Ok(OK, ListOrder(all));
  }

  method GetNeedById(db: Database, id: NeedId) returns (r: Reply<Need>)
    requires db.Valid()
    ensures id in db.needs ==> r == Ok(OK, db.needs[id])
    ensures id !in db.needs ==> r == Err(NOT_FOUND, "Need not found")
  {
    if id !in db.needs {
      return Err(NOT_FOUND, "Need not found");
    }
    r := Ok(OK, db.needs[id]);
  }

  predicate FalsyString(o: Option<string>) { o.None? || o.value == "" }
  predicate FalsyReal(o: Option<real>) { o.None? || o.value == 0.0 }

  /** `o || d` for a string field. */
  function OrString(o: Option<string>, d: string): string
  {
    if FalsyString(o) then d else o.value
  }

  /** The search condition, taking the query as a literal string. */
  predicate MatchesQuery(n: Need, q: string)
  {
    IncludesIgnoringCase(n.name, q) || IncludesIgnoringCase(n.description, q)
  }

  /** `searchNeeds`: a missing or empty `q` is refused; otherwise every
      stored need whose name or description contains `q` (ignoring case),
      each once, in the list order. */
  method SearchNeeds(db: Database, q: Option<string>) returns (r: Reply<seq<Need>>)
    requires db.Valid()
    ensures FalsyString(q) ==> r == Err(BAD_REQUEST, "Search query is required")
    ensures !FalsyString(q) ==> r.Ok? && r.status == OK
    ensures !FalsyString(q) ==>
              forall n :: multiset(r.value)[n] ==
                            if n in db.needs.Values && MatchesQuery(n, q.value) then 1 else 0
    ensures !FalsyString(q) ==> SortedDesc(r.value, ListKey)
  {
    if FalsyString(q) {
      return Err(BAD_REQUEST, "Search query is required");
    }
    var all := db.FindAllNeeds();
    var query := q.value;
    var found := Filter(all, (n: Need) => MatchesQuery(n, query));
    forall n: Need ensures multiset(found)[n] == if n in db.needs.Values && MatchesQuery(n, query) then 1 else 0 {
      FilterMultiset(all, (n: Need) => MatchesQuery(n, query), n);
    }
    r := Ok(OK, ListOrder(found));
  }

  /** `getNeedsByCategory`: every stored need of exactly that category, in
      the list order. */
  method GetNeedsByCategory(db: Database, category: string) returns (r: Reply<seq<Need>>)
    requires db.Valid()
    ensures r.Ok? && r.status == OK
    ensures forall n :: multiset(r.value)[n] ==
              if n in db.needs.Values && n.category == category then 1 else 0
    ensures SortedDesc(r.value, ListKey)
  {
    var all := db.FindAllNeeds();
    var found := Filter(all, (n: Need) => n.category == category);
    forall n: Need ensures multiset(found)[n] == if n in db.needs.Values && n.category == category then 1 else 0 {
      FilterMultiset(all, (n: Need) => n.category == category, n);
    }
    r := Ok(OK, ListOrder(found));
  }

  // ---------------------------------------------------------------------
  // Writes (manager only)
  // ---------------------------------------------------------------------

  /** The request body of create and update. `address`, `latitude` and
      `longitude` are read but are not Need schema fields, so the schema
      drops them. */
  datatype NeedBody = NeedBody(
    name: Option<string>,
    description: Option<string>,
    cost: Option<real>,
    quantity: Option<real>,
    category: Option<string>,
    priority: Option<string>,
    isTimeSensitive: Option<bool>,
    address: Option<string>,
    latitude: Option<real>,
    longitude: Option<real>)

  /** The document createNeed passes to `Need.create`, with its `||` defaults. */
  function CreateDoc(body: NeedBody): NeedDoc
  {
    NeedDoc(
      body.name,
      Some(OrString(body.description, "")),
      body.cost,
      body.quantity,
      Some(OrString(body.category, DEFAULT_CATEGORY)),
      Some(OrString(body.priority, DEFAULT_PRIORITY)),
      Some(body.isTimeSensitive.Some? && body.isTimeSensitive.value))
  }

  /** The truthiness test of createNeed: a falsy name, cost or quantity
      (absent, empty, or zero) is refused before the schema is consulted. */
  predicate CreateRefused(body: NeedBody)
  {
    FalsyString(body.name) || FalsyReal(body.cost) || FalsyReal(body.quantity)
  }

  /** Past the truthiness test, the schema refuses exactly a blank name, a
      negative cost or quantity, or a category or priority outside its enum. */
  lemma CreateDocAccepted(body: NeedBody)
    requires !CreateRefused(body)
    ensures DocAccepted(CreateDoc(body)) <==>
              && !IsBlank(body.name.value)
              && body.cost.value >= 0.0
              && body.quantity.value >= 0.0
              && OrString(body.category, DEFAULT_CATEGORY) in CATEGORIES
              && OrString(body.priority, DEFAULT_PRIORITY) in PRIORITIES
  {
  }

  method CreateNeed(db: Database, body: NeedBody) returns (r: Reply<Need>)
    requires db.Valid()
    modifies db
    ensures db.Valid()
    ensures db.basket == old(db.basket) && db.transactions == old(db.transactions) && db.users == old(db.users)
    ensures r.Err? ==> db.needs == old(db.needs)
    ensures (r.Err? && r.status == BAD_REQUEST) <==> CreateRefused(body)
    ensures (r.Err? && r.status == SERVER_ERROR) <==>
              && !CreateRefused(body)
              && (|| IsBlank(body.name.value)
                  || body.cost.value < 0.0
                  || body.quantity.value < 0.0
                  || OrString(body.category, DEFAULT_CATEGORY) !in CATEGORIES
                  || OrString(body.priority, DEFAULT_PRIORITY) !in PRIORITIES)
    ensures r.Err? ==> r.status == BAD_REQUEST || r.status == SERVER_ERROR
    ensures r.Ok? ==> && r.status == CREATED
                      && r.value.id !in old(db.needs)
                      && db.needs == old(db.needs)[r.value.id := r.value]
    ensures r.Ok? ==> && ValidNeed(r.value)
                      && r.value.name == Trim(body.name.value)
                      && r.value.description == OrString(body.description, "")
                      && r.value.cost == body.cost.value
                      && r.value.quantity == body.quantity.value
                      && r.value.category == OrString(body.category, DEFAULT_CATEGORY)
                      && r.value.priority == OrString(body.priority, DEFAULT_PRIORITY)
                      && r.value.isTimeSensitive == (body.isTimeSensitive == Some(true))
                      && r.value.deadline == None
                      && r.value.frequencyCount == 0
  {
    if CreateRefused(body) {
      return Err(BAD_REQUEST, "Name, cost, and quantity are required");
    }
    var id := db.nextId;
    CreateDocAccepted(body);
    var cast := CastNeed(id, CreateDoc(body));
    if cast.None? {
      return Err(SERVER_ERROR, "Failed to create need");
    }
    assert id !in db.needs;
    db.SaveNewNeed(cast.value);
    r := Ok(CREATED, cast.value);
  }

  /** The update validators: each field present in the body must satisfy
      its schema constraint (a name must not trim to the empty string). */
  predicate UpdateAccepted(body: NeedBody)
  {
    && (body.name.None? || !IsBlank(body.name.value))
    && (body.cost.None? || body.cost.value >= 0.0)
    && (body.quantity.None? || body.quantity.value >= 0.0)
    && (body.category.None? || body.category.value in CATEGORIES)
    && (body.priority.None? || body.priority.value in PRIORITIES)
  }

  /** `findByIdAndUpdate`: each present field replaces the stored one (the
      name trimmed); absent fields stay as they were. */
  function ApplyUpdate(n: Need, body: NeedBody): (r: Need)
    ensures r.id == n.id && r.deadline == n.deadline && r.frequencyCount == n.frequencyCount
    ensures body.name.Some? ==> r.name == Trim(body.name.value)
    ensures body.cost.Some? ==> r.cost == body.cost.value
    ensures body.quantity.Some? ==> r.quantity == body.quantity.value
    ensures body == NeedBody(None, None, None, None, None, None, None, None, None, None) ==> r == n
  {
    n.(name := if body.name.Some? then Trim(body.name.value) else n.name,
       description := OrElse(body.description, n.description),
       cost := OrElse(body.cost, n.cost),
       quantity := OrElse(body.quantity, n.quantity),
       category := OrElse(body.category, n.category),
       priority := OrElse(body.priority, n.priority),
       isTimeSensitive := OrElse(body.isTimeSensitive, n.isTimeSensitive))
  }

  /** An accepted update keeps a stored need valid, its id, its deadline
      and its frequency count. */
  lemma UpdateKeepsValid(n: Need, body: NeedBody)
    requires ValidNeed(n) && UpdateAccepted(body)
    ensures ValidNeed(ApplyUpdate(n, body))
    ensures ApplyUpdate(n, body).id == n.id
    ensures ApplyUpdate(n, body).frequencyCount == n.frequencyCount
    ensures ApplyUpdate(n, body).deadline == n.deadline
  {
    if body.name.Some? {
      TrimEmptyIffBlank(body.name.value);
      TrimmedIffFixed(body.name.value);
    }
  }

  method UpdateNeed(db: Database, id: NeedId, body: NeedBody) returns (r: Reply<Need>)
    requires db.Valid()
    modifies db
    ensures db.Valid()
    ensures db.basket == old(db.basket) && db.transactions == old(db.transactions) && db.users == old(db.users)
    ensures !UpdateAccepted(body) ==> r == Err(SERVER_ERROR, "Failed to update need")
    ensures UpdateAccepted(body) && id !in old(db.needs) ==> r == Err(NOT_FOUND, "Need not found")
    ensures UpdateAccepted(body) && id in old(db.needs) ==> r.Ok?
    ensures r.Err? ==> db.needs == old(db.needs)
    ensures r.Ok? ==> && r.status == OK
                      && id in old(db.needs)
                      && r.value == ApplyUpdate(old(db.needs)[id], body)
                      && db.needs == old(db.needs)[id := r.value]
  {
    if !UpdateAccepted(body) {
      return Err(SERVER_ERROR, "Failed to update need");
    }
    if id !in db.needs {
      return Err(NOT_FOUND, "Need not found");
    }
    var updated := ApplyUpdate(db.needs[id], body);
    UpdateKeepsValid(db.needs[id], body);
    db.needs := db.needs[id := updated];
    r := Ok(OK, updated);
  }

  /** `deleteNeed`. Basket items and transactions that refer to the need
      are left in place. */
  method DeleteNeed(db: Database, id: NeedId) returns (r: Reply<string>)
    requires db.Valid()
    modifies db
    ensures db.Valid()
    ensures db.basket == old(db.basket) && db.transactions == old(db.transactions) && db.users == old(db.users)
    ensures id !in old(db.needs) ==> r == Err(NOT_FOUND, "Need not found") && db.needs == old(db.needs)
    ensures id in old(db.needs) ==> r == Ok(OK, "Need deleted successfully") && db.needs == old(db.needs) - {id}
  {
    if id !in db.needs {
      return Err(NOT_FOUND, "Need not found");
    }
    db.needs := db.needs - {id};
    r := Ok(OK, "Need deleted successfully");
  }
}
