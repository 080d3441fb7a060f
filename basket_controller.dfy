/**
 * The basket controller: a helper's basket (list, add-or-replace, change
 * quantity, remove) and checkout, which validates every item, then funds
 * each one (stock down, frequency count up, one transaction each) and
 * finally clears the caller's basket. Every operation is scoped to the
 * session's username.
 */
module BasketController {
  import opened Common
  import opened Models
  import opened Store

  // ---------------------------------------------------------------------
  // Views of the basket collection
  // ---------------------------------------------------------------------

  /** `Basket.find({ username })`: the user's items in stored order. */
  function ItemsOf(basket: seq<BasketItem>, username: string): seq<BasketItem>
  {
    Filter(basket, (b: BasketItem) => b.username == username)
  }

  /** What `Basket.deleteMany({ username })` leaves behind. */
  function Without(basket: seq<BasketItem>, username: string): seq<BasketItem>
  {
    Filter(basket, (b: BasketItem) => b.username != username)
  }

  /** Clearing one user's basket leaves every other user's basket as it was. */
  lemma {:induction false} WithoutKeepsOthers(basket: seq<BasketItem>, username: string, other: string)
    requires other != username
    ensures ItemsOf(Without(basket, username), other) == ItemsOf(basket, other)
  {
    if basket != [] {
      WithoutKeepsOthers(basket[1..], username, other);
    }
  }

  /** ... and nothing of that user's. */
  lemma {:induction false} WithoutClearsOwn(basket: seq<BasketItem>, username: string)
    ensures ItemsOf(Without(basket, username), username) == []
  {
    if basket != [] {
      WithoutClearsOwn(basket[1..], username);
    }
  }

  /** The unique (username, needId) index makes one user's items name
      pairwise different needs. */
  ghost predicate DistinctNeeds(items: seq<BasketItem>)
  {
    forall i, j :: 0 <= i < j < |items| ==> items[i].needId != items[j].needId
  }

  lemma OwnItemsDistinctNeeds(basket: seq<BasketItem>, username: string)
    requires UniqueOwnerNeed(basket)
    ensures DistinctNeeds(ItemsOf(basket, username))
  {
    var own := (b: BasketItem) => b.username == username;
    var R := (a: BasketItem, b: BasketItem) => a.username != b.username || a.needId != b.needId;
    FilterPairwise(basket, own, R);
  }

  /** A basket edit confined to `username`'s entries: a replacement or a
      removal at an index holding one of them, or an appended entry of theirs. */
  lemma OthersUnchangedByUpdate(basket: seq<BasketItem>, j: nat, x: BasketItem, username: string, other: string)
    requires j < |basket| && basket[j].username == username && x.username == username && other != username
    ensures ItemsOf(basket[j := x], other) == ItemsOf(basket, other)
    ensures ItemsOf(basket + [x], other) == ItemsOf(basket, other)
    ensures ItemsOf(basket[..j] + basket[j + 1..], other) == ItemsOf(basket, other)
  {
    var isO := (b: BasketItem) => b.username == other;
    FilterUpdateDropped(basket, j, x, isO);
    FilterAppend(basket, x, isO);
    FilterRemoveDropped(basket, j, isO);
  }

  /** Removing one entry keeps a relation that held between all earlier and
      later entries. */
  lemma RemovePairwise(s: seq<BasketItem>, j: nat, R: (BasketItem, BasketItem) -> bool)
    requires j < |s|
    requires forall a, b :: 0 <= a < b < |s| ==> R(s[a], s[b])
    ensures var t := s[..j] + s[j + 1..];
      forall a, b :: 0 <= a < b < |t| ==> R(t[a], t[b])
  {
    var t := s[..j] + s[j + 1..];
    forall a, b | 0 <= a < b < |t| ensures R(t[a], t[b]) {
      var a' := if a < j then a else a + 1;
      var b' := if b < j then b else b + 1;
      assert t[a] == s[a'] && t[b] == s[b'];
    }
  }

  // ---------------------------------------------------------------------
  // getBasket
  // ---------------------------------------------------------------------

  /** One entry of the `getBasket` reply: the item joined with its need. */
  datatype BasketLine = BasketLine(
    id: ItemId,
    quantity: real,
    name: string,
    description: string,
    cost: real,
    category: string,
    priority: string,
    isTimeSensitive: bool,
    frequencyCount: int)

  function Line(item: BasketItem, need: Need): BasketLine
  {
    BasketLine(item.id, item.quantity, need.name, need.description, need.cost,
               need.category, need.priority, need.isTimeSensitive, need.frequencyCount)
  }

  /** Every item's need still exists (otherwise `populate` yields null). */
  predicate AllNeedsPresent(items: seq<BasketItem>, needs: map<NeedId, Need>)
  {
    forall i :: 0 <= i < |items| ==> items[i].needId in needs
  }

  method GetBasket(db: Database, username: string) returns (r: Reply<seq<BasketLine>>)
    requires db.Valid()
    ensures var items := ItemsOf(db.basket, username);
      && (r.Ok? <==> AllNeedsPresent(items, db.needs))
      && (r.Err? ==> r == Err(SERVER_ERROR, "Failed to fetch basket"))
      && (r.Ok? ==> && r.status == OK
                    && |r.value| == |items|
                    && forall i :: 0 <= i < |items| ==> r.value[i] == Line(items[i], db.needs[items[i].needId]))
  {
    var items := ItemsOf(db.basket, username);
    var needs := db.needs;
    if !AllNeedsPresent(items, needs) {
      return Err(SERVER_ERROR, "Failed to fetch basket");
    }
    var lines := seq(|items|, i requires 0 <= i < |items| => Line(items[i], needs[items[i].needId]));
    r := Ok(OK, lines);
  }

  /** Every line of a user's basket reply is one of that user's own items. */
  lemma OnlyOwnLines(basket: seq<BasketItem>, username: string, i: nat)
    requires i < |ItemsOf(basket, username)|
    ensures exists j :: 0 <= j < |basket| && basket[j] == ItemsOf(basket, username)[i]
                        && basket[j].username == username
  {
    var x := ItemsOf(basket, username)[i];
    assert x in basket;
  }

  // ---------------------------------------------------------------------
  // addToBasket, updateBasketItem, removeFromBasket
  // ---------------------------------------------------------------------

  /** `findOne({ username, needId })`. */
  function FindOwnNeed(basket: seq<BasketItem>, username: string, needId: NeedId): Option<nat>
  {
    IndexWhere(basket, (b: BasketItem) => b.username == username && b.needId == needId)
  }

  /** `findOne({ _id: id, username })`. */
  function FindOwnItem(basket: seq<BasketItem>, username: string, id: ItemId): Option<nat>
  {
    IndexWhere(basket, (b: BasketItem) => b.id == id && b.username == username)
  }

  /** An item that exists but belongs to someone else is not found. */
  lemma ForeignItemNotFound(basket: seq<BasketItem>, username: string, j: nat)
    requires UniqueIds(basket) && j < |basket| && basket[j].username != username
    ensures FindOwnItem(basket, username, basket[j].id).None?
  {
    forall i | 0 <= i < |basket| ensures !(basket[i].id == basket[j].id && basket[i].username == username) {
      if i < j {
        assert basket[i].id != basket[j].id;
      } else if j < i {
        assert basket[j].id != basket[i].id;
      }
    }
  }

  /** The request check shared by add and update: `!quantity || quantity <= 0`.
      It lets a fraction such as 0.5 through. */
  predicate BadQuantity(quantity: Option<real>)
  {
    quantity.None? || quantity.value <= 0.0
  }

  /** `findOneAndUpdate({ username, needId }, { quantity }, { upsert: true })`:
      the user's entry for the need gets the new quantity, or a new entry is
      appended when there is none. */
  function Upsert(basket: seq<BasketItem>, username: string, needId: NeedId, q: real, nextId: nat): seq<BasketItem>
  {
    var j := FindOwnNeed(basket, username, needId);
    if j.Some? then basket[j.value := basket[j.value].(quantity := q)]
    else basket + [BasketItem(nextId, username, needId, q)]
  }

  /** Exactly one entry of `username` for `needId`, holding `q`. */
  ghost predicate HoldsOnce(basket: seq<BasketItem>, username: string, needId: NeedId, q: real)
  {
    exists j :: 0 <= j < |basket| && basket[j].username == username && basket[j].needId == needId
                && basket[j].quantity == q
                && forall i :: 0 <= i < |basket| && basket[i].username == username && basket[i].needId == needId ==> i == j
  }

  /** The upsert keeps the Basket schema and both unique indexes (the
      id counter moves on only when an entry is created), and leaves
      exactly one entry for the pair, holding `q`. */
  lemma UpsertKeepsBasketOk(basket: seq<BasketItem>, username: string, needId: NeedId, q: real, nextId: nat)
    requires BasketOk(basket, nextId) && username != "" && q >= 1.0
    ensures var nextId' := if FindOwnNeed(basket, username, needId).Some? then nextId else nextId + 1;
      BasketOk(Upsert(basket, username, needId, q, nextId), nextId')
    ensures HoldsOnce(Upsert(basket, username, needId, q, nextId), username, needId, q)
  {
    var j := FindOwnNeed(basket, username, needId);
    var b := Upsert(basket, username, needId, q, nextId);
    if j.Some? {
      assert forall i :: 0 <= i < |b| ==>
        b[i].id == basket[i].id && b[i].username == basket[i].username && b[i].needId == basket[i].needId;
      assert b[j.value].username == username && b[j.value].needId == needId && b[j.value].quantity == q;
    } else {
      assert b[|basket|] == BasketItem(nextId, username, needId, q);
      assert forall i :: 0 <= i < |basket| ==> b[i] == basket[i];
    }
  }

  /** The upsert leaves every other user's entries as they were. */
  lemma UpsertKeepsOthers(basket: seq<BasketItem>, username: string, needId: NeedId, q: real, nextId: nat, other: string)
    requires other != username
    ensures ItemsOf(Upsert(basket, username, needId, q, nextId), other) == ItemsOf(basket, other)
  {
    var j := FindOwnNeed(basket, username, needId);
    if j.Some? {
      OthersUnchangedByUpdate(basket, j.value, basket[j.value].(quantity := q), username, other);
    } else {
      FilterAppend(basket, BasketItem(nextId, username, needId, q), (b: BasketItem) => b.username == other);
    }
  }

  /** `addToBasket`: validate, then upsert on (username, needId). The upsert
      is modelled with the Basket schema's validators applied (see
      `FractionalQuantityAsWritten` for the code as written, whose upsert
      skips them): a quantity below 1 is refused with 500. */
  method AddToBasket(db: Database, username: string, needId: Option<NeedId>, quantity: Option<real>)
    returns (r: Reply<string>)
    requires db.Valid() && username != ""
    modifies db
    ensures db.Valid()
    ensures db.needs == old(db.needs) && db.transactions == old(db.transactions) && db.users == old(db.users)
    ensures needId.None? || BadQuantity(quantity) ==>
              r == Err(BAD_REQUEST, "Valid need_id and quantity are required")
    ensures needId.Some? && !BadQuantity(quantity) && needId.value !in old(db.needs) ==>
              r == Err(NOT_FOUND, "Need not found")
    ensures needId.Some? && !BadQuantity(quantity) && needId.value in old(db.needs)
            && quantity.value > old(db.needs)[needId.value].quantity ==>
              r == Err(BAD_REQUEST, "Requested quantity exceeds available quantity")
    ensures needId.Some? && !BadQuantity(quantity) && needId.value in old(db.needs)
            && quantity.value <= old(db.needs)[needId.value].quantity && quantity.value < 1.0 ==>
              r == Err(SERVER_ERROR, "Failed to add item to basket")
    ensures needId.Some? && !BadQuantity(quantity) && needId.value in old(db.needs)
            && 1.0 <= quantity.value <= old(db.needs)[needId.value].quantity ==>
              r == Ok(CREATED, "Item added to basket")
    ensures r.Err? ==> db.basket == old(db.basket) && db.nextId == old(db.nextId)
    ensures r.Ok? ==> && r == Ok(CREATED, "Item added to basket")
                      && needId.Some? && quantity.Some? && needId.value in old(db.needs)
                      && 1.0 <= quantity.value <= old(db.needs)[needId.value].quantity
    ensures r.Ok? ==> db.basket == Upsert(old(db.basket), username, needId.value, quantity.value, old(db.nextId))
    ensures r.Ok? ==> HoldsOnce(db.basket, username, needId.value, quantity.value)
    ensures forall other :: other != username ==> ItemsOf(db.basket, other) == ItemsOf(old(db.basket), other)
  {
    if needId.None? || BadQuantity(quantity) {
      return Err(BAD_REQUEST, "Valid need_id and quantity are required");
    }
    var nid, q := needId.value, quantity.value;
    if nid !in db.needs {
      return Err(NOT_FOUND, "Need not found");
    }
    if q > db.needs[nid].quantity {
      return Err(BAD_REQUEST, "Requested quantity exceeds available quantity");
    }
    if q < 1.0 {
      return Err(SERVER_ERROR, "Failed to add item to basket");
    }
    var before := db.basket;
    UpsertKeepsBasketOk(before, username, nid, q, db.nextId);
    forall other | other != username
      ensures ItemsOf(Upsert(before, username, nid, q, db.nextId), other) == ItemsOf(before, other) {
      UpsertKeepsOthers(before, username, nid, q, db.nextId, other);
    }
    db.basket := Upsert(before, username, nid, q, db.nextId);
    if FindOwnNeed(before, username, nid).None? {
      db.nextId := db.nextId + 1;
    }
    r := Ok(CREATED, "Item added to basket");
  }

  /** `updateBasketItem`: only the caller's own item, only within stock;
      `save` runs the Basket schema's validators, so a quantity below 1 is
      refused with 500. */
  method UpdateBasketItem(db: Database, username: string, id: ItemId, quantity: Option<real>)
    returns (r: Reply<string>)
    requires db.Valid()
    modifies db
    ensures db.Valid()
    ensures db.needs == old(db.needs) && db.transactions == old(db.transactions)
    ensures db.users == old(db.users) && db.nextId == old(db.nextId)
    ensures BadQuantity(quantity) ==> r == Err(BAD_REQUEST, "Valid quantity is required")
    ensures var j := FindOwnItem(old(db.basket), username, id);
      && (!BadQuantity(quantity) && j.None? ==> r == Err(NOT_FOUND, "Basket item not found"))
      && (!BadQuantity(quantity) && j.Some? && old(db.basket)[j.value].needId !in db.needs ==>
            r == Err(SERVER_ERROR, "Failed to update basket item"))
      && (!BadQuantity(quantity) && j.Some? && old(db.basket)[j.value].needId in db.needs
          && quantity.value > db.needs[old(db.basket)[j.value].needId].quantity ==>
            r == Err(BAD_REQUEST, "Requested quantity exceeds available quantity"))
      && (!BadQuantity(quantity) && j.Some? && old(db.basket)[j.value].needId in db.needs
          && quantity.value <= db.needs[old(db.basket)[j.value].needId].quantity && quantity.value < 1.0 ==>
            r == Err(SERVER_ERROR, "Failed to update basket item"))
      && (!BadQuantity(quantity) && j.Some? && old(db.basket)[j.value].needId in db.needs
          && 1.0 <= quantity.value <= db.needs[old(db.basket)[j.value].needId].quantity ==>
            r == Ok(OK, "Basket item updated"))
      && (r.Ok? ==> && r == Ok(OK, "Basket item updated") && j.Some?
                    && db.basket == old(db.basket)[j.value := old(db.basket)[j.value].(quantity := quantity.value)])
    ensures r.Err? ==> db.basket == old(db.basket)
    ensures forall other :: other != username ==> ItemsOf(db.basket, other) == ItemsOf(old(db.basket), other)
  {
    if BadQuantity(quantity) {
      return Err(BAD_REQUEST, "Valid quantity is required");
    }
    var j := FindOwnItem(db.basket, username, id);
    if j.None? {
      return Err(NOT_FOUND, "Basket item not found");
    }
    var k := j.value;
    var nid := db.basket[k].needId;
    if nid !in db.needs {
      return Err(SERVER_ERROR, "Failed to update basket item");
    }
    if quantity.value > db.needs[nid].quantity {
      return Err(BAD_REQUEST, "Requested quantity exceeds available quantity");
    }
    if quantity.value < 1.0 {
      return Err(SERVER_ERROR, "Failed to update basket item");
    }
    var before := db.basket;
    var item := before[k].(quantity := quantity.value);
    db.basket := before[k := item];
    forall other | other != username ensures ItemsOf(db.basket, other) == ItemsOf(before, other) {
      OthersUnchangedByUpdate(before, k, item, username, other);
    }
    r := Ok(OK, "Basket item updated");
  }

  /** `removeFromBasket`: `deleteOne({ _id: id, username })`. */
  method RemoveFromBasket(db: Database, username: string, id: ItemId) returns (r: Reply<string>)
    requires db.Valid()
    modifies db
    ensures db.Valid()
    ensures db.needs == old(db.needs) && db.transactions == old(db.transactions)
    ensures db.users == old(db.users) && db.nextId == old(db.nextId)
    ensures var j := FindOwnItem(old(db.basket), username, id);
      && (j.None? ==> r == Err(NOT_FOUND, "Basket item not found") && db.basket == old(db.basket))
      && (j.Some? ==> r == Ok(OK, "Item removed from basket")
                      && db.basket == old(db.basket)[..j.value] + old(db.basket)[j.value + 1..])
    ensures forall other :: other != username ==> ItemsOf(db.basket, other) == ItemsOf(old(db.basket), other)
  {
    var j := FindOwnItem(db.basket, username, id);
    if j.None? {
      return Err(NOT_FOUND, "Basket item not found");
    }
    var k := j.value;
    var before := db.basket;
    RemovePairwise(before, k, (a: BasketItem, b: BasketItem) => a.id != b.id);
    RemovePairwise(before, k, (a: BasketItem, b: BasketItem) => a.username != b.username || a.needId != b.needId);
    db.basket := before[..k] + before[k + 1..];
    assert forall i :: 0 <= i < |db.basket| ==> db.basket[i] in before;
    forall other | other != username ensures ItemsOf(db.basket, other) == ItemsOf(before, other) {
      OthersUnchangedByUpdate(before, k, before[k], username, other);
    }
    r := Ok(OK, "Item removed from basket");
  }

  // ---------------------------------------------------------------------
  // checkout
  // ---------------------------------------------------------------------

  /** The test of the validation pass for one item, against the needs as
      populated when the basket was loaded. */
  predicate Fundable(item: BasketItem, needs: map<NeedId, Need>)
  {
    item.needId in needs && item.quantity <= needs[item.needId].quantity
  }

  /** The validation pass: the reply of the first item that fails it. An
      item whose need was deleted is dereferenced as null, which ends in the
      generic 500; an item above stock gets 400 naming the need. */
  function ValidationFailure(items: seq<BasketItem>, needs: map<NeedId, Need>): (r: Option<Reply<nat>>)
    ensures r.None? <==> forall i :: 0 <= i < |items| ==> Fundable(items[i], needs)
    ensures r.Some? ==> r.value.Err?
    ensures forall i :: FirstUnfundable(items, needs, i) ==> r == Some(FailureReply(items[i], needs))
  {
    if items == [] then None
    else if items[0].needId !in needs then Some(Err(SERVER_ERROR, "Checkout failed"))
    else if items[0].quantity > needs[items[0].needId].quantity then
      Some(Err(BAD_REQUEST, "Insufficient quantity for " + needs[items[0].needId].name))
    else
      var rest := ValidationFailure(items[1..], needs);
      assert forall i :: 1 <= i < |items| ==> items[i] == items[1..][i - 1];
      assert forall i :: FirstUnfundable(items, needs, i) ==> FirstUnfundable(items[1..], needs, i - 1);
      rest
  }

  /** Item `i` is the first one the validation pass refuses. */
  predicate FirstUnfundable(items: seq<BasketItem>, needs: map<NeedId, Need>, i: int)
  {
    && 0 <= i < |items| && !Fundable(items[i], needs)
    && forall k :: 0 <= k < i ==> Fundable(items[k], needs)
  }

  /** The reply for an item that fails validation: 500 when its need is
      gone, 400 naming the need when the item is above its stock. */
  function FailureReply(item: BasketItem, needs: map<NeedId, Need>): Reply<nat>
  {
    if item.needId !in needs then Err(SERVER_ERROR, "Checkout failed")
    else Err(BAD_REQUEST, "Insufficient quantity for " + needs[item.needId].name)
  }

  /** Total quantity the items take from need `k` (the sum of the `$inc`s). */
  function QtyFor(items: seq<BasketItem>, k: NeedId): real
  {
    if items == [] then 0.0
    else QtyFor(items[..|items| - 1], k) + (if items[|items| - 1].needId == k then items[|items| - 1].quantity else 0.0)
  }

  /** Number of items for need `k` (each adds 1 to its frequency count). */
  function CountFor(items: seq<BasketItem>, k: NeedId): nat
  {
    if items == [] then 0
    else CountFor(items[..|items| - 1], k) + (if items[|items| - 1].needId == k then 1 else 0)
  }

  function Debit(n: Need, q: real, c: int): Need
  {
    n.(quantity := n.quantity - q, frequencyCount := n.frequencyCount + c)
  }

  /** The needs after the commit pass over `items`. */
  function Commit(needs: map<NeedId, Need>, items: seq<BasketItem>): (r: map<NeedId, Need>)
    ensures OnlyStockChanged(needs, r)
  {
    map k | k in needs :: Debit(needs[k], QtyFor(items, k), CountFor(items, k))
  }

  /** The same needs, differing at most in stock and frequency count. */
  predicate OnlyStockChanged(needs: map<NeedId, Need>, needs': map<NeedId, Need>)
  {
    && needs'.Keys == needs.Keys
    && forall k :: k in needs' ==>
         needs'[k] == needs[k].(quantity := needs'[k].quantity, frequencyCount := needs'[k].frequencyCount)
  }

  /** A transaction's total: the unit cost times the quantity funded. */
  function Price(cost: real, quantity: real): real
  {
    cost * quantity
  }

  /** The transactions the commit pass appends: one per item, with the cost
      the need had when the basket was loaded. */
  function Ledger(username: string, items: seq<BasketItem>, needs: map<NeedId, Need>, now: Time): (r: seq<Transaction>)
    requires AllNeedsPresent(items, needs)
    ensures |r| == |items|
  {
    if items == [] then []
    else Ledger(username, items[..|items| - 1], needs, now)
         + [Transaction(username, items[|items| - 1].needId, items[|items| - 1].quantity,
                        Price(needs[items[|items| - 1].needId].cost, items[|items| - 1].quantity), now)]
  }

  /** The ledger records each item once, in basket order, priced at the
      need's cost times the item's quantity. */
  lemma {:induction false} LedgerEntry(username: string, items: seq<BasketItem>, needs: map<NeedId, Need>, now: Time, i: nat)
    requires AllNeedsPresent(items, needs) && i < |items|
    ensures Ledger(username, items, needs, now)[i] ==
              Transaction(username, items[i].needId, items[i].quantity,
                          Price(needs[items[i].needId].cost, items[i].quantity), now)
  {
    var init := items[..|items| - 1];
    if i < |items| - 1 {
      LedgerEntry(username, init, needs, now, i);
    }
  }

  lemma {:induction false} QtyForAbsent(items: seq<BasketItem>, k: NeedId)
    requires forall i :: 0 <= i < |items| ==> items[i].needId != k
    ensures QtyFor(items, k) == 0.0
  {
    if items != [] {
      QtyForAbsent(items[..|items| - 1], k);
    }
  }

  /** Stock never goes negative: with pairwise different needs (the unique
      index) and every item validated, no need gives more than it has. */
  lemma {:induction false} NoOverdraw(items: seq<BasketItem>, needs: map<NeedId, Need>, k: NeedId)
    requires DistinctNeeds(items)
    requires forall i :: 0 <= i < |items| ==> Fundable(items[i], needs)
    requires k in needs && needs[k].quantity >= 0.0
    ensures QtyFor(items, k) <= needs[k].quantity
  {
    if items != [] {
      var init := items[..|items| - 1];
      var last := items[|items| - 1];
      if last.needId == k {
        QtyForAbsent(init, k);
      } else {
        NoOverdraw(init, needs, k);
      }
    }
  }

  /** Without the unique index the validation pass would not be enough:
      two entries of 3 for one need of stock 5 both pass, and take 6. */
  lemma OverdrawWithoutUniqueIndex()
    ensures var need := Need(0, "Blankets", "", 10.0, 5.0, "Other", "Medium", false, None, 0);
            var items := [BasketItem(1, "ann", 0, 3.0), BasketItem(2, "ann", 0, 3.0)];
            && (forall i :: 0 <= i < |items| ==> Fundable(items[i], map[0 := need]))
            && QtyFor(items, 0) > need.quantity
  {
    var items := [BasketItem(1, "ann", 0, 3.0), BasketItem(2, "ann", 0, 3.0)];
    assert items[..1] == [items[0]];
    assert items[..1][..0] == [];
  }

  lemma LedgerStep(username: string, items: seq<BasketItem>, needs: map<NeedId, Need>, now: Time, i: nat)
    requires i < |items| && AllNeedsPresent(items, needs)
    ensures AllNeedsPresent(items[..i], needs) && AllNeedsPresent(items[..i + 1], needs)
    ensures Ledger(username, items[..i + 1], needs, now) ==
              Ledger(username, items[..i], needs, now)
              + [Transaction(username, items[i].needId, items[i].quantity,
                             Price(needs[items[i].needId].cost, items[i].quantity), now)]
  {
    var pre := items[..i + 1];
    assert pre[..i] == items[..i];
    assert pre[i] == items[i];
    assert Ledger(username, pre, needs, now) ==
             Ledger(username, pre[..|pre| - 1], needs, now)
             + [Transaction(username, pre[i].needId, pre[i].quantity,
                            Price(needs[pre[i].needId].cost, pre[i].quantity), now)];
  }

  lemma CommitStep(needs: map<NeedId, Need>, items: seq<BasketItem>, i: nat)
    requires i < |items| && items[i].needId in needs
    ensures var before := Commit(needs, items[..i]);
      Commit(needs, items[..i + 1]) ==
        before[items[i].needId := Debit(before[items[i].needId], items[i].quantity, 1)]
  {
    assert items[..i + 1][..i] == items[..i];
  }

  /** The commit pass keeps every need valid, given the unique index and a
      validation pass that succeeded. */
  lemma CommitKeepsNeedsOk(needs: map<NeedId, Need>, items: seq<BasketItem>, nextId: nat)
    requires NeedsOk(needs, nextId)
    requires DistinctNeeds(items)
    requires forall i :: 0 <= i < |items| ==> Fundable(items[i], needs)
    ensures NeedsOk(Commit(needs, items), nextId)
  {
    forall k | k in needs ensures Commit(needs, items)[k].quantity >= 0.0 {
      NoOverdraw(items, needs, k);
    }
  }

  lemma PriceNonneg(cost: real, quantity: real)
    requires cost >= 0.0 && quantity >= 1.0
    ensures Price(cost, quantity) >= 0.0
  {
  }

  lemma LedgerEntryValid(username: string, items: seq<BasketItem>, needs: map<NeedId, Need>, now: Time, m: nat)
    requires AllNeedsPresent(items, needs) && m < |items|
    requires username != "" && items[m].quantity >= 1.0 && needs[items[m].needId].cost >= 0.0
    ensures ValidTransaction(Ledger(username, items, needs, now)[m])
  {
    LedgerEntry(username, items, needs, now, m);
    PriceNonneg(needs[items[m].needId].cost, items[m].quantity);
  }

  /** The transactions of a successful checkout meet the Transaction schema. */
  lemma LedgerOkAppend(prior: seq<Transaction>, username: string, items: seq<BasketItem>,
                       needs: map<NeedId, Need>, now: Time, nextId: nat)
    requires LedgerOk(prior) && username != "" && NeedsOk(needs, nextId)
    requires AllNeedsPresent(items, needs)
    requires forall i :: 0 <= i < |items| ==> items[i].quantity >= 1.0
    ensures LedgerOk(prior + Ledger(username, items, needs, now))
  {
    var l := Ledger(username, items, needs, now);
    forall m | 0 <= m < |l| ensures ValidTransaction(l[m]) {
      assert ValidNeed(needs[items[m].needId]);
      LedgerEntryValid(username, items, needs, now, m);
    }
    var t := prior + l;
    forall i | 0 <= i < |t| ensures ValidTransaction(t[i]) {
      if i < |prior| {
        assert t[i] == prior[i];
      } else {
        assert t[i] == l[i - |prior|];
      }
    }
  }

  lemma WithoutKeepsBasketOk(basket: seq<BasketItem>, username: string, nextId: nat)
    requires BasketOk(basket, nextId)
    ensures BasketOk(Without(basket, username), nextId)
  {
    var notU := (b: BasketItem) => b.username != username;
    FilterPairwise(basket, notU, (a: BasketItem, b: BasketItem) => a.id != b.id);
    FilterPairwise(basket, notU, (a: BasketItem, b: BasketItem) => a.username != b.username || a.needId != b.needId);
  }

  /** A successful checkout leaves every collection meeting its schema and
      indexes. */
  lemma CheckoutKeepsValid(needs: map<NeedId, Need>, basket: seq<BasketItem>, transactions: seq<Transaction>,
                           nextId: nat, username: string, now: Time)
    requires NeedsOk(needs, nextId) && BasketOk(basket, nextId) && LedgerOk(transactions) && username != ""
    requires AllNeedsPresent(ItemsOf(basket, username), needs)
    requires forall i :: 0 <= i < |ItemsOf(basket, username)| ==> Fundable(ItemsOf(basket, username)[i], needs)
    ensures NeedsOk(Commit(needs, ItemsOf(basket, username)), nextId)
    ensures BasketOk(Without(basket, username), nextId)
    ensures LedgerOk(transactions + Ledger(username, ItemsOf(basket, username), needs, now))
  {
    var items := ItemsOf(basket, username);
    OwnItemsDistinctNeeds(basket, username);
    CommitKeepsNeedsOk(needs, items, nextId);
    assert forall k :: 0 <= k < |items| ==> items[k] in basket;
    LedgerOkAppend(transactions, username, items, needs, now, nextId);
    WithoutKeepsBasketOk(basket, username, nextId);
  }

  /** The validation pass of `checkout`: no write happens in it. */
  method Validate(items: seq<BasketItem>, snapshot: map<NeedId, Need>) returns (failure: Option<Reply<nat>>)
    ensures failure == ValidationFailure(items, snapshot)
  {
    var i := 0;
    while i < |items|
      invariant 0 <= i <= |items|
      invariant ValidationFailure(items, snapshot) == ValidationFailure(items[i..], snapshot)
    {
      assert items[i..][1..] == items[i + 1..];
      if items[i].needId !in snapshot {
        return Some(Err(SERVER_ERROR, "Checkout failed"));
      }
      var need := snapshot[items[i].needId];
      if items[i].quantity > need.quantity {
        return Some(Err(BAD_REQUEST, "Insufficient quantity for " + need.name));
      }
      i := i + 1;
    }
    return None;
  }

  /** The commit pass of `checkout`: for each item, `$inc` the stored need
      (quantity down by the item's quantity, frequency count up by one) and
      record a transaction priced with the cost loaded with the basket. */
  method CommitPass(db: Database, username: string, items: seq<BasketItem>, snapshot: map<NeedId, Need>, now: Time)
    requires AllNeedsPresent(items, snapshot) && db.needs == snapshot
    modifies db
    ensures db.needs == Commit(snapshot, items)
    ensures db.transactions == old(db.transactions) + Ledger(username, items, snapshot, now)
    ensures db.basket == old(db.basket) && db.users == old(db.users) && db.nextId == old(db.nextId)
  {
    var i := 0;
    while i < |items|
      invariant 0 <= i <= |items|
      invariant db.needs == Commit(snapshot, items[..i])
      invariant db.transactions == old(db.transactions) + Ledger(username, items[..i], snapshot, now)
      invariant db.basket == old(db.basket) && db.users == old(db.users) && db.nextId == old(db.nextId)
    {
      var item := items[i];
      CommitStep(snapshot, items, i);
      LedgerStep(username, items, snapshot, now, i);
      var needs, transactions := db.needs, db.transactions;
      var totalCost := Price(snapshot[item.needId].cost, item.quantity);
      needs := needs[item.needId := Debit(needs[item.needId], item.quantity, 1)];
      transactions := transactions + [Transaction(username, item.needId, item.quantity, totalCost, now)];
      assert transactions == old(db.transactions) + Ledger(username, items[..i + 1], snapshot, now);
      db.needs, db.transactions := needs, transactions;
      i := i + 1;
    }
    assert items[..|items|] == items;
  }

  /** `checkout`: validate every item, then fund every item, then clear the
      caller's basket. */
  method Checkout(db: Database, username: string, now: Time) returns (r: Reply<nat>)
    requires db.Valid() && username != ""
    modifies db
    ensures db.Valid()
    ensures db.users == old(db.users) && db.nextId == old(db.nextId)
    ensures var items := ItemsOf(old(db.basket), username);
      && (items == [] ==> r == Err(BAD_REQUEST, "Basket is empty"))
      && (items != [] && ValidationFailure(items, old(db.needs)).Some? ==>
            r == ValidationFailure(items, old(db.needs)).value)
      && (r.Ok? <==> items != [] && ValidationFailure(items, old(db.needs)).None?)
      && (r.Ok? ==> && r == Ok(OK, |items|)
                    && db.needs == Commit(old(db.needs), items)
                    && AllNeedsPresent(items, old(db.needs))
                    && db.transactions == old(db.transactions) + Ledger(username, items, old(db.needs), now)
                    && db.basket == Without(old(db.basket), username))
    ensures r.Err? ==> db.needs == old(db.needs) && db.basket == old(db.basket) && db.transactions == old(db.transactions)
  {
    var items := ItemsOf(db.basket, username);
    var snapshot := db.needs;
    if |items| == 0 {
      return Err(BAD_REQUEST, "Basket is empty");
    }
    var failure := Validate(items, snapshot);
    if failure.Some? {
      return failure.value;
    }
    Fund(db, username, items, now);
    r := Ok(OK, |items|);
  }

  /** The writes of `checkout` once every item has passed validation: the
      commit pass, then the caller's basket cleared. */
  method Fund(db: Database, username: string, items: seq<BasketItem>, now: Time)
    requires db.Valid() && username != "" && items == ItemsOf(db.basket, username)
    requires forall i :: 0 <= i < |items| ==> Fundable(items[i], db.needs)
    modifies db
    ensures db.Valid()
    ensures db.users == old(db.users) && db.nextId == old(db.nextId)
    ensures AllNeedsPresent(items, old(db.needs))
    ensures db.needs == Commit(old(db.needs), items)
    ensures db.transactions == old(db.transactions) + Ledger(username, items, old(db.needs), now)
    ensures db.basket == Without(old(db.basket), username)
  {
    var snapshot := db.needs;
    CheckoutKeepsValid(snapshot, db.basket, db.transactions, db.nextId, username, now);
    CommitPass(db, username, items, snapshot, now);
    db.basket := Without(db.basket, username);
  }

  // ---------------------------------------------------------------------
  // checkout as written, with a fractional quantity in the basket
  // ---------------------------------------------------------------------

  // The upsert of addToBasket runs no schema validators, so a quantity such
  // as 0.5, which passes the request check, is stored although the Basket
  // schema asks for at least 1. Checkout then `$inc`s the need before
  // `Transaction.create` refuses the record (its schema too asks for at
  // least 1): the request ends in 500 with the stock already taken and the
  // basket not cleared, so every retry takes it again. The members below
  // model that path; AddToBasket above applies the validators instead.

  /** The transaction `checkout` creates for one item. */
  function Entry(username: string, item: BasketItem, snapshot: map<NeedId, Need>, now: Time): Transaction
    requires item.needId in snapshot
  {
    Transaction(username, item.needId, item.quantity, Price(snapshot[item.needId].cost, item.quantity), now)
  }

  /** The commit pass as written, item by item: the need's `$inc` first,
      then `Transaction.create`, which throws for a record its schema
      refuses. The result is the needs, the transactions created, and
      whether every item got through. */
  function CommitAsWritten(needs: map<NeedId, Need>, items: seq<BasketItem>, snapshot: map<NeedId, Need>,
                           username: string, now: Time): (r: (map<NeedId, Need>, seq<Transaction>, bool))
    requires AllNeedsPresent(items, snapshot)
    ensures |r.1| <= |items| && (r.2 ==> |r.1| == |items|)
    ensures forall i :: 0 <= i < |r.1| ==> r.1[i] == Entry(username, items[i], snapshot, now)
    decreases |items|
  {
    if items == [] then (needs, [], true)
    else
      var item := items[0];
      var debited := if item.needId in needs then needs[item.needId := Debit(needs[item.needId], item.quantity, 1)]
                     else needs;
      var t := Entry(username, item, snapshot, now);
      if !ValidTransaction(t) then (debited, [], false)
      else
        var rest := CommitAsWritten(debited, items[1..], snapshot, username, now);
        assert forall i :: 1 <= i < |items| ==> items[i] == items[1..][i - 1];
        (rest.0, [t] + rest.1, rest.2)
  }

  /** The pass stops at the first transaction its schema refuses: every
      transaction created is valid, and when the pass fails, the next
      item's is not. */
  lemma {:induction false} CommitAsWrittenStops(needs: map<NeedId, Need>, items: seq<BasketItem>,
                                                snapshot: map<NeedId, Need>, username: string, now: Time)
    requires AllNeedsPresent(items, snapshot)
    ensures var r := CommitAsWritten(needs, items, snapshot, username, now);
      && (forall i :: 0 <= i < |r.1| ==> ValidTransaction(r.1[i]))
      && (!r.2 ==> |r.1| < |items| && !ValidTransaction(Entry(username, items[|r.1|], snapshot, now)))
    decreases |items|
  {
    if items != [] {
      var item := items[0];
      var debited := if item.needId in needs then needs[item.needId := Debit(needs[item.needId], item.quantity, 1)]
                     else needs;
      if ValidTransaction(Entry(username, item, snapshot, now)) {
        CommitAsWrittenStops(debited, items[1..], snapshot, username, now);
        var rest := CommitAsWritten(debited, items[1..], snapshot, username, now);
        assert !rest.2 ==> items[1..][|rest.1|] == items[|rest.1| + 1];
      }
    }
  }

  /** `checkout` as written, on the collections' values: the reply, then the
      needs, the transactions and the basket afterwards. */
  function CheckoutAsWritten(needs: map<NeedId, Need>, basket: seq<BasketItem>, transactions: seq<Transaction>,
                             username: string, now: Time): (r: (Reply<nat>, map<NeedId, Need>, seq<Transaction>, seq<BasketItem>))
    ensures r.0.Ok? ==> r.3 == Without(basket, username)
    ensures r.0.Err? ==> r.3 == basket
  {
    var items := ItemsOf(basket, username);
    if items == [] then (Err(BAD_REQUEST, "Basket is empty"), needs, transactions, basket)
    else
      match ValidationFailure(items, needs)
      case Some(failure) => (failure, needs, transactions, basket)
      case None =>
        var c := CommitAsWritten(needs, items, needs, username, now);
        if c.2 then (Ok(OK, |items|), c.0, transactions + c.1, Without(basket, username))
        else (Err(SERVER_ERROR, "Checkout failed"), c.0, transactions + c.1, basket)
  }

  /** Half a blanket: the request passes addToBasket's checks, the stored
      entry breaks the Basket schema, and each checkout answers 500 yet
      takes another 0.5 from the stock, recording nothing. */
  lemma FractionalQuantityAsWritten()
    ensures var need := Need(0, "Blankets", "", 10.0, 5.0, "Other", "Medium", false, None, 0);
            var needs := map[0 := need];
            var basket := Upsert([], "ann", 0, 0.5, 1);
            var first := CheckoutAsWritten(needs, basket, [], "ann", 0);
            var second := CheckoutAsWritten(first.1, first.3, first.2, "ann", 0);
            && !BadQuantity(Some(0.5)) && 0.5 <= need.quantity
            && |basket| == 1 && !ValidBasketItem(basket[0])
            && first.0 == Err(SERVER_ERROR, "Checkout failed") && first.2 == [] && first.3 == basket
            && 0 in first.1 && first.1[0].quantity == 4.5
            && second.0 == first.0 && second.2 == [] && second.3 == basket
            && 0 in second.1 && second.1[0].quantity == 4.0
  {
    var need := Need(0, "Blankets", "", 10.0, 5.0, "Other", "Medium", false, None, 0);
    var needs := map[0 := need];
    var item := BasketItem(1, "ann", 0, 0.5);
    var basket := Upsert([], "ann", 0, 0.5, 1);
    assert basket == [item];
    assert ItemsOf(basket, "ann") == basket;
    assert Fundable(item, needs);
    var needs1 := needs[0 := Debit(need, 0.5, 1)];
    assert !ValidTransaction(Entry("ann", item, needs, 0));
    assert CommitAsWritten(needs, basket, needs, "ann", 0) == (needs1, [], false);
    assert needs1[0].quantity == 4.5;
    assert ValidationFailure(basket, needs) == None;
    var first := CheckoutAsWritten(needs, basket, [], "ann", 0);
    assert first.0 == Err(SERVER_ERROR, "Checkout failed");
    assert first.1 == needs1;
    assert first.2 == [];
    assert first.3 == basket;
    assert Fundable(item, needs1);
    assert ValidationFailure(basket, needs1) == None;
    var needs2 := needs1[0 := Debit(needs1[0], 0.5, 1)];
    assert !ValidTransaction(Entry("ann", item, needs1, 0));
    assert CommitAsWritten(needs1, basket, needs1, "ann", 0) == (needs2, [], false);
    assert needs2[0].quantity == 4.0;
  }
}
