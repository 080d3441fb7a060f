/**
 * The three document schemas of the back end (Need, Basket, Transaction)
 * and the user record: one datatype each, the schema's constraints as a
 * validity predicate, and the schema's casting step (trim, defaults,
 * validators) for needs.
 */
module Models {
  import opened Common

  /** Document ids (MongoDB ObjectIds) are opaque; one id space for all collections. */
  type NeedId = nat
  type ItemId = nat
  /** Timestamps are opaque values supplied by the caller. */
  type Time = int

  // Costs and quantities are JSON numbers, which need not be whole: both
  // are `real` here, and only the schemas' `min` bounds constrain them.

  const CATEGORIES: seq<string> := ["Food", "Clothing", "Toiletries", "Medical", "Education", "Other"]
  const PRIORITIES: seq<string> := ["High", "Medium", "Low"]
  const DEFAULT_CATEGORY: string := "Other"
  const DEFAULT_PRIORITY: string := "Medium"

  /** A stored need (the Need schema plus its `_id`). */
  datatype Need = Need(
    id: NeedId,
    name: string,
    description: string,
    cost: real,
    quantity: real,
    category: string,
    priority: string,
    isTimeSensitive: bool,
    deadline: Option<Time>,
    frequencyCount: int)

  /** The Need schema's constraints: a required, trimmed name; cost and
      quantity at least 0; category and priority from their enums. */
  predicate ValidNeed(n: Need)
    ensures ValidNeed(n) ==> !IsBlank(n.name)
  {
    && n.name != ""
    && Trimmed(n.name)
    && n.cost >= 0.0
    && n.quantity >= 0.0
    && n.category in CATEGORIES
    && n.priority in PRIORITIES
  }

  /** A document handed to `Need.create`: every field may be absent. */
  datatype NeedDoc = NeedDoc(
    name: Option<string>,
    description: Option<string>,
    cost: Option<real>,
    quantity: Option<real>,
    category: Option<string>,
    priority: Option<string>,
    isTimeSensitive: Option<bool>)

  function OrElse<T>(o: Option<T>, d: T): T
  {
    if o.Some? then o.value else d
  }

  /** Whether a document passes the schema's validators once trimmed and defaulted. */
  predicate DocAccepted(doc: NeedDoc)
  {
    && doc.name.Some? && !IsBlank(doc.name.value)
    && doc.cost.Some? && doc.cost.value >= 0.0
    && doc.quantity.Some? && doc.quantity.value >= 0.0
    && OrElse(doc.category, DEFAULT_CATEGORY) in CATEGORIES
    && OrElse(doc.priority, DEFAULT_PRIORITY) in PRIORITIES
  }

  /** The schema's casting of a new document: `trim` on the name, the
      defaults for absent fields, then the validators (a failure is a
      ValidationError, `None` here). */
  function CastNeed(id: NeedId, doc: NeedDoc): (r: Option<Need>)
    ensures r.Some? <==> DocAccepted(doc)
    ensures r.Some? ==> ValidNeed(r.value) && r.value.id == id
    ensures r.Some? ==> r.value.name == Trim(doc.name.value)
    ensures r.Some? ==> && r.value.description == OrElse(doc.description, "")
                        && r.value.cost == doc.cost.value
                        && r.value.quantity == doc.quantity.value
                        && r.value.category == OrElse(doc.category, DEFAULT_CATEGORY)
                        && r.value.priority == OrElse(doc.priority, DEFAULT_PRIORITY)
                        && r.value.isTimeSensitive == OrElse(doc.isTimeSensitive, false)
                        && r.value.deadline == None
                        && r.value.frequencyCount == 0
  {
    if doc.name.None? || doc.cost.None? || doc.quantity.None? then None
    else
      var name := Trim(doc.name.value);
      TrimEmptyIffBlank(doc.name.value);
      TrimmedIffFixed(doc.name.value);
      var n := Need(id, name, OrElse(doc.description, ""), doc.cost.value, doc.quantity.value,
                    OrElse(doc.category, DEFAULT_CATEGORY), OrElse(doc.priority, DEFAULT_PRIORITY),
                    OrElse(doc.isTimeSensitive, false), None, 0);
      if ValidNeed(n) then Some(n) else None
  }

  /** A basket entry: one user's chosen quantity of one need. */
  datatype BasketItem = BasketItem(id: ItemId, username: string, needId: NeedId, quantity: real)

  /** The Basket schema: a required username, a quantity of at least 1. */
  predicate ValidBasketItem(b: BasketItem)
  {
    b.username != "" && b.quantity >= 1.0
  }

  /** The unique index on (username, needId). */
  ghost predicate UniqueOwnerNeed(items: seq<BasketItem>)
  {
    forall i, j :: 0 <= i < j < |items| ==>
      items[i].username != items[j].username || items[i].needId != items[j].needId
  }

  ghost predicate UniqueIds(items: seq<BasketItem>)
  {
    forall i, j :: 0 <= i < j < |items| ==> items[i].id != items[j].id
  }

  /** A funding record; never changed once appended. */
  datatype Transaction = Transaction(
    username: string,
    needId: NeedId,
    quantity: real,
    totalCost: real,
    transactionDate: Time)

  /** The Transaction schema: a required username, quantity at least 1,
      total cost at least 0. */
  predicate ValidTransaction(t: Transaction)
  {
    t.username != "" && t.quantity >= 1.0 && t.totalCost >= 0.0
  }

  /** A user record as the login controller keeps it. */
  datatype User = User(username: string, role: string, lastLogin: Time)

  const MANAGER: string := "manager"
  const HELPER: string := "helper"

  /** The signed-in user as the session store records it. */
  datatype SessionUser = SessionUser(username: string, role: string)

  /** `req.session.user`: absent before login, after logout, or with no session. */
  datatype Session = Anonymous | SignedIn(user: SessionUser)
}
