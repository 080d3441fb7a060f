/**
 * The back end's collections as one in-memory database: needs by id, the
 * basket collection in its natural (insertion) order, the append-only
 * transaction ledger and the user records. The controllers are methods
 * over this object.
 */
module Store {
  import opened Common
  import opened Models

  /** The Need schema holds of every stored need, and its key is its id. */
  ghost predicate NeedsOk(needs: map<NeedId, Need>, nextId: nat)
  {
    forall k :: k in needs ==> needs[k].id == k && ValidNeed(needs[k]) && k < nextId
  }

  /** The Basket schema and both unique indexes (on `_id`, and on
      (username, needId)) hold of the basket collection. */
  ghost predicate BasketOk(basket: seq<BasketItem>, nextId: nat)
  {
    && (forall i :: 0 <= i < |basket| ==> ValidBasketItem(basket[i]) && basket[i].id < nextId)
    && UniqueIds(basket)
    && UniqueOwnerNeed(basket)
  }

  ghost predicate LedgerOk(transactions: seq<Transaction>)
  {
    forall i :: 0 <= i < |transactions| ==> ValidTransaction(transactions[i])
  }

  ghost predicate UsersOk(users: map<string, User>)
  {
    forall u :: u in users ==> users[u].username == u
  }

  lemma BasketOkGrow(basket: seq<BasketItem>, nextId: nat, nextId': nat)
    requires BasketOk(basket, nextId) && nextId <= nextId'
    ensures BasketOk(basket, nextId')
  {
  }

  lemma NeedsOkInsert(needs: map<NeedId, Need>, nextId: nat, n: Need)
    requires NeedsOk(needs, nextId) && ValidNeed(n) && n.id == nextId
    ensures n.id !in needs && NeedsOk(needs[n.id := n], nextId + 1)
  {
  }

  /** `all` holds, once each, the stored needs whose keys are not in `rest`. */
  ghost predicate Taken(all: seq<Need>, needs: map<NeedId, Need>, rest: set<NeedId>)
  {
    forall n :: multiset(all)[n] == if n.id in needs && needs[n.id] == n && n.id !in rest then 1 else 0
  }

  /** One step of `FindAllNeeds`: the need under key `k` joins the result. */
  lemma TakeOne(all: seq<Need>, needs: map<NeedId, Need>, nextId: nat, rest: set<NeedId>, k: NeedId)
    requires NeedsOk(needs, nextId) && k in rest && rest <= needs.Keys
    requires Taken(all, needs, rest)
    ensures Taken(all + [needs[k]], needs, rest - {k})
  {
    forall n ensures multiset(all + [needs[k]])[n] ==
                       if n.id in needs && needs[n.id] == n && n.id !in rest - {k} then 1 else 0 {
      assert multiset(all + [needs[k]]) == multiset(all) + multiset{needs[k]};
    }
  }

  /** Once every key is taken, the result holds each stored need once. */
  lemma TakenAll(all: seq<Need>, needs: map<NeedId, Need>, nextId: nat)
    requires NeedsOk(needs, nextId)
    requires Taken(all, needs, {})
    ensures forall n :: multiset(all)[n] == if n in needs.Values then 1 else 0
  {
    forall n ensures multiset(all)[n] == if n in needs.Values then 1 else 0 {
      if n in needs.Values {
        var k :| k in needs && needs[k] == n;
        assert n.id == k;
      }
    }
  }

  class Database {
    var needs: map<NeedId, Need>
    var basket: seq<BasketItem>
    var transactions: seq<Transaction>
    var users: map<string, User>
    /** Source of fresh ObjectIds. */
    var nextId: nat

    /** What the schemas and the unique index guarantee of every stored document. */
    ghost predicate Valid()
      reads this
    {
      NeedsOk(needs, nextId) && BasketOk(basket, nextId) && LedgerOk(transactions) && UsersOk(users)
    }

    constructor ()
      ensures Valid()
      ensures needs == map[] && basket == [] && transactions == [] && users == map[]
    {
      needs, basket, transactions, users, nextId := map[], [], [], map[], 0;
    }

    /** The insert of `Need.create`: a cast need stored under a fresh id. */
    method SaveNewNeed(n: Need)
      requires Valid() && ValidNeed(n) && n.id == nextId
      modifies this
      ensures Valid()
      ensures needs == old(needs)[n.id := n] && nextId == old(nextId) + 1
      ensures basket == old(basket) && transactions == old(transactions) && users == old(users)
    {
      BasketOkGrow(basket, nextId, nextId + 1);
      NeedsOkInsert(needs, nextId, n);
      needs, nextId := needs[n.id := n], nextId + 1;
    }

    /** The user record login keeps: created with the given role on the
        first login, its last-login time refreshed on later ones. */
    method SaveLogin(u: string, role: string, now: Time)
      requires Valid()
      modifies this
      ensures Valid()
      ensures users == old(users)[u := if u in old(users) then old(users)[u].(lastLogin := now) else User(u, role, now)]
      ensures needs == old(needs) && basket == old(basket) && transactions == old(transactions) && nextId == old(nextId)
    {
      if u !in users {
        users := users[u := User(u, role, now)];
      } else {
        users := users[u := users[u].(lastLogin := now)];
      }
    }

    /** `Need.find()`: every stored need exactly once, in whatever order the
        collection yields them. */
    method FindAllNeeds() returns (all: seq<Need>)
      requires NeedsOk(needs, nextId)
      ensures |all| == |needs|
      ensures forall n :: multiset(all)[n] == if n in needs.Values then 1 else 0
    {
      var stored := needs;
      all := [];
      var rest := stored.Keys;
      while rest != {}
        invariant rest <= stored.Keys
        invariant |all| + |rest| == |stored.Keys|
        invariant Taken(all, stored, rest)
        decreases |rest|
      {
        var k :| k in rest;
        TakeOne(all, stored, nextId, rest, k);
        all := all + [stored[k]];
        rest := rest - {k};
      }
      assert |stored| == |stored.Keys|;
      TakenAll(all, needs, nextId);
    }
  }
}
