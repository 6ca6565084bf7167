/** The MongoDB database the backend talks to, as three collections in one object. Because
    backend/models/Offer.js and backend/models/Activity.js both resolve to the model 'Activity',
    offers and activities live in the single `listings` collection. Ids come from one counter,
    so ascending id order is insertion order. */
module Store {
  import opened Models
  import Query

  /** No two users share an email address (the unique index on `email`). */
  predicate UniqueEmails(users: map<Id, User>) {
    forall a, b :: a in users && b in users && users[a].email == users[b].email ==> a == b
  }

  class Database {
    var users: map<Id, User>
    var listings: map<Id, Listing>
    var orders: map<Id, Order>
    var nextId: nat

    /** What every handler keeps: ids were handed out by the counter, emails are unique,
        every listing and order satisfies its schema, and no listing is over capacity. */
    ghost predicate Valid()
      reads this
    {
      && Query.IdsBelow(users, nextId)
      && Query.IdsBelow(listings, nextId)
      && Query.IdsBelow(orders, nextId)
      && UniqueEmails(users)
      && (forall k :: k in listings ==> ListingSchemaValid(listings[k]) && WithinCapacity(listings[k]))
      && (forall k :: k in orders ==> OrderSchemaValid(orders[k]))
    }

    /** An empty database. */
    constructor ()
      ensures Valid()
      ensures users == map[] && listings == map[] && orders == map[] && nextId == 0
    {
      users, listings, orders, nextId := map[], map[], map[], 0;
    }

    /** A fresh document id; no collection holds it yet. */
    method FreshId() returns (id: Id)
      requires Valid()
      modifies this
      ensures id == old(nextId) && nextId == id + 1
      ensures id !in users && id !in listings && id !in orders
      ensures users == old(users) && listings == old(listings) && orders == old(orders)
      ensures Valid()
    {
      id := nextId;
      nextId := nextId + 1;
    }

    /** Saves a new user whose email no stored user has. */
    method InsertUser(u: User) returns (id: Id)
      requires Valid()
      requires forall k :: k in users ==> users[k].email != u.email
      modifies this
      ensures id == old(nextId) && nextId == id + 1
      ensures users == old(users)[id := u] && listings == old(listings) && orders == old(orders)
      ensures Valid()
    {
      id := nextId;
      nextId := nextId + 1;
      users := users[id := u];
    }
  }
}
