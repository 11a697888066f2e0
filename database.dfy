/** The MongoDB database the controllers share, as one in-memory store: a
    map from id to document per collection, the orders in insertion order,
    and the counter new ids are drawn from. */
module Database {
  import opened Common
  import opened Models

  /** The unique index on Category.name (server/models/Category.js:7). */
  ghost predicate UniqueCategoryNames(categories: map<Id, Category>)
  {
    forall a, b :: a in categories && b in categories && a != b ==> categories[a].name != categories[b].name
  }

  /** The unique index on User.email (server/models/User.js:5). */
  ghost predicate UniqueUserEmails(users: map<Id, User>)
  {
    forall a, b :: a in users && b in users && a != b ==> users[a].email != users[b].email
  }

  /** True when some category other than `except` is already named `name`. */
  predicate CategoryNameTaken(categories: map<Id, Category>, name: string, except: Option<Id>)
  {
    exists id :: id in categories && Some(id) != except && categories[id].name == name
  }

  /** True when some user other than `except` already has `email`. */
  predicate UserEmailTaken(users: map<Id, User>, email: string, except: Option<Id>)
  {
    exists id :: id in users && Some(id) != except && users[id].email == email
  }

  /** How many products reference the category (`countDocuments({category: id})`),
      soft-deleted ones included, stated as "at least one". */
  predicate CategoryReferenced(products: map<Id, Product>, category: Id)
  {
    exists id :: id in products && products[id].category == category
  }

  predicate SupplierReferenced(products: map<Id, Product>, supplier: Id)
  {
    exists id :: id in products && products[id].supplier == supplier
  }

  class Store {
    var products: map<Id, Product>
    var categories: map<Id, Category>
    var suppliers: map<Id, Supplier>
    var users: map<Id, User>
    var orders: seq<Order>
    var nextId: Id

    /** Ids already handed out are below the counter, and the two unique
        indexes hold. */
    ghost predicate Valid()
      reads this
    {
      && (forall id :: id in products ==> id < nextId)
      && (forall id :: id in categories ==> id < nextId)
      && (forall id :: id in suppliers ==> id < nextId)
      && (forall id :: id in users ==> id < nextId)
      && UniqueCategoryNames(categories)
      && UniqueUserEmails(users)
    }

    constructor ()
      ensures Valid()
      ensures products == map[] && categories == map[] && suppliers == map[] && users == map[]
      ensures orders == [] && nextId == 0
    {
      products, categories, suppliers, users := map[], map[], map[], map[];
      orders := [];
      nextId := 0;
    }

    /** A fresh ObjectId: no collection holds it yet. */
    method FreshId() returns (id: Id)
      requires Valid()
      modifies this`nextId
      ensures Valid()
      ensures id == old(nextId) && nextId == id + 1
      ensures id !in products && id !in categories && id !in suppliers && id !in users
    {
      id := nextId;
      nextId := nextId + 1;
    }
  }
}
