/** server/controllers/supplierController.js: adding, listing, updating and
    deleting suppliers. */
module SupplierController {
  import opened Common
  import opened Strings
  import opened Models
  import opened Database

  /** `Supplier.findOne({ email })` after the trim setter. An absent email
      is sent as null and so matches every supplier stored without one. */
  predicate SupplierEmailTaken(suppliers: map<Id, Supplier>, email: Option<string>)
  {
    exists id :: id in suppliers && suppliers[id].email == MapOption(email, Trim)
  }

  /** `addSupplier`: a supplier with the same email is a Duplicate (the key
      is the email, not the name); a document the schema rejects is not
      saved (500); otherwise exactly one supplier is added. */
  method AddSupplier(db: Store, name: string, email: Option<string>, phone: Option<string>,
                     address: Option<string>) returns (status: Status, id: Id)
    requires db.Valid()
    modifies db
    ensures db.Valid()
    ensures db.products == old(db.products) && db.categories == old(db.categories)
    ensures db.users == old(db.users) && db.orders == old(db.orders)
    ensures status == Ok ==> id == old(db.nextId) && db.nextId == old(db.nextId) + 1
    ensures status != Ok ==> db.nextId == old(db.nextId)
    ensures SupplierEmailTaken(old(db.suppliers), email) ==>
      status == Duplicate && db.suppliers == old(db.suppliers)
    ensures !SupplierEmailTaken(old(db.suppliers), email) && !NameOk(name) ==>
      status == ServerError && db.suppliers == old(db.suppliers)
    ensures !SupplierEmailTaken(old(db.suppliers), email) && NameOk(name) ==>
      && status == Ok && id !in old(db.suppliers)
      && db.suppliers == old(db.suppliers)[id := NewSupplier(name, email, phone, address)]
  {
    id := 0;
    if SupplierEmailTaken(db.suppliers, email) {
      return Duplicate, id;
    }
    var supplier := NewSupplier(name, email, phone, address);
    if !ValidSupplier(supplier) {
      return ServerError, id;
    }
    id := db.FreshId();
    db.suppliers := db.suppliers[id := supplier];
    status := Ok;
  }

  /** `getSuppliers`: every stored supplier. */
  method GetSuppliers(db: Store) returns (suppliers: map<Id, Supplier>)
    ensures suppliers == db.suppliers
  {
    suppliers := db.suppliers;
  }

  /** The record `updateSupplier` leaves: the four fields are overwritten
      through the trim setters, with no validator run; an absent contact
      field is dropped from the update and kept. */
  function UpdatedSupplier(was: Supplier, name: string, email: Option<string>, phone: Option<string>,
                           address: Option<string>): (s: Supplier)
    ensures s.name == Trim(name)
    ensures s.email == (if email.Some? then Some(Trim(email.value)) else was.email)
    ensures s.phone == (if phone.Some? then Some(Trim(phone.value)) else was.phone)
    ensures s.address == (if address.Some? then Some(Trim(address.value)) else was.address)
  {
    Supplier(Trim(name),
             if email.Some? then Some(Trim(email.value)) else was.email,
             if phone.Some? then Some(Trim(phone.value)) else was.phone,
             if address.Some? then Some(Trim(address.value)) else was.address)
  }

  /** `updateSupplier`: an unknown id is NotFound; otherwise only that
      supplier changes, to its `UpdatedSupplier` record. No check and no
      index guards the email here (UpdateCanRepeatAnEmail). */
  method UpdateSupplier(db: Store, id: Id, name: string, email: Option<string>, phone: Option<string>,
                        address: Option<string>) returns (status: Status)
    requires db.Valid()
    modifies db
    ensures db.Valid()
    ensures db.products == old(db.products) && db.categories == old(db.categories)
    ensures db.users == old(db.users) && db.orders == old(db.orders) && db.nextId == old(db.nextId)
    ensures id !in old(db.suppliers) ==> status == NotFound && db.suppliers == old(db.suppliers)
    ensures id in old(db.suppliers) ==>
      status == Ok && db.suppliers == old(db.suppliers)[id := UpdatedSupplier(old(db.suppliers)[id], name, email, phone, address)]
  {
    if id !in db.suppliers {
      return NotFound;
    }
    var was := db.suppliers[id];
    var updated := was.(name := Trim(name));
    if email.Some? {
      updated := updated.(email := Some(Trim(email.value)));
    }
    if phone.Some? {
      updated := updated.(phone := Some(Trim(phone.value)));
    }
    if address.Some? {
      updated := updated.(address := Some(Trim(address.value)));
    }
    db.suppliers := db.suppliers[id := updated];
    status := Ok;
  }

  /** `deleteSupplier`: refused while any product, soft-deleted or not,
      references the supplier; an unknown id is NotFound; otherwise a hard
      delete. */
  method DeleteSupplier(db: Store, id: Id) returns (status: Status)
    requires db.Valid()
    modifies db
    ensures db.Valid()
    ensures db.products == old(db.products) && db.categories == old(db.categories)
    ensures db.users == old(db.users) && db.orders == old(db.orders) && db.nextId == old(db.nextId)
    ensures SupplierReferenced(old(db.products), id) ==>
      status == Conflict && db.suppliers == old(db.suppliers)
    ensures !SupplierReferenced(old(db.products), id) && id !in old(db.suppliers) ==>
      status == NotFound && db.suppliers == old(db.suppliers)
    ensures !SupplierReferenced(old(db.products), id) && id in old(db.suppliers) ==>
      status == Ok && db.suppliers == old(db.suppliers) - {id}
  {
    if SupplierReferenced(db.products, id) {
      return Conflict;
    }
    if id !in db.suppliers {
      return NotFound;
    }
    db.suppliers := db.suppliers - {id};
    status := Ok;
  }

  /** `deleteSupplier` as written: `findByIdAndDelete` runs, and a missing id
      reaches the 404 branch that throws (DeleteReplyAsWritten), so it is
      answered ServerError, never NotFound, with the store unchanged. */
  method DeleteSupplierAsWritten(db: Store, id: Id) returns (status: Status)
    requires db.Valid()
    modifies db
    ensures db.Valid()
    ensures db.products == old(db.products) && db.categories == old(db.categories)
    ensures db.users == old(db.users) && db.orders == old(db.orders) && db.nextId == old(db.nextId)
    ensures SupplierReferenced(old(db.products), id) ==>
      status == Conflict && db.suppliers == old(db.suppliers)
    ensures !SupplierReferenced(old(db.products), id) && id !in old(db.suppliers) ==>
      status == ServerError && db.suppliers == old(db.suppliers)
    ensures !SupplierReferenced(old(db.products), id) && id in old(db.suppliers) ==>
      status == Ok && db.suppliers == old(db.suppliers) - {id}
  {
    if SupplierReferenced(db.products, id) {
      return Conflict;
    }
    var deleted := id in db.suppliers;
    db.suppliers := db.suppliers - {id};
    status := DeleteReplyAsWritten(deleted);
  }

  /** No two suppliers share an email, and at most one has none: what the
      `findOne({ email })` guard of `addSupplier` keeps. The schema has no
      unique index on the email, so nothing else enforces it. */
  ghost predicate DistinctSupplierEmails(suppliers: map<Id, Supplier>)
  {
    forall a, b :: a in suppliers && b in suppliers && a != b ==> suppliers[a].email != suppliers[b].email
  }

  /** A supplier that `addSupplier` lets in under a fresh id keeps the emails
      distinct. */
  lemma AddKeepsEmailsDistinct(suppliers: map<Id, Supplier>, id: Id, name: string, email: Option<string>,
                               phone: Option<string>, address: Option<string>)
    requires DistinctSupplierEmails(suppliers) && id !in suppliers
    requires !SupplierEmailTaken(suppliers, email)
    ensures DistinctSupplierEmails(suppliers[id := NewSupplier(name, email, phone, address)])
  {
    var s := NewSupplier(name, email, phone, address);
    assert s.email == MapOption(email, Trim);
  }

  /** An update can give a second supplier an email already stored: from
      two suppliers with distinct emails, rewriting the second with the
      first one's email breaks DistinctSupplierEmails. */
  lemma UpdateCanRepeatAnEmail(e: string, f: string)
    requires Trim(e) != Trim(f)
    ensures var suppliers := map[0 := NewSupplier("Acme", Some(e), None, None),
                                 1 := NewSupplier("Bolt", Some(f), None, None)];
      && DistinctSupplierEmails(suppliers)
      && !DistinctSupplierEmails(suppliers[1 := UpdatedSupplier(suppliers[1], "Bolt", Some(e), None, None)])
  {
    var suppliers := map[0 := NewSupplier("Acme", Some(e), None, None),
                         1 := NewSupplier("Bolt", Some(f), None, None)];
    var after := suppliers[1 := UpdatedSupplier(suppliers[1], "Bolt", Some(e), None, None)];
    assert after[0].email == after[1].email;
  }
}
