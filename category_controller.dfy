/** server/controllers/categoryController.js: adding, listing, updating and
    deleting categories. */
module CategoryController {
  import opened Common
  import opened Strings
  import opened Models
  import opened Database

  /** The document `addCategory` builds AS WRITTEN: only the name and the
      description, never an image URL, although the route accepts an image
      file and the schema requires the URL. */
  function CategoryAsWritten(formCategory: string, formDescription: Option<string>): (c: Category)
    ensures c.name == Trim(formCategory) && c.imageUrl.None?
  {
    NewCategory(formCategory, formDescription, None)
  }

  /** So `newCategory.save()` always fails validation and, as written,
      `addCategory` never adds a category: every name that is not a
      duplicate ends in the 500 branch. */
  lemma CategoryAsWrittenIsRejected(formCategory: string, formDescription: Option<string>)
    ensures !ValidCategory(CategoryAsWritten(formCategory, formDescription))
  {
  }

  /** `addCategory`, with the uploaded image URL passed to the document as the
      schema requires. A category whose trimmed name is already taken is a
      Duplicate; a document the schema rejects is not saved (500); otherwise
      exactly one category is added. */
  method AddCategory(db: Store, formCategory: string, formDescription: Option<string>,
                     uploaded: Option<string>) returns (status: Status, id: Id)
    requires db.Valid()
    modifies db
    ensures db.Valid()
    ensures db.products == old(db.products) && db.suppliers == old(db.suppliers)
    ensures db.users == old(db.users) && db.orders == old(db.orders)
    ensures status == Ok ==> id == old(db.nextId) && db.nextId == old(db.nextId) + 1
    ensures status != Ok ==> db.nextId == old(db.nextId)
    ensures CategoryNameTaken(old(db.categories), Trim(formCategory), None) ==>
      status == Duplicate && db.categories == old(db.categories)
    ensures !CategoryNameTaken(old(db.categories), Trim(formCategory), None) ==>
      if ValidCategory(NewCategory(formCategory, formDescription, uploaded)) then
        && status == Ok && id !in old(db.categories)
        && db.categories == old(db.categories)[id := NewCategory(formCategory, formDescription, uploaded)]
      else
        status == ServerError && db.categories == old(db.categories)
  {
    id := 0;
    var name := Trim(formCategory);
    if CategoryNameTaken(db.categories, name, None) {
      return Duplicate, id;
    }
    var category := NewCategory(formCategory, formDescription, uploaded);
    if !ValidCategory(category) {
      return ServerError, id;
    }
    id := db.FreshId();
    db.categories := db.categories[id := category];
    status := Ok;
  }

  /** `getCategorys`: every stored category, unfiltered. */
  method GetCategorys(db: Store) returns (categories: map<Id, Category>)
    ensures categories == db.categories
  {
    categories := db.categories;
  }

  /** `updateCategory`: an unknown id is NotFound; a name another category
      already has is refused by the unique index (500); otherwise only the
      name and the description of that category are overwritten (an absent
      description is left as it was), with no validators run. */
  method UpdateCategory(db: Store, id: Id, formCategory: string, formDescription: Option<string>)
    returns (status: Status)
    requires db.Valid()
    modifies db
    ensures db.Valid()
    ensures db.products == old(db.products) && db.suppliers == old(db.suppliers)
    ensures db.users == old(db.users) && db.orders == old(db.orders) && db.nextId == old(db.nextId)
    ensures id !in old(db.categories) ==> status == NotFound && db.categories == old(db.categories)
    ensures id in old(db.categories) && CategoryNameTaken(old(db.categories), Trim(formCategory), Some(id)) ==>
      status == ServerError && db.categories == old(db.categories)
    ensures id in old(db.categories) && !CategoryNameTaken(old(db.categories), Trim(formCategory), Some(id)) ==>
      var was := old(db.categories)[id];
      var description := if formDescription.Some? then Some(Trim(formDescription.value)) else was.description;
      status == Ok && db.categories == old(db.categories)[id := was.(name := Trim(formCategory), description := description)]
  {
    if id !in db.categories {
      return NotFound;
    }
    var name := Trim(formCategory);
    if CategoryNameTaken(db.categories, name, Some(id)) {
      return ServerError;
    }
    var was := db.categories[id];
    var description := was.description;
    if formDescription.Some? {
      description := Some(Trim(formDescription.value));
    }
    db.categories := db.categories[id := was.(name := name, description := description)];
    status := Ok;
  }

  /** `deleteCategory`: refused while any product, soft-deleted or not,
      references the category; an unknown id is NotFound; otherwise the
      category is removed. */
  method DeleteCategory(db: Store, id: Id) returns (status: Status)
    requires db.Valid()
    modifies db
    ensures db.Valid()
    ensures db.products == old(db.products) && db.suppliers == old(db.suppliers)
    ensures db.users == old(db.users) && db.orders == old(db.orders) && db.nextId == old(db.nextId)
    ensures CategoryReferenced(old(db.products), id) ==>
      status == Conflict && db.categories == old(db.categories)
    ensures !CategoryReferenced(old(db.products), id) && id !in old(db.categories) ==>
      status == NotFound && db.categories == old(db.categories)
    ensures !CategoryReferenced(old(db.products), id) && id in old(db.categories) ==>
      status == Ok && db.categories == old(db.categories) - {id}
  {
    if CategoryReferenced(db.products, id) {
      return Conflict;
    }
    if id !in db.categories {
      return NotFound;
    }
    db.categories := db.categories - {id};
    status := Ok;
  }

  /** `deleteCategory` as written: `findByIdAndDelete` runs, and a missing id
      reaches the 404 branch that throws (DeleteReplyAsWritten), so it is
      answered ServerError, never NotFound, with the store unchanged. */
  method DeleteCategoryAsWritten(db: Store, id: Id) returns (status: Status)
    requires db.Valid()
    modifies db
    ensures db.Valid()
    ensures db.products == old(db.products) && db.suppliers == old(db.suppliers)
    ensures db.users == old(db.users) && db.orders == old(db.orders) && db.nextId == old(db.nextId)
    ensures CategoryReferenced(old(db.products), id) ==>
      status == Conflict && db.categories == old(db.categories)
    ensures !CategoryReferenced(old(db.products), id) && id !in old(db.categories) ==>
      status == ServerError && db.categories == old(db.categories)
    ensures !CategoryReferenced(old(db.products), id) && id in old(db.categories) ==>
      status == Ok && db.categories == old(db.categories) - {id}
  {
    if CategoryReferenced(db.products, id) {
      return Conflict;
    }
    var deleted := id in db.categories;
    db.categories := db.categories - {id};
    status := DeleteReplyAsWritten(deleted);
  }

  /** The guard counts soft-deleted products too: a category whose only
      product has been soft-deleted still cannot be removed. */
  lemma SoftDeletedProductStillBlocksDelete(products: map<Id, Product>, pid: Id)
    requires pid in products
    ensures var after := products[pid := products[pid].(isDeleted := true)];
      CategoryReferenced(after, products[pid].category)
  {
    var after := products[pid := products[pid].(isDeleted := true)];
    assert after[pid].category == products[pid].category;
  }
}
