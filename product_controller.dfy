/** server/controllers/productController.js: adding, listing, updating and
    soft-deleting products. The image upload is external: `uploaded` is the
    URL the image host returned for the request's file, None when the
    request carried no file. */
module ProductController {
  import opened Common
  import opened Strings
  import opened Models
  import opened Database

  /** `addProduct`. Without a file `uploadImage` throws (500); a document the
      schema rejects is not saved (500); otherwise one new product, not
      deleted, holding the uploaded URL. */
  method AddProduct(db: Store, name: string, description: Option<string>, price: int, stock: int,
                    category: Id, supplier: Id, uploaded: Option<string>) returns (status: Status, id: Id)
    requires db.Valid()
    modifies db
    ensures db.Valid()
    ensures db.categories == old(db.categories) && db.suppliers == old(db.suppliers)
    ensures db.users == old(db.users) && db.orders == old(db.orders)
    ensures status == Ok ==> id == old(db.nextId) && db.nextId == old(db.nextId) + 1
    ensures status != Ok ==> db.nextId == old(db.nextId)
    ensures status == Ok || status == ServerError
    ensures status == Ok <==> uploaded.Some? && NameOk(name) && price >= 0 && stock >= 0 && uploaded.value != ""
    ensures status == Ok ==>
      && id !in old(db.products)
      && db.products == old(db.products)[id := NewProduct(name, description, price, stock, category, supplier, uploaded.value)]
      && ValidProduct(db.products[id]) && !db.products[id].isDeleted
      && db.products[id].imageUrl == uploaded.value
    ensures status != Ok ==> db.products == old(db.products)
  {
    id := 0;
    if uploaded.None? {
      return ServerError, id;
    }
    var product := NewProduct(name, description, price, stock, category, supplier, uploaded.value);
    if !ValidProduct(product) {
      return ServerError, id;
    }
    id := db.FreshId();
    db.products := db.products[id := product];
    status := Ok;
  }

  /** The products `getProducts` lists: exactly the stored ones with
      `isDeleted == false`, unchanged. */
  function ActiveProducts(products: map<Id, Product>): (r: map<Id, Product>)
    ensures forall id :: id in r <==> id in products && !products[id].isDeleted
    ensures forall id :: id in r ==> r[id] == products[id]
  {
    map id | id in products && !products[id].isDeleted :: products[id]
  }

  /** The payload of `getProducts`: the live products with every category
      and every supplier. */
  datatype Listing = Listing(products: map<Id, Product>, categories: map<Id, Category>, suppliers: map<Id, Supplier>)

  function GetProducts(products: map<Id, Product>, categories: map<Id, Category>,
                       suppliers: map<Id, Supplier>): (r: Listing)
    ensures forall id :: id in r.products <==> id in products && !products[id].isDeleted
    ensures forall id :: id in r.products ==> r.products[id] == products[id]
    ensures r.categories == categories && r.suppliers == suppliers
  {
    Listing(ActiveProducts(products), categories, suppliers)
  }

  /** The record `updateProduct` leaves: the body fields overwrite the old
      ones through the trim setters, with no validators run; an absent
      description is dropped from the update and kept; the image URL is
      kept unless a new file was uploaded; `isDeleted` is never touched. */
  function UpdatedProduct(was: Product, name: string, description: Option<string>, price: int, stock: int,
                          category: Id, supplier: Id, uploaded: Option<string>): (p: Product)
    ensures p.name == Trim(name)
    ensures p.description == (if description.Some? then Some(Trim(description.value)) else was.description)
    ensures p.price == price && p.stock == stock && p.category == category && p.supplier == supplier
    ensures p.imageUrl == (if uploaded.Some? then uploaded.value else was.imageUrl)
    ensures p.isDeleted == was.isDeleted
  {
    var imageUrl := if uploaded.Some? then uploaded.value else was.imageUrl;
    var kept := if description.Some? then Some(Trim(description.value)) else was.description;
    was.(name := Trim(name), description := kept, price := price, stock := stock,
         category := category, supplier := supplier, imageUrl := imageUrl)
  }

  /** `updateProduct`: an unknown id is NotFound; otherwise only that
      product changes, to its `UpdatedProduct` record. */
  method UpdateProduct(db: Store, id: Id, name: string, description: Option<string>, price: int,
                       stock: int, category: Id, supplier: Id, uploaded: Option<string>)
    returns (status: Status)
    requires db.Valid()
    modifies db
    ensures db.Valid()
    ensures db.categories == old(db.categories) && db.suppliers == old(db.suppliers)
    ensures db.users == old(db.users) && db.orders == old(db.orders) && db.nextId == old(db.nextId)
    ensures id !in old(db.products) ==> status == NotFound && db.products == old(db.products)
    ensures id in old(db.products) ==>
      && status == Ok
      && db.products == old(db.products)[id := UpdatedProduct(old(db.products)[id], name, description, price,
                                                             stock, category, supplier, uploaded)]
  {
    if id !in db.products {
      return NotFound;
    }
    var was := db.products[id];
    var imageUrl := was.imageUrl;
    if uploaded.Some? {
      imageUrl := uploaded.value;
    }
    var kept := was.description;
    if description.Some? {
      kept := Some(Trim(description.value));
    }
    db.products := db.products[id := was.(name := Trim(name), description := kept, price := price, stock := stock,
                                          category := category, supplier := supplier, imageUrl := imageUrl)];
    status := Ok;
  }

  /** `deleteProduct`: a soft delete. Unknown ids are NotFound and a second
      delete is AlreadyDeleted, both changing nothing; otherwise only the
      flag of that one product is set and the record stays. */
  method DeleteProduct(db: Store, id: Id) returns (status: Status)
    requires db.Valid()
    modifies db
    ensures db.Valid()
    ensures db.categories == old(db.categories) && db.suppliers == old(db.suppliers)
    ensures db.users == old(db.users) && db.orders == old(db.orders) && db.nextId == old(db.nextId)
    ensures id !in old(db.products) ==> status == NotFound && db.products == old(db.products)
    ensures id in old(db.products) && old(db.products)[id].isDeleted ==>
      status == AlreadyDeleted && db.products == old(db.products)
    ensures id in old(db.products) && !old(db.products)[id].isDeleted ==>
      status == Ok && db.products == old(db.products)[id := old(db.products)[id].(isDeleted := true)]
  {
    if id !in db.products {
      return NotFound;
    }
    var product := db.products[id];
    if product.isDeleted {
      return AlreadyDeleted;
    }
    db.products := db.products[id := product.(isDeleted := true)];
    status := Ok;
  }

  /** A soft-deleted product leaves the listing, and nothing else does. */
  lemma SoftDeleteHidesOnlyThatProduct(products: map<Id, Product>, id: Id)
    requires id in products && !products[id].isDeleted
    ensures var after := products[id := products[id].(isDeleted := true)];
      && id in ActiveProducts(products) && id !in ActiveProducts(after)
      && ActiveProducts(after) == ActiveProducts(products) - {id}
  {
    var after := products[id := products[id].(isDeleted := true)];
    assert ActiveProducts(after).Keys == ActiveProducts(products).Keys - {id};
  }
}
