/** The Mongoose schemas (the files under server/models) as records, the documents the
    controllers build from a request body (with the schemas' setters and
    defaults applied), and the validity predicates `save()` enforces. */
module Models {
  import opened Common
  import opened Strings

  /** `required`, `trim` and `minlength: 2` on a name as the request gives
      it: the validators run on the trimmed value, so at least two UTF-16
      code units once the surrounding white space is cut off. */
  predicate NameOk(name: string)
  {
    JsLength(Trim(name)) >= 2
  }

  /** `minlength` counts UTF-16 code units: a name made of one character
      outside the Basic Multilingual Plane passes, one made of one other
      character does not. */
  lemma {:induction false} NameOkCountsCodeUnits(c: char)
    requires !IsSpace(c)
    ensures NameOk([c]) <==> c as int >= 0x1_0000
  {
    TrimStartOfClean([c]);
    TrimEndOfClean([c]);
    assert [c][1..] == [];
  }

  // ---------------------------------------------------------------- Product

  datatype Product = Product(
    name: string,
    description: Option<string>,
    price: int,
    stock: int,
    category: Id,
    supplier: Id,
    imageUrl: string,
    isDeleted: bool)

  /** server/models/Product.js, checked on a stored (already trimmed)
      document: name of at least two characters, price >= 0, stock >= 0, an
      image URL (the `category` and `supplier` references are present by
      construction). */
  predicate ValidProduct(p: Product)
  {
    JsLength(p.name) >= 2 && p.price >= 0 && p.stock >= 0 && p.imageUrl != ""
  }

  /** `new Product({...})`: the trim setters run and `isDeleted` takes its default. */
  function NewProduct(name: string, description: Option<string>, price: int, stock: int,
                      category: Id, supplier: Id, imageUrl: string): (p: Product)
    ensures !p.isDeleted
    ensures p.name == Trim(name)
    ensures description.None? ==> p.description.None?
    ensures description.Some? ==> p.description == Some(Trim(description.value))
    ensures p.price == price && p.stock == stock && p.category == category
      && p.supplier == supplier && p.imageUrl == imageUrl
    ensures ValidProduct(p) <==> NameOk(name) && price >= 0 && stock >= 0 && imageUrl != ""
  {
    Product(Trim(name), MapOption(description, Trim), price, stock, category, supplier, imageUrl, false)
  }

  // --------------------------------------------------------------- Category

  datatype Category = Category(name: string, description: Option<string>, imageUrl: Option<string>)

  /** server/models/Category.js: name, and an image URL that passes
      `/^https?:\/\/.+/` (name uniqueness is an index, see Database). */
  predicate ValidCategory(c: Category)
  {
    JsLength(c.name) >= 2 && c.imageUrl.Some? && IsHttpUrl(c.imageUrl.value)
  }

  function NewCategory(name: string, description: Option<string>, imageUrl: Option<string>): (c: Category)
    ensures c.name == Trim(name)
    ensures c.description == (if description.Some? then Some(Trim(description.value)) else None)
    ensures c.imageUrl == (if imageUrl.Some? then Some(Trim(imageUrl.value)) else None)
    ensures ValidCategory(c) <==> NameOk(name) && imageUrl.Some? && IsHttpUrl(Trim(imageUrl.value))
    ensures ValidCategory(c) ==> |c.imageUrl.value| >= 8
  {
    Category(Trim(name), MapOption(description, Trim), MapOption(imageUrl, Trim))
  }

  // --------------------------------------------------------------- Supplier

  datatype Supplier = Supplier(name: string, email: Option<string>, phone: Option<string>, address: Option<string>)

  /** server/models/Supplier.js: only the name is constrained; the contact fields are optional. */
  predicate ValidSupplier(s: Supplier)
  {
    JsLength(s.name) >= 2
  }

  function NewSupplier(name: string, email: Option<string>, phone: Option<string>, address: Option<string>): (s: Supplier)
    ensures ValidSupplier(s) <==> NameOk(name)
    ensures s.name == Trim(name)
    ensures s.email == (if email.Some? then Some(Trim(email.value)) else None)
    ensures s.phone == (if phone.Some? then Some(Trim(phone.value)) else None)
    ensures s.address == (if address.Some? then Some(Trim(address.value)) else None)
  {
    Supplier(Trim(name), MapOption(email, Trim), MapOption(phone, Trim), MapOption(address, Trim))
  }

  // ------------------------------------------------------------------- User

  /** The `role` enum of server/models/User.js. */
  datatype Role = AdminRole | UserRole

  /** A stored password. `Digest(p)` stands for `bcrypt.hash(p, 10)`, which
      the model does not compute; `Plain` is a value stored without hashing. */
  datatype Secret = Digest(of: string) | Plain(text: string)

  function Hash(password: string): (h: Secret)
    ensures h.Digest? && h.of == password
  {
    Digest(password)
  }

  datatype User = User(
    name: string,
    email: string,
    password: Secret,
    profilePic: string,
    address: string,
    role: Role,
    cartData: map<string, int>)

  /** The role a request body asks for, after the enum validator and the
      default: absent means "user"; a string outside the enum is rejected. */
  function ParseRole(requested: Option<string>): (r: Option<Role>)
    ensures requested.None? ==> r == Some(UserRole)
    ensures requested == Some("admin") ==> r == Some(AdminRole)
    ensures requested == Some("user") ==> r == Some(UserRole)
    ensures r.None? <==> requested.Some? && requested.value != "admin" && requested.value != "user"
  {
    match requested
    case None => Some(UserRole)
    case Some(s) => if s == "admin" then Some(AdminRole) else if s == "user" then Some(UserRole) else None
  }

  /** `new User({...})`: `profilePic` defaults to "" and `cartData` to {}. */
  function NewUser(name: string, email: string, password: Secret, address: string, role: Role): (u: User)
    ensures u.profilePic == "" && u.cartData == map[]
    ensures u.name == name && u.email == email && u.address == address
    ensures u.password == password && u.role == role
  {
    User(name, email, password, "", address, role, map[])
  }

  /** A user record with the password excluded (`select('-password')`). */
  datatype UserView = UserView(
    name: string,
    email: string,
    profilePic: string,
    address: string,
    role: Role,
    cartData: map<string, int>)

  function ViewOf(u: User): UserView
  {
    UserView(u.name, u.email, u.profilePic, u.address, u.role, u.cartData)
  }

  // ------------------------------------------------------------------ Order

  /** The order shape the order controller and the dashboard use. */
  datatype Order = Order(user: Id, product: Id, quantity: int, totalPrice: int, orderDate: int)
}
