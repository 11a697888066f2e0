# Inventory system: a verified model of its business layer

This project models the business rules of a MERN inventory system in Dafny.
On the server side, an in-memory `Database.Store` stands for the MongoDB
collections. Over it run:

- the order controller: place an order, which checks and decrements stock, and list orders by role;
- the product, category, supplier and user controllers: add, list, update, delete;
- the dashboard summary.

The Mongoose schemas become records, constructors that apply the `trim`
setters and the defaults, and validity predicates that `save()` enforces.
Two unique indexes (category name, user email) are invariants of the store.

On the client side, the model covers:

- the cart of `StoreContext`: a class whose `cartItems` entries are updated one at a time, plus the `for…in` total loop;
- the cart page: the checkout loop that writes `quantity` into the food-list objects, and the fee and total it displays.

Each state-changing handler is a method on the store. Its contract gives
the status it answers and the whole new state, branch by branch, and says
that nothing else changes. Every method keeps `Valid()`: fresh ids and the
unique indexes. The pure parts are functions with lemmas about them, for example:

- a soft delete hides exactly one product from the listing but leaves the dashboard totals alone;
- a successful order lowers total stock by its quantity and raises revenue by its total;
- the best seller's quantity is the maximum over all ordered products;
- with the "user" role, the listing holds exactly the orders of the user the request path names, newest first (nothing checks that this is the requester; see Findings);
- adding an item that is on the food list and whose count is not negative raises the cart total by its price; removing an item that is on the food list and whose count is positive lowers it by its price; an item missing from the food list leaves the total alone;
- the cart rows' line totals add up to the displayed subtotal;
- an enabled checkout charges exactly the displayed total.

Modules: `Common` and `Strings` (common.dfy), `Models`, `Database`,
`OrderController`, `ProductController`, `CategoryController`,
`SupplierController`, `UserController`, `Dashboard`, `StoreContext`,
`CartPage`.

## Model

| member | source | states |
|---|---|---|
| Common.DeleteReplyAsWritten | server/controllers/categoryController.js:83-89 | as written, a hard delete answers ServerError exactly when nothing was deleted, and Ok otherwise; never NotFound |
| Strings.TrimStart | server/models/Product.js:7 | drops the leading white space; never lengthens the string |
| Strings.TrimEnd | server/models/Product.js:7 | drops the trailing white space; never lengthens the string |
| Strings.TrimStartOfClean | server/models/Supplier.js:7 | a string that does not start with white space is left as it is |
| Strings.TrimEndOfClean | server/models/Supplier.js:7 | a string that does not end with white space is left as it is |
| Strings.IsHttpUrl | server/models/Category.js:19-24 | `^https?://.+`: "http://" or "https://" followed by at least one character that is not a line terminator |
| Strings.Trim | server/models/Product.js:7 | the `trim: true` setter: never longer than its input; what it keeps and cuts is stated by TrimCuts |
| Strings.JsLength | server/models/Product.js:8 | the length `minlength` tests, in UTF-16 code units: at least the number of characters and at most twice it |
| Strings.TrimStartCuts | server/models/Product.js:7 | trimming the start drops a white-space prefix and leaves a suffix that does not start with white space |
| Strings.TrimEndCuts | server/models/Product.js:7 | trimming the end drops a white-space suffix and leaves a prefix that does not end with white space |
| Strings.TrimCuts | server/models/Category.js:8 | the trim setter stores a contiguous slice of the input with only white space cut on either side and none left at its ends |
| Strings.TrimIdempotent | server/models/Supplier.js:7 | trimming a stored (trimmed) value again leaves it unchanged |
| Models.NameOk | server/models/Product.js:5-9 | `required` + `trim` + `minlength: 2` on a name as the request gives it: the trimmed name is at least 2 UTF-16 code units long |
| Models.NameOkCountsCodeUnits | server/models/Supplier.js:8 | a one-character name passes `minlength: 2` iff that character lies outside the Basic Multilingual Plane |
| Models.NewProduct | server/models/Product.js:3-45 | a new product stores the trimmed name and the trimmed description (none when none is given), is not deleted, keeps price, stock, references and image URL, and is valid iff the trimmed name is 2+ UTF-16 code units long, price >= 0, stock >= 0 and the URL is non-empty |
| Models.ValidProduct | server/models/Product.js:3-40 | what `save()` validates: a name of 2+ UTF-16 code units, price >= 0, stock >= 0, an image URL present |
| Models.NewCategory | server/models/Category.js:3-25 | the stored name, description and image URL are the trimmed inputs, an absent optional one absent; the category is valid iff the trimmed name is 2+ UTF-16 code units long and a trimmed image URL matching `^https?://.+` is present |
| Models.ValidCategory | server/models/Category.js:3-25 | what `save()` validates: a name of 2+ UTF-16 code units and an image URL that matches `^https?://.+` |
| Models.NewSupplier | server/models/Supplier.js:3-21 | the stored name is the trimmed name and each given contact field (email, phone, address) is stored trimmed, an absent one absent; the supplier is valid iff the trimmed name is 2+ UTF-16 code units long |
| Models.ValidSupplier | server/models/Supplier.js:3-9 | what `save()` validates: a name of 2+ UTF-16 code units; the contact fields are optional |
| Models.Hash | server/controllers/userController.js:18 | the stored password is a digest of the supplied one, never the plaintext |
| Models.ParseRole | server/models/User.js:9 | an absent role defaults to "user"; "admin" and "user" are accepted; any other string is rejected |
| Models.NewUser | server/models/User.js:3-11 | a new user stores the given name, email, password, address and role, with `profilePic` "" and an empty `cartData` |
| Models.ViewOf | server/controllers/userController.js:48 | a user record without its password, as `select('-password')` returns it |
| Database.CategoryNameTaken | server/controllers/categoryController.js:10-11 | some category other than the one excepted already has the name |
| Database.UserEmailTaken | server/controllers/userController.js:12-13 | some user other than the one excepted already has the email |
| Database.CategoryReferenced | server/controllers/categoryController.js:75-76 | at least one product, soft-deleted or not, references the category |
| Database.SupplierReferenced | server/controllers/supplierController.js:77-78 | at least one product, soft-deleted or not, references the supplier |
| Database.Store.Valid | server/models/Category.js:7 | every stored id is below the id counter; no two categories share a name and no two users share an email (the unique indexes) |
| Database.Store.FreshId | server/controllers/productController.js:14 | a new document gets an id that no collection holds yet, and the store stays valid |
| OrderController.AddOrder | server/controllers/orderController.js:5-34 | unknown product: NotFound, nothing changes; quantity above stock: InsufficientStock, nothing changes; decremented product rejected by validation: ServerError, nothing changes; otherwise stock drops by the quantity (never below 0), then the order with the client's total is appended (Ok) or not saved (ServerError, stock stays decremented) |
| OrderController.OrdersOf | server/controllers/orderController.js:42-45 | keeps every order of the given user as often as it occurs, and no other order |
| OrderController.VisibleOrders | server/controllers/orderController.js:41-45 | the "user" role sees exactly the orders whose user is the path id; any other role sees all orders |
| OrderController.NewestFirst | server/controllers/orderController.js:57 | `sort({ orderDate: -1 })`: every order is dated no earlier than any later one |
| OrderController.Insert | server/controllers/orderController.js:57 | inserting into a newest-first list keeps it newest-first and adds exactly that order |
| OrderController.SortNewestFirst | server/controllers/orderController.js:57 | the result is newest-first and a permutation of the input |
| OrderController.GetOrders | server/controllers/orderController.js:36-59 | the listing is newest-first and a permutation of the visible orders |
| OrderController.UserSeesExactlyPathOrders | server/controllers/orderController.js:42-45 | a "user" is shown each order of the user the path names as often as it is stored, and no other order |
| OrderController.AdminSeesAllOrders | server/controllers/orderController.js:41-45 | an admin is shown every stored order, each once per occurrence |
| OrderController.GetOrdersAsWritten | server/controllers/orderController.js:36-45 | as written, the requester's id is never consulted: a "user" is shown exactly the orders of the path id, whoever asks |
| OrderController.UserReadsAnotherUsersOrders | server/controllers/orderController.js:38-45 | user 1 asking for the orders under path id 2 is shown user 2's order |
| OrderController.GetOrdersChecked | server/controllers/userController.js:45-47 | with the ownership check `getUser` makes: refused iff a "user" asks for another id; a "user" then sees exactly their own orders, newest first; any other role sees every order |
| ProductController.AddProduct | server/controllers/productController.js:7-34 | Ok iff a file was uploaded and the document passes the schema; then exactly one fresh, valid, not-deleted product holding the uploaded URL is added; otherwise ServerError and nothing changes |
| ProductController.ActiveProducts | server/controllers/productController.js:38 | the listed products are exactly the stored ones that are not soft-deleted, unchanged |
| ProductController.GetProducts | server/controllers/productController.js:36-43 | the listed products are exactly the stored ones that are not soft-deleted, each unchanged; all categories and suppliers come along |
| ProductController.UpdatedProduct | server/controllers/productController.js:54-76 | the updated record has the trimmed name, the trimmed description or the old one when none is sent, the new price, stock, category and supplier, the uploaded image URL or the old one, and the old deleted flag |
| ProductController.UpdateProduct | server/controllers/productController.js:51-78 | unknown id: NotFound, nothing changes; otherwise only that product changes, to its UpdatedProduct record |
| ProductController.DeleteProduct | server/controllers/productController.js:87-108 | unknown id: NotFound; already deleted: AlreadyDeleted; otherwise only that product's flag is set; the record stays |
| ProductController.SoftDeleteHidesOnlyThatProduct | server/controllers/productController.js:106 | after a soft delete the listing is the old listing minus exactly that product |
| CategoryController.CategoryAsWritten | server/controllers/categoryController.js:21-24 | the document built as written has the trimmed name and no image URL |
| CategoryController.CategoryAsWrittenIsRejected | server/controllers/categoryController.js:21-25 | as written, that document never passes the schema, so no category is ever added |
| CategoryController.AddCategory | server/controllers/categoryController.js:5-34 | a taken trimmed name: Duplicate; a document the schema rejects: ServerError; otherwise exactly one fresh category is added; other collections are unchanged |
| CategoryController.GetCategorys | server/controllers/categoryController.js:36-40 | returns every stored category |
| CategoryController.UpdateCategory | server/controllers/categoryController.js:48-63 | unknown id: NotFound; a name another category holds: ServerError from the unique index; otherwise only that category's name and description change |
| CategoryController.DeleteCategory | server/controllers/categoryController.js:71-89 | any referencing product, soft-deleted ones included: Conflict; unknown id: NotFound; otherwise only that category is removed |
| CategoryController.DeleteCategoryAsWritten | server/controllers/categoryController.js:71-89 | as written: Conflict when referenced; an unknown id answers ServerError with the categories unchanged; otherwise the category is removed |
| CategoryController.SoftDeletedProductStillBlocksDelete | server/controllers/categoryController.js:75-81 | a soft-deleted product still blocks deleting its category |
| SupplierController.SupplierEmailTaken | server/controllers/supplierController.js:10-15 | some stored supplier has the trimmed email; with no email given, some supplier has none |
| SupplierController.AddSupplier | server/controllers/supplierController.js:5-36 | a supplier with the same trimmed email, or with none when none is given: Duplicate; an invalid name: ServerError; otherwise exactly one fresh supplier is added |
| SupplierController.GetSuppliers | server/controllers/supplierController.js:38-41 | returns every stored supplier |
| SupplierController.UpdatedSupplier | server/controllers/supplierController.js:52-62 | the updated record has the trimmed name, and each contact field trimmed when sent or kept when not |
| SupplierController.UpdateSupplier | server/controllers/supplierController.js:49-64 | unknown id: NotFound; otherwise only that supplier changes, to its UpdatedSupplier record, with no email uniqueness check |
| SupplierController.DeleteSupplier | server/controllers/supplierController.js:73-93 | any referencing product, soft-deleted ones included: Conflict; unknown id: NotFound; otherwise only that supplier is removed |
| SupplierController.DeleteSupplierAsWritten | server/controllers/supplierController.js:73-93 | as written: Conflict when referenced; an unknown id answers ServerError with the suppliers unchanged; otherwise the supplier is removed |
| SupplierController.DistinctSupplierEmails | server/controllers/supplierController.js:10-15 | no two suppliers share an email, and at most one has none: what the add guard keeps |
| SupplierController.AddKeepsEmailsDistinct | server/controllers/supplierController.js:10-15 | a supplier the email guard lets in under a fresh id keeps all stored emails distinct |
| SupplierController.UpdateCanRepeatAnEmail | server/controllers/supplierController.js:59-62 | an update can give a supplier the email another supplier already has, breaking that distinctness |
| UserController.AddUser | server/controllers/userController.js:5-31 | a taken email: Duplicate; a role outside the enum: ServerError; otherwise exactly one fresh user holding the digest of the password and the defaults |
| UserController.GetUsers | server/controllers/userController.js:33-36 | returns every stored user |
| UserController.GetUser | server/controllers/userController.js:42-50 | another user's id: Forbidden; own id missing: NotFound; otherwise Ok with the own record minus the password, and only then |
| UserController.PasswordAfterUpdateAsWritten | server/controllers/userController.js:62-69 | as written, an absent password keeps the stored one, a non-empty one is hashed, and an empty one is stored as the plaintext "" |
| UserController.EmptyPasswordReplacesHash | server/controllers/userController.js:63-69 | as written, updating with an empty password replaces the hash by the plaintext "" |
| UserController.PasswordAfterUpdate | server/controllers/userController.js:62-69 | the stored password is kept or is the digest of a non-empty supplied one; a plaintext password is never introduced |
| UserController.UpdatedUser | server/controllers/userController.js:67-71 | the name, email and address are the sent ones or the old ones when not sent; the password follows PasswordAfterUpdate; role, picture and cart are kept |
| UserController.UpdateUser | server/controllers/userController.js:57-77 | unknown id: NotFound; an email another user holds: ServerError from the unique index; otherwise only that user is updated and returned without the password |
| UserController.DeleteUser | server/controllers/userController.js:85-93 | unknown id: NotFound; otherwise only that user is removed |
| UserController.DeleteUserAsWritten | server/controllers/userController.js:85-93 | as written: an unknown id answers ServerError with the users unchanged; otherwise the user is removed |
| UserController.UpdatesKeepPasswordsHashed | server/controllers/userController.js:62-69 | a hashed password stays hashed through any update |
| Dashboard.TotalProducts | server/controllers/dashboardController.js:7 | the number of stored products, soft-deleted ones included |
| Dashboard.TotalStock | server/controllers/dashboardController.js:10-13 | the sum of every product's stock, 0 with no product |
| Dashboard.TotalStockRemove | server/controllers/dashboardController.js:10-13 | the stock sum does not depend on the order in which products are added: any product can be taken out first |
| Dashboard.TotalStockUpdate | server/controllers/dashboardController.js:10-13 | replacing one product changes the stock sum by exactly the difference of the two stocks |
| Dashboard.OutOfStock | server/controllers/dashboardController.js:31 | exactly the products whose stock is 0 |
| Dashboard.LowStock | server/controllers/dashboardController.js:69 | exactly the products whose stock is 1 to 4, none of them out of stock |
| Dashboard.OrdersToday | server/controllers/dashboardController.js:16-22 | the count of orders dated within the window never exceeds the number of orders |
| Dashboard.Revenue | server/controllers/dashboardController.js:25-28 | the sum of every order's total price, 0 with no order |
| Dashboard.QuantitySold | server/controllers/dashboardController.js:37 | the summed quantity of one product's orders |
| Dashboard.OrdersTodayAppend | server/controllers/dashboardController.js:20-22 | one more order raises the count by one iff its date lies in the window, both bounds inclusive |
| Dashboard.RevenueAppend | server/controllers/dashboardController.js:25-28 | one more order raises the revenue by its total price, whatever its date |
| Dashboard.QuantitySoldAppend | server/controllers/dashboardController.js:37 | one more order raises its product's sold quantity by its quantity and leaves the others alone |
| Dashboard.ProductsOrdered | server/controllers/dashboardController.js:37 | the product ids the grouping stage produces a group for |
| Dashboard.BestFrom | server/controllers/dashboardController.js:37-39 | the scan returns an ordered product whose sold quantity is the maximum over all ordered products |
| Dashboard.TopSeller | server/controllers/dashboardController.js:36-39 | no orders: no top group; otherwise an ordered product whose summed quantity is at least every other product's |
| Dashboard.HighestSaleProduct | server/controllers/dashboardController.js:36-66 | no orders: the sentinel; a top product carries its name, its category's name and the maximal quantity; when every ordered product and its category exist, a top product is reported |
| Dashboard.GetSummary | server/controllers/dashboardController.js:4-83 | counts every product (deleted ones too); the out-of-stock and low-stock lists are disjoint; with no orders, revenue and today's count are 0 and the best seller is the sentinel |
| Dashboard.SuccessfulOrderMovesSummary | server/controllers/dashboardController.js:7-37 | a successful order leaves the product count, lowers total stock by its quantity, raises revenue by its total, counts today iff dated in the window, and adds its quantity to its product's sales |
| Dashboard.SoftDeleteKeepsProductFigures | server/controllers/dashboardController.js:7-13 | a soft delete changes neither the product count, the total stock, nor the stock alert lists |
| StoreContext.Keys | frontend/src/context/StoreContext.jsx:51 | the keys `for…in` visits |
| StoreContext.KeysCons | frontend/src/context/StoreContext.jsx:51 | the keys of an entry followed by a cart are that entry's key and the cart's keys |
| StoreContext.DistinctKeys | frontend/src/context/StoreContext.jsx:9 | an object holds each key once |
| StoreContext.Lookup | frontend/src/context/StoreContext.jsx:16 | an entry is found iff its key is in the cart, and then it is that key's count |
| StoreContext.SetQty | frontend/src/context/StoreContext.jsx:17-19 | the key gets the new count and every other key keeps its count; an existing key keeps its place, a new one goes last; keys stay distinct |
| StoreContext.Added | frontend/src/context/StoreContext.jsx:16-19 | the count `addToCart` stores: 1 for an absent, 0 or NaN count, otherwise one more |
| StoreContext.Removed | frontend/src/context/StoreContext.jsx:36 | the count `removeFromCart` stores: one less, NaN for an absent or NaN count |
| StoreContext.PositiveCount | frontend/src/context/StoreContext.jsx:53 | positive exactly when the stored count is a positive number, and then equal to it |
| StoreContext.Find | frontend/src/context/StoreContext.jsx:54 | the first food item with that id, or none exactly when no item has it |
| StoreContext.Share | frontend/src/context/StoreContext.jsx:53-58 | an entry adds price × count, or nothing when its count is not positive or no food item has its id |
| StoreContext.TotalCartAmount | frontend/src/context/StoreContext.jsx:49-61 | the sum over the cart's entries, in key order, of each entry's share |
| StoreContext.TotalAfterSetQty | frontend/src/context/StoreContext.jsx:49-61 | changing one entry moves the cart total by the new share minus the old one |
| StoreContext.TotalNonNegative | frontend/src/context/StoreContext.jsx:49-61 | with non-negative prices the cart total is never negative |
| StoreContext.ZeroCountsTotalZero | frontend/src/pages/Cart.jsx:140-144 | a cart showing the "empty" message (all counts 0, or no entries) totals 0 |
| StoreContext.Context.constructor | frontend/src/context/StoreContext.jsx:8-9 | the context starts with an empty food list and an empty cart |
| StoreContext.Context.AddToCart | frontend/src/context/StoreContext.jsx:14-20 | only that item's entry changes: absent, 0 or NaN becomes 1, any other number grows by 1 |
| StoreContext.Context.RemoveFromCart | frontend/src/context/StoreContext.jsx:33-36 | only that item's entry changes: a number drops by 1 with no lower bound, absent or NaN becomes NaN |
| StoreContext.Context.GetTotalCartAmount | frontend/src/context/StoreContext.jsx:49-62 | the loop returns the cart total, which is 0 for an empty cart |
| StoreContext.ShareAfterAdd | frontend/src/context/StoreContext.jsx:16-19 | one more of an item adds its price to its share unless the count was negative or the item is unknown |
| StoreContext.ShareAfterRemove | frontend/src/context/StoreContext.jsx:36 | one less of an item with a positive count takes its price off its share |
| StoreContext.AddToCartMovesTotal | frontend/src/context/StoreContext.jsx:14-20 | adding a known item raises the total by its price unless its count was negative; an unknown item leaves the total alone |
| StoreContext.RemoveFromCartMovesTotal | frontend/src/context/StoreContext.jsx:33-36 | removing an item with a positive count lowers the total by its price; otherwise the total stays |
| CartPage.InCart | frontend/src/pages/Cart.jsx:60-67 | the collected items are exactly the food items with a positive count, at most one entry per food-list position |
| CartPage.InCartSingle | frontend/src/pages/Cart.jsx:62-65 | a one-item food list yields that item iff its count is positive |
| CartPage.InCartAppend | frontend/src/pages/Cart.jsx:60-67 | the collected items of a concatenation are those of each part in turn: food-list order and multiplicity are kept |
| CartPage.RowsTotal | frontend/src/pages/Cart.jsx:100-123 | the sum over the food list of price × positive count, the line totals the page shows |
| CartPage.DistinctIds | frontend/src/pages/Cart.jsx:100 | no two food items share an id |
| CartPage.DeliveryFee | frontend/src/pages/Cart.jsx:167 | the fee shown is 0 iff the subtotal is 0, and otherwise the delivery charge |
| CartPage.CheckoutEnabled | frontend/src/pages/Cart.jsx:184 | the checkout button is enabled iff the subtotal is not 0 |
| CartPage.QuantityAfter | frontend/src/pages/Cart.jsx:62-64 | the `quantity` an item holds after checkout: its positive count, or what it held before |
| CartPage.DisplayedTotal | frontend/src/pages/Cart.jsx:175-177 | the total shown is the subtotal plus the fee shown |
| CartPage.CollectItems | frontend/src/pages/Cart.jsx:60-67 | the loop collects exactly the positive-count items in food-list order and writes each count into that item's own `quantity` field, changing nothing else |
| CartPage.PlaceOrder | frontend/src/pages/Cart.jsx:59-87 | the order holds the collected items and the cart total plus the delivery charge; the cart is emptied iff the server reports success |
| CartPage.RowsSplit | frontend/src/pages/Cart.jsx:100-123 | the rows' line totals split over the cart's first entry and the rest |
| CartPage.RowsOfOneEntry | frontend/src/pages/Cart.jsx:120-123 | with distinct food ids, the rows for one entry add up to that entry's share of the cart total |
| CartPage.RowsOfEmptyCart | frontend/src/pages/Cart.jsx:100-101 | an empty cart shows no line totals |
| CartPage.RowsAddUpToSubtotal | frontend/src/pages/Cart.jsx:120-159 | with distinct food ids, the line totals price × count add up to the subtotal shown |
| CartPage.CheckoutChargesDisplayedTotal | frontend/src/pages/Cart.jsx:175-184 | an enabled checkout charges exactly the total shown, which is the sum of the rows plus the delivery charge |

## Left out

- Strings.Trim: its own contract states only that the result is no longer than the input. What it keeps and cuts is stated by Strings.TrimCuts, which keeps the proofs about the stores small.
- Strings.IsSpace: the Unicode space separators U+1680, U+2000–U+200A, U+202F, U+205F and U+3000 are not counted as white space.
- OrderController.GetOrders: the order among orders with the same date is the model's; MongoDB promises none.
- Dashboard.HighestSaleProduct: when several products tie for the most sold, the first one in stored order is reported; MongoDB promises no tie order.
- Order storage: server/models/Order.js declares a different shape (`userId`, `items`, `amount`, `date`) from the one the order controller and the dashboard use (`user`, `product`, `quantity`, `totalPrice`, `orderDate`). The model follows the controller. Whether the database accepts the order is the `orderSaved` parameter of `AddOrder`, and its date is the `now` parameter.
- The `/order/place-order` handler that receives the cart page's order is not part of this model.
- HTTP plumbing is not modelled: routing, CORS, authentication middleware, server/server.js and server/controllers/authController.js. Status codes become `Status` tags.
- The update handlers send a second response after a 404 because a `return` is missing. The model answers NotFound.
- The clock: the dashboard's day window is the `startOfDay`/`endOfDay` parameters, in the server's local time zone.
- Path parameters are ids (`Id`, a natural number): a malformed path id such as `/order/abc`, which makes Mongoose throw a CastError answered 500, is not modelled.
- Request decoding is not modelled. Bodies arrive as JSON or form strings; the model takes typed values. Absent required fields are modelled only where an optional value is possible (`Option`). String comparison of `quantity` with the stock is not modelled, and `parseInt` is taken as the identity on integers.
- Trim setters on query filters: the category-name and supplier-email duplicate checks (Database.CategoryNameTaken as AddCategory calls it, SupplierController.SupplierEmailTaken) compare with the trimmed value, as Mongoose casts a filter on a trimmed path through its setter; the user email has no setter and is compared as sent.
- Absent fields on update: a field the request does not send is `undefined`, which `findByIdAndUpdate` drops from the update, so an `Option` value None keeps the stored field (UpdatedProduct, UpdatedSupplier, UpdatedUser, UpdateCategory).
- `findOne({ email })` with no email sent: the filter becomes a null match, which finds a record that has no email; SupplierController.SupplierEmailTaken states it that way.
- Prices, stock and amounts are integers. The source's floating-point numbers are not modelled.
- `populate` and the joins the listings do for display are left out: the listings return the stored records.
- `bcrypt.hash` is the abstract `Digest`; salting and its randomness are not modelled.
- The Cloudinary upload is external: its URL is the `uploaded` parameter, None when the request has no file.
- Timestamps (`createdAt`, `lastUpdated`) are not modelled.
- Concurrency is not modelled. Each handler runs atomically, so a race between a duplicate check and the save it guards is not captured.
- The client's network calls are not modelled: `/cart/add`, `/cart/remove`, `/cart/get`, the product fetch and `loadCartData`. Neither are `localStorage`, toasts and the invoice view. Server-side `cartData` is therefore never updated by the modelled operations. The user id of a checkout is a parameter.
- StoreContext.Context.AddToCart: the source tests the count of the current render but increments the pending state (`prev`). The model has one state, so it does not capture a difference between the two under batched updates.
- The cart's key order is insertion order. JavaScript lists integer-like keys first, which MongoDB ids never are.
- Food items carry only their id, price and `quantity`; names and images are display only.

## Findings

| source | as written | input that shows it | evidently intended | confidence | as-written member | corrected member |
|---|---|---|---|---|---|---|
| server/controllers/categoryController.js:21-25 | the new category is built from name and description only, but the schema requires `imageUrl`, so `save()` always fails and every non-duplicate add answers 500 | `addCategory` with `formCategory` "Tools" and an image file | store the uploaded image URL in `imageUrl` | high; not executed | CategoryController.CategoryAsWrittenIsRejected | CategoryController.AddCategory |
| server/controllers/categoryController.js:83-88 | when no category was deleted, the 404 branch reads `error.message` with no `error` in scope; the ReferenceError makes the catch answer 500 | `deleteCategory` with an id no category has and no product references | answer 404 Not Found | high; not executed | CategoryController.DeleteCategoryAsWritten | CategoryController.DeleteCategory |
| server/controllers/supplierController.js:87-92 | the same `error.message` with no `error` in scope, so 500 instead of 404 | `deleteSupplier` with an id no supplier has and no product references | answer 404 Not Found | high; not executed | SupplierController.DeleteSupplierAsWritten | SupplierController.DeleteSupplier |
| server/controllers/userController.js:89-92 | the same `error.message` with no `error` in scope, so 500 instead of 404 | `deleteUser` with an id no user has | answer 404 Not Found | high; not executed | UserController.DeleteUserAsWritten | UserController.DeleteUser |
| server/controllers/userController.js:63-69 | an empty password is falsy, so it skips hashing, but it is still passed to the update and replaces the stored hash with "" | `updateUser` with body `{ "password": "" }` | leave the stored hash alone unless a non-empty password is given | medium; not executed | UserController.EmptyPasswordReplacesHash | UserController.PasswordAfterUpdate |
| server/controllers/orderController.js:38-45 | the "user" filter takes the user id from the path and never compares it with the requester's id, unlike `getUser` | a "user" with id 1 requesting `/order/2` | refuse with 403 unless the path id is the requester's, as `getUser` does | medium; not executed | OrderController.UserReadsAnotherUsersOrders | OrderController.GetOrdersChecked |
