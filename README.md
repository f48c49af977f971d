# delivery-backend-v2, modelled in Dafny

A model of the Express/Mongoose back end of a drinks-delivery app, with proofs about it. It has two parts:

- **The per-user shopping cart and checkout of `server.js`.** This is a process-wide table from user id to a list of cart lines. It supports get, add-or-increment, remove and checkout, and checkout turns the cart into an order.
- **The keyed stores around it.** The product catalog (list filter, get-by-id, create, partial update, soft delete), the order collection, the user collection, registration and login, and the bearer-token and admin-role guards. The validity rules of the Product and Order schemas are modelled as predicates.

Each module follows one source file:

| module | file | form |
|---|---|---|
| `Common` | — | `Option`, `Result` (a 200 `Ok`, a 201 `Created` or an error), `Failure(status, message)`, JavaScript truthiness of an optional string, `a \|\| default` |
| `JsString` | — | `String.prototype.trim`, `replace` with a string pattern (first occurrence), case-insensitive substring |
| `ProductModel` | `src/models/Product.js` | record, validity predicate, `create` with setters, defaults and validators, update validators |
| `OrderModel` | `src/models/Order.js` | record, validity predicate, `create` with defaults and validators |
| `Catalog` | `src/controllers/productController.js`, product routes of `server.js` | class `ProductStore` over `map<Id, Product>` |
| `OrderController` | `src/controllers/OrderController.js` | class `OrderStore` over `map<Id, Order>` |
| `Users` | `src/controllers/userController.js` | class `UserStore` over `map<Id, User>` |
| `Accounts` | `src/controllers/authController.js` | `Register` mutates a `UserStore`; `Login` and `GenerateToken` are pure |
| `Guard` | `src/middleware/auth.js` | pure decisions: token extraction, `auth`, `adminAuth` |
| `Server` | `server.js` | class `CartService` holding `userCarts` and the order list; pure `Total`, `AddLine`, `Without` specify its methods |

### Modelling choices

- **Money and numbers.** Prices, totals and the delivery fee are integer cents, so 5.00 is 500. Quantities are unbounded integers.
- **Store failures.** A store answer of "no such document" is a missing map key. A failure of the database itself is a parameter: `storageError` for checkout, and `lookupFails` for the user lookups in the guards.
- **Database-assigned ids.** Ids are method parameters. The callee is required to receive a fresh one (`newId !in store`).
- **Signing and hashing.** Signing a credential (`sign: Claims -> Token`), verifying one (`verify: Token -> Option<Claims>`) and comparing a password with its stored secret (`checkPassword`) are function parameters. Their internals are not modelled.
- **Missing body fields.** A request body field that may be missing is an `Option`. JavaScript truthiness of a string, as in `if (!name)`, is `Present`: the value exists and is not "".
- **Order listing.** `GET /api/orders` sorts by creation stamp, newest first. The model keeps orders in creation order and lists them in reverse.
- **The model follows the code where it is looser than one might expect:**
  - The order updates of `OrderController.js` run no validators, so any status can be stored and no transition is enforced.
  - The cart's add route checks only that the product exists, not that it is active or that the quantity is positive.
  - Checkout and clearing the cart are not atomic: the cart is emptied only after the order is stored.

## Model

| member | source | states |
|---|---|---|
| `Server.CartService.GetCart` | server.js:297-316 | returns the user's lines, or no lines when the user has no cart; the total is the Σ price×quantity fold of those lines and the count is their number |
| `Server.FindLine` | server.js:336 | the loop returns the index of the first line for the product, with no earlier line for it, or -1 exactly when no line has that product |
| `Server.CartService.Add` | server.js:319-362 | an unknown product answers 404 "Produto não encontrado" and leaves every cart unchanged; otherwise only this user's cart changes: it is created empty if missing and becomes `AddLine` of the old cart; the quantity defaults to 1; no isActive or sign check; one line per product is kept |
| `Server.AddLineIncrements` | server.js:336-339 | when the product already has a line (the first at i), adding only increases that line's quantity by the amount; the length and all other lines are unchanged |
| `Server.AddLineAppends` | server.js:340-347 | when the product has no line, adding appends exactly one line holding a snapshot of the product's id, name, price and imageUrl and the requested quantity; earlier lines are unchanged |
| `Server.AddLineKeepsUnique` | server.js:336-347 | adding preserves the invariant of at most one line per product |
| `Server.AddLineTotal` | server.js:336-347 | adding raises the `reduce` total (line 302) by quantity × the price stored on the line it lands on, or × the product's price when a new line is pushed |
| `Server.AddLineTwice` | server.js:336-347 | adding the same product twice equals adding once with the summed quantity, keeping the first snapshot |
| `Server.Without` | server.js:369 | the filtered cart is no longer and holds no line for the product |
| `Server.WithoutMembers` | server.js:369 | a line survives the filter exactly when it was in the cart and is for another product |
| `Server.WithoutAppend` | server.js:369 | the filter distributes over concatenation, so kept lines keep their order |
| `Server.WithoutAbsent` | server.js:368-369 | removing a product with no line leaves the cart unchanged |
| `Server.WithoutAt` | server.js:369 | when line i is the only line for the product, removal gives exactly the cart with line i cut out |
| `Server.WithoutKeepsUnique` | server.js:369 | removal preserves the invariant of at most one line per product |
| `Server.WithoutTotal` | server.js:369 | in a cart with one line per product, removal lowers the total by exactly the removed line's subtotal |
| `Server.AddThenRemove` | server.js:319-375 | adding a product that had no line and then removing it gives back the original cart |
| `Server.TotalAppend` | server.js:302 | the reduce total of two concatenated carts is the sum of their totals |
| `Server.CartService.Remove` | server.js:364-384 | with a cart, only this user's cart changes and becomes the filtered cart; with no cart nothing changes and no cart is created; the answer is the cart or no lines |
| `Server.OrderFromCart` | server.js:399-408 | the order carries the user, the cart lines as items, their total, status "pending", the address or 'Endereço não informado' when missing or empty, and the payment method or 'cash' |
| `Server.CartService.Checkout` | server.js:387-425 | an empty or missing cart answers 400 "Carrinho vazio" and changes nothing; a store failure answers 500 "Erro ao criar pedido: …" and leaves the cart and the orders as they were; otherwise the order is answered with 201, exactly that order is appended and only this user's cart becomes empty |
| `Server.OrdersOf` | server.js:427-444 | the user's order list contains exactly the orders of that user |
| `Server.OrdersOfAfterPlacing` | server.js:430 | a newly placed order comes first in its owner's list and changes no other user's list |
| `Server.CartService.ListOrders` | server.js:427-444 | returns the user's orders newest first, plus their count |
| `Server.ServerAuth` | server.js:64-93 | no token or an empty one: 401 'Token de acesso necessário'; otherwise it proceeds exactly when the token verifies, the payload has `userId`, the lookup does not fail and that user exists, and the request then runs as that user; every other case is 401 'Token inválido' |
| `Server.IdPayloadRejectedByServerAuth` | server.js:76-82 | a credential whose payload is `{ id }`, the kind generateToken signs, is always refused by server.js's `auth` with 401 'Token inválido' |
| `Server.ExampleCartTotal` | server.js:302 | adding two of a 5.00 product and one of a 3.00 product gives two lines totalling 13.00 |
| `Catalog.Listing` | src/controllers/productController.js:6-17 | the listing is sound and complete for the filter: only stored, active products; the exact category when one is given; a case-insensitive name match when a search term is given; and every stored product meeting all of these is listed |
| `Catalog.ProductStore.GetProducts` | src/controllers/productController.js:4-23 | answers the listing and a count equal to its size |
| `Catalog.Lookup` | server.js:140-162 | the product is found exactly when it is stored and active; otherwise 404 "Produto não encontrado" |
| `Catalog.ProductStore.GetProductById` | src/controllers/productController.js:39-55 | answers the stored product exactly when it is present and active; otherwise 404 |
| `Catalog.ProductStore.CreateProduct` | src/controllers/productController.js:67-83 | a body the schema rejects answers 400 and stores nothing; otherwise exactly the built product is stored under the new id and answered with 201; every stored product stays valid |
| `Catalog.ProductStore.UpdateProduct` | src/controllers/productController.js:86-112 | a patch the update validators reject answers 400 and changes nothing; an absent id answers 404; otherwise only that product changes, to the patch applied; isActive is not checked; every stored product stays valid |
| `Catalog.ProductStore.DeleteProduct` | src/controllers/productController.js:115-142 | an absent id answers 404 and changes nothing; otherwise the collection becomes the soft-deleted one and the updated record is returned |
| `Catalog.SoftDeleteKeepsRecord` | src/controllers/productController.js:117-121 | a soft delete keeps every id stored, clears the product's isActive and leaves every one of its other fields as it was, and leaves every other product unchanged |
| `Catalog.SoftDeleteHides` | src/controllers/productController.js:117-121 | after a soft delete, get-by-id (the active check of line 43) answers 404 and no listing contains the product |
| `Catalog.SoftDeleteIdempotent` | src/controllers/productController.js:117-131 | a second delete still finds the record and changes nothing more |
| `Catalog.SoftDeleteListing` | src/controllers/productController.js:117-121 | a soft delete removes exactly that product from every listing |
| `Catalog.ListingWithoutFilters` | src/controllers/productController.js:7-15 | with no category and no or an empty search term, the listing is exactly the active products |
| `ProductModel.NewProduct` | src/models/Product.js:3-44 | creation succeeds exactly when the name is present and non-empty after trimming, the price is present and ≥ 0, the category is present and non-empty, the stock (default 0) is ≥ 0, and any alcohol content lies in [0, 100]; the result is valid, carries the trimmed name and the given fields, stock defaults to 0 and isActive to true |
| `ProductModel.PatchPreservesValidity` | src/controllers/productController.js:88-92 | a patch the update validators of the Product schema accept keeps a valid product valid |
| `ProductModel.PatchTouchesOnlySuppliedFields` | src/controllers/productController.js:88-92 | for each of the ten fields, one the patch does not carry keeps its stored value and one it carries takes the new value (the name trimmed) |
| `JsString.Trim` | src/models/Product.js:7 | the trimmed name has no whitespace at either end, is no longer, and an already trimmed string is unchanged |
| `JsString.TrimIdempotent` | src/models/Product.js:7 | trimming an already trimmed name changes nothing, so the setter can run again on a stored value |
| `JsString.TrimSplits` | src/models/Product.js:7 | the input is the trimmed string with only whitespace removed before and after it |
| `JsString.ReplaceFirstPrefix` | src/middleware/auth.js:7 | a string that starts with the pattern has exactly that prefix replaced |
| `JsString.ReplaceFirstAbsent` | src/middleware/auth.js:7 | a string without the pattern is unchanged |
| `JsString.ReplaceFirstSplit` | src/middleware/auth.js:7 | the first occurrence is replaced wherever it stands |
| `JsString.ContainsIgnoringCaseLower` | src/controllers/productController.js:13-15 | lower-casing the search term first does not change whether the case-insensitive match succeeds |
| `JsString.ContainsIgnoringCaseIsLowerOccurs` | src/controllers/productController.js:13-15 | the case-insensitive match succeeds exactly when the lower-cased term occurs as a substring of the lower-cased text |
| `OrderModel.ItemsFromInput` | src/models/Order.js:3-19 | the items are accepted exactly when each has a product, a quantity ≥ 1 and a price ≥ 0, and then they keep the count and the values of the body's items |
| `OrderModel.Materialize` | src/models/Order.js:21-61 | creation succeeds exactly when the user is present, every item is accepted, the total is present and ≥ 0, any status is in the enumeration, and the payment method is present and in its enumeration; the result is valid, carries the given fields, and defaults the status to "pending" and the delivery fee to 5.00 |
| `OrderModel.TotalNotTiedToItems` | src/models/Order.js:27-32 | the schema accepts an order whose total (0) differs from the sum of its items (6.00) |
| `OrderModel.StatusChangeValidity` | src/models/Order.js:33-37 | a valid order stays valid after a status change exactly when the new status is in the enumeration |
| `OrderController.OrderStore.Create` | src/controllers/OrderController.js:5-12 | a body the schema rejects answers 500 and stores nothing; otherwise exactly the built order is stored under the new id and answered with 201, and it is valid with a status from the enumeration |
| `OrderController.OrderStore.FindAll` | src/controllers/OrderController.js:15-24 | returns every stored order, whatever its owner |
| `OrderController.OrderStore.FindOne` | src/controllers/OrderController.js:27-39 | returns the stored order, or 404 "Order not found" when the id is absent |
| `OrderController.OrderStore.Update` | src/controllers/OrderController.js:42-54 | an absent id answers 404 and changes nothing; otherwise only that order changes, to the body merged into it |
| `OrderController.OrderStore.UpdateStatus` | src/controllers/OrderController.js:57-73 | an absent id answers 404; otherwise only the status of that order changes, or nothing when the body has no status; the result stays valid exactly when the new status is in the enumeration, since no transition or enumeration check is applied |
| `OrderController.OrderStore.Delete` | src/controllers/OrderController.js:76-85 | an absent id answers 404 and changes nothing; otherwise the order is removed and "Order deleted" is answered |
| `OrderController.DeleteThenFind` | src/controllers/OrderController.js:76-81 | after a delete, findOne and a second delete on that id both answer 404 |
| `OrderController.MergeEmpty` | src/controllers/OrderController.js:44 | an empty body changes nothing |
| `OrderController.StatusUpdateIsMerge` | src/controllers/OrderController.js:59-65 | a status update is the general update with a body holding only `status` |
| `OrderController.MergeSkipsValidation` | src/controllers/OrderController.js:44-46 | since no validators run, an update can store an order the schema would reject (a negative total) |
| `Users.UserStore.CreateUser` | src/controllers/userController.js:4-33 | a missing or empty name, email or password answers 400 and stores nothing; a stored email answers 400 and stores nothing; otherwise exactly the given name, email, password and address are stored with the role 'customer' and answered with 201; email uniqueness is preserved |
| `Users.UserStore.GetAllUsers` | src/controllers/userController.js:36-45 | returns every stored user |
| `Users.UserStore.GetUserById` | src/controllers/userController.js:48-64 | returns the stored user, or 404 "Usuário não encontrado" |
| `Users.UserStore.UpdateUser` | src/controllers/userController.js:67-92 | an absent id answers 404; otherwise only that user changes, and only in the name, email and address the body carries; uniqueness is kept when the new email belongs to no other user |
| `Users.UserStore.DeleteUser` | src/controllers/userController.js:95-112 | an absent id answers 404; otherwise the user is removed and uniqueness is preserved |
| `Users.InsertKeepsUniqueEmails` | src/controllers/userController.js:14-22 | inserting a user whose email is not taken keeps emails unique |
| `Users.WithProfileKeepsCredentials` | src/controllers/userController.js:69-73 | updateUser never changes the password, phone or role |
| `Users.StoredEmailIsTaken` | src/controllers/userController.js:14-19 | once a user is stored, its email counts as taken, so a later creation with it is refused |
| `Accounts.Register` | src/controllers/authController.js:10-58 | unless all four of name, email, password and phone are present: 400; a stored email: 400 and nothing stored; otherwise the user is stored with the role 'customer' and the 201 answer carries its id, name, email, phone and role (no password) and a credential bound to its id; uniqueness is preserved |
| `Accounts.Login` | src/controllers/authController.js:60-106 | a missing email or password: 400; any success comes from a user with that email whose password check passes, and answers its public fields, its address and its credential; every other outcome is the same 401; with unique emails, success happens exactly when such a user exists |
| `Accounts.GeneratedTokenAuthenticates` | src/controllers/authController.js:4-8 | a generated credential that verifies passes the middleware's `auth` with payload `{ id }` |
| `Accounts.RegisteredUserIsNotAdmin` | src/middleware/auth.js:20-25 | a registered user, who gets the default role, is refused by `adminAuth` with 403 |
| `Guard.BearerToken` | src/middleware/auth.js:7 | a token exists exactly when the header does |
| `Guard.BearerTokenOfBearerHeader` | src/middleware/auth.js:7 | a header "Bearer t" yields t |
| `Guard.BearerTokenOfBareHeader` | src/middleware/auth.js:7 | a header without "Bearer " is taken whole |
| `Guard.BearerTokenNotAnchored` | src/middleware/auth.js:7 | the first "Bearer " is removed wherever it stands: "xBearer abc" yields "xabc" |
| `Guard.Auth` | src/middleware/auth.js:5-18 | every refusal is a 401; it proceeds exactly when a non-empty token verifies, with that payload as the user; no or an empty token gives 'Acesso negado, token não enviado'; a failed verification gives 'Token inválido' |
| `Guard.AuthWithoutToken` | src/middleware/auth.js:7-10 | no header, or the header "Bearer " alone, is refused as carrying no token |
| `Guard.AuthAcceptsVerifiedBearer` | src/middleware/auth.js:7-14 | a verified credential sent as "Bearer t" passes with its payload |
| `Guard.AuthRejectsUnverified` | src/middleware/auth.js:12-16 | a credential that does not verify is refused with 'Token inválido' |
| `Guard.AdminAuth` | src/middleware/auth.js:20-30 | proceeds exactly when the lookup works and finds a user with role 'admin'; 403 exactly when it finds a user with another role; 500 exactly when the lookup fails, the payload has no id or no user has it |

## Left out

- **Out of scope.** The connection, startup and health/info/root routes of `server.js` are I/O. So is logging.
- **Login and registration routes of `server.js`.** `POST /api/auth/login` and `POST /api/auth/register` (server.js:184-295) are outside the modelled core, and they behave differently from `authController.js`, which `Accounts` models. They sign `{ userId }` rather than `{ id }`. Registration requires only name, email and password, where the controller also requires phone. The duplicate-user message is different. The login answer carries no address.
- **Other routes of `server.js`.** `GET /api/categories` (server.js:165-182) and `POST /api/products` (server.js:497-532) are outside the modelled core. The latter differs from `productController.js` create, which `ProductStore.CreateProduct` models: it rejects a zero price, fills an empty description and a placeholder image, forces `isActive` to true and answers 500 rather than 400 on a failed create. Of the product routes of `server.js`, only list and get-by-id are modelled, by `Catalog.Listing` and `Catalog.Lookup`.
- **Other source files.** `src/controllers/categoryController.js`, `src/routes/*.js` and `src/scripts/seed.js` are a thin query wrapper, routing and a seeding script.
- **`src/models/User.js`** is not part of this model. Whatever hooks, setters and indexes it defines are not captured; the controllers imply at least a password-hashing hook, since login calls `comparePassword` (src/controllers/authController.js:76).

  The user record is built from the fields the controllers read, with role defaulting to 'customer'. Emails are compared exactly.
- **Signing, verification and hashing internals.** JWT signing and verification, credential expiry, and bcrypt hashing and compare are function parameters.
- **Regex semantics.** `$regex` in the search filter is modelled as a case-insensitive substring match on a literal term. Case folding is ASCII only.
- **Id casting.** Casting a request id to an ObjectId, and the 500 a malformed id causes, are not modelled: ids are plain strings. In particular, a product id whose spelling differs from its canonical form finds the product but never matches a stored cart line. This is not modelled either.
- **Floating point and coercion.** Prices are integer cents, and `alcoholContent` is a whole percentage, where the source stores JavaScript numbers that may be fractional. A quantity sent as a string, which JavaScript would concatenate, is not modelled.
- **Database-side effects.** `populate`, timestamps and the concrete creation stamps are not modelled. The order list is newest-first by position.
- **Concurrency.** Concurrent requests racing on `userCarts` are not modelled.
- **Materialize and NewProduct:** the exact Mongoose validation messages are not modelled. A rejection is one fixed message.
- **Unexpected failures.** The answers each controller's `catch` gives on an unexpected database failure are not modelled, apart from those modelled through `storageError` and `lookupFails`. They are 500 in most handlers and 400 in product create and update (src/controllers/productController.js:78 and 107); for those two the model does give 400 when validation rejects the body.
- **Success bodies.** The successful answers are modelled by their status (200 or 201) and payload. The `success: true` flag and the success messages of the create and register answers are not modelled.
- **Not in the source.** A status-transition table and an atomic checkout are not in the source, so they are not in the model.
- **Server.CartService.Add:** cart lines are values. The in-place `existingItem.quantity += quantity` becomes a replaced line, so aliasing of line objects is not captured.
- **Users.UserStore.UpdateUser:** the update validators `runValidators` would run against `src/models/User.js` are not modelled, because that file is not part of this model.
