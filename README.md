# QuikMart storefront core in Dafny

A model of the QuikMart storefront's server-side logic and client-side state.

The server side is an HTTP API with these parts:

- signup and signin;
- an authentication gate on the session;
- a product catalog, changed only by a product's seller or by an admin;
- one shopping cart per user.

The client side is three Redux slices (cart, auth, products). Each holds a small state record, and the results of the HTTP requests drive its reducers.

The model keeps the source's own shapes:

- `Store` (module `Server`) is a class. Its fields are the user, product and cart collections, as maps. Each route handler is one method, or a function for the two read-only product routes (`ListProducts`, `GetProduct`). A method returns the HTTP status and changes the store in one atomic step.
- A cart is a sequence of `LineItem(product, quantity)` values. The edits the cart routes make to it are pure functions in `CartItems`: find, merge-or-append, replace-or-drop, filter. The route methods are proved against those functions. Lemmas then prove what the functions mean:
  - they keep the cart invariant: at most one line item per product;
  - they have a stated effect on the quantity held of each product (the cart seen as a bag);
  - they keep insertion order.
- The product and user schemas are pure validation functions (`Products.Validate`, `Users.ParseRole`). The user document's pre-save hook changes the document in place, so it is a method on the class `Users.UserDoc`.
- Each Redux slice is a class. Each case reducer is a method that assigns the state's fields.

Email validation, password hashing and hash comparison are library calls. They are `const` function-valued fields of `Store` (`isEmail`, `hash`, `compare`), and nothing is assumed about them except one thing: the email validator rejects the empty string. New document ids come from a counter (`nextId`). The HTTP session is an explicit `Session(userId, role)` value, passed to every handler.

Behaviour of the code that a reader might not expect, which the model follows:

- The add-to-cart handler does not reject a quantity of zero or less, so in the model a line item can hold zero or fewer of its product (a minimum on the cart schema, if any, is not modelled). The lemma `CartItems.AddMayLeaveNonPositive` shows this.
- Removing from a cart answers 404 when the user has no cart. It is not a no-op in that case.
- A product whose required fields are missing fails validation on save. The create route's catch turns that into a 500, not a 400.
- The create route reads only five body fields. So a created product always has the defaults `available = true` and `hidden = false`, and it always appears in the listing.
- The update route writes the whole request body and runs no validation. So it can reassign `seller`. The lemma `Products.UpdateMayReassignSeller` shows this.
- The user schema has no name path, so the name given at signup is not stored.
- Emails are compared exactly, not case-insensitively.
- The signup handler has no catch. A password that fails the schema's `required` check (the empty string) leaves the handler without a response. The model's status for this is `Uncaught`, and nothing is stored.
- Mongoose's `required` check rejects an empty string. So an empty name, description, image or category counts as missing.
- The visibility-toggle route exists only in commented-out code, so it is not modelled.

## Model

| member | source | states |
|---|---|---|
| `CartItems.Find` | backend/server.js:729-731 | the first line item for the product: its index holds that product and no earlier index does; no result exactly when the product has no line item |
| `CartItems.AddItem` | backend/server.js:729-737 | present product: same length, that item's quantity raised by the amount, every other item unchanged; absent product: one item appended at the end after an unchanged prefix; at most one item per product is kept |
| `CartItems.AddItemProducts` | backend/server.js:729-737 | after an add the cart's products are exactly the earlier ones plus the added product |
| `CartItems.AddItemQuantity` | backend/server.js:733-737 | as a bag, the quantity held of the product rises by exactly the added amount and every other product's quantity is unchanged |
| `CartItems.AddTwice` | backend/server.js:729-737 | merge law: adding a then b of a product equals adding a+b once (a single line item, never two) |
| `CartItems.Without` | backend/server.js:791-793 | the filter keeps exactly the items of other products, leaves no item for the product, never grows, and leaves the items unchanged when the product is absent |
| `CartItems.WithoutProducts` | backend/server.js:791-793 | after the filter the cart's products are exactly the earlier ones minus the removed product |
| `CartItems.WithoutDistinct` | backend/server.js:791-793 | filtering keeps at most one line item per product |
| `CartItems.WithoutQuantity` | backend/server.js:791-793 | after the filter none of the product is held and every other product's quantity is unchanged |
| `CartItems.WithoutAppend` | backend/server.js:791-793 | the filter distributes over concatenation, so for any cart, duplicates included, the items it keeps stay in their order and with their multiplicity |
| `CartItems.WithoutDropsFound` | backend/server.js:791-793 | in a cart with at most one item per product, the filter removes exactly the found item and keeps the rest in order |
| `CartItems.UpdateItem` | backend/server.js:758-772 | no result (404) exactly when the product has no line item; quantity <= 0 gives the same items as the remove route's filter; quantity > 0 replaces that item's quantity in place, same length, others unchanged; at most one item per product is kept |
| `CartItems.UpdateItemQuantity` | backend/server.js:766-772 | in a cart with at most one item per product, the quantity held becomes the given one (replace, not add), or zero when it is <= 0; other products are unchanged |
| `CartItems.QuantityOfDistinct` | backend/server.js:729-737 | with at most one item per product, the bag quantity of a product is its line item's quantity |
| `CartItems.AddMayLeaveNonPositive` | backend/server.js:733-736 | adding a non-positive amount is accepted and can leave a quantity of zero or below |
| `Products.MissingFields` | backend/products.js:4-9 | each path is missing exactly when it is unset (name, description, image and category also when empty), so no path is missing exactly when all six are present |
| `Products.Listed` | backend/server.js:618 | a product appears in the catalog listing exactly when it is not hidden and is available |
| `Products.Validate` | backend/products.js:3-12 | fails, naming every missing required path, exactly when one is missing; otherwise stores the given fields with `available` true unless set false and `hidden` false unless set true |
| `Products.DefaultsAreListed` | backend/products.js:10-11 | a complete document that leaves `available` and `hidden` unset saves as a listed product |
| `Products.MissingFieldRejected` | backend/products.js:4-9 | a document missing any required path, the seller included, is rejected and the error names that path |
| `Products.ApplyPatch` | backend/server.js:669 | every field the body supplies, `seller` included, replaces the stored one; unsupplied fields stay; an empty body changes nothing |
| `Products.ApplyPatchIdempotent` | backend/server.js:669 | writing the same body twice equals writing it once |
| `Products.UpdateMayReassignSeller` | backend/server.js:669 | an update body that names a seller moves the product to that seller |
| `Users.ParseRole` | backend/users.js:14-18 | an absent role becomes `user`; only "user" and "admin" are accepted; the result is admin exactly for "admin" |
| `Users.EmailTaken` | backend/server.js:584 | some saved user has exactly this email, the lookup signup and signin (line 596) make by email |
| `Users.InsertKeepsUnique` | backend/users.js:7 | inserting a user whose email is not taken keeps emails unique, and the email is then taken |
| `Users.UserDoc.constructor` | backend/server.js:589 | `new Users({ name, email, password })` over the schema of backend/users.js:5-20: the new document holds the given email, password and role (the name has no schema path and is dropped), and its password counts as modified |
| `Users.UserDoc.Save` | backend/users.js:22-27 | saves exactly when the email is non-empty and well formed and the password non-empty; a modified password is replaced by its hash, an unmodified one is left as is, and after a save nothing is marked modified, so re-saving never hashes twice |
| `Server.IsAuthenticated` | backend/server.js:606-611 | a request passes the gate exactly when its session carries a user id; the role plays no part |
| `Server.MayModify` | backend/server.js:665 | a session may change or delete a product exactly when it is the product's seller's or an admin's (the delete route repeats the test at line 684) |
| `Server.ProductGate` | backend/server.js:660-667 | ordered outcomes: 401 exactly without a session, 404 exactly for an unknown id, 403 exactly when the session is neither the seller's nor an admin's, 200 otherwise |
| `Server.CreateDoc` | backend/server.js:641-649 | the document takes only name, description, price, image and category from the body, the session user as seller, and leaves `available` and `hidden` unset |
| `Server.Store.constructor` | backend/server.js:541-546 | the store starts with no users, products or carts, keeps the given email validator and hash library, and satisfies its invariant (unique emails, distinct cart items) |
| `Server.Store.Signup` | backend/server.js:577-592 | 400 for a malformed email, 400 for a taken email; a well-formed, new email with an empty password fails the schema's `required` check inside a handler with no catch (`Uncaught`, nothing stored); otherwise a new user with the hashed password and role `user`, 201; the email is then taken, so a second signup with it fails; emails stay unique |
| `Server.Store.Signin` | backend/server.js:594-604 | 200 exactly when a user with the email exists and the password matches its stored hash; the session then carries that user's id and role; otherwise 401 and the session unchanged |
| `Server.Store.SignupThenSignin` | backend/server.js:577-604 | after a successful signup, signing in with the same credentials succeeds exactly when the hash library accepts the password against its hash, and the session names the new user with role `user` |
| `Server.Store.ListProducts` | backend/server.js:616-623 | exactly the stored products that are not hidden and are available, unchanged |
| `Server.Store.GetProduct` | backend/server.js:626-636 | the stored product whatever its visibility flags, or 404 exactly when the id is unknown |
| `Server.Store.CreateProduct` | backend/server.js:639-655 | 401 without a session; 500 and nothing stored when validation fails; otherwise 201 and a fresh id holding the validated product, seller = session user, listed |
| `Server.Store.UpdateProduct` | backend/server.js:658-674 | status is the ordered gate; on anything but 200 the store is unchanged; on 200 the body is written over the product |
| `Server.Store.DeleteProduct` | backend/server.js:677-693 | status is the ordered gate; on anything but 200 the store is unchanged; on 200 the product is gone and carts are untouched |
| `Server.Store.GetCart` | backend/server.js:697-713 | 401 without a session; otherwise 200 and the user's cart, created empty when absent |
| `Server.Store.AddToCart` | backend/server.js:716-746 | 401 without a session; otherwise 200 and the cart becomes the merge-or-append of the old (or lazily created) cart; a user without a cart ends with exactly the one new item; at most one item per product is kept |
| `Server.Store.UpdateCartItem` | backend/server.js:749-781 | 404 and nothing changed when the user has no cart or the product no line item; otherwise 200 and the cart becomes the replace-or-drop update; 200 exactly in that case |
| `Server.Store.RemoveFromCart` | backend/server.js:784-802 | 404 and nothing changed without a cart; otherwise 200 and the cart becomes its filter, unchanged when the product is absent |
| `Server.Store.ClearCart` | backend/server.js:805-816 | 200 for any signed-in user; an existing cart is left with no items; no cart is created; idempotent |
| `CartSlice.CartState.constructor` | frontend/QuikMart/src/slices/cartSlice.jsx:5-9 | no items, not loading, no error |
| `CartSlice.CartState.FetchCartFulfilled` | frontend/QuikMart/src/slices/cartSlice.jsx:42-45 | items become the payload's items, loading false, error unchanged |
| `CartSlice.CartState.FetchCartPending` | frontend/QuikMart/src/slices/cartSlice.jsx:46-48 | loading true, nothing else changes |
| `CartSlice.CartState.FetchCartRejected` | frontend/QuikMart/src/slices/cartSlice.jsx:49-52 | loading false, error recorded, items unchanged |
| `CartSlice.CartState.ItemsFulfilled` | frontend/QuikMart/src/slices/cartSlice.jsx:53-61 | items become the payload's items; loading and error untouched |
| `CartSlice.CartState.ClearCartFulfilled` | frontend/QuikMart/src/slices/cartSlice.jsx:62-64 | items empty whatever they were, so a second clear changes nothing; loading and error untouched |
| `AuthSlice.AuthState.constructor` | frontend/QuikMart/src/slices/authSlice.jsx:216-221 | user is the stored user; authenticated exactly when one is stored; not loading, no error |
| `AuthSlice.AuthState.ClearError` | frontend/QuikMart/src/slices/authSlice.jsx:223-225 | only the error changes, to none |
| `AuthSlice.AuthState.ResetAuth` | frontend/QuikMart/src/slices/authSlice.jsx:226-231 | no user, not authenticated, no error |
| `AuthSlice.AuthState.RequestPending` | frontend/QuikMart/src/slices/authSlice.jsx:236-255 | loading true, error cleared, user and authentication unchanged |
| `AuthSlice.AuthState.RequestFulfilled` | frontend/QuikMart/src/slices/authSlice.jsx:240-261 | user becomes the payload, authenticated, not loading, no error |
| `AuthSlice.AuthState.RequestRejected` | frontend/QuikMart/src/slices/authSlice.jsx:246-266 | not authenticated, not loading, error is the payload, user unchanged |
| `AuthSlice.AuthState.SignoutFulfilled` | frontend/QuikMart/src/slices/authSlice.jsx:268-272 | no user, not authenticated, no error |
| `AuthSlice.AuthState.CheckAuthStatusFulfilled` | frontend/QuikMart/src/slices/authSlice.jsx:274-278 | user becomes the payload, authenticated, no error |
| `AuthSlice.AuthState.CheckAuthStatusRejected` | frontend/QuikMart/src/slices/authSlice.jsx:279-282 | no user, not authenticated, error and loading unchanged |
| `ProductSlice.ProductsState.constructor` | frontend/QuikMart/src/slices/productSlice.jsx:27-31 | no items, not loading, no error |
| `ProductSlice.ProductsState.FetchProductsPending` | frontend/QuikMart/src/slices/productSlice.jsx:34-36 | loading true only |
| `ProductSlice.ProductsState.FetchProductsFulfilled` | frontend/QuikMart/src/slices/productSlice.jsx:37-40 | loading false, items replaced by the payload |
| `ProductSlice.ProductsState.FetchProductsRejected` | frontend/QuikMart/src/slices/productSlice.jsx:41-44 | loading false, error recorded, items unchanged |
| `ProductSlice.ProductsState.AddProductFulfilled` | frontend/QuikMart/src/slices/productSlice.jsx:45-47 | the payload is appended: one longer, existing items unchanged, the new last item is the payload |

Every `AuthState` reducer keeps the invariant `Valid()`: the state is authenticated only while a user is held.

## Left out

- HTTP server, router, CORS, the session middleware and its database-backed session store, the database connection and `listen`. The session is an input value; signin returns the new one.
- Reference resolution (`populate`). Handlers return raw line items, and a line item that references a deleted product stays as it is.
- `Server.Store.Signup`: the email and password are strings. A request body that omits the email or sends a non-string one makes the email validator throw, and with no catch the handler sends no response; the model cannot express such a body, so the row's 400 for a malformed email covers only string emails.
- `Server.Store.Signin`: the email and password are strings, so the contract promises 200 or 401. For an existing email, a body that omits the password or sends a non-string one makes the hash comparison reject, and with no catch the handler sends no response; this outcome is not modelled.
- Store failures and the 500 answers of the `catch` blocks, except the create route's validation failure. Malformed ids and the JSON type coercion of `quantity` (a string quantity would be concatenated by `+=`) are also left out: ids are naturals and quantities integers.
- Password hashing, hash comparison and email-format validation are function-valued parameters. bcrypt's random salt is folded into the `hash` function.
- The password-strength regular expression. It sits under the schema key `validator`, which the schema library ignores, so it enforces nothing.
- Concurrency. Each handler is one atomic step, so the lost update of two simultaneous adds to one cart is not represented.
- The cart document's own schema (backend/cart.js) is not part of this model. Any constraint it may put on quantities is not represented.
- The listing's order. `ListProducts` returns a map keyed by id.
- The update route can store a null or empty field, because validation is skipped. The model's body can only supply well-typed values.
- `Server.Store.ListProducts`: its result is not the `seller` email join of the real listing. It is the stored product with the seller id.
- `AuthSlice.AuthState.RequestRejected`: the error is typed as an optional string. When the server answers 400 or 401, the slice actually stores its JSON body `{ message }`. Only the transport-failure fallbacks ('Signup failed', 'Signin failed') are strings.
- The HTTP thunks, local-storage reads and writes, and JSON parsing in the slices. The stored user is the constructor's argument, and each payload is a parameter.
- The UI pages, routing, the store configuration, checkout and payment, and the floating-point cart totals.
- The commented-out earlier versions of the server and the auth slice, including the visibility-toggle route.
