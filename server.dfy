/**
 * The HTTP API's route handlers over an in-memory store: signup and signin,
 * the authentication gate, the product catalog routes and the per-user cart
 * routes. Each handler is one atomic step that returns a status together with
 * the new state of the store.
 */
module Server {
  import opened Common
  import opened Products
  import opened Users
  import opened CartItems

  /** The outcome of a route. `Uncaught` is a rejected save inside a handler
      that has no catch, so the handler itself sends no response. */
  datatype Status = Ok | Created | BadRequest | Unauthorized | Forbidden | NotFound | ServerError | Uncaught

  /** The request context the session middleware supplies: the signed-in
      user's id and role, both unset for an anonymous request. */
  datatype Session = Session(userId: Option<ObjectId>, role: Option<Role>)

  /** The `isAuthenticated` middleware's test: a session with a user id. */
  predicate IsAuthenticated(s: Session) {
    s.userId.Some?
  }

  /** The seller-or-admin rule for changing or deleting a product. */
  predicate MayModify(s: Session, p: Product) {
    s.userId == Some(p.seller) || s.role == Some(Admin)
  }

  /** The checks the update and delete routes make before writing, in order:
      401 without a session, then 404 for an unknown id, then 403 unless the
      session is the seller's or an admin's. */
  function ProductGate(s: Session, products: map<ObjectId, Product>, id: ObjectId): (r: Status)
    ensures r == Ok || r == Unauthorized || r == NotFound || r == Forbidden
    ensures r == Unauthorized <==> !IsAuthenticated(s)
    ensures r == NotFound <==> IsAuthenticated(s) && id !in products
    ensures r == Forbidden <==> IsAuthenticated(s) && id in products && !MayModify(s, products[id])
    ensures r == Ok <==> IsAuthenticated(s) && id in products && MayModify(s, products[id])
  {
    if !IsAuthenticated(s) then Unauthorized
    else if id !in products then NotFound
    else if !MayModify(s, products[id]) then Forbidden
    else Ok
  }

  /** The items of a user's cart, empty when the user has none yet. */
  function CartOf(carts: map<ObjectId, seq<LineItem>>, u: ObjectId): seq<LineItem> {
    if u in carts then carts[u] else []
  }

  /** A request body with only the five fields the create route reads. */
  function CreateDoc(body: ProductBody, seller: ObjectId): (d: ProductDoc)
    ensures d.available.None? && d.hidden.None? && d.seller == Some(seller)
    ensures d.name == body.name && d.description == body.description && d.price == body.price
    ensures d.image == body.image && d.category == body.category
  {
    ProductDoc(body.name, body.description, body.price, body.image, body.category, Some(seller), None, None)
  }

  /** The store behind the API: users, products and carts, plus the external
      collaborators it calls (email validation and password hashing). */
  class Store {
    const isEmail: string -> bool
    const hash: string -> string
    const compare: (string, string) -> bool
    var users: map<ObjectId, UserRecord>
    var products: map<ObjectId, Product>
    var carts: map<ObjectId, seq<LineItem>>
    var nextId: ObjectId

    ghost predicate Valid()
      reads this
    {
      && !isEmail("")
      && UniqueEmails(users)
      && (forall id :: id in users ==> isEmail(users[id].email) && id < nextId)
      && (forall id :: id in products ==> id < nextId)
      && (forall u :: u in carts ==> DistinctProducts(carts[u]))
    }

    /** The email validator rejects the empty string, as any email validator does. */
    constructor (isEmail: string -> bool, hash: string -> string, compare: (string, string) -> bool)
      requires !isEmail("")
      ensures Valid()
      ensures this.isEmail == isEmail && this.hash == hash && this.compare == compare
      ensures users == map[] && products == map[] && carts == map[]
    {
      this.isEmail := isEmail;
      this.hash := hash;
      this.compare := compare;
      users, products, carts := map[], map[], map[];
      nextId := 0;
    }

    /** POST /signup: 400 for a malformed or already registered email;
        otherwise a new user with the default role and the hashed password.
        A password the schema rejects leaves the handler without a response. */
    method Signup(email: string, password: string) returns (status: Status)
      requires Valid()
      modifies this
      ensures Valid() && products == old(products) && carts == old(carts)
      ensures !isEmail(email) ==> status == BadRequest && users == old(users)
      ensures isEmail(email) && EmailTaken(old(users), email) ==> status == BadRequest && users == old(users)
      ensures status == Created <==> isEmail(email) && !EmailTaken(old(users), email) && password != ""
      ensures status == Uncaught <==> isEmail(email) && !EmailTaken(old(users), email) && password == ""
      ensures status != Created ==> users == old(users) && nextId == old(nextId)
      ensures status == Created ==>
        && old(nextId) !in old(users)
        && users == old(users)[old(nextId) := UserRecord(email, hash(password), User)]
        && nextId == old(nextId) + 1
      ensures status == Created ==> EmailTaken(users, email)
    {
      if !isEmail(email) {
        return BadRequest;
      }
      if EmailTaken(users, email) {
        return BadRequest;
      }
      var role := ParseRole(None);
      var doc := new UserDoc(email, password, role.value);
      var saved := doc.Save(isEmail, hash);
      if !saved {
        return Uncaught;
      }
      InsertKeepsUnique(users, nextId, doc.Record());
      users := users[nextId := doc.Record()];
      nextId := nextId + 1;
      return Created;
    }

    /** POST /signin: 401 unless a user with this email exists and the password
        matches its stored hash; on success the session carries the user's id
        and role. */
    method Signin(s: Session, email: string, password: string) returns (status: Status, next: Session)
      requires Valid()
      ensures status == Ok || status == Unauthorized
      ensures status == Ok <==>
        exists id :: id in users && users[id].email == email && compare(password, users[id].password)
      ensures status == Ok ==>
        exists id :: id in users && users[id].email == email && next == Session(Some(id), Some(users[id].role))
      ensures status == Unauthorized ==> next == s
    {
      if !EmailTaken(users, email) {
        return Unauthorized, s;
      }
      var id :| id in users && users[id].email == email;
      if !compare(password, users[id].password) {
        return Unauthorized, s;
      }
      return Ok, Session(Some(id), Some(users[id].role));
    }

    /** GET /products: exactly the products that are not hidden and are available. */
    function ListProducts(): (r: map<ObjectId, Product>)
      reads this
      ensures forall id :: id in r <==> id in products && Listed(products[id])
      ensures forall id :: id in r ==> r[id] == products[id]
    {
      map id | id in products && Listed(products[id]) :: products[id]
    }

    /** GET /products/:id: the product whatever its visibility flags, or 404. */
    function GetProduct(id: ObjectId): (r: Result<Product, Status>)
      reads this
      ensures r.Success? <==> id in products
      ensures r.Success? ==> r.value == products[id]
      ensures r.Failure? ==> r.error == NotFound
    {
      if id in products then Success(products[id]) else Failure(NotFound)
    }

    /** POST /products: 401 without a session; the five body fields with the
        session user as seller, `available` and `hidden` left to their
        defaults; a failed validation is caught as a 500. */
    method CreateProduct(s: Session, body: ProductBody) returns (status: Status, id: ObjectId)
      requires Valid()
      modifies this
      ensures Valid() && users == old(users) && carts == old(carts)
      ensures !IsAuthenticated(s) ==> status == Unauthorized
      ensures IsAuthenticated(s) && Validate(CreateDoc(body, s.userId.value)).Failure? ==> status == ServerError
      ensures status != Created ==> products == old(products) && nextId == old(nextId)
      ensures status == Created <==>
        IsAuthenticated(s) && Validate(CreateDoc(body, s.userId.value)).Success?
      ensures status == Created ==>
        && id == old(nextId) && id !in old(products)
        && products == old(products)[id := Validate(CreateDoc(body, s.userId.value)).value]
        && products[id].seller == s.userId.value
        && Listed(products[id])
    {
      id := 0;
      if !IsAuthenticated(s) {
        return Unauthorized, id;
      }
      var doc := CreateDoc(body, s.userId.value);
      match Validate(doc)
      case Failure(_) =>
        return ServerError, id;
      case Success(p) =>
        DefaultsAreListed(doc);
        id := nextId;
        products := products[id := p];
        nextId := nextId + 1;
        return Created, id;
    }

    /** PUT /products/:id: the ordered gate, then the whole body written over
        the stored product. */
    method UpdateProduct(s: Session, id: ObjectId, body: ProductBody) returns (status: Status)
      requires Valid()
      modifies this
      ensures Valid() && users == old(users) && carts == old(carts) && nextId == old(nextId)
      ensures status == ProductGate(s, old(products), id)
      ensures status != Ok ==> products == old(products)
      ensures status == Ok ==> products == old(products)[id := ApplyPatch(old(products)[id], body)]
    {
      status := ProductGate(s, products, id);
      if status == Ok {
        products := products[id := ApplyPatch(products[id], body)];
      }
    }

    /** DELETE /products/:id: the ordered gate, then the product removed.
        Carts that reference it keep their line items. */
    method DeleteProduct(s: Session, id: ObjectId) returns (status: Status)
      requires Valid()
      modifies this
      ensures Valid() && users == old(users) && carts == old(carts) && nextId == old(nextId)
      ensures status == ProductGate(s, old(products), id)
      ensures status != Ok ==> products == old(products)
      ensures status == Ok ==> products == old(products) - {id} && id !in products
    {
      status := ProductGate(s, products, id);
      if status == Ok {
        products := products - {id};
      }
    }

    /** GET /cart: the user's cart, created empty on first access. */
    method GetCart(s: Session) returns (status: Status, items: seq<LineItem>)
      requires Valid()
      modifies this
      ensures Valid() && users == old(users) && products == old(products) && nextId == old(nextId)
      ensures !IsAuthenticated(s) ==> status == Unauthorized && carts == old(carts)
      ensures IsAuthenticated(s) ==> status == Ok && items == CartOf(old(carts), s.userId.value)
      ensures IsAuthenticated(s) ==> carts == old(carts)[s.userId.value := items]
    {
      if !IsAuthenticated(s) {
        return Unauthorized, [];
      }
      var u := s.userId.value;
      if u !in carts {
        carts := carts[u := []];
      }
      return Ok, carts[u];
    }

    /** POST /cart/add: create the cart if needed, then raise the quantity of
        the product's line item, or append a new one at the end. */
    method AddToCart(s: Session, productId: ObjectId, quantity: int) returns (status: Status, items: seq<LineItem>)
      requires Valid()
      modifies this
      ensures Valid() && users == old(users) && products == old(products) && nextId == old(nextId)
      ensures !IsAuthenticated(s) ==> status == Unauthorized && carts == old(carts)
      ensures IsAuthenticated(s) ==>
        && status == Ok
        && items == AddItem(CartOf(old(carts), s.userId.value), productId, quantity)
        && carts == old(carts)[s.userId.value := items]
      ensures IsAuthenticated(s) && s.userId.value !in old(carts) ==> items == [LineItem(productId, quantity)]
    {
      if !IsAuthenticated(s) {
        return Unauthorized, [];
      }
      var u := s.userId.value;
      if u !in carts {
        carts := carts[u := []];
      }
      var cart := carts[u];
      match Find(cart, productId) {
        case Some(i) =>
          cart := cart[i := cart[i].(quantity := cart[i].quantity + quantity)];
        case None =>
          cart := cart + [LineItem(productId, quantity)];
      }
      carts := carts[u := cart];
      return Ok, cart;
    }

    /** PUT /cart/update: 404 without a cart or without a line item for the
        product; otherwise drop the item when the quantity is at most zero and
        replace its quantity when it is positive. */
    method UpdateCartItem(s: Session, productId: ObjectId, quantity: int) returns (status: Status, items: seq<LineItem>)
      requires Valid()
      modifies this
      ensures Valid() && users == old(users) && products == old(products) && nextId == old(nextId)
      ensures !IsAuthenticated(s) ==> status == Unauthorized
      ensures IsAuthenticated(s) && s.userId.value !in old(carts) ==> status == NotFound
      ensures IsAuthenticated(s) && s.userId.value in old(carts) && productId !in ProductIds(old(carts)[s.userId.value]) ==>
        status == NotFound
      ensures status != Ok ==> carts == old(carts)
      ensures status == Ok <==>
        IsAuthenticated(s) && s.userId.value in old(carts) && productId in ProductIds(old(carts)[s.userId.value])
      ensures status == Ok ==>
        && Some(items) == UpdateItem(old(carts)[s.userId.value], productId, quantity)
        && carts == old(carts)[s.userId.value := items]
    {
      if !IsAuthenticated(s) {
        return Unauthorized, [];
      }
      var u := s.userId.value;
      if u !in carts {
        return NotFound, [];
      }
      var cart := carts[u];
      match Find(cart, productId) {
        case None =>
          return NotFound, [];
        case Some(i) =>
          if quantity <= 0 {
            WithoutDistinct(cart, productId);
            cart := Without(cart, productId);
          } else {
            ReplaceSameProduct(cart, i, cart[i].(quantity := quantity));
            cart := cart[i := cart[i].(quantity := quantity)];
          }
      }
      carts := carts[u := cart];
      return Ok, cart;
    }

    /** DELETE /cart/remove/:productId: 404 without a cart; otherwise every
        line item for the product dropped, the rest kept in order. */
    method RemoveFromCart(s: Session, productId: ObjectId) returns (status: Status, items: seq<LineItem>)
      requires Valid()
      modifies this
      ensures Valid() && users == old(users) && products == old(products) && nextId == old(nextId)
      ensures !IsAuthenticated(s) ==> status == Unauthorized && carts == old(carts)
      ensures IsAuthenticated(s) && s.userId.value !in old(carts) ==> status == NotFound && carts == old(carts)
      ensures IsAuthenticated(s) && s.userId.value in old(carts) ==>
        && status == Ok
        && items == Without(old(carts)[s.userId.value], productId)
        && carts == old(carts)[s.userId.value := items]
    {
      if !IsAuthenticated(s) {
        return Unauthorized, [];
      }
      var u := s.userId.value;
      if u !in carts {
        return NotFound, [];
      }
      WithoutDistinct(carts[u], productId);
      items := Without(carts[u], productId);
      carts := carts[u := items];
      return Ok, items;
    }

    /** DELETE /cart/clear: always succeeds for a signed-in user; empties an
        existing cart and creates none. */
    method ClearCart(s: Session) returns (status: Status)
      requires Valid()
      modifies this
      ensures Valid() && users == old(users) && products == old(products) && nextId == old(nextId)
      ensures !IsAuthenticated(s) ==> status == Unauthorized && carts == old(carts)
      ensures IsAuthenticated(s) ==> status == Ok
      ensures IsAuthenticated(s) ==> carts.Keys == old(carts).Keys
      ensures IsAuthenticated(s) && s.userId.value in old(carts) ==> carts == old(carts)[s.userId.value := []]
      ensures IsAuthenticated(s) && s.userId.value !in old(carts) ==> carts == old(carts)
    {
      if !IsAuthenticated(s) {
        return Unauthorized;
      }
      var u := s.userId.value;
      if u in carts {
        carts := carts[u := []];
      }
      return Ok;
    }

    /** A client that signs up and then signs in with the same credentials:
        the signin succeeds exactly when the hash library accepts the password
        against its own hash, and the session then names the new user. */
    method SignupThenSignin(email: string, password: string) returns (up: Status, inStatus: Status, session: Session)
      requires Valid()
      modifies this
      ensures Valid()
      ensures up == Created ==> (inStatus == Ok <==> compare(password, hash(password)))
      ensures up == Created && inStatus == Ok ==> session == Session(Some(old(nextId)), Some(User))
    {
      up := Signup(email, password);
      inStatus, session := Signin(Session(None, None), email, password);
    }
  }
}
