/** The cart controller (backend/src/controllers/cart-controller.ts): the
    caller's user id, validation of the add-to-cart body, and the mapping
    from each service outcome to a status code and JSON body. */
module CartController {
  import opened Types
  import opened Http
  import opened Store
  import CartRepository
  import CartService

  const Guest: string := "guest"
  const ValidationError: string := "Validation error"

  /** The user id a request acts for: its x-user-id header when that is
      present and non-empty, "guest" otherwise. */
  function UserIdOf(header: Option<string>): (r: string)
    ensures r != ""
    ensures header.Some? && header.value != "" ==> r == header.value
    ensures header.None? || header.value == "" ==> r == Guest
  {
    if header.Some? && header.value != "" then header.value else Guest
  }

  /** A validated add-to-cart body. */
  datatype AddInput = AddInput(productId: string, quantity: int)

  predicate IsInteger(n: real) {
    n.Floor as real == n
  }

  /** The add-to-cart schema: an object whose productId is a string and
      whose quantity is an integral number of at least 1. */
  predicate ValidAddBody(body: Json) {
    && body.JObject?
    && "productId" in body.fields && body.fields["productId"].JString?
    && "quantity" in body.fields && body.fields["quantity"].JNumber?
    && IsInteger(body.fields["quantity"].n) && body.fields["quantity"].n >= 1.0
  }

  /** The issues of the productId field. */
  function ProductIdIssues(fields: map<string, Json>): (r: seq<Issue>)
    ensures r == [] <==> "productId" in fields && fields["productId"].JString?
    ensures forall i :: 0 <= i < |r| ==> r[i].path == ["productId"]
  {
    if "productId" in fields && fields["productId"].JString? then []
    else [Issue(["productId"], InvalidType("string"))]
  }

  /** The issues of the quantity field: a missing or non-number value is one
      type issue; a number gets one issue per failed check, the integer
      check and the minimum check both being run. */
  function QuantityIssues(fields: map<string, Json>): (r: seq<Issue>)
    ensures r == [] <==>
      "quantity" in fields && fields["quantity"].JNumber?
      && IsInteger(fields["quantity"].n) && fields["quantity"].n >= 1.0
    ensures forall i :: 0 <= i < |r| ==> r[i].path == ["quantity"]
    ensures !("quantity" in fields && fields["quantity"].JNumber?) ==> r == [Issue(["quantity"], InvalidType("number"))]
    ensures "quantity" in fields && fields["quantity"].JNumber? ==>
      && |r| <= 2
      && (Issue(["quantity"], InvalidType("integer")) in r <==> !IsInteger(fields["quantity"].n))
      && (Issue(["quantity"], TooSmall(1)) in r <==> fields["quantity"].n < 1.0)
  {
    if "quantity" !in fields || !fields["quantity"].JNumber? then [Issue(["quantity"], InvalidType("number"))]
    else
      var n := fields["quantity"].n;
      (if IsInteger(n) then [] else [Issue(["quantity"], InvalidType("integer"))])
      + (if n >= 1.0 then [] else [Issue(["quantity"], TooSmall(1))])
  }

  /** Parses an add-to-cart body against the schema: the validated input,
      or the non-empty list of every issue found. */
  function ParseAddBody(body: Json): (r: Result<AddInput, seq<Issue>>)
    ensures r.Ok? <==> ValidAddBody(body)
    ensures r.Ok? ==>
      && body.fields["productId"] == JString(r.value.productId)
      && body.fields["quantity"] == JNumber(r.value.quantity as real)
      && r.value.quantity >= 1
    ensures r.Err? ==> |r.error| > 0
  {
    if !body.JObject? then Err([Issue([], InvalidType("object"))])
    else
      var issues := ProductIdIssues(body.fields) + QuantityIssues(body.fields);
      if issues == [] then Ok(AddInput(body.fields["productId"].s, body.fields["quantity"].n.Floor))
      else Err(issues)
  }

  /** For an object body, the issues reported name exactly the fields that
      fail the schema. */
  lemma ParseAddBodyIssues(body: Json)
    requires body.JObject? && !ValidAddBody(body)
    ensures var issues := ParseAddBody(body).error;
      && ((exists i :: 0 <= i < |issues| && issues[i].path == ["productId"])
          <==> !("productId" in body.fields && body.fields["productId"].JString?))
      && ((exists i :: 0 <= i < |issues| && issues[i].path == ["quantity"])
          <==> !("quantity" in body.fields && body.fields["quantity"].JNumber?
                 && IsInteger(body.fields["quantity"].n) && body.fields["quantity"].n >= 1.0))
  {
    var a := ProductIdIssues(body.fields);
    var b := QuantityIssues(body.fields);
    var issues := a + b;
    assert ParseAddBody(body).error == issues;
    if a != [] {
      assert issues[0] == a[0];
    }
    if b != [] {
      assert issues[|a|] == b[0];
    }
    forall i | 0 <= i < |issues|
      ensures issues[i].path == if i < |a| then ["productId"] else ["quantity"]
    {
      if i >= |a| {
        assert issues[i] == b[i - |a|];
      }
    }
  }

  /** A quantity of 0.5 fails both checks: it is not an integer and it is below 1. */
  lemma HalfQuantityIssues()
    ensures ParseAddBody(JObject(map["productId" := JString("p1"), "quantity" := JNumber(0.5)]))
         == Err([Issue(["quantity"], InvalidType("integer")), Issue(["quantity"], TooSmall(1))])
  {
    var fields := map["productId" := JString("p1"), "quantity" := JNumber(0.5)];
    assert !IsInteger(0.5) by {
      assert (0.5).Floor == 0;
    }
    assert fields["productId"] == JString("p1") && fields["quantity"] == JNumber(0.5);
    assert ProductIdIssues(fields) == [];
    assert QuantityIssues(fields) == [Issue(["quantity"], InvalidType("integer")), Issue(["quantity"], TooSmall(1))];
    var expected := [Issue(["quantity"], InvalidType("integer")), Issue(["quantity"], TooSmall(1))];
    assert ProductIdIssues(fields) + QuantityIssues(fields) == expected;
    assert ParseAddBody(JObject(fields)) == Err(expected);
  }

  /** The reply to getCart, removeFromCart and clearCart: the aggregate with
      status 200, or 500 "Internal error" whatever the failure. */
  function CartReply(outcome: Result<Cart, Error>): (r: Response)
    ensures r.status == StatusOk <==> outcome.Ok?
    ensures r.status == StatusInternalError <==> outcome.Err?
    ensures outcome.Ok? ==> r.body == CartBody(outcome.value)
    ensures outcome.Err? ==> r.body == MessageBody(InternalError)
  {
    match outcome
    case Ok(cart) => Response(StatusOk, CartBody(cart))
    case Err(_) => Response(StatusInternalError, MessageBody(InternalError))
  }

  /** The reply to a validated addToCart: 201 with the aggregate, 404 when
      the product is unknown, 500 "Internal error" for any other failure. */
  function AddReply(outcome: Result<Cart, Error>): (r: Response)
    ensures r.status == StatusCreated <==> outcome.Ok?
    ensures r.status == StatusNotFound <==> outcome.Err? && outcome.error.message == ProductNotFound
    ensures r.status == StatusInternalError <==> outcome.Err? && outcome.error.message != ProductNotFound
    ensures outcome.Ok? ==> r.body == CartBody(outcome.value)
    ensures outcome.Err? ==> r.body == MessageBody(if r.status == StatusNotFound then ProductNotFound else InternalError)
  {
    match outcome
    case Ok(cart) => Response(StatusCreated, CartBody(cart))
    case Err(e) =>
      if e.message == ProductNotFound then Response(StatusNotFound, MessageBody(e.message))
      else Response(StatusInternalError, MessageBody(InternalError))
  }

  /** GET /cart: the caller's aggregate, creating their cart when missing. */
  method GetCart(db: Db, header: Option<string>) returns (r: Response)
    requires db.Valid()
    modifies db
    ensures db.Valid()
    ensures var (cart, carts) := CartRepository.FetchOrCreate(old(db.carts), old(db.nextId), UserIdOf(header));
      && db.carts == carts
      && db.nextId == old(db.nextId) + |carts| - |old(db.carts)|
      && r == CartReply(Ok(CartService.CalculateCartTotals(cart, db.items, db.products)))
    ensures db.items == old(db.items) && db.products == old(db.products)
    ensures r.status == StatusOk && r.body.CartBody? && r.body.cart.userId == UserIdOf(header)
  {
    var cart := CartService.GetCart(db, UserIdOf(header));
    r := CartReply(Ok(cart));
  }

  /** The outcome of POST /cart for a valid body: 201 with the recomputed
      aggregate when the product is known, the caller's cart fetched or
      created and its line raised or inserted; 404 "Product not found",
      the store untouched, when it is not. */
  twostate predicate Added(db: Db, userId: string, input: AddInput, r: Response)
    reads db
  {
    && (r.status == StatusCreated <==> input.productId in old(db.products))
    && (r.status == StatusNotFound <==> input.productId !in old(db.products))
    && (r.status == StatusNotFound ==> r.body == MessageBody(ProductNotFound) && unchanged(db))
    && (r.status == StatusCreated ==>
          var fetched := CartRepository.FetchOrCreate(old(db.carts), old(db.nextId), userId);
          var freshId := old(db.nextId) + |fetched.1| - |old(db.carts)|;
          && db.carts == fetched.1
          && db.items == CartService.Upsert(old(db.items), fetched.0.id, input.productId, input.quantity, freshId)
          && db.nextId == freshId + |db.items| - |old(db.items)|
          && db.products == old(db.products)
          && HasProducts(ItemsOf(db.items, fetched.0.id), db.products)
          && r.body == CartBody(CartService.CalculateCartTotals(fetched.0, db.items, db.products)))
  }

  /** POST /cart: validates the body, then adds to the caller's cart. An
      invalid body is answered with 400 and the issues, before the service
      is reached. */
  method AddToCart(db: Db, header: Option<string>, body: Json) returns (r: Response)
    requires db.Valid()
    modifies db
    ensures db.Valid()
    ensures match ParseAddBody(body)
      case Err(issues) => r == Response(StatusBadRequest, IssuesBody(ValidationError, issues)) && unchanged(db)
      case Ok(input) => Added(db, UserIdOf(header), input, r)
  {
    var parsed := ParseAddBody(body);
    if parsed.Err? {
      return Response(StatusBadRequest, IssuesBody(ValidationError, parsed.error));
    }
    r := AddValidated(db, UserIdOf(header), parsed.value);
  }

  /** POST /cart once the body is valid. */
  method AddValidated(db: Db, userId: string, input: AddInput) returns (r: Response)
    requires db.Valid()
    modifies db
    ensures db.Valid()
    ensures Added(db, userId, input, r)
  {
    var outcome := CartService.AddToCart(db, userId, input.productId, input.quantity);
    r := AddReply(outcome);
  }

  /** DELETE /cart/:itemId: removes the item from the caller's cart; 500
      when the caller's cart holds no item with that id. */
  method RemoveFromCart(db: Db, header: Option<string>, itemId: Id) returns (r: Response)
    requires db.Valid()
    modifies db
    ensures db.Valid()
    ensures var (cart, carts) := CartRepository.FetchOrCreate(old(db.carts), old(db.nextId), UserIdOf(header));
      var removed := CartService.RemoveLine(old(db.items), itemId, cart.id);
      && db.carts == carts
      && db.nextId == old(db.nextId) + |carts| - |old(db.carts)|
      && db.products == old(db.products)
      && (r.status == StatusOk <==> removed.Ok?)
      && (r.status == StatusInternalError <==> removed.Err?)
      && (removed.Err? ==> r.body == MessageBody(InternalError) && db.items == old(db.items))
      && (removed.Ok? ==>
            && db.items == removed.value
            && r.body == CartBody(CartService.CalculateCartTotals(cart, db.items, db.products)))
  {
    var outcome := CartService.RemoveFromCart(db, UserIdOf(header), itemId);
    r := CartReply(outcome);
  }

  /** DELETE /cart: empties the caller's cart. */
  method ClearCart(db: Db, header: Option<string>) returns (r: Response)
    requires db.Valid()
    modifies db
    ensures db.Valid()
    ensures var (cart, carts) := CartRepository.FetchOrCreate(old(db.carts), old(db.nextId), UserIdOf(header));
      && db.carts == carts
      && db.nextId == old(db.nextId) + |carts| - |old(db.carts)|
      && db.items == CartRepository.WithoutCart(old(db.items), cart.id)
      && db.products == old(db.products)
      && r == CartReply(Ok(CartService.CalculateCartTotals(cart, db.items, db.products)))
    ensures r.status == StatusOk && r.body.CartBody?
    ensures r.body.cart.userId == UserIdOf(header)
    ensures r.body.cart.items == [] && r.body.cart.total == 0 && r.body.cart.itemCount == 0
  {
    var cart := CartService.ClearCart(db, UserIdOf(header));
    r := CartReply(Ok(cart));
  }
}
