/** The product controller (backend/src/controllers/product-controller.ts):
    the replies to product lookups and the validation and defaulting of a
    new product's fields. */
module ProductController {
  import opened Types
  import opened Http
  import opened Store

  const RequiredFields: string := "Name, description and price are required"
  const PlaceholderPrefix: string := "https://picsum.photos/400/300?random="

  /** The fields createProduct reads from the request body; a field the
      body lacks, or sets to null, is None. */
  datatype ProductInput = ProductInput(
    name: Option<string>,
    description: Option<string>,
    price: Option<int>,
    priceSale: Option<int>,
    imageUrl: Option<string>)

  /** The record handed to the product service: a product without its id. */
  datatype NewProduct = NewProduct(
    name: string,
    description: string,
    price: int,
    priceSale: Option<int>,
    imageUrl: string)

  /** JavaScript truthiness of an optional string and an optional number. */
  predicate TruthyString(v: Option<string>) {
    v.Some? && v.value != ""
  }

  predicate TruthyNumber(v: Option<int>) {
    v.Some? && v.value != 0
  }

  /** The decimal digit d. */
  function Digit(d: nat): (c: char)
    requires d < 10
    ensures '0' <= c <= '9' && (c as int) - ('0' as int) == d
  {
    "0123456789"[d]
  }

  predicate AllDigits(s: string) {
    forall i :: 0 <= i < |s| ==> '0' <= s[i] <= '9'
  }

  /** The decimal numeral of n, as a template literal prints it: digits
      only, and no leading zero unless n is 0. */
  function NatToString(n: nat): (s: string)
    ensures |s| > 0 && AllDigits(s)
    ensures s[0] == '0' ==> n == 0 && |s| == 1
    decreases n
  {
    if n < 10 then [Digit(n)] else NatToString(n / 10) + [Digit(n % 10)]
  }

  /** The value of a string of decimal digits. */
  function DigitsValue(s: string): nat
    requires AllDigits(s)
  {
    if s == [] then 0 else DigitsValue(s[..|s| - 1]) * 10 + ((s[|s| - 1] as int) - ('0' as int))
  }

  /** Reading the numeral back gives the number: distinct timestamps give
      distinct numerals. */
  lemma {:induction false} NatToStringRoundTrip(n: nat)
    ensures DigitsValue(NatToString(n)) == n
    decreases n
  {
    var s := NatToString(n);
    if n >= 10 {
      NatToStringRoundTrip(n / 10);
      assert s[..|s| - 1] == NatToString(n / 10);
    } else {
      assert s[..|s| - 1] == [];
    }
  }

  /** The image placeholder used when a new product has no image. */
  function PlaceholderImageUrl(now: nat): (r: string)
    ensures |r| > |PlaceholderPrefix| && r[..|PlaceholderPrefix|] == PlaceholderPrefix
    ensures AllDigits(r[|PlaceholderPrefix|..])
    ensures DigitsValue(r[|PlaceholderPrefix|..]) == now
  {
    var digits := NatToString(now);
    NatToStringRoundTrip(now);
    var r := PlaceholderPrefix + digits;
    assert r[|PlaceholderPrefix|..] == digits;
    r
  }

  /** createProduct before the service call: 400 when name, description or
      price is falsy (an empty string or a zero price counts as missing);
      otherwise the record to create, with a falsy priceSale turned into
      null and a falsy imageUrl replaced by the placeholder for now. */
  function CreateProductRequest(body: ProductInput, now: nat): (r: Result<NewProduct, Response>)
    ensures r.Err? <==> !TruthyString(body.name) || !TruthyString(body.description) || !TruthyNumber(body.price)
    ensures r.Err? ==> r.error == Response(StatusBadRequest, MessageBody(RequiredFields))
    ensures r.Ok? ==>
      && Some(r.value.name) == body.name && Some(r.value.description) == body.description
      && Some(r.value.price) == body.price && r.value.price != 0
    ensures r.Ok? ==> (r.value.priceSale.Some? <==> TruthyNumber(body.priceSale))
    ensures r.Ok? && TruthyNumber(body.priceSale) ==> r.value.priceSale == body.priceSale
    ensures r.Ok? && TruthyString(body.imageUrl) ==> r.value.imageUrl == body.imageUrl.value
    ensures r.Ok? && !TruthyString(body.imageUrl) ==> r.value.imageUrl == PlaceholderImageUrl(now)
    ensures r.Ok? ==> r.value.imageUrl != ""
  {
    if !TruthyString(body.name) || !TruthyString(body.description) || !TruthyNumber(body.price) then
      Err(Response(StatusBadRequest, MessageBody(RequiredFields)))
    else
      Ok(NewProduct(
        body.name.value,
        body.description.value,
        body.price.value,
        if TruthyNumber(body.priceSale) then body.priceSale else None,
        if TruthyString(body.imageUrl) then body.imageUrl.value else PlaceholderImageUrl(now)))
  }

  /** A zero price is rejected like a missing one. */
  lemma ZeroPriceRejected(name: string, description: string, now: nat)
    ensures CreateProductRequest(ProductInput(Some(name), Some(description), Some(0), None, None), now)
         == Err(Response(StatusBadRequest, MessageBody(RequiredFields)))
  {
  }

  /** The reply to createProduct once the service was called: 201 with the
      created product, or 500 "Internal error". */
  function CreateProductReply(outcome: Result<Product, Error>): (r: Response)
    ensures r.status == StatusCreated <==> outcome.Ok?
    ensures r.status == StatusInternalError <==> outcome.Err?
    ensures outcome.Ok? ==> r.body == ProductBody(outcome.value)
    ensures outcome.Err? ==> r.body == MessageBody(InternalError)
  {
    match outcome
    case Ok(p) => Response(StatusCreated, ProductBody(p))
    case Err(_) => Response(StatusInternalError, MessageBody(InternalError))
  }

  /** The reply to getProduct: the product with 200, 404 "Product not found"
      when there is none, 500 "Internal error" when the lookup fails. */
  function GetProductReply(outcome: Result<Option<Product>, Error>): (r: Response)
    ensures r.status == StatusOk <==> outcome.Ok? && outcome.value.Some?
    ensures r.status == StatusNotFound <==> outcome.Ok? && outcome.value.None?
    ensures r.status == StatusInternalError <==> outcome.Err?
    ensures r.status == StatusOk ==> r.body == ProductBody(outcome.value.value)
    ensures r.status == StatusNotFound ==> r.body == MessageBody(ProductNotFound)
    ensures r.status == StatusInternalError ==> r.body == MessageBody(InternalError)
  {
    match outcome
    case Err(_) => Response(StatusInternalError, MessageBody(InternalError))
    case Ok(None) => Response(StatusNotFound, MessageBody(ProductNotFound))
    case Ok(Some(p)) => Response(StatusOk, ProductBody(p))
  }

  /** The reply to getAllProducts: the list with 200, or 500 "Internal error". */
  function GetAllProductsReply(outcome: Result<seq<Product>, Error>): (r: Response)
    ensures r.status == StatusOk <==> outcome.Ok?
    ensures r.status == StatusInternalError <==> outcome.Err?
    ensures outcome.Ok? ==> r.body == ProductListBody(outcome.value)
    ensures outcome.Err? ==> r.body == MessageBody(InternalError)
  {
    match outcome
    case Ok(ps) => Response(StatusOk, ProductListBody(ps))
    case Err(_) => Response(StatusInternalError, MessageBody(InternalError))
  }

  /** GET /products/:id against the store's product table. */
  method GetProduct(db: Db, id: string) returns (r: Response)
    ensures id in db.products <==> r.status == StatusOk
    ensures id in db.products ==> r.body == ProductBody(db.products[id])
    ensures id !in db.products <==> r == Response(StatusNotFound, MessageBody(ProductNotFound))
  {
    var found := if id in db.products then Some(db.products[id]) else None;
    r := GetProductReply(Ok(found));
  }

  /** POST /products against the store's product table. The new product's
      id, chosen by the database, is a parameter. An invalid body is
      answered with 400 and the table is left untouched. */
  method CreateProduct(db: Db, body: ProductInput, now: nat, newId: string) returns (r: Response)
    requires db.Valid() && newId !in db.products
    modifies db
    ensures db.Valid()
    ensures match CreateProductRequest(body, now)
      case Err(reply) => r == reply && unchanged(db)
      case Ok(p) =>
        var created := Product(newId, p.name, p.description, p.price, p.priceSale, Some(p.imageUrl));
        && db.products == old(db.products)[newId := created]
        && db.carts == old(db.carts) && db.items == old(db.items) && db.nextId == old(db.nextId)
        && r == Response(StatusCreated, ProductBody(created))
  {
    var request := CreateProductRequest(body, now);
    if request.Err? {
      return request.error;
    }
    var p := request.value;
    var created := Product(newId, p.name, p.description, p.price, p.priceSale, Some(p.imageUrl));
    db.products := db.products[newId := created];
    r := CreateProductReply(Ok(created));
  }
}
