/** What the controllers read from a request and write to a response: a
    parsed JSON request body, validation issues reduced to the offending
    field's path and the kind of failure, and a status code with a JSON
    body. */
module Http {
  import opened Types

  /** A parsed JSON value. Numbers are kept exact, as reals. */
  datatype Json =
    | JNull
    | JBool(b: bool)
    | JNumber(n: real)
    | JString(s: string)
    | JArray(elems: seq<Json>)
    | JObject(fields: map<string, Json>)

  /** Why a field failed validation: a value of the wrong type (the
      expected type is named, "integer" for a non-integral number), or a
      number below the minimum. */
  datatype IssueCode = InvalidType(expected: string) | TooSmall(minimum: int)

  /** One validation issue: the path of the offending field and its code.
      The schema library's human-readable message and its other fields
      are not kept. */
  datatype Issue = Issue(path: seq<string>, code: IssueCode)

  /** The JSON bodies the controllers send. */
  datatype Body =
    | CartBody(cart: Cart)
    | ProductBody(product: Product)
    | ProductListBody(products: seq<Product>)
    | MessageBody(message: string)
    | IssuesBody(message: string, issues: seq<Issue>)

  datatype Response = Response(status: int, body: Body)

  const StatusOk: int := 200
  const StatusCreated: int := 201
  const StatusBadRequest: int := 400
  const StatusNotFound: int := 404
  const StatusInternalError: int := 500

  const InternalError: string := "Internal error"
}
