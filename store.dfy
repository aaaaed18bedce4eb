/** The persistent store the repositories and the cart service share, kept
    in memory: the product table, the cart table, the line-item table and the
    counter that mints fresh ids. The queries the services issue against it
    (first match by user, by cart and product, by id and cart; all rows of a
    cart) are functions over the tables. */
module Store {
  import opened Types

  /** The line items of one cart, in table order. */
  function ItemsOf(rows: seq<LineItem>, cartId: Id): (r: seq<LineItem>)
    ensures |r| <= |rows|
    ensures forall k :: 0 <= k < |r| ==> r[k].cartId == cartId
    ensures forall products :: HasProducts(rows, products) ==> HasProducts(r, products)
  {
    if rows == [] then []
    else
      var head := if rows[0].cartId == cartId then [rows[0]] else [];
      var rest := ItemsOf(rows[1..], cartId);
      assert forall products :: HasProducts(rows, products) ==> HasProducts(rows[1..], products) && HasProducts(head, products);
      head + rest
  }

  /** Every row refers to a product of the catalog. */
  ghost predicate HasProducts(rows: seq<LineItem>, products: map<string, Product>) {
    forall k :: 0 <= k < |rows| ==> rows[k].productId in products
  }

  /** Index of the first cart owned by userId, if any. */
  function CartIndex(carts: seq<CartRow>, userId: string): (r: Option<nat>)
    ensures r.Some? ==> r.value < |carts| && carts[r.value].userId == userId
    ensures r.Some? ==> forall j :: 0 <= j < r.value ==> carts[j].userId != userId
    ensures r.None? <==> forall j :: 0 <= j < |carts| ==> carts[j].userId != userId
  {
    if carts == [] then None
    else if carts[0].userId == userId then Some(0)
    else match CartIndex(carts[1..], userId)
      case None => None
      case Some(i) => Some(i + 1)
  }

  /** Index of the first line item of cartId for productId, if any. */
  function LineIndex(rows: seq<LineItem>, cartId: Id, productId: string): (r: Option<nat>)
    ensures r.Some? ==> r.value < |rows| && rows[r.value].cartId == cartId && rows[r.value].productId == productId
    ensures r.Some? ==> forall j :: 0 <= j < r.value ==> !(rows[j].cartId == cartId && rows[j].productId == productId)
    ensures r.None? <==> forall j :: 0 <= j < |rows| ==> !(rows[j].cartId == cartId && rows[j].productId == productId)
  {
    if rows == [] then None
    else if rows[0].cartId == cartId && rows[0].productId == productId then Some(0)
    else match LineIndex(rows[1..], cartId, productId)
      case None => None
      case Some(i) => Some(i + 1)
  }

  /** Index of the first line item with id itemId that belongs to cartId, if any. */
  function RowIndex(rows: seq<LineItem>, itemId: Id, cartId: Id): (r: Option<nat>)
    ensures r.Some? ==> r.value < |rows| && rows[r.value].id == itemId && rows[r.value].cartId == cartId
    ensures r.Some? ==> forall j :: 0 <= j < r.value ==> !(rows[j].id == itemId && rows[j].cartId == cartId)
    ensures r.None? <==> forall j :: 0 <= j < |rows| ==> !(rows[j].id == itemId && rows[j].cartId == cartId)
  {
    if rows == [] then None
    else if rows[0].id == itemId && rows[0].cartId == cartId then Some(0)
    else match RowIndex(rows[1..], itemId, cartId)
      case None => None
      case Some(i) => Some(i + 1)
  }

  function CartIds(carts: seq<CartRow>): set<Id> {
    set c | c in carts :: c.id
  }

  /** Cart ids are distinct and each user owns at most one cart. */
  ghost predicate OneCartPerUser(carts: seq<CartRow>) {
    forall i, j :: 0 <= i < j < |carts| ==> carts[i].id != carts[j].id && carts[i].userId != carts[j].userId
  }

  /** Item ids are distinct and each cart holds at most one line per product. */
  ghost predicate UniqueLines(rows: seq<LineItem>) {
    forall i, j :: 0 <= i < j < |rows| ==>
      rows[i].id != rows[j].id && (rows[i].cartId != rows[j].cartId || rows[i].productId != rows[j].productId)
  }

  /** Every quantity stored is at least one. */
  ghost predicate PositiveQuantities(rows: seq<LineItem>) {
    forall k :: 0 <= k < |rows| ==> rows[k].quantity >= 1
  }

  /** Table invariants: ids below the counter, the uniqueness rules, and
      every line item referring to an existing cart and product. */
  ghost predicate Consistent(products: map<string, Product>, carts: seq<CartRow>, items: seq<LineItem>, nextId: nat) {
    && (forall j :: 0 <= j < |carts| ==> carts[j].id < nextId)
    && (forall k :: 0 <= k < |items| ==> items[k].id < nextId)
    && OneCartPerUser(carts)
    && UniqueLines(items)
    && HasProducts(items, products)
    && (forall k :: 0 <= k < |items| ==> items[k].cartId in CartIds(carts))
  }

  class Db {
    var products: map<string, Product>
    var carts: seq<CartRow>
    var items: seq<LineItem>
    var nextId: nat

    ghost predicate Valid()
      reads this
    {
      Consistent(products, carts, items, nextId)
    }

    /** A store holding a catalog and no carts. */
    constructor (catalog: map<string, Product>)
      ensures Valid()
      ensures products == catalog && carts == [] && items == [] && nextId == 0
    {
      products := catalog;
      carts := [];
      items := [];
      nextId := 0;
    }
  }

  /** The rows of a cart are exactly the table's rows that carry its id. */
  lemma {:induction false} ItemsOfMembers(rows: seq<LineItem>, cartId: Id)
    ensures forall x :: x in ItemsOf(rows, cartId) <==> x in rows && x.cartId == cartId
  {
    if rows != [] {
      ItemsOfMembers(rows[1..], cartId);
      assert forall x :: x in rows <==> x == rows[0] || x in rows[1..];
    }
  }

  lemma {:induction false} ItemsOfAppend(a: seq<LineItem>, b: seq<LineItem>, cartId: Id)
    ensures ItemsOf(a + b, cartId) == ItemsOf(a, cartId) + ItemsOf(b, cartId)
  {
    if a == [] {
      assert a + b == b;
    } else {
      assert (a + b)[1..] == a[1..] + b;
      ItemsOfAppend(a[1..], b, cartId);
    }
  }

  /** The rows of a cart, split around position i of the table. */
  lemma ItemsOfSplit(rows: seq<LineItem>, i: nat, cartId: Id)
    requires i < |rows|
    ensures ItemsOf(rows, cartId)
         == ItemsOf(rows[..i], cartId) + ItemsOf([rows[i]], cartId) + ItemsOf(rows[i + 1..], cartId)
  {
    assert rows == rows[..i] + [rows[i]] + rows[i + 1..];
    ItemsOfAppend(rows[..i] + [rows[i]], rows[i + 1..], cartId);
    ItemsOfAppend(rows[..i], [rows[i]], cartId);
  }

  /** Rewriting one row leaves the rows of every cart it is not in as they were. */
  lemma ItemsOfUpdateOther(rows: seq<LineItem>, i: nat, x: LineItem, cartId: Id)
    requires i < |rows| && rows[i].cartId != cartId && x.cartId != cartId
    ensures ItemsOf(rows[i := x], cartId) == ItemsOf(rows, cartId)
  {
    var rows' := rows[i := x];
    ItemsOfSplit(rows, i, cartId);
    ItemsOfSplit(rows', i, cartId);
    assert rows'[..i] == rows[..i] && rows'[i + 1..] == rows[i + 1..];
  }

  /** Rewriting row i keeps its position among the rows of its cart. */
  lemma ItemsOfUpdateSame(rows: seq<LineItem>, i: nat, x: LineItem, cartId: Id)
    requires i < |rows| && rows[i].cartId == cartId && x.cartId == cartId
    ensures var m := |ItemsOf(rows[..i], cartId)|;
      && m < |ItemsOf(rows, cartId)|
      && ItemsOf(rows, cartId)[m] == rows[i]
      && ItemsOf(rows[i := x], cartId) == ItemsOf(rows, cartId)[m := x]
  {
    var rows' := rows[i := x];
    ItemsOfSplit(rows, i, cartId);
    ItemsOfSplit(rows', i, cartId);
    assert rows'[..i] == rows[..i] && rows'[i + 1..] == rows[i + 1..];
    assert ItemsOf([x], cartId) == [x] && ItemsOf([rows[i]], cartId) == [rows[i]];
  }

  /** Deleting row i removes from its cart the entry at the same position. */
  lemma ItemsOfDeleteSame(rows: seq<LineItem>, i: nat, cartId: Id)
    requires i < |rows| && rows[i].cartId == cartId
    ensures var m := |ItemsOf(rows[..i], cartId)|;
      var before := ItemsOf(rows, cartId);
      && m < |before|
      && before[m] == rows[i]
      && ItemsOf(rows[..i] + rows[i + 1..], cartId) == before[..m] + before[m + 1..]
  {
    ItemsOfSplit(rows, i, cartId);
    ItemsOfAppend(rows[..i], rows[i + 1..], cartId);
    assert ItemsOf([rows[i]], cartId) == [rows[i]];
    var m := |ItemsOf(rows[..i], cartId)|;
    var before := ItemsOf(rows, cartId);
    assert before[..m] == ItemsOf(rows[..i], cartId);
    assert before[m + 1..] == ItemsOf(rows[i + 1..], cartId);
  }

  /** Rewriting row i with a row of the same cart and product keeps the
      first match of every (cart, product) query where it was. */
  lemma {:induction false} LineIndexUpdate(rows: seq<LineItem>, i: nat, x: LineItem, cartId: Id, productId: string)
    requires i < |rows| && x.cartId == rows[i].cartId && x.productId == rows[i].productId
    ensures LineIndex(rows[i := x], cartId, productId) == LineIndex(rows, cartId, productId)
  {
    if i == 0 {
      assert rows[i := x][1..] == rows[1..];
    } else {
      assert rows[i := x][1..] == rows[1..][i - 1 := x];
      LineIndexUpdate(rows[1..], i - 1, x, cartId, productId);
    }
  }

  /** Appending a row only matters to a query that had no match before. */
  lemma {:induction false} LineIndexAppend(rows: seq<LineItem>, x: LineItem, cartId: Id, productId: string)
    ensures LineIndex(rows + [x], cartId, productId)
         == if LineIndex(rows, cartId, productId).Some? then LineIndex(rows, cartId, productId)
            else if x.cartId == cartId && x.productId == productId then Some(|rows|)
            else None
  {
    if rows == [] {
      assert [x][1..] == [];
    } else {
      assert (rows + [x])[1..] == rows[1..] + [x];
      LineIndexAppend(rows[1..], x, cartId, productId);
    }
  }

  /** Deleting one row leaves the rows of every cart it is not in as they were. */
  lemma ItemsOfDeleteOther(rows: seq<LineItem>, i: nat, cartId: Id)
    requires i < |rows| && rows[i].cartId != cartId
    ensures ItemsOf(rows[..i] + rows[i + 1..], cartId) == ItemsOf(rows, cartId)
  {
    ItemsOfSplit(rows, i, cartId);
    ItemsOfAppend(rows[..i], rows[i + 1..], cartId);
  }

  /** With unique ids, deleting row i removes exactly the rows with its id. */
  lemma DeleteMembers(rows: seq<LineItem>, i: nat)
    requires UniqueLines(rows) && i < |rows|
    ensures forall y :: y in rows[..i] + rows[i + 1..] <==> y in rows && y.id != rows[i].id
  {
    var rows' := rows[..i] + rows[i + 1..];
    forall y | y in rows' ensures y in rows && y.id != rows[i].id {
      var k :| 0 <= k < |rows'| && rows'[k] == y;
      if k < i {
        assert y == rows[k];
      } else {
        assert y == rows[k + 1];
      }
    }
    forall y | y in rows && y.id != rows[i].id ensures y in rows' {
      var k :| 0 <= k < |rows| && rows[k] == y;
      if k < i {
        assert rows'[k] == y;
      } else {
        assert rows'[k - 1] == y;
      }
    }
  }
}
