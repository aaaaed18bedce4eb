/** The cart service (backend/src/services/cart-service.ts): the aggregate
    built from a cart's stored line items, and the operations that change
    those line items and return the recomputed aggregate. */
module CartService {
  import opened Types
  import opened Store
  import CartRepository

  /** A stored row joined with its product's current name, price and image. */
  function Enrich(row: LineItem, products: map<string, Product>): CartLine
    requires row.productId in products
  {
    var p := products[row.productId];
    CartLine(row.id, row.productId, p.name, p.price, p.imageUrl, row.quantity)
  }

  /** Σ product price × quantity over joined rows, accumulated left to right. */
  function Subtotal(rows: seq<LineItem>, products: map<string, Product>): (r: int)
    requires HasProducts(rows, products)
    ensures rows == [] ==> r == 0
    ensures |rows| == 1 ==> r == products[rows[0].productId].price * rows[0].quantity
  {
    if rows == [] then 0
    else
      var last := rows[|rows| - 1];
      Subtotal(rows[..|rows| - 1], products) + products[last.productId].price * last.quantity
  }

  /** Σ quantity over rows, accumulated left to right. */
  function Quantities(rows: seq<LineItem>): (r: int)
    ensures rows == [] ==> r == 0
    ensures |rows| == 1 ==> r == rows[0].quantity
  {
    if rows == [] then 0 else Quantities(rows[..|rows| - 1]) + rows[|rows| - 1].quantity
  }

  /** Σ price × quantity over the entries of an aggregate. */
  function Total(lines: seq<CartLine>): int {
    if lines == [] then 0 else Total(lines[..|lines| - 1]) + lines[|lines| - 1].price * lines[|lines| - 1].quantity
  }

  /** Σ quantity over the entries of an aggregate. */
  function ItemCount(lines: seq<CartLine>): int {
    if lines == [] then 0 else ItemCount(lines[..|lines| - 1]) + lines[|lines| - 1].quantity
  }

  lemma {:induction false} SumsAppend(a: seq<LineItem>, b: seq<LineItem>, products: map<string, Product>)
    requires HasProducts(a, products) && HasProducts(b, products)
    ensures Subtotal(a + b, products) == Subtotal(a, products) + Subtotal(b, products)
    ensures Quantities(a + b) == Quantities(a) + Quantities(b)
    decreases |b|
  {
    if b == [] {
      assert a + b == a;
    } else {
      var b' := b[..|b| - 1];
      assert (a + b)[..|a + b| - 1] == a + b';
      SumsAppend(a, b', products);
    }
  }

  lemma {:induction false} LineSumsAppend(a: seq<CartLine>, b: seq<CartLine>)
    ensures Total(a + b) == Total(a) + Total(b)
    ensures ItemCount(a + b) == ItemCount(a) + ItemCount(b)
    decreases |b|
  {
    if b == [] {
      assert a + b == a;
    } else {
      var b' := b[..|b| - 1];
      assert (a + b)[..|a + b| - 1] == a + b';
      LineSumsAppend(a, b');
    }
  }

  lemma Distribute(price: int, a: int, b: int)
    ensures price * (a + b) == price * a + price * b
  {
  }

  /** The sums with the entry at position m replaced by x. */
  lemma SumsUpdate(rows: seq<LineItem>, m: nat, x: LineItem, products: map<string, Product>)
    requires m < |rows| && HasProducts(rows, products) && x.productId in products
    ensures HasProducts(rows[m := x], products)
    ensures Subtotal(rows[m := x], products) == Subtotal(rows, products)
      - products[rows[m].productId].price * rows[m].quantity + products[x.productId].price * x.quantity
    ensures Quantities(rows[m := x]) == Quantities(rows) - rows[m].quantity + x.quantity
  {
    var pre, post := rows[..m], rows[m + 1..];
    assert rows == pre + [rows[m]] + post;
    assert rows[m := x] == pre + [x] + post;
    SumsAppend(pre + [rows[m]], post, products);
    SumsAppend(pre, [rows[m]], products);
    SumsAppend(pre + [x], post, products);
    SumsAppend(pre, [x], products);
    assert [x][..0] == [] && [rows[m]][..0] == [];
  }

  /** The sums with the entry at position m deleted. */
  lemma SumsDelete(rows: seq<LineItem>, m: nat, products: map<string, Product>)
    requires m < |rows| && HasProducts(rows, products)
    ensures HasProducts(rows[..m] + rows[m + 1..], products)
    ensures Subtotal(rows[..m] + rows[m + 1..], products)
      == Subtotal(rows, products) - products[rows[m].productId].price * rows[m].quantity
    ensures Quantities(rows[..m] + rows[m + 1..]) == Quantities(rows) - rows[m].quantity
  {
    var pre, post := rows[..m], rows[m + 1..];
    assert rows == pre + [rows[m]] + post;
    SumsAppend(pre + [rows[m]], post, products);
    SumsAppend(pre, [rows[m]], products);
    SumsAppend(pre, post, products);
    assert [rows[m]][..0] == [];
  }

  /** The entries of an aggregate, one per joined row, in row order. */
  function EnrichAll(rows: seq<LineItem>, products: map<string, Product>): (r: seq<CartLine>)
    requires HasProducts(rows, products)
    ensures |r| == |rows|
    ensures forall k :: 0 <= k < |rows| ==> r[k] == Enrich(rows[k], products)
  {
    seq(|rows|, k requires 0 <= k < |rows| => Enrich(rows[k], products))
  }

  /** The total and item count computed from the stored rows agree with the
      sums over the entries shown to the caller. */
  lemma {:induction false} SumsOfEnriched(rows: seq<LineItem>, products: map<string, Product>)
    requires HasProducts(rows, products)
    ensures Total(EnrichAll(rows, products)) == Subtotal(rows, products)
    ensures ItemCount(EnrichAll(rows, products)) == Quantities(rows)
  {
    if rows != [] {
      var init := rows[..|rows| - 1];
      SumsOfEnriched(init, products);
      assert EnrichAll(rows, products)[..|rows| - 1] == EnrichAll(init, products);
    }
  }

  /** The aggregate of a cart: each of its stored line items joined with the
      current product record, plus the total price and the item count. */
  function CalculateCartTotals(cart: CartRow, rows: seq<LineItem>, products: map<string, Product>): (r: Cart)
    requires HasProducts(ItemsOf(rows, cart.id), products)
    ensures r.id == cart.id && r.userId == cart.userId
    ensures |r.items| == |ItemsOf(rows, cart.id)|
    ensures forall k :: 0 <= k < |r.items| ==>
      var row := ItemsOf(rows, cart.id)[k];
      var p := products[row.productId];
      && r.items[k].id == row.id && r.items[k].productId == row.productId && r.items[k].quantity == row.quantity
      && r.items[k].name == p.name && r.items[k].price == p.price && r.items[k].imageUrl == p.imageUrl
    ensures r.total == Total(r.items) && r.itemCount == ItemCount(r.items)
    ensures r.total == Subtotal(ItemsOf(rows, cart.id), products)
    ensures r.itemCount == Quantities(ItemsOf(rows, cart.id))
    ensures ItemsOf(rows, cart.id) == [] ==> r.items == [] && r.total == 0 && r.itemCount == 0
  {
    var joined := ItemsOf(rows, cart.id);
    SumsOfEnriched(joined, products);
    Cart(cart.id, cart.userId, EnrichAll(joined, products), Subtotal(joined, products), Quantities(joined))
  }

  /** With positive quantities the item count is at least the number of
      entries, so it is zero exactly when the cart is empty. */
  lemma {:induction false} ItemCountBounds(lines: seq<CartLine>)
    requires forall k :: 0 <= k < |lines| ==> lines[k].quantity >= 1
    ensures ItemCount(lines) >= |lines|
    ensures ItemCount(lines) == 0 <==> lines == []
  {
    if lines != [] {
      ItemCountBounds(lines[..|lines| - 1]);
    }
  }

  /** The order of the entries does not matter: any permutation of an
      aggregate's entries has the same total and item count. */
  lemma {:induction false} SumsArePermutationInvariant(a: seq<CartLine>, b: seq<CartLine>)
    requires multiset(a) == multiset(b)
    ensures Total(a) == Total(b) && ItemCount(a) == ItemCount(b)
    decreases |a|
  {
    if a == [] {
      assert |b| == |multiset(b)| == 0;
    } else {
      var x := a[|a| - 1];
      assert x in multiset(b) by {
        assert a == a[..|a| - 1] + [x];
      }
      var j :| 0 <= j < |b| && b[j] == x;
      MultisetRemoveAt(a, |a| - 1);
      MultisetRemoveAt(b, j);
      assert a[..|a| - 1] + a[|a|..] == a[..|a| - 1];
      SumsArePermutationInvariant(a[..|a| - 1], b[..j] + b[j + 1..]);
      LineSumsRemoveAt(b, j);
    }
  }

  /** Taking entry j out of a sequence takes one copy of it out of its multiset. */
  lemma MultisetRemoveAt(lines: seq<CartLine>, j: nat)
    requires j < |lines|
    ensures multiset(lines[..j] + lines[j + 1..]) == multiset(lines) - multiset{lines[j]}
  {
    assert lines == lines[..j] + [lines[j]] + lines[j + 1..];
  }

  /** Taking entry j out of an aggregate takes its share out of the sums. */
  lemma LineSumsRemoveAt(lines: seq<CartLine>, j: nat)
    requires j < |lines|
    ensures var rest := lines[..j] + lines[j + 1..];
      && Total(lines) == Total(rest) + lines[j].price * lines[j].quantity
      && ItemCount(lines) == ItemCount(rest) + lines[j].quantity
  {
    assert lines == lines[..j] + [lines[j]] + lines[j + 1..];
    LineSumsAppend(lines[..j] + [lines[j]], lines[j + 1..]);
    LineSumsAppend(lines[..j], [lines[j]]);
    LineSumsAppend(lines[..j], lines[j + 1..]);
  }

  /** The quantity cartId holds of productId: that of its first matching row, 0 without one. */
  function QuantityOf(rows: seq<LineItem>, cartId: Id, productId: string): int {
    match LineIndex(rows, cartId, productId)
    case Some(i) => rows[i].quantity
    case None => 0
  }

  /** The line-item table after adding quantity of productId to cartId.
      The first matching row is raised by quantity, keeping its id, cart,
      product and position, and no row is created. Without a matching row,
      exactly one row with id freshId and the requested quantity is appended. */
  function Upsert(rows: seq<LineItem>, cartId: Id, productId: string, quantity: int, freshId: Id): (r: seq<LineItem>)
    ensures match LineIndex(rows, cartId, productId)
      case Some(i) =>
        && |r| == |rows|
        && r[i] == LineItem(rows[i].id, cartId, productId, rows[i].quantity + quantity)
        && forall k :: 0 <= k < |rows| && k != i ==> r[k] == rows[k]
      case None => r == rows + [LineItem(freshId, cartId, productId, quantity)]
  {
    match LineIndex(rows, cartId, productId)
    case Some(i) => rows[i := rows[i].(quantity := rows[i].quantity + quantity)]
    case None => rows + [LineItem(freshId, cartId, productId, quantity)]
  }

  /** The requested quantity is added to productId's line of cartId, and
      every other (cart, product) quantity is unchanged. */
  lemma UpsertQuantity(rows: seq<LineItem>, cartId: Id, productId: string, quantity: int, freshId: Id, c: Id, p: string)
    ensures var rows' := Upsert(rows, cartId, productId, quantity, freshId);
      QuantityOf(rows', c, p) == QuantityOf(rows, c, p) + (if c == cartId && p == productId then quantity else 0)
  {
    var found := LineIndex(rows, cartId, productId);
    if found.Some? {
      var i := found.value;
      var x := rows[i].(quantity := rows[i].quantity + quantity);
      assert Upsert(rows, cartId, productId, quantity, freshId) == rows[i := x];
      RaiseQuantity(rows, i, quantity, c, p);
    } else {
      var x := LineItem(freshId, cartId, productId, quantity);
      assert Upsert(rows, cartId, productId, quantity, freshId) == rows + [x];
      InsertQuantity(rows, x, c, p);
    }
  }

  /** Raising the first line of a (cart, product) pair raises that pair's quantity only. */
  lemma RaiseQuantity(rows: seq<LineItem>, i: nat, quantity: int, c: Id, p: string)
    requires i < |rows| && LineIndex(rows, rows[i].cartId, rows[i].productId) == Some(i)
    ensures var rows' := rows[i := rows[i].(quantity := rows[i].quantity + quantity)];
      QuantityOf(rows', c, p) == QuantityOf(rows, c, p) + (if c == rows[i].cartId && p == rows[i].productId then quantity else 0)
  {
    var x := rows[i].(quantity := rows[i].quantity + quantity);
    LineIndexUpdate(rows, i, x, c, p);
  }

  /** Appending the first line of a (cart, product) pair gives that pair the line's quantity. */
  lemma InsertQuantity(rows: seq<LineItem>, x: LineItem, c: Id, p: string)
    requires LineIndex(rows, x.cartId, x.productId).None?
    ensures QuantityOf(rows + [x], c, p) == QuantityOf(rows, c, p) + (if c == x.cartId && p == x.productId then x.quantity else 0)
  {
    LineIndexAppend(rows, x, c, p);
    var k := LineIndex(rows, c, p);
    if k.Some? {
      assert (rows + [x])[k.value] == rows[k.value];
    }
  }

  /** Adding to cartId leaves the rows of every other cart as they were. */
  lemma UpsertOtherCarts(rows: seq<LineItem>, cartId: Id, productId: string, quantity: int, freshId: Id, other: Id)
    requires other != cartId
    ensures ItemsOf(Upsert(rows, cartId, productId, quantity, freshId), other) == ItemsOf(rows, other)
  {
    match LineIndex(rows, cartId, productId)
    case Some(i) =>
      ItemsOfUpdateOther(rows, i, rows[i].(quantity := rows[i].quantity + quantity), other);
    case None =>
      ItemsOfAppend(rows, [LineItem(freshId, cartId, productId, quantity)], other);
  }

  /** Adding quantity of productId raises the cart's item count by quantity
      and its total by the product's price times quantity. */
  lemma UpsertSums(rows: seq<LineItem>, cartId: Id, productId: string, quantity: int, freshId: Id, products: map<string, Product>)
    requires HasProducts(ItemsOf(rows, cartId), products) && productId in products
    ensures var cartRows' := ItemsOf(Upsert(rows, cartId, productId, quantity, freshId), cartId);
      && HasProducts(cartRows', products)
      && Quantities(cartRows') == Quantities(ItemsOf(rows, cartId)) + quantity
      && Subtotal(cartRows', products) == Subtotal(ItemsOf(rows, cartId), products) + products[productId].price * quantity
  {
    var found := LineIndex(rows, cartId, productId);
    if found.Some? {
      var i := found.value;
      var x := rows[i].(quantity := rows[i].quantity + quantity);
      assert Upsert(rows, cartId, productId, quantity, freshId) == rows[i := x];
      RaiseSums(rows, i, quantity, products);
    } else {
      var x := LineItem(freshId, cartId, productId, quantity);
      assert Upsert(rows, cartId, productId, quantity, freshId) == rows + [x];
      InsertSums(rows, x, products);
    }
  }

  /** Raising the quantity of row i adds to its cart's sums that row's share of the increase. */
  lemma RaiseSums(rows: seq<LineItem>, i: nat, quantity: int, products: map<string, Product>)
    requires i < |rows| && HasProducts(ItemsOf(rows, rows[i].cartId), products) && rows[i].productId in products
    ensures var cartId := rows[i].cartId;
      var cartRows' := ItemsOf(rows[i := rows[i].(quantity := rows[i].quantity + quantity)], cartId);
      && HasProducts(cartRows', products)
      && Quantities(cartRows') == Quantities(ItemsOf(rows, cartId)) + quantity
      && Subtotal(cartRows', products) == Subtotal(ItemsOf(rows, cartId), products) + products[rows[i].productId].price * quantity
  {
    var cartId := rows[i].cartId;
    var before := ItemsOf(rows, cartId);
    var x := rows[i].(quantity := rows[i].quantity + quantity);
    ItemsOfUpdateSame(rows, i, x, cartId);
    var m := |ItemsOf(rows[..i], cartId)|;
    SumsUpdate(before, m, x, products);
    Distribute(products[x.productId].price, rows[i].quantity, quantity);
  }

  /** Appending row x adds x's share to the sums of its cart. */
  lemma InsertSums(rows: seq<LineItem>, x: LineItem, products: map<string, Product>)
    requires HasProducts(ItemsOf(rows, x.cartId), products) && x.productId in products
    ensures var cartRows' := ItemsOf(rows + [x], x.cartId);
      && HasProducts(cartRows', products)
      && Quantities(cartRows') == Quantities(ItemsOf(rows, x.cartId)) + x.quantity
      && Subtotal(cartRows', products) == Subtotal(ItemsOf(rows, x.cartId), products) + products[x.productId].price * x.quantity
  {
    var before := ItemsOf(rows, x.cartId);
    ItemsOfAppend(rows, [x], x.cartId);
    assert ItemsOf([x], x.cartId) == [x];
    SumsAppend(before, [x], products);
    assert [x][..0] == [];
  }

  /** The aggregate after adding quantity of productId to a cart: that
      line's quantity, the item count and the total grow by the added amount
      and its price, and no other cart changes. */
  lemma UpsertAggregate(rows: seq<LineItem>, cart: CartRow, productId: string, quantity: int, freshId: Id, products: map<string, Product>)
    requires HasProducts(ItemsOf(rows, cart.id), products) && productId in products
    ensures var rows' := Upsert(rows, cart.id, productId, quantity, freshId);
      && HasProducts(ItemsOf(rows', cart.id), products)
      && var r := CalculateCartTotals(cart, rows', products);
      && QuantityOf(rows', cart.id, productId) == QuantityOf(rows, cart.id, productId) + quantity
      && r.itemCount == Quantities(ItemsOf(rows, cart.id)) + quantity
      && r.total == Subtotal(ItemsOf(rows, cart.id), products) + products[productId].price * quantity
      && forall c :: c != cart.id ==> ItemsOf(rows', c) == ItemsOf(rows, c)
  {
    UpsertSums(rows, cart.id, productId, quantity, freshId, products);
    UpsertQuantity(rows, cart.id, productId, quantity, freshId, cart.id, productId);
    forall c | c != cart.id
      ensures ItemsOf(Upsert(rows, cart.id, productId, quantity, freshId), c) == ItemsOf(rows, c)
    {
      UpsertOtherCarts(rows, cart.id, productId, quantity, freshId, c);
    }
  }

  /** Adding keeps ids and (cart, product) lines unique when freshId is unused. */
  lemma UpsertKeepsUniqueLines(rows: seq<LineItem>, cartId: Id, productId: string, quantity: int, freshId: Id)
    requires UniqueLines(rows)
    requires forall k :: 0 <= k < |rows| ==> rows[k].id < freshId
    ensures UniqueLines(Upsert(rows, cartId, productId, quantity, freshId))
  {
    var rows' := Upsert(rows, cartId, productId, quantity, freshId);
    if LineIndex(rows, cartId, productId).None? {
      forall i, j | 0 <= i < j < |rows'|
        ensures rows'[i].id != rows'[j].id && (rows'[i].cartId != rows'[j].cartId || rows'[i].productId != rows'[j].productId)
      {
        if j == |rows| {
          assert rows'[i] == rows[i];
        }
      }
    }
  }

  /** Adding a positive quantity keeps every stored quantity positive. */
  lemma UpsertKeepsPositive(rows: seq<LineItem>, cartId: Id, productId: string, quantity: int, freshId: Id)
    requires PositiveQuantities(rows) && quantity >= 1
    ensures PositiveQuantities(Upsert(rows, cartId, productId, quantity, freshId))
  {
    var rows' := Upsert(rows, cartId, productId, quantity, freshId);
    forall k | 0 <= k < |rows'| ensures rows'[k].quantity >= 1 {
      if k < |rows| && rows'[k] != rows[k] {
        assert rows'[k].quantity == rows[k].quantity + quantity;
      }
    }
  }

  /** Adding to an existing cart and product keeps the table invariants;
      the counter moves past the fresh id exactly when a row is created. */
  lemma UpsertKeepsConsistent(products: map<string, Product>, carts: seq<CartRow>, rows: seq<LineItem>, nextId: nat,
                              cartId: Id, productId: string, quantity: int)
    requires Consistent(products, carts, rows, nextId)
    requires cartId in CartIds(carts) && productId in products
    ensures var rows' := Upsert(rows, cartId, productId, quantity, nextId);
      Consistent(products, carts, rows', nextId + |rows'| - |rows|)
  {
    var rows' := Upsert(rows, cartId, productId, quantity, nextId);
    UpsertKeepsUniqueLines(rows, cartId, productId, quantity, nextId);
    match LineIndex(rows, cartId, productId)
    case Some(i) =>
      forall k | 0 <= k < |rows'|
        ensures rows'[k].id < nextId && rows'[k].productId in products && rows'[k].cartId in CartIds(carts)
      {
      }
    case None =>
  }

  /** The line-item table after deleting the row with id itemId in cartId;
      the delete fails when no such row exists. */
  function RemoveLine(rows: seq<LineItem>, itemId: Id, cartId: Id): (r: Result<seq<LineItem>, Error>)
    ensures r.Err? <==> forall j :: 0 <= j < |rows| ==> !(rows[j].id == itemId && rows[j].cartId == cartId)
    ensures r.Err? ==> r.error == Error(RecordToDeleteMissing)
    ensures r.Ok? ==> |r.value| == |rows| - 1
  {
    match RowIndex(rows, itemId, cartId)
    case None => Err(Error(RecordToDeleteMissing))
    case Some(i) => Ok(rows[..i] + rows[i + 1..])
  }

  /** A delete leaves the rows of every other cart as they were. */
  lemma RemoveLineOtherCarts(rows: seq<LineItem>, itemId: Id, cartId: Id, other: Id)
    requires RemoveLine(rows, itemId, cartId).Ok? && other != cartId
    ensures ItemsOf(RemoveLine(rows, itemId, cartId).value, other) == ItemsOf(rows, other)
  {
    ItemsOfDeleteOther(rows, RowIndex(rows, itemId, cartId).value, other);
  }

  /** A delete removes from cartId exactly the row with id itemId. */
  lemma RemoveLineSameCart(rows: seq<LineItem>, itemId: Id, cartId: Id)
    requires UniqueLines(rows) && RemoveLine(rows, itemId, cartId).Ok?
    ensures forall x ::
      x in ItemsOf(RemoveLine(rows, itemId, cartId).value, cartId) <==> x in ItemsOf(rows, cartId) && x.id != itemId
  {
    var i := RowIndex(rows, itemId, cartId).value;
    DeleteMembers(rows, i);
    ItemsOfMembers(rows, cartId);
    ItemsOfMembers(rows[..i] + rows[i + 1..], cartId);
  }

  /** A delete lowers the item count and total of cartId by the deleted row's share. */
  lemma RemoveLineSums(rows: seq<LineItem>, itemId: Id, cartId: Id, products: map<string, Product>)
    requires HasProducts(ItemsOf(rows, cartId), products) && RemoveLine(rows, itemId, cartId).Ok?
    ensures var x := rows[RowIndex(rows, itemId, cartId).value];
      var cartRows' := ItemsOf(RemoveLine(rows, itemId, cartId).value, cartId);
      && HasProducts(cartRows', products)
      && x.productId in products
      && Quantities(cartRows') == Quantities(ItemsOf(rows, cartId)) - x.quantity
      && Subtotal(cartRows', products) == Subtotal(ItemsOf(rows, cartId), products) - products[x.productId].price * x.quantity
  {
    var i := RowIndex(rows, itemId, cartId).value;
    var before := ItemsOf(rows, cartId);
    ItemsOfDeleteSame(rows, i, cartId);
    var m := |ItemsOf(rows[..i], cartId)|;
    assert before[m] in before;
    SumsDelete(before, m, products);
  }

  /** A delete keeps ids and (cart, product) lines unique. */
  lemma RemoveLineKeepsUniqueLines(rows: seq<LineItem>, itemId: Id, cartId: Id)
    requires UniqueLines(rows) && RemoveLine(rows, itemId, cartId).Ok?
    ensures UniqueLines(RemoveLine(rows, itemId, cartId).value)
  {
    var i := RowIndex(rows, itemId, cartId).value;
    var rows' := rows[..i] + rows[i + 1..];
    forall a, b | 0 <= a < b < |rows'|
      ensures rows'[a].id != rows'[b].id && (rows'[a].cartId != rows'[b].cartId || rows'[a].productId != rows'[b].productId)
    {
      var a', b' := if a < i then a else a + 1, if b < i then b else b + 1;
      assert rows'[a] == rows[a'] && rows'[b] == rows[b'];
    }
  }

  /** A delete keeps the table invariants. */
  lemma RemoveLineKeepsConsistent(products: map<string, Product>, carts: seq<CartRow>, rows: seq<LineItem>, nextId: nat,
                                  itemId: Id, cartId: Id)
    requires Consistent(products, carts, rows, nextId) && RemoveLine(rows, itemId, cartId).Ok?
    ensures Consistent(products, carts, RemoveLine(rows, itemId, cartId).value, nextId)
  {
    var i := RowIndex(rows, itemId, cartId).value;
    var rows' := rows[..i] + rows[i + 1..];
    RemoveLineKeepsUniqueLines(rows, itemId, cartId);
    forall k | 0 <= k < |rows'|
      ensures rows'[k].id < nextId && rows'[k].productId in products && rows'[k].cartId in CartIds(carts)
    {
      assert rows'[k] == rows[if k < i then k else k + 1];
    }
  }

  /** The line items after a successful delete: every other cart keeps its
      rows, and cartId keeps exactly its rows other than itemId. */
  lemma RemoveLineRows(rows: seq<LineItem>, itemId: Id, cartId: Id)
    requires UniqueLines(rows) && RemoveLine(rows, itemId, cartId).Ok?
    ensures var rows' := RemoveLine(rows, itemId, cartId).value;
      && (forall c :: c != cartId ==> ItemsOf(rows', c) == ItemsOf(rows, c))
      && (forall x :: x in ItemsOf(rows', cartId) <==> x in ItemsOf(rows, cartId) && x.id != itemId)
  {
    forall c | c != cartId
      ensures ItemsOf(RemoveLine(rows, itemId, cartId).value, c) == ItemsOf(rows, c)
    {
      RemoveLineOtherCarts(rows, itemId, cartId, c);
    }
    RemoveLineSameCart(rows, itemId, cartId);
  }

  /** The aggregate after a successful delete: its item count and total
      drop by the deleted row's quantity and price times quantity, the
      deleted row is gone from it, and no other cart changes. */
  lemma RemoveLineAggregate(rows: seq<LineItem>, itemId: Id, cart: CartRow, products: map<string, Product>)
    requires UniqueLines(rows) && HasProducts(ItemsOf(rows, cart.id), products)
    requires RemoveLine(rows, itemId, cart.id).Ok?
    ensures var x := rows[RowIndex(rows, itemId, cart.id).value];
      var rows' := RemoveLine(rows, itemId, cart.id).value;
      && x.productId in products
      && HasProducts(ItemsOf(rows', cart.id), products)
      && var before := CalculateCartTotals(cart, rows, products);
      && var after := CalculateCartTotals(cart, rows', products);
      && after.itemCount == before.itemCount - x.quantity
      && after.total == before.total - products[x.productId].price * x.quantity
      && (forall k :: 0 <= k < |after.items| ==> after.items[k].id != itemId)
      && forall c :: c != cart.id ==> ItemsOf(rows', c) == ItemsOf(rows, c)
  {
    var rows' := RemoveLine(rows, itemId, cart.id).value;
    RemoveLineSums(rows, itemId, cart.id, products);
    RemoveLineRows(rows, itemId, cart.id);
    var after := ItemsOf(rows', cart.id);
    forall k | 0 <= k < |after| ensures after[k].id != itemId {
      assert after[k] in after;
    }
  }

  /** The aggregate of userId's cart, creating the cart when it is missing. */
  method GetCart(db: Db, userId: string) returns (r: Cart)
    requires db.Valid()
    modifies db
    ensures db.Valid()
    ensures var (cart, carts) := CartRepository.FetchOrCreate(old(db.carts), old(db.nextId), userId);
      && db.carts == carts
      && db.nextId == old(db.nextId) + |carts| - |old(db.carts)|
      && r == CalculateCartTotals(cart, db.items, db.products)
    ensures db.items == old(db.items) && db.products == old(db.products)
    ensures r.userId == userId
  {
    var cart := CartRepository.GetCart(db, userId);
    r := CalculateCartTotals(cart, db.items, db.products);
  }

  /** Adds quantity of productId to userId's cart: fails with "Product not
      found" for an unknown product, otherwise raises the existing line or
      inserts a new one and returns the recomputed aggregate. */
  method AddToCart(db: Db, userId: string, productId: string, quantity: int) returns (r: Result<Cart, Error>)
    requires db.Valid()
    modifies db
    ensures db.Valid()
    ensures r.Err? <==> productId !in old(db.products)
    ensures r.Err? ==> r.error == Error(ProductNotFound) && unchanged(db)
    ensures r.Ok? ==>
      var fetched := CartRepository.FetchOrCreate(old(db.carts), old(db.nextId), userId);
      var freshId := old(db.nextId) + |fetched.1| - |old(db.carts)|;
      && db.carts == fetched.1
      && db.items == Upsert(old(db.items), fetched.0.id, productId, quantity, freshId)
      && db.nextId == freshId + |db.items| - |old(db.items)|
      && db.products == old(db.products)
      && r.value == CalculateCartTotals(fetched.0, db.items, db.products)
    ensures r.Ok? ==> r.value.userId == userId
  {
    if productId !in db.products {
      return Err(Error(ProductNotFound));
    }
    var cart := AddLine(db, userId, productId, quantity);
    r := Ok(CalculateCartTotals(cart, db.items, db.products));
  }

  /** The state change of AddToCart for a known product: fetch or create
      the cart, then raise or insert its line for productId. */
  method AddLine(db: Db, userId: string, productId: string, quantity: int) returns (cart: CartRow)
    requires db.Valid() && productId in db.products
    modifies db
    ensures db.Valid()
    ensures var fetched := CartRepository.FetchOrCreate(old(db.carts), old(db.nextId), userId);
      var freshId := old(db.nextId) + |fetched.1| - |old(db.carts)|;
      && cart == fetched.0
      && db.carts == fetched.1
      && db.items == Upsert(old(db.items), fetched.0.id, productId, quantity, freshId)
      && db.nextId == freshId + |db.items| - |old(db.items)|
      && db.products == old(db.products)
  {
    ghost var fetched := CartRepository.FetchOrCreate(db.carts, db.nextId, userId);
    ghost var freshId := db.nextId + |fetched.1| - |db.carts|;
    cart := CartRepository.GetCart(db, userId);
    assert cart == fetched.0 && db.carts == fetched.1 && db.nextId == freshId;
    SaveLine(db, cart.id, productId, quantity);
  }

  /** The find-then-update-or-create step of AddToCart: raises the quantity
      of cartId's line for productId, or inserts that line. */
  method SaveLine(db: Db, cartId: Id, productId: string, quantity: int)
    requires db.Valid() && cartId in CartIds(db.carts) && productId in db.products
    modifies db
    ensures db.Valid()
    ensures db.items == Upsert(old(db.items), cartId, productId, quantity, old(db.nextId))
    ensures db.nextId == old(db.nextId) + |db.items| - |old(db.items)|
    ensures db.products == old(db.products) && db.carts == old(db.carts)
  {
    var rows, freshId := db.items, db.nextId;
    var existing := LineIndex(rows, cartId, productId);
    if existing.Some? {
      var i := existing.value;
      rows := rows[i := rows[i].(quantity := rows[i].quantity + quantity)];
    } else {
      rows := rows + [LineItem(freshId, cartId, productId, quantity)];
    }
    UpsertKeepsConsistent(db.products, db.carts, db.items, freshId, cartId, productId, quantity);
    db.items := rows;
    if existing.None? {
      db.nextId := freshId + 1;
    }
  }

  /** Deletes the line item itemId from userId's cart (creating that cart
      when it is missing) and returns the recomputed aggregate; fails when
      the cart holds no such item, whoever else holds it. */
  method RemoveFromCart(db: Db, userId: string, itemId: Id) returns (r: Result<Cart, Error>)
    requires db.Valid()
    modifies db
    ensures db.Valid()
    ensures var (cart, carts) := CartRepository.FetchOrCreate(old(db.carts), old(db.nextId), userId);
      && db.carts == carts
      && db.nextId == old(db.nextId) + |carts| - |old(db.carts)|
      && db.products == old(db.products)
      && match RemoveLine(old(db.items), itemId, cart.id)
         case Err(e) => r == Err(e) && db.items == old(db.items)
         case Ok(rows) => db.items == rows && r == Ok(CalculateCartTotals(cart, db.items, db.products))
    ensures r.Ok? ==> r.value.userId == userId
    ensures forall c :: r.Ok? ==> c != r.value.id ==> ItemsOf(db.items, c) == ItemsOf(old(db.items), c)
    ensures r.Ok? ==> forall x :: x in ItemsOf(db.items, r.value.id) <==> x in ItemsOf(old(db.items), r.value.id) && x.id != itemId
  {
    var cart := CartRepository.GetCart(db, userId);
    ghost var before := db.items;
    var removed := DeleteLine(db, itemId, cart.id);
    if removed.Err? {
      return Err(removed.error);
    }
    RemoveLineRows(before, itemId, cart.id);
    r := Ok(CalculateCartTotals(cart, db.items, db.products));
  }

  /** The cart-scoped delete: removes the row with id itemId from cartId,
      or fails, changing nothing, when cartId holds no such row. */
  method DeleteLine(db: Db, itemId: Id, cartId: Id) returns (removed: Result<seq<LineItem>, Error>)
    requires db.Valid()
    modifies db
    ensures db.Valid()
    ensures removed == RemoveLine(old(db.items), itemId, cartId)
    ensures db.items == if removed.Ok? then removed.value else old(db.items)
    ensures db.products == old(db.products) && db.carts == old(db.carts) && db.nextId == old(db.nextId)
  {
    removed := RemoveLine(db.items, itemId, cartId);
    if removed.Ok? {
      RemoveLineKeepsConsistent(db.products, db.carts, db.items, db.nextId, itemId, cartId);
      db.items := removed.value;
    }
  }

  /** Deletes every line item of userId's cart and returns the now empty aggregate. */
  method ClearCart(db: Db, userId: string) returns (r: Cart)
    requires db.Valid()
    modifies db
    ensures db.Valid()
    ensures var (cart, carts) := CartRepository.FetchOrCreate(old(db.carts), old(db.nextId), userId);
      && db.carts == carts
      && db.nextId == old(db.nextId) + |carts| - |old(db.carts)|
      && db.items == CartRepository.WithoutCart(old(db.items), cart.id)
      && db.products == old(db.products)
      && r == CalculateCartTotals(cart, db.items, db.products)
    ensures r.userId == userId && r.items == [] && r.total == 0 && r.itemCount == 0
    ensures forall c :: c != r.id ==> ItemsOf(db.items, c) == ItemsOf(old(db.items), c)
  {
    var cart := CartRepository.GetCart(db, userId);
    CartRepository.ClearCart(db, cart.id);
    forall c ensures ItemsOf(db.items, c) == ItemsOf(old(db.items), c) || c == cart.id {
      CartRepository.WithoutCartItems(old(db.items), cart.id, c);
    }
    CartRepository.WithoutCartItems(old(db.items), cart.id, cart.id);
    r := CalculateCartTotals(cart, db.items, db.products);
  }
}
