/** The cart repository (backend/src/repositories/cart-repository.ts):
    fetch-or-create a cart by user id, a save that does nothing, and the bulk
    delete of one cart's line items. */
module CartRepository {
  import opened Types
  import opened Store

  /** The cart table after a fetch-or-create for userId, and the cart returned.
      freshId is the id a newly created cart receives. */
  function FetchOrCreate(carts: seq<CartRow>, freshId: Id, userId: string): (r: (CartRow, seq<CartRow>))
    ensures r.0.userId == userId && r.0 in r.1
  {
    match CartIndex(carts, userId)
    case Some(i) => (carts[i], carts)
    case None => (CartRow(freshId, userId), carts + [CartRow(freshId, userId)])
  }

  /** An existing cart is returned as it is and the table is untouched; a
      missing one is appended, so the table grows by exactly that row. */
  lemma FetchOrCreateShape(carts: seq<CartRow>, freshId: Id, userId: string)
    ensures var (cart, carts') := FetchOrCreate(carts, freshId, userId);
      if exists c :: c in carts && c.userId == userId
      then carts' == carts && cart in carts
      else carts' == carts + [cart] && cart == CartRow(freshId, userId)
  {
    var i := CartIndex(carts, userId);
    if i.None? {
      forall c | c in carts ensures c.userId != userId {
        var j :| 0 <= j < |carts| && carts[j] == c;
      }
    }
  }

  /** A second fetch-or-create for the same user returns the same cart and
      creates nothing, whatever id it would have used. */
  lemma {:induction false} FetchOrCreateIdempotent(carts: seq<CartRow>, freshId: Id, otherFreshId: Id, userId: string)
    ensures var (cart, carts') := FetchOrCreate(carts, freshId, userId);
      FetchOrCreate(carts', otherFreshId, userId) == (cart, carts')
  {
    var (cart, carts') := FetchOrCreate(carts, freshId, userId);
    if CartIndex(carts, userId).None? {
      var n := |carts|;
      assert carts'[n] == cart;
      var j := CartIndex(carts', userId);
      assert j.Some? && j.value == n;
    }
  }

  /** A cart created with the counter's id starts with no line items. */
  lemma NewCartHasNoItems(products: map<string, Product>, carts: seq<CartRow>, items: seq<LineItem>, nextId: nat)
    requires Consistent(products, carts, items, nextId)
    ensures ItemsOf(items, nextId) == []
  {
    forall x | x in items ensures x.cartId != nextId {
      var k :| 0 <= k < |items| && items[k] == x;
      assert x.cartId in CartIds(carts);
    }
    ItemsOfMembers(items, nextId);
  }

  /** A fetch-or-create keeps one cart per user when the fresh id is unused. */
  lemma FetchOrCreateKeepsOneCartPerUser(carts: seq<CartRow>, freshId: Id, userId: string)
    requires OneCartPerUser(carts)
    requires forall j :: 0 <= j < |carts| ==> carts[j].id < freshId
    ensures OneCartPerUser(FetchOrCreate(carts, freshId, userId).1)
  {
    var carts' := FetchOrCreate(carts, freshId, userId).1;
    if CartIndex(carts, userId).None? {
      forall i, j | 0 <= i < j < |carts'|
        ensures carts'[i].id != carts'[j].id && carts'[i].userId != carts'[j].userId
      {
        if j == |carts| {
          assert carts'[i] == carts[i];
        }
      }
    }
  }

  /** The line-item table without the rows of cartId. */
  function WithoutCart(rows: seq<LineItem>, cartId: Id): (r: seq<LineItem>)
    ensures forall x :: x in r <==> x in rows && x.cartId != cartId
  {
    if rows == [] then []
    else (if rows[0].cartId == cartId then [] else [rows[0]]) + WithoutCart(rows[1..], cartId)
  }

  /** After the bulk delete, cartId holds nothing and every other cart holds
      exactly the rows it held before, in the same order. */
  lemma {:induction false} WithoutCartItems(rows: seq<LineItem>, cartId: Id, other: Id)
    ensures ItemsOf(WithoutCart(rows, cartId), cartId) == []
    ensures other != cartId ==> ItemsOf(WithoutCart(rows, cartId), other) == ItemsOf(rows, other)
  {
    if rows != [] {
      WithoutCartItems(rows[1..], cartId, other);
      var head := if rows[0].cartId == cartId then [] else [rows[0]];
      ItemsOfAppend(head, WithoutCart(rows[1..], cartId), cartId);
      ItemsOfAppend(head, WithoutCart(rows[1..], cartId), other);
    }
  }

  /** The bulk delete keeps ids and (cart, product) lines unique. */
  lemma {:induction false} WithoutCartKeepsUniqueLines(rows: seq<LineItem>, cartId: Id)
    requires UniqueLines(rows)
    ensures UniqueLines(WithoutCart(rows, cartId))
  {
    if rows != [] {
      var rest := WithoutCart(rows[1..], cartId);
      WithoutCartKeepsUniqueLines(rows[1..], cartId);
      if rows[0].cartId != cartId {
        var r := [rows[0]] + rest;
        forall i, j | 0 <= i < j < |r|
          ensures r[i].id != r[j].id && (r[i].cartId != r[j].cartId || r[i].productId != r[j].productId)
        {
          if i == 0 {
            assert r[j] in rows[1..];
            var k :| 0 <= k < |rows[1..]| && rows[1..][k] == r[j];
            assert rows[k + 1] == r[j];
          }
        }
      }
    }
  }

  /** Fetch-or-create by userId: the first cart owned by userId, or a new
      empty cart for that user when there is none. */
  method GetCart(db: Db, userId: string) returns (cart: CartRow)
    requires db.Valid()
    modifies db
    ensures db.Valid()
    ensures (cart, db.carts) == FetchOrCreate(old(db.carts), old(db.nextId), userId)
    ensures db.nextId == old(db.nextId) + |db.carts| - |old(db.carts)|
    ensures db.products == old(db.products) && db.items == old(db.items)
    ensures cart.userId == userId && cart in db.carts
    ensures cart !in old(db.carts) ==> cart == CartRow(old(db.nextId), userId) && |db.carts| == |old(db.carts)| + 1
  {
    var found := CartIndex(db.carts, userId);
    if found.Some? {
      cart := db.carts[found.value];
    } else {
      cart := CartRow(db.nextId, userId);
      FetchOrCreateKeepsOneCartPerUser(db.carts, db.nextId, userId);
      db.carts := db.carts + [cart];
      db.nextId := db.nextId + 1;
    }
  }

  /** Saving a cart is a stub in the source: it changes nothing. */
  method SaveCart(db: Db, cart: Cart)
    requires db.Valid()
    ensures db.Valid() && unchanged(db)
  {
  }

  /** Deletes every line item of cartId and no other row. */
  method ClearCart(db: Db, cartId: Id)
    requires db.Valid()
    modifies db
    ensures db.Valid()
    ensures db.items == WithoutCart(old(db.items), cartId)
    ensures db.products == old(db.products) && db.carts == old(db.carts) && db.nextId == old(db.nextId)
  {
    WithoutCartKeepsUniqueLines(db.items, cartId);
    db.items := WithoutCart(db.items, cartId);
  }
}
