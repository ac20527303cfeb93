/** The shopping cart (frontend-leptos/src/types/cart.rs): a list of
    (product, quantity) items changed in place. Quantities are unbounded
    naturals here. `Added`, `Removed` and `Updated` are the new item lists
    as functions of the old; the `Cart` methods are proved to produce them
    and the lemmas state what they mean. */
module CartModel {
  import opened Wrappers
  import opened ProductTypes

  datatype CartItem = CartItem(product: Product, quantity: nat)

  /** The position of the first item for product `id`: what
      `iter_mut().find(|i| i.product.id == id)` lands on. */
  function FirstIndex(items: seq<CartItem>, id: int): (r: Option<nat>)
    ensures r.Some? ==> r.value < |items| && items[r.value].product.id == id
    ensures r.Some? ==> forall k :: 0 <= k < r.value ==> items[k].product.id != id
    ensures r.None? <==> forall k :: 0 <= k < |items| ==> items[k].product.id != id
  {
    if items == [] then None
    else if items[0].product.id == id then Some(0)
    else
      match FirstIndex(items[1..], id)
      case None => None
      case Some(i) => Some(i + 1)
  }

  /** add_item: raise the quantity of the first matching item, or append a
      new item at the end. */
  function Added(items: seq<CartItem>, product: Product, quantity: nat): seq<CartItem> {
    match FirstIndex(items, product.id)
    case Some(i) => items[i := items[i].(quantity := items[i].quantity + quantity)]
    case None => items + [CartItem(product, quantity)]
  }

  /** remove_item: `retain` the items of every other product. */
  function Removed(items: seq<CartItem>, id: int): seq<CartItem> {
    if items == [] then []
    else if items[0].product.id == id then Removed(items[1..], id)
    else [items[0]] + Removed(items[1..], id)
  }

  /** update_quantity: quantity 0 removes, otherwise the first matching item
      takes the new quantity. */
  function Updated(items: seq<CartItem>, id: int, quantity: nat): seq<CartItem> {
    if quantity == 0 then Removed(items, id)
    else
      match FirstIndex(items, id)
      case Some(i) => items[i := items[i].(quantity := quantity)]
      case None => items
  }

  /** total_items: the sum of the quantities. */
  function TotalQuantity(items: seq<CartItem>): nat {
    if items == [] then 0 else items[0].quantity + TotalQuantity(items[1..])
  }

  /** The cart's invariant: no product occurs in two items. */
  ghost predicate UniqueIds(items: seq<CartItem>) {
    forall i, j :: 0 <= i < j < |items| ==> items[i].product.id != items[j].product.id
  }

  // ---------------------------------------------------------------------------
  // The cart object

  class Cart {
    var items: seq<CartItem>

    ghost predicate Valid()
      reads this
    {
      UniqueIds(items)
    }

    constructor ()
      ensures Valid() && items == []
    {
      items := [];
    }

    function TotalItems(): nat
      reads this
    {
      TotalQuantity(items)
    }

    predicate IsEmpty()
      reads this
    {
      |items| == 0
    }

    method AddItem(product: Product, quantity: nat)
      requires Valid()
      modifies this
      ensures Valid()
      ensures items == Added(old(items), product, quantity)
      ensures TotalItems() == old(TotalItems()) + quantity
    {
      AddedKeepsIdsUnique(items, product, quantity);
      AddedRaisesTotal(items, product, quantity);
      var i := 0;
      while i < |items|
        invariant 0 <= i <= |items| && items == old(items)
        invariant forall k :: 0 <= k < i ==> items[k].product.id != product.id
      {
        if items[i].product.id == product.id {
          assert FirstIndex(items, product.id) == Some(i);
          items := items[i := items[i].(quantity := items[i].quantity + quantity)];
          return;
        }
        i := i + 1;
      }
      items := items + [CartItem(product, quantity)];
    }

    method RemoveItem(id: int)
      requires Valid()
      modifies this
      ensures Valid()
      ensures items == Removed(old(items), id)
    {
      RemovedKeepsIdsUnique(items, id);
      var kept: seq<CartItem> := [];
      var i := 0;
      while i < |items|
        invariant 0 <= i <= |items| && items == old(items)
        invariant kept == Removed(items[..i], id)
      {
        RemovedDistributes(items[..i], [items[i]], id);
        assert items[..i + 1] == items[..i] + [items[i]];
        if items[i].product.id != id {
          kept := kept + [items[i]];
        }
        i := i + 1;
      }
      assert items[..i] == items;
      items := kept;
    }

    method UpdateQuantity(id: int, quantity: nat)
      requires Valid()
      modifies this
      ensures Valid()
      ensures items == Updated(old(items), id, quantity)
    {
      if quantity == 0 {
        RemoveItem(id);
        return;
      }
      var i := 0;
      while i < |items|
        invariant 0 <= i <= |items| && items == old(items)
        invariant forall k :: 0 <= k < i ==> items[k].product.id != id
      {
        if items[i].product.id == id {
          assert FirstIndex(items, id) == Some(i);
          items := items[i := items[i].(quantity := quantity)];
          return;
        }
        i := i + 1;
      }
    }

    method Clear()
      modifies this
      ensures Valid() && items == []
      ensures IsEmpty() && TotalItems() == 0
    {
      items := [];
    }
  }

  // ---------------------------------------------------------------------------
  // What the operations mean

  /** Adding a product already in the cart raises that item's quantity and
      changes nothing else; adding a new product appends one item at the end. */
  lemma AddedMeaning(items: seq<CartItem>, product: Product, quantity: nat)
    ensures var r := Added(items, product, quantity);
      match FirstIndex(items, product.id)
      case Some(i) =>
        && |r| == |items|
        && r[i].quantity == items[i].quantity + quantity && r[i].product == items[i].product
        && (forall k :: 0 <= k < |items| && k != i ==> r[k] == items[k])
      case None =>
        && |r| == |items| + 1
        && r[..|items|] == items
        && r[|items|] == CartItem(product, quantity)
  {
  }

  lemma AddedKeepsIdsUnique(items: seq<CartItem>, product: Product, quantity: nat)
    requires UniqueIds(items)
    ensures UniqueIds(Added(items, product, quantity))
  {
  }

  lemma {:induction false} TotalOfAppend(a: seq<CartItem>, b: seq<CartItem>)
    ensures TotalQuantity(a + b) == TotalQuantity(a) + TotalQuantity(b)
  {
    if a != [] {
      assert (a + b)[0] == a[0] && (a + b)[1..] == a[1..] + b;
      TotalOfAppend(a[1..], b);
    } else {
      assert a + b == b;
    }
  }

  lemma {:induction false} TotalOfUpdate(items: seq<CartItem>, i: nat, quantity: nat)
    requires i < |items|
    ensures TotalQuantity(items[i := items[i].(quantity := quantity)]) == TotalQuantity(items) - items[i].quantity + quantity
  {
    if i > 0 {
      assert items[i := items[i].(quantity := quantity)][1..] == items[1..][i - 1 := items[i].(quantity := quantity)];
      TotalOfUpdate(items[1..], i - 1, quantity);
    }
  }

  /** add_item raises total_items by exactly the quantity added. */
  lemma AddedRaisesTotal(items: seq<CartItem>, product: Product, quantity: nat)
    ensures TotalQuantity(Added(items, product, quantity)) == TotalQuantity(items) + quantity
  {
    match FirstIndex(items, product.id)
    case Some(i) => TotalOfUpdate(items, i, items[i].quantity + quantity);
    case None =>
      TotalOfAppend(items, [CartItem(product, quantity)]);
      assert TotalQuantity([CartItem(product, quantity)]) == quantity;
  }

  lemma {:induction false} RemovedDistributes(a: seq<CartItem>, b: seq<CartItem>, id: int)
    ensures Removed(a + b, id) == Removed(a, id) + Removed(b, id)
  {
    if a != [] {
      assert (a + b)[0] == a[0] && (a + b)[1..] == a[1..] + b;
      RemovedDistributes(a[1..], b, id);
    } else {
      assert a + b == b;
    }
  }

  /** remove_item keeps exactly the items of other products: an item is in
      the result iff it was in the cart and is for another product, and the
      result is the cart with those items dropped in place (removal
      distributes over concatenation, so the order is kept). */
  lemma {:induction false} RemovedMeaning(items: seq<CartItem>, id: int)
    ensures forall x :: x in Removed(items, id) <==> x in items && x.product.id != id
    ensures |Removed(items, id)| <= |items|
    ensures (forall k :: 0 <= k < |items| ==> items[k].product.id != id) ==> Removed(items, id) == items
  {
    if items != [] {
      RemovedMeaning(items[1..], id);
      assert items == [items[0]] + items[1..];
    }
  }

  lemma {:induction false} RemovedKeepsIdsUnique(items: seq<CartItem>, id: int)
    requires UniqueIds(items)
    ensures UniqueIds(Removed(items, id))
  {
    if items != [] {
      RemovedKeepsIdsUnique(items[1..], id);
      RemovedMeaning(items[1..], id);
      var r := Removed(items[1..], id);
      if items[0].product.id != id {
        forall j | 0 <= j < |r|
          ensures r[j].product.id != items[0].product.id
        {
          assert r[j] in items[1..];
        }
      }
    }
  }

  /** Removing a product absent from a list keeps the list. */
  lemma RemovedAbsent(items: seq<CartItem>, id: int)
    requires forall k :: 0 <= k < |items| ==> items[k].product.id != id
    ensures Removed(items, id) == items
  {
    RemovedMeaning(items, id);
  }

  /** In a cart with unique ids, removing a product that is present drops
      exactly its one item and lowers total_items by that item's quantity. */
  lemma RemovedDropsOneItem(items: seq<CartItem>, id: int)
    requires UniqueIds(items)
    requires FirstIndex(items, id).Some?
    ensures var i := FirstIndex(items, id).value;
      && Removed(items, id) == items[..i] + items[i + 1..]
      && TotalQuantity(Removed(items, id)) == TotalQuantity(items) - items[i].quantity
  {
    var i := FirstIndex(items, id).value;
    var pre, x, post := items[..i], items[i], items[i + 1..];
    assert items == pre + [x] + post;
    forall k | 0 <= k < |post|
      ensures post[k].product.id != id
    {
      assert post[k] == items[i + 1 + k];
    }
    RemovedAbsent(pre, id);
    RemovedAbsent(post, id);
    RemovedDistributes(pre + [x], post, id);
    RemovedDistributes(pre, [x], id);
    assert Removed([x], id) == [];
    TotalOfAppend(pre + [x], post);
    TotalOfAppend(pre, [x]);
    TotalOfAppend(pre, post);
    assert TotalQuantity([x]) == x.quantity;
  }

  /** update_quantity with 0 is remove_item; with q > 0 it sets the
      quantity of the first matching item to q, changes no other item, and
      is a no-op when the product is absent. */
  lemma UpdatedMeaning(items: seq<CartItem>, id: int, quantity: nat)
    ensures quantity == 0 ==> Updated(items, id, quantity) == Removed(items, id)
    ensures quantity > 0 ==>
      var r := Updated(items, id, quantity);
      && |r| == |items|
      && (forall k :: 0 <= k < |items| && items[k].product.id != id ==> r[k] == items[k])
      && (FirstIndex(items, id).Some? ==>
            r[FirstIndex(items, id).value] == items[FirstIndex(items, id).value].(quantity := quantity))
      && (FirstIndex(items, id).None? ==> r == items)
  {
  }

  lemma UpdatedKeepsIdsUnique(items: seq<CartItem>, id: int, quantity: nat)
    requires UniqueIds(items)
    ensures UniqueIds(Updated(items, id, quantity))
  {
    if quantity == 0 {
      RemovedKeepsIdsUnique(items, id);
    }
  }
}
