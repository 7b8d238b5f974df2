/** The cart as the source keeps it: a dictionary from menu item id to its line, whose
    iteration order is the order in which the ids were inserted. The value model pairs the
    map with that key order; the session's cart operations are the functions below. */
module Carts {
  import opened Catalog
  import opened Pricing
  import opened Results

  datatype Cart = Cart(lines: map<string, CartLine>, keys: seq<string>)

  const Empty := Cart(map[], [])

  /** What every reachable cart satisfies: the key order lists each stored id exactly once,
      each line is stored under its own item's id and holds at least one unit. */
  predicate WellFormed(c: Cart) {
    Distinct(c.keys) &&
    Covers(c.keys, c.lines) &&
    (forall k :: k in c.lines ==> k in c.keys) &&
    (forall k :: k in c.lines ==> c.lines[k].quantity >= 1 && c.lines[k].menuItem.id == k)
  }

  /** `get_cart_total`'s subtotal: Σ price × quantity over the lines. */
  function Subtotal(c: Cart): int
    requires WellFormed(c)
  {
    SumBy(c.keys, c.lines, LineTotal)
  }

  /** `get_cart_count`: Σ quantity over the lines. */
  function Count(c: Cart): int
    requires WellFormed(c)
  {
    SumBy(c.keys, c.lines, Quantity)
  }

  /** The count is at least the number of lines, and 0 exactly when the cart is empty. */
  lemma CountBounds(c: Cart)
    requires WellFormed(c)
    ensures Count(c) >= |c.keys|
    ensures Count(c) == 0 <==> c.lines == map[]
  {
    CountAtLeastLines(c.keys, c.lines);
    if c.keys != [] {
      assert c.keys[0] in c.lines;
    } else {
      assert c.lines.Keys == {};
    }
  }

  /** `add_to_cart`: one more unit of a stored id (the stored item is kept), or a new line
      of quantity 1 appended at the end of the key order. */
  function Add(c: Cart, item: MenuItem): (r: Cart)
    ensures r.lines.Keys == c.lines.Keys + {item.id}
    ensures r.lines[item.id].quantity == if item.id in c.lines then c.lines[item.id].quantity + 1 else 1
    ensures r.lines[item.id].menuItem == if item.id in c.lines then c.lines[item.id].menuItem else item
    ensures forall k :: k in c.lines && k != item.id ==> r.lines[k] == c.lines[k]
    ensures r.keys == if item.id in c.lines then c.keys else c.keys + [item.id]
  {
    var id := item.id;
    if id in c.lines then
      Cart(c.lines[id := CartLine(c.lines[id].menuItem, c.lines[id].quantity + 1)], c.keys)
    else
      Cart(c.lines[id := CartLine(item, 1)], c.keys + [id])
  }

  /** `remove_from_cart`: the line of `id` is gone, if there was one; nothing else changes. */
  function Remove(c: Cart, id: string): (r: Cart)
    ensures r.lines.Keys == c.lines.Keys - {id}
    ensures forall k :: k in r.lines ==> r.lines[k] == c.lines[k]
    ensures id in c.lines ==> r.keys == RemoveKey(c.keys, id)
    ensures id !in c.lines ==> r == c
  {
    if id in c.lines then Cart(c.lines - {id}, RemoveKey(c.keys, id)) else c
  }

  /** `update_cart_quantity`: a quantity of at most 0 removes the line; a positive one
      replaces the stored quantity in place. A positive quantity for an id that is not in
      the cart is the source's `KeyError`, here `None`. */
  function SetQuantity(c: Cart, id: string, quantity: int): (r: Option<Cart>)
    ensures r.None? <==> quantity > 0 && id !in c.lines
    ensures quantity <= 0 ==> r == Some(Remove(c, id))
    ensures r.Some? && quantity > 0 ==>
      r.value.lines.Keys == c.lines.Keys &&
      r.value.lines[id] == CartLine(c.lines[id].menuItem, quantity) &&
      (forall k :: k in c.lines && k != id ==> r.value.lines[k] == c.lines[k]) &&
      r.value.keys == c.keys
  {
    if quantity <= 0 then Some(Remove(c, id))
    else if id in c.lines then Some(Cart(c.lines[id := CartLine(c.lines[id].menuItem, quantity)], c.keys))
    else None
  }

  lemma EmptyCart()
    ensures WellFormed(Empty) && Count(Empty) == 0 && Subtotal(Empty) == 0
  {
  }

  /** Adding keeps the cart well formed, counts one more unit and adds one unit price: the
      stored item's price when the id was already there, the added item's otherwise. */
  lemma AddSpec(c: Cart, item: MenuItem)
    requires WellFormed(c)
    ensures WellFormed(Add(c, item))
    ensures Count(Add(c, item)) == Count(c) + 1
    ensures Subtotal(Add(c, item)) == Subtotal(c) + (if item.id in c.lines then c.lines[item.id].menuItem.price else item.price)
  {
    if item.id in c.lines {
      AddStored(c, item);
    } else {
      AddNew(c, item);
    }
  }

  lemma AddStored(c: Cart, item: MenuItem)
    requires WellFormed(c) && item.id in c.lines
    ensures WellFormed(Add(c, item))
    ensures Count(Add(c, item)) == Count(c) + 1
    ensures Subtotal(Add(c, item)) == Subtotal(c) + c.lines[item.id].menuItem.price
  {
    var id := item.id;
    var line := CartLine(c.lines[id].menuItem, c.lines[id].quantity + 1);
    var r := Cart(c.lines[id := line], c.keys);
    assert Add(c, item) == r;
    assert id in c.keys;
    assert WellFormed(r) by {
      forall k | k in r.lines ensures k in r.keys && r.lines[k].quantity >= 1 && r.lines[k].menuItem.id == k {
        if k != id {
          assert r.lines[k] == c.lines[k];
        }
      }
    }
    assert Count(r) == Count(c) + 1 by {
      SumByUpdate(c.keys, c.lines, id, line, Quantity);
    }
    assert Subtotal(r) == Subtotal(c) + c.lines[id].menuItem.price by {
      SumByUpdate(c.keys, c.lines, id, line, LineTotal);
      LineTotalOneMore(c.lines[id]);
    }
  }

  lemma AddNew(c: Cart, item: MenuItem)
    requires WellFormed(c) && item.id !in c.lines
    ensures WellFormed(Add(c, item))
    ensures Count(Add(c, item)) == Count(c) + 1
    ensures Subtotal(Add(c, item)) == Subtotal(c) + item.price
  {
    var id := item.id;
    var line := CartLine(item, 1);
    var r := Cart(c.lines[id := line], c.keys + [id]);
    assert Add(c, item) == r;
    assert id !in c.keys;
    assert WellFormed(r) by {
      forall i, j | 0 <= i < j < |r.keys| ensures r.keys[i] != r.keys[j] {
        assert r.keys[i] == c.keys[i];
        if j < |c.keys| {
          assert r.keys[j] == c.keys[j];
        }
      }
      forall k | k in r.lines ensures k in r.keys && r.lines[k].quantity >= 1 && r.lines[k].menuItem.id == k {
        if k != id {
          assert r.lines[k] == c.lines[k];
        }
      }
    }
    assert Count(r) == Count(c) + 1 by {
      SumByFrame(c.keys, c.lines, r.lines, Quantity);
      SumByAppend(c.keys, id, r.lines, Quantity);
    }
    assert Subtotal(r) == Subtotal(c) + item.price by {
      SumByFrame(c.keys, c.lines, r.lines, LineTotal);
      SumByAppend(c.keys, id, r.lines, LineTotal);
    }
  }

  /** Removing a present line takes away its quantity and its line total; removing an
      absent id leaves the cart as it was. */
  lemma RemoveSpec(c: Cart, id: string)
    requires WellFormed(c)
    ensures WellFormed(Remove(c, id))
    ensures id in c.lines ==> Count(Remove(c, id)) == Count(c) - c.lines[id].quantity
    ensures id in c.lines ==> Subtotal(Remove(c, id)) == Subtotal(c) - LineTotal(c.lines[id])
    ensures id !in c.lines ==> Remove(c, id) == c
  {
    if id in c.lines {
      RemoveKeyDistinct(c.keys, id);
      SumByRemove(c.keys, c.lines, id, Quantity);
      SumByRemove(c.keys, c.lines, id, LineTotal);
    }
  }

  /** Setting a positive quantity on a present line moves the count and the subtotal by
      the difference. */
  lemma SetQuantitySpec(c: Cart, id: string, quantity: int)
    requires WellFormed(c)
    requires SetQuantity(c, id, quantity).Some?
    ensures WellFormed(SetQuantity(c, id, quantity).value)
    ensures quantity > 0 ==> Count(SetQuantity(c, id, quantity).value) == Count(c) - c.lines[id].quantity + quantity
    ensures quantity > 0 ==>
      Subtotal(SetQuantity(c, id, quantity).value) == Subtotal(c) + c.lines[id].menuItem.price * (quantity - c.lines[id].quantity)
  {
    if quantity <= 0 {
      RemoveSpec(c, id);
    } else {
      var line := CartLine(c.lines[id].menuItem, quantity);
      var r := Cart(c.lines[id := line], c.keys);
      assert SetQuantity(c, id, quantity) == Some(r);
      assert id in c.keys;
      assert WellFormed(r) by {
        forall k | k in r.lines ensures k in r.keys && r.lines[k].quantity >= 1 && r.lines[k].menuItem.id == k {
          if k != id {
            assert r.lines[k] == c.lines[k];
          }
        }
      }
      assert Count(r) == Count(c) - c.lines[id].quantity + quantity by {
        SumByUpdate(c.keys, c.lines, id, line, Quantity);
      }
      assert Subtotal(r) == Subtotal(c) + c.lines[id].menuItem.price * (quantity - c.lines[id].quantity) by {
        SumByUpdate(c.keys, c.lines, id, line, LineTotal);
        LineTotalWithQuantity(c.lines[id], quantity);
      }
    }
  }

  /** Adding a new item and removing it again gives back the same cart. */
  lemma AddThenRemove(c: Cart, item: MenuItem)
    requires WellFormed(c) && item.id !in c.lines
    ensures Remove(Add(c, item), item.id) == c
  {
    assert item.id !in c.keys;
    RemoveKeyAbsent(c.keys, item.id);
    RemoveKeyLast(c.keys, item.id);
    assert Add(c, item).lines - {item.id} == c.lines;
  }

  lemma {:induction false} RemoveKeyLast(keys: seq<string>, k: string)
    requires k !in keys
    ensures RemoveKey(keys + [k], k) == keys
    decreases |keys|
  {
    if keys == [] {
      assert [k][1..] == [];
    } else {
      assert (keys + [k])[1..] == keys[1..] + [k];
      RemoveKeyLast(keys[1..], k);
    }
  }

  /** Removing twice is removing once. */
  lemma RemoveIdempotent(c: Cart, id: string)
    requires WellFormed(c)
    ensures Remove(Remove(c, id), id) == Remove(c, id)
  {
    RemoveSpec(c, id);
  }

  /** Setting the quantity a line already has changes nothing. */
  lemma SetSameQuantity(c: Cart, id: string)
    requires WellFormed(c) && id in c.lines
    ensures SetQuantity(c, id, c.lines[id].quantity) == Some(c)
  {
    var r := SetQuantity(c, id, c.lines[id].quantity).value;
    assert r.lines == c.lines;
  }
}
