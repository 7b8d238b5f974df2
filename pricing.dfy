/** Cart lines and the sums over them: subtotal, item count, and the 18% GST on top.
    Lines are kept in a map from item id, and sums run over a sequence of keys (the
    insertion order of the source's dictionary). */
module Pricing {
  import opened Catalog

  /** One distinct menu item in the cart and how many of it were requested. */
  datatype CartLine = CartLine(menuItem: MenuItem, quantity: int)

  function Quantity(line: CartLine): int {
    line.quantity
  }

  /** `price * quantity` of one line. */
  function LineTotal(line: CartLine): int {
    line.menuItem.price * line.quantity
  }

  /** Changing a line's quantity changes its total by the price times the difference. */
  lemma LineTotalWithQuantity(line: CartLine, q: int)
    ensures LineTotal(CartLine(line.menuItem, q)) == LineTotal(line) + line.menuItem.price * (q - line.quantity)
  {
    var p := line.menuItem.price;
    assert p * q == p * line.quantity + p * (q - line.quantity);
  }

  /** One more unit adds one unit price. */
  lemma LineTotalOneMore(line: CartLine)
    ensures LineTotal(CartLine(line.menuItem, line.quantity + 1)) == LineTotal(line) + line.menuItem.price
  {
    LineTotalWithQuantity(line, line.quantity + 1);
  }

  /** Every key of `keys` has a line in `lines`. */
  predicate Covers(keys: seq<string>, lines: map<string, CartLine>) {
    forall k :: k in keys ==> k in lines
  }

  predicate Distinct(keys: seq<string>) {
    forall i, j :: 0 <= i < j < |keys| ==> keys[i] != keys[j]
  }

  /** Σ f(line) over the lines named by `keys`, in that order. */
  function SumBy(keys: seq<string>, lines: map<string, CartLine>, f: CartLine -> int): int
    requires Covers(keys, lines)
  {
    if keys == [] then 0 else f(lines[keys[0]]) + SumBy(keys[1..], lines, f)
  }

  /** `keys` without `k` (a deletion from the dictionary's key order). */
  function RemoveKey(keys: seq<string>, k: string): (r: seq<string>)
    ensures forall x :: x in r <==> x in keys && x != k
    ensures |r| <= |keys|
  {
    if keys == [] then []
    else (if keys[0] == k then [] else [keys[0]]) + RemoveKey(keys[1..], k)
  }

  lemma DistinctTail(keys: seq<string>)
    requires keys != [] && Distinct(keys)
    ensures Distinct(keys[1..]) && keys[0] !in keys[1..]
  {
    forall i, j | 0 <= i < j < |keys| - 1
      ensures keys[1..][i] != keys[1..][j]
    {
      assert keys[1..][i] == keys[i + 1] && keys[1..][j] == keys[j + 1];
    }
  }

  lemma {:induction false} RemoveKeyDistinct(keys: seq<string>, k: string)
    requires Distinct(keys)
    ensures Distinct(RemoveKey(keys, k))
    decreases |keys|
  {
    if keys != [] {
      DistinctTail(keys);
      RemoveKeyDistinct(keys[1..], k);
      var rest := RemoveKey(keys[1..], k);
      if keys[0] != k {
        var r := [keys[0]] + rest;
        forall i, j | 0 <= i < j < |r|
          ensures r[i] != r[j]
        {
          assert r[j] == rest[j - 1];
          if i > 0 {
            assert r[i] == rest[i - 1];
          } else {
            assert r[j] in rest;
          }
        }
      } else {
        assert RemoveKey(keys, k) == rest;
      }
    }
  }

  lemma {:induction false} RemoveKeyAbsent(keys: seq<string>, k: string)
    requires k !in keys
    ensures RemoveKey(keys, k) == keys
    decreases |keys|
  {
    if keys != [] {
      assert keys[0] != k && k !in keys[1..];
      RemoveKeyAbsent(keys[1..], k);
    }
  }

  /** A sum only depends on the lines its keys name. */
  lemma {:induction false} SumByFrame(keys: seq<string>, m: map<string, CartLine>, m': map<string, CartLine>, f: CartLine -> int)
    requires Covers(keys, m) && Covers(keys, m')
    requires forall k :: k in keys ==> m'[k] == m[k]
    ensures SumBy(keys, m', f) == SumBy(keys, m, f)
    decreases |keys|
  {
    if keys != [] {
      assert keys[0] in keys;
      forall k | k in keys[1..] ensures k in keys { }
      SumByFrame(keys[1..], m, m', f);
    }
  }

  lemma {:induction false} SumByAppend(keys: seq<string>, k: string, m: map<string, CartLine>, f: CartLine -> int)
    requires Covers(keys, m) && k in m
    ensures Covers(keys + [k], m)
    ensures SumBy(keys + [k], m, f) == SumBy(keys, m, f) + f(m[k])
    decreases |keys|
  {
    if keys == [] {
      assert keys + [k] == [k];
      assert [k][1..] == [];
    } else {
      assert (keys + [k])[0] == keys[0];
      assert (keys + [k])[1..] == keys[1..] + [k];
      forall x | x in keys[1..] ensures x in keys { }
      SumByAppend(keys[1..], k, m, f);
    }
  }

  /** Replacing the line for a key that occurs once changes the sum by the difference. */
  lemma {:induction false} SumByUpdate(keys: seq<string>, m: map<string, CartLine>, k: string, v: CartLine, f: CartLine -> int)
    requires Covers(keys, m) && Distinct(keys) && k in keys
    ensures Covers(keys, m[k := v])
    ensures SumBy(keys, m[k := v], f) == SumBy(keys, m, f) - f(m[k]) + f(v)
    decreases |keys|
  {
    DistinctTail(keys);
    forall x | x in keys[1..] ensures x in keys { }
    if keys[0] == k {
      SumByFrame(keys[1..], m, m[k := v], f);
    } else {
      SumByUpdate(keys[1..], m, k, v, f);
    }
  }

  /** Deleting a key that occurs once removes exactly its line's share of the sum. */
  lemma {:induction false} SumByRemove(keys: seq<string>, m: map<string, CartLine>, k: string, f: CartLine -> int)
    requires Covers(keys, m) && Distinct(keys) && k in keys
    ensures Covers(RemoveKey(keys, k), m - {k})
    ensures SumBy(RemoveKey(keys, k), m - {k}, f) == SumBy(keys, m, f) - f(m[k])
    decreases |keys|
  {
    DistinctTail(keys);
    forall x | x in keys[1..] ensures x in keys { }
    if keys[0] == k {
      RemoveKeyAbsent(keys[1..], k);
      assert RemoveKey(keys, k) == keys[1..];
      SumByFrame(keys[1..], m, m - {k}, f);
    } else {
      SumByRemove(keys[1..], m, k, f);
      assert RemoveKey(keys, k) == [keys[0]] + RemoveKey(keys[1..], k);
    }
  }

  /** When every line has quantity at least 1, the item count is at least the number of lines. */
  lemma {:induction false} CountAtLeastLines(keys: seq<string>, m: map<string, CartLine>)
    requires Covers(keys, m)
    requires forall k :: k in m ==> m[k].quantity >= 1
    ensures SumBy(keys, m, Quantity) >= |keys|
    decreases |keys|
  {
    if keys != [] {
      assert keys[0] in keys;
      forall x | x in keys[1..] ensures x in keys { }
      CountAtLeastLines(keys[1..], m);
    }
  }

  /** The tax rate, `GST_RATE = 0.18`. */
  const GstRate: real := 0.18

  function GstOf(subtotal: int): real {
    subtotal as real * GstRate
  }

  function TotalOf(subtotal: int): real {
    subtotal as real + GstOf(subtotal)
  }

  /** total = subtotal × (1 + rate), exactly. */
  lemma TotalIsSubtotalWithTax(subtotal: int)
    ensures TotalOf(subtotal) == subtotal as real * (1.0 + GstRate)
    ensures GstOf(subtotal) * 100.0 == subtotal as real * 18.0
  {
  }
}
