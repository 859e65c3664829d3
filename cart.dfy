/** The cart engine: `addToCart`, `updateQty` and the `summary` fold. */
module Cart {
  import opened PosTypes

  /** The cart invariant: no two lines share an id and every quantity is at least 1. */
  ghost predicate CartValid(c: seq<CartItem>)
  {
    UniqueIds(c) && AllPositive(c)
  }

  ghost predicate UniqueIds(c: seq<CartItem>)
  {
    forall i, j :: 0 <= i < j < |c| ==> c[i].id != c[j].id
  }

  ghost predicate AllPositive(c: seq<CartItem>)
  {
    forall i :: 0 <= i < |c| ==> c[i].qty >= 1
  }

  ghost predicate HasId(c: seq<CartItem>, id: string)
  {
    exists i :: 0 <= i < |c| && c[i].id == id
  }

  /** The first line carrying the id, if any: the `find` in `addToCart`. */
  function Find(c: seq<CartItem>, id: string): (r: Option<CartItem>)
    ensures r.Some? <==> HasId(c, id)
    ensures r.Some? ==> r.value.id == id && r.value in c
  {
    if c == [] then None
    else if c[0].id == id then Some(c[0])
    else
      var r := Find(c[1..], id);
      assert forall i :: 1 <= i < |c| ==> c[i] == c[1..][i - 1];
      r
  }

  /** One step of the `map` in `addToCart` and `updateQty`. */
  function Bumped(item: CartItem, id: string, delta: int): CartItem
  {
    if item.id == id then item.(qty := item.qty + delta) else item
  }

  /** Adds `delta` to the quantity of every line with the given id. */
  function BumpQty(c: seq<CartItem>, id: string, delta: int): seq<CartItem>
  {
    seq(|c|, i requires 0 <= i < |c| => Bumped(c[i], id, delta))
  }

  /** `addToCart`: one more of an existing line, or a new line of quantity 1 at the end. */
  function AddToCart(c: seq<CartItem>, p: Product): seq<CartItem>
  {
    if Find(c, p.id).Some? then BumpQty(c, p.id, 1) else c + [LineOf(p, 1)]
  }

  /** The `filter` step of `updateQty`: keeps the lines with a positive quantity, in order. */
  function KeepPositive(c: seq<CartItem>): (r: seq<CartItem>)
    ensures |r| <= |c|
  {
    if c == [] then []
    else (if c[0].qty > 0 then [c[0]] else []) + KeepPositive(c[1..])
  }

  /** `updateQty`: adds `delta` to the matching line, then drops every line whose quantity is not positive. */
  function UpdateQty(c: seq<CartItem>, id: string, delta: int): seq<CartItem>
  {
    KeepPositive(BumpQty(c, id, delta))
  }

  lemma {:induction false} KeepPositiveAppend(a: seq<CartItem>, b: seq<CartItem>)
    ensures KeepPositive(a + b) == KeepPositive(a) + KeepPositive(b)
    decreases |a|
  {
    if a == [] {
      assert a + b == b;
    } else {
      assert (a + b)[0] == a[0];
      assert (a + b)[1..] == a[1..] + b;
      KeepPositiveAppend(a[1..], b);
    }
  }

  /** The filter keeps a cart whose quantities are all positive as it is. */
  lemma {:induction false} KeepPositiveIdentity(c: seq<CartItem>)
    requires forall i :: 0 <= i < |c| ==> c[i].qty > 0
    ensures KeepPositive(c) == c
    decreases |c|
  {
    if c != [] {
      KeepPositiveIdentity(c[1..]);
    }
  }

  /** With unique ids, the line lookup returns the one line carrying the id. */
  lemma FindUnique(c: seq<CartItem>, id: string, k: int)
    requires UniqueIds(c)
    requires 0 <= k < |c| && c[k].id == id
    ensures Find(c, id) == Some(c[k])
  {
    assert HasId(c, id);
    var j :| 0 <= j < |c| && c[j] == Find(c, id).value;
    if j < k {
      assert c[j].id != c[k].id;
    } else if j > k {
      assert c[k].id != c[j].id;
    }
  }

  /** With unique ids, bumping the id of the line at k changes that line alone. */
  lemma BumpQtyAt(c: seq<CartItem>, id: string, delta: int, k: int)
    requires UniqueIds(c)
    requires 0 <= k < |c| && c[k].id == id
    ensures BumpQty(c, id, delta) == c[k := c[k].(qty := c[k].qty + delta)]
  {
    var r := BumpQty(c, id, delta);
    forall i | 0 <= i < |c|
      ensures r[i] == c[k := c[k].(qty := c[k].qty + delta)][i]
    {
      if i < k {
        assert c[i].id != c[k].id;
      } else if i > k {
        assert c[k].id != c[i].id;
      }
    }
  }

  /** Filtering a line that sits between positive lines keeps or drops that line alone. */
  lemma KeepPositiveAround(pre: seq<CartItem>, line: CartItem, post: seq<CartItem>)
    requires AllPositive(pre) && AllPositive(post)
    ensures KeepPositive(pre + [line] + post) == pre + (if line.qty > 0 then [line] else []) + post
  {
    KeepPositiveAppend(pre + [line], post);
    KeepPositiveAppend(pre, [line]);
    KeepPositiveIdentity(pre);
    KeepPositiveIdentity(post);
    assert [line][1..] == [];
  }

  /**
   * `addToCart` on a valid cart: if the id is already there, that line alone gains exactly
   * one unit (its own stored fields are kept); otherwise the product is appended with qty 1.
   */
  lemma AddToCartEffect(c: seq<CartItem>, p: Product)
    requires CartValid(c)
    ensures !HasId(c, p.id) ==> AddToCart(c, p) == c + [LineOf(p, 1)]
    ensures forall k :: 0 <= k < |c| && c[k].id == p.id ==>
              AddToCart(c, p) == c[k := c[k].(qty := c[k].qty + 1)]
  {
    forall k | 0 <= k < |c| && c[k].id == p.id
      ensures AddToCart(c, p) == c[k := c[k].(qty := c[k].qty + 1)]
    {
      FindUnique(c, p.id, k);
      BumpQtyAt(c, p.id, 1, k);
    }
  }

  /** `addToCart` preserves the cart invariant. */
  lemma AddToCartKeepsValid(c: seq<CartItem>, p: Product)
    requires CartValid(c)
    ensures CartValid(AddToCart(c, p))
  {
    AddToCartEffect(c, p);
    if HasId(c, p.id) {
      var k :| 0 <= k < |c| && c[k].id == p.id;
      assert AddToCart(c, p) == c[k := c[k].(qty := c[k].qty + 1)];
    }
  }

  /** `updateQty` with an id that is not in a valid cart leaves the cart unchanged. */
  lemma UpdateQtyUnknownId(c: seq<CartItem>, id: string, delta: int)
    requires CartValid(c)
    requires !HasId(c, id)
    ensures UpdateQty(c, id, delta) == c
  {
    assert BumpQty(c, id, delta) == c;
    KeepPositiveIdentity(c);
  }

  /**
   * `updateQty` on the line at index k of a valid cart: the line takes the new quantity if it
   * stays positive and is removed otherwise; every other line stays where it was, in order.
   */
  lemma UpdateQtyAt(c: seq<CartItem>, id: string, delta: int, k: int)
    requires CartValid(c)
    requires 0 <= k < |c| && c[k].id == id
    ensures c[k].qty + delta > 0 ==> UpdateQty(c, id, delta) == c[k := c[k].(qty := c[k].qty + delta)]
    ensures c[k].qty + delta <= 0 ==> UpdateQty(c, id, delta) == c[..k] + c[k + 1..]
  {
    var line := c[k].(qty := c[k].qty + delta);
    BumpQtyAt(c, id, delta, k);
    assert c[k := line] == c[..k] + [line] + c[k + 1..];
    KeepPositiveAround(c[..k], line, c[k + 1..]);
  }

  /** `updateQty` preserves the cart invariant, whatever the id and the delta. */
  lemma UpdateQtyKeepsValid(c: seq<CartItem>, id: string, delta: int)
    requires CartValid(c)
    ensures CartValid(UpdateQty(c, id, delta))
  {
    if HasId(c, id) {
      var k :| 0 <= k < |c| && c[k].id == id;
      UpdateQtyAt(c, id, delta, k);
      if c[k].qty + delta <= 0 {
        var r := c[..k] + c[k + 1..];
        assert forall i :: 0 <= i < |r| ==> r[i] == c[if i < k then i else i + 1];
      }
    } else {
      UpdateQtyUnknownId(c, id, delta);
    }
  }

  /** The amount one line contributes to the subtotal. */
  function LineTotal(item: CartItem): real
  {
    item.price * item.qty as real
  }

  /** The `reduce` of `summary`: price times quantity summed from the first line to the last. */
  function SubTotal(c: seq<CartItem>): real
  {
    if c == [] then 0.0 else SubTotal(c[..|c| - 1]) + LineTotal(c[|c| - 1])
  }

  const TaxRate: real := 0.1

  /** The `summary` derivation: subtotal, 10% tax and their sum. */
  function Summarize(c: seq<CartItem>): Summary
  {
    var subTotal := SubTotal(c);
    var tax := subTotal * TaxRate;
    Summary(subTotal, tax, subTotal + tax)
  }

  ghost predicate PricesNonNegative(c: seq<CartItem>)
  {
    forall i :: 0 <= i < |c| ==> c[i].price >= 0.0
  }

  /** The subtotal of two carts laid end to end is the sum of their subtotals. */
  lemma {:induction false} SubTotalConcat(a: seq<CartItem>, b: seq<CartItem>)
    ensures SubTotal(a + b) == SubTotal(a) + SubTotal(b)
    decreases |b|
  {
    if b == [] {
      assert a + b == a;
    } else {
      assert (a + b)[..|a + b| - 1] == a + b[..|b| - 1];
      SubTotalConcat(a, b[..|b| - 1]);
    }
  }

  /** The subtotal is the line at k plus the subtotals on either side of it. */
  lemma SubTotalAround(c: seq<CartItem>, k: int)
    requires 0 <= k < |c|
    ensures SubTotal(c) == SubTotal(c[..k]) + LineTotal(c[k]) + SubTotal(c[k + 1..])
  {
    assert c == c[..k] + [c[k]] + c[k + 1..];
    SubTotalConcat(c[..k] + [c[k]], c[k + 1..]);
    SubTotalConcat(c[..k], [c[k]]);
    assert [c[k]][..0] == [];
  }

  lemma {:induction false} SubTotalNonNegative(c: seq<CartItem>)
    requires PricesNonNegative(c)
    requires forall i :: 0 <= i < |c| ==> c[i].qty >= 0
    ensures SubTotal(c) >= 0.0
    decreases |c|
  {
    if c != [] {
      SubTotalNonNegative(c[..|c| - 1]);
      var last := c[|c| - 1];
      assert last.price >= 0.0 && last.qty as real >= 0.0;
      assert LineTotal(last) >= 0.0;
    }
  }

  /**
   * With non-negative prices on a valid cart: 0 <= subTotal <= total, the tax is a tenth of
   * the subtotal and the total is the subtotal plus the tax.
   */
  lemma SummaryBounds(c: seq<CartItem>)
    requires CartValid(c) && PricesNonNegative(c)
    ensures var s := Summarize(c);
      && 0.0 <= s.subTotal <= s.total
      && s.tax == s.subTotal / 10.0
      && s.total == s.subTotal + s.tax
  {
    SubTotalNonNegative(c);
  }

  /** Changing one line's quantity by d changes its amount by d unit prices. */
  lemma LineTotalShift(item: CartItem, d: int)
    ensures LineTotal(item.(qty := item.qty + d)) == LineTotal(item) + item.price * d as real
  {
    calc {
      LineTotal(item.(qty := item.qty + d));
      item.price * (item.qty as real + d as real);
      item.price * item.qty as real + item.price * d as real;
    }
  }

  /** Replacing the line at k changes the subtotal by the difference of the two lines' amounts. */
  lemma SubTotalReplace(c: seq<CartItem>, k: int, line: CartItem)
    requires 0 <= k < |c|
    ensures SubTotal(c[k := line]) == SubTotal(c) - LineTotal(c[k]) + LineTotal(line)
  {
    var r := c[k := line];
    SubTotalAround(c, k);
    SubTotalAround(r, k);
    assert r[..k] == c[..k] && r[k + 1..] == c[k + 1..];
  }

  /** Removing the line at index k takes exactly that line's amount off the subtotal. */
  lemma SubTotalWithout(c: seq<CartItem>, k: int)
    requires 0 <= k < |c|
    ensures SubTotal(c[..k] + c[k + 1..]) == SubTotal(c) - LineTotal(c[k])
  {
    SubTotalAround(c, k);
    SubTotalConcat(c[..k], c[k + 1..]);
  }

  /**
   * `addToCart` on a valid cart raises the subtotal by one unit price: that of the line already
   * in the cart when there is one, otherwise the product's own price.
   */
  lemma AddToCartSubTotal(c: seq<CartItem>, p: Product)
    requires CartValid(c)
    ensures SubTotal(AddToCart(c, p))
            == SubTotal(c) + (match Find(c, p.id) case Some(line) => line.price case None => p.price)
  {
    if HasId(c, p.id) {
      var k :| 0 <= k < |c| && c[k].id == p.id;
      FindUnique(c, p.id, k);
      BumpQtyAt(c, p.id, 1, k);
      SubTotalReplace(c, k, c[k].(qty := c[k].qty + 1));
      LineTotalShift(c[k], 1);
    } else {
      SubTotalConcat(c, [LineOf(p, 1)]);
      assert [LineOf(p, 1)][..0] == [];
    }
  }

  /**
   * `updateQty` on the line at index k of a valid cart changes the subtotal by that line's
   * new amount (zero when the line is removed) minus its old amount.
   */
  lemma UpdateQtySubTotal(c: seq<CartItem>, id: string, delta: int, k: int)
    requires CartValid(c)
    requires 0 <= k < |c| && c[k].id == id
    ensures var q := c[k].qty + delta;
      SubTotal(UpdateQty(c, id, delta))
      == SubTotal(c) - LineTotal(c[k]) + (if q > 0 then LineTotal(c[k].(qty := q)) else 0.0)
  {
    UpdateQtyAt(c, id, delta, k);
    var q := c[k].qty + delta;
    if q > 0 {
      SubTotalReplace(c, k, c[k].(qty := q));
    } else {
      SubTotalWithout(c, k);
    }
  }
}
