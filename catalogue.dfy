/**
 * Stand-ins for the catalogue classes the till uses (catalogue/Product.java
 * and catalogue/Basket.java are not part of this model): a product line
 * with its price in pence, and a basket object that clients share by
 * reference.
 */
module Catalogue {
  import opened Text

  /**
   * A product: code, description, unit price in pence and a quantity that is
   * the stock on hand in a catalogue lookup and the count bought in a basket.
   */
  datatype Product = Product(code: string, description: string, price: int, quantity: int)

  /** What one basket line costs: price times quantity. */
  function LineCost(p: Product): int
  {
    p.price * p.quantity
  }

  /** Sum of the line costs of a sequence of products. */
  function Total(lines: seq<Product>): int
  {
    if lines == [] then 0 else LineCost(lines[0]) + Total(lines[1..])
  }

  lemma {:induction false} TotalAppend(s: seq<Product>, t: seq<Product>)
    ensures Total(s + t) == Total(s) + Total(t)
  {
    if s == [] {
      assert s + t == t;
    } else {
      assert (s + t)[1..] == s[1..] + t;
      TotalAppend(s[1..], t);
    }
  }

  /** Lines whose prices and quantities are all non-negative cost nothing negative. */
  lemma {:induction false} TotalNonNegative(lines: seq<Product>)
    requires forall i :: 0 <= i < |lines| ==> lines[i].price >= 0 && lines[i].quantity >= 0
    ensures Total(lines) >= 0
  {
    if lines != [] {
      TotalNonNegative(lines[1..]);
    }
  }

  /** The "%s : %7.2f (%2d) " line the clients show for a checked product. */
  function Listing(p: Product): string
  {
    p.description + " : " + PadLeft(TwoPlaces(p.price), 7) + " (" + PadLeft(IntText(p.quantity), 2) + ") "
  }

  /**
   * A basket: an ordered list of product lines (equal codes are never
   * merged) and an order number, 0 until one is set.
   */
  class Basket {
    var orderNum: int
    var items: seq<Product>

    constructor ()
      ensures orderNum == 0 && items == []
    {
      orderNum := 0;
      items := [];
    }

    method SetOrderNum(n: int)
      modifies this
      ensures orderNum == n && items == old(items)
    {
      orderNum := n;
    }

    method Add(p: Product)
      modifies this
      ensures items == old(items) + [p] && orderNum == old(orderNum)
    {
      items := items + [p];
    }

    method Clear()
      modifies this
      ensures items == [] && orderNum == old(orderNum)
    {
      items := [];
    }
  }
}
