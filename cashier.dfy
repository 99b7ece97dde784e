/**
 * The cashier till (CashierModel): a two-state machine that checks a
 * product, buys it into a lazily created basket and hands the basket to the
 * order service, keeping a running total of the session's sales.
 *
 * The stock service and the order service are outside the model: every
 * call on them is logged, and its outcome is a parameter of the operation.
 */
module Cashier {
  import opened Wrappers
  import opened Text
  import opened Catalogue
  import opened Middle

  datatype State = Process | Checked

  const AskToCheck: string := "please check its availablity"
  const NotInStock: string := "!!! Not in stock"
  const StartNewOrder: string := "Start New Order"

  class CashierModel {
    var state: State
    /** theProduct: the product last checked successfully, with quantity 1. */
    var product: Option<Product>
    /** theBasket: created by the first purchase, dropped when the order is settled. */
    var basket: Basket?
    /** pn: the trimmed product number last checked. */
    var pn: string
    /** sessionTotalSales, in pence. */
    var sessionTotalSales: int

    /** Every product bought in this session, in order. */
    ghost var sold: seq<Product>
    /** Where in sold the current basket's purchases start. */
    ghost var basketStart: nat
    ghost var stockCalls: seq<StockCall>
    ghost var orderCalls: seq<OrderCall>

    ghost predicate Valid()
      reads this, basket
    {
      && (state == Checked ==> product.Some?)
      && (product.Some? ==> product.value.quantity == 1)
      && sessionTotalSales == Total(sold)
      && (forall i :: 0 <= i < |sold| ==> sold[i].quantity == 1)
      && basketStart <= |sold|
      && (basket != null ==> basket.items == sold[basketStart..])
    }

    /** The lines of the current basket, none when there is no basket. */
    ghost function Lines(): seq<Product>
      reads this, basket
    {
      if basket == null then [] else basket.items
    }

    constructor ()
      ensures Valid()
      ensures state == Process && product == None && basket == null && pn == ""
      ensures sessionTotalSales == 0 && sold == [] && stockCalls == [] && orderCalls == []
    {
      state := Process;
      product := None;
      basket := null;
      pn := "";
      sessionTotalSales := 0;
      sold := [];
      basketStart := 0;
      stockCalls := [];
      orderCalls := [];
    }

    /**
     * The session's takings: the sum of price times quantity over every
     * product bought in this session.
     */
    function GetSessionTotalSales(): (total: int)
      reads this, basket
      requires Valid()
      ensures total == Total(sold)
    {
      sessionTotalSales
    }

    /** With no negative prices among the goods sold, the session total is never negative. */
    lemma SalesNonNegative()
      requires Valid()
      requires forall i :: 0 <= i < |sold| ==> sold[i].price >= 0
      ensures GetSessionTotalSales() >= 0
    {
      TotalNonNegative(sold);
    }

    /**
     * makeBasketIfReq: when there is no basket, ask the order service for a
     * number and open a fresh basket carrying it; if the service fails the
     * basket stays null. An existing basket is left alone.
     */
    method MakeBasketIfReq(unique: Reply<int>)
      requires Valid()
      modifies this`basket, this`basketStart, this`orderCalls
      ensures Valid()
      ensures old(basket) != null ==> basket == old(basket) && orderCalls == old(orderCalls)
      ensures old(basket) == null ==> orderCalls == old(orderCalls) + [UniqueNumber]
      ensures old(basket) == null && unique.Returned? ==>
        basket != null && fresh(basket) && basket.items == [] && basket.orderNum == unique.value
      ensures old(basket) == null && unique.Raised? ==> basket == null
    {
      if basket == null {
        orderCalls := orderCalls + [UniqueNumber];
        match unique
        case Returned(uon) =>
          var b := new Basket();
          b.SetOrderNum(uon);
          basket := b;
          basketStart := |sold|;
        case Raised(_) =>
      }
    }

    /**
     * doCheck: look the trimmed product number up. Only an existing product
     * with at least one on hand moves the till to Checked, with that product
     * (quantity 1) as the current one; otherwise the till is in Process and
     * the message says why.
     */
    method DoCheck(productNum: string, known: Reply<bool>, details: Reply<Product>) returns (ev: Event)
      requires Valid()
      modifies this`state, this`pn, this`product, this`stockCalls
      ensures Valid()
      ensures pn == Trim(productNum)
      ensures stockCalls == old(stockCalls) + [Exists(pn)] + (if known == Returned(true) then [GetDetails(pn)] else [])
      ensures state == Checked <==> known == Returned(true) && details.Returned? && details.value.quantity >= 1
      ensures state == Checked ==>
        product == Some(details.value.(quantity := 1)) && ev == Notify(Listing(details.value))
      ensures state == Process ==> product == old(product)
      ensures known.Raised? ==> ev == Notify(known.message)
      ensures known == Returned(false) ==> ev == Notify("Unknown product number " + pn)
      ensures known == Returned(true) && details.Raised? ==> ev == Notify(details.message)
      ensures known == Returned(true) && details.Returned? && details.value.quantity < 1 ==>
        ev == Notify(details.value.description + " not in stock")
    {
      state := Process;
      pn := Trim(productNum);
      stockCalls := stockCalls + [Exists(pn)];
      match known
      case Raised(m) =>
        ev := Notify(m);
      case Returned(false) =>
        ev := Notify("Unknown product number " + pn);
      case Returned(true) =>
        stockCalls := stockCalls + [GetDetails(pn)];
        match details
        case Raised(m) =>
          ev := Notify(m);
        case Returned(pr) =>
          if pr.quantity >= 1 {
            ev := Notify(Listing(pr));
            product := Some(pr.(quantity := 1));
            state := Checked;
          } else {
            ev := Notify(pr.description + " not in stock");
          }
    }

    /**
     * doBuy: from Checked, buy one of the current product from stock and, if
     * that succeeds, add it to the basket (opening one if needed) and to the
     * session's sales. The till ends in Process, except when the basket
     * could not be opened: then the null basket is dereferenced and a
     * NullPointerException escapes after the stock was already bought.
     */
    method DoBuy(bought: Reply<bool>, unique: Reply<int>) returns (ev: Event)
      requires Valid()
      modifies this`state, this`basket, this`basketStart, this`sessionTotalSales, this`sold
      modifies this`stockCalls, this`orderCalls, basket
      ensures Valid()
      ensures (old(product).Some? ==> old(product).value.price >= 0) ==> old(sessionTotalSales) <= sessionTotalSales
      // not checked: nothing is bought and nothing changes but the state
      ensures old(state) != Checked ==>
        && ev == Notify(AskToCheck) && state == Process
        && stockCalls == old(stockCalls) && orderCalls == old(orderCalls)
        && basket == old(basket) && Lines() == old(Lines())
        && (old(basket) != null ==> basket.orderNum == old(basket.orderNum))
        && sessionTotalSales == old(sessionTotalSales) && sold == old(sold)
      // checked: exactly one stock purchase of the current product
      ensures old(state) == Checked ==>
        stockCalls == old(stockCalls) + [BuyStock(old(product).value.code, 1)]
      ensures old(state) == Checked && bought != Returned(true) ==>
        && ev == Notify(if bought.Raised? then bought.message else NotInStock)
        && state == Process && orderCalls == old(orderCalls)
        && basket == old(basket) && Lines() == old(Lines())
        && (old(basket) != null ==> basket.orderNum == old(basket.orderNum))
        && sessionTotalSales == old(sessionTotalSales) && sold == old(sold)
      ensures old(state) == Checked && bought == Returned(true) && (old(basket) != null || unique.Returned?) ==>
        var p := old(product).value;
        && ev == Notify("Purchased " + p.description) && state == Process
        && basket != null && Lines() == old(Lines()) + [p]
        && sold == old(sold) + [p]
        && sessionTotalSales == old(sessionTotalSales) + LineCost(p)
        && (old(basket) != null ==>
              basket == old(basket) && basket.orderNum == old(basket.orderNum) && orderCalls == old(orderCalls))
        && (old(basket) == null ==>
              fresh(basket) && basket.orderNum == unique.value && orderCalls == old(orderCalls) + [UniqueNumber])
      ensures old(state) == Checked && bought == Returned(true) && old(basket) == null && unique.Raised? ==>
        && ev == Escaped(NullPointerException) && state == Checked
        && basket == null && orderCalls == old(orderCalls) + [UniqueNumber]
        && sessionTotalSales == old(sessionTotalSales) && sold == old(sold)
    {
      if state != Checked {
        ev := Notify(AskToCheck);
        state := Process;
        return;
      }
      var p := product.value;
      stockCalls := stockCalls + [BuyStock(p.code, p.quantity)];
      if bought != Returned(true) {
        ev := Notify(if bought.Raised? then bought.message else NotInStock);
        state := Process;
        return;
      }
      MakeBasketIfReq(unique);
      if basket == null {
        ev := Escaped(NullPointerException);
        return;
      }
      basket.Add(p);
      TotalAppend(sold, [p]);
      assert [p][1..] == [];
      assert (sold + [p])[basketStart..] == sold[basketStart..] + [p];
      sold := sold + [p];
      sessionTotalSales := sessionTotalSales + LineCost(p);
      ev := Notify("Purchased " + p.description);
      state := Process;
    }

    /**
     * doBought: hand a non-empty basket to the order service, once. The
     * basket is dropped whatever happens; on success the till says "Start
     * New Order" and is in Process, on failure it shows the exception's
     * message and keeps its state. The session total is not touched.
     */
    method DoBought(settle: Reply<()>) returns (ev: Event)
      requires Valid()
      modifies this`state, this`basket, this`orderCalls
      ensures Valid()
      ensures basket == null
      ensures sessionTotalSales == old(sessionTotalSales) && sold == old(sold)
      ensures old(Lines()) != [] ==> orderCalls == old(orderCalls) + [NewOrder(old(basket), old(Lines()))]
      ensures old(Lines()) == [] ==> orderCalls == old(orderCalls)
      ensures old(Lines()) == [] || settle.Returned? ==> ev == Notify(StartNewOrder) && state == Process
      ensures old(Lines()) != [] && settle.Raised? ==> ev == Notify(settle.message) && state == old(state)
    {
      var failure: Option<string> := None;
      if basket != null && |basket.items| >= 1 {
        orderCalls := orderCalls + [NewOrder(basket, basket.items)];
        match settle
        case Raised(m) =>
          failure := Some(m);
        case Returned(_) =>
          basket := null;
      }
      if failure.None? {
        ev := Notify(StartNewOrder);
        state := Process;
        basket := null;
      } else {
        ev := Notify(failure.value);
      }
      basket := null;
    }
  }

  /**
   * One round at the till: check a product that is in stock, then buy it.
   * Exactly one line, the product with quantity 1, is added to the basket
   * and to the session's sales.
   */
  method CheckAndBuy(till: CashierModel, p: Product, uon: int)
    requires till.Valid() && p.quantity >= 1
    modifies till, till.basket
    ensures till.Valid()
    ensures till.sold == old(till.sold) + [p.(quantity := 1)]
    ensures till.basket != null && till.Lines() == old(till.Lines()) + [p.(quantity := 1)]
    ensures old(till.basket) == null ==> fresh(till.basket)
    ensures old(till.basket) != null ==> till.basket == old(till.basket)
  {
    var _ := till.DoCheck(p.code, Returned(true), Returned(p));
    assert till.state == Checked && till.product == Some(p.(quantity := 1));
    var _ := till.DoBuy(Returned(true), Returned(uon));
  }

  /**
   * Check and buy the same product twice on a fresh till: the basket holds
   * two separate lines for it (equal lines are not merged) and the session
   * total is twice its price.
   */
  method CheckBuyTwiceKeepsTwoLines(p: Product, uon: int) returns (lines: seq<Product>, total: int)
    requires p.quantity >= 1
    ensures lines == [p.(quantity := 1), p.(quantity := 1)]
    ensures total == 2 * p.price
  {
    var till := new CashierModel();
    var one := p.(quantity := 1);
    CheckAndBuy(till, p, uon);
    CheckAndBuy(till, p, uon);
    assert till.sold == [one, one];
    assert Total([one, one]) == 2 * p.price by {
      assert [one, one][1..] == [one];
      assert [one][1..] == [];
    }
    lines := till.basket.items;
    total := till.GetSessionTotalSales();
  }
}
