/**
 * The customer client (CustomerModel): check one product at a time into a
 * basket, place the basket as a pending order with the order facade, and
 * recall a pending order by its number.
 *
 * The facade's pending store holds basket objects, not copies, so a
 * recalled basket is the very object the store holds: clearing it on the
 * next check empties the stored order as well.
 *
 * Stock calls are logged and their outcomes are parameters. The facade
 * itself never raises on the pending-order calls; the fault parameters
 * stand for an OrderProcessing implementation that does (the interface
 * declares OrderException on both calls).
 */
module Customer {
  import opened Wrappers
  import opened Text
  import opened Catalogue
  import opened Middle
  import opened Orders

  const EnterProductNumber: string := "Enter Product Number"
  const EmptyPlaceOrder: string := "Cannot place empty order."
  const EmptyAddOrder: string := "Basket is empty. Add items first."
  const OrderNotFound: string := "Order not found."

  class CustomerModel {
    /** theBasket: never null; replaced by a fresh one after an order is placed. */
    var basket: Basket
    var pn: string
    /** thePic: the picture of the product last checked, if any. */
    var pic: Option<Image>
    /** theOrder: the order facade holding the pending orders. */
    const order: OrderFacade
    ghost var stockCalls: seq<StockCall>

    ghost predicate Valid()
      reads this, order
    {
      order.Valid()
    }

    constructor (order: OrderFacade)
      requires order.Valid()
      ensures Valid()
      ensures this.order == order && fresh(basket) && basket.items == [] && basket.orderNum == 0
      ensures pn == "" && pic == None && stockCalls == []
    {
      this.order := order;
      basket := new Basket();
      pn := "";
      pic := None;
      stockCalls := [];
    }

    /**
     * doCheck: empty the basket, then look the trimmed product number up and,
     * if the product exists with at least one on hand, put exactly that
     * product with quantity 1 in the basket and fetch its picture. A stock
     * failure before the basket is filled leaves an empty message.
     */
    method DoCheck(productNum: string, known: Reply<bool>, details: Reply<Product>, image: Reply<Option<Image>>)
      returns (ev: Event)
      requires Valid()
      modifies this`pn, this`pic, this`stockCalls, basket
      ensures Valid()
      ensures basket.orderNum == old(basket.orderNum)
      ensures pn == Trim(productNum)
      ensures |basket.items| <= 1
      ensures var inStock := known == Returned(true) && details.Returned? && details.value.quantity >= 1;
        && (inStock ==>
              && basket.items == [details.value.(quantity := 1)]
              && ev == Notify(Listing(details.value))
              && stockCalls == old(stockCalls) + [Exists(pn)] + [GetDetails(pn)] + [GetImage(pn)]
              && pic == (if image.Returned? then image.value else old(pic)))
        && (!inStock ==> basket.items == [] && pic == old(pic))
      ensures known.Raised? ==> ev == Notify("") && stockCalls == old(stockCalls) + [Exists(pn)]
      ensures known == Returned(false) ==>
        ev == Notify("Unknown product number " + pn) && stockCalls == old(stockCalls) + [Exists(pn)]
      ensures known == Returned(true) && details.Raised? ==>
        ev == Notify("") && stockCalls == old(stockCalls) + [Exists(pn)] + [GetDetails(pn)]
      ensures known == Returned(true) && details.Returned? && details.value.quantity < 1 ==>
        && ev == Notify(details.value.description + " not in stock")
        && stockCalls == old(stockCalls) + [Exists(pn)] + [GetDetails(pn)]
    {
      basket.Clear();
      pn := Trim(productNum);
      stockCalls := stockCalls + [Exists(pn)];
      if known != Returned(true) {
        ev := Notify(if known.Raised? then "" else "Unknown product number " + pn);
        return;
      }
      stockCalls := stockCalls + [GetDetails(pn)];
      if details.Raised? {
        ev := Notify("");
        return;
      }
      var pr := details.value;
      if pr.quantity < 1 {
        ev := Notify(pr.description + " not in stock");
        return;
      }
      ev := Notify(Listing(pr));
      basket.Add(pr.(quantity := 1));
      stockCalls := stockCalls + [GetImage(pn)];
      if image.Returned? {
        pic := image.value;
      }
    }

    /** doClear: empty the basket, prompt for a product number, drop the picture. */
    method DoClear() returns (ev: Event)
      requires Valid()
      modifies this`pic, basket
      ensures Valid()
      ensures basket.items == [] && basket.orderNum == old(basket.orderNum)
      ensures pic == None
      ensures ev == Notify(EnterProductNumber)
    {
      basket.Clear();
      pic := None;
      ev := Notify(EnterProductNumber);
    }

    /**
     * The body doPlaceOrder and addOrder share: a non-empty basket is filed
     * with the facade as a pending order and replaced by a fresh empty one;
     * an empty basket touches nothing; a fault keeps the current basket.
     */
    method SubmitPending(fault: Option<string>, placed: string, empty: string) returns (ev: Event)
      requires Valid()
      modifies this`basket, order`pendingOrders
      ensures Valid()
      ensures old(basket.items) == [] ==>
        basket == old(basket) && order.pendingOrders == old(order.pendingOrders) && ev == Notify(empty)
      ensures old(basket.items) != [] && fault.Some? ==>
        basket == old(basket) && order.pendingOrders == old(order.pendingOrders) && ev == Notify(fault.value)
      ensures old(basket.items) != [] && fault.None? ==>
        var n := NextOrderNumber(old(order.pendingOrders));
        && order.pendingOrders == Place(old(order.pendingOrders), old(basket))
        && order.GetPendingOrder(n) == old(basket)
        && fresh(basket) && basket.items == [] && basket.orderNum == 0
        && ev == Notify(placed + IntText(n))
    {
      if |basket.items| > 0 {
        match fault
        case Some(m) =>
          ev := Notify(m);
        case None =>
          var n := order.NewPendingOrder(basket);
          ev := Notify(placed + IntText(n));
          basket := new Basket();
      } else {
        ev := Notify(empty);
      }
    }

    /** doPlaceOrder: submit a non-empty basket as a pending order and start a fresh one. */
    method DoPlaceOrder(fault: Option<string>) returns (ev: Event)
      requires Valid()
      modifies this`basket, order`pendingOrders
      ensures Valid()
      ensures old(basket.items) == [] ==>
        basket == old(basket) && order.pendingOrders == old(order.pendingOrders) && ev == Notify(EmptyPlaceOrder)
      ensures old(basket.items) != [] && fault.Some? ==>
        basket == old(basket) && order.pendingOrders == old(order.pendingOrders) && ev == Notify(fault.value)
      ensures old(basket.items) != [] && fault.None? ==>
        var n := NextOrderNumber(old(order.pendingOrders));
        && order.pendingOrders == Place(old(order.pendingOrders), old(basket))
        && order.GetPendingOrder(n) == old(basket)
        && fresh(basket) && basket.items == [] && basket.orderNum == 0
        && ev == Notify("Order placed. Order Number: " + IntText(n))
    {
      ev := SubmitPending(fault, "Order placed. Order Number: ", EmptyPlaceOrder);
    }

    /** addOrder: the same submission, with its own messages. */
    method AddOrder(fault: Option<string>) returns (ev: Event)
      requires Valid()
      modifies this`basket, order`pendingOrders
      ensures Valid()
      ensures old(basket.items) == [] ==>
        basket == old(basket) && order.pendingOrders == old(order.pendingOrders) && ev == Notify(EmptyAddOrder)
      ensures old(basket.items) != [] && fault.Some? ==>
        basket == old(basket) && order.pendingOrders == old(order.pendingOrders) && ev == Notify(fault.value)
      ensures old(basket.items) != [] && fault.None? ==>
        var n := NextOrderNumber(old(order.pendingOrders));
        && order.pendingOrders == Place(old(order.pendingOrders), old(basket))
        && order.GetPendingOrder(n) == old(basket)
        && fresh(basket) && basket.items == [] && basket.orderNum == 0
        && ev == Notify("Order placed! Order Number: " + IntText(n))
    {
      ev := SubmitPending(fault, "Order placed! Order Number: ", EmptyAddOrder);
    }

    /**
     * recallOrder: parse the number (a NumberFormatException escapes when
     * it is not one) and, if the store holds that order, make the stored
     * basket object the current basket. The store is not changed.
     */
    method RecallOrder(orderNum: string, fault: Option<string>) returns (ev: Event)
      requires Valid()
      modifies this`basket
      ensures Valid()
      ensures ParseInt(orderNum).None? ==>
        ev == Escaped(NumberFormatException(orderNum)) && basket == old(basket)
      ensures ParseInt(orderNum).Some? && fault.Some? ==>
        ev == Notify(fault.value) && basket == old(basket)
      ensures ParseInt(orderNum).Some? && fault.None? ==>
        var n := ParseInt(orderNum).value;
        && (n in order.pendingOrders ==>
              basket == order.pendingOrders[n] && ev == Notify("Order " + orderNum + " loaded."))
        && (n !in order.pendingOrders ==> basket == old(basket) && ev == Notify(OrderNotFound))
    {
      match ParseInt(orderNum)
      case None =>
        ev := Escaped(NumberFormatException(orderNum));
      case Some(n) =>
        if fault.Some? {
          ev := Notify(fault.value);
        } else {
          var recalled := order.GetPendingOrder(n);
          if recalled != null {
            basket := recalled;
            ev := Notify("Order " + orderNum + " loaded.");
          } else {
            ev := Notify(OrderNotFound);
          }
        }
    }
  }

  /**
   * Place a one-line order, recall it, then check an unknown product: the
   * pending order the store holds under 1000 is emptied, because the store
   * and the customer share the basket object.
   */
  method RecallThenCheckEmptiesStoredOrder(p: Product) returns (before: seq<Product>, after: seq<Product>)
    requires p.quantity >= 1
    ensures before == [p.(quantity := 1)]
    ensures after == []
  {
    var facade := new OrderFacade("//localhost/Order");
    var customer := new CustomerModel(facade);
    var _ := customer.DoCheck(p.code, Returned(true), Returned(p), Returned(None));
    var placed := customer.basket;
    var _ := customer.DoPlaceOrder(None);
    assert facade.pendingOrders == map[FirstOrderNumber := placed];
    var number := IntText(FirstOrderNumber);
    ParseIntText(FirstOrderNumber);
    var _ := customer.RecallOrder(number, None);
    before := facade.GetPendingOrder(FirstOrderNumber).items;
    var _ := customer.DoCheck("9999", Returned(false), Returned(p), Returned(None));
    after := facade.GetPendingOrder(FirstOrderNumber).items;
  }
}
