/**
 * The order-processing facade F_Order: a local store of pending (placed but
 * unpaid) orders, and a lazily bound handle to the remote order service
 * that every remote-backed call goes through.
 */
module Orders {
  import opened Wrappers
  import opened Catalogue
  import opened Middle

  // ---------------------------------------------------------------------
  // The pending-order store

  /** The number the first pending order receives. */
  const FirstOrderNumber: int := 1000

  /**
   * The store's invariant: nothing is ever removed, so the keys are exactly
   * the numbers handed out so far, 1000 .. 1000 + size - 1.
   */
  ghost predicate Numbered<B>(m: map<int, B>)
  {
    forall k :: k in m <==> FirstOrderNumber <= k < FirstOrderNumber + |m|
  }

  /** The allocation rule: 1000 plus the number of orders already held. */
  function NextOrderNumber<B>(m: map<int, B>): int
  {
    FirstOrderNumber + |m|
  }

  /** The store after one order is placed: the basket filed under the next number. */
  function Place<B>(m: map<int, B>, b: B): map<int, B>
  {
    m[NextOrderNumber(m) := b]
  }

  /** Placing an order never overwrites one: the number is new, the store grows by one and stays numbered. */
  lemma PlaceKeepsNumbering<B>(m: map<int, B>, b: B)
    requires Numbered(m)
    ensures NextOrderNumber(m) !in m
    ensures |Place(m, b)| == |m| + 1
    ensures Numbered(Place(m, b))
    ensures forall k :: k in m ==> k in Place(m, b) && Place(m, b)[k] == m[k]
  {
  }

  /** Place each basket in turn; the result is the final store and the numbers handed out. */
  function PlaceAll<B>(m: map<int, B>, bs: seq<B>): (map<int, B>, seq<int>)
    decreases |bs|
  {
    if bs == [] then (m, [])
    else
      var rest := PlaceAll(Place(m, bs[0]), bs[1..]);
      (rest.0, [NextOrderNumber(m)] + rest.1)
  }

  /**
   * Successive placements hand out consecutive numbers, starting at 1000 plus
   * the orders already held, and each number finds its own basket.
   */
  lemma {:induction false} PlaceAllNumbers<B>(m: map<int, B>, bs: seq<B>)
    requires Numbered(m)
    ensures Numbered(PlaceAll(m, bs).0)
    ensures |PlaceAll(m, bs).0| == |m| + |bs|
    ensures |PlaceAll(m, bs).1| == |bs|
    ensures forall i :: 0 <= i < |bs| ==> PlaceAll(m, bs).1[i] == NextOrderNumber(m) + i
    ensures forall i :: 0 <= i < |bs| ==> PlaceAll(m, bs).0[NextOrderNumber(m) + i] == bs[i]
    ensures forall k :: k in m ==> PlaceAll(m, bs).0[k] == m[k]
    decreases |bs|
  {
    if bs != [] {
      var m' := Place(m, bs[0]);
      PlaceKeepsNumbering(m, bs[0]);
      PlaceAllNumbers(m', bs[1..]);
      var r := PlaceAll(m, bs);
      forall i | 0 <= i < |bs|
        ensures r.1[i] == NextOrderNumber(m) + i
        ensures r.0[NextOrderNumber(m) + i] == bs[i]
      {
        if i > 0 {
          assert r.1[i] == PlaceAll(m', bs[1..]).1[i - 1];
          assert bs[1..][i - 1] == bs[i];
        }
      }
    }
  }

  /** On a fresh store the n-th placement (from 0) receives 1000 + n. */
  lemma FreshStoreNumbers<B>(bs: seq<B>)
    ensures PlaceAll(map[], bs).1 == seq(|bs|, i => FirstOrderNumber + i)
    ensures forall i :: 0 <= i < |bs| ==>
      FirstOrderNumber + i in PlaceAll(map[], bs).0 && PlaceAll(map[], bs).0[FirstOrderNumber + i] == bs[i]
  {
    PlaceAllNumbers(map[], bs);
  }

  // ---------------------------------------------------------------------
  // The remote handle

  /** The proxy Naming.lookup returns for the order service. */
  datatype Stub = Stub(id: nat)

  /** The remote operations the facade forwards, with their arguments. */
  datatype RemoteOp =
    | NewOrderOp(bought: Basket)
    | UniqueNumberOp
    | GetOrderToPackOp
    | InformOrderPackedOp(orderNum: int)
    | InformOrderCollectedOp(orderNum: int)
    | GetOrderStateOp

  /** Traffic to the remote side: a name lookup, or an operation sent on a bound stub. */
  datatype Wire = Lookup(url: string) | Invoke(stub: Stub, op: RemoteOp)

  /** What a remote-backed call leaves behind: the handle, the traffic it caused and its result. */
  datatype Remote<T> = Remote(handle: Option<Stub>, traffic: seq<Wire>, result: Reply<T>)

  /**
   * The handle-slot rule shared by every remote-backed call: bind (look the
   * service up) only when the handle is null, forward the operation on the
   * handle, and on any failure clear the handle and raise an OrderException
   * whose message is "Net: " followed by the cause; a failed bind's cause is
   * itself "Com: " followed by the lookup's message.
   */
  function RemoteCall<T>(url: string, handle: Option<Stub>, lookup: Reply<Stub>, op: RemoteOp, reply: Reply<T>): (o: Remote<T>)
    ensures o.result.Raised? ==> o.handle == None && "Net: " <= o.result.message
    ensures o.result.Returned? ==> o.result == reply && o.handle.Some? && (handle.Some? ==> o.handle == handle)
    ensures handle.Some? ==> o.traffic == [Invoke(handle.value, op)]
    ensures handle.None? ==> |o.traffic| >= 1 && o.traffic[0] == Lookup(url)
    ensures handle.None? && lookup.Raised? ==> o == Remote(None, [Lookup(url)], Raised("Net: Com: " + lookup.message))
  {
    match handle
    case Some(stub) => Forward(stub, op, reply, [])
    case None =>
      match lookup
      case Raised(m) => Remote(None, [Lookup(url)], Raised("Net: Com: " + m))
      case Returned(stub) => Forward(stub, op, reply, [Lookup(url)])
  }

  /** The operation sent on a bound stub, after the traffic so far. */
  function Forward<T>(stub: Stub, op: RemoteOp, reply: Reply<T>, before: seq<Wire>): Remote<T>
  {
    match reply
    case Returned(_) => Remote(Some(stub), before + [Invoke(stub, op)], reply)
    case Raised(m) => Remote(None, before + [Invoke(stub, op)], Raised("Net: " + m))
  }

  // ---------------------------------------------------------------------
  // The facade

  class OrderFacade {
    /** aR_Order: the remote handle, null until bound and after any failure. */
    var handle: Option<Stub>
    const url: string
    var pendingOrders: map<int, Basket>
    /** Every lookup and remote operation this facade has caused. */
    ghost var wire: seq<Wire>

    ghost predicate Valid()
      reads this
    {
      Numbered(pendingOrders)
    }

    constructor (url: string)
      ensures Valid()
      ensures this.url == url && handle == None && pendingOrders == map[] && wire == []
    {
      this.url := url;
      handle := None;
      pendingOrders := map[];
      wire := [];
    }

    /**
     * Bind the handle by looking the service up; on failure the handle is
     * null and the OrderException message is "Com: " and the cause.
     */
    method Connect(lookup: Reply<Stub>) returns (failure: Option<string>)
      modifies this`handle, this`wire
      ensures wire == old(wire) + [Lookup(url)]
      ensures lookup.Returned? ==> handle == Some(lookup.value) && failure == None
      ensures lookup.Raised? ==> handle == None && failure == Some("Com: " + lookup.message)
    {
      wire := wire + [Lookup(url)];
      match lookup
      case Returned(stub) =>
        handle := Some(stub);
        failure := None;
      case Raised(m) =>
        handle := None;
        failure := Some("Com: " + m);
    }

    /**
     * The body every remote-backed method shares: connect if the handle is
     * null, forward op, and turn any failure into "Net: " and a null handle.
     * lookup is what Naming.lookup would produce, reply what the remote
     * operation would produce.
     */
    method Call<T>(lookup: Reply<Stub>, op: RemoteOp, reply: Reply<T>) returns (r: Reply<T>)
      modifies this`handle, this`wire
      ensures var o := RemoteCall(url, old(handle), lookup, op, reply);
        handle == o.handle && wire == old(wire) + o.traffic && r == o.result
    {
      if handle == None {
        var failure := Connect(lookup);
        if failure.Some? {
          handle := None;
          r := Raised("Net: " + failure.value);
          return;
        }
      }
      wire := wire + [Invoke(handle.value, op)];
      match reply
      case Returned(_) =>
        r := reply;
      case Raised(m) =>
        handle := None;
        r := Raised("Net: " + m);
    }

    method NewOrder(bought: Basket, lookup: Reply<Stub>, reply: Reply<()>) returns (r: Reply<()>)
      modifies this`handle, this`wire
      ensures var o := RemoteCall(url, old(handle), lookup, NewOrderOp(bought), reply);
        handle == o.handle && wire == old(wire) + o.traffic && r == o.result
    {
      r := Call(lookup, NewOrderOp(bought), reply);
    }

    method UniqueNumber(lookup: Reply<Stub>, reply: Reply<int>) returns (r: Reply<int>)
      modifies this`handle, this`wire
      ensures var o := RemoteCall(url, old(handle), lookup, UniqueNumberOp, reply);
        handle == o.handle && wire == old(wire) + o.traffic && r == o.result
    {
      r := Call(lookup, UniqueNumberOp, reply);
    }

    method GetOrderToPack(lookup: Reply<Stub>, reply: Reply<Basket?>) returns (r: Reply<Basket?>)
      modifies this`handle, this`wire
      ensures var o := RemoteCall(url, old(handle), lookup, GetOrderToPackOp, reply);
        handle == o.handle && wire == old(wire) + o.traffic && r == o.result
    {
      r := Call(lookup, GetOrderToPackOp, reply);
    }

    method InformOrderPacked(orderNum: int, lookup: Reply<Stub>, reply: Reply<bool>) returns (r: Reply<bool>)
      modifies this`handle, this`wire
      ensures var o := RemoteCall(url, old(handle), lookup, InformOrderPackedOp(orderNum), reply);
        handle == o.handle && wire == old(wire) + o.traffic && r == o.result
    {
      r := Call(lookup, InformOrderPackedOp(orderNum), reply);
    }

    method InformOrderCollected(orderNum: int, lookup: Reply<Stub>, reply: Reply<bool>) returns (r: Reply<bool>)
      modifies this`handle, this`wire
      ensures var o := RemoteCall(url, old(handle), lookup, InformOrderCollectedOp(orderNum), reply);
        handle == o.handle && wire == old(wire) + o.traffic && r == o.result
    {
      r := Call(lookup, InformOrderCollectedOp(orderNum), reply);
    }

    method GetOrderState(lookup: Reply<Stub>, reply: Reply<map<string, seq<int>>>) returns (r: Reply<map<string, seq<int>>>)
      modifies this`handle, this`wire
      ensures var o := RemoteCall(url, old(handle), lookup, GetOrderStateOp, reply);
        handle == o.handle && wire == old(wire) + o.traffic && r == o.result
    {
      r := Call(lookup, GetOrderStateOp, reply);
    }

    /** generateUniqueOrderNumber: a number no pending order holds yet. */
    function GenerateUniqueOrderNumber(): (n: int)
      reads this
      requires Valid()
      ensures n == FirstOrderNumber + |pendingOrders|
      ensures n !in pendingOrders
      ensures forall k :: k in pendingOrders ==> k < n
    {
      NextOrderNumber(pendingOrders)
    }

    /**
     * Store an unpaid order: the caller's basket object itself is filed
     * under a fresh number, nothing already stored changes, and the number
     * is returned for a later recall.
     */
    method NewPendingOrder(basket: Basket) returns (n: int)
      requires Valid()
      modifies this`pendingOrders
      ensures Valid()
      ensures n == FirstOrderNumber + |old(pendingOrders)|
      ensures n !in old(pendingOrders)
      ensures pendingOrders == Place(old(pendingOrders), basket)
      ensures |pendingOrders| == |old(pendingOrders)| + 1
      ensures GetPendingOrder(n) == basket
    {
      PlaceKeepsNumbering(pendingOrders, basket);
      n := GenerateUniqueOrderNumber();
      pendingOrders := pendingOrders[n := basket];
    }

    /**
     * The stored basket object for orderNum, or null; the store is only read,
     * so the order stays there.
     */
    function GetPendingOrder(orderNum: int): (b: Basket?)
      reads this
      ensures b != null <==> orderNum in pendingOrders
      ensures b != null ==> b == pendingOrders[orderNum]
      ensures Valid() ==> (b != null <==> FirstOrderNumber <= orderNum < FirstOrderNumber + |pendingOrders|)
    {
      if orderNum in pendingOrders then pendingOrders[orderNum] else null
    }
  }
}
