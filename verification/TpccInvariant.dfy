/** The TPC-C consistency conditions, and the frames that say which cells they depend on. */
module TpccInvariant {
  import opened Replay
  import opened TpccModel

  datatype Scale = Scale(warehouses: int, customers: int, items: int)

  // ---- Well-formed input ----

  predicate InScale(k: Scale, w: int, d: int) {
    1 <= w <= k.warehouses && 1 <= d <= DISTRICTS_PER_WAREHOUSE
  }

  predicate ValidNewOrder(k: Scale, p: NewOrderParam) {
    && InScale(k, p.wId, p.dId) && 1 <= p.cId <= k.customers
    && 0 < |p.iIds| == |p.iWIds| == |p.iQtys|
    && forall l | 0 <= l < |p.iIds| :: 1 <= p.iIds[l] <= k.items && 1 <= p.iWIds[l] <= k.warehouses && 1 <= p.iQtys[l] <= 10
  }

  predicate ValidTxn(k: Scale, txn: Txn) {
    match txn
    case Delivery(p) => 1 <= p.wId <= k.warehouses && p.oCarrierId != NULL_CARRIER_ID
    case NewOrder(p) => ValidNewOrder(k, p)
    case Payment(p) => InScale(k, p.wId, p.dId) && 1 <= p.cId <= k.customers
    case Other => true
  }

  // ---- Consistency ----

  function NextOf(s: Store, w: int, d: int): int { NumOr(s, NextOrderId(w, d), 0) }
  function OldestOf(s: Store, w: int, d: int): int { NumOr(s, Oldest(w, d), 0) }

  /** The NEW_ORDER rows of the district are exactly the ids from its DISTRICT_NEW_ORDER
      pointer up to but excluding d_next_o_id (clauses 3.3.2.2 and 3.3.2.3). */
  ghost predicate QueueInv(s: Store, w: int, d: int) {
    && IsNum(s, NextOrderId(w, d)) && IsNum(s, Oldest(w, d))
    && 1 <= OldestOf(s, w, d) <= NextOf(s, w, d)
    && forall o :: o in IdsAt(s, NewOrders(w, d)) <==> OldestOf(s, w, d) <= o < NextOf(s, w, d)
  }

  ghost predicate Numbered(lines: seq<Line>) {
    forall l | 0 <= l < |lines| :: lines[l].number == l + 1
  }

  /** The order and its lines are there, the lines are numbered 1..o_ol_cnt, and the carrier
      is null exactly while the order waits for delivery (clauses 3.3.2.5 and 3.3.2.6). */
  ghost predicate OrderInv(k: Scale, s: Store, w: int, d: int, o: int) {
    && IsOrder(s, Order(w, d, o)) && IsLines(s, Lines(w, d, o))
    && 1 <= s[Order(w, d, o)].order.cId <= k.customers
    && 1 <= s[Order(w, d, o)].order.olCnt == |LinesAt(s, Lines(w, d, o))|
    && Numbered(LinesAt(s, Lines(w, d, o)))
    && (s[Order(w, d, o)].order.carrierId == NULL_CARRIER_ID <==> o in IdsAt(s, NewOrders(w, d)))
  }

  ghost predicate OrdersInv(k: Scale, s: Store, w: int, d: int) {
    && (forall o | 1 <= o < NextOf(s, w, d) :: OrderInv(k, s, w, d, o))
    && (forall o :: Order(w, d, o) in s || Lines(w, d, o) in s ==> 1 <= o < NextOf(s, w, d))
  }

  /** The ol_amounts of one order, if it is a delivered order of customer c. */
  function DeliveredAmount(s: Store, w: int, d: int, c: int, o: int): int {
    if IsOrder(s, Order(w, d, o)) && s[Order(w, d, o)].order.cId == c && s[Order(w, d, o)].order.carrierId != NULL_CARRIER_ID
    then Total(LinesAt(s, Lines(w, d, o))) else 0
  }

  /** Sum of ol_amount over the delivered orders of customer c with ids below next. */
  function DeliveredTotal(s: Store, w: int, d: int, c: int, next: int): int
    decreases next
  {
    if next <= 1 then 0 else DeliveredTotal(s, w, d, c, next - 1) + DeliveredAmount(s, w, d, c, next - 1)
  }

  /** c_balance + c_ytd_payment is the sum of ol_amount over the customer's delivered orders
      (clause 3.3.2.12). */
  ghost predicate BalanceInv(k: Scale, s: Store, w: int, d: int) {
    forall c | 1 <= c <= k.customers :: CustomerInv(s, w, d, c)
  }

  ghost predicate CustomerInv(s: Store, w: int, d: int, c: int) {
    && IsCustomer(s, Customer(w, d, c))
    && s[Customer(w, d, c)].customer.balance + s[Customer(w, d, c)].customer.ytdPayment
       == DeliveredTotal(s, w, d, c, NextOf(s, w, d))
  }

  ghost predicate DistrictInv(k: Scale, s: Store, w: int, d: int) {
    QueueInv(s, w, d) && OrdersInv(k, s, w, d) && BalanceInv(k, s, w, d)
  }

  /** The rows that no transaction creates. */
  ghost predicate Rows(k: Scale, s: Store) {
    && (forall w | 1 <= w <= k.warehouses :: IsNum(s, WarehouseYtd(w)))
    && (forall w, d | InScale(k, w, d) :: IsNum(s, DistrictYtd(w, d)))
    && (forall i | 1 <= i <= k.items :: IsNum(s, Item(i)))
    && (forall w, i | 1 <= w <= k.warehouses && 1 <= i <= k.items :: StockOk(s, w, i))
    && Fault !in s
  }

  ghost predicate StockOk(s: Store, w: int, i: int) {
    IsStock(s, Stock(w, i)) && |s[Stock(w, i)].stock.dists| == DISTRICTS_PER_WAREHOUSE
  }

  ghost predicate Consistent(k: Scale, s: Store) {
    Rows(k, s) && forall w, d | InScale(k, w, d) :: DistrictInv(k, s, w, d)
  }

  /** No value has been handed over yet by transaction n. */
  ghost predicate FreshFor(s: Store, n: nat) {
    HNext(n) !in s && forall d :: HNoId(n, d) !in s && HCust(n, d) !in s
  }

  // ---- Frames ----

  predicate OfDistrict(c: Cell, w: int, d: int) {
    match c
    case NextOrderId(w', d') => w == w' && d == d'
    case Oldest(w', d') => w == w' && d == d'
    case NewOrders(w', d') => w == w' && d == d'
    case Order(w', d', _) => w == w' && d == d'
    case Lines(w', d', _) => w == w' && d == d'
    case Customer(w', d', _) => w == w' && d == d'
    case _ => false
  }

  ghost predicate SameDistrict(s: Store, t: Store, w: int, d: int) {
    forall c | OfDistrict(c, w, d) :: SameAt(s, t, c)
  }

  lemma {:induction false} DeliveredTotalFrame(s: Store, t: Store, w: int, d: int, c: int, next: int)
    requires forall o | 1 <= o < next :: DeliveredAmount(s, w, d, c, o) == DeliveredAmount(t, w, d, c, o)
    ensures DeliveredTotal(s, w, d, c, next) == DeliveredTotal(t, w, d, c, next)
    decreases next
  {
    if next > 1 { DeliveredTotalFrame(s, t, w, d, c, next - 1); }
  }

  lemma DistrictFrame(k: Scale, s: Store, t: Store, w: int, d: int)
    requires DistrictInv(k, s, w, d) && SameDistrict(s, t, w, d)
    ensures DistrictInv(k, t, w, d)
  {
    assert SameAt(s, t, NextOrderId(w, d)) && SameAt(s, t, Oldest(w, d)) && SameAt(s, t, NewOrders(w, d));
    assert NextOf(s, w, d) == NextOf(t, w, d) && OldestOf(s, w, d) == OldestOf(t, w, d);
    assert IdsAt(s, NewOrders(w, d)) == IdsAt(t, NewOrders(w, d));
    assert QueueInv(t, w, d);
    forall o ensures SameAt(s, t, Order(w, d, o)) && SameAt(s, t, Lines(w, d, o)) {
      assert OfDistrict(Order(w, d, o), w, d) && OfDistrict(Lines(w, d, o), w, d);
    }
    forall o | 1 <= o < NextOf(t, w, d) ensures OrderInv(k, t, w, d, o) {
      assert OrderInv(k, s, w, d, o);
    }
    forall c | 1 <= c <= k.customers ensures CustomerInv(t, w, d, c) {
      assert CustomerInv(s, w, d, c) && SameAt(s, t, Customer(w, d, c));
      DeliveredTotalFrame(s, t, w, d, c, NextOf(s, w, d));
    }
  }

  /** Rows asks only for rows that are never removed and cells that keep their kind. */
  lemma RowsFrame(k: Scale, s: Store, t: Store)
    requires Rows(k, s)
    requires forall w :: SameAt(s, t, WarehouseYtd(w))
    requires forall w, d :: SameAt(s, t, DistrictYtd(w, d))
    requires forall i :: SameAt(s, t, Item(i))
    requires forall w, i :: SameAt(s, t, Stock(w, i))
    requires SameAt(s, t, Fault)
    ensures Rows(k, t)
  {
    forall w, i | 1 <= w <= k.warehouses && 1 <= i <= k.items ensures StockOk(t, w, i) {
      assert StockOk(s, w, i) && SameAt(s, t, Stock(w, i));
    }
  }
}
