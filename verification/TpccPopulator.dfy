/** The populator's loops.  Random values are inputs; the database they fill is told row by
    row from those values.  It meets the consistency conditions, and the money conditions
    exactly at the full scale. */
module TpccPopulator {
  import opened Replay
  import opened TpccModel
  import opened TpccInvariant
  import opened TpccMoney

  const INITIAL_W_YTD := 300000
  const INITIAL_D_YTD := 30000
  const INITIAL_BALANCE := -10
  const INITIAL_YTD_PAYMENT := 10
  const INITIAL_PAYMENT_CNT := 1
  const INITIAL_AMOUNT := 10
  const INITIAL_QUANTITY := 5
  const CUSTOMERS_PER_DISTRICT := 3000

  /** The values that the random generators return. */
  datatype Draws = Draws(
    price: int -> int,
    quantity: (int, int) -> int,
    dists: (int, int) -> seq<string>,
    olCnt: (int, int, int) -> int,
    carrier: (int, int, int) -> int,
    line: (int, int, int, int) -> (int, int, int, string),   // item, time, amount, district string
    history: (int, int, int) -> (int, string),
    time: (int, int, int) -> int)

  /** The ranges from which the generators draw. */
  ghost predicate InRange(r: Draws) {
    && (forall w, i :: 10 <= r.quantity(w, i) <= 100)
    && (forall w, i :: |r.dists(w, i)| == DISTRICTS_PER_WAREHOUSE)
    && (forall w, d, o :: 5 <= r.olCnt(w, d, o) <= 15)
    && (forall w, d, o :: 1 <= r.carrier(w, d, o) <= 10)
  }

  // ---- The database that a drawing describes ----

  /** Line l of order o: a waiting order has no delivery date yet and costs what was drawn; a
      delivered one is free of charge. */
  function LineDrawn(r: Draws, w: int, d: int, o: int, l: int, waiting: bool): Line {
    var draw := r.line(w, d, o, l);
    if waiting then Line(l, draw.0, w, -1, INITIAL_QUANTITY, draw.2, draw.3)
    else Line(l, draw.0, w, draw.1, INITIAL_QUANTITY, 0, draw.3)
  }

  function LinesDrawn(r: Draws, w: int, d: int, o: int, olCnt: int, waiting: bool): seq<Line> {
    seq(if olCnt >= 0 then olCnt else 0, i requires i >= 0 => LineDrawn(r, w, d, o, i + 1, waiting))
  }

  function OrderDrawn(r: Draws, w: int, d: int, o: int, waiting: bool): OrderRow {
    OrderRow(o, r.time(w, d, o), if waiting then NULL_CARRIER_ID else r.carrier(w, d, o), r.olCnt(w, d, o), true)
  }

  /** The first payment of a customer, made at its own district. */
  function PaymentDrawn(r: Draws, w: int, d: int, c: int): HistoryRow {
    HistoryRow(c, d, w, d, w, r.history(w, d, c).0, INITIAL_AMOUNT, r.history(w, d, c).1)
  }

  function Range(lo: int, hi: int): set<int>
    decreases hi - lo
  {
    if hi < lo then {} else Range(lo, hi - 1) + {hi}
  }

  lemma {:induction false} RangeHas(lo: int, hi: int)
    ensures forall o :: o in Range(lo, hi) <==> lo <= o <= hi
    decreases hi - lo
  {
    if lo <= hi { RangeHas(lo, hi - 1); }
  }

  /** The row of a cell, if it has one.  Orders wait from id `first` on. */
  function DrawnValue(k: Scale, first: int, r: Draws, c: Cell): Value {
    match c
    case Item(i) => Num(r.price(i))
    case Stock(w, i) => StockV(StockRow(r.quantity(w, i), r.dists(w, i), 0, 0, 0))
    case WarehouseYtd(_) => Num(INITIAL_W_YTD)
    case DistrictYtd(_, _) => Num(INITIAL_D_YTD)
    case NextOrderId(_, _) => Num(k.customers + 1)
    case Oldest(_, _) => Num(first)
    case NewOrders(_, _) => Ids(Range(first, k.customers))
    case Order(w, d, o) => OrderV(OrderDrawn(r, w, d, o, o >= first))
    case Lines(w, d, o) => LinesV(LinesDrawn(r, w, d, o, r.olCnt(w, d, o), o >= first))
    case Customer(_, _, _) => CustomerV(CustomerRow(INITIAL_BALANCE, INITIAL_YTD_PAYMENT, INITIAL_PAYMENT_CNT))
    case _ => Num(0)
  }

  predicate OfScale(d: int) { 1 <= d <= DISTRICTS_PER_WAREHOUSE }

  /** The cells that have a row, in a warehouse that is there. */
  predicate Listed(k: Scale, first: int, c: Cell) {
    match c
    case Item(i) => 1 <= i <= k.items
    case Stock(_, i) => 1 <= i <= k.items
    case WarehouseYtd(_) => true
    case DistrictYtd(_, d) => OfScale(d)
    case NextOrderId(_, d) => OfScale(d)
    case Oldest(_, d) => OfScale(d)
    case NewOrders(_, d) => OfScale(d) && first <= k.customers
    case Order(_, d, o) => OfScale(d) && 1 <= o <= k.customers
    case Lines(_, d, o) => OfScale(d) && 1 <= o <= k.customers
    case Customer(_, d, c) => OfScale(d) && 1 <= c <= k.customers
    case _ => false
  }

  ghost predicate AsDrawn(k: Scale, first: int, r: Draws, s: Store, c: Cell) {
    if Listed(k, first, c) then c in s && s[c] == DrawnValue(k, first, r, c) else c !in s
  }

  function Home(c: Cell): Option<int> {
    match c
    case WarehouseYtd(w) => Some(w)
    case Stock(w, _) => Some(w)
    case NextOrderId(w, _) => Some(w)
    case Oldest(w, _) => Some(w)
    case NewOrders(w, _) => Some(w)
    case Order(w, _, _) => Some(w)
    case Lines(w, _, _) => Some(w)
    case Customer(w, _, _) => Some(w)
    case DistrictYtd(w, _) => Some(w)
    case _ => None
  }

  predicate OfWarehouse(c: Cell, w: int) { Home(c) == Some(w) }

  predicate Inside(k: Scale, c: Cell) { c.Item? || (Home(c).Some? && 1 <= Home(c).value <= k.warehouses) }

  ghost predicate CellDrawn(k: Scale, first: int, r: Draws, s: Store, c: Cell) {
    if Inside(k, c) then AsDrawn(k, first, r, s, c) else c !in s
  }

  // The history: one payment for each customer, in the order of the loops.

  function CustomerPayments(r: Draws, w: int, d: int, n: int): seq<HistoryRow>
    decreases n
  {
    if n <= 0 then [] else CustomerPayments(r, w, d, n - 1) + [PaymentDrawn(r, w, d, n)]
  }

  function DistrictPayments(r: Draws, w: int, d: int, n: int): seq<HistoryRow>
    decreases w, d
  {
    if d <= 0 then [] else DistrictPayments(r, w, d - 1, n) + CustomerPayments(r, w, d, n)
  }

  function Payments(r: Draws, w: int, n: int): seq<HistoryRow>
    decreases w
  {
    if w <= 0 then [] else Payments(r, w - 1, n) + DistrictPayments(r, w, DISTRICTS_PER_WAREHOUSE, n)
  }

  /** The database holds the rows of the drawing and no others. */
  ghost predicate Drawn(k: Scale, first: int, r: Draws, s: Store) {
    && (forall c: Cell | !c.History? :: CellDrawn(k, first, r, s, c))
    && HistoryAt(s) == Payments(r, k.warehouses, k.customers)
  }

  ghost predicate HasPaid(r: Draws, w: int, d: int, n: int, row: HistoryRow) {
    exists c :: 1 <= c <= n && row == PaymentDrawn(r, w, d, c)
  }

  ghost predicate HasPaidIn(r: Draws, w: int, d: int, n: int, row: HistoryRow) {
    exists e :: 1 <= e <= d && HasPaid(r, w, e, n, row)
  }

  lemma {:induction false} CustomerPaymentsListed(r: Draws, w: int, d: int, n: int, row: HistoryRow)
    ensures row in CustomerPayments(r, w, d, n) <==> HasPaid(r, w, d, n, row)
    decreases n
  {
    if n > 0 { CustomerPaymentsListed(r, w, d, n - 1, row); }
  }

  lemma {:induction false} DistrictPaymentsListed(r: Draws, w: int, d: int, n: int, row: HistoryRow)
    ensures row in DistrictPayments(r, w, d, n) <==> HasPaidIn(r, w, d, n, row)
    decreases d
  {
    if d > 0 {
      DistrictPaymentsListed(r, w, d - 1, n, row);
      CustomerPaymentsListed(r, w, d, n, row);
    }
  }

  ghost predicate HasPaidSomewhere(r: Draws, w: int, d: int, n: int, row: HistoryRow) {
    exists v :: 1 <= v <= w && HasPaidIn(r, v, d, n, row)
  }

  /** The history holds the first payments of the customers that there are, and no others. */
  lemma {:induction false} PaymentsListed(r: Draws, w: int, n: int, row: HistoryRow)
    ensures row in Payments(r, w, n) <==> HasPaidSomewhere(r, w, DISTRICTS_PER_WAREHOUSE, n, row)
    decreases w
  {
    if w > 0 {
      var before := Payments(r, w - 1, n);
      PaymentsListed(r, w - 1, n, row);
      OneMorePaid(r, w, DISTRICTS_PER_WAREHOUSE, n, row);
      assert Payments(r, w, n) == before + DistrictPayments(r, w, DISTRICTS_PER_WAREHOUSE, n);
    }
  }

  lemma OneMorePaid(r: Draws, w: int, d: int, n: int, row: HistoryRow)
    ensures row in DistrictPayments(r, w, d, n) <==> HasPaidIn(r, w, d, n, row)
    ensures HasPaidSomewhere(r, w, d, n, row) <==> HasPaidSomewhere(r, w - 1, d, n, row) || (w >= 1 && HasPaidIn(r, w, d, n, row))
  {
    DistrictPaymentsListed(r, w, d, n, row);
  }

  // ---- What one district looks like ----

  /** Order o of a fresh district, whose waiting orders start at `first`. */
  ghost predicate FreshOrder(s: Store, w: int, d: int, o: int, first: int) {
    && IsOrder(s, Order(w, d, o)) && IsLines(s, Lines(w, d, o))
    && s[Order(w, d, o)].order.cId == o
    && 1 <= s[Order(w, d, o)].order.olCnt == |LinesAt(s, Lines(w, d, o))|
    && Numbered(LinesAt(s, Lines(w, d, o)))
    && (s[Order(w, d, o)].order.carrierId == NULL_CARRIER_ID <==> o >= first)
    && (o < first ==> Total(LinesAt(s, Lines(w, d, o))) == 0)
  }

  ghost predicate FreshOrders(s: Store, w: int, d: int, first: int, next: int) {
    && (forall o | 1 <= o < next :: FreshOrder(s, w, d, o, first))
    && (forall o | Order(w, d, o) in s || Lines(w, d, o) in s :: 1 <= o < next)
    && (forall o :: o in IdsAt(s, NewOrders(w, d)) <==> first <= o < next)
  }

  ghost predicate FreshCustomers(s: Store, w: int, d: int, next: int) {
    forall c | 1 <= c < next :: FreshCustomer(s, w, d, c)
  }

  predicate FreshCustomer(s: Store, w: int, d: int, c: int) {
    Customer(w, d, c) in s && s[Customer(w, d, c)] == CustomerV(CustomerRow(INITIAL_BALANCE, INITIAL_YTD_PAYMENT, INITIAL_PAYMENT_CNT))
  }

  lemma {:induction false} NothingDelivered(s: Store, w: int, d: int, c: int, first: int, next: int, upTo: int)
    requires FreshOrders(s, w, d, first, next) && upTo <= next
    ensures DeliveredTotal(s, w, d, c, upTo) == 0
    decreases upTo
  {
    if upTo > 1 {
      NothingDelivered(s, w, d, c, first, next, upTo - 1);
      assert FreshOrder(s, w, d, upTo - 1, first);
    }
  }

  lemma FreshDistrict(k: Scale, s: Store, w: int, d: int, first: int)
    requires 1 <= first <= k.customers + 1
    requires FreshOrders(s, w, d, first, k.customers + 1) && FreshCustomers(s, w, d, k.customers + 1)
    requires NextOrderId(w, d) in s && s[NextOrderId(w, d)] == Num(k.customers + 1)
    requires Oldest(w, d) in s && s[Oldest(w, d)] == Num(first)
    ensures DistrictInv(k, s, w, d)
  {
    forall o | 1 <= o < NextOf(s, w, d) ensures OrderInv(k, s, w, d, o) {
      assert FreshOrder(s, w, d, o, first);
    }
    forall c | 1 <= c <= k.customers ensures CustomerInv(s, w, d, c) {
      assert FreshCustomer(s, w, d, c);
      NothingDelivered(s, w, d, c, first, k.customers + 1, k.customers + 1);
    }
  }

  lemma {:induction false} FreeOfCharge(lines: seq<Line>)
    requires forall l | 0 <= l < |lines| :: lines[l].amount == 0
    ensures Total(lines) == 0
  {
    if lines != [] { FreeOfCharge(lines[1..]); }
  }

  lemma OrderIsFresh(k: Scale, first: int, r: Draws, s: Store, w: int, d: int, o: int)
    requires InRange(r) && OfScale(d) && 1 <= o <= k.customers
    requires AsDrawn(k, first, r, s, Order(w, d, o)) && AsDrawn(k, first, r, s, Lines(w, d, o))
    ensures FreshOrder(s, w, d, o, first)
  {
    assert 1 <= r.carrier(w, d, o) && 5 <= r.olCnt(w, d, o);
    if o < first { FreeOfCharge(LinesAt(s, Lines(w, d, o))); }
  }

  lemma DistrictIsFresh(k: Scale, first: int, r: Draws, s: Store, w: int, d: int)
    requires Drawn(k, first, r, s) && InRange(r) && InScale(k, w, d) && 1 <= first <= k.customers + 1
    ensures DistrictInv(k, s, w, d)
  {
    forall o | 1 <= o < k.customers + 1 ensures FreshOrder(s, w, d, o, first) {
      assert CellDrawn(k, first, r, s, Order(w, d, o)) && CellDrawn(k, first, r, s, Lines(w, d, o));
      OrderIsFresh(k, first, r, s, w, d, o);
    }
    forall o | Order(w, d, o) in s || Lines(w, d, o) in s ensures 1 <= o < k.customers + 1 {
      assert CellDrawn(k, first, r, s, Order(w, d, o)) && CellDrawn(k, first, r, s, Lines(w, d, o));
    }
    forall c | 1 <= c < k.customers + 1 ensures FreshCustomer(s, w, d, c) { assert CellDrawn(k, first, r, s, Customer(w, d, c)); }
    assert CellDrawn(k, first, r, s, NewOrders(w, d)) && CellDrawn(k, first, r, s, NextOrderId(w, d)) && CellDrawn(k, first, r, s, Oldest(w, d));
    RangeHas(first, k.customers);
    FreshDistrict(k, s, w, d, first);
  }

  /** Whatever the drawing, the database that it describes is consistent. */
  lemma DrawnIsConsistent(k: Scale, first: int, r: Draws, s: Store)
    requires Drawn(k, first, r, s) && InRange(r) && 1 <= first <= k.customers + 1
    ensures Consistent(k, s) && StockLaws(s, r.quantity) && forall c | c in s :: !IsHandover(c)
  {
    forall w, d | InScale(k, w, d) ensures DistrictInv(k, s, w, d) && IsNum(s, DistrictYtd(w, d)) {
      DistrictIsFresh(k, first, r, s, w, d);
      assert CellDrawn(k, first, r, s, DistrictYtd(w, d));
    }
    forall w | 1 <= w <= k.warehouses ensures IsNum(s, WarehouseYtd(w)) { assert CellDrawn(k, first, r, s, WarehouseYtd(w)); }
    forall i | 1 <= i <= k.items ensures IsNum(s, Item(i)) { assert CellDrawn(k, first, r, s, Item(i)); }
    forall w, i | 1 <= w <= k.warehouses && 1 <= i <= k.items ensures StockOk(s, w, i) { assert CellDrawn(k, first, r, s, Stock(w, i)); }
    assert CellDrawn(k, first, r, s, Fault);
    forall w, i | IsStock(s, Stock(w, i)) ensures StockLaw(s[Stock(w, i)].stock, r.quantity(w, i)) {
      assert CellDrawn(k, first, r, s, Stock(w, i)) && 10 <= r.quantity(w, i) <= 100;
    }
    forall c | c in s ensures !IsHandover(c) { assert c.History? || CellDrawn(k, first, r, s, c); }
  }

  // ---- Money ----

  function Times(n: nat, unit: int): int
    decreases unit, n
  {
    if n == 0 then 0 else Times(n - 1, unit) + unit
  }

  lemma {:induction false} TimesIs(n: nat, unit: int)
    ensures Times(n, unit) == n * unit
  {
    if n > 0 { TimesIs(n - 1, unit); }
  }

  lemma {:induction false} HistorySumJoin(a: seq<HistoryRow>, b: seq<HistoryRow>, w: int, d: int)
    ensures HistorySum(a + b, w, d) == HistorySum(a, w, d) + HistorySum(b, w, d)
  {
    if b == [] {
      assert a + b == a;
    } else {
      var front, last := b[..|b| - 1], b[|b| - 1];
      assert b == front + [last] && a + b == (a + front) + [last];
      HistorySumJoin(a, front, w, d);
      HistorySumAdds(a + front, last, w, d);
    }
  }

  lemma {:induction false} CustomerPaymentsSum(r: Draws, w: int, d: int, n: nat, v: int, e: int)
    requires d >= 1
    ensures HistorySum(CustomerPayments(r, w, d, n), v, e) == if v == w && (e == 0 || e == d) then Times(n, INITIAL_AMOUNT) else 0
    decreases n
  {
    if n > 0 {
      CustomerPaymentsSum(r, w, d, n - 1, v, e);
      HistorySumAdds(CustomerPayments(r, w, d, n - 1), PaymentDrawn(r, w, d, n), v, e);
    }
  }

  lemma {:induction false} DistrictPaymentsSum(r: Draws, w: int, d: nat, n: nat, v: int, e: int)
    ensures HistorySum(DistrictPayments(r, w, d, n), v, e)
         == if v != w then 0 else if e == 0 then Times(d, Times(n, INITIAL_AMOUNT)) else if 1 <= e <= d then Times(n, INITIAL_AMOUNT) else 0
    decreases d
  {
    if d > 0 {
      DistrictPaymentsSum(r, w, d - 1, n, v, e);
      CustomerPaymentsSum(r, w, d, n, v, e);
      HistorySumJoin(DistrictPayments(r, w, d - 1, n), CustomerPayments(r, w, d, n), v, e);
    }
  }

  /** Each district has received the first payments of its customers, and each warehouse those
      of its districts. */
  lemma {:induction false} PaymentsSum(r: Draws, w: int, n: nat, v: int, e: int)
    ensures HistorySum(Payments(r, w, n), v, e)
         == if !(1 <= v <= w) then 0
            else if e == 0 then Times(DISTRICTS_PER_WAREHOUSE, Times(n, INITIAL_AMOUNT)) else if OfScale(e) then Times(n, INITIAL_AMOUNT) else 0
    decreases w
  {
    if w > 0 {
      PaymentsSum(r, w - 1, n, v, e);
      DistrictPaymentsSum(r, w, DISTRICTS_PER_WAREHOUSE, n, v, e);
      HistorySumJoin(Payments(r, w - 1, n), DistrictPayments(r, w, DISTRICTS_PER_WAREHOUSE, n), v, e);
    }
  }

  lemma {:induction false} SameEach(s: Store, w: int, d: nat, each: int)
    requires forall e | 1 <= e <= d :: NumOr(s, DistrictYtd(w, e), 0) == each
    ensures DistrictSum(s, w, d) == d * each
  {
    if d > 0 { SameEach(s, w, d - 1, each); }
  }

  lemma DrawnWarehouseMoney(k: Scale, first: int, r: Draws, s: Store, w: int)
    requires Drawn(k, first, r, s) && k.customers >= 0 && 1 <= w <= k.warehouses
    ensures WarehouseMoney(s, w) <==> k.customers == CUSTOMERS_PER_DISTRICT
  {
    assert CellDrawn(k, first, r, s, WarehouseYtd(w));
    forall e | 1 <= e <= DISTRICTS_PER_WAREHOUSE ensures NumOr(s, DistrictYtd(w, e), 0) == INITIAL_D_YTD {
      assert CellDrawn(k, first, r, s, DistrictYtd(w, e));
    }
    SameEach(s, w, DISTRICTS_PER_WAREHOUSE, INITIAL_D_YTD);
    PaymentsSum(r, k.warehouses, k.customers, w, 0);
    TimesIs(k.customers, INITIAL_AMOUNT);
    TimesIs(DISTRICTS_PER_WAREHOUSE, k.customers * INITIAL_AMOUNT);
  }

  lemma DrawnDistrictMoney(k: Scale, first: int, r: Draws, s: Store, w: int, d: int)
    requires Drawn(k, first, r, s) && k.customers >= 0 && InScale(k, w, d)
    ensures DistrictMoney(s, w, d) <==> k.customers == CUSTOMERS_PER_DISTRICT
  {
    assert CellDrawn(k, first, r, s, DistrictYtd(w, d));
    PaymentsSum(r, k.warehouses, k.customers, w, d);
    TimesIs(k.customers, INITIAL_AMOUNT);
  }

  /** The money conditions hold if and only if the scale is full: c_ytd_payment puts 10.00
      per customer into the history, but d_ytd starts at 30000.00 whatever the scale. */
  lemma DrawnMoney(k: Scale, first: int, r: Draws, s: Store)
    requires Drawn(k, first, r, s) && k.customers >= 0
    ensures MoneyInv(k, s) <==> k.warehouses < 1 || k.customers == CUSTOMERS_PER_DISTRICT
  {
    forall w | 1 <= w <= k.warehouses ensures WarehouseMoney(s, w) <==> k.customers == CUSTOMERS_PER_DISTRICT {
      DrawnWarehouseMoney(k, first, r, s, w);
    }
    forall w, d | InScale(k, w, d) ensures DistrictMoney(s, w, d) <==> k.customers == CUSTOMERS_PER_DISTRICT {
      DrawnDistrictMoney(k, first, r, s, w, d);
    }
    if k.warehouses >= 1 { assert MoneyInv(k, s) ==> WarehouseMoney(s, 1); }
  }

  // ---- One loop further ----

  /** The cells that populating a district writes, history apart. */
  predicate Local(c: Cell, w: int, d: int) { OfDistrict(c, w, d) || c == DistrictYtd(w, d) }

  predicate LocalToAny(c: Cell, w: int) { OfWarehouse(c, w) && !c.WarehouseYtd? && !c.Stock? }

  predicate OrderCell(c: Cell, w: int, d: int) { OfDistrict(c, w, d) && (c.Order? || c.Lines? || c.NewOrders?) }

  predicate CustomerCell(c: Cell, w: int, d: int) { OfDistrict(c, w, d) && c.Customer? }

  /** The orders 1..n of the district are there, and no others. */
  ghost predicate OrdersDrawn(k: Scale, first: int, r: Draws, s: Store, w: int, d: int, n: int) {
    forall c | OrderCell(c, w, d) :: AsDrawn(k.(customers := n), first, r, s, c)
  }

  ghost predicate CustomersDrawn(k: Scale, first: int, r: Draws, s: Store, w: int, d: int, n: int) {
    forall c | CustomerCell(c, w, d) :: AsDrawn(k.(customers := n), first, r, s, c)
  }

  lemma OneMoreOrder(k: Scale, first: int, r: Draws, s: Store, t: Store, w: int, d: int, o: int)
    requires OfScale(d) && 1 <= o && OrdersDrawn(k, first, r, s, w, d, o - 1)
    requires Order(w, d, o) in t && t[Order(w, d, o)] == OrderV(OrderDrawn(r, w, d, o, o >= first))
    requires Lines(w, d, o) in t && t[Lines(w, d, o)] == LinesV(LinesDrawn(r, w, d, o, r.olCnt(w, d, o), o >= first))
    requires if o >= first then NewOrders(w, d) in t && t[NewOrders(w, d)] == Ids(IdsAt(s, NewOrders(w, d)) + {o}) else SameAt(s, t, NewOrders(w, d))
    requires forall c | c !in {Order(w, d, o), Lines(w, d, o), NewOrders(w, d)} :: SameAt(s, t, c)
    ensures OrdersDrawn(k, first, r, t, w, d, o)
  {
    var before, now := k.(customers := o - 1), k.(customers := o);
    forall c | OrderCell(c, w, d) ensures AsDrawn(now, first, r, t, c) {
      assert AsDrawn(before, first, r, s, c);
      if c == NewOrders(w, d) {
        assert o >= first ==> Range(first, o) == Range(first, o - 1) + {o};
      } else if c !in {Order(w, d, o), Lines(w, d, o)} {
        assert SameAt(s, t, c);
      }
    }
  }

  lemma OneMoreWarehouse(k: Scale, first: int, r: Draws, s: Store, t: Store, w: int)
    requires w >= 1 && Drawn(k.(warehouses := w - 1), first, r, s)
    requires forall c | OfWarehouse(c, w) :: AsDrawn(k, first, r, t, c)
    requires forall c: Cell | !OfWarehouse(c, w) && !c.History? :: SameAt(s, t, c)
    requires HistoryAt(t) == HistoryAt(s) + DistrictPayments(r, w, DISTRICTS_PER_WAREHOUSE, k.customers)
    ensures Drawn(k.(warehouses := w), first, r, t)
  {
    forall c: Cell | !c.History? ensures CellDrawn(k.(warehouses := w), first, r, t, c) {
      assert CellDrawn(k.(warehouses := w - 1), first, r, s, c);
      assert OfWarehouse(c, w) || SameAt(s, t, c);
      OneMoreCell(k, first, r, s, t, w, c);
    }
  }

  lemma OneMoreCell(k: Scale, first: int, r: Draws, s: Store, t: Store, w: int, c: Cell)
    requires w >= 1 && !c.History?
    requires if OfWarehouse(c, w) then AsDrawn(k, first, r, t, c) else SameAt(s, t, c) && CellDrawn(k.(warehouses := w - 1), first, r, s, c)
    ensures CellDrawn(k.(warehouses := w), first, r, t, c)
  {
    SameDrawing(k, k.(warehouses := w), first, r, t, c);
    SameDrawing(k.(warehouses := w - 1), k.(warehouses := w), first, r, s, c);
  }

  lemma OneMoreCustomer(k: Scale, first: int, r: Draws, s: Store, t: Store, w: int, d: int, n: int)
    requires OfScale(d) && 1 <= n && CustomersDrawn(k, first, r, s, w, d, n - 1)
    requires Customer(w, d, n) in t
    requires t[Customer(w, d, n)] == CustomerV(CustomerRow(INITIAL_BALANCE, INITIAL_YTD_PAYMENT, INITIAL_PAYMENT_CNT))
    requires forall x | x != Customer(w, d, n) && x != History :: SameAt(s, t, x)
    ensures CustomersDrawn(k, first, r, t, w, d, n)
  {
    forall x | CustomerCell(x, w, d) ensures AsDrawn(k.(customers := n), first, r, t, x) {
      assert AsDrawn(k.(customers := n - 1), first, r, s, x);
      assert x == Customer(w, d, n) || SameAt(s, t, x);
    }
  }

  lemma NoCustomersYet(k: Scale, first: int, r: Draws, s: Store, a: Store, w: int, d: int)
    requires forall c | Local(c, w, d) :: c !in s
    requires a == s[DistrictYtd(w, d) := Num(INITIAL_D_YTD)][NextOrderId(w, d) := Num(k.customers + 1)]
    ensures CustomersDrawn(k, first, r, a, w, d, 0) && HistoryAt(a) == HistoryAt(s)
  {
  }

  lemma NoOrdersYet(k: Scale, first: int, r: Draws, s: Store, a: Store, b: Store, e: Store, w: int, d: int)
    requires first >= 1 && forall c | Local(c, w, d) :: c !in s
    requires a == s[DistrictYtd(w, d) := Num(INITIAL_D_YTD)][NextOrderId(w, d) := Num(k.customers + 1)]
    requires forall x: Cell | !x.History? && !CustomerCell(x, w, d) :: SameAt(a, b, x)
    requires e == b[Oldest(w, d) := Num(first)]
    ensures OrdersDrawn(k, first, r, e, w, d, 0) && HistoryAt(e) == HistoryAt(b)
  {
    forall c | OrderCell(c, w, d) ensures AsDrawn(k.(customers := 0), first, r, e, c) {
      assert Local(c, w, d) && SameAt(a, b, c);
    }
  }

  /** From s0 to s the customers 1..n of the district have been inserted, with their payments. */
  ghost predicate CustomersIn(k: Scale, first: int, r: Draws, s0: Store, s: Store, w: int, d: int, n: int) {
    && CustomersDrawn(k, first, r, s, w, d, n)
    && HistoryAt(s) == HistoryAt(s0) + CustomerPayments(r, w, d, n)
    && forall x: Cell | !x.History? && !CustomerCell(x, w, d) :: SameAt(s0, s, x)
  }

  lemma OneMoreIn(k: Scale, first: int, r: Draws, s0: Store, s: Store, t: Store, w: int, d: int, n: int)
    requires OfScale(d) && 1 <= n && CustomersIn(k, first, r, s0, s, w, d, n - 1)
    requires Customer(w, d, n) in t
    requires t[Customer(w, d, n)] == CustomerV(CustomerRow(INITIAL_BALANCE, INITIAL_YTD_PAYMENT, INITIAL_PAYMENT_CNT))
    requires forall x | x != Customer(w, d, n) && x != History :: SameAt(s, t, x)
    requires HistoryAt(t) == HistoryAt(s) + [PaymentDrawn(r, w, d, n)]
    ensures CustomersIn(k, first, r, s0, t, w, d, n)
  {
    OneMoreCustomer(k, first, r, s, t, w, d, n);
    forall x: Cell | !x.History? && !CustomerCell(x, w, d) ensures SameAt(s0, t, x) {
      assert SameAt(s0, s, x) && SameAt(s, t, x);
    }
  }

  /** What the parts of a district add up to. */
  lemma DistrictParts(k: Scale, first: int, r: Draws, s: Store, a: Store, b: Store, e: Store, t: Store, w: int, d: int)
    requires OfScale(d) && forall c | Local(c, w, d) :: c !in s
    requires a == s[DistrictYtd(w, d) := Num(INITIAL_D_YTD)][NextOrderId(w, d) := Num(k.customers + 1)]
    requires CustomersDrawn(k, first, r, b, w, d, k.customers)
    requires forall x: Cell | !x.History? && !CustomerCell(x, w, d) :: SameAt(a, b, x)
    requires e == b[Oldest(w, d) := Num(first)]
    requires OrdersDrawn(k, first, r, t, w, d, k.customers) && forall c | !OrderCell(c, w, d) :: SameAt(e, t, c)
    ensures forall c | Local(c, w, d) :: AsDrawn(k, first, r, t, c)
    ensures forall c: Cell | !Local(c, w, d) && !c.History? :: SameAt(s, t, c)
  {
    assert k.(customers := k.customers) == k;
    forall c | Local(c, w, d) ensures AsDrawn(k, first, r, t, c) {
      if OrderCell(c, w, d) {
        assert AsDrawn(k.(customers := k.customers), first, r, t, c);
      } else if CustomerCell(c, w, d) {
        assert AsDrawn(k.(customers := k.customers), first, r, b, c) && SameAt(e, t, c);
      } else {
        assert SameAt(a, b, c) && SameAt(e, t, c);
      }
    }
    forall c: Cell | !Local(c, w, d) && !c.History? ensures SameAt(s, t, c) {
      assert SameAt(a, b, c) && SameAt(e, t, c);
    }
  }

  /** The districts of the warehouse below d are there, and no others. */
  ghost predicate DistrictsDrawn(k: Scale, first: int, r: Draws, s: Store, w: int, d: int) {
    forall c | LocalToAny(c, w) :: if 1 <= c.d < d then AsDrawn(k, first, r, s, c) else c !in s
  }

  lemma OneMoreDistrict(k: Scale, first: int, r: Draws, s: Store, t: Store, w: int, d: int)
    requires d >= 1 && DistrictsDrawn(k, first, r, s, w, d)
    requires forall c | Local(c, w, d) :: AsDrawn(k, first, r, t, c)
    requires forall c: Cell | !Local(c, w, d) && !c.History? :: SameAt(s, t, c)
    ensures DistrictsDrawn(k, first, r, t, w, d + 1)
  {
    var next := d + 1;
    forall c | LocalToAny(c, w) ensures if 1 <= c.d < next then AsDrawn(k, first, r, t, c) else c !in t {
      assert Local(c, w, d) || SameAt(s, t, c);
    }
  }

  lemma AllDistricts(k: Scale, first: int, r: Draws, s: Store, w: int)
    requires DistrictsDrawn(k, first, r, s, w, DISTRICTS_PER_WAREHOUSE + 1)
    ensures forall c | LocalToAny(c, w) :: AsDrawn(k, first, r, s, c)
  {
  }

  /** What the parts of a warehouse add up to. */
  lemma WarehouseParts(k: Scale, first: int, r: Draws, s: Store, a: Store, b: Store, t: Store, w: int)
    requires a == s[WarehouseYtd(w) := Num(INITIAL_W_YTD)]
    requires forall c | LocalToAny(c, w) :: AsDrawn(k, first, r, b, c)
    requires forall c: Cell | !LocalToAny(c, w) && !c.History? :: SameAt(a, b, c)
    requires forall i :: AsDrawn(k, first, r, t, Stock(w, i))
    requires forall c: Cell | !(c.Stock? && c.w == w) :: SameAt(b, t, c)
    ensures forall c | OfWarehouse(c, w) :: AsDrawn(k, first, r, t, c)
    ensures forall c: Cell | !OfWarehouse(c, w) && !c.History? :: SameAt(s, t, c)
    ensures HistoryAt(t) == HistoryAt(b)
  {
    assert SameAt(b, t, History);
    forall c | OfWarehouse(c, w) ensures AsDrawn(k, first, r, t, c) {
      if c.Stock? {
        assert AsDrawn(k, first, r, t, Stock(w, c.i));
      } else {
        assert SameAt(b, t, c) && (LocalToAny(c, w) || SameAt(a, b, c));
      }
    }
    forall c: Cell | !OfWarehouse(c, w) && !c.History? ensures SameAt(s, t, c) {
      assert SameAt(a, b, c) && SameAt(b, t, c);
    }
  }

  /** The number of warehouses does not matter to one cell. */
  lemma SameDrawing(k: Scale, k': Scale, first: int, r: Draws, s: Store, c: Cell)
    requires k.(warehouses := 0) == k'.(warehouses := 0)
    ensures AsDrawn(k, first, r, s, c) == AsDrawn(k', first, r, s, c)
  {
  }

  lemma ItemsAlone(k: Scale, first: int, r: Draws, s: Store)
    requires forall i :: AsDrawn(k, first, r, s, Item(i))
    requires forall c: Cell | !c.Item? :: c !in s
    ensures Drawn(k.(warehouses := 0), first, r, s)
  {
  }

  lemma NotYetThere(k: Scale, first: int, r: Draws, s: Store, w: int)
    requires Drawn(k, first, r, s) && w > k.warehouses
    ensures forall c | OfWarehouse(c, w) :: c !in s
  {
    forall c | OfWarehouse(c, w) ensures c !in s { assert CellDrawn(k, first, r, s, c); }
  }

  /** Warehouses 1..w are all, also if the scale names none. */
  lemma AllWarehouses(k: Scale, first: int, r: Draws, s: Store, w: nat)
    requires Drawn(k.(warehouses := w), first, r, s) && w >= k.warehouses && (w > k.warehouses ==> w == 0)
    ensures Drawn(k, first, r, s)
  {
    forall c: Cell | !c.History? ensures CellDrawn(k, first, r, s, c) { assert CellDrawn(k.(warehouses := w), first, r, s, c); }
  }

  class Populator {
    const k: Scale
    const newOrders: int
    const draws: Draws
    var db: Store

    /** The first order that waits for delivery in each district. */
    function First(): int { k.customers - newOrders + 1 }

    constructor (k: Scale, newOrders: int, draws: Draws)
      ensures this.k == k && this.newOrders == newOrders && this.draws == draws && db == map[]
    {
      this.k, this.newOrders, this.draws, db := k, newOrders, draws, map[];
    }

    /** The lines of one order, inserted one by one under its key. */
    method InsertOrderLines(w: int, d: int, o: int, olCnt: int, isNewOrder: bool)
      requires olCnt >= 1 && Lines(w, d, o) !in db
      modifies this`db
      ensures Lines(w, d, o) in db && db == old(db)[Lines(w, d, o) := LinesV(LinesAt(db, Lines(w, d, o)))]
      ensures |LinesAt(db, Lines(w, d, o))| == olCnt
      ensures forall l | 0 <= l < olCnt ::
        var draw := draws.line(w, d, o, l + 1);
        LinesAt(db, Lines(w, d, o))[l] ==
          Line(l + 1, draw.0, w, if isNewOrder then -1 else draw.1, INITIAL_QUANTITY, if isNewOrder then draw.2 else 0, draw.3)
    {
      var cell := Lines(w, d, o);
      var olNumber := 1;
      while olNumber <= olCnt
        invariant 1 <= olNumber <= olCnt + 1
        invariant if olNumber == 1 then db == old(db) else db == old(db)[cell := LinesV(LinesAt(db, cell))]
        invariant |LinesAt(db, cell)| == olNumber - 1
        invariant forall l | 0 <= l < olNumber - 1 :: LinesAt(db, cell)[l] == LineDrawn(draws, w, d, o, l + 1, isNewOrder)
      {
        var draw := draws.line(w, d, o, olNumber);
        var deliveryD := if isNewOrder then -1 else draw.1;
        var amount := if isNewOrder then draw.2 else 0;
        db := db[cell := LinesV(LinesAt(db, cell) + [Line(olNumber, draw.0, w, deliveryD, INITIAL_QUANTITY, amount, draw.3)])];
        olNumber := olNumber + 1;
      }
    }

    /** Order o with its lines and, if it is one of the last, its NEW_ORDER row. */
    method InsertOneOrder(w: int, d: int, o: int)
      requires InRange(draws) && OfScale(d) && 1 <= o && OrdersDrawn(k, First(), draws, db, w, d, o - 1)
      modifies this`db
      ensures OrdersDrawn(k, First(), draws, db, w, d, o)
      ensures forall c | !OrderCell(c, w, d) :: SameAt(old(db), db, c)
    {
      var olCnt := draws.olCnt(w, d, o);
      var isNewOrder := o >= First();
      var carrier := if isNewOrder then NULL_CARRIER_ID else draws.carrier(w, d, o);
      assert OrderCell(Lines(w, d, o), w, d);
      db := db[Order(w, d, o) := OrderV(OrderRow(o, draws.time(w, d, o), carrier, olCnt, true))];
      InsertOrderLines(w, d, o, olCnt, isNewOrder);
      assert LinesAt(db, Lines(w, d, o)) == LinesDrawn(draws, w, d, o, olCnt, isNewOrder);
      if isNewOrder {
        db := db[NewOrders(w, d) := Ids(IdsAt(db, NewOrders(w, d)) + {o})];
      }
      OneMoreOrder(k, First(), draws, old(db), db, w, d, o);
    }

    method InsertOrders(w: int, d: int)
      requires InRange(draws) && OfScale(d) && k.customers >= 0 && OrdersDrawn(k, First(), draws, db, w, d, 0)
      modifies this`db
      ensures OrdersDrawn(k, First(), draws, db, w, d, k.customers)
      ensures forall c | !OrderCell(c, w, d) :: SameAt(old(db), db, c)
    {
      var o := 1;
      while o <= k.customers
        invariant 1 <= o <= k.customers + 1 && OrdersDrawn(k, First(), draws, db, w, d, o - 1)
        invariant forall c | !OrderCell(c, w, d) :: SameAt(old(db), db, c)
      {
        InsertOneOrder(w, d, o);
        o := o + 1;
      }
    }

    /** One customer with a history row for the first payment. */
    method InsertOneCustomer(w: int, d: int, c: int)
      modifies this`db
      ensures Customer(w, d, c) in db
      ensures db[Customer(w, d, c)] == CustomerV(CustomerRow(INITIAL_BALANCE, INITIAL_YTD_PAYMENT, INITIAL_PAYMENT_CNT))
      ensures forall x | x != Customer(w, d, c) && x != History :: SameAt(old(db), db, x)
      ensures
        var draw := draws.history(w, d, c);
        HistoryAt(db) == HistoryAt(old(db)) + [HistoryRow(c, d, w, d, w, draw.0, INITIAL_AMOUNT, draw.1)]
    {
      db := db[Customer(w, d, c) := CustomerV(CustomerRow(INITIAL_BALANCE, INITIAL_YTD_PAYMENT, INITIAL_PAYMENT_CNT))];
      var draw := draws.history(w, d, c);
      db := db[History := HistoryV(HistoryAt(db) + [HistoryRow(c, d, w, d, w, draw.0, INITIAL_AMOUNT, draw.1)])];
    }

    method InsertCustomers(w: int, d: int)
      requires OfScale(d) && k.customers >= 0 && CustomersDrawn(k, First(), draws, db, w, d, 0)
      modifies this`db
      ensures CustomersIn(k, First(), draws, old(db), db, w, d, k.customers)
    {
      var c := 1;
      while c <= k.customers
        invariant 1 <= c <= k.customers + 1 && CustomersIn(k, First(), draws, old(db), db, w, d, c - 1)
      {
        ghost var before := db;
        InsertOneCustomer(w, d, c);
        OneMoreIn(k, First(), draws, old(db), before, db, w, d, c);
        c := c + 1;
      }
    }

    /** A district with its customers, its queue pointer and its orders. */
    method InsertDistrict(w: int, d: int)
      requires InRange(draws) && 0 <= newOrders <= k.customers && OfScale(d)
      requires forall c | Local(c, w, d) :: c !in db
      modifies this`db
      ensures forall c | Local(c, w, d) :: AsDrawn(k, First(), draws, db, c)
      ensures forall c: Cell | !Local(c, w, d) && !c.History? :: SameAt(old(db), db, c)
      ensures HistoryAt(db) == HistoryAt(old(db)) + CustomerPayments(draws, w, d, k.customers)
    {
      var dNextOId := k.customers + 1;
      db := db[DistrictYtd(w, d) := Num(INITIAL_D_YTD)];
      db := db[NextOrderId(w, d) := Num(dNextOId)];
      ghost var a := db;
      NoCustomersYet(k, First(), draws, old(db), a, w, d);
      InsertCustomers(w, d);
      ghost var b := db;
      var initialNewOrderId := k.customers - newOrders + 1;
      db := db[Oldest(w, d) := Num(initialNewOrderId)];
      ghost var e := db;
      NoOrdersYet(k, First(), draws, old(db), a, b, e, w, d);
      InsertOrders(w, d);
      DistrictParts(k, First(), draws, old(db), a, b, e, db, w, d);
      assert SameAt(e, db, History);
    }

    method InsertDistricts(w: int)
      requires InRange(draws) && 0 <= newOrders <= k.customers
      requires forall c | LocalToAny(c, w) :: c !in db
      modifies this`db
      ensures forall c | LocalToAny(c, w) :: AsDrawn(k, First(), draws, db, c)
      ensures forall c: Cell | !LocalToAny(c, w) && !c.History? :: SameAt(old(db), db, c)
      ensures HistoryAt(db) == HistoryAt(old(db)) + DistrictPayments(draws, w, DISTRICTS_PER_WAREHOUSE, k.customers)
    {
      var d := 1;
      while d <= DISTRICTS_PER_WAREHOUSE
        invariant 1 <= d <= DISTRICTS_PER_WAREHOUSE + 1
        invariant DistrictsDrawn(k, First(), draws, db, w, d)
        invariant forall c: Cell | !LocalToAny(c, w) && !c.History? :: SameAt(old(db), db, c)
        invariant HistoryAt(db) == HistoryAt(old(db)) + DistrictPayments(draws, w, d - 1, k.customers)
      {
        ghost var before := db;
        InsertDistrict(w, d);
        OneMoreDistrict(k, First(), draws, before, db, w, d);
        forall c: Cell | !LocalToAny(c, w) && !c.History? ensures SameAt(old(db), db, c) {
          assert SameAt(old(db), before, c) && SameAt(before, db, c);
        }
        d := d + 1;
      }
      AllDistricts(k, First(), draws, db, w);
    }

    method InsertStocks(w: int)
      requires forall i :: Stock(w, i) !in db
      modifies this`db
      ensures forall i :: AsDrawn(k, First(), draws, db, Stock(w, i))
      ensures forall c: Cell | !(c.Stock? && c.w == w) :: SameAt(old(db), db, c)
    {
      var i := 1;
      while i <= k.items
        invariant 1 <= i && (i > k.items + 1 ==> i == 1)
        invariant forall j :: AsDrawn(k.(items := i - 1), First(), draws, db, Stock(w, j))
        invariant forall c: Cell | !(c.Stock? && c.w == w) :: SameAt(old(db), db, c)
      {
        ghost var before := db;
        db := db[Stock(w, i) := StockV(StockRow(draws.quantity(w, i), draws.dists(w, i), 0, 0, 0))];
        forall j ensures AsDrawn(k.(items := i), First(), draws, db, Stock(w, j)) {
          assert AsDrawn(k.(items := i - 1), First(), draws, before, Stock(w, j));
        }
        i := i + 1;
      }
      forall j ensures AsDrawn(k, First(), draws, db, Stock(w, j)) {
        assert AsDrawn(k.(items := i - 1), First(), draws, db, Stock(w, j));
      }
    }

    method InsertWarehouse(w: int)
      requires InRange(draws) && 0 <= newOrders <= k.customers
      requires forall c | OfWarehouse(c, w) :: c !in db
      modifies this`db
      ensures forall c | OfWarehouse(c, w) :: AsDrawn(k, First(), draws, db, c)
      ensures forall c: Cell | !OfWarehouse(c, w) && !c.History? :: SameAt(old(db), db, c)
      ensures HistoryAt(db) == HistoryAt(old(db)) + DistrictPayments(draws, w, DISTRICTS_PER_WAREHOUSE, k.customers)
    {
      db := db[WarehouseYtd(w) := Num(INITIAL_W_YTD)];
      ghost var a := db;
      InsertDistricts(w);
      ghost var b := db;
      forall i ensures Stock(w, i) !in db { assert OfWarehouse(Stock(w, i), w) && SameAt(a, b, Stock(w, i)); }
      InsertStocks(w);
      WarehouseParts(k, First(), draws, old(db), a, b, db, w);
    }

    method InsertItems()
      requires forall i :: Item(i) !in db
      modifies this`db
      ensures forall i :: AsDrawn(k, First(), draws, db, Item(i))
      ensures forall c: Cell | !c.Item? :: SameAt(old(db), db, c)
    {
      var i := 1;
      while i <= k.items
        invariant 1 <= i && (i > k.items + 1 ==> i == 1)
        invariant forall j :: AsDrawn(k.(items := i - 1), First(), draws, db, Item(j))
        invariant forall c: Cell | !c.Item? :: SameAt(old(db), db, c)
      {
        ghost var before := db;
        db := db[Item(i) := Num(draws.price(i))];
        forall j ensures AsDrawn(k.(items := i), First(), draws, db, Item(j)) {
          assert AsDrawn(k.(items := i - 1), First(), draws, before, Item(j));
        }
        i := i + 1;
      }
      forall j ensures AsDrawn(k, First(), draws, db, Item(j)) {
        assert AsDrawn(k.(items := i - 1), First(), draws, db, Item(j));
      }
    }

    /** The populated database holds exactly the rows of the drawing.  It is consistent and
        obeys the stock law; the money conditions hold exactly when the scale gives each
        district its 3000 customers. */
    method StartPopulate()
      requires InRange(draws) && 0 <= newOrders <= k.customers && db == map[]
      modifies this`db
      ensures Drawn(k, First(), draws, db)
      ensures Consistent(k, db) && StockLaws(db, draws.quantity) && forall c | c in db :: !IsHandover(c)
      ensures MoneyInv(k, db) <==> k.warehouses < 1 || k.customers == CUSTOMERS_PER_DISTRICT
    {
      InsertItems();
      var w := 1;
      ItemsAlone(k, First(), draws, db);
      while w <= k.warehouses
        invariant 1 <= w && (w > k.warehouses + 1 ==> w == 1) && Drawn(k.(warehouses := w - 1), First(), draws, db)
      {
        ghost var before := db;
        NotYetThere(k.(warehouses := w - 1), First(), draws, db, w);
        InsertWarehouse(w);
        OneMoreWarehouse(k, First(), draws, before, db, w);
        w := w + 1;
      }
      AllWarehouses(k, First(), draws, db, w - 1);
      DrawnIsConsistent(k, First(), draws, db);
      DrawnMoney(k, First(), draws, db);
    }
  }
}
