/** The TPC-C store, transactions and sub-transactions.
    The store maps a cell (a row, or the column group of a row that one sub-transaction
    owns) to its value.  Besides the tables it holds the values that sub-transactions hand
    to each other, one cell per transaction number n and slot.  Money is exact. */
module TpccModel {

  const DISTRICTS_PER_WAREHOUSE := 10
  const NULL_CARRIER_ID := 0

  // ---- Transactions ----

  datatype DeliveryParam = DeliveryParam(wId: int, oCarrierId: int, olDeliveryD: int)

  datatype NewOrderParam = NewOrderParam(
    wId: int, dId: int, cId: int, oEntryD: int, iIds: seq<int>, iWIds: seq<int>, iQtys: seq<int>)

  datatype PaymentParam = PaymentParam(
    wId: int, dId: int, hAmount: int, cWId: int, cDId: int, cId: int, hDate: int, hData: string)

  /** A queue entry; the processors ignore every other kind of tuple. */
  datatype Txn = Delivery(dp: DeliveryParam) | NewOrder(np: NewOrderParam) | Payment(pp: PaymentParam) | Other

  // ---- Store ----

  datatype Cell =
    | Item(i: int)
    | Stock(w: int, i: int)
    | WarehouseYtd(w: int)
    | DistrictYtd(w: int, d: int)
    | NextOrderId(w: int, d: int)
    | Oldest(w: int, d: int)                    // o_id of the DISTRICT_NEW_ORDER row
    | NewOrders(w: int, d: int)                 // ids of the NEW_ORDER rows of the district
    | Order(w: int, d: int, o: int)
    | Lines(w: int, d: int, o: int)             // ORDER_LINE rows under the key (o, d, w)
    | Customer(w: int, d: int, c: int)
    | History
    | Fault                                     // set when an assertion of the code fails
    | HNext(n: nat)                             // d_next_o_id_vector
    | HDist(n: nat, l: nat)                     // s_dists_vector
    | HAmount(n: nat, l: nat)                   // ol_amounts_vector
    | HNoId(n: nat, d: int)                     // no_o_ids_vector
    | HCust(n: nat, d: int)                     // c_ids_vector
    | HSum(n: nat, d: int)                      // sums_vector

  datatype StockRow = StockRow(quantity: int, dists: seq<string>, ytd: int, orderCnt: int, remoteCnt: int)
  datatype OrderRow = OrderRow(cId: int, entryD: int, carrierId: int, olCnt: int, allLocal: bool)
  datatype Line = Line(number: int, iId: int, supplyWId: int, deliveryD: int, quantity: int, amount: int, distInfo: string)
  datatype CustomerRow = CustomerRow(balance: int, ytdPayment: int, paymentCnt: int)
  datatype HistoryRow = HistoryRow(cId: int, cDId: int, cWId: int, dId: int, wId: int, date: int, amount: int, data: string)

  datatype Value =
    | Num(num: int)
    | Text(text: string)
    | Ids(ids: set<int>)
    | StockV(stock: StockRow)
    | OrderV(order: OrderRow)
    | LinesV(lines: seq<Line>)
    | CustomerV(customer: CustomerRow)
    | HistoryV(history: seq<HistoryRow>)

  type Store = map<Cell, Value>

  /** The cells that stand for the vectors and maps of a batch, not for tables. */
  predicate IsHandover(c: Cell) {
    c.HNext? || c.HDist? || c.HAmount? || c.HNoId? || c.HCust? || c.HSum?
  }

  function Tables(s: Store): Store {
    map c | c in s && !IsHandover(c) :: s[c]
  }

  predicate IsNum(s: Store, c: Cell) { c in s && s[c].Num? }
  predicate IsStock(s: Store, c: Cell) { c in s && s[c].StockV? }
  predicate IsOrder(s: Store, c: Cell) { c in s && s[c].OrderV? }
  predicate IsLines(s: Store, c: Cell) { c in s && s[c].LinesV? }
  predicate IsCustomer(s: Store, c: Cell) { c in s && s[c].CustomerV? }

  function NumOr(s: Store, c: Cell, default: int): int { if IsNum(s, c) then s[c].num else default }
  function TextAt(s: Store, c: Cell): string { if c in s && s[c].Text? then s[c].text else "" }
  function IdsAt(s: Store, c: Cell): set<int> { if c in s && s[c].Ids? then s[c].ids else {} }
  function LinesAt(s: Store, c: Cell): seq<Line> { if IsLines(s, c) then s[c].lines else [] }
  function HistoryAt(s: Store): seq<HistoryRow> { if History in s && s[History].HistoryV? then s[History].history else [] }

  /** no_o_ids_vector holds -1 until delivery n has taken an order of district d. */
  predicate Delivered(s: Store, n: nat, d: int) { NumOr(s, HNoId(n, d), -1) != -1 }

  function Failed(): Store { map[Fault := Num(1)] }

  // ---- Sub-transactions ----

  /** One atomic step: sub-transaction k of transaction n, for one district d or one item l
      where the code has a `Single` form. */
  datatype Step =
    | Delivery1(n: nat, dp: DeliveryParam, d: int)
    | Delivery2(n: nat, dp: DeliveryParam, d: int)
    | Delivery3(n: nat, dp: DeliveryParam, d: int)
    | Delivery4(n: nat, dp: DeliveryParam, d: int)
    | NewOrder1(n: nat, np: NewOrderParam)
    | NewOrder2(n: nat, np: NewOrderParam)
    | NewOrder3(n: nat, np: NewOrderParam)
    | NewOrder4(n: nat, np: NewOrderParam, l: nat)
    | NewOrder5(n: nat, np: NewOrderParam, l: nat)
    | NewOrder6(n: nat, np: NewOrderParam)
    | Payment1(n: nat, pp: PaymentParam)
    | Payment2(n: nat, pp: PaymentParam)
    | Payment3(n: nat, pp: PaymentParam)
    | Payment4(n: nat, pp: PaymentParam)

  /** Takes the oldest undelivered order of the district, if there is one. */
  function TakeOldest(n: nat, p: DeliveryParam, d: int, s: Store): Store {
    var oldest, waiting := Oldest(p.wId, d), NewOrders(p.wId, d);
    if !IsNum(s, oldest) then Failed()
    else if s[oldest].num in IdsAt(s, waiting) then
      map[HNoId(n, d) := s[oldest],
          waiting := Ids(IdsAt(s, waiting) - {s[oldest].num}),
          oldest := Num(s[oldest].num + 1)]
    else map[]
  }

  function Total(lines: seq<Line>): int {
    if lines == [] then 0 else lines[0].amount + Total(lines[1..])
  }

  function Stamped(lines: seq<Line>, date: int): seq<Line> {
    seq(|lines|, i requires 0 <= i < |lines| => lines[i].(deliveryD := date))
  }

  function StampLines(n: nat, p: DeliveryParam, d: int, s: Store): Store {
    var cell := Lines(p.wId, d, NumOr(s, HNoId(n, d), -1));
    if !Delivered(s, n, d) then map[]
    else if LinesAt(s, cell) == [] then Failed()
    else map[cell := LinesV(Stamped(LinesAt(s, cell), p.olDeliveryD)), HSum(n, d) := Num(Total(LinesAt(s, cell)))]
  }

  function SetCarrier(n: nat, p: DeliveryParam, d: int, s: Store): Store {
    var cell := Order(p.wId, d, NumOr(s, HNoId(n, d), -1));
    if !Delivered(s, n, d) then map[]
    else if !IsOrder(s, cell) then Failed()
    else map[cell := OrderV(s[cell].order.(carrierId := p.oCarrierId)), HCust(n, d) := Num(s[cell].order.cId)]
  }

  function CreditCustomer(n: nat, p: DeliveryParam, d: int, s: Store): Store {
    var cell := Customer(p.wId, d, NumOr(s, HCust(n, d), -1));
    if !Delivered(s, n, d) then map[]
    else if !IsCustomer(s, cell) then Failed()
    else map[cell := CustomerV(s[cell].customer.(balance := s[cell].customer.balance + NumOr(s, HSum(n, d), -1)))]
  }

  function TakeOrderId(n: nat, p: NewOrderParam, s: Store): Store {
    var next := NextOrderId(p.wId, p.dId);
    if !IsNum(s, next) then Failed()
    else map[HNext(n) := s[next], next := Num(s[next].num + 1)]
  }

  /** The unique index keeps the row it already has under a key. */
  function InsertOrder(n: nat, p: NewOrderParam, s: Store): Store {
    var cell := Order(p.wId, p.dId, NumOr(s, HNext(n), 0));
    if cell in s then map[]
    else map[cell := OrderV(OrderRow(p.cId, p.oEntryD, NULL_CARRIER_ID, |p.iIds|, forall w | w in p.iWIds :: w == p.wId))]
  }

  function InsertNewOrder(n: nat, p: NewOrderParam, s: Store): Store {
    var cell := NewOrders(p.wId, p.dId);
    map[cell := Ids(IdsAt(s, cell) + {NumOr(s, HNext(n), 0)})]
  }

  function NewQuantity(quantity: int, ordered: int): int {
    if quantity >= ordered + 10 then quantity - ordered else quantity + 91 - ordered
  }

  function Reserved(row: StockRow, ordered: int, remote: bool): StockRow {
    row.(quantity := NewQuantity(row.quantity, ordered), ytd := row.ytd + ordered, orderCnt := row.orderCnt + 1,
         remoteCnt := row.remoteCnt + if remote then 1 else 0)
  }

  function ReserveStock(n: nat, p: NewOrderParam, l: nat, s: Store): Store {
    if !(l < |p.iIds| == |p.iWIds| == |p.iQtys|) then Failed()
    else
      var cell := Stock(p.iWIds[l], p.iIds[l]);
      if !IsStock(s, cell) || !(1 <= p.dId <= |s[cell].stock.dists|) then Failed()
      else map[cell := StockV(Reserved(s[cell].stock, p.iQtys[l], p.iWIds[l] != p.wId)),
               HDist(n, l) := Text(s[cell].stock.dists[p.dId - 1])]
  }

  function PriceLine(n: nat, p: NewOrderParam, l: nat, s: Store): Store {
    if !(l < |p.iIds| == |p.iQtys|) || !IsNum(s, Item(p.iIds[l])) then Failed()
    else map[HAmount(n, l) := Num(p.iQtys[l] * s[Item(p.iIds[l])].num)]
  }

  function NewLine(n: nat, p: NewOrderParam, l: nat, s: Store): Line
    requires l < |p.iIds| == |p.iWIds| == |p.iQtys|
  {
    Line(l + 1, p.iIds[l], p.iWIds[l], p.oEntryD, p.iQtys[l], NumOr(s, HAmount(n, l), 0), TextAt(s, HDist(n, l)))
  }

  /** The multi index adds to the rows it already has under a key. */
  function InsertLines(n: nat, p: NewOrderParam, s: Store): Store {
    if !(|p.iIds| == |p.iWIds| == |p.iQtys|) then Failed()
    else
      var cell := Lines(p.wId, p.dId, NumOr(s, HNext(n), 0));
      var added := seq(|p.iIds|, l requires 0 <= l < |p.iIds| => NewLine(n, p, l, s));
      map[cell := LinesV(LinesAt(s, cell) + added)]
  }

  function PayWarehouse(p: PaymentParam, s: Store): Store {
    var cell := WarehouseYtd(p.wId);
    if !IsNum(s, cell) then Failed() else map[cell := Num(s[cell].num + p.hAmount)]
  }

  function PayDistrict(p: PaymentParam, s: Store): Store {
    var cell := DistrictYtd(p.wId, p.dId);
    if !IsNum(s, cell) then Failed() else map[cell := Num(s[cell].num + p.hAmount)]
  }

  function RecordPayment(p: PaymentParam, s: Store): Store {
    map[History := HistoryV(HistoryAt(s) + [HistoryRow(p.cId, p.cDId, p.cWId, p.dId, p.wId, p.hDate, p.hAmount, p.hData)])]
  }

  function PayCustomer(p: PaymentParam, s: Store): Store {
    var cell := Customer(p.wId, p.dId, p.cId);
    if !IsCustomer(s, cell) then Failed()
    else
      var row := s[cell].customer;
      map[cell := CustomerV(CustomerRow(row.balance - p.hAmount, row.ytdPayment + p.hAmount, row.paymentCnt + 1))]
  }

  /** The cells that a step changes, with their new values. */
  function Effect(op: Step, s: Store): Store {
    match op
    case Delivery1(n, p, d) => TakeOldest(n, p, d, s)
    case Delivery2(n, p, d) => StampLines(n, p, d, s)
    case Delivery3(n, p, d) => SetCarrier(n, p, d, s)
    case Delivery4(n, p, d) => CreditCustomer(n, p, d, s)
    case NewOrder1(n, p) => TakeOrderId(n, p, s)
    case NewOrder2(n, p) => InsertOrder(n, p, s)
    case NewOrder3(n, p) => InsertNewOrder(n, p, s)
    case NewOrder4(n, p, l) => ReserveStock(n, p, l, s)
    case NewOrder5(n, p, l) => PriceLine(n, p, l, s)
    case NewOrder6(n, p) => InsertLines(n, p, s)
    case Payment1(n, p) => PayWarehouse(p, s)
    case Payment2(n, p) => PayDistrict(p, s)
    case Payment3(n, p) => RecordPayment(p, s)
    case Payment4(n, p) => PayCustomer(p, s)
  }

  // ---- The steps of a queue, in serial order ----

  /** The steps of one delivery for one district. */
  function DistrictSteps(n: nat, p: DeliveryParam, d: int): seq<Step> {
    [Delivery1(n, p, d), Delivery2(n, p, d), Delivery3(n, p, d), Delivery4(n, p, d)]
  }

  function DeliverySteps(n: nat, p: DeliveryParam, d: nat): seq<Step>
    decreases p, DISTRICTS_PER_WAREHOUSE - d
  {
    if d > DISTRICTS_PER_WAREHOUSE then [] else DistrictSteps(n, p, d) + DeliverySteps(n, p, d + 1)
  }

  function StockSteps(n: nat, p: NewOrderParam, l: nat): seq<Step>
    decreases |p.iIds| - l
  {
    if l >= |p.iIds| then [] else [NewOrder4(n, p, l)] + StockSteps(n, p, l + 1)
  }

  function PriceSteps(n: nat, p: NewOrderParam, l: nat): seq<Step>
    decreases |p.iIds| - l
  {
    if l >= |p.iIds| then [] else [NewOrder5(n, p, l)] + PriceSteps(n, p, l + 1)
  }

  function NewOrderSteps(n: nat, p: NewOrderParam): seq<Step> {
    [NewOrder1(n, p), NewOrder2(n, p), NewOrder3(n, p)] + StockSteps(n, p, 0) + PriceSteps(n, p, 0) + [NewOrder6(n, p)]
  }

  function PaymentSteps(n: nat, p: PaymentParam): seq<Step> {
    [Payment1(n, p), Payment2(n, p), Payment3(n, p), Payment4(n, p)]
  }

  function TxnSteps(n: nat, txn: Txn): seq<Step> {
    match txn
    case Delivery(p) => DeliverySteps(n, p, 1)
    case NewOrder(p) => NewOrderSteps(n, p)
    case Payment(p) => PaymentSteps(n, p)
    case Other => []
  }

  /** The steps of the transactions lo..hi of the queue. */
  function Steps(queue: seq<Txn>, lo: nat, hi: nat): seq<Step>
    requires lo <= hi <= |queue|
    decreases hi - lo
  {
    if lo == hi then [] else TxnSteps(lo, queue[lo]) + Steps(queue, lo + 1, hi)
  }

  // ---- The serial order ----

  function Major(op: Step): int {
    match op
    case Delivery1(_, _, d) => d
    case Delivery2(_, _, d) => d
    case Delivery3(_, _, d) => d
    case Delivery4(_, _, d) => d
    case NewOrder1(_, _) => 1
    case NewOrder2(_, _) => 2
    case NewOrder3(_, _) => 3
    case NewOrder4(_, _, _) => 4
    case NewOrder5(_, _, _) => 5
    case NewOrder6(_, _) => 6
    case Payment1(_, _) => 1
    case Payment2(_, _) => 2
    case Payment3(_, _) => 3
    case Payment4(_, _) => 4
  }

  function Minor(op: Step): int {
    match op
    case Delivery1(_, _, _) => 1
    case Delivery2(_, _, _) => 2
    case Delivery3(_, _, _) => 3
    case Delivery4(_, _, _) => 4
    case NewOrder4(_, _, l) => l
    case NewOrder5(_, _, l) => l
    case _ => 0
  }

  /** a comes before b in the serial order: by transaction, then by place within it. */
  predicate Before(a: Step, b: Step) {
    a.n < b.n || (a.n == b.n && (Major(a) < Major(b) || (Major(a) == Major(b) && Minor(a) < Minor(b))))
  }

  /** What Steps lists. */
  predicate StepOf(op: Step, n: nat, txn: Txn) {
    op.n == n &&
    match txn
    case Delivery(p) =>
      (op.Delivery1? || op.Delivery2? || op.Delivery3? || op.Delivery4?) && op.dp == p && 1 <= op.d <= DISTRICTS_PER_WAREHOUSE
    case NewOrder(p) =>
      (op.NewOrder1? || op.NewOrder2? || op.NewOrder3? || op.NewOrder4? || op.NewOrder5? || op.NewOrder6?) && op.np == p
      && (op.NewOrder4? || op.NewOrder5? ==> op.l < |p.iIds|)
    case Payment(p) =>
      (op.Payment1? || op.Payment2? || op.Payment3? || op.Payment4?) && op.pp == p
    case Other => false
  }
}
