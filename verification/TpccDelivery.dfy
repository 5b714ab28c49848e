/** Delivery keeps the consistency conditions and fails no assertion. */
module TpccDelivery {
  import opened Replay
  import opened TpccModel
  import opened TpccFootprint
  import opened TpccInvariant

  lemma {:induction false} StampedTotal(lines: seq<Line>, date: int)
    ensures Total(Stamped(lines, date)) == Total(lines)
  {
    if lines != [] {
      StampedTotal(lines[1..], date);
      assert Stamped(lines, date)[1..] == Stamped(lines[1..], date);
    }
  }

  lemma {:induction false} DeliveredTotalAdds(s: Store, t: Store, w: int, d: int, c: int, o: int, extra: int, next: int)
    requires 1 <= o < next
    requires DeliveredAmount(t, w, d, c, o) == DeliveredAmount(s, w, d, c, o) + extra
    requires forall o' | 1 <= o' < next && o' != o :: DeliveredAmount(t, w, d, c, o') == DeliveredAmount(s, w, d, c, o')
    ensures DeliveredTotal(t, w, d, c, next) == DeliveredTotal(s, w, d, c, next) + extra
    decreases next
  {
    if o == next - 1 {
      DeliveredTotalFrame(s, t, w, d, c, next - 1);
    } else {
      DeliveredTotalAdds(s, t, w, d, c, o, extra, next - 1);
    }
  }

  // The four steps for one district whose oldest order o waits.

  function Taken(n: nat, w: int, d: int, o: int, s: Store): Store {
    s + map[HNoId(n, d) := Num(o), NewOrders(w, d) := Ids(IdsAt(s, NewOrders(w, d)) - {o}), Oldest(w, d) := Num(o + 1)]
  }

  function LinesDone(n: nat, p: DeliveryParam, d: int, o: int, s: Store): Store {
    var lines := LinesAt(s, Lines(p.wId, d, o));
    s + map[Lines(p.wId, d, o) := LinesV(Stamped(lines, p.olDeliveryD)), HSum(n, d) := Num(Total(lines))]
  }

  function OrderDone(n: nat, p: DeliveryParam, d: int, o: int, row: OrderRow, s: Store): Store {
    s + map[Order(p.wId, d, o) := OrderV(row.(carrierId := p.oCarrierId)), HCust(n, d) := Num(row.cId)]
  }

  function Credited(p: DeliveryParam, d: int, c: int, row: CustomerRow, sum: int, s: Store): Store {
    s + map[Customer(p.wId, d, c) := CustomerV(row.(balance := row.balance + sum))]
  }

  predicate NothingHanded(s: Store, n: nat, d: int) {
    HNoId(n, d) !in s && HCust(n, d) !in s
  }

  predicate Waiting(s: Store, p: DeliveryParam, d: int) {
    OldestOf(s, p.wId, d) < NextOf(s, p.wId, d)
  }

  /** What the four steps of one district leave: nothing, or the oldest order delivered. */
  function Served(n: nat, p: DeliveryParam, d: int, s: Store): Store {
    var o := OldestOf(s, p.wId, d);
    if !Waiting(s, p, d) || !IsOrder(s, Order(p.wId, d, o)) then s
    else
      var order := s[Order(p.wId, d, o)].order;
      if !IsCustomer(s, Customer(p.wId, d, order.cId)) then s
      else
        var s1 := Taken(n, p.wId, d, o, s);
        var s2 := LinesDone(n, p, d, o, s1);
        var s3 := OrderDone(n, p, d, o, order, s2);
        Credited(p, d, order.cId, s[Customer(p.wId, d, order.cId)].customer, Total(LinesAt(s, Lines(p.wId, d, o))), s3)
  }

  lemma ServeIdle(k: Scale, h: Store, n: nat, p: DeliveryParam, d: int, s: Store)
    requires DistrictInv(k, s, p.wId, d) && NothingHanded(s, n, d) && !Waiting(s, p, d)
    ensures After(DistrictSteps(n, p, d), s) == s
    ensures NothingHanded(h, n, d) ==> Tame(Sys(h), DistrictSteps(n, p, d), s)
  {
    var ops := DistrictSteps(n, p, d);
    forall i | 0 <= i < 4 ensures Effect(ops[i], s) == map[] {}
    assert s + map[] == s;
    AfterFour(ops[0], ops[1], ops[2], ops[3], s);
    if NothingHanded(h, n, d) {
      forall i | 0 <= i < 4 ensures LocalAt(Sys(h), ops[i], s) { StepLocal(h, ops[i], s); }
      TameFour(h, ops[0], ops[1], ops[2], ops[3], s);
    }
  }

  lemma AfterFour(a: Step, b: Step, c: Step, e: Step, s: Store)
    ensures
      var s1 := s + Effect(a, s);
      var s2 := s1 + Effect(b, s1);
      var s3 := s2 + Effect(c, s2);
      After([a, b, c, e], s) == s3 + Effect(e, s3)
  {
    var s1 := s + Effect(a, s);
    var s2 := s1 + Effect(b, s1);
    var s3 := s2 + Effect(c, s2);
    assert [a, b, c, e][1..] == [b, c, e] && [b, c, e][1..] == [c, e] && [c, e][1..] == [e] && [e][1..] == [];
    assert After([e], s3) == After([], s3 + Effect(e, s3));
    assert After([c, e], s2) == After([e], s3);
    assert After([b, c, e], s1) == After([c, e], s2);
  }

  lemma TameFour(h: Store, a: Step, b: Step, c: Step, e: Step, s: Store)
    requires
      var s1 := s + Effect(a, s);
      var s2 := s1 + Effect(b, s1);
      var s3 := s2 + Effect(c, s2);
      LocalAt(Sys(h), a, s) && LocalAt(Sys(h), b, s1) && LocalAt(Sys(h), c, s2) && LocalAt(Sys(h), e, s3)
    ensures Tame(Sys(h), [a, b, c, e], s)
  {
    var s1 := s + Effect(a, s);
    var s2 := s1 + Effect(b, s1);
    var s3 := s2 + Effect(c, s2);
    assert [a, b, c, e][1..] == [b, c, e] && [b, c, e][1..] == [c, e] && [c, e][1..] == [e] && [e][1..] == [];
    assert Tame(Sys(h), [], s3 + Effect(e, s3));
    assert Tame(Sys(h), [e], s3);
    assert Tame(Sys(h), [c, e], s2);
    assert Tame(Sys(h), [b, c, e], s1);
  }

  /** The rows that a delivery of the district's oldest order o will use. */
  predicate Ready(s: Store, p: DeliveryParam, d: int, o: int, order: OrderRow, customer: CustomerRow, lines: seq<Line>) {
    && Oldest(p.wId, d) in s && s[Oldest(p.wId, d)] == Num(o) && o in IdsAt(s, NewOrders(p.wId, d)) && o != -1
    && Lines(p.wId, d, o) in s && s[Lines(p.wId, d, o)] == LinesV(lines) && lines != []
    && Order(p.wId, d, o) in s && s[Order(p.wId, d, o)] == OrderV(order)
    && Customer(p.wId, d, order.cId) in s && s[Customer(p.wId, d, order.cId)] == CustomerV(customer)
  }

  lemma WaitingIsReady(k: Scale, p: DeliveryParam, d: int, s: Store) returns (o: int, order: OrderRow, customer: CustomerRow, lines: seq<Line>)
    requires DistrictInv(k, s, p.wId, d) && Waiting(s, p, d)
    ensures Ready(s, p, d, o, order, customer, lines) && o == OldestOf(s, p.wId, d)
  {
    o := OldestOf(s, p.wId, d);
    assert OrderInv(k, s, p.wId, d, o);
    order := s[Order(p.wId, d, o)].order;
    assert CustomerInv(s, p.wId, d, order.cId);
    customer := s[Customer(p.wId, d, order.cId)].customer;
    lines := LinesAt(s, Lines(p.wId, d, o));
  }

  lemma Takes(n: nat, p: DeliveryParam, d: int, s: Store, o: int)
    requires Oldest(p.wId, d) in s && s[Oldest(p.wId, d)] == Num(o) && o in IdsAt(s, NewOrders(p.wId, d))
    ensures s + Effect(Delivery1(n, p, d), s) == Taken(n, p.wId, d, o, s) && Fault !in Effect(Delivery1(n, p, d), s)
  {
  }

  lemma Stamps(n: nat, p: DeliveryParam, d: int, s: Store, o: int)
    requires NumOr(s, HNoId(n, d), -1) == o != -1 && LinesAt(s, Lines(p.wId, d, o)) != []
    ensures s + Effect(Delivery2(n, p, d), s) == LinesDone(n, p, d, o, s) && Fault !in Effect(Delivery2(n, p, d), s)
  {
  }

  lemma Carries(n: nat, p: DeliveryParam, d: int, s: Store, o: int, order: OrderRow)
    requires NumOr(s, HNoId(n, d), -1) == o != -1 && Order(p.wId, d, o) in s && s[Order(p.wId, d, o)] == OrderV(order)
    ensures s + Effect(Delivery3(n, p, d), s) == OrderDone(n, p, d, o, order, s) && Fault !in Effect(Delivery3(n, p, d), s)
  {
  }

  lemma Credits(n: nat, p: DeliveryParam, d: int, s: Store, c: int, customer: CustomerRow, sum: int)
    requires Delivered(s, n, d) && NumOr(s, HCust(n, d), -1) == c && NumOr(s, HSum(n, d), -1) == sum
    requires Customer(p.wId, d, c) in s && s[Customer(p.wId, d, c)] == CustomerV(customer)
    ensures s + Effect(Delivery4(n, p, d), s) == Credited(p, d, c, customer, sum, s) && Fault !in Effect(Delivery4(n, p, d), s)
  {
  }

  lemma ServeSteps(n: nat, p: DeliveryParam, d: int, s: Store, o: int, order: OrderRow, customer: CustomerRow, lines: seq<Line>)
    requires Ready(s, p, d, o, order, customer, lines)
    ensures
      var s1 := Taken(n, p.wId, d, o, s);
      var s2 := LinesDone(n, p, d, o, s1);
      var s3 := OrderDone(n, p, d, o, order, s2);
      var s4 := Credited(p, d, order.cId, customer, Total(lines), s3);
      && s + Effect(Delivery1(n, p, d), s) == s1 && Fault !in Effect(Delivery1(n, p, d), s)
      && s1 + Effect(Delivery2(n, p, d), s1) == s2 && Fault !in Effect(Delivery2(n, p, d), s1)
      && s2 + Effect(Delivery3(n, p, d), s2) == s3 && Fault !in Effect(Delivery3(n, p, d), s2)
      && s3 + Effect(Delivery4(n, p, d), s3) == s4 && Fault !in Effect(Delivery4(n, p, d), s3)
  {
    var s1 := Taken(n, p.wId, d, o, s);
    var s2 := LinesDone(n, p, d, o, s1);
    var s3 := OrderDone(n, p, d, o, order, s2);
    assert NumOr(s1, HNoId(n, d), -1) == o && LinesAt(s1, Lines(p.wId, d, o)) == lines;
    assert NumOr(s2, HNoId(n, d), -1) == o && s2[Order(p.wId, d, o)] == OrderV(order) && NumOr(s2, HSum(n, d), -1) == Total(lines);
    assert NumOr(s3, HNoId(n, d), -1) == o && NumOr(s3, HSum(n, d), -1) == Total(lines) && NumOr(s3, HCust(n, d), -1) == order.cId;
    assert s3[Customer(p.wId, d, order.cId)] == CustomerV(customer);
    Takes(n, p, d, s, o);
    Stamps(n, p, d, s1, o);
    Carries(n, p, d, s2, o, order);
    Credits(n, p, d, s3, order.cId, customer, Total(lines));
  }

  lemma ServeWaiting(k: Scale, h: Store, n: nat, p: DeliveryParam, d: int, s: Store)
    requires DistrictInv(k, s, p.wId, d) && NothingHanded(s, n, d) && Waiting(s, p, d)
    ensures After(DistrictSteps(n, p, d), s) == Served(n, p, d, s)
    ensures
      var s' := Served(n, p, d, s);
      SameAt(h, s', HNoId(n, d)) && SameAt(h, s', HCust(n, d)) ==> Tame(Sys(h), DistrictSteps(n, p, d), s)
  {
    var o, order, customer, lines := WaitingIsReady(k, p, d, s);
    var s1 := Taken(n, p.wId, d, o, s);
    var s2 := LinesDone(n, p, d, o, s1);
    var s3 := OrderDone(n, p, d, o, order, s2);
    var s4 := Served(n, p, d, s);
    ServeSteps(n, p, d, s, o, order, customer, lines);
    AfterFour(Delivery1(n, p, d), Delivery2(n, p, d), Delivery3(n, p, d), Delivery4(n, p, d), s);
    if SameAt(h, s4, HNoId(n, d)) && SameAt(h, s4, HCust(n, d)) {
      assert SameAt(s1, s4, HNoId(n, d)) && SameAt(s2, s4, HNoId(n, d)) && SameAt(s3, s4, HNoId(n, d)) && SameAt(s3, s4, HCust(n, d));
      StepLocal(h, Delivery1(n, p, d), s);
      StepLocal(h, Delivery2(n, p, d), s1);
      StepLocal(h, Delivery3(n, p, d), s2);
      StepLocal(h, Delivery4(n, p, d), s3);
      TameFour(h, Delivery1(n, p, d), Delivery2(n, p, d), Delivery3(n, p, d), Delivery4(n, p, d), s);
    }
  }

  // ---- Consistency after one district is served ----

  function Changed(n: nat, p: DeliveryParam, d: int, o: int, c: int): set<Cell> {
    {HNoId(n, d), HSum(n, d), HCust(n, d), NewOrders(p.wId, d), Oldest(p.wId, d), Lines(p.wId, d, o), Order(p.wId, d, o), Customer(p.wId, d, c)}
  }

  /** Served, cell by cell. */
  ghost predicate ServedTo(
      s: Store, t: Store, n: nat, p: DeliveryParam, d: int, o: int, order: OrderRow, customer: CustomerRow, lines: seq<Line>)
  {
    && (forall c :: c !in Changed(n, p, d, o, order.cId) ==> SameAt(s, t, c))
    && IdsAt(t, NewOrders(p.wId, d)) == IdsAt(s, NewOrders(p.wId, d)) - {o}
    && Oldest(p.wId, d) in t && t[Oldest(p.wId, d)] == Num(o + 1)
    && HNoId(n, d) in t && t[HNoId(n, d)] == Num(o)
    && Lines(p.wId, d, o) in t && t[Lines(p.wId, d, o)] == LinesV(Stamped(lines, p.olDeliveryD))
    && Order(p.wId, d, o) in t && t[Order(p.wId, d, o)] == OrderV(order.(carrierId := p.oCarrierId))
    && Customer(p.wId, d, order.cId) in t
    && t[Customer(p.wId, d, order.cId)] == CustomerV(customer.(balance := customer.balance + Total(lines)))
  }

  lemma ServedInFour(n: nat, p: DeliveryParam, d: int, s: Store, o: int, order: OrderRow, customer: CustomerRow, lines: seq<Line>)
    requires Ready(s, p, d, o, order, customer, lines) && o == OldestOf(s, p.wId, d) && Waiting(s, p, d)
    ensures Served(n, p, d, s)
      == s + map[HNoId(n, d) := Num(o), NewOrders(p.wId, d) := Ids(IdsAt(s, NewOrders(p.wId, d)) - {o}), Oldest(p.wId, d) := Num(o + 1)]
         + map[Lines(p.wId, d, o) := LinesV(Stamped(lines, p.olDeliveryD)), HSum(n, d) := Num(Total(lines))]
         + map[Order(p.wId, d, o) := OrderV(order.(carrierId := p.oCarrierId)), HCust(n, d) := Num(order.cId)]
         + map[Customer(p.wId, d, order.cId) := CustomerV(customer.(balance := customer.balance + Total(lines)))]
  {
    assert LinesAt(Taken(n, p.wId, d, o, s), Lines(p.wId, d, o)) == lines;
  }

  lemma FourIsServedTo(
      n: nat, p: DeliveryParam, d: int, s: Store, t: Store, o: int, order: OrderRow, customer: CustomerRow, lines: seq<Line>)
    requires t
      == s + map[HNoId(n, d) := Num(o), NewOrders(p.wId, d) := Ids(IdsAt(s, NewOrders(p.wId, d)) - {o}), Oldest(p.wId, d) := Num(o + 1)]
         + map[Lines(p.wId, d, o) := LinesV(Stamped(lines, p.olDeliveryD)), HSum(n, d) := Num(Total(lines))]
         + map[Order(p.wId, d, o) := OrderV(order.(carrierId := p.oCarrierId)), HCust(n, d) := Num(order.cId)]
         + map[Customer(p.wId, d, order.cId) := CustomerV(customer.(balance := customer.balance + Total(lines)))]
    ensures ServedTo(s, t, n, p, d, o, order, customer, lines)
  {
  }

  lemma ServedIsServedTo(n: nat, p: DeliveryParam, d: int, s: Store, o: int, order: OrderRow, customer: CustomerRow, lines: seq<Line>)
    requires Ready(s, p, d, o, order, customer, lines) && o == OldestOf(s, p.wId, d) && Waiting(s, p, d)
    ensures ServedTo(s, Served(n, p, d, s), n, p, d, o, order, customer, lines)
  {
    ServedInFour(n, p, d, s, o, order, customer, lines);
    FourIsServedTo(n, p, d, s, Served(n, p, d, s), o, order, customer, lines);
  }

  lemma ServedDistrict(
      k: Scale, n: nat, p: DeliveryParam, d: int, s: Store, t: Store, o: int, order: OrderRow, customer: CustomerRow, lines: seq<Line>)
    requires DistrictInv(k, s, p.wId, d) && Waiting(s, p, d) && p.oCarrierId != NULL_CARRIER_ID
    requires Ready(s, p, d, o, order, customer, lines) && o == OldestOf(s, p.wId, d)
    requires ServedTo(s, t, n, p, d, o, order, customer, lines)
    ensures DistrictInv(k, t, p.wId, d)
  {
    var w := p.wId;
    assert OrderInv(k, s, w, d, o);
    assert SameAt(s, t, NextOrderId(w, d));
    assert NextOf(t, w, d) == NextOf(s, w, d) && OldestOf(t, w, d) == o + 1;
    assert QueueInv(t, w, d);
    ServedOrders(k, n, p, d, s, t, o, order, customer, lines);
    ServedBalance(k, n, p, d, s, t, o, order, customer, lines);
  }

  lemma ServedOrders(
      k: Scale, n: nat, p: DeliveryParam, d: int, s: Store, t: Store, o: int, order: OrderRow, customer: CustomerRow, lines: seq<Line>)
    requires OrdersInv(k, s, p.wId, d) && 1 <= o < NextOf(s, p.wId, d) && p.oCarrierId != NULL_CARRIER_ID
    requires Ready(s, p, d, o, order, customer, lines)
    requires ServedTo(s, t, n, p, d, o, order, customer, lines)
    ensures OrdersInv(k, t, p.wId, d)
  {
    var w := p.wId;
    assert SameAt(s, t, NextOrderId(w, d));
    assert OrderInv(k, s, w, d, o);
    forall o' | o' != o ensures SameAt(s, t, Order(w, d, o')) && SameAt(s, t, Lines(w, d, o')) {}
    forall o' | 1 <= o' < NextOf(t, w, d) ensures OrderInv(k, t, w, d, o') {
      assert OrderInv(k, s, w, d, o');
      assert o' in IdsAt(t, NewOrders(w, d)) <==> o' != o && o' in IdsAt(s, NewOrders(w, d));
    }
    forall o' | Order(w, d, o') in t || Lines(w, d, o') in t ensures 1 <= o' < NextOf(t, w, d) {
      assert Order(w, d, o') in s || Lines(w, d, o') in s;
    }
  }

  lemma ServedBalance(
      k: Scale, n: nat, p: DeliveryParam, d: int, s: Store, t: Store, o: int, order: OrderRow, customer: CustomerRow, lines: seq<Line>)
    requires BalanceInv(k, s, p.wId, d) && 1 <= o < NextOf(s, p.wId, d)
    requires order.carrierId == NULL_CARRIER_ID != p.oCarrierId
    requires Ready(s, p, d, o, order, customer, lines)
    requires ServedTo(s, t, n, p, d, o, order, customer, lines)
    ensures BalanceInv(k, t, p.wId, d)
  {
    var w := p.wId;
    assert SameAt(s, t, NextOrderId(w, d));
    StampedTotal(lines, p.olDeliveryD);
    forall c, o' | o' != o ensures DeliveredAmount(t, w, d, c, o') == DeliveredAmount(s, w, d, c, o') {
      assert SameAt(s, t, Order(w, d, o')) && SameAt(s, t, Lines(w, d, o'));
    }
    forall c | 1 <= c <= k.customers ensures CustomerInv(t, w, d, c) {
      assert CustomerInv(s, w, d, c);
      DeliveredTotalAdds(s, t, w, d, c, o, if c == order.cId then Total(lines) else 0, NextOf(s, w, d));
      if c != order.cId { assert SameAt(s, t, Customer(w, d, c)); }
    }
  }

  lemma ServedConsistent(
      k: Scale, n: nat, p: DeliveryParam, d: int, s: Store, t: Store, o: int, order: OrderRow, customer: CustomerRow, lines: seq<Line>)
    requires Consistent(k, s) && ValidTxn(k, Delivery(p)) && 1 <= d <= DISTRICTS_PER_WAREHOUSE && Waiting(s, p, d)
    requires Ready(s, p, d, o, order, customer, lines) && o == OldestOf(s, p.wId, d)
    requires ServedTo(s, t, n, p, d, o, order, customer, lines)
    ensures Consistent(k, t)
  {
    forall w, d' | InScale(k, w, d') ensures DistrictInv(k, t, w, d') {
      assert DistrictInv(k, s, w, d');
      if w != p.wId || d' != d {
        forall c | OfDistrict(c, w, d') ensures SameAt(s, t, c) {}
        DistrictFrame(k, s, t, w, d');
      } else {
        ServedDistrict(k, n, p, d, s, t, o, order, customer, lines);
      }
    }
    RowsFrame(k, s, t);
  }

  lemma ServeOneWaiting(k: Scale, h: Store, n: nat, p: DeliveryParam, d: int, s: Store) returns (t: Store, o: int)
    requires Consistent(k, s) && ValidTxn(k, Delivery(p)) && 1 <= d <= DISTRICTS_PER_WAREHOUSE
    requires NothingHanded(s, n, d) && Waiting(s, p, d)
    ensures t == After(DistrictSteps(n, p, d), s) && Consistent(k, t)
    ensures SameAt(h, t, HNoId(n, d)) && SameAt(h, t, HCust(n, d)) ==> Tame(Sys(h), DistrictSteps(n, p, d), s)
    ensures HNoId(n, d) in t && t[HNoId(n, d)] == Num(o) && 1 <= o < NextOf(t, p.wId, d)
  {
    assert DistrictInv(k, s, p.wId, d);
    ServeWaiting(k, h, n, p, d, s);
    var order, customer, lines;
    o, order, customer, lines := WaitingIsReady(k, p, d, s);
    ServedIsServedTo(n, p, d, s, o, order, customer, lines);
    t := Served(n, p, d, s);
    ServedConsistent(k, n, p, d, s, t, o, order, customer, lines);
    assert SameAt(s, t, NextOrderId(p.wId, d));
  }

  /** One district of one delivery: consistent again, nothing failed, and the order handed
      on is below d_next_o_id. */
  lemma ServeOne(k: Scale, h: Store, n: nat, p: DeliveryParam, d: int, s: Store)
    requires Consistent(k, s) && ValidTxn(k, Delivery(p)) && 1 <= d <= DISTRICTS_PER_WAREHOUSE && NothingHanded(s, n, d)
    ensures
      var s' := After(DistrictSteps(n, p, d), s);
      && Consistent(k, s')
      && (SameAt(h, s', HNoId(n, d)) && SameAt(h, s', HCust(n, d)) ==> Tame(Sys(h), DistrictSteps(n, p, d), s))
      && (HNoId(n, d) in s' ==> s'[HNoId(n, d)].Num? && 1 <= s'[HNoId(n, d)].num < NextOf(s', p.wId, d))
  {
    assert DistrictInv(k, s, p.wId, d);
    if Waiting(s, p, d) {
      var t, o := ServeOneWaiting(k, h, n, p, d, s);
    } else {
      ServeIdle(k, h, n, p, d, s);
    }
  }

  // ---- What a delivery leaves in one district ----

  /** In district d the oldest waiting order o went from s to t as a delivery takes it, and
      nothing else of the district changed. */
  ghost predicate ServedIn(s: Store, t: Store, p: DeliveryParam, d: int, o: int) {
    && Ready(s, p, d, o, OrderAt(s, p.wId, d, o), CustomerAt(s, p.wId, d, OrderAt(s, p.wId, d, o).cId), LinesAt(s, Lines(p.wId, d, o)))
    && OldestOf(t, p.wId, d) == o + 1 && IdsAt(t, NewOrders(p.wId, d)) == IdsAt(s, NewOrders(p.wId, d)) - {o}
    && OrderAt(t, p.wId, d, o) == OrderAt(s, p.wId, d, o).(carrierId := p.oCarrierId)
    && |LinesAt(t, Lines(p.wId, d, o))| == |LinesAt(s, Lines(p.wId, d, o))|
    && (forall l | 0 <= l < |LinesAt(s, Lines(p.wId, d, o))| ::
          LinesAt(t, Lines(p.wId, d, o))[l] == LinesAt(s, Lines(p.wId, d, o))[l].(deliveryD := p.olDeliveryD))
    && var c := OrderAt(s, p.wId, d, o).cId;
       && CustomerAt(t, p.wId, d, c).balance == CustomerAt(s, p.wId, d, c).balance + Total(LinesAt(s, Lines(p.wId, d, o)))
       && CustomerAt(t, p.wId, d, c).ytdPayment == CustomerAt(s, p.wId, d, c).ytdPayment
       && CustomerAt(t, p.wId, d, c).paymentCnt == CustomerAt(s, p.wId, d, c).paymentCnt
       && forall x | OfDistrict(x, p.wId, d) :: SameAt(s, t, x)
            || x in {Oldest(p.wId, d), NewOrders(p.wId, d), Order(p.wId, d, o), Lines(p.wId, d, o), Customer(p.wId, d, c)}
  }

  ghost predicate DeliveredTo(s: Store, t: Store, p: DeliveryParam, d: int, o: int) {
    ServedIn(s, t, p, d, o) && forall x: Cell | !IsHandover(x) && !OfDistrict(x, p.wId, d) :: SameAt(s, t, x)
  }

  function OrderAt(s: Store, w: int, d: int, o: int): OrderRow {
    if IsOrder(s, Order(w, d, o)) then s[Order(w, d, o)].order else OrderRow(0, 0, 0, 0, false)
  }

  function CustomerAt(s: Store, w: int, d: int, c: int): CustomerRow {
    if IsCustomer(s, Customer(w, d, c)) then s[Customer(w, d, c)].customer else CustomerRow(0, 0, 0)
  }

  /** WHAT A DELIVERY IS.  In a district without waiting orders nothing happens; otherwise
      the oldest waiting order leaves the queue, gets its carrier, all its lines get the
      delivery date, its customer is credited with their total, and no other row changes. */
  lemma DistrictServed(k: Scale, n: nat, p: DeliveryParam, d: int, s: Store)
    requires Consistent(k, s) && ValidTxn(k, Delivery(p)) && 1 <= d <= DISTRICTS_PER_WAREHOUSE && NothingHanded(s, n, d)
    ensures
      var t, o := After(DistrictSteps(n, p, d), s), OldestOf(s, p.wId, d);
      if IdsAt(s, NewOrders(p.wId, d)) == {} then t == s
      else (forall x | x in IdsAt(s, NewOrders(p.wId, d)) :: o <= x) && DeliveredTo(s, t, p, d, o)
  {
    assert DistrictInv(k, s, p.wId, d);
    if Waiting(s, p, d) {
      assert OldestOf(s, p.wId, d) in IdsAt(s, NewOrders(p.wId, d));
      ServeWaiting(k, s, n, p, d, s);
      var o, order, customer, lines := WaitingIsReady(k, p, d, s);
      ServedIsServedTo(n, p, d, s, o, order, customer, lines);
      ServedIsDelivered(n, p, d, s, Served(n, p, d, s), o, order, customer, lines);
    } else {
      ServeIdle(k, s, n, p, d, s);
    }
  }

  lemma ServedIsDelivered(
      n: nat, p: DeliveryParam, d: int, s: Store, t: Store, o: int, order: OrderRow, customer: CustomerRow, lines: seq<Line>)
    requires Ready(s, p, d, o, order, customer, lines) && ServedTo(s, t, n, p, d, o, order, customer, lines)
    ensures DeliveredTo(s, t, p, d, o)
  {
    forall x | OfDistrict(x, p.wId, d)
      ensures SameAt(s, t, x)
           || x in {Oldest(p.wId, d), NewOrders(p.wId, d), Order(p.wId, d, o), Lines(p.wId, d, o), Customer(p.wId, d, order.cId)}
    {
      assert x in Changed(n, p, d, o, order.cId) || SameAt(s, t, x);
    }
    forall x: Cell | !IsHandover(x) && !OfDistrict(x, p.wId, d) ensures SameAt(s, t, x) {
      assert x !in Changed(n, p, d, o, order.cId);
    }
  }
}
