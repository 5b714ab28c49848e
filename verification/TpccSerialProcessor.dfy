/** The serial processor in its own form: methods that update the tables and pass maps and
    vectors from one sub-transaction to the next.  The ghost log adds to the tables every
    value handed over so far; it relates the methods to the steps of the model. */
module TpccSerialProcessor {
  import opened Replay
  import opened TpccModel
  import opened TpccFootprint
  import opened TpccInvariant
  import opened TpccDelivery
  import opened TpccNewOrder
  import opened TpccSerialRun
  import opened TpccStages

  lemma TablesAdd(s: Store, e: Store)
    ensures Tables(s + e) == Tables(s) + Tables(e)
  {
  }

  lemma AfterOne(op: Step, s: Store)
    ensures After([op], s) == s + Effect(op, s)
  {
    assert After([op], s) == After([], s + Effect(op, s));
  }

  lemma AfterOneMore(ops: seq<Step>, op: Step, s: Store)
    ensures After(ops + [op], s) == After(ops, s) + Effect(op, After(ops, s))
  {
    AfterAppend(ops, [op], s);
    AfterOne(op, After(ops, s));
  }

  lemma Everywhere(ws: seq<int>, w: int)
    ensures (forall j | 0 <= j < |ws| :: ws[j] == w) <==> (forall x | x in ws :: x == w)
  {
    forall j | 0 <= j < |ws| ensures ws[j] in ws {}
  }

  lemma TotalAdds(lines: seq<Line>, i: nat)
    requires i < |lines|
    ensures Total(lines[..i + 1]) == Total(lines[..i]) + lines[i].amount
  {
    if i > 0 {
      TotalAdds(lines[1..], i - 1);
      assert lines[1..][..i] == lines[..i + 1][1..] && lines[1..][..i - 1] == lines[..i][1..];
    }
  }

  /** Delivery n has handed over order o of district d. */
  predicate Handed(s: Store, n: nat, d: int, o: int) {
    HNoId(n, d) in s && s[HNoId(n, d)] == Num(o)
  }

  /** o is the oldest order of the district and it waits for delivery. */
  predicate OldestWaits(s: Store, w: int, d: int, o: int) {
    o == OldestOf(s, w, d) && o in IdsAt(s, NewOrders(w, d))
  }

  /** What sub-transaction 1 of a delivery needs of district d is as it was. */
  predicate Untouched(s: Store, t: Store, n: nat, w: int, d: int) {
    HNoId(n, d) !in t && IsNum(t, Oldest(w, d)) && SameAt(s, t, Oldest(w, d)) && SameAt(s, t, NewOrders(w, d))
  }

  /** The districts before d are done: noOIds holds the orders taken there. */
  ghost predicate Queueing(s0: Store, s: Store, n: nat, w: int, d: nat, noOIds: map<int, int>) {
    && (forall e | d <= e <= DISTRICTS_PER_WAREHOUSE :: Untouched(s0, s, n, w, e))
    && (forall e :: e in noOIds <==> 1 <= e < d && HNoId(n, e) in s)
    && (forall e | e in noOIds :: Handed(s, n, e, noOIds[e]) && OldestWaits(s0, w, e, noOIds[e]))
  }

  /** Queueing, with the rest of the stage leading from s to fin. */
  ghost predicate QueueingTo(s0: Store, s: Store, n: nat, p: DeliveryParam, d: nat, noOIds: map<int, int>, fin: Store) {
    Queueing(s0, s, n, p.wId, d, noOIds) && After(Stage1(n, p, d), s) == fin
  }

  lemma StageOver(s0: Store, s: Store, n: nat, p: DeliveryParam, d: nat, noOIds: map<int, int>, fin: Store)
    requires d == DISTRICTS_PER_WAREHOUSE + 1 && QueueingTo(s0, s, n, p, d, noOIds, fin)
    ensures s == fin && Queueing(s0, s, n, p.wId, DISTRICTS_PER_WAREHOUSE + 1, noOIds)
  {
  }

  lemma DistrictOnly(n: nat, p: DeliveryParam, d: int, s0: Store, s: Store)
    ensures
      var t := s + Effect(Delivery1(n, p, d), s);
      && (forall e | e != d && Untouched(s0, s, n, p.wId, e) :: Untouched(s0, t, n, p.wId, e))
      && (forall e | e != d :: SameAt(s, t, HNoId(n, e)))
  {
  }

  // What sub-transactions 2 to 4 of a delivery need of the order taken in district d.

  predicate LinesReady(s: Store, n: nat, w: int, d: int, o: int) {
    Handed(s, n, d, o) && o != -1 && LinesAt(s, Lines(w, d, o)) != []
  }

  predicate OrderReady(s: Store, n: nat, w: int, d: int, o: int) {
    Handed(s, n, d, o) && o != -1 && IsOrder(s, Order(w, d, o))
  }

  predicate PlacedBy(s: Store, w: int, d: int, o: int, c: int) {
    IsOrder(s, Order(w, d, o)) && s[Order(w, d, o)].order.cId == c
  }

  predicate CustomerReady(s: Store, n: nat, w: int, d: int, sum: int, c: int) {
    Delivered(s, n, d) && SumHanded(s, n, d, sum) && CustHanded(s, n, d, c) && IsCustomer(s, Customer(w, d, c))
  }

  predicate SumHanded(s: Store, n: nat, d: int, sum: int) {
    HSum(n, d) in s && s[HSum(n, d)] == Num(sum)
  }

  predicate CustHanded(s: Store, n: nat, d: int, c: int) {
    HCust(n, d) in s && s[HCust(n, d)] == Num(c)
  }

  lemma StampOnly(n: nat, p: DeliveryParam, d: int, s: Store)
    ensures
      var t := s + Effect(Delivery2(n, p, d), s);
      && (forall e, o | e != d && LinesReady(s, n, p.wId, e, o) :: LinesReady(t, n, p.wId, e, o))
      && (forall e, sum | e != d && SumHanded(s, n, e, sum) :: SumHanded(t, n, e, sum))
  {
  }

  lemma CarryOnly(n: nat, p: DeliveryParam, d: int, s: Store)
    ensures
      var t := s + Effect(Delivery3(n, p, d), s);
      && (forall e, o | e != d && OrderReady(s, n, p.wId, e, o) :: OrderReady(t, n, p.wId, e, o))
      && (forall e, o | e != d :: SameAt(s, t, Order(p.wId, e, o)))
      && (forall e, c | e != d && CustHanded(s, n, e, c) :: CustHanded(t, n, e, c))
  {
  }

  lemma CreditOnly(n: nat, p: DeliveryParam, d: int, s: Store)
    ensures
      var t := s + Effect(Delivery4(n, p, d), s);
      forall e, sum, c | e != d && CustomerReady(s, n, p.wId, e, sum, c) :: CustomerReady(t, n, p.wId, e, sum, c)
  {
  }

  // The state of the walks of sub-transactions 2 to 4, with the districts in `rest` to do.

  ghost predicate Stamping(s: Store, n: nat, w: int, noOIds: map<int, int>, rest: set<int>, sums: map<int, int>) {
    && rest <= noOIds.Keys && sums.Keys == noOIds.Keys - rest
    && (forall d | d in rest :: LinesReady(s, n, w, d, noOIds[d]))
    && (forall d | d in sums :: SumHanded(s, n, d, sums[d]))
  }

  lemma StampRound(n: nat, p: DeliveryParam, noOIds: map<int, int>, rest: set<int>, sums: map<int, int>, d: int, sum: int, s: Store)
    requires Stamping(s, n, p.wId, noOIds, rest, sums) && d in rest
    requires SumHanded(s + Effect(Delivery2(n, p, d), s), n, d, sum)
    ensures Stamping(s + Effect(Delivery2(n, p, d), s), n, p.wId, noOIds, rest - {d}, sums[d := sum])
  {
    StampOnly(n, p, d, s);
    assert sums[d := sum].Keys == noOIds.Keys - (rest - {d});
  }

  ghost predicate Carrying(s0: Store, s: Store, n: nat, w: int, noOIds: map<int, int>, rest: set<int>, cIds: map<int, int>) {
    && rest <= noOIds.Keys && cIds.Keys == noOIds.Keys - rest
    && (forall d | d in rest :: OrderReady(s, n, w, d, noOIds[d]) && SameAt(s0, s, Order(w, d, noOIds[d])))
    && (forall d | d in cIds :: CustHanded(s, n, d, cIds[d]) && PlacedBy(s0, w, d, noOIds[d], cIds[d]))
  }

  lemma CarryRound(
      n: nat, p: DeliveryParam, noOIds: map<int, int>, rest: set<int>, cIds: map<int, int>, d: int, cId: int, s0: Store, s: Store)
    requires Carrying(s0, s, n, p.wId, noOIds, rest, cIds) && d in rest
    requires CustHanded(s + Effect(Delivery3(n, p, d), s), n, d, cId) && PlacedBy(s, p.wId, d, noOIds[d], cId)
    ensures Carrying(s0, s + Effect(Delivery3(n, p, d), s), n, p.wId, noOIds, rest - {d}, cIds[d := cId])
  {
    var t := s + Effect(Delivery3(n, p, d), s);
    CarryOnly(n, p, d, s);
    assert cIds[d := cId].Keys == noOIds.Keys - (rest - {d});
    forall e | e in rest - {d} ensures SameAt(s0, t, Order(p.wId, e, noOIds[e])) {
      assert SameAt(s0, s, Order(p.wId, e, noOIds[e])) && SameAt(s, t, Order(p.wId, e, noOIds[e]));
    }
  }

  ghost predicate Crediting(
      s: Store, n: nat, w: int, noOIds: map<int, int>, rest: set<int>, sums: map<int, int>, cIds: map<int, int>)
  {
    && rest <= noOIds.Keys == sums.Keys == cIds.Keys
    && forall d | d in rest :: CustomerReady(s, n, w, d, sums[d], cIds[d])
  }

  lemma CreditRound(
      n: nat, p: DeliveryParam, noOIds: map<int, int>, rest: set<int>, sums: map<int, int>, cIds: map<int, int>, d: int, s: Store)
    requires Crediting(s, n, p.wId, noOIds, rest, sums, cIds) && d in rest
    ensures Crediting(s + Effect(Delivery4(n, p, d), s), n, p.wId, noOIds, rest - {d}, sums, cIds)
  {
    CreditOnly(n, p, d, s);
  }

  lemma OneKeyLess(keys: set<int>, rest: set<int>, d: int)
    requires d in rest && rest <= keys
    ensures keys - (rest - {d}) == keys - rest + {d}
  {
  }

  /** The walk over a map takes one more key. */
  lemma WalkGrows(n: nat, p: DeliveryParam, order: seq<int>, d: int, keys: set<int>, s: Store)
    requires Walks(order, keys) && d !in keys
    ensures Walks(order + [d], keys + {d})
    ensures var t := After(Stage2(n, p, order), s); After(Stage2(n, p, order + [d]), s) == t + Effect(Delivery2(n, p, d), t)
    ensures var t := After(Stage3(n, p, order), s); After(Stage3(n, p, order + [d]), s) == t + Effect(Delivery3(n, p, d), t)
    ensures var t := After(Stage4(n, p, order), s); After(Stage4(n, p, order + [d]), s) == t + Effect(Delivery4(n, p, d), t)
  {
    assert Stage2(n, p, order + [d]) == Stage2(n, p, order) + [Delivery2(n, p, d)];
    assert Stage3(n, p, order + [d]) == Stage3(n, p, order) + [Delivery3(n, p, d)];
    assert Stage4(n, p, order + [d]) == Stage4(n, p, order) + [Delivery4(n, p, d)];
    AfterOneMore(Stage2(n, p, order), Delivery2(n, p, d), s);
    AfterOneMore(Stage3(n, p, order), Delivery3(n, p, d), s);
    AfterOneMore(Stage4(n, p, order), Delivery4(n, p, d), s);
  }

  predicate DistHanded(s: Store, n: nat, l: nat, dist: string) {
    HDist(n, l) in s && s[HDist(n, l)] == Text(dist)
  }

  predicate AmountHanded(s: Store, n: nat, l: nat, amount: int) {
    HAmount(n, l) in s && s[HAmount(n, l)] == Num(amount)
  }

  function LinesOf(p: NewOrderParam, sDists: seq<string>, olAmounts: seq<int>): seq<Line>
    requires |p.iIds| == |p.iWIds| == |p.iQtys| == |sDists| == |olAmounts|
  {
    seq(|p.iIds|, l requires 0 <= l < |p.iIds| => Line(l + 1, p.iIds[l], p.iWIds[l], p.oEntryD, p.iQtys[l], olAmounts[l], sDists[l]))
  }

  lemma LinesHanded(n: nat, p: NewOrderParam, sDists: seq<string>, olAmounts: seq<int>, s: Store)
    requires |p.iIds| == |p.iWIds| == |p.iQtys| == |sDists| == |olAmounts|
    requires forall l | 0 <= l < |p.iIds| :: DistHanded(s, n, l, sDists[l]) && AmountHanded(s, n, l, olAmounts[l])
    ensures
      var cell := Lines(p.wId, p.dId, NumOr(s, HNext(n), 0));
      Effect(NewOrder6(n, p), s) == map[cell := LinesV(LinesAt(s, cell) + LinesOf(p, sDists, olAmounts))]
  {
    forall l: nat | l < |p.iIds| ensures NewLine(n, p, l, s) == LinesOf(p, sDists, olAmounts)[l] {
      assert DistHanded(s, n, l, sDists[l]) && AmountHanded(s, n, l, olAmounts[l]);
    }
    assert seq(|p.iIds|, l requires 0 <= l < |p.iIds| => NewLine(n, p, l, s)) == LinesOf(p, sDists, olAmounts);
  }

  // ---- From one sub-transaction of a whole transaction to the next ----

  lemma DeliveryStarts(k: Scale, n: nat, p: DeliveryParam, s: Store)
    requires Consistent(k, s) && ValidTxn(k, Delivery(p)) && FreshFor(s, n)
    ensures Queueing(s, s, n, p.wId, 1, map[])
  {
    forall d | 1 <= d <= DISTRICTS_PER_WAREHOUSE ensures Untouched(s, s, n, p.wId, d) {
      assert DistrictInv(k, s, p.wId, d);
    }
  }

  /** The rows that the oldest waiting order o of district d needs for its delivery. */
  ghost predicate Deliverable(k: Scale, s: Store, w: int, d: int, o: int) {
    && o != -1 && LinesAt(s, Lines(w, d, o)) != [] && IsOrder(s, Order(w, d, o))
    && IsCustomer(s, Customer(w, d, s[Order(w, d, o)].order.cId))
  }

  lemma WaitingIsDeliverable(k: Scale, s: Store, w: int, d: int, o: int)
    requires DistrictInv(k, s, w, d) && OldestWaits(s, w, d, o)
    ensures Deliverable(k, s, w, d, o)
  {
    assert OrderInv(k, s, w, d, o);
    assert CustomerInv(s, w, d, s[Order(w, d, o)].order.cId);
  }

  predicate DeliveryRow(c: Cell) { c.Lines? || c.Order? || c.Customer? }

  lemma Stage1Leaves(n: nat, p: DeliveryParam, d: nat, s: Store)
    requires 1 <= d
    ensures forall c | DeliveryRow(c) :: SameAt(s, After(Stage1(n, p, d), s), c)
  {
    Stage1Listed(n, p, d);
    forall c | DeliveryRow(c) ensures SameAt(s, After(Stage1(n, p, d), s), c) {
      AfterFrame(Stage1(n, p, d), s, c);
    }
  }

  lemma DeliveryReady(k: Scale, n: nat, p: DeliveryParam, s: Store, t: Store, noOIds: map<int, int>)
    requires Consistent(k, s) && ValidTxn(k, Delivery(p)) && t == After(Stage1(n, p, 1), s)
    requires Queueing(s, t, n, p.wId, DISTRICTS_PER_WAREHOUSE + 1, noOIds)
    ensures forall d | d in noOIds :: LinesReady(t, n, p.wId, d, noOIds[d]) && Deliverable(k, t, p.wId, d, noOIds[d])
  {
    Stage1Leaves(n, p, 1, s);
    forall d | d in noOIds ensures LinesReady(t, n, p.wId, d, noOIds[d]) && Deliverable(k, t, p.wId, d, noOIds[d]) {
      var o := noOIds[d];
      assert DistrictInv(k, s, p.wId, d);
      WaitingIsDeliverable(k, s, p.wId, d, o);
      assert SameAt(s, t, Lines(p.wId, d, o)) && SameAt(s, t, Order(p.wId, d, o));
      assert SameAt(s, t, Customer(p.wId, d, s[Order(p.wId, d, o)].order.cId));
    }
  }

  lemma Stage2Leaves(k: Scale, n: nat, p: DeliveryParam, order: seq<int>, s: Store, noOIds: map<int, int>)
    requires forall d | d in noOIds :: LinesReady(s, n, p.wId, d, noOIds[d]) && Deliverable(k, s, p.wId, d, noOIds[d])
    ensures
      var t := After(Stage2(n, p, order), s);
      && (forall d | d in noOIds :: OrderReady(t, n, p.wId, d, noOIds[d]))
      && (forall c: Cell | c.Order? || c.Customer? :: SameAt(s, t, c))
  {
    var ops := Stage2(n, p, order);
    var t := After(ops, s);
    forall c: Cell | c.Order? || c.Customer? || c.HNoId? ensures SameAt(s, t, c) {
      AfterFrame(ops, s, c);
    }
    forall d | d in noOIds ensures OrderReady(t, n, p.wId, d, noOIds[d]) {
      assert LinesReady(s, n, p.wId, d, noOIds[d]) && SameAt(s, t, HNoId(n, d)) && SameAt(s, t, Order(p.wId, d, noOIds[d]));
    }
  }

  lemma Stage3Leaves(
      k: Scale, n: nat, p: DeliveryParam, order: seq<int>, s1: Store, s: Store,
      noOIds: map<int, int>, sums: map<int, int>, cIds: map<int, int>)
    requires sums.Keys == cIds.Keys == noOIds.Keys
    requires forall d | d in noOIds :: Deliverable(k, s1, p.wId, d, noOIds[d]) && OrderReady(s, n, p.wId, d, noOIds[d])
    requires forall c: Cell | c.Order? || c.Customer? :: SameAt(s1, s, c)
    requires forall d | d in noOIds :: PlacedBy(s, p.wId, d, noOIds[d], cIds[d])
    requires forall d | d in sums :: SumHanded(s, n, d, sums[d])
    requires forall d | d in cIds :: CustHanded(After(Stage3(n, p, order), s), n, d, cIds[d])
    ensures forall d | d in noOIds :: CustomerReady(After(Stage3(n, p, order), s), n, p.wId, d, sums[d], cIds[d])
  {
    var ops := Stage3(n, p, order);
    var t := After(ops, s);
    forall c: Cell | c.Customer? || c.HNoId? || c.HSum? ensures SameAt(s, t, c) {
      AfterFrame(ops, s, c);
    }
    forall d | d in noOIds ensures CustomerReady(t, n, p.wId, d, sums[d], cIds[d]) {
      assert Deliverable(k, s1, p.wId, d, noOIds[d]) && OrderReady(s, n, p.wId, d, noOIds[d]) && SumHanded(s, n, d, sums[d]);
      assert SameAt(s1, s, Order(p.wId, d, noOIds[d])) && SameAt(s1, s, Customer(p.wId, d, cIds[d]));
      assert SameAt(s, t, Customer(p.wId, d, cIds[d])) && SameAt(s, t, HNoId(n, d)) && SameAt(s, t, HSum(n, d));
      assert CustHanded(t, n, d, cIds[d]);
    }
  }

  lemma StagesRun(k: Scale, n: nat, p: DeliveryParam, s: Store, t: Store, noOIds: map<int, int>, o2: seq<int>, o3: seq<int>, o4: seq<int>)
    requires Consistent(k, s) && ValidTxn(k, Delivery(p)) && FreshFor(s, n)
    requires t == After(Stage1(n, p, 1), s) && Queueing(s, t, n, p.wId, DISTRICTS_PER_WAREHOUSE + 1, noOIds)
    requires Walks(o2, noOIds.Keys) && Walks(o3, noOIds.Keys) && Walks(o4, noOIds.Keys)
    ensures After(Stage4(n, p, o4), After(Stage3(n, p, o3), After(Stage2(n, p, o2), t))) == After(DeliverySteps(n, p, 1), s)
  {
    KeysAreDelivered(k, n, p, s, t, noOIds);
    StagesAreSerial(k, n, p, s, o2, o3, o4, noOIds.Keys);
    var one := Stage1(n, p, 1);
    var two := one + Stage2(n, p, o2);
    AfterAppend(one, Stage2(n, p, o2), s);
    AfterAppend(two, Stage3(n, p, o3), s);
    AfterAppend(two + Stage3(n, p, o3), Stage4(n, p, o4), s);
  }

  lemma KeysAreDelivered(k: Scale, n: nat, p: DeliveryParam, s: Store, t: Store, noOIds: map<int, int>)
    requires Consistent(k, s) && ValidTxn(k, Delivery(p))
    requires Queueing(s, t, n, p.wId, DISTRICTS_PER_WAREHOUSE + 1, noOIds)
    ensures forall d :: d in noOIds.Keys <==> 1 <= d <= DISTRICTS_PER_WAREHOUSE && Delivered(t, n, d)
  {
    forall d ensures d in noOIds.Keys <==> 1 <= d <= DISTRICTS_PER_WAREHOUSE && Delivered(t, n, d) {
      if d in noOIds {
        assert DistrictInv(k, s, p.wId, d) && Handed(t, n, d, noOIds[d]) && OldestWaits(s, p.wId, d, noOIds[d]);
      }
    }
  }

  lemma NewOrderOpens(k: Scale, n: nat, p: NewOrderParam, s: Store, t: Store)
    requires Consistent(k, s) && ValidTxn(k, NewOrder(p))
    requires
      var s1 := s + Effect(NewOrder1(n, p), s);
      var s2 := s1 + Effect(NewOrder2(n, p), s1);
      t == s2 + Effect(NewOrder3(n, p), s2)
    ensures t == After([NewOrder1(n, p), NewOrder2(n, p), NewOrder3(n, p)], s) && Rows(k, t)
    ensures HNext(n) in t && t[HNext(n)] == Num(NextOf(s, p.wId, p.dId))
  {
    assert DistrictInv(k, s, p.wId, p.dId);
    var t', o := Opens(k, map[HNext(n) := Num(NextOf(s, p.wId, p.dId))], n, p, s);
    AfterOne(NewOrder1(n, p), s);
    AfterOneMore([NewOrder1(n, p)], NewOrder2(n, p), s);
    AfterOneMore([NewOrder1(n, p), NewOrder2(n, p)], NewOrder3(n, p), s);
    assert [NewOrder1(n, p)] + [NewOrder2(n, p)] == [NewOrder1(n, p), NewOrder2(n, p)];
    assert [NewOrder1(n, p), NewOrder2(n, p)] + [NewOrder3(n, p)] == [NewOrder1(n, p), NewOrder2(n, p), NewOrder3(n, p)];
  }

  lemma PriceKeepsText(n: nat, p: NewOrderParam, s: Store, l: nat, dist: string)
    requires DistHanded(s, n, l, dist)
    ensures DistHanded(After(PriceSteps(n, p, 0), s), n, l, dist)
  {
    PriceStepsListed(n, p, 0);
    AfterFrame(PriceSteps(n, p, 0), s, HDist(n, l));
  }

  lemma NewOrderHanded(n: nat, p: NewOrderParam, s: Store, dNextOId: int, sDists: seq<string>)
    requires HNext(n) in s && s[HNext(n)] == Num(dNextOId)
    requires |sDists| == |p.iIds| && forall l | 0 <= l < |sDists| :: DistHanded(After(StockSteps(n, p, 0), s), n, l, sDists[l])
    ensures
      var t := After(PriceSteps(n, p, 0), After(StockSteps(n, p, 0), s));
      HNext(n) in t && t[HNext(n)] == Num(dNextOId) && forall l | 0 <= l < |sDists| :: DistHanded(t, n, l, sDists[l])
  {
    var s4 := After(StockSteps(n, p, 0), s);
    ItemLoopsFrame(n, p, s, HNext(n));
    forall l: nat | l < |sDists| ensures DistHanded(After(PriceSteps(n, p, 0), s4), n, l, sDists[l]) {
      assert DistHanded(s4, n, l, sDists[l]);
      PriceKeepsText(n, p, s4, l, sDists[l]);
    }
  }

  lemma NewOrderRun(n: nat, p: NewOrderParam, s: Store, s3: Store)
    requires s3 == After([NewOrder1(n, p), NewOrder2(n, p), NewOrder3(n, p)], s)
    ensures
      var s5 := After(PriceSteps(n, p, 0), After(StockSteps(n, p, 0), s3));
      s5 + Effect(NewOrder6(n, p), s5) == After(NewOrderSteps(n, p), s)
  {
    var ordered := [NewOrder1(n, p), NewOrder2(n, p), NewOrder3(n, p)];
    var stocked := ordered + StockSteps(n, p, 0);
    AfterAppend(ordered, StockSteps(n, p, 0), s);
    AfterAppend(stocked, PriceSteps(n, p, 0), s);
    AfterAppend(stocked + PriceSteps(n, p, 0), [NewOrder6(n, p)], s);
    AfterOne(NewOrder6(n, p), After(PriceSteps(n, p, 0), After(StockSteps(n, p, 0), s3)));
  }

  /** Once transaction n has led from s to t, the rest of the queue leads from t to fin. */
  lemma LeadsNext(k: Scale, queue: seq<Txn>, n: nat, s: Store, t: Store, fin: Store)
    requires n < |queue| && Leads(k, queue, n, |queue|, s, fin) && t == After(TxnSteps(n, queue[n]), s)
    ensures Leads(k, queue, n + 1, |queue|, t, fin)
  {
    RunsOn(k, s, queue, n, |queue|, s, t);
    AfterAppend(TxnSteps(n, queue[n]), Steps(queue, n + 1, |queue|), s);
  }

  lemma PaymentRows(k: Scale, n: nat, p: PaymentParam, s: Store)
    requires Consistent(k, s) && ValidTxn(k, Payment(p))
    ensures
      var s1 := s + Effect(Payment1(n, p), s);
      var s2 := s1 + Effect(Payment2(n, p), s1);
      var s3 := s2 + Effect(Payment3(n, p), s2);
      IsNum(s, WarehouseYtd(p.wId)) && IsNum(s1, DistrictYtd(p.wId, p.dId)) && IsCustomer(s3, Customer(p.wId, p.dId, p.cId))
  {
    assert DistrictInv(k, s, p.wId, p.dId) && CustomerInv(s, p.wId, p.dId, p.cId);
  }

  /** What sub-transaction 1 of a delivery does to the tables of one district. */
  lemma TakenTables(n: nat, p: DeliveryParam, d: int, s: Store)
    requires IsNum(s, Oldest(p.wId, d))
    ensures
      var o, ids := OldestOf(s, p.wId, d), IdsAt(s, NewOrders(p.wId, d));
      Tables(s + Effect(Delivery1(n, p, d), s))
        == if o in ids then Tables(s)[NewOrders(p.wId, d) := Ids(ids - {o})][Oldest(p.wId, d) := Num(o + 1)] else Tables(s)
  {
    TablesAdd(s, Effect(Delivery1(n, p, d), s));
  }

  class SerialProcessor {
    var db: Store
    ghost var log: Store

    ghost predicate Valid()
      reads this
    {
      db == Tables(log)
    }

    constructor (tables: Store)
      requires forall c | c in tables :: !IsHandover(c)
      ensures Valid() && log == tables
    {
      db := tables;
      log := tables;
    }

    // ---- One row at a time: the sub-transactions in `Single` form ----

    /** Takes the oldest waiting order of the district, if there is one. */
    method DeliverySubTxn1Single(ghost n: nat, p: DeliveryParam, d: int) returns (taken: bool, noOId: int)
      requires Valid() && IsNum(db, Oldest(p.wId, d)) && HNoId(n, d) !in log
      modifies this
      ensures Valid() && log == old(log) + Effect(Delivery1(n, p, d), old(log))
      ensures noOId == OldestOf(old(log), p.wId, d) && (taken <==> noOId in IdsAt(old(log), NewOrders(p.wId, d)))
      ensures if taken then HNoId(n, d) in log && log[HNoId(n, d)] == Num(noOId) else HNoId(n, d) !in log
    {
      ghost var e := Effect(Delivery1(n, p, d), log);
      TakenTables(n, p, d, log);
      noOId := db[Oldest(p.wId, d)].num;
      var waiting := IdsAt(db, NewOrders(p.wId, d));
      taken := noOId in waiting;
      if taken {
        db := db[NewOrders(p.wId, d) := Ids(waiting - {noOId})];
        db := db[Oldest(p.wId, d) := Num(noOId + 1)];
      }
      log := log + e;
    }

    /** Stamps the rows of one order line by line and adds up their amounts. */
    method StampRows(cell: Cell, date: int) returns (sum: int)
      requires LinesAt(db, cell) != []
      modifies this`db
      ensures db == old(db)[cell := LinesV(Stamped(LinesAt(old(db), cell), date))] && sum == Total(LinesAt(old(db), cell))
    {
      ghost var lines := LinesAt(db, cell);
      sum := 0;
      var i := 0;
      while i < |LinesAt(db, cell)|
        invariant |LinesAt(db, cell)| == |lines| && 0 <= i <= |lines|
        invariant forall j | 0 <= j < |lines| :: LinesAt(db, cell)[j] == if j < i then lines[j].(deliveryD := date) else lines[j]
        invariant db == old(db)[cell := LinesV(LinesAt(db, cell))]
        invariant sum == Total(lines[..i])
      {
        var rows := LinesAt(db, cell);
        db := db[cell := LinesV(rows[i := rows[i].(deliveryD := date)])];
        sum := sum + LinesAt(db, cell)[i].amount;
        TotalAdds(lines, i);
        i := i + 1;
      }
      assert lines[..i] == lines;
      assert LinesAt(db, cell) == Stamped(lines, date);
    }

    method DeliverySubTxn2Single(ghost n: nat, p: DeliveryParam, d: int, noOId: int) returns (sum: int)
      requires Valid() && HNoId(n, d) in log && log[HNoId(n, d)] == Num(noOId) && noOId != -1
      requires LinesAt(db, Lines(p.wId, d, noOId)) != []
      modifies this
      ensures Valid() && log == old(log) + Effect(Delivery2(n, p, d), old(log))
      ensures SumHanded(log, n, d, sum)
    {
      ghost var e := Effect(Delivery2(n, p, d), log);
      sum := StampRows(Lines(p.wId, d, noOId), p.olDeliveryD);
      TablesAdd(log, e);
      log := log + e;
    }

    method DeliverySubTxn3Single(ghost n: nat, p: DeliveryParam, d: int, noOId: int) returns (cId: int)
      requires Valid() && HNoId(n, d) in log && log[HNoId(n, d)] == Num(noOId) && noOId != -1
      requires IsOrder(db, Order(p.wId, d, noOId))
      modifies this
      ensures Valid() && log == old(log) + Effect(Delivery3(n, p, d), old(log))
      ensures CustHanded(log, n, d, cId) && PlacedBy(old(log), p.wId, d, noOId, cId)
    {
      ghost var e := Effect(Delivery3(n, p, d), log);
      var cell := Order(p.wId, d, noOId);
      db := db[cell := OrderV(db[cell].order.(carrierId := p.oCarrierId))];
      cId := db[cell].order.cId;
      TablesAdd(log, e);
      log := log + e;
    }

    method DeliverySubTxn4Single(ghost n: nat, p: DeliveryParam, d: int, sum: int, cId: int)
      requires Valid() && Delivered(log, n, d) && NumOr(log, HSum(n, d), -1) == sum && NumOr(log, HCust(n, d), -1) == cId
      requires IsCustomer(db, Customer(p.wId, d, cId))
      modifies this
      ensures Valid() && log == old(log) + Effect(Delivery4(n, p, d), old(log))
    {
      ghost var e := Effect(Delivery4(n, p, d), log);
      var cell := Customer(p.wId, d, cId);
      var balance := db[cell].customer.balance + sum;
      db := db[cell := CustomerV(db[cell].customer.(balance := balance))];
      TablesAdd(log, e);
      log := log + e;
    }

    /** Takes an ordered quantity from a stock row. */
    method TakeStock(cell: Cell, olQuantity: int, remote: bool)
      requires IsStock(db, cell)
      modifies this`db
      ensures db == old(db)[cell := StockV(Reserved(old(db)[cell].stock, olQuantity, remote))]
    {
      var row := db[cell].stock;
      var quantity := row.quantity;
      if quantity >= olQuantity + 10 {
        quantity := quantity - olQuantity;
      } else {
        quantity := quantity + 91 - olQuantity;
      }
      row := row.(quantity := quantity, ytd := row.ytd + olQuantity, orderCnt := row.orderCnt + 1);
      db := db[cell := StockV(row)];
      if remote {
        row := row.(remoteCnt := row.remoteCnt + 1);
        db := db[cell := StockV(row)];
      }
    }

    method NewOrderSubTxn4Single(ghost n: nat, p: NewOrderParam, l: nat) returns (sDist: string)
      requires Valid() && l < |p.iIds| == |p.iWIds| == |p.iQtys|
      requires IsStock(db, Stock(p.iWIds[l], p.iIds[l])) && 1 <= p.dId <= |db[Stock(p.iWIds[l], p.iIds[l])].stock.dists|
      modifies this
      ensures Valid() && log == old(log) + Effect(NewOrder4(n, p, l), old(log)) && DistHanded(log, n, l, sDist)
    {
      ghost var e := Effect(NewOrder4(n, p, l), log);
      var cell := Stock(p.iWIds[l], p.iIds[l]);
      TakeStock(cell, p.iQtys[l], p.iWIds[l] != p.wId);
      sDist := db[cell].stock.dists[p.dId - 1];
      TablesAdd(log, e);
      log := log + e;
    }

    method NewOrderSubTxn5Single(ghost n: nat, p: NewOrderParam, l: nat) returns (olAmount: int)
      requires Valid() && l < |p.iIds| == |p.iQtys| && IsNum(db, Item(p.iIds[l]))
      modifies this`log
      ensures Valid() && log == old(log) + Effect(NewOrder5(n, p, l), old(log))
      ensures HAmount(n, l) in log && log[HAmount(n, l)] == Num(olAmount)
    {
      ghost var e := Effect(NewOrder5(n, p, l), log);
      olAmount := p.iQtys[l] * db[Item(p.iIds[l])].num;
      TablesAdd(log, e);
      log := log + e;
    }

    // ---- The sub-transactions over all districts or all items ----

    /** One round of the loop over the districts. */
    method QueueRound(ghost n: nat, p: DeliveryParam, d: nat, noOIds: map<int, int>, ghost s0: Store, ghost fin: Store)
        returns (noOIds': map<int, int>)
      requires Valid() && 1 <= d <= DISTRICTS_PER_WAREHOUSE && QueueingTo(s0, log, n, p, d, noOIds, fin)
      modifies this
      ensures Valid() && QueueingTo(s0, log, n, p, d + 1, noOIds', fin)
    {
      assert Untouched(s0, log, n, p.wId, d);
      var taken, noOId := DeliverySubTxn1Single(n, p, d);
      noOIds' := if taken then noOIds[d := noOId] else noOIds;
      DistrictOnly(n, p, d, s0, old(log));
    }

    /** Sub-transaction 1 of a delivery for the districts from `first` up; the code starts at 1. */
    method DeliverySubTxn1(ghost n: nat, p: DeliveryParam, first: nat) returns (noOIds: map<int, int>)
      requires Valid() && 1 <= first <= DISTRICTS_PER_WAREHOUSE && Queueing(log, log, n, p.wId, first, map[])
      modifies this
      ensures Valid() && log == After(Stage1(n, p, first), old(log))
      ensures Queueing(old(log), log, n, p.wId, DISTRICTS_PER_WAREHOUSE + 1, noOIds)
    {
      noOIds := map[];
      ghost var fin := After(Stage1(n, p, first), log);
      var d := first;
      while d <= DISTRICTS_PER_WAREHOUSE
        invariant first <= d <= DISTRICTS_PER_WAREHOUSE + 1 && Valid()
        invariant QueueingTo(old(log), log, n, p, d, noOIds, fin)
      {
        noOIds := QueueRound(n, p, d, noOIds, old(log), fin);
        d := d + 1;
      }
      StageOver(old(log), log, n, p, d, noOIds, fin);
    }

    /** One round of the walk over the taken orders. */
    method StampOne(ghost n: nat, p: DeliveryParam, noOIds: map<int, int>, ghost rest: set<int>, sums: map<int, int>, d: int)
      returns (sums': map<int, int>)
      requires Valid() && Stamping(log, n, p.wId, noOIds, rest, sums) && d in rest
      modifies this
      ensures Valid() && log == old(log) + Effect(Delivery2(n, p, d), old(log))
      ensures Stamping(log, n, p.wId, noOIds, rest - {d}, sums')
    {
      var sum := DeliverySubTxn2Single(n, p, d, noOIds[d]);
      StampRound(n, p, noOIds, rest, sums, d, sum, old(log));
      sums' := sums[d := sum];
    }

    method DeliverySubTxn2(ghost n: nat, p: DeliveryParam, noOIds: map<int, int>) returns (sums: map<int, int>, ghost order: seq<int>)
      requires Valid() && forall d | d in noOIds :: LinesReady(log, n, p.wId, d, noOIds[d])
      modifies this
      ensures Valid() && Walks(order, noOIds.Keys) && log == After(Stage2(n, p, order), old(log))
      ensures sums.Keys == noOIds.Keys && forall d | d in sums :: SumHanded(log, n, d, sums[d])
    {
      sums, order := map[], [];
      var rest := noOIds.Keys;
      while rest != {}
        invariant Valid() && Walks(order, noOIds.Keys - rest) && log == After(Stage2(n, p, order), old(log))
        invariant Stamping(log, n, p.wId, noOIds, rest, sums)
      {
        var d :| d in rest;
        OneKeyLess(noOIds.Keys, rest, d);
        WalkGrows(n, p, order, d, noOIds.Keys - rest, old(log));
        sums := StampOne(n, p, noOIds, rest, sums, d);
        rest, order := rest - {d}, order + [d];
      }
    }

    method DeliverySubTxn3(ghost n: nat, p: DeliveryParam, noOIds: map<int, int>) returns (cIds: map<int, int>, ghost order: seq<int>)
      requires Valid() && forall d | d in noOIds :: OrderReady(log, n, p.wId, d, noOIds[d])
      modifies this
      ensures Valid() && Walks(order, noOIds.Keys) && log == After(Stage3(n, p, order), old(log))
      ensures cIds.Keys == noOIds.Keys && forall d | d in cIds :: CustHanded(log, n, d, cIds[d])
      ensures forall d | d in noOIds :: PlacedBy(old(log), p.wId, d, noOIds[d], cIds[d])
    {
      cIds, order := map[], [];
      var rest := noOIds.Keys;
      while rest != {}
        invariant Valid() && Walks(order, noOIds.Keys - rest) && log == After(Stage3(n, p, order), old(log))
        invariant Carrying(old(log), log, n, p.wId, noOIds, rest, cIds)
      {
        var d :| d in rest;
        ghost var s := log;
        var cId := DeliverySubTxn3Single(n, p, d, noOIds[d]);
        CarryRound(n, p, noOIds, rest, cIds, d, cId, old(log), s);
        OneKeyLess(noOIds.Keys, rest, d);
        WalkGrows(n, p, order, d, noOIds.Keys - rest, old(log));
        cIds, rest, order := cIds[d := cId], rest - {d}, order + [d];
      }
    }

    method CreditOne(
      ghost n: nat, p: DeliveryParam, ghost noOIds: map<int, int>, ghost rest: set<int>, sums: map<int, int>, cIds: map<int, int>, d: int)
      requires Valid() && Crediting(log, n, p.wId, noOIds, rest, sums, cIds) && d in rest
      modifies this
      ensures Valid() && log == old(log) + Effect(Delivery4(n, p, d), old(log))
      ensures Crediting(log, n, p.wId, noOIds, rest - {d}, sums, cIds)
    {
      DeliverySubTxn4Single(n, p, d, sums[d], cIds[d]);
      CreditRound(n, p, noOIds, rest, sums, cIds, d, old(log));
    }

    method DeliverySubTxn4(ghost n: nat, p: DeliveryParam, noOIds: map<int, int>, sums: map<int, int>, cIds: map<int, int>)
      returns (ghost order: seq<int>)
      requires Valid() && sums.Keys == cIds.Keys == noOIds.Keys
      requires forall d | d in noOIds :: CustomerReady(log, n, p.wId, d, sums[d], cIds[d])
      modifies this
      ensures Valid() && Walks(order, noOIds.Keys) && log == After(Stage4(n, p, order), old(log))
    {
      order := [];
      var rest := noOIds.Keys;
      while rest != {}
        invariant Valid() && Walks(order, noOIds.Keys - rest) && log == After(Stage4(n, p, order), old(log))
        invariant Crediting(log, n, p.wId, noOIds, rest, sums, cIds)
      {
        var d :| d in rest;
        OneKeyLess(noOIds.Keys, rest, d);
        WalkGrows(n, p, order, d, noOIds.Keys - rest, old(log));
        CreditOne(n, p, noOIds, rest, sums, cIds, d);
        rest, order := rest - {d}, order + [d];
      }
    }

    method NewOrderSubTxn1(ghost n: nat, p: NewOrderParam) returns (dNextOId: int)
      requires Valid() && IsNum(db, NextOrderId(p.wId, p.dId))
      modifies this
      ensures Valid() && log == old(log) + Effect(NewOrder1(n, p), old(log))
      ensures HNext(n) in log && log[HNext(n)] == Num(dNextOId)
    {
      ghost var e := Effect(NewOrder1(n, p), log);
      dNextOId := db[NextOrderId(p.wId, p.dId)].num;
      var oId := dNextOId + 1;
      db := db[NextOrderId(p.wId, p.dId) := Num(oId)];
      TablesAdd(log, e);
      log := log + e;
    }

    method NewOrderSubTxn2(ghost n: nat, p: NewOrderParam, dNextOId: int)
      requires Valid() && HNext(n) in log && log[HNext(n)] == Num(dNextOId)
      modifies this
      ensures Valid() && log == old(log) + Effect(NewOrder2(n, p), old(log))
    {
      ghost var e := Effect(NewOrder2(n, p), log);
      var allLocal, i := true, 0;
      while i < |p.iWIds|
        invariant 0 <= i <= |p.iWIds| && Valid() && log == old(log)
        invariant allLocal <==> forall j | 0 <= j < i :: p.iWIds[j] == p.wId
      {
        allLocal := allLocal && p.wId == p.iWIds[i];
        i := i + 1;
      }
      Everywhere(p.iWIds, p.wId);
      var cell := Order(p.wId, p.dId, dNextOId);
      if cell !in db {
        db := db[cell := OrderV(OrderRow(p.cId, p.oEntryD, NULL_CARRIER_ID, |p.iIds|, allLocal))];
      }
      TablesAdd(log, e);
      log := log + e;
    }

    method NewOrderSubTxn3(ghost n: nat, p: NewOrderParam, dNextOId: int)
      requires Valid() && HNext(n) in log && log[HNext(n)] == Num(dNextOId)
      modifies this
      ensures Valid() && log == old(log) + Effect(NewOrder3(n, p), old(log))
    {
      ghost var e := Effect(NewOrder3(n, p), log);
      var cell := NewOrders(p.wId, p.dId);
      db := db[cell := Ids(IdsAt(db, cell) + {dNextOId})];
      TablesAdd(log, e);
      log := log + e;
    }

    method NewOrderSubTxn4(ghost k: Scale, ghost n: nat, p: NewOrderParam) returns (sDists: seq<string>)
      requires Valid() && Rows(k, log) && ValidNewOrder(k, p)
      modifies this
      ensures Valid() && Rows(k, log) && log == After(StockSteps(n, p, 0), old(log))
      ensures |sDists| == |p.iIds| && forall l | 0 <= l < |sDists| :: DistHanded(log, n, l, sDists[l])
    {
      sDists := [];
      var i: nat := 0;
      while i < |p.iIds|
        invariant i <= |p.iIds| && Valid() && Rows(k, log)
        invariant After(StockSteps(n, p, i), log) == After(StockSteps(n, p, 0), old(log))
        invariant |sDists| == i && forall l | 0 <= l < i :: DistHanded(log, n, l, sDists[l])
      {
        var sDist := NewOrderSubTxn4Round(k, n, p, i, sDists);
        sDists := sDists + [sDist];
        i := i + 1;
      }
    }

    method NewOrderSubTxn4Round(ghost k: Scale, ghost n: nat, p: NewOrderParam, i: nat, ghost sDists: seq<string>) returns (sDist: string)
      requires Valid() && Rows(k, log) && ValidNewOrder(k, p) && i < |p.iIds|
      requires |sDists| == i && forall l | 0 <= l < i :: DistHanded(log, n, l, sDists[l])
      modifies this
      ensures Valid() && Rows(k, log) && After(StockSteps(n, p, i + 1), log) == After(StockSteps(n, p, i), old(log))
      ensures forall l | 0 <= l <= i :: DistHanded(log, n, l, (sDists + [sDist])[l])
    {
      assert StockOk(log, p.iWIds[i], p.iIds[i]);
      StockOne(k, n, p, i, log);
      sDist := NewOrderSubTxn4Single(n, p, i);
    }

    method NewOrderSubTxn5(ghost k: Scale, ghost n: nat, p: NewOrderParam) returns (olAmounts: seq<int>)
      requires Valid() && Rows(k, log) && ValidNewOrder(k, p)
      modifies this`log
      ensures Valid() && log == After(PriceSteps(n, p, 0), old(log))
      ensures |olAmounts| == |p.iIds| && forall l | 0 <= l < |olAmounts| :: AmountHanded(log, n, l, olAmounts[l])
    {
      olAmounts := [];
      var i: nat := 0;
      while i < |p.iIds|
        invariant i <= |p.iIds| && Valid() && Rows(k, log)
        invariant After(PriceSteps(n, p, i), log) == After(PriceSteps(n, p, 0), old(log))
        invariant |olAmounts| == i && forall l | 0 <= l < i :: AmountHanded(log, n, l, olAmounts[l])
      {
        var olAmount := NewOrderSubTxn5Round(k, n, p, i, olAmounts);
        olAmounts := olAmounts + [olAmount];
        i := i + 1;
      }
    }

    method NewOrderSubTxn5Round(ghost k: Scale, ghost n: nat, p: NewOrderParam, i: nat, ghost olAmounts: seq<int>) returns (olAmount: int)
      requires Valid() && Rows(k, log) && ValidNewOrder(k, p) && i < |p.iIds|
      requires |olAmounts| == i && forall l | 0 <= l < i :: AmountHanded(log, n, l, olAmounts[l])
      modifies this`log
      ensures Valid() && Rows(k, log) && After(PriceSteps(n, p, i + 1), log) == After(PriceSteps(n, p, i), old(log))
      ensures forall l | 0 <= l <= i :: AmountHanded(log, n, l, (olAmounts + [olAmount])[l])
    {
      RowsFrame(k, log, log + Effect(NewOrder5(n, p, i), log));
      olAmount := NewOrderSubTxn5Single(n, p, i);
    }

    /** Inserts the lines one by one under the key of the order. */
    method InsertRows(cell: Cell, p: NewOrderParam, sDists: seq<string>, olAmounts: seq<int>)
      requires 0 < |p.iIds| == |p.iWIds| == |p.iQtys| == |sDists| == |olAmounts|
      modifies this`db
      ensures db == old(db)[cell := LinesV(LinesAt(old(db), cell) + LinesOf(p, sDists, olAmounts))]
    {
      ghost var lines, base := LinesOf(p, sDists, olAmounts), LinesAt(db, cell);
      var i := 0;
      while i < |p.iIds|
        invariant 0 <= i <= |p.iIds|
        invariant LinesAt(db, cell) == base + lines[..i]
        invariant i == 0 ==> db == old(db)
        invariant i > 0 ==> db == old(db)[cell := LinesV(base + lines[..i])]
      {
        var line := Line(i + 1, p.iIds[i], p.iWIds[i], p.oEntryD, p.iQtys[i], olAmounts[i], sDists[i]);
        assert lines[i] == line && base + lines[..i] + [line] == base + lines[..i + 1];
        db := db[cell := LinesV(LinesAt(db, cell) + [line])];
        i := i + 1;
      }
      assert lines[..i] == lines;
    }

    method NewOrderSubTxn6(ghost n: nat, p: NewOrderParam, dNextOId: int, sDists: seq<string>, olAmounts: seq<int>)
      requires Valid() && HNext(n) in log && log[HNext(n)] == Num(dNextOId)
      requires 0 < |p.iIds| == |p.iWIds| == |p.iQtys| == |sDists| == |olAmounts|
      requires forall l | 0 <= l < |p.iIds| :: DistHanded(log, n, l, sDists[l]) && AmountHanded(log, n, l, olAmounts[l])
      modifies this
      ensures Valid() && log == old(log) + Effect(NewOrder6(n, p), old(log))
    {
      ghost var e := Effect(NewOrder6(n, p), log);
      InsertRows(Lines(p.wId, p.dId, dNextOId), p, sDists, olAmounts);
      LinesHanded(n, p, sDists, olAmounts, log);
      TablesAdd(log, e);
      log := log + e;
    }

    method PaymentSubTxn1(ghost n: nat, p: PaymentParam)
      requires Valid() && IsNum(db, WarehouseYtd(p.wId))
      modifies this
      ensures Valid() && log == old(log) + Effect(Payment1(n, p), old(log))
    {
      ghost var e := Effect(Payment1(n, p), log);
      var wYtd := db[WarehouseYtd(p.wId)].num + p.hAmount;
      db := db[WarehouseYtd(p.wId) := Num(wYtd)];
      TablesAdd(log, e);
      log := log + e;
    }

    method PaymentSubTxn2(ghost n: nat, p: PaymentParam)
      requires Valid() && IsNum(db, DistrictYtd(p.wId, p.dId))
      modifies this
      ensures Valid() && log == old(log) + Effect(Payment2(n, p), old(log))
    {
      ghost var e := Effect(Payment2(n, p), log);
      var dYtd := db[DistrictYtd(p.wId, p.dId)].num + p.hAmount;
      db := db[DistrictYtd(p.wId, p.dId) := Num(dYtd)];
      TablesAdd(log, e);
      log := log + e;
    }

    method PaymentSubTxn3(ghost n: nat, p: PaymentParam)
      requires Valid()
      modifies this
      ensures Valid() && log == old(log) + Effect(Payment3(n, p), old(log))
    {
      ghost var e := Effect(Payment3(n, p), log);
      var row := HistoryRow(p.cId, p.cDId, p.cWId, p.dId, p.wId, p.hDate, p.hAmount, p.hData);
      db := db[History := HistoryV(HistoryAt(db) + [row])];
      TablesAdd(log, e);
      log := log + e;
    }

    method PaymentSubTxn4(ghost n: nat, p: PaymentParam)
      requires Valid() && IsCustomer(db, Customer(p.wId, p.dId, p.cId))
      modifies this
      ensures Valid() && log == old(log) + Effect(Payment4(n, p), old(log))
    {
      ghost var e := Effect(Payment4(n, p), log);
      var cell := Customer(p.wId, p.dId, p.cId);
      var balance := db[cell].customer.balance - p.hAmount;
      var ytdPayment := db[cell].customer.ytdPayment + p.hAmount;
      var paymentCnt := db[cell].customer.paymentCnt + 1;
      db := db[cell := CustomerV(db[cell].customer.(balance := balance, ytdPayment := ytdPayment, paymentCnt := paymentCnt))];
      TablesAdd(log, e);
      log := log + e;
    }

    // ---- Whole transactions ----

    method ProcessDelivery(ghost k: Scale, ghost n: nat, p: DeliveryParam)
      requires Valid() && Consistent(k, log) && ValidTxn(k, Delivery(p)) && FreshFor(log, n)
      modifies this
      ensures Valid() && log == After(DeliverySteps(n, p, 1), old(log))
    {
      ghost var s0 := log;
      DeliveryStarts(k, n, p, s0);
      var noOIds := DeliverySubTxn1(n, p, 1);
      ghost var s1 := log;
      DeliveryReady(k, n, p, s0, s1, noOIds);
      var sums, o2 := DeliverySubTxn2(n, p, noOIds);
      ghost var s2 := log;
      Stage2Leaves(k, n, p, o2, s1, noOIds);
      var cIds, o3 := DeliverySubTxn3(n, p, noOIds);
      Stage3Leaves(k, n, p, o3, s1, s2, noOIds, sums, cIds);
      ghost var o4 := DeliverySubTxn4(n, p, noOIds, sums, cIds);
      StagesRun(k, n, p, s0, s1, noOIds, o2, o3, o4);
    }

    method ProcessNewOrder(ghost k: Scale, ghost n: nat, p: NewOrderParam)
      requires Valid() && Consistent(k, log) && ValidTxn(k, NewOrder(p))
      modifies this
      ensures Valid() && log == After(NewOrderSteps(n, p), old(log))
    {
      ghost var s0 := log;
      assert DistrictInv(k, log, p.wId, p.dId);
      var dNextOId := NewOrderSubTxn1(n, p);
      NewOrderSubTxn2(n, p, dNextOId);
      NewOrderSubTxn3(n, p, dNextOId);
      NewOrderOpens(k, n, p, s0, log);
      ghost var s3 := log;
      var sDists := NewOrderSubTxn4(k, n, p);
      ghost var s4 := log;
      var olAmounts := NewOrderSubTxn5(k, n, p);
      ghost var s5 := log;
      NewOrderHanded(n, p, s3, dNextOId, sDists);
      NewOrderSubTxn6(n, p, dNextOId, sDists, olAmounts);
      NewOrderRun(n, p, s0, s3);
    }

    method ProcessPayment(ghost k: Scale, ghost n: nat, p: PaymentParam)
      requires Valid() && Consistent(k, log) && ValidTxn(k, Payment(p))
      modifies this
      ensures Valid() && log == After(PaymentSteps(n, p), old(log))
    {
      PaymentRows(k, n, p, log);
      PaymentSubTxn1(n, p);
      PaymentSubTxn2(n, p);
      PaymentSubTxn3(n, p);
      PaymentSubTxn4(n, p);
      AfterFour(Payment1(n, p), Payment2(n, p), Payment3(n, p), Payment4(n, p), old(log));
    }

    /** Processes the queue up to its end marker, in order. */
    method Start(ghost k: Scale, queue: seq<Txn>) returns (txnCnt: nat)
      requires Valid() && Runnable(k, queue, 0, |queue|, log)
      modifies this
      ensures Valid() && log == After(Steps(queue, 0, |queue|), old(log)) && Consistent(k, log) && txnCnt == |queue|
    {
      txnCnt := 0;
      ghost var fin := After(Steps(queue, 0, |queue|), log);
      while txnCnt < |queue|
        invariant txnCnt <= |queue| && Valid() && Leads(k, queue, txnCnt, |queue|, log, fin)
      {
        ghost var n, s := txnCnt, log;
        assert FreshFor(s, n) && ValidTxn(k, queue[n]);
        match queue[txnCnt] {
          case Delivery(p) => ProcessDelivery(k, n, p);
          case NewOrder(p) => ProcessNewOrder(k, n, p);
          case Payment(p) => ProcessPayment(k, n, p);
          case Other =>
        }
        LeadsNext(k, queue, n, s, log, fin);
        txnCnt := txnCnt + 1;
      }
    }
  }
}
