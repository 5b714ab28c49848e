/** New-Order keeps the consistency conditions and fails no assertion. */
module TpccNewOrder {
  import opened Replay
  import opened TpccModel
  import opened TpccFootprint
  import opened TpccInvariant

  // ---- The item loops ----

  lemma StockOne(k: Scale, n: nat, p: NewOrderParam, l: nat, s: Store)
    requires Rows(k, s) && ValidNewOrder(k, p) && l < |p.iIds|
    ensures Fault !in Effect(NewOrder4(n, p, l), s) && Rows(k, s + Effect(NewOrder4(n, p, l), s))
  {
    assert StockOk(s, p.iWIds[l], p.iIds[l]);
    var e := Effect(NewOrder4(n, p, l), s);
    var t := s + e;
    forall w, i | 1 <= w <= k.warehouses && 1 <= i <= k.items ensures StockOk(t, w, i) {
      assert StockOk(s, w, i);
      if Stock(w, i) !in e { assert t[Stock(w, i)] == s[Stock(w, i)]; }
    }
    forall c: Cell | !c.Stock? && !c.HDist? ensures SameAt(s, t, c) {}
  }

  lemma FirstStock(h: Store, n: nat, p: NewOrderParam, l: nat, rest: seq<Step>, all: seq<Step>, s: Store, t: Store)
    requires all == [NewOrder4(n, p, l)] + rest && t == s + Effect(NewOrder4(n, p, l), s)
    requires Fault !in Effect(NewOrder4(n, p, l), s) && Tame(Sys(h), rest, t)
    ensures Tame(Sys(h), all, s) && After(all, s) == After(rest, t)
  {
    TameStep(h, NewOrder4(n, p, l), rest, s);
  }

  ghost predicate StockRuns(k: Scale, h: Store, ops: seq<Step>, s: Store) {
    Rows(k, s) ==> Tame(Sys(h), ops, s) && Rows(k, After(ops, s))
  }

  lemma StockRunsOn(k: Scale, h: Store, n: nat, p: NewOrderParam, l: nat, rest: seq<Step>, all: seq<Step>, s: Store)
    requires ValidNewOrder(k, p) && l < |p.iIds| && all == [NewOrder4(n, p, l)] + rest
    requires StockRuns(k, h, rest, s + Effect(NewOrder4(n, p, l), s))
    ensures StockRuns(k, h, all, s)
  {
    if Rows(k, s) {
      StockOne(k, n, p, l, s);
      FirstStock(h, n, p, l, rest, all, s, s + Effect(NewOrder4(n, p, l), s));
    }
  }

  lemma {:induction false} StockLoopRuns(k: Scale, h: Store, n: nat, p: NewOrderParam, l: nat, all: seq<Step>, s: Store)
    requires ValidNewOrder(k, p) && all == StockSteps(n, p, l)
    ensures StockRuns(k, h, all, s)
    decreases |p.iIds| - l
  {
    if l < |p.iIds| {
      var rest := StockSteps(n, p, l + 1);
      StockLoopRuns(k, h, n, p, l + 1, rest, s + Effect(NewOrder4(n, p, l), s));
      StockRunsOn(k, h, n, p, l, rest, all, s);
    }
  }

  lemma StockLoop(k: Scale, h: Store, n: nat, p: NewOrderParam, l: nat, s: Store)
    requires Rows(k, s) && ValidNewOrder(k, p)
    ensures Tame(Sys(h), StockSteps(n, p, l), s) && Rows(k, After(StockSteps(n, p, l), s))
  {
    StockLoopRuns(k, h, n, p, l, StockSteps(n, p, l), s);
  }

  lemma {:induction false} PriceLoop(k: Scale, h: Store, n: nat, p: NewOrderParam, l: nat, s: Store)
    requires Rows(k, s) && ValidNewOrder(k, p)
    ensures Tame(Sys(h), PriceSteps(n, p, l), s) && Rows(k, After(PriceSteps(n, p, l), s))
    decreases |p.iIds| - l
  {
    if l < |p.iIds| {
      var op := NewOrder5(n, p, l);
      RowsFrame(k, s, s + Effect(op, s));
      PriceLoop(k, h, n, p, l + 1, s + Effect(op, s));
      TameStep(h, op, PriceSteps(n, p, l + 1), s);
    }
  }

  // ---- The whole transaction ----

  /** What New-Order leaves in the cells of districts. */
  ghost predicate EnteredTo(s: Store, t: Store, n: nat, p: NewOrderParam, o: int) {
    && IsNum(s, NextOrderId(p.wId, p.dId)) && o == NextOf(s, p.wId, p.dId)
    && (forall c, w, d | OfDistrict(c, w, d) :: SameAt(s, t, c) || c in EnteredCells(p, o))
    && HNext(n) in t && t[HNext(n)] == Num(o)
    && NextOrderId(p.wId, p.dId) in t && t[NextOrderId(p.wId, p.dId)] == Num(o + 1)
    && IdsAt(t, NewOrders(p.wId, p.dId)) == IdsAt(s, NewOrders(p.wId, p.dId)) + {o}
    && IsOrder(t, Order(p.wId, p.dId, o))
    && t[Order(p.wId, p.dId, o)].order.cId == p.cId
    && t[Order(p.wId, p.dId, o)].order.carrierId == NULL_CARRIER_ID
    && t[Order(p.wId, p.dId, o)].order.olCnt == |p.iIds|
    && IsLines(t, Lines(p.wId, p.dId, o))
    && |t[Lines(p.wId, p.dId, o)].lines| == |p.iIds| && Numbered(t[Lines(p.wId, p.dId, o)].lines)
  }

  function EnteredCells(p: NewOrderParam, o: int): set<Cell> {
    {NextOrderId(p.wId, p.dId), NewOrders(p.wId, p.dId), Order(p.wId, p.dId, o), Lines(p.wId, p.dId, o)}
  }

  function FirstRow(p: NewOrderParam): OrderRow {
    OrderRow(p.cId, p.oEntryD, NULL_CARRIER_ID, |p.iIds|, forall w | w in p.iWIds :: w == p.wId)
  }

  // Steps 1 to 3: the id is taken and the ORDER and NEW_ORDER rows are inserted.

  function IdTaken(n: nat, p: NewOrderParam, o: int, s: Store): Store {
    s + map[HNext(n) := Num(o), NextOrderId(p.wId, p.dId) := Num(o + 1)]
  }

  function OrderIn(p: NewOrderParam, o: int, s: Store): Store {
    s + map[Order(p.wId, p.dId, o) := OrderV(FirstRow(p))]
  }

  function Queued(p: NewOrderParam, o: int, s: Store): Store {
    s + map[NewOrders(p.wId, p.dId) := Ids(IdsAt(s, NewOrders(p.wId, p.dId)) + {o})]
  }

  lemma TakesId(n: nat, p: NewOrderParam, o: int, s: Store)
    requires IsNum(s, NextOrderId(p.wId, p.dId)) && NextOf(s, p.wId, p.dId) == o
    ensures s + Effect(NewOrder1(n, p), s) == IdTaken(n, p, o, s) && Fault !in Effect(NewOrder1(n, p), s)
  {
  }

  lemma InsertsOrder(n: nat, p: NewOrderParam, o: int, s: Store)
    requires NumOr(s, HNext(n), 0) == o && Order(p.wId, p.dId, o) !in s
    ensures s + Effect(NewOrder2(n, p), s) == OrderIn(p, o, s) && Fault !in Effect(NewOrder2(n, p), s)
  {
  }

  lemma InsertsNewOrder(n: nat, p: NewOrderParam, o: int, s: Store)
    requires NumOr(s, HNext(n), 0) == o
    ensures s + Effect(NewOrder3(n, p), s) == Queued(p, o, s) && Fault !in Effect(NewOrder3(n, p), s)
  {
  }

  lemma OpenSteps(h: Store, n: nat, p: NewOrderParam, o: int, s: Store)
    requires IsNum(s, NextOrderId(p.wId, p.dId)) && NextOf(s, p.wId, p.dId) == o && Order(p.wId, p.dId, o) !in s
    requires HNext(n) in h && h[HNext(n)] == Num(o)
    ensures
      var ops := [NewOrder1(n, p), NewOrder2(n, p), NewOrder3(n, p)];
      After(ops, s) == Queued(p, o, OrderIn(p, o, IdTaken(n, p, o, s))) && Tame(Sys(h), ops, s)
  {
    var a, b, c := NewOrder1(n, p), NewOrder2(n, p), NewOrder3(n, p);
    var s1 := IdTaken(n, p, o, s);
    var s2 := OrderIn(p, o, s1);
    assert SameAt(s1, h, HNext(n)) && SameAt(s2, h, HNext(n)) && Order(p.wId, p.dId, o) !in s1;
    TakesId(n, p, o, s);
    InsertsOrder(n, p, o, s1);
    InsertsNewOrder(n, p, o, s2);
    TameStep(h, c, [], s2);
    TameStep(h, b, [c], s1);
    TameStep(h, a, [b, c], s);
    assert [a] + [b, c] == [a, b, c] && [b] + [c] == [b, c] && [c] + [] == [c];
  }

  /** Steps 1 to 3, cell by cell. */
  ghost predicate OpenedTo(s: Store, t: Store, n: nat, p: NewOrderParam, o: int) {
    && (forall c :: SameAt(s, t, c) || c in {HNext(n), NextOrderId(p.wId, p.dId), Order(p.wId, p.dId, o), NewOrders(p.wId, p.dId)})
    && HNext(n) in t && t[HNext(n)] == Num(o)
    && NextOrderId(p.wId, p.dId) in t && t[NextOrderId(p.wId, p.dId)] == Num(o + 1)
    && IdsAt(t, NewOrders(p.wId, p.dId)) == IdsAt(s, NewOrders(p.wId, p.dId)) + {o}
    && Order(p.wId, p.dId, o) in t && t[Order(p.wId, p.dId, o)] == OrderV(FirstRow(p))
  }

  lemma OpenedCells(n: nat, p: NewOrderParam, o: int, s: Store)
    ensures OpenedTo(s, Queued(p, o, OrderIn(p, o, IdTaken(n, p, o, s))), n, p, o)
  {
  }

  lemma LastStep(h: Store, n: nat, p: NewOrderParam, o: int, s: Store)
    requires |p.iIds| == |p.iWIds| == |p.iQtys| && Lines(p.wId, p.dId, o) !in s
    requires HNext(n) in s && s[HNext(n)] == Num(o) && HNext(n) in h && h[HNext(n)] == Num(o)
    ensures
      var t := After([NewOrder6(n, p)], s);
      && Tame(Sys(h), [NewOrder6(n, p)], s)
      && (forall c | c != Lines(p.wId, p.dId, o) :: SameAt(s, t, c))
      && IsLines(t, Lines(p.wId, p.dId, o))
      && |t[Lines(p.wId, p.dId, o)].lines| == |p.iIds| && Numbered(t[Lines(p.wId, p.dId, o)].lines)
  {
    var op := NewOrder6(n, p);
    TameStep(h, op, [], s);
    assert [op] + [] == [op];
  }

  lemma ItemLoopsFrame(n: nat, p: NewOrderParam, s: Store, c: Cell)
    requires c == HNext(n) || exists w, d :: OfDistrict(c, w, d)
    ensures SameAt(s, After(PriceSteps(n, p, 0), After(StockSteps(n, p, 0), s)), c)
  {
    StockStepsListed(n, p, 0);
    PriceStepsListed(n, p, 0);
    var s4 := After(StockSteps(n, p, 0), s);
    AfterFrame(StockSteps(n, p, 0), s, c);
    AfterFrame(PriceSteps(n, p, 0), s4, c);
    assert SameAt(s, s4, c) && SameAt(s4, After(PriceSteps(n, p, 0), s4), c);
  }

  lemma ItemLoops(k: Scale, h: Store, n: nat, p: NewOrderParam, s: Store) returns (t: Store)
    requires Rows(k, s) && ValidNewOrder(k, p)
    ensures
      var ops := StockSteps(n, p, 0) + PriceSteps(n, p, 0);
      t == After(ops, s) && Tame(Sys(h), ops, s) && Rows(k, t)
    ensures SameAt(s, t, HNext(n)) && forall c, w, d | OfDistrict(c, w, d) :: SameAt(s, t, c)
  {
    var stock, price := StockSteps(n, p, 0), PriceSteps(n, p, 0);
    StockLoop(k, h, n, p, 0, s);
    PriceLoop(k, h, n, p, 0, After(stock, s));
    TameJoin(h, stock, price, s);
    t := After(stock + price, s);
    ItemLoopsFrame(n, p, s, HNext(n));
    forall c, w, d | OfDistrict(c, w, d) ensures SameAt(s, t, c) {
      ItemLoopsFrame(n, p, s, c);
    }
  }

  lemma Opens(k: Scale, h: Store, n: nat, p: NewOrderParam, s: Store) returns (t: Store, o: int)
    requires Rows(k, s) && DistrictInv(k, s, p.wId, p.dId)
    requires HNext(n) in h && h[HNext(n)] == Num(NextOf(s, p.wId, p.dId))
    ensures
      var ops := [NewOrder1(n, p), NewOrder2(n, p), NewOrder3(n, p)];
      t == After(ops, s) && Tame(Sys(h), ops, s) && Rows(k, t)
    ensures OpenedTo(s, t, n, p, o) && o == NextOf(s, p.wId, p.dId)
  {
    o := NextOf(s, p.wId, p.dId);
    OpenSteps(h, n, p, o, s);
    OpenedCells(n, p, o, s);
    t := Queued(p, o, OrderIn(p, o, IdTaken(n, p, o, s)));
    RowsFrame(k, s, t);
  }

  /** The three parts of a New-Order run one after the other. */
  lemma NewOrderJoined(h: Store, n: nat, p: NewOrderParam, s: Store, s3: Store, s5: Store, t: Store)
    requires
      var head := [NewOrder1(n, p), NewOrder2(n, p), NewOrder3(n, p)];
      s3 == After(head, s) && Tame(Sys(h), head, s)
    requires
      var items := StockSteps(n, p, 0) + PriceSteps(n, p, 0);
      s5 == After(items, s3) && Tame(Sys(h), items, s3)
    requires t == After([NewOrder6(n, p)], s5) && Tame(Sys(h), [NewOrder6(n, p)], s5)
    ensures t == After(NewOrderSteps(n, p), s) && Tame(Sys(h), NewOrderSteps(n, p), s)
  {
    var head, items, last := [NewOrder1(n, p), NewOrder2(n, p), NewOrder3(n, p)], StockSteps(n, p, 0) + PriceSteps(n, p, 0), [NewOrder6(n, p)];
    TameJoin(h, head, items, s);
    TameJoin(h, head + items, last, s);
    assert head + items + last == NewOrderSteps(n, p);
  }

  lemma EnterAll(k: Scale, h: Store, n: nat, p: NewOrderParam, s: Store) returns (t: Store, o: int)
    requires Rows(k, s) && DistrictInv(k, s, p.wId, p.dId) && ValidNewOrder(k, p)
    requires HNext(n) in h && h[HNext(n)] == Num(NextOf(s, p.wId, p.dId))
    ensures t == After(NewOrderSteps(n, p), s) && Tame(Sys(h), NewOrderSteps(n, p), s)
    ensures Rows(k, t) && EnteredTo(s, t, n, p, o)
  {
    var s3, s5;
    s3, o := Opens(k, h, n, p, s);
    s5 := ItemLoops(k, h, n, p, s3);
    assert OfDistrict(Lines(p.wId, p.dId, o), p.wId, p.dId) && SameAt(s3, s5, Lines(p.wId, p.dId, o)) && SameAt(s, s3, Lines(p.wId, p.dId, o));
    assert SameAt(s3, s5, HNext(n));
    LastStep(h, n, p, o, s5);
    t := After([NewOrder6(n, p)], s5);
    LastRows(k, p, o, s5, t);
    NewOrderJoined(h, n, p, s, s3, s5, t);
    EnteredCellByCell(n, p, s, s3, s5, t, o);
  }

  lemma LastRows(k: Scale, p: NewOrderParam, o: int, s: Store, t: Store)
    requires Rows(k, s) && forall c | c != Lines(p.wId, p.dId, o) :: SameAt(s, t, c)
    ensures Rows(k, t)
  {
    RowsFrame(k, s, t);
  }

  lemma EnteredCellByCell(n: nat, p: NewOrderParam, s: Store, s3: Store, s5: Store, t: Store, o: int)
    requires IsNum(s, NextOrderId(p.wId, p.dId)) && o == NextOf(s, p.wId, p.dId)
    requires OpenedTo(s, s3, n, p, o)
    requires SameAt(s3, s5, HNext(n)) && forall c, w, d | OfDistrict(c, w, d) :: SameAt(s3, s5, c)
    requires forall c | c != Lines(p.wId, p.dId, o) :: SameAt(s5, t, c)
    requires IsLines(t, Lines(p.wId, p.dId, o))
    requires |t[Lines(p.wId, p.dId, o)].lines| == |p.iIds| && Numbered(t[Lines(p.wId, p.dId, o)].lines)
    ensures EnteredTo(s, t, n, p, o)
  {
    forall c, w, d | OfDistrict(c, w, d) ensures SameAt(s, t, c) || c in EnteredCells(p, o) {
      assert SameAt(s, s3, c) || c in {HNext(n), NextOrderId(p.wId, p.dId), Order(p.wId, p.dId, o), NewOrders(p.wId, p.dId)};
      assert SameAt(s3, s5, c) && (c == Lines(p.wId, p.dId, o) || SameAt(s5, t, c));
    }
    assert SameAt(s5, t, HNext(n)) && SameAt(s5, t, NextOrderId(p.wId, p.dId)) && SameAt(s5, t, NewOrders(p.wId, p.dId));
    assert SameAt(s5, t, Order(p.wId, p.dId, o));
    assert OfDistrict(NextOrderId(p.wId, p.dId), p.wId, p.dId) && OfDistrict(NewOrders(p.wId, p.dId), p.wId, p.dId);
    assert OfDistrict(Order(p.wId, p.dId, o), p.wId, p.dId);
  }

  // ---- Consistency after the transaction ----

  lemma EnteredDistrict(k: Scale, n: nat, p: NewOrderParam, s: Store, t: Store, o: int)
    requires DistrictInv(k, s, p.wId, p.dId) && ValidNewOrder(k, p) && EnteredTo(s, t, n, p, o)
    ensures DistrictInv(k, t, p.wId, p.dId)
  {
    var w, d := p.wId, p.dId;
    assert OfDistrict(Oldest(w, d), w, d);
    assert NextOf(t, w, d) == o + 1 && OldestOf(t, w, d) == OldestOf(s, w, d);
    assert QueueInv(t, w, d);
    forall o' | o' != o ensures SameAt(s, t, Order(w, d, o')) && SameAt(s, t, Lines(w, d, o')) {
      assert OfDistrict(Order(w, d, o'), w, d) && OfDistrict(Lines(w, d, o'), w, d);
    }
    forall o' | 1 <= o' < NextOf(t, w, d) ensures OrderInv(k, t, w, d, o') {
      if o' != o { assert OrderInv(k, s, w, d, o'); }
    }
    assert OrdersInv(k, t, w, d) by {
      forall o' | Order(w, d, o') in t || Lines(w, d, o') in t ensures 1 <= o' < NextOf(t, w, d) {
        if o' != o { assert Order(w, d, o') in s || Lines(w, d, o') in s; }
      }
    }
    forall c | 1 <= c <= k.customers ensures CustomerInv(t, w, d, c) {
      assert CustomerInv(s, w, d, c) && OfDistrict(Customer(w, d, c), w, d);
      DeliveredTotalFrame(s, t, w, d, c, o);
    }
  }

  lemma EnterConsistent(k: Scale, h: Store, n: nat, p: NewOrderParam, s: Store) returns (t: Store)
    requires Consistent(k, s) && ValidTxn(k, NewOrder(p))
    requires HNext(n) in h && h[HNext(n)] == Num(NextOf(s, p.wId, p.dId))
    ensures t == After(NewOrderSteps(n, p), s) && Tame(Sys(h), NewOrderSteps(n, p), s) && Consistent(k, t)
    ensures HNext(n) in t && t[HNext(n)] == Num(NextOf(s, p.wId, p.dId)) && NextOf(t, p.wId, p.dId) == NextOf(s, p.wId, p.dId) + 1
  {
    assert DistrictInv(k, s, p.wId, p.dId);
    var o;
    t, o := EnterAll(k, h, n, p, s);
    forall w, d | InScale(k, w, d) ensures DistrictInv(k, t, w, d) {
      assert DistrictInv(k, s, w, d);
      if w != p.wId || d != p.dId {
        forall c | OfDistrict(c, w, d) ensures SameAt(s, t, c) {}
        DistrictFrame(k, s, t, w, d);
      } else {
        EnteredDistrict(k, n, p, s, t, o);
      }
    }
  }
}
