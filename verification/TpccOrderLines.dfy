/** What a New-Order leaves behind, told from the database it found: the order's lines with
    their prices and district strings, and the stock that it took. */
module TpccOrderLines {
  import opened Replay
  import opened TpccModel
  import opened TpccFootprint
  import opened TpccInvariant
  import opened TpccNewOrder

  function PriceOf(s: Store, i: int): int { NumOr(s, Item(i), 0) }

  function DistOf(s: Store, w: int, i: int, d: int): string {
    if IsStock(s, Stock(w, i)) && 1 <= d <= |s[Stock(w, i)].stock.dists| then s[Stock(w, i)].stock.dists[d - 1] else ""
  }

  /** The line l of an order, priced from the item table and stamped with the stock row's
      string for the district. */
  function LineFor(p: NewOrderParam, l: nat, s: Store): Line
    requires l < |p.iIds| == |p.iWIds| == |p.iQtys|
  {
    Line(l + 1, p.iIds[l], p.iWIds[l], p.oEntryD, p.iQtys[l], p.iQtys[l] * PriceOf(s, p.iIds[l]),
         DistOf(s, p.iWIds[l], p.iIds[l], p.dId))
  }

  /** s and t agree on prices and on the strings of stock rows. */
  ghost predicate SameCatalogue(k: Scale, s: Store, t: Store, d: int) {
    && (forall i | 1 <= i <= k.items :: PriceOf(s, i) == PriceOf(t, i))
    && (forall w, i | 1 <= w <= k.warehouses && 1 <= i <= k.items :: DistOf(s, w, i, d) == DistOf(t, w, i, d))
  }

  lemma StepKeepsCatalogue(k: Scale, n: nat, p: NewOrderParam, l: nat, s: Store)
    requires Rows(k, s) && ValidNewOrder(k, p) && l < |p.iIds|
    ensures SameCatalogue(k, s, s + Effect(NewOrder4(n, p, l), s), p.dId)
    ensures TextAt(s + Effect(NewOrder4(n, p, l), s), HDist(n, l)) == DistOf(s, p.iWIds[l], p.iIds[l], p.dId)
  {
    assert StockOk(s, p.iWIds[l], p.iIds[l]);
  }

  lemma AfterFirst(op: Step, rest: seq<Step>, s: Store)
    ensures After([op] + rest, s) == After(rest, s + Effect(op, s))
  {
    assert ([op] + rest)[1..] == rest;
  }

  /** From item l on, t holds the district texts of the catalogue of s. */
  ghost predicate TextsHanded(s: Store, t: Store, n: nat, p: NewOrderParam, l: nat)
    requires |p.iIds| == |p.iWIds|
  {
    forall j: nat | l <= j < |p.iIds| :: TextAt(t, HDist(n, j)) == DistOf(s, p.iWIds[j], p.iIds[j], p.dId)
  }

  lemma StockLeavesText(n: nat, p: NewOrderParam, l: nat, s: Store)
    ensures SameAt(s, After(StockSteps(n, p, l + 1), s), HDist(n, l))
  {
    StockStepsListed(n, p, l + 1);
    AfterFrame(StockSteps(n, p, l + 1), s, HDist(n, l));
  }

  lemma OneMoreText(k: Scale, n: nat, p: NewOrderParam, l: nat, s: Store, t: Store, u: Store)
    requires ValidNewOrder(k, p) && l < |p.iIds|
    requires SameCatalogue(k, s, t, p.dId) && TextAt(t, HDist(n, l)) == DistOf(s, p.iWIds[l], p.iIds[l], p.dId)
    requires SameCatalogue(k, t, u, p.dId) && TextsHanded(t, u, n, p, l + 1) && SameAt(t, u, HDist(n, l))
    ensures SameCatalogue(k, s, u, p.dId) && TextsHanded(s, u, n, p, l)
  {
  }

  lemma {:induction false} StockHands(k: Scale, n: nat, p: NewOrderParam, l: nat, s: Store)
    requires Rows(k, s) && ValidNewOrder(k, p) && l <= |p.iIds|
    ensures SameCatalogue(k, s, After(StockSteps(n, p, l), s), p.dId) && TextsHanded(s, After(StockSteps(n, p, l), s), n, p, l)
    decreases |p.iIds| - l
  {
    if l < |p.iIds| {
      var t, rest := s + Effect(NewOrder4(n, p, l), s), StockSteps(n, p, l + 1);
      StepKeepsCatalogue(k, n, p, l, s);
      StockOne(k, n, p, l, s);
      StockHands(k, n, p, l + 1, t);
      StockLeavesText(n, p, l, t);
      OneMoreText(k, n, p, l, s, t, After(rest, t));
      AfterFirst(NewOrder4(n, p, l), rest, s);
    }
  }

  /** From item l on, t holds the amounts by the prices of s. */
  ghost predicate AmountsHanded(s: Store, t: Store, n: nat, p: NewOrderParam, l: nat)
    requires |p.iIds| == |p.iQtys|
  {
    forall j: nat | l <= j < |p.iIds| :: NumOr(t, HAmount(n, j), 0) == p.iQtys[j] * PriceOf(s, p.iIds[j])
  }

  lemma PriceLeavesAmount(n: nat, p: NewOrderParam, l: nat, s: Store)
    ensures SameAt(s, After(PriceSteps(n, p, l + 1), s), HAmount(n, l))
  {
    PriceStepsListed(n, p, l + 1);
    AfterFrame(PriceSteps(n, p, l + 1), s, HAmount(n, l));
  }

  lemma OneMoreAmount(n: nat, p: NewOrderParam, l: nat, s: Store, t: Store, u: Store)
    requires l < |p.iIds| == |p.iQtys| && forall i :: PriceOf(t, i) == PriceOf(s, i)
    requires NumOr(t, HAmount(n, l), 0) == p.iQtys[l] * PriceOf(s, p.iIds[l])
    requires AmountsHanded(t, u, n, p, l + 1) && SameAt(t, u, HAmount(n, l))
    ensures AmountsHanded(s, u, n, p, l)
  {
    forall j: nat | l <= j < |p.iIds| ensures NumOr(u, HAmount(n, j), 0) == p.iQtys[j] * PriceOf(s, p.iIds[j]) {
      assert j > l ==> NumOr(u, HAmount(n, j), 0) == p.iQtys[j] * PriceOf(t, p.iIds[j]);
    }
  }

  lemma {:induction false} PriceHands(k: Scale, n: nat, p: NewOrderParam, l: nat, s: Store)
    requires Rows(k, s) && ValidNewOrder(k, p) && l <= |p.iIds|
    ensures AmountsHanded(s, After(PriceSteps(n, p, l), s), n, p, l)
    decreases |p.iIds| - l
  {
    if l < |p.iIds| {
      var t, rest := s + Effect(NewOrder5(n, p, l), s), PriceSteps(n, p, l + 1);
      RowsFrame(k, s, t);
      PriceHands(k, n, p, l + 1, t);
      PriceLeavesAmount(n, p, l, t);
      OneMoreAmount(n, p, l, s, t, After(rest, t));
      AfterFirst(NewOrder5(n, p, l), rest, s);
    }
  }

  lemma PriceLeavesText(n: nat, p: NewOrderParam, s: Store, l: nat)
    ensures SameAt(s, After(PriceSteps(n, p, 0), s), HDist(n, l))
  {
    PriceStepsListed(n, p, 0);
    AfterFrame(PriceSteps(n, p, 0), s, HDist(n, l));
  }

  /** After the two item loops every line can be read off the store before them. */
  lemma LoopsHand(k: Scale, n: nat, p: NewOrderParam, s: Store, l: nat)
    requires Rows(k, s) && ValidNewOrder(k, p) && l < |p.iIds|
    ensures NewLine(n, p, l, After(PriceSteps(n, p, 0), After(StockSteps(n, p, 0), s))) == LineFor(p, l, s)
  {
    var s4 := After(StockSteps(n, p, 0), s);
    StockHands(k, n, p, 0, s);
    StockLoop(k, s, n, p, 0, s);
    PriceHands(k, n, p, 0, s4);
    PriceLeavesText(n, p, s4, l);
    assert PriceOf(s4, p.iIds[l]) == PriceOf(s, p.iIds[l]);
  }

  // ---- Stock taken ----

  /** What lines l and up of an order take from one stock row. */
  function Ordered(p: NewOrderParam, l: nat, w: int, i: int): int
    requires |p.iIds| == |p.iWIds| == |p.iQtys|
    decreases |p.iIds| - l
  {
    if l >= |p.iIds| then 0 else (if p.iWIds[l] == w && p.iIds[l] == i then p.iQtys[l] else 0) + Ordered(p, l + 1, w, i)
  }

  /** How many of the lines l and up of an order name one stock row. */
  function Naming(p: NewOrderParam, l: nat, w: int, i: int): int
    requires |p.iIds| == |p.iWIds|
    decreases |p.iIds| - l
  {
    if l >= |p.iIds| then 0 else (if p.iWIds[l] == w && p.iIds[l] == i then 1 else 0) + Naming(p, l + 1, w, i)
  }

  function StockAt(s: Store, w: int, i: int): StockRow {
    if IsStock(s, Stock(w, i)) then s[Stock(w, i)].stock else StockRow(0, [], 0, 0, 0)
  }

  /** What lines l and up of an order do to the stock row of item i in warehouse w: s_ytd grows
      by the quantities ordered, s_order_cnt by the number of lines, and s_remote_cnt by that
      number too if the order comes from another warehouse.  A row that no line names stays. */
  ghost predicate Supplied(p: NewOrderParam, l: nat, w: int, i: int, row: StockRow, row': StockRow)
    requires |p.iIds| == |p.iWIds| == |p.iQtys|
  {
    && row'.ytd == row.ytd + Ordered(p, l, w, i)
    && row'.orderCnt == row.orderCnt + Naming(p, l, w, i)
    && row'.remoteCnt == row.remoteCnt + (if w != p.wId then Naming(p, l, w, i) else 0)
    && row'.dists == row.dists
    && (Naming(p, l, w, i) == 0 ==> row' == row)
  }

  lemma SuppliesOne(k: Scale, n: nat, p: NewOrderParam, l: nat, s: Store, w: int, i: int)
    requires Rows(k, s) && ValidNewOrder(k, p) && l < |p.iIds|
    ensures
      var row, row' := StockAt(s, w, i), StockAt(s + Effect(NewOrder4(n, p, l), s), w, i);
      if p.iWIds[l] != w || p.iIds[l] != i then row' == row
      else
        && row'.ytd == row.ytd + p.iQtys[l] && row'.orderCnt == row.orderCnt + 1 && row'.dists == row.dists
        && row'.remoteCnt == row.remoteCnt + if w != p.wId then 1 else 0
  {
    assert StockOk(s, p.iWIds[l], p.iIds[l]);
  }

  lemma {:induction false} NamingIsCount(p: NewOrderParam, l: nat, w: int, i: int)
    requires |p.iIds| == |p.iWIds|
    ensures Naming(p, l, w, i) >= 0
    decreases |p.iIds| - l
  {
    if l < |p.iIds| { NamingIsCount(p, l + 1, w, i); }
  }

  /** Each stock row changes by exactly what the order takes from it, however often the order
      names the row. */
  lemma {:induction false} StockTaken(k: Scale, n: nat, p: NewOrderParam, l: nat, s: Store, w: int, i: int)
    requires Rows(k, s) && ValidNewOrder(k, p) && l <= |p.iIds|
    ensures Supplied(p, l, w, i, StockAt(s, w, i), StockAt(After(StockSteps(n, p, l), s), w, i))
    decreases |p.iIds| - l
  {
    if l < |p.iIds| {
      SuppliesOne(k, n, p, l, s, w, i);
      StockOne(k, n, p, l, s);
      StockTaken(k, n, p, l + 1, s + Effect(NewOrder4(n, p, l), s), w, i);
      AfterFirst(NewOrder4(n, p, l), StockSteps(n, p, l + 1), s);
      NamingIsCount(p, l + 1, w, i);
    }
  }

  // ---- The whole transaction ----

  lemma SplitRun(n: nat, p: NewOrderParam, s: Store)
    ensures
      var s3 := After([NewOrder1(n, p), NewOrder2(n, p), NewOrder3(n, p)], s);
      var s5 := After(PriceSteps(n, p, 0), After(StockSteps(n, p, 0), s3));
      After(NewOrderSteps(n, p), s) == s5 + Effect(NewOrder6(n, p), s5)
  {
    var head, stock, price, last :=
      [NewOrder1(n, p), NewOrder2(n, p), NewOrder3(n, p)], StockSteps(n, p, 0), PriceSteps(n, p, 0), [NewOrder6(n, p)];
    AfterAppend(head, stock, s);
    AfterAppend(head + stock, price, s);
    AfterAppend(head + stock + price, last, s);
    var s5 := After(price, After(stock, After(head, s)));
    assert After(last, s5) == After([], s5 + Effect(NewOrder6(n, p), s5));
  }

  function LinesFor(p: NewOrderParam, s: Store): seq<Line>
    requires |p.iIds| == |p.iWIds| == |p.iQtys|
  {
    seq(|p.iIds|, l requires 0 <= l < |p.iIds| => LineFor(p, l, s))
  }

  /** Every line is supplied by the warehouse that takes the order. */
  predicate AllLocal(p: NewOrderParam) { forall l | 0 <= l < |p.iWIds| :: p.iWIds[l] == p.wId }

  /** From s to t a New-Order has taken id o and left its order and queue rows, and it has
      written nothing else but its lines, stock rows and values handed over. */
  ghost predicate EntryLeft(p: NewOrderParam, s: Store, t: Store, o: int) {
    && Order(p.wId, p.dId, o) in t
    && t[Order(p.wId, p.dId, o)] == OrderV(OrderRow(p.cId, p.oEntryD, NULL_CARRIER_ID, |p.iIds|, AllLocal(p)))
    && NextOrderId(p.wId, p.dId) in t && t[NextOrderId(p.wId, p.dId)] == Num(o + 1)
    && IdsAt(t, NewOrders(p.wId, p.dId)) == IdsAt(s, NewOrders(p.wId, p.dId)) + {o}
    && forall c: Cell | !c.Stock? && !IsHandover(c) && c !in EnteredCells(p, o) :: SameAt(s, t, c)
  }

  /** WHAT AN ORDER IS.  The transaction takes the id that the district offered, enters under
      it one order row, one waiting order and exactly the lines that its parameters, the item
      prices and the stock strings determine; it takes from each stock row exactly what its
      lines order, and it changes no other row. */
  lemma NewOrderLeaves(k: Scale, n: nat, p: NewOrderParam, s: Store)
    requires Consistent(k, s) && ValidTxn(k, NewOrder(p))
    ensures
      var t, o := After(NewOrderSteps(n, p), s), NextOf(s, p.wId, p.dId);
      && EntryLeft(p, s, t, o)
      && Lines(p.wId, p.dId, o) in t && t[Lines(p.wId, p.dId, o)] == LinesV(LinesFor(p, s))
      && forall w, i :: Supplied(p, 0, w, i, StockAt(s, w, i), StockAt(t, w, i))
  {
    var s5, o := BeforeLast(k, n, p, s);
    LastLeaves(n, p, s5, o, LinesFor(p, s));
    EntryStays(p, s, s5, s5 + Effect(NewOrder6(n, p), s5), o);
    SupplyStays(p, s, s5, s5 + Effect(NewOrder6(n, p), s5));
  }

  lemma EntryStays(p: NewOrderParam, s: Store, mid: Store, t: Store, o: int)
    requires EntryLeft(p, s, mid, o)
    requires forall c: Cell | !c.Stock? && !IsHandover(c) && c != Lines(p.wId, p.dId, o) :: SameAt(mid, t, c)
    ensures EntryLeft(p, s, t, o)
  {
    assert SameAt(mid, t, Order(p.wId, p.dId, o)) && SameAt(mid, t, NextOrderId(p.wId, p.dId)) && SameAt(mid, t, NewOrders(p.wId, p.dId));
    forall c: Cell | !c.Stock? && !IsHandover(c) && c !in EnteredCells(p, o) ensures SameAt(s, t, c) {
      assert c != Lines(p.wId, p.dId, o);
      assert SameAt(s, mid, c) && SameAt(mid, t, c);
    }
  }

  lemma SupplyStays(p: NewOrderParam, s: Store, mid: Store, t: Store)
    requires |p.iIds| == |p.iWIds| == |p.iQtys| && forall w, i :: SameAt(mid, t, Stock(w, i))
    requires forall w, i :: Supplied(p, 0, w, i, StockAt(s, w, i), StockAt(mid, w, i))
    ensures forall w, i :: Supplied(p, 0, w, i, StockAt(s, w, i), StockAt(t, w, i))
  {
    forall w, i ensures StockAt(t, w, i) == StockAt(mid, w, i) { assert SameAt(mid, t, Stock(w, i)); }
  }

  /** The store before the last step. */
  lemma BeforeLast(k: Scale, n: nat, p: NewOrderParam, s: Store) returns (s5: Store, o: int)
    requires Consistent(k, s) && ValidTxn(k, NewOrder(p))
    ensures o == NextOf(s, p.wId, p.dId) && HNext(n) in s5 && s5[HNext(n)] == Num(o)
    ensures After(NewOrderSteps(n, p), s) == s5 + Effect(NewOrder6(n, p), s5)
    ensures forall l: nat | l < |p.iIds| :: NewLine(n, p, l, s5) == LineFor(p, l, s)
    ensures EntryLeft(p, s, s5, o) && Lines(p.wId, p.dId, o) !in s5
    ensures forall w, i :: Supplied(p, 0, w, i, StockAt(s, w, i), StockAt(s5, w, i))
  {
    assert DistrictInv(k, s, p.wId, p.dId);
    var s3;
    s3, o := Opens(k, map[HNext(n) := Num(NextOf(s, p.wId, p.dId))], n, p, s);
    s5 := After(PriceSteps(n, p, 0), After(StockSteps(n, p, 0), s3));
    SplitRun(n, p, s);
    OpensLeave(p, n, s, s3, o);
    assert Lines(p.wId, p.dId, o) !in s;
    LoopsLeave(k, n, p, s3, o);
    LoopsLeaveEntry(k, n, p, s, s3, o);
    forall l: nat | l < |p.iIds| ensures NewLine(n, p, l, s5) == LineFor(p, l, s) {
      assert LineFor(p, l, s3) == LinesFor(p, s3)[l] == LinesFor(p, s)[l];
    }
    forall w, i ensures Supplied(p, 0, w, i, StockAt(s, w, i), StockAt(s5, w, i)) {
      LoopsTake(k, n, p, s3, w, i);
    }
  }

  lemma LoopsTake(k: Scale, n: nat, p: NewOrderParam, s: Store, w: int, i: int)
    requires Rows(k, s) && ValidNewOrder(k, p)
    ensures Supplied(p, 0, w, i, StockAt(s, w, i), StockAt(After(PriceSteps(n, p, 0), After(StockSteps(n, p, 0), s)), w, i))
  {
    var s4 := After(StockSteps(n, p, 0), s);
    StockTaken(k, n, p, 0, s, w, i);
    PriceStepsListed(n, p, 0);
    AfterFrame(PriceSteps(n, p, 0), s4, Stock(w, i));
    assert SameAt(s4, After(PriceSteps(n, p, 0), s4), Stock(w, i));
  }

  lemma LocalLines(p: NewOrderParam)
    ensures AllLocal(p) <==> forall w | w in p.iWIds :: w == p.wId
  {
    if forall w | w in p.iWIds :: w == p.wId {
      forall l | 0 <= l < |p.iWIds| ensures p.iWIds[l] == p.wId { assert p.iWIds[l] in p.iWIds; }
    }
  }

  /** Steps 1 to 3 leave prices, strings and stock alone. */
  lemma OpensLeave(p: NewOrderParam, n: nat, s: Store, t: Store, o: int)
    requires OpenedTo(s, t, n, p, o) && |p.iIds| == |p.iWIds| == |p.iQtys|
    ensures LinesFor(p, t) == LinesFor(p, s) && forall w, i :: StockAt(t, w, i) == StockAt(s, w, i)
    ensures EntryLeft(p, s, t, o) && SameAt(s, t, Lines(p.wId, p.dId, o))
  {
    forall w, i ensures SameAt(s, t, Item(i)) && SameAt(s, t, Stock(w, i)) {}
    LocalLines(p);
  }

  /** The item loops write nothing but stock rows and values handed over. */
  lemma LoopsLeaveEntry(k: Scale, n: nat, p: NewOrderParam, s: Store, s3: Store, o: int)
    requires Rows(k, s3) && ValidNewOrder(k, p) && EntryLeft(p, s, s3, o)
    ensures EntryLeft(p, s, After(PriceSteps(n, p, 0), After(StockSteps(n, p, 0), s3)), o)
  {
    var s5 := After(PriceSteps(n, p, 0), After(StockSteps(n, p, 0), s3));
    StockLoop(k, s3, n, p, 0, s3);
    PriceLoop(k, s3, n, p, 0, After(StockSteps(n, p, 0), s3));
    forall c: Cell | !c.Stock? && !IsHandover(c) ensures SameAt(s3, s5, c) {
      if !c.Fault? { LoopsLeaveCell(n, p, s3, c); }
    }
    EntryStays(p, s, s3, s5, o);
  }

  lemma LoopsLeaveCell(n: nat, p: NewOrderParam, s: Store, c: Cell)
    requires !c.Stock? && !IsHandover(c) && !c.Fault?
    ensures SameAt(s, After(PriceSteps(n, p, 0), After(StockSteps(n, p, 0), s)), c)
  {
    StockStepsListed(n, p, 0);
    PriceStepsListed(n, p, 0);
    var s4 := After(StockSteps(n, p, 0), s);
    AfterFrame(StockSteps(n, p, 0), s, c);
    AfterFrame(PriceSteps(n, p, 0), s4, c);
    assert SameAt(s, s4, c) && SameAt(s4, After(PriceSteps(n, p, 0), s4), c);
  }

  lemma LoopsLeave(k: Scale, n: nat, p: NewOrderParam, s: Store, o: int)
    requires Rows(k, s) && ValidNewOrder(k, p)
    requires HNext(n) in s && s[HNext(n)] == Num(o)
    ensures
      var t := After(PriceSteps(n, p, 0), After(StockSteps(n, p, 0), s));
      && (forall l: nat | l < |p.iIds| :: NewLine(n, p, l, t) == LineFor(p, l, s))
      && HNext(n) in t && t[HNext(n)] == Num(o) && SameAt(s, t, Lines(p.wId, p.dId, o))
  {
    forall l: nat | l < |p.iIds|
      ensures NewLine(n, p, l, After(PriceSteps(n, p, 0), After(StockSteps(n, p, 0), s))) == LineFor(p, l, s)
    {
      LoopsHand(k, n, p, s, l);
    }
    assert OfDistrict(Lines(p.wId, p.dId, o), p.wId, p.dId);
    ItemLoopsFrame(n, p, s, HNext(n));
    ItemLoopsFrame(n, p, s, Lines(p.wId, p.dId, o));
  }

  lemma LastLeaves(n: nat, p: NewOrderParam, s: Store, o: int, lines: seq<Line>)
    requires |p.iIds| == |p.iWIds| == |p.iQtys| == |lines|
    requires forall l: nat | l < |lines| :: NewLine(n, p, l, s) == lines[l]
    requires HNext(n) in s && s[HNext(n)] == Num(o) && Lines(p.wId, p.dId, o) !in s
    ensures
      var t := s + Effect(NewOrder6(n, p), s);
      && Lines(p.wId, p.dId, o) in t && t[Lines(p.wId, p.dId, o)] == LinesV(lines)
      && forall c | c != Lines(p.wId, p.dId, o) :: SameAt(s, t, c)
  {
    assert seq(|p.iIds|, l requires 0 <= l < |p.iIds| => NewLine(n, p, l, s)) == lines;
  }
}
