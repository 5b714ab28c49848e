/** Footprints of the TPC-C steps, and the serial run as a sequence of steps. */
module TpccFootprint {
  import opened Replay
  import opened TpccModel

  /** The store after a sequence of steps. */
  function After(ops: seq<Step>, s: Store): Store {
    if ops == [] then s else After(ops[1..], s + Effect(ops[0], s))
  }

  lemma {:induction false} AfterAppend(p: seq<Step>, q: seq<Step>, s: Store)
    ensures After(p + q, s) == After(q, After(p, s))
  {
    if p == [] {
      assert p + q == q;
    } else {
      assert (p + q)[1..] == p[1..] + q;
      AfterAppend(p[1..], q, s + Effect(p[0], s));
    }
  }

  // ---- Steps in serial order ----

  lemma SortedAppend(p: seq<Step>, q: seq<Step>)
    requires Sorted(p, Before) && Sorted(q, Before)
    requires forall a, b | a in p && b in q :: Before(a, b)
    ensures Sorted(p + q, Before)
  {
  }

  lemma InEither<T>(p: seq<T>, q: seq<T>)
    ensures forall x :: x in p + q <==> x in p || x in q
  {
  }

  lemma DistrictStepsListed(n: nat, p: DeliveryParam, d: nat)
    requires 1 <= d <= DISTRICTS_PER_WAREHOUSE
    ensures Sorted(DistrictSteps(n, p, d), Before)
    ensures forall op :: op in DistrictSteps(n, p, d) <==> StepOf(op, n, Delivery(p)) && op.d == d
  {
    var ops := DistrictSteps(n, p, d);
    forall op ensures op in ops <==> StepOf(op, n, Delivery(p)) && op.d == d {
      assert op in ops <==> op == ops[0] || op == ops[1] || op == ops[2] || op == ops[3];
    }
  }

  /** The steps of districts d and up of a delivery, in order. */
  ghost predicate ListsDistricts(n: nat, p: DeliveryParam, d: nat, ops: seq<Step>) {
    Sorted(ops, Before) && forall op :: op in ops <==> StepOf(op, n, Delivery(p)) && op.d >= d
  }

  lemma OneMoreDistrict(n: nat, p: DeliveryParam, d: nat, next: nat, first: seq<Step>, rest: seq<Step>, all: seq<Step>)
    requires next == d + 1 && all == first + rest
    requires Sorted(first, Before) && forall op :: op in first <==> StepOf(op, n, Delivery(p)) && op.d == d
    requires ListsDistricts(n, p, next, rest)
    ensures ListsDistricts(n, p, d, all)
  {
    SortedAppend(first, rest);
    InEither(first, rest);
  }

  lemma {:induction false} DistrictsListed(n: nat, p: DeliveryParam, d: nat, ops: seq<Step>)
    requires 1 <= d && ops == DeliverySteps(n, p, d)
    ensures ListsDistricts(n, p, d, ops)
    decreases DISTRICTS_PER_WAREHOUSE - d
  {
    if d <= DISTRICTS_PER_WAREHOUSE {
      var first, rest := DistrictSteps(n, p, d), DeliverySteps(n, p, d + 1);
      DistrictStepsListed(n, p, d);
      DistrictsListed(n, p, d + 1, rest);
      OneMoreDistrict(n, p, d, d + 1, first, rest, ops);
    }
  }

  lemma DeliveryStepsListed(n: nat, p: DeliveryParam, d: nat)
    requires 1 <= d
    ensures Sorted(DeliverySteps(n, p, d), Before)
    ensures forall op :: op in DeliverySteps(n, p, d) <==> StepOf(op, n, Delivery(p)) && op.d >= d
  {
    DistrictsListed(n, p, d, DeliverySteps(n, p, d));
  }

  lemma {:induction false} StockStepsListed(n: nat, p: NewOrderParam, l: nat)
    ensures Sorted(StockSteps(n, p, l), Before)
    ensures forall op :: op in StockSteps(n, p, l) <==> StepOf(op, n, NewOrder(p)) && op.NewOrder4? && op.l >= l
    decreases |p.iIds| - l
  {
    if l < |p.iIds| {
      StockStepsListed(n, p, l + 1);
      SortedAppend([NewOrder4(n, p, l)], StockSteps(n, p, l + 1));
    }
  }

  lemma {:induction false} PriceStepsListed(n: nat, p: NewOrderParam, l: nat)
    ensures Sorted(PriceSteps(n, p, l), Before)
    ensures forall op :: op in PriceSteps(n, p, l) <==> StepOf(op, n, NewOrder(p)) && op.NewOrder5? && op.l >= l
    decreases |p.iIds| - l
  {
    if l < |p.iIds| {
      PriceStepsListed(n, p, l + 1);
      SortedAppend([NewOrder5(n, p, l)], PriceSteps(n, p, l + 1));
    }
  }

  lemma NewOrderStepsListed(n: nat, p: NewOrderParam)
    ensures Sorted(NewOrderSteps(n, p), Before)
    ensures forall op :: op in NewOrderSteps(n, p) <==> StepOf(op, n, NewOrder(p))
  {
    var head, stock, price, last :=
      [NewOrder1(n, p), NewOrder2(n, p), NewOrder3(n, p)], StockSteps(n, p, 0), PriceSteps(n, p, 0), [NewOrder6(n, p)];
    StockStepsListed(n, p, 0);
    PriceStepsListed(n, p, 0);
    assert forall op :: op in head <==> op == head[0] || op == head[1] || op == head[2];
    FourListed(n, p, head, stock, price, last);
  }

  lemma FourListed(n: nat, p: NewOrderParam, head: seq<Step>, stock: seq<Step>, price: seq<Step>, last: seq<Step>)
    requires Sorted(head, Before) && forall op :: op in head <==> StepOf(op, n, NewOrder(p)) && (op.NewOrder1? || op.NewOrder2? || op.NewOrder3?)
    requires Sorted(stock, Before) && forall op :: op in stock <==> StepOf(op, n, NewOrder(p)) && op.NewOrder4?
    requires Sorted(price, Before) && forall op :: op in price <==> StepOf(op, n, NewOrder(p)) && op.NewOrder5?
    requires Sorted(last, Before) && forall op :: op in last <==> StepOf(op, n, NewOrder(p)) && op.NewOrder6?
    ensures Sorted(head + stock + price + last, Before)
    ensures forall op :: op in head + stock + price + last <==> StepOf(op, n, NewOrder(p))
  {
    InEither(head, stock);
    InEither(head + stock, price);
    InEither(head + stock + price, last);
    SortedAppend(head, stock);
    SortedAppend(head + stock, price);
    SortedAppend(head + stock + price, last);
  }

  lemma TxnStepsListed(n: nat, txn: Txn)
    ensures Sorted(TxnSteps(n, txn), Before)
    ensures forall op :: op in TxnSteps(n, txn) <==> StepOf(op, n, txn)
  {
    match txn
    case Delivery(p) => DeliveryStepsListed(n, p, 1);
    case NewOrder(p) => NewOrderStepsListed(n, p);
    case Payment(p) =>
      var ops := PaymentSteps(n, p);
      assert forall op :: op in ops <==> op == ops[0] || op == ops[1] || op == ops[2] || op == ops[3];
    case Other =>
  }

  /** The step list of a batch holds each sub-transaction of each of its transactions, in
      serial order. */
  lemma {:induction false} StepsListed(queue: seq<Txn>, lo: nat, hi: nat)
    requires lo <= hi <= |queue|
    ensures Sorted(Steps(queue, lo, hi), Before)
    ensures forall op :: op in Steps(queue, lo, hi) <==> lo <= op.n < hi && StepOf(op, op.n, queue[op.n])
    decreases hi - lo
  {
    if lo < hi {
      TxnStepsListed(lo, queue[lo]);
      StepsListed(queue, lo + 1, hi);
      OneMoreTxn(queue, lo, hi, TxnSteps(lo, queue[lo]), Steps(queue, lo + 1, hi));
    }
  }

  lemma OneMoreTxn(queue: seq<Txn>, lo: nat, hi: nat, first: seq<Step>, rest: seq<Step>)
    requires lo < hi <= |queue|
    requires Sorted(first, Before) && forall op :: op in first <==> StepOf(op, lo, queue[lo])
    requires Sorted(rest, Before) && forall op :: op in rest <==> lo + 1 <= op.n < hi && StepOf(op, op.n, queue[op.n])
    ensures Sorted(first + rest, Before) && forall op :: op in first + rest <==> lo <= op.n < hi && StepOf(op, op.n, queue[op.n])
  {
    SortedAppend(first, rest);
    InEither(first, rest);
  }

  // ---- Footprints ----
  // h is the store at the end of the serial run: it tells which order a delivery takes.

  function Touch(h: Store, op: Step): set<Cell> {
    match op
    case Delivery1(n, p, d) => {Oldest(p.wId, d), NewOrders(p.wId, d), HNoId(n, d)}
    case Delivery2(n, p, d) =>
      if Delivered(h, n, d) then {HNoId(n, d), Lines(p.wId, d, NumOr(h, HNoId(n, d), -1)), HSum(n, d)} else {HNoId(n, d)}
    case Delivery3(n, p, d) =>
      if Delivered(h, n, d) then {HNoId(n, d), Order(p.wId, d, NumOr(h, HNoId(n, d), -1)), HCust(n, d)} else {HNoId(n, d)}
    case Delivery4(n, p, d) =>
      if Delivered(h, n, d) then {HNoId(n, d), HSum(n, d), HCust(n, d), Customer(p.wId, d, NumOr(h, HCust(n, d), -1))}
      else {HNoId(n, d)}
    case NewOrder1(n, p) => {NextOrderId(p.wId, p.dId), HNext(n)}
    case NewOrder2(n, p) => {HNext(n), Order(p.wId, p.dId, NumOr(h, HNext(n), 0))}
    case NewOrder3(n, p) => {HNext(n), NewOrders(p.wId, p.dId)}
    case NewOrder4(n, p, l) => if l < |p.iIds| == |p.iWIds| then {Stock(p.iWIds[l], p.iIds[l]), HDist(n, l)} else {}
    case NewOrder5(n, p, l) => if l < |p.iIds| then {Item(p.iIds[l]), HAmount(n, l)} else {HAmount(n, l)}
    case NewOrder6(n, p) =>
      {HNext(n), Lines(p.wId, p.dId, NumOr(h, HNext(n), 0))}
      + (set l: nat | l < |p.iIds| :: HDist(n, l)) + (set l: nat | l < |p.iIds| :: HAmount(n, l))
    case Payment1(n, p) => {WarehouseYtd(p.wId)}
    case Payment2(n, p) => {DistrictYtd(p.wId, p.dId)}
    case Payment3(n, p) => {History}
    case Payment4(n, p) => {Customer(p.wId, p.dId, p.cId)}
  }

  function Write(h: Store, op: Step): set<Cell> {
    match op
    case Delivery1(n, p, d) => {Oldest(p.wId, d), NewOrders(p.wId, d), HNoId(n, d)}
    case Delivery2(n, p, d) => if Delivered(h, n, d) then {Lines(p.wId, d, NumOr(h, HNoId(n, d), -1)), HSum(n, d)} else {}
    case Delivery3(n, p, d) => if Delivered(h, n, d) then {Order(p.wId, d, NumOr(h, HNoId(n, d), -1)), HCust(n, d)} else {}
    case Delivery4(n, p, d) => if Delivered(h, n, d) then {Customer(p.wId, d, NumOr(h, HCust(n, d), -1))} else {}
    case NewOrder1(n, p) => {NextOrderId(p.wId, p.dId), HNext(n)}
    case NewOrder2(n, p) => {Order(p.wId, p.dId, NumOr(h, HNext(n), 0))}
    case NewOrder3(n, p) => {NewOrders(p.wId, p.dId)}
    case NewOrder4(n, p, l) => if l < |p.iIds| == |p.iWIds| then {Stock(p.iWIds[l], p.iIds[l]), HDist(n, l)} else {}
    case NewOrder5(n, p, l) => {HAmount(n, l)}
    case NewOrder6(n, p) => {Lines(p.wId, p.dId, NumOr(h, HNext(n), 0))}
    case Payment1(n, p) => {WarehouseYtd(p.wId)}
    case Payment2(n, p) => {DistrictYtd(p.wId, p.dId)}
    case Payment3(n, p) => {History}
    case Payment4(n, p) => {Customer(p.wId, p.dId, p.cId)}
  }

  function Sys(h: Store): System<Step, Cell, Value> {
    System(Effect, op => Touch(h, op), op => Write(h, op))
  }

  lemma {:induction false} AfterIsRun(h: Store, ops: seq<Step>, s: Store)
    ensures Run(Sys(h), ops, s) == After(ops, s)
  {
    if ops != [] {
      AfterIsRun(h, ops[1..], s + Effect(ops[0], s));
    }
  }

  /** The handed values that decide which rows a step touches are those of h. */
  ghost predicate Fed(h: Store, op: Step, s: Store) {
    match op
    case Delivery2(n, p, d) => SameAt(s, h, HNoId(n, d))
    case Delivery3(n, p, d) => SameAt(s, h, HNoId(n, d))
    case Delivery4(n, p, d) => SameAt(s, h, HNoId(n, d)) && SameAt(s, h, HCust(n, d))
    case NewOrder2(n, p) => SameAt(s, h, HNext(n))
    case NewOrder3(n, p) => SameAt(s, h, HNext(n))
    case NewOrder6(n, p) => SameAt(s, h, HNext(n))
    case _ => true
  }

  /** A step that fails no assertion and is fed as in h is local. */
  lemma StepLocal(h: Store, op: Step, s: Store)
    requires Fed(h, op, s) && Fault !in Effect(op, s)
    ensures LocalAt(Sys(h), op, s)
  {
    StepWrites(h, op, s);
    forall t | Agree(s, t, Touch(h, op)) ensures Effect(op, t) == Effect(op, s) {
      StepReads(h, op, s, t);
    }
  }

  lemma StepWrites(h: Store, op: Step, s: Store)
    requires Fed(h, op, s) && Fault !in Effect(op, s)
    ensures Effect(op, s).Keys <= Write(h, op)
  {
  }

  lemma StepReads(h: Store, op: Step, s: Store, t: Store)
    requires Fed(h, op, s) && Fault !in Effect(op, s)
    requires Agree(s, t, Touch(h, op))
    ensures Effect(op, t) == Effect(op, s)
  {
    var T := Touch(h, op);
    match op
    case Delivery1(n, p, d) => assert Oldest(p.wId, d) in T && NewOrders(p.wId, d) in T;
    case Delivery2(n, p, d) => DeliveryReads(h, op, s, t);
    case Delivery3(n, p, d) => DeliveryReads(h, op, s, t);
    case Delivery4(n, p, d) => DeliveryReads(h, op, s, t);
    case NewOrder1(n, p) => assert NextOrderId(p.wId, p.dId) in T;
    case NewOrder2(n, p) => assert HNext(n) in T && Order(p.wId, p.dId, NumOr(h, HNext(n), 0)) in T;
    case NewOrder3(n, p) => assert HNext(n) in T && NewOrders(p.wId, p.dId) in T;
    case NewOrder4(n, p, l) => assert Stock(p.iWIds[l], p.iIds[l]) in T;
    case NewOrder5(n, p, l) => assert Item(p.iIds[l]) in T;
    case NewOrder6(n, p) =>
      assert HNext(n) in T && Lines(p.wId, p.dId, NumOr(h, HNext(n), 0)) in T;
      forall l: nat | l < |p.iIds| ensures NewLine(n, p, l, s) == NewLine(n, p, l, t) {
        assert HDist(n, l) in T && HAmount(n, l) in T;
      }
      assert seq(|p.iIds|, l requires 0 <= l < |p.iIds| => NewLine(n, p, l, s))
          == seq(|p.iIds|, l requires 0 <= l < |p.iIds| => NewLine(n, p, l, t));
    case Payment1(n, p) => assert WarehouseYtd(p.wId) in T;
    case Payment2(n, p) => assert DistrictYtd(p.wId, p.dId) in T;
    case Payment3(n, p) => assert History in T;
    case Payment4(n, p) => assert Customer(p.wId, p.dId, p.cId) in T;
  }

  lemma DeliveryReads(h: Store, op: Step, s: Store, t: Store)
    requires op.Delivery2? || op.Delivery3? || op.Delivery4?
    requires Fed(h, op, s) && Fault !in Effect(op, s)
    requires Agree(s, t, Touch(h, op))
    ensures Effect(op, t) == Effect(op, s)
  {
    var T := Touch(h, op);
    assert HNoId(op.n, op.d) in T;
    if Delivered(h, op.n, op.d) {
      match op
      case Delivery2(n, p, d) => assert Lines(p.wId, d, NumOr(h, HNoId(n, d), -1)) in T;
      case Delivery3(n, p, d) => assert Order(p.wId, d, NumOr(h, HNoId(n, d), -1)) in T;
      case Delivery4(n, p, d) => assert HSum(n, d) in T && HCust(n, d) in T && Customer(p.wId, d, NumOr(h, HCust(n, d), -1)) in T;
    }
  }

  // ---- What a step can write at all ----

  predicate MayWrite(op: Step, c: Cell) {
    match c
    case Item(_) => false
    case Stock(w, i) => op.NewOrder4?
    case WarehouseYtd(w) => op.Payment1? && op.pp.wId == w
    case DistrictYtd(w, d) => op.Payment2? && op.pp.wId == w && op.pp.dId == d
    case NextOrderId(w, d) => op.NewOrder1? && op.np.wId == w && op.np.dId == d
    case Oldest(w, d) => op.Delivery1? && op.dp.wId == w && op.d == d
    case NewOrders(w, d) => (op.NewOrder3? && op.np.wId == w && op.np.dId == d) || (op.Delivery1? && op.dp.wId == w && op.d == d)
    case Order(w, d, _) => (op.NewOrder2? && op.np.wId == w && op.np.dId == d) || (op.Delivery3? && op.dp.wId == w && op.d == d)
    case Lines(w, d, _) => (op.NewOrder6? && op.np.wId == w && op.np.dId == d) || (op.Delivery2? && op.dp.wId == w && op.d == d)
    case Customer(w, d, _) => (op.Payment4? && op.pp.wId == w && op.pp.dId == d) || (op.Delivery4? && op.dp.wId == w && op.d == d)
    case History => op.Payment3?
    case Fault => true
    case HNext(n) => op.NewOrder1? && op.n == n
    case HDist(n, l) => op.NewOrder4? && op.n == n && op.l == l
    case HAmount(n, l) => op.NewOrder5? && op.n == n && op.l == l
    case HNoId(n, d) => op.Delivery1? && op.n == n && op.d == d
    case HCust(n, d) => op.Delivery3? && op.n == n && op.d == d
    case HSum(n, d) => op.Delivery2? && op.n == n && op.d == d
  }

  lemma EffectWithin(op: Step, s: Store, c: Cell)
    requires c in Effect(op, s)
    ensures MayWrite(op, c)
  {
  }

  lemma {:induction false} AfterFrame(ops: seq<Step>, s: Store, c: Cell)
    requires forall op | op in ops :: !MayWrite(op, c)
    ensures SameAt(s, After(ops, s), c)
  {
    if ops != [] {
      if c in Effect(ops[0], s) { EffectWithin(ops[0], s, c); }
      AfterFrame(ops[1..], s + Effect(ops[0], s), c);
    }
  }

  lemma TameJoin(h: Store, p: seq<Step>, q: seq<Step>, s: Store)
    requires Tame(Sys(h), p, s) && Tame(Sys(h), q, After(p, s))
    ensures Tame(Sys(h), p + q, s) && After(p + q, s) == After(q, After(p, s))
  {
    AfterIsRun(h, p, s);
    TameAppend(Sys(h), p, q, s);
    AfterAppend(p, q, s);
  }

  /** One more local step in front of a tame run. */
  lemma TameStep(h: Store, op: Step, rest: seq<Step>, s: Store)
    requires Fed(h, op, s) && Fault !in Effect(op, s) && Tame(Sys(h), rest, s + Effect(op, s))
    ensures Tame(Sys(h), [op] + rest, s) && After([op] + rest, s) == After(rest, s + Effect(op, s))
  {
    StepLocal(h, op, s);
    assert ([op] + rest)[1..] == rest;
  }
}
