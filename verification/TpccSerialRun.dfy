/** The serial run: every transaction keeps the database consistent, fails no assertion and
    runs within its footprint; and an order that a delivery takes is older than every order
    entered after it. */
module TpccSerialRun {
  import opened Replay
  import opened TpccModel
  import opened TpccFootprint
  import opened TpccInvariant
  import opened TpccDelivery
  import opened TpccNewOrder

  /** h and t hold the same values handed over by transaction n. */
  ghost predicate SameHandovers(h: Store, t: Store, n: nat) {
    SameAt(h, t, HNext(n)) && forall d :: SameAt(h, t, HNoId(n, d)) && SameAt(h, t, HCust(n, d))
  }

  ghost predicate TakenBelowNext(t: Store, n: nat, p: DeliveryParam, d: int) {
    HNoId(n, d) in t ==> t[HNoId(n, d)].Num? && 1 <= t[HNoId(n, d)].num < NextOf(t, p.wId, d)
  }

  // ---- One transaction ----

  /** What a delivery that serves districts d and up leaves behind. */
  ghost predicate DeliveredFrom(k: Scale, h: Store, n: nat, p: DeliveryParam, d: nat, s: Store, t: Store, ops: seq<Step>) {
    && Consistent(k, t)
    && (forall d' | d <= d' <= DISTRICTS_PER_WAREHOUSE :: TakenBelowNext(t, n, p, d'))
    && (SameHandovers(h, t, n) ==> Tame(Sys(h), ops, s))
  }

  lemma NothingHandedOn(n: nat, p: DeliveryParam, d: nat, s: Store)
    requires 1 <= d <= DISTRICTS_PER_WAREHOUSE
    requires forall d' | d <= d' <= DISTRICTS_PER_WAREHOUSE :: NothingHanded(s, n, d')
    ensures forall d' | d < d' <= DISTRICTS_PER_WAREHOUSE :: NothingHanded(After(DistrictSteps(n, p, d), s), n, d')
  {
    forall d' | d < d' <= DISTRICTS_PER_WAREHOUSE ensures NothingHanded(After(DistrictSteps(n, p, d), s), n, d') {
      assert NothingHanded(s, n, d');
      OtherDistrict(n, p, d, s, d');
    }
  }

  lemma OneMoreServed(
      k: Scale, h: Store, n: nat, p: DeliveryParam, d: nat, s: Store, s': Store, t: Store, first: seq<Step>, rest: seq<Step>, all: seq<Step>)
    requires all == first + rest && s' == After(first, s) && TakenBelowNext(s', n, p, d)
    requires SameAt(h, s', HNoId(n, d)) && SameAt(h, s', HCust(n, d)) ==> Tame(Sys(h), first, s)
    requires SameAt(s', t, HNoId(n, d)) && SameAt(s', t, HCust(n, d)) && SameAt(s', t, NextOrderId(p.wId, d))
    requires DeliveredFrom(k, h, n, p, d + 1, s', t, rest)
    ensures DeliveredFrom(k, h, n, p, d, s, t, all)
  {
    if SameHandovers(h, t, n) {
      assert SameAt(h, t, HNoId(n, d)) && SameAt(h, t, HCust(n, d));
      TameJoin(h, first, rest, s);
    }
  }

  lemma {:induction false} DeliverAll(k: Scale, h: Store, n: nat, p: DeliveryParam, d: nat, s: Store)
    requires Consistent(k, s) && ValidTxn(k, Delivery(p)) && 1 <= d
    requires forall d' | d <= d' <= DISTRICTS_PER_WAREHOUSE :: NothingHanded(s, n, d')
    ensures DeliveredFrom(k, h, n, p, d, s, After(DeliverySteps(n, p, d), s), DeliverySteps(n, p, d))
    decreases DISTRICTS_PER_WAREHOUSE - d
  {
    if d <= DISTRICTS_PER_WAREHOUSE {
      var first, rest, all := DistrictSteps(n, p, d), DeliverySteps(n, p, d + 1), DeliverySteps(n, p, d);
      ServeOne(k, h, n, p, d, s);
      var s' := After(first, s);
      NothingHandedOn(n, p, d, s);
      DeliverAll(k, h, n, p, d + 1, s');
      var t := After(rest, s');
      LaterDistricts(n, p, d, s');
      OneMoreServed(k, h, n, p, d, s, s', t, first, rest, all);
      assert After(all, s) == t by { AfterAppend(first, rest, s); }
    }
  }

  lemma OtherDistrict(n: nat, p: DeliveryParam, d: nat, s: Store, d': int)
    requires 1 <= d <= DISTRICTS_PER_WAREHOUSE && d' != d && NothingHanded(s, n, d')
    ensures NothingHanded(After(DistrictSteps(n, p, d), s), n, d')
  {
    DistrictStepsListed(n, p, d);
    AfterFrame(DistrictSteps(n, p, d), s, HNoId(n, d'));
    AfterFrame(DistrictSteps(n, p, d), s, HCust(n, d'));
  }

  lemma LaterDistrictsLeave(n: nat, p: DeliveryParam, d: nat, s: Store, c: Cell)
    requires 1 <= d && c in {HNoId(n, d), HCust(n, d), NextOrderId(p.wId, d)}
    ensures SameAt(s, After(DeliverySteps(n, p, d + 1), s), c)
  {
    DeliveryStepsListed(n, p, d + 1);
    AfterFrame(DeliverySteps(n, p, d + 1), s, c);
  }

  lemma LaterDistricts(n: nat, p: DeliveryParam, d: nat, s: Store)
    requires 1 <= d <= DISTRICTS_PER_WAREHOUSE
    ensures
      var t := After(DeliverySteps(n, p, d + 1), s);
      SameAt(s, t, HNoId(n, d)) && SameAt(s, t, HCust(n, d)) && SameAt(s, t, NextOrderId(p.wId, d))
  {
    LaterDistrictsLeave(n, p, d, s, HNoId(n, d));
    LaterDistrictsLeave(n, p, d, s, HCust(n, d));
    LaterDistrictsLeave(n, p, d, s, NextOrderId(p.wId, d));
  }

  // The four steps of a payment whose rows are there.

  function Paid(p: PaymentParam, s: Store, wYtd: int, dYtd: int, customer: CustomerRow): Store {
    s + map[WarehouseYtd(p.wId) := Num(wYtd + p.hAmount), DistrictYtd(p.wId, p.dId) := Num(dYtd + p.hAmount),
            History := HistoryV(HistoryAt(s) + [HistoryRow(p.cId, p.cDId, p.cWId, p.dId, p.wId, p.hDate, p.hAmount, p.hData)]),
            Customer(p.wId, p.dId, p.cId) :=
              CustomerV(CustomerRow(customer.balance - p.hAmount, customer.ytdPayment + p.hAmount, customer.paymentCnt + 1))]
  }

  predicate Payable(p: PaymentParam, s: Store, wYtd: int, dYtd: int, customer: CustomerRow) {
    && WarehouseYtd(p.wId) in s && s[WarehouseYtd(p.wId)] == Num(wYtd)
    && DistrictYtd(p.wId, p.dId) in s && s[DistrictYtd(p.wId, p.dId)] == Num(dYtd)
    && Customer(p.wId, p.dId, p.cId) in s && s[Customer(p.wId, p.dId, p.cId)] == CustomerV(customer)
  }

  /** Two payment steps on. */
  lemma PayHalf(n: nat, p: PaymentParam, s: Store, wYtd: int, dYtd: int, customer: CustomerRow)
    requires Payable(p, s, wYtd, dYtd, customer)
    ensures
      var s1 := s + Effect(Payment1(n, p), s);
      && Fault !in Effect(Payment1(n, p), s) && Fault !in Effect(Payment2(n, p), s1)
      && s1 + Effect(Payment2(n, p), s1)
         == s + map[WarehouseYtd(p.wId) := Num(wYtd + p.hAmount), DistrictYtd(p.wId, p.dId) := Num(dYtd + p.hAmount)]
  {
    var s1 := s + Effect(Payment1(n, p), s);
    assert Effect(Payment1(n, p), s) == map[WarehouseYtd(p.wId) := Num(wYtd + p.hAmount)];
    assert DistrictYtd(p.wId, p.dId) in s1 && s1[DistrictYtd(p.wId, p.dId)] == Num(dYtd);
  }

  lemma PayRest(n: nat, p: PaymentParam, s: Store, wYtd: int, dYtd: int, customer: CustomerRow)
    requires Payable(p, s, wYtd, dYtd, customer)
    ensures
      var s2 := s + map[WarehouseYtd(p.wId) := Num(wYtd + p.hAmount), DistrictYtd(p.wId, p.dId) := Num(dYtd + p.hAmount)];
      var s3 := s2 + Effect(Payment3(n, p), s2);
      && Fault !in Effect(Payment3(n, p), s2) && Fault !in Effect(Payment4(n, p), s3)
      && s3 + Effect(Payment4(n, p), s3) == Paid(p, s, wYtd, dYtd, customer)
  {
    var s2 := s + map[WarehouseYtd(p.wId) := Num(wYtd + p.hAmount), DistrictYtd(p.wId, p.dId) := Num(dYtd + p.hAmount)];
    assert HistoryAt(s2) == HistoryAt(s);
    var s3 := s2 + Effect(Payment3(n, p), s2);
    assert Customer(p.wId, p.dId, p.cId) in s3 && s3[Customer(p.wId, p.dId, p.cId)] == CustomerV(customer);
  }

  lemma PayStates(n: nat, p: PaymentParam, s: Store, wYtd: int, dYtd: int, customer: CustomerRow)
    requires Payable(p, s, wYtd, dYtd, customer)
    ensures
      var s1 := s + Effect(Payment1(n, p), s);
      var s2 := s1 + Effect(Payment2(n, p), s1);
      var s3 := s2 + Effect(Payment3(n, p), s2);
      && Fault !in Effect(Payment1(n, p), s) && Fault !in Effect(Payment2(n, p), s1)
      && Fault !in Effect(Payment3(n, p), s2) && Fault !in Effect(Payment4(n, p), s3)
      && s3 + Effect(Payment4(n, p), s3) == Paid(p, s, wYtd, dYtd, customer)
  {
    PayHalf(n, p, s, wYtd, dYtd, customer);
    PayRest(n, p, s, wYtd, dYtd, customer);
  }

  lemma PayTame(h: Store, n: nat, p: PaymentParam, s: Store)
    requires
      var s1 := s + Effect(Payment1(n, p), s);
      var s2 := s1 + Effect(Payment2(n, p), s1);
      var s3 := s2 + Effect(Payment3(n, p), s2);
      && Fault !in Effect(Payment1(n, p), s) && Fault !in Effect(Payment2(n, p), s1)
      && Fault !in Effect(Payment3(n, p), s2) && Fault !in Effect(Payment4(n, p), s3)
    ensures Tame(Sys(h), PaymentSteps(n, p), s)
  {
    var s1 := s + Effect(Payment1(n, p), s);
    var s2 := s1 + Effect(Payment2(n, p), s1);
    var s3 := s2 + Effect(Payment3(n, p), s2);
    StepLocal(h, Payment1(n, p), s);
    StepLocal(h, Payment2(n, p), s1);
    StepLocal(h, Payment3(n, p), s2);
    StepLocal(h, Payment4(n, p), s3);
    TameFour(h, Payment1(n, p), Payment2(n, p), Payment3(n, p), Payment4(n, p), s);
  }

  lemma PayOne(k: Scale, h: Store, n: nat, p: PaymentParam, s: Store) returns (wYtd: int, dYtd: int, customer: CustomerRow)
    requires Consistent(k, s) && ValidTxn(k, Payment(p))
    ensures Payable(p, s, wYtd, dYtd, customer)
    ensures Tame(Sys(h), PaymentSteps(n, p), s) && After(PaymentSteps(n, p), s) == Paid(p, s, wYtd, dYtd, customer)
  {
    assert DistrictInv(k, s, p.wId, p.dId);
    assert CustomerInv(s, p.wId, p.dId, p.cId);
    wYtd, dYtd := s[WarehouseYtd(p.wId)].num, s[DistrictYtd(p.wId, p.dId)].num;
    customer := s[Customer(p.wId, p.dId, p.cId)].customer;
    PayStates(n, p, s, wYtd, dYtd, customer);
    PayTame(h, n, p, s);
    AfterFour(Payment1(n, p), Payment2(n, p), Payment3(n, p), Payment4(n, p), s);
  }

  lemma PaidConsistent(k: Scale, h: Store, n: nat, p: PaymentParam, s: Store)
    requires Consistent(k, s) && ValidTxn(k, Payment(p))
    ensures Tame(Sys(h), PaymentSteps(n, p), s) && Consistent(k, After(PaymentSteps(n, p), s))
  {
    var wYtd, dYtd, customer := PayOne(k, h, n, p, s);
    var t := Paid(p, s, wYtd, dYtd, customer);
    forall c ensures SameAt(s, t, c) || c in {WarehouseYtd(p.wId), DistrictYtd(p.wId, p.dId), History, Customer(p.wId, p.dId, p.cId)} {}
    forall w, d | InScale(k, w, d) ensures DistrictInv(k, t, w, d) {
      assert DistrictInv(k, s, w, d);
      PaidDistrict(k, p, s, t, w, d);
    }
    forall w, i | 1 <= w <= k.warehouses && 1 <= i <= k.items ensures StockOk(t, w, i) {
      assert StockOk(s, w, i) && SameAt(s, t, Stock(w, i));
    }
    forall w | 1 <= w <= k.warehouses ensures IsNum(t, WarehouseYtd(w)) { assert w == p.wId || SameAt(s, t, WarehouseYtd(w)); }
    forall w, d | InScale(k, w, d) ensures IsNum(t, DistrictYtd(w, d)) { assert (w == p.wId && d == p.dId) || SameAt(s, t, DistrictYtd(w, d)); }
    forall i | 1 <= i <= k.items ensures IsNum(t, Item(i)) { assert SameAt(s, t, Item(i)); }
    assert SameAt(s, t, Fault);
  }

  lemma PaidDistrict(k: Scale, p: PaymentParam, s: Store, t: Store, w: int, d: int)
    requires DistrictInv(k, s, w, d)
    requires forall c :: SameAt(s, t, c) || c in {WarehouseYtd(p.wId), DistrictYtd(p.wId, p.dId), History, Customer(p.wId, p.dId, p.cId)}
    requires IsCustomer(s, Customer(p.wId, p.dId, p.cId)) && IsCustomer(t, Customer(p.wId, p.dId, p.cId))
    requires t[Customer(p.wId, p.dId, p.cId)].customer.balance + t[Customer(p.wId, p.dId, p.cId)].customer.ytdPayment
          == s[Customer(p.wId, p.dId, p.cId)].customer.balance + s[Customer(p.wId, p.dId, p.cId)].customer.ytdPayment
    ensures DistrictInv(k, t, w, d)
  {
    var s' := if w == p.wId && d == p.dId then s[Customer(w, d, p.cId) := t[Customer(w, d, p.cId)]] else s;
    forall c | OfDistrict(c, w, d) ensures SameAt(s', t, c) {
      assert SameAt(s, t, c) || c == Customer(p.wId, p.dId, p.cId);
    }
    forall o ensures SameAt(s, s', Order(w, d, o)) && SameAt(s, s', Lines(w, d, o)) {}
    forall o | 1 <= o < NextOf(s, w, d) ensures OrderInv(k, s', w, d, o) { assert OrderInv(k, s, w, d, o); }
    assert IdsAt(s', NewOrders(w, d)) == IdsAt(s, NewOrders(w, d)) && QueueInv(s', w, d);
    forall c | 1 <= c <= k.customers ensures CustomerInv(s', w, d, c) {
      assert CustomerInv(s, w, d, c);
      DeliveredTotalFrame(s, s', w, d, c, NextOf(s, w, d));
    }
    DistrictFrame(k, s', t, w, d);
  }

  /** Any transaction keeps the database consistent, and on the store h that holds what it
      hands over it runs within its footprint. */
  lemma TxnKeeps(k: Scale, h: Store, n: nat, txn: Txn, s: Store)
    requires Consistent(k, s) && ValidTxn(k, txn) && FreshFor(s, n)
    ensures Consistent(k, After(TxnSteps(n, txn), s))
    ensures SameHandovers(h, After(TxnSteps(n, txn), s), n) ==> Tame(Sys(h), TxnSteps(n, txn), s)
    ensures txn.Delivery? ==> forall d | 1 <= d <= DISTRICTS_PER_WAREHOUSE :: TakenBelowNext(After(TxnSteps(n, txn), s), n, txn.dp, d)
    ensures txn.NewOrder? ==>
      var t := After(TxnSteps(n, txn), s);
      HNext(n) in t && t[HNext(n)] == Num(NextOf(s, txn.np.wId, txn.np.dId))
  {
    match txn
    case Delivery(p) =>
      forall d ensures NothingHanded(s, n, d) {}
      DeliverAll(k, h, n, p, 1, s);
    case NewOrder(p) =>
      var next := NextOf(s, p.wId, p.dId);
      var t := EnterConsistent(k, map[HNext(n) := Num(next)], n, p, s);
      if SameHandovers(h, t, n) {
        t := EnterConsistent(k, h, n, p, s);
      }
    case Payment(p) => PaidConsistent(k, h, n, p, s);
    case Other =>
  }

  // ---- The queue ----

  lemma {:induction false} StepsAppend(queue: seq<Txn>, lo: nat, mid: nat, hi: nat)
    requires lo <= mid <= hi <= |queue|
    ensures Steps(queue, lo, hi) == Steps(queue, lo, mid) + Steps(queue, mid, hi)
    decreases mid - lo
  {
    if lo < mid {
      StepsAppend(queue, lo + 1, mid, hi);
      JoinedLeft(TxnSteps(lo, queue[lo]), Steps(queue, lo + 1, mid), Steps(queue, mid, hi));
    } else {
      assert Steps(queue, lo, mid) == [];
    }
  }

  ghost predicate ValidQueue(k: Scale, queue: seq<Txn>, lo: nat, hi: nat)
    requires lo <= hi <= |queue|
  {
    forall n | lo <= n < hi :: ValidTxn(k, queue[n])
  }

  ghost predicate FreshFrom(s: Store, lo: nat, hi: nat) {
    forall n: nat | lo <= n < hi :: FreshFor(s, n)
  }

  /** Steps of other transactions leave the handovers of n alone. */
  lemma OthersLeave(ops: seq<Step>, s: Store, n: nat)
    requires forall op | op in ops :: op.n != n
    ensures SameHandovers(s, After(ops, s), n)
  {
    AfterFrame(ops, s, HNext(n));
    forall d ensures SameAt(s, After(ops, s), HNoId(n, d)) && SameAt(s, After(ops, s), HCust(n, d)) {
      AfterFrame(ops, s, HNoId(n, d));
      AfterFrame(ops, s, HCust(n, d));
    }
  }

  lemma TxnLeavesFresh(queue: seq<Txn>, lo: nat, hi: nat, s: Store)
    requires lo < hi <= |queue| && FreshFrom(s, lo, hi)
    ensures FreshFrom(After(TxnSteps(lo, queue[lo]), s), lo + 1, hi)
  {
    var ops := TxnSteps(lo, queue[lo]);
    TxnStepsListed(lo, queue[lo]);
    var t := After(ops, s);
    forall n: nat | lo + 1 <= n < hi ensures FreshFor(t, n) {
      assert FreshFor(s, n);
      OthersLeave(ops, s, n);
      SameFresh(s, t, n);
    }
  }

  lemma SameFresh(s: Store, t: Store, n: nat)
    requires FreshFor(s, n) && SameHandovers(s, t, n)
    ensures FreshFor(t, n)
  {
    forall d ensures HNoId(n, d) !in t && HCust(n, d) !in t {
      assert SameAt(s, t, HNoId(n, d));
    }
  }

  /** What transaction n hands over stays as it is while later transactions run. */
  lemma HandoversStay(queue: seq<Txn>, lo: nat, hi: nat, s: Store, n: nat)
    requires lo <= hi <= |queue| && n < lo
    ensures SameHandovers(s, After(Steps(queue, lo, hi), s), n)
  {
    StepsListed(queue, lo, hi);
    OthersLeave(Steps(queue, lo, hi), s, n);
  }

  /** A store from which the valid transactions lo..hi can run. */
  ghost predicate Runnable(k: Scale, queue: seq<Txn>, lo: nat, hi: nat, s: Store)
    requires lo <= hi <= |queue|
  {
    ValidQueue(k, queue, lo, hi) && Consistent(k, s) && FreshFrom(s, lo, hi)
  }

  /** h holds what the transactions lo..hi have handed over in t. */
  ghost predicate HoldsAll(h: Store, t: Store, lo: nat, hi: nat) {
    forall n: nat | lo <= n < hi :: SameHandovers(h, t, n)
  }

  lemma RunsOn(k: Scale, h: Store, queue: seq<Txn>, lo: nat, hi: nat, s: Store, t: Store)
    requires lo < hi <= |queue| && Runnable(k, queue, lo, hi, s) && t == After(TxnSteps(lo, queue[lo]), s)
    ensures Runnable(k, queue, lo + 1, hi, t)
    ensures SameHandovers(h, t, lo) ==> Tame(Sys(h), TxnSteps(lo, queue[lo]), s)
  {
    assert FreshFor(s, lo) && ValidTxn(k, queue[lo]);
    TxnKeeps(k, h, lo, queue[lo], s);
    TxnLeavesFresh(queue, lo, hi, s);
  }

  /** The serial run of lo..hi from s ends consistent, and is tame for any store that holds
      what it hands over. */
  ghost predicate Kept(k: Scale, h: Store, queue: seq<Txn>, lo: nat, hi: nat, s: Store)
    requires lo <= hi <= |queue|
  {
    && Consistent(k, After(Steps(queue, lo, hi), s))
    && (HoldsAll(h, After(Steps(queue, lo, hi), s), lo, hi) ==> Tame(Sys(h), Steps(queue, lo, hi), s))
  }

  /** Any serial run of valid transactions from a consistent store does so. */
  lemma {:induction false} SerialKeeps(k: Scale, h: Store, queue: seq<Txn>, lo: nat, hi: nat, s: Store)
    requires lo <= hi <= |queue| && Runnable(k, queue, lo, hi, s)
    ensures Kept(k, h, queue, lo, hi, s)
    decreases hi - lo
  {
    if lo < hi {
      RunsOn(k, h, queue, lo, hi, s, After(TxnSteps(lo, queue[lo]), s));
      SerialKeeps(k, h, queue, lo + 1, hi, After(TxnSteps(lo, queue[lo]), s));
      KeptFrom(k, h, queue, lo, hi, s, After(TxnSteps(lo, queue[lo]), s));
    }
  }

  lemma KeptFrom(k: Scale, h: Store, queue: seq<Txn>, lo: nat, hi: nat, s: Store, t: Store)
    requires lo < hi <= |queue| && t == After(TxnSteps(lo, queue[lo]), s)
    requires SameHandovers(h, t, lo) ==> Tame(Sys(h), TxnSteps(lo, queue[lo]), s)
    requires Kept(k, h, queue, lo + 1, hi, t)
    ensures Kept(k, h, queue, lo, hi, s)
  {
    var ops, rest := TxnSteps(lo, queue[lo]), Steps(queue, lo + 1, hi);
    AfterAppend(ops, rest, s);
    if HoldsAll(h, After(rest, t), lo, hi) {
      assert HoldsAll(h, After(rest, t), lo + 1, hi);
      HeldBefore(h, queue, lo, hi, t);
      TameJoin(h, ops, rest, s);
    }
  }

  lemma HeldBefore(h: Store, queue: seq<Txn>, lo: nat, hi: nat, t: Store)
    requires lo < hi <= |queue| && HoldsAll(h, After(Steps(queue, lo + 1, hi), t), lo, hi)
    ensures SameHandovers(h, t, lo)
  {
    var fin := After(Steps(queue, lo + 1, hi), t);
    HandoversStay(queue, lo + 1, hi, t, lo);
    assert SameHandovers(h, fin, lo);
    SameTransitive(h, fin, t, lo);
  }

  lemma SameTransitive(h: Store, fin: Store, t: Store, n: nat)
    requires SameHandovers(h, fin, n) && SameHandovers(t, fin, n)
    ensures SameHandovers(h, t, n)
  {
    forall d ensures SameAt(h, t, HNoId(n, d)) && SameAt(h, t, HCust(n, d)) {
      assert SameAt(h, fin, HNoId(n, d)) && SameAt(t, fin, HNoId(n, d));
    }
  }

  lemma {:induction false} FreshLater(queue: seq<Txn>, lo: nat, mid: nat, hi: nat, s: Store)
    requires lo <= mid <= hi <= |queue| && FreshFrom(s, lo, hi)
    ensures FreshFrom(After(Steps(queue, lo, mid), s), mid, hi)
    decreases mid - lo
  {
    if lo < mid {
      var ops, rest := TxnSteps(lo, queue[lo]), Steps(queue, lo + 1, mid);
      var t := After(ops, s);
      assert FreshFrom(t, lo + 1, hi) by { TxnLeavesFresh(queue, lo, hi, s); }
      FreshLater(queue, lo + 1, mid, hi, t);
      assert After(Steps(queue, lo, mid), s) == After(rest, t) by { AfterAppend(ops, rest, s); }
    }
  }

  lemma {:induction false} NextGrows(ops: seq<Step>, s: Store, w: int, d: int)
    requires IsNum(s, NextOrderId(w, d))
    ensures IsNum(After(ops, s), NextOrderId(w, d)) && NextOf(s, w, d) <= NextOf(After(ops, s), w, d)
  {
    if ops != [] {
      NextGrowsOne(ops[0], s, w, d);
      NextGrows(ops[1..], s + Effect(ops[0], s), w, d);
    }
  }

  lemma NextGrowsOne(op: Step, s: Store, w: int, d: int)
    requires IsNum(s, NextOrderId(w, d))
    ensures IsNum(s + Effect(op, s), NextOrderId(w, d)) && NextOf(s, w, d) <= NextOf(s + Effect(op, s), w, d)
  {
    if NextOrderId(w, d) in Effect(op, s) {
      EffectWithin(op, s, NextOrderId(w, d));
    }
  }

  /** A serial run of the valid transactions lo..hi leads from the consistent store s to fin. */
  ghost predicate Leads(k: Scale, queue: seq<Txn>, lo: nat, hi: nat, s: Store, fin: Store)
    requires lo <= hi <= |queue|
  {
    Runnable(k, queue, lo, hi, s) && fin == After(Steps(queue, lo, hi), s)
  }

  /** The valid transaction n leads from the consistent store s to t. */
  ghost predicate TxnRuns(k: Scale, n: nat, txn: Txn, s: Store, t: Store) {
    Consistent(k, s) && ValidTxn(k, txn) && FreshFor(s, n) && t == After(TxnSteps(n, txn), s)
  }

  /** The serial run cut around transaction n: the store before it and the store after it. */
  lemma CutAt(k: Scale, queue: seq<Txn>, lo: nat, n: nat, hi: nat, s: Store, fin: Store) returns (before: Store, after: Store)
    requires lo <= n < hi <= |queue| && Leads(k, queue, lo, hi, s, fin)
    ensures before == After(Steps(queue, lo, n), s)
    ensures TxnRuns(k, n, queue[n], before, after) && Leads(k, queue, n + 1, hi, after, fin)
  {
    StepsAppend(queue, lo, n, hi);
    before := After(Steps(queue, lo, n), s);
    AfterAppend(Steps(queue, lo, n), Steps(queue, n, hi), s);
    SerialKeeps(k, s, queue, lo, n, s);
    FreshLater(queue, lo, n, hi, s);
    after := After(TxnSteps(n, queue[n]), before);
    assert FreshFor(before, n) && ValidTxn(k, queue[n]);
    TxnKeeps(k, s, n, queue[n], before);
    AfterAppend(TxnSteps(n, queue[n]), Steps(queue, n + 1, hi), before);
    TxnLeavesFresh(queue, n, hi, before);
  }

  lemma EnteredThen(k: Scale, n: nat, txn: Txn, s: Store, t: Store)
    requires TxnRuns(k, n, txn, s, t) && txn.NewOrder?
    ensures IsNum(t, HNext(n)) && t[HNext(n)].num == NextOf(s, txn.np.wId, txn.np.dId)
  {
    TxnKeeps(k, s, n, txn, s);
  }

  lemma NextOnWay(k: Scale, queue: seq<Txn>, lo: nat, n: nat, hi: nat, s: Store, before: Store, fin: Store)
    requires lo <= n < hi <= |queue| && Leads(k, queue, lo, hi, s, fin) && before == After(Steps(queue, lo, n), s) && queue[n].NewOrder?
    ensures NextOf(s, queue[n].np.wId, queue[n].np.dId) <= NextOf(before, queue[n].np.wId, queue[n].np.dId)
  {
    assert ValidTxn(k, queue[n]);
    assert DistrictInv(k, s, queue[n].np.wId, queue[n].np.dId);
    NextGrows(Steps(queue, lo, n), s, queue[n].np.wId, queue[n].np.dId);
  }

  lemma EnteredLater(k: Scale, queue: seq<Txn>, lo: nat, hi: nat, s: Store, n: nat, fin: Store)
    requires lo <= n < hi <= |queue| && Leads(k, queue, lo, hi, s, fin) && queue[n].NewOrder?
    ensures IsNum(fin, HNext(n)) && NextOf(s, queue[n].np.wId, queue[n].np.dId) <= fin[HNext(n)].num
  {
    var before, after := CutAt(k, queue, lo, n, hi, s, fin);
    NextOnWay(k, queue, lo, n, hi, s, before, fin);
    EnteredThen(k, n, queue[n], before, after);
    assert SameAt(after, fin, HNext(n)) by { LeadsOn(k, queue, n + 1, hi, after, n, fin); }
  }

  lemma LeadsOn(k: Scale, queue: seq<Txn>, lo: nat, hi: nat, s: Store, n: nat, fin: Store)
    requires lo <= hi <= |queue| && n < lo && Leads(k, queue, lo, hi, s, fin)
    ensures SameHandovers(s, fin, n)
  {
    HandoversStay(queue, lo, hi, s, n);
  }

  lemma TakenThen(k: Scale, n: nat, txn: Txn, s: Store, t: Store, d: int)
    requires TxnRuns(k, n, txn, s, t) && txn.Delivery? && 1 <= d <= DISTRICTS_PER_WAREHOUSE
    ensures TakenBelowNext(t, n, txn.dp, d)
  {
    TxnKeeps(k, s, n, txn, s);
  }

  /** Delivery m leaves in `after`, and for good in fin, an order of district d below d_next_o_id. */
  ghost predicate TookBelow(after: Store, fin: Store, m: nat, p: DeliveryParam, d: int) {
    TakenBelowNext(after, m, p, d) && SameAt(after, fin, HNoId(m, d))
  }

  lemma Took(k: Scale, queue: seq<Txn>, m: nat, hi: nat, before: Store, after: Store, d: int, fin: Store)
    requires m < hi <= |queue| && TxnRuns(k, m, queue[m], before, after) && Leads(k, queue, m + 1, hi, after, fin)
    requires queue[m].Delivery? && 1 <= d <= DISTRICTS_PER_WAREHOUSE
    ensures TookBelow(after, fin, m, queue[m].dp, d)
  {
    TakenThen(k, m, queue[m], before, after, d);
    LeadsOn(k, queue, m + 1, hi, after, m, fin);
  }

  lemma TakenEarlier(k: Scale, queue: seq<Txn>, lo: nat, hi: nat, s: Store, m: nat, d: int, fin: Store) returns (after: Store)
    requires lo <= m < hi <= |queue| && Leads(k, queue, lo, hi, s, fin)
    requires queue[m].Delivery? && 1 <= d <= DISTRICTS_PER_WAREHOUSE
    ensures Leads(k, queue, m + 1, hi, after, fin) && TookBelow(after, fin, m, queue[m].dp, d)
  {
    var before;
    before, after := CutAt(k, queue, lo, m, hi, s, fin);
    Took(k, queue, m, hi, before, after, d, fin);
  }

  /** The order that delivery m takes in a district is older than the order that a later
      New-Order n enters there.  So it does not matter that the batch inserts first. */
  lemma TakenOlderThanEntered(k: Scale, queue: seq<Txn>, lo: nat, hi: nat, s: Store, m: nat, n: nat, fin: Store)
    requires lo <= m < n < hi <= |queue| && Leads(k, queue, lo, hi, s, fin)
    requires queue[m].Delivery? && queue[n].NewOrder? && queue[m].dp.wId == queue[n].np.wId
    ensures HNoId(m, queue[n].np.dId) in fin ==> NumOr(fin, HNoId(m, queue[n].np.dId), -1) < NumOr(fin, HNext(n), 0)
  {
    assert ValidTxn(k, queue[n]);
    var after := TakenEarlier(k, queue, lo, hi, s, m, queue[n].np.dId, fin);
    EnteredLater(k, queue, m + 1, hi, after, n, fin);
  }
}
