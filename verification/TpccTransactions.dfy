/** What a whole delivery and a whole payment leave behind, told from the database they found.
    (TpccOrderLines does the same for New-Order.) */
module TpccTransactions {
  import opened Replay
  import opened TpccModel
  import opened TpccFootprint
  import opened TpccInvariant
  import opened TpccDelivery
  import opened TpccSerialRun

  /** What a delivery leaves of one district: an empty queue as it was, and otherwise the
      oldest waiting order delivered. */
  ghost predicate DistrictLeft(s: Store, t: Store, p: DeliveryParam, d: int) {
    var o := OldestOf(s, p.wId, d);
    if IdsAt(s, NewOrders(p.wId, d)) == {} then SameDistrict(s, t, p.wId, d)
    else (forall x | x in IdsAt(s, NewOrders(p.wId, d)) :: o <= x) && ServedIn(s, t, p, d, o)
  }

  ghost predicate Elsewhere(c: Cell, p: DeliveryParam, d: int) {
    !IsHandover(c) && forall e | d <= e <= DISTRICTS_PER_WAREHOUSE :: !OfDistrict(c, p.wId, e)
  }

  /** What a delivery leaves that serves districts d and up. */
  ghost predicate DeliveryLeft(s: Store, t: Store, p: DeliveryParam, d: int) {
    && (forall e | d <= e <= DISTRICTS_PER_WAREHOUSE :: DistrictLeft(s, t, p, e))
    && (forall c | Elsewhere(c, p, d) :: SameAt(s, t, c))
  }

  lemma LeftBefore(s: Store, s': Store, t: Store, p: DeliveryParam, d: int)
    requires SameDistrict(s, s', p.wId, d) && DistrictLeft(s', t, p, d)
    ensures DistrictLeft(s, t, p, d)
  {
    var w, o := p.wId, OldestOf(s, p.wId, d);
    assert OfDistrict(Oldest(w, d), w, d) && OfDistrict(NewOrders(w, d), w, d) && OfDistrict(Order(w, d, o), w, d);
    assert OfDistrict(Lines(w, d, o), w, d) && OfDistrict(Customer(w, d, OrderAt(s, w, d, o).cId), w, d);
    forall x | OfDistrict(x, w, d) ensures SameAt(s, t, x) <==> SameAt(s', t, x) { assert SameAt(s, s', x); }
  }

  lemma LeftAfter(s: Store, s': Store, t: Store, p: DeliveryParam, d: int)
    requires DistrictLeft(s, s', p, d) && SameDistrict(s', t, p.wId, d)
    ensures DistrictLeft(s, t, p, d)
  {
    var w, o := p.wId, OldestOf(s, p.wId, d);
    assert OfDistrict(Oldest(w, d), w, d) && OfDistrict(NewOrders(w, d), w, d) && OfDistrict(Order(w, d, o), w, d);
    assert OfDistrict(Lines(w, d, o), w, d) && OfDistrict(Customer(w, d, OrderAt(s, w, d, o).cId), w, d);
    forall x | OfDistrict(x, w, d) ensures SameAt(s, t, x) <==> SameAt(s, s', x) { assert SameAt(s', t, x); }
  }

  /** One district served, and nothing changed outside it. */
  lemma OneDistrictLeft(k: Scale, n: nat, p: DeliveryParam, d: int, s: Store)
    requires Consistent(k, s) && ValidTxn(k, Delivery(p)) && 1 <= d <= DISTRICTS_PER_WAREHOUSE && NothingHanded(s, n, d)
    ensures
      var s' := After(DistrictSteps(n, p, d), s);
      DistrictLeft(s, s', p, d) && forall c: Cell | !IsHandover(c) && !OfDistrict(c, p.wId, d) :: SameAt(s, s', c)
  {
    DistrictServed(k, n, p, d, s);
  }

  lemma OneMoreLeft(s: Store, s': Store, t: Store, p: DeliveryParam, d: int)
    requires DistrictLeft(s, s', p, d) && forall c: Cell | !IsHandover(c) && !OfDistrict(c, p.wId, d) :: SameAt(s, s', c)
    requires DeliveryLeft(s', t, p, d + 1) && d <= DISTRICTS_PER_WAREHOUSE
    ensures DeliveryLeft(s, t, p, d)
  {
    var next := d + 1;
    forall e | d <= e <= DISTRICTS_PER_WAREHOUSE ensures DistrictLeft(s, t, p, e) {
      if e == d {
        forall c | OfDistrict(c, p.wId, d) ensures SameAt(s', t, c) { assert Elsewhere(c, p, next); }
        LeftAfter(s, s', t, p, d);
      } else {
        forall c | OfDistrict(c, p.wId, e) ensures SameAt(s, s', c) { assert !OfDistrict(c, p.wId, d); }
        LeftBefore(s, s', t, p, e);
      }
    }
    forall c | Elsewhere(c, p, d) ensures SameAt(s, t, c) {
      assert !OfDistrict(c, p.wId, d) && SameAt(s, s', c);
      assert Elsewhere(c, p, next) && SameAt(s', t, c);
    }
  }

  lemma {:induction false} DeliveryLeavesFrom(k: Scale, n: nat, p: DeliveryParam, d: nat, s: Store)
    requires Consistent(k, s) && ValidTxn(k, Delivery(p)) && 1 <= d
    requires forall d' | d <= d' <= DISTRICTS_PER_WAREHOUSE :: NothingHanded(s, n, d')
    ensures DeliveryLeft(s, After(DeliverySteps(n, p, d), s), p, d)
    decreases DISTRICTS_PER_WAREHOUSE - d
  {
    if d <= DISTRICTS_PER_WAREHOUSE {
      var first, rest := DistrictSteps(n, p, d), DeliverySteps(n, p, d + 1);
      var s' := After(first, s);
      ServeOne(k, s, n, p, d, s);
      NothingHandedOn(n, p, d, s);
      DeliveryLeavesFrom(k, n, p, d + 1, s');
      OneDistrictLeft(k, n, p, d, s);
      OneMoreLeft(s, s', After(rest, s'), p, d);
      AfterAppend(first, rest, s);
    }
  }

  /** WHAT A DELIVERY IS, AS A WHOLE.  In each of the ten districts of its warehouse the oldest
      waiting order, if there is one, is delivered; and no row of any other warehouse or table
      changes. */
  lemma DeliveryLeaves(k: Scale, n: nat, p: DeliveryParam, s: Store)
    requires Consistent(k, s) && ValidTxn(k, Delivery(p)) && FreshFor(s, n)
    ensures
      var t := After(TxnSteps(n, Delivery(p)), s);
      && (forall d | 1 <= d <= 10 :: DistrictLeft(s, t, p, d))
      && (forall c: Cell | !IsHandover(c) && (forall d | 1 <= d <= 10 :: !OfDistrict(c, p.wId, d)) :: SameAt(s, t, c))
  {
    forall d ensures NothingHanded(s, n, d) {}
    DeliveryLeavesFrom(k, n, p, 1, s);
    forall c: Cell | !IsHandover(c) && (forall d | 1 <= d <= 10 :: !OfDistrict(c, p.wId, d))
      ensures SameAt(s, After(TxnSteps(n, Delivery(p)), s), c)
    {
      assert Elsewhere(c, p, 1);
    }
  }

  /** WHAT A PAYMENT IS.  The amount goes to the warehouse, to the district and into the history;
      the customer's balance falls and its payments grow by it, and the payment is counted; no
      other row changes. */
  lemma PaymentLeaves(k: Scale, n: nat, p: PaymentParam, s: Store)
    requires Consistent(k, s) && ValidTxn(k, Payment(p))
    ensures
      var t := After(TxnSteps(n, Payment(p)), s);
      var row, row' := CustomerAt(s, p.wId, p.dId, p.cId), CustomerAt(t, p.wId, p.dId, p.cId);
      && IsNum(t, WarehouseYtd(p.wId)) && t[WarehouseYtd(p.wId)].num == NumOr(s, WarehouseYtd(p.wId), 0) + p.hAmount
      && IsNum(t, DistrictYtd(p.wId, p.dId)) && t[DistrictYtd(p.wId, p.dId)].num == NumOr(s, DistrictYtd(p.wId, p.dId), 0) + p.hAmount
      && HistoryAt(t) == HistoryAt(s) + [HistoryRow(p.cId, p.cDId, p.cWId, p.dId, p.wId, p.hDate, p.hAmount, p.hData)]
      && IsCustomer(t, Customer(p.wId, p.dId, p.cId))
      && row'.balance == row.balance - p.hAmount && row'.ytdPayment == row.ytdPayment + p.hAmount && row'.paymentCnt == row.paymentCnt + 1
      && forall c | c !in {WarehouseYtd(p.wId), DistrictYtd(p.wId, p.dId), History, Customer(p.wId, p.dId, p.cId)} :: SameAt(s, t, c)
  {
    var wYtd, dYtd, customer := PayOne(k, s, n, p, s);
  }
}
