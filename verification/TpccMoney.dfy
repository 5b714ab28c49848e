/** Conservation over whole runs: money through warehouses, districts and history, and the
    stock arithmetic. */
module TpccMoney {
  import opened Replay
  import opened ForkJoin
  import opened TpccModel
  import opened TpccFootprint
  import opened TpccInvariant
  import opened TpccSerialRun
  import opened TpccSchedule

  // ---- Money ----

  /** Sum of h_amount over the history rows of a district, or of a warehouse if d is 0. */
  function HistorySum(rows: seq<HistoryRow>, w: int, d: int): int {
    if rows == [] then 0
    else HistorySum(rows[..|rows| - 1], w, d) + HistoryPart(rows[|rows| - 1], w, d)
  }

  function HistoryPart(row: HistoryRow, w: int, d: int): int {
    if row.wId == w && (d == 0 || row.dId == d) then row.amount else 0
  }

  /** Sum of d_ytd over districts 1..d of a warehouse. */
  function DistrictSum(s: Store, w: int, d: nat): int {
    if d == 0 then 0 else DistrictSum(s, w, d - 1) + NumOr(s, DistrictYtd(w, d), 0)
  }

  ghost predicate WarehouseMoney(s: Store, w: int) {
    NumOr(s, WarehouseYtd(w), 0) == DistrictSum(s, w, DISTRICTS_PER_WAREHOUSE) == HistorySum(HistoryAt(s), w, 0)
  }

  ghost predicate DistrictMoney(s: Store, w: int, d: int) {
    NumOr(s, DistrictYtd(w, d), 0) == HistorySum(HistoryAt(s), w, d)
  }

  /** w_ytd is the sum of the d_ytd of its districts, and each is the sum of h_amount over the
      matching history rows (clauses 3.3.2.1, 3.3.2.8 and 3.3.2.9). */
  ghost predicate MoneyInv(k: Scale, s: Store) {
    && (forall w | 1 <= w <= k.warehouses :: WarehouseMoney(s, w))
    && (forall w, d | InScale(k, w, d) :: DistrictMoney(s, w, d))
  }

  lemma {:induction false} DistrictSumFrame(s: Store, t: Store, w: int, d: nat)
    requires forall e | 1 <= e <= d :: SameAt(s, t, DistrictYtd(w, e))
    ensures DistrictSum(s, w, d) == DistrictSum(t, w, d)
  {
    if d > 0 {
      DistrictSumFrame(s, t, w, d - 1);
      assert SameAt(s, t, DistrictYtd(w, d));
    }
  }

  lemma {:induction false} DistrictSumAdds(s: Store, t: Store, w: int, d: nat, e: int, extra: int)
    requires forall e' | 1 <= e' <= d && e' != e :: SameAt(s, t, DistrictYtd(w, e'))
    requires NumOr(t, DistrictYtd(w, e), 0) == NumOr(s, DistrictYtd(w, e), 0) + extra && 1 <= e <= d
    ensures DistrictSum(t, w, d) == DistrictSum(s, w, d) + extra
  {
    if e == d {
      DistrictSumFrame(s, t, w, d - 1);
    } else {
      DistrictSumAdds(s, t, w, d - 1, e, extra);
      assert SameAt(s, t, DistrictYtd(w, d));
    }
  }

  lemma HistorySumAdds(rows: seq<HistoryRow>, row: HistoryRow, w: int, d: int)
    ensures HistorySum(rows + [row], w, d) == HistorySum(rows, w, d) + HistoryPart(row, w, d)
  {
    assert (rows + [row])[..|rows + [row]| - 1] == rows;
  }

  predicate IsMoney(c: Cell) { c.WarehouseYtd? || c.DistrictYtd? || c.History? }

  lemma MoneyFrame(k: Scale, s: Store, t: Store)
    requires MoneyInv(k, s) && forall c | IsMoney(c) :: SameAt(s, t, c)
    ensures MoneyInv(k, t)
  {
    assert SameAt(s, t, History);
    forall w | 1 <= w <= k.warehouses ensures WarehouseMoney(t, w) {
      assert WarehouseMoney(s, w) && SameAt(s, t, WarehouseYtd(w));
      DistrictSumFrame(s, t, w, DISTRICTS_PER_WAREHOUSE);
    }
    forall w, d | InScale(k, w, d) ensures DistrictMoney(t, w, d) {
      assert DistrictMoney(s, w, d) && SameAt(s, t, DistrictYtd(w, d));
    }
  }

  /** What a payment does to the money cells. */
  ghost predicate PaidTo(s: Store, t: Store, p: PaymentParam) {
    && IsNum(s, WarehouseYtd(p.wId)) && IsNum(s, DistrictYtd(p.wId, p.dId))
    && WarehouseYtd(p.wId) in t && t[WarehouseYtd(p.wId)] == Num(s[WarehouseYtd(p.wId)].num + p.hAmount)
    && DistrictYtd(p.wId, p.dId) in t && t[DistrictYtd(p.wId, p.dId)] == Num(s[DistrictYtd(p.wId, p.dId)].num + p.hAmount)
    && HistoryAt(t) == HistoryAt(s) + [HistoryRow(p.cId, p.cDId, p.cWId, p.dId, p.wId, p.hDate, p.hAmount, p.hData)]
    && forall c | IsMoney(c) && c !in {WarehouseYtd(p.wId), DistrictYtd(p.wId, p.dId), History} :: SameAt(s, t, c)
  }

  lemma PaidMoney(k: Scale, p: PaymentParam, s: Store, t: Store)
    requires MoneyInv(k, s) && PaidTo(s, t, p) && InScale(k, p.wId, p.dId)
    ensures MoneyInv(k, t)
  {
    var row := HistoryRow(p.cId, p.cDId, p.cWId, p.dId, p.wId, p.hDate, p.hAmount, p.hData);
    forall w | 1 <= w <= k.warehouses ensures WarehouseMoney(t, w) {
      assert WarehouseMoney(s, w);
      HistorySumAdds(HistoryAt(s), row, w, 0);
      if w == p.wId {
        DistrictSumAdds(s, t, w, DISTRICTS_PER_WAREHOUSE, p.dId, p.hAmount);
      } else {
        assert SameAt(s, t, WarehouseYtd(w));
        DistrictSumFrame(s, t, w, DISTRICTS_PER_WAREHOUSE);
      }
    }
    forall w, d | InScale(k, w, d) ensures DistrictMoney(t, w, d) {
      assert DistrictMoney(s, w, d);
      HistorySumAdds(HistoryAt(s), row, w, d);
      assert (w == p.wId && d == p.dId) || SameAt(s, t, DistrictYtd(w, d));
    }
  }

  lemma PaymentKeepsMoney(k: Scale, n: nat, p: PaymentParam, s: Store)
    requires Consistent(k, s) && ValidTxn(k, Payment(p)) && MoneyInv(k, s)
    ensures MoneyInv(k, After(PaymentSteps(n, p), s))
  {
    var wYtd, dYtd, customer := PayOne(k, s, n, p, s);
    PaidCells(s, Paid(p, s, wYtd, dYtd, customer), p, wYtd, dYtd, customer);
    PaidMoney(k, p, s, Paid(p, s, wYtd, dYtd, customer));
  }

  lemma PaidCells(s: Store, t: Store, p: PaymentParam, wYtd: int, dYtd: int, customer: CustomerRow)
    requires Payable(p, s, wYtd, dYtd, customer) && t == Paid(p, s, wYtd, dYtd, customer)
    ensures PaidTo(s, t, p)
  {
  }

  lemma OthersKeepMoney(k: Scale, n: nat, txn: Txn, s: Store)
    requires MoneyInv(k, s) && !txn.Payment?
    ensures MoneyInv(k, After(TxnSteps(n, txn), s))
  {
    var ops := TxnSteps(n, txn);
    TxnStepsListed(n, txn);
    forall c | IsMoney(c) ensures SameAt(s, After(ops, s), c) {
      AfterFrame(ops, s, c);
    }
    MoneyFrame(k, s, After(ops, s));
  }

  lemma TxnKeepsMoney(k: Scale, n: nat, txn: Txn, s: Store)
    requires Consistent(k, s) && ValidTxn(k, txn) && MoneyInv(k, s)
    ensures MoneyInv(k, After(TxnSteps(n, txn), s))
  {
    if txn.Payment? {
      PaymentKeepsMoney(k, n, txn.pp, s);
    } else {
      OthersKeepMoney(k, n, txn, s);
    }
  }

  /** A store from which the valid transactions lo..hi can run with the money in order. */
  ghost predicate Solvent(k: Scale, queue: seq<Txn>, lo: nat, hi: nat, s: Store)
    requires lo <= hi <= |queue|
  {
    Runnable(k, queue, lo, hi, s) && MoneyInv(k, s)
  }

  lemma StaysSolvent(k: Scale, queue: seq<Txn>, lo: nat, hi: nat, s: Store, t: Store)
    requires lo < hi <= |queue| && Solvent(k, queue, lo, hi, s) && t == After(TxnSteps(lo, queue[lo]), s)
    ensures Solvent(k, queue, lo + 1, hi, t)
  {
    assert ValidTxn(k, queue[lo]);
    RunsOn(k, s, queue, lo, hi, s, t);
    TxnKeepsMoney(k, lo, queue[lo], s);
  }

  lemma {:induction false} SerialKeepsMoney(k: Scale, queue: seq<Txn>, lo: nat, hi: nat, s: Store)
    requires lo <= hi <= |queue| && Solvent(k, queue, lo, hi, s)
    ensures MoneyInv(k, After(Steps(queue, lo, hi), s))
    decreases hi - lo
  {
    if lo < hi {
      var ops, rest := TxnSteps(lo, queue[lo]), Steps(queue, lo + 1, hi);
      var t := After(ops, s);
      StaysSolvent(k, queue, lo, hi, s, t);
      SerialKeepsMoney(k, queue, lo + 1, hi, t);
      assert After(Steps(queue, lo, hi), s) == After(rest, t) by { AfterAppend(ops, rest, s); }
    }
  }

  /** CONSERVATION OF MONEY.  From a store where the three conditions hold, every interleaving
      of every batch ends in a store where they hold. */
  lemma BatchKeepsMoney(k: Scale, cfg: Config, queue: seq<Txn>, lo: nat, hi: nat, s: Store, run: seq<Machine<Step, Group, Cell, Value>>)
    requires BatchInput(k, cfg, queue, lo, hi, s) && MoneyInv(k, s)
    requires IsRun(BatchPlan(cfg, Steps(queue, lo, hi)), s, run) && Done(BatchPlan(cfg, Steps(queue, lo, hi)), run[|run| - 1])
    ensures MoneyInv(k, run[|run| - 1].store)
  {
    StrongDeterminism(k, cfg, queue, lo, hi, s, run);
    SerialKeepsMoney(k, queue, lo, hi, s);
  }

  // ---- Stock ----

  /** s_quantity is determined by its first value q0 and by s_ytd. */
  predicate StockLaw(row: StockRow, q0: int) {
    10 <= row.quantity <= 100 && row.quantity == 10 + (q0 - row.ytd - 10) % 91
  }

  lemma QuantityWraps(q: int, x: int, ordered: int)
    requires 1 <= ordered <= 10 && 10 <= q <= 100 && q == 10 + x % 91
    ensures 10 <= NewQuantity(q, ordered) <= 100 && NewQuantity(q, ordered) == 10 + (x - ordered) % 91
  {
    var m := x / 91;
    assert x == 91 * m + x % 91;
    if q >= ordered + 10 {
      assert x - ordered == 91 * m + (q - 10 - ordered);
    } else {
      assert x - ordered == 91 * (m - 1) + (q - 10 + 91 - ordered);
    }
  }

  ghost predicate StockLaws(s: Store, q0: (int, int) -> int) {
    forall w, i | IsStock(s, Stock(w, i)) :: StockLaw(s[Stock(w, i)].stock, q0(w, i))
  }

  /** The item quantities of a step are in range. */
  predicate SmallOrder(op: Step) {
    op.NewOrder4? && op.l < |op.np.iQtys| ==> 1 <= op.np.iQtys[op.l] <= 10
  }

  lemma StepKeepsStock(op: Step, s: Store, q0: (int, int) -> int)
    requires StockLaws(s, q0) && SmallOrder(op)
    ensures StockLaws(s + Effect(op, s), q0)
  {
    var e := Effect(op, s);
    forall w, i | IsStock(s + e, Stock(w, i)) ensures StockLaw((s + e)[Stock(w, i)].stock, q0(w, i)) {
      if Stock(w, i) in e {
        EffectWithin(op, s, Stock(w, i));
        var row := s[Stock(w, i)].stock;
        assert StockLaw(row, q0(w, i));
        QuantityWraps(row.quantity, q0(w, i) - row.ytd - 10, op.np.iQtys[op.l]);
      }
    }
  }

  lemma {:induction false} AfterKeepsStock(ops: seq<Step>, s: Store, q0: (int, int) -> int)
    requires StockLaws(s, q0) && forall op | op in ops :: SmallOrder(op)
    ensures StockLaws(After(ops, s), q0)
  {
    if ops != [] {
      StepKeepsStock(ops[0], s, q0);
      AfterKeepsStock(ops[1..], s + Effect(ops[0], s), q0);
    }
  }

  /** STOCK ARITHMETIC.  In every reachable state of every interleaving each s_quantity is in
      10..100 and is the one that its first value and s_ytd determine, so it cannot depend on
      the order in which order lines were processed. */
  lemma BatchKeepsStock(
      k: Scale, cfg: Config, queue: seq<Txn>, lo: nat, hi: nat, s: Store, run: seq<Machine<Step, Group, Cell, Value>>, i: nat, q0: (int, int) -> int)
    requires BatchInput(k, cfg, queue, lo, hi, s) && StockLaws(s, q0)
    requires IsRun(BatchPlan(cfg, Steps(queue, lo, hi)), s, run) && i < |run|
    ensures StockLaws(run[i].store, q0)
  {
    var plan, d, h := BatchPlan(cfg, Steps(queue, lo, hi)), BatchDesign(cfg, SerialStore(queue, lo, hi, s)), SerialStore(queue, lo, hi, s);
    BatchIsSound(k, cfg, queue, lo, hi, s);
    RunInv(plan, d, s, run, i);
    StepsListed(queue, lo, hi);
    TraceKeepsStock(k, plan, d, queue, lo, hi, h, s, run[i], q0);
  }

  lemma TraceKeepsStock(
      k: Scale, plan: Plan<Step, Group, Cell, Value>, d: Design<Step, Group, Cell, Value>, queue: seq<Txn>, lo: nat, hi: nat,
      h: Store, s: Store, m: Machine<Step, Group, Cell, Value>, q0: (int, int) -> int)
    requires lo <= hi <= |queue| && ValidQueue(k, queue, lo, hi) && StockLaws(s, q0)
    requires Inv(plan, d, s, m) && d.sys == Sys(h)
    requires forall op | op in plan.ops :: lo <= op.n < hi && StepOf(op, op.n, queue[op.n])
    ensures StockLaws(m.store, q0)
  {
    forall op | op in m.trace ensures SmallOrder(op) {
      var i :| 0 <= i < |m.trace| && m.trace[i] == op;
      assert m.trace[i] in plan.ops;
      assert ValidTxn(k, queue[op.n]);
    }
    AfterIsRun(h, m.trace, s);
    AfterKeepsStock(m.trace, s, q0);
  }
}
