/** The batch processor's own loops: cutting the queue into batches and filling buckets. */
module TpccBatchProcessor {
  import opened Replay
  import opened ForkJoin
  import opened TpccModel
  import opened TpccInvariant
  import opened TpccSerialRun
  import opened TpccSchedule
  import opened TpccBuckets
  import opened TpccWholeRun

  function Pairs(b: seq<nat>): seq<(nat, int)> {
    seq(|b|, i requires 0 <= i < |b| => (b[i], -1))
  }

  function PairsOf(bkts: seq<seq<nat>>): seq<seq<(nat, int)>> {
    seq(|bkts|, t requires 0 <= t < |bkts| => Pairs(bkts[t]))
  }

  /** A row of no_o_ids_vector before any order is taken. */
  function NoneTaken(): seq<int> {
    seq(DISTRICTS_PER_WAREHOUSE + 1, _ => -1)
  }

  /** The parameters without their places in the queue. */
  function Params<P>(numbered: seq<(nat, P)>): seq<P> {
    seq(|numbered|, i requires 0 <= i < |numbered| => numbered[i].1)
  }

  /** Every thread of group g runs for its bucket what the model deals to it. */
  ghost predicate Deals(cfg: Config, g: Group, bkts: seq<seq<(nat, int)>>, queue: seq<Txn>, lo: nat, hi: nat, snap: Store)
    requires lo <= hi <= |queue|
  {
    var ops := Steps(queue, lo, hi);
    |bkts| == cfg.parallelism &&
    forall t | 0 <= t < |bkts| :: Work(g, bkts[t], VectorsOf(queue, lo, hi)) == Bucket(BatchPlan(cfg, ops), ops, snap, Tid(g, t))
  }

  /** The buckets of group g after the loop has seen transactions lo..hi. */
  ghost predicate Filled(cfg: Config, g: Group, bkts: seq<seq<(nat, int)>>, queue: seq<Txn>, lo: nat, hi: nat, noOIds: seq<seq<int>>)
    requires lo <= hi <= |queue|
  {
    |bkts| == cfg.parallelism && forall t | 0 <= t < |bkts| :: bkts[t] == Entries(cfg, g, queue, lo, hi, t, noOIds)
  }

  lemma FilledDeals(cfg: Config, g: Group, bkts: seq<seq<(nat, int)>>, queue: seq<Txn>, lo: nat, hi: nat, noOIds: seq<seq<int>>, snap: Store)
    requires lo <= hi <= |queue| && Filled(cfg, g, bkts, queue, lo, hi, noOIds)
    requires IsEarly(g) || Shows(noOIds, VectorsOf(queue, lo, hi), snap)
    ensures Deals(cfg, g, bkts, queue, lo, hi, snap)
  {
    var plan := BatchPlan(cfg, Steps(queue, lo, hi));
    forall t | 0 <= t < |bkts|
      ensures Work(g, bkts[t], VectorsOf(queue, lo, hi)) == Bucket(plan, Steps(queue, lo, hi), snap, Tid(g, t))
    {
      EntriesAreDealt(plan, cfg, g, queue, lo, hi, hi, snap, t, noOIds);
      assert IsDealt(plan, cfg, g, queue, lo, hi, VectorsOf(queue, lo, hi), snap, t, noOIds);
    }
  }

  /** Each bucket grows by the entries of transaction n. */
  lemma FilledNext(
      cfg: Config, g: Group, bkts: seq<seq<(nat, int)>>, bkts': seq<seq<(nat, int)>>, queue: seq<Txn>, lo: nat, n: nat, noOIds: seq<seq<int>>)
    requires lo <= n < |queue| && Filled(cfg, g, bkts, queue, lo, n, noOIds) && |bkts'| == |bkts|
    requires forall t | 0 <= t < |bkts| :: bkts'[t] == bkts[t] + TxnEntries(cfg, g, queue[n], VectorsOf(queue, lo, n), t, noOIds)
    ensures Filled(cfg, g, bkts', queue, lo, n + 1, noOIds)
  {
  }

  /** Transaction n has no work for group g. */
  lemma FilledSkip(cfg: Config, g: Group, bkts: seq<seq<(nat, int)>>, queue: seq<Txn>, lo: nat, n: nat, noOIds: seq<seq<int>>)
    requires lo <= n < |queue| && Filled(cfg, g, bkts, queue, lo, n, noOIds)
    requires forall t: nat, u :: TxnEntries(cfg, g, queue[n], u, t, noOIds) == []
    ensures Filled(cfg, g, bkts, queue, lo, n + 1, noOIds)
  {
    FilledNext(cfg, g, bkts, bkts, queue, lo, n, noOIds);
  }

  ghost predicate EarlyFilled(
      cfg: Config, newOrderBkt: seq<seq<nat>>, itemBkt: seq<seq<(nat, int)>>, mixedBkt: seq<seq<(nat, int)>>, queue: seq<Txn>, lo: nat, n: nat)
    requires lo <= n <= |queue|
  {
    && Filled(cfg, EntryThreads, PairsOf(newOrderBkt), queue, lo, n, [])
    && Filled(cfg, StockThreads, itemBkt, queue, lo, n, [])
    && Filled(cfg, QueueThreads, mixedBkt, queue, lo, n, [])
  }

  /** The position counters, and no_o_ids_vector with one row for each delivery. */
  ghost predicate EarlyCount(deliveryPos: nat, newOrderPos: nat, noOIds: seq<seq<int>>, queue: seq<Txn>, lo: nat, n: nat)
    requires lo <= n <= |queue|
  {
    && deliveryPos == |VectorsOf(queue, lo, n).deliveries| == |noOIds|
    && newOrderPos == |VectorsOf(queue, lo, n).newOrders|
    && forall pos | 0 <= pos < |noOIds| :: noOIds[pos] == NoneTaken()
  }

  ghost predicate EarlyState(
      cfg: Config, newOrderBkt: seq<seq<nat>>, itemBkt: seq<seq<(nat, int)>>, mixedBkt: seq<seq<(nat, int)>>,
      deliveryPos: nat, newOrderPos: nat, noOIds: seq<seq<int>>, queue: seq<Txn>, lo: nat, n: nat)
    requires lo <= n <= |queue|
  {
    EarlyFilled(cfg, newOrderBkt, itemBkt, mixedBkt, queue, lo, n) && EarlyCount(deliveryPos, newOrderPos, noOIds, queue, lo, n)
  }

  lemma EarlyStart(
      cfg: Config, newOrderBkt: seq<seq<nat>>, itemBkt: seq<seq<(nat, int)>>, mixedBkt: seq<seq<(nat, int)>>, queue: seq<Txn>, lo: nat)
    requires lo <= |queue| && |newOrderBkt| == |itemBkt| == |mixedBkt| == cfg.parallelism
    requires forall t | 0 <= t < cfg.parallelism :: newOrderBkt[t] == [] && itemBkt[t] == [] && mixedBkt[t] == []
    ensures EarlyState(cfg, newOrderBkt, itemBkt, mixedBkt, 0, 0, [], queue, lo, lo)
  {
  }

  lemma EarlySkip(
      cfg: Config, newOrderBkt: seq<seq<nat>>, itemBkt: seq<seq<(nat, int)>>, mixedBkt: seq<seq<(nat, int)>>, queue: seq<Txn>, lo: nat, n: nat)
    requires lo <= n < |queue| && (queue[n].Payment? || queue[n].Other?)
    requires EarlyFilled(cfg, newOrderBkt, itemBkt, mixedBkt, queue, lo, n)
    ensures EarlyFilled(cfg, newOrderBkt, itemBkt, mixedBkt, queue, lo, n + 1)
  {
    FilledSkip(cfg, EntryThreads, PairsOf(newOrderBkt), queue, lo, n, []);
    FilledSkip(cfg, StockThreads, itemBkt, queue, lo, n, []);
    FilledSkip(cfg, QueueThreads, mixedBkt, queue, lo, n, []);
  }

  lemma EarlyCountNext(deliveryPos: nat, newOrderPos: nat, noOIds: seq<seq<int>>, queue: seq<Txn>, lo: nat, n: nat)
    requires lo <= n < |queue| && EarlyCount(deliveryPos, newOrderPos, noOIds, queue, lo, n)
    ensures
      match queue[n]
      case Delivery(_) => EarlyCount(deliveryPos + 1, newOrderPos, noOIds + [NoneTaken()], queue, lo, n + 1)
      case NewOrder(_) => EarlyCount(deliveryPos, newOrderPos + 1, noOIds, queue, lo, n + 1)
      case _ => EarlyCount(deliveryPos, newOrderPos, noOIds, queue, lo, n + 1)
  {
    VectorsCount(queue, lo, n);
  }

  lemma VectorsCount(queue: seq<Txn>, lo: nat, n: nat)
    requires lo <= n < |queue|
    ensures
      var u, v := VectorsOf(queue, lo, n), VectorsOf(queue, lo, n + 1);
      && |v.deliveries| == |u.deliveries| + (if queue[n].Delivery? then 1 else 0)
      && |v.newOrders| == |u.newOrders| + (if queue[n].NewOrder? then 1 else 0)
      && |v.payments| == |u.payments| + (if queue[n].Payment? then 1 else 0)
  {
  }

  ghost predicate LateFilled(
      cfg: Config, mixedBkt: seq<seq<(nat, int)>>, deliveryBkt: seq<seq<(nat, int)>>, queue: seq<Txn>, lo: nat, n: nat, noOIds: seq<seq<int>>)
    requires lo <= n <= |queue|
  {
    && Filled(cfg, CustomerThreads, mixedBkt, queue, lo, n, noOIds)
    && Filled(cfg, StampThreads, deliveryBkt, queue, lo, n, noOIds)
  }

  lemma LateStart(
      cfg: Config, mixedBkt: seq<seq<(nat, int)>>, deliveryBkt: seq<seq<(nat, int)>>, queue: seq<Txn>, lo: nat, noOIds: seq<seq<int>>)
    requires lo <= |queue| && |mixedBkt| == |deliveryBkt| == cfg.parallelism
    requires forall t | 0 <= t < cfg.parallelism :: mixedBkt[t] == [] && deliveryBkt[t] == []
    ensures LateFilled(cfg, mixedBkt, deliveryBkt, queue, lo, lo, noOIds)
  {
  }

  // ---- One entry placed ----

  /** Placing the items from l on completes what placing those from `first` on begins. */
  ghost predicate ItemsLeft(
      cfg: Config, p: NewOrderParam, pos: nat, first: nat, l: nat, start: seq<seq<(nat, int)>>, bkts: seq<seq<(nat, int)>>)
  {
    && |bkts| == |start|
    && forall t | 0 <= t < |bkts| :: bkts[t] + ItemEntries(cfg, p, pos, l, t) == start[t] + ItemEntries(cfg, p, pos, first, t)
  }

  lemma ItemPlaced(
      cfg: Config, p: NewOrderParam, pos: nat, first: nat, l: nat, start: seq<seq<(nat, int)>>, bkts: seq<seq<(nat, int)>>, slot: nat)
    requires l < |p.iIds| && ItemsLeft(cfg, p, pos, first, l, start, bkts) && slot == LineSlot(cfg, p, l) < |bkts|
    ensures ItemsLeft(cfg, p, pos, first, l + 1, start, EntryPlaced(bkts, slot, (pos, l)))
  {
    var bkts' := EntryPlaced(bkts, slot, (pos, l));
    forall t | 0 <= t < |bkts|
      ensures bkts'[t] + ItemEntries(cfg, p, pos, l + 1, t) == start[t] + ItemEntries(cfg, p, pos, first, t)
    {
      assert bkts'[t] == bkts[t] + One(slot == t, pos, l);
      JoinedLeft(bkts[t], One(slot == t, pos, l), ItemEntries(cfg, p, pos, l + 1, t));
    }
  }

  lemma ItemsPlaced(cfg: Config, p: NewOrderParam, pos: nat, first: nat, start: seq<seq<(nat, int)>>, bkts: seq<seq<(nat, int)>>)
    requires ItemsLeft(cfg, p, pos, first, |p.iIds|, start, bkts)
    ensures forall t | 0 <= t < |bkts| :: bkts[t] == start[t] + ItemEntries(cfg, p, pos, first, t)
  {
  }

  function EntryPlaced(bkts: seq<seq<(nat, int)>>, slot: nat, entry: (nat, int)): seq<seq<(nat, int)>>
    requires slot < |bkts|
  {
    bkts[slot := bkts[slot] + [entry]]
  }

  ghost predicate DistrictsLeft(
      cfg: Config, w: int, pos: nat, first: nat, d: nat, late: bool, noOIds: seq<seq<int>>,
      start: seq<seq<(nat, int)>>, bkts: seq<seq<(nat, int)>>)
  {
    && |bkts| == |start|
    && forall t | 0 <= t < |bkts| ::
         bkts[t] + DistrictEntries(cfg, w, pos, d, t, late, noOIds) == start[t] + DistrictEntries(cfg, w, pos, first, t, late, noOIds)
  }

  lemma DistrictPlaced(
      cfg: Config, w: int, pos: nat, first: nat, d: nat, late: bool, noOIds: seq<seq<int>>,
      start: seq<seq<(nat, int)>>, bkts: seq<seq<(nat, int)>>, slot: nat, here: bool)
    requires d <= DISTRICTS_PER_WAREHOUSE && DistrictsLeft(cfg, w, pos, first, d, late, noOIds, start, bkts)
    requires slot == DistrictSlot(cfg, w, d) < |bkts| && (here <==> (late ==> TakenAt(noOIds, pos, d)))
    ensures DistrictsLeft(cfg, w, pos, first, d + 1, late, noOIds, start, if here then EntryPlaced(bkts, slot, (pos, d)) else bkts)
  {
    var bkts' := if here then EntryPlaced(bkts, slot, (pos, d)) else bkts;
    forall t | 0 <= t < |bkts|
      ensures bkts'[t] + DistrictEntries(cfg, w, pos, d + 1, t, late, noOIds)
           == start[t] + DistrictEntries(cfg, w, pos, first, t, late, noOIds)
    {
      assert bkts'[t] == bkts[t] + One(slot == t && here, pos, d);
      JoinedLeft(bkts[t], One(slot == t && here, pos, d), DistrictEntries(cfg, w, pos, d + 1, t, late, noOIds));
    }
  }

  lemma DistrictsPlaced(
      cfg: Config, w: int, pos: nat, first: nat, d: nat, late: bool, noOIds: seq<seq<int>>,
      start: seq<seq<(nat, int)>>, bkts: seq<seq<(nat, int)>>)
    requires d > DISTRICTS_PER_WAREHOUSE && DistrictsLeft(cfg, w, pos, first, d, late, noOIds, start, bkts)
    ensures forall t | 0 <= t < |bkts| :: bkts[t] == start[t] + DistrictEntries(cfg, w, pos, first, t, late, noOIds)
  {
  }

  // ---- Where batches end ----

  /** A batch that starts at lo ends at hi: at the first place where its timer is up, or, if it
      is the last one, at the end of the queue with the timer still running. */
  predicate EndsBatch(size: nat, timeUp: nat -> bool, lo: nat, hi: nat, last: bool) {
    && lo <= hi <= size && (forall m | lo < m < hi :: !timeUp(m))
    && if last then hi == size && (lo < hi ==> !timeUp(hi)) else lo < hi && timeUp(hi)
  }

  /** The cuts of a queue of the given size. */
  ghost predicate TimedCuts(size: nat, timeUp: nat -> bool, cuts: seq<nat>) {
    && |cuts| >= 2 && cuts[0] == 0
    && forall i | 0 < i < |cuts| :: EndsBatch(size, timeUp, cuts[i - 1], cuts[i], i == |cuts| - 1)
  }

  /** The cuts made so far, with `stopped` telling whether the end marker was seen. */
  ghost predicate CutSoFar(size: nat, timeUp: nat -> bool, cuts: seq<nat>, stopped: bool) {
    && |cuts| >= (if stopped then 2 else 1) && cuts[0] == 0
    && forall i | 0 < i < |cuts| :: EndsBatch(size, timeUp, cuts[i - 1], cuts[i], stopped && i == |cuts| - 1)
  }

  lemma OneMoreCut(size: nat, timeUp: nat -> bool, cuts: seq<nat>, hi: nat, last: bool)
    requires CutSoFar(size, timeUp, cuts, false) && EndsBatch(size, timeUp, cuts[|cuts| - 1], hi, last)
    ensures CutSoFar(size, timeUp, cuts + [hi], last)
  {
    var more := cuts + [hi];
    forall i | 0 < i < |more| ensures EndsBatch(size, timeUp, more[i - 1], more[i], last && i == |more| - 1) {
      if i < |cuts| { assert EndsBatch(size, timeUp, cuts[i - 1], cuts[i], false); }
    }
  }

  lemma AllCut(size: nat, timeUp: nat -> bool, cuts: seq<nat>)
    requires CutSoFar(size, timeUp, cuts, true)
    ensures TimedCuts(size, timeUp, cuts) && cuts[|cuts| - 1] == size
  {
    assert EndsBatch(size, timeUp, cuts[|cuts| - 2], cuts[|cuts| - 1], true);
  }

  /** What the outer loop has done: batches, all with configuration cfg, that lead from s to t. */
  ghost predicate Progress(
      k: Scale, queue: seq<Txn>, timeUp: nat -> bool, cfg: Config, cuts: seq<nat>, cfgs: seq<Config>, stores: seq<Store>,
      s: Store, t: Store, stopped: bool)
  {
    && Executed(k, queue, cuts, cfgs, stores, s, t) && CutSoFar(|queue|, timeUp, cuts, stopped)
    && forall i | 0 <= i < |cfgs| :: cfgs[i] == cfg
  }

  lemma NoProgress(k: Scale, queue: seq<Txn>, timeUp: nat -> bool, cfg: Config, s: Store)
    requires Runnable(k, queue, 0, |queue|, s)
    ensures Progress(k, queue, timeUp, cfg, [0], [], [s], s, s, false)
  {
    NothingExecuted(k, queue, s);
  }

  lemma AllProgress(
      k: Scale, queue: seq<Txn>, timeUp: nat -> bool, cfg: Config, cuts: seq<nat>, cfgs: seq<Config>, stores: seq<Store>, s: Store, t: Store)
    requires Progress(k, queue, timeUp, cfg, cuts, cfgs, stores, s, t, true)
    ensures TimedCuts(|queue|, timeUp, cuts) && forall i | 0 <= i < |cfgs| :: cfgs[i] == cfg
    ensures BatchedExecution(queue, cuts, cfgs, stores) && stores[0] == s && stores[|stores| - 1] == t
    ensures t == SerialStore(queue, 0, |queue|, s) && Consistent(k, t)
  {
    AllCut(|queue|, timeUp, cuts);
    ExecutedIsSerial(k, queue, cuts, cfgs, stores, s, t);
  }

  /** The timer alone decides where a queue is cut. */
  lemma CutsDetermined(size: nat, timeUp: nat -> bool, cuts: seq<nat>, cuts': seq<nat>)
    requires TimedCuts(size, timeUp, cuts) && TimedCuts(size, timeUp, cuts')
    ensures cuts == cuts'
  {
    SameCuts(size, timeUp, cuts, cuts', if |cuts| <= |cuts'| then |cuts| - 1 else |cuts'| - 1);
  }

  lemma {:induction false} SameCuts(size: nat, timeUp: nat -> bool, cuts: seq<nat>, cuts': seq<nat>, i: nat)
    requires TimedCuts(size, timeUp, cuts) && TimedCuts(size, timeUp, cuts') && i < |cuts| && i < |cuts'|
    ensures cuts[..i + 1] == cuts'[..i + 1]
    ensures i == |cuts| - 1 <==> i == |cuts'| - 1
  {
    if i > 0 {
      SameCuts(size, timeUp, cuts, cuts', i - 1);
      assert cuts[..i][i - 1] == cuts'[..i][i - 1];
      assert EndsBatch(size, timeUp, cuts[i - 1], cuts[i], i == |cuts| - 1);
      assert EndsBatch(size, timeUp, cuts'[i - 1], cuts'[i], i == |cuts'| - 1);
      SameEnd(size, timeUp, cuts[i - 1], cuts[i], cuts'[i], i == |cuts| - 1, i == |cuts'| - 1);
    }
  }

  lemma SameEnd(size: nat, timeUp: nat -> bool, lo: nat, hi: nat, hi': nat, last: bool, last': bool)
    requires EndsBatch(size, timeUp, lo, hi, last) && EndsBatch(size, timeUp, lo, hi', last')
    ensures hi == hi' && last == last'
  {
  }

  class BatchProcessor {
    const parallelism: nat
    const numItems: int
    var batchParams: seq<Txn>
    var deliveryParams: seq<DeliveryParam>
    var newOrderParams: seq<NewOrderParam>
    var paymentParams: seq<PaymentParam>
    ghost var db: Store

    constructor (parallelism: nat, numItems: int, ghost db: Store)
      ensures this.parallelism == parallelism && this.numItems == numItems && this.db == db
      ensures batchParams == [] && deliveryParams == [] && newOrderParams == [] && paymentParams == []
    {
      this.parallelism, this.numItems, this.db := parallelism, numItems, db;
      batchParams, deliveryParams, newOrderParams, paymentParams := [], [], [], [];
    }

    function Cfg(): Config { Config(parallelism, numItems, HashOf) }

    /** The vectors hold transactions lo..hi of the queue. */
    ghost predicate Holds(queue: seq<Txn>, lo: nat, hi: nat)
      requires lo <= hi <= |queue|
      reads this
    {
      && batchParams == queue[lo..hi]
      && deliveryParams == Params(VectorsOf(queue, lo, hi).deliveries)
      && newOrderParams == Params(VectorsOf(queue, lo, hi).newOrders)
      && paymentParams == Params(VectorsOf(queue, lo, hi).payments)
    }

    /** Pops tuples until the end marker or until the batch timer runs out. */
    method FillBatch(queue: seq<Txn>, lo: nat, timeUp: nat -> bool) returns (hi: nat, stopflag: bool)
      requires lo <= |queue| && Holds(queue, lo, lo)
      modifies `batchParams, `deliveryParams, `newOrderParams, `paymentParams
      ensures lo <= hi <= |queue| && Holds(queue, lo, hi) && EndsBatch(|queue|, timeUp, lo, hi, stopflag)
    {
      hi, stopflag := lo, false;
      while true
        invariant lo <= hi <= |queue| && Holds(queue, lo, hi)
        invariant forall m | lo < m <= hi :: !timeUp(m)
        decreases |queue| - hi
      {
        if hi == |queue| {
          stopflag := true;
          break;
        }
        batchParams := batchParams + [queue[hi]];
        match queue[hi] {
          case Delivery(p) => deliveryParams := deliveryParams + [p];
          case NewOrder(p) => newOrderParams := newOrderParams + [p];
          case Payment(p) => paymentParams := paymentParams + [p];
          case Other =>
        }
        ghost var v := VectorsOf(queue, lo, hi);
        hi := hi + 1;
        assert VectorsOf(queue, lo, hi) ==
          match queue[hi - 1]
          case Delivery(p) => v.(deliveries := v.deliveries + [(hi - 1, p)])
          case NewOrder(p) => v.(newOrders := v.newOrders + [(hi - 1, p)])
          case Payment(p) => v.(payments := v.payments + [(hi - 1, p)])
          case Other => v;
        if timeUp(hi) {
          break;
        }
      }
    }

    method ClearBatch(ghost queue: seq<Txn>, ghost at: nat)
      requires at <= |queue|
      modifies `batchParams, `deliveryParams, `newOrderParams, `paymentParams
      ensures Holds(queue, at, at)
    {
      deliveryParams, newOrderParams, paymentParams, batchParams := [], [], [], [];
    }

    /** The threads of a batch, in whatever interleaving they run. */
    ghost method ProcessBatch(k: Scale, queue: seq<Txn>, lo: nat, hi: nat)
      requires BatchInput(k, Cfg(), queue, lo, hi, db)
      modifies `db
      ensures OneBatch(queue, lo, hi, Cfg(), old(db), db)
    {
      BatchCanRun(k, Cfg(), queue, lo, hi, db);
      var after :| OneBatch(queue, lo, hi, Cfg(), db, after);
      db := after;
    }

    /** One round of the outer loop. */
    method OneBatchMore(
      ghost k: Scale, queue: seq<Txn>, timeUp: nat -> bool, cuts: seq<nat>, ghost cfgs: seq<Config>, ghost stores: seq<Store>, ghost s: Store)
      returns (cuts': seq<nat>, ghost cfgs': seq<Config>, ghost stores': seq<Store>, stopflag: bool)
      requires parallelism > 0 && Progress(k, queue, timeUp, Cfg(), cuts, cfgs, stores, s, db, false)
      requires Holds(queue, cuts[|cuts| - 1], cuts[|cuts| - 1])
      modifies this
      ensures Progress(k, queue, timeUp, Cfg(), cuts', cfgs', stores', s, db, stopflag)
      ensures cuts[|cuts| - 1] < cuts'[|cuts'| - 1] || stopflag
      ensures Holds(queue, cuts'[|cuts'| - 1], cuts'[|cuts'| - 1])
    {
      var lo, hi := cuts[|cuts| - 1], 0;
      hi, stopflag := FillBatch(queue, lo, timeUp);
      ghost var before := db;
      ExecutedIsSerial(k, queue, cuts, cfgs, stores, s, db);
      ProcessBatch(k, queue, lo, hi);
      ClearBatch(queue, hi);
      ExecutedOn(k, queue, cuts, cfgs, stores, s, before, hi, Cfg(), db);
      OneMoreCut(|queue|, timeUp, cuts, hi, stopflag);
      cuts', cfgs', stores' := cuts + [hi], cfgs + [Cfg()], stores + [db];
    }

    /** The outer loop.  The queue is cut into consecutive batches that together cover it, each
        where the timer first runs out, each stretch is processed as one batch, and the whole
        leaves the store of the serial run. */
    method Start(ghost k: Scale, queue: seq<Txn>, timeUp: nat -> bool)
      returns (cuts: seq<nat>, ghost cfgs: seq<Config>, ghost stores: seq<Store>)
      requires Holds(queue, 0, 0) && parallelism > 0 && Runnable(k, queue, 0, |queue|, db)
      modifies this
      ensures TimedCuts(|queue|, timeUp, cuts)
      ensures forall i | 0 <= i < |cfgs| :: cfgs[i] == Cfg()
      ensures BatchedExecution(queue, cuts, cfgs, stores) && stores[0] == old(db) && stores[|stores| - 1] == db
      ensures db == SerialStore(queue, 0, |queue|, old(db)) && Consistent(k, db)
    {
      cuts, cfgs, stores := [0], [], [db];
      var stopflag := false;
      NoProgress(k, queue, timeUp, Cfg(), db);
      while !stopflag
        invariant Progress(k, queue, timeUp, Cfg(), cuts, cfgs, stores, old(db), db, stopflag)
        invariant !stopflag ==> Holds(queue, cuts[|cuts| - 1], cuts[|cuts| - 1])
        decreases if stopflag then 0 else 1, |queue| - cuts[|cuts| - 1]
      {
        cuts, cfgs, stores, stopflag := OneBatchMore(k, queue, timeUp, cuts, cfgs, stores, old(db));
      }
      AllProgress(k, queue, timeUp, Cfg(), cuts, cfgs, stores, old(db), db);
    }

    // ---- Buckets ----

    method DistrictIndex(wId: int, dId: int) returns (t: nat)
      requires parallelism > 0
      ensures t == DistrictSlot(Cfg(), wId, dId) < parallelism
    {
      var offset := (wId - 1) * DISTRICTS_PER_WAREHOUSE + dId - 1;
      t := offset % parallelism;
    }

    method ItemIndex(wId: int, iId: int) returns (t: nat)
      requires parallelism > 0
      ensures t == ItemSlot(Cfg(), wId, iId) < parallelism
    {
      var olIId := numItems * (wId - 1) + iId - 1;
      var key := HashWord(olIId);
      t := key % parallelism;
    }

    /** Puts each item of a New-Order into the bucket of its stock row. */
    method BucketItems(p: NewOrderParam, pos: nat, itemBkt: array<seq<(nat, int)>>)
      requires parallelism > 0 && itemBkt.Length == parallelism && |p.iIds| == |p.iWIds|
      modifies itemBkt
      ensures forall t | 0 <= t < parallelism :: itemBkt[t] == old(itemBkt[t]) + ItemEntries(Cfg(), p, pos, 0, t)
    {
      ghost var start := itemBkt[..];
      var i: nat := 0;
      while i < |p.iIds|
        invariant i <= |p.iIds| && ItemsLeft(Cfg(), p, pos, 0, i, start, itemBkt[..])
      {
        var slot := ItemIndex(p.iWIds[i], p.iIds[i]);
        ItemPlaced(Cfg(), p, pos, 0, i, start, itemBkt[..], slot);
        Place(itemBkt, slot, (pos, i));
        i := i + 1;
      }
      ItemsPlaced(Cfg(), p, pos, 0, start, itemBkt[..]);
    }

    method Place(bkt: array<seq<(nat, int)>>, slot: nat, entry: (nat, int))
      requires slot < bkt.Length
      modifies bkt
      ensures bkt[..] == EntryPlaced(old(bkt[..]), slot, entry)
    {
      bkt[slot] := bkt[slot] + [entry];
    }

    /** Puts the districts of a delivery, from `first` up, into their buckets: all of them, or
        those where an order was taken. */
    method BucketDistricts(p: DeliveryParam, pos: nat, first: nat, late: bool, noOIds: seq<seq<int>>, bkt: array<seq<(nat, int)>>)
      requires parallelism > 0 && bkt.Length == parallelism && first <= DISTRICTS_PER_WAREHOUSE
      requires late ==> pos < |noOIds| && |noOIds[pos]| == DISTRICTS_PER_WAREHOUSE + 1
      modifies bkt
      ensures forall t | 0 <= t < parallelism ::
        bkt[t] == old(bkt[t]) + DistrictEntries(Cfg(), p.wId, pos, first, t, late, noOIds)
    {
      ghost var start := bkt[..];
      var d := first;
      while d <= DISTRICTS_PER_WAREHOUSE
        invariant first <= d <= DISTRICTS_PER_WAREHOUSE + 1
        invariant DistrictsLeft(Cfg(), p.wId, pos, first, d, late, noOIds, start, bkt[..])
      {
        var slot := DistrictIndex(p.wId, d);
        var here := !late || noOIds[pos][d] != -1;
        DistrictPlaced(Cfg(), p.wId, pos, first, d, late, noOIds, start, bkt[..], slot, here);
        if here {
          Place(bkt, slot, (pos, d));
        }
        d := d + 1;
      }
      DistrictsPlaced(Cfg(), p.wId, pos, first, d, late, noOIds, start, bkt[..]);
    }

    /** One delivery in the first round: every district goes to the bucket of its queue. */
    method EarlyDelivery(
      ghost queue: seq<Txn>, ghost lo: nat, ghost n: nat, p: DeliveryParam, pos: nat,
      ghost newOrderBkt: seq<seq<nat>>, ghost itemBkt: seq<seq<(nat, int)>>, mixedBkt: array<seq<(nat, int)>>)
      requires parallelism > 0 && lo <= n < |queue| && queue[n] == Delivery(p) && pos == |VectorsOf(queue, lo, n).deliveries|
      requires EarlyFilled(Cfg(), newOrderBkt, itemBkt, mixedBkt[..], queue, lo, n)
      modifies mixedBkt
      ensures EarlyFilled(Cfg(), newOrderBkt, itemBkt, mixedBkt[..], queue, lo, n + 1)
    {
      ghost var queue0 := mixedBkt[..];
      BucketDistricts(p, pos, 1, false, [], mixedBkt);
      FilledNext(Cfg(), QueueThreads, queue0, mixedBkt[..], queue, lo, n, []);
      FilledSkip(Cfg(), EntryThreads, PairsOf(newOrderBkt), queue, lo, n, []);
      FilledSkip(Cfg(), StockThreads, itemBkt, queue, lo, n, []);
    }

    /** One New-Order in the first round. */
    method EarlyNewOrder(
      ghost queue: seq<Txn>, ghost lo: nat, ghost n: nat, p: NewOrderParam, pos: nat,
      newOrderBkt: array<seq<nat>>, itemBkt: array<seq<(nat, int)>>, mixedBkt: array<seq<(nat, int)>>)
      requires parallelism > 0 && lo <= n < |queue| && queue[n] == NewOrder(p) && pos == |VectorsOf(queue, lo, n).newOrders|
      requires |p.iIds| == |p.iWIds| && itemBkt != mixedBkt
      requires EarlyFilled(Cfg(), newOrderBkt[..], itemBkt[..], mixedBkt[..], queue, lo, n)
      modifies newOrderBkt, itemBkt, mixedBkt
      ensures EarlyFilled(Cfg(), newOrderBkt[..], itemBkt[..], mixedBkt[..], queue, lo, n + 1)
    {
      ghost var entry0, stock0, queue0 := PairsOf(newOrderBkt[..]), itemBkt[..], mixedBkt[..];
      var slot := DistrictIndex(p.wId, p.dId);
      mixedBkt[slot] := mixedBkt[slot] + [(pos, -1)];
      newOrderBkt[slot] := newOrderBkt[slot] + [pos];
      BucketItems(p, pos, itemBkt);
      forall t | 0 <= t < parallelism ensures PairsOf(newOrderBkt[..])[t] == entry0[t] + One(slot == t, pos, -1) {}
      FilledNext(Cfg(), EntryThreads, entry0, PairsOf(newOrderBkt[..]), queue, lo, n, []);
      FilledNext(Cfg(), StockThreads, stock0, itemBkt[..], queue, lo, n, []);
      FilledNext(Cfg(), QueueThreads, queue0, mixedBkt[..], queue, lo, n, []);
    }

    method EarlyRound(
      ghost queue: seq<Txn>, ghost lo: nat, ghost n: nat, txn: Txn, deliveryPos: nat, newOrderPos: nat,
      newOrderBkt: array<seq<nat>>, itemBkt: array<seq<(nat, int)>>, mixedBkt: array<seq<(nat, int)>>)
      requires parallelism > 0 && lo <= n < |queue| && queue[n] == txn && itemBkt != mixedBkt
      requires deliveryPos == |VectorsOf(queue, lo, n).deliveries| && newOrderPos == |VectorsOf(queue, lo, n).newOrders|
      requires txn.NewOrder? ==> |txn.np.iIds| == |txn.np.iWIds|
      requires EarlyFilled(Cfg(), newOrderBkt[..], itemBkt[..], mixedBkt[..], queue, lo, n)
      modifies newOrderBkt, itemBkt, mixedBkt
      ensures EarlyFilled(Cfg(), newOrderBkt[..], itemBkt[..], mixedBkt[..], queue, lo, n + 1)
    {
      ghost var entry0, item0, mixed0 := newOrderBkt[..], itemBkt[..], mixedBkt[..];
      match txn {
        case Delivery(p) =>
          EarlyDelivery(queue, lo, n, p, deliveryPos, entry0, item0, mixedBkt);
          assert newOrderBkt[..] == entry0 && itemBkt[..] == item0;
        case NewOrder(p) =>
          EarlyNewOrder(queue, lo, n, p, newOrderPos, newOrderBkt, itemBkt, mixedBkt);
        case _ =>
          EarlySkip(Cfg(), entry0, item0, mixed0, queue, lo, n);
      }
    }

    /** One round of the loop: buckets, counters and no_o_ids_vector. */
    method EarlyStep(
      ghost queue: seq<Txn>, ghost lo: nat, ghost n: nat, txn: Txn, deliveryPos: nat, newOrderPos: nat, noOIds: seq<seq<int>>,
      newOrderBkt: array<seq<nat>>, itemBkt: array<seq<(nat, int)>>, mixedBkt: array<seq<(nat, int)>>)
      returns (deliveryPos': nat, newOrderPos': nat, noOIds': seq<seq<int>>)
      requires parallelism > 0 && lo <= n < |queue| && queue[n] == txn && itemBkt != mixedBkt
      requires txn.NewOrder? ==> |txn.np.iIds| == |txn.np.iWIds|
      requires EarlyState(Cfg(), newOrderBkt[..], itemBkt[..], mixedBkt[..], deliveryPos, newOrderPos, noOIds, queue, lo, n)
      modifies newOrderBkt, itemBkt, mixedBkt
      ensures EarlyState(Cfg(), newOrderBkt[..], itemBkt[..], mixedBkt[..], deliveryPos', newOrderPos', noOIds', queue, lo, n + 1)
    {
      EarlyRound(queue, lo, n, txn, deliveryPos, newOrderPos, newOrderBkt, itemBkt, mixedBkt);
      EarlyCountNext(deliveryPos, newOrderPos, noOIds, queue, lo, n);
      deliveryPos', newOrderPos', noOIds' := deliveryPos, newOrderPos, noOIds;
      if txn.Delivery? {
        noOIds', deliveryPos' := noOIds + [NoneTaken()], deliveryPos + 1;
      } else if txn.NewOrder? {
        newOrderPos' := newOrderPos + 1;
      }
    }

    method EarlyLoop(
      ghost queue: seq<Txn>, ghost lo: nat, ghost hi: nat,
      newOrderBkt: array<seq<nat>>, itemBkt: array<seq<(nat, int)>>, mixedBkt: array<seq<(nat, int)>>)
      returns (deliveryPos: nat, newOrderPos: nat, noOIds: seq<seq<int>>)
      requires parallelism > 0 && lo <= hi <= |queue| && Holds(queue, lo, hi) && itemBkt != mixedBkt
      requires forall n | lo <= n < hi && queue[n].NewOrder? :: |queue[n].np.iIds| == |queue[n].np.iWIds|
      requires EarlyState(Cfg(), newOrderBkt[..], itemBkt[..], mixedBkt[..], 0, 0, [], queue, lo, lo)
      modifies newOrderBkt, itemBkt, mixedBkt
      ensures EarlyState(Cfg(), newOrderBkt[..], itemBkt[..], mixedBkt[..], deliveryPos, newOrderPos, noOIds, queue, lo, hi)
    {
      deliveryPos, newOrderPos, noOIds := 0, 0, [];
      var i := 0;
      ghost var n := lo;
      while i < |batchParams|
        invariant i <= |batchParams| && n == lo + i
        invariant EarlyState(Cfg(), newOrderBkt[..], itemBkt[..], mixedBkt[..], deliveryPos, newOrderPos, noOIds, queue, lo, n)
      {
        assert batchParams[i] == queue[n];
        deliveryPos, newOrderPos, noOIds :=
          EarlyStep(queue, lo, n, batchParams[i], deliveryPos, newOrderPos, noOIds, newOrderBkt, itemBkt, mixedBkt);
        i, n := i + 1, n + 1;
      }
      assert n == hi;
    }

    /** The first round of bucket building, before any thread is spawned. */
    method BuildEarlyBuckets(ghost queue: seq<Txn>, ghost lo: nat, ghost hi: nat)
      returns (newOrderBkt: array<seq<nat>>, itemBkt: array<seq<(nat, int)>>, mixedBkt: array<seq<(nat, int)>>, noOIds: seq<seq<int>>)
      requires parallelism > 0 && lo <= hi <= |queue| && Holds(queue, lo, hi)
      requires forall n | lo <= n < hi && queue[n].NewOrder? :: |queue[n].np.iIds| == |queue[n].np.iWIds|
      ensures EarlyFilled(Cfg(), newOrderBkt[..], itemBkt[..], mixedBkt[..], queue, lo, hi)
      ensures EarlyCount(|noOIds|, |VectorsOf(queue, lo, hi).newOrders|, noOIds, queue, lo, hi)
    {
      newOrderBkt := new seq<nat>[parallelism](_ => []);
      itemBkt := new seq<(nat, int)>[parallelism](_ => []);
      mixedBkt := new seq<(nat, int)>[parallelism](_ => []);
      EarlyStart(Cfg(), newOrderBkt[..], itemBkt[..], mixedBkt[..], queue, lo);
      var _, _, rows := EarlyLoop(queue, lo, hi, newOrderBkt, itemBkt, mixedBkt);
      noOIds := rows;
    }

    /** One delivery in the second round: only districts where an order was taken. */
    method LateRound(
      ghost queue: seq<Txn>, ghost lo: nat, ghost n: nat, txn: Txn, deliveryPos: nat, paymentPos: nat, noOIds: seq<seq<int>>,
      mixedBkt: array<seq<(nat, int)>>, deliveryBkt: array<seq<(nat, int)>>)
      requires parallelism > 0 && lo <= n < |queue| && queue[n] == txn && mixedBkt != deliveryBkt
      requires deliveryPos == |VectorsOf(queue, lo, n).deliveries| && paymentPos == |VectorsOf(queue, lo, n).payments|
      requires txn.Delivery? ==> deliveryPos < |noOIds| && |noOIds[deliveryPos]| == DISTRICTS_PER_WAREHOUSE + 1
      requires LateFilled(Cfg(), mixedBkt[..], deliveryBkt[..], queue, lo, n, noOIds)
      modifies mixedBkt, deliveryBkt
      ensures LateFilled(Cfg(), mixedBkt[..], deliveryBkt[..], queue, lo, n + 1, noOIds)
    {
      ghost var mixed, delivery := mixedBkt[..], deliveryBkt[..];
      match txn {
        case Delivery(p) =>
          BucketDistricts(p, deliveryPos, 1, true, noOIds, mixedBkt);
          BucketDistricts(p, deliveryPos, 1, true, noOIds, deliveryBkt);
        case Payment(p) =>
          var slot := DistrictIndex(p.wId, p.dId);
          mixedBkt[slot] := mixedBkt[slot] + [(paymentPos, -1)];
        case _ =>
      }
      FilledNext(Cfg(), CustomerThreads, mixed, mixedBkt[..], queue, lo, n, noOIds);
      FilledNext(Cfg(), StampThreads, delivery, deliveryBkt[..], queue, lo, n, noOIds);
    }

    /** The second round of bucket building, once the oldest orders are taken. */
    method BuildLateBuckets(ghost queue: seq<Txn>, ghost lo: nat, ghost hi: nat, noOIds: seq<seq<int>>)
      returns (mixedBkt: array<seq<(nat, int)>>, deliveryBkt: array<seq<(nat, int)>>)
      requires parallelism > 0 && lo <= hi <= |queue| && Holds(queue, lo, hi)
      requires |noOIds| == |VectorsOf(queue, lo, hi).deliveries|
      requires forall pos | 0 <= pos < |noOIds| :: |noOIds[pos]| == DISTRICTS_PER_WAREHOUSE + 1
      ensures LateFilled(Cfg(), mixedBkt[..], deliveryBkt[..], queue, lo, hi, noOIds)
    {
      mixedBkt := new seq<(nat, int)>[parallelism](_ => []);
      deliveryBkt := new seq<(nat, int)>[parallelism](_ => []);
      LateStart(Cfg(), mixedBkt[..], deliveryBkt[..], queue, lo, noOIds);
      LateLoop(queue, lo, hi, noOIds, mixedBkt, deliveryBkt);
    }

    method LateLoop(
      ghost queue: seq<Txn>, ghost lo: nat, ghost hi: nat, noOIds: seq<seq<int>>,
      mixedBkt: array<seq<(nat, int)>>, deliveryBkt: array<seq<(nat, int)>>)
      requires parallelism > 0 && lo <= hi <= |queue| && Holds(queue, lo, hi) && mixedBkt != deliveryBkt
      requires |noOIds| == |VectorsOf(queue, lo, hi).deliveries|
      requires forall pos | 0 <= pos < |noOIds| :: |noOIds[pos]| == DISTRICTS_PER_WAREHOUSE + 1
      requires LateFilled(Cfg(), mixedBkt[..], deliveryBkt[..], queue, lo, lo, noOIds)
      modifies mixedBkt, deliveryBkt
      ensures LateFilled(Cfg(), mixedBkt[..], deliveryBkt[..], queue, lo, hi, noOIds)
    {
      var deliveryPos, paymentPos: nat := 0, 0;
      var i := 0;
      ghost var n := lo;
      while i < |batchParams|
        invariant i <= |batchParams| && n == lo + i
        invariant deliveryPos == |VectorsOf(queue, lo, n).deliveries| && paymentPos == |VectorsOf(queue, lo, n).payments|
        invariant LateFilled(Cfg(), mixedBkt[..], deliveryBkt[..], queue, lo, n, noOIds)
      {
        assert batchParams[i] == queue[n];
        VectorsGrow(queue, lo, n, hi);
        LateRound(queue, lo, n, batchParams[i], deliveryPos, paymentPos, noOIds, mixedBkt, deliveryBkt);
        assert LateFilled(Cfg(), mixedBkt[..], deliveryBkt[..], queue, lo, n + 1, noOIds);
        VectorsCount(queue, lo, n);
        if batchParams[i].Delivery? {
          deliveryPos := deliveryPos + 1;
        } else if batchParams[i].Payment? {
          paymentPos := paymentPos + 1;
        }
        i, n := i + 1, n + 1;
      }
      assert n == hi;
    }
  }

  // ---- One bucket, several groups ----

  /** The threads of steps 1 and 2 and those of step 6 of New-Order read the same buckets, and
      so do those of steps 4 and 5, and those of steps 2 and 3 of Delivery. */
  predicate Share(g: Group, g': Group) {
    (g.EntryThreads? && g'.LineThreads?) || (g.StockThreads? && g'.PriceThreads?) || (g.StampThreads? && g'.CarrierThreads?)
  }

  lemma ShareEntries(cfg: Config, g: Group, g': Group, txn: Txn, u: Vectors, t: nat, noOIds: seq<seq<int>>)
    requires Share(g, g')
    ensures TxnEntries(cfg, g', txn, u, t, noOIds) == TxnEntries(cfg, g, txn, u, t, noOIds)
  {
  }

  lemma {:induction false} SharedBucket(cfg: Config, g: Group, g': Group, queue: seq<Txn>, lo: nat, hi: nat, t: nat, noOIds: seq<seq<int>>)
    requires lo <= hi <= |queue| && Share(g, g')
    ensures Entries(cfg, g', queue, lo, hi, t, noOIds) == Entries(cfg, g, queue, lo, hi, t, noOIds)
    decreases hi
  {
    if lo < hi {
      var n := hi - 1;
      SharedBucket(cfg, g, g', queue, lo, n, t, noOIds);
      ShareEntries(cfg, g, g', queue[n], VectorsOf(queue, lo, n), t, noOIds);
      EntriesNext(cfg, g, queue, lo, n, hi, t, noOIds);
      EntriesNext(cfg, g', queue, lo, n, hi, t, noOIds);
    }
  }

  lemma SharedDeals(
      cfg: Config, g: Group, g': Group, bkts: seq<seq<(nat, int)>>, queue: seq<Txn>, lo: nat, hi: nat, noOIds: seq<seq<int>>, snap: Store)
    requires lo <= hi <= |queue| && Share(g, g') && Filled(cfg, g, bkts, queue, lo, hi, noOIds)
    requires IsEarly(g') || Shows(noOIds, VectorsOf(queue, lo, hi), snap)
    ensures Deals(cfg, g', bkts, queue, lo, hi, snap)
  {
    forall t | 0 <= t < |bkts| ensures bkts[t] == Entries(cfg, g', queue, lo, hi, t, noOIds) {
      SharedBucket(cfg, g, g', queue, lo, hi, t, noOIds);
    }
    FilledDeals(cfg, g', bkts, queue, lo, hi, noOIds, snap);
  }

  /** A payment thread runs through the whole vector of payments. */
  function EveryPosition(n: nat): seq<(nat, int)> {
    seq(n, i requires 0 <= i < n => (i, -1))
  }

  lemma {:induction false} PaymentLoops(cfg: Config, g: Group, queue: seq<Txn>, lo: nat, hi: nat)
    requires lo <= hi <= |queue| && (g.PayThread1? || g.PayThread2? || g.PayThread3?)
    ensures Entries(cfg, g, queue, lo, hi, 0, []) == EveryPosition(|VectorsOf(queue, lo, hi).payments|)
    decreases hi
  {
    if lo < hi {
      PaymentLoops(cfg, g, queue, lo, hi - 1);
      VectorsCount(queue, lo, hi - 1);
    }
  }

  // ---- The buckets are those of the model ----

  /** ALL EARLY THREADS.  The buckets of the first round make every thread of the first five
      groups run exactly the steps that the fork-join model deals to it. */
  lemma EarlyBucketsDeal(
      cfg: Config, newOrderBkt: seq<seq<nat>>, itemBkt: seq<seq<(nat, int)>>, mixedBkt: seq<seq<(nat, int)>>,
      queue: seq<Txn>, lo: nat, hi: nat, snap: Store)
    requires lo <= hi <= |queue| && EarlyFilled(cfg, newOrderBkt, itemBkt, mixedBkt, queue, lo, hi)
    ensures Deals(cfg, EntryThreads, PairsOf(newOrderBkt), queue, lo, hi, snap) && Deals(cfg, LineThreads, PairsOf(newOrderBkt), queue, lo, hi, snap)
    ensures Deals(cfg, StockThreads, itemBkt, queue, lo, hi, snap) && Deals(cfg, PriceThreads, itemBkt, queue, lo, hi, snap)
    ensures Deals(cfg, QueueThreads, mixedBkt, queue, lo, hi, snap)
  {
    FilledDeals(cfg, EntryThreads, PairsOf(newOrderBkt), queue, lo, hi, [], snap);
    SharedDeals(cfg, EntryThreads, LineThreads, PairsOf(newOrderBkt), queue, lo, hi, [], snap);
    FilledDeals(cfg, StockThreads, itemBkt, queue, lo, hi, [], snap);
    SharedDeals(cfg, StockThreads, PriceThreads, itemBkt, queue, lo, hi, [], snap);
    FilledDeals(cfg, QueueThreads, mixedBkt, queue, lo, hi, [], snap);
  }

  /** ALL LATE THREADS.  If no_o_ids_vector shows what the store held when the second round
      read it, its buckets too are those of the model. */
  lemma LateBucketsDeal(
      cfg: Config, mixedBkt: seq<seq<(nat, int)>>, deliveryBkt: seq<seq<(nat, int)>>, queue: seq<Txn>, lo: nat, hi: nat,
      noOIds: seq<seq<int>>, snap: Store)
    requires lo <= hi <= |queue| && LateFilled(cfg, mixedBkt, deliveryBkt, queue, lo, hi, noOIds)
    requires Shows(noOIds, VectorsOf(queue, lo, hi), snap)
    ensures Deals(cfg, CustomerThreads, mixedBkt, queue, lo, hi, snap)
    ensures Deals(cfg, StampThreads, deliveryBkt, queue, lo, hi, snap) && Deals(cfg, CarrierThreads, deliveryBkt, queue, lo, hi, snap)
  {
    FilledDeals(cfg, CustomerThreads, mixedBkt, queue, lo, hi, noOIds, snap);
    FilledDeals(cfg, StampThreads, deliveryBkt, queue, lo, hi, noOIds, snap);
    SharedDeals(cfg, StampThreads, CarrierThreads, deliveryBkt, queue, lo, hi, noOIds, snap);
  }

  lemma {:induction false} DeliveriesInRange(queue: seq<Txn>, lo: nat, hi: nat)
    requires lo <= hi <= |queue|
    ensures forall i | 0 <= i < |VectorsOf(queue, lo, hi).deliveries| :: lo <= VectorsOf(queue, lo, hi).deliveries[i].0 < hi
    decreases hi
  {
    if lo < hi { DeliveriesInRange(queue, lo, hi - 1); }
  }

  /** The rows of -1 that the first round appends show a store in which the batch has handed
      nothing over yet. */
  lemma FirstRowsShow(noOIds: seq<seq<int>>, queue: seq<Txn>, lo: nat, hi: nat, s: Store)
    requires lo <= hi <= |queue| && FreshFrom(s, lo, hi)
    requires EarlyCount(|noOIds|, |VectorsOf(queue, lo, hi).newOrders|, noOIds, queue, lo, hi)
    ensures Shows(noOIds, VectorsOf(queue, lo, hi), s)
  {
    var v := VectorsOf(queue, lo, hi);
    DeliveriesInRange(queue, lo, hi);
    forall pos, d | 0 <= pos < |noOIds| && 1 <= d <= DISTRICTS_PER_WAREHOUSE ensures ShownAt(noOIds, v, s, pos, d) {
      assert noOIds[pos] == NoneTaken() && FreshFor(s, v.deliveries[pos].0);
    }
  }
}
