/** The parameter vectors and buckets of a batch, and the hash that deals out stock rows.
    A bucket holds positions in the parameter vectors; what a thread runs for a bucket is
    proved to be exactly the order-preserving filter that the fork-join model deals to it. */
module TpccBuckets {
  import opened Replay
  import opened ForkJoin
  import opened TpccModel
  import opened TpccFootprint
  import opened TpccSerialRun
  import opened TpccSchedule

  // ---- hash_int ----

  function Flipped(key: bv32): bv32 { !key + (key << 15) }
  function Folded12(key: bv32): bv32 { key ^ (key >> 12) }
  function Shuffled(key: bv32): bv32 { key + (key << 2) }
  function Folded4(key: bv32): bv32 { key ^ (key >> 4) }
  function Scaled(key: bv32): bv32 { key * 2057 }
  function Folded16(key: bv32): bv32 { key ^ (key >> 16) }

  function Hash(key: bv32): bv32 {
    Folded16(Scaled(Folded4(Shuffled(Folded12(Flipped(key))))))
  }

  method HashInt(word: bv32) returns (key: bv32)
    ensures key == Hash(word)
  {
    key := word;
    key := Flipped(key);
    key := Folded12(key);
    key := Shuffled(key);
    key := Folded4(key);
    key := Scaled(key);
    key := Folded16(key);
  }

  /** An `int` passed to hash_int is taken modulo 2^32. */
  function HashOf(key: int): nat {
    Hash((key % 0x1_0000_0000) as bv32) as nat
  }

  method HashWord(word: int) returns (key: nat)
    ensures key == HashOf(word)
  {
    var bits := HashInt((word % 0x1_0000_0000) as bv32);
    key := bits as nat;
  }

  // ---- Parameter vectors ----

  /** The parameter vectors of a batch, each entry with its place in the queue. */
  datatype Vectors = Vectors(
    deliveries: seq<(nat, DeliveryParam)>, newOrders: seq<(nat, NewOrderParam)>, payments: seq<(nat, PaymentParam)>)

  function VectorsOf(queue: seq<Txn>, lo: nat, hi: nat): Vectors
    requires lo <= hi <= |queue|
  {
    if lo == hi then Vectors([], [], [])
    else
      var v, n := VectorsOf(queue, lo, hi - 1), hi - 1;
      match queue[n]
      case Delivery(p) => v.(deliveries := v.deliveries + [(n, p)])
      case NewOrder(p) => v.(newOrders := v.newOrders + [(n, p)])
      case Payment(p) => v.(payments := v.payments + [(n, p)])
      case Other => v
  }

  /** Vectors v go on where u ends. */
  predicate Continues(u: Vectors, v: Vectors) {
    u.deliveries <= v.deliveries && u.newOrders <= v.newOrders && u.payments <= v.payments
  }

  /** Right behind u, vectors v hold transaction txn with its place n. */
  predicate HoldsNext(u: Vectors, v: Vectors, n: nat, txn: Txn) {
    match txn
    case Delivery(p) => |u.deliveries| < |v.deliveries| && v.deliveries[|u.deliveries|] == (n, p)
    case NewOrder(p) => |u.newOrders| < |v.newOrders| && v.newOrders[|u.newOrders|] == (n, p)
    case Payment(p) => |u.payments| < |v.payments| && v.payments[|u.payments|] == (n, p)
    case Other => true
  }

  /** The next position of the vectors filled so far is where transaction mid will be found. */
  lemma {:induction false} VectorsGrow(queue: seq<Txn>, lo: nat, mid: nat, hi: nat)
    requires lo <= mid <= hi <= |queue|
    ensures Continues(VectorsOf(queue, lo, mid), VectorsOf(queue, lo, hi))
    ensures mid < hi ==> HoldsNext(VectorsOf(queue, lo, mid), VectorsOf(queue, lo, hi), mid, queue[mid])
    decreases hi - mid
  {
    if mid < hi {
      VectorsGrow(queue, lo, mid + 1, hi);
    }
  }

  // ---- What a thread does with a bucket ----

  /** The steps that a thread of group g runs for one entry of its bucket. */
  function EntrySteps(g: Group, e: (nat, int), v: Vectors): seq<Step> {
    var (pos, i) := e;
    match g
    case EntryThreads =>
      if pos < |v.newOrders| then [NewOrder1(v.newOrders[pos].0, v.newOrders[pos].1), NewOrder2(v.newOrders[pos].0, v.newOrders[pos].1)] else []
    case LineThreads =>
      if pos < |v.newOrders| then [NewOrder6(v.newOrders[pos].0, v.newOrders[pos].1)] else []
    case StockThreads =>
      if pos < |v.newOrders| && i >= 0 then [NewOrder4(v.newOrders[pos].0, v.newOrders[pos].1, i)] else []
    case PriceThreads =>
      if pos < |v.newOrders| && i >= 0 then [NewOrder5(v.newOrders[pos].0, v.newOrders[pos].1, i)] else []
    case QueueThreads =>
      if i == -1 then if pos < |v.newOrders| then [NewOrder3(v.newOrders[pos].0, v.newOrders[pos].1)] else []
      else if pos < |v.deliveries| then [Delivery1(v.deliveries[pos].0, v.deliveries[pos].1, i)] else []
    case StampThreads =>
      if pos < |v.deliveries| then [Delivery2(v.deliveries[pos].0, v.deliveries[pos].1, i)] else []
    case CarrierThreads =>
      if pos < |v.deliveries| then [Delivery3(v.deliveries[pos].0, v.deliveries[pos].1, i)] else []
    case CustomerThreads =>
      if i == -1 then if pos < |v.payments| then [Payment4(v.payments[pos].0, v.payments[pos].1)] else []
      else if pos < |v.deliveries| then [Delivery4(v.deliveries[pos].0, v.deliveries[pos].1, i)] else []
    case PayThread1 => if pos < |v.payments| then [Payment1(v.payments[pos].0, v.payments[pos].1)] else []
    case PayThread2 => if pos < |v.payments| then [Payment2(v.payments[pos].0, v.payments[pos].1)] else []
    case PayThread3 => if pos < |v.payments| then [Payment3(v.payments[pos].0, v.payments[pos].1)] else []
  }

  function Work(g: Group, b: seq<(nat, int)>, v: Vectors): seq<Step> {
    if b == [] then [] else Work(g, b[..|b| - 1], v) + EntrySteps(g, b[|b| - 1], v)
  }

  lemma {:induction false} WorkAppend(g: Group, a: seq<(nat, int)>, b: seq<(nat, int)>, v: Vectors)
    ensures Work(g, a + b, v) == Work(g, a, v) + Work(g, b, v)
  {
    if b == [] {
      assert a + b == a;
    } else {
      var c, e := b[..|b| - 1], b[|b| - 1];
      WorkAppend(g, a, c, v);
      assert (a + b)[..|a + b| - 1] == a + c && (a + b)[|a + b| - 1] == e;
      calc {
        Work(g, a + b, v);
        Work(g, a + c, v) + EntrySteps(g, e, v);
        Work(g, a, v) + Work(g, c, v) + EntrySteps(g, e, v);
        { JoinedLeft(Work(g, a, v), Work(g, c, v), EntrySteps(g, e, v)); }
        Work(g, a, v) + Work(g, b, v);
      }
    }
  }

  // ---- The entries that one transaction adds to the bucket of thread t ----

  function One(here: bool, pos: nat, i: int): seq<(nat, int)> {
    if here then [(pos, i)] else []
  }

  function ItemEntries(cfg: Config, p: NewOrderParam, pos: nat, l: nat, t: nat): seq<(nat, int)>
    decreases |p.iIds| - l
  {
    if l >= |p.iIds| then [] else One(LineSlot(cfg, p, l) == t, pos, l) + ItemEntries(cfg, p, pos, l + 1, t)
  }

  /** no_o_ids_vector shows that the delivery at position pos took an order of district d. */
  predicate TakenAt(noOIds: seq<seq<int>>, pos: nat, d: int) {
    pos < |noOIds| && 0 <= d < |noOIds[pos]| && noOIds[pos][d] != -1
  }

  /** Districts d and up of a delivery: all of them, or, in the second round of bucket
      building, those where an order was taken. */
  function DistrictEntries(cfg: Config, w: int, pos: nat, d: nat, t: nat, late: bool, noOIds: seq<seq<int>>): seq<(nat, int)>
    decreases noOIds, DISTRICTS_PER_WAREHOUSE - d
  {
    if d > DISTRICTS_PER_WAREHOUSE then []
    else One(DistrictSlot(cfg, w, d) == t && (late ==> TakenAt(noOIds, pos, d)), pos, d)
         + DistrictEntries(cfg, w, pos, d + 1, t, late, noOIds)
  }

  function DeliveryEntries(cfg: Config, g: Group, p: DeliveryParam, pos: nat, t: nat, noOIds: seq<seq<int>>): seq<(nat, int)> {
    if g.QueueThreads? then DistrictEntries(cfg, p.wId, pos, 1, t, false, noOIds)
    else if g.StampThreads? || g.CarrierThreads? || g.CustomerThreads? then DistrictEntries(cfg, p.wId, pos, 1, t, true, noOIds)
    else []
  }

  function NewOrderEntries(cfg: Config, g: Group, p: NewOrderParam, pos: nat, t: nat): seq<(nat, int)> {
    if g.EntryThreads? || g.QueueThreads? || g.LineThreads? then One(DistrictSlot(cfg, p.wId, p.dId) == t, pos, -1)
    else if g.StockThreads? || g.PriceThreads? then ItemEntries(cfg, p, pos, 0, t)
    else []
  }

  function PaymentEntries(cfg: Config, g: Group, p: PaymentParam, pos: nat, t: nat): seq<(nat, int)> {
    if g.CustomerThreads? then One(DistrictSlot(cfg, p.wId, p.dId) == t, pos, -1)
    else if g.PayThread1? || g.PayThread2? || g.PayThread3? then One(t == 0, pos, -1)
    else []
  }

  /** The entries of transaction txn, with the parameter vectors filled to u so far. */
  function TxnEntries(cfg: Config, g: Group, txn: Txn, u: Vectors, t: nat, noOIds: seq<seq<int>>): seq<(nat, int)> {
    match txn
    case Delivery(p) => DeliveryEntries(cfg, g, p, |u.deliveries|, t, noOIds)
    case NewOrder(p) => NewOrderEntries(cfg, g, p, |u.newOrders|, t)
    case Payment(p) => PaymentEntries(cfg, g, p, |u.payments|, t)
    case Other => []
  }

  /** The bucket of thread t after the loop has seen transactions lo..hi. */
  function Entries(cfg: Config, g: Group, queue: seq<Txn>, lo: nat, hi: nat, t: nat, noOIds: seq<seq<int>>): seq<(nat, int)>
    requires lo <= hi <= |queue|
    decreases hi
  {
    if lo == hi then []
    else Entries(cfg, g, queue, lo, hi - 1, t, noOIds) + TxnEntries(cfg, g, queue[hi - 1], VectorsOf(queue, lo, hi - 1), t, noOIds)
  }

  // ---- Buckets of one transaction ----

  type BatchPlanT = Plan<Step, Group, Cell, Value>

  ghost predicate Assigns(plan: BatchPlanT, cfg: Config) {
    forall op, snap :: plan.assign(op, snap) == Assign(cfg, op, snap)
  }

  lemma BucketOne(plan: BatchPlanT, op: Step, snap: Store, tid: Tid<Group>)
    ensures Bucket(plan, [op], snap, tid) == if plan.assign(op, snap) == Some(tid) then [op] else []
  {
    assert Bucket(plan, [], snap, tid) == [];
  }

  lemma WorkOne(g: Group, e: (nat, int), v: Vectors)
    ensures Work(g, [e], v) == EntrySteps(g, e, v)
  {
    assert Work(g, [], v) == [];
  }

  lemma OneItem(plan: BatchPlanT, cfg: Config, n: nat, p: NewOrderParam, l: nat, v: Vectors, pos: nat, snap: Store, t: nat)
    requires Assigns(plan, cfg) && pos < |v.newOrders| && v.newOrders[pos] == (n, p)
    ensures
      var entry := One(LineSlot(cfg, p, l) == t, pos, l);
      && Work(StockThreads, entry, v) == Bucket(plan, [NewOrder4(n, p, l)], snap, Tid(StockThreads, t))
      && Work(PriceThreads, entry, v) == Bucket(plan, [NewOrder5(n, p, l)], snap, Tid(PriceThreads, t))
  {
    var slot := LineSlot(cfg, p, l);
    assert plan.assign(NewOrder4(n, p, l), snap) == Some(Tid(StockThreads, slot));
    assert plan.assign(NewOrder5(n, p, l), snap) == Some(Tid(PriceThreads, slot));
    BucketOne(plan, NewOrder4(n, p, l), snap, Tid(StockThreads, t));
    BucketOne(plan, NewOrder5(n, p, l), snap, Tid(PriceThreads, t));
    WorkOne(StockThreads, (pos, l), v);
    WorkOne(PriceThreads, (pos, l), v);
  }

  lemma {:induction false} StockBucket(
      plan: BatchPlanT, cfg: Config, n: nat, p: NewOrderParam, l: nat, v: Vectors, pos: nat, snap: Store, t: nat)
    requires Assigns(plan, cfg) && pos < |v.newOrders| && v.newOrders[pos] == (n, p)
    ensures Work(StockThreads, ItemEntries(cfg, p, pos, l, t), v) == Bucket(plan, StockSteps(n, p, l), snap, Tid(StockThreads, t))
    decreases |p.iIds| - l
  {
    if l < |p.iIds| {
      StockBucket(plan, cfg, n, p, l + 1, v, pos, snap, t);
      BucketAppend(plan, [NewOrder4(n, p, l)], StockSteps(n, p, l + 1), snap, Tid(StockThreads, t));
      OneItem(plan, cfg, n, p, l, v, pos, snap, t);
      WorkAppend(StockThreads, One(LineSlot(cfg, p, l) == t, pos, l), ItemEntries(cfg, p, pos, l + 1, t), v);
    }
  }

  lemma {:induction false} PriceBucket(
      plan: BatchPlanT, cfg: Config, n: nat, p: NewOrderParam, l: nat, v: Vectors, pos: nat, snap: Store, t: nat)
    requires Assigns(plan, cfg) && pos < |v.newOrders| && v.newOrders[pos] == (n, p)
    ensures Work(PriceThreads, ItemEntries(cfg, p, pos, l, t), v) == Bucket(plan, PriceSteps(n, p, l), snap, Tid(PriceThreads, t))
    decreases |p.iIds| - l
  {
    if l < |p.iIds| {
      PriceBucket(plan, cfg, n, p, l + 1, v, pos, snap, t);
      BucketAppend(plan, [NewOrder5(n, p, l)], PriceSteps(n, p, l + 1), snap, Tid(PriceThreads, t));
      OneItem(plan, cfg, n, p, l, v, pos, snap, t);
      WorkAppend(PriceThreads, One(LineSlot(cfg, p, l) == t, pos, l), ItemEntries(cfg, p, pos, l + 1, t), v);
    }
  }

  /** The step that group g runs for district d of a delivery. */
  function DistrictStep(g: Group, n: nat, p: DeliveryParam, d: int): Step {
    if g.QueueThreads? then Delivery1(n, p, d) else if g.StampThreads? then Delivery2(n, p, d)
    else if g.CarrierThreads? then Delivery3(n, p, d) else Delivery4(n, p, d)
  }

  lemma DistrictBucket(plan: BatchPlanT, cfg: Config, g: Group, n: nat, p: DeliveryParam, d: nat, snap: Store, t: nat)
    requires Assigns(plan, cfg)
    ensures
      var mine := DistrictSlot(cfg, p.wId, d) == t && (g.QueueThreads? || Delivered(snap, n, d));
      Bucket(plan, DistrictSteps(n, p, d), snap, Tid(g, t))
        == if mine && (g.QueueThreads? || g.StampThreads? || g.CarrierThreads? || g.CustomerThreads?) then [DistrictStep(g, n, p, d)] else []
  {
    var tid := Tid(g, t);
    var a, b, c, e := Delivery1(n, p, d), Delivery2(n, p, d), Delivery3(n, p, d), Delivery4(n, p, d);
    BucketFour(plan, a, b, c, e, snap, tid);
    var here := DistrictSlot(cfg, p.wId, d) == t;
    assert IfMine(plan, a, snap, tid) == if here && g.QueueThreads? then [a] else [];
    assert IfMine(plan, b, snap, tid) == if here && g.StampThreads? && Delivered(snap, n, d) then [b] else [];
    assert IfMine(plan, c, snap, tid) == if here && g.CarrierThreads? && Delivered(snap, n, d) then [c] else [];
    assert IfMine(plan, e, snap, tid) == if here && g.CustomerThreads? && Delivered(snap, n, d) then [e] else [];
  }

  function IfMine(plan: BatchPlanT, op: Step, snap: Store, tid: Tid<Group>): seq<Step> {
    if plan.assign(op, snap) == Some(tid) then [op] else []
  }

  lemma BucketFour(plan: BatchPlanT, a: Step, b: Step, c: Step, e: Step, snap: Store, tid: Tid<Group>)
    ensures Bucket(plan, [a, b, c, e], snap, tid)
         == IfMine(plan, a, snap, tid) + IfMine(plan, b, snap, tid) + IfMine(plan, c, snap, tid) + IfMine(plan, e, snap, tid)
  {
    BucketOne(plan, a, snap, tid);
    BucketOne(plan, b, snap, tid);
    BucketOne(plan, c, snap, tid);
    BucketOne(plan, e, snap, tid);
    BucketAppend(plan, [a], [b], snap, tid);
    BucketAppend(plan, [a] + [b], [c], snap, tid);
    BucketAppend(plan, [a] + [b] + [c], [e], snap, tid);
    assert [a, b, c, e] == [a] + [b] + [c] + [e];
  }

  /** What thread t of group g runs for districts d and up of a delivery is what it is dealt. */
  ghost predicate DistrictsDealt(
      plan: BatchPlanT, cfg: Config, g: Group, n: nat, p: DeliveryParam, d: nat, v: Vectors, pos: nat, snap: Store, t: nat, noOIds: seq<seq<int>>)
  {
    Work(g, DistrictEntries(cfg, p.wId, pos, d, t, !g.QueueThreads?, noOIds), v) == Bucket(plan, DeliverySteps(n, p, d), snap, Tid(g, t))
  }

  lemma NoDistrictDealt(
      plan: BatchPlanT, cfg: Config, g: Group, n: nat, p: DeliveryParam, d: nat, v: Vectors, pos: nat, snap: Store, t: nat, noOIds: seq<seq<int>>)
    requires d > DISTRICTS_PER_WAREHOUSE
    ensures DistrictsDealt(plan, cfg, g, n, p, d, v, pos, snap, t, noOIds)
  {
  }

  lemma DistrictDealt(
      plan: BatchPlanT, cfg: Config, g: Group, n: nat, p: DeliveryParam, d: nat, next: nat, v: Vectors, pos: nat, snap: Store, t: nat,
      noOIds: seq<seq<int>>, here: bool)
    requires d <= DISTRICTS_PER_WAREHOUSE && next == d + 1
    requires here <==> DistrictSlot(cfg, p.wId, d) == t && (!g.QueueThreads? ==> TakenAt(noOIds, pos, d))
    requires Work(g, One(here, pos, d), v) == Bucket(plan, DistrictSteps(n, p, d), snap, Tid(g, t))
    requires DistrictsDealt(plan, cfg, g, n, p, next, v, pos, snap, t, noOIds)
    ensures DistrictsDealt(plan, cfg, g, n, p, d, v, pos, snap, t, noOIds)
  {
    var mine, rest := One(here, pos, d), DistrictEntries(cfg, p.wId, pos, next, t, !g.QueueThreads?, noOIds);
    var now, later := DistrictSteps(n, p, d), DeliverySteps(n, p, next);
    TwoParts(plan, g, mine, rest, now, later, v, snap, t);
    assert DistrictEntries(cfg, p.wId, pos, d, t, !g.QueueThreads?, noOIds) == mine + rest;
    assert DeliverySteps(n, p, d) == now + later;
  }

  lemma {:induction false} DeliveryBucket(
      plan: BatchPlanT, cfg: Config, g: Group, n: nat, p: DeliveryParam, d: nat, v: Vectors, pos: nat, snap: Store, t: nat, noOIds: seq<seq<int>>)
    requires Assigns(plan, cfg) && pos < |v.deliveries| && v.deliveries[pos] == (n, p) && 1 <= d
    requires g.QueueThreads? || g.StampThreads? || g.CarrierThreads? || g.CustomerThreads?
    requires !g.QueueThreads? ==> forall e | 1 <= e <= DISTRICTS_PER_WAREHOUSE :: TakenAt(noOIds, pos, e) <==> Delivered(snap, n, e)
    ensures DistrictsDealt(plan, cfg, g, n, p, d, v, pos, snap, t, noOIds)
    decreases DISTRICTS_PER_WAREHOUSE - d
  {
    if d <= DISTRICTS_PER_WAREHOUSE {
      DeliveryBucket(plan, cfg, g, n, p, d + 1, v, pos, snap, t, noOIds);
      var here := DistrictSlot(cfg, p.wId, d) == t && (!g.QueueThreads? ==> TakenAt(noOIds, pos, d));
      OneDistrict(plan, cfg, g, n, p, d, v, pos, snap, t, here);
      DistrictDealt(plan, cfg, g, n, p, d, d + 1, v, pos, snap, t, noOIds, here);
    } else {
      NoDistrictDealt(plan, cfg, g, n, p, d, v, pos, snap, t, noOIds);
    }
  }

  lemma TwoParts(
      plan: BatchPlanT, g: Group, a: seq<(nat, int)>, b: seq<(nat, int)>, p: seq<Step>, q: seq<Step>, v: Vectors, snap: Store, t: nat)
    requires Work(g, a, v) == Bucket(plan, p, snap, Tid(g, t)) && Work(g, b, v) == Bucket(plan, q, snap, Tid(g, t))
    ensures Work(g, a + b, v) == Bucket(plan, p + q, snap, Tid(g, t))
  {
    WorkAppend(g, a, b, v);
    BucketAppend(plan, p, q, snap, Tid(g, t));
  }

  lemma OneDistrict(
      plan: BatchPlanT, cfg: Config, g: Group, n: nat, p: DeliveryParam, d: nat, v: Vectors, pos: nat, snap: Store, t: nat, here: bool)
    requires Assigns(plan, cfg) && pos < |v.deliveries| && v.deliveries[pos] == (n, p)
    requires g.QueueThreads? || g.StampThreads? || g.CarrierThreads? || g.CustomerThreads?
    requires here <==> DistrictSlot(cfg, p.wId, d) == t && (g.QueueThreads? || Delivered(snap, n, d))
    ensures Work(g, One(here, pos, d), v) == Bucket(plan, DistrictSteps(n, p, d), snap, Tid(g, t))
  {
    DistrictBucket(plan, cfg, g, n, p, d, snap, t);
    WorkOne(g, (pos, d), v);
  }

  lemma StockPart(plan: BatchPlanT, cfg: Config, g: Group, n: nat, p: NewOrderParam, v: Vectors, pos: nat, snap: Store, t: nat)
    requires Assigns(plan, cfg) && pos < |v.newOrders| && v.newOrders[pos] == (n, p)
    ensures Bucket(plan, StockSteps(n, p, 0), snap, Tid(g, t)) == Work(g, if g.StockThreads? then ItemEntries(cfg, p, pos, 0, t) else [], v)
  {
    if g.StockThreads? {
      StockBucket(plan, cfg, n, p, 0, v, pos, snap, t);
    } else {
      StockStepsListed(n, p, 0);
      NothingFor(plan, StockSteps(n, p, 0), snap, Tid(g, t));
    }
  }

  lemma PricePart(plan: BatchPlanT, cfg: Config, g: Group, n: nat, p: NewOrderParam, v: Vectors, pos: nat, snap: Store, t: nat)
    requires Assigns(plan, cfg) && pos < |v.newOrders| && v.newOrders[pos] == (n, p)
    ensures Bucket(plan, PriceSteps(n, p, 0), snap, Tid(g, t)) == Work(g, if g.PriceThreads? then ItemEntries(cfg, p, pos, 0, t) else [], v)
  {
    if g.PriceThreads? {
      PriceBucket(plan, cfg, n, p, 0, v, pos, snap, t);
    } else {
      PriceStepsListed(n, p, 0);
      NothingFor(plan, PriceSteps(n, p, 0), snap, Tid(g, t));
    }
  }

  /** The part of a New-Order between its first three steps and its last. */
  lemma ItemBucket(plan: BatchPlanT, cfg: Config, g: Group, n: nat, p: NewOrderParam, v: Vectors, pos: nat, snap: Store, t: nat, items: seq<Step>)
    requires Assigns(plan, cfg) && pos < |v.newOrders| && v.newOrders[pos] == (n, p)
    requires items == StockSteps(n, p, 0) + PriceSteps(n, p, 0)
    ensures Bucket(plan, items, snap, Tid(g, t))
         == if g.StockThreads? || g.PriceThreads? then Work(g, NewOrderEntries(cfg, g, p, pos, t), v) else []
  {
    BucketAppend(plan, StockSteps(n, p, 0), PriceSteps(n, p, 0), snap, Tid(g, t));
    StockPart(plan, cfg, g, n, p, v, pos, snap, t);
    PricePart(plan, cfg, g, n, p, v, pos, snap, t);
    assert Work(g, [], v) == [];
  }

  lemma EndsBucket(plan: BatchPlanT, cfg: Config, g: Group, n: nat, p: NewOrderParam, v: Vectors, pos: nat, snap: Store, t: nat)
    requires Assigns(plan, cfg) && pos < |v.newOrders| && v.newOrders[pos] == (n, p)
    ensures Bucket(plan, [NewOrder1(n, p), NewOrder2(n, p), NewOrder3(n, p), NewOrder6(n, p)], snap, Tid(g, t))
         == if g.StockThreads? || g.PriceThreads? then [] else Work(g, NewOrderEntries(cfg, g, p, pos, t), v)
  {
    var tid := Tid(g, t);
    var a, b, c, e := NewOrder1(n, p), NewOrder2(n, p), NewOrder3(n, p), NewOrder6(n, p);
    BucketFour(plan, a, b, c, e, snap, tid);
    var here := DistrictSlot(cfg, p.wId, p.dId) == t;
    assert IfMine(plan, a, snap, tid) == if here && g.EntryThreads? then [a] else [];
    assert IfMine(plan, b, snap, tid) == if here && g.EntryThreads? then [b] else [];
    assert IfMine(plan, c, snap, tid) == if here && g.QueueThreads? then [c] else [];
    assert IfMine(plan, e, snap, tid) == if here && g.LineThreads? then [e] else [];
    WorkOne(g, (pos, -1), v);
  }

  lemma AroundItems(plan: BatchPlanT, head: seq<Step>, items: seq<Step>, last: seq<Step>, snap: Store, tid: Tid<Group>)
    requires Bucket(plan, items, snap, tid) == [] || Bucket(plan, head + last, snap, tid) == []
    ensures Bucket(plan, head + items + last, snap, tid)
         == if Bucket(plan, items, snap, tid) == [] then Bucket(plan, head + last, snap, tid) else Bucket(plan, items, snap, tid)
  {
    BucketAppend(plan, head, items, snap, tid);
    BucketAppend(plan, head + items, last, snap, tid);
    BucketAppend(plan, head, last, snap, tid);
  }

  lemma NewOrderBucket(plan: BatchPlanT, cfg: Config, g: Group, n: nat, p: NewOrderParam, v: Vectors, pos: nat, snap: Store, t: nat)
    requires Assigns(plan, cfg) && pos < |v.newOrders| && v.newOrders[pos] == (n, p)
    ensures Work(g, NewOrderEntries(cfg, g, p, pos, t), v) == Bucket(plan, NewOrderSteps(n, p), snap, Tid(g, t))
  {
    var head, items, last := [NewOrder1(n, p), NewOrder2(n, p), NewOrder3(n, p)], StockSteps(n, p, 0) + PriceSteps(n, p, 0), [NewOrder6(n, p)];
    assert NewOrderSteps(n, p) == head + items + last;
    assert head + last == [NewOrder1(n, p), NewOrder2(n, p), NewOrder3(n, p), NewOrder6(n, p)];
    ItemBucket(plan, cfg, g, n, p, v, pos, snap, t, items);
    EndsBucket(plan, cfg, g, n, p, v, pos, snap, t);
    AroundItems(plan, head, items, last, snap, Tid(g, t));
  }

  lemma PaymentBucket(plan: BatchPlanT, cfg: Config, g: Group, n: nat, p: PaymentParam, v: Vectors, pos: nat, snap: Store, t: nat)
    requires Assigns(plan, cfg) && pos < |v.payments| && v.payments[pos] == (n, p)
    ensures Work(g, PaymentEntries(cfg, g, p, pos, t), v) == Bucket(plan, PaymentSteps(n, p), snap, Tid(g, t))
  {
    var tid := Tid(g, t);
    var a, b, c, e := Payment1(n, p), Payment2(n, p), Payment3(n, p), Payment4(n, p);
    BucketFour(plan, a, b, c, e, snap, tid);
    assert IfMine(plan, a, snap, tid) == if t == 0 && g.PayThread1? then [a] else [];
    assert IfMine(plan, b, snap, tid) == if t == 0 && g.PayThread2? then [b] else [];
    assert IfMine(plan, c, snap, tid) == if t == 0 && g.PayThread3? then [c] else [];
    assert IfMine(plan, e, snap, tid) == if DistrictSlot(cfg, p.wId, p.dId) == t && g.CustomerThreads? then [e] else [];
    WorkOne(g, (pos, -1), v);
  }

  // ---- Buckets of a batch ----

  /** no_o_ids_vector holds what the store holds: -1 where a delivery took no order. */
  ghost predicate Shows(noOIds: seq<seq<int>>, v: Vectors, snap: Store) {
    && |noOIds| == |v.deliveries|
    && forall pos, d | 0 <= pos < |noOIds| && 1 <= d <= DISTRICTS_PER_WAREHOUSE :: ShownAt(noOIds, v, snap, pos, d)
  }

  ghost predicate ShownAt(noOIds: seq<seq<int>>, v: Vectors, snap: Store, pos: nat, d: int)
    requires pos < |noOIds| == |v.deliveries|
  {
    && |noOIds[pos]| == DISTRICTS_PER_WAREHOUSE + 1
    && (1 <= d <= DISTRICTS_PER_WAREHOUSE ==> noOIds[pos][d] == NumOr(snap, HNoId(v.deliveries[pos].0, d), -1))
  }

  /** The groups whose buckets are filled before the first order is taken. */
  predicate IsEarly(g: Group) { !g.StampThreads? && !g.CarrierThreads? && !g.CustomerThreads? }

  lemma TxnBucket(
      plan: BatchPlanT, cfg: Config, g: Group, n: nat, txn: Txn, u: Vectors, v: Vectors, snap: Store, t: nat, noOIds: seq<seq<int>>)
    requires Assigns(plan, cfg) && (IsEarly(g) || Shows(noOIds, v, snap))
    requires
      match txn
      case Delivery(p) => |u.deliveries| < |v.deliveries| && v.deliveries[|u.deliveries|] == (n, p)
      case NewOrder(p) => |u.newOrders| < |v.newOrders| && v.newOrders[|u.newOrders|] == (n, p)
      case Payment(p) => |u.payments| < |v.payments| && v.payments[|u.payments|] == (n, p)
      case Other => true
    ensures Work(g, TxnEntries(cfg, g, txn, u, t, noOIds), v) == Bucket(plan, TxnSteps(n, txn), snap, Tid(g, t))
  {
    match txn
    case Delivery(p) => WholeDeliveryBucket(plan, cfg, g, n, p, v, |u.deliveries|, snap, t, noOIds);
    case NewOrder(p) => NewOrderBucket(plan, cfg, g, n, p, v, |u.newOrders|, snap, t);
    case Payment(p) => PaymentBucket(plan, cfg, g, n, p, v, |u.payments|, snap, t);
    case Other =>
  }

  lemma WholeDeliveryBucket(
      plan: BatchPlanT, cfg: Config, g: Group, n: nat, p: DeliveryParam, v: Vectors, pos: nat, snap: Store, t: nat, noOIds: seq<seq<int>>)
    requires Assigns(plan, cfg) && (IsEarly(g) || Shows(noOIds, v, snap))
    requires pos < |v.deliveries| && v.deliveries[pos] == (n, p)
    ensures Work(g, DeliveryEntries(cfg, g, p, pos, t, noOIds), v) == Bucket(plan, DeliverySteps(n, p, 1), snap, Tid(g, t))
  {
    if g.QueueThreads? || !IsEarly(g) {
      if !IsEarly(g) { TakenIsDelivered(n, v, pos, snap, noOIds); }
      DeliveryBucket(plan, cfg, g, n, p, 1, v, pos, snap, t, noOIds);
    } else {
      NoDeliveryBucket(plan, cfg, g, n, p, 1, snap, t);
    }
  }

  lemma NoDeliveryBucket(plan: BatchPlanT, cfg: Config, g: Group, n: nat, p: DeliveryParam, d: nat, snap: Store, t: nat)
    requires Assigns(plan, cfg) && !g.QueueThreads? && IsEarly(g) && 1 <= d
    ensures Bucket(plan, DeliverySteps(n, p, d), snap, Tid(g, t)) == []
  {
    DeliveryStepsListed(n, p, d);
    NothingFor(plan, DeliverySteps(n, p, d), snap, Tid(g, t));
  }

  lemma TakenIsDelivered(n: nat, v: Vectors, pos: nat, snap: Store, noOIds: seq<seq<int>>)
    requires Shows(noOIds, v, snap) && pos < |v.deliveries| && v.deliveries[pos].0 == n
    ensures forall d | 1 <= d <= DISTRICTS_PER_WAREHOUSE :: TakenAt(noOIds, pos, d) <==> Delivered(snap, n, d)
  {
    forall d | 1 <= d <= DISTRICTS_PER_WAREHOUSE ensures TakenAt(noOIds, pos, d) <==> Delivered(snap, n, d) {
      assert ShownAt(noOIds, v, snap, pos, d);
    }
  }

  lemma StepsNext(queue: seq<Txn>, lo: nat, n: nat, next: nat)
    requires lo <= n < |queue| && next == n + 1
    ensures Steps(queue, lo, next) == Steps(queue, lo, n) + TxnSteps(n, queue[n])
  {
    StepsAppend(queue, lo, n, next);
    StepsOfOne(queue, n, TxnSteps(n, queue[n]));
  }

  lemma EntriesNext(cfg: Config, g: Group, queue: seq<Txn>, lo: nat, n: nat, next: nat, t: nat, noOIds: seq<seq<int>>)
    requires lo <= n < |queue| && next == n + 1
    ensures Entries(cfg, g, queue, lo, next, t, noOIds)
         == Entries(cfg, g, queue, lo, n, t, noOIds) + TxnEntries(cfg, g, queue[n], VectorsOf(queue, lo, n), t, noOIds)
  {
  }

  lemma StepsOfOne(queue: seq<Txn>, n: nat, ops: seq<Step>)
    requires n < |queue| && ops == TxnSteps(n, queue[n])
    ensures Steps(queue, n, n + 1) == ops
  {
    assert Steps(queue, n + 1, n + 1) == [];
    assert ops + [] == ops;
  }

  /** What thread t of group g runs for its bucket, after the loop has seen lo..mid, is what
      the model deals to it. */
  ghost predicate IsDealt(
      plan: BatchPlanT, cfg: Config, g: Group, queue: seq<Txn>, lo: nat, mid: nat, v: Vectors, snap: Store, t: nat, noOIds: seq<seq<int>>)
    requires lo <= mid <= |queue|
  {
    Work(g, Entries(cfg, g, queue, lo, mid, t, noOIds), v) == Bucket(plan, Steps(queue, lo, mid), snap, Tid(g, t))
  }

  /** The same of the entries of transaction n alone. */
  ghost predicate TxnIsDealt(
      plan: BatchPlanT, cfg: Config, g: Group, queue: seq<Txn>, lo: nat, n: nat, v: Vectors, snap: Store, t: nat, noOIds: seq<seq<int>>)
    requires lo <= n < |queue|
  {
    Work(g, TxnEntries(cfg, g, queue[n], VectorsOf(queue, lo, n), t, noOIds), v) == Bucket(plan, TxnSteps(n, queue[n]), snap, Tid(g, t))
  }

  lemma OneTxnDealt(
      plan: BatchPlanT, cfg: Config, g: Group, queue: seq<Txn>, lo: nat, n: nat, hi: nat, v: Vectors, snap: Store, t: nat, noOIds: seq<seq<int>>)
    requires lo <= n < hi <= |queue| && Assigns(plan, cfg) && v == VectorsOf(queue, lo, hi)
    requires IsEarly(g) || Shows(noOIds, v, snap)
    ensures TxnIsDealt(plan, cfg, g, queue, lo, n, v, snap, t, noOIds)
  {
    VectorsGrow(queue, lo, n, hi);
    TxnBucket(plan, cfg, g, n, queue[n], VectorsOf(queue, lo, n), v, snap, t, noOIds);
  }

  lemma NoneDealt(
      plan: BatchPlanT, cfg: Config, g: Group, queue: seq<Txn>, lo: nat, mid: nat, v: Vectors, snap: Store, t: nat, noOIds: seq<seq<int>>)
    requires lo == mid <= |queue|
    ensures IsDealt(plan, cfg, g, queue, lo, mid, v, snap, t, noOIds)
  {
  }

  lemma DealtNext(
      plan: BatchPlanT, cfg: Config, g: Group, queue: seq<Txn>, lo: nat, n: nat, next: nat, v: Vectors, snap: Store, t: nat, noOIds: seq<seq<int>>)
    requires lo <= n < |queue| && next == n + 1
    requires IsDealt(plan, cfg, g, queue, lo, n, v, snap, t, noOIds) && TxnIsDealt(plan, cfg, g, queue, lo, n, v, snap, t, noOIds)
    ensures IsDealt(plan, cfg, g, queue, lo, next, v, snap, t, noOIds)
  {
    StepsNext(queue, lo, n, next);
    EntriesNext(cfg, g, queue, lo, n, next, t, noOIds);
    TwoParts(plan, g, Entries(cfg, g, queue, lo, n, t, noOIds), TxnEntries(cfg, g, queue[n], VectorsOf(queue, lo, n), t, noOIds),
             Steps(queue, lo, n), TxnSteps(n, queue[n]), v, snap, t);
  }

  /** IsDealt as a property of the place that the loop has reached. */
  ghost function DealtTo(
      plan: BatchPlanT, cfg: Config, g: Group, queue: seq<Txn>, lo: nat, hi: nat, v: Vectors, snap: Store, t: nat, noOIds: seq<seq<int>>): nat -> bool
    requires lo <= hi <= |queue|
  {
    m => lo <= m <= hi && IsDealt(plan, cfg, g, queue, lo, m, v, snap, t, noOIds)
  }

  lemma DealtCarries(
      plan: BatchPlanT, cfg: Config, g: Group, queue: seq<Txn>, lo: nat, n: nat, hi: nat, v: Vectors, snap: Store, t: nat, noOIds: seq<seq<int>>)
    requires lo <= n < hi <= |queue| && TxnIsDealt(plan, cfg, g, queue, lo, n, v, snap, t, noOIds)
    ensures Carries(DealtTo(plan, cfg, g, queue, lo, hi, v, snap, t, noOIds), n)
  {
    if IsDealt(plan, cfg, g, queue, lo, n, v, snap, t, noOIds) {
      DealtNext(plan, cfg, g, queue, lo, n, n + 1, v, snap, t, noOIds);
    }
  }

  lemma DealtUpTo(
      plan: BatchPlanT, cfg: Config, g: Group, queue: seq<Txn>, lo: nat, mid: nat, v: Vectors, snap: Store, t: nat, noOIds: seq<seq<int>>)
    requires lo <= mid <= |queue|
    requires forall n | lo <= n < mid :: TxnIsDealt(plan, cfg, g, queue, lo, n, v, snap, t, noOIds)
    ensures DealtTo(plan, cfg, g, queue, lo, mid, v, snap, t, noOIds)(mid)
  {
    var holds := DealtTo(plan, cfg, g, queue, lo, mid, v, snap, t, noOIds);
    assert holds(lo) by { NoneDealt(plan, cfg, g, queue, lo, lo, v, snap, t, noOIds); }
    forall n: nat | lo <= n < mid ensures Carries(holds, n) {
      DealtCarries(plan, cfg, g, queue, lo, n, mid, v, snap, t, noOIds);
    }
    Stepwise(holds, lo, mid);
  }

  /** BUCKETS ARE FILTERS.  A thread runs, for the bucket that the loops fill, the steps of the
      batch that are assigned to it, in queue order; and every position in the bucket leads to
      the parameter it was made from. */
  lemma EntriesAreDealt(
      plan: BatchPlanT, cfg: Config, g: Group, queue: seq<Txn>, lo: nat, mid: nat, hi: nat, snap: Store, t: nat, noOIds: seq<seq<int>>)
    requires lo <= mid <= hi <= |queue| && Assigns(plan, cfg)
    requires IsEarly(g) || Shows(noOIds, VectorsOf(queue, lo, hi), snap)
    ensures IsDealt(plan, cfg, g, queue, lo, mid, VectorsOf(queue, lo, hi), snap, t, noOIds)
  {
    var v := VectorsOf(queue, lo, hi);
    forall n | lo <= n < mid ensures TxnIsDealt(plan, cfg, g, queue, lo, n, v, snap, t, noOIds) {
      OneTxnDealt(plan, cfg, g, queue, lo, n, hi, v, snap, t, noOIds);
    }
    DealtUpTo(plan, cfg, g, queue, lo, mid, v, snap, t, noOIds);
  }
}
