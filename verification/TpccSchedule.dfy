/** The batch processor: which thread runs which sub-transaction, when groups of threads are
    spawned and joined, and why every run ends in the serial store. */
module TpccSchedule {
  import opened Replay
  import opened ForkJoin
  import opened TpccModel
  import opened TpccFootprint
  import opened TpccInvariant
  import opened TpccSerialRun

  /** kParallelism, num_items of the scale parameters, and hash_int. */
  datatype Config = Config(parallelism: nat, numItems: int, hash: int -> nat)

  /** The thread groups of processBatch, in the order in which it declares them. */
  datatype Group =
    | StockThreads | EntryThreads | PriceThreads | PayThread1 | PayThread2 | PayThread3
    | QueueThreads | CarrierThreads | LineThreads | StampThreads | CustomerThreads

  const BATCH_CODE: seq<Instr<Group>> := [
    Spawn(StockThreads), Spawn(EntryThreads), Spawn(PriceThreads), Spawn(PayThread1), Spawn(PayThread2), Spawn(PayThread3),
    Join(EntryThreads), Spawn(QueueThreads), Join(QueueThreads), Join(StockThreads), Join(PriceThreads),
    Build,
    Spawn(CarrierThreads), Spawn(LineThreads), Join(LineThreads), Spawn(StampThreads), Join(StampThreads), Join(CarrierThreads),
    Spawn(CustomerThreads), Join(PayThread1), Join(PayThread2), Join(PayThread3), Join(CustomerThreads)]

  function SpawnAt(g: Group): nat {
    match g
    case StockThreads => 0 case EntryThreads => 1 case PriceThreads => 2
    case PayThread1 => 3 case PayThread2 => 4 case PayThread3 => 5
    case QueueThreads => 7 case CarrierThreads => 12 case LineThreads => 13 case StampThreads => 15 case CustomerThreads => 18
  }

  function JoinAt(g: Group): nat {
    match g
    case StockThreads => 9 case EntryThreads => 6 case PriceThreads => 10
    case PayThread1 => 19 case PayThread2 => 20 case PayThread3 => 21
    case QueueThreads => 8 case CarrierThreads => 17 case LineThreads => 14 case StampThreads => 16 case CustomerThreads => 22
  }

  const BUILD_AT: nat := 11

  function Width(cfg: Config, g: Group): nat {
    if g.PayThread1? || g.PayThread2? || g.PayThread3? then 1 else cfg.parallelism
  }

  /** getOrderLineTableOffset. */
  function TableOffset(w: int, d: int): int { (w - 1) * DISTRICTS_PER_WAREHOUSE + d - 1 }

  function DistrictSlot(cfg: Config, w: int, d: int): nat {
    if cfg.parallelism == 0 then 0 else TableOffset(w, d) % cfg.parallelism
  }

  /** What is hashed for a stock row. */
  function StockNumber(cfg: Config, w: int, i: int): int { cfg.numItems * (w - 1) + i - 1 }

  function ItemSlot(cfg: Config, w: int, i: int): nat {
    if cfg.parallelism == 0 then 0 else cfg.hash(StockNumber(cfg, w, i)) % cfg.parallelism
  }

  function LineSlot(cfg: Config, p: NewOrderParam, l: nat): nat {
    if l < |p.iIds| == |p.iWIds| then ItemSlot(cfg, p.iWIds[l], p.iIds[l]) else 0
  }

  lemma {:induction false} AtLeast(p: nat, q: int)
    requires q >= 1
    ensures p * q >= p
  {
    if q > 1 {
      AtLeast(p, q - 1);
      assert p * q == p * (q - 1) + p;
    }
  }

  /** Quotient and remainder are unique. */
  lemma SameRest(p: nat, q: int, r: nat, q': int, r': nat)
    requires r < p && r' < p && p * q + r == p * q' + r'
    ensures q == q' && r == r'
  {
    if q > q' {
      assert p * q == p * q' + p * (q - q');
      AtLeast(p, q - q');
    } else if q' > q {
      assert p * q' == p * q + p * (q' - q);
      AtLeast(p, q' - q);
    }
  }

  lemma NextResidue(x: int, p: nat)
    requires p > 0
    ensures (x + 1) % p == if x % p + 1 == p then 0 else x % p + 1
  {
    var q, r, q', r' := x / p, x % p, (x + 1) / p, (x + 1) % p;
    assert x == p * q + r && x + 1 == p * q' + r';
    if r + 1 == p {
      assert x + 1 == p * (q + 1);
      SameRest(p, q + 1, 0, q', r');
    } else {
      SameRest(p, q, r + 1, q', r');
    }
  }

  /** The districts, warehouse by warehouse, are dealt to the threads in turn. */
  lemma DistrictsInTurn(cfg: Config, w: int, d: int)
    requires cfg.parallelism > 0
    ensures DistrictSlot(cfg, 1, 1) == 0
    ensures DistrictSlot(cfg, w, d + 1) == NextThread(cfg, DistrictSlot(cfg, w, d))
    ensures DistrictSlot(cfg, w + 1, 1) == NextThread(cfg, DistrictSlot(cfg, w, DISTRICTS_PER_WAREHOUSE))
  {
    NextSlot(cfg, w, d, w, d + 1);
    NextSlot(cfg, w, DISTRICTS_PER_WAREHOUSE, w + 1, 1);
    assert TableOffset(1, 1) == 0;
  }

  lemma NextSlot(cfg: Config, w: int, d: int, w': int, d': int)
    requires cfg.parallelism > 0 && TableOffset(w', d') == TableOffset(w, d) + 1
    ensures DistrictSlot(cfg, w', d') == NextThread(cfg, DistrictSlot(cfg, w, d))
  {
    NextResidue(TableOffset(w, d), cfg.parallelism);
  }

  function NextThread(cfg: Config, t: nat): nat { if t + 1 == cfg.parallelism then 0 else t + 1 }

  /** The stock rows are numbered through, so each is hashed as itself. */
  lemma StockNumbersDiffer(cfg: Config, w: int, i: int, w': int, i': int)
    requires 1 <= i <= cfg.numItems && 1 <= i' <= cfg.numItems
    ensures StockNumber(cfg, w, i) == StockNumber(cfg, w', i') <==> w == w' && i == i'
  {
    if StockNumber(cfg, w, i) == StockNumber(cfg, w', i') {
      SameRest(cfg.numItems, w - 1, i - 1, w' - 1, i' - 1);
    }
  }

  /** The thread of a step.  Steps 2 to 4 of a delivery go to a thread only if the store
      shows that an order was taken. */
  function Assign(cfg: Config, op: Step, snap: Store): Option<Tid<Group>> {
    match op
    case Delivery1(n, p, d) => Some(Tid(QueueThreads, DistrictSlot(cfg, p.wId, d)))
    case Delivery2(n, p, d) => if Delivered(snap, n, d) then Some(Tid(StampThreads, DistrictSlot(cfg, p.wId, d))) else None
    case Delivery3(n, p, d) => if Delivered(snap, n, d) then Some(Tid(CarrierThreads, DistrictSlot(cfg, p.wId, d))) else None
    case Delivery4(n, p, d) => if Delivered(snap, n, d) then Some(Tid(CustomerThreads, DistrictSlot(cfg, p.wId, d))) else None
    case NewOrder1(n, p) => Some(Tid(EntryThreads, DistrictSlot(cfg, p.wId, p.dId)))
    case NewOrder2(n, p) => Some(Tid(EntryThreads, DistrictSlot(cfg, p.wId, p.dId)))
    case NewOrder3(n, p) => Some(Tid(QueueThreads, DistrictSlot(cfg, p.wId, p.dId)))
    case NewOrder4(n, p, l) => Some(Tid(StockThreads, LineSlot(cfg, p, l)))
    case NewOrder5(n, p, l) => Some(Tid(PriceThreads, LineSlot(cfg, p, l)))
    case NewOrder6(n, p) => Some(Tid(LineThreads, DistrictSlot(cfg, p.wId, p.dId)))
    case Payment1(n, p) => Some(Tid(PayThread1, 0))
    case Payment2(n, p) => Some(Tid(PayThread2, 0))
    case Payment3(n, p) => Some(Tid(PayThread3, 0))
    case Payment4(n, p) => Some(Tid(CustomerThreads, DistrictSlot(cfg, p.wId, p.dId)))
  }

  function BatchPlan(cfg: Config, ops: seq<Step>): Plan<Step, Group, Cell, Value> {
    Plan(BATCH_CODE, g => Width(cfg, g), ops, (op, snap) => Assign(cfg, op, snap), Effect)
  }

  function BatchDesign(cfg: Config, h: Store): Design<Step, Group, Cell, Value> {
    Design(Sys(h), Before, op => Assign(cfg, op, h), SpawnAt, JoinAt, BUILD_AT, (c: Cell) => c.HNoId?)
  }

  // ---- Which pairs of steps meet, and why the batch keeps their order ----

  /** In h, a delivery took an older order than any later New-Order of the district entered. */
  ghost predicate OlderTaken(h: Store, ops: seq<Step>) {
    forall a, b | a in ops && b in ops && DeliveryThenEntry(a, b) && HNoId(a.n, b.np.dId) in h ::
      NumOr(h, HNoId(a.n, b.np.dId), -1) < NumOr(h, HNext(b.n), 0)
  }

  predicate DeliveryThenEntry(a: Step, b: Step) {
    && (a.Delivery2? || a.Delivery3?) && (b.NewOrder2? || b.NewOrder6?)
    && a.n < b.n && a.dp.wId == b.np.wId && a.d == b.np.dId
  }

  /** All steps of one transaction carry the same parameters. */
  ghost predicate OneTxnPerNumber(ops: seq<Step>, queue: seq<Txn>) {
    forall op | op in ops :: op.n < |queue| && StepOf(op, op.n, queue[op.n])
  }

  /** The steps that can touch a cell at all. */
  predicate MayTouch(op: Step, c: Cell) {
    match c
    case Item(i) => op.NewOrder5?
    case Stock(w, i) => op.NewOrder4? && op.l < |op.np.iIds| == |op.np.iWIds| && op.np.iWIds[op.l] == w && op.np.iIds[op.l] == i
    case HNext(n) => op.n == n && (op.NewOrder1? || op.NewOrder2? || op.NewOrder3? || op.NewOrder6?)
    case HDist(n, l) => op.n == n && ((op.NewOrder4? && op.l == l) || op.NewOrder6?)
    case HAmount(n, l) => op.n == n && ((op.NewOrder5? && op.l == l) || op.NewOrder6?)
    case HNoId(n, d) => op.n == n && (op.Delivery1? || op.Delivery2? || op.Delivery3? || op.Delivery4?) && op.d == d
    case HCust(n, d) => op.n == n && (op.Delivery3? || op.Delivery4?) && op.d == d
    case HSum(n, d) => op.n == n && (op.Delivery2? || op.Delivery4?) && op.d == d
    case _ => MayWrite(op, c)
  }

  lemma TouchWithin(h: Store, op: Step, c: Cell)
    requires c in Touch(h, op)
    ensures MayTouch(op, c)
  {
  }

  lemma WriteWithin(h: Store, op: Step, c: Cell)
    requires c in Write(h, op)
    ensures MayTouch(op, c) && MayWrite(op, c) && !c.Fault?
  {
  }

  /** A delivery never touches the order that a later New-Order enters. */
  lemma OlderNeverMeets(h: Store, ops: seq<Step>, a: Step, b: Step, c: Cell)
    requires OlderTaken(h, ops) && a in ops && b in ops && a.n < b.n && (c.Order? || c.Lines?)
    requires (a.Delivery2? || a.Delivery3?) && (b.NewOrder2? || b.NewOrder6?)
    ensures !(c in Touch(h, a) && c in Touch(h, b))
  {
    assert DeliveryThenEntry(a, b) && HNoId(a.n, b.np.dId) in h ==> NumOr(h, HNoId(a.n, b.np.dId), -1) < NumOr(h, HNext(b.n), 0);
  }

  /** Any other two steps on one order share a bucket or are joined in their order. */
  lemma EntryThenDelivery(cfg: Config, h: Store, a: Step, b: Step, c: Cell)
    requires Assign(cfg, a, h).Some? && Assign(cfg, b, h).Some? && (c.Order? || c.Lines?)
    requires MayTouch(a, c) && MayTouch(b, c)
    requires !((a.Delivery2? || a.Delivery3?) && (b.NewOrder2? || b.NewOrder6?))
    ensures Forced(BatchDesign(cfg, h), a, b)
  {
  }

  /** Two steps on one ORDER row or on the ORDER_LINE rows of one order: an entry before a
      delivery is joined before the delivery is spawned, two of a kind share a bucket, and a
      delivery is never followed by the entry of the order it took. */
  lemma MeetingAtOrder(cfg: Config, h: Store, ops: seq<Step>, a: Step, b: Step, c: Cell)
    requires OlderTaken(h, ops) && a in ops && b in ops && Before(a, b)
    requires Assign(cfg, a, h).Some? && Assign(cfg, b, h).Some?
    requires (c.Order? || c.Lines?) && c in Touch(h, a) && c in Touch(h, b)
    requires a.n == b.n ==> (a.Delivery2? || a.Delivery3? <==> b.Delivery2? || b.Delivery3?)
    ensures Forced(BatchDesign(cfg, h), a, b)
  {
    TouchWithin(h, a, c);
    TouchWithin(h, b, c);
    if (a.Delivery2? || a.Delivery3?) && (b.NewOrder2? || b.NewOrder6?) {
      OlderNeverMeets(h, ops, a, b, c);
    } else {
      EntryThenDelivery(cfg, h, a, b, c);
    }
  }

  /** Two steps on another table cell share a bucket. */
  lemma MeetingAtRow(cfg: Config, h: Store, a: Step, b: Step, c: Cell)
    requires Assign(cfg, a, h).Some? && Assign(cfg, b, h).Some?
    requires MayTouch(a, c) && MayTouch(b, c) && (MayWrite(a, c) || MayWrite(b, c))
    requires c.Stock? || c.WarehouseYtd? || c.DistrictYtd? || c.NextOrderId? || c.Oldest? || c.NewOrders? || c.Customer? || c.History?
    ensures Forced(BatchDesign(cfg, h), a, b)
  {
  }

  /** Two steps on a handed value belong to one transaction, and the writer is joined before
      the reader is spawned, or shares its bucket. */
  lemma MeetingAtHandover(cfg: Config, h: Store, a: Step, b: Step, c: Cell)
    requires Assign(cfg, a, h).Some? && Assign(cfg, b, h).Some?
    requires MayTouch(a, c) && MayTouch(b, c) && (MayWrite(a, c) || MayWrite(b, c)) && Before(a, b)
    requires c.HNext? || c.HDist? || c.HAmount? || c.HNoId? || c.HCust? || c.HSum?
    requires c.HNext? || c.HDist? || c.HAmount? ==> a.np == b.np
    requires c.HNoId? || c.HCust? || c.HSum? ==> a.dp == b.dp
    ensures Forced(BatchDesign(cfg, h), a, b)
  {
  }

  lemma MeetingElsewhere(cfg: Config, h: Store, queue: seq<Txn>, a: Step, b: Step, c: Cell)
    requires a.n < |queue| && b.n < |queue| && StepOf(a, a.n, queue[a.n]) && StepOf(b, b.n, queue[b.n]) && Before(a, b)
    requires Assign(cfg, a, h).Some? && Assign(cfg, b, h).Some? && !c.Order? && !c.Lines? && !c.Fault?
    requires MayTouch(a, c) && MayTouch(b, c) && (MayWrite(a, c) || MayWrite(b, c))
    ensures Forced(BatchDesign(cfg, h), a, b)
  {
    if c.HNext? || c.HDist? || c.HAmount? || c.HNoId? || c.HCust? || c.HSum? {
      MeetingAtHandover(cfg, h, a, b, c);
    } else {
      MeetingAtRow(cfg, h, a, b, c);
    }
  }

  lemma MeetingIsForced(cfg: Config, h: Store, queue: seq<Txn>, ops: seq<Step>, a: Step, b: Step, c: Cell)
    requires OneTxnPerNumber(ops, queue) && OlderTaken(h, ops)
    requires a in ops && b in ops && Before(a, b)
    requires Assign(cfg, a, h).Some? && Assign(cfg, b, h).Some?
    requires c in Touch(h, a) && c in Touch(h, b) && (c in Write(h, a) || c in Write(h, b))
    ensures Forced(BatchDesign(cfg, h), a, b)
  {
    assert StepOf(a, a.n, queue[a.n]) && StepOf(b, b.n, queue[b.n]);
    TouchWithin(h, a, c);
    TouchWithin(h, b, c);
    if c in Write(h, a) { WriteWithin(h, a, c); } else { WriteWithin(h, b, c); }
    if c.Order? || c.Lines? {
      MeetingAtOrder(cfg, h, ops, a, b, c);
    } else {
      MeetingElsewhere(cfg, h, queue, a, b, c);
    }
  }

  // ---- The batch is sound ----

  lemma CodeEntry(i: nat)
    requires i < |BATCH_CODE|
    ensures match BATCH_CODE[i] case Spawn(g) => i == SpawnAt(g) case Join(g) => i == JoinAt(g) case Build => i == BUILD_AT
  {
  }

  lemma GroupPlace(g: Group)
    ensures SpawnAt(g) < JoinAt(g) < |BATCH_CODE| && BATCH_CODE[SpawnAt(g)] == Spawn(g) && BATCH_CODE[JoinAt(g)] == Join(g)
  {
    match g
    case StockThreads => assert BATCH_CODE[0] == Spawn(g) && BATCH_CODE[9] == Join(g);
    case EntryThreads => assert BATCH_CODE[1] == Spawn(g) && BATCH_CODE[6] == Join(g);
    case PriceThreads => assert BATCH_CODE[2] == Spawn(g) && BATCH_CODE[10] == Join(g);
    case PayThread1 => assert BATCH_CODE[3] == Spawn(g) && BATCH_CODE[19] == Join(g);
    case PayThread2 => assert BATCH_CODE[4] == Spawn(g) && BATCH_CODE[20] == Join(g);
    case PayThread3 => assert BATCH_CODE[5] == Spawn(g) && BATCH_CODE[21] == Join(g);
    case QueueThreads => assert BATCH_CODE[7] == Spawn(g) && BATCH_CODE[8] == Join(g);
    case CarrierThreads => assert BATCH_CODE[12] == Spawn(g) && BATCH_CODE[17] == Join(g);
    case LineThreads => assert BATCH_CODE[13] == Spawn(g) && BATCH_CODE[14] == Join(g);
    case StampThreads => assert BATCH_CODE[15] == Spawn(g) && BATCH_CODE[16] == Join(g);
    case CustomerThreads => assert BATCH_CODE[18] == Spawn(g) && BATCH_CODE[22] == Join(g);
  }

  ghost predicate CodeFits(code: seq<Instr<Group>>) {
    && BUILD_AT < |code| && code[BUILD_AT] == Build
    && (forall i | 0 <= i < |code| ::
          match code[i] case Spawn(g) => i == SpawnAt(g) case Join(g) => i == JoinAt(g) case Build => i == BUILD_AT)
    && (forall g :: SpawnAt(g) < JoinAt(g) < |code| && code[SpawnAt(g)] == Spawn(g) && code[JoinAt(g)] == Join(g))
  }

  lemma BatchCodeFits()
    ensures CodeFits(BATCH_CODE)
  {
    forall i | 0 <= i < |BATCH_CODE|
      ensures match BATCH_CODE[i] case Spawn(g) => i == SpawnAt(g) case Join(g) => i == JoinAt(g) case Build => i == BUILD_AT
    {
      CodeEntry(i);
    }
    forall g ensures SpawnAt(g) < JoinAt(g) < |BATCH_CODE| && BATCH_CODE[SpawnAt(g)] == Spawn(g) && BATCH_CODE[JoinAt(g)] == Join(g) {
      GroupPlace(g);
    }
    assert BATCH_CODE[11] == Build;
  }

  lemma CodePlaced(plan: Plan<Step, Group, Cell, Value>, cfg: Config, h: Store)
    requires CodeFits(plan.code)
    ensures Placed(plan, BatchDesign(cfg, h))
  {
  }

  lemma OpsOrdered(cfg: Config, h: Store, queue: seq<Txn>, ops: seq<Step>)
    requires OneTxnPerNumber(ops, queue) && OlderTaken(h, ops) && Sorted(ops, Before)
    ensures Ordering(BatchDesign(cfg, h), ops)
  {
    var d := BatchDesign(cfg, h);
    forall a, b | a in ops && b in ops && d.home(a).Some? && d.home(b).Some? && d.before(a, b)
      ensures Indep(d.sys, a, b) || Forced(d, a, b)
    {
      if !Indep(d.sys, a, b) {
        var c := MeetingCell(h, a, b);
        MeetingIsForced(cfg, h, queue, ops, a, b, c);
      }
    }
  }

  lemma MeetingCell(h: Store, a: Step, b: Step) returns (c: Cell)
    requires !Indep(Sys(h), a, b)
    ensures c in Touch(h, a) && c in Touch(h, b) && (c in Write(h, a) || c in Write(h, b))
  {
    WriteTouches(h, a);
    WriteTouches(h, b);
    if !(Write(h, a) !! Touch(h, b)) {
      c :| c in Write(h, a) && c in Touch(h, b);
    } else {
      c :| c in Write(h, b) && c in Touch(h, a);
    }
  }

  lemma WriteTouches(h: Store, op: Step)
    ensures Write(h, op) <= Touch(h, op)
  {
  }

  lemma OpsHoused(cfg: Config, h: Store, ops: seq<Step>)
    requires cfg.parallelism > 0
    ensures Homes(BatchPlan(cfg, ops), BatchDesign(cfg, h))
  {
    var plan, d := BatchPlan(cfg, ops), BatchDesign(cfg, h);
    forall op | op in plan.ops
      ensures match d.home(op)
        case None => d.sys.write(op) == {}
        case Some(tid) => tid.t < plan.width(tid.g) && forall c | c in d.sys.write(op) && d.settled(c) :: d.joinAt(tid.g) < d.buildAt
    {
      SlotInRange(cfg, op, h);
      forall c | c in Write(h, op) && c.HNoId? ensures op.Delivery1? { WriteWithin(h, op, c); }
    }
  }

  lemma SlotInRange(cfg: Config, op: Step, h: Store)
    requires cfg.parallelism > 0
    ensures Assign(cfg, op, h).Some? ==> Assign(cfg, op, h).value.t < Width(cfg, Assign(cfg, op, h).value.g)
  {
  }

  lemma OpsAssigned(cfg: Config, h: Store, ops: seq<Step>, s0: Store)
    ensures EarlyAssign(BatchPlan(cfg, ops), BatchDesign(cfg, h), s0)
    ensures LateAssign(BatchPlan(cfg, ops), BatchDesign(cfg, h), h)
  {
    var plan, d := BatchPlan(cfg, ops), BatchDesign(cfg, h);
    forall snap | SettledAs(d, snap, h) ensures LateAssignAt(plan, d, snap) {
      forall n: nat, e: int ensures Delivered(snap, n, e) == Delivered(h, n, e) {
        assert d.settled(HNoId(n, e)) && SameAt(snap, h, HNoId(n, e));
      }
    }
  }

  /** The serial run of the transactions lo..hi. */
  function SerialStore(queue: seq<Txn>, lo: nat, hi: nat, s: Store): Store
    requires lo <= hi <= |queue|
  {
    After(Steps(queue, lo, hi), s)
  }

  /** A batch of valid transactions on a consistent database. */
  ghost predicate BatchInput(k: Scale, cfg: Config, queue: seq<Txn>, lo: nat, hi: nat, s: Store) {
    cfg.parallelism > 0 && lo <= hi <= |queue| && Runnable(k, queue, lo, hi, s)
  }

  lemma SerialTakesOlder(k: Scale, cfg: Config, queue: seq<Txn>, lo: nat, hi: nat, s: Store)
    requires BatchInput(k, cfg, queue, lo, hi, s)
    ensures OlderTaken(SerialStore(queue, lo, hi, s), Steps(queue, lo, hi))
  {
    var ops, h := Steps(queue, lo, hi), SerialStore(queue, lo, hi, s);
    StepsListed(queue, lo, hi);
    forall a, b | a in ops && b in ops && DeliveryThenEntry(a, b) && HNoId(a.n, b.np.dId) in h
      ensures NumOr(h, HNoId(a.n, b.np.dId), -1) < NumOr(h, HNext(b.n), 0)
    {
      assert StepOf(a, a.n, queue[a.n]) && StepOf(b, b.n, queue[b.n]);
      TakenOlderThanEntered(k, queue, lo, hi, s, a.n, b.n, h);
    }
  }

  lemma BatchIsSound(k: Scale, cfg: Config, queue: seq<Txn>, lo: nat, hi: nat, s: Store)
    requires BatchInput(k, cfg, queue, lo, hi, s)
    ensures Sound(BatchPlan(cfg, Steps(queue, lo, hi)), BatchDesign(cfg, SerialStore(queue, lo, hi, s)), s)
    ensures Run(Sys(SerialStore(queue, lo, hi, s)), Steps(queue, lo, hi), s) == SerialStore(queue, lo, hi, s)
  {
    var ops, h := Steps(queue, lo, hi), SerialStore(queue, lo, hi, s);
    assert Placed(BatchPlan(cfg, ops), BatchDesign(cfg, h)) by {
      BatchCodeFits();
      CodePlaced(BatchPlan(cfg, ops), cfg, h);
    }
    BatchOrdered(k, cfg, queue, lo, hi, s, h);
    OpsHoused(cfg, h, ops);
    OpsAssigned(cfg, h, ops, s);
    BatchTame(k, cfg, queue, lo, hi, s, h);
  }

  lemma BatchOrdered(k: Scale, cfg: Config, queue: seq<Txn>, lo: nat, hi: nat, s: Store, h: Store)
    requires BatchInput(k, cfg, queue, lo, hi, s) && h == SerialStore(queue, lo, hi, s)
    ensures Ordering(BatchDesign(cfg, h), Steps(queue, lo, hi))
  {
    StepsListed(queue, lo, hi);
    assert OneTxnPerNumber(Steps(queue, lo, hi), queue);
    SerialTakesOlder(k, cfg, queue, lo, hi, s);
    OpsOrdered(cfg, h, queue, Steps(queue, lo, hi));
  }

  lemma BatchTame(k: Scale, cfg: Config, queue: seq<Txn>, lo: nat, hi: nat, s: Store, h: Store)
    requires BatchInput(k, cfg, queue, lo, hi, s) && h == SerialStore(queue, lo, hi, s)
    ensures Tame(Sys(h), Steps(queue, lo, hi), s) && Run(Sys(h), Steps(queue, lo, hi), s) == h
  {
    SerialKeeps(k, h, queue, lo, hi, s);
    AfterIsRun(h, Steps(queue, lo, hi), s);
  }

  // ---- Main results ----

  /** STRONG EXECUTION DETERMINISM.  For every batch of valid transactions, every consistent
      database, every number of threads and every interleaving that the spawns and joins
      allow, a finished run of the batch leaves exactly the store of the serial run in queue
      order: all tables, the history in order, and every value handed between phases. */
  lemma StrongDeterminism(k: Scale, cfg: Config, queue: seq<Txn>, lo: nat, hi: nat, s: Store, run: seq<Machine<Step, Group, Cell, Value>>)
    requires BatchInput(k, cfg, queue, lo, hi, s)
    requires IsRun(BatchPlan(cfg, Steps(queue, lo, hi)), s, run) && Done(BatchPlan(cfg, Steps(queue, lo, hi)), run[|run| - 1])
    ensures run[|run| - 1].store == SerialStore(queue, lo, hi, s)
    ensures Consistent(k, run[|run| - 1].store)
  {
    BatchIsSound(k, cfg, queue, lo, hi, s);
    Determinism(BatchPlan(cfg, Steps(queue, lo, hi)), BatchDesign(cfg, SerialStore(queue, lo, hi, s)), s, run);
    SerialKeeps(k, s, queue, lo, hi, s);
  }
}
