/** Sub-transactions and whole batches over partitioned ORDER, NEW_ORDER and ORDER_LINE tables:
    a step looks only into the partition of its own district, and the partitions together always
    stand for the unpartitioned database. */
module TpccPartitionedRun {
  import opened Replay
  import opened ForkJoin
  import opened TpccModel
  import opened TpccFootprint
  import opened TpccInvariant
  import opened TpccSerialRun
  import opened TpccSchedule
  import opened TpccPartitions

  /** The unpartitioned tables with the handed values, and the partitions of the others. */
  datatype Database = Database(rest: Store, parts: seq<Store>)

  predicate IsPartitioned(c: Cell) { c.Order? || c.Lines? || c.NewOrders? }

  /** Where the row of a cell is kept. */
  function Place(db: Database, c: Cell): Store
    requires db.parts != []
  {
    if IsPartitioned(c) then db.parts[PartitionOf(|db.parts|, c.w, c.d)] else db.rest
  }

  /** All rows are in their places, and together they are the rows of s. */
  ghost predicate StandsFor(db: Database, s: Store) {
    && db.parts != []
    && (forall c | c in db.rest :: !IsPartitioned(c))
    && (forall i, c | 0 <= i < |db.parts| && c in db.parts[i] :: IsPartitioned(c) && PartitionOf(|db.parts|, c.w, c.d) == i)
    && forall c :: SameAt(Place(db, c), s, c)
  }

  /** The district whose partition a step opens. */
  function Site(op: Step): (int, int) {
    if op.Delivery1? || op.Delivery2? || op.Delivery3? || op.Delivery4? then (op.dp.wId, op.d)
    else if op.Payment1? || op.Payment2? || op.Payment3? || op.Payment4? then (op.pp.wId, op.pp.dId)
    else (op.np.wId, op.np.dId)
  }

  function SiteIndex(op: Step, cnt: nat): (i: nat)
    requires cnt > 0
    ensures i < cnt
  {
    PartitionOf(cnt, Site(op).0, Site(op).1)
  }

  /** What the step can see: the unpartitioned tables and the one partition it opens. */
  function View(db: Database, op: Step): Store
    requires db.parts != []
  {
    db.rest + db.parts[SiteIndex(op, |db.parts|)]
  }

  function Rows(s: Store, partitioned: bool): Store {
    map c | c in s && IsPartitioned(c) == partitioned :: s[c]
  }

  /** Puts changed rows into the unpartitioned tables and into partition i. */
  function Stored(db: Database, i: nat, e: Store): Database
    requires i < |db.parts|
  {
    Database(db.rest + Rows(e, false), db.parts[i := db.parts[i] + Rows(e, true)])
  }

  function Perform(db: Database, op: Step): Database
    requires db.parts != []
  {
    Stored(db, SiteIndex(op, |db.parts|), Effect(op, View(db, op)))
  }

  function PerformAll(db: Database, ops: seq<Step>): (after: Database)
    requires db.parts != []
    ensures |after.parts| == |db.parts|
    decreases |ops|
  {
    if ops == [] then db else PerformAll(Perform(db, ops[0]), ops[1..])
  }

  /** The cells that a step at a district may look at. */
  predicate InView(c: Cell, site: (int, int)) { IsPartitioned(c) ==> c.w == site.0 && c.d == site.1 }

  lemma SiteOnly(op: Step, s: Store)
    ensures forall c | c in Effect(op, s) :: InView(c, Site(op))
  {
  }

  lemma DeliverySees(op: Step, s: Store, t: Store)
    requires op.Delivery1? || op.Delivery2? || op.Delivery3? || op.Delivery4?
    requires forall c | InView(c, Site(op)) :: SameAt(s, t, c)
    ensures Effect(op, s) == Effect(op, t)
  {
    var w, d, n := op.dp.wId, op.d, op.n;
    assert SameAt(s, t, HNoId(n, d)) && SameAt(s, t, HCust(n, d)) && SameAt(s, t, HSum(n, d));
    match op
    case Delivery1(_, _, _) => assert SameAt(s, t, Oldest(w, d)) && SameAt(s, t, NewOrders(w, d));
    case Delivery2(_, _, _) => assert SameAt(s, t, Lines(w, d, NumOr(s, HNoId(n, d), -1)));
    case Delivery3(_, _, _) => assert SameAt(s, t, Order(w, d, NumOr(s, HNoId(n, d), -1)));
    case Delivery4(_, _, _) => assert SameAt(s, t, Customer(w, d, NumOr(s, HCust(n, d), -1)));
  }

  lemma InsertLinesSees(n: nat, p: NewOrderParam, s: Store, t: Store)
    requires forall c | InView(c, (p.wId, p.dId)) :: SameAt(s, t, c)
    ensures InsertLines(n, p, s) == InsertLines(n, p, t)
  {
    assert SameAt(s, t, HNext(n)) && SameAt(s, t, Lines(p.wId, p.dId, NumOr(s, HNext(n), 0)));
    if |p.iIds| == |p.iWIds| == |p.iQtys| {
      forall l | 0 <= l < |p.iIds| ensures NewLine(n, p, l, s) == NewLine(n, p, l, t) {
        assert SameAt(s, t, HAmount(n, l)) && SameAt(s, t, HDist(n, l));
      }
      assert seq(|p.iIds|, l requires 0 <= l < |p.iIds| => NewLine(n, p, l, s))
          == seq(|p.iIds|, l requires 0 <= l < |p.iIds| => NewLine(n, p, l, t));
    }
  }

  lemma NewOrderSees(op: Step, s: Store, t: Store)
    requires op.NewOrder1? || op.NewOrder2? || op.NewOrder3? || op.NewOrder4? || op.NewOrder5? || op.NewOrder6?
    requires forall c | InView(c, Site(op)) :: SameAt(s, t, c)
    ensures Effect(op, s) == Effect(op, t)
  {
    var p, n := op.np, op.n;
    assert SameAt(s, t, HNext(n));
    match op
    case NewOrder1(_, _) => assert SameAt(s, t, NextOrderId(p.wId, p.dId));
    case NewOrder2(_, _) => assert SameAt(s, t, Order(p.wId, p.dId, NumOr(s, HNext(n), 0)));
    case NewOrder3(_, _) => assert SameAt(s, t, NewOrders(p.wId, p.dId));
    case NewOrder4(_, _, l) => if l < |p.iIds| == |p.iWIds| { assert SameAt(s, t, Stock(p.iWIds[l], p.iIds[l])); }
    case NewOrder5(_, _, l) => if l < |p.iIds| { assert SameAt(s, t, Item(p.iIds[l])); }
    case NewOrder6(_, _) => InsertLinesSees(n, p, s, t);
  }

  lemma PaymentSees(op: Step, s: Store, t: Store)
    requires op.Payment1? || op.Payment2? || op.Payment3? || op.Payment4?
    requires forall c | InView(c, Site(op)) :: SameAt(s, t, c)
    ensures Effect(op, s) == Effect(op, t)
  {
    var p := op.pp;
    assert SameAt(s, t, WarehouseYtd(p.wId)) && SameAt(s, t, DistrictYtd(p.wId, p.dId));
    assert SameAt(s, t, History) && SameAt(s, t, Customer(p.wId, p.dId, p.cId));
  }

  /** A step needs no more than its own partition. */
  lemma SeesOnlyItsSite(op: Step, s: Store, t: Store)
    requires forall c | InView(c, Site(op)) :: SameAt(s, t, c)
    ensures Effect(op, s) == Effect(op, t)
  {
    if op.Delivery1? || op.Delivery2? || op.Delivery3? || op.Delivery4? {
      DeliverySees(op, s, t);
    } else if op.Payment1? || op.Payment2? || op.Payment3? || op.Payment4? {
      PaymentSees(op, s, t);
    } else {
      NewOrderSees(op, s, t);
    }
  }

  lemma ViewIsFaithful(db: Database, op: Step, s: Store)
    requires StandsFor(db, s)
    ensures forall c | InView(c, Site(op)) :: SameAt(s, View(db, op), c)
  {
    forall c | InView(c, Site(op)) ensures SameAt(s, View(db, op), c) {
      assert SameAt(Place(db, c), s, c);
    }
  }

  lemma StoredStands(db: Database, site: (int, int), e: Store, s: Store)
    requires StandsFor(db, s) && forall c | c in e :: InView(c, site)
    ensures StandsFor(Stored(db, PartitionOf(|db.parts|, site.0, site.1), e), s + e)
  {
    var i := PartitionOf(|db.parts|, site.0, site.1);
    var db' := Stored(db, i, e);
    forall c ensures SameAt(Place(db', c), s + e, c) {
      assert SameAt(Place(db, c), s, c);
    }
  }

  /** PARTITION TRANSPARENCY, STEP BY STEP.  On partitioned tables a sub-transaction does what it
      does on the unpartitioned database. */
  lemma StepOnPartitions(db: Database, op: Step, s: Store)
    requires StandsFor(db, s)
    ensures StandsFor(Perform(db, op), s + Effect(op, s))
  {
    ViewIsFaithful(db, op, s);
    SeesOnlyItsSite(op, s, View(db, op));
    SiteOnly(op, s);
    StoredStands(db, Site(op), Effect(op, s), s);
  }

  lemma {:induction false} RunOnPartitions(db: Database, ops: seq<Step>, s: Store)
    requires StandsFor(db, s)
    ensures StandsFor(PerformAll(db, ops), After(ops, s))
    decreases |ops|
  {
    if ops != [] {
      StepOnPartitions(db, ops[0], s);
      RunOnPartitions(Perform(db, ops[0]), ops[1..], s + Effect(ops[0], s));
    }
  }

  lemma TraceLeaves(
      plan: Plan<Step, Group, Cell, Value>, d: Design<Step, Group, Cell, Value>, h: Store, s: Store, run: seq<Machine<Step, Group, Cell, Value>>)
    requires Sound(plan, d, s) && d.sys == Sys(h) && IsRun(plan, s, run)
    ensures run[|run| - 1].store == After(run[|run| - 1].trace, s)
  {
    RunInv(plan, d, s, run, |run| - 1);
    AfterIsRun(h, run[|run| - 1].trace, s);
  }

  /** Every interleaving of a batch, performed on partitions, ends in partitions that stand for
      the serial store. */
  lemma BatchOnPartitions(
      k: Scale, cfg: Config, queue: seq<Txn>, lo: nat, hi: nat, s: Store, run: seq<Machine<Step, Group, Cell, Value>>, db: Database)
    requires BatchInput(k, cfg, queue, lo, hi, s) && StandsFor(db, s)
    requires IsRun(BatchPlan(cfg, Steps(queue, lo, hi)), s, run) && Done(BatchPlan(cfg, Steps(queue, lo, hi)), run[|run| - 1])
    ensures StandsFor(PerformAll(db, run[|run| - 1].trace), SerialStore(queue, lo, hi, s))
  {
    var plan, h, m := BatchPlan(cfg, Steps(queue, lo, hi)), SerialStore(queue, lo, hi, s), run[|run| - 1];
    BatchIsSound(k, cfg, queue, lo, hi, s);
    TraceLeaves(plan, BatchDesign(cfg, h), h, s, run);
    StrongDeterminism(k, cfg, queue, lo, hi, s, run);
    RunOnPartitions(db, m.trace, s);
  }
}
