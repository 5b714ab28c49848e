/** The TATP batch processor: ids are resolved first, then three families of buckets keyed by
    subscriber run side by side.  Every run ends in the serial store. */
module TatpSchedule {
  import opened Replay
  import opened ForkJoin
  import opened PoolExecution
  import opened TatpModel

  /** kParallelism, hash_int, and the position of each transaction in its parameter vector. */
  datatype Config = Config(parallelism: nat, hash: int -> nat, position: nat -> nat)

  datatype Group = DcfSid | IcfSid | UlSid | Gad | DcfIcf | GsdUlUsd | IcfUsd

  const BATCH_CODE: seq<Instr<Group>> := [
    Spawn(DcfSid), Spawn(IcfSid), Spawn(UlSid), Spawn(Gad), Join(DcfSid), Join(IcfSid), Join(UlSid),
    Build,
    Spawn(DcfIcf), Spawn(GsdUlUsd), Spawn(IcfUsd), Join(DcfIcf), Join(GsdUlUsd), Join(IcfUsd), Join(Gad)]

  const BUILD_AT: nat := 7

  function SpawnAt(g: Group): nat {
    match g case DcfSid => 0 case IcfSid => 1 case UlSid => 2 case Gad => 3 case DcfIcf => 8 case GsdUlUsd => 9 case IcfUsd => 10
  }

  function JoinAt(g: Group): nat {
    match g case DcfSid => 4 case IcfSid => 5 case UlSid => 6 case Gad => 14 case DcfIcf => 11 case GsdUlUsd => 12 case IcfUsd => 13
  }

  /** Resolution and access reads are dealt out in turn; the other steps by subscriber. */
  function Assign(cfg: Config, op: Step, snap: Store): Option<Tid<Group>> {
    if cfg.parallelism == 0 then None
    else
      var turn, home := cfg.position(op.n) % cfg.parallelism, cfg.hash(Of(snap, op)) % cfg.parallelism;
      match op
      case Resolve(_, t) => Some(Tid(if t.DeleteCallForwarding? then DcfSid else if t.InsertCallForwarding? then IcfSid else UlSid, turn))
      case ReadAccess(_, _) => Some(Tid(Gad, turn))
      case DeleteForwarding(_, _) => Some(Tid(DcfIcf, home))
      case InsertForwarding(_, _) => Some(Tid(DcfIcf, home))
      case ReadSubscriber(_, _) => Some(Tid(GsdUlUsd, home))
      case SetLocation(_, _) => Some(Tid(GsdUlUsd, home))
      case SetBit1(_, _) => Some(Tid(GsdUlUsd, home))
      case ReadFacilities(_, _) => Some(Tid(IcfUsd, home))
      case SetDataA(_, _) => Some(Tid(IcfUsd, home))
  }

  function BatchPlan(cfg: Config, ops: seq<Step>): Plan<Step, Group, Cell, Value> {
    Plan(BATCH_CODE, _ => cfg.parallelism, ops, (op, snap) => Assign(cfg, op, snap), Effect)
  }

  function BatchDesign(cfg: Config, h: Store): Design<Step, Group, Cell, Value> {
    Design(Sys(h), Before, op => Assign(cfg, op, h), SpawnAt, JoinAt, BUILD_AT, (c: Cell) => c.HSid?)
  }

  // ---- The serial run ----

  /** Every update of a location names a subscriber that exists.  (The code would write
      through a null record otherwise.) */
  ghost predicate Known(queue: seq<Txn>, lo: nat, hi: nat, s: Store)
    requires lo <= hi <= |queue|
  {
    forall n | lo <= n < hi :: KnownTxn(queue[n], s)
  }

  predicate KnownTxn(txn: Txn, s: Store) {
    txn.UpdateLocation? ==> IsSubscriber(s, NumOr(s, SubNbr(txn.subNbr), -1))
  }

  function SerialStore(queue: seq<Txn>, lo: nat, hi: nat, s: Store): Store
    requires lo <= hi <= |queue|
  {
    After(Steps(queue, lo, hi), s)
  }

  ghost predicate Faulty(s: Store) {
    exists id :: Fault(id) in s
  }

  /** Index entries and subscribers stay; only transaction n writes its own cells. */
  lemma {:induction false} AfterFrame(ops: seq<Step>, s: Store)
    ensures forall nbr :: SameAt(s, After(ops, s), SubNbr(nbr))
    ensures forall id :: IsSubscriber(s, id) <==> IsSubscriber(After(ops, s), id)
    ensures Faulty(s) ==> Faulty(After(ops, s))
    ensures forall n | forall op | op in ops :: op.n != n :: SameAt(s, After(ops, s), HSid(n))
  {
    if ops != [] {
      var t := s + Effect(ops[0], s);
      AfterFrame(ops[1..], t);
      OneFrame(ops[0], s);
      forall n | forall op | op in ops :: op.n != n ensures SameAt(s, After(ops, s), HSid(n)) {
        assert ops[0] in ops;
        assert SameAt(s, t, HSid(n)) && SameAt(t, After(ops[1..], t), HSid(n));
      }
    }
  }

  lemma OneFrame(op: Step, s: Store)
    ensures
      var t := s + Effect(op, s);
      && (forall nbr :: SameAt(s, t, SubNbr(nbr)))
      && (forall id :: IsSubscriber(s, id) <==> IsSubscriber(t, id))
      && (Faulty(s) ==> Faulty(t))
      && (forall n | n != op.n :: SameAt(s, t, HSid(n)))
      && (!op.Resolve? ==> forall n :: SameAt(s, t, HSid(n)))
  {
  }

  /** Once the id is resolved, the rest of a transaction is tame. */
  lemma {:induction false} TailTame(h: Store, n: nat, ops: seq<Step>, s: Store)
    requires forall op | op in ops :: !op.Resolve? && op.n == n
    requires SameAt(s, h, HSid(n))
    ensures Tame(Sys(h), ops, s) && SameAt(After(ops, s), h, HSid(n))
  {
    if ops != [] {
      var op := ops[0];
      assert op in ops && forall x | x in ops[1..] :: x in ops;
      OneFrame(op, s);
      assert Of(s, op) == Of(h, op);
      StepLocal(h, op, s);
      TailTame(h, n, ops[1..], s + Effect(op, s));
    }
  }

  lemma ResolvedTame(h: Store, n: nat, txn: Txn, tail: seq<Step>, s: Store)
    requires Fits(Resolve(n, txn))
    requires forall op | op in tail :: !op.Resolve? && op.n == n && op.txn == txn && Fits(op)
    requires SameAt(After(tail, s + Effect(Resolve(n, txn), s)), h, HSid(n))
    ensures Tame(Sys(h), [Resolve(n, txn)] + tail, s)
  {
    var first := Resolve(n, txn);
    var t := s + Effect(first, s);
    TailKeepsId(n, tail, t);
    StepLocal(h, first, s);
    assert SameAt(t, h, HSid(n)) by { assert SameAt(t, After(tail, t), HSid(n)); }
    OneFrame(first, s);
    TailTame(h, n, tail, t);
    assert ([first] + tail)[1..] == tail;
  }

  lemma {:induction false} TailKeepsId(n: nat, ops: seq<Step>, s: Store)
    requires forall op | op in ops :: !op.Resolve?
    ensures SameAt(s, After(ops, s), HSid(n))
  {
    if ops != [] {
      OneFrame(ops[0], s);
      assert forall x | x in ops[1..] :: x in ops;
      TailKeepsId(n, ops[1..], s + Effect(ops[0], s));
    }
  }

  /** A transaction is tame if h holds the id that it resolves. */
  lemma TxnTame(h: Store, n: nat, txn: Txn, s: Store)
    requires SameAt(After(TxnSteps(n, txn), s), h, HSid(n))
    ensures Tame(Sys(h), TxnSteps(n, txn), s)
  {
    var ops := TxnSteps(n, txn);
    TxnStepsListed(n, txn);
    if Fits(Resolve(n, txn)) {
      var tail := ops[1..];
      assert ops == [Resolve(n, txn)] + tail;
      forall op | op in tail ensures !op.Resolve? && op.n == n && op.txn == txn && Fits(op) {
        assert op in ops;
        var i :| 0 <= i < |tail| && tail[i] == op;
        assert ops[i + 1] == op;
      }
      ResolvedTame(h, n, txn, tail, s);
    } else {
      TailKeepsId(n, ops, s);
      TailTame(h, n, ops, s);
    }
  }

  /** The serial run of lo..hi from s resolves the ids that h holds. */
  ghost predicate Resolves(h: Store, queue: seq<Txn>, lo: nat, hi: nat, s: Store)
    requires lo <= hi <= |queue|
  {
    forall n: nat | lo <= n < hi :: SameAt(After(Steps(queue, lo, hi), s), h, HSid(n))
  }

  lemma ResolvesOn(h: Store, queue: seq<Txn>, lo: nat, hi: nat, s: Store, t: Store)
    requires lo < hi <= |queue| && Resolves(h, queue, lo, hi, s) && t == After(TxnSteps(lo, queue[lo]), s)
    ensures SameAt(t, h, HSid(lo)) && Resolves(h, queue, lo + 1, hi, t)
  {
    AfterAppend(TxnSteps(lo, queue[lo]), Steps(queue, lo + 1, hi), s);
    IdStays(queue, lo, hi, t);
    assert SameAt(After(Steps(queue, lo, hi), s), h, HSid(lo));
  }

  /** The whole serial run is tame for the store that it ends in. */
  lemma {:induction false} SerialTame(h: Store, queue: seq<Txn>, lo: nat, hi: nat, s: Store)
    requires lo <= hi <= |queue| && Resolves(h, queue, lo, hi, s)
    ensures Tame(Sys(h), Steps(queue, lo, hi), s)
    decreases hi - lo
  {
    if lo < hi {
      var ops, rest := TxnSteps(lo, queue[lo]), Steps(queue, lo + 1, hi);
      ResolvesOn(h, queue, lo, hi, s, After(ops, s));
      TxnTame(h, lo, queue[lo], s);
      SerialTame(h, queue, lo + 1, hi, After(ops, s));
      TameJoin(h, ops, rest, s);
    }
  }

  lemma IdStays(queue: seq<Txn>, lo: nat, hi: nat, t: Store)
    requires lo < hi <= |queue|
    ensures SameAt(t, After(Steps(queue, lo + 1, hi), t), HSid(lo))
  {
    StepsListed(queue, lo + 1, hi);
    AfterFrame(Steps(queue, lo + 1, hi), t);
  }

  /** One transaction fails exactly if it updates the location of an unknown subscriber. */
  lemma TxnFails(n: nat, txn: Txn, s: Store)
    requires !Faulty(s)
    ensures Faulty(After(TxnSteps(n, txn), s)) <==> !KnownTxn(txn, s)
  {
    var ops := TxnSteps(n, txn);
    if txn.UpdateLocation? {
      assert ops[1..] == [SetLocation(n, txn)] && ops[1..][1..] == [];
      var t := s + Effect(ops[0], s);
      assert Sid(t, n) == NumOr(s, SubNbr(txn.subNbr), -1);
      var u := t + Effect(SetLocation(n, txn), t);
      assert After(ops, s) == After(ops[1..], t) == After([], u);
      assert KnownTxn(txn, s) <==> IsSubscriber(t, Sid(t, n));
      if !KnownTxn(txn, s) { assert Fault(Sid(t, n)) in u; }
    } else {
      TxnStepsListed(n, txn);
      NoLocationNoFault(ops, s);
    }
  }

  lemma {:induction false} NoLocationNoFault(ops: seq<Step>, s: Store)
    requires !Faulty(s) && forall op | op in ops :: !op.SetLocation?
    ensures !Faulty(After(ops, s))
  {
    if ops != [] {
      assert forall x | x in ops[1..] :: x in ops;
      NoLocationNoFault(ops[1..], s + Effect(ops[0], s));
    }
  }

  /** EXACTLY WHEN THE SERIAL RUN FAILS.  It writes through a null record if and only if some
      update of a location names a subscriber that does not exist. */
  lemma {:induction false} SerialFails(queue: seq<Txn>, lo: nat, hi: nat, s: Store)
    requires lo <= hi <= |queue| && !Faulty(s)
    ensures Faulty(SerialStore(queue, lo, hi, s)) <==> !Known(queue, lo, hi, s)
    decreases hi - lo
  {
    if lo < hi {
      var ops, rest := TxnSteps(lo, queue[lo]), Steps(queue, lo + 1, hi);
      var t := After(ops, s);
      AfterAppend(ops, rest, s);
      AfterFrame(rest, t);
      TxnFails(lo, queue[lo], s);
      assert Known(queue, lo, hi, s) <==> KnownTxn(queue[lo], s) && Known(queue, lo + 1, hi, t) by { KnownSplit(queue, lo, hi, s, ops); }
      if !Faulty(t) { SerialFails(queue, lo + 1, hi, t); }
    }
  }

  lemma KnownSplit(queue: seq<Txn>, lo: nat, hi: nat, s: Store, ops: seq<Step>)
    requires lo < hi <= |queue|
    ensures Known(queue, lo, hi, s) <==> KnownTxn(queue[lo], s) && Known(queue, lo + 1, hi, After(ops, s))
  {
    var t := After(ops, s);
    AfterFrame(ops, s);
    forall n | lo <= n < hi ensures KnownTxn(queue[n], s) <==> KnownTxn(queue[n], t) {
      if queue[n].UpdateLocation? { assert SameAt(s, t, SubNbr(queue[n].subNbr)); }
    }
    if KnownTxn(queue[lo], s) && Known(queue, lo + 1, hi, t) {
      forall n | lo <= n < hi ensures KnownTxn(queue[n], s) { if n > lo { assert KnownTxn(queue[n], t); } }
    }
  }

  // ---- The batch is sound ----

  lemma CodeFits()
    ensures forall i | 0 <= i < |BATCH_CODE| ::
      match BATCH_CODE[i] case Spawn(g) => i == SpawnAt(g) case Join(g) => i == JoinAt(g) case Build => i == BUILD_AT
    ensures forall g :: SpawnAt(g) < JoinAt(g) < |BATCH_CODE| && BATCH_CODE[SpawnAt(g)] == Spawn(g) && BATCH_CODE[JoinAt(g)] == Join(g)
    ensures |BATCH_CODE| == 15 && BATCH_CODE[BUILD_AT] == Build
  {
  }

  /** Two steps of the batch that meet at a cell one of them writes: the id is resolved and
      joined before it is used, and everything else stays within one subscriber's bucket. */
  lemma MeetingIsForced(cfg: Config, h: Store, a: Step, b: Step, c: Cell)
    requires cfg.parallelism > 0 && Fits(a) && Fits(b) && Before(a, b) && (a.n == b.n ==> a.txn == b.txn)
    requires c in Touch(h, a) && c in Touch(h, b) && (c in Write(h, a) || c in Write(h, b))
    ensures Forced(BatchDesign(cfg, h), a, b)
  {
  }

  lemma OpsOrdered(cfg: Config, h: Store, queue: seq<Txn>, lo: nat, hi: nat)
    requires cfg.parallelism > 0 && lo <= hi <= |queue|
    ensures Ordering(BatchDesign(cfg, h), Steps(queue, lo, hi))
  {
    var d, ops := BatchDesign(cfg, h), Steps(queue, lo, hi);
    StepsListed(queue, lo, hi);
    forall a, b | a in ops && b in ops && d.home(a).Some? && d.home(b).Some? && d.before(a, b)
      ensures Indep(d.sys, a, b) || Forced(d, a, b)
    {
      if !Indep(d.sys, a, b) {
        var c := MeetingCell(h, a, b);
        MeetingIsForced(cfg, h, a, b, c);
      }
    }
  }

  lemma MeetingCell(h: Store, a: Step, b: Step) returns (c: Cell)
    requires !Indep(Sys(h), a, b)
    ensures c in Touch(h, a) && c in Touch(h, b) && (c in Write(h, a) || c in Write(h, b))
  {
    assert Write(h, a) <= Touch(h, a) && Write(h, b) <= Touch(h, b);
    if !(Write(h, a) !! Touch(h, b)) {
      c :| c in Write(h, a) && c in Touch(h, b);
    } else {
      c :| c in Write(h, b) && c in Touch(h, a);
    }
  }

  lemma OpsHoused(cfg: Config, h: Store, ops: seq<Step>)
    requires cfg.parallelism > 0
    ensures Homes(BatchPlan(cfg, ops), BatchDesign(cfg, h))
  {
  }

  lemma OpsAssigned(cfg: Config, h: Store, ops: seq<Step>, s: Store)
    requires forall op | op in ops :: Fits(op)
    ensures EarlyAssign(BatchPlan(cfg, ops), BatchDesign(cfg, h), s)
    ensures LateAssign(BatchPlan(cfg, ops), BatchDesign(cfg, h), h)
  {
    var plan, d := BatchPlan(cfg, ops), BatchDesign(cfg, h);
    forall snap | SettledAs(d, snap, h) ensures LateAssignAt(plan, d, snap) {
      forall op: Step ensures Of(snap, op) == Of(h, op) {
        assert d.settled(HSid(op.n)) && SameAt(snap, h, HSid(op.n));
      }
    }
  }

  lemma BatchIsSound(cfg: Config, queue: seq<Txn>, lo: nat, hi: nat, s: Store)
    requires cfg.parallelism > 0 && lo <= hi <= |queue|
    ensures Sound(BatchPlan(cfg, Steps(queue, lo, hi)), BatchDesign(cfg, SerialStore(queue, lo, hi, s)), s)
    ensures Run(Sys(SerialStore(queue, lo, hi, s)), Steps(queue, lo, hi), s) == SerialStore(queue, lo, hi, s)
  {
    var h := SerialStore(queue, lo, hi, s);
    StepsListed(queue, lo, hi);
    AfterIsRun(h, Steps(queue, lo, hi), s);
    SerialTame(h, queue, lo, hi, s);
    OpsOrdered(cfg, h, queue, lo, hi);
    OpsHoused(cfg, h, Steps(queue, lo, hi));
    OpsAssigned(cfg, h, Steps(queue, lo, hi), s);
    assert Placed(BatchPlan(cfg, Steps(queue, lo, hi)), BatchDesign(cfg, h)) by { CodeFits(); }
  }

  // ---- Main results ----

  /** TATP DETERMINISM.  However the threads interleave, a finished batch leaves the serial
      store, every read step returned what it returns in the serial run, and the same writes
      went through a null record. */
  lemma StrongDeterminism(cfg: Config, queue: seq<Txn>, lo: nat, hi: nat, s: Store, run: seq<Machine<Step, Group, Cell, Value>>)
    requires cfg.parallelism > 0 && lo <= hi <= |queue|
    requires IsRun(BatchPlan(cfg, Steps(queue, lo, hi)), s, run) && Done(BatchPlan(cfg, Steps(queue, lo, hi)), run[|run| - 1])
    ensures run[|run| - 1].store == SerialStore(queue, lo, hi, s)
  {
    BatchIsSound(cfg, queue, lo, hi, s);
    Determinism(BatchPlan(cfg, Steps(queue, lo, hi)), BatchDesign(cfg, SerialStore(queue, lo, hi, s)), s, run);
  }

  /** EXACTLY WHEN A BATCH FAILS, in every interleaving alike: a finished batch has written
      through a null record if and only if some update of a location names an unknown
      subscriber. */
  lemma BatchFails(cfg: Config, queue: seq<Txn>, lo: nat, hi: nat, s: Store, run: seq<Machine<Step, Group, Cell, Value>>)
    requires cfg.parallelism > 0 && lo <= hi <= |queue| && !Faulty(s)
    requires IsRun(BatchPlan(cfg, Steps(queue, lo, hi)), s, run) && Done(BatchPlan(cfg, Steps(queue, lo, hi)), run[|run| - 1])
    ensures Faulty(run[|run| - 1].store) <==> !Known(queue, lo, hi, s)
  {
    StrongDeterminism(cfg, queue, lo, hi, s, run);
    SerialFails(queue, lo, hi, s);
  }

  /** The same for the version on a thread pool. */
  lemma PoolStrongDeterminism(
      cfg: Config, queue: seq<Txn>, lo: nat, hi: nat, s: Store, workers: nat, run: seq<Pool<Step, Group, Cell, Value>>)
    requires cfg.parallelism > 0 && lo <= hi <= |queue|
    requires IsPoolRun(BatchPlan(cfg, Steps(queue, lo, hi)), workers, s, run)
    requires PoolDone(BatchPlan(cfg, Steps(queue, lo, hi)), run[|run| - 1])
    ensures run[|run| - 1].store == SerialStore(queue, lo, hi, s)
  {
    BatchIsSound(cfg, queue, lo, hi, s);
    PoolDeterminism(BatchPlan(cfg, Steps(queue, lo, hi)), BatchDesign(cfg, SerialStore(queue, lo, hi, s)), workers, s, run);
  }
}
