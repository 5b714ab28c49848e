/** The loops of the TATP batch processor: the strided id resolution and the filling of the
    three bucket families.  What a thread runs for its bucket is what the model deals to it. */
module TatpBatchProcessor {
  import opened Replay
  import opened ForkJoin
  import opened TatpModel
  import opened TatpSchedule

  /** The parameter vectors that buckets refer to. */
  datatype Kind = Dcf | Icf | Ul | Gsd | Usd | Access | Unlisted

  function KindOf(txn: Txn): Kind {
    match txn
    case DeleteCallForwarding(_, _, _) => Dcf
    case InsertCallForwarding(_, _, _, _, _) => Icf
    case UpdateLocation(_, _) => Ul
    case GetSubscriberData(_) => Gsd
    case UpdateSubscriberData(_, _, _, _) => Usd
    case GetAccessData(_, _) => Access
    case GetNewDestination => Unlisted
  }

  /** The places in the queue of the transactions of one kind, in order: the parameter vector
      of that kind. */
  function Numbers(queue: seq<Txn>, lo: nat, hi: nat, kind: Kind): seq<nat>
    requires lo <= hi <= |queue|
    decreases hi
  {
    if lo == hi then []
    else Numbers(queue, lo, hi - 1, kind) + if KindOf(queue[hi - 1]) == kind then [hi - 1] else []
  }

  lemma {:induction false} NumbersGrow(queue: seq<Txn>, lo: nat, mid: nat, hi: nat, kind: Kind)
    requires lo <= mid <= hi <= |queue|
    ensures Numbers(queue, lo, mid, kind) <= Numbers(queue, lo, hi, kind)
    ensures mid < hi && KindOf(queue[mid]) == kind ==>
      var pos := |Numbers(queue, lo, mid, kind)|;
      pos < |Numbers(queue, lo, hi, kind)| && Numbers(queue, lo, hi, kind)[pos] == mid
    decreases hi - mid
  {
    if mid < hi {
      NumbersGrow(queue, lo, mid + 1, hi, kind);
    }
  }

  // ---- Entries ----

  predicate IsBucketed(kind: Kind) { !kind.Access? && !kind.Unlisted? }

  predicate IsFamily(g: Group) { g.DcfIcf? || g.GsdUlUsd? || g.IcfUsd? }

  /** The tag with which transactions of a kind enter a family, or -1. */
  function Tag(g: Group, kind: Kind): int {
    match g
    case DcfIcf => if kind == Dcf then 0 else if kind == Icf then 1 else -1
    case GsdUlUsd => if kind == Gsd then 0 else if kind == Ul then 1 else if kind == Usd then 2 else -1
    case IcfUsd => if kind == Icf then 0 else if kind == Usd then 1 else -1
    case _ => -1
  }

  function KindAt(g: Group, tag: int): Kind {
    match g
    case DcfIcf => if tag == 0 then Dcf else Icf
    case GsdUlUsd => if tag == 0 then Gsd else if tag == 1 then Ul else Usd
    case IcfUsd => if tag == 0 then Icf else Usd
    case _ => Unlisted
  }

  /** The step that a thread of family g runs for an entry with this tag. */
  function StepFor(g: Group, tag: int, n: nat, txn: Txn): Step {
    match g
    case DcfIcf => if tag == 0 then DeleteForwarding(n, txn) else InsertForwarding(n, txn)
    case GsdUlUsd => if tag == 0 then ReadSubscriber(n, txn) else if tag == 1 then SetLocation(n, txn) else SetBit1(n, txn)
    case _ => if tag == 0 then ReadFacilities(n, txn) else SetDataA(n, txn)
  }

  function EntrySteps(g: Group, e: (int, nat), queue: seq<Txn>, lo: nat, hi: nat): seq<Step>
    requires lo <= hi <= |queue|
  {
    var ns := Numbers(queue, lo, hi, KindAt(g, e.0));
    if e.1 < |ns| && ns[e.1] < |queue| then [StepFor(g, e.0, ns[e.1], queue[ns[e.1]])] else []
  }

  function Work(g: Group, b: seq<(int, nat)>, queue: seq<Txn>, lo: nat, hi: nat): seq<Step>
    requires lo <= hi <= |queue|
  {
    if b == [] then [] else Work(g, b[..|b| - 1], queue, lo, hi) + EntrySteps(g, b[|b| - 1], queue, lo, hi)
  }

  /** The resolved ids, as the vectors dcf_s_ids, icf_s_ids and ul_s_ids hold them. */
  datatype Ids = Ids(dcf: seq<int>, icf: seq<int>, ul: seq<int>)

  /** The subscriber by whose hash a transaction is dealt out. */
  function KeyOf(txn: Txn, pos: nat, ids: Ids): int {
    match KindOf(txn)
    case Dcf => if pos < |ids.dcf| then ids.dcf[pos] else -1
    case Icf => if pos < |ids.icf| then ids.icf[pos] else -1
    case Ul => if pos < |ids.ul| then ids.ul[pos] else -1
    case _ => if txn.GetSubscriberData? || txn.UpdateSubscriberData? then txn.sId else -1
  }

  /** What transaction n adds to the bucket of thread t. */
  function TxnEntries(cfg: Config, g: Group, queue: seq<Txn>, lo: nat, n: nat, t: nat, ids: Ids): seq<(int, nat)>
    requires lo <= n < |queue| && cfg.parallelism > 0
  {
    var pos := |Numbers(queue, lo, n, KindOf(queue[n]))|;
    if Tag(g, KindOf(queue[n])) >= 0 && cfg.hash(KeyOf(queue[n], pos, ids)) % cfg.parallelism == t
    then [(Tag(g, KindOf(queue[n])), pos)] else []
  }

  function Entries(cfg: Config, g: Group, queue: seq<Txn>, lo: nat, hi: nat, t: nat, ids: Ids): seq<(int, nat)>
    requires lo <= hi <= |queue| && cfg.parallelism > 0
    decreases hi
  {
    if lo == hi then [] else Entries(cfg, g, queue, lo, hi - 1, t, ids) + TxnEntries(cfg, g, queue, lo, hi - 1, t, ids)
  }

  /** The id vectors hold what the store holds. */
  ghost predicate Shows(ids: Ids, queue: seq<Txn>, lo: nat, hi: nat, snap: Store)
    requires lo <= hi <= |queue|
  {
    && ShowsKind(ids.dcf, Numbers(queue, lo, hi, Dcf), snap)
    && ShowsKind(ids.icf, Numbers(queue, lo, hi, Icf), snap)
    && ShowsKind(ids.ul, Numbers(queue, lo, hi, Ul), snap)
  }

  ghost predicate ShowsKind(ids: seq<int>, ns: seq<nat>, snap: Store) {
    |ids| == |ns| && forall pos | 0 <= pos < |ids| :: ids[pos] == Sid(snap, ns[pos])
  }

  // ---- Buckets are filters ----

  /** If only step x of a transaction can go to a thread, x alone makes up its bucket. */
  lemma {:induction false} PickOne(plan: Plan<Step, Group, Cell, Value>, steps: seq<Step>, x: Step, mine: bool, snap: Store, tid: Tid<Group>)
    requires Sorted(steps, Before)
    requires forall op | op in steps :: plan.assign(op, snap) == Some(tid) <==> op == x && mine
    ensures Bucket(plan, steps, snap, tid) == if x in steps && mine then [x] else []
  {
    if steps != [] {
      var first, tail := steps[0], steps[1..];
      assert steps == [first] + tail;
      assert first !in tail by { assert forall op | op in tail :: Before(first, op); }
      PickOne(plan, tail, x, mine, snap, tid);
    }
  }

  /** A family takes one step of each transaction of its kinds, for the subscriber's thread. */
  lemma FamilyHome(cfg: Config, g: Group, op: Step, snap: Store, t: nat)
    requires cfg.parallelism > 0 && IsFamily(g) && Fits(op)
    ensures Assign(cfg, op, snap) == Some(Tid(g, t)) <==>
      && Tag(g, KindOf(op.txn)) >= 0 && op == StepFor(g, Tag(g, KindOf(op.txn)), op.n, op.txn)
      && cfg.hash(Of(snap, op)) % cfg.parallelism == t
  {
  }

  /** The one step of transaction n that family g runs, if thread t is to run it. */
  lemma TxnBucket(cfg: Config, ops: seq<Step>, g: Group, n: nat, txn: Txn, snap: Store, t: nat, key: int)
    requires cfg.parallelism > 0 && IsFamily(g)
    requires IsBucketed(KindOf(txn)) ==> key == if txn.GetSubscriberData? || txn.UpdateSubscriberData? then txn.sId else Sid(snap, n)
    ensures Bucket(BatchPlan(cfg, ops), TxnSteps(n, txn), snap, Tid(g, t))
         == if Tag(g, KindOf(txn)) >= 0 && cfg.hash(key) % cfg.parallelism == t then [StepFor(g, Tag(g, KindOf(txn)), n, txn)] else []
  {
    var plan, steps, tag := BatchPlan(cfg, ops), TxnSteps(n, txn), Tag(g, KindOf(txn));
    var x, mine := StepFor(g, tag, n, txn), tag >= 0 && cfg.hash(key) % cfg.parallelism == t;
    TxnStepsListed(n, txn);
    forall op | op in steps ensures plan.assign(op, snap) == Some(Tid(g, t)) <==> op == x && mine {
      FamilyHome(cfg, g, op, snap, t);
    }
    assert tag >= 0 ==> Fits(x);
    PickOne(plan, steps, x, mine, snap, Tid(g, t));
  }

  lemma KeyIsResolved(queue: seq<Txn>, lo: nat, n: nat, hi: nat, ids: Ids, snap: Store)
    requires lo <= n < hi <= |queue| && Shows(ids, queue, lo, hi, snap)
    ensures
      var txn, pos := queue[n], |Numbers(queue, lo, n, KindOf(queue[n]))|;
      IsBucketed(KindOf(txn)) ==>
        KeyOf(txn, pos, ids) == if txn.GetSubscriberData? || txn.UpdateSubscriberData? then txn.sId else Sid(snap, n)
  {
    NumbersGrow(queue, lo, n, hi, KindOf(queue[n]));
  }

  lemma EntryWork(g: Group, queue: seq<Txn>, lo: nat, n: nat, hi: nat)
    requires lo <= n < hi <= |queue| && IsFamily(g) && Tag(g, KindOf(queue[n])) >= 0
    ensures
      var kind := KindOf(queue[n]);
      EntrySteps(g, (Tag(g, kind), |Numbers(queue, lo, n, kind)|), queue, lo, hi) == [StepFor(g, Tag(g, kind), n, queue[n])]
  {
    NumbersGrow(queue, lo, n, hi, KindOf(queue[n]));
    assert KindAt(g, Tag(g, KindOf(queue[n]))) == KindOf(queue[n]);
  }

  lemma {:induction false} WorkAppend(g: Group, a: seq<(int, nat)>, b: seq<(int, nat)>, queue: seq<Txn>, lo: nat, hi: nat)
    requires lo <= hi <= |queue|
    ensures Work(g, a + b, queue, lo, hi) == Work(g, a, queue, lo, hi) + Work(g, b, queue, lo, hi)
  {
    if b == [] {
      assert a + b == a;
    } else {
      var c, e := b[..|b| - 1], b[|b| - 1];
      WorkAppend(g, a, c, queue, lo, hi);
      assert (a + b)[..|a + b| - 1] == a + c && (a + b)[|a + b| - 1] == e;
      JoinedLeft(Work(g, a, queue, lo, hi), Work(g, c, queue, lo, hi), EntrySteps(g, e, queue, lo, hi));
    }
  }

  lemma TxnEntriesDealt(
      cfg: Config, ops: seq<Step>, g: Group, queue: seq<Txn>, lo: nat, n: nat, hi: nat, ids: Ids, snap: Store, t: nat)
    requires cfg.parallelism > 0 && lo <= n < hi <= |queue| && IsFamily(g) && Shows(ids, queue, lo, hi, snap)
    ensures Work(g, TxnEntries(cfg, g, queue, lo, n, t, ids), queue, lo, hi)
         == Bucket(BatchPlan(cfg, ops), TxnSteps(n, queue[n]), snap, Tid(g, t))
  {
    var kind := KindOf(queue[n]);
    var pos := |Numbers(queue, lo, n, kind)|;
    KeyIsResolved(queue, lo, n, hi, ids, snap);
    TxnBucket(cfg, ops, g, n, queue[n], snap, t, KeyOf(queue[n], pos, ids));
    if Tag(g, kind) >= 0 {
      var e := (Tag(g, kind), pos);
      EntryWork(g, queue, lo, n, hi);
      assert Work(g, [e], queue, lo, hi) == Work(g, [], queue, lo, hi) + EntrySteps(g, e, queue, lo, hi);
    }
  }

  lemma StepsOneMore(queue: seq<Txn>, lo: nat, hi: nat)
    requires lo <= hi < |queue|
    ensures Steps(queue, lo, hi + 1) == Steps(queue, lo, hi) + TxnSteps(hi, queue[hi])
  {
    StepsAppend(queue, lo, hi, hi + 1);
    assert Steps(queue, hi, hi + 1) == TxnSteps(hi, queue[hi]) + Steps(queue, hi + 1, hi + 1);
  }

  /** Work and buckets that match in two parts match as a whole. */
  lemma DealtJoin(
      plan: Plan<Step, Group, Cell, Value>, g: Group, e1: seq<(int, nat)>, e2: seq<(int, nat)>, s1: seq<Step>, s2: seq<Step>,
      queue: seq<Txn>, lo: nat, hi: nat, snap: Store, tid: Tid<Group>)
    requires lo <= hi <= |queue|
    requires Work(g, e1, queue, lo, hi) == Bucket(plan, s1, snap, tid) && Work(g, e2, queue, lo, hi) == Bucket(plan, s2, snap, tid)
    ensures Work(g, e1 + e2, queue, lo, hi) == Bucket(plan, s1 + s2, snap, tid)
  {
    WorkAppend(g, e1, e2, queue, lo, hi);
    BucketAppend(plan, s1, s2, snap, tid);
  }

  ghost predicate IsDealt(
      plan: Plan<Step, Group, Cell, Value>, cfg: Config, g: Group, queue: seq<Txn>, lo: nat, mid: nat, hi: nat, ids: Ids, snap: Store, t: nat)
    requires cfg.parallelism > 0 && lo <= mid <= hi <= |queue|
  {
    Work(g, Entries(cfg, g, queue, lo, mid, t, ids), queue, lo, hi) == Bucket(plan, Steps(queue, lo, mid), snap, Tid(g, t))
  }

  ghost predicate TxnIsDealt(
      plan: Plan<Step, Group, Cell, Value>, cfg: Config, g: Group, queue: seq<Txn>, lo: nat, n: nat, hi: nat, ids: Ids, snap: Store, t: nat)
    requires cfg.parallelism > 0 && lo <= n < hi <= |queue|
  {
    Work(g, TxnEntries(cfg, g, queue, lo, n, t, ids), queue, lo, hi) == Bucket(plan, TxnSteps(n, queue[n]), snap, Tid(g, t))
  }

  lemma NoneDealt(plan: Plan<Step, Group, Cell, Value>, cfg: Config, g: Group, queue: seq<Txn>, lo: nat, hi: nat, ids: Ids, snap: Store, t: nat)
    requires cfg.parallelism > 0 && lo <= hi <= |queue|
    ensures IsDealt(plan, cfg, g, queue, lo, lo, hi, ids, snap, t)
  {
  }

  lemma DealtNext(
      plan: Plan<Step, Group, Cell, Value>, cfg: Config, g: Group, queue: seq<Txn>, lo: nat, n: nat, next: nat, hi: nat,
      ids: Ids, snap: Store, t: nat)
    requires cfg.parallelism > 0 && lo <= n < hi <= |queue| && next == n + 1
    requires IsDealt(plan, cfg, g, queue, lo, n, hi, ids, snap, t) && TxnIsDealt(plan, cfg, g, queue, lo, n, hi, ids, snap, t)
    ensures IsDealt(plan, cfg, g, queue, lo, next, hi, ids, snap, t)
  {
    var earlier, last := Entries(cfg, g, queue, lo, n, t, ids), TxnEntries(cfg, g, queue, lo, n, t, ids);
    var before, now, after := Steps(queue, lo, n), TxnSteps(n, queue[n]), Steps(queue, lo, next);
    assert after == before + now by { StepsOneMore(queue, lo, n); }
    assert Entries(cfg, g, queue, lo, next, t, ids) == earlier + last;
    DealtJoin(plan, g, earlier, last, before, now, queue, lo, hi, snap, Tid(g, t));
  }

  /** IsDealt as a property of the place that the loop has reached. */
  ghost function DealtTo(
      plan: Plan<Step, Group, Cell, Value>, cfg: Config, g: Group, queue: seq<Txn>, lo: nat, hi: nat, ids: Ids, snap: Store, t: nat): nat -> bool
    requires cfg.parallelism > 0 && lo <= hi <= |queue|
  {
    m => lo <= m <= hi && IsDealt(plan, cfg, g, queue, lo, m, hi, ids, snap, t)
  }

  lemma DealtCarries(
      plan: Plan<Step, Group, Cell, Value>, cfg: Config, g: Group, queue: seq<Txn>, lo: nat, n: nat, hi: nat, ids: Ids, snap: Store, t: nat)
    requires cfg.parallelism > 0 && lo <= n < hi <= |queue| && TxnIsDealt(plan, cfg, g, queue, lo, n, hi, ids, snap, t)
    ensures Carries(DealtTo(plan, cfg, g, queue, lo, hi, ids, snap, t), n)
  {
    if IsDealt(plan, cfg, g, queue, lo, n, hi, ids, snap, t) {
      DealtNext(plan, cfg, g, queue, lo, n, n + 1, hi, ids, snap, t);
    }
  }

  lemma DealtUpTo(
      plan: Plan<Step, Group, Cell, Value>, cfg: Config, g: Group, queue: seq<Txn>, lo: nat, hi: nat, ids: Ids, snap: Store, t: nat)
    requires cfg.parallelism > 0 && lo <= hi <= |queue|
    requires forall n | lo <= n < hi :: TxnIsDealt(plan, cfg, g, queue, lo, n, hi, ids, snap, t)
    ensures DealtTo(plan, cfg, g, queue, lo, hi, ids, snap, t)(hi)
  {
    var holds := DealtTo(plan, cfg, g, queue, lo, hi, ids, snap, t);
    assert holds(lo) by { NoneDealt(plan, cfg, g, queue, lo, hi, ids, snap, t); }
    forall n: nat | lo <= n < hi ensures Carries(holds, n) {
      DealtCarries(plan, cfg, g, queue, lo, n, hi, ids, snap, t);
    }
    Stepwise(holds, lo, hi);
  }

  /** BUCKETS ARE FILTERS.  What a thread of a family runs for its bucket is what the model
      deals to it, provided the id vectors show the ids that the store holds. */
  lemma EntriesAreDealt(cfg: Config, ops: seq<Step>, g: Group, queue: seq<Txn>, lo: nat, hi: nat, ids: Ids, snap: Store, t: nat)
    requires cfg.parallelism > 0 && lo <= hi <= |queue| && IsFamily(g) && Shows(ids, queue, lo, hi, snap)
    ensures IsDealt(BatchPlan(cfg, ops), cfg, g, queue, lo, hi, hi, ids, snap, t)
  {
    var plan := BatchPlan(cfg, ops);
    forall n | lo <= n < hi ensures TxnIsDealt(plan, cfg, g, queue, lo, n, hi, ids, snap, t) {
      TxnEntriesDealt(cfg, ops, g, queue, lo, n, hi, ids, snap, t);
    }
    DealtUpTo(plan, cfg, g, queue, lo, hi, ids, snap, t);
  }

  // ---- The loops ----

  ghost predicate Filled(cfg: Config, g: Group, bkts: seq<seq<(int, nat)>>, queue: seq<Txn>, lo: nat, hi: nat, ids: Ids)
    requires lo <= hi <= |queue| && cfg.parallelism > 0
  {
    |bkts| == cfg.parallelism && forall t | 0 <= t < |bkts| :: bkts[t] == Entries(cfg, g, queue, lo, hi, t, ids)
  }

  ghost predicate AllFilled(
      cfg: Config, dcfIcf: seq<seq<(int, nat)>>, gsdUlUsd: seq<seq<(int, nat)>>, icfUsd: seq<seq<(int, nat)>>,
      queue: seq<Txn>, lo: nat, n: nat, ids: Ids)
    requires lo <= n <= |queue| && cfg.parallelism > 0
  {
    && Filled(cfg, DcfIcf, dcfIcf, queue, lo, n, ids)
    && Filled(cfg, GsdUlUsd, gsdUlUsd, queue, lo, n, ids)
    && Filled(cfg, IcfUsd, icfUsd, queue, lo, n, ids)
  }

  /** The position counters. */
  ghost predicate Counted(dcfPos: nat, gsdPos: nat, icfPos: nat, ulPos: nat, usdPos: nat, queue: seq<Txn>, lo: nat, n: nat)
    requires lo <= n <= |queue|
  {
    && dcfPos == |Numbers(queue, lo, n, Dcf)| && gsdPos == |Numbers(queue, lo, n, Gsd)| && icfPos == |Numbers(queue, lo, n, Icf)|
    && ulPos == |Numbers(queue, lo, n, Ul)| && usdPos == |Numbers(queue, lo, n, Usd)|
  }

  lemma FilledNext(cfg: Config, g: Group, bkts: seq<seq<(int, nat)>>, bkts': seq<seq<(int, nat)>>, queue: seq<Txn>, lo: nat, n: nat, ids: Ids)
    requires lo <= n < |queue| && cfg.parallelism > 0 && Filled(cfg, g, bkts, queue, lo, n, ids) && |bkts'| == |bkts|
    requires forall t | 0 <= t < |bkts| :: bkts'[t] == bkts[t] + TxnEntries(cfg, g, queue, lo, n, t, ids)
    ensures Filled(cfg, g, bkts', queue, lo, n + 1, ids)
  {
  }

  /** One id for each transaction that needs one. */
  ghost predicate Sized(ids: Ids, queue: seq<Txn>, lo: nat, hi: nat)
    requires lo <= hi <= |queue|
  {
    |ids.dcf| == |Numbers(queue, lo, hi, Dcf)| && |ids.icf| == |Numbers(queue, lo, hi, Icf)| && |ids.ul| == |Numbers(queue, lo, hi, Ul)|
  }

  lemma PositionFits(queue: seq<Txn>, lo: nat, n: nat, hi: nat, ids: Ids)
    requires lo <= n < hi <= |queue| && Sized(ids, queue, lo, hi)
    ensures
      match KindOf(queue[n])
      case Dcf => |Numbers(queue, lo, n, Dcf)| < |ids.dcf|
      case Icf => |Numbers(queue, lo, n, Icf)| < |ids.icf|
      case Ul => |Numbers(queue, lo, n, Ul)| < |ids.ul|
      case _ => true
  {
    NumbersGrow(queue, lo, n, hi, KindOf(queue[n]));
  }

  /** ALL FAMILIES.  Every thread of the three families runs exactly the steps that the
      fork-join model deals to it. */
  lemma BucketsDeal(
      cfg: Config, dcfIcf: seq<seq<(int, nat)>>, gsdUlUsd: seq<seq<(int, nat)>>, icfUsd: seq<seq<(int, nat)>>,
      queue: seq<Txn>, lo: nat, hi: nat, ids: Ids, snap: Store, t: nat)
    requires cfg.parallelism > 0 && lo <= hi <= |queue| && t < cfg.parallelism
    requires AllFilled(cfg, dcfIcf, gsdUlUsd, icfUsd, queue, lo, hi, ids) && Shows(ids, queue, lo, hi, snap)
    ensures
      var plan, ops := BatchPlan(cfg, Steps(queue, lo, hi)), Steps(queue, lo, hi);
      && Work(DcfIcf, dcfIcf[t], queue, lo, hi) == Bucket(plan, ops, snap, Tid(DcfIcf, t))
      && Work(GsdUlUsd, gsdUlUsd[t], queue, lo, hi) == Bucket(plan, ops, snap, Tid(GsdUlUsd, t))
      && Work(IcfUsd, icfUsd[t], queue, lo, hi) == Bucket(plan, ops, snap, Tid(IcfUsd, t))
  {
    var ops := Steps(queue, lo, hi);
    EntriesAreDealt(cfg, ops, DcfIcf, queue, lo, hi, ids, snap, t);
    EntriesAreDealt(cfg, ops, GsdUlUsd, queue, lo, hi, ids, snap, t);
    EntriesAreDealt(cfg, ops, IcfUsd, queue, lo, hi, ids, snap, t);
  }

  // ---- Strides ----

  /** The positions below n that thread t of p visits, in order. */
  function Visited(n: nat, t: nat, p: nat): seq<nat>
    requires p > 0
  {
    if n == 0 then [] else Visited(n - 1, t, p) + if (n - 1) % p == t then [n - 1] else []
  }

  function Lesser(a: nat, b: nat): nat { if a < b then a else b }

  lemma {:induction false} VisitedSame(a: nat, b: nat, t: nat, p: nat)
    requires p > 0 && a <= b && forall j | a <= j < b :: j % p != t
    ensures Visited(b, t, p) == Visited(a, t, p)
    decreases b
  {
    if a < b { VisitedSame(a, b - 1, t, p); }
  }

  /** Before its first position a thread skips nothing of its own. */
  lemma StrideStart(t: nat, p: nat)
    requires t < p
    ensures t % p == t && (forall j | 0 <= j < t :: j % p != t)
    ensures forall n: nat | n <= t :: Visited(n, t, p) == []
  {
    forall j | 0 <= j <= t ensures j % p == j { Residue(j, p, 0, j); }
    forall n: nat | n <= t ensures Visited(n, t, p) == [] { VisitedSame(0, n, t, p); }
  }

  predicate IsStrided(g: Group) { g.DcfSid? || g.IcfSid? || g.UlSid? || g.Gad? }

  function StrideKind(g: Group): Kind
    requires IsStrided(g)
  {
    match g case DcfSid => Dcf case IcfSid => Icf case UlSid => Ul case Gad => Access
  }

  /** What a thread of group g does at position pos of its parameter vector. */
  function StrideStep(g: Group, pos: nat, ns: seq<nat>, queue: seq<Txn>): seq<Step> {
    if !(pos < |ns| && ns[pos] < |queue|) then []
    else if g.Gad? then [ReadAccess(ns[pos], queue[ns[pos]])]
    else [Resolve(ns[pos], queue[ns[pos]])]
  }

  function StrideWork(g: Group, visited: seq<nat>, ns: seq<nat>, queue: seq<Txn>): seq<Step> {
    if visited == [] then []
    else StrideWork(g, visited[..|visited| - 1], ns, queue) + StrideStep(g, visited[|visited| - 1], ns, queue)
  }

  /** The configuration in which each transaction has its place in its parameter vector. */
  function InTurn(parallelism: nat, hash: int -> nat, queue: seq<Txn>, lo: nat): Config {
    Config(parallelism, hash, n => if lo <= n < |queue| then |Numbers(queue, lo, n, KindOf(queue[n]))| else 0)
  }

  /** Resolution and access reads go in turn; no other step goes to their threads. */
  lemma StridedHome(cfg: Config, g: Group, op: Step, queue: seq<Txn>, lo: nat, snap: Store, t: nat)
    requires cfg.parallelism > 0 && IsStrided(g) && Fits(op)
    requires cfg == InTurn(cfg.parallelism, cfg.hash, queue, lo) && lo <= op.n < |queue| && op.txn == queue[op.n]
    ensures Assign(cfg, op, snap) == Some(Tid(g, t)) <==>
      && (op.Resolve? || op.ReadAccess?) && KindOf(op.txn) == StrideKind(g)
      && |Numbers(queue, lo, op.n, KindOf(op.txn))| % cfg.parallelism == t
  {
    assert cfg.position(op.n) == |Numbers(queue, lo, op.n, KindOf(op.txn))|;
  }

  lemma StrideTxn(cfg: Config, ops: seq<Step>, g: Group, queue: seq<Txn>, lo: nat, n: nat, snap: Store, t: nat)
    requires cfg.parallelism > 0 && lo <= n < |queue| && IsStrided(g)
    requires cfg == InTurn(cfg.parallelism, cfg.hash, queue, lo)
    ensures Bucket(BatchPlan(cfg, ops), TxnSteps(n, queue[n]), snap, Tid(g, t)) == StrideShare(cfg.parallelism, g, queue, lo, n, t)
  {
    var plan, txn, steps := BatchPlan(cfg, ops), queue[n], TxnSteps(n, queue[n]);
    var x := if g.Gad? then ReadAccess(n, txn) else Resolve(n, txn);
    var mine := KindOf(txn) == StrideKind(g) && |Numbers(queue, lo, n, KindOf(txn))| % cfg.parallelism == t;
    TxnStepsListed(n, txn);
    forall op | op in steps ensures plan.assign(op, snap) == Some(Tid(g, t)) <==> op == x && mine {
      StridedHome(cfg, g, op, queue, lo, snap, t);
    }
    assert mine ==> Fits(x);
    PickOne(plan, steps, x, mine, snap, Tid(g, t));
  }

  /** What transaction n adds to the work of thread t. */
  function StrideShare(p: nat, g: Group, queue: seq<Txn>, lo: nat, n: nat, t: nat): seq<Step>
    requires p > 0 && lo <= n < |queue| && IsStrided(g)
  {
    if KindOf(queue[n]) == StrideKind(g) && |Numbers(queue, lo, n, StrideKind(g))| % p == t
    then [if g.Gad? then ReadAccess(n, queue[n]) else Resolve(n, queue[n])] else []
  }

  lemma StrideAdds(g: Group, p: nat, ns: seq<nat>, queue: seq<Txn>, pos: nat, t: nat)
    requires p > 0
    ensures StrideWork(g, Visited(pos + 1, t, p), ns, queue)
         == StrideWork(g, Visited(pos, t, p), ns, queue) + if pos % p == t then StrideStep(g, pos, ns, queue) else []
  {
    var earlier := Visited(pos, t, p);
    if pos % p == t {
      assert Visited(pos + 1, t, p) == earlier + [pos];
      assert (earlier + [pos])[..|earlier|] == earlier;
    } else {
      assert Visited(pos + 1, t, p) == earlier;
    }
  }

  lemma StrideGrows(g: Group, p: nat, queue: seq<Txn>, lo: nat, n: nat, hi: nat, ns: seq<nat>, t: nat)
    requires p > 0 && lo <= n < hi <= |queue| && IsStrided(g) && ns == Numbers(queue, lo, hi, StrideKind(g))
    ensures StrideWork(g, Visited(|Numbers(queue, lo, n + 1, StrideKind(g))|, t, p), ns, queue)
         == StrideWork(g, Visited(|Numbers(queue, lo, n, StrideKind(g))|, t, p), ns, queue) + StrideShare(p, g, queue, lo, n, t)
  {
    var kind := StrideKind(g);
    var pos := |Numbers(queue, lo, n, kind)|;
    if KindOf(queue[n]) == kind {
      assert pos < |ns| && ns[pos] == n by { NumbersGrow(queue, lo, n, hi, kind); }
      assert |Numbers(queue, lo, n + 1, kind)| == pos + 1;
      StrideAdds(g, p, ns, queue, pos, t);
    } else {
      assert Numbers(queue, lo, n + 1, kind) == Numbers(queue, lo, n, kind);
    }
  }

  /** What a thread does at the positions that belong to lo..mid is what it is dealt of them. */
  ghost predicate StrideMatches(
      plan: Plan<Step, Group, Cell, Value>, p: nat, g: Group, ns: seq<nat>, queue: seq<Txn>, lo: nat, mid: nat, snap: Store, t: nat)
    requires p > 0 && lo <= mid <= |queue| && IsStrided(g)
  {
    StrideWork(g, Visited(|Numbers(queue, lo, mid, StrideKind(g))|, t, p), ns, queue)
      == Bucket(plan, Steps(queue, lo, mid), snap, Tid(g, t))
  }

  ghost predicate StrideIsDealt(plan: Plan<Step, Group, Cell, Value>, p: nat, g: Group, queue: seq<Txn>, lo: nat, n: nat, snap: Store, t: nat)
    requires p > 0 && lo <= n < |queue| && IsStrided(g)
  {
    Bucket(plan, TxnSteps(n, queue[n]), snap, Tid(g, t)) == StrideShare(p, g, queue, lo, n, t)
  }

  lemma StrideNext(
      plan: Plan<Step, Group, Cell, Value>, p: nat, g: Group, ns: seq<nat>, queue: seq<Txn>, lo: nat, n: nat, next: nat, hi: nat,
      snap: Store, t: nat)
    requires p > 0 && lo <= n < hi <= |queue| && IsStrided(g) && ns == Numbers(queue, lo, hi, StrideKind(g)) && next == n + 1
    requires StrideMatches(plan, p, g, ns, queue, lo, n, snap, t) && StrideIsDealt(plan, p, g, queue, lo, n, snap, t)
    ensures StrideMatches(plan, p, g, ns, queue, lo, next, snap, t)
  {
    var before, now, after := Steps(queue, lo, n), TxnSteps(n, queue[n]), Steps(queue, lo, n + 1);
    assert after == before + now by { StepsOneMore(queue, lo, n); }
    BucketAppend(plan, before, now, snap, Tid(g, t));
    StrideGrows(g, p, queue, lo, n, hi, ns, t);
  }

  lemma {:induction false} StridesUpTo(
      plan: Plan<Step, Group, Cell, Value>, p: nat, g: Group, ns: seq<nat>, queue: seq<Txn>, lo: nat, mid: nat, hi: nat, snap: Store, t: nat)
    requires p > 0 && lo <= mid <= hi <= |queue| && IsStrided(g) && ns == Numbers(queue, lo, hi, StrideKind(g))
    requires forall n | lo <= n < hi :: StrideIsDealt(plan, p, g, queue, lo, n, snap, t)
    ensures StrideMatches(plan, p, g, ns, queue, lo, mid, snap, t)
    decreases mid
  {
    if lo < mid {
      StridesUpTo(plan, p, g, ns, queue, lo, mid - 1, hi, snap, t);
      StrideNext(plan, p, g, ns, queue, lo, mid - 1, mid, hi, snap, t);
    }
  }

  /** STRIDES ARE FILTERS.  What a thread of id resolution or of the access reads does at the
      positions it visits is what the model deals to it. */
  lemma StridesDeal(cfg: Config, g: Group, queue: seq<Txn>, lo: nat, hi: nat, snap: Store, t: nat)
    requires cfg.parallelism > 0 && lo <= hi <= |queue| && IsStrided(g)
    requires cfg == InTurn(cfg.parallelism, cfg.hash, queue, lo)
    ensures
      var ns, ops := Numbers(queue, lo, hi, StrideKind(g)), Steps(queue, lo, hi);
      StrideWork(g, Visited(|ns|, t, cfg.parallelism), ns, queue) == Bucket(BatchPlan(cfg, ops), ops, snap, Tid(g, t))
  {
    var ns, ops := Numbers(queue, lo, hi, StrideKind(g)), Steps(queue, lo, hi);
    var plan := BatchPlan(cfg, ops);
    forall n | lo <= n < hi ensures StrideIsDealt(plan, cfg.parallelism, g, queue, lo, n, snap, t) {
      StrideTxn(cfg, ops, g, queue, lo, n, snap, t);
    }
    StridesUpTo(plan, cfg.parallelism, g, ns, queue, lo, hi, hi, snap, t);
  }

  class BatchProcessor {
    const parallelism: nat
    const cfg: Config

    constructor (cfg: Config)
      requires cfg.parallelism > 0
      ensures this.cfg == cfg && parallelism == cfg.parallelism
    {
      this.cfg, parallelism := cfg, cfg.parallelism;
    }

    /** Thread t of id resolution looks up every parallelism-th number, starting with number t. */
    method ResolveStride(t: nat, subNbrs: seq<string>, db: Store, ids: array<int>) returns (ghost visited: seq<nat>)
      requires t < parallelism && ids.Length == |subNbrs|
      modifies ids
      ensures visited == Visited(|subNbrs|, t, parallelism)
      ensures forall i | 0 <= i < ids.Length ::
        ids[i] == if i % parallelism == t then NumOr(db, SubNbr(subNbrs[i]), -1) else old(ids[i])
    {
      var i := t;
      visited := [];
      StrideStart(t, parallelism);
      while i < |subNbrs|
        invariant i >= t && i % parallelism == t && visited == Visited(Lesser(i, |subNbrs|), t, parallelism)
        invariant forall j | 0 <= j < ids.Length ::
          ids[j] == if j < i && j % parallelism == t then NumOr(db, SubNbr(subNbrs[j]), -1) else old(ids[j])
      {
        ids[i] := NumOr(db, SubNbr(subNbrs[i]), -1);
        StrideGap(i, t, parallelism);
        VisitedSame(i + 1, Lesser(i + parallelism, |subNbrs|), t, parallelism);
        visited := visited + [i];
        i := i + parallelism;
      }
    }

    /** Thread t of the access reads does the same with its parameters. */
    method AccessStride(t: nat, params: seq<(int, int)>, db: Store, seen: array<Value>) returns (ghost visited: seq<nat>)
      requires t < parallelism && seen.Length == |params|
      modifies seen
      ensures visited == Visited(|params|, t, parallelism)
      ensures forall i | 0 <= i < seen.Length ::
        seen[i] == if i % parallelism == t then Look(db, AccessInfo(params[i].0, params[i].1)) else old(seen[i])
    {
      var i := t;
      visited := [];
      StrideStart(t, parallelism);
      while i < |params|
        invariant i >= t && i % parallelism == t && visited == Visited(Lesser(i, |params|), t, parallelism)
        invariant forall j | 0 <= j < seen.Length ::
          seen[j] == if j < i && j % parallelism == t then Look(db, AccessInfo(params[j].0, params[j].1)) else old(seen[j])
      {
        seen[i] := Look(db, AccessInfo(params[i].0, params[i].1));
        StrideGap(i, t, parallelism);
        VisitedSame(i + 1, Lesser(i + parallelism, |params|), t, parallelism);
        visited := visited + [i];
        i := i + parallelism;
      }
    }

    /** Appends (tag, pos) to the bucket of a subscriber. */
    method Append(key: int, tag: int, pos: nat, bkt: array<seq<(int, nat)>>)
      requires 0 < parallelism == cfg.parallelism == bkt.Length
      modifies bkt
      ensures forall t | 0 <= t < parallelism ::
        bkt[t] == old(bkt[t]) + if cfg.hash(key) % parallelism == t then [(tag, pos)] else []
    {
      var slot := cfg.hash(key) % parallelism;
      bkt[slot] := bkt[slot] + [(tag, pos)];
    }

    /** One transaction of the batch. */
    method Round(
      ghost queue: seq<Txn>, ghost lo: nat, ghost n: nat, txn: Txn, ids: Ids,
      dcfPos: nat, gsdPos: nat, icfPos: nat, ulPos: nat, usdPos: nat,
      dcfIcf: array<seq<(int, nat)>>, gsdUlUsd: array<seq<(int, nat)>>, icfUsd: array<seq<(int, nat)>>)
      requires 0 < parallelism == cfg.parallelism && lo <= n < |queue| && queue[n] == txn
      requires dcfIcf != gsdUlUsd && dcfIcf != icfUsd && gsdUlUsd != icfUsd
      requires Counted(dcfPos, gsdPos, icfPos, ulPos, usdPos, queue, lo, n)
      requires KindOf(txn) == Dcf ==> dcfPos < |ids.dcf|
      requires KindOf(txn) == Icf ==> icfPos < |ids.icf|
      requires KindOf(txn) == Ul ==> ulPos < |ids.ul|
      requires AllFilled(cfg, dcfIcf[..], gsdUlUsd[..], icfUsd[..], queue, lo, n, ids)
      modifies dcfIcf, gsdUlUsd, icfUsd
      ensures AllFilled(cfg, dcfIcf[..], gsdUlUsd[..], icfUsd[..], queue, lo, n + 1, ids)
    {
      ghost var a, b, c := dcfIcf[..], gsdUlUsd[..], icfUsd[..];
      match txn {
        case DeleteCallForwarding(_, _, _) =>
          Append(ids.dcf[dcfPos], 0, dcfPos, dcfIcf);
        case GetSubscriberData(sId) =>
          Append(sId, 0, gsdPos, gsdUlUsd);
        case InsertCallForwarding(_, _, _, _, _) =>
          Append(ids.icf[icfPos], 1, icfPos, dcfIcf);
          Append(ids.icf[icfPos], 0, icfPos, icfUsd);
        case UpdateLocation(_, _) =>
          Append(ids.ul[ulPos], 1, ulPos, gsdUlUsd);
        case UpdateSubscriberData(sId, _, _, _) =>
          Append(sId, 2, usdPos, gsdUlUsd);
          Append(sId, 1, usdPos, icfUsd);
        case _ =>
      }
      FilledNext(cfg, DcfIcf, a, dcfIcf[..], queue, lo, n, ids);
      FilledNext(cfg, GsdUlUsd, b, gsdUlUsd[..], queue, lo, n, ids);
      FilledNext(cfg, IcfUsd, c, icfUsd[..], queue, lo, n, ids);
    }

    method FillLoop(
      ghost queue: seq<Txn>, ghost lo: nat, ghost hi: nat, batchParams: seq<Txn>, ids: Ids,
      dcfIcf: array<seq<(int, nat)>>, gsdUlUsd: array<seq<(int, nat)>>, icfUsd: array<seq<(int, nat)>>)
      requires 0 < parallelism == cfg.parallelism && lo <= hi <= |queue| && batchParams == queue[lo..hi]
      requires dcfIcf != gsdUlUsd && dcfIcf != icfUsd && gsdUlUsd != icfUsd
      requires Sized(ids, queue, lo, hi)
      requires AllFilled(cfg, dcfIcf[..], gsdUlUsd[..], icfUsd[..], queue, lo, lo, ids)
      modifies dcfIcf, gsdUlUsd, icfUsd
      ensures AllFilled(cfg, dcfIcf[..], gsdUlUsd[..], icfUsd[..], queue, lo, hi, ids)
    {
      var dcfPos, gsdPos, icfPos, ulPos, usdPos: nat := 0, 0, 0, 0, 0;
      var i := 0;
      ghost var n := lo;
      while i < |batchParams|
        invariant i <= |batchParams| && n == lo + i
        invariant Counted(dcfPos, gsdPos, icfPos, ulPos, usdPos, queue, lo, n)
        invariant AllFilled(cfg, dcfIcf[..], gsdUlUsd[..], icfUsd[..], queue, lo, n, ids)
      {
        assert batchParams[i] == queue[n];
        PositionFits(queue, lo, n, hi, ids);
        Round(queue, lo, n, batchParams[i], ids, dcfPos, gsdPos, icfPos, ulPos, usdPos, dcfIcf, gsdUlUsd, icfUsd);
        assert AllFilled(cfg, dcfIcf[..], gsdUlUsd[..], icfUsd[..], queue, lo, n + 1, ids);
        match batchParams[i] {
          case DeleteCallForwarding(_, _, _) => dcfPos := dcfPos + 1;
          case GetSubscriberData(_) => gsdPos := gsdPos + 1;
          case InsertCallForwarding(_, _, _, _, _) => icfPos := icfPos + 1;
          case UpdateLocation(_, _) => ulPos := ulPos + 1;
          case UpdateSubscriberData(_, _, _, _) => usdPos := usdPos + 1;
          case _ =>
        }
        i, n := i + 1, n + 1;
      }
      assert n == hi;
    }

    /** The three families, filled once the ids are resolved. */
    method BuildBuckets(ghost queue: seq<Txn>, ghost lo: nat, ghost hi: nat, batchParams: seq<Txn>, ids: Ids)
      returns (dcfIcf: array<seq<(int, nat)>>, gsdUlUsd: array<seq<(int, nat)>>, icfUsd: array<seq<(int, nat)>>)
      requires 0 < parallelism == cfg.parallelism && lo <= hi <= |queue| && batchParams == queue[lo..hi] && Sized(ids, queue, lo, hi)
      ensures AllFilled(cfg, dcfIcf[..], gsdUlUsd[..], icfUsd[..], queue, lo, hi, ids)
    {
      dcfIcf := new seq<(int, nat)>[parallelism](_ => []);
      gsdUlUsd := new seq<(int, nat)>[parallelism](_ => []);
      icfUsd := new seq<(int, nat)>[parallelism](_ => []);
      FillLoop(queue, lo, hi, batchParams, ids, dcfIcf, gsdUlUsd, icfUsd);
    }
  }

  lemma StrideGap(i: nat, t: nat, p: nat)
    requires p > 0 && i % p == t
    ensures (i + p) % p == t && forall j | i < j < i + p :: j % p != t
  {
    var q := i / p;
    assert i == p * q + t;
    Residue(i + p, p, q + 1, t);
    forall j | i < j < i + p ensures j % p != t {
      if t + (j - i) < p {
        Residue(j, p, q, t + (j - i));
      } else {
        Residue(j, p, q + 1, t + (j - i) - p);
      }
    }
  }

  lemma Residue(x: nat, p: nat, q: nat, r: nat)
    requires p > 0 && r < p && x == p * q + r
    ensures x % p == r
  {
    var d := x / p;
    assert x == p * d + x % p;
    if d > q {
      Grows(p, q + 1, d);
    } else if d < q {
      Grows(p, d + 1, q);
    }
  }

  lemma Grows(p: nat, a: nat, b: nat)
    requires a <= b
    ensures p * a <= p * b
  {
  }
}
