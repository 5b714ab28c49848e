/** Fork-join execution of bucketed steps.
    A main program spawns groups of threads and joins them.  When a group is spawned each of
    its threads receives a bucket: the order-preserving filter of the batch by an assignment
    of steps to threads.  At one `Build` instruction the main program reads the store and
    prepares the buckets of all later groups from what it read. */
module ForkJoin {
  import opened Replay

  datatype Instr<G> = Spawn(g: G) | Join(g: G) | Build

  datatype Tid<G> = Tid(g: G, t: nat)

  /** What the batch processor runs. */
  datatype Plan<!Op, !G, !C, !V> = Plan(
    code: seq<Instr<G>>,
    width: G -> nat,
    ops: seq<Op>,
    assign: (Op, map<C, V>) -> Option<Tid<G>>,
    eff: (Op, map<C, V>) -> map<C, V>)

  /** One state of a run.  `trace` lists the steps run so far and `tids` their threads. */
  datatype Machine<Op, G(==), C(==), V> = Machine(
    pc: nat,
    snap: map<C, V>,
    todo: map<Tid<G>, seq<Op>>,
    store: map<C, V>,
    tids: seq<Tid<G>>,
    trace: seq<Op>)

  function Bucket<Op, G(==), C, V>(plan: Plan<Op, G, C, V>, ops: seq<Op>, snap: map<C, V>, tid: Tid<G>): seq<Op> {
    if ops == [] then []
    else (if plan.assign(ops[0], snap) == Some(tid) then [ops[0]] else []) + Bucket(plan, ops[1..], snap, tid)
  }

  /** The buckets that the threads of a group receive. */
  function Dealt<Op, G(==,!new), C, V>(plan: Plan<Op, G, C, V>, snap: map<C, V>, g: G): (dealt: map<Tid<G>, seq<Op>>)
    ensures forall tid :: tid in dealt <==> tid.g == g && tid.t < plan.width(g)
    ensures forall tid | tid in dealt :: dealt[tid] == Bucket(plan, plan.ops, snap, tid)
  {
    map t: nat | 0 <= t < plan.width(g) :: Tid(g, t) := Bucket(plan, plan.ops, snap, Tid(g, t))
  }

  function Init<Op, G(==), C, V>(s0: map<C, V>): Machine<Op, G, C, V> {
    Machine(0, s0, map[], s0, [], [])
  }

  ghost predicate MainStep<Op, G(!new), C, V>(plan: Plan<Op, G, C, V>, m: Machine<Op, G, C, V>, m': Machine<Op, G, C, V>) {
    && m.pc < |plan.code|
    && match plan.code[m.pc]
       case Spawn(g) =>
         m' == m.(pc := m.pc + 1, todo := m.todo + Dealt(plan, m.snap, g))
       case Join(g) =>
         && (forall tid | tid in m.todo && tid.g == g :: m.todo[tid] == [])
         && m' == m.(pc := m.pc + 1)
       case Build =>
         m' == m.(pc := m.pc + 1, snap := m.store)
  }

  ghost predicate WorkStep<Op, G, C, V>(
      plan: Plan<Op, G, C, V>, m: Machine<Op, G, C, V>, tid: Tid<G>, m': Machine<Op, G, C, V>)
  {
    && tid in m.todo && m.todo[tid] != []
    && m' == m.(todo := m.todo[tid := m.todo[tid][1..]],
                store := m.store + plan.eff(m.todo[tid][0], m.store),
                tids := m.tids + [tid],
                trace := m.trace + [m.todo[tid][0]])
  }

  ghost predicate Next<Op, G(!new), C, V>(plan: Plan<Op, G, C, V>, m: Machine<Op, G, C, V>, m': Machine<Op, G, C, V>) {
    MainStep(plan, m, m') || exists tid :: WorkStep(plan, m, tid, m')
  }

  /** A run: any interleaving of the main program with the spawned threads. */
  ghost predicate IsRun<Op, G(!new), C, V>(plan: Plan<Op, G, C, V>, s0: map<C, V>, run: seq<Machine<Op, G, C, V>>) {
    && run != [] && run[0] == Init(s0)
    && forall i | 0 <= i < |run| - 1 :: NextAt(plan, run, i)
  }

  ghost predicate NextAt<Op, G(!new), C, V>(plan: Plan<Op, G, C, V>, run: seq<Machine<Op, G, C, V>>, i: nat)
    requires i < |run| - 1
  {
    Next(plan, run[i], run[i + 1])
  }

  ghost predicate Done<Op, G, C, V>(plan: Plan<Op, G, C, V>, m: Machine<Op, G, C, V>) {
    m.pc == |plan.code|
  }

  /** Why a plan is deterministic: the serial order, the footprints, the thread every step
      ends up on, the place of each group in the main program, and the cells that the
      bucket building reads. */
  datatype Design<!Op, !G, !C, !V> = Design(
    sys: System<Op, C, V>,
    before: (Op, Op) -> bool,
    home: Op -> Option<Tid<G>>,
    spawnAt: G -> nat,
    joinAt: G -> nat,
    buildAt: nat,
    settled: C -> bool)

  ghost predicate Placed<Op, G(!new), C, V>(plan: Plan<Op, G, C, V>, d: Design<Op, G, C, V>) {
    && d.buildAt < |plan.code| && plan.code[d.buildAt] == Build
    && (forall i | 0 <= i < |plan.code| ::
          match plan.code[i]
          case Spawn(g) => i == d.spawnAt(g)
          case Join(g) => i == d.joinAt(g)
          case Build => i == d.buildAt)
    && (forall g :: d.spawnAt(g) < d.joinAt(g) < |plan.code| && plan.code[d.spawnAt(g)] == Spawn(g) && plan.code[d.joinAt(g)] == Join(g))
  }

  /** The spawns and joins, or a shared bucket, force a to run before b. */
  predicate Forced<Op, G(==), C, V>(d: Design<Op, G, C, V>, a: Op, b: Op) {
    && d.home(a).Some? && d.home(b).Some?
    && (d.home(a) == d.home(b) || d.joinAt(d.home(a).value.g) < d.spawnAt(d.home(b).value.g))
  }

  ghost predicate Ordering<Op(!new), G, C, V>(d: Design<Op, G, C, V>, ops: seq<Op>) {
    && Sorted(ops, d.before)
    && (forall a, b :: d.before(a, b) ==> !d.before(b, a))
    && (forall a, b | a in ops && b in ops && d.home(a).Some? && d.home(b).Some? && d.before(a, b) ::
          Indep(d.sys, a, b) || Forced(d, a, b))
  }

  ghost predicate EarlyAssign<Op, G(!new), C, V>(plan: Plan<Op, G, C, V>, d: Design<Op, G, C, V>, s0: map<C, V>) {
    forall op, tid: Tid<G> | op in plan.ops && d.spawnAt(tid.g) < d.buildAt ::
      plan.assign(op, s0) == Some(tid) <==> d.home(op) == Some(tid)
  }

  /** A snapshot that holds the serial run's content in every settled cell leads the bucket
      building to the threads that the design names. */
  ghost predicate LateAssign<Op, G(!new), C(!new), V(!new)>(plan: Plan<Op, G, C, V>, d: Design<Op, G, C, V>, fin: map<C, V>) {
    forall snap | SettledAs(d, snap, fin) :: LateAssignAt(plan, d, snap)
  }

  ghost predicate LateAssignAt<Op, G(!new), C, V>(plan: Plan<Op, G, C, V>, d: Design<Op, G, C, V>, snap: map<C, V>) {
    forall op, tid: Tid<G> | op in plan.ops && d.spawnAt(tid.g) > d.buildAt ::
      plan.assign(op, snap) == Some(tid) <==> d.home(op) == Some(tid)
  }

  ghost predicate SettledAs<Op, G, C(!new), V>(d: Design<Op, G, C, V>, snap: map<C, V>, fin: map<C, V>) {
    forall c | d.settled(c) :: SameAt(snap, fin, c)
  }

  ghost predicate Homes<Op, G, C, V>(plan: Plan<Op, G, C, V>, d: Design<Op, G, C, V>) {
    forall op | op in plan.ops ::
      match d.home(op)
      case None => d.sys.write(op) == {}
      case Some(tid) =>
        && tid.t < plan.width(tid.g)
        && forall c | c in d.sys.write(op) && d.settled(c) :: d.joinAt(tid.g) < d.buildAt
  }

  ghost predicate Sound<Op(!new), G(!new), C(!new), V(!new)>(plan: Plan<Op, G, C, V>, d: Design<Op, G, C, V>, s0: map<C, V>) {
    && plan.eff == d.sys.eff
    && Placed(plan, d)
    && Ordering(d, plan.ops)
    && Homes(plan, d)
    && Tame(d.sys, plan.ops, s0)
    && EarlyAssign(plan, d, s0)
    && LateAssign(plan, d, Run(d.sys, plan.ops, s0))
  }

  // ---- Buckets ----

  /** A bucket is the order-preserving filter of the batch: it holds exactly the steps
      assigned to its thread, in serial order. */
  lemma {:induction false} BucketFilters<Op(!new), G(!new), C(!new), V(!new)>(
      plan: Plan<Op, G, C, V>, ops: seq<Op>, snap: map<C, V>, tid: Tid<G>, before: (Op, Op) -> bool)
    requires Sorted(ops, before)
    ensures Sorted(Bucket(plan, ops, snap, tid), before)
    ensures forall x :: x in Bucket(plan, ops, snap, tid) <==> x in ops && plan.assign(x, snap) == Some(tid)
  {
    if ops != [] {
      assert ops == [ops[0]] + ops[1..];
      BucketFilters(plan, ops[1..], snap, tid, before);
      var rest := Bucket(plan, ops[1..], snap, tid);
      forall x | x in rest ensures before(ops[0], x) {
        var j :| 0 <= j < |ops[1..]| && ops[1..][j] == x;
        assert before(ops[0], ops[j + 1]);
      }
    }
  }

  lemma {:induction false} BucketAppend<Op, G, C, V>(plan: Plan<Op, G, C, V>, a: seq<Op>, b: seq<Op>, snap: map<C, V>, tid: Tid<G>)
    ensures Bucket(plan, a + b, snap, tid) == Bucket(plan, a, snap, tid) + Bucket(plan, b, snap, tid)
  {
    if a == [] {
      assert a + b == b;
    } else {
      BucketAppend(plan, a[1..], b, snap, tid);
      assert (a + b)[0] == a[0] && (a + b)[1..] == a[1..] + b;
      var first := if plan.assign(a[0], snap) == Some(tid) then [a[0]] else [];
      JoinedLeft(first, Bucket(plan, a[1..], snap, tid), Bucket(plan, b, snap, tid));
    }
  }

  lemma {:induction false} NothingFor<Op, G, C, V>(plan: Plan<Op, G, C, V>, ops: seq<Op>, snap: map<C, V>, tid: Tid<G>)
    requires forall op | op in ops :: plan.assign(op, snap) != Some(tid)
    ensures Bucket(plan, ops, snap, tid) == []
  {
    if ops != [] {
      NothingFor(plan, ops[1..], snap, tid);
    }
  }

  // ---- The invariant of every reachable state ----

  ghost predicate Shape<Op, G(!new), C, V>(plan: Plan<Op, G, C, V>, d: Design<Op, G, C, V>, s0: map<C, V>, m: Machine<Op, G, C, V>) {
    && m.pc <= |plan.code| && |m.tids| == |m.trace|
    && (m.pc <= d.buildAt ==> m.snap == s0)
    && (forall tid :: tid in m.todo <==> d.spawnAt(tid.g) < m.pc && tid.t < plan.width(tid.g))
    && (forall tid | tid in m.todo && d.joinAt(tid.g) < m.pc :: m.todo[tid] == [])
    && (forall i | 0 <= i < |m.tids| :: m.tids[i] in m.todo && d.home(m.trace[i]) == Some(m.tids[i]) && m.trace[i] in plan.ops)
  }

  ghost predicate Contents<Op(!new), G(!new), C, V>(plan: Plan<Op, G, C, V>, d: Design<Op, G, C, V>, m: Machine<Op, G, C, V>) {
    && (forall tid, x | tid in m.todo && x in m.todo[tid] :: x in plan.ops && d.home(x) == Some(tid))
    && (forall x | x in plan.ops && d.home(x).Some? && d.home(x).value in m.todo :: x in m.trace || x in m.todo[d.home(x).value])
  }

  ghost predicate InOrder<Op, G, C, V>(d: Design<Op, G, C, V>, m: Machine<Op, G, C, V>) {
    && |m.tids| == |m.trace|
    && (forall tid | tid in m.todo :: Sorted(m.todo[tid], d.before))
    && (forall i, k | 0 <= i < |m.tids| && m.tids[i] in m.todo && 0 <= k < |m.todo[m.tids[i]]| :: d.before(m.trace[i], m.todo[m.tids[i]][k]))
    && (forall i, j | 0 <= i < j < |m.tids| ::
          if m.tids[i] == m.tids[j] then d.before(m.trace[i], m.trace[j]) else d.joinAt(m.tids[j].g) >= d.spawnAt(m.tids[i].g))
  }

  ghost predicate Inv<Op(!new), G(!new), C(!new), V(!new)>(
      plan: Plan<Op, G, C, V>, d: Design<Op, G, C, V>, s0: map<C, V>, m: Machine<Op, G, C, V>)
  {
    && Shape(plan, d, s0, m) && Contents(plan, d, m) && InOrder(d, m)
    && m.store == Run(d.sys, m.trace, s0)
    && (m.pc > d.buildAt ==> SettledAs(d, m.snap, Run(d.sys, plan.ops, s0)))
  }

  lemma InitInv<Op(!new), G(!new), C(!new), V(!new)>(plan: Plan<Op, G, C, V>, d: Design<Op, G, C, V>, s0: map<C, V>)
    requires Sound(plan, d, s0)
    ensures Inv(plan, d, s0, Init(s0))
  {
  }

  lemma WorkKeeps<Op(!new), G(!new), C(!new), V(!new)>(
      plan: Plan<Op, G, C, V>, d: Design<Op, G, C, V>, s0: map<C, V>, m: Machine<Op, G, C, V>, tid: Tid<G>, m': Machine<Op, G, C, V>)
    requires Placed(plan, d) && plan.eff == d.sys.eff && Inv(plan, d, s0, m) && WorkStep(plan, m, tid, m')
    ensures Inv(plan, d, s0, m')
  {
    WorkKeepsShape(plan, d, s0, m, tid, m');
    WorkKeepsContents(plan, d, m, tid, m');
    WorkKeepsOrder(plan, d, s0, m, tid, m');
    WorkRuns(plan, d, s0, m, tid, m');
  }

  lemma WorkRuns<Op, G, C, V>(
      plan: Plan<Op, G, C, V>, d: Design<Op, G, C, V>, s0: map<C, V>, m: Machine<Op, G, C, V>, tid: Tid<G>, m': Machine<Op, G, C, V>)
    requires plan.eff == d.sys.eff && m.store == Run(d.sys, m.trace, s0) && WorkStep(plan, m, tid, m')
    ensures m'.store == Run(d.sys, m'.trace, s0)
  {
    var x := m.todo[tid][0];
    RunAppend(d.sys, m.trace, [x], s0);
    assert Run(d.sys, [x], m.store) == Run(d.sys, [], Exec(d.sys, x, m.store));
  }

  lemma WorkKeepsShape<Op(!new), G(!new), C(!new), V(!new)>(
      plan: Plan<Op, G, C, V>, d: Design<Op, G, C, V>, s0: map<C, V>, m: Machine<Op, G, C, V>, tid: Tid<G>, m': Machine<Op, G, C, V>)
    requires Shape(plan, d, s0, m) && Contents(plan, d, m) && WorkStep(plan, m, tid, m')
    ensures Shape(plan, d, s0, m')
  {
    assert m.todo[tid][0] in m.todo[tid];
  }

  lemma WorkKeepsContents<Op(!new), G(!new), C(!new), V(!new)>(
      plan: Plan<Op, G, C, V>, d: Design<Op, G, C, V>, m: Machine<Op, G, C, V>, tid: Tid<G>, m': Machine<Op, G, C, V>)
    requires Contents(plan, d, m) && WorkStep(plan, m, tid, m')
    ensures Contents(plan, d, m')
  {
    assert m.todo[tid] == [m.todo[tid][0]] + m'.todo[tid];
    forall t, x | t in m'.todo && x in m'.todo[t] ensures x in plan.ops && d.home(x) == Some(t) {
      assert x in m.todo[t];
    }
    forall x | x in plan.ops && d.home(x).Some? && d.home(x).value in m'.todo
      ensures x in m'.trace || x in m'.todo[d.home(x).value]
    {
      assert x in m.trace || x in m.todo[d.home(x).value];
    }
  }

  lemma WorkKeepsOrder<Op(!new), G(!new), C(!new), V(!new)>(
      plan: Plan<Op, G, C, V>, d: Design<Op, G, C, V>, s0: map<C, V>, m: Machine<Op, G, C, V>, tid: Tid<G>, m': Machine<Op, G, C, V>)
    requires Placed(plan, d) && Shape(plan, d, s0, m) && InOrder(d, m) && WorkStep(plan, m, tid, m')
    ensures InOrder(d, m')
  {
    var old_, new_ := m.todo[tid], m'.todo[tid];
    assert forall k | 0 <= k < |new_| :: new_[k] == old_[k + 1];
    forall i, k | 0 <= i < |m'.tids| && 0 <= k < |m'.todo[m'.tids[i]]|
      ensures d.before(m'.trace[i], m'.todo[m'.tids[i]][k])
    {
      if i == |m.tids| {
        assert d.before(old_[0], old_[k + 1]);
      } else if m.tids[i] == tid {
        assert d.before(m.trace[i], old_[k + 1]);
      }
    }
    forall i, j | 0 <= i < j < |m'.tids|
      ensures if m'.tids[i] == m'.tids[j] then d.before(m'.trace[i], m'.trace[j])
              else d.joinAt(m'.tids[j].g) >= d.spawnAt(m'.tids[i].g)
    {
      if j == |m.tids| {
        if m.tids[i] == tid {
          assert d.before(m.trace[i], old_[0]);
        } else {
          // tid still has work, so its group is not yet joined; the other group is spawned.
          assert d.joinAt(tid.g) >= m.pc > d.spawnAt(m.tids[i].g);
        }
      }
    }
  }

  // ---- Completing a run in serial order ----

  /** The steps of the design that are not in the trace, in serial order. */
  function Remaining<Op(==), G, C, V>(d: Design<Op, G, C, V>, ops: seq<Op>, trace: seq<Op>): seq<Op> {
    if ops == [] then []
    else (if d.home(ops[0]).Some? && ops[0] !in trace then [ops[0]] else []) + Remaining(d, ops[1..], trace)
  }

  ghost predicate Distinct<T>(p: seq<T>) {
    forall i, j | 0 <= i < j < |p| :: p[i] != p[j]
  }

  lemma {:induction false} DistinctCount<T>(p: seq<T>, x: T)
    requires Distinct(p)
    ensures multiset(p)[x] == if x in p then 1 else 0
  {
    if p != [] {
      assert p == [p[0]] + p[1..];
      DistinctCount(p[1..], x);
    }
  }

  lemma SameMembers<T>(p: seq<T>, q: seq<T>)
    requires Distinct(p) && Distinct(q) && forall x :: x in p <==> x in q
    ensures multiset(p) == multiset(q)
  {
    forall x: T ensures multiset(p)[x] == multiset(q)[x] {
      DistinctCount(p, x);
      DistinctCount(q, x);
    }
  }

  lemma {:induction false} RemainingFilters<Op(!new), G(!new), C(!new), V(!new)>(
      d: Design<Op, G, C, V>, ops: seq<Op>, trace: seq<Op>)
    requires Sorted(ops, d.before)
    ensures Sorted(Remaining(d, ops, trace), d.before)
    ensures forall x :: x in Remaining(d, ops, trace) <==> x in ops && d.home(x).Some? && x !in trace
  {
    if ops != [] {
      assert ops == [ops[0]] + ops[1..];
      RemainingFilters(d, ops[1..], trace);
      var rest := Remaining(d, ops[1..], trace);
      forall x | x in rest ensures d.before(ops[0], x) {
        var j :| 0 <= j < |ops[1..]| && ops[1..][j] == x;
        assert d.before(ops[0], ops[j + 1]);
      }
    }
  }

  /** Steps without a thread have no effect, so leaving them out changes nothing. */
  lemma {:induction false} DropIdle<Op(!new), G(!new), C(!new), V(!new)>(d: Design<Op, G, C, V>, ops: seq<Op>, s: map<C, V>)
    requires Tame(d.sys, ops, s)
    requires forall op | op in ops && d.home(op).None? :: d.sys.write(op) == {}
    ensures Tame(d.sys, Remaining(d, ops, []), s)
    ensures Run(d.sys, Remaining(d, ops, []), s) == Run(d.sys, ops, s)
  {
    if ops != [] {
      var s' := Exec(d.sys, ops[0], s);
      DropIdle(d, ops[1..], s');
      var rest := Remaining(d, ops[1..], []);
      if d.home(ops[0]).Some? {
        assert Remaining(d, ops, []) == [ops[0]] + rest;
      } else {
        assert d.sys.eff(ops[0], s).Keys == {};
        assert s' == s && Remaining(d, ops, []) == rest;
      }
    }
  }

  lemma TraceDistinct<Op(!new), G(!new), C(!new), V(!new)>(
      plan: Plan<Op, G, C, V>, d: Design<Op, G, C, V>, s0: map<C, V>, m: Machine<Op, G, C, V>)
    requires Sound(plan, d, s0) && Inv(plan, d, s0, m)
    ensures Distinct(m.trace)
  {
    forall i, j | 0 <= i < j < |m.trace| ensures m.trace[i] != m.trace[j] {
      assert d.home(m.trace[i]) == Some(m.tids[i]) && d.home(m.trace[j]) == Some(m.tids[j]);
      assert m.tids[i] == m.tids[j] ==> d.before(m.trace[i], m.trace[j]);
    }
  }

  /** A step still to run is never forced before a step that has run. */
  lemma NotForcedBack<Op(!new), G(!new), C(!new), V(!new)>(
      plan: Plan<Op, G, C, V>, d: Design<Op, G, C, V>, s0: map<C, V>, m: Machine<Op, G, C, V>, i: nat, x: Op)
    requires Sound(plan, d, s0) && Inv(plan, d, s0, m) && i < |m.trace|
    requires x in plan.ops && x !in m.trace
    ensures Forced(d, x, m.trace[i]) ==> !d.before(x, m.trace[i])
  {
    var y := m.trace[i];
    assert m.tids[i] in m.todo && d.home(y) == Some(m.tids[i]);
    if d.home(x).Some? {
      var tid := d.home(x).value;
      assert d.spawnAt(tid.g) < d.joinAt(tid.g);
      if tid in m.todo {
        assert x in m.todo[tid];
        var k :| 0 <= k < |m.todo[tid]| && m.todo[tid][k] == x;
        assert tid == m.tids[i] ==> d.before(y, m.todo[m.tids[i]][k]);
      }
    }
  }

  /** Nor are two steps that have run in an order the plan forbids. */
  lemma TraceNotForcedBack<Op(!new), G(!new), C(!new), V(!new)>(
      plan: Plan<Op, G, C, V>, d: Design<Op, G, C, V>, s0: map<C, V>, m: Machine<Op, G, C, V>, i: nat, j: nat)
    requires Sound(plan, d, s0) && Inv(plan, d, s0, m) && i < j < |m.trace|
    ensures Forced(d, m.trace[j], m.trace[i]) ==> !d.before(m.trace[j], m.trace[i])
  {
    assert d.home(m.trace[i]) == Some(m.tids[i]) && d.home(m.trace[j]) == Some(m.tids[j]);
    assert m.tids[i] == m.tids[j] ==> d.before(m.trace[i], m.trace[j]);
  }

  /** Any reachable state, completed by what remains in serial order, is a rearrangement of
      the serial run without inversions; so it ends in the serial store. */
  lemma Completion<Op(!new), G(!new), C(!new), V(!new)>(
      plan: Plan<Op, G, C, V>, d: Design<Op, G, C, V>, s0: map<C, V>, m: Machine<Op, G, C, V>)
    requires Sound(plan, d, s0) && Inv(plan, d, s0, m)
    ensures
      var rest := Remaining(d, plan.ops, m.trace);
      && Tame(d.sys, rest, m.store)
      && Run(d.sys, rest, m.store) == Run(d.sys, plan.ops, s0)
  {
    var rest, serial := Remaining(d, plan.ops, m.trace), Remaining(d, plan.ops, []);
    RemainingFilters(d, plan.ops, m.trace);
    RemainingFilters(d, plan.ops, []);
    TraceDistinct(plan, d, s0, m);
    var all := m.trace + rest;
    assert Distinct(rest) && Distinct(serial);
    assert Distinct(all);
    forall x ensures x in all <==> x in serial {
      if x in m.trace {
        var i :| 0 <= i < |m.trace| && m.trace[i] == x;
        assert d.home(m.trace[i]) == Some(m.tids[i]);
      }
    }
    SameMembers(all, serial);
    assert NoInversion(d.sys, all, d.before) by {
      CompletionOrder(plan, d, s0, m, rest);
      InOrderWithoutInversion(d, plan.ops, all);
    }
    DropIdle(d, plan.ops, s0);
    ReplayTheorem(d.sys, serial, all, d.before, s0);
    TameAppend(d.sys, m.trace, rest, s0);
    RunAppend(d.sys, m.trace, rest, s0);
  }

  /** No step stands before one that is forced before it. */
  ghost predicate NoneForcedBack<Op, G, C, V>(d: Design<Op, G, C, V>, all: seq<Op>) {
    forall i, j | 0 <= i < j < |all| :: Forced(d, all[j], all[i]) ==> !d.before(all[j], all[i])
  }

  lemma InOrderWithoutInversion<Op(!new), G, C, V>(d: Design<Op, G, C, V>, ops: seq<Op>, all: seq<Op>)
    requires Ordering(d, ops) && NoneForcedBack(d, all)
    requires forall x | x in all :: x in ops && d.home(x).Some?
    ensures NoInversion(d.sys, all, d.before)
  {
    forall i, j | 0 <= i < j < |all| && d.before(all[j], all[i]) ensures Indep(d.sys, all[i], all[j]) {
      assert all[i] in all && all[j] in all;
      assert Indep(d.sys, all[j], all[i]);
    }
  }

  lemma CompletionOrder<Op(!new), G(!new), C(!new), V(!new)>(
      plan: Plan<Op, G, C, V>, d: Design<Op, G, C, V>, s0: map<C, V>, m: Machine<Op, G, C, V>, rest: seq<Op>)
    requires Sound(plan, d, s0) && Inv(plan, d, s0, m)
    requires Sorted(rest, d.before) && forall x | x in rest :: x in plan.ops && d.home(x).Some? && x !in m.trace
    ensures NoneForcedBack(d, m.trace + rest)
  {
    var all, n := m.trace + rest, |m.trace|;
    forall i, j | 0 <= i < j < |all| ensures Forced(d, all[j], all[i]) ==> !d.before(all[j], all[i]) {
      if j < n {
        TraceNotForcedBack(plan, d, s0, m, i, j);
      } else {
        assert all[j] == rest[j - n] && rest[j - n] in rest;
        if i < n {
          NotForcedBack(plan, d, s0, m, i, all[j]);
        } else {
          assert d.before(rest[i - n], rest[j - n]);
        }
      }
    }
  }

  /** At every reachable state a cell that no remaining step writes already holds what the
      serial run leaves in it. */
  lemma SerialAlready<Op(!new), G(!new), C(!new), V(!new)>(
      plan: Plan<Op, G, C, V>, d: Design<Op, G, C, V>, s0: map<C, V>, m: Machine<Op, G, C, V>, c: C)
    requires Sound(plan, d, s0) && Inv(plan, d, s0, m)
    requires forall op | op in plan.ops && op !in m.trace :: c !in d.sys.write(op)
    ensures SameAt(m.store, Run(d.sys, plan.ops, s0), c)
  {
    Completion(plan, d, s0, m);
    RemainingFilters(d, plan.ops, m.trace);
    TameFrame(d.sys, Remaining(d, plan.ops, m.trace), m.store, c);
  }

  lemma AllRan<Op(!new), G(!new), C(!new), V(!new)>(
      plan: Plan<Op, G, C, V>, d: Design<Op, G, C, V>, s0: map<C, V>, m: Machine<Op, G, C, V>, op: Op)
    requires Sound(plan, d, s0) && Inv(plan, d, s0, m)
    requires op in plan.ops && d.home(op).Some? && d.joinAt(d.home(op).value.g) < m.pc
    ensures op in m.trace
  {
    var tid := d.home(op).value;
    assert d.spawnAt(tid.g) < d.joinAt(tid.g);
    assert tid in m.todo && m.todo[tid] == [];
  }

  // ---- The main program's own steps ----

  lemma MainKeeps<Op(!new), G(!new), C(!new), V(!new)>(
      plan: Plan<Op, G, C, V>, d: Design<Op, G, C, V>, s0: map<C, V>, m: Machine<Op, G, C, V>, m': Machine<Op, G, C, V>)
    requires Sound(plan, d, s0) && Inv(plan, d, s0, m) && MainStep(plan, m, m')
    ensures Inv(plan, d, s0, m')
  {
    match plan.code[m.pc]
    case Spawn(g) => SpawnKeeps(plan, d, s0, m, g, m');
    case Join(g) => JoinKeeps(plan, d, s0, m, g, m');
    case Build => BuildKeeps(plan, d, s0, m, m');
  }

  lemma SameWork<Op(!new), G(!new), C, V>(
      plan: Plan<Op, G, C, V>, d: Design<Op, G, C, V>, m: Machine<Op, G, C, V>, m': Machine<Op, G, C, V>)
    requires Contents(plan, d, m) && InOrder(d, m)
    requires m'.todo == m.todo && m'.tids == m.tids && m'.trace == m.trace
    ensures Contents(plan, d, m') && InOrder(d, m')
  {
  }

  lemma JoinShape<Op(!new), G(!new), C(!new), V(!new)>(
      plan: Plan<Op, G, C, V>, d: Design<Op, G, C, V>, s0: map<C, V>, m: Machine<Op, G, C, V>, g: G, m': Machine<Op, G, C, V>)
    requires Placed(plan, d) && Shape(plan, d, s0, m) && MainStep(plan, m, m')
    requires m.pc < |plan.code| && plan.code[m.pc] == Join(g)
    ensures Shape(plan, d, s0, m') && m.pc != d.buildAt
  {
    assert m.pc == d.joinAt(g);
    forall tid: Tid<G> ensures d.spawnAt(tid.g) != m.pc && (d.joinAt(tid.g) == m.pc ==> tid.g == g) {
      assert plan.code[d.spawnAt(tid.g)] == Spawn(tid.g) && plan.code[d.joinAt(tid.g)] == Join(tid.g);
    }
  }

  lemma JoinKeeps<Op(!new), G(!new), C(!new), V(!new)>(
      plan: Plan<Op, G, C, V>, d: Design<Op, G, C, V>, s0: map<C, V>, m: Machine<Op, G, C, V>, g: G, m': Machine<Op, G, C, V>)
    requires Placed(plan, d) && Inv(plan, d, s0, m) && MainStep(plan, m, m')
    requires m.pc < |plan.code| && plan.code[m.pc] == Join(g)
    ensures Inv(plan, d, s0, m')
  {
    JoinShape(plan, d, s0, m, g, m');
    SameWork(plan, d, m, m');
  }

  lemma BuildShape<Op(!new), G(!new), C(!new), V(!new)>(
      plan: Plan<Op, G, C, V>, d: Design<Op, G, C, V>, s0: map<C, V>, m: Machine<Op, G, C, V>, m': Machine<Op, G, C, V>)
    requires Placed(plan, d) && Shape(plan, d, s0, m) && MainStep(plan, m, m')
    requires m.pc < |plan.code| && plan.code[m.pc] == Build
    ensures Shape(plan, d, s0, m') && m.pc == d.buildAt
  {
    assert m.pc == d.buildAt;
    forall tid: Tid<G> ensures d.spawnAt(tid.g) != m.pc && d.joinAt(tid.g) != m.pc {
      assert plan.code[d.spawnAt(tid.g)] == Spawn(tid.g) && plan.code[d.joinAt(tid.g)] == Join(tid.g);
    }
  }

  /** When the buckets are built again, the settled cells hold their serial values. */
  lemma SettledAtBuild<Op(!new), G(!new), C(!new), V(!new)>(
      plan: Plan<Op, G, C, V>, d: Design<Op, G, C, V>, s0: map<C, V>, m: Machine<Op, G, C, V>, c: C)
    requires Sound(plan, d, s0) && Inv(plan, d, s0, m) && m.pc == d.buildAt && d.settled(c)
    ensures SameAt(m.store, Run(d.sys, plan.ops, s0), c)
  {
    forall op | op in plan.ops && op !in m.trace ensures c !in d.sys.write(op) {
      if c in d.sys.write(op) && d.home(op).Some? && d.joinAt(d.home(op).value.g) < m.pc {
        AllRan(plan, d, s0, m, op);
      }
    }
    SerialAlready(plan, d, s0, m, c);
  }

  lemma BuildKeeps<Op(!new), G(!new), C(!new), V(!new)>(
      plan: Plan<Op, G, C, V>, d: Design<Op, G, C, V>, s0: map<C, V>, m: Machine<Op, G, C, V>, m': Machine<Op, G, C, V>)
    requires Sound(plan, d, s0) && Inv(plan, d, s0, m) && MainStep(plan, m, m')
    requires m.pc < |plan.code| && plan.code[m.pc] == Build
    ensures Inv(plan, d, s0, m')
  {
    BuildShape(plan, d, s0, m, m');
    SameWork(plan, d, m, m');
    forall c | d.settled(c) ensures SameAt(m.store, Run(d.sys, plan.ops, s0), c) {
      SettledAtBuild(plan, d, s0, m, c);
    }
  }

  lemma SpawnFills<Op(!new), G(!new), C(!new), V(!new)>(
      plan: Plan<Op, G, C, V>, d: Design<Op, G, C, V>, s0: map<C, V>, m: Machine<Op, G, C, V>, g: G, tid: Tid<G>)
    requires Sound(plan, d, s0) && Inv(plan, d, s0, m) && tid.g == g
    requires m.pc < |plan.code| && plan.code[m.pc] == Spawn(g)
    ensures
      var b := Bucket(plan, plan.ops, m.snap, tid);
      Sorted(b, d.before) && forall x :: x in b <==> x in plan.ops && d.home(x) == Some(tid)
  {
    assert m.pc == d.spawnAt(g) && m.pc != d.buildAt;
    BucketFilters(plan, plan.ops, m.snap, tid, d.before);
    if m.pc > d.buildAt {
      assert LateAssignAt(plan, d, m.snap);
    }
  }

  lemma SpawnKeeps<Op(!new), G(!new), C(!new), V(!new)>(
      plan: Plan<Op, G, C, V>, d: Design<Op, G, C, V>, s0: map<C, V>, m: Machine<Op, G, C, V>, g: G, m': Machine<Op, G, C, V>)
    requires Sound(plan, d, s0) && Inv(plan, d, s0, m) && MainStep(plan, m, m')
    requires m.pc < |plan.code| && plan.code[m.pc] == Spawn(g)
    ensures Inv(plan, d, s0, m')
  {
    SpawnShape(plan, d, s0, m, g, m');
    forall tid | tid in m'.todo && tid.g == g
      ensures Sorted(m'.todo[tid], d.before) && forall x :: x in m'.todo[tid] <==> x in plan.ops && d.home(x) == Some(tid)
    {
      SpawnFills(plan, d, s0, m, g, tid);
    }
    SpawnContents(plan, d, m, g, m');
    SpawnOrder(d, m, g, m');
  }

  lemma SpawnContents<Op(!new), G(!new), C(!new), V(!new)>(
      plan: Plan<Op, G, C, V>, d: Design<Op, G, C, V>, m: Machine<Op, G, C, V>, g: G, m': Machine<Op, G, C, V>)
    requires Contents(plan, d, m) && m'.trace == m.trace && m.todo.Keys <= m'.todo.Keys
    requires forall tid | tid in m'.todo && tid.g == g :: forall x :: x in m'.todo[tid] <==> x in plan.ops && d.home(x) == Some(tid)
    requires forall tid | tid in m'.todo && tid.g != g :: tid in m.todo && m'.todo[tid] == m.todo[tid]
    ensures Contents(plan, d, m')
  {
    forall x | x in plan.ops && d.home(x).Some? && d.home(x).value in m'.todo
      ensures x in m'.trace || x in m'.todo[d.home(x).value]
    {
      var tid := d.home(x).value;
      if tid.g != g {
        assert tid in m.todo;
      }
    }
  }

  lemma SpawnOrder<Op(!new), G(!new), C(!new), V(!new)>(
      d: Design<Op, G, C, V>, m: Machine<Op, G, C, V>, g: G, m': Machine<Op, G, C, V>)
    requires InOrder(d, m) && m'.trace == m.trace && m'.tids == m.tids
    requires forall tid | tid in m'.todo && tid.g == g :: Sorted(m'.todo[tid], d.before)
    requires forall tid | tid in m'.todo && tid.g != g :: tid in m.todo && m'.todo[tid] == m.todo[tid]
    requires forall i | 0 <= i < |m.tids| :: m.tids[i].g != g
    ensures InOrder(d, m')
  {
    forall tid | tid in m'.todo ensures Sorted(m'.todo[tid], d.before) {
      if tid.g != g {
        assert tid in m.todo;
      }
    }
    forall i, k | 0 <= i < |m.tids| && m.tids[i] in m'.todo && 0 <= k < |m'.todo[m.tids[i]]|
      ensures d.before(m.trace[i], m'.todo[m.tids[i]][k])
    {
      assert m.tids[i] in m.todo && m'.todo[m.tids[i]] == m.todo[m.tids[i]];
    }
  }

  lemma SpawnShape<Op(!new), G(!new), C(!new), V(!new)>(
      plan: Plan<Op, G, C, V>, d: Design<Op, G, C, V>, s0: map<C, V>, m: Machine<Op, G, C, V>, g: G, m': Machine<Op, G, C, V>)
    requires Placed(plan, d) && Shape(plan, d, s0, m) && MainStep(plan, m, m')
    requires m.pc < |plan.code| && plan.code[m.pc] == Spawn(g)
    ensures Shape(plan, d, s0, m')
    ensures forall tid | tid in m'.todo && tid.g != g :: tid in m.todo && m'.todo[tid] == m.todo[tid]
    ensures forall tid | tid in m'.todo && tid.g == g :: m'.todo[tid] == Bucket(plan, plan.ops, m.snap, tid)
    ensures forall i | 0 <= i < |m.tids| :: m.tids[i].g != g
    ensures m.todo.Keys <= m'.todo.Keys && m'.tids == m.tids && m'.trace == m.trace && m'.store == m.store && m'.snap == m.snap
    ensures m'.pc == m.pc + 1 && m.pc != d.buildAt
  {
    assert m.pc == d.spawnAt(g) < d.joinAt(g);
    forall i | 0 <= i < |m.tids| ensures m.tids[i].g != g {
      assert m.tids[i] in m.todo;
    }
    forall tid: Tid<G> ensures (d.spawnAt(tid.g) == m.pc ==> tid.g == g) && d.joinAt(tid.g) != m.pc {
      assert plan.code[d.spawnAt(tid.g)] == Spawn(tid.g) && plan.code[d.joinAt(tid.g)] == Join(tid.g);
    }
  }

  // ---- Main results ----

  lemma NextKeeps<Op(!new), G(!new), C(!new), V(!new)>(
      plan: Plan<Op, G, C, V>, d: Design<Op, G, C, V>, s0: map<C, V>, m: Machine<Op, G, C, V>, m': Machine<Op, G, C, V>)
    requires Sound(plan, d, s0) && Inv(plan, d, s0, m) && Next(plan, m, m')
    ensures Inv(plan, d, s0, m')
  {
    if MainStep(plan, m, m') {
      MainKeeps(plan, d, s0, m, m');
    } else {
      var tid :| WorkStep(plan, m, tid, m');
      WorkKeeps(plan, d, s0, m, tid, m');
    }
  }

  lemma {:induction false} RunInv<Op(!new), G(!new), C(!new), V(!new)>(
      plan: Plan<Op, G, C, V>, d: Design<Op, G, C, V>, s0: map<C, V>, run: seq<Machine<Op, G, C, V>>, k: nat)
    requires Sound(plan, d, s0) && IsRun(plan, s0, run) && k < |run|
    ensures Inv(plan, d, s0, run[k])
  {
    if k == 0 {
      InitInv(plan, d, s0);
    } else {
      RunInv(plan, d, s0, run, k - 1);
      assert NextAt(plan, run, k - 1);
      NextKeeps(plan, d, s0, run[k - 1], run[k]);
    }
  }

  lemma HeadIsMember<T>(p: seq<T>)
    ensures p != [] ==> p[0] in p
  {
  }

  /** DETERMINISM.  However the threads interleave, a finished run of a sound plan has run
      every step exactly once and left the store of the serial run. */
  lemma Determinism<Op(!new), G(!new), C(!new), V(!new)>(
      plan: Plan<Op, G, C, V>, d: Design<Op, G, C, V>, s0: map<C, V>, run: seq<Machine<Op, G, C, V>>)
    requires Sound(plan, d, s0) && IsRun(plan, s0, run) && Done(plan, run[|run| - 1])
    ensures run[|run| - 1].store == Run(d.sys, plan.ops, s0)
    ensures Distinct(run[|run| - 1].trace)
    ensures forall op | op in plan.ops && d.home(op).Some? :: op in run[|run| - 1].trace
  {
    var m := run[|run| - 1];
    RunInv(plan, d, s0, run, |run| - 1);
    TraceDistinct(plan, d, s0, m);
    forall op | op in plan.ops && d.home(op).Some? ensures op in m.trace {
      AllRan(plan, d, s0, m, op);
    }
    Completion(plan, d, s0, m);
    RemainingFilters(d, plan.ops, m.trace);
    var rest := Remaining(d, plan.ops, m.trace);
    assert forall op :: op !in rest;
    HeadIsMember(rest);
  }

  // ---- Progress ----

  ghost predicate Enabled<Op(!new), G(!new), C(!new), V(!new)>(plan: Plan<Op, G, C, V>, m: Machine<Op, G, C, V>) {
    exists m' :: Next(plan, m, m')
  }

  lemma CanMove<Op(!new), G(!new), C(!new), V(!new)>(plan: Plan<Op, G, C, V>, m: Machine<Op, G, C, V>)
    requires m.pc < |plan.code|
    ensures Enabled(plan, m)
  {
    match plan.code[m.pc]
    case Spawn(g) => assert Next(plan, m, m.(pc := m.pc + 1, todo := m.todo + Dealt(plan, m.snap, g)));
    case Build => assert Next(plan, m, m.(pc := m.pc + 1, snap := m.store));
    case Join(g) =>
      if tid :| tid in m.todo && tid.g == g && m.todo[tid] != [] {
        var m' := m.(todo := m.todo[tid := m.todo[tid][1..]], store := m.store + plan.eff(m.todo[tid][0], m.store),
                     tids := m.tids + [tid], trace := m.trace + [m.todo[tid][0]]);
        assert WorkStep(plan, m, tid, m');
        assert Next(plan, m, m');
      } else {
        assert Next(plan, m, m.(pc := m.pc + 1));
      }
  }

  /** No reachable state is stuck: until the main program ends, some step can be taken. */
  lemma NeverStuck<Op(!new), G(!new), C(!new), V(!new)>(
      plan: Plan<Op, G, C, V>, d: Design<Op, G, C, V>, s0: map<C, V>, run: seq<Machine<Op, G, C, V>>)
    requires Sound(plan, d, s0) && IsRun(plan, s0, run) && !Done(plan, run[|run| - 1])
    ensures Enabled(plan, run[|run| - 1])
  {
    RunInv(plan, d, s0, run, |run| - 1);
    CanMove(plan, run[|run| - 1]);
  }

  /** No run is longer than the code and the step list together, so every run that is
      continued as long as possible finishes. */
  lemma RunIsBounded<Op(!new), G(!new), C(!new), V(!new)>(
      plan: Plan<Op, G, C, V>, d: Design<Op, G, C, V>, s0: map<C, V>, run: seq<Machine<Op, G, C, V>>)
    requires Sound(plan, d, s0) && IsRun(plan, s0, run)
    ensures |run| <= 1 + |plan.code| + |plan.ops|
  {
    var m := run[|run| - 1];
    RunInv(plan, d, s0, run, |run| - 1);
    TraceDistinct(plan, d, s0, m);
    StepsCounted(plan, s0, run, |run| - 1);
    TraceFits(m.trace, plan.ops);
  }

  lemma {:induction false} StepsCounted<Op(!new), G(!new), C(!new), V(!new)>(
      plan: Plan<Op, G, C, V>, s0: map<C, V>, run: seq<Machine<Op, G, C, V>>, k: nat)
    requires IsRun(plan, s0, run) && k < |run|
    ensures run[k].pc + |run[k].trace| == k
  {
    if k > 0 {
      StepsCounted(plan, s0, run, k - 1);
      assert NextAt(plan, run, k - 1);
      if !MainStep(plan, run[k - 1], run[k]) {
        var tid :| WorkStep(plan, run[k - 1], tid, run[k]);
      }
    }
  }

  lemma {:induction false} TraceFits<T>(p: seq<T>, q: seq<T>)
    requires Distinct(p) && forall x | x in p :: x in q
    ensures |p| <= |q|
  {
    if p != [] {
      var x := p[0];
      assert x in q;
      var i :| 0 <= i < |q| && q[i] == x;
      var q' := q[..i] + q[i + 1..];
      forall y | y in p[1..] ensures y in q' {
        var j :| 0 <= j < |p[1..]| && p[1..][j] == y;
        assert p[j + 1] == y && p[0] != p[j + 1];
        assert y in q;
        var k :| 0 <= k < |q| && q[k] == y;
        assert q'[if k < i then k else k - 1] == y;
      }
      TraceFits(p[1..], q');
    }
  }

  lemma OneStepLonger<Op(!new), G(!new), C(!new), V(!new)>(
      plan: Plan<Op, G, C, V>, s0: map<C, V>, run: seq<Machine<Op, G, C, V>>, m: Machine<Op, G, C, V>)
    requires IsRun(plan, s0, run) && Next(plan, run[|run| - 1], m)
    ensures IsRun(plan, s0, run + [m])
  {
    var longer := run + [m];
    forall i | 0 <= i < |longer| - 1 ensures NextAt(plan, longer, i) {
      assert i < |run| - 1 ==> NextAt(plan, run, i);
    }
  }

  /** NOTHING ELSE IS ORDERED.  Whatever has happened so far, any thread with steps left may
      be the one that goes on, with the first of them. */
  lemma AnyThreadGoesOn<Op(!new), G(!new), C(!new), V(!new)>(
      plan: Plan<Op, G, C, V>, s0: map<C, V>, run: seq<Machine<Op, G, C, V>>, tid: Tid<G>) returns (m: Machine<Op, G, C, V>)
    requires IsRun(plan, s0, run) && tid in run[|run| - 1].todo && run[|run| - 1].todo[tid] != []
    ensures IsRun(plan, s0, run + [m])
    ensures m.tids == run[|run| - 1].tids + [tid] && m.trace == run[|run| - 1].trace + [run[|run| - 1].todo[tid][0]]
  {
    var now := run[|run| - 1];
    m := now.(todo := now.todo[tid := now.todo[tid][1..]], store := now.store + plan.eff(now.todo[tid][0], now.store),
              tids := now.tids + [tid], trace := now.trace + [now.todo[tid][0]]);
    assert WorkStep(plan, now, tid, m);
    OneStepLonger(plan, s0, run, m);
  }

  /** The main thread, too, may go on at any time, unless it joins a group that has steps left. */
  lemma MainGoesOn<Op(!new), G(!new), C(!new), V(!new)>(
      plan: Plan<Op, G, C, V>, s0: map<C, V>, run: seq<Machine<Op, G, C, V>>) returns (m: Machine<Op, G, C, V>)
    requires IsRun(plan, s0, run) && run[|run| - 1].pc < |plan.code|
    requires
      var now := run[|run| - 1];
      plan.code[now.pc].Join? ==> forall tid | tid in now.todo && tid.g == plan.code[now.pc].g :: now.todo[tid] == []
    ensures IsRun(plan, s0, run + [m]) && m.pc == run[|run| - 1].pc + 1 && m.trace == run[|run| - 1].trace
  {
    var now := run[|run| - 1];
    match plan.code[now.pc] {
      case Spawn(g) => m := now.(pc := now.pc + 1, todo := now.todo + Dealt(plan, now.snap, g));
      case Build => m := now.(pc := now.pc + 1, snap := now.store);
      case Join(g) => m := now.(pc := now.pc + 1);
    }
    assert MainStep(plan, now, m);
    OneStepLonger(plan, s0, run, m);
  }

  /** Every run can be continued to a finished one. */
  lemma {:induction false} Completes<Op(!new), G(!new), C(!new), V(!new)>(
      plan: Plan<Op, G, C, V>, d: Design<Op, G, C, V>, s0: map<C, V>, run: seq<Machine<Op, G, C, V>>)
      returns (full: seq<Machine<Op, G, C, V>>)
    requires Sound(plan, d, s0) && IsRun(plan, s0, run)
    ensures run <= full && IsRun(plan, s0, full) && Done(plan, full[|full| - 1])
    decreases 1 + |plan.code| + |plan.ops| - |run|
  {
    if Done(plan, run[|run| - 1]) {
      full := run;
    } else {
      RunIsBounded(plan, d, s0, run);
      NeverStuck(plan, d, s0, run);
      var m :| Next(plan, run[|run| - 1], m);
      var longer := run + [m];
      OneStepLonger(plan, s0, run, m);
      RunIsBounded(plan, d, s0, longer);
      full := Completes(plan, d, s0, longer);
    }
  }
}
