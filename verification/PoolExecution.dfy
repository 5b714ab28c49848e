/** The same plans run by a pool of workers: a spawn enqueues one task per thread, a join
    waits for the futures of the group, and each worker takes the first waiting task and runs
    it to its end.  Every pool run is a fork-join run. */
module PoolExecution {
  import opened Replay
  import opened ForkJoin

  /** `sent` tasks of the group being spawned are enqueued; `left` holds the steps that each
      enqueued task has still to run; `active` maps busy workers to their tasks. */
  datatype Pool<Op, G(==), C(==), V> = Pool(
    pc: nat,
    sent: nat,
    snap: map<C, V>,
    waiting: seq<Tid<G>>,
    active: map<nat, Tid<G>>,
    finished: set<Tid<G>>,
    left: map<Tid<G>, seq<Op>>,
    store: map<C, V>,
    tids: seq<Tid<G>>,
    trace: seq<Op>)

  function PoolInit<Op, G(==), C, V>(s0: map<C, V>): Pool<Op, G, C, V> {
    Pool(0, 0, s0, [], map[], {}, map[], s0, [], [])
  }

  ghost predicate Submit<Op, G(!new), C, V>(plan: Plan<Op, G, C, V>, p: Pool<Op, G, C, V>, p': Pool<Op, G, C, V>) {
    && p.pc < |plan.code|
    && match plan.code[p.pc]
       case Spawn(g) =>
         if p.sent < plan.width(g) then
           p' == p.(sent := p.sent + 1, waiting := p.waiting + [Tid(g, p.sent)],
                    left := p.left[Tid(g, p.sent) := Bucket(plan, plan.ops, p.snap, Tid(g, p.sent))])
         else p' == p.(pc := p.pc + 1, sent := 0)
       case Join(g) =>
         && (forall t: nat | t < plan.width(g) :: Tid(g, t) in p.finished)
         && p' == p.(pc := p.pc + 1)
       case Build =>
         p' == p.(pc := p.pc + 1, snap := p.store)
  }

  ghost predicate Begin<Op, G, C, V>(workers: nat, p: Pool<Op, G, C, V>, w: nat, p': Pool<Op, G, C, V>) {
    && w < workers && w !in p.active && p.waiting != []
    && p' == p.(waiting := p.waiting[1..], active := p.active[w := p.waiting[0]])
  }

  ghost predicate Perform<Op, G, C, V>(plan: Plan<Op, G, C, V>, p: Pool<Op, G, C, V>, w: nat, p': Pool<Op, G, C, V>) {
    && w in p.active && p.active[w] in p.left && p.left[p.active[w]] != []
    && var tid := p.active[w];
       p' == p.(left := p.left[tid := p.left[tid][1..]],
                store := p.store + plan.eff(p.left[tid][0], p.store),
                tids := p.tids + [tid],
                trace := p.trace + [p.left[tid][0]])
  }

  ghost predicate Complete<Op, G, C, V>(p: Pool<Op, G, C, V>, w: nat, p': Pool<Op, G, C, V>) {
    && w in p.active && p.active[w] in p.left && p.left[p.active[w]] == []
    && p' == p.(active := p.active - {w}, finished := p.finished + {p.active[w]})
  }

  ghost predicate PoolNext<Op, G(!new), C, V>(plan: Plan<Op, G, C, V>, workers: nat, p: Pool<Op, G, C, V>, p': Pool<Op, G, C, V>) {
    Submit(plan, p, p') || exists w: nat :: Begin(workers, p, w, p') || Perform(plan, p, w, p') || Complete(p, w, p')
  }

  ghost predicate IsPoolRun<Op, G(!new), C, V>(plan: Plan<Op, G, C, V>, workers: nat, s0: map<C, V>, run: seq<Pool<Op, G, C, V>>) {
    && run != [] && run[0] == PoolInit(s0)
    && forall i | 0 <= i < |run| - 1 :: PoolNextAt(plan, workers, run, i)
  }

  ghost predicate PoolNextAt<Op, G(!new), C, V>(plan: Plan<Op, G, C, V>, workers: nat, run: seq<Pool<Op, G, C, V>>, i: nat)
    requires i < |run| - 1
  {
    PoolNext(plan, workers, run[i], run[i + 1])
  }

  ghost predicate PoolDone<Op, G, C, V>(plan: Plan<Op, G, C, V>, p: Pool<Op, G, C, V>) {
    p.pc == |plan.code|
  }

  // ---- The fork-join state that a pool state stands for ----

  /** The group counts as spawned from its first enqueued task on. */
  function Spawning<Op, G(==,!new), C, V>(plan: Plan<Op, G, C, V>, p: Pool<Op, G, C, V>): map<Tid<G>, seq<Op>> {
    if p.sent > 0 && p.pc < |plan.code| && plan.code[p.pc].Spawn? then Dealt(plan, p.snap, plan.code[p.pc].g) else map[]
  }

  function AsMachine<Op, G(==,!new), C, V>(plan: Plan<Op, G, C, V>, p: Pool<Op, G, C, V>): Machine<Op, G, C, V> {
    Machine(if p.sent > 0 then p.pc + 1 else p.pc, p.snap, Spawning(plan, p) + p.left, p.store, p.tids, p.trace)
  }

  ghost predicate Busy<Op, G, C, V>(p: Pool<Op, G, C, V>, tid: Tid<G>) {
    exists w :: w in p.active && p.active[w] == tid
  }

  ghost predicate Accepted<Op, G, C, V>(p: Pool<Op, G, C, V>, tid: Tid<G>) {
    tid in p.waiting || Busy(p, tid) || tid in p.finished
  }

  ghost predicate PoolInv<Op, G(!new), C, V>(plan: Plan<Op, G, C, V>, p: Pool<Op, G, C, V>) {
    && p.pc <= |plan.code|
    && (p.sent > 0 ==> p.pc < |plan.code| && plan.code[p.pc].Spawn? && p.sent <= plan.width(plan.code[p.pc].g))
    && (forall tid :: tid in p.left <==> Accepted(p, tid))
    && (forall tid | tid in p.finished :: tid in p.left && p.left[tid] == [])
    && (forall tid | tid in p.left :: tid.t < plan.width(tid.g))
    && (p.sent > 0 ==> forall t: nat :: Tid(plan.code[p.pc].g, t) in p.left <==> t < p.sent)
  }

  // ---- Each pool step is a fork-join step or leaves the fork-join state alone ----

  ghost predicate Follows<Op, G(!new), C, V>(plan: Plan<Op, G, C, V>, p: Pool<Op, G, C, V>, p': Pool<Op, G, C, V>) {
    AsMachine(plan, p') == AsMachine(plan, p) || Next(plan, AsMachine(plan, p), AsMachine(plan, p'))
  }

  lemma BeginKeeps<Op(!new), G(!new), C(!new), V(!new)>(
      plan: Plan<Op, G, C, V>, workers: nat, p: Pool<Op, G, C, V>, w: nat, p': Pool<Op, G, C, V>)
    requires PoolInv(plan, p) && Begin(workers, p, w, p')
    ensures PoolInv(plan, p') && Follows(plan, p, p')
  {
    var first := p.waiting[0];
    assert p.waiting == [first] + p'.waiting;
    forall tid ensures Accepted(p', tid) <==> Accepted(p, tid) {
      assert Busy(p', first) by { assert p'.active[w] == first; }
      if Busy(p, tid) {
        var v :| v in p.active && p.active[v] == tid;
        assert p'.active[v] == tid;
      }
      if Busy(p', tid) && tid != first {
        var v :| v in p'.active && p'.active[v] == tid;
        assert p.active[v] == tid;
      }
    }
  }

  lemma CompleteKeeps<Op(!new), G(!new), C(!new), V(!new)>(
      plan: Plan<Op, G, C, V>, p: Pool<Op, G, C, V>, w: nat, p': Pool<Op, G, C, V>)
    requires PoolInv(plan, p) && Complete(p, w, p')
    ensures PoolInv(plan, p') && Follows(plan, p, p')
  {
    forall tid ensures Accepted(p', tid) <==> Accepted(p, tid) {
      if Busy(p, tid) {
        var v :| v in p.active && p.active[v] == tid;
        assert v != w ==> p'.active[v] == tid;
      }
      if Busy(p', tid) {
        var v :| v in p'.active && p'.active[v] == tid;
        assert p.active[v] == tid;
      }
      assert Busy(p, p.active[w]);
    }
  }

  lemma SameAccepted<Op(!new), G(!new), C(!new), V(!new)>(p: Pool<Op, G, C, V>, p': Pool<Op, G, C, V>, more: set<Tid<G>>)
    requires p'.active == p.active && p'.finished == p.finished
    requires forall tid :: tid in p'.waiting <==> tid in p.waiting || tid in more
    ensures forall tid :: Accepted(p', tid) <==> Accepted(p, tid) || tid in more
  {
    forall tid ensures Accepted(p', tid) <==> Accepted(p, tid) || tid in more {
      assert Busy(p', tid) <==> Busy(p, tid);
    }
  }

  lemma PerformKeeps<Op(!new), G(!new), C(!new), V(!new)>(
      plan: Plan<Op, G, C, V>, p: Pool<Op, G, C, V>, w: nat, p': Pool<Op, G, C, V>)
    requires PoolInv(plan, p) && Perform(plan, p, w, p')
    ensures PoolInv(plan, p') && Follows(plan, p, p')
  {
    SameAccepted(p, p', {});
    assert PoolInv(plan, p');
    PerformFollows(plan, p, w, p');
  }

  lemma UpdatedRight<K, X>(dealt: map<K, X>, left: map<K, X>, k: K, x: X)
    ensures dealt + left[k := x] == (dealt + left)[k := x]
  {
  }

  lemma PerformFollows<Op(!new), G(!new), C(!new), V(!new)>(
      plan: Plan<Op, G, C, V>, p: Pool<Op, G, C, V>, w: nat, p': Pool<Op, G, C, V>)
    requires Perform(plan, p, w, p')
    ensures Follows(plan, p, p')
  {
    var m, m', tid := AsMachine(plan, p), AsMachine(plan, p'), p.active[w];
    assert m'.todo == m.todo[tid := m.todo[tid][1..]] by { UpdatedRight(Spawning(plan, p), p.left, tid, p.left[tid][1..]); }
    assert WorkStep(plan, m, tid, m');
  }

  lemma EnqueueKeeps<Op(!new), G(!new), C(!new), V(!new)>(
      plan: Plan<Op, G, C, V>, p: Pool<Op, G, C, V>, g: G, p': Pool<Op, G, C, V>)
    requires PoolInv(plan, p) && Submit(plan, p, p')
    requires p.pc < |plan.code| && plan.code[p.pc] == Spawn(g) && p.sent < plan.width(g)
    requires p.sent == 0 ==> forall t: nat :: Tid(g, t) !in p.left
    ensures PoolInv(plan, p') && Follows(plan, p, p')
  {
    SameAccepted(p, p', {Tid(g, p.sent)});
    assert PoolInv(plan, p');
    EnqueueFollows(plan, p, g, p');
  }

  lemma EnqueueFollows<Op(!new), G(!new), C(!new), V(!new)>(
      plan: Plan<Op, G, C, V>, p: Pool<Op, G, C, V>, g: G, p': Pool<Op, G, C, V>)
    requires Submit(plan, p, p')
    requires p.pc < |plan.code| && plan.code[p.pc] == Spawn(g) && p.sent < plan.width(g)
    requires forall t: nat | t >= p.sent :: Tid(g, t) !in p.left
    ensures Follows(plan, p, p')
  {
    var tid, dealt := Tid(g, p.sent), Dealt(plan, p.snap, g);
    DealtOver(dealt, p.left, tid, p'.left[tid]);
    if p.sent == 0 {
      FirstEnqueued(plan, p, g, p', dealt);
    } else {
      assert Spawning(plan, p) == dealt == Spawning(plan, p');
    }
  }

  lemma FirstEnqueued<Op(!new), G(!new), C(!new), V(!new)>(
      plan: Plan<Op, G, C, V>, p: Pool<Op, G, C, V>, g: G, p': Pool<Op, G, C, V>, dealt: map<Tid<G>, seq<Op>>)
    requires p'.pc == p.pc && p.sent == 0 < p'.sent && p'.snap == p.snap && p'.store == p.store && p'.tids == p.tids && p'.trace == p.trace
    requires dealt == Dealt(plan, p.snap, g) && dealt + p'.left == dealt + p.left
    requires p.pc < |plan.code| && plan.code[p.pc] == Spawn(g)
    requires forall t: nat :: Tid(g, t) !in p.left
    ensures Next(plan, AsMachine(plan, p), AsMachine(plan, p'))
  {
    var m, m' := AsMachine(plan, p), AsMachine(plan, p');
    assert dealt + p.left == p.left + dealt by {
      assert forall x | x in dealt :: x == Tid(g, x.t);
      Apart(dealt, p.left);
    }
    assert m.todo == p.left by { NothingPlus(p.left); }
    var todo := p.left + dealt;
    assert m' == m.(pc := m.pc + 1, todo := todo);
    assert MainStep(plan, m, m');
  }

  lemma NothingPlus<K, X>(left: map<K, X>)
    ensures map[] + left == left
  {
  }

  lemma DealtOver<K, X>(dealt: map<K, X>, left: map<K, X>, k: K, x: X)
    requires k in dealt && dealt[k] == x && k !in left
    ensures dealt + left[k := x] == dealt + left
  {
  }

  lemma Apart<K, X>(dealt: map<K, X>, left: map<K, X>)
    requires forall k | k in dealt :: k !in left
    ensures dealt + left == left + dealt
  {
  }

  lemma SubmitKeeps<Op(!new), G(!new), C(!new), V(!new)>(
      plan: Plan<Op, G, C, V>, d: Design<Op, G, C, V>, s0: map<C, V>, p: Pool<Op, G, C, V>, p': Pool<Op, G, C, V>)
    requires Placed(plan, d) && PoolInv(plan, p) && Shape(plan, d, s0, AsMachine(plan, p)) && Submit(plan, p, p')
    ensures PoolInv(plan, p') && Follows(plan, p, p')
  {
    match plan.code[p.pc]
    case Spawn(g) =>
      if p.sent < plan.width(g) {
        assert p.sent == 0 ==> forall t: nat :: Tid(g, t) !in p.left by { NotYetSpawned(plan, d, s0, p, g); }
        EnqueueKeeps(plan, p, g, p');
      } else {
        EndSpawnKeeps(plan, p, g, p');
      }
    case Join(g) => WaitKeeps(plan, p, g, p');
    case Build => ReadKeeps(plan, p, p');
  }

  lemma NotYetSpawned<Op(!new), G(!new), C(!new), V(!new)>(
      plan: Plan<Op, G, C, V>, d: Design<Op, G, C, V>, s0: map<C, V>, p: Pool<Op, G, C, V>, g: G)
    requires Placed(plan, d) && Shape(plan, d, s0, AsMachine(plan, p))
    requires p.pc < |plan.code| && plan.code[p.pc] == Spawn(g)
    ensures p.sent == 0 ==> forall t: nat :: Tid(g, t) !in p.left
  {
    forall t: nat ensures p.sent == 0 ==> Tid(g, t) !in p.left {
      assert p.pc == d.spawnAt(g);
      assert Tid(g, t) in p.left ==> Tid(g, t) in AsMachine(plan, p).todo;
    }
  }

  lemma WaitKeeps<Op(!new), G(!new), C(!new), V(!new)>(plan: Plan<Op, G, C, V>, p: Pool<Op, G, C, V>, g: G, p': Pool<Op, G, C, V>)
    requires PoolInv(plan, p) && Submit(plan, p, p') && p.pc < |plan.code| && plan.code[p.pc] == Join(g)
    ensures PoolInv(plan, p') && Follows(plan, p, p')
  {
    var m, m' := AsMachine(plan, p), AsMachine(plan, p');
    SameAccepted(p, p', {});
    assert m.todo == p.left && m'.todo == p.left;
    forall tid | tid in m.todo && tid.g == g ensures m.todo[tid] == [] {
      assert Tid(g, tid.t) in p.finished;
    }
    assert MainStep(plan, m, m');
  }

  lemma ReadKeeps<Op(!new), G(!new), C(!new), V(!new)>(plan: Plan<Op, G, C, V>, p: Pool<Op, G, C, V>, p': Pool<Op, G, C, V>)
    requires PoolInv(plan, p) && Submit(plan, p, p') && p.pc < |plan.code| && plan.code[p.pc] == Build
    ensures PoolInv(plan, p') && Follows(plan, p, p')
  {
    var m, m' := AsMachine(plan, p), AsMachine(plan, p');
    SameAccepted(p, p', {});
    assert m.todo == p.left && m'.todo == p.left;
    assert MainStep(plan, m, m');
  }

  lemma EndSpawnKeeps<Op(!new), G(!new), C(!new), V(!new)>(
      plan: Plan<Op, G, C, V>, p: Pool<Op, G, C, V>, g: G, p': Pool<Op, G, C, V>)
    requires PoolInv(plan, p) && Submit(plan, p, p')
    requires p.pc < |plan.code| && plan.code[p.pc] == Spawn(g) && p.sent >= plan.width(g)
    ensures PoolInv(plan, p') && Follows(plan, p, p')
  {
    SameAccepted(p, p', {});
    assert PoolInv(plan, p');
    var m, m', dealt := AsMachine(plan, p), AsMachine(plan, p'), Dealt(plan, p.snap, g);
    assert p'.left == p.left;
    AllSent(dealt, p.left, p.sent, g);
    if p.sent == 0 {
      assert m.todo == p.left && m'.todo == p.left;
      assert dealt == map[];
      assert p.left + dealt == p.left;
      assert MainStep(plan, m, m');
    }
  }

  lemma AllSent<Op, G(!new)>(dealt: map<Tid<G>, seq<Op>>, left: map<Tid<G>, seq<Op>>, sent: nat, g: G)
    requires forall tid | tid in dealt :: tid.g == g && tid.t < sent
    requires sent > 0 ==> forall t: nat :: Tid(g, t) in left <==> t < sent
    ensures dealt + left == left
  {
    forall tid | tid in dealt ensures tid in left { assert tid == Tid(g, tid.t); }
  }

  // ---- Main results ----

  ghost predicate SoundRun<Op(!new), G(!new), C(!new), V(!new)>(
      plan: Plan<Op, G, C, V>, d: Design<Op, G, C, V>, workers: nat, s0: map<C, V>, run: seq<Pool<Op, G, C, V>>)
  {
    Sound(plan, d, s0) && IsPoolRun(plan, workers, s0, run)
  }

  /** Every pool run follows a fork-join run of the same plan. */
  lemma {:induction false} PoolRefines<Op(!new), G(!new), C(!new), V(!new)>(
      plan: Plan<Op, G, C, V>, d: Design<Op, G, C, V>, workers: nat, s0: map<C, V>, run: seq<Pool<Op, G, C, V>>, k: nat)
      returns (machines: seq<Machine<Op, G, C, V>>)
    requires SoundRun(plan, d, workers, s0, run) && k < |run|
    ensures Tracks(plan, d, s0, machines, run[k])
  {
    if k == 0 {
      assert run[0] == PoolInit(s0);
      machines := StartRefines(plan, d, s0);
    } else {
      var before := PoolRefines(plan, d, workers, s0, run, k - 1);
      assert PoolNextAt(plan, workers, run, k - 1);
      machines := StepRefines(plan, d, workers, s0, before, run[k - 1], run[k]);
    }
  }

  /** The fork-join run `machines` of a sound plan has arrived where the pool is. */
  ghost predicate Tracks<Op(!new), G(!new), C(!new), V(!new)>(
      plan: Plan<Op, G, C, V>, d: Design<Op, G, C, V>, s0: map<C, V>, machines: seq<Machine<Op, G, C, V>>, p: Pool<Op, G, C, V>)
  {
    Sound(plan, d, s0) && PoolInv(plan, p) && IsRun(plan, s0, machines) && machines[|machines| - 1] == AsMachine(plan, p)
  }

  lemma StartRefines<Op(!new), G(!new), C(!new), V(!new)>(
      plan: Plan<Op, G, C, V>, d: Design<Op, G, C, V>, s0: map<C, V>) returns (machines: seq<Machine<Op, G, C, V>>)
    requires Sound(plan, d, s0)
    ensures Tracks(plan, d, s0, machines, PoolInit(s0))
  {
    machines := [Init(s0)];
    var p: Pool<Op, G, C, V> := PoolInit(s0);
    assert Spawning(plan, p) + p.left == map[];
  }

  lemma TrackedShape<Op(!new), G(!new), C(!new), V(!new)>(
      plan: Plan<Op, G, C, V>, d: Design<Op, G, C, V>, s0: map<C, V>, machines: seq<Machine<Op, G, C, V>>, p: Pool<Op, G, C, V>)
    requires Tracks(plan, d, s0, machines, p)
    ensures Placed(plan, d) && Shape(plan, d, s0, AsMachine(plan, p))
  {
    RunInv(plan, d, s0, machines, |machines| - 1);
  }

  lemma StepRefines<Op(!new), G(!new), C(!new), V(!new)>(
      plan: Plan<Op, G, C, V>, d: Design<Op, G, C, V>, workers: nat, s0: map<C, V>, machines: seq<Machine<Op, G, C, V>>,
      p: Pool<Op, G, C, V>, p': Pool<Op, G, C, V>) returns (grown: seq<Machine<Op, G, C, V>>)
    requires Tracks(plan, d, s0, machines, p) && PoolNext(plan, workers, p, p')
    ensures Tracks(plan, d, s0, grown, p')
  {
    TrackedShape(plan, d, s0, machines, p);
    PoolNextKeeps(plan, d, workers, s0, p, p');
    grown := RunGrows(plan, s0, machines, AsMachine(plan, p'));
  }

  lemma RunGrows<Op(!new), G(!new), C(!new), V(!new)>(
      plan: Plan<Op, G, C, V>, s0: map<C, V>, machines: seq<Machine<Op, G, C, V>>, m: Machine<Op, G, C, V>)
      returns (grown: seq<Machine<Op, G, C, V>>)
    requires IsRun(plan, s0, machines)
    requires m == machines[|machines| - 1] || Next(plan, machines[|machines| - 1], m)
    ensures IsRun(plan, s0, grown) && grown[|grown| - 1] == m
  {
    grown := if m == machines[|machines| - 1] then machines else machines + [m];
    forall i | 0 <= i < |grown| - 1 ensures NextAt(plan, grown, i) {
      assert i < |machines| - 1 ==> NextAt(plan, machines, i);
    }
  }

  lemma PoolNextKeeps<Op(!new), G(!new), C(!new), V(!new)>(
      plan: Plan<Op, G, C, V>, d: Design<Op, G, C, V>, workers: nat, s0: map<C, V>, p: Pool<Op, G, C, V>, p': Pool<Op, G, C, V>)
    requires Placed(plan, d) && PoolInv(plan, p) && Shape(plan, d, s0, AsMachine(plan, p)) && PoolNext(plan, workers, p, p')
    ensures PoolInv(plan, p') && Follows(plan, p, p')
  {
    if Submit(plan, p, p') {
      SubmitKeeps(plan, d, s0, p, p');
    } else {
      var w: nat :| Begin(workers, p, w, p') || Perform(plan, p, w, p') || Complete(p, w, p');
      if Begin(workers, p, w, p') {
        BeginKeeps(plan, workers, p, w, p');
      } else if Perform(plan, p, w, p') {
        PerformKeeps(plan, p, w, p');
      } else {
        CompleteKeeps(plan, p, w, p');
      }
    }
  }

  /** DETERMINISM ON A POOL.  A finished pool run of a sound plan, with any number of workers,
      leaves the store of the serial run. */
  lemma PoolDeterminism<Op(!new), G(!new), C(!new), V(!new)>(
      plan: Plan<Op, G, C, V>, d: Design<Op, G, C, V>, workers: nat, s0: map<C, V>, run: seq<Pool<Op, G, C, V>>)
    requires SoundRun(plan, d, workers, s0, run) && PoolDone(plan, run[|run| - 1])
    ensures run[|run| - 1].store == Run(d.sys, plan.ops, s0)
  {
    var machines := PoolRefines(plan, d, workers, s0, run, |run| - 1);
    Determinism(plan, d, s0, machines);
  }

  ghost predicate PoolEnabled<Op(!new), G(!new), C(!new), V(!new)>(plan: Plan<Op, G, C, V>, workers: nat, p: Pool<Op, G, C, V>) {
    exists p' :: PoolNext(plan, workers, p, p')
  }

  lemma PoolCanMove<Op(!new), G(!new), C(!new), V(!new)>(
      plan: Plan<Op, G, C, V>, d: Design<Op, G, C, V>, workers: nat, s0: map<C, V>, p: Pool<Op, G, C, V>)
    requires Placed(plan, d) && PoolInv(plan, p) && Shape(plan, d, s0, AsMachine(plan, p)) && p.pc < |plan.code| && workers > 0
    ensures PoolEnabled(plan, workers, p)
  {
    if w: nat :| w in p.active {
      BusyCanMove(plan, workers, p, w);
    } else if p.waiting != [] {
      FreeCanBegin(plan, workers, p);
    } else {
      IdleCanSubmit(plan, d, workers, s0, p);
    }
  }

  /** With at least one worker no reachable pool state is stuck before the end. */
  lemma PoolNeverStuck<Op(!new), G(!new), C(!new), V(!new)>(
      plan: Plan<Op, G, C, V>, d: Design<Op, G, C, V>, workers: nat, s0: map<C, V>, run: seq<Pool<Op, G, C, V>>)
    requires SoundRun(plan, d, workers, s0, run) && !PoolDone(plan, run[|run| - 1]) && workers > 0
    ensures PoolEnabled(plan, workers, run[|run| - 1])
  {
    var machines := PoolRefines(plan, d, workers, s0, run, |run| - 1);
    RunInv(plan, d, s0, machines, |machines| - 1);
    PoolCanMove(plan, d, workers, s0, run[|run| - 1]);
  }

  lemma FreeCanBegin<Op(!new), G(!new), C(!new), V(!new)>(plan: Plan<Op, G, C, V>, workers: nat, p: Pool<Op, G, C, V>)
    requires workers > 0 && p.waiting != [] && 0 !in p.active
    ensures PoolEnabled(plan, workers, p)
  {
    var p' := p.(waiting := p.waiting[1..], active := p.active[0 := p.waiting[0]]);
    assert Begin(workers, p, 0, p');
    assert PoolNext(plan, workers, p, p');
  }

  lemma BusyCanMove<Op(!new), G(!new), C(!new), V(!new)>(plan: Plan<Op, G, C, V>, workers: nat, p: Pool<Op, G, C, V>, w: nat)
    requires PoolInv(plan, p) && w in p.active
    ensures PoolEnabled(plan, workers, p)
  {
    var tid := p.active[w];
    assert Busy(p, tid);
    assert Accepted(p, tid);
    if p.left[tid] == [] {
      var p' := p.(active := p.active - {w}, finished := p.finished + {tid});
      assert Complete(p, w, p');
      assert PoolNext(plan, workers, p, p');
    } else {
      var p' := p.(left := p.left[tid := p.left[tid][1..]], store := p.store + plan.eff(p.left[tid][0], p.store),
                   tids := p.tids + [tid], trace := p.trace + [p.left[tid][0]]);
      assert Perform(plan, p, w, p');
      assert PoolNext(plan, workers, p, p');
    }
  }

  lemma IdleCanSubmit<Op(!new), G(!new), C(!new), V(!new)>(
      plan: Plan<Op, G, C, V>, d: Design<Op, G, C, V>, workers: nat, s0: map<C, V>, p: Pool<Op, G, C, V>)
    requires Placed(plan, d) && PoolInv(plan, p) && Shape(plan, d, s0, AsMachine(plan, p))
    requires p.pc < |plan.code| && p.waiting == [] && forall w :: w !in p.active
    ensures PoolEnabled(plan, workers, p)
  {
    match plan.code[p.pc]
    case Spawn(g) => SpawnCanMove(plan, workers, p, g);
    case Build => CanSubmit(plan, workers, p, p.(pc := p.pc + 1, snap := p.store));
    case Join(g) =>
      AllFinished(plan, d, s0, p, g);
      CanSubmit(plan, workers, p, p.(pc := p.pc + 1));
  }

  lemma CanSubmit<Op(!new), G(!new), C(!new), V(!new)>(plan: Plan<Op, G, C, V>, workers: nat, p: Pool<Op, G, C, V>, p': Pool<Op, G, C, V>)
    requires Submit(plan, p, p')
    ensures PoolEnabled(plan, workers, p)
  {
    assert PoolNext(plan, workers, p, p');
  }

  lemma SpawnCanMove<Op(!new), G(!new), C(!new), V(!new)>(plan: Plan<Op, G, C, V>, workers: nat, p: Pool<Op, G, C, V>, g: G)
    requires p.pc < |plan.code| && plan.code[p.pc] == Spawn(g)
    ensures PoolEnabled(plan, workers, p)
  {
    if p.sent < plan.width(g) {
      CanSubmit(plan, workers, p,
              p.(sent := p.sent + 1, waiting := p.waiting + [Tid(g, p.sent)],
                 left := p.left[Tid(g, p.sent) := Bucket(plan, plan.ops, p.snap, Tid(g, p.sent))]));
    } else {
      CanSubmit(plan, workers, p, p.(pc := p.pc + 1, sent := 0));
    }
  }

  lemma AllFinished<Op(!new), G(!new), C(!new), V(!new)>(
      plan: Plan<Op, G, C, V>, d: Design<Op, G, C, V>, s0: map<C, V>, p: Pool<Op, G, C, V>, g: G)
    requires Placed(plan, d) && PoolInv(plan, p) && Shape(plan, d, s0, AsMachine(plan, p))
    requires p.pc < |plan.code| && plan.code[p.pc] == Join(g) && p.waiting == [] && forall w :: w !in p.active
    ensures forall t: nat | t < plan.width(g) :: Tid(g, t) in p.finished
  {
    forall t: nat | t < plan.width(g) ensures Tid(g, t) in p.finished {
      assert d.spawnAt(g) < d.joinAt(g) == p.pc;
      assert Tid(g, t) in AsMachine(plan, p).todo;
      assert Accepted(p, Tid(g, t)) && !Busy(p, Tid(g, t));
    }
  }

  // ---- Runs are bounded ----

  /** The threads that the instructions from pc on spawn. */
  function Threads<Op, G, C, V>(plan: Plan<Op, G, C, V>, pc: nat): nat
    requires pc <= |plan.code|
    decreases |plan.code| - pc
  {
    if pc == |plan.code| then 0
    else (if plan.code[pc].Spawn? then plan.width(plan.code[pc].g) else 0) + Threads(plan, pc + 1)
  }

  /** How many steps the pool has still to take: each instruction ends once, each thread is
      enqueued, begun and completed once, each step of the batch is performed once. */
  function Ahead<Op, G(==), C(==), V>(plan: Plan<Op, G, C, V>, p: Pool<Op, G, C, V>): int
    requires p.pc <= |plan.code|
  {
    |plan.code| - p.pc + 3 * (Threads(plan, p.pc) - p.sent) + 2 * |p.waiting| + |p.active| + |plan.ops| - |p.trace|
  }

  /** The part of the invariant that speaks of the group being enqueued. */
  ghost predicate Sending<Op, G, C, V>(plan: Plan<Op, G, C, V>, p: Pool<Op, G, C, V>) {
    && p.pc <= |plan.code|
    && (p.sent > 0 ==> p.pc < |plan.code| && plan.code[p.pc].Spawn? && p.sent <= plan.width(plan.code[p.pc].g))
  }

  lemma SubmitIsCounted<Op, G(!new), C, V>(plan: Plan<Op, G, C, V>, p: Pool<Op, G, C, V>, p': Pool<Op, G, C, V>)
    requires Sending(plan, p) && Submit(plan, p, p')
    ensures Ahead(plan, p') == Ahead(plan, p) - 1
  {
  }

  lemma WorkerIsCounted<Op, G(!new), C, V>(plan: Plan<Op, G, C, V>, workers: nat, p: Pool<Op, G, C, V>, w: nat, p': Pool<Op, G, C, V>)
    requires p.pc <= |plan.code| && (Begin(workers, p, w, p') || Perform(plan, p, w, p') || Complete(p, w, p'))
    ensures p'.pc == p.pc && Ahead(plan, p') == Ahead(plan, p) - 1
  {
    if Complete(p, w, p') {
      assert p.active == p'.active[w := p.active[w]];
    }
  }

  lemma StepIsCounted<Op, G(!new), C, V>(plan: Plan<Op, G, C, V>, workers: nat, p: Pool<Op, G, C, V>, p': Pool<Op, G, C, V>)
    requires Sending(plan, p) && Sending(plan, p') && PoolNext(plan, workers, p, p')
    ensures Ahead(plan, p') == Ahead(plan, p) - 1
  {
    if Submit(plan, p, p') {
      SubmitIsCounted(plan, p, p');
    } else {
      var w: nat :| Begin(workers, p, w, p') || Perform(plan, p, w, p') || Complete(p, w, p');
      WorkerIsCounted(plan, workers, p, w, p');
    }
  }

  /** What counting needs to know of a state. */
  ghost predicate Within<Op, G, C, V>(plan: Plan<Op, G, C, V>, p: Pool<Op, G, C, V>) {
    Sending(plan, p) && |p.trace| <= |plan.ops|
  }

  lemma StateWithin<Op(!new), G(!new), C(!new), V(!new)>(
      plan: Plan<Op, G, C, V>, d: Design<Op, G, C, V>, workers: nat, s0: map<C, V>, run: seq<Pool<Op, G, C, V>>, k: nat)
    requires SoundRun(plan, d, workers, s0, run) && k < |run|
    ensures Within(plan, run[k])
  {
    var machines := PoolRefines(plan, d, workers, s0, run, k);
    var m := machines[|machines| - 1];
    RunInv(plan, d, s0, machines, |machines| - 1);
    TraceDistinct(plan, d, s0, m);
    TraceFits(m.trace, plan.ops);
  }

  lemma {:induction false} StepsAreCounted<Op, G(!new), C, V>(
      plan: Plan<Op, G, C, V>, workers: nat, s0: map<C, V>, run: seq<Pool<Op, G, C, V>>, k: nat)
    requires IsPoolRun(plan, workers, s0, run) && k < |run|
    requires forall i | 0 <= i < |run| :: Within(plan, run[i])
    ensures Within(plan, run[k]) && k + Ahead(plan, run[k]) == |plan.code| + 3 * Threads(plan, 0) + |plan.ops|
  {
    if k > 0 {
      StepsAreCounted(plan, workers, s0, run, k - 1);
      assert PoolNextAt(plan, workers, run, k - 1);
      StepIsCounted(plan, workers, run[k - 1], run[k]);
    }
  }

  /** No pool run is longer than its instructions, three steps for each thread, and the steps
      of the batch, whatever the number of workers. */
  lemma PoolRunIsBounded<Op(!new), G(!new), C(!new), V(!new)>(
      plan: Plan<Op, G, C, V>, d: Design<Op, G, C, V>, workers: nat, s0: map<C, V>, run: seq<Pool<Op, G, C, V>>)
    requires SoundRun(plan, d, workers, s0, run)
    ensures |run| <= 1 + |plan.code| + 3 * Threads(plan, 0) + |plan.ops|
  {
    forall i | 0 <= i < |run| ensures Within(plan, run[i]) { StateWithin(plan, d, workers, s0, run, i); }
    StepsAreCounted(plan, workers, s0, run, |run| - 1);
  }

  lemma OneEventLonger<Op(!new), G(!new), C(!new), V(!new)>(
      plan: Plan<Op, G, C, V>, workers: nat, s0: map<C, V>, run: seq<Pool<Op, G, C, V>>, p: Pool<Op, G, C, V>)
    requires IsPoolRun(plan, workers, s0, run) && PoolNext(plan, workers, run[|run| - 1], p)
    ensures IsPoolRun(plan, workers, s0, run + [p])
  {
    var longer := run + [p];
    forall i | 0 <= i < |longer| - 1 ensures PoolNextAt(plan, workers, longer, i) {
      assert i < |run| - 1 ==> PoolNextAt(plan, workers, run, i);
    }
  }

  /** The main thread enqueues the tasks of a group one by one at the end of the queue, and it
      waits only at a join, for its own group. */
  lemma PoolMainGoesOn<Op(!new), G(!new), C(!new), V(!new)>(
      plan: Plan<Op, G, C, V>, workers: nat, s0: map<C, V>, run: seq<Pool<Op, G, C, V>>) returns (p: Pool<Op, G, C, V>)
    requires IsPoolRun(plan, workers, s0, run) && run[|run| - 1].pc < |plan.code|
    requires
      var now := run[|run| - 1];
      plan.code[now.pc].Join? ==> forall t: nat | t < plan.width(plan.code[now.pc].g) :: Tid(plan.code[now.pc].g, t) in now.finished
    ensures IsPoolRun(plan, workers, s0, run + [p])
    ensures
      var now := run[|run| - 1];
      if plan.code[now.pc].Spawn? && now.sent < plan.width(plan.code[now.pc].g) then
        p.waiting == now.waiting + [Tid(plan.code[now.pc].g, now.sent)] && p.sent == now.sent + 1 && p.pc == now.pc
      else p.waiting == now.waiting && p.pc == now.pc + 1 && p.sent == if plan.code[now.pc].Spawn? then 0 else now.sent
  {
    var now := run[|run| - 1];
    match plan.code[now.pc] {
      case Spawn(g) =>
        p := if now.sent < plan.width(g) then
               now.(sent := now.sent + 1, waiting := now.waiting + [Tid(g, now.sent)],
                    left := now.left[Tid(g, now.sent) := Bucket(plan, plan.ops, now.snap, Tid(g, now.sent))])
             else now.(pc := now.pc + 1, sent := 0);
      case Join(g) => p := now.(pc := now.pc + 1);
      case Build => p := now.(pc := now.pc + 1, snap := now.store);
    }
    assert Submit(plan, now, p);
    OneEventLonger(plan, workers, s0, run, p);
  }

  /** Whatever the others do, any idle worker may take the first waiting task. */
  lemma AnyWorkerBegins<Op(!new), G(!new), C(!new), V(!new)>(
      plan: Plan<Op, G, C, V>, workers: nat, s0: map<C, V>, run: seq<Pool<Op, G, C, V>>, w: nat) returns (p: Pool<Op, G, C, V>)
    requires IsPoolRun(plan, workers, s0, run) && w < workers && w !in run[|run| - 1].active && run[|run| - 1].waiting != []
    ensures IsPoolRun(plan, workers, s0, run + [p])
    ensures p.waiting == run[|run| - 1].waiting[1..] && p.active == run[|run| - 1].active[w := run[|run| - 1].waiting[0]]
  {
    var now := run[|run| - 1];
    p := now.(waiting := now.waiting[1..], active := now.active[w := now.waiting[0]]);
    assert Begin(workers, now, w, p);
    OneEventLonger(plan, workers, s0, run, p);
  }

  /** And any busy worker may run the next step of its task. */
  lemma AnyWorkerGoesOn<Op(!new), G(!new), C(!new), V(!new)>(
      plan: Plan<Op, G, C, V>, workers: nat, s0: map<C, V>, run: seq<Pool<Op, G, C, V>>, w: nat) returns (p: Pool<Op, G, C, V>)
    requires IsPoolRun(plan, workers, s0, run) && w in run[|run| - 1].active
    requires run[|run| - 1].active[w] in run[|run| - 1].left && run[|run| - 1].left[run[|run| - 1].active[w]] != []
    ensures IsPoolRun(plan, workers, s0, run + [p])
    ensures
      var now := run[|run| - 1];
      p.tids == now.tids + [now.active[w]] && p.trace == now.trace + [now.left[now.active[w]][0]]
  {
    var now := run[|run| - 1];
    var tid := now.active[w];
    p := now.(left := now.left[tid := now.left[tid][1..]], store := now.store + plan.eff(now.left[tid][0], now.store),
              tids := now.tids + [tid], trace := now.trace + [now.left[tid][0]]);
    assert Perform(plan, now, w, p);
    OneEventLonger(plan, workers, s0, run, p);
  }

  /** With a worker every pool run can be continued to a finished one. */
  lemma {:induction false} PoolCompletes<Op(!new), G(!new), C(!new), V(!new)>(
      plan: Plan<Op, G, C, V>, d: Design<Op, G, C, V>, workers: nat, s0: map<C, V>, run: seq<Pool<Op, G, C, V>>)
      returns (full: seq<Pool<Op, G, C, V>>)
    requires SoundRun(plan, d, workers, s0, run) && workers > 0
    ensures run <= full && IsPoolRun(plan, workers, s0, full) && PoolDone(plan, full[|full| - 1])
    decreases 1 + |plan.code| + 3 * Threads(plan, 0) + |plan.ops| - |run|
  {
    if PoolDone(plan, run[|run| - 1]) {
      full := run;
    } else {
      PoolNeverStuck(plan, d, workers, s0, run);
      var p :| PoolNext(plan, workers, run[|run| - 1], p);
      var longer := run + [p];
      OneEventLonger(plan, workers, s0, run, p);
      PoolRunIsBounded(plan, d, workers, s0, longer);
      full := PoolCompletes(plan, d, workers, s0, longer);
    }
  }
}
