/** Consequences of determinism for a whole execution: the values handed between phases, and
    the independence of the result from batching and parallelism. */
module TpccWholeRun {
  import opened Replay
  import opened ForkJoin
  import opened PoolExecution
  import opened TpccModel
  import opened TpccFootprint
  import opened TpccInvariant
  import opened TpccSerialRun
  import opened TpccSchedule

  // ---- Values handed between phases ----

  /** A handed value has one writer in the batch. */
  lemma OneWriter(queue: seq<Txn>, ops: seq<Step>, a: Step, b: Step, c: Cell)
    requires OneTxnPerNumber(ops, queue) && a in ops && b in ops && IsHandover(c)
    requires MayWrite(a, c) && MayWrite(b, c)
    ensures a == b
  {
    assert StepOf(a, a.n, queue[a.n]) && StepOf(b, b.n, queue[b.n]);
  }

  /** In every reachable state of every interleaving, a value that has been handed over
      (d_next_o_id_vector, s_dists_vector, ol_amounts_vector, no_o_ids_vector, c_ids_vector,
      sums_vector) is the one that the serial run computes for that transaction. */
  lemma HandoversAreSerial(
      k: Scale, cfg: Config, queue: seq<Txn>, lo: nat, hi: nat, s: Store,
      run: seq<Machine<Step, Group, Cell, Value>>, i: nat, c: Cell)
    requires BatchInput(k, cfg, queue, lo, hi, s)
    requires IsRun(BatchPlan(cfg, Steps(queue, lo, hi)), s, run) && i < |run|
    requires IsHandover(c) && c !in s && c in run[i].store
    ensures SameAt(run[i].store, SerialStore(queue, lo, hi, s), c)
  {
    var ops, h := Steps(queue, lo, hi), SerialStore(queue, lo, hi, s);
    BatchIsSound(k, cfg, queue, lo, hi, s);
    RunInv(BatchPlan(cfg, ops), BatchDesign(cfg, h), s, run, i);
    StepsListed(queue, lo, hi);
    assert OneTxnPerNumber(ops, queue);
    HandoverAt(BatchPlan(cfg, ops), BatchDesign(cfg, h), queue, h, s, run[i], c);
  }

  lemma HandoverAt(
      plan: Plan<Step, Group, Cell, Value>, d: Design<Step, Group, Cell, Value>, queue: seq<Txn>, h: Store, s: Store,
      m: Machine<Step, Group, Cell, Value>, c: Cell)
    requires Sound(plan, d, s) && Inv(plan, d, s, m) && d.sys == Sys(h)
    requires OneTxnPerNumber(plan.ops, queue)
    requires IsHandover(c) && c !in s && c in m.store
    ensures SameAt(m.store, Run(Sys(h), plan.ops, s), c)
  {
    AfterIsRun(h, m.trace, s);
    if x :| x in m.trace && MayWrite(x, c) {
      var j :| 0 <= j < |m.trace| && m.trace[j] == x;
      assert x in plan.ops;
      forall op | op in plan.ops && op !in m.trace ensures c !in d.sys.write(op) {
        if MayWrite(op, c) { OneWriter(queue, plan.ops, op, x, c); }
        WriteMayWrite(h, op, c);
      }
      SerialAlready(plan, d, s, m, c);
    } else {
      AfterFrame(m.trace, s, c);
    }
  }

  lemma WriteMayWrite(h: Store, op: Step, c: Cell)
    ensures c in Write(h, op) ==> MayWrite(op, c)
  {
  }

  // ---- On a thread pool ----

  /** STRONG EXECUTION DETERMINISM ON A POOL.  The version that enqueues its buckets on a
      pool of workers and waits for futures also ends in the serial store. */
  lemma PoolStrongDeterminism(
      k: Scale, cfg: Config, queue: seq<Txn>, lo: nat, hi: nat, s: Store, workers: nat, run: seq<Pool<Step, Group, Cell, Value>>)
    requires BatchInput(k, cfg, queue, lo, hi, s)
    requires IsPoolRun(BatchPlan(cfg, Steps(queue, lo, hi)), workers, s, run)
    requires PoolDone(BatchPlan(cfg, Steps(queue, lo, hi)), run[|run| - 1])
    ensures run[|run| - 1].store == SerialStore(queue, lo, hi, s) && Consistent(k, run[|run| - 1].store)
  {
    BatchIsSound(k, cfg, queue, lo, hi, s);
    PoolDeterminism(BatchPlan(cfg, Steps(queue, lo, hi)), BatchDesign(cfg, SerialStore(queue, lo, hi, s)), workers, s, run);
    SerialKeeps(k, s, queue, lo, hi, s);
  }

  // ---- Batches ----

  /** The queue is cut at cuts[0] <= cuts[1] <= ...; batch j runs under configuration
      cfgs[j], on threads or on a pool and in some interleaving, from stores[j] to
      stores[j + 1]. */
  ghost predicate BatchedExecution(queue: seq<Txn>, cuts: seq<nat>, cfgs: seq<Config>, stores: seq<Store>) {
    && |stores| == |cuts| == |cfgs| + 1
    && (forall i, j | 0 <= i <= j < |cuts| :: cuts[i] <= cuts[j])
    && forall j | 0 <= j < |cfgs| :: OneBatch(queue, cuts[j], cuts[j + 1], cfgs[j], stores[j], stores[j + 1])
  }

  ghost predicate OneBatch(queue: seq<Txn>, lo: nat, hi: nat, cfg: Config, s: Store, t: Store) {
    && lo <= hi <= |queue| && cfg.parallelism > 0
    && (BatchRuns(cfg, Steps(queue, lo, hi), s, t) || exists workers: nat :: PoolRuns(cfg, Steps(queue, lo, hi), workers, s, t))
  }

  ghost predicate BatchRuns(cfg: Config, ops: seq<Step>, s: Store, t: Store) {
    exists run: seq<Machine<Step, Group, Cell, Value>> ::
      IsRun(BatchPlan(cfg, ops), s, run) && Done(BatchPlan(cfg, ops), run[|run| - 1]) && run[|run| - 1].store == t
  }

  ghost predicate PoolRuns(cfg: Config, ops: seq<Step>, workers: nat, s: Store, t: Store) {
    exists run: seq<Pool<Step, Group, Cell, Value>> ::
      IsPoolRun(BatchPlan(cfg, ops), workers, s, run) && PoolDone(BatchPlan(cfg, ops), run[|run| - 1]) && run[|run| - 1].store == t
  }

  lemma OneBatchIsSerial(k: Scale, queue: seq<Txn>, lo: nat, hi: nat, cfg: Config, s: Store, t: Store)
    requires OneBatch(queue, lo, hi, cfg, s, t) && Runnable(k, queue, lo, hi, s)
    ensures t == SerialStore(queue, lo, hi, s) && Consistent(k, t)
  {
    var plan := BatchPlan(cfg, Steps(queue, lo, hi));
    if BatchRuns(cfg, Steps(queue, lo, hi), s, t) {
      var run: seq<Machine<Step, Group, Cell, Value>> :|
        IsRun(plan, s, run) && Done(plan, run[|run| - 1]) && run[|run| - 1].store == t;
      StrongDeterminism(k, cfg, queue, lo, hi, s, run);
    } else {
      var workers: nat :| PoolRuns(cfg, Steps(queue, lo, hi), workers, s, t);
      var run: seq<Pool<Step, Group, Cell, Value>> :|
        IsPoolRun(plan, workers, s, run) && PoolDone(plan, run[|run| - 1]) && run[|run| - 1].store == t;
      PoolStrongDeterminism(k, cfg, queue, lo, hi, s, workers, run);
    }
  }

  /** WHOLE EXECUTIONS.  Wherever timing cuts the queue into batches, with whatever number of
      threads, or workers of a pool, each batch runs, the store after each batch is that of the serial run. */
  lemma {:induction false} AnySplitIsSerial(
      k: Scale, queue: seq<Txn>, cuts: seq<nat>, cfgs: seq<Config>, stores: seq<Store>, j: nat)
    requires BatchedExecution(queue, cuts, cfgs, stores) && j <= |cfgs|
    requires cuts[0] <= cuts[|cfgs|] <= |queue| && Runnable(k, queue, cuts[0], cuts[|cfgs|], stores[0])
    ensures cuts[0] <= cuts[j] <= |queue| && stores[j] == SerialStore(queue, cuts[0], cuts[j], stores[0])
    ensures Consistent(k, stores[j])
    decreases j
  {
    if j > 0 {
      var i := j - 1;
      AnySplitIsSerial(k, queue, cuts, cfgs, stores, i);
      assert OneBatch(queue, cuts[i], cuts[i + 1], cfgs[i], stores[i], stores[i + 1]);
      FreshLater(queue, cuts[0], cuts[i], cuts[|cfgs|], stores[0]);
      OneBatchIsSerial(k, queue, cuts[i], cuts[j], cfgs[i], stores[i], stores[j]);
      StepsAppend(queue, cuts[0], cuts[i], cuts[j]);
      AfterAppend(Steps(queue, cuts[0], cuts[i]), Steps(queue, cuts[i], cuts[j]), stores[0]);
    }
  }

  /** Two executions of the same queue from the same store end alike, however each was cut
      and whatever number of threads or workers each batch of either had. */
  lemma ExecutionsAgree(
      k: Scale, queue: seq<Txn>, cuts: seq<nat>, cfgs: seq<Config>, stores: seq<Store>,
      cuts': seq<nat>, cfgs': seq<Config>, stores': seq<Store>)
    requires BatchedExecution(queue, cuts, cfgs, stores) && BatchedExecution(queue, cuts', cfgs', stores')
    requires cuts[0] == cuts'[0] && cuts[|cfgs|] == cuts'[|cfgs'|] <= |queue| && stores[0] == stores'[0]
    requires Runnable(k, queue, cuts[0], cuts[|cfgs|], stores[0])
    ensures stores[|cfgs|] == stores'[|cfgs'|]
  {
    AnySplitIsSerial(k, queue, cuts, cfgs, stores, |cfgs|);
    AnySplitIsSerial(k, queue, cuts', cfgs', stores', |cfgs'|);
  }

  // ---- Executions that grow batch by batch ----

  /** The batches so far have led from s to t, and the rest of the queue can run from there. */
  ghost predicate Executed(k: Scale, queue: seq<Txn>, cuts: seq<nat>, cfgs: seq<Config>, stores: seq<Store>, s: Store, t: Store) {
    && BatchedExecution(queue, cuts, cfgs, stores) && Runnable(k, queue, 0, |queue|, s)
    && cuts[0] == 0 && cuts[|cfgs|] <= |queue| && stores[0] == s && stores[|cfgs|] == t
  }

  lemma NothingExecuted(k: Scale, queue: seq<Txn>, s: Store)
    requires Runnable(k, queue, 0, |queue|, s)
    ensures Executed(k, queue, [0], [], [s], s, s)
  {
  }

  lemma ExecutedIsSerial(k: Scale, queue: seq<Txn>, cuts: seq<nat>, cfgs: seq<Config>, stores: seq<Store>, s: Store, t: Store)
    requires Executed(k, queue, cuts, cfgs, stores, s, t)
    ensures t == SerialStore(queue, 0, cuts[|cfgs|], s) && Runnable(k, queue, cuts[|cfgs|], |queue|, t)
  {
    AnySplitIsSerial(k, queue, cuts, cfgs, stores, |cfgs|);
    FreshLater(queue, 0, cuts[|cfgs|], |queue|, s);
  }

  lemma ExecutedOn(
      k: Scale, queue: seq<Txn>, cuts: seq<nat>, cfgs: seq<Config>, stores: seq<Store>, s: Store, t: Store, hi: nat, cfg: Config, u: Store)
    requires Executed(k, queue, cuts, cfgs, stores, s, t) && OneBatch(queue, cuts[|cfgs|], hi, cfg, t, u)
    ensures Executed(k, queue, cuts + [hi], cfgs + [cfg], stores + [u], s, u)
  {
    var cuts', cfgs', stores' := cuts + [hi], cfgs + [cfg], stores + [u];
    forall j | 0 <= j < |cfgs'| ensures OneBatch(queue, cuts'[j], cuts'[j + 1], cfgs'[j], stores'[j], stores'[j + 1]) {
      assert j < |cfgs| ==> OneBatch(queue, cuts[j], cuts[j + 1], cfgs[j], stores[j], stores[j + 1]);
    }
  }

  // ---- Assertions ----

  /** In no reachable state of any interleaving has an assertion of the code failed: every
      row that a sub-transaction looks for is there, and every order it delivers has lines. */
  lemma NoAssertionFails(
      k: Scale, cfg: Config, queue: seq<Txn>, lo: nat, hi: nat, s: Store, run: seq<Machine<Step, Group, Cell, Value>>, i: nat)
    requires BatchInput(k, cfg, queue, lo, hi, s)
    requires IsRun(BatchPlan(cfg, Steps(queue, lo, hi)), s, run) && i < |run|
    ensures Fault !in run[i].store
  {
    var ops, h := Steps(queue, lo, hi), SerialStore(queue, lo, hi, s);
    BatchIsSound(k, cfg, queue, lo, hi, s);
    RunInv(BatchPlan(cfg, ops), BatchDesign(cfg, h), s, run, i);
    assert Fault !in h by { SerialKeeps(k, s, queue, lo, hi, s); }
    FaultAt(BatchPlan(cfg, ops), BatchDesign(cfg, h), h, s, run[i]);
  }

  lemma FaultAt(
      plan: Plan<Step, Group, Cell, Value>, d: Design<Step, Group, Cell, Value>, h: Store, s: Store, m: Machine<Step, Group, Cell, Value>)
    requires Sound(plan, d, s) && Inv(plan, d, s, m) && d.sys == Sys(h)
    requires Fault !in Run(Sys(h), plan.ops, s)
    ensures Fault !in m.store
  {
    forall op ensures Fault !in d.sys.write(op) { NoFaultWritten(h, op); }
    SerialAlready(plan, d, s, m, Fault);
  }

  lemma NoFaultWritten(h: Store, op: Step)
    ensures Fault !in Write(h, op)
  {
  }

  // ---- Progress ----

  /** A batch on threads can always go on until it is finished, no run of it is longer than
      its instructions and steps, and some run finishes it. */
  lemma BatchFinishes(k: Scale, cfg: Config, queue: seq<Txn>, lo: nat, hi: nat, s: Store, run: seq<Machine<Step, Group, Cell, Value>>)
    requires BatchInput(k, cfg, queue, lo, hi, s)
    requires IsRun(BatchPlan(cfg, Steps(queue, lo, hi)), s, run)
    ensures Done(BatchPlan(cfg, Steps(queue, lo, hi)), run[|run| - 1]) || Enabled(BatchPlan(cfg, Steps(queue, lo, hi)), run[|run| - 1])
    ensures |run| <= 1 + |BATCH_CODE| + |Steps(queue, lo, hi)|
  {
    var plan, d := BatchPlan(cfg, Steps(queue, lo, hi)), BatchDesign(cfg, SerialStore(queue, lo, hi, s));
    BatchIsSound(k, cfg, queue, lo, hi, s);
    RunIsBounded(plan, d, s, run);
    if !Done(plan, run[|run| - 1]) {
      NeverStuck(plan, d, s, run);
    }
  }

  lemma BatchCanRun(k: Scale, cfg: Config, queue: seq<Txn>, lo: nat, hi: nat, s: Store)
    requires BatchInput(k, cfg, queue, lo, hi, s)
    ensures OneBatch(queue, lo, hi, cfg, s, SerialStore(queue, lo, hi, s))
  {
    var plan := BatchPlan(cfg, Steps(queue, lo, hi));
    BatchIsSound(k, cfg, queue, lo, hi, s);
    var run := Completes(plan, BatchDesign(cfg, SerialStore(queue, lo, hi, s)), s, [Init(s)]);
    StrongDeterminism(k, cfg, queue, lo, hi, s, run);
    assert BatchRuns(cfg, Steps(queue, lo, hi), s, SerialStore(queue, lo, hi, s));
  }

  /** A batch on a pool with a worker can always go on until it is finished, and no run of it
      is longer than its instructions, three steps for each thread, and its steps. */
  lemma PoolBatchFinishes(
      k: Scale, cfg: Config, queue: seq<Txn>, lo: nat, hi: nat, s: Store, workers: nat, run: seq<Pool<Step, Group, Cell, Value>>)
    requires BatchInput(k, cfg, queue, lo, hi, s) && workers > 0
    requires IsPoolRun(BatchPlan(cfg, Steps(queue, lo, hi)), workers, s, run)
    ensures PoolDone(BatchPlan(cfg, Steps(queue, lo, hi)), run[|run| - 1])
         || PoolEnabled(BatchPlan(cfg, Steps(queue, lo, hi)), workers, run[|run| - 1])
    ensures |run| <= 1 + |BATCH_CODE| + 3 * Threads(BatchPlan(cfg, Steps(queue, lo, hi)), 0) + |Steps(queue, lo, hi)|
  {
    var plan, d := BatchPlan(cfg, Steps(queue, lo, hi)), BatchDesign(cfg, SerialStore(queue, lo, hi, s));
    BatchIsSound(k, cfg, queue, lo, hi, s);
    PoolRunIsBounded(plan, d, workers, s, run);
    if !PoolDone(plan, run[|run| - 1]) {
      PoolNeverStuck(plan, d, workers, s, run);
    }
  }
}
