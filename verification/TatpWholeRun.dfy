/** Whole TATP executions: the result does not depend on how the queue is cut into batches,
    on the parallelism, or on whether a batch runs on threads or on a pool. */
module TatpWholeRun {
  import opened ForkJoin
  import opened PoolExecution
  import opened TatpModel
  import opened TatpSchedule

  ghost predicate BatchRuns(cfg: Config, ops: seq<Step>, s: Store, t: Store) {
    exists run: seq<Machine<Step, Group, Cell, Value>> ::
      IsRun(BatchPlan(cfg, ops), s, run) && Done(BatchPlan(cfg, ops), run[|run| - 1]) && run[|run| - 1].store == t
  }

  ghost predicate PoolRuns(cfg: Config, ops: seq<Step>, workers: nat, s: Store, t: Store) {
    exists run: seq<Pool<Step, Group, Cell, Value>> ::
      IsPoolRun(BatchPlan(cfg, ops), workers, s, run) && PoolDone(BatchPlan(cfg, ops), run[|run| - 1]) && run[|run| - 1].store == t
  }

  ghost predicate OneBatch(queue: seq<Txn>, lo: nat, hi: nat, cfg: Config, s: Store, t: Store) {
    && lo <= hi <= |queue| && cfg.parallelism > 0
    && (BatchRuns(cfg, Steps(queue, lo, hi), s, t) || exists workers: nat :: PoolRuns(cfg, Steps(queue, lo, hi), workers, s, t))
  }

  /** The queue is cut at cuts[0] <= cuts[1] <= ...; batch j runs under configuration
      cfgs[j], in some interleaving, from stores[j] to stores[j + 1]. */
  ghost predicate BatchedExecution(queue: seq<Txn>, cuts: seq<nat>, cfgs: seq<Config>, stores: seq<Store>) {
    && |stores| == |cuts| == |cfgs| + 1
    && (forall i, j | 0 <= i <= j < |cuts| :: cuts[i] <= cuts[j])
    && forall j | 0 <= j < |cfgs| :: OneBatch(queue, cuts[j], cuts[j + 1], cfgs[j], stores[j], stores[j + 1])
  }

  lemma OneBatchIsSerial(queue: seq<Txn>, lo: nat, hi: nat, cfg: Config, s: Store, t: Store)
    requires OneBatch(queue, lo, hi, cfg, s, t)
    ensures t == SerialStore(queue, lo, hi, s)
  {
    var plan := BatchPlan(cfg, Steps(queue, lo, hi));
    if BatchRuns(cfg, Steps(queue, lo, hi), s, t) {
      var run: seq<Machine<Step, Group, Cell, Value>> :|
        IsRun(plan, s, run) && Done(plan, run[|run| - 1]) && run[|run| - 1].store == t;
      StrongDeterminism(cfg, queue, lo, hi, s, run);
    } else {
      var workers: nat :| PoolRuns(cfg, Steps(queue, lo, hi), workers, s, t);
      var run: seq<Pool<Step, Group, Cell, Value>> :|
        IsPoolRun(plan, workers, s, run) && PoolDone(plan, run[|run| - 1]) && run[|run| - 1].store == t;
      PoolStrongDeterminism(cfg, queue, lo, hi, s, workers, run);
    }
  }

  /** Wherever timing cuts the queue, the store after each batch is that of the serial run. */
  lemma {:induction false} AnySplitIsSerial(queue: seq<Txn>, cuts: seq<nat>, cfgs: seq<Config>, stores: seq<Store>, j: nat)
    requires BatchedExecution(queue, cuts, cfgs, stores) && j <= |cfgs|
    requires cuts[0] <= cuts[|cfgs|] <= |queue|
    ensures cuts[0] <= cuts[j] <= |queue| && stores[j] == SerialStore(queue, cuts[0], cuts[j], stores[0])
    decreases j
  {
    if j > 0 {
      var i := j - 1;
      AnySplitIsSerial(queue, cuts, cfgs, stores, i);
      assert OneBatch(queue, cuts[i], cuts[i + 1], cfgs[i], stores[i], stores[i + 1]);
      OneBatchIsSerial(queue, cuts[i], cuts[j], cfgs[i], stores[i], stores[j]);
      StepsAppend(queue, cuts[0], cuts[i], cuts[j]);
      AfterAppend(Steps(queue, cuts[0], cuts[i]), Steps(queue, cuts[i], cuts[j]), stores[0]);
    }
  }

  /** Two executions of the same queue from the same store end alike. */
  lemma ExecutionsAgree(
      queue: seq<Txn>, cuts: seq<nat>, cfgs: seq<Config>, stores: seq<Store>, cuts': seq<nat>, cfgs': seq<Config>, stores': seq<Store>)
    requires BatchedExecution(queue, cuts, cfgs, stores) && BatchedExecution(queue, cuts', cfgs', stores')
    requires cuts[0] == cuts'[0] && cuts[|cfgs|] == cuts'[|cfgs'|] <= |queue| && stores[0] == stores'[0]
    ensures stores[|cfgs|] == stores'[|cfgs'|]
  {
    AnySplitIsSerial(queue, cuts, cfgs, stores, |cfgs|);
    AnySplitIsSerial(queue, cuts', cfgs', stores', |cfgs'|);
  }
}
