# IMDB-D: Strong Execution Determinism, modelled and proved

IMDB-D promises Strong Execution Determinism (SED): a transaction queue is executed in parallel,
yet the outcome always equals a serial execution in the original queue order (README.md:2-4).
This project models the two deterministic batch schedulers of the repository (TPC-C and TATP),
the thread pool under their pooled variants, the populator that creates the first database, and
the storage engine below, and it proves that the promise is kept.

Check the whole project with `dafny verify dfyconfig.toml` (Dafny 4.11).

## How the model is built

**The store.** A database is a map from cells to values: a cell is a row, or the columns of a row
that one sub-transaction owns. The vectors through which the phases of a batch hand values to each
other (`d_next_o_id_vector`, `no_o_ids_vector`, `s_dists_vector`, `ol_amounts_vector`,
`c_ids_vector`, `sums_vector`, and the resolved subscriber ids of TATP) are cells too, one for each
transaction number and slot, so that "the store equals the serial store" also says that every
handed value is the serial one. The cells `Fault` are written when the code would fail an assertion
or write through a null record. In TATP each read writes what it saw into a cell of its own.

**The steps.** Each `*SubTxn*` (or its `Single` form) is one atomic step with an effect on the store
(`TpccModel.Effect`, `TatpModel.Effect`). The footprint of a step is dynamic: which order a
delivery touches depends on the id that it took.

**The argument.** `Replay` holds a trace-equivalence theorem whose steps need to be local only along
the *serial* run. `ForkJoin` holds a machine that spawns groups of threads, joins them, and rebuilds
buckets from a snapshot half way; it proves that any run ends as the serial run does, provided that
two dependent steps share a bucket or are separated by a join. `PoolExecution` shows that a thread pool with
any number of workers refines that machine. What is left for each benchmark is to show that dependent
steps are so separated. For TPC-C this needs a database invariant: an old order that a delivery
takes is never the order that a later New-Order of the same batch enters, because the NEW_ORDER
rows of a district are exactly the ids from the DISTRICT_NEW_ORDER row up to but excluding
`d_next_o_id`. `TpccInvariant`, `TpccDelivery`, `TpccNewOrder` and `TpccSerialRun` state
and prove the invariant over all serial runs; `TpccSchedule` and `TpccWholeRun` draw the conclusions.

**The imperative parts** are classes and loops, as in the source: `TpccSerialProcessor`,
`TatpSerialProcessor`, the batch cutting and bucket building of `TpccBatchProcessor` and
`TatpBatchProcessor`, `TpccPopulator`, `RecordLayout` (`Schema`, `Record`), `SlotTable` (`BaseTable`),
`TableIterator`, `SchemaTable` and `TpccPartitions`. Each method is proved against the step functions
or against a ghost view of its object.

| layer | files |
|---|---|
| generic scheduling | `Replay`, `ForkJoin`, `PoolExecution`, `ThreadPool` |
| TPC-C semantics and invariants | `TpccModel`, `TpccFootprint`, `TpccInvariant`, `TpccDelivery`, `TpccNewOrder`, `TpccOrderLines`, `TpccSerialRun`, `TpccTransactions`, `TpccMoney`, `TpccPopulator`, `TpccPartitions` |
| TPC-C schedulers | `TpccSchedule`, `TpccWholeRun`, `TpccPartitionedRun`, `TpccStages`, `TpccSerialProcessor`, `TpccBuckets`, `TpccBatchProcessor` |
| TATP | `TatpModel`, `TatpTransactions`, `TatpSchedule`, `TatpWholeRun`, `TatpSerialProcessor`, `TatpBatchProcessor` |
| storage | `RecordLayout`, `SlotTable`, `TableIterator`, `SchemaTable` |

## Main results

- **Strong Execution Determinism of TPC-C** (`TpccSchedule.StrongDeterminism`,
  `TpccWholeRun.PoolStrongDeterminism`): for every consistent database, every batch of valid
  transactions, every parallelism of at least one, every item hash and every interleaving, the final
  store, handed values and the order of history rows included, is that of the serial run.
- **At every moment of every interleaving** each handed value that exists is the serial one
  (`TpccWholeRun.HandoversAreSerial`) and no assertion has failed (`TpccWholeRun.NoAssertionFails`).
- **What a transaction is**, told row by row from the database it finds: New-Order (`TpccOrderLines.NewOrderLeaves`), Delivery
  (`TpccTransactions.DeliveryLeaves`), Payment (`TpccTransactions.PaymentLeaves`), and each TATP transaction (`TatpTransactions`).
- **No deadlock, and bounded runs**, on threads and on a pool (`TpccWholeRun.BatchFinishes`,
  `TpccWholeRun.PoolBatchFinishes`).
- **Cutting the queue does not matter**, nor does the choice between threads and a pool
  (`TpccWholeRun.AnySplitIsSerial`, `TpccWholeRun.ExecutionsAgree`, and the same in `TatpWholeRun`); the outer loop of
  the batch processor is such an execution, cut exactly where the batch timer runs out (`TpccBatchProcessor.BatchProcessor.Start`).
- **Partitioning does not matter**: step by step and batch by batch, the partitions stand for the unpartitioned
  database (`TpccPartitionedRun.StepOnPartitions`, `TpccPartitionedRun.BatchOnPartitions`).
- **The consistency conditions 3.3.2.1-3.3.2.3, 3.3.2.5, 3.3.2.6, 3.3.2.8, 3.3.2.9 and 3.3.2.12** of the TPC-C Standard
  Specification are kept by every serial run and every batch, and hold after population (those about
  money under the condition below).
- **Strong Execution Determinism of TATP** for every queue and store (`TatpSchedule.StrongDeterminism`), and exactly
  which queues write through a null record, serially and in every interleaving of a batch
  (`TatpSchedule.SerialFails`, `TatpSchedule.BatchFails`).
- **Population**: the first database holds exactly the rows of the drawing (`TpccPopulator.Populator.StartPopulate`).
- **Thread pool**: exactly once, first in first out, no lost wake-up, complete drain, and no refusal while the pool is open.
- **Storage**: allocation, iteration, record layout and index-scan agreement, the last with the exact condition
  under which each operation keeps it.

## Where a property holds only under a condition

Each of these is stated as an if-and-only-if, or with a concrete counterexample:

- An UpdateLocation with an unknown `sub_nbr` makes the code write through a null record;
  `TatpSchedule.SerialFails` and `TatpSchedule.BatchFails` say exactly which queues do so, serially and in a batch.
- `w_ytd` and `d_ytd` match the initial history rows if and only if there are 3000 customers in a
  district (or no warehouse): the populator scales the number of customers but not `INITIAL_W_YTD` and
  `INITIAL_D_YTD` (`TpccPopulator.DrawnMoney`).
- Partition table ids collide if and only if there are more than 100 partitions (`TpccPartitions.IdsCollide`).
- `SchemaTable` inserts keep the indexes right exactly if the primary key is new; deletes, exactly if no
  other live record shares a secondary key (a multi index erases all entries of a key); updates, exactly if no indexed column
  changes its value.
- A pool without workers accepts tasks and never starts them (`ThreadPool.NoWorkersNoWork`).

## Where the code and its description differ, or need reading

- A payment updates the customer of `w_id`, `d_id`, not of `c_w_id`, `c_d_id`
  (benchmark/tpcc/TpccBaseProcessor.cc:303); the model does the same.
- New-Order writes the entry date into OL_DELIVERY_D (benchmark/tpcc/TpccBaseProcessor.cc:260), so an order counts as
  delivered when its carrier id is not 0. `c_delivery_cnt` is never changed.
- The serial processor keeps taken orders in a map, the batch processor in a vector with -1 for "none".
  They agree because order ids are at least 1, which is part of the queue invariant.
- The serial processor runs the four stages of a delivery over all districts, and walks hash maps in an
  unspecified order. The step list of a delivery goes district by district instead;
  `TpccStages.StagesAreSerial` proves that both end in the same store, for any order of the walks.

## Model

| member | source | states |
|---|---|---|
| Replay.Swap | README.md:4 | two steps, neither of which writes what the other touches, can be exchanged: same store, and both still read what they read before |
| Replay.ReplayTheorem | README.md:4 | a rearrangement of a serial run in which no two dependent steps have changed places ends in the same store, with footprints known only along the serial run |
| ForkJoin.BucketFilters | benchmark/tpcc/TpccBatchProcessor.cc:78-103 | a bucket keeps the serial order and holds exactly the steps assigned to its thread |
| ForkJoin.Completion | benchmark/tpcc/TpccBatchProcessor.cc:105-312 | from every reachable state, running the missing steps in serial order leads to the serial result |
| ForkJoin.JoinKeeps | benchmark/tpcc/TpccBatchProcessor.cc:180-181 | passing a join keeps the invariant of the machine: all steps of the joined group have run |
| ForkJoin.BuildKeeps | benchmark/tpcc/TpccBatchProcessor.cc:210-237 | the snapshot from which the second round of buckets is built holds the serial values of the cells that the buckets depend on |
| ForkJoin.Determinism | README.md:4 | every complete run of a sound plan ends in the serial store, and runs every step of the batch exactly once |
| ForkJoin.NeverStuck | benchmark/tpcc/TpccBatchProcessor.cc:105-312 | until the main thread is through, some thread or the main thread can move |
| ForkJoin.RunIsBounded | benchmark/tpcc/TpccBatchProcessor.cc:105-312 | no run is longer than the instructions of the main thread plus the steps of the batch |
| ForkJoin.Completes | benchmark/tpcc/TpccBatchProcessor.cc:105-312 | every run can be continued to a finished one |
| ForkJoin.AnyThreadGoesOn | benchmark/tpcc/TpccBatchProcessor.cc:105-116 | nothing else is ordered: after any run, any thread that has steps left may be the next to go on |
| ForkJoin.MainGoesOn | benchmark/tpcc/TpccBatchProcessor.cc:105-181 | the main thread, too, may go on at any time, unless it joins a group that has steps left |
| PoolExecution.PoolRefines | benchmark/tpcc/TpccTPBatchProcessor.cc:105-312 | every run on a pool with any number of workers follows a run of freely spawned threads with the same buckets |
| PoolExecution.PoolDeterminism | benchmark/tpcc/TpccTPBatchProcessor.cc:105-312 | every complete pool run of a sound plan ends in the serial store |
| PoolExecution.PoolNeverStuck | common/ThreadPool.h:16-38 | with at least one worker no reachable state of a pool run is stuck before its end, although workers are shared and the queue is first in first out |
| PoolExecution.PoolRunIsBounded | benchmark/tpcc/TpccTPBatchProcessor.cc:105-312 | no pool run is longer than the instructions, three steps for each thread (enqueued, begun, completed) and the steps of the batch, whatever the number of workers |
| PoolExecution.PoolCompletes | benchmark/tpcc/TpccTPBatchProcessor.cc:105-312 | with a worker every pool run can be continued to a finished one |
| PoolExecution.PoolMainGoesOn | benchmark/tpcc/TpccTPBatchProcessor.cc:105-312 | the main thread enqueues the tasks of a group one by one at the end of the queue, and waits only at a join, for its own group |
| PoolExecution.AnyWorkerBegins | common/ThreadPool.h:24-31 | after any pool run, any idle worker may take the first waiting task |
| PoolExecution.AnyWorkerGoesOn | common/ThreadPool.h:33 | after any pool run, any busy worker may run the next step of its task |
| ThreadPool.KeepsFifo | common/ThreadPool.h:29-30 | every event keeps: accepted tasks are the started ones followed by the waiting ones, in that order |
| ThreadPool.KeepsOnce | common/ThreadPool.h:24-33 | every event keeps: each task was started as often as it is running or finished |
| ThreadPool.KeepsWakeUps | common/ThreadPool.h:25-58 | every event keeps: while a worker sleeps, each waiting task is matched by a pending notification or an awake worker |
| ThreadPool.KeepsDraining | common/ThreadPool.h:26-67 | every event keeps: a worker has left only after the stop and with an empty queue, and nobody sleeps once all are notified |
| ThreadPool.Reachable | common/ThreadPool.h:16-70 | all four invariants hold after every possible sequence of events |
| ThreadPool.ExactlyOnceFifo | common/ThreadPool.h:40-60 | in every run tasks start in the order in which they were accepted, and each accepted one is waiting, running at one worker, or finished, once |
| ThreadPool.EnqueueDecided | common/ThreadPool.h:49-57 | in every run a call to enqueue is accepted only before the stop and rejected only after it, and at any moment exactly one of the two can happen |
| ThreadPool.LookingWorkerMoves | common/ThreadPool.h:25-31 | a worker that holds the lock takes a task if one waits, sleeps if none does and the pool is open, and leaves if none does and it was stopped: exactly one of the three |
| ThreadPool.AnySleeperWakes | common/ThreadPool.h:58 | a notification may wake any sleeping worker and is lost only if nobody sleeps; a sleeper may also wake without one |
| ThreadPool.WaitingTaskMovesOn | common/ThreadPool.h:24-33 | while a task waits the pool can move by itself: there is no lost wake-up |
| ThreadPool.ExitMeansDone | common/ThreadPool.h:62-70 | when all workers have left, every accepted task has been finished exactly once |
| ThreadPool.NoWorkersNoWork | common/ThreadPool.h:16-18 | a pool of zero workers accepts a task, shuts down, and never runs it |
| ThreadPool.ShutdownEnds | common/ThreadPool.h:62-70 | after notify_all only boundedly many events are possible, rejected calls apart, and when no worker can move all have left |
| TpccFootprint.TxnStepsListed | benchmark/tpcc/TpccSerialProcessor.cc:37-63 | the step list of a transaction is in serial order and holds exactly its sub-transactions |
| TpccFootprint.StepsListed | benchmark/tpcc/TpccSerialProcessor.cc:13-29 | the step list of a stretch of the queue is in serial order and holds exactly the steps of its transactions |
| TpccFootprint.StepLocal | benchmark/tpcc/TpccBaseProcessor.cc:6-312 | a step that gets the handed values of the serial run changes only its write set, and its effect depends only on its touch set |
| TpccDelivery.ServeSteps | benchmark/tpcc/TpccBaseProcessor.cc:27-116 | the four steps of a delivery for a waiting order fail no assertion, and each leaves the stated rows |
| TpccDelivery.ServedConsistent | benchmark/tpcc/TpccBaseProcessor.cc:27-116 | serving a waiting order keeps the queue, order and balance conditions of every district |
| TpccDelivery.ServeOne | benchmark/tpcc/TpccBaseProcessor.cc:27-116 | a delivery in one district, waiting order or not, keeps the database consistent and takes an id below d_next_o_id |
| TpccDelivery.DistrictServed | benchmark/tpcc/TpccBaseProcessor.cc:27-116 | an empty queue changes nothing; otherwise the oldest order leaves the queue, gets carrier and delivery date, and its customer is credited the sum of its lines |
| TpccTransactions.PaymentLeaves | benchmark/tpcc/TpccBaseProcessor.cc:270-312 | a whole payment: warehouse, district and history receive the amount, the customer's balance falls and its payments grow by it, the payment is counted, and no other row changes |
| TpccTransactions.DeliveryLeaves | benchmark/tpcc/TpccBaseProcessor.cc:6-116 | a whole delivery: in each of the ten districts of its warehouse the oldest waiting order, if there is one, is delivered and nothing else of the district changes; no row of any other warehouse or table changes |
| TpccNewOrder.ItemLoops | benchmark/tpcc/TpccBaseProcessor.cc:163-242 | the stock and price loops find every row they need and leave all district rows alone |
| TpccNewOrder.EnterConsistent | benchmark/tpcc/TpccBaseProcessor.cc:118-268 | a whole New-Order fails no assertion, keeps the database consistent and takes the next order id |
| TpccOrderLines.LoopsHand | benchmark/tpcc/TpccBaseProcessor.cc:163-242 | the district text and the amount of each line are those of the store before the loops, even if an item occurs twice |
| TpccOrderLines.StockTaken | benchmark/tpcc/TpccBaseProcessor.cc:163-195 | the stock loop changes every stock row exactly by what the lines take from it: s_ytd by the ordered quantities, s_order_cnt by the number of lines, s_remote_cnt by that number if the supplier is another warehouse and not at all otherwise; a row that no line names stays |
| TpccOrderLines.NewOrderLeaves | benchmark/tpcc/TpccBaseProcessor.cc:118-268 | a New-Order leaves d_next_o_id one higher, the ORDER row with no carrier and o_all_local true exactly if every supplier is local, the waiting order, exactly the lines 1..ol_cnt with item, supplier, quantity, price times quantity and district text, every stock row changed as above, and no other row changed |
| TpccSerialRun.DeliverAll | benchmark/tpcc/TpccSerialProcessor.cc:37-45 | a delivery over all districts keeps the database consistent and takes only ids below d_next_o_id |
| TpccSerialRun.PayOne | benchmark/tpcc/TpccBaseProcessor.cc:270-312 | a payment finds its rows; amounts go to warehouse, district and history, and the customer's balance and payments move by the same amount |
| TpccSerialRun.PaidConsistent | benchmark/tpcc/TpccBaseProcessor.cc:270-312 | a payment keeps the database consistent (clause 3.3.2.12 included) |
| TpccSerialRun.TxnKeeps | benchmark/tpcc/TpccSerialProcessor.cc:37-63 | every valid transaction keeps the database consistent and fails no assertion |
| TpccSerialRun.HandoversStay | benchmark/tpcc/TpccSerialProcessor.cc:37-63 | what a transaction handed over is not changed by later transactions |
| TpccSerialRun.SerialKeeps | benchmark/tpcc/TpccSerialProcessor.cc:13-29 | every serial run of valid transactions from a consistent database is consistent at each transaction end, and all its steps are local |
| TpccSerialRun.TakenOlderThanEntered | benchmark/tpcc/TpccBatchProcessor.cc:105-306 | over a whole serial run, the order that a delivery takes is older than any order that a later New-Order enters in that district |
| TpccSchedule.MeetingAtOrder | benchmark/tpcc/TpccBatchProcessor.cc:239-282 | steps that meet at an ORDER row or its lines are ordered by a bucket or a join, although all inserts run before all deliveries |
| TpccSchedule.MeetingAtRow | benchmark/tpcc/TpccBatchProcessor.cc:78-103 | steps that meet at a stock, district, customer, queue or history row share a bucket or are joined in serial order |
| TpccSchedule.MeetingAtHandover | benchmark/tpcc/TpccBatchProcessor.cc:119-282 | steps of one transaction that meet at a handed value are ordered by the joins |
| TpccSchedule.MeetingIsForced | benchmark/tpcc/TpccBatchProcessor.cc:105-312 | any two dependent steps of a batch run in serial order in every interleaving |
| TpccSchedule.BatchCodeFits | benchmark/tpcc/TpccBatchProcessor.cc:105-312 | the spawns, joins and the second bucket round stand in the order of the code |
| TpccSchedule.DistrictsInTurn | benchmark/tpcc/ScaleParams.h:23-25 | the districts, warehouse by warehouse, are dealt to the threads in turn |
| TpccSchedule.StockNumbersDiffer | benchmark/tpcc/TpccBatchProcessor.cc:98 | the number that is hashed for a stock row tells item and warehouse |
| TpccSchedule.SerialTakesOlder | benchmark/tpcc/TpccBatchProcessor.cc:105-306 | for every batch input the serial run takes older orders than it enters later |
| TpccSchedule.BatchIsSound | benchmark/tpcc/TpccBatchProcessor.cc:70-313 | processBatch is a sound fork-join plan for every consistent database and valid batch |
| TpccSchedule.StrongDeterminism | benchmark/tpcc/TpccBatchProcessor.cc:70-313 | SED: every interleaving of a batch ends in the store of the serial queue order, and that store is consistent |
| TpccWholeRun.HandoversAreSerial | benchmark/tpcc/TpccBatchProcessor.cc:105-306 | at every moment of every interleaving, a value handed between phases is the one of the serial run |
| TpccWholeRun.AnySplitIsSerial | benchmark/tpcc/TpccBatchProcessor.cc:12-51 | any split of the queue into batches, each with its own parallelism and each on threads or on a pool, ends every batch in the serial store and a consistent database |
| TpccWholeRun.ExecutedOn | benchmark/tpcc/TpccBatchProcessor.cc:35-36 | an execution of batches followed by one more batch is an execution of batches |
| TpccWholeRun.ExecutionsAgree | benchmark/tpcc/TpccBatchProcessor.cc:12-51 | two executions with different splits, parallelism, interleavings and choices between threads and pools end in the same database |
| TpccWholeRun.NoAssertionFails | benchmark/tpcc/TpccBaseProcessor.cc:6-268 | in no state of any interleaving has an assertion of a sub-transaction failed |
| TpccWholeRun.PoolStrongDeterminism | benchmark/tpcc/TpccTPBatchProcessor.cc:70-313 | SED for the pooled variant, with any number of workers |
| TpccWholeRun.BatchFinishes | benchmark/tpcc/TpccBatchProcessor.cc:105-312 | a batch run that is not done can go on, and runs are bounded |
| TpccWholeRun.BatchCanRun | benchmark/tpcc/TpccBatchProcessor.cc:70-313 | every batch of valid transactions on a consistent database has a finished run |
| TpccWholeRun.PoolBatchFinishes | benchmark/tpcc/TpccTPBatchProcessor.cc:105-312 | a pooled batch with at least one worker that is not done can go on, and its runs are bounded |
| TpccStages.RearrangedDelivery | benchmark/tpcc/TpccSerialProcessor.cc:37-45 | any order of a delivery's performed steps that keeps the order within each district ends in the same store |
| TpccStages.StagesAreSerial | benchmark/tpcc/TpccSerialProcessor.cc:37-45 | stage by stage over all districts, each map walked in any order, equals district by district |
| TpccSerialProcessor.LinesHanded | benchmark/tpcc/TpccBaseProcessor.cc:244-268 | rows built from the passed vectors are the rows built from the handed cells |
| TpccSerialProcessor.SerialProcessor.DeliverySubTxn1Single | benchmark/tpcc/TpccBaseProcessor.cc:27-44 | takes the oldest order if its NEW_ORDER row exists, deletes the row and advances the DISTRICT_NEW_ORDER row; otherwise nothing |
| TpccSerialProcessor.SerialProcessor.DeliverySubTxn2Single | benchmark/tpcc/TpccBaseProcessor.cc:62-73 | stamps every line of the order and returns the sum of the amounts |
| TpccSerialProcessor.SerialProcessor.DeliverySubTxn3Single | benchmark/tpcc/TpccBaseProcessor.cc:88-96 | sets the carrier and returns the customer of the order |
| TpccSerialProcessor.SerialProcessor.DeliverySubTxn4Single | benchmark/tpcc/TpccBaseProcessor.cc:109-116 | credits the sum to the customer |
| TpccSerialProcessor.SerialProcessor.NewOrderSubTxn4Single | benchmark/tpcc/TpccBaseProcessor.cc:196-224 | updates one stock row and returns the text of the district |
| TpccSerialProcessor.SerialProcessor.NewOrderSubTxn5Single | benchmark/tpcc/TpccBaseProcessor.cc:236-242 | returns the amount of one line |
| TpccSerialProcessor.SerialProcessor.DeliverySubTxn1 | benchmark/tpcc/TpccBaseProcessor.cc:6-25 | the loop over districts leaves the store of stage 1, and the map holds exactly the districts with a taken order |
| TpccSerialProcessor.SerialProcessor.DeliverySubTxn2 | benchmark/tpcc/TpccBaseProcessor.cc:46-60 | the walk over the map leaves the store of stage 2, with one sum for each taken order |
| TpccSerialProcessor.SerialProcessor.DeliverySubTxn3 | benchmark/tpcc/TpccBaseProcessor.cc:75-86 | the walk over the map leaves the store of stage 3, with one customer for each taken order |
| TpccSerialProcessor.SerialProcessor.DeliverySubTxn4 | benchmark/tpcc/TpccBaseProcessor.cc:98-107 | the walk over the map leaves the store of stage 4 |
| TpccSerialProcessor.SerialProcessor.NewOrderSubTxn1 | benchmark/tpcc/TpccBaseProcessor.cc:118-127 | returns d_next_o_id and increments it in the row |
| TpccSerialProcessor.SerialProcessor.NewOrderSubTxn2 | benchmark/tpcc/TpccBaseProcessor.cc:129-149 | inserts the ORDER row; the loop computes whether all suppliers are local |
| TpccSerialProcessor.SerialProcessor.NewOrderSubTxn3 | benchmark/tpcc/TpccBaseProcessor.cc:151-161 | inserts the NEW_ORDER row |
| TpccSerialProcessor.SerialProcessor.NewOrderSubTxn4 | benchmark/tpcc/TpccBaseProcessor.cc:163-194 | the loop runs the stock steps in order, with one text for each item |
| TpccSerialProcessor.SerialProcessor.NewOrderSubTxn5 | benchmark/tpcc/TpccBaseProcessor.cc:226-234 | the loop runs the price steps in order, with one amount for each item |
| TpccSerialProcessor.SerialProcessor.NewOrderSubTxn6 | benchmark/tpcc/TpccBaseProcessor.cc:244-268 | the loop inserts the lines under the order's key, numbered from 1 |
| TpccSerialProcessor.SerialProcessor.PaymentSubTxn1 | benchmark/tpcc/TpccBaseProcessor.cc:270-274 | adds the amount to w_ytd and changes nothing else |
| TpccSerialProcessor.SerialProcessor.PaymentSubTxn2 | benchmark/tpcc/TpccBaseProcessor.cc:276-282 | adds the amount to d_ytd and changes nothing else |
| TpccSerialProcessor.SerialProcessor.PaymentSubTxn3 | benchmark/tpcc/TpccBaseProcessor.cc:284-299 | appends one history row |
| TpccSerialProcessor.SerialProcessor.PaymentSubTxn4 | benchmark/tpcc/TpccBaseProcessor.cc:301-312 | moves the amount from the balance to the payments of the customer and counts the payment |
| TpccSerialProcessor.SerialProcessor.ProcessDelivery | benchmark/tpcc/TpccSerialProcessor.cc:37-45 | the four stages together are the serial step list of a delivery |
| TpccSerialProcessor.SerialProcessor.ProcessNewOrder | benchmark/tpcc/TpccSerialProcessor.cc:47-56 | the six sub-transactions together are the serial step list of a New-Order |
| TpccSerialProcessor.SerialProcessor.ProcessPayment | benchmark/tpcc/TpccSerialProcessor.cc:58-63 | the four sub-transactions together are the serial step list of a payment |
| TpccSerialProcessor.SerialProcessor.Start | benchmark/tpcc/TpccSerialProcessor.cc:7-35 | the pop loop leaves the store of the serial run of the whole queue, counts all transactions, and ends consistent |
| TpccBuckets.VectorsGrow | benchmark/tpcc/TpccBatchProcessor.cc:17-33 | the next position of a parameter vector is where start pushed the transaction at hand, and stays so |
| TpccBuckets.StockBucket | benchmark/tpcc/TpccBatchProcessor.cc:97-118 | the item entries of a New-Order for a thread, executed, are that thread's stock steps in order |
| TpccBuckets.PriceBucket | benchmark/tpcc/TpccBatchProcessor.cc:97-148 | the same entries, executed by the price threads, are their price steps in order |
| TpccBuckets.DeliveryBucket | benchmark/tpcc/TpccBatchProcessor.cc:82-89 | the district entries of a delivery are the steps of the thread; in the second round, of the districts with a taken order only |
| TpccBuckets.NewOrderBucket | benchmark/tpcc/TpccBatchProcessor.cc:90-102 | the entries of a New-Order for each group and thread are exactly the steps that the plan deals there |
| TpccBuckets.PaymentBucket | benchmark/tpcc/TpccBatchProcessor.cc:150-178 | the same for a payment |
| TpccBuckets.TxnBucket | benchmark/tpcc/TpccBatchProcessor.cc:80-103 | the same for any transaction: each position counter indexes the parameter of its own transaction |
| TpccBuckets.EntriesAreDealt | benchmark/tpcc/TpccBatchProcessor.cc:78-237 | over the whole batch, the buckets executed entry by entry are the order-preserving filters of the serial step list |
| TpccBatchProcessor.BatchProcessor.FillBatch | benchmark/tpcc/TpccBatchProcessor.cc:17-33 | the pop loop files a stretch of the queue into the vectors by kind; it ends at the first tuple after which the batch timer is up, or at the end marker with the timer still running |
| TpccBatchProcessor.BatchProcessor.ClearBatch | benchmark/tpcc/TpccBatchProcessor.cc:51-58 | all vectors are empty for the next batch |
| TpccBatchProcessor.BatchProcessor.ProcessBatch | benchmark/tpcc/TpccBatchProcessor.cc:70-313 | the threads of one batch take the database along some finished interleaving |
| TpccBatchProcessor.BatchProcessor.OneBatchMore | benchmark/tpcc/TpccBatchProcessor.cc:13-42 | one round pops a stretch of the queue that ends so, processes exactly that stretch as a batch, and clears the vectors |
| TpccBatchProcessor.BatchProcessor.Start | benchmark/tpcc/TpccBatchProcessor.cc:6-49 | the batches are consecutive, cover the queue, each ends at the first place where its timer is up (the last one at the end of the queue), and each is processed; the database ends as the serial run of the whole queue leaves it, and consistent |
| TpccBatchProcessor.CutsDetermined | benchmark/tpcc/TpccBatchProcessor.cc:13-42 | the timer alone decides where a queue is cut |
| TpccBatchProcessor.BatchProcessor.BucketItems | benchmark/tpcc/TpccBatchProcessor.cc:97-100 | each item lands in the one bucket of its stock row, in order |
| TpccBatchProcessor.BatchProcessor.BucketDistricts | benchmark/tpcc/TpccBatchProcessor.cc:85-88 | each district lands in the one bucket of its offset, in order; in the second round, if an order was taken |
| TpccBatchProcessor.BatchProcessor.BuildEarlyBuckets | benchmark/tpcc/TpccBatchProcessor.cc:71-103 | the first loop fills the three bucket arrays with the entries of the batch and one row of -1 for each delivery |
| TpccBatchProcessor.BatchProcessor.BuildLateBuckets | benchmark/tpcc/TpccBatchProcessor.cc:210-237 | the second loop fills the two bucket arrays from the taken order ids |
| TpccBatchProcessor.SharedBucket | benchmark/tpcc/TpccBatchProcessor.cc:141-282 | buckets that two groups of threads share hold the right entries for both |
| TpccBatchProcessor.PaymentLoops | benchmark/tpcc/TpccBatchProcessor.cc:150-178 | looping over the payment vector is the bucket of a payment thread |
| TpccBatchProcessor.EarlyBucketsDeal | benchmark/tpcc/TpccBatchProcessor.cc:78-201 | every thread spawned from the first buckets runs exactly the steps that the plan deals to it |
| TpccBatchProcessor.LateBucketsDeal | benchmark/tpcc/TpccBatchProcessor.cc:215-306 | every thread spawned from the second buckets runs exactly the steps that the plan deals to it |
| TpccBatchProcessor.FirstRowsShow | benchmark/tpcc/TpccBatchProcessor.cc:84 | rows of -1 describe a store in which no delivery of the batch has taken an order |
| TpccMoney.PaidMoney | benchmark/tpcc/TpccBaseProcessor.cc:270-299 | a payment keeps w_ytd, the sum of d_ytd and the sums of h_amount equal |
| TpccMoney.TxnKeepsMoney | benchmark/tpcc/TpccBaseProcessor.cc:270-299 | every transaction keeps clauses 3.3.2.1, 3.3.2.8 and 3.3.2.9 |
| TpccMoney.SerialKeepsMoney | benchmark/tpcc/TpccSerialProcessor.cc:13-29 | every serial run keeps them |
| TpccMoney.BatchKeepsMoney | benchmark/tpcc/TpccBatchProcessor.cc:70-313 | every interleaving of every batch keeps them |
| TpccMoney.QuantityWraps | benchmark/tpcc/TpccBaseProcessor.cc:174-178 | the branch keeps s_quantity in 10..100 and in step with a counter modulo 91 |
| TpccMoney.AfterKeepsStock | benchmark/tpcc/TpccBaseProcessor.cc:163-224 | after any sequence of steps s_quantity is 10 + ((q0 - s_ytd - 10) mod 91), whatever the order of the lines |
| TpccMoney.BatchKeepsStock | benchmark/tpcc/TpccBatchProcessor.cc:105-118 | this holds at every moment of every interleaving |
| TpccPopulator.NothingDelivered | benchmark/tpcc/TpccPopulator.cc:211-230 | the delivered orders of a fresh district cost nothing |
| TpccPopulator.FreshDistrict | benchmark/tpcc/TpccPopulator.cc:48-91 | a populated district satisfies the queue, order and balance conditions |
| TpccPopulator.DrawnIsConsistent | benchmark/tpcc/TpccPopulator.cc:34-103 | a database that holds exactly the rows of a drawing is consistent, obeys the stock law, and holds no handed value |
| TpccPopulator.DrawnMoney | benchmark/tpcc/TpccPopulator.cc:117-139 | the money conditions hold after population if and only if there are 3000 customers in a district, or no warehouse |
| TpccPopulator.PaymentsListed | benchmark/tpcc/TpccPopulator.cc:62-64 | the history holds the first payment of each customer, and no other row |
| TpccPopulator.Populator.InsertOrderLines | benchmark/tpcc/TpccPopulator.cc:211-230 | exactly olCnt lines: line l has number l, the drawn item and district text, the own warehouse as supplier and quantity 5; delivery date -1 and the drawn amount if the order is new, the drawn date and amount 0 otherwise |
| TpccPopulator.Populator.InsertOneOrder | benchmark/tpcc/TpccPopulator.cc:72-91 | one more order with its lines as drawn; without carrier and queued exactly if it is among the last; nothing else of the database changes |
| TpccPopulator.Populator.InsertCustomers | benchmark/tpcc/TpccPopulator.cc:56-65 | the customers 1..n and no others have rows, with the initial balance, and the history grows by their first payments in order |
| TpccPopulator.Populator.InsertDistrict | benchmark/tpcc/TpccPopulator.cc:48-92 | a district with exactly the rows of the drawing; outside it only the history grows |
| TpccPopulator.Populator.InsertStocks | benchmark/tpcc/TpccPopulator.cc:94-101 | the items 1..n and no others have a stock row, with the drawn quantity and texts and counters at 0 |
| TpccPopulator.Populator.InsertWarehouse | benchmark/tpcc/TpccPopulator.cc:44-102 | a whole warehouse with exactly the rows of the drawing; outside it only the history grows |
| TpccPopulator.Populator.StartPopulate | benchmark/tpcc/TpccPopulator.cc:34-103 | for every drawing in range, the database ends with exactly the rows that the drawing describes, cell by cell, and is consistent |
| TpccPartitions.IdsCollide | benchmark/tpcc/TpccConstants.h:15-22 | the partition table ids are distinct if and only if there are at most 100 partitions |
| TpccPartitions.PartitionsInTurn | benchmark/tpcc/TpccBaseProcessor.cc:16 | the districts, warehouse by warehouse, go to the partitions in turn |
| TpccPartitions.LookupIsWhole | benchmark/tpcc/TpccBaseProcessor.cc:16-17 | looking a key up in its partition is looking it up in all rows together |
| TpccPartitions.PutIsWhole | benchmark/tpcc/TpccBaseProcessor.cc:146-147 | writing into the partition of the key is writing into all rows together |
| TpccPartitions.DeleteIsWhole | benchmark/tpcc/TpccBaseProcessor.cc:16-20 | deleting from the partition of the key is deleting from all rows together |
| TpccPartitions.PartitionedTable.Select | benchmark/tpcc/TpccBaseProcessor.cc:79-80 | the partitioned table answers as the single one |
| TpccPartitions.PartitionedTable.Put | benchmark/tpcc/TpccBaseProcessor.cc:158-159 | the partitioned table is written as the single one |
| TpccPartitions.PartitionedTable.Delete | benchmark/tpcc/TpccBaseProcessor.cc:16-20 | the partitioned table is deleted from as the single one |
| TpccPartitionedRun.SeesOnlyItsSite | benchmark/tpcc/TpccBaseProcessor.cc:6-312 | a step does the same on any two stores that agree outside the partitioned tables and in the partition of its own district |
| TpccPartitionedRun.StepOnPartitions | benchmark/tpcc/TpccBaseProcessor.cc:6-312 | every step, looking only into the partition that the code computes for it, changes the partitions as it changes the unpartitioned database |
| TpccPartitionedRun.RunOnPartitions | benchmark/tpcc/TpccBaseProcessor.cc:6-312 | the same for every sequence of steps |
| TpccPartitionedRun.BatchOnPartitions | benchmark/tpcc/TpccBatchProcessor.cc:70-313 | every interleaving of a batch on partitioned tables ends in partitions that together are the serial store |
| TatpModel.StepsListed | benchmark/tatp/TatpSerialProcessor.cc:12-33 | the step list of a stretch of the queue is in serial order and holds exactly the steps of its transactions |
| TatpModel.StepLocal | benchmark/tatp/TatpBaseProcessor.cc:6-79 | a step that gets the serial subscriber id changes only its write set and depends only on its touch set |
| TatpTransactions.DeletesForwarding | benchmark/tatp/TatpBaseProcessor.cc:14-21 | a DeleteCallForwarding leaves no row of that facility and start time for the subscriber of the number, keeps all its others, and changes nothing else |
| TatpTransactions.InsertsForwarding | benchmark/tatp/TatpBaseProcessor.cc:43-60 | an InsertCallForwarding leaves the row of that facility and start time with the given end time and number, unless there was one, which then stays; it has read the facilities of the subscriber, keeps all other rows, and changes nothing else |
| TatpTransactions.MovesSubscriber | benchmark/tatp/TatpSerialProcessor.cc:64-67 | an UpdateLocation sets the location of the subscriber of the number and keeps its other column, or fails if there is none; nothing else changes |
| TatpTransactions.UpdatesSubscriber | benchmark/tatp/TatpBaseProcessor.cc:66-79 | an UpdateSubscriberData sets bit_1 if the subscriber exists and data_a if the facility exists, and changes nothing else |
| TatpTransactions.ReadsSee | benchmark/tatp/TatpBaseProcessor.cc:23-36 | GetAccessData and GetSubscriberData see the row that is there, or that there is none, and change nothing; GetNewDestination does nothing |
| TatpSchedule.TxnFails | benchmark/tatp/TatpBaseProcessor.cc:61-64 | a transaction writes through a null record if and only if it updates the location of an unknown number |
| TatpSchedule.SerialFails | benchmark/tatp/TatpSerialProcessor.cc:64-67 | a serial run writes through a null record if and only if some number used by an UpdateLocation is unknown at the start |
| TatpSchedule.CodeFits | benchmark/tatp/TatpBatchProcessor.cc:87-250 | the spawns, joins and the bucket building stand in the order of the code |
| TatpSchedule.MeetingIsForced | benchmark/tatp/TatpBatchProcessor.cc:152-250 | any two dependent steps share a bucket or are separated by the resolution joins |
| TatpSchedule.BatchIsSound | benchmark/tatp/TatpBatchProcessor.cc:82-251 | processBatch is a sound fork-join plan for any subscriber hash |
| TatpSchedule.StrongDeterminism | benchmark/tatp/TatpBatchProcessor.cc:82-251 | SED for TATP, for every queue and store: every interleaving ends in the serial store, every read saw what it sees serially, and the same writes went through a null record |
| TatpSchedule.BatchFails | benchmark/tatp/TatpBatchProcessor.cc:208-210 | a finished batch has written through a null record, in every interleaving alike, if and only if some number used by an UpdateLocation is unknown |
| TatpSchedule.PoolStrongDeterminism | benchmark/tatp/TatpTPBatchProcessor.cc:82-251 | the same for the pooled variant, with any number of workers |
| TatpWholeRun.AnySplitIsSerial | benchmark/tatp/TatpBatchProcessor.cc:12-51 | any split of the queue into batches, each on threads or on a pool, ends every batch in the serial store |
| TatpWholeRun.ExecutionsAgree | benchmark/tatp/TatpBatchProcessor.cc:12-51 | two executions with different splits, parallelism and interleavings end in the same store |
| TatpSerialProcessor.SerialProcessor.GetSubscriberId | benchmark/tatp/TatpBaseProcessor.cc:6-12 | the id of the number, or -1 |
| TatpSerialProcessor.SerialProcessor.DeleteCallForwardingRecord | benchmark/tatp/TatpBaseProcessor.cc:14-21 | deletes the row if there is one |
| TatpSerialProcessor.SerialProcessor.GetAccessInfo | benchmark/tatp/TatpBaseProcessor.cc:23-28 | reads the row and changes no table |
| TatpSerialProcessor.SerialProcessor.ReadSubscriberData | benchmark/tatp/TatpBaseProcessor.cc:34-36 | reads the row and changes no table |
| TatpSerialProcessor.SerialProcessor.GetSpecialFacilitySFType | benchmark/tatp/TatpBaseProcessor.cc:38-41 | reads the rows of the subscriber and changes no table |
| TatpSerialProcessor.SerialProcessor.InsertCallForwardingRecord | benchmark/tatp/TatpBaseProcessor.cc:43-60 | inserts the row if there is none |
| TatpSerialProcessor.SerialProcessor.UpdateSubscriberVLRLocation | benchmark/tatp/TatpBaseProcessor.cc:61-64 | changes the location of an existing subscriber |
| TatpSerialProcessor.SerialProcessor.UpdateSubscriberBit1 | benchmark/tatp/TatpBaseProcessor.cc:66-70 | changes bit_1 if the subscriber exists |
| TatpSerialProcessor.SerialProcessor.UpdateSpecialFacilityDataA | benchmark/tatp/TatpBaseProcessor.cc:72-79 | changes data_a if the row exists |
| TatpSerialProcessor.SerialProcessor.Process | benchmark/tatp/TatpSerialProcessor.cc:41-72 | the calls for a transaction are its serial step list |
| TatpSerialProcessor.SerialProcessor.Start | benchmark/tatp/TatpSerialProcessor.cc:6-39 | the pop loop leaves the store of the serial run of the whole queue and counts all transactions |
| TatpBatchProcessor.NumbersGrow | benchmark/tatp/TatpBatchProcessor.cc:17-41 | the next position of a parameter vector is that of the transaction at hand, and stays so |
| TatpBatchProcessor.TxnBucket | benchmark/tatp/TatpBatchProcessor.cc:178-238 | the plan deals to a thread of a family exactly one step of each transaction whose subscriber hashes there |
| TatpBatchProcessor.KeyIsResolved | benchmark/tatp/TatpBatchProcessor.cc:157-173 | the id found at the position counter is the id resolved for that transaction |
| TatpBatchProcessor.EntriesAreDealt | benchmark/tatp/TatpBatchProcessor.cc:152-238 | the buckets of a family, executed entry by entry, are the order-preserving filters of the serial step list |
| TatpBatchProcessor.BucketsDeal | benchmark/tatp/TatpBatchProcessor.cc:147-238 | every thread of the three families runs exactly the steps that the plan deals to it |
| TatpBatchProcessor.StridesDeal | benchmark/tatp/TatpBatchProcessor.cc:87-138 | with each transaction at its place in its parameter vector, what a thread of id resolution or of the access reads does at the positions t, t + kParallelism, ... is what the plan deals to it |
| TatpBatchProcessor.BatchProcessor.ResolveStride | benchmark/tatp/TatpBatchProcessor.cc:92-94 | thread t visits exactly the positions congruent to t, in order, and resolves those and no others |
| TatpBatchProcessor.BatchProcessor.AccessStride | benchmark/tatp/TatpBatchProcessor.cc:131-134 | thread t of the access reads visits exactly those positions, in order, and reads what is there |
| TatpBatchProcessor.BatchProcessor.Append | benchmark/tatp/TatpBatchProcessor.cc:157 | one entry goes to the one bucket of its subscriber |
| TatpBatchProcessor.BatchProcessor.Round | benchmark/tatp/TatpBatchProcessor.cc:154-176 | one transaction extends the three families by its own entries |
| TatpBatchProcessor.BatchProcessor.BuildBuckets | benchmark/tatp/TatpBatchProcessor.cc:147-176 | the loop fills the three families with the entries of the whole batch |
| RecordLayout.Tiles | storage/Schema.cc:6-18 | every byte of a record lies in exactly one column |
| RecordLayout.OneColumnWritten | storage/Record.cc:18-36 | copying a value into one column puts its bytes there, keeps the bytes behind a short value, and changes no other column |
| RecordLayout.JoinedWidth | storage/Schema.cc:94-105 | the joined predicate values are as long as the key |
| RecordLayout.KeyMatches | storage/Record.cc:88-99 | the key string of a record equals the joined predicate values if and only if every key column equals its value |
| RecordLayout.Schema.InsertColumn | storage/Schema.cc:6-18 | the new column starts where the record ended; earlier columns stay; it joins the primary key, with its size, exactly if it is primary |
| RecordLayout.PrimariesListed | storage/Schema.cc:9-15 | the primary key is exactly the columns declared primary, each once, in their order |
| RecordLayout.Schema.GetKeyLength | storage/Schema.cc:71-76 | the sum of the sizes of the key columns |
| RecordLayout.Record.SetColumn | storage/Record.cc:18-36 | in place: the column holds the value, all other columns read as before |
| RecordLayout.Record.GetColumn | storage/Record.cc:38-59 | exactly the bytes of the column |
| RecordLayout.Record.GetKeySymbol | storage/Record.cc:88-99 | the concatenation of the key columns, whatever their order |
| SlotTable.TakesUnused | storage/BaseTable.cc:50-53 | taking the next unused slot takes a free one and keeps free list and slots in step |
| SlotTable.TakesFreed | storage/BaseTable.cc:46-49 | taking the head of the free list takes a free one and keeps them in step |
| SlotTable.GivesBack | storage/BaseTable.cc:62-67 | a deleted slot joins the free list once |
| SlotTable.OneMoreBlock | storage/BaseTable.cc:69-75 | a new block adds unused slots only |
| SlotTable.BaseTable.AllocateNextBlock | storage/BaseTable.cc:69-75 | no live record changes, and the whole new block is unused |
| SlotTable.BaseTable.InsertRecord | storage/BaseTable.cc:38-60 | the address held no live record, holds the new one, and no other live record changes; the slot freed longest ago is used first, and the table grows, by one block, only if every slot holds a live record |
| SlotTable.BaseTable.DeleteRecord | storage/BaseTable.cc:62-67 | exactly this record is gone, and its slot is the last in the free list |
| SlotTable.BaseTable.OverwriteRecord | storage/SchemaTable.cc:78-83 | exactly this record has new bytes |
| TableIterator.LiveListed | storage/TableIterator.h:15-44 | the iteration lists every live record exactly once, in block order, and nothing else |
| TableIterator.TableIterator.HasNext | storage/TableIterator.h:15-28 | true exactly if a live record remains; terminates and loses none |
| TableIterator.TableIterator.Next | storage/TableIterator.h:30-44 | yields the first remaining live record and leaves the rest |
| TableIterator.ScanListed | storage/SchemaTable.cc:231-250 | a full scan finds every live matching record exactly once |
| TableIterator.Scan | storage/SchemaTable.cc:231-250 | the scan loop returns the matching live records in block order |
| TableIterator.ScanFirst | storage/SchemaTable.cc:198-216 | the scan for one record stops at the first match in block order, or there is none |
| SchemaTable.UniqueInsertAgrees | storage/TBBUniqueIndex.h:19-21 | an insert keeps the unique index right if and only if its key is new |
| SchemaTable.UniqueDeleteAgrees | storage/TBBUniqueIndex.h:23-25 | a delete always keeps it right |
| SchemaTable.MultiInsertAgrees | storage/TBBMultiIndex.h:18-20 | an insert always keeps a multi index right |
| SchemaTable.MultiDeleteAgrees | storage/TBBMultiIndex.h:22-25 | a delete keeps it right if and only if no other live record has the key, because all entries of the key are erased |
| SchemaTable.UniqueUpdateAgrees | storage/SchemaTable.cc:78-83 | an update keeps the unique index right if and only if the key stays the same |
| SchemaTable.MultiUpdateAgrees | storage/SchemaTable.cc:78-83 | the same for a multi index |
| SchemaTable.UniqueAnswers | storage/SchemaTable.cc:178-186 | searching the unique index finds the one live match, or none |
| SchemaTable.MultiAnswers | storage/SchemaTable.cc:188-196 | searching a multi index finds a live match if there is one |
| SchemaTable.MultiAnswersAll | storage/TBBMultiIndex.h:33-44 | searching a multi index for all records gives every live match exactly once |
| SchemaTable.SchemaTable.constructor | storage/SchemaTable.cc:5-15 | an empty table whose primary index is over the columns declared primary, all indexes in agreement |
| SchemaTable.SchemaTable.InsertRecord | storage/SchemaTable.cc:47-61 | the record is stored at a fresh address; all indexes agree afterwards if and only if the primary key is new |
| SchemaTable.SchemaTable.DeleteRecord | storage/SchemaTable.cc:63-76 | exactly this record is gone; all indexes agree afterwards if and only if no other live record shares a secondary key |
| SchemaTable.SchemaTable.UpdateRecord | storage/SchemaTable.cc:78-83 | one column of one record changes; all indexes agree afterwards if and only if no key changed |
| SchemaTable.SchemaTable.UpdateColumns | storage/SchemaTable.cc:85-92 | the named columns of one record hold the given values, the last one where a column is named twice, and nothing else changes; all indexes agree afterwards if and only if no key changed |
| SchemaTable.SchemaTable.SelectRecord | storage/SchemaTable.cc:176-217 | by index or by scan: a live match if there is one, the unique one for a primary key |
| SchemaTable.SchemaTable.SelectRecords | storage/SchemaTable.cc:219-251 | by index or by scan: every live match exactly once |

## Left out

- Networking (`dtxn/`), random generation, sources, main programs, timers and printing: not decided by program state. Drawn values, the texts of history rows and the batch timer are inputs.
- Data races inside a sub-transaction, and in `BaseTable::deleteRecord`, which takes no lock: each sub-transaction is one atomic step, and the storage engine is used sequentially.
- Floating-point rounding: money is exact, in one unit; the order of summation is then irrelevant.
- 32-bit overflow of ids, counters and of the item index passed to `hash_int`: ids and counters are unbounded; only the hash itself works on 32-bit words. Sizes and offsets of the storage engine are unbounded too, and a negative subscriber id modulo the partition count is not modelled.
- The bits of the TATP hash: it is any function of the subscriber, since the proofs need no more of it. The TPC-C hash is written out, but the proofs use no property of it either.
- Padding behind short VARCHAR values and the four-byte copy of the flag `all_local`: the intended values are stored.
- Columns that no sub-transaction reads or writes, such as names, addresses and taxes.
- GET_NEW_DESTINATION, ORDER_STATUS and STOCK_LEVEL: they do nothing in the processors.
- The TATP populator, and the `start` loops of the TATP and pooled processors, which repeat that of `TpccBatchProcessor`.
- The internals of TBB, `std::thread`, malloc and the lock-free queue: abstract maps, sequences and atomic steps. The input queue is modelled up to its end marker.
- Spawning and joining thread by thread: a group of threads is spawned in one step and joined as a whole, which allows at least the interleavings of the code, since the main thread touches no data in between. Buckets are dealt out when a group is spawned; the code does not change them afterwards.
- TpccBatchProcessor.BatchProcessor.ProcessBatch: the threads of a batch are the interleavings of the plan, as a ghost step; that the bucket arrays built by the two loops hold what the plan deals is proved beside it (`TpccBatchProcessor.EarlyBucketsDeal`, `TpccBatchProcessor.LateBucketsDeal`), and the handed vectors are cells of the store.
- TpccSerialProcessor.SerialProcessor.Start: the transactions must be valid and the database consistent, as the queue source and the populator guarantee; what the code does on invalid parameters is only modelled step by step (the cell `Fault`).
- TatpSerialProcessor.SerialProcessor.Start: every number in an UpdateLocation must be known, since writing through a null record is undefined in the code; the step functions go on from such a write by setting a cell `Fault`, and the scheduling results need no such condition.
- TatpSerialProcessor.SerialProcessor.GetSpecialFacilitySFType: the code reads one row of the subscriber; the model reads all of them at once.
- SchemaTable.SchemaTable.SelectRecord: a scan over a table without any block is undefined in the code (storage/BaseTable.cc:26-28), so a select without an index asks for a table that has one. Selects by one column are the special case of one predicate.
- The order in which a multi index lists the records of one key: the containers of the code leave it open, and selects are stated up to it.
- A refinement between the schedulers and the storage engine: the steps of the schedulers work on cells, not through `SchemaTable`, and that each benchmark table meets the conditions for index agreement is not proved. (TPC-C and TATP update no indexed column and delete from no table with a secondary index.)
