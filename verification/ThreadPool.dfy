/** The thread pool's protocol: workers that sleep on a condition variable, callers that
    push a task under the lock and notify after it, and a destructor that stops the pool.
    Each section under the lock is one atomic step; a wake-up may be spurious. */
module ThreadPool {
  import opened Replay

  /** A worker is about to test the condition under the lock, asleep on the condition
      variable, running a task outside the lock, or gone. */
  datatype Worker<T> = Checking | Sleeping | Running(task: T) | Exited

  datatype Stage = Open | Stopped | Notified

  /** `unnotified` counts the calls to enqueue that have pushed but not yet notified.
      accepted, started and finished record the tasks in the order of those events. */
  datatype Pool<T> = Pool(
    workers: seq<Worker<T>>,
    tasks: seq<T>,
    stage: Stage,
    unnotified: nat,
    accepted: seq<T>,
    started: seq<T>,
    finished: seq<T>)

  function Fresh<T>(threads: nat): Pool<T> {
    Pool(seq(threads, _ => Checking), [], Open, 0, [], [], [])
  }

  datatype Event<T> =
    | Push(task: T)             // enqueue, under the lock
    | Reject                    // enqueue on a stopped pool throws
    | NotifyOne(w: nat)         // enqueue, after the lock; wakes worker w
    | NotifyNobody              // the same when no worker sleeps
    | Spurious(w: nat)
    | Take(w: nat)              // the worker finds the condition true and pops a task
    | Sleep(w: nat)             // the worker finds the condition false
    | Leave(w: nat)             // the worker finds the pool stopped and no task
    | Finish(w: nat)
    | Stop                      // the destructor, under the lock
    | NotifyAll

  predicate Looks<T>(p: Pool<T>, w: nat) { w < |p.workers| && p.workers[w].Checking? }
  predicate Dozes<T>(p: Pool<T>, w: nat) { w < |p.workers| && p.workers[w].Sleeping? }
  predicate Sleeps<T>(p: Pool<T>) { exists w | 0 <= w < |p.workers| :: Dozes(p, w) }

  function Woken<T>(workers: seq<Worker<T>>): seq<Worker<T>> {
    seq(|workers|, i requires 0 <= i < |workers| => if workers[i].Sleeping? then Checking else workers[i])
  }

  predicate Can<T>(p: Pool<T>, e: Event<T>) {
    match e
    case Push(_) => p.stage == Open
    case Reject => p.stage != Open
    case NotifyOne(w) => p.unnotified > 0 && Dozes(p, w)
    case NotifyNobody => p.unnotified > 0 && !Sleeps(p)
    case Spurious(w) => Dozes(p, w)
    case Take(w) => Looks(p, w) && p.tasks != []
    case Sleep(w) => Looks(p, w) && p.stage == Open && p.tasks == []
    case Leave(w) => Looks(p, w) && p.stage != Open && p.tasks == []
    case Finish(w) => w < |p.workers| && p.workers[w].Running?
    case Stop => p.stage == Open
    case NotifyAll => p.stage == Stopped
  }

  function After<T>(p: Pool<T>, e: Event<T>): Pool<T>
    requires Can(p, e)
  {
    match e
    case Push(t) => p.(tasks := p.tasks + [t], accepted := p.accepted + [t], unnotified := p.unnotified + 1)
    case Reject => p
    case NotifyOne(w) => p.(workers := p.workers[w := Checking], unnotified := p.unnotified - 1)
    case NotifyNobody => p.(unnotified := p.unnotified - 1)
    case Spurious(w) => p.(workers := p.workers[w := Checking])
    case Take(w) => p.(workers := p.workers[w := Running(p.tasks[0])], tasks := p.tasks[1..], started := p.started + [p.tasks[0]])
    case Sleep(w) => p.(workers := p.workers[w := Sleeping])
    case Leave(w) => p.(workers := p.workers[w := Exited])
    case Finish(w) => p.(workers := p.workers[w := Checking], finished := p.finished + [p.workers[w].task])
    case Stop => p.(stage := Stopped)
    case NotifyAll => p.(stage := Notified, workers := Woken(p.workers))
  }

  /** The pool after a sequence of events, or None if one of them cannot occur. */
  function Reached<T>(threads: nat, events: seq<Event<T>>): Option<Pool<T>> {
    if events == [] then Some(Fresh(threads))
    else
      var p, e := Reached(threads, events[..|events| - 1]), events[|events| - 1];
      if p.Some? && Can(p.value, e) then Some(After(p.value, e)) else None
  }

  // ---- Counting workers ----

  function Checkers<T>(workers: seq<Worker<T>>): nat {
    if workers == [] then 0 else (if workers[0].Checking? then 1 else 0) + Checkers(workers[1..])
  }

  /** How many workers run task x. */
  ghost function InHand<T>(workers: seq<Worker<T>>, x: T): nat {
    if workers == [] then 0 else (if workers[0] == Running(x) then 1 else 0) + InHand(workers[1..], x)
  }

  lemma {:induction false} ChangeChecker<T>(workers: seq<Worker<T>>, w: nat, s: Worker<T>)
    requires w < |workers|
    ensures Checkers(workers[w := s]) + (if workers[w].Checking? then 1 else 0) == Checkers(workers) + (if s.Checking? then 1 else 0)
  {
    if w == 0 {
      assert workers[0 := s][1..] == workers[1..];
    } else {
      assert workers[w := s][1..] == workers[1..][w - 1 := s];
      ChangeChecker(workers[1..], w - 1, s);
    }
  }

  lemma {:induction false} ChangeInHand<T>(workers: seq<Worker<T>>, w: nat, s: Worker<T>, x: T)
    requires w < |workers|
    ensures InHand(workers[w := s], x) + (if workers[w] == Running(x) then 1 else 0) == InHand(workers, x) + (if s == Running(x) then 1 else 0)
  {
    if w == 0 {
      assert workers[0 := s][1..] == workers[1..];
    } else {
      assert workers[w := s][1..] == workers[1..][w - 1 := s];
      ChangeInHand(workers[1..], w - 1, s, x);
    }
  }

  lemma {:induction false} WakeAll<T>(workers: seq<Worker<T>>, x: T)
    ensures InHand(Woken(workers), x) == InHand(workers, x)
  {
    if workers != [] {
      assert Woken(workers)[1..] == Woken(workers[1..]);
      WakeAll(workers[1..], x);
    }
  }

  // ---- The invariant ----

  /** Tasks start in the order they were accepted, each once. */
  ghost predicate Fifo<T>(p: Pool<T>) { p.accepted == p.started + p.tasks }

  /** Every started task is being run by one worker or has finished. */
  ghost predicate Once<T(!new)>(p: Pool<T>) { forall x :: OnceEach(p, x) }

  ghost predicate OnceEach<T>(p: Pool<T>, x: T) { multiset(p.started)[x] == multiset(p.finished)[x] + InHand(p.workers, x) }

  /** While a worker sleeps, each waiting task has its own notification still
      to come or its own worker about to look. */
  predicate NoLostWakeUp<T>(p: Pool<T>) { Sleeps(p) ==> |p.tasks| <= p.unnotified + Checkers(p.workers) }

  /** Nobody leaves an open pool or one with waiting tasks, and nobody sleeps once all have
      been notified. */
  predicate Draining<T>(p: Pool<T>) {
    && (forall w | 0 <= w < |p.workers| && p.workers[w].Exited? :: p.stage != Open && p.tasks == [])
    && (p.stage == Notified ==> !Sleeps(p))
  }

  ghost predicate Inv<T(!new)>(p: Pool<T>) {
    Fifo(p) && Once(p) && NoLostWakeUp(p) && Draining(p)
  }

  lemma Starts<T(!new)>(threads: nat)
    ensures Inv<T>(Fresh(threads))
  {
    var p := Fresh<T>(threads);
    forall x ensures OnceEach(p, x) { NobodyRuns(p.workers, x); }
  }

  lemma {:induction false} NobodyRuns<T>(workers: seq<Worker<T>>, x: T)
    requires forall w | 0 <= w < |workers| :: workers[w].Checking?
    ensures InHand(workers, x) == 0
  {
    if workers != [] { NobodyRuns(workers[1..], x); }
  }

  /** The worker whose state an event changes, if there is one. */
  function Actor<T>(e: Event<T>): int {
    match e
    case NotifyOne(w) => w case Spurious(w) => w case Take(w) => w
    case Sleep(w) => w case Leave(w) => w case Finish(w) => w
    case _ => -1
  }

  lemma KeepsFifo<T(!new)>(p: Pool<T>, e: Event<T>)
    requires Can(p, e) && Fifo(p)
    ensures Fifo(After(p, e))
  {
    if e.Take? { assert p.tasks == [p.tasks[0]] + p.tasks[1..]; }
  }

  lemma KeepsOnce<T(!new)>(p: Pool<T>, e: Event<T>)
    requires Can(p, e) && Once(p)
    ensures Once(After(p, e))
  {
    var q := After(p, e);
    forall x ensures OnceEach(q, x) {
      assert OnceEach(p, x);
      if Actor(e) >= 0 { ChangeInHand(p.workers, Actor(e), q.workers[Actor(e)], x); }
      if e.NotifyAll? { WakeAll(p.workers, x); }
    }
  }

  lemma KeepsWakeUps<T(!new)>(p: Pool<T>, e: Event<T>)
    requires Can(p, e) && NoLostWakeUp(p)
    ensures NoLostWakeUp(After(p, e))
  {
    var q := After(p, e);
    if Actor(e) >= 0 { ChangeChecker(p.workers, Actor(e), q.workers[Actor(e)]); }
    if Sleeps(q) {
      var w :| 0 <= w < |q.workers| && Dozes(q, w);
      assert e.Sleep? || Dozes(p, w);
    }
  }

  lemma KeepsDraining<T(!new)>(p: Pool<T>, e: Event<T>)
    requires Can(p, e) && Draining(p)
    ensures Draining(After(p, e))
  {
    var q := After(p, e);
    if q.stage == Notified && Sleeps(q) {
      var w :| 0 <= w < |q.workers| && Dozes(q, w);
      assert p.stage == Notified ==> Dozes(p, w);
    }
  }

  lemma {:induction false} Reachable<T(!new)>(threads: nat, events: seq<Event<T>>)
    requires Reached(threads, events).Some?
    ensures Inv(Reached(threads, events).value) && |Reached(threads, events).value.workers| == threads
    decreases |events|
  {
    if events == [] {
      Starts<T>(threads);
    } else {
      var p, e := Reached(threads, events[..|events| - 1]).value, events[|events| - 1];
      Reachable(threads, events[..|events| - 1]);
      KeepsFifo(p, e);
      KeepsOnce(p, e);
      KeepsWakeUps(p, e);
      KeepsDraining(p, e);
    }
  }

  // ---- Main results ----

  /** EXACTLY ONCE, IN ORDER.  Tasks start in the order they were accepted, and each accepted
      task is either waiting, or with one worker, or finished. */
  lemma ExactlyOnceFifo<T(!new)>(threads: nat, events: seq<Event<T>>, x: T)
    requires Reached(threads, events).Some?
    ensures
      var p := Reached(threads, events).value;
      && p.started <= p.accepted
      && multiset(p.accepted)[x] == multiset(p.tasks)[x] + InHand(p.workers, x) + multiset(p.finished)[x]
  {
    Reachable(threads, events);
    var p := Reached(threads, events).value;
    assert OnceEach(p, x);
    assert multiset(p.started + p.tasks)[x] == multiset(p.started)[x] + multiset(p.tasks)[x];
  }

  /** The pool is open exactly while nobody has stopped it. */
  lemma {:induction false} OpenUntilStopped<T(!new)>(threads: nat, events: seq<Event<T>>)
    requires Reached(threads, events).Some?
    ensures Reached(threads, events).value.stage == Open <==> Stop !in events
    decreases |events|
  {
    if events != [] {
      var front, e := events[..|events| - 1], events[|events| - 1];
      OpenUntilStopped(threads, front);
      assert events == front + [e];
    }
  }

  /** WHAT ENQUEUE PROMISES.  In every run a call is rejected only after the stop and accepted
      only before it; and at any moment exactly one of the two answers is possible. */
  lemma {:induction false} EnqueueDecided<T(!new)>(threads: nat, events: seq<Event<T>>, t: T)
    requires Reached(threads, events).Some?
    ensures Can(Reached(threads, events).value, Push(t)) <==> Stop !in events
    ensures Can(Reached(threads, events).value, Reject) <==> Stop in events
    ensures forall j | 0 <= j < |events| && events[j].Reject? :: Stop in events[..j]
    ensures forall j | 0 <= j < |events| && events[j].Push? :: Stop !in events[..j]
    decreases |events|
  {
    OpenUntilStopped(threads, events);
    if events != [] {
      var front, e := events[..|events| - 1], events[|events| - 1];
      EnqueueDecided(threads, front, if e.Push? then e.task else t);
      forall j | 0 <= j < |events| && (events[j].Reject? || events[j].Push?)
        ensures events[j].Reject? <==> Stop in events[..j]
      {
        if j < |front| {
          assert front[j] == events[j] && front[..j] == events[..j];
        } else {
          assert events[..j] == front;
        }
      }
    }
  }

  /** A worker that holds the lock is never left waiting for another: exactly one of taking a
      task, going to sleep and leaving is open to it, and a waiting task comes first. */
  lemma LookingWorkerMoves<T(!new)>(threads: nat, events: seq<Event<T>>, w: nat)
    requires Reached(threads, events).Some? && Looks(Reached(threads, events).value, w)
    ensures
      var p := Reached(threads, events).value;
      && (Can(p, Take(w)) <==> |p.started| < |p.accepted|)
      && (Can(p, Sleep(w)) <==> p.started == p.accepted && Stop !in events)
      && (Can(p, Leave(w)) <==> p.started == p.accepted && Stop in events)
  {
    Reachable(threads, events);
    OpenUntilStopped(threads, events);
    var p := Reached(threads, events).value;
    assert p.tasks == p.accepted[|p.started|..];
  }

  /** A notification may wake any sleeper and gets lost only if there is none; and a sleeper
      may wake without one. */
  lemma AnySleeperWakes<T(!new)>(threads: nat, events: seq<Event<T>>, w: nat)
    requires Reached(threads, events).Some? && Dozes(Reached(threads, events).value, w)
    ensures
      var p := Reached(threads, events).value;
      && Can(p, Spurious(w)) && Looks(After(p, Spurious(w)), w) && !Can(p, NotifyNobody)
      && (p.unnotified > 0 ==> Can(p, NotifyOne(w)) && Looks(After(p, NotifyOne(w)), w))
  {
    assert Sleeps(Reached(threads, events).value);
  }

  /** What the pool does by itself: neither a caller's enqueue nor a spurious wake-up. */
  predicate Internal<T>(e: Event<T>) { e.Take? || e.Finish? || e.Leave? || e.NotifyOne? }

  /** NO LOST WAKE-UP.  While a task waits in a pool with a worker, a worker is awake or a
      notification that will wake one is still to come; so the pool can go on by itself. */
  lemma WaitingTaskMovesOn<T(!new)>(threads: nat, events: seq<Event<T>>) returns (e: Event<T>)
    requires threads > 0 && Reached(threads, events).Some? && Reached(threads, events).value.tasks != []
    ensures Internal(e) && Can(Reached(threads, events).value, e)
  {
    Reachable(threads, events);
    var p := Reached(threads, events).value;
    if w :| 0 <= w < |p.workers| && p.workers[w].Running? {
      e := Finish(w);
    } else if w :| 0 <= w < |p.workers| && p.workers[w].Checking? {
      e := Take(w);
    } else {
      assert Dozes(p, 0);
      NobodyChecks(p.workers);
      e := NotifyOne(0);
    }
  }

  lemma {:induction false} NobodyChecks<T>(workers: seq<Worker<T>>)
    requires forall w | 0 <= w < |workers| :: !workers[w].Checking?
    ensures Checkers(workers) == 0
  {
    if workers != [] { NobodyChecks(workers[1..]); }
  }

  predicate AllGone<T>(p: Pool<T>) { forall w | 0 <= w < |p.workers| :: p.workers[w].Exited? }

  /** DRAIN ON SHUTDOWN.  When every worker of a pool with at least one has exited, every
      accepted task has been started and has finished. */
  lemma ExitMeansDone<T(!new)>(threads: nat, events: seq<Event<T>>)
    requires threads > 0 && Reached(threads, events).Some? && AllGone(Reached(threads, events).value)
    ensures
      var p := Reached(threads, events).value;
      p.tasks == [] && p.started == p.accepted && multiset(p.finished) == multiset(p.accepted)
  {
    Reachable(threads, events);
    var p := Reached(threads, events).value;
    assert p.workers[0].Exited?;
    forall x ensures multiset(p.finished)[x] == multiset(p.accepted)[x] {
      assert OnceEach(p, x);
      GoneRunNothing(p.workers, x);
    }
  }

  lemma {:induction false} GoneRunNothing<T>(workers: seq<Worker<T>>, x: T)
    requires forall w | 0 <= w < |workers| :: workers[w].Exited?
    ensures InHand(workers, x) == 0
  {
    if workers != [] { GoneRunNothing(workers[1..], x); }
  }

  /** A pool without workers accepts tasks that never start. */
  lemma NoWorkersNoWork<T(!new)>(t: T)
    ensures
      var p := Reached(0, [Push(t), Stop, NotifyAll]);
      p.Some? && AllGone(p.value) && p.value.accepted == [t] && p.value.started == []
  {
    var a, b, c := [Push(t)], [Push(t), Stop], [Push(t), Stop, NotifyAll];
    assert Reached<T>(0, []) == Some(Fresh(0));
    assert a[..0] == [] && b[..1] == a && c[..2] == b;
    assert Reached(0, a) == Some(After(Fresh(0), Push(t)));
    assert Reached(0, b).Some?;
  }

  /** What is left to do after the destructor has notified everybody. */
  function Effort<T>(workers: seq<Worker<T>>): nat {
    if workers == [] then 0
    else (match workers[0] case Running(_) => 2 case Checking => 1 case _ => 0) + Effort(workers[1..])
  }

  function Left<T>(p: Pool<T>): nat { 3 * |p.tasks| + Effort(p.workers) + p.unnotified }

  lemma {:induction false} ChangeEffort<T>(workers: seq<Worker<T>>, w: nat, s: Worker<T>)
    requires w < |workers|
    ensures Effort(workers[w := s]) + Effort([workers[w]]) == Effort(workers) + Effort([s])
  {
    if w == 0 {
      assert workers[0 := s][1..] == workers[1..];
    } else {
      assert workers[w := s][1..] == workers[1..][w - 1 := s];
      ChangeEffort(workers[1..], w - 1, s);
    }
  }

  lemma DrainStep<T(!new)>(p: Pool<T>, e: Event<T>)
    requires Draining(p) && p.stage == Notified && Can(p, e) && !e.Reject?
    ensures After(p, e).stage == Notified && Left(After(p, e)) < Left(p)
  {
    if Actor(e) >= 0 {
      var s := After(p, e).workers[Actor(e)];
      ChangeEffort(p.workers, Actor(e), s);
      assert Effort([s]) == match s case Running(_) => 2 case Checking => 1 case _ => 0;
      assert !Dozes(p, Actor(e));
    }
  }

  function RunOn<T>(p: Pool<T>, events: seq<Event<T>>): Option<Pool<T>>
    decreases |events|
  {
    if events == [] then Some(p) else if Can(p, events[0]) then RunOn(After(p, events[0]), events[1..]) else None
  }

  /** THE DESTRUCTOR RETURNS.  After notify_all only finitely many events can follow, and when
      none can follow any more every worker has exited, so every join succeeds. */
  lemma {:induction false} ShutdownEnds<T(!new)>(p: Pool<T>, events: seq<Event<T>>)
    requires Draining(p) && p.stage == Notified && RunOn(p, events).Some?
    requires forall e | e in events :: !e.Reject?
    ensures |events| <= Left(p)
    ensures
      var q := RunOn(p, events).value;
      (forall e: Event<T> | Internal(e) :: !Can(q, e)) ==> AllGone(q)
    decreases |events|
  {
    if events == [] {
      if forall e: Event<T> | Internal(e) :: !Can(p, e) {
        StuckIsGone(p);
      }
    } else {
      var e := events[0];
      assert e in events;
      DrainStep(p, e);
      KeepsDraining(p, e);
      ShutdownEnds(After(p, e), events[1..]);
    }
  }

  lemma StuckIsGone<T(!new)>(p: Pool<T>)
    requires Draining(p) && p.stage == Notified
    requires forall e: Event<T> | Internal(e) :: !Can(p, e)
    ensures AllGone(p)
  {
    forall w | 0 <= w < |p.workers| ensures p.workers[w].Exited? {
      assert !Dozes(p, w);
      var finish, take, leave: Event<T> := Finish(w), Take(w), Leave(w);
      assert !Can(p, finish) && !Can(p, take) && !Can(p, leave);
    }
  }
}
