/**
 Worker processes that are created asleep, started one by one under a lock, and drain a shared queue,
 as interleaved steps (`pace/utils/worker.py`, `examples/multi_instance_pace.py`).

 Every step is one action between two points where another process can run.  Results leave a worker
 through a buffer of its own and a pipe that holds `capacity` results; the main process reads the
 pipe only when all workers have ended, and a worker ends only when its buffer is empty.
 */
module WorkerRuns {
  import opened Indexing
  import opened InferenceDatasets

  datatype Config = Config(instances: nat, samples: nat, batchSize: nat, maxNewTokens: nat, capacity: nat) {

    predicate Valid() { instances > 0 && batchSize > 0 }

    function Batches(): nat
      requires batchSize > 0
    {
      BatchCount(samples, batchSize)
    }

    /** Tokens a worker reports for batch `k`. */
    function Tokens(k: nat): nat {
      var rows := BatchEnd(samples, batchSize, k) - BatchStart(batchSize, k);
      if rows > 0 then maxNewTokens * rows else 0
    }

    /** What the main process put at place `n` of the queue. */
    function QueuedAt(n: nat): Item
      requires batchSize > 0
    {
      if n < Batches() then Batch(n) else Sentinel
    }
  }

  datatype Item = Batch(index: nat) | Sentinel

  datatype Lock = Free | HeldByWorker | HeldByMain

  datatype Pc =
    | Initialising          // init_func
    | WantLock              // entering `with self.condition`
    | Holding               // holding the lock, about to look at the flag
    | Sleeping              // in `condition.wait()`
    | Woken                 // notified, needs the lock back
    | Fetching              // about to call `input_queue.get()`
    | Loaded(batch: nat)    // has a batch, not yet marked as done
    | Generating(batch: nat)
    | Finishing             // has a sentinel, not yet marked as done
    | Exiting               // flushing its results
    | Exited

  datatype Worker = Worker(pc: Pc, flag: bool, lock: Lock, buffered: seq<nat>)

  datatype MainPc =
    | Acquire(worker: nat) | SetFlag(worker: nat) | Notify(worker: nat) | Release(worker: nat)
    | JoinWorker(worker: nat) | JoinQueue | Drain | Done

  /** One item taken from the queue. */
  datatype Fetch = Fetch(worker: nat, item: Item)

  datatype State = State(workers: seq<Worker>, queue: seq<Item>, log: seq<Fetch>, unfinished: int,
                         pipe: seq<nat>, collected: nat, total: nat, main: MainPc)

  datatype Step = MainStep | WorkerStep(worker: nat) | FlushStep(worker: nat)

  // ----- the start -----

  /** The queue: all batches, then one sentinel for every worker. */
  method FillQueue(cfg: Config) returns (queue: seq<Item>)
    requires cfg.Valid()
    ensures |queue| == cfg.Batches() + cfg.instances
    ensures forall n :: 0 <= n < |queue| ==> queue[n] == cfg.QueuedAt(n)
  {
    queue := [];
    for i := 0 to cfg.samples / cfg.batchSize
      invariant |queue| == i && forall n :: 0 <= n < |queue| ==> queue[n] == Batch(n)
    {
      queue := queue + [Batch(i)];
    }
    if cfg.samples % cfg.batchSize != 0 {
      queue := queue + [Batch(cfg.samples / cfg.batchSize)];
    }
    for i := 0 to cfg.instances
      invariant |queue| == cfg.Batches() + i && forall n :: 0 <= n < |queue| ==> queue[n] == cfg.QueuedAt(n)
    {
      queue := queue + [Sentinel];
    }
  }

  function Initial(cfg: Config, queue: seq<Item>): State {
    State(seq(cfg.instances, _ => Worker(Initialising, false, Free, [])), queue, [], |queue|, [], 0, 0, Acquire(0))
  }

  // ----- the steps -----

  function StartNext(cfg: Config, i: nat): MainPc {
    if i < cfg.instances then Acquire(i) else JoinNext(cfg, 0)
  }

  function JoinNext(cfg: Config, i: nat): MainPc {
    if i < cfg.instances then JoinWorker(i) else JoinQueue
  }

  predicate Addresses(main: MainPc, workers: nat) {
    (main.Acquire? || main.SetFlag? || main.Notify? || main.Release? || main.JoinWorker?) ==> main.worker < workers
  }

  predicate MainEnabled(s: State)
    requires Addresses(s.main, |s.workers|)
  {
    match s.main
    case Acquire(i) => s.workers[i].lock.Free?
    case SetFlag(_) => true
    case Notify(_) => true
    case Release(_) => true
    case JoinWorker(i) => s.workers[i].pc.Exited?
    case JoinQueue => s.unfinished == 0
    case Drain => true
    case Done => false
  }

  function MainNext(cfg: Config, s: State): State
    requires Addresses(s.main, |s.workers|) && MainEnabled(s)
  {
    match s.main
    case Acquire(i) => s.(workers := s.workers[i := s.workers[i].(lock := HeldByMain)], main := SetFlag(i))
    case SetFlag(i) => s.(workers := s.workers[i := s.workers[i].(flag := true)], main := Notify(i))
    case Notify(i) =>
      var w := s.workers[i];
      s.(workers := s.workers[i := w.(pc := if w.pc.Sleeping? then Woken else w.pc)], main := Release(i))
    case Release(i) =>
      s.(workers := s.workers[i := s.workers[i].(lock := Free)], main := StartNext(cfg, i + 1))
    case JoinWorker(i) => s.(main := JoinNext(cfg, i + 1))
    case JoinQueue => s.(main := Drain)
    case Drain =>
      if s.pipe == [] then s.(main := Done)
      else s.(pipe := s.pipe[1..], collected := s.collected + 1, total := s.total + cfg.Tokens(s.pipe[0]))
  }

  predicate WorkerEnabled(s: State, i: nat)
    requires i < |s.workers|
  {
    match s.workers[i].pc
    case WantLock => s.workers[i].lock.Free?
    case Woken => s.workers[i].lock.Free?
    case Sleeping => false
    case Fetching => s.queue != []
    case Exiting => s.workers[i].buffered == []
    case Exited => false
    case _ => true
  }

  /** A step that changes the worker alone. */
  function Alone(w: Worker): Worker {
    match w.pc
    case Initialising => w.(pc := WantLock)
    case WantLock => w.(pc := Holding, lock := HeldByWorker)
    case Woken => w.(pc := Holding, lock := HeldByWorker)
    case Holding => w.(pc := if w.flag then Fetching else Sleeping, lock := Free)
    case Generating(k) => w.(pc := Fetching, buffered := w.buffered + [k])
    case Exiting => w.(pc := Exited)
    case _ => w
  }

  /** What a worker does after taking an item. */
  function AfterFetch(item: Item): Pc {
    match item
    case Batch(k) => Loaded(k)
    case Sentinel => Finishing
  }

  function WorkerNext(s: State, i: nat): State
    requires i < |s.workers| && WorkerEnabled(s, i)
  {
    var w := s.workers[i];
    match w.pc
    case Fetching =>
      s.(workers := s.workers[i := w.(pc := AfterFetch(s.queue[0]))], queue := s.queue[1..],
         log := s.log + [Fetch(i, s.queue[0])])
    case Loaded(k) => s.(workers := s.workers[i := w.(pc := Generating(k))], unfinished := s.unfinished - 1)
    case Finishing => s.(workers := s.workers[i := w.(pc := Exiting)], unfinished := s.unfinished - 1)
    case _ => s.(workers := s.workers[i := Alone(w)])
  }

  predicate FlushEnabled(cfg: Config, s: State, i: nat)
    requires i < |s.workers|
  {
    s.workers[i].buffered != [] && |s.pipe| < cfg.capacity
  }

  /** The oldest buffered result of a worker gets into the pipe. */
  function FlushNext(s: State, i: nat): State
    requires i < |s.workers| && s.workers[i].buffered != []
  {
    var w := s.workers[i];
    s.(workers := s.workers[i := w.(buffered := w.buffered[1..])], pipe := s.pipe + [w.buffered[0]])
  }

  predicate Enabled(cfg: Config, s: State, step: Step) {
    match step
    case MainStep => Addresses(s.main, |s.workers|) && MainEnabled(s)
    case WorkerStep(i) => i < |s.workers| && WorkerEnabled(s, i)
    case FlushStep(i) => i < |s.workers| && FlushEnabled(cfg, s, i)
  }

  function Next(cfg: Config, s: State, step: Step): State
    requires Enabled(cfg, s, step)
  {
    match step
    case MainStep => MainNext(cfg, s)
    case WorkerStep(i) => WorkerNext(s, i)
    case FlushStep(i) => FlushNext(s, i)
  }

  // ----- the start protocol -----

  /** Whether the main process has set a worker's flag, and whether it has notified the worker. */
  predicate Flagged(main: MainPc, i: nat) {
    match main
    case Acquire(j) => i < j
    case SetFlag(j) => i < j
    case Notify(j) => i <= j
    case Release(j) => i <= j
    case _ => true
  }

  predicate Notified(main: MainPc, i: nat) {
    match main
    case Acquire(j) => i < j
    case SetFlag(j) => i < j
    case Notify(j) => i < j
    case Release(j) => i <= j
    case _ => true
  }

  predicate LockedByMain(main: MainPc, i: nat) {
    (main.SetFlag? || main.Notify? || main.Release?) && main.worker == i
  }

  predicate Joined(main: MainPc, i: nat) {
    match main
    case JoinWorker(j) => i < j
    case JoinQueue => true
    case Drain => true
    case Done => true
    case _ => false
  }

  predicate Started(pc: Pc) {
    !(pc.Initialising? || pc.WantLock? || pc.Holding? || pc.Sleeping?)
  }

  /** What holds of one worker; a sleeping worker is one that is still to be notified. */
  predicate WorkerOk(main: MainPc, w: Worker, i: nat) {
    && (w.lock.HeldByWorker? <==> w.pc.Holding?)
    && (w.lock.HeldByMain? <==> LockedByMain(main, i))
    && (w.flag <==> Flagged(main, i))
    && (w.pc.Sleeping? ==> !Notified(main, i))
    && (Started(w.pc) ==> w.flag)
    && (w.pc.Exited? ==> w.buffered == [])
    && (Joined(main, i) ==> w.pc.Exited?)
  }

  ghost predicate Protocol(cfg: Config, s: State) {
    && |s.workers| == cfg.instances && Addresses(s.main, |s.workers|)
    && (forall i :: 0 <= i < |s.workers| ==> WorkerOk(s.main, s.workers[i], i))
    && (s.main.Done? ==> s.pipe == [])
  }

  lemma MainKeepsProtocol(cfg: Config, s: State)
    requires Protocol(cfg, s) && MainEnabled(s)
    ensures Protocol(cfg, MainNext(cfg, s))
  {
    var t := MainNext(cfg, s);
    forall i | 0 <= i < |t.workers|
      ensures WorkerOk(t.main, t.workers[i], i)
    {
      assert WorkerOk(s.main, s.workers[i], i);
    }
  }

  lemma WorkerKeepsProtocol(cfg: Config, s: State, i: nat)
    requires Protocol(cfg, s) && i < |s.workers| && WorkerEnabled(s, i)
    ensures Protocol(cfg, WorkerNext(s, i))
  {
    var t := WorkerNext(s, i);
    assert WorkerOk(s.main, s.workers[i], i);
    assert t.main == s.main && WorkerOk(t.main, t.workers[i], i);
  }

  lemma FlushKeepsProtocol(cfg: Config, s: State, i: nat)
    requires Protocol(cfg, s) && i < |s.workers| && FlushEnabled(cfg, s, i)
    ensures Protocol(cfg, FlushNext(s, i))
  {
    assert WorkerOk(s.main, s.workers[i], i);
  }

  // ----- the ledger -----

  predicate HasSentinel(pc: Pc) { pc.Finishing? || pc.Exiting? || pc.Exited? }

  predicate HasBatch(pc: Pc) { pc.Loaded? || pc.Generating? }

  predicate Unmarked(pc: Pc) { pc.Loaded? || pc.Finishing? }

  function SumTokens(cfg: Config, ks: seq<nat>): nat {
    if ks == [] then 0 else cfg.Tokens(ks[0]) + SumTokens(cfg, ks[1..])
  }

  lemma {:induction false} SumAppend(cfg: Config, ks: seq<nat>, k: nat)
    ensures SumTokens(cfg, ks + [k]) == SumTokens(cfg, ks) + cfg.Tokens(k)
  {
    if ks != [] {
      SumAppend(cfg, ks[1..], k);
      assert (ks + [k])[1..] == ks[1..] + [k];
    } else {
      assert ks + [k] == [k] && [k][1..] == [];
    }
  }

  /** What is added up over all workers. */
  datatype Quantity = Sentinels | UnmarkedItems | Results | ResultTokens

  function Amount(cfg: Config, w: Worker, q: Quantity): int {
    match q
    case Sentinels => if HasSentinel(w.pc) then 1 else 0
    case UnmarkedItems => if Unmarked(w.pc) then 1 else 0
    case Results => (if HasBatch(w.pc) then 1 else 0) + |w.buffered|
    case ResultTokens => (if HasBatch(w.pc) then cfg.Tokens(w.pc.batch) else 0) + SumTokens(cfg, w.buffered)
  }

  function Tally(cfg: Config, ws: seq<Worker>, q: Quantity, n: nat): int
    requires n <= |ws|
  {
    if n == 0 then 0 else Tally(cfg, ws, q, n - 1) + Amount(cfg, ws[n - 1], q)
  }

  /** Changing one worker changes a tally by that worker's difference. */
  lemma {:induction false} TallyUpdate(cfg: Config, ws: seq<Worker>, i: nat, w: Worker, q: Quantity, n: nat)
    requires i < |ws| && n <= |ws|
    ensures Tally(cfg, ws[i := w], q, n)
            == Tally(cfg, ws, q, n) + if i < n then Amount(cfg, w, q) - Amount(cfg, ws[i], q) else 0
  {
    if n > 0 {
      TallyUpdate(cfg, ws, i, w, q, n - 1);
    }
  }

  /** All four tallies after a change of one worker. */
  lemma Updated(cfg: Config, ws: seq<Worker>, i: nat, w: Worker)
    requires i < |ws|
    ensures forall q :: Total(cfg, ws[i := w], q) == Total(cfg, ws, q) + Amount(cfg, w, q) - Amount(cfg, ws[i], q)
  {
    forall q: Quantity
      ensures Total(cfg, ws[i := w], q) == Total(cfg, ws, q) + Amount(cfg, w, q) - Amount(cfg, ws[i], q)
    {
      TallyUpdate(cfg, ws, i, w, q, |ws|);
    }
  }

  function Total(cfg: Config, ws: seq<Worker>, q: Quantity): int { Tally(cfg, ws, q, |ws|) }

  /** How many sentinels a worker has fetched. */
  function SentinelsOf(log: seq<Fetch>, i: nat, n: nat): nat
    requires n <= |log|
  {
    if n == 0 then 0
    else SentinelsOf(log, i, n - 1) + if log[n - 1].worker == i && log[n - 1].item.Sentinel? then 1 else 0
  }

  lemma {:induction false} SentinelsKept(log: seq<Fetch>, fetch: Fetch, i: nat, n: nat)
    requires n <= |log|
    ensures SentinelsOf(log + [fetch], i, n) == SentinelsOf(log, i, n)
  {
    if n > 0 {
      SentinelsKept(log, fetch, i, n - 1);
    }
  }

  lemma SentinelsAppend(log: seq<Fetch>, fetch: Fetch, i: nat)
    ensures SentinelsOf(log + [fetch], i, |log| + 1)
            == SentinelsOf(log, i, |log|) + if fetch.worker == i && fetch.item.Sentinel? then 1 else 0
  {
    SentinelsKept(log, fetch, i, |log|);
    assert (log + [fetch])[|log|] == fetch;
  }

  /** Tokens of the first `n` batches. */
  function TokensBefore(cfg: Config, n: nat): nat {
    if n == 0 then 0 else TokensBefore(cfg, n - 1) + cfg.Tokens(n - 1)
  }

  /** The queue and the log of fetches are what the main process put in, cut in two. */
  ghost predicate QueueOk(cfg: Config, s: State)
    requires cfg.Valid()
  {
    && |s.log| + |s.queue| == cfg.Batches() + cfg.instances
    && (forall n :: 0 <= n < |s.log| ==> s.log[n].worker < cfg.instances && s.log[n].item == cfg.QueuedAt(n))
    && forall n :: 0 <= n < |s.queue| ==> s.queue[n] == cfg.QueuedAt(|s.log| + n)
  }

  /** Every sentinel that was fetched ended one worker. */
  ghost predicate SentinelsOk(cfg: Config, s: State)
    requires cfg.Valid()
  {
    && Total(cfg, s.workers, Sentinels) == (if |s.log| > cfg.Batches() then |s.log| - cfg.Batches() else 0)
    && forall i :: 0 <= i < |s.workers| ==>
         SentinelsOf(s.log, i, |s.log|) == if HasSentinel(s.workers[i].pc) then 1 else 0
  }

  /** Fetched batches are being worked on, buffered, in the pipe, or collected; nothing is lost or doubled. */
  ghost predicate ResultsOk(cfg: Config, s: State)
    requires cfg.Valid()
  {
    var fetched := Min(|s.log|, cfg.Batches());
    && Total(cfg, s.workers, Results) + |s.pipe| + s.collected == fetched
    && Total(cfg, s.workers, ResultTokens) + SumTokens(cfg, s.pipe) + s.total == TokensBefore(cfg, fetched)
    && |s.pipe| + s.collected <= cfg.capacity
    && (s.collected > 0 ==> s.main.Drain? || s.main.Done?)
  }

  ghost predicate Ledger(cfg: Config, s: State)
    requires cfg.Valid()
  {
    && QueueOk(cfg, s) && SentinelsOk(cfg, s) && ResultsOk(cfg, s)
    && s.unfinished == |s.queue| + Total(cfg, s.workers, UnmarkedItems)
  }

  lemma StartKeepsLedger(cfg: Config, s: State)
    requires cfg.Valid() && Protocol(cfg, s) && Ledger(cfg, s) && MainEnabled(s)
    requires s.main.Acquire? || s.main.SetFlag? || s.main.Notify? || s.main.Release?
    ensures Ledger(cfg, MainNext(cfg, s))
  {
    var t, i := MainNext(cfg, s), s.main.worker;
    Updated(cfg, s.workers, i, t.workers[i]);
    assert t.workers == s.workers[i := t.workers[i]];
    assert forall q :: Total(cfg, t.workers, q) == Total(cfg, s.workers, q);
  }

  lemma MainKeepsLedger(cfg: Config, s: State)
    requires cfg.Valid() && Protocol(cfg, s) && Ledger(cfg, s) && MainEnabled(s)
    ensures Ledger(cfg, MainNext(cfg, s))
  {
    if s.main.Acquire? || s.main.SetFlag? || s.main.Notify? || s.main.Release? {
      StartKeepsLedger(cfg, s);
    }
  }

  lemma FlushKeepsLedger(cfg: Config, s: State, i: nat)
    requires cfg.Valid() && Protocol(cfg, s) && Ledger(cfg, s) && i < |s.workers| && FlushEnabled(cfg, s, i)
    ensures Ledger(cfg, FlushNext(s, i))
  {
    var t := FlushNext(s, i);
    var w := s.workers[i];
    assert WorkerOk(s.main, w, i);
    assert s.collected == 0;
    Updated(cfg, s.workers, i, t.workers[i]);
    SumAppend(cfg, s.pipe, w.buffered[0]);
  }

  lemma FetchKeepsQueue(cfg: Config, s: State, i: nat)
    requires cfg.Valid() && QueueOk(cfg, s) && |s.workers| == cfg.instances && i < |s.workers|
    requires s.workers[i].pc.Fetching? && WorkerEnabled(s, i)
    ensures QueueOk(cfg, WorkerNext(s, i)) && s.queue[0] == cfg.QueuedAt(|s.log|)
  {
    var t := WorkerNext(s, i);
    assert s.queue[0] == cfg.QueuedAt(|s.log| + 0);
    forall n | 0 <= n < |t.queue|
      ensures t.queue[n] == cfg.QueuedAt(|t.log| + n)
    {
      assert t.queue[n] == s.queue[n + 1];
    }
  }

  lemma FetchKeepsSentinels(cfg: Config, s: State, i: nat)
    requires cfg.Valid() && SentinelsOk(cfg, s) && i < |s.workers|
    requires s.workers[i].pc.Fetching? && WorkerEnabled(s, i) && s.queue[0] == cfg.QueuedAt(|s.log|)
    ensures SentinelsOk(cfg, WorkerNext(s, i))
  {
    var t := WorkerNext(s, i);
    TallyUpdate(cfg, s.workers, i, t.workers[i], Sentinels, |s.workers|);
    forall j | 0 <= j < |t.workers|
      ensures SentinelsOf(t.log, j, |t.log|) == if HasSentinel(t.workers[j].pc) then 1 else 0
    {
      SentinelsAppend(s.log, Fetch(i, s.queue[0]), j);
    }
  }

  lemma FetchKeepsResults(cfg: Config, s: State, i: nat)
    requires cfg.Valid() && ResultsOk(cfg, s) && i < |s.workers|
    requires s.workers[i].pc.Fetching? && WorkerEnabled(s, i) && s.queue[0] == cfg.QueuedAt(|s.log|)
    ensures ResultsOk(cfg, WorkerNext(s, i))
  {
    Updated(cfg, s.workers, i, WorkerNext(s, i).workers[i]);
  }

  lemma FetchKeepsLedger(cfg: Config, s: State, i: nat)
    requires cfg.Valid() && Ledger(cfg, s) && |s.workers| == cfg.instances && i < |s.workers|
    requires s.workers[i].pc.Fetching? && WorkerEnabled(s, i)
    ensures Ledger(cfg, WorkerNext(s, i))
  {
    FetchKeepsQueue(cfg, s, i);
    FetchKeepsSentinels(cfg, s, i);
    FetchKeepsResults(cfg, s, i);
    TallyUpdate(cfg, s.workers, i, WorkerNext(s, i).workers[i], UnmarkedItems, |s.workers|);
  }

  lemma GenerateKeepsLedger(cfg: Config, s: State, i: nat)
    requires cfg.Valid() && Ledger(cfg, s) && i < |s.workers| && s.workers[i].pc.Generating?
    ensures Ledger(cfg, WorkerNext(s, i))
  {
    var t := WorkerNext(s, i);
    var w := s.workers[i];
    Updated(cfg, s.workers, i, t.workers[i]);
    SumAppend(cfg, w.buffered, w.pc.batch);
    assert forall q :: Total(cfg, t.workers, q) == Total(cfg, s.workers, q);
  }

  lemma MarkKeepsLedger(cfg: Config, s: State, i: nat)
    requires cfg.Valid() && Ledger(cfg, s) && i < |s.workers| && Unmarked(s.workers[i].pc)
    ensures Ledger(cfg, WorkerNext(s, i))
  {
    var t := WorkerNext(s, i);
    Updated(cfg, s.workers, i, t.workers[i]);
    assert forall q :: q != UnmarkedItems ==> Total(cfg, t.workers, q) == Total(cfg, s.workers, q);
    assert Total(cfg, t.workers, UnmarkedItems) == Total(cfg, s.workers, UnmarkedItems) - 1;
  }

  lemma OtherKeepsLedger(cfg: Config, s: State, i: nat)
    requires cfg.Valid() && Ledger(cfg, s) && i < |s.workers|
    requires !s.workers[i].pc.Fetching? && !s.workers[i].pc.Generating? && !Unmarked(s.workers[i].pc)
    requires WorkerEnabled(s, i)
    ensures Ledger(cfg, WorkerNext(s, i))
  {
    var t := WorkerNext(s, i);
    Updated(cfg, s.workers, i, t.workers[i]);
    assert forall q :: Total(cfg, t.workers, q) == Total(cfg, s.workers, q);
  }

  // ----- every reachable state -----

  ghost predicate Invariant(cfg: Config, s: State)
    requires cfg.Valid()
  {
    Protocol(cfg, s) && Ledger(cfg, s)
  }

  lemma {:induction false} NothingYet(cfg: Config, ws: seq<Worker>, q: Quantity, n: nat)
    requires n <= |ws| && forall i :: 0 <= i < |ws| ==> ws[i] == Worker(Initialising, false, Free, [])
    ensures Tally(cfg, ws, q, n) == 0
  {
    if n > 0 {
      NothingYet(cfg, ws, q, n - 1);
    }
  }

  lemma InitialHolds(cfg: Config, queue: seq<Item>)
    requires cfg.Valid() && |queue| == cfg.Batches() + cfg.instances
    requires forall n :: 0 <= n < |queue| ==> queue[n] == cfg.QueuedAt(n)
    ensures Invariant(cfg, Initial(cfg, queue))
  {
    var s := Initial(cfg, queue);
    forall q: Quantity
      ensures Total(cfg, s.workers, q) == 0
    {
      NothingYet(cfg, s.workers, q, |s.workers|);
    }
  }

  /** Every step of every process keeps the invariant. */
  lemma NextKeeps(cfg: Config, s: State, step: Step)
    requires cfg.Valid() && Invariant(cfg, s) && Enabled(cfg, s, step)
    ensures Invariant(cfg, Next(cfg, s, step))
  {
    match step {
      case MainStep =>
        MainKeepsProtocol(cfg, s);
        MainKeepsLedger(cfg, s);
      case WorkerStep(i) =>
        WorkerKeepsProtocol(cfg, s, i);
        if s.workers[i].pc.Fetching? {
          FetchKeepsLedger(cfg, s, i);
        } else if s.workers[i].pc.Generating? {
          GenerateKeepsLedger(cfg, s, i);
        } else if Unmarked(s.workers[i].pc) {
          MarkKeepsLedger(cfg, s, i);
        } else {
          OtherKeepsLedger(cfg, s, i);
        }
      case FlushStep(i) =>
        FlushKeepsProtocol(cfg, s, i);
        FlushKeepsLedger(cfg, s, i);
    }
  }

  // ----- no lost wakeup, no deadlock -----

  /** Once the main process is past `notify` for a worker, that worker never sleeps again. */
  lemma NoLostWakeup(cfg: Config, s: State, i: nat)
    requires cfg.Valid() && Invariant(cfg, s) && i < |s.workers| && Notified(s.main, i)
    ensures !s.workers[i].pc.Sleeping? && s.workers[i].flag
  {
    assert WorkerOk(s.main, s.workers[i], i);
  }

  lemma {:induction false} SentinelsBound(cfg: Config, ws: seq<Worker>, n: nat, i: nat)
    requires n <= |ws| && i < |ws|
    ensures Tally(cfg, ws, Sentinels, n) <= n
    ensures i < n && !HasSentinel(ws[i].pc) ==> Tally(cfg, ws, Sentinels, n) < n
  {
    if n > 0 {
      SentinelsBound(cfg, ws, n - 1, i);
    }
  }

  /** A worker that still wants an item finds one. */
  lemma FetchNeverBlocks(cfg: Config, s: State, i: nat)
    requires cfg.Valid() && Invariant(cfg, s) && i < |s.workers| && !HasSentinel(s.workers[i].pc)
    ensures s.queue != []
  {
    SentinelsBound(cfg, s.workers, |s.workers|, i);
  }

  lemma {:induction false} ResultsBound(cfg: Config, ws: seq<Worker>, n: nat, i: nat)
    requires i < |ws| && n <= |ws|
    ensures Tally(cfg, ws, Results, n) >= if i < n then |ws[i].buffered| else 0
  {
    if n > 0 {
      ResultsBound(cfg, ws, n - 1, i);
    }
  }

  /** A worker the main process has started can go on, if the pipe has room for all results. */
  lemma StartedWorkerRuns(cfg: Config, s: State, i: nat) returns (step: Step)
    requires cfg.Valid() && Invariant(cfg, s) && cfg.Batches() <= cfg.capacity && i < |s.workers|
    requires Notified(s.main, i) && !LockedByMain(s.main, i) && !s.workers[i].pc.Exited?
    ensures Enabled(cfg, s, step)
  {
    var w := s.workers[i];
    assert WorkerOk(s.main, w, i);
    step := WorkerStep(i);
    if w.pc.Fetching? {
      FetchNeverBlocks(cfg, s, i);
    } else if w.pc.Exiting? && w.buffered != [] {
      ResultsBound(cfg, s.workers, |s.workers|, i);
      step := FlushStep(i);
    }
  }

  lemma {:induction false} AllMarked(cfg: Config, ws: seq<Worker>, n: nat)
    requires n <= |ws| && forall i :: 0 <= i < |ws| ==> ws[i].pc.Exited? && ws[i].buffered == []
    ensures Tally(cfg, ws, UnmarkedItems, n) == 0 && Tally(cfg, ws, Sentinels, n) == n
    ensures Tally(cfg, ws, Results, n) == 0 && Tally(cfg, ws, ResultTokens, n) == 0
  {
    if n > 0 {
      AllMarked(cfg, ws, n - 1);
    }
  }

  /** When all workers have ended, the queue is empty and every item was marked as done. */
  lemma WhenAllEnded(cfg: Config, s: State)
    requires cfg.Valid() && Invariant(cfg, s)
    requires forall i :: 0 <= i < |s.workers| ==> Joined(s.main, i)
    ensures s.queue == [] && s.unfinished == 0 && |s.log| == cfg.Batches() + cfg.instances
    ensures |s.pipe| + s.collected == cfg.Batches() <= cfg.capacity
    ensures SumTokens(cfg, s.pipe) + s.total == TokensBefore(cfg, cfg.Batches())
  {
    forall i | 0 <= i < |s.workers|
      ensures s.workers[i].pc.Exited? && s.workers[i].buffered == []
    {
      assert WorkerOk(s.main, s.workers[i], i);
    }
    AllMarked(cfg, s.workers, |s.workers|);
  }

  /** As long as the pipe can hold all results, some process can always go on until all is done. */
  lemma SomeStepEnabled(cfg: Config, s: State) returns (step: Step)
    requires cfg.Valid() && Invariant(cfg, s) && cfg.Batches() <= cfg.capacity && !s.main.Done?
    ensures Enabled(cfg, s, step)
  {
    step := MainStep;
    match s.main {
      case Acquire(i) =>
        assert WorkerOk(s.main, s.workers[i], i);
        if s.workers[i].lock.HeldByWorker? {
          step := WorkerStep(i);
        }
      case JoinWorker(i) =>
        if !s.workers[i].pc.Exited? {
          step := StartedWorkerRuns(cfg, s, i);
        }
      case JoinQueue => WhenAllEnded(cfg, s);
      case _ =>
    }
  }

  /** Otherwise the main process never gets past joining the workers. */
  lemma StuckInJoin(cfg: Config, s: State)
    requires cfg.Valid() && Invariant(cfg, s) && cfg.Batches() > cfg.capacity
    ensures !s.main.JoinQueue? && !s.main.Drain? && !s.main.Done?
  {
    if s.main.JoinQueue? || s.main.Drain? || s.main.Done? {
      WhenAllEnded(cfg, s);
    }
  }

  // ----- runs are finite -----

  function PcRank(w: Worker): nat {
    match w.pc
    case Initialising => 10
    case WantLock => 9
    case Holding => if w.flag then 5 else 8
    case Sleeping => 7
    case Woken => 6
    case Fetching => 4
    case Loaded(_) => 11
    case Generating(_) => 10
    case Finishing => 3
    case Exiting => 2
    case Exited => 0
  }

  function Rank(w: Worker): nat { PcRank(w) + 2 * |w.buffered| }

  function Ranks(ws: seq<Worker>, n: nat): nat
    requires n <= |ws|
  {
    if n == 0 then 0 else Ranks(ws, n - 1) + Rank(ws[n - 1])
  }

  lemma {:induction false} RanksUpdate(ws: seq<Worker>, i: nat, w: Worker, n: nat)
    requires i < |ws| && n <= |ws|
    ensures Ranks(ws[i := w], n) == Ranks(ws, n) + if i < n then Rank(w) - Rank(ws[i]) else 0
  {
    if n > 0 {
      RanksUpdate(ws, i, w, n - 1);
    }
  }

  function MainRank(cfg: Config, main: MainPc): int {
    var n := cfg.instances;
    match main
    case Acquire(i) => n + 4 * (n - i) + 3
    case SetFlag(i) => n + 4 * (n - i) + 2
    case Notify(i) => n + 4 * (n - i) + 1
    case Release(i) => n + 4 * (n - i)
    case JoinWorker(i) => n - i + 2
    case JoinQueue => 2
    case Drain => 1
    case Done => 0
  }

  function Measure(cfg: Config, s: State): int {
    MainRank(cfg, s.main) + 10 * |s.queue| + |s.pipe| + Ranks(s.workers, |s.workers|)
  }

  lemma StartDecreases(cfg: Config, s: State)
    requires Protocol(cfg, s) && MainEnabled(s)
    requires s.main.Acquire? || s.main.SetFlag? || s.main.Notify? || s.main.Release?
    ensures Measure(cfg, MainNext(cfg, s)) < Measure(cfg, s)
  {
    var t, i := MainNext(cfg, s), s.main.worker;
    assert WorkerOk(s.main, s.workers[i], i);
    RanksUpdate(s.workers, i, t.workers[i], |s.workers|);
    assert Rank(t.workers[i]) <= Rank(s.workers[i]);
    assert MainRank(cfg, t.main) < MainRank(cfg, s.main);
  }

  lemma MainDecreases(cfg: Config, s: State)
    requires Protocol(cfg, s) && MainEnabled(s)
    ensures Measure(cfg, MainNext(cfg, s)) < Measure(cfg, s)
  {
    if s.main.Acquire? || s.main.SetFlag? || s.main.Notify? || s.main.Release? {
      StartDecreases(cfg, s);
    }
  }

  lemma WorkerDecreases(cfg: Config, s: State, i: nat)
    requires Protocol(cfg, s) && i < |s.workers| && WorkerEnabled(s, i)
    ensures Measure(cfg, WorkerNext(s, i)) < Measure(cfg, s)
  {
    RanksUpdate(s.workers, i, WorkerNext(s, i).workers[i], |s.workers|);
    assert WorkerOk(s.main, s.workers[i], i);
  }

  lemma FlushDecreases(cfg: Config, s: State, i: nat)
    requires i < |s.workers| && FlushEnabled(cfg, s, i)
    ensures Measure(cfg, FlushNext(s, i)) < Measure(cfg, s)
  {
    RanksUpdate(s.workers, i, FlushNext(s, i).workers[i], |s.workers|);
  }

  lemma MeasureNatural(cfg: Config, s: State)
    requires Protocol(cfg, s)
    ensures 0 <= Measure(cfg, s)
  {
  }

  /** Every step brings the run closer to its end. */
  lemma StepsDecrease(cfg: Config, s: State, step: Step)
    requires cfg.Valid() && Invariant(cfg, s) && Enabled(cfg, s, step)
    ensures 0 <= Measure(cfg, Next(cfg, s, step)) < Measure(cfg, s)
  {
    NextKeeps(cfg, s, step);
    MeasureNatural(cfg, Next(cfg, s, step));
    match step {
      case MainStep => MainDecreases(cfg, s);
      case WorkerStep(i) => WorkerDecreases(cfg, s, i);
      case FlushStep(i) => FlushDecreases(cfg, s, i);
    }
  }

  // ----- the end -----

  /** The batches' tokens add up to those of all samples. */
  lemma {:induction false} AllTokens(cfg: Config, n: nat)
    requires cfg.Valid() && n <= cfg.Batches()
    ensures TokensBefore(cfg, n)
            == cfg.maxNewTokens * if n < cfg.Batches() then BatchStart(cfg.batchSize, n) else cfg.samples
  {
    if n > 0 {
      AllTokens(cfg, n - 1);
      BatchesTile(cfg.samples, cfg.batchSize, n - 1);
      AddRows(cfg.maxNewTokens, BatchStart(cfg.batchSize, n - 1), BatchEnd(cfg.samples, cfg.batchSize, n - 1));
    }
  }

  lemma AddRows(tokens: nat, start: nat, end: nat)
    requires start <= end
    ensures tokens * start + tokens * (end - start) == tokens * end
  {
  }

  ghost predicate Finished(cfg: Config, s: State)
    requires cfg.Valid()
  {
    && s.main.Done? && s.queue == [] && s.unfinished == 0 && s.pipe == []
    && |s.log| == cfg.Batches() + cfg.instances
    && (forall k :: 0 <= k < cfg.Batches() ==> s.log[k].item == Batch(k))
    && (forall i :: 0 <= i < cfg.instances ==> SentinelsOf(s.log, i, |s.log|) == 1)
    && s.collected == cfg.Batches() && s.total == cfg.maxNewTokens * cfg.samples
  }

  /**
   At the end each batch was fetched exactly once, each worker took exactly one sentinel, nothing is
   left, and the tokens counted are those of all samples.
   */
  lemma DoneIsFinished(cfg: Config, s: State)
    requires cfg.Valid() && Invariant(cfg, s) && s.main.Done?
    ensures Finished(cfg, s)
  {
    WhenAllEnded(cfg, s);
    AllTokens(cfg, cfg.Batches());
    forall i | 0 <= i < cfg.instances
      ensures SentinelsOf(s.log, i, |s.log|) == 1
    {
      assert WorkerOk(s.main, s.workers[i], i);
    }
  }

  function StepAt(instances: nat, choice: nat): Step {
    if choice < instances then WorkerStep(choice)
    else if choice < 2 * instances then FlushStep(choice - instances)
    else MainStep
  }

  /** Any scheduling of the processes: whichever can go on may be the next. */
  method Run(cfg: Config) returns (s: State)
    requires cfg.Valid() && cfg.Batches() <= cfg.capacity
    ensures Finished(cfg, s)
  {
    var queue := FillQueue(cfg);
    s := Initial(cfg, queue);
    InitialHolds(cfg, queue);
    while !s.main.Done?
      invariant Invariant(cfg, s)
      decreases Measure(cfg, s)
    {
      ghost var someStep := SomeStepEnabled(cfg, s);
      ghost var choices := 2 * cfg.instances + 1;
      assert exists choice: nat :: choice < choices && Enabled(cfg, s, StepAt(cfg.instances, choice)) by {
        StepHasChoice(cfg, s, someStep);
      }
      var choice: nat :| choice < 2 * cfg.instances + 1 && Enabled(cfg, s, StepAt(cfg.instances, choice));
      var step := StepAt(cfg.instances, choice);
      NextKeeps(cfg, s, step);
      StepsDecrease(cfg, s, step);
      s := Next(cfg, s, step);
    }
    DoneIsFinished(cfg, s);
  }

  lemma StepHasChoice(cfg: Config, s: State, step: Step)
    requires |s.workers| == cfg.instances && Enabled(cfg, s, step)
    ensures exists choice: nat :: choice < 2 * cfg.instances + 1 && Enabled(cfg, s, StepAt(cfg.instances, choice))
  {
    var choice: nat := match step
      case WorkerStep(i) => i
      case FlushStep(i) => cfg.instances + i
      case MainStep => 2 * cfg.instances;
    assert StepAt(cfg.instances, choice) == step;
  }

  // ----- every run -----

  /** Steps that can be taken one after the other. */
  predicate Runnable(cfg: Config, s: State, steps: seq<Step>)
    decreases |steps|
  {
    steps == [] || (Enabled(cfg, s, steps[0]) && Runnable(cfg, Next(cfg, s, steps[0]), steps[1..]))
  }

  function After(cfg: Config, s: State, steps: seq<Step>): State
    requires Runnable(cfg, s, steps)
    decreases |steps|
  {
    if steps == [] then s else After(cfg, Next(cfg, s, steps[0]), steps[1..])
  }

  /** Every run keeps the invariant and is no longer than the measure of the state it starts in. */
  lemma {:induction false} EveryRun(cfg: Config, s: State, steps: seq<Step>)
    requires cfg.Valid() && Invariant(cfg, s) && Runnable(cfg, s, steps)
    ensures Invariant(cfg, After(cfg, s, steps)) && |steps| <= Measure(cfg, s)
    decreases |steps|
  {
    if steps == [] {
      MeasureNatural(cfg, s);
    } else {
      NextKeeps(cfg, s, steps[0]);
      StepsDecrease(cfg, s, steps[0]);
      EveryRun(cfg, Next(cfg, s, steps[0]), steps[1..]);
    }
  }

  ghost predicate Halted(cfg: Config, s: State) {
    forall step: Step :: !Enabled(cfg, s, step)
  }

  /**
   Every run that cannot go on has finished, if and only if the pipe can hold one result per batch;
   with more batches than that, every such run is stuck.
   */
  lemma HaltedRuns(cfg: Config, s: State, steps: seq<Step>)
    requires cfg.Valid() && Invariant(cfg, s) && Runnable(cfg, s, steps) && Halted(cfg, After(cfg, s, steps))
    ensures Finished(cfg, After(cfg, s, steps)) <==> cfg.Batches() <= cfg.capacity
  {
    EveryRun(cfg, s, steps);
    var end := After(cfg, s, steps);
    if cfg.Batches() <= cfg.capacity {
      if !end.main.Done? {
        var step := SomeStepEnabled(cfg, end);
      }
      DoneIsFinished(cfg, end);
    } else {
      StuckInJoin(cfg, end);
    }
  }

  lemma StepOrHalted(cfg: Config, s: State) returns (steps: seq<Step>)
    ensures |steps| <= 1 && (steps == [] ==> Halted(cfg, s)) && (steps != [] ==> Enabled(cfg, s, steps[0]))
  {
    if step: Step :| Enabled(cfg, s, step) {
      steps := [step];
    } else {
      steps := [];
    }
  }

  /** From every state a run can reach, the run goes on to one that cannot go further. */
  lemma {:induction false} RunsHalt(cfg: Config, s: State) returns (steps: seq<Step>)
    requires cfg.Valid() && Invariant(cfg, s)
    ensures Runnable(cfg, s, steps) && Halted(cfg, After(cfg, s, steps))
    decreases Measure(cfg, s)
  {
    steps := StepOrHalted(cfg, s);
    if steps != [] {
      var step := steps[0];
      NextKeeps(cfg, s, step);
      StepsDecrease(cfg, s, step);
      var rest := RunsHalt(cfg, Next(cfg, s, step));
      steps := [step] + rest;
      assert steps[1..] == rest;
    }
  }

  /** `steps` can be taken from `s` and lead to `t`. */
  ghost predicate Leads(cfg: Config, s: State, steps: seq<Step>, t: State) {
    Runnable(cfg, s, steps) && After(cfg, s, steps) == t
  }

  lemma {:induction false} LeadsOn(cfg: Config, s: State, steps: seq<Step>, t: State, more: seq<Step>, u: State)
    requires Leads(cfg, s, steps, t) && Leads(cfg, t, more, u)
    ensures Leads(cfg, s, steps + more, u)
    decreases |steps|
  {
    if steps == [] {
      assert steps + more == more;
    } else {
      LeadsOn(cfg, Next(cfg, s, steps[0]), steps[1..], t, more, u);
      assert (steps + more)[1..] == steps[1..] + more;
    }
  }

  /** Every run can be continued until it cannot go further. */
  lemma EveryRunHalts(cfg: Config, s: State, steps: seq<Step>) returns (more: seq<Step>)
    requires cfg.Valid() && Invariant(cfg, s) && Runnable(cfg, s, steps)
    ensures Runnable(cfg, s, steps + more) && Halted(cfg, After(cfg, s, steps + more))
  {
    EveryRun(cfg, s, steps);
    var t := After(cfg, s, steps);
    more := RunsHalt(cfg, t);
    LeadsOn(cfg, s, steps, t, more, After(cfg, t, more));
  }

  ghost predicate Stuck(cfg: Config, s: State, steps: seq<Step>) {
    && Runnable(cfg, s, steps) && Halted(cfg, After(cfg, s, steps))
    && !After(cfg, s, steps).main.Done?
  }

  /** A run that gets stuck exists exactly when there are more batches than the pipe can hold results. */
  lemma StuckRunsExist(cfg: Config, s: State)
    requires cfg.Valid() && Invariant(cfg, s)
    ensures (exists steps :: Stuck(cfg, s, steps)) <==> cfg.Batches() > cfg.capacity
  {
    if cfg.Batches() > cfg.capacity {
      var steps := RunsHalt(cfg, s);
      EveryRun(cfg, s, steps);
      StuckInJoin(cfg, After(cfg, s, steps));
      assert Stuck(cfg, s, steps);
    } else {
      forall steps | Runnable(cfg, s, steps) && Halted(cfg, After(cfg, s, steps))
        ensures After(cfg, s, steps).main.Done?
      {
        HaltedRuns(cfg, s, steps);
      }
    }
  }

  // ----- a run that gets stuck -----

  /** One worker and two batches of one sample, the pipe with room for one result. */
  const SMALL_PIPE := Config(1, 2, 1, 8, 1)

  /** The only worker, what is left in the queue after `fetched` items, and what is in the pipe. */
  function Lone(w: Worker, fetched: nat, unfinished: int, pipe: seq<nat>): State
    requires fetched <= 3
  {
    var items := [Batch(0), Batch(1), Sentinel];
    var log := [Fetch(0, Batch(0)), Fetch(0, Batch(1)), Fetch(0, Sentinel)];
    State([w], items[fetched..], log[..fetched], unfinished, pipe, 0, 0, JoinWorker(0))
  }

  const THREE_STEPS := [WorkerStep(0), WorkerStep(0), WorkerStep(0)]

  lemma LoneStarts()
    ensures Leads(SMALL_PIPE, Initial(SMALL_PIPE, [Batch(0), Batch(1), Sentinel]),
                  [MainStep, MainStep, MainStep, MainStep], Lone(Worker(Initialising, true, Free, []), 0, 3, []))
  {
  }

  lemma LoneWakes()
    ensures Leads(SMALL_PIPE, Lone(Worker(Initialising, true, Free, []), 0, 3, []),
                  THREE_STEPS, Lone(Worker(Fetching, true, Free, []), 0, 3, []))
  {
  }

  /** A batch from the queue to the buffer. */
  lemma LoneBatch(k: nat, pipe: seq<nat>)
    requires k < 2
    ensures Leads(SMALL_PIPE, Lone(Worker(Fetching, true, Free, []), k, 3 - k, pipe),
                  THREE_STEPS, Lone(Worker(Fetching, true, Free, [k]), k + 1, 2 - k, pipe))
  {
    var s := Lone(Worker(Fetching, true, Free, []), k, 3 - k, pipe);
    var t := Lone(Worker(Fetching, true, Free, [k]), k + 1, 2 - k, pipe);
    assert s.queue[0] == Batch(k) && s.queue[1..] == t.queue;
    assert s.log + [Fetch(0, Batch(k))] == t.log;
    assert [] + [k] == [k];
  }

  lemma LoneFlush()
    ensures Leads(SMALL_PIPE, Lone(Worker(Fetching, true, Free, [0]), 1, 2, []), [FlushStep(0)],
                  Lone(Worker(Fetching, true, Free, []), 1, 2, [0]))
  {
    assert [0][1..] == [] && [] + [0] == [0];
  }

  lemma LoneEnds()
    ensures Leads(SMALL_PIPE, Lone(Worker(Fetching, true, Free, [1]), 2, 1, [0]), [WorkerStep(0), WorkerStep(0)],
                  Lone(Worker(Exiting, true, Free, [1]), 3, 0, [0]))
  {
  }

  /** The worker takes everything, and only its first result fits the pipe. */
  const TAKE_ALL := THREE_STEPS + ([FlushStep(0)] + (THREE_STEPS + [WorkerStep(0), WorkerStep(0)]))

  lemma LoneTakesAll()
    ensures Leads(SMALL_PIPE, Lone(Worker(Fetching, true, Free, []), 0, 3, []), TAKE_ALL,
                  Lone(Worker(Exiting, true, Free, [1]), 3, 0, [0]))
  {
    hide Leads, Lone;
    var first, second := Lone(Worker(Fetching, true, Free, []), 0, 3, []), Lone(Worker(Fetching, true, Free, []), 1, 2, [0]);
    var end := Lone(Worker(Exiting, true, Free, [1]), 3, 0, [0]);
    LoneBatch(1, [0]);
    LoneEnds();
    LeadsOn(SMALL_PIPE, second, THREE_STEPS, Lone(Worker(Fetching, true, Free, [1]), 2, 1, [0]),
            [WorkerStep(0), WorkerStep(0)], end);
    LoneFlush();
    var loaded := Lone(Worker(Fetching, true, Free, [0]), 1, 2, []);
    LeadsOn(SMALL_PIPE, loaded, [FlushStep(0)], second, THREE_STEPS + [WorkerStep(0), WorkerStep(0)], end);
    LoneBatch(0, []);
    LeadsOn(SMALL_PIPE, first, THREE_STEPS, loaded, [FlushStep(0)] + (THREE_STEPS + [WorkerStep(0), WorkerStep(0)]), end);
  }

  /** A run in which main process and worker end up waiting for each other. */
  lemma SecondResultStuck()
    ensures Stuck(SMALL_PIPE, Initial(SMALL_PIPE, [Batch(0), Batch(1), Sentinel]),
                  [MainStep, MainStep, MainStep, MainStep] + (THREE_STEPS + TAKE_ALL))
  {
    var start := Initial(SMALL_PIPE, [Batch(0), Batch(1), Sentinel]);
    var fetching := Lone(Worker(Fetching, true, Free, []), 0, 3, []);
    var end := Lone(Worker(Exiting, true, Free, [1]), 3, 0, [0]);
    LoneStarts();
    LoneWakes();
    LoneTakesAll();
    LeadsOn(SMALL_PIPE, Lone(Worker(Initialising, true, Free, []), 0, 3, []), THREE_STEPS, fetching, TAKE_ALL, end);
    LeadsOn(SMALL_PIPE, start, [MainStep, MainStep, MainStep, MainStep], Lone(Worker(Initialising, true, Free, []), 0, 3, []),
            THREE_STEPS + TAKE_ALL, end);
    assert Halted(SMALL_PIPE, end);
  }
}
