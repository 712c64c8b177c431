/**
What every interleaving of the transfer queue keeps: one goroutine per task, rows marked running have
a live goroutine, tasks are conserved, and no wake-up is lost.
*/
module QueueInvariants {
  import opened QueueModel

  // ----- the invariant -----

  /** `running` and the goroutines that are still registered name each other, so two live goroutines
      never share a task. */
  ghost predicate OneGoroutinePerTask(p: Pool) {
    && (forall g :: g in p.goroutines ==>
          g < p.nextG && p.goroutines[g].task in p.running && p.running[p.goroutines[g].task] == g)
    && (forall id :: id in p.running ==>
          p.running[id] in p.goroutines && p.goroutines[p.running[id]].task == id)
  }

  /** handleTaskResult only ever decides on the four outcomes its switch has. */
  ghost predicate VerdictsAreFinal(p: Pool) {
    forall g :: g in p.goroutines && p.goroutines[g].phase.Decided? ==>
      p.goroutines[g].phase.verdict in {Completed, Cancelled, Paused, Failed}
  }

  ghost predicate GoodPool(p: Pool) {
    OneGoroutinePerTask(p) && VerdictsAreFinal(p) && p.limit >= 1
  }

  predicate HoldsRow(phase: Phase) {
    phase.Transferring? || phase.Returned? || phase.Decided?
  }

  /** The task has a live goroutine that has marked its row running and not yet written its result. */
  predicate IsLive(p: Pool, id: TaskId) {
    id in p.running && p.running[id] in p.goroutines && HoldsRow(p.goroutines[p.running[id]].phase)
  }

  ghost predicate RunningRowsAreLive(s: State) {
    forall id :: HasStatus(s.db, id, Running) ==> IsLive(s.pool, id)
  }

  predicate ShowsPending(tasks: seq<Task>, id: TaskId) {
    exists i :: 0 <= i < |tasks| && tasks[i].id == id && tasks[i].row.status == Pending
  }

  /** Some dispatch is still owed, or holds an unprocessed snapshot with this row pending. */
  ghost predicate WakeUpComing(w: Wakes, id: TaskId) {
    || w.wanted > 0
    || w.filledBatches > 0
    || exists tasks :: tasks in w.snapshots && ShowsPending(tasks, id)
  }

  predicate Waiting(s: State, id: TaskId) {
    HasStatus(s.db, id, Pending) && id !in s.pool.running
  }

  predicate SlotFree(p: Pool) {
    |p.running| < p.limit
  }

  ghost predicate NoLostWakeUp(s: State) {
    SlotFree(s.pool) ==> forall id :: Waiting(s, id) ==> WakeUpComing(s.wakes, id)
  }

  ghost predicate GoodSnapshots(w: Wakes) {
    forall tasks :: tasks in w.snapshots ==> DistinctIds(tasks) && InRunOrder(tasks)
  }

  ghost predicate Inv(s: State) {
    && ConsistentDb(s.db) && GoodPool(s.pool) && GoodSnapshots(s.wakes)
    && RunningRowsAreLive(s) && NoLostWakeUp(s)
  }

  // ----- the tables -----

  lemma SetStatusKeepsDb(db: Db, id: TaskId, status: Status)
    requires ConsistentDb(db) && status in {Pending, Running, Paused, Failed}
    ensures ConsistentDb(SetStatus(db, id, status))
  {
    assert forall x :: Archived(SetStatus(db, id, status), x) <==> Archived(db, x);
  }

  lemma InsertKeepsDb(db: Db, row: Row)
    requires ConsistentDb(db) && row.status == Pending
    ensures ConsistentDb(Insert(db, row))
  {
    assert forall x :: Archived(Insert(db, row), x) <==> Archived(db, x);
  }

  lemma SetPriorityKeepsDb(db: Db, id: TaskId, priority: int)
    requires ConsistentDb(db)
    ensures ConsistentDb(SetPriority(db, id, priority))
  {
    assert forall x :: Archived(SetPriority(db, id, priority), x) <==> Archived(db, x);
  }

  lemma MoveToHistoryKeepsDb(db: Db, id: TaskId, status: Status)
    requires ConsistentDb(db) && status in {Completed, Cancelled}
    ensures ConsistentDb(MoveToHistory(db, id, status))
  {
    if id in db.queue {
      var moved := MoveToHistory(db, id, status);
      assert moved.history[|db.history|].queueId == id;
      forall x ensures Archived(moved, x) <==> Archived(db, x) || x == id {
        if Archived(db, x) {
          var i :| 0 <= i < |db.history| && db.history[i].queueId == x;
          assert moved.history[i].queueId == x;
        }
      }
      forall i | 0 <= i < |db.history| ensures db.history[i].queueId != id {
        assert Archived(db, db.history[i].queueId);
      }
    }
  }

  lemma PersistKeepsDb(db: Db, id: TaskId, verdict: Status)
    requires ConsistentDb(db) && verdict in {Completed, Cancelled, Paused, Failed}
    ensures ConsistentDb(Persist(db, id, verdict))
  {
    if verdict == Completed || verdict == Cancelled {
      MoveToHistoryKeepsDb(db, id, verdict);
    } else {
      SetStatusKeepsDb(db, id, verdict);
    }
  }

  lemma RecoverKeepsDb(db: Db)
    requires ConsistentDb(db)
    ensures ConsistentDb(RecoverDb(db))
  {
    assert forall x :: Archived(RecoverDb(db), x) <==> Archived(db, x);
  }

  lemma StepKeepsDb(s: State, e: Event)
    requires ConsistentDb(s.db) && GoodPool(s.pool) && Enabled(s, e)
    ensures ConsistentDb(Step(s, e).db)
  {
    match e
    case Queueing(q) =>
      if q.Queue? {
        InsertKeepsDb(s.db, Row(q.kind, Pending, q.priority, q.createdAt));
      } else if q.BatchCreate? {
        InsertKeepsDb(s.db, Row(CopyCross, Pending, q.priority, q.createdAt));
      } else if q.Reorder? {
        SetPriorityKeepsDb(s.db, q.id, q.priority);
      }
    case Dispatching(d) =>
    case Pausing(p) => SetStatusKeepsDb(s.db, p.id, Paused);
    case Requeueing(r) => SetStatusKeepsDb(s.db, r.id, Pending);
    case Cancelling(c) => MoveToHistoryKeepsDb(s.db, c.id, Cancelled);
    case Working(g, w) =>
      SetStatusKeepsDb(s.db, s.pool.goroutines[g].task, Running);
      if w.PersistResult? {
        PersistKeepsDb(s.db, s.pool.goroutines[g].task, s.pool.goroutines[g].phase.verdict);
      }
    case Restart(_) => RecoverKeepsDb(s.db);
  }

  // ----- the admission loop -----

  predicate Startable(p: Pool, task: Task) {
    task.row.status == Pending && task.id !in p.running
  }

  lemma StartTaskKeepsPool(p: Pool, id: TaskId)
    requires OneGoroutinePerTask(p) && id !in p.running
    ensures OneGoroutinePerTask(StartTask(p, id))
    ensures |StartTask(p, id).running| == |p.running| + 1
  {
    var t := StartTask(p, id);
    assert t.running.Keys == p.running.Keys + {id};
    forall g | g in t.goroutines
      ensures g < t.nextG && t.goroutines[g].task in t.running && t.running[t.goroutines[g].task] == g
    {
      if g != p.nextG {
        assert g in p.goroutines;
      }
    }
  }

  /** The later pool has only more tasks started, none of them past the limit. */
  ghost predicate OnlyStarts(p: Pool, t: Pool) {
    && t.limit == p.limit
    && (forall id :: id in p.running ==> id in t.running && t.running[id] == p.running[id])
    && (forall g :: g in p.goroutines ==> g in t.goroutines && t.goroutines[g] == p.goroutines[g])
    && (forall g :: g in t.goroutines && g !in p.goroutines ==>
          t.goroutines[g] == Goroutine(t.goroutines[g].task, Spawned, Unset, false))
    && |p.running| <= |t.running|
    && (|t.running| > |p.running| ==> |t.running| <= p.limit)
  }

  lemma StartTaskOnlyStarts(p: Pool, id: TaskId)
    requires OneGoroutinePerTask(p) && id !in p.running && SlotFree(p)
    ensures OnlyStarts(p, StartTask(p, id))
  {
    StartTaskKeepsPool(p, id);
  }

  lemma OnlyStartsTwice(p: Pool, q: Pool, t: Pool)
    requires OnlyStarts(p, q) && OnlyStarts(q, t)
    ensures OnlyStarts(p, t)
  {
  }

  lemma {:induction false} AdmitLoopOnlyStarts(p: Pool, tasks: seq<Task>)
    requires OneGoroutinePerTask(p)
    ensures OneGoroutinePerTask(AdmitLoop(p, tasks)) && OnlyStarts(p, AdmitLoop(p, tasks))
    decreases |tasks|
  {
    if tasks == [] || !SlotFree(p) {
    } else if !Startable(p, tasks[0]) {
      AdmitLoopOnlyStarts(p, tasks[1..]);
    } else {
      var q := StartTask(p, tasks[0].id);
      StartTaskKeepsPool(p, tasks[0].id);
      StartTaskOnlyStarts(p, tasks[0].id);
      AdmitLoopOnlyStarts(q, tasks[1..]);
      OnlyStartsTwice(p, q, AdmitLoop(q, tasks[1..]));
    }
  }

  /** When the loop leaves a slot over, every pending task of the snapshot is running. */
  lemma {:induction false} AdmitLoopExhausts(p: Pool, tasks: seq<Task>, i: nat)
    requires OneGoroutinePerTask(p)
    requires i < |tasks| && tasks[i].row.status == Pending
    requires SlotFree(AdmitLoop(p, tasks))
    ensures tasks[i].id in AdmitLoop(p, tasks).running
    decreases |tasks|
  {
    AdmitLoopOnlyStarts(p, tasks);
    var q := if Startable(p, tasks[0]) then StartTask(p, tasks[0].id) else p;
    if Startable(p, tasks[0]) {
      StartTaskKeepsPool(p, tasks[0].id);
    }
    AdmitLoopOnlyStarts(q, tasks[1..]);
    if i > 0 {
      AdmitLoopExhausts(q, tasks[1..], i - 1);
    }
  }

  // ----- goroutines -----

  lemma SignalKeepsPool(p: Pool, id: TaskId, intent: Intent)
    requires GoodPool(p)
    ensures GoodPool(Signal(p, id, intent))
  {
  }

  lemma SetPhaseKeepsPool(p: Pool, g: GoroutineId, phase: Phase)
    requires GoodPool(p) && g in p.goroutines
    requires phase.Decided? ==> phase.verdict in {Completed, Cancelled, Paused, Failed}
    ensures GoodPool(SetPhase(p, g, phase))
  {
  }

  lemma UnregisterKeepsPool(p: Pool, g: GoroutineId)
    requires GoodPool(p) && g in p.goroutines
    ensures GoodPool(Unregister(p, g))
  {
  }

  lemma WorkStepKeepsPool(s: State, g: GoroutineId, w: WorkEvent)
    requires GoodPool(s.pool) && WorkEnabled(s, g, w)
    ensures GoodPool(WorkStep(s, g, w).pool)
  {
    match w
    case MarkRunning => SetPhaseKeepsPool(s.pool, g, Transferring);
    case TransferReturns(outcome) => SetPhaseKeepsPool(s.pool, g, Returned(outcome));
    case Decide =>
      var self := s.pool.goroutines[g];
      SetPhaseKeepsPool(s.pool, g, Decided(Verdict(self.phase.outcome, self.intent)));
    case PersistResult => SetPhaseKeepsPool(s.pool, g, Persisted);
    case Finish => UnregisterKeepsPool(s.pool, g);
  }

  lemma AdmitLoopKeepsPool(p: Pool, tasks: seq<Task>)
    requires GoodPool(p)
    ensures GoodPool(AdmitLoop(p, tasks))
  {
    AdmitLoopOnlyStarts(p, tasks);
  }

  lemma StepKeepsPool(s: State, e: Event)
    requires GoodPool(s.pool) && Enabled(s, e)
    ensures GoodPool(Step(s, e).pool)
  {
    match e
    case Queueing(q) =>
    case Dispatching(d) => AdmitLoopKeepsPool(s.pool, d.tasks);
    case Pausing(p) => SignalKeepsPool(s.pool, p.id, WantPause);
    case Requeueing(r) =>
    case Cancelling(c) => SignalKeepsPool(s.pool, c.id, WantCancel);
    case Working(g, w) => WorkStepKeepsPool(s, g, w);
    case Restart(_) =>
  }

  // ----- rows marked running -----

  /** A step that marks no row running and ends no live goroutine. */
  ghost predicate MarksNothing(s: State, t: State) {
    forall id ::
      && (HasStatus(t.db, id, Running) ==> HasStatus(s.db, id, Running))
      && (IsLive(s.pool, id) ==> IsLive(t.pool, id))
  }

  lemma QueueStepMarksNothing(s: State, q: QueueEvent)
    requires QueueEnabled(s, q)
    ensures MarksNothing(s, QueueStep(s, q))
  {
  }

  lemma PauseStepMarksNothing(s: State, p: PauseEvent)
    ensures MarksNothing(s, PauseStep(s, p))
  {
  }

  lemma CancelStepMarksNothing(s: State, c: CancelEvent)
    ensures MarksNothing(s, CancelStep(s, c))
  {
  }

  lemma RequeueStepMarksNothing(s: State, r: RequeueEvent)
    ensures MarksNothing(s, RequeueStep(s, r))
  {
  }

  lemma WorkStepKeepsRowsLive(s: State, g: GoroutineId, w: WorkEvent)
    requires GoodPool(s.pool) && RunningRowsAreLive(s) && WorkEnabled(s, g, w)
    ensures RunningRowsAreLive(WorkStep(s, g, w))
  {
    var t := WorkStep(s, g, w);
    forall id | HasStatus(t.db, id, Running) ensures IsLive(t.pool, id) {
      if w.MarkRunning? && id == s.pool.goroutines[g].task {
        assert s.pool.running[id] == g;
      } else {
        assert HasStatus(s.db, id, Running);
      }
    }
  }

  lemma StepKeepsRowsLive(s: State, e: Event)
    requires GoodPool(s.pool) && RunningRowsAreLive(s) && Enabled(s, e)
    ensures RunningRowsAreLive(Step(s, e))
  {
    match e
    case Queueing(q) => QueueStepMarksNothing(s, q);
    case Dispatching(d) =>
      AdmitLoopOnlyStarts(s.pool, d.tasks);
      assert MarksNothing(s, Step(s, e));
    case Pausing(p) => PauseStepMarksNothing(s, p);
    case Requeueing(r) => RequeueStepMarksNothing(s, r);
    case Cancelling(c) => CancelStepMarksNothing(s, c);
    case Working(g, w) => WorkStepKeepsRowsLive(s, g, w);
    case Restart(_) =>
  }

  // ----- no lost wake-up -----

  /** A step that frees no slot, makes no task wait and takes no promise back. */
  ghost predicate Quiet(s: State, t: State, id: TaskId) {
    && s.pool.running == t.pool.running && s.pool.limit == t.pool.limit
    && s.wakes.wanted <= t.wakes.wanted
    && s.wakes.snapshots == t.wakes.snapshots
    && s.wakes.filledBatches <= t.wakes.filledBatches
    && (Waiting(t, id) ==> Waiting(s, id))
  }

  lemma QuietKeepsPromises(s: State, t: State, id: TaskId)
    requires NoLostWakeUp(s) && Quiet(s, t, id) && SlotFree(t.pool) && Waiting(t, id)
    ensures WakeUpComing(t.wakes, id)
  {
    assert WakeUpComing(s.wakes, id);
  }

  lemma SnapshotKeepsPromise(s: State, tasks: seq<Task>, id: TaskId)
    requires DispatchEnabled(s, TakeSnapshot(tasks)) && HasStatus(s.db, id, Pending)
    ensures WakeUpComing(DispatchStep(s, TakeSnapshot(tasks)).wakes, id)
  {
    assert Lists(tasks, id);
    assert ShowsPending(tasks, id);
    assert tasks in DispatchStep(s, TakeSnapshot(tasks)).wakes.snapshots;
  }

  lemma AdmitKeepsPromise(s: State, tasks: seq<Task>, id: TaskId)
    requires GoodPool(s.pool) && NoLostWakeUp(s) && DispatchEnabled(s, Admit(tasks))
    requires var t := DispatchStep(s, Admit(tasks)); SlotFree(t.pool) && Waiting(t, id)
    ensures WakeUpComing(DispatchStep(s, Admit(tasks)).wakes, id)
  {
    var t := DispatchStep(s, Admit(tasks));
    AdmitLoopOnlyStarts(s.pool, tasks);
    assert WakeUpComing(s.wakes, id);
    if s.wakes.wanted == 0 && s.wakes.filledBatches == 0 {
      var shown :| shown in s.wakes.snapshots && ShowsPending(shown, id);
      if shown == tasks {
        var i :| 0 <= i < |tasks| && tasks[i].id == id && tasks[i].row.status == Pending;
        AdmitLoopExhausts(s.pool, tasks, i);
      }
      assert shown in t.wakes.snapshots;
    }
  }

  /** New rows, a new limit and a filled batch that ends all owe a dispatch. */
  lemma QueueStepIsQuiet(s: State, q: QueueEvent, id: TaskId)
    requires QueueEnabled(s, q)
    requires var t := QueueStep(s, q); t.wakes.wanted == 0 && t.wakes.filledBatches == 0
    ensures Quiet(s, QueueStep(s, q), id)
  {
  }

  lemma PausedRowStopsWaiting(db: Db, paused: TaskId, id: TaskId)
    ensures HasStatus(SetStatus(db, paused, Paused), id, Pending) ==> HasStatus(db, id, Pending)
  {
  }

  lemma SignalFreesNothing(p: Pool, id: TaskId, intent: Intent)
    ensures Signal(p, id, intent).running == p.running && Signal(p, id, intent).limit == p.limit
  {
  }

  lemma PauseStepFreesNothing(s: State, p: PauseEvent)
    ensures PauseStep(s, p).wakes == s.wakes
    ensures PauseStep(s, p).pool == if p.PauseLooks? then Signal(s.pool, p.id, WantPause) else s.pool
  {
  }

  lemma PauseStepIsQuiet(s: State, p: PauseEvent, id: TaskId)
    ensures Quiet(s, PauseStep(s, p), id)
  {
    PauseStepFreesNothing(s, p);
    SignalFreesNothing(s.pool, p.id, WantPause);
    if p.PauseWrites? {
      PausedRowStopsWaiting(s.db, p.id, id);
    } else {
      assert PauseStep(s, p).db == s.db;
    }
  }

  lemma RequeueStepIsQuiet(s: State, r: RequeueEvent, id: TaskId)
    requires RequeueStep(s, r).wakes.wanted == 0
    ensures Quiet(s, RequeueStep(s, r), id)
  {
  }

  lemma CancelStepIsQuiet(s: State, c: CancelEvent, id: TaskId)
    ensures Quiet(s, CancelStep(s, c), id)
  {
  }

  lemma WorkStepIsQuiet(s: State, g: GoroutineId, w: WorkEvent, id: TaskId)
    requires GoodPool(s.pool) && WorkEnabled(s, g, w) && !w.Finish?
    ensures Quiet(s, WorkStep(s, g, w), id)
  {
  }

  lemma OtherStepsAreQuiet(s: State, e: Event, id: TaskId)
    requires GoodPool(s.pool) && Enabled(s, e) && !e.Dispatching? && !e.Restart?
    requires Step(s, e).wakes.wanted == 0 && Step(s, e).wakes.filledBatches == 0
    ensures Quiet(s, Step(s, e), id)
  {
    match e
    case Queueing(q) => QueueStepIsQuiet(s, q, id);
    case Pausing(p) => PauseStepIsQuiet(s, p, id);
    case Requeueing(r) => RequeueStepIsQuiet(s, r, id);
    case Cancelling(c) => CancelStepIsQuiet(s, c, id);
    case Working(g, w) => if !w.Finish? { WorkStepIsQuiet(s, g, w, id); }
  }

  lemma StepKeepsWakeUps(s: State, e: Event)
    requires GoodPool(s.pool) && NoLostWakeUp(s) && Enabled(s, e)
    ensures NoLostWakeUp(Step(s, e))
  {
    var t := Step(s, e);
    forall id | SlotFree(t.pool) && Waiting(t, id) && t.wakes.wanted == 0 && t.wakes.filledBatches == 0
      ensures WakeUpComing(t.wakes, id)
    {
      if e.Dispatching? {
        if e.d.TakeSnapshot? {
          SnapshotKeepsPromise(s, e.d.tasks, id);
        } else {
          AdmitKeepsPromise(s, e.d.tasks, id);
        }
      } else if !e.Restart? {
        OtherStepsAreQuiet(s, e, id);
        QuietKeepsPromises(s, t, id);
      }
    }
  }

  // ----- every run -----

  lemma StepKeepsSnapshots(s: State, e: Event)
    requires GoodSnapshots(s.wakes) && Enabled(s, e)
    ensures GoodSnapshots(Step(s, e).wakes)
  {
    if !e.Dispatching? && !e.Restart? {
      assert Step(s, e).wakes.snapshots == s.wakes.snapshots;
    }
  }

  lemma StepKeepsInv(s: State, e: Event)
    requires Inv(s) && Enabled(s, e)
    ensures Inv(Step(s, e))
  {
    StepKeepsDb(s, e);
    StepKeepsPool(s, e);
    StepKeepsSnapshots(s, e);
    StepKeepsRowsLive(s, e);
    StepKeepsWakeUps(s, e);
  }

  /** What holds before the recovery, too: a row may be marked running without a goroutine. */
  ghost predicate UnrecoveredInv(s: State) {
    ConsistentDb(s.db) && GoodPool(s.pool) && GoodSnapshots(s.wakes) && NoLostWakeUp(s)
  }

  lemma {:induction false} BootKeepsInv(db: Db, n: int, states: seq<State>, events: seq<Event>, k: nat)
    requires ConsistentDb(db) && IsBootRun(db, n, states, events) && k < |states|
    ensures UnrecoveredInv(states[k])
  {
    if k > 0 {
      BootKeepsInv(db, n, states, events, k - 1);
      var s, e := states[k - 1], events[k - 1];
      StepKeepsDb(s, e);
      StepKeepsPool(s, e);
      StepKeepsSnapshots(s, e);
      StepKeepsWakeUps(s, e);
    }
  }

  /** A recovery that comes late, even one that takes a live task for an orphan, leaves the queue in order. */
  lemma LateRecoveryRestoresInv(s: State)
    requires UnrecoveredInv(s)
    ensures Inv(LateRecovery(s))
  {
    RecoverKeepsDb(s.db);
    forall id | Waiting(LateRecovery(s), id) ensures Waiting(s, id) {
    }
  }

  lemma StartedHasInv(s: State)
    requires Started(s)
    ensures Inv(s)
  {
    if RecoveredFirst(s) {
      var s0: State, n: int :| ConsistentDb(s0.db) && s == RestartState(s0, n);
      RecoverKeepsDb(s0.db);
    } else {
      var db: Db, n: int, states: seq<State>, events: seq<Event> :|
        ConsistentDb(db) && IsBootRun(db, n, states, events) && s == LateRecovery(states[|events|]);
      BootKeepsInv(db, n, states, events, |events|);
      LateRecoveryRestoresInv(states[|events|]);
    }
  }

  lemma {:induction false} EveryRunKeepsInv(states: seq<State>, events: seq<Event>, k: nat)
    requires IsRun(states, events) && k < |states|
    ensures Inv(states[k])
  {
    if k == 0 {
      StartedHasInv(states[0]);
    } else {
      EveryRunKeepsInv(states, events, k - 1);
      StepKeepsInv(states[k - 1], events[k - 1]);
    }
  }
}
