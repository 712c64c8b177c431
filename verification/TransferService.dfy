/**
The transfer service as an object: each method is one atomic stretch of the source (one database
statement, or one critical section of the mutex). The object carries the run it has made so far, and every
method is proved to lengthen it by one step of QueueModel, whatever methods were called before.
*/
module Transfers {
  import opened QueueModel
  import opened QueueInvariants
  import opened QueueTheorems
  import opened QueueStaleness
  import opened QueueResults

  /** The run leads to the state. */
  ghost predicate Reached(states: seq<State>, events: seq<Event>, s: State) {
    IsRun(states, events) && NoRestart(events, 0, |events|) && s == states[|events|]
  }

  lemma ReachedOn(states: seq<State>, events: seq<Event>, s: State, e: Event)
    requires Reached(states, events, s) && Enabled(s, e) && !e.Restart?
    ensures Reached(states + [Step(s, e)], events + [e], Step(s, e))
  {
    var states', events' := states + [Step(s, e)], events + [e];
    forall i | 0 <= i < |events'|
      ensures Enabled(states'[i], events'[i]) && states'[i + 1] == Step(states'[i], events'[i])
    {
      if i < |events| {
        assert Enabled(states[i], events[i]) && states[i + 1] == Step(states[i], events[i]);
      }
    }
  }

  /** Every created id is queued, or archived exactly once. */
  ghost predicate Conserved(db: Db) {
    forall id :: 0 <= id < db.nextId ==> CountArchived(db.history, id) == if id in db.queue then 0 else 1
  }

  /** What a caller can rely on between any two calls. */
  ghost predicate Sound(s: State) {
    Inv(s) && Conserved(s.db)
  }

  lemma ReachedIsSound(states: seq<State>, events: seq<Event>, s: State)
    requires Reached(states, events, s)
    ensures Sound(s)
  {
    EveryRunKeepsInv(states, events, |events|);
    forall id | 0 <= id < s.db.nextId
      ensures CountArchived(s.db.history, id) == if id in s.db.queue then 0 else 1
    {
      TasksAreConserved(states, events, |events|, |events|, id);
    }
  }

  lemma StartIsReached(before: State, n: int, s: State)
    requires ConsistentDb(before.db) && s == RestartState(before, n)
    ensures Reached([s], [], s) && Sound(s)
  {
    assert RecoveredFirst(s);
    ReachedIsSound([s], [], s);
  }

  /** With a dispatch owed, no waiting task is forgotten. */
  lemma OwedIsComing(w: Wakes, id: TaskId)
    requires w.wanted > 0 || w.filledBatches > 0
    ensures WakeUpComing(w, id)
  {
  }

  lemma AdmissionIsRight(s: State, tasks: seq<Task>)
    requires Inv(s) && tasks in s.wakes.snapshots
    ensures var after := AdmitLoop(s.pool, tasks);
      && StartsExactly(s.pool, after, FirstStartable(s.pool, tasks))
      && (|after.running| > |s.pool.running| ==> |after.running| <= s.pool.limit)
      && forall g :: g in after.goroutines && g !in s.pool.goroutines ==>
           after.goroutines[g] == Goroutine(after.goroutines[g].task, Spawned, Unset, false)
  {
    AdmitStartsFirstStartable(s.pool, tasks);
    AdmitLoopOnlyStarts(s.pool, tasks);
  }

  /** The task's goroutine knows what the user wants, and its context is cancelled. */
  predicate Told(before: Pool, after: Pool, id: TaskId, intent: Intent) {
    && id in before.running && before.running[id] in before.goroutines
    && var g := before.running[id];
       after == before.(goroutines := before.goroutines[g :=
                          before.goroutines[g].(intent := intent, cancelled := true)])
  }

  class TransferService {
    // transfer_queue, transfer_history
    var queue: map<TaskId, Row>
    var history: seq<HistoryEntry>
    var nextId: TaskId
    // guarded by the mutex
    var running: map<TaskId, GoroutineId>
    var goroutines: map<GoroutineId, Goroutine>
    var nextG: GoroutineId
    var maxConcurrentTasks: nat
    // calls in flight
    ghost var wakes: Wakes
    ghost var calls: multiset<ApiCall>
    /** The states and events since the process started. */
    ghost var states: seq<State>
    ghost var events: seq<Event>

    ghost function View(): State
      reads this
    {
      State(Tables(), Workers(), wakes, calls)
    }

    ghost function Tables(): Db
      reads this
    {
      Db(queue, history, nextId)
    }

    ghost function Workers(): Pool
      reads this
    {
      Pool(running, goroutines, nextG, maxConcurrentTasks)
    }

    ghost predicate Valid()
      reads this
    {
      Reached(states, events, View())
    }

    /** Takes note of the step the code before it has made. */
    ghost method Took(before: State, e: Event)
      requires Reached(states, events, before) && Enabled(before, e) && View() == Step(before, e) && !e.Restart?
      modifies this`states, this`events
      ensures Valid() && events == old(events) + [e] && states == old(states) + [View()]
    {
      ReachedOn(states, events, before, e);
      states, events := states + [View()], events + [e];
    }

    // ----- TransferQueueRepository -----

    method Create(row: Row) returns (id: TaskId)
      modifies this`queue, this`nextId
      ensures Tables() == Insert(old(Tables()), row) && id == old(nextId)
    {
      id := nextId;
      queue := queue[id := row];
      nextId := nextId + 1;
    }

    method UpdateStatus(id: TaskId, status: Status) returns (found: bool)
      modifies this`queue
      ensures found == (id in old(queue))
      ensures Tables() == SetStatus(old(Tables()), id, status)
    {
      found := id in queue;
      if found {
        queue := queue[id := queue[id].(status := status)];
      }
    }

    /** The transaction: the history row is inserted first, and rolled back when the delete finds no row. */
    method ArchiveTask(id: TaskId, status: Status) returns (ok: bool)
      modifies this`queue, this`history
      ensures ok == (id in old(queue))
      ensures Tables() == MoveToHistory(old(Tables()), id, status)
    {
      var before := history;
      history := history + [HistoryEntry(id, status)];
      ok := id in queue;
      queue := queue - {id};
      if !ok {
        history := before;
        assert queue == old(queue);
      }
    }

    // ----- queueing -----

    /** A new id is never an old one's, and the task will be looked at. */
    method QueueTask(kind: TaskType, priority: int, createdAt: int) returns (id: TaskId)
      requires Valid()
      modifies this
      ensures View() == QueueStep(old(View()), Queue(kind, priority, createdAt)) && id == old(nextId)
      ensures Valid() && events == old(events) + [Queueing(Queue(kind, priority, createdAt))] && Sound(View())
      ensures id !in old(queue) && id !in old(running) ==> Waiting(View(), id)
      ensures id !in old(queue) && !Archived(old(Tables()), id) && WakeUpComing(wakes, id)
      ensures queue == old(queue)[id := Row(kind, Pending, priority, createdAt)] && history == old(history)
    {
      ghost var before := View();
      ReachedIsSound(states, events, before);
      id := Create(Row(kind, Pending, priority, createdAt));
      wakes := Owe(wakes);
      Took(before, Queueing(Queue(kind, priority, createdAt)));
      ReachedIsSound(states, events, View());
      NextIdIsNew(before.db);
      OwedIsComing(wakes, id);
    }

    lemma NextIdIsNew(db: Db)
      requires ConsistentDb(db)
      ensures db.nextId !in db.queue && !Archived(db, db.nextId)
    {
    }

    method BatchBegin()
      requires Valid()
      modifies this
      ensures View() == QueueStep(old(View()), BatchOpen)
      ensures Valid() && events == old(events) + [Queueing(BatchOpen)]
    {
      ghost var before := View();
      wakes := wakes.(emptyBatches := wakes.emptyBatches + 1);
      Took(before, Queueing(BatchOpen));
    }

    /** One key of QueueCopyBetweenProfiles; `created` counts the rows this call has created so far. */
    method BatchCreateRow(created: nat, priority: int, createdAt: int) returns (id: TaskId)
      requires Valid() && QueueEnabled(View(), BatchCreate(created == 0, priority, createdAt))
      modifies this
      ensures View() == QueueStep(old(View()), BatchCreate(created == 0, priority, createdAt))
      ensures Valid() && events == old(events) + [Queueing(BatchCreate(created == 0, priority, createdAt))]
      ensures id == old(nextId) && Sound(View()) && WakeUpComing(wakes, id)
      ensures queue == old(queue)[id := Row(CopyCross, Pending, priority, createdAt)] && history == old(history)
    {
      ghost var before := View();
      id := Create(Row(CopyCross, Pending, priority, createdAt));
      if created == 0 {
        wakes := wakes.(emptyBatches := wakes.emptyBatches - 1, filledBatches := wakes.filledBatches + 1);
      }
      Took(before, Queueing(BatchCreate(created == 0, priority, createdAt)));
      ReachedIsSound(states, events, View());
      OwedIsComing(wakes, id);
    }

    /** Its end: an error, without dispatch(), when nothing was queued. */
    method BatchEnd(created: nat) returns (ok: bool)
      requires Valid() && QueueEnabled(View(), BatchClose(created > 0))
      modifies this
      ensures ok == (created > 0) && View() == QueueStep(old(View()), BatchClose(created > 0))
      ensures Valid() && events == old(events) + [Queueing(BatchClose(created > 0))] && Sound(View())
      ensures ok ==> forall id :: Waiting(View(), id) ==> WakeUpComing(wakes, id)
    {
      ghost var before := View();
      ok := created > 0;
      if ok {
        wakes := Owe(wakes.(filledBatches := wakes.filledBatches - 1));
      } else {
        wakes := wakes.(emptyBatches := wakes.emptyBatches - 1);
      }
      Took(before, Queueing(BatchClose(created > 0)));
      ReachedIsSound(states, events, View());
    }

    /** A lowered limit stops nothing that runs. */
    method SetMaxConcurrentTasks(n: int)
      requires Valid()
      modifies this
      ensures View() == QueueStep(old(View()), SetMax(n))
      ensures Valid() && events == old(events) + [Queueing(SetMax(n))] && Sound(View())
      ensures maxConcurrentTasks == (if n < 1 then 1 else n)
      ensures running == old(running) && goroutines == old(goroutines)
      ensures forall id :: Waiting(View(), id) ==> WakeUpComing(wakes, id)
    {
      ghost var before := View();
      var limit := n;
      if limit < 1 {
        limit := 1;
      }
      maxConcurrentTasks := limit;
      wakes := Owe(wakes);
      Took(before, Queueing(SetMax(n)));
      ReachedIsSound(states, events, View());
    }

    method ReorderTask(id: TaskId, priority: int)
      requires Valid()
      modifies this
      ensures View() == QueueStep(old(View()), Reorder(id, priority))
      ensures Valid() && events == old(events) + [Queueing(Reorder(id, priority))]
      ensures queue == if id in old(queue) then old(queue)[id := old(queue)[id].(priority := priority)] else old(queue)
    {
      ghost var before := View();
      if id in queue {
        queue := queue[id := queue[id].(priority := priority)];
      }
      Took(before, Queueing(Reorder(id, priority)));
    }

    // ----- the scheduler -----

    /** An owed dispatch() reads the queue: `tasks` is what GetAll answers. */
    method ReadQueue(tasks: seq<Task>)
      requires Valid() && DispatchEnabled(View(), TakeSnapshot(tasks))
      modifies this
      ensures View() == DispatchStep(old(View()), TakeSnapshot(tasks))
      ensures Valid() && events == old(events) + [Dispatching(TakeSnapshot(tasks))] && Sound(View())
      ensures tasks in wakes.snapshots && forall id :: Waiting(View(), id) ==> Lists(tasks, id)
    {
      ghost var before := View();
      wakes := wakes.(wanted := wakes.wanted - 1, snapshots := wakes.snapshots + multiset{tasks});
      Took(before, Dispatching(TakeSnapshot(tasks)));
      ReachedIsSound(states, events, View());
    }

    method RegisterTask(id: TaskId)
      modifies this`running, this`goroutines, this`nextG
      ensures Workers() == StartTask(old(Workers()), id)
    {
      running := running[id := nextG];
      goroutines := goroutines[nextG := Goroutine(id, Spawned, Unset, false)];
      nextG := nextG + 1;
    }

    method AdmitInOrder(tasks: seq<Task>)
      modifies this`running, this`goroutines, this`nextG
      ensures Workers() == AdmitLoop(old(Workers()), tasks)
    {
      var i := 0;
      while i < |tasks| && |running| < maxConcurrentTasks
        invariant 0 <= i <= |tasks|
        invariant AdmitLoop(Workers(), tasks[i..]) == AdmitLoop(old(Workers()), tasks)
      {
        if tasks[i].row.status == Pending && tasks[i].id !in running {
          RegisterTask(tasks[i].id);
        }
        i := i + 1;
      }
    }

    /** The admission loop of dispatch(), under the mutex, over the rows read before it was taken: it starts
        exactly the first startable ones, no task twice, and leaves none waiting for a free slot unnoticed. */
    method AdmitTasks(tasks: seq<Task>)
      requires Valid() && tasks in wakes.snapshots
      modifies this
      ensures View() == DispatchStep(old(View()), Admit(tasks))
      ensures Valid() && events == old(events) + [Dispatching(Admit(tasks))] && Sound(View())
      ensures StartsExactly(old(Workers()), Workers(), FirstStartable(old(Workers()), tasks))
      ensures |running| > |old(running)| ==> |running| <= maxConcurrentTasks
      ensures forall g :: g in goroutines && g !in old(goroutines) ==>
        goroutines[g] == Goroutine(goroutines[g].task, Spawned, Unset, false)
    {
      ghost var before := View();
      ReachedIsSound(states, events, before);
      wakes := wakes.(snapshots := wakes.snapshots - multiset{tasks});
      AdmitInOrder(tasks);
      Took(before, Dispatching(Admit(tasks)));
      ReachedIsSound(states, events, View());
      AdmissionIsRight(before, tasks);
    }

    // ----- runTask -----

    /** From here on the row is marked running, and its goroutine is live. */
    method MarkTaskRunning(g: GoroutineId)
      requires Valid() && WorkEnabled(View(), g, MarkRunning)
      modifies this
      ensures View() == WorkStep(old(View()), g, MarkRunning)
      ensures Valid() && events == old(events) + [Working(g, MarkRunning)] && Sound(View())
      ensures var task := old(goroutines)[g].task;
        IsLive(Workers(), task) && (task in old(queue) ==> HasStatus(Tables(), task, Running))
    {
      ghost var before := View();
      ReachedIsSound(states, events, before);
      var task := goroutines[g].task;
      var _ := UpdateStatus(task, Running);
      goroutines := goroutines[g := goroutines[g].(phase := Transferring)];
      Took(before, Working(g, MarkRunning));
      ReachedIsSound(states, events, View());
      assert running[task] == g;
    }

    /** The transfer came back; a cancellation error needs a cancelled context. */
    method TransferReturned(g: GoroutineId, outcome: Outcome)
      requires Valid() && WorkEnabled(View(), g, TransferReturns(outcome))
      modifies this
      ensures View() == WorkStep(old(View()), g, TransferReturns(outcome))
      ensures Valid() && events == old(events) + [Working(g, TransferReturns(outcome))]
    {
      ghost var before := View();
      goroutines := goroutines[g := goroutines[g].(phase := Returned(outcome))];
      Took(before, Working(g, TransferReturns(outcome)));
    }

    /** handleTaskResult up to its write: the switch over the error, and the intent it loads. */
    method DecideResult(g: GoroutineId)
      requires Valid() && WorkEnabled(View(), g, Decide)
      modifies this
      ensures View() == WorkStep(old(View()), g, Decide)
      ensures Valid() && events == old(events) + [Working(g, Decide)]
    {
      ghost var before := View();
      var verdict;
      match goroutines[g].phase.outcome {
        case NilError => verdict := Completed;
        case CanceledError =>
          if goroutines[g].intent == WantCancel {
            verdict := Cancelled;
          } else {
            verdict := Paused;
          }
        case OtherError => verdict := Failed;
      }
      goroutines := goroutines[g := goroutines[g].(phase := Decided(verdict))];
      Took(before, Working(g, Decide));
    }

    method WriteResult(task: TaskId, verdict: Status)
      modifies this`queue, this`history
      ensures Tables() == Persist(old(Tables()), task, verdict)
    {
      if verdict == Completed || verdict == Cancelled {
        var _ := ArchiveTask(task, verdict);
      } else {
        var _ := UpdateStatus(task, verdict);
      }
    }

    /** The final write. Whatever happened since the transfer came back, it is the result of how it came back and
        of the intent its goroutine found when it decided. */
    method HandleTaskResult(g: GoroutineId)
      requires Valid() && WorkEnabled(View(), g, PersistResult)
      modifies this
      ensures View() == WorkStep(old(View()), g, PersistResult)
      ensures Valid() && events == old(events) + [Working(g, PersistResult)] && Sound(View())
      ensures forall i, j, outcome ::
        0 <= i < j < |old(events)|
        && old(events)[i] == Working(g, TransferReturns(outcome)) && old(events)[j] == Working(g, Decide)
        ==>
          && g in old(states)[j].pool.goroutines && old(states)[j].pool.goroutines[g].task == old(goroutines)[g].task
          && IsResult(old(Tables()), Tables(), old(goroutines)[g].task, outcome,
                      old(states)[j].pool.goroutines[g].intent)
    {
      ghost var before, past, done := View(), states, events;
      WriteResult(goroutines[g].task, goroutines[g].phase.verdict);
      goroutines := goroutines[g := goroutines[g].(phase := Persisted)];
      Took(before, Working(g, PersistResult));
      ReachedIsSound(states, events, View());
      forall i, j, outcome |
        0 <= i < j < |done| && done[i] == Working(g, TransferReturns(outcome)) && done[j] == Working(g, Decide)
        ensures g in past[j].pool.goroutines && past[j].pool.goroutines[g].task == before.pool.goroutines[g].task
        ensures IsResult(before.db, Tables(), before.pool.goroutines[g].task, outcome,
                         past[j].pool.goroutines[g].intent)
      {
        LastWriteIsResult(past, done, before, states, events, i, j, g, outcome);
      }
    }

    lemma LastWriteIsResult(
      past: seq<State>, done: seq<Event>, before: State, states: seq<State>, events: seq<Event>, i: nat, j: nat,
      g: GoroutineId, outcome: Outcome)
      requires Reached(past, done, before) && WorkEnabled(before, g, PersistResult)
      requires events == done + [Working(g, PersistResult)] && states == past + [WorkStep(before, g, PersistResult)]
      requires Reached(states, events, WorkStep(before, g, PersistResult))
      requires i < j < |done| && done[i] == Working(g, TransferReturns(outcome)) && done[j] == Working(g, Decide)
      ensures g in past[j].pool.goroutines && past[j].pool.goroutines[g].task == before.pool.goroutines[g].task
      ensures IsResult(before.db, WorkStep(before, g, PersistResult).db, before.pool.goroutines[g].task, outcome,
                       past[j].pool.goroutines[g].intent)
    {
      assert events[i] == done[i] && events[j] == done[j] && events[|done|] == Working(g, PersistResult);
      assert states[i] == past[i] && states[j] == past[j] && states[|done|] == before;
      ResultIsWritten(states, events, i, j, |done|, g, outcome);
      DecisionIsOnReturn(past, done, i, j, g, outcome);
      EveryRunKeepsInv(past, done, j);
      assert Enabled(past[j], done[j]);
      RunGoesOn(past, done, j, |done|, g);
    }

    /** The deferred cleanup: the map entry goes, then dispatch() is called; no waiting task misses the slot. */
    method FinishTask(g: GoroutineId)
      requires Valid() && WorkEnabled(View(), g, Finish)
      modifies this
      ensures View() == WorkStep(old(View()), g, Finish)
      ensures Valid() && events == old(events) + [Working(g, Finish)] && Sound(View())
      ensures old(goroutines)[g].task !in running && forall id :: Waiting(View(), id) ==> WakeUpComing(wakes, id)
    {
      ghost var before := View();
      running := running - {goroutines[g].task};
      goroutines := goroutines - {g};
      wakes := Owe(wakes);
      Took(before, Working(g, Finish));
      ReachedIsSound(states, events, View());
    }

    // ----- PauseTask, ResumeTask, RetryTask, CancelTask -----

    method SignalTask(id: TaskId, intent: Intent)
      requires id in running && running[id] in goroutines
      modifies this`goroutines
      ensures Workers() == Signal(old(Workers()), id, intent)
    {
      var g := running[id];
      goroutines := goroutines[g := goroutines[g].(intent := intent)];
      goroutines := goroutines[g := goroutines[g].(cancelled := true)];
    }

    /** PauseTask's type check: archive downloads cannot be paused. */
    method PauseCheckType(id: TaskId) returns (ok: bool)
      requires Valid()
      modifies this
      ensures ok == (id in queue && queue[id].kind != DownloadZip)
      ensures View() == PauseStep(old(View()), PauseStart(id))
      ensures Valid() && events == old(events) + [Pausing(PauseStart(id))]
    {
      ghost var before := View();
      ok := id in queue;
      if ok && queue[id].kind == DownloadZip {
        ok := false;
      }
      if ok {
        calls := calls + multiset{PauseLook(id)};
      }
      Took(before, Pausing(PauseStart(id)));
    }

    method PauseLookUp(id: TaskId) returns (signalled: bool)
      requires Valid() && PauseEnabled(View(), PauseLooks(id))
      modifies this
      ensures signalled == (id in old(running)) && Tables() == old(Tables())
      ensures if signalled then Told(old(Workers()), Workers(), id, WantPause) else Workers() == old(Workers())
      ensures View() == PauseStep(old(View()), PauseLooks(id))
      ensures Valid() && events == old(events) + [Pausing(PauseLooks(id))]
    {
      ghost var before := View();
      ReachedIsSound(states, events, before);
      signalled := id in running;
      if signalled {
        SignalTask(id, WantPause);
        calls := calls - multiset{PauseLook(id)};
      } else {
        calls := calls - multiset{PauseLook(id)} + multiset{PauseRead(id)};
      }
      Took(before, Pausing(PauseLooks(id)));
    }

    method PauseReadRow(id: TaskId) returns (ok: bool)
      requires Valid() && PauseEnabled(View(), PauseReads(id))
      modifies this
      ensures ok == HasStatus(old(Tables()), id, Pending)
      ensures View() == PauseStep(old(View()), PauseReads(id))
      ensures Valid() && events == old(events) + [Pausing(PauseReads(id))]
    {
      ghost var before := View();
      calls := calls - multiset{PauseRead(id)};
      ok := id in queue;
      if ok {
        ok := queue[id].status == Pending;
      }
      if ok {
        calls := calls + multiset{PauseWrite(id)};
      }
      Took(before, Pausing(PauseReads(id)));
    }

    method PauseWriteRow(id: TaskId) returns (ok: bool)
      requires Valid() && PauseEnabled(View(), PauseWrites(id))
      modifies this
      ensures ok == (id in old(queue)) && (ok ==> HasStatus(Tables(), id, Paused))
      ensures View() == PauseStep(old(View()), PauseWrites(id))
      ensures Valid() && events == old(events) + [Pausing(PauseWrites(id))] && Sound(View())
    {
      ghost var before := View();
      calls := calls - multiset{PauseWrite(id)};
      ok := UpdateStatus(id, Paused);
      Took(before, Pausing(PauseWrites(id)));
      ReachedIsSound(states, events, View());
    }

    method ResumeReadRow(id: TaskId) returns (ok: bool)
      requires Valid()
      modifies this
      ensures ok == HasStatus(Tables(), id, Paused)
      ensures View() == RequeueStep(old(View()), ResumeReads(id))
      ensures Valid() && events == old(events) + [Requeueing(ResumeReads(id))]
    {
      ghost var before := View();
      ok := id in queue;
      if ok {
        ok := queue[id].status == Paused;
      }
      if ok {
        calls := calls + multiset{ResumeWrite(id)};
      }
      Took(before, Requeueing(ResumeReads(id)));
    }

    method RetryReadRow(id: TaskId) returns (ok: bool)
      requires Valid()
      modifies this
      ensures ok == HasStatus(Tables(), id, Failed)
      ensures View() == RequeueStep(old(View()), RetryReads(id))
      ensures Valid() && events == old(events) + [Requeueing(RetryReads(id))]
    {
      ghost var before := View();
      ok := id in queue;
      if ok {
        ok := queue[id].status == Failed;
      }
      if ok {
        calls := calls + multiset{RetryWrite(id)};
      }
      Took(before, Requeueing(RetryReads(id)));
    }

    /** The row waits again, and the dispatch that will look at it is owed. */
    method ResumeWriteRow(id: TaskId) returns (ok: bool)
      requires Valid() && RequeueEnabled(View(), ResumeWrites(id))
      modifies this
      ensures ok == (id in old(queue)) && (ok ==> HasStatus(Tables(), id, Pending) && WakeUpComing(wakes, id))
      ensures View() == RequeueStep(old(View()), ResumeWrites(id))
      ensures Valid() && events == old(events) + [Requeueing(ResumeWrites(id))] && Sound(View())
    {
      ghost var before := View();
      calls := calls - multiset{ResumeWrite(id)};
      ok := UpdateStatus(id, Pending);
      if ok {
        wakes := Owe(wakes);
      }
      Took(before, Requeueing(ResumeWrites(id)));
      ReachedIsSound(states, events, View());
    }

    method RetryWriteRow(id: TaskId) returns (ok: bool)
      requires Valid() && RequeueEnabled(View(), RetryWrites(id))
      modifies this
      ensures ok == (id in old(queue)) && (ok ==> HasStatus(Tables(), id, Pending) && WakeUpComing(wakes, id))
      ensures View() == RequeueStep(old(View()), RetryWrites(id))
      ensures Valid() && events == old(events) + [Requeueing(RetryWrites(id))] && Sound(View())
    {
      ghost var before := View();
      calls := calls - multiset{RetryWrite(id)};
      ok := UpdateStatus(id, Pending);
      if ok {
        wakes := Owe(wakes);
      }
      Took(before, Requeueing(RetryWrites(id)));
      ReachedIsSound(states, events, View());
    }

    method CancelLookUp(id: TaskId) returns (signalled: bool)
      requires Valid()
      modifies this
      ensures signalled == (id in old(running)) && Tables() == old(Tables())
      ensures if signalled then Told(old(Workers()), Workers(), id, WantCancel) else Workers() == old(Workers())
      ensures View() == CancelStep(old(View()), CancelLooks(id))
      ensures Valid() && events == old(events) + [Cancelling(CancelLooks(id))]
    {
      ghost var before := View();
      ReachedIsSound(states, events, before);
      signalled := id in running;
      if signalled {
        SignalTask(id, WantCancel);
      } else {
        calls := calls + multiset{CancelRead(id)};
      }
      Took(before, Cancelling(CancelLooks(id)));
    }

    method CancelReadRow(id: TaskId) returns (ok: bool)
      requires Valid() && CancelEnabled(View(), CancelReads(id))
      modifies this
      ensures ok == Cancellable(old(Tables()), id)
      ensures View() == CancelStep(old(View()), CancelReads(id))
      ensures Valid() && events == old(events) + [Cancelling(CancelReads(id))]
    {
      ghost var before := View();
      calls := calls - multiset{CancelRead(id)};
      ok := id in queue;
      if ok {
        match queue[id].status {
          case Pending =>
          case Paused =>
          case Failed =>
          case _ => ok := false;
        }
      }
      if ok {
        calls := calls + multiset{CancelArchive(id)};
      }
      Took(before, Cancelling(CancelReads(id)));
    }

    /** A cancelled task leaves the queue for good, and is archived once. */
    method CancelArchiveRow(id: TaskId) returns (ok: bool)
      requires Valid() && CancelEnabled(View(), CancelArchives(id))
      modifies this
      ensures ok == (id in old(queue)) && (ok ==> id !in queue && CountArchived(history, id) == 1)
      ensures View() == CancelStep(old(View()), CancelArchives(id))
      ensures Valid() && events == old(events) + [Cancelling(CancelArchives(id))] && Sound(View())
    {
      ghost var before := View();
      ReachedIsSound(states, events, before);
      calls := calls - multiset{CancelArchive(id)};
      ok := ArchiveTask(id, Cancelled);
      Took(before, Cancelling(CancelArchives(id)));
      ReachedIsSound(states, events, View());
    }

    // ----- startup -----

    lemma AllRecovered(before: Db, tasks: seq<Task>, after: map<TaskId, Row>)
      requires IsSnapshot(before, tasks) && after.Keys == before.queue.Keys
      requires forall k :: 0 <= k < |tasks| ==> after[tasks[k].id] == RecoveredRow(tasks[k].row)
      ensures after == RecoverDb(before).queue
    {
      forall id | id in after ensures after[id] == RecoveredRow(before.queue[id]) {
        assert Lists(tasks, id);
      }
    }

    method PauseOrphans(tasks: seq<Task>) returns (recovered: seq<TaskId>)
      requires DistinctIds(tasks)
      requires forall k :: 0 <= k < |tasks| ==> tasks[k].id in queue && queue[tasks[k].id] == tasks[k].row
      modifies this`queue
      ensures queue.Keys == old(queue).Keys && recovered == RunningIds(tasks)
      ensures forall k :: 0 <= k < |tasks| ==> queue[tasks[k].id] == RecoveredRow(tasks[k].row)
    {
      recovered := [];
      for i := 0 to |tasks|
        invariant recovered == RunningIds(tasks[..i])
        invariant queue.Keys == old(queue).Keys
        invariant forall k :: 0 <= k < |tasks| ==>
          queue[tasks[k].id] == if k < i then RecoveredRow(tasks[k].row) else tasks[k].row
      {
        assert tasks[..i + 1][..i] == tasks[..i];
        var task := tasks[i];
        if task.row.status == Running {
          var _ := UpdateStatus(task.id, Paused);
          recovered := recovered + [task.id];
        }
      }
      assert tasks[..|tasks|] == tasks;
    }

    /** RecoverOrphanedTasks, over the rows GetAll returned; it returns the ids it moved, in that order. */
    method RecoverOrphanedTasks(tasks: seq<Task>) returns (recovered: seq<TaskId>)
      requires IsSnapshot(Tables(), tasks)
      modifies this`queue
      ensures Tables() == RecoverDb(old(Tables()))
      ensures recovered == RunningIds(tasks)
    {
      recovered := PauseOrphans(tasks);
      AllRecovered(old(Tables()), tasks, queue);
    }

    /** The memory of a new process. */
    method StartProcess(n: int)
      modifies this
      ensures Tables() == old(Tables())
      ensures Workers() == Pool(map[], map[], 0, ClampLimit(n))
      ensures wakes == Wakes(1, multiset{}, 0, 0) && calls == multiset{}
    {
      running, goroutines, nextG := map[], map[], 0;
      maxConcurrentTasks := ClampLimit(n);
      wakes, calls := Wakes(1, multiset{}, 0, 0), multiset{};
    }

    /** A start that recovers before anything is dispatched, and then applies the limit. */
    method StartUp(tasks: seq<Task>, n: int) returns (recovered: seq<TaskId>)
      requires ConsistentDb(Tables()) && IsSnapshot(Tables(), tasks)
      modifies this
      ensures View() == RestartState(old(View()), n) && recovered == RunningIds(tasks)
      ensures Valid() && events == [] && Sound(View())
    {
      ghost var before := View();
      recovered := RecoverOrphanedTasks(tasks);
      StartProcess(n);
      StartIsReached(before, n, View());
      states, events := [View()], [];
    }

    /** AutoResumeIfEnabled: ResumeTask on each recovered id, whose errors are only logged. */
    method AutoResumeIfEnabled(recovered: seq<TaskId>, enabled: bool)
      requires Valid()
      modifies this
      ensures Tables() == if enabled then ResumeAll(old(Tables()), recovered) else old(Tables())
      ensures Valid() && Sound(View())
    {
      var i := 0;
      while enabled && i < |recovered|
        invariant 0 <= i <= |recovered| && Valid()
        invariant enabled ==> ResumeAll(Tables(), recovered[i..]) == ResumeAll(old(Tables()), recovered)
        invariant !enabled ==> Tables() == old(Tables())
      {
        ghost var rest := recovered[i..];
        assert rest[0] == recovered[i] && rest[1..] == recovered[i + 1..];
        var _ := ResumeTask(recovered[i]);
        i := i + 1;
      }
      ReachedIsSound(states, events, View());
    }

    // ----- whole calls, with nothing in between -----

    /** runTask from the transfer's return on. */
    method EndTask(g: GoroutineId, outcome: Outcome)
      requires Valid() && WorkEnabled(View(), g, TransferReturns(outcome))
      modifies this
      ensures Valid() && Sound(View())
      ensures IsResult(old(Tables()), Tables(), old(goroutines)[g].task, outcome, old(goroutines)[g].intent)
      ensures old(goroutines)[g].task !in running && g !in goroutines
    {
      ghost var n := |events|;
      TransferReturned(g, outcome);
      DecideResult(g);
      assert events[n] == Working(g, TransferReturns(outcome)) && events[n + 1] == Working(g, Decide);
      HandleTaskResult(g);
      FinishTask(g);
    }

    /** PauseTask: a running transfer is told, a waiting one is paused, and everything else is refused, archive
        downloads included. */
    method PauseTask(id: TaskId) returns (ok: bool)
      requires Valid()
      modifies this
      ensures Valid()
      ensures ok == (id in old(queue) && old(queue)[id].kind != DownloadZip
                     && (id in old(running) || old(queue)[id].status == Pending))
      ensures ok && id in old(running) ==>
        Told(old(Workers()), Workers(), id, WantPause) && Tables() == old(Tables())
      ensures ok && id !in old(running) ==> StaysAs(old(Tables()), Tables(), id, Paused) && Workers() == old(Workers())
      ensures !ok ==> Tables() == old(Tables()) && Workers() == old(Workers())
    {
      EveryRunKeepsInv(states, events, |events|);
      ok := PauseCheckType(id);
      if ok {
        var signalled := PauseLookUp(id);
        if !signalled {
          ok := PauseReadRow(id);
          if ok {
            ok := PauseWriteRow(id);
          }
        }
      }
    }

    /** CancelTask: a running transfer is told; one that waits, is paused or has failed leaves the queue. */
    method CancelTask(id: TaskId) returns (ok: bool)
      requires Valid()
      modifies this
      ensures Valid()
      ensures ok == (id in old(running) || (id in old(queue) && old(queue)[id].status in {Pending, Paused, Failed}))
      ensures id in old(running) ==>
        Told(old(Workers()), Workers(), id, WantCancel) && Tables() == old(Tables())
      ensures ok && id !in old(running) ==>
        ArchivedAs(old(Tables()), Tables(), id, Cancelled) && Workers() == old(Workers())
      ensures !ok ==> Tables() == old(Tables()) && Workers() == old(Workers())
    {
      EveryRunKeepsInv(states, events, |events|);
      var signalled := CancelLookUp(id);
      ok := signalled;
      if !signalled {
        ok := CancelReadRow(id);
        if ok {
          ok := CancelArchiveRow(id);
        }
      }
    }

    /** RetryTask: only a failed task waits again. */
    method RetryTask(id: TaskId) returns (ok: bool)
      requires Valid()
      modifies this
      ensures Valid() && Workers() == old(Workers())
      ensures ok == (id in old(queue) && old(queue)[id].status == Failed)
      ensures if ok then StaysAs(old(Tables()), Tables(), id, Pending) && WakeUpComing(wakes, id)
              else Tables() == old(Tables())
    {
      ok := RetryReadRow(id);
      if ok {
        ok := RetryWriteRow(id);
      }
    }

    /** ResumeTask: only a paused task waits again. */
    method ResumeTask(id: TaskId) returns (ok: bool)
      requires Valid()
      modifies this
      ensures Valid() && Workers() == old(Workers())
      ensures ok == (id in old(queue) && old(queue)[id].status == Paused)
      ensures if ok then StaysAs(old(Tables()), Tables(), id, Pending) && WakeUpComing(wakes, id)
              else Tables() == old(Tables())
    {
      ok := ResumeReadRow(id);
      if ok {
        ok := ResumeWriteRow(id);
      }
    }
  }
}
