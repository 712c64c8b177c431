/**
The queue's guarantees, over every run and every interleaving, and what the code does not guarantee.
*/
module QueueTheorems {
  import opened QueueModel
  import opened QueueInvariants

  // ----- no lost wake-up -----

  predicate NoDispatchInFlight(s: State) {
    s.wakes == Wakes(0, multiset{}, s.wakes.emptyBatches, 0)
  }

  /** When no dispatch is owed or in flight, a task that waits means every slot is taken. */
  lemma WaitingMeansFull(states: seq<State>, events: seq<Event>, k: nat, id: TaskId)
    requires IsRun(states, events) && k < |states|
    requires NoDispatchInFlight(states[k]) && Waiting(states[k], id)
    ensures |states[k].pool.running| >= states[k].pool.limit
  {
    EveryRunKeepsInv(states, events, k);
  }

  // ----- goroutines -----

  /** Two live goroutines never run the same task, and a running row always has one. */
  lemma OneLiveGoroutine(states: seq<State>, events: seq<Event>, k: nat, g: GoroutineId, h: GoroutineId)
    requires IsRun(states, events) && k < |states|
    requires g in states[k].pool.goroutines && h in states[k].pool.goroutines && g != h
    ensures states[k].pool.goroutines[g].task != states[k].pool.goroutines[h].task
    ensures forall id :: HasStatus(states[k].db, id, Running) ==> IsLive(states[k].pool, id)
  {
    EveryRunKeepsInv(states, events, k);
  }

  /** No step but an admission registers a task. */
  lemma OthersStartNothing(s: State, e: Event)
    requires Enabled(s, e) && !e.Dispatching?
    ensures Step(s, e).pool.running.Keys <= s.pool.running.Keys
  {
    match e
    case Queueing(_) =>
    case Pausing(_) =>
    case Requeueing(_) =>
    case Cancelling(_) =>
    case Working(_, _) =>
    case Restart(_) =>
  }

  lemma SubsetIsSmaller<T>(a: set<T>, b: set<T>)
    requires a <= b
    ensures |a| <= |b|
  {
    assert b == a + (b - a);
  }

  /** The number of running tasks grows only by an admission, and then stays within the limit: a
      lowered limit stops every start until enough tasks have ended. */
  lemma GrowthStaysWithinLimit(s: State, e: Event)
    requires Inv(s) && Enabled(s, e)
    ensures |Step(s, e).pool.running| > |s.pool.running| ==>
              && e.Dispatching? && e.d.Admit?
              && |Step(s, e).pool.running| <= Step(s, e).pool.limit == s.pool.limit
  {
    if e.Dispatching? {
      AdmitLoopOnlyStarts(s.pool, e.d.tasks);
    } else {
      OthersStartNothing(s, e);
      SubsetIsSmaller(Step(s, e).pool.running.Keys, s.pool.running.Keys);
    }
  }

  // ----- what one dispatch starts -----

  function FreeSlots(p: Pool): nat {
    if |p.running| < p.limit then p.limit - |p.running| else 0
  }

  /** The startable tasks of a snapshot, in its order. */
  function StartableIds(p: Pool, tasks: seq<Task>): seq<TaskId> {
    if tasks == [] then []
    else if Startable(p, tasks[0]) then [tasks[0].id] + StartableIds(p, tasks[1..])
    else StartableIds(p, tasks[1..])
  }

  function Min(a: nat, b: nat): nat {
    if a < b then a else b
  }

  ghost predicate StartsExactly(p: Pool, t: Pool, ids: seq<TaskId>) {
    && t.nextG == p.nextG + |ids|
    && t.running.Keys == p.running.Keys + (set id | id in ids)
    && (forall i :: 0 <= i < |ids| ==> ids[i] in t.running && t.running[ids[i]] == p.nextG + i)
  }

  lemma {:induction false} OtherStartsDoNotMatter(p: Pool, id: TaskId, tasks: seq<Task>)
    requires forall i :: 0 <= i < |tasks| ==> tasks[i].id != id
    ensures StartableIds(StartTask(p, id), tasks) == StartableIds(p, tasks)
  {
    if tasks != [] {
      OtherStartsDoNotMatter(p, id, tasks[1..]);
    }
  }

  function FirstStartable(p: Pool, tasks: seq<Task>): seq<TaskId> {
    StartableIds(p, tasks)[..Min(FreeSlots(p), |StartableIds(p, tasks)|)]
  }

  /** One dispatch starts exactly the first free-slot-many startable tasks of its snapshot, in order. */
  lemma {:induction false} AdmitStartsFirstStartable(p: Pool, tasks: seq<Task>)
    requires OneGoroutinePerTask(p) && DistinctIds(tasks)
    ensures StartsExactly(p, AdmitLoop(p, tasks), FirstStartable(p, tasks))
    decreases |tasks|
  {
    if tasks == [] || !SlotFree(p) {
      assert FirstStartable(p, tasks) == [];
    } else if !Startable(p, tasks[0]) {
      AdmitStartsFirstStartable(p, tasks[1..]);
    } else {
      var q := StartTask(p, tasks[0].id);
      StartTaskKeepsPool(p, tasks[0].id);
      AdmitStartsFirstStartable(q, tasks[1..]);
      AdmitLoopOnlyStarts(q, tasks[1..]);
      StartsOneMore(p, tasks[0].id, AdmitLoop(q, tasks[1..]), FirstStartable(q, tasks[1..]));
      StartedTaskComesFirst(p, tasks);
    }
  }

  lemma StartedTaskComesFirst(p: Pool, tasks: seq<Task>)
    requires OneGoroutinePerTask(p) && DistinctIds(tasks)
    requires tasks != [] && SlotFree(p) && Startable(p, tasks[0])
    ensures FirstStartable(p, tasks)
         == [tasks[0].id] + FirstStartable(StartTask(p, tasks[0].id), tasks[1..])
  {
    StartTaskKeepsPool(p, tasks[0].id);
    OtherStartsDoNotMatter(p, tasks[0].id, tasks[1..]);
    OneMoreTaken(tasks[0].id, StartableIds(p, tasks[1..]), FreeSlots(p) - 1);
  }

  lemma OneMoreTaken(id: TaskId, rest: seq<TaskId>, free: nat)
    ensures ([id] + rest)[..Min(free + 1, |rest| + 1)] == [id] + rest[..Min(free, |rest|)]
  {
  }

  lemma StartsOneMore(p: Pool, id: TaskId, t: Pool, ids: seq<TaskId>)
    requires id !in p.running && StartsExactly(StartTask(p, id), t, ids)
    requires id in t.running && t.running[id] == p.nextG
    ensures StartsExactly(p, t, [id] + ids)
  {
    var all := [id] + ids;
    assert (set x | x in all) == {id} + (set x | x in ids);
    forall i | 0 <= i < |all| ensures all[i] in t.running && t.running[all[i]] == p.nextG + i {
      if i > 0 {
        assert all[i] == ids[i - 1];
      }
    }
  }

  /** A dispatch never prefers a task over one that its snapshot puts first by priority and age. */
  lemma NoPriorityInversion(s: State, tasks: seq<Task>, i: nat, j: nat)
    requires Inv(s) && Enabled(s, Dispatching(Admit(tasks)))
    requires i < |tasks| && j < |tasks|
    requires Startable(s.pool, tasks[i]) && Startable(s.pool, tasks[j])
    requires var t := Step(s, Dispatching(Admit(tasks))).pool;
      tasks[i].id in t.running && tasks[j].id !in t.running
    ensures i < j && tasks[i].row.priority <= tasks[j].row.priority
    ensures tasks[i].row.priority == tasks[j].row.priority ==> tasks[i].row.createdAt <= tasks[j].row.createdAt
  {
    if j < i {
      LoopStartsInOrder(s.pool, tasks, j, i);
    }
  }

  lemma {:induction false} LoopStartsInOrder(p: Pool, tasks: seq<Task>, j: nat, i: nat)
    requires OneGoroutinePerTask(p) && DistinctIds(tasks)
    requires j < i < |tasks| && Startable(p, tasks[j]) && Startable(p, tasks[i])
    requires tasks[i].id in AdmitLoop(p, tasks).running
    ensures tasks[j].id in AdmitLoop(p, tasks).running
    decreases |tasks|
  {
    assert SlotFree(p);
    if Startable(p, tasks[0]) {
      var q := StartTask(p, tasks[0].id);
      StartTaskKeepsPool(p, tasks[0].id);
      if j > 0 {
        LoopStartsInOrder(q, tasks[1..], j - 1, i - 1);
      } else {
        AdmitLoopOnlyStarts(q, tasks[1..]);
      }
    } else {
      LoopStartsInOrder(p, tasks[1..], j - 1, i - 1);
    }
  }

  // ----- conservation of tasks -----

  lemma StepKeepsHistory(s: State, e: Event)
    requires Enabled(s, e)
    ensures s.db.history <= Step(s, e).db.history
    ensures s.db.nextId <= Step(s, e).db.nextId
  {
  }

  /** From each state to the next. */
  ghost predicate HistoryGrows(states: seq<State>) {
    forall k :: 0 < k < |states| ==>
      states[k - 1].db.history <= states[k].db.history && states[k - 1].db.nextId <= states[k].db.nextId
  }

  lemma RunKeepsHistory(states: seq<State>, events: seq<Event>)
    requires IsRun(states, events)
    ensures HistoryGrows(states)
  {
    forall k | 0 < k < |states|
      ensures states[k - 1].db.history <= states[k].db.history && states[k - 1].db.nextId <= states[k].db.nextId
    {
      assert Enabled(states[k - 1], events[k - 1]);
      StepKeepsHistory(states[k - 1], events[k - 1]);
    }
  }

  lemma {:induction false} LaterHistoryIsLonger(states: seq<State>, j: nat, k: nat)
    requires HistoryGrows(states) && j <= k < |states|
    ensures states[j].db.history <= states[k].db.history
    ensures states[j].db.nextId <= states[k].db.nextId
    decreases k - j
  {
    if j < k {
      LaterHistoryIsLonger(states, j, k - 1);
      PrefixOfPrefix(states[j].db.history, states[k - 1].db.history, states[k].db.history);
    }
  }

  lemma PrefixOfPrefix(a: seq<HistoryEntry>, b: seq<HistoryEntry>, c: seq<HistoryEntry>)
    requires a <= b && b <= c
    ensures a <= c
  {
  }

  /** History is never rewritten, and ids are never reused. */
  lemma HistoryOnlyGrows(states: seq<State>, events: seq<Event>, j: nat, k: nat)
    requires IsRun(states, events) && j <= k < |states|
    ensures states[j].db.history <= states[k].db.history
    ensures states[j].db.nextId <= states[k].db.nextId
  {
    RunKeepsHistory(states, events);
    LaterHistoryIsLonger(states, j, k);
  }

  function CountArchived(history: seq<HistoryEntry>, id: TaskId): nat {
    if history == [] then 0
    else CountArchived(history[..|history| - 1], id) + (if history[|history| - 1].queueId == id then 1 else 0)
  }

  lemma {:induction false} CountOfDistinct(history: seq<HistoryEntry>, id: TaskId)
    requires forall i, j :: 0 <= i < j < |history| ==> history[i].queueId != history[j].queueId
    ensures CountArchived(history, id) == if exists i :: 0 <= i < |history| && history[i].queueId == id then 1 else 0
  {
    if history != [] {
      var front := history[..|history| - 1];
      CountOfDistinct(front, id);
      if exists i :: 0 <= i < |history| && history[i].queueId == id {
        var i :| 0 <= i < |history| && history[i].queueId == id;
        if i < |front| {
          assert front[i].queueId == id;
        } else {
          assert forall j :: 0 <= j < |front| ==> front[j].queueId != id;
        }
      } else {
        assert history[|history| - 1].queueId != id;
        assert forall j :: 0 <= j < |front| ==> front[j] == history[j];
      }
    }
  }

  /** A created task is forever in exactly one place: still queued, or archived exactly once as
      completed or cancelled and never queued again. */
  lemma TasksAreConserved(states: seq<State>, events: seq<Event>, j: nat, k: nat, id: TaskId)
    requires IsRun(states, events) && j <= k < |states|
    requires id < states[j].db.nextId
    ensures CountArchived(states[k].db.history, id) == if id in states[k].db.queue then 0 else 1
    ensures Archived(states[j].db, id) ==> id !in states[k].db.queue
    ensures forall i :: 0 <= i < |states[k].db.history| ==>
      states[k].db.history[i].status in {Completed, Cancelled}
  {
    EveryRunKeepsInv(states, events, k);
    HistoryOnlyGrows(states, events, j, k);
    CountOfDistinct(states[k].db.history, id);
    if Archived(states[j].db, id) {
      var i :| 0 <= i < |states[j].db.history| && states[j].db.history[i].queueId == id;
      assert states[k].db.history[i].queueId == id;
    }
  }

  // ----- recovery -----

  lemma {:induction false} RunningIdsAreRunning(tasks: seq<Task>, id: TaskId)
    requires DistinctIds(tasks)
    ensures id in RunningIds(tasks) <==>
      exists k :: 0 <= k < |tasks| && tasks[k].id == id && tasks[k].row.status == Running
    ensures forall i, j :: 0 <= i < j < |RunningIds(tasks)| ==> RunningIds(tasks)[i] != RunningIds(tasks)[j]
  {
    if tasks != [] {
      var front, last := tasks[..|tasks| - 1], tasks[|tasks| - 1];
      RunningIdsAreRunning(front, id);
      RunningIdsAreRunning(front, last.id);
      assert forall k :: 0 <= k < |front| ==> front[k] == tasks[k];
    }
  }

  /** Recovery returns exactly the orphans, each once. */
  lemma RecoveredIdsAreOrphans(db: Db, tasks: seq<Task>)
    requires IsSnapshot(db, tasks)
    ensures forall id :: id in RunningIds(tasks) <==> id in OrphanIds(db)
    ensures forall i, j :: 0 <= i < j < |RunningIds(tasks)| ==> RunningIds(tasks)[i] != RunningIds(tasks)[j]
  {
    RunningIdsAreRunning(tasks, 0);
    forall id ensures id in RunningIds(tasks) <==> id in OrphanIds(db) {
      RunningIdsAreRunning(tasks, id);
      if id in OrphanIds(db) {
        assert Lists(tasks, id);
      }
    }
  }

  function Resumed(row: Row): Row {
    if row.status == Paused then row.(status := Pending) else row
  }

  lemma {:induction false} ResumeAllTouchesOnlyIds(db: Db, ids: seq<TaskId>, id: TaskId)
    ensures id in ResumeAll(db, ids).queue <==> id in db.queue
    ensures id in db.queue ==>
      ResumeAll(db, ids).queue[id] == (if id in ids then Resumed(db.queue[id]) else db.queue[id])
    decreases |ids|
  {
    if ids != [] {
      var next := if HasStatus(db, ids[0], Paused) then SetStatus(db, ids[0], Pending) else db;
      ResumeAllTouchesOnlyIds(next, ids[1..], id);
    }
  }

  /** After a crash, recovery moves exactly the rows marked running to paused, and auto-resume puts
      exactly those back in the queue: a row the user paused stays paused. */
  lemma RecoveryTouchesOnlyOrphans(db: Db, tasks: seq<Task>, id: TaskId)
    requires IsSnapshot(db, tasks) && id in db.queue
    ensures var resumed := ResumeAll(RecoverDb(db), RunningIds(tasks));
      && id in RecoverDb(db).queue && id in resumed.queue
      && !HasStatus(RecoverDb(db), id, Running)
      && resumed.queue[id] == if db.queue[id].status == Running
                              then db.queue[id].(status := Pending) else db.queue[id]
  {
    RecoveredIdsAreOrphans(db, tasks);
    ResumeAllTouchesOnlyIds(RecoverDb(db), RunningIds(tasks), id);
  }
}
