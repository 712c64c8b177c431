/**
What dispatch's snapshot may miss. It is read outside the mutex, so a row can be written between the
read and the admission, and a task can be registered although its row still says pending. The exact
conditions are stated over the events in between. The last part is the startup order of app.go, which
dispatches before it recovers.
*/
module QueueStaleness {
  import opened QueueModel
  import opened QueueInvariants
  import opened QueueTheorems

  // ----- what makes and unmakes a pending row -----

  /** The event writes another status to the row, or archives it. */
  predicate Unsettles(s: State, e: Event, id: TaskId) {
    ApiUnsettles(e, id) || WorkUnsettles(s, e, id)
  }

  /** The last write of PauseTask, or CancelTask's archive transaction. */
  predicate ApiUnsettles(e: Event, id: TaskId) {
    || (e.Pausing? && e.p == PauseWrites(id))
    || (e.Cancelling? && e.c == CancelArchives(id))
  }

  /** A goroutine of the task marks its row running or writes its result. */
  predicate WorkUnsettles(s: State, e: Event, id: TaskId) {
    && e.Working? && (e.w.MarkRunning? || e.w.PersistResult?)
    && e.g in s.pool.goroutines && s.pool.goroutines[e.g].task == id
  }

  /** ResumeTask or RetryTask writes pending to an existing row. */
  predicate Requeues(s: State, e: Event, id: TaskId) {
    e.Requeueing? && (e.r == ResumeWrites(id) || e.r == RetryWrites(id)) && id in s.db.queue
  }

  lemma StepOnPending(s: State, e: Event, id: TaskId)
    requires GoodPool(s.pool) && Enabled(s, e) && !e.Restart? && id < s.db.nextId
    ensures Unsettles(s, e, id) ==> !HasStatus(Step(s, e).db, id, Pending)
    ensures Requeues(s, e, id) ==> HasStatus(Step(s, e).db, id, Pending)
    ensures !Unsettles(s, e, id) && !Requeues(s, e, id) ==>
      (HasStatus(Step(s, e).db, id, Pending) <==> HasStatus(s.db, id, Pending))
  {
    match e
    case Queueing(q) => QueueingOnPending(s, q, id);
    case Dispatching(d) => assert Step(s, e).db == s.db;
    case Pausing(p) => PauseOnPending(s, p, id);
    case Requeueing(r) => RequeueOnPending(s, r, id);
    case Cancelling(c) => CancelOnPending(s, c, id);
    case Working(g, w) => WorkOnPending(s, g, w, id);
  }

  lemma QueueingOnPending(s: State, q: QueueEvent, id: TaskId)
    requires QueueEnabled(s, q) && id < s.db.nextId
    ensures HasStatus(QueueStep(s, q).db, id, Pending) <==> HasStatus(s.db, id, Pending)
  {
  }

  lemma PauseOnPending(s: State, p: PauseEvent, id: TaskId)
    ensures HasStatus(PauseStep(s, p).db, id, Pending) <==> HasStatus(s.db, id, Pending) && p != PauseWrites(id)
  {
    if p.PauseWrites? {
      assert PauseStep(s, p).db == SetStatus(s.db, p.id, Paused);
    } else {
      assert PauseStep(s, p).db == s.db;
    }
  }

  lemma RequeueOnPending(s: State, r: RequeueEvent, id: TaskId)
    ensures HasStatus(RequeueStep(s, r).db, id, Pending) <==>
      HasStatus(s.db, id, Pending) || (id in s.db.queue && (r == ResumeWrites(id) || r == RetryWrites(id)))
  {
    if r.ResumeReads? || r.RetryReads? {
      assert RequeueStep(s, r).db == s.db;
    } else {
      assert RequeueStep(s, r).db == SetStatus(s.db, r.id, Pending);
    }
  }

  lemma CancelOnPending(s: State, c: CancelEvent, id: TaskId)
    ensures HasStatus(CancelStep(s, c).db, id, Pending) <==> HasStatus(s.db, id, Pending) && c != CancelArchives(id)
  {
    if c.CancelArchives? {
      assert CancelStep(s, c).db == MoveToHistory(s.db, c.id, Cancelled);
    } else {
      assert CancelStep(s, c).db == s.db;
    }
  }

  lemma WorkOnPending(s: State, g: GoroutineId, w: WorkEvent, id: TaskId)
    requires GoodPool(s.pool) && WorkEnabled(s, g, w)
    ensures if WorkUnsettles(s, Working(g, w), id) then !HasStatus(WorkStep(s, g, w).db, id, Pending)
            else HasStatus(WorkStep(s, g, w).db, id, Pending) <==> HasStatus(s.db, id, Pending)
  {
  }

  ghost predicate UnsettledAt(states: seq<State>, events: seq<Event>, k: nat, id: TaskId)
    requires k < |events| < |states|
  {
    Unsettles(states[k], events[k], id)
  }

  ghost predicate RequeuedAt(states: seq<State>, events: seq<Event>, k: nat, id: TaskId)
    requires k < |events| < |states|
  {
    Requeues(states[k], events[k], id)
  }

  ghost predicate Untouched(states: seq<State>, events: seq<Event>, a: nat, b: nat, id: TaskId)
    requires b <= |events| < |states|
  {
    forall k :: a <= k < b ==> !UnsettledAt(states, events, k, id)
  }

  /** A resume or retry put the row back, and nothing unsettled it since. */
  ghost predicate Requeued(states: seq<State>, events: seq<Event>, a: nat, b: nat, id: TaskId)
    requires b <= |events| < |states|
  {
    exists m :: a <= m < b && RequeuedAt(states, events, m, id) && Untouched(states, events, m + 1, b, id)
  }

  ghost predicate NoRestart(events: seq<Event>, a: nat, b: nat)
    requires b <= |events|
  {
    forall k :: a <= k < b ==> !events[k].Restart?
  }

  /** What event k does to the row's being pending. */
  ghost predicate TellsPending(states: seq<State>, events: seq<Event>, k: nat, id: TaskId)
    requires k < |events| < |states|
  {
    && (UnsettledAt(states, events, k, id) ==> !HasStatus(states[k + 1].db, id, Pending))
    && (RequeuedAt(states, events, k, id) ==> HasStatus(states[k + 1].db, id, Pending))
    && (!UnsettledAt(states, events, k, id) && !RequeuedAt(states, events, k, id) ==>
          (HasStatus(states[k + 1].db, id, Pending) <==> HasStatus(states[k].db, id, Pending)))
  }

  lemma EventTellsPending(states: seq<State>, events: seq<Event>, a: nat, k: nat, id: TaskId)
    requires IsRun(states, events) && a <= k < |events| && !events[k].Restart? && id < states[a].db.nextId
    ensures TellsPending(states, events, k, id)
  {
    EveryRunKeepsInv(states, events, k);
    HistoryOnlyGrows(states, events, a, k);
    assert Enabled(states[k], events[k]) && states[k + 1] == Step(states[k], events[k]);
    StepOnPending(states[k], events[k], id);
  }

  lemma {:induction false} ToldPendingIff(states: seq<State>, events: seq<Event>, a: nat, b: nat, id: TaskId)
    requires a <= b <= |events| < |states| && forall k :: a <= k < b ==> TellsPending(states, events, k, id)
    ensures HasStatus(states[b].db, id, Pending) <==>
      || Requeued(states, events, a, b, id)
      || (HasStatus(states[a].db, id, Pending) && Untouched(states, events, a, b, id))
    decreases b - a
  {
    if a < b {
      ToldPendingIff(states, events, a, b - 1, id);
      assert TellsPending(states, events, b - 1, id);
      LastEventSettles(states, events, a, b, id);
    }
  }

  /** A row is pending exactly when it was put back after whatever unsettled it, or was pending before and
      nothing did. */
  lemma PendingIff(states: seq<State>, events: seq<Event>, a: nat, b: nat, id: TaskId)
    requires IsRun(states, events) && a <= b <= |events| && NoRestart(events, a, b)
    requires id < states[a].db.nextId
    ensures HasStatus(states[b].db, id, Pending) <==>
      || Requeued(states, events, a, b, id)
      || (HasStatus(states[a].db, id, Pending) && Untouched(states, events, a, b, id))
  {
    forall k | a <= k < b ensures TellsPending(states, events, k, id) {
      EventTellsPending(states, events, a, k, id);
    }
    ToldPendingIff(states, events, a, b, id);
  }

  lemma LastEventSettles(states: seq<State>, events: seq<Event>, a: nat, b: nat, id: TaskId)
    requires a < b <= |events| < |states|
    ensures UnsettledAt(states, events, b - 1, id) ==>
      !Untouched(states, events, a, b, id) && !Requeued(states, events, a, b, id)
    ensures RequeuedAt(states, events, b - 1, id) ==> Requeued(states, events, a, b, id)
    ensures !UnsettledAt(states, events, b - 1, id) && !RequeuedAt(states, events, b - 1, id) ==>
      && (Untouched(states, events, a, b, id) <==> Untouched(states, events, a, b - 1, id))
      && (Requeued(states, events, a, b, id) <==> Requeued(states, events, a, b - 1, id))
  {
    if RequeuedAt(states, events, b - 1, id) {
      assert Untouched(states, events, b, b, id);
    }
    if Requeued(states, events, a, b - 1, id) && !UnsettledAt(states, events, b - 1, id) {
      var m :| a <= m < b - 1 && RequeuedAt(states, events, m, id) && Untouched(states, events, m + 1, b - 1, id);
      assert Untouched(states, events, m + 1, b, id);
    }
    if Requeued(states, events, a, b, id) && !RequeuedAt(states, events, b - 1, id) {
      var m :| a <= m < b && RequeuedAt(states, events, m, id) && Untouched(states, events, m + 1, b, id);
      assert Untouched(states, events, m + 1, b - 1, id);
    }
  }

  // ----- stale snapshots -----

  lemma {:induction false} StartableIsPending(p: Pool, tasks: seq<Task>, id: TaskId)
    requires id in StartableIds(p, tasks)
    ensures ShowsPending(tasks, id) && id !in p.running
  {
    if Startable(p, tasks[0]) && tasks[0].id == id {
      assert ShowsPending(tasks, id);
    } else {
      StartableIsPending(p, tasks[1..], id);
      var i :| 0 <= i < |tasks[1..]| && tasks[1..][i].id == id && tasks[1..][i].row.status == Pending;
      assert tasks[i + 1].id == id;
    }
  }

  /** The row is pending when the admission starts it. */
  ghost predicate LeftPending(states: seq<State>, events: seq<Event>, a: nat, b: nat, id: TaskId)
    requires b <= |events| < |states|
  {
    Untouched(states, events, a, b, id) || Requeued(states, events, a, b, id)
  }

  lemma StartedIffLeftPending(states: seq<State>, events: seq<Event>, a: nat, b: nat, tasks: seq<Task>, id: TaskId)
    requires IsRun(states, events) && a < b < |events| && NoRestart(events, a, b)
    requires events[a] == Dispatching(TakeSnapshot(tasks)) && events[b] == Dispatching(Admit(tasks))
    requires id in FirstStartable(states[b].pool, tasks)
    ensures HasStatus(states[b].db, id, Pending) <==> LeftPending(states, events, a, b, id)
  {
    EveryRunKeepsInv(states, events, a);
    StartableIsPending(states[b].pool, tasks, id);
    assert Enabled(states[a], events[a]);
    PendingIff(states, events, a, b, id);
  }

  /** A dispatch starts only tasks whose row is pending at that moment exactly when, since it read them, no
      pause, archive or goroutine has written one of the rows it starts without a resume or retry after. */
  lemma StartsOnlyPendingIff(states: seq<State>, events: seq<Event>, a: nat, b: nat, tasks: seq<Task>)
    requires IsRun(states, events) && a < b < |events| && NoRestart(events, a, b)
    requires events[a] == Dispatching(TakeSnapshot(tasks)) && events[b] == Dispatching(Admit(tasks))
    ensures var started := FirstStartable(states[b].pool, tasks);
      && (forall id :: id in states[b + 1].pool.running && id !in states[b].pool.running <==> id in started)
      && ((forall id :: id in started ==> HasStatus(states[b].db, id, Pending)) <==>
          (forall id :: id in started ==> LeftPending(states, events, a, b, id)))
  {
    var started := FirstStartable(states[b].pool, tasks);
    EveryRunKeepsInv(states, events, b);
    assert Enabled(states[b], events[b]) && states[b + 1] == Step(states[b], events[b]);
    AdmitStartsFirstStartable(states[b].pool, tasks);
    forall id | id in started ensures id !in states[b].pool.running {
      StartableIsPending(states[b].pool, tasks, id);
    }
    forall id | id in started
      ensures HasStatus(states[b].db, id, Pending) <==> LeftPending(states, events, a, b, id)
    {
      StartedIffLeftPending(states, events, a, b, tasks, id);
    }
  }

  // ----- registered tasks shown as pending -----

  lemma {:induction false} AdmitLoopNewIds(p: Pool, tasks: seq<Task>)
    ensures AdmitLoop(p, tasks).nextG >= p.nextG
    ensures forall g :: g in AdmitLoop(p, tasks).goroutines ==>
      g >= p.nextG || (g in p.goroutines && AdmitLoop(p, tasks).goroutines[g] == p.goroutines[g])
    decreases |tasks|
  {
    if tasks != [] && |p.running| < p.limit {
      var q := if Startable(p, tasks[0]) then StartTask(p, tasks[0].id) else p;
      AdmitLoopNewIds(q, tasks[1..]);
    }
  }

  /** A goroutine seen after a step was there before it, as far along or less; it leaves its first phase
      only by marking its row. */
  lemma StepBack(s: State, e: Event, g: GoroutineId)
    requires GoodPool(s.pool) && Enabled(s, e) && !e.Restart? && g < s.pool.nextG && g in Step(s, e).pool.goroutines
    ensures g < Step(s, e).pool.nextG && g in s.pool.goroutines
    ensures Step(s, e).pool.goroutines[g].task == s.pool.goroutines[g].task
    ensures Step(s, e).pool.goroutines[g].phase.Spawned? <==>
      s.pool.goroutines[g].phase.Spawned? && e != Working(g, MarkRunning)
  {
    if e.Dispatching? {
      AdmitLoopNewIds(s.pool, e.d.tasks);
    }
  }

  /** The goroutine is registered for the task, and its id is not a future one. */
  predicate Serves(p: Pool, g: GoroutineId, id: TaskId) {
    g < p.nextG && g in p.goroutines && p.goroutines[g].task == id
  }

  /** Goroutine ids only grow, and a goroutine seen after event k was there before it. */
  ghost predicate KeepsServers(states: seq<State>, events: seq<Event>, k: nat, g: GoroutineId)
    requires k < |events| < |states|
  {
    var p, p' := states[k].pool, states[k + 1].pool;
    && p.nextG <= p'.nextG
    && (g < p.nextG && g in p'.goroutines ==>
          && g in p.goroutines && p'.goroutines[g].task == p.goroutines[g].task
          && (p'.goroutines[g].phase.Spawned? <==>
                p.goroutines[g].phase.Spawned? && events[k] != Working(g, MarkRunning)))
  }

  lemma EventKeepsServers(states: seq<State>, events: seq<Event>, k: nat, g: GoroutineId)
    requires IsRun(states, events) && k < |events| && !events[k].Restart?
    ensures KeepsServers(states, events, k, g)
  {
    EveryRunKeepsInv(states, events, k);
    assert Enabled(states[k], events[k]) && states[k + 1] == Step(states[k], events[k]);
    StepKeepsIdsOld(states[k], events[k]);
    if g < states[k].pool.nextG && g in states[k + 1].pool.goroutines {
      StepBack(states[k], events[k], g);
    }
  }

  lemma StepKeepsIdsOld(s: State, e: Event)
    requires Enabled(s, e) && !e.Restart?
    ensures s.pool.nextG <= Step(s, e).pool.nextG
  {
    if e.Dispatching? {
      AdmitLoopNewIds(s.pool, e.d.tasks);
    }
  }

  lemma {:induction false} IdsStayOld(states: seq<State>, events: seq<Event>, r: nat, k: nat, g: GoroutineId)
    requires r <= k <= |events| < |states| && forall i :: r <= i < k ==> KeepsServers(states, events, i, g)
    requires g < states[r].pool.nextG
    ensures g < states[k].pool.nextG
    decreases k - r
  {
    if r < k {
      IdsStayOld(states, events, r, k - 1, g);
      assert KeepsServers(states, events, k - 1, g);
    }
  }

  lemma {:induction false} KeptThroughout(
    states: seq<State>, events: seq<Event>, r: nat, j: nat, k: nat, g: GoroutineId, id: TaskId)
    requires r <= j <= k <= |events| < |states| && forall i :: r <= i < k ==> KeepsServers(states, events, i, g)
    requires g < states[r].pool.nextG && Serves(states[k].pool, g, id)
    ensures g < states[j].pool.nextG && Serves(states[j].pool, g, id)
    ensures states[k].pool.goroutines[g].phase.Spawned? <==>
      states[j].pool.goroutines[g].phase.Spawned? && forall i :: j <= i < k ==> events[i] != Working(g, MarkRunning)
    decreases k - j
  {
    IdsStayOld(states, events, r, j, g);
    if j < k {
      IdsStayOld(states, events, r, k - 1, g);
      assert KeepsServers(states, events, k - 1, g);
      KeptThroughout(states, events, r, j, k - 1, g, id);
    }
  }

  lemma ServesThroughout(
    states: seq<State>, events: seq<Event>, r: nat, j: nat, k: nat, g: GoroutineId, id: TaskId)
    requires IsRun(states, events) && r <= j <= k <= |events| && NoRestart(events, r, k)
    requires g < states[r].pool.nextG && Serves(states[k].pool, g, id)
    ensures g < states[j].pool.nextG && Serves(states[j].pool, g, id)
    ensures states[k].pool.goroutines[g].phase.Spawned? <==>
      states[j].pool.goroutines[g].phase.Spawned? && forall i :: j <= i < k ==> events[i] != Working(g, MarkRunning)
  {
    forall i | r <= i < k ensures KeepsServers(states, events, i, g) {
      EventKeepsServers(states, events, i, g);
    }
    KeptThroughout(states, events, r, j, k, g, id);
  }

  ghost predicate NoApiWrite(events: seq<Event>, a: nat, b: nat, id: TaskId)
    requires b <= |events|
  {
    forall k :: a <= k < b ==> !ApiUnsettles(events[k], id)
  }

  /** While a goroutine serves the task, only it writes the row from inside. */
  lemma UntouchedIffSpawned(states: seq<State>, events: seq<Event>, r: nat, k: nat, g: GoroutineId, id: TaskId)
    requires IsRun(states, events) && r <= k <= |events| && NoRestart(events, r, k)
    requires Serves(states[r].pool, g, id) && states[r].pool.goroutines[g].phase.Spawned?
    requires Serves(states[k].pool, g, id)
    ensures Untouched(states, events, r, k, id) <==>
      states[k].pool.goroutines[g].phase.Spawned? && NoApiWrite(events, r, k, id)
  {
    ServesThroughout(states, events, r, r, k, g, id);
    forall i | r <= i < k
      ensures UnsettledAt(states, events, i, id) <== ApiUnsettles(events[i], id) || events[i] == Working(g, MarkRunning)
      ensures states[k].pool.goroutines[g].phase.Spawned? && UnsettledAt(states, events, i, id) ==>
        ApiUnsettles(events[i], id)
    {
      ServesThroughout(states, events, r, i, k, g, id);
      EveryRunKeepsInv(states, events, i);
      assert Enabled(states[i], events[i]);
    }
    if Untouched(states, events, r, k, id) {
      forall i | r <= i < k ensures !ApiUnsettles(events[i], id) && events[i] != Working(g, MarkRunning) {
        assert !UnsettledAt(states, events, i, id);
      }
    }
  }

  /** The "already running" test of the admission loop is reached exactly so: a snapshot shows a registered
      task as pending when its row was put back by a resume or retry, or when it was pending as it was
      started, its goroutine has not run yet, and no pause or cancel has written the row. */
  lemma RegisteredShownPendingIff(
    states: seq<State>, events: seq<Event>, r: nat, k: nat, g: GoroutineId, id: TaskId, tasks: seq<Task>)
    requires IsRun(states, events) && r <= k <= |events| && NoRestart(events, r, k)
    requires Serves(states[r].pool, g, id) && states[r].pool.goroutines[g].phase.Spawned?
    requires Serves(states[k].pool, g, id) && id < states[r].db.nextId
    requires IsSnapshot(states[k].db, tasks)
    ensures id in states[k].pool.running
    ensures ShowsPending(tasks, id) <==>
      || Requeued(states, events, r, k, id)
      || (&& HasStatus(states[r].db, id, Pending) && states[k].pool.goroutines[g].phase.Spawned?
          && NoApiWrite(events, r, k, id))
  {
    EveryRunKeepsInv(states, events, k);
    PendingIff(states, events, r, k, id);
    UntouchedIffSpawned(states, events, r, k, g, id);
    if HasStatus(states[k].db, id, Pending) {
      assert Lists(tasks, id);
    }
  }

  // ----- reachable states -----

  ghost predicate Reachable(s: State) {
    exists states: seq<State>, events: seq<Event> :: IsRun(states, events) && s == states[|events|]
  }

  lemma ReachableStep(s: State, e: Event)
    requires Reachable(s) && Enabled(s, e)
    ensures Reachable(Step(s, e))
  {
    var states: seq<State>, events: seq<Event> :| IsRun(states, events) && s == states[|events|];
    var states', events' := states + [Step(s, e)], events + [e];
    forall i | 0 <= i < |events'|
      ensures Enabled(states'[i], events'[i]) && states'[i + 1] == Step(states'[i], events'[i])
    {
      if i < |events| {
        assert Enabled(states[i], events[i]) && states[i + 1] == Step(states[i], events[i]);
      }
    }
    assert IsRun(states', events');
  }

  const NEW_ROW := Row(Upload, Pending, 0, 0)
  const SNAPSHOT := [Task(0, NEW_ROW)]

  /** A fresh process on empty tables, after one QueueUpload. */
  function Queued(): State {
    var empty := State(Db(map[], [], 0), Pool(map[], map[], 0, 1), Wakes(0, multiset{}, 0, 0), multiset{});
    QueueStep(RestartState(empty, 2), Queue(Upload, 0, 0))
  }

  lemma QueuedShowsTask()
    ensures Queued().db == Db(map[0 := NEW_ROW], [], 1) && Queued().wakes.wanted == 2
    ensures Queued().pool == Pool(map[], map[], 0, 2)
    ensures IsSnapshot(Queued().db, SNAPSHOT) && ShowsPending(SNAPSHOT, 0)
  {
    assert SNAPSHOT[0].id == 0 && Lists(SNAPSHOT, 0);
  }

  lemma QueuedIsReachable()
    ensures Reachable(Queued()) && Queued().wakes.wanted == 2
    ensures Queued().db == Db(map[0 := NEW_ROW], [], 1)
    ensures Queued().pool == Pool(map[], map[], 0, 2)
    ensures IsSnapshot(Queued().db, SNAPSHOT) && ShowsPending(SNAPSHOT, 0)
  {
    QueuedShowsTask();
    var s0 := State(Db(map[], [], 0), Pool(map[], map[], 0, 1), Wakes(0, multiset{}, 0, 0), multiset{});
    var s := RestartState(s0, 2);
    assert ConsistentDb(s0.db);
    var states, events: seq<Event> := [s], [];
    assert RecoveredFirst(s);
    assert IsRun(states, events) && s == states[|events|];
    ReachableStep(s, Queueing(Queue(Upload, 0, 0)));
  }

  /** After one dispatch has read the queue, and a second one is still owed. */
  function Read(): State {
    var q := Queued();
    q.(wakes := q.wakes.(wanted := 1, snapshots := multiset{SNAPSHOT}))
  }

  lemma ReadIsReachable()
    ensures Reachable(Read())
  {
    QueuedIsReachable();
    ReachableStep(Queued(), Dispatching(TakeSnapshot(SNAPSHOT)));
    assert Step(Queued(), Dispatching(TakeSnapshot(SNAPSHOT))) == Read();
  }

  lemma AdmitStartsTaskZero(p: Pool)
    requires p == Pool(map[], map[], 0, 2)
    ensures AdmitLoop(p, SNAPSHOT) == StartTask(p, 0)
  {
    assert AdmitLoop(StartTask(p, 0), SNAPSHOT[1..]) == StartTask(p, 0);
  }

  /** After that dispatch has started the task, before its goroutine has run at all. */
  function Admitted(): State {
    var q := Queued();
    q.(pool := StartTask(q.pool, 0), wakes := q.wakes.(wanted := 1))
  }

  lemma AdmittedIsReachable()
    ensures Reachable(Admitted())
  {
    QueuedIsReachable();
    ReadIsReachable();
    ReachableStep(Read(), Dispatching(Admit(SNAPSHOT)));
    AdmitStartsTaskZero(Queued().pool);
    assert Step(Read(), Dispatching(Admit(SNAPSHOT))) == Admitted();
  }

  /** The "already running" test of the admission loop is needed: a dispatch may read a row as pending
      after another one has started its task and before the goroutine marks it running. */
  lemma AlreadyRunningIsReached()
    ensures exists s: State, tasks: seq<Task> ::
      && Reachable(s) && Enabled(s, Dispatching(TakeSnapshot(tasks)))
      && ShowsPending(tasks, 0) && 0 in s.pool.running
  {
    QueuedIsReachable();
    AdmittedIsReachable();
    assert Enabled(Admitted(), Dispatching(TakeSnapshot(SNAPSHOT)));
    assert 0 in Admitted().pool.running;
  }

  /** After a PauseTask that found the task still waiting, while the first dispatch holds its rows. */
  function PausedMeanwhile(): State {
    var r := Read();
    r.(db := SetStatus(r.db, 0, Paused))
  }

  lemma PauseReaches(s: State, p: PauseEvent, t: State)
    requires Reachable(s) && PauseEnabled(s, p) && PauseStep(s, p) == t
    ensures Reachable(t)
  {
    ReachableStep(s, Pausing(p));
  }

  lemma PauseInterleaved(s: State)
    requires Reachable(s) && s.calls == multiset{}
    requires HasStatus(s.db, 0, Pending) && s.db.queue[0].kind != DownloadZip && 0 !in s.pool.running
    ensures Reachable(s.(db := SetStatus(s.db, 0, Paused)))
  {
    var s1 := s.(calls := multiset{PauseLook(0)});
    PauseReaches(s, PauseStart(0), s1);
    var s2 := s.(calls := multiset{PauseRead(0)});
    PauseReaches(s1, PauseLooks(0), s2);
    var s3 := s.(calls := multiset{PauseWrite(0)});
    PauseReaches(s2, PauseReads(0), s3);
    PauseReaches(s3, PauseWrites(0), s.(db := SetStatus(s.db, 0, Paused)));
  }

  lemma PausedMeanwhileIsReachable()
    ensures Reachable(PausedMeanwhile())
  {
    QueuedIsReachable();
    ReadIsReachable();
    PauseInterleaved(Read());
  }

  /** So a dispatch can start a task whose row was paused after its snapshot was read. */
  lemma StaleSnapshotStartsPausedTask()
    ensures exists s: State, tasks: seq<Task> ::
      && Reachable(s) && HasStatus(s.db, 0, Paused) && 0 !in s.pool.running
      && Enabled(s, Dispatching(Admit(tasks)))
      && 0 in Step(s, Dispatching(Admit(tasks))).pool.running
  {
    QueuedIsReachable();
    PausedMeanwhileIsReachable();
    AdmitStartsTaskZero(PausedMeanwhile().pool);
    var t := Step(PausedMeanwhile(), Dispatching(Admit(SNAPSHOT)));
    assert 0 in t.pool.running;
  }

  // ----- startup without recovery -----

  ghost predicate IsUnseen(w: Wakes, id: TaskId) {
    forall tasks :: tasks in w.snapshots ==> !ShowsPending(tasks, id)
  }

  /** Orphaned rows are never started; every other row marked running belongs to a live goroutine, and a
      live goroutine's row, if it is still queued, is marked running. */
  ghost predicate BootInv(db: Db, s: State) {
    && GoodPool(s.pool)
    && (forall id :: id in OrphanIds(db) ==>
          HasStatus(s.db, id, Running) && id !in s.pool.running && IsUnseen(s.wakes, id))
    && (forall id :: HasStatus(s.db, id, Running) <==>
          id in OrphanIds(db) || (id in s.db.queue && IsLive(s.pool, id)))
  }

  lemma {:induction false} AdmitStartsShown(p: Pool, tasks: seq<Task>, id: TaskId)
    requires id in AdmitLoop(p, tasks).running
    ensures id in p.running || ShowsPending(tasks, id)
    decreases |tasks|
  {
    if tasks != [] && |p.running| < p.limit {
      var q := if Startable(p, tasks[0]) then StartTask(p, tasks[0].id) else p;
      AdmitStartsShown(q, tasks[1..], id);
      if ShowsPending(tasks[1..], id) {
        var i :| 0 <= i < |tasks[1..]| && tasks[1..][i].id == id && tasks[1..][i].row.status == Pending;
        assert tasks[i + 1].id == id;
      }
    }
  }

  lemma AdmitKeepsLive(p: Pool, tasks: seq<Task>, id: TaskId)
    requires GoodPool(p)
    ensures GoodPool(AdmitLoop(p, tasks)) && (IsLive(AdmitLoop(p, tasks), id) <==> IsLive(p, id))
  {
    AdmitLoopKeepsPool(p, tasks);
    AdmitLoopOnlyStarts(p, tasks);
  }

  lemma BootDispatchKeepsInv(db: Db, s: State, d: DispatchEvent)
    requires BootInv(db, s) && DispatchEnabled(s, d)
    ensures BootInv(db, DispatchStep(s, d))
  {
    var t := DispatchStep(s, d);
    if d.Admit? {
      AdmitLoopKeepsPool(s.pool, d.tasks);
      forall id ensures IsLive(t.pool, id) <==> IsLive(s.pool, id) {
        AdmitKeepsLive(s.pool, d.tasks, id);
      }
      forall id | id in OrphanIds(db) ensures id !in t.pool.running && IsUnseen(t.wakes, id) {
        if id in t.pool.running {
          AdmitStartsShown(s.pool, d.tasks, id);
        }
      }
    }
  }

  lemma BootWorkKeepsInv(db: Db, s: State, g: GoroutineId, w: WorkEvent)
    requires BootInv(db, s) && WorkEnabled(s, g, w)
    ensures BootInv(db, WorkStep(s, g, w))
  {
    var t, task := WorkStep(s, g, w), s.pool.goroutines[g].task;
    WorkStepKeepsPool(s, g, w);
    assert s.pool.running[task] == g;
    forall id | id != task
      ensures IsLive(t.pool, id) <==> IsLive(s.pool, id)
      ensures id in t.db.queue <==> id in s.db.queue
      ensures HasStatus(t.db, id, Running) <==> HasStatus(s.db, id, Running)
    {
    }
  }

  lemma {:induction false} EveryBootKeepsInv(db: Db, n: int, states: seq<State>, events: seq<Event>, k: nat)
    requires IsBootRun(db, n, states, events) && k < |states|
    ensures BootInv(db, states[k])
  {
    if k > 0 {
      EveryBootKeepsInv(db, n, states, events, k - 1);
      var e := events[k - 1];
      assert Enabled(states[k - 1], e) && states[k] == Step(states[k - 1], e);
      match e
      case Dispatching(d) => BootDispatchKeepsInv(db, states[k - 1], d);
      case Working(g, w) => BootWorkKeepsInv(db, states[k - 1], g, w);
    }
  }

  /** The goroutine has marked its row running, has not written its result, and the row is still there. */
  predicate HoldsQueuedRow(s: State, g: GoroutineId) {
    g in s.pool.goroutines && HoldsRow(s.pool.goroutines[g].phase) && s.pool.goroutines[g].task in s.db.queue
  }

  /** A recovery at any moment after the first dispatch takes the crash orphans and the rows goroutines hold;
      so it returns exactly the orphans, and touches no live task, exactly when no goroutine holds its row. */
  lemma LateRecoveryIsRightIff(
    db: Db, n: int, states: seq<State>, events: seq<Event>, k: nat, tasks: seq<Task>)
    requires IsBootRun(db, n, states, events) && k < |states| && IsSnapshot(states[k].db, tasks)
    ensures var s, recovered := states[k], RunningIds(tasks);
      && (forall id :: id in recovered <==>
            id in OrphanIds(db) || exists g :: HoldsQueuedRow(s, g) && s.pool.goroutines[g].task == id)
      && ((forall id :: id in recovered <==> id in OrphanIds(db)) <==> forall g :: !HoldsQueuedRow(s, g))
      && ((exists id :: id in recovered && IsLive(s.pool, id)) <==> exists g :: HoldsQueuedRow(s, g))
  {
    var s, recovered := states[k], RunningIds(tasks);
    EveryBootKeepsInv(db, n, states, events, k);
    RecoveredIdsAreOrphans(s.db, tasks);
    forall id
      ensures id in s.db.queue && IsLive(s.pool, id) <==>
                exists g :: HoldsQueuedRow(s, g) && s.pool.goroutines[g].task == id
    {
      LiveIffHeld(s, id);
    }
    forall g | HoldsQueuedRow(s, g)
      ensures var id := s.pool.goroutines[g].task; id in recovered && IsLive(s.pool, id) && id !in OrphanIds(db)
    {
      assert s.pool.running[s.pool.goroutines[g].task] == g;
    }
  }

  lemma LiveIffHeld(s: State, id: TaskId)
    requires GoodPool(s.pool)
    ensures id in s.db.queue && IsLive(s.pool, id) <==>
              exists g :: HoldsQueuedRow(s, g) && s.pool.goroutines[g].task == id
  {
    if id in s.db.queue && IsLive(s.pool, id) {
      assert HoldsQueuedRow(s, s.pool.running[id]);
    }
  }

  /** Whatever a late recovery took for an orphan, the invariant and all that rests on it hold from then on. */
  lemma LateRecoveryStartsRun(
    db: Db, n: int, boot: seq<State>, before: seq<Event>, states: seq<State>, events: seq<Event>, k: nat)
    requires ConsistentDb(db) && IsBootRun(db, n, boot, before)
    requires |states| == |events| + 1 && states[0] == LateRecovery(boot[|before|]) && k < |states|
    requires forall i :: 0 <= i < |events| ==>
               Enabled(states[i], events[i]) && states[i + 1] == Step(states[i], events[i])
    ensures IsRun(states, events) && Inv(states[k])
  {
    assert RecoveredLate(states[0]);
    EveryRunKeepsInv(states, events, k);
  }

  const WAITING_DB := Db(map[0 := NEW_ROW], [], 1)

  /** One waiting row, no orphan: read, started, and marked running before the recovery comes. */
  lemma RecoveryAfterDispatchHitsLiveTask()
    ensures exists states: seq<State>, events: seq<Event> ::
      && IsBootRun(WAITING_DB, 2, states, events)
      && 0 in OrphanIds(states[|events|].db) && IsLive(states[|events|].pool, 0) && OrphanIds(WAITING_DB) == {}
  {
    var s0 := BootState(WAITING_DB, 2);
    var e0, e1, e2 := Dispatching(TakeSnapshot(SNAPSHOT)), Dispatching(Admit(SNAPSHOT)), Working(0, MarkRunning);
    assert SNAPSHOT[0].id == 0 && Lists(SNAPSHOT, 0);
    var s1 := Step(s0, e0);
    AdmitStartsTaskZero(s1.pool);
    var s2 := Step(s1, e1);
    assert s2.pool == StartTask(s1.pool, 0);
    var s3 := Step(s2, e2);
    var states, events := [s0, s1, s2, s3], [e0, e1, e2];
    assert IsBootRun(WAITING_DB, 2, states, events);
    assert HasStatus(s3.db, 0, Running) && 0 in OrphanIds(s3.db) && IsLive(s3.pool, 0);
  }
}
