/**
The transfer queue as interleaved atomic steps.

The durable part (`Db`) is the transfer_queue and transfer_history tables; every operation on it is
one atomic statement or transaction. The volatile part is the `running` map and the limit guarded by
the service's mutex, the goroutines started for tasks, the dispatch() calls in flight and the API
calls in flight. Each `Event` is one stretch of source code that nothing else can interleave with:
one database call, or one critical section of the mutex. In particular dispatch() is two events,
`TakeSnapshot` (GetAll, outside the mutex) and `Admit` (the admission loop, inside it).
*/
module QueueModel {
  type TaskId = nat
  type GoroutineId = nat

  datatype TaskType = Upload | Download | DownloadZip | CopyCross
  datatype Status = Pending | Running | Paused | Completed | Failed | Cancelled
  datatype Row = Row(kind: TaskType, status: Status, priority: int, createdAt: int)
  datatype Task = Task(id: TaskId, row: Row)
  datatype HistoryEntry = HistoryEntry(queueId: TaskId, status: Status)

  /** `history` is every row ever written to transfer_history (ClearHistory does not shorten it). */
  datatype Db = Db(queue: map<TaskId, Row>, history: seq<HistoryEntry>, nextId: TaskId)

  datatype Intent = Unset | WantPause | WantCancel

  /** How the type-specific transfer call ended: nil, an error wrapping context.Canceled, or another error. */
  datatype Outcome = NilError | CanceledError | OtherError

  /** Where runTask is: before its first write, transferring, back from the transfer call, decided on
      the final write, or done with that write but still in `running`. */
  datatype Phase = Spawned | Transferring | Returned(outcome: Outcome) | Decided(verdict: Status) | Persisted

  datatype Goroutine = Goroutine(task: TaskId, phase: Phase, intent: Intent, cancelled: bool)

  /** API calls between two of their atomic stretches. */
  datatype ApiCall =
    | PauseLook(id: TaskId)      // PauseTask, type check passed, before it looks at `running`
    | PauseRead(id: TaskId)      // PauseTask, not running, before it re-reads the row
    | PauseWrite(id: TaskId)     // PauseTask, row was pending, before the update
    | ResumeWrite(id: TaskId)    // ResumeTask, row was paused, before the update
    | RetryWrite(id: TaskId)     // RetryTask, row was failed, before the update
    | CancelRead(id: TaskId)     // CancelTask, not running, before it reads the row
    | CancelArchive(id: TaskId)  // CancelTask, status allowed, before the archive transaction

  /** `running` and `limit` are guarded by the service's mutex. */
  datatype Pool = Pool(
    running: map<TaskId, GoroutineId>,
    goroutines: map<GoroutineId, Goroutine>,
    nextG: GoroutineId,
    limit: nat)

  /** The dispatch() calls in flight. `wanted` counts those that have not read the queue yet, or that
      the code which owes them is certain to make; `snapshots` are the rows read by the others and not
      yet processed. `emptyBatches` and `filledBatches` count the QueueCopyBetweenProfiles calls
      between two keys that have created no row so far, or some row. */
  datatype Wakes = Wakes(wanted: nat, snapshots: multiset<seq<Task>>, emptyBatches: nat, filledBatches: nat)

  datatype State = State(db: Db, pool: Pool, wakes: Wakes, calls: multiset<ApiCall>)

  const DEFAULT_LIMIT := 2

  // ----- transfer_queue and transfer_history -----

  /** UpdateStatus: no effect on a missing row (the source gets ErrTransferTaskNotFound). */
  function SetStatus(db: Db, id: TaskId, status: Status): Db {
    if id in db.queue then db.(queue := db.queue[id := db.queue[id].(status := status)]) else db
  }

  function SetPriority(db: Db, id: TaskId, priority: int): Db {
    if id in db.queue then db.(queue := db.queue[id := db.queue[id].(priority := priority)]) else db
  }

  /** Create: the id comes from AUTOINCREMENT, so it is never reused. */
  function Insert(db: Db, row: Row): Db {
    db.(queue := db.queue[db.nextId := row], nextId := db.nextId + 1)
  }

  /** MoveToHistory: insert and delete commit together, and roll back together when the row is gone. */
  function MoveToHistory(db: Db, id: TaskId, status: Status): Db {
    if id in db.queue
    then db.(queue := db.queue - {id}, history := db.history + [HistoryEntry(id, status)])
    else db
  }

  predicate RunsBefore(a: Row, b: Row) {
    a.priority < b.priority || (a.priority == b.priority && a.createdAt <= b.createdAt)
  }

  ghost predicate DistinctIds(tasks: seq<Task>) {
    forall i, j :: 0 <= i < j < |tasks| ==> tasks[i].id != tasks[j].id
  }

  ghost predicate Lists(tasks: seq<Task>, id: TaskId) {
    exists i :: 0 <= i < |tasks| && tasks[i].id == id
  }

  ghost predicate InRunOrder(tasks: seq<Task>) {
    forall i, j :: 0 <= i < j < |tasks| ==> RunsBefore(tasks[i].row, tasks[j].row)
  }

  /** GetAll: every row once, by priority and then creation time; equal rows in either order. */
  ghost predicate IsSnapshot(db: Db, tasks: seq<Task>) {
    && DistinctIds(tasks)
    && InRunOrder(tasks)
    && (forall i :: 0 <= i < |tasks| ==> tasks[i].id in db.queue && tasks[i].row == db.queue[tasks[i].id])
    && (forall id :: id in db.queue ==> Lists(tasks, id))
  }

  // ----- the mutex-guarded part -----

  /** startTask: registers the task (over whatever entry was there) and spawns its goroutine. */
  function StartTask(p: Pool, id: TaskId): Pool {
    Pool(p.running[id := p.nextG], p.goroutines[p.nextG := Goroutine(id, Spawned, Unset, false)],
         p.nextG + 1, p.limit)
  }

  /** The loop of dispatch() over its snapshot, under the mutex. */
  function AdmitLoop(p: Pool, tasks: seq<Task>): Pool
    decreases |tasks|
  {
    if tasks == [] || |p.running| >= p.limit then p
    else if tasks[0].row.status != Pending || tasks[0].id in p.running then AdmitLoop(p, tasks[1..])
    else AdmitLoop(StartTask(p, tasks[0].id), tasks[1..])
  }

  /** What handleTaskResult makes of the transfer call's result and the intent it loads. */
  function Verdict(outcome: Outcome, intent: Intent): Status {
    match outcome
    case NilError => Completed
    case CanceledError => if intent == WantCancel then Cancelled else Paused
    case OtherError => Failed
  }

  /** The write handleTaskResult makes: only a success and an explicit cancel leave the queue. */
  function Persist(db: Db, id: TaskId, verdict: Status): Db {
    if verdict == Completed || verdict == Cancelled then MoveToHistory(db, id, verdict)
    else SetStatus(db, id, verdict)
  }

  /** PauseTask and CancelTask on a running task: store the intent, then cancel its context. */
  function Signal(p: Pool, id: TaskId, intent: Intent): Pool {
    if id in p.running && p.running[id] in p.goroutines then
      var g := p.running[id];
      p.(goroutines := p.goroutines[g := p.goroutines[g].(intent := intent, cancelled := true)])
    else p
  }

  function SetPhase(p: Pool, g: GoroutineId, phase: Phase): Pool
    requires g in p.goroutines
  {
    p.(goroutines := p.goroutines[g := p.goroutines[g].(phase := phase)])
  }

  /** The deferred cleanup of runTask: delete(s.running, task.ID), after which the goroutine only has
      its dispatch() call left. */
  function Unregister(p: Pool, g: GoroutineId): Pool
    requires g in p.goroutines
  {
    p.(running := p.running - {p.goroutines[g].task}, goroutines := p.goroutines - {g})
  }

  function Owe(w: Wakes): Wakes {
    w.(wanted := w.wanted + 1)
  }

  function Drop(calls: multiset<ApiCall>, call: ApiCall): multiset<ApiCall> {
    calls - multiset{call}
  }

  function Swap(calls: multiset<ApiCall>, before: ApiCall, after: ApiCall): multiset<ApiCall> {
    calls - multiset{before} + multiset{after}
  }

  predicate HasStatus(db: Db, id: TaskId, status: Status) {
    id in db.queue && db.queue[id].status == status
  }

  predicate Cancellable(db: Db, id: TaskId) {
    HasStatus(db, id, Pending) || HasStatus(db, id, Paused) || HasStatus(db, id, Failed)
  }

  // ----- crash and recovery -----

  function RecoveredRow(row: Row): Row {
    if row.status == Running then row.(status := Paused) else row
  }

  /** RecoverOrphanedTasks: every row marked running goes back to paused. */
  function RecoverDb(db: Db): Db {
    db.(queue := map id | id in db.queue :: RecoveredRow(db.queue[id]))
  }

  /** The ids RecoverOrphanedTasks collects from the rows it read. */
  function RunningIds(tasks: seq<Task>): seq<TaskId> {
    if tasks == [] then []
    else
      var last := tasks[|tasks| - 1];
      RunningIds(tasks[..|tasks| - 1]) + (if last.row.status == Running then [last.id] else [])
  }

  function OrphanIds(db: Db): set<TaskId> {
    set id | id in db.queue && db.queue[id].status == Running
  }

  /** AutoResumeIfEnabled over the recovered ids: each paused one goes back to pending. */
  function ResumeAll(db: Db, ids: seq<TaskId>): Db
    decreases |ids|
  {
    if ids == [] then db
    else ResumeAll(if HasStatus(db, ids[0], Paused) then SetStatus(db, ids[0], Pending) else db, ids[1..])
  }

  /** A killed process restarts: memory is gone, the tables stay; recovery runs before any dispatch,
      then the persisted limit is applied, which owes the first dispatch. */
  function RestartState(s: State, n: int): State {
    State(RecoverDb(s.db), Pool(map[], map[], 0, ClampLimit(n)), Wakes(1, multiset{}, 0, 0), multiset{})
  }

  function ClampLimit(n: int): nat {
    if n < 1 then 1 else n
  }

  // ----- events -----

  /** Queue* calls, the limit and the order. */
  datatype QueueEvent =
    | Queue(kind: TaskType, priority: int, createdAt: int)
    | BatchOpen
    | BatchCreate(first: bool, priority: int, createdAt: int)
    | BatchClose(filled: bool)
    | SetMax(n: int)
    | Reorder(id: TaskId, priority: int)

  datatype DispatchEvent =
    | TakeSnapshot(tasks: seq<Task>)
    | Admit(tasks: seq<Task>)

  /** PauseTask, one atomic stretch at a time. */
  datatype PauseEvent =
    | PauseStart(id: TaskId)
    | PauseLooks(id: TaskId)
    | PauseReads(id: TaskId)
    | PauseWrites(id: TaskId)

  /** ResumeTask and RetryTask. */
  datatype RequeueEvent =
    | ResumeReads(id: TaskId)
    | ResumeWrites(id: TaskId)
    | RetryReads(id: TaskId)
    | RetryWrites(id: TaskId)

  datatype CancelEvent =
    | CancelLooks(id: TaskId)
    | CancelReads(id: TaskId)
    | CancelArchives(id: TaskId)

  /** runTask and handleTaskResult of one goroutine. */
  datatype WorkEvent =
    | MarkRunning
    | TransferReturns(outcome: Outcome)
    | Decide
    | PersistResult
    | Finish

  datatype Event =
    | Queueing(q: QueueEvent)
    | Dispatching(d: DispatchEvent)
    | Pausing(p: PauseEvent)
    | Requeueing(r: RequeueEvent)
    | Cancelling(c: CancelEvent)
    | Working(g: GoroutineId, w: WorkEvent)
    | Restart(n: int)

  predicate QueueEnabled(s: State, q: QueueEvent) {
    match q
    case BatchCreate(first, _, _) => if first then s.wakes.emptyBatches > 0 else s.wakes.filledBatches > 0
    case BatchClose(filled) => if filled then s.wakes.filledBatches > 0 else s.wakes.emptyBatches > 0
    case _ => true
  }

  /** A batch that created any row calls dispatch() once, at its end. */
  function QueueStep(s: State, q: QueueEvent): State
    requires QueueEnabled(s, q)
  {
    var w := s.wakes;
    match q
    case Queue(kind, priority, createdAt) =>
      s.(db := Insert(s.db, Row(kind, Pending, priority, createdAt)), wakes := Owe(w))
    case BatchOpen => s.(wakes := w.(emptyBatches := w.emptyBatches + 1))
    case BatchCreate(first, priority, createdAt) =>
      s.(db := Insert(s.db, Row(CopyCross, Pending, priority, createdAt)),
         wakes := if first
                  then w.(emptyBatches := w.emptyBatches - 1, filledBatches := w.filledBatches + 1)
                  else w)
    case BatchClose(filled) =>
      s.(wakes := if filled then Owe(w.(filledBatches := w.filledBatches - 1))
                  else w.(emptyBatches := w.emptyBatches - 1))
    case SetMax(n) => s.(pool := s.pool.(limit := ClampLimit(n)), wakes := Owe(w))
    case Reorder(id, priority) => s.(db := SetPriority(s.db, id, priority))
  }

  ghost predicate DispatchEnabled(s: State, d: DispatchEvent) {
    match d
    case TakeSnapshot(tasks) => s.wakes.wanted > 0 && IsSnapshot(s.db, tasks)
    case Admit(tasks) => tasks in s.wakes.snapshots
  }

  ghost function DispatchStep(s: State, d: DispatchEvent): State
    requires DispatchEnabled(s, d)
  {
    var w := s.wakes;
    match d
    case TakeSnapshot(tasks) =>
      s.(wakes := w.(wanted := w.wanted - 1, snapshots := w.snapshots + multiset{tasks}))
    case Admit(tasks) =>
      s.(pool := AdmitLoop(s.pool, tasks), wakes := w.(snapshots := w.snapshots - multiset{tasks}))
  }

  predicate PauseEnabled(s: State, p: PauseEvent) {
    match p
    case PauseStart(id) => true
    case PauseLooks(id) => PauseLook(id) in s.calls
    case PauseReads(id) => PauseRead(id) in s.calls
    case PauseWrites(id) => PauseWrite(id) in s.calls
  }

  /** A call that is refused, or that finds its row gone, ends without any effect. */
  function PauseStep(s: State, p: PauseEvent): State {
    match p
    case PauseStart(id) =>
      if id in s.db.queue && s.db.queue[id].kind != DownloadZip
      then s.(calls := s.calls + multiset{PauseLook(id)}) else s
    case PauseLooks(id) =>
      if id in s.pool.running
      then s.(pool := Signal(s.pool, id, WantPause), calls := Drop(s.calls, PauseLook(id)))
      else s.(calls := Swap(s.calls, PauseLook(id), PauseRead(id)))
    case PauseReads(id) =>
      if HasStatus(s.db, id, Pending)
      then s.(calls := Swap(s.calls, PauseRead(id), PauseWrite(id)))
      else s.(calls := Drop(s.calls, PauseRead(id)))
    case PauseWrites(id) =>
      s.(db := SetStatus(s.db, id, Paused), calls := Drop(s.calls, PauseWrite(id)))
  }

  predicate RequeueEnabled(s: State, r: RequeueEvent) {
    match r
    case ResumeReads(id) => true
    case ResumeWrites(id) => ResumeWrite(id) in s.calls
    case RetryReads(id) => true
    case RetryWrites(id) => RetryWrite(id) in s.calls
  }

  function RequeueStep(s: State, r: RequeueEvent): State {
    match r
    case ResumeReads(id) =>
      if HasStatus(s.db, id, Paused) then s.(calls := s.calls + multiset{ResumeWrite(id)}) else s
    case ResumeWrites(id) => BackToPending(s, id, Drop(s.calls, ResumeWrite(id)))
    case RetryReads(id) =>
      if HasStatus(s.db, id, Failed) then s.(calls := s.calls + multiset{RetryWrite(id)}) else s
    case RetryWrites(id) => BackToPending(s, id, Drop(s.calls, RetryWrite(id)))
  }

  /** The end of ResumeTask and RetryTask: update the row, then call dispatch(). */
  function BackToPending(s: State, id: TaskId, calls: multiset<ApiCall>): State {
    if id in s.db.queue
    then s.(db := SetStatus(s.db, id, Pending), wakes := Owe(s.wakes), calls := calls)
    else s.(calls := calls)
  }

  predicate CancelEnabled(s: State, c: CancelEvent) {
    match c
    case CancelLooks(id) => true
    case CancelReads(id) => CancelRead(id) in s.calls
    case CancelArchives(id) => CancelArchive(id) in s.calls
  }

  function CancelStep(s: State, c: CancelEvent): State {
    match c
    case CancelLooks(id) =>
      if id in s.pool.running then s.(pool := Signal(s.pool, id, WantCancel))
      else s.(calls := s.calls + multiset{CancelRead(id)})
    case CancelReads(id) =>
      if Cancellable(s.db, id)
      then s.(calls := Swap(s.calls, CancelRead(id), CancelArchive(id)))
      else s.(calls := Drop(s.calls, CancelRead(id)))
    case CancelArchives(id) =>
      s.(db := MoveToHistory(s.db, id, Cancelled), calls := Drop(s.calls, CancelArchive(id)))
  }

  predicate WorkEnabled(s: State, g: GoroutineId, w: WorkEvent) {
    && g in s.pool.goroutines
    && var phase := s.pool.goroutines[g].phase;
       match w
       case MarkRunning => phase == Spawned
       case TransferReturns(outcome) =>
         phase == Transferring && (outcome == CanceledError ==> s.pool.goroutines[g].cancelled)
       case Decide => phase.Returned?
       case PersistResult => phase.Decided?
       case Finish => phase == Persisted
  }

  function WorkStep(s: State, g: GoroutineId, w: WorkEvent): State
    requires WorkEnabled(s, g, w)
  {
    var self := s.pool.goroutines[g];
    match w
    case MarkRunning =>
      s.(db := SetStatus(s.db, self.task, Running), pool := SetPhase(s.pool, g, Transferring))
    case TransferReturns(outcome) => s.(pool := SetPhase(s.pool, g, Returned(outcome)))
    case Decide => s.(pool := SetPhase(s.pool, g, Decided(Verdict(self.phase.outcome, self.intent))))
    case PersistResult =>
      s.(db := Persist(s.db, self.task, self.phase.verdict), pool := SetPhase(s.pool, g, Persisted))
    case Finish => s.(pool := Unregister(s.pool, g), wakes := Owe(s.wakes))
  }

  ghost predicate Enabled(s: State, e: Event) {
    match e
    case Queueing(q) => QueueEnabled(s, q)
    case Dispatching(d) => DispatchEnabled(s, d)
    case Pausing(p) => PauseEnabled(s, p)
    case Requeueing(r) => RequeueEnabled(s, r)
    case Cancelling(c) => CancelEnabled(s, c)
    case Working(g, w) => WorkEnabled(s, g, w)
    case Restart(_) => true
  }

  ghost function Step(s: State, e: Event): State
    requires Enabled(s, e)
  {
    match e
    case Queueing(q) => QueueStep(s, q)
    case Dispatching(d) => DispatchStep(s, d)
    case Pausing(p) => PauseStep(s, p)
    case Requeueing(r) => RequeueStep(s, r)
    case Cancelling(c) => CancelStep(s, c)
    case Working(g, w) => WorkStep(s, g, w)
    case Restart(n) => RestartState(s, n)
  }

  /** A run: any finite interleaving of enabled events from a started process. */
  ghost predicate IsRun(states: seq<State>, events: seq<Event>) {
    && |states| == |events| + 1
    && Started(states[0])
    && forall i :: 0 <= i < |events| ==>
         Enabled(states[i], events[i]) && states[i + 1] == Step(states[i], events[i])
  }

  /** A process that has recovered its queue, before or after its first dispatches. */
  ghost predicate Started(s: State) {
    RecoveredFirst(s) || RecoveredLate(s)
  }

  /** Recovery came before the limit was applied, and so before any dispatch. */
  ghost predicate RecoveredFirst(s: State) {
    exists s0: State, n: int :: ConsistentDb(s0.db) && s == RestartState(s0, n)
  }

  /** NewApp applies the limit, and so dispatches, before RecoverOrphanedTasks: the rows a killed process
      left marked running are still there, and nothing but the scheduler runs yet. */
  function BootState(db: Db, n: int): State {
    State(db, Pool(map[], map[], 0, ClampLimit(n)), Wakes(1, multiset{}, 0, 0), multiset{})
  }

  /** Until the application is handed to its user, dispatches and task goroutines are all there is. */
  ghost predicate IsBootRun(db: Db, n: int, states: seq<State>, events: seq<Event>) {
    && |states| == |events| + 1
    && states[0] == BootState(db, n)
    && forall i :: 0 <= i < |events| ==>
         && (events[i].Dispatching? || events[i].Working?)
         && Enabled(states[i], events[i]) && states[i + 1] == Step(states[i], events[i])
  }

  /** The state after RecoverOrphanedTasks. */
  function LateRecovery(s: State): State {
    s.(db := RecoverDb(s.db))
  }

  ghost predicate RecoveredLate(s: State) {
    exists db: Db, n: int, states: seq<State>, events: seq<Event> ::
      ConsistentDb(db) && IsBootRun(db, n, states, events) && s == LateRecovery(states[|events|])
  }

  ghost predicate Archived(db: Db, id: TaskId) {
    exists i :: 0 <= i < |db.history| && db.history[i].queueId == id
  }

  /** Every created id is in exactly one of the queue and the history, in the history at most once,
      and only active statuses are queued while only final ones are archived. */
  ghost predicate ConsistentDb(db: Db) {
    && (forall id :: id in db.queue ==> id < db.nextId && !Archived(db, id)
                                        && db.queue[id].status in {Pending, Running, Paused, Failed})
    && (forall id :: 0 <= id < db.nextId ==> id in db.queue || Archived(db, id))
    && (forall i :: 0 <= i < |db.history| ==>
          db.history[i].queueId < db.nextId && db.history[i].status in {Completed, Cancelled})
    && (forall i, j :: 0 <= i < j < |db.history| ==> db.history[i].queueId != db.history[j].queueId)
  }
}
