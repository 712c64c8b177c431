/**
What becomes of a task once its transfer has come back, by how it came back and by what the user asked for
meanwhile, whatever else happens in between.
*/
module QueueResults {
  import opened QueueModel
  import opened QueueInvariants
  import opened QueueStaleness

  // ----- a goroutine's way -----

  function Rank(phase: Phase): nat {
    match phase
    case Spawned => 0
    case Transferring => 1
    case Returned(_) => 2
    case Decided(_) => 3
    case Persisted => 4
  }

  /** PauseTask or CancelTask looks the task up. */
  predicate Signals(e: Event, id: TaskId) {
    (e.Pausing? && e.p == PauseLooks(id)) || (e.Cancelling? && e.c == CancelLooks(id))
  }

  /** From one moment to a later one the goroutine only goes on; where it has not, nothing but its intent has
      changed, and that only by a signal. */
  predicate GoesOn(before: Goroutine, after: Goroutine, signalled: bool) {
    && after.task == before.task && Rank(before.phase) <= Rank(after.phase)
    && (Rank(before.phase) == Rank(after.phase) ==> after.phase == before.phase)
    && (!signalled ==> after.intent == before.intent)
  }

  lemma StepGoesOn(s: State, e: Event, g: GoroutineId)
    requires GoodPool(s.pool) && Enabled(s, e) && !e.Restart? && g < s.pool.nextG && g in Step(s, e).pool.goroutines
    ensures g in s.pool.goroutines && g < Step(s, e).pool.nextG
    ensures var self := s.pool.goroutines[g];
      GoesOn(self, Step(s, e).pool.goroutines[g], Signals(e, self.task))
  {
    match e
    case Dispatching(d) => AdmitLoopNewIds(s.pool, d.tasks);
    case Pausing(p) => PauseGoesOn(s, p, g);
    case Cancelling(c) => CancelGoesOn(s, c, g);
    case Working(h, w) => WorkGoesOn(s, h, w, g);
    case _ =>
  }

  lemma PauseGoesOn(s: State, p: PauseEvent, g: GoroutineId)
    requires GoodPool(s.pool) && g in s.pool.goroutines
    ensures var self := s.pool.goroutines[g];
      g in PauseStep(s, p).pool.goroutines
      && GoesOn(self, PauseStep(s, p).pool.goroutines[g], p == PauseLooks(self.task))
  {
    PauseStepFreesNothing(s, p);
  }

  lemma CancelGoesOn(s: State, c: CancelEvent, g: GoroutineId)
    requires GoodPool(s.pool) && g in s.pool.goroutines
    ensures var self := s.pool.goroutines[g];
      g in CancelStep(s, c).pool.goroutines
      && GoesOn(self, CancelStep(s, c).pool.goroutines[g], c == CancelLooks(self.task))
  {
    if !c.CancelLooks? {
      assert CancelStep(s, c).pool == s.pool;
    }
  }

  lemma WorkGoesOn(s: State, h: GoroutineId, w: WorkEvent, g: GoroutineId)
    requires WorkEnabled(s, h, w) && g in WorkStep(s, h, w).pool.goroutines
    ensures g in s.pool.goroutines
    ensures GoesOn(s.pool.goroutines[g], WorkStep(s, h, w).pool.goroutines[g], false)
  {
  }

  ghost predicate NoSignal(events: seq<Event>, a: nat, b: nat, id: TaskId)
    requires b <= |events|
  {
    forall k :: a <= k < b ==> !Signals(events[k], id)
  }

  lemma {:induction false} RunGoesOn(states: seq<State>, events: seq<Event>, a: nat, b: nat, g: GoroutineId)
    requires IsRun(states, events) && a <= b <= |events| && NoRestart(events, a, b)
    requires g < states[a].pool.nextG && g in states[b].pool.goroutines
    ensures g in states[a].pool.goroutines && g < states[b].pool.nextG
    ensures var self := states[a].pool.goroutines[g];
      GoesOn(self, states[b].pool.goroutines[g], !NoSignal(events, a, b, self.task))
    decreases b - a
  {
    if a < b {
      EveryRunKeepsInv(states, events, a);
      RunKeepsIds(states, events, a + 1, g);
      assert !events[a].Restart? && Enabled(states[a], events[a]) && states[a + 1] == Step(states[a], events[a]);
      StepKeepsIdsOld(states[a], events[a]);
      RunGoesOn(states, events, a + 1, b, g);
      StepGoesOn(states[a], events[a], g);
    }
  }

  lemma RunKeepsIds(states: seq<State>, events: seq<Event>, k: nat, g: GoroutineId)
    requires IsRun(states, events) && 0 < k <= |events| && !events[k - 1].Restart?
    requires g < states[k - 1].pool.nextG
    ensures g < states[k].pool.nextG
  {
    assert Enabled(states[k - 1], events[k - 1]) && states[k] == Step(states[k - 1], events[k - 1]);
    StepKeepsIdsOld(states[k - 1], events[k - 1]);
  }

  // ----- the result -----

  /** The row is gone, and the history has one entry more. */
  predicate ArchivedAs(before: Db, after: Db, id: TaskId, status: Status) {
    && after.queue == before.queue - {id} && after.nextId == before.nextId
    && after.history == before.history + [HistoryEntry(id, status)]
  }

  /** The row has another status, and nothing else has changed. */
  predicate StaysAs(before: Db, after: Db, id: TaskId, status: Status) {
    id in before.queue && after == before.(queue := before.queue[id := before.queue[id].(status := status)])
  }

  /** What the last write makes of a row: a success leaves the queue as completed, a cancellation as cancelled
      when the user asked for it, and else waits as paused; any other error stays as failed. */
  predicate IsResult(before: Db, after: Db, id: TaskId, outcome: Outcome, intent: Intent) {
    if id !in before.queue then after == before
    else
      match outcome
      case NilError => ArchivedAs(before, after, id, Completed)
      case CanceledError =>
        if intent == WantCancel then ArchivedAs(before, after, id, Cancelled) else StaysAs(before, after, id, Paused)
      case OtherError => StaysAs(before, after, id, Failed)
  }

  /** From the transfer's return to the goroutine's decision its phase is the return. */
  lemma DecisionIsOnReturn(states: seq<State>, events: seq<Event>, i: nat, j: nat, g: GoroutineId, outcome: Outcome)
    requires IsRun(states, events) && i < j < |events| && NoRestart(events, i, j)
    requires events[i] == Working(g, TransferReturns(outcome)) && events[j] == Working(g, Decide)
    ensures g in states[i].pool.goroutines && g in states[j].pool.goroutines
    ensures var self := states[j].pool.goroutines[g];
      self.task == states[i].pool.goroutines[g].task && self.phase == Returned(outcome)
  {
    EveryRunKeepsInv(states, events, i);
    assert Enabled(states[i], events[i]) && states[i + 1] == Step(states[i], events[i]);
    assert Enabled(states[j], events[j]);
    RunGoesOn(states, events, i + 1, j, g);
  }

  lemma WriteIsOfDecision(states: seq<State>, events: seq<Event>, j: nat, k: nat, g: GoroutineId)
    requires IsRun(states, events) && j < k < |events| && NoRestart(events, j, k)
    requires events[j] == Working(g, Decide) && events[k] == Working(g, PersistResult)
    ensures g in states[j].pool.goroutines && states[j].pool.goroutines[g].phase.Returned?
    ensures var self := states[j].pool.goroutines[g];
      states[k + 1].db == Persist(states[k].db, self.task, Verdict(self.phase.outcome, self.intent))
  {
    EveryRunKeepsInv(states, events, j);
    assert Enabled(states[j], events[j]) && states[j + 1] == Step(states[j], events[j]);
    assert Enabled(states[k], events[k]) && states[k + 1] == Step(states[k], events[k]);
    RunGoesOn(states, events, j + 1, k, g);
  }

  lemma PersistedIsResult(db: Db, id: TaskId, outcome: Outcome, intent: Intent)
    ensures IsResult(db, Persist(db, id, Verdict(outcome, intent)), id, outcome, intent)
  {
  }

  /** Whatever happens in between, the goroutine's last write is the result of how its transfer came back and of
      the intent it found when it decided. */
  lemma ResultIsWritten(
    states: seq<State>, events: seq<Event>, i: nat, j: nat, k: nat, g: GoroutineId, outcome: Outcome)
    requires IsRun(states, events) && i < j < k < |events| && NoRestart(events, i, k)
    requires events[i] == Working(g, TransferReturns(outcome)) && events[j] == Working(g, Decide)
    requires events[k] == Working(g, PersistResult)
    ensures g in states[i].pool.goroutines && g in states[j].pool.goroutines
    ensures IsResult(states[k].db, states[k + 1].db, states[i].pool.goroutines[g].task, outcome,
                     states[j].pool.goroutines[g].intent)
  {
    DecisionIsOnReturn(states, events, i, j, g, outcome);
    WriteIsOfDecision(states, events, j, k, g);
    PersistedIsResult(states[k].db, states[i].pool.goroutines[g].task, outcome, states[j].pool.goroutines[g].intent);
  }

  // ----- what the user asked for -----

  /** The goroutine that holds the task's slot learns what the user wants. */
  lemma SignalIsStored(s: State, id: TaskId)
    requires GoodPool(s.pool) && id in s.pool.running
    ensures var g := s.pool.running[id];
      && PauseStep(s, PauseLooks(id)).pool.goroutines[g]
         == s.pool.goroutines[g].(intent := WantPause, cancelled := true)
      && CancelStep(s, CancelLooks(id)).pool.goroutines[g]
         == s.pool.goroutines[g].(intent := WantCancel, cancelled := true)
  {
  }

  /** A transfer the user cancelled, and that stops for it, is archived as cancelled, whatever else happens. */
  lemma CancelledIsArchived(
    states: seq<State>, events: seq<Event>, m: nat, i: nat, j: nat, k: nat, g: GoroutineId, id: TaskId)
    requires IsRun(states, events) && m < i < j < k < |events| && NoRestart(events, m, k)
    requires events[m] == Cancelling(CancelLooks(id)) && id in states[m].pool.running && states[m].pool.running[id] == g
    requires NoSignal(events, m + 1, j, id)
    requires events[i] == Working(g, TransferReturns(CanceledError)) && events[j] == Working(g, Decide)
    requires events[k] == Working(g, PersistResult)
    ensures id in states[k].db.queue ==> ArchivedAs(states[k].db, states[k + 1].db, id, Cancelled)
  {
    SignalStays(states, events, m, j, g, id);
    RunGoesOn(states, events, m, i, g) by {
      EveryRunKeepsInv(states, events, m);
      assert Enabled(states[i], events[i]);
    }
    ResultIsWritten(states, events, i, j, k, g, CanceledError);
  }

  /** And one the user paused waits as paused. */
  lemma PausedIsKept(
    states: seq<State>, events: seq<Event>, m: nat, i: nat, j: nat, k: nat, g: GoroutineId, id: TaskId)
    requires IsRun(states, events) && m < i < j < k < |events| && NoRestart(events, m, k)
    requires events[m] == Pausing(PauseLooks(id)) && id in states[m].pool.running && states[m].pool.running[id] == g
    requires NoSignal(events, m + 1, j, id)
    requires events[i] == Working(g, TransferReturns(CanceledError)) && events[j] == Working(g, Decide)
    requires events[k] == Working(g, PersistResult)
    ensures id in states[k].db.queue ==> StaysAs(states[k].db, states[k + 1].db, id, Paused)
  {
    SignalStays(states, events, m, j, g, id);
    RunGoesOn(states, events, m, i, g) by {
      EveryRunKeepsInv(states, events, m);
      assert Enabled(states[i], events[i]);
    }
    ResultIsWritten(states, events, i, j, k, g, CanceledError);
  }

  lemma SignalStays(states: seq<State>, events: seq<Event>, m: nat, j: nat, g: GoroutineId, id: TaskId)
    requires IsRun(states, events) && m < j < |events| && NoRestart(events, m, j)
    requires Signals(events[m], id) && id in states[m].pool.running && states[m].pool.running[id] == g
    requires NoSignal(events, m + 1, j, id) && g in states[j].pool.goroutines
    ensures g in states[m].pool.goroutines && states[m].pool.goroutines[g].task == id
    ensures states[j].pool.goroutines[g].task == id
    ensures states[j].pool.goroutines[g].intent == if events[m].Pausing? then WantPause else WantCancel
  {
    EveryRunKeepsInv(states, events, m);
    assert Enabled(states[m], events[m]) && states[m + 1] == Step(states[m], events[m]);
    SignalIsStored(states[m], id);
    RunKeepsIds(states, events, m + 1, g);
    RunGoesOn(states, events, m + 1, j, g);
  }
}
