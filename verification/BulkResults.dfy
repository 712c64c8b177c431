/** What a bulk operation's counters say about the objects: every key not counted as failed has arrived. */
module BulkResults {
  import opened BulkMove

  /** The keys whose copyOneObject returned nil. */
  function Successes(p: Params, store: Store, events: seq<Event>): set<nat>
    requires CanRun(p, Start(store), events)
  {
    if events == [] then {}
    else
      var front, e := events[..|events| - 1], events[|events| - 1];
      var before := Run(p, Start(store), front);
      Successes(p, store, front) + (if Succeeds(e) then {before.jobs[e.w].index} else {})
  }

  predicate Succeeds(e: Event) {
    e.Return? || (e.Delete? && e.seen)
  }

  /** No two different keys go to one place, and none to where a requested object is. */
  predicate AllApart(p: Params) {
    forall i, j :: 0 <= i < |p.keys| && 0 <= j < |p.keys| ==>
      (p.keys[i] != p.keys[j] ==> Dest(p, i) != Dest(p, j)) && Dest(p, i) != Source(p, j)
  }

  /** The object has its original bytes where it belongs, and a move has removed it from its source. */
  ghost predicate HasArrived(p: Params, key: string, before: Store, now: Store) {
    var source := Location(p.sourceBucket, key);
    && source in before && (p.move ==> source !in now)
    && exists at :: IsPlaceFor(p, key, at) && Present(now, at, before[source])
  }

  predicate IsAtDest(p: Params, before: Store, now: Store, i: nat)
    requires i < |p.keys|
  {
    && Source(p, i) in before && Present(now, Dest(p, i), before[Source(p, i)])
    && (p.move ==> Source(p, i) !in now)
  }

  /** Sources are never rewritten; a key about to be finished has its bytes at the destination; finished
      keys have arrived. */
  ghost predicate Arrivals(p: Params, before: Store, s: Bulk, done: set<nat>) {
    && s.next <= |p.keys|
    && (forall i :: 0 <= i < |p.keys| && Source(p, i) in s.store ==>
          Source(p, i) in before && s.store[Source(p, i)] == before[Source(p, i)])
    && (forall w :: w in s.jobs ==> s.jobs[w].index < s.next)
    && (forall w :: At(s, w, Copied) ==>
          var i := s.jobs[w].index; Source(p, i) in before && Present(s.store, Dest(p, i), before[Source(p, i)]))
    && (forall i :: i in done ==> i < s.next && IsAtDest(p, before, s.store, i))
  }

  lemma CopyKeepsArrivals(p: Params, before: Store, s: Bulk, done: set<nat>, w: int, seen: bool)
    requires AllApart(p) && Arrivals(p, before, s, done) && Enabled(p, s, Copy(w, seen))
    ensures Arrivals(p, before, Step(p, s, Copy(w, seen)), done)
  {
    var k := s.jobs[w].index;
    var s' := Step(p, s, Copy(w, seen));
    assert forall i :: 0 <= i < |p.keys| ==> Dest(p, k) != Source(p, i);
    assert forall i :: 0 <= i < |p.keys| && p.keys[i] == p.keys[k] ==> Source(p, i) == Source(p, k);
  }

  lemma DeleteKeepsArrivals(p: Params, before: Store, s: Bulk, done: set<nat>, w: int, seen: bool)
    requires AllApart(p) && Arrivals(p, before, s, done) && Enabled(p, s, Delete(w, seen))
    ensures Arrivals(p, before, Step(p, s, Delete(w, seen)), done + if seen then {s.jobs[w].index} else {})
  {
    var k := s.jobs[w].index;
    assert At(s, w, Copied);
    assert forall i :: 0 <= i < |p.keys| ==> Dest(p, i) != Source(p, k);
  }

  lemma StepKeepsArrivals(p: Params, before: Store, s: Bulk, done: set<nat>, e: Event)
    requires AllApart(p) && Arrivals(p, before, s, done) && Enabled(p, s, e)
    ensures Arrivals(p, before, Step(p, s, e), done + if Succeeds(e) then {s.jobs[e.w].index} else {})
  {
    match e
    case Copy(w, seen) => CopyKeepsArrivals(p, before, s, done, w, seen);
    case Delete(w, seen) => DeleteKeepsArrivals(p, before, s, done, w, seen);
    case Return(w) => assert At(s, w, Copied);
    case _ =>
  }

  lemma {:induction false} RunKeepsArrivals(p: Params, store: Store, events: seq<Event>)
    requires AllApart(p) && CanRun(p, Start(store), events)
    ensures Arrivals(p, store, Run(p, Start(store), events), Successes(p, store, events))
  {
    if events != [] {
      var front, e := events[..|events| - 1], events[|events| - 1];
      RunKeepsArrivals(p, store, front);
      StepKeepsArrivals(p, store, Run(p, Start(store), front), Successes(p, store, front), e);
    }
  }

  lemma ArrivedFromDest(p: Params, before: Store, now: Store, i: nat)
    requires i < |p.keys| && IsAtDest(p, before, now, i)
    ensures HasArrived(p, p.keys[i], before, now)
  {
    DestIsPlace(p, i, Dest(p, i));
  }

  /** Every key whose work returned nil has arrived, at that moment and ever after. */
  lemma SuccessesHaveArrived(p: Params, store: Store, events: seq<Event>, i: nat)
    requires AllApart(p) && CanRun(p, Start(store), events) && i in Successes(p, store, events)
    ensures i < |p.keys| && HasArrived(p, p.keys[i], store, Run(p, Start(store), events).store)
  {
    RunKeepsArrivals(p, store, events);
    ArrivedFromDest(p, store, Run(p, Start(store), events).store, i);
  }

  // ----- counting them -----

  /** The workers whose key is not settled yet. */
  function Undecided(s: Bulk): set<int> {
    set w | w in s.jobs && s.jobs[w].stage != Counting
  }

  /** Every dealt key is undecided, a success, or a counted failure. */
  ghost predicate Settles(p: Params, s: Bulk, done: set<nat>) {
    && Counts(p, s)
    && (forall i :: i in done ==> i < s.next)
    && (forall w :: w in Undecided(s) ==> s.jobs[w].index !in done)
    && |done| + s.failed + |Undecided(s)| == s.next
  }

  lemma TakeSettles(p: Params, s: Bulk, done: set<nat>, w: int)
    requires Settles(p, s, done) && Enabled(p, s, Take(w))
    ensures Settles(p, Step(p, s, Take(w)), done)
  {
    var s' := Step(p, s, Take(w));
    StepCounts(p, s, Take(w));
    assert Undecided(s') == Undecided(s) + {w};
  }

  /** A job that moves on without being settled. */
  lemma MoveSettles(p: Params, s: Bulk, s': Bulk, done: set<nat>, w: int)
    requires Settles(p, s, done) && Counts(p, s') && w in s.jobs && w in s'.jobs
    requires s'.jobs == s.jobs[w := s'.jobs[w]] && s'.jobs[w].index == s.jobs[w].index
    requires s'.next == s.next && s'.failed == s.failed
    requires s.jobs[w].stage != Counting && s'.jobs[w].stage != Counting
    ensures Settles(p, s', done)
  {
    assert Undecided(s') == Undecided(s);
  }

  /** A job that is settled, as a success or as a failure. */
  lemma SettlingSettles(p: Params, s: Bulk, s': Bulk, done: set<nat>, w: int, ok: bool)
    requires Settles(p, s, done) && Counts(p, s') && w in s.jobs && w in s'.jobs
    requires s'.jobs == s.jobs[w := s'.jobs[w]] && s'.next == s.next
    requires s.jobs[w].stage != Counting && s'.jobs[w].stage == Counting && s'.jobs[w].index == s.jobs[w].index
    requires s'.failed == s.failed + if ok then 0 else 1
    ensures Settles(p, s', done + if ok then {s.jobs[w].index} else {})
  {
    assert Undecided(s') == Undecided(s) - {w};
    assert w in Undecided(s) && s.jobs[w].index !in done;
    assert forall v :: v in Undecided(s') ==> v != w && s'.jobs[v].index != s.jobs[w].index;
  }

  /** A settled job that goes, or a cancellation, settles nothing new. */
  lemma RestSettles(p: Params, s: Bulk, done: set<nat>, e: Event)
    requires Settles(p, s, done) && Enabled(p, s, e) && Counts(p, Step(p, s, e))
    requires e.CountCompleted? || e.Cancel?
    ensures Settles(p, Step(p, s, e), done)
  {
    assert Undecided(Step(p, s, e)) == Undecided(s);
  }

  lemma StepSettles(p: Params, s: Bulk, done: set<nat>, e: Event)
    requires Settles(p, s, done) && Enabled(p, s, e)
    ensures Settles(p, Step(p, s, e), done + if Succeeds(e) then {s.jobs[e.w].index} else {})
  {
    StepCounts(p, s, e);
    if e.Take? {
      TakeSettles(p, s, done, e.w);
      assert done + {} == done;
    } else if e.CountCompleted? || e.Cancel? {
      RestSettles(p, s, done, e);
      assert done + {} == done;
    } else {
      StageSettles(p, s, done, e);
    }
  }

  lemma StageSettles(p: Params, s: Bulk, done: set<nat>, e: Event)
    requires Settles(p, s, done) && Enabled(p, s, e) && Counts(p, Step(p, s, e))
    requires !e.Take? && !e.CountCompleted? && !e.Cancel?
    ensures Settles(p, Step(p, s, e), done + if Succeeds(e) then {s.jobs[e.w].index} else {})
  {
    StageChanges(p, s, e);
    if Succeeds(e) || e.CountFailed? {
      SettlingSettles(p, s, Step(p, s, e), done, e.w, Succeeds(e));
    } else {
      MoveSettles(p, s, Step(p, s, e), done, e.w);
    }
  }

  lemma {:induction false} RunSettles(p: Params, store: Store, events: seq<Event>)
    requires CanRun(p, Start(store), events)
    ensures Settles(p, Run(p, Start(store), events), Successes(p, store, events))
  {
    if events != [] {
      var front, e := events[..|events| - 1], events[|events| - 1];
      RunSettles(p, store, front);
      StepSettles(p, Run(p, Start(store), front), Successes(p, store, front), e);
    }
  }

  /** When the operation is over, completed minus failed is the number of keys that succeeded, and the
      object of each has its original bytes at its destination and, after a move, only there. */
  lemma CountersTellArrivals(p: Params, store: Store, events: seq<Event>)
    requires AllApart(p) && CanRun(p, Start(store), events) && IsOver(p, Run(p, Start(store), events))
    ensures var s, done := Run(p, Start(store), events), Successes(p, store, events);
      && |done| == s.completed - s.failed
      && forall i :: i in done ==> i < |p.keys| && HasArrived(p, p.keys[i], store, s.store)
  {
    var s := Run(p, Start(store), events);
    RunSettles(p, store, events);
    forall i | i in Successes(p, store, events) ensures i < |p.keys| && HasArrived(p, p.keys[i], store, s.store) {
      SuccessesHaveArrived(p, store, events, i);
    }
    assert Undecided(s) == {};
  }
}
