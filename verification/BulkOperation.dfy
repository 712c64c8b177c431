/**
runCopyOrMove's worker loop and copyOneObject over a store changed request by request. Every state the
methods reach is the end of a run of BulkMove; here one worker does all the work.
*/
module BulkOperations {
  import opened Objects
  import opened BulkMove

  /** How the attempts of each request end. */
  datatype Net = Net(head: bool, copy: seq<Reply>, delete: seq<Reply>, cancel: bool)

  /** The key's requests all get an answer. */
  predicate GetsThrough(p: Params, before: Store, key: string, net: Net) {
    && net.head && Location(p.sourceBucket, key) in before
    && Seen in net.copy && (p.move ==> Seen in net.delete)
  }

  /** The object is also where it belongs, and, if `deleted`, no longer at its source; no other object is touched. */
  ghost predicate IsTransferred(p: Params, key: string, before: Store, after: Store, deleted: bool) {
    var source := Location(p.sourceBucket, key);
    && source in before
    && exists at :: IsPlaceFor(p, key, at) && after == before[at := before[source]] - if deleted then {source} else {}
  }

  lemma CopyTransfers(p: Params, i: nat, before: Store)
    requires i < |p.keys| && Source(p, i) in before
    ensures var copied := before[Dest(p, i) := before[Source(p, i)]];
      && IsTransferred(p, p.keys[i], before, copied, false)
      && IsTransferred(p, p.keys[i], before, copied - {Source(p, i)}, true)
  {
    DestIsPlace(p, i, Dest(p, i));
    var copied := before[Dest(p, i) := before[Source(p, i)]];
    assert copied - {} == copied;
  }

  class BulkOperation {
    const p: Params
    var store: Store
    var next: nat
    var jobs: map<int, Job>
    var completed: nat
    var failed: nat
    var cancelled: bool
    ghost const start: Store
    ghost var trace: seq<Event>

    constructor (p: Params, store: Store)
      ensures Valid() && this.p == p && start == store && View() == Start(store)
    {
      this.p, this.store, start := p, store, store;
      next, jobs, completed, failed, cancelled, trace := 0, map[], 0, 0, false, [];
    }

    ghost function View(): Bulk
      reads this
    {
      Bulk(store, next, jobs, completed, failed, cancelled)
    }

    /** The trace leads from the first store to the present state. */
    ghost predicate Valid()
      reads this
    {
      CanRun(p, Start(start), trace) && Run(p, Start(start), trace) == View()
    }

    /** Takes note of an event; the code that follows makes its effect real. */
    ghost method Note(e: Event)
      requires Valid() && Enabled(p, View(), e)
      modifies this`trace
      ensures CanRun(p, Start(start), trace) && Run(p, Start(start), trace) == Step(p, View(), e)
    {
      RunMore(p, Start(start), trace, e);
      trace := trace + [e];
    }

    method MoveOn(w: int, e: Event, stage: Stage)
      requires Valid() && Enabled(p, View(), e) && w in jobs
      requires Step(p, View(), e) == ToStage(View(), w, stage)
      modifies this`trace, this`jobs
      ensures Valid() && jobs == old(jobs)[w := old(jobs)[w].(stage := stage)]
    {
      Note(e);
      jobs := jobs[w := jobs[w].(stage := stage)];
    }

    /** One attempt of CopyObject. */
    method CopyOnce(w: int, reply: Reply) returns (ok: bool)
      requires Valid() && At(View(), w, Copying) && jobs[w].index < |p.keys|
      modifies this`trace, this`jobs, this`store
      ensures Valid() && w in jobs && jobs == old(jobs)[w := jobs[w]]
      ensures jobs[w] == Job(old(jobs)[w].index, if ok then Copied else Copying)
      ensures var source, dest := Source(p, old(jobs)[w].index), Dest(p, old(jobs)[w].index);
        && ok == (source in old(store) && reply.Seen?)
        && store == if source in old(store) && !reply.Lost? then old(store)[dest := old(store)[source]] else old(store)
    {
      var source, dest := Source(p, jobs[w].index), Dest(p, jobs[w].index);
      ok := reply.Seen? && source in store;
      if !reply.Lost? && source in store {
        Note(Copy(w, ok));
        store := store[dest := store[source]];
        if ok {
          jobs := jobs[w := jobs[w].(stage := Copied)];
        }
      }
    }

    /** CopyObject under retry: any number of effects before the answer. */
    method CopyWithRetry(w: int, replies: seq<Reply>) returns (ok: bool)
      requires Valid() && At(View(), w, Copying) && jobs[w].index < |p.keys|
      modifies this`trace, this`jobs, this`store
      ensures Valid() && w in jobs && jobs == old(jobs)[w := jobs[w]]
      ensures jobs[w] == Job(old(jobs)[w].index, if ok then Copied else Copying)
      ensures var source, dest := Source(p, old(jobs)[w].index), Dest(p, old(jobs)[w].index);
        && ok == (source in old(store) && Seen in replies)
        && (store == old(store) || (source in old(store) && store == old(store)[dest := old(store)[source]]))
        && (ok ==> store == old(store)[dest := old(store)[source]])
    {
      ok := false;
      var a := 0;
      var source, dest := Source(p, jobs[w].index), Dest(p, jobs[w].index);
      while !ok && a < |replies|
        invariant Valid() && w in jobs && jobs == old(jobs)[w := jobs[w]] && 0 <= a <= |replies|
        invariant jobs[w] == Job(old(jobs)[w].index, if ok then Copied else Copying)
        invariant ok == (source in old(store) && exists b :: 0 <= b < a && replies[b].Seen?)
        invariant store == old(store) || (source in old(store) && store == old(store)[dest := old(store)[source]])
        invariant ok ==> store == old(store)[dest := old(store)[source]]
        decreases !ok, |replies| - a
      {
        ok := CopyOnce(w, replies[a]);
        a := a + 1;
      }
    }

    method DeleteWithRetry(w: int, replies: seq<Reply>) returns (ok: bool)
      requires Valid() && At(View(), w, Copied) && jobs[w].index < |p.keys| && p.move
      modifies this`trace, this`jobs, this`store
      ensures Valid() && w in jobs && jobs == old(jobs)[w := jobs[w]]
      ensures jobs[w] == Job(old(jobs)[w].index, if ok then Counting else Copied)
      ensures ok == (Seen in replies)
      ensures store == old(store) || store == old(store) - {Source(p, old(jobs)[w].index)}
      ensures ok ==> store == old(store) - {Source(p, old(jobs)[w].index)}
    {
      ok := false;
      var a := 0;
      var source := Source(p, jobs[w].index);
      while !ok && a < |replies|
        invariant Valid() && w in jobs && jobs == old(jobs)[w := jobs[w]] && 0 <= a <= |replies|
        invariant jobs[w] == Job(old(jobs)[w].index, if ok then Counting else Copied)
        invariant ok == exists b :: 0 <= b < a && replies[b].Seen?
        invariant store == old(store) || store == old(store) - {source}
        invariant ok ==> store == old(store) - {source}
        decreases !ok, |replies| - a
      {
        if !replies[a].Lost? {
          ok := replies[a].Seen?;
          Note(Delete(w, ok));
          store := store - {source};
          if ok {
            jobs := jobs[w := jobs[w].(stage := Counting)];
          }
        }
        a := a + 1;
      }
    }

    /** copyOneObject: the source is deleted only after an answered copy. It succeeds exactly when each request
        it makes gets an answer, and then the object is where it belongs and a move has left no source; a
        failure may leave any of this undone, but never a source deleted without its copy. */
    method CopyOneObject(w: int, net: Net) returns (ok: bool)
      requires Valid() && At(View(), w, Heading) && jobs[w].index < |p.keys|
      modifies this`trace, this`jobs, this`store
      ensures Valid() && w in jobs && jobs == old(jobs)[w := jobs[w]]
      ensures jobs[w] == Job(old(jobs)[w].index, if ok then Counting else Failing)
      ensures ok == GetsThrough(p, old(store), p.keys[old(jobs)[w].index], net)
      ensures ok ==> IsTransferred(p, p.keys[old(jobs)[w].index], old(store), store, p.move)
      ensures var key := p.keys[old(jobs)[w].index];
        || store == old(store) || IsTransferred(p, key, old(store), store, false)
        || (p.move && IsTransferred(p, key, old(store), store, true))
    {
      if Source(p, jobs[w].index) in store {
        CopyTransfers(p, jobs[w].index, store);
      }
      ok := net.head && Source(p, jobs[w].index) in store;
      if ok {
        MoveOn(w, Head(w), Copying);
        ok := CopyWithRetry(w, net.copy);
        if ok {
          if !p.move {
            MoveOn(w, Return(w), Counting);
            return;
          }
          ok := DeleteWithRetry(w, net.delete);
          if ok {
            return;
          }
        }
      }
      MoveOn(w, GiveUp(w), Failing);
    }

    /** One key: taken, worked on, and counted. */
    method ProcessNext(w: int, net: Net)
      requires Valid() && 0 <= w < WORKER_COUNT && jobs == map[] && next < |p.keys|
      modifies this
      ensures Valid() && jobs == map[] && next == old(next) + 1
      ensures completed == old(completed) + 1 && cancelled == old(cancelled)
      ensures failed == old(failed) + if GetsThrough(p, old(store), p.keys[old(next)], net) then 0 else 1
    {
      Note(Take(w));
      jobs, next := map[w := Job(next, Heading)], next + 1;
      assert jobs == map[][w := jobs[w]];
      var ok := CopyOneObject(w, net);
      CountOutcome(w, ok);
    }

    /** A failure is counted before the completion. */
    method CountOutcome(w: int, ok: bool)
      requires Valid() && At(View(), w, if ok then Counting else Failing) && jobs.Keys == {w}
      modifies this`trace, this`jobs, this`failed, this`completed
      ensures Valid() && jobs == map[]
      ensures completed == old(completed) + 1 && failed == old(failed) + if ok then 0 else 1
    {
      if !ok {
        Note(CountFailed(w));
        jobs, failed := jobs[w := jobs[w].(stage := Counting)], failed + 1;
      }
      Note(CountCompleted(w));
      jobs, completed := jobs - {w}, completed + 1;
    }

    /** The worker loop: until the keys run out or the user cancels. */
    method RunWorker(w: int, nets: seq<Net>)
      requires Valid() && 0 <= w < WORKER_COUNT && jobs == map[] && next <= |p.keys| && |nets| == |p.keys|
      modifies this
      ensures Valid() && IsOver(p, View())
      ensures completed - old(completed) == next - old(next)
    {
      while !cancelled && next < |p.keys|
        invariant Valid() && jobs == map[] && next <= |p.keys|
        invariant completed - old(completed) == next - old(next)
        decreases !cancelled, |p.keys| - next
      {
        if nets[next].cancel {
          Note(Cancel);
          cancelled := true;
        } else {
          ProcessNext(w, nets[next]);
        }
      }
    }
  }
}
