/**
Bulk copy and move: eight workers take the requested keys one by one, and for each ask for the source
object, copy it, and for a move delete the source. A request may take effect although its answer is
lost, and be repeated; a worker may give a key up at any point; the user may cancel at any time. Each
event is one request's effect, or one update of the shared counters. Nobody else writes the objects.
*/
module BulkMove {
  type Content = seq<int>

  datatype Location = Location(bucket: string, key: string)

  type Store = map<Location, Content>

  datatype Params = Params(sourceBucket: string, keys: seq<string>, destBucket: string, destPrefix: string, move: bool)

  const WORKER_COUNT := 8

  // ----- where a key goes -----

  function TrimSlashes(s: string): string {
    if s != "" && s[|s| - 1] == '/' then TrimSlashes(s[..|s| - 1]) else s
  }

  /** The last path element. */
  function LastElement(s: string): string {
    if s == "" || s[|s| - 1] == '/' then "" else LastElement(s[..|s| - 1]) + [s[|s| - 1]]
  }

  /** path.Base. */
  function Base(key: string): string {
    if key == "" then "."
    else
      var base := LastElement(TrimSlashes(key));
      if base == "" then "/" else base
  }

  predicate AllSlashes(s: string) {
    forall i :: 0 <= i < |s| ==> s[i] == '/'
  }

  /** `base` ends the part of the key before its trailing slashes, from the start or from a slash on, and has no
      slash itself; a key without any other character has a name of its own. */
  ghost predicate IsBase(key: string, base: string) {
    if key == "" then base == "."
    else if AllSlashes(key) then base == "/"
    else base != "" && '/' !in base && exists n: nat :: EndsAt(key, base, n)
  }

  predicate EndsAt(key: string, base: string, n: nat) {
    && |base| <= n <= |key| && AllSlashes(key[n..])
    && key[n - |base|..n] == base && (n == |base| || key[n - |base| - 1] == '/')
  }

  lemma {:induction false} TrimSlashesTrims(s: string)
    ensures TrimSlashes(s) <= s && AllSlashes(s[|TrimSlashes(s)|..])
    ensures TrimSlashes(s) != "" ==> TrimSlashes(s)[|TrimSlashes(s)| - 1] != '/'
    ensures TrimSlashes(s) == "" <==> AllSlashes(s)
  {
    if s != "" && s[|s| - 1] == '/' {
      TrimSlashesTrims(s[..|s| - 1]);
    }
  }

  /** The text ends in these letters, and in front of them there is a slash or nothing. */
  predicate EndsIn(s: string, end: string) {
    && |end| <= |s| && s[|s| - |end|..] == end && '/' !in end
    && (|end| == |s| || s[|s| - |end| - 1] == '/')
  }

  lemma EndsInMore(s: string, end: string, c: char, more: string)
    requires EndsIn(s, end) && c != '/' && more == s + [c]
    ensures EndsIn(more, end + [c])
  {
    var i := |s| - |end|;
    assert more[i..] == s[i..] + [c];
    assert i > 0 ==> more[i - 1] == s[i - 1];
  }

  lemma EndsInNothing(s: string)
    requires s == "" || s[|s| - 1] == '/'
    ensures EndsIn(s, "")
  {
  }

  lemma {:induction false} LastElementEnds(s: string)
    ensures EndsIn(s, LastElement(s))
    ensures s != "" && s[|s| - 1] != '/' ==> LastElement(s) != ""
  {
    if s == "" || s[|s| - 1] == '/' {
      EndsInNothing(s);
    } else {
      var front, end, c := s[..|s| - 1], LastElement(s[..|s| - 1]), s[|s| - 1];
      LastElementEnds(front);
      EndsInMore(front, end, c, s);
    }
  }

  lemma BaseIsBase(key: string)
    ensures IsBase(key, Base(key))
  {
    var trimmed := TrimSlashes(key);
    TrimSlashesTrims(key);
    LastElementEnds(trimmed);
    if !AllSlashes(key) {
      EndIsEnd(key, trimmed, LastElement(trimmed));
    }
  }

  lemma EndIsEnd(key: string, trimmed: string, end: string)
    requires trimmed <= key && AllSlashes(key[|trimmed|..]) && EndsIn(trimmed, end)
    ensures EndsAt(key, end, |trimmed|)
  {
    var n, i := |trimmed|, |trimmed| - |end|;
    assert key[..n] == trimmed && key[i..n] == trimmed[i..];
  }

  lemma EndIsLetters(key: string, base: string, n: nat)
    requires EndsAt(key, base, n) && base != "" && '/' !in base
    ensures forall k :: n <= k < |key| ==> key[k] == '/'
    ensures forall k :: n - |base| <= k < n ==> key[k] != '/'
  {
    forall k | n <= k < |key| ensures key[k] == '/' {
      assert key[n..][k - n] == '/';
    }
    forall k | n - |base| <= k < n ensures key[k] != '/' {
      assert key[k] == base[k - (n - |base|)] && base[k - (n - |base|)] in base;
    }
  }

  lemma NotLater(key: string, a: string, m: nat, b: string, n: nat)
    requires EndsAt(key, a, m) && EndsAt(key, b, n) && a != "" && b != "" && '/' !in a && '/' !in b
    ensures m <= n
  {
    EndIsLetters(key, a, m);
    EndIsLetters(key, b, n);
    assert key[m - 1] != '/';
  }

  lemma NotLonger(key: string, a: string, b: string, n: nat)
    requires EndsAt(key, a, n) && EndsAt(key, b, n) && a != "" && b != "" && '/' !in a && '/' !in b
    ensures |a| <= |b|
  {
    EndIsLetters(key, a, n);
    assert n > |b| ==> key[n - |b| - 1] == '/';
  }

  lemma SameEnd(key: string, a: string, m: nat, b: string, n: nat)
    requires EndsAt(key, a, m) && EndsAt(key, b, n) && a != "" && b != "" && '/' !in a && '/' !in b
    ensures a == b
  {
    NotLater(key, a, m, b, n);
    NotLater(key, b, n, a, m);
    NotLonger(key, a, b, n);
    NotLonger(key, b, a, n);
    assert a == key[n - |a|..n] && b == key[n - |b|..n];
  }

  /** A key has one last element. */
  lemma BaseIsUnique(key: string, a: string, b: string)
    requires IsBase(key, a) && IsBase(key, b)
    ensures a == b
  {
    if key != "" && !AllSlashes(key) {
      var m: nat :| EndsAt(key, a, m);
      var n: nat :| EndsAt(key, b, n);
      SameEnd(key, a, m, b, n);
    }
  }

  function Source(p: Params, i: nat): Location
    requires i < |p.keys|
  {
    Location(p.sourceBucket, p.keys[i])
  }

  function Dest(p: Params, i: nat): Location
    requires i < |p.keys|
  {
    Location(p.destBucket, p.destPrefix + Base(p.keys[i]))
  }

  /** Where the object with this key belongs: under the destination prefix, by its last path element alone. */
  ghost predicate IsPlaceFor(p: Params, key: string, at: Location) {
    at.bucket == p.destBucket && exists base :: IsBase(key, base) && at.key == p.destPrefix + base
  }

  lemma DestIsPlace(p: Params, i: nat, at: Location)
    requires i < |p.keys|
    ensures IsPlaceFor(p, p.keys[i], at) <==> at == Dest(p, i)
  {
    BaseIsBase(p.keys[i]);
    if IsPlaceFor(p, p.keys[i], at) {
      var base :| IsBase(p.keys[i], base) && at.key == p.destPrefix + base;
      BaseIsUnique(p.keys[i], base, Base(p.keys[i]));
    }
  }

  // ----- the protocol -----

  /** Where copyOneObject is for a key, and the two counter updates after it. */
  datatype Stage = Heading | Copying | Copied | Failing | Counting

  datatype Job = Job(index: nat, stage: Stage)

  /** `next` keys have been dealt out; `jobs` are the busy workers'. */
  datatype Bulk = Bulk(store: Store, next: nat, jobs: map<int, Job>, completed: nat, failed: nat, cancelled: bool)

  datatype Event =
    | Take(w: int)
    | Head(w: int)
    | Copy(w: int, seen: bool)
    | Delete(w: int, seen: bool)
    | Return(w: int)           // a copy, not a move, is done
    | GiveUp(w: int)
    | CountFailed(w: int)
    | CountCompleted(w: int)
    | Cancel

  function Start(store: Store): Bulk {
    Bulk(store, 0, map[], 0, 0, false)
  }

  predicate At(s: Bulk, w: int, stage: Stage) {
    w in s.jobs && s.jobs[w].stage == stage
  }

  /** HeadObject and CopyObject succeed only while the source object is there. */
  predicate Enabled(p: Params, s: Bulk, e: Event) {
    match e
    case Take(w) => 0 <= w < WORKER_COUNT && w !in s.jobs && s.next < |p.keys|
    case Head(w) => At(s, w, Heading) && s.jobs[w].index < |p.keys| && Source(p, s.jobs[w].index) in s.store
    case Copy(w, _) => At(s, w, Copying) && s.jobs[w].index < |p.keys| && Source(p, s.jobs[w].index) in s.store
    case Delete(w, _) => At(s, w, Copied) && s.jobs[w].index < |p.keys| && p.move
    case Return(w) => At(s, w, Copied) && !p.move
    case GiveUp(w) => At(s, w, Heading) || At(s, w, Copying) || (At(s, w, Copied) && p.move)
    case CountFailed(w) => At(s, w, Failing)
    case CountCompleted(w) => At(s, w, Counting)
    case Cancel => true
  }

  function ToStage(s: Bulk, w: int, stage: Stage): Bulk
    requires w in s.jobs
  {
    s.(jobs := s.jobs[w := s.jobs[w].(stage := stage)])
  }

  function Step(p: Params, s: Bulk, e: Event): Bulk
    requires Enabled(p, s, e)
  {
    match e
    case Take(w) => s.(next := s.next + 1, jobs := s.jobs[w := Job(s.next, Heading)])
    case Head(w) => ToStage(s, w, Copying)
    case Copy(w, seen) =>
      var i := s.jobs[w].index;
      var copied := s.(store := s.store[Dest(p, i) := s.store[Source(p, i)]]);
      if seen then ToStage(copied, w, Copied) else copied
    case Delete(w, seen) =>
      var deleted := s.(store := s.store - {Source(p, s.jobs[w].index)});
      if seen then ToStage(deleted, w, Counting) else deleted
    case Return(w) => ToStage(s, w, Counting)
    case GiveUp(w) => ToStage(s, w, Failing)
    case CountFailed(w) => ToStage(s, w, Counting).(failed := s.failed + 1)
    case CountCompleted(w) => s.(jobs := s.jobs - {w}, completed := s.completed + 1)
    case Cancel => s.(cancelled := true)
  }

  predicate CanRun(p: Params, s: Bulk, events: seq<Event>)
    decreases |events|, 0
  {
    events == [] ||
    var front := events[..|events| - 1];
    CanRun(p, s, front) && Enabled(p, Run(p, s, front), events[|events| - 1])
  }

  function Run(p: Params, s: Bulk, events: seq<Event>): Bulk
    requires CanRun(p, s, events)
    decreases |events|, 1
  {
    if events == [] then s else Step(p, Run(p, s, events[..|events| - 1]), events[|events| - 1])
  }

  lemma RunMore(p: Params, s: Bulk, events: seq<Event>, e: Event)
    requires CanRun(p, s, events) && Enabled(p, Run(p, s, events), e)
    ensures CanRun(p, s, events + [e]) && Run(p, s, events + [e]) == Step(p, Run(p, s, events), e)
  {
    assert (events + [e])[..|events|] == events;
  }

  /** All workers are idle, and no key is left to deal unless the user cancelled. */
  predicate IsOver(p: Params, s: Bulk) {
    s.jobs == map[] && (s.cancelled || s.next == |p.keys|)
  }

  // ----- no loss -----

  /** The bytes of every requested object are still at its source or at its destination. */
  predicate KeepsAll(p: Params, before: Store, after: Store) {
    forall i :: 0 <= i < |p.keys| && Source(p, i) in before ==>
      || (Source(p, i) in after && after[Source(p, i)] == before[Source(p, i)])
      || (Dest(p, i) in after && after[Dest(p, i)] == before[Source(p, i)])
  }

  /** In every run, at every point, with every effect seen or unseen. */
  ghost predicate NeverLoses(p: Params) {
    forall store: Store, events: seq<Event> :: !IsLoss(p, store, events)
  }

  predicate IsLoss(p: Params, store: Store, events: seq<Event>) {
    CanRun(p, Start(store), events) && !KeepsAll(p, store, Run(p, Start(store), events).store)
  }

  /** Two requested keys that get in each other's way: a move must not send two objects to one place, nor
      any object to where a requested one is, itself included; a copy must not overwrite another
      requested object. */
  predicate Clash(p: Params, i: nat, j: nat)
    requires i < |p.keys| && j < |p.keys|
  {
    || (p.move && p.keys[i] != p.keys[j] && Dest(p, i) == Dest(p, j))
    || (Dest(p, i) == Source(p, j) && (p.move || p.keys[i] != p.keys[j]))
  }

  predicate NoClash(p: Params) {
    forall i, j :: 0 <= i < |p.keys| && 0 <= j < |p.keys| ==> !Clash(p, i, j)
  }

  // ----- without clashes -----

  predicate Present(store: Store, at: Location, content: Content) {
    at in store && store[at] == content
  }

  /** Sources are as they were, or gone with their bytes at the destination; and whoever is about to
      delete a source has its bytes at the destination. */
  ghost predicate Inv(p: Params, before: Store, s: Bulk) {
    && (forall i :: 0 <= i < |p.keys| && Source(p, i) in s.store ==>
          Source(p, i) in before && s.store[Source(p, i)] == before[Source(p, i)])
    && (forall i :: 0 <= i < |p.keys| && Source(p, i) in before && Source(p, i) !in s.store ==>
          p.move && Present(s.store, Dest(p, i), before[Source(p, i)]))
    && (forall w :: w in s.jobs ==> s.jobs[w].index < s.next <= |p.keys|)
    && (p.move ==> forall w :: At(s, w, Copied) ==>
          var i := s.jobs[w].index; Source(p, i) in before && Present(s.store, Dest(p, i), before[Source(p, i)]))
  }

  lemma CopyKeepsInv(p: Params, before: Store, s: Bulk, w: int, seen: bool)
    requires NoClash(p) && Inv(p, before, s) && Enabled(p, s, Copy(w, seen))
    ensures Inv(p, before, Step(p, s, Copy(w, seen)))
  {
    var k := s.jobs[w].index;
    var s' := Step(p, s, Copy(w, seen));
    forall i | 0 <= i < |p.keys|
      ensures Source(p, i) in s'.store ==> Source(p, i) in before && s'.store[Source(p, i)] == before[Source(p, i)]
      ensures p.move && p.keys[i] != p.keys[k] ==> Dest(p, i) != Dest(p, k)
    {
      assert !Clash(p, k, i);
    }
  }

  lemma StepKeepsInv(p: Params, before: Store, s: Bulk, e: Event)
    requires NoClash(p) && Inv(p, before, s) && Enabled(p, s, e)
    ensures Inv(p, before, Step(p, s, e))
  {
    match e
    case Copy(w, seen) => CopyKeepsInv(p, before, s, w, seen);
    case Delete(w, _) =>
      var k := s.jobs[w].index;
      forall i | 0 <= i < |p.keys| ensures Dest(p, i) != Source(p, k) {
        assert !Clash(p, i, k);
      }
    case _ =>
  }

  lemma {:induction false} RunKeepsInv(p: Params, store: Store, events: seq<Event>)
    requires NoClash(p) && CanRun(p, Start(store), events)
    ensures Inv(p, store, Run(p, Start(store), events))
  {
    if events != [] {
      RunKeepsInv(p, store, events[..|events| - 1]);
      StepKeepsInv(p, store, Run(p, Start(store), events[..|events| - 1]), events[|events| - 1]);
    }
  }

  // ----- accounting -----

  /** Keys are dealt in order, each to one worker once; a dealt key is either being worked on or counted
      as completed; at most one failure is counted for each. */
  ghost predicate Counts(p: Params, s: Bulk) {
    && s.next <= |p.keys|
    && (forall w :: w in s.jobs ==> 0 <= w < WORKER_COUNT && s.jobs[w].index < s.next)
    && (forall v, w :: v in s.jobs && w in s.jobs && v != w ==> s.jobs[v].index != s.jobs[w].index)
    && s.completed + |s.jobs| == s.next
    && s.failed <= s.completed + |CountingJobs(s)|
  }

  /** The workers between their two counter updates. */
  function CountingJobs(s: Bulk): set<int> {
    set w | w in s.jobs && s.jobs[w].stage == Counting
  }

  lemma StepCounts(p: Params, s: Bulk, e: Event)
    requires Counts(p, s) && Enabled(p, s, e)
    ensures Counts(p, Step(p, s, e))
  {
    if e.Take? {
      TakeCounts(p, s, e.w);
    } else if e.CountCompleted? {
      CompletionCounts(p, s, e.w);
    } else if e.Cancel? {
      assert CountingJobs(Step(p, s, e)) == CountingJobs(s);
    } else {
      StageChanges(p, s, e);
      StageCounts(p, s, Step(p, s, e), e.w);
    }
  }

  lemma TakeCounts(p: Params, s: Bulk, w: int)
    requires Counts(p, s) && Enabled(p, s, Take(w))
    ensures Counts(p, Step(p, s, Take(w)))
  {
    var s' := Step(p, s, Take(w));
    assert s'.jobs == s.jobs[w := Job(s.next, Heading)];
    MoreWorkers(s, s', w);
    assert forall v :: v in s.jobs ==> s'.jobs[v] == s.jobs[v] && s.jobs[v].index < s.next;
  }

  lemma MoreWorkers(s: Bulk, s': Bulk, w: int)
    requires w !in s.jobs && w in s'.jobs && s'.jobs[w].stage != Counting && s'.jobs == s.jobs[w := s'.jobs[w]]
    ensures |s'.jobs| == |s.jobs| + 1 && CountingJobs(s') == CountingJobs(s)
  {
    assert s'.jobs.Keys == s.jobs.Keys + {w};
  }

  lemma CompletionCounts(p: Params, s: Bulk, w: int)
    requires Counts(p, s) && Enabled(p, s, CountCompleted(w))
    ensures Counts(p, Step(p, s, CountCompleted(w)))
  {
    var s' := Step(p, s, CountCompleted(w));
    assert s'.jobs.Keys == s.jobs.Keys - {w} && CountingJobs(s') == CountingJobs(s) - {w};
  }

  /** All other events move one worker's job from stage to stage. */
  lemma StageChanges(p: Params, s: Bulk, e: Event)
    requires Enabled(p, s, e) && !e.Take? && !e.CountCompleted? && !e.Cancel?
    ensures var s' := Step(p, s, e);
      && e.w in s.jobs && s.jobs[e.w].stage != Counting && e.w in s'.jobs
      && s'.jobs == s.jobs[e.w := s'.jobs[e.w]] && s'.jobs[e.w].index == s.jobs[e.w].index
      && s'.next == s.next && s'.completed == s.completed
      && (s'.failed == s.failed || (s'.failed == s.failed + 1 && s'.jobs[e.w].stage == Counting))
  {
    if (e.Copy? || e.Delete?) && !e.seen {
      assert s.jobs == s.jobs[e.w := s.jobs[e.w]];
    }
  }

  lemma StageCounts(p: Params, s: Bulk, s': Bulk, w: int)
    requires Counts(p, s) && w in s.jobs && s.jobs[w].stage != Counting && w in s'.jobs
    requires s'.jobs == s.jobs[w := s'.jobs[w]] && s'.jobs[w].index == s.jobs[w].index
    requires s'.next == s.next && s'.completed == s.completed
    requires s'.failed == s.failed || (s'.failed == s.failed + 1 && s'.jobs[w].stage == Counting)
    ensures Counts(p, s')
  {
    SameWorkers(s, s', w);
  }

  lemma SameWorkers(s: Bulk, s': Bulk, w: int)
    requires w in s.jobs && s.jobs[w].stage != Counting && w in s'.jobs
    requires s'.jobs == s.jobs[w := s'.jobs[w]]
    ensures |s'.jobs| == |s.jobs|
    ensures |CountingJobs(s')| == |CountingJobs(s)| + if s'.jobs[w].stage == Counting then 1 else 0
  {
    assert s'.jobs.Keys == s.jobs.Keys;
    assert CountingJobs(s') == if s'.jobs[w].stage == Counting then CountingJobs(s) + {w} else CountingJobs(s);
  }

  lemma {:induction false} RunCounts(p: Params, store: Store, events: seq<Event>)
    requires CanRun(p, Start(store), events)
    ensures Counts(p, Run(p, Start(store), events))
  {
    if events != [] {
      RunCounts(p, store, events[..|events| - 1]);
      StepCounts(p, Run(p, Start(store), events[..|events| - 1]), events[|events| - 1]);
    }
  }

  lemma {:induction false} FewWorkers(workers: set<int>, n: nat)
    requires forall w :: w in workers ==> 0 <= w < n
    ensures |workers| <= n
  {
    if n > 0 {
      FewWorkers(workers - {n - 1}, n - 1);
    } else {
      assert forall w: int :: w !in workers;
      assert workers == {};
    }
  }

  /** At every moment at most eight more failures than completions are counted, none more while no worker
      is between its two updates, and no more completions than keys dealt; when the operation is over,
      failed <= completed <= total, and every key was completed unless the user cancelled. */
  lemma CountersAreRight(p: Params, store: Store, events: seq<Event>)
    requires CanRun(p, Start(store), events)
    ensures var s := Run(p, Start(store), events);
      && s.completed <= s.next <= |p.keys|
      && s.failed <= s.completed + WORKER_COUNT
      && (CountingJobs(s) == {} ==> s.failed <= s.completed)
      && (IsOver(p, s) ==>
            s.failed <= s.completed && s.completed == s.next && (!s.cancelled ==> s.completed == |p.keys|))
  {
    var s := Run(p, Start(store), events);
    RunCounts(p, store, events);
    FewWorkers(CountingJobs(s), WORKER_COUNT);
    if s.jobs == map[] {
      assert CountingJobs(s) == {};
    }
  }

  /** The number of times key i was dealt out. */
  function Taken(p: Params, store: Store, events: seq<Event>, i: nat): nat
    requires CanRun(p, Start(store), events)
  {
    if events == [] then 0
    else
      var front := events[..|events| - 1];
      Taken(p, store, front, i)
      + if events[|events| - 1].Take? && Run(p, Start(store), front).next == i then 1 else 0
  }

  /** Each key is worked on at most once, and exactly once when it has been dealt. */
  lemma {:induction false} EachKeyOnce(p: Params, store: Store, events: seq<Event>, i: nat)
    requires CanRun(p, Start(store), events)
    ensures Taken(p, store, events, i) == if i < Run(p, Start(store), events).next then 1 else 0
  {
    if events != [] {
      EachKeyOnce(p, store, events[..|events| - 1], i);
    }
  }

  function OneKey(): Params {
    Params("b", ["k"], "b", "", false)
  }

  function FailedOnce(): seq<Event> {
    [Take(0), GiveUp(0), CountFailed(0)]
  }

  lemma FailedOnceRuns()
    ensures CanRun(OneKey(), Start(map[]), FailedOnce())
    ensures Run(OneKey(), Start(map[]), FailedOnce()) == Bulk(map[], 1, map[0 := Job(0, Counting)], 0, 1, false)
  {
    var p, s, events := OneKey(), Start(map[]), FailedOnce();
    assert events[..0] == [] && events[..1] == [Take(0)] && events[..2] == [Take(0), GiveUp(0)];
    RunMore(p, s, [], Take(0));
    assert [] + [Take(0)] == events[..1] && map[][0 := Job(0, Heading)] == map[0 := Job(0, Heading)];
    assert Run(p, s, events[..1]) == Bulk(map[], 1, map[0 := Job(0, Heading)], 0, 0, false);
    RunMore(p, s, events[..1], GiveUp(0));
    assert events[..1] + [GiveUp(0)] == events[..2];
    assert Run(p, s, events[..2]) == Bulk(map[], 1, map[0 := Job(0, Failing)], 0, 0, false);
    RunMore(p, s, events[..2], CountFailed(0));
    assert events[..2] + [CountFailed(0)] == events;
  }

  /** A progress report between the two counter updates can show more failures than completions. */
  lemma FailureIsCountedFirst()
    ensures exists p: Params, store: Store, events: seq<Event> ::
      CanRun(p, Start(store), events) && Run(p, Start(store), events).failed > Run(p, Start(store), events).completed
  {
    FailedOnceRuns();
    var p, store, events := OneKey(), map[], FailedOnce();
    assert CanRun(p, Start(store), events);
  }

  // ----- with clashes -----

  /** One worker has dealt with the keys before `next`, and is idle. */
  predicate IsIdle(s: Bulk, store: Store, next: nat) {
    s.jobs == map[] && s.store == store && s.next == next
  }

  predicate IsBusy(s: Bulk, store: Store, i: nat, stage: Stage) {
    s.jobs == map[0 := Job(i, stage)] && s.store == store && s.next == i + 1
  }

  lemma TakeKey(p: Params, store: Store, events: seq<Event>, now: Store, i: nat) returns (more: seq<Event>)
    requires CanRun(p, Start(store), events) && IsIdle(Run(p, Start(store), events), now, i) && i < |p.keys|
    ensures CanRun(p, Start(store), more) && IsBusy(Run(p, Start(store), more), now, i, Heading)
  {
    more := events + [Take(0)];
    RunMore(p, Start(store), events, Take(0));
    assert map[][0 := Job(i, Heading)] == map[0 := Job(i, Heading)];
  }

  /** The worker moves its job on by an event that leaves the store as it is. */
  lemma Advance(p: Params, store: Store, events: seq<Event>, now: Store, i: nat, stage: Stage, e: Event, after: Stage)
    returns (more: seq<Event>)
    requires CanRun(p, Start(store), events) && IsBusy(Run(p, Start(store), events), now, i, stage) && i < |p.keys|
    requires Enabled(p, Run(p, Start(store), events), e) && (e == Head(0) || e == GiveUp(0) || e == CountFailed(0))
    requires after == if e == Head(0) then Copying else if e == GiveUp(0) then Failing else Counting
    ensures CanRun(p, Start(store), more) && IsBusy(Run(p, Start(store), more), now, i, after)
  {
    more := events + [e];
    RunMore(p, Start(store), events, e);
    assert map[0 := Job(i, stage)][0 := Job(i, after)] == map[0 := Job(i, after)];
  }

  lemma FinishKey(p: Params, store: Store, events: seq<Event>, now: Store, i: nat) returns (more: seq<Event>)
    requires CanRun(p, Start(store), events) && IsBusy(Run(p, Start(store), events), now, i, Counting)
    ensures CanRun(p, Start(store), more) && IsIdle(Run(p, Start(store), more), now, i + 1)
  {
    more := events + [CountCompleted(0)];
    RunMore(p, Start(store), events, CountCompleted(0));
    assert map[0 := Job(i, Counting)] - {0} == map[];
  }

  lemma {:induction false} SkipTo(p: Params, store: Store, events: seq<Event>, now: Store, i: nat, n: nat)
    returns (more: seq<Event>)
    requires CanRun(p, Start(store), events) && IsIdle(Run(p, Start(store), events), now, i) && i <= n <= |p.keys|
    ensures CanRun(p, Start(store), more) && IsIdle(Run(p, Start(store), more), now, n)
    decreases n - i
  {
    more := events;
    if i < n {
      more := TakeKey(p, store, more, now, i);
      more := Advance(p, store, more, now, i, Heading, GiveUp(0), Failing);
      more := Advance(p, store, more, now, i, Failing, CountFailed(0), Counting);
      more := FinishKey(p, store, more, now, i);
      more := SkipTo(p, store, more, now, i + 1, n);
    }
  }

  lemma CopyKey(p: Params, store: Store, events: seq<Event>, now: Store, i: nat) returns (more: seq<Event>)
    requires CanRun(p, Start(store), events) && IsIdle(Run(p, Start(store), events), now, i) && i < |p.keys|
    requires Source(p, i) in now
    ensures CanRun(p, Start(store), more)
    ensures IsBusy(Run(p, Start(store), more), now[Dest(p, i) := now[Source(p, i)]], i, Copied)
  {
    more := TakeKey(p, store, events, now, i);
    more := Advance(p, store, more, now, i, Heading, Head(0), Copying);
    RunMore(p, Start(store), more, Copy(0, true));
    more := more + [Copy(0, true)];
    assert map[0 := Job(i, Copying)][0 := Job(i, Copied)] == map[0 := Job(i, Copied)];
  }

  lemma DeleteKey(p: Params, store: Store, events: seq<Event>, now: Store, i: nat) returns (more: seq<Event>)
    requires CanRun(p, Start(store), events) && IsBusy(Run(p, Start(store), events), now, i, Copied)
    requires i < |p.keys| && p.move
    ensures CanRun(p, Start(store), more) && IsBusy(Run(p, Start(store), more), now - {Source(p, i)}, i, Counting)
  {
    RunMore(p, Start(store), events, Delete(0, true));
    more := events + [Delete(0, true)];
    assert map[0 := Job(i, Copied)][0 := Job(i, Counting)] == map[0 := Job(i, Counting)];
  }

  /** An object sent to where a requested object is destroys one. */
  lemma OverwritingLoses(p: Params, i: nat, j: nat) returns (store: Store, events: seq<Event>)
    requires i < |p.keys| && j < |p.keys| && Dest(p, i) == Source(p, j) && (p.move || p.keys[i] != p.keys[j])
    ensures IsLoss(p, store, events)
  {
    store := map[Source(p, j) := [2]][Source(p, i) := [1]];
    events := SkipTo(p, store, [], store, 0, i);
    events := CopyKey(p, store, events, store, i);
    var copied := store[Dest(p, i) := store[Source(p, i)]];
    if p.keys[i] == p.keys[j] {
      events := DeleteKey(p, store, events, copied, i);
      assert Source(p, i) !in copied - {Source(p, i)};
    } else {
      assert forall at :: at in copied ==> copied[at] == [1];
      assert store[Source(p, j)] == [2];
    }
  }

  /** A move of two objects to one place destroys the first. */
  lemma MergingLoses(p: Params, i: nat, j: nat) returns (store: Store, events: seq<Event>)
    requires i < j < |p.keys| && p.move && p.keys[i] != p.keys[j] && Dest(p, i) == Dest(p, j)
    requires Dest(p, i) != Source(p, i) && Dest(p, i) != Source(p, j)
    ensures IsLoss(p, store, events)
  {
    store := map[Source(p, j) := [2]][Source(p, i) := [1]];
    events := SkipTo(p, store, [], store, 0, i);
    events := CopyKey(p, store, events, store, i);
    var copied := store[Dest(p, i) := [1]];
    events := DeleteKey(p, store, events, copied, i);
    var moved := copied - {Source(p, i)};
    events := FinishKey(p, store, events, moved, i);
    events := SkipTo(p, store, events, moved, i + 1, j);
    events := CopyKey(p, store, events, moved, j);
    var after := moved[Dest(p, j) := [2]];
    assert store[Source(p, i)] == [1] && Source(p, i) !in after && after[Dest(p, i)] == [2];
  }

  lemma ClashLoses(p: Params, i: nat, j: nat) returns (store: Store, events: seq<Event>)
    requires i < |p.keys| && j < |p.keys| && Clash(p, i, j)
    ensures IsLoss(p, store, events)
  {
    if Dest(p, i) == Source(p, j) && (p.move || p.keys[i] != p.keys[j]) {
      store, events := OverwritingLoses(p, i, j);
    } else if Dest(p, i) == Source(p, i) {
      store, events := OverwritingLoses(p, i, i);
    } else if Dest(p, j) == Source(p, j) {
      store, events := OverwritingLoses(p, j, j);
    } else if i < j {
      store, events := MergingLoses(p, i, j);
    } else if Dest(p, j) == Source(p, i) {
      store, events := OverwritingLoses(p, j, i);
    } else {
      store, events := MergingLoses(p, j, i);
    }
  }

  /** A bulk copy or move loses nothing, in every run with failures, repeated and unseen effects, and
      cancellation, exactly when no two requested keys clash. */
  lemma NeverLosesIffNoClash(p: Params)
    ensures NeverLoses(p) <==> NoClash(p)
  {
    if NoClash(p) {
      forall store: Store, events: seq<Event> ensures !IsLoss(p, store, events) {
        if CanRun(p, Start(store), events) {
          RunKeepsInv(p, store, events);
        }
      }
    } else {
      var i, j :| 0 <= i < |p.keys| && 0 <= j < |p.keys| && Clash(p, i, j);
      var store, events := ClashLoses(p, i, j);
      assert IsLoss(p, store, events);
    }
  }
}
