/**
Resumable range download. A run reads the sidecar, sizes the file, plans the segments the sidecar does
not record, fetches them in any order with any number of failed attempts, and records each finished
offset. A run may stop after any event: an error, a pause and a crash all leave the file and the
sidecar as they are. The object does not change between runs, and a ranged response delivers the object's
bytes from the range's start; it may stop early or go on past the range's end.
*/
module RangeDownload {
  import opened PartSizes
  import opened Slices
  import opened Objects

  /** What survives a run: the local file, if there is one, and the recorded segment offsets. */
  datatype Disk = Disk(file: Option<Bytes>, sidecar: set<int>)

  /** A worker of one planned segment: an attempt that has written some bytes, fetched but not yet
      recorded, or recorded. */
  datatype Progress = Fetching(written: int) | Fetched | Recorded

  /** A run under way. `work` is keyed by the position of the segment in the plan. */
  datatype Run = Run(file: Bytes, sidecar: set<int>, plan: seq<Slice>, work: map<int, Progress>)

  datatype Event =
    | Attempt(k: int)         // a first or retried attempt, with its own written counter
    | Chunk(k: int, n: int)   // n more bytes of the response body, written at offset+written, even past the segment
    | AttemptOk(k: int)       // the body ended after exactly the segment's size
    | Record(k: int)          // the offset is appended to the sidecar

  // ----- one run -----

  /** os.File.Truncate: cuts the file, or extends it with zero bytes. */
  function Resize(file: Bytes, totalBytes: nat): (r: Bytes)
    ensures |r| == totalBytes
  {
    if |file| >= totalBytes then file[..totalBytes] else file + Zeros(totalBytes - |file|)
  }

  function Opened(file: Option<Bytes>): Bytes {
    match file
    case None => []
    case Some(bytes) => bytes
  }

  predicate Downloadable(obj: Bytes, override: int) {
    Sliceable(|obj|, RunPartSize(|obj|, override))
  }

  function Open(obj: Bytes, disk: Disk, override: int): Run
    requires Downloadable(obj, override)
  {
    Run(Resize(Opened(disk.file), |obj|), disk.sidecar,
        Remaining(Layout(|obj|, RunPartSize(|obj|, override)), disk.sidecar), map[])
  }

  /** WriteAt of the object's own bytes [from, from+n). */
  function WriteAt(file: Bytes, obj: Bytes, from: int, n: int): Bytes
    requires 0 <= from <= from + n <= |obj| == |file|
  {
    file[..from] + obj[from..from + n] + file[from + n..]
  }

  predicate FitsObject(obj: Bytes, r: Run) {
    && |r.file| == |obj|
    && forall k :: 0 <= k < |r.plan| ==>
         0 <= r.plan[k].offset < r.plan[k].offset + r.plan[k].size <= |obj|
  }

  predicate CanStep(obj: Bytes, r: Run, e: Event) {
    && FitsObject(obj, r)
    && 0 <= e.k < |r.plan|
    && match e
       case Attempt(k) => k !in r.work || r.work[k].Fetching?
       case Chunk(k, n) =>
         && k in r.work && r.work[k].Fetching?
         && 0 <= r.work[k].written && 0 < n && r.plan[k].offset + r.work[k].written + n <= |obj|
       case AttemptOk(k) => k in r.work && r.work[k] == Fetching(r.plan[k].size)
       case Record(k) => k in r.work && r.work[k] == Fetched
  }

  function Step(obj: Bytes, r: Run, e: Event): Run
    requires CanStep(obj, r, e)
  {
    match e
    case Attempt(k) => r.(work := r.work[k := Fetching(0)])
    case Chunk(k, n) =>
      var written := r.work[k].written;
      r.(file := WriteAt(r.file, obj, r.plan[k].offset + written, n), work := r.work[k := Fetching(written + n)])
    case AttemptOk(k) => r.(work := r.work[k := Fetched])
    case Record(k) => r.(sidecar := r.sidecar + {r.plan[k].offset}, work := r.work[k := Recorded])
  }

  predicate CanPlay(obj: Bytes, r: Run, events: seq<Event>)
    decreases |events|, 0
  {
    events == [] ||
    var front := events[..|events| - 1];
    CanPlay(obj, r, front) && CanStep(obj, Play(obj, r, front), events[|events| - 1])
  }

  function Play(obj: Bytes, r: Run, events: seq<Event>): Run
    requires CanPlay(obj, r, events)
    decreases |events|, 1
  {
    if events == [] then r
    else Step(obj, Play(obj, r, events[..|events| - 1]), events[|events| - 1])
  }

  /** A run may stop after any of its events. */
  lemma {:induction false} CanStopAnywhere(obj: Bytes, r: Run, events: seq<Event>, n: nat)
    requires CanPlay(obj, r, events) && n <= |events|
    ensures CanPlay(obj, r, events[..n])
  {
    if n < |events| {
      CanStopAnywhere(obj, r, events[..|events| - 1], n);
      assert events[..|events| - 1][..n] == events[..n];
    } else {
      assert events[..n] == events;
    }
  }

  // ----- sequences of runs -----

  /** How a run ends. `removed` is whether the best-effort removal of the sidecar succeeded. */
  datatype Ending = Interrupted | ReturnedNil(removed: bool)

  /** One call: it may fail before it opens anything. */
  datatype Script = NotOpened | Script(events: seq<Event>, ending: Ending)

  predicate AllRecorded(r: Run) {
    forall k :: 0 <= k < |r.plan| ==> k in r.work && r.work[k] == Recorded
  }

  /** Every segment's goroutine returned nil before the run itself does. */
  predicate IsScript(obj: Bytes, disk: Disk, override: int, script: Script)
    requires Downloadable(obj, override)
  {
    script.Script? ==>
      && CanPlay(obj, Open(obj, disk, override), script.events)
      && (script.ending.ReturnedNil? ==> AllRecorded(Play(obj, Open(obj, disk, override), script.events)))
  }

  function AfterRun(obj: Bytes, disk: Disk, override: int, script: Script): Disk
    requires Downloadable(obj, override) && IsScript(obj, disk, override, script)
  {
    match script
    case NotOpened => disk
    case Script(events, ending) =>
      var r := Play(obj, Open(obj, disk, override), events);
      Disk(Some(r.file), if ending == ReturnedNil(true) then {} else r.sidecar)
  }

  predicate AllDownloadable(totalBytes: nat, overrides: seq<int>) {
    forall i :: 0 <= i < |overrides| ==> Sliceable(totalBytes, RunPartSize(totalBytes, overrides[i]))
  }

  /** The scripts are runs with the given overrides, one after another from `disk`. */
  predicate AreRuns(obj: Bytes, disk: Disk, overrides: seq<int>, scripts: seq<Script>)
    requires AllDownloadable(|obj|, overrides) && |scripts| <= |overrides|
    decreases |scripts|, 0
  {
    scripts == [] ||
    var front := scripts[..|scripts| - 1];
    && AreRuns(obj, disk, overrides, front)
    && IsScript(obj, AfterRuns(obj, disk, overrides, front), overrides[|front|], scripts[|front|])
  }

  function AfterRuns(obj: Bytes, disk: Disk, overrides: seq<int>, scripts: seq<Script>): Disk
    requires AllDownloadable(|obj|, overrides) && |scripts| <= |overrides|
    requires AreRuns(obj, disk, overrides, scripts)
    decreases |scripts|, 1
  {
    if scripts == [] then disk
    else
      var front := scripts[..|scripts| - 1];
      AfterRun(obj, AfterRuns(obj, disk, overrides, front), overrides[|front|], scripts[|front|])
  }

  /** A run that returns nil leaves the file equal to the object, whatever the object, the file that
      was there before, and the runs in between. */
  ghost predicate ResumeIsSafe(totalBytes: nat, overrides: seq<int>)
    requires AllDownloadable(totalBytes, overrides)
  {
    forall obj: Bytes, file: Option<Bytes>, scripts: seq<Script> ::
      && |obj| == totalBytes && 0 < |scripts| <= |overrides|
      && AreRuns(obj, Disk(file, {}), overrides, scripts)
      && scripts[|scripts| - 1].Script? && scripts[|scripts| - 1].ending.ReturnedNil?
      ==> AfterRuns(obj, Disk(file, {}), overrides, scripts).file == Some(obj)
  }

  /** What a caller can check before a run: its segments are no longer than those of any run before. */
  predicate NeverGrows(totalBytes: nat, overrides: seq<int>) {
    forall i :: 0 < i < |overrides| ==>
      EffectiveSize(totalBytes, overrides[i]) <= EffectiveSize(totalBytes, overrides[i - 1])
  }

  // ----- non-growing sizes are safe -----

  /** The file holds the object's bytes on [from, from+n), as far as the object reaches. */
  ghost predicate HoldsObject(obj: Bytes, file: Bytes, from: int, n: int) {
    forall i :: 0 <= from <= i < from + n && i < |obj| ==> HoldsByte(obj, file, i)
  }

  predicate HoldsByte(obj: Bytes, file: Bytes, i: int)
    requires 0 <= i < |obj|
  {
    i < |file| && file[i] == obj[i]
  }

  /** Every recorded offset's segment, of the given size, already holds the object's bytes. */
  ghost predicate SidecarHolds(obj: Bytes, file: Bytes, sidecar: set<int>, size: int) {
    forall o :: o in sidecar ==> 0 <= o && HoldsObject(obj, file, o, size)
  }

  ghost predicate WorkHolds(obj: Bytes, r: Run) {
    forall k :: k in r.work ==>
      && 0 <= k < |r.plan|
      && match r.work[k]
         case Fetching(written) =>
           && 0 <= written && r.plan[k].offset + written <= |obj|
           && HoldsObject(obj, r.file, r.plan[k].offset, written)
         case _ => HoldsObject(obj, r.file, r.plan[k].offset, r.plan[k].size)
  }

  ghost predicate RunInv(obj: Bytes, r: Run, size: int) {
    && FitsObject(obj, r)
    && SidecarHolds(obj, r.file, r.sidecar, size)
    && WorkHolds(obj, r)
    && forall k :: 0 <= k < |r.plan| ==> r.plan[k].size >= size || r.plan[k].offset + r.plan[k].size == |obj|
  }

  /** Every write is of the object's own bytes, so it never spoils a good byte. */
  lemma WriteKeeps(file: Bytes, obj: Bytes, at: int, count: int, from: int, n: int)
    requires 0 <= at <= at + count <= |obj| == |file|
    requires HoldsObject(obj, file, from, n)
    ensures HoldsObject(obj, WriteAt(file, obj, at, count), from, n)
  {
    forall i | 0 <= from <= i < from + n && i < |obj| ensures HoldsByte(obj, WriteAt(file, obj, at, count), i) {
      assert HoldsByte(obj, file, i);
    }
  }

  lemma WriteExtends(file: Bytes, obj: Bytes, from: int, written: int, n: int)
    requires 0 <= from && 0 <= written && 0 <= n && from + written + n <= |obj| == |file|
    requires HoldsObject(obj, file, from, written)
    ensures HoldsObject(obj, WriteAt(file, obj, from + written, n), from, written + n)
  {
    var updated := WriteAt(file, obj, from + written, n);
    forall i | from <= i < from + written + n && i < |obj| ensures HoldsByte(obj, updated, i) {
      assert i < from + written ==> HoldsByte(obj, file, i);
    }
  }

  lemma StepKeepsRun(obj: Bytes, r: Run, e: Event, size: int)
    requires RunInv(obj, r, size) && CanStep(obj, r, e)
    ensures RunInv(obj, Step(obj, r, e), size)
    ensures Step(obj, r, e).plan == r.plan
    ensures r.sidecar <= Step(obj, r, e).sidecar
  {
    if e.Chunk? {
      var s, written := r.plan[e.k], r.work[e.k].written;
      WriteExtends(r.file, obj, s.offset, written, e.n);
      forall from, n | HoldsObject(obj, r.file, from, n)
        ensures HoldsObject(obj, Step(obj, r, e).file, from, n)
      {
        WriteKeeps(r.file, obj, s.offset + written, e.n, from, n);
      }
    }
  }

  lemma {:induction false} PlayKeepsRun(obj: Bytes, r: Run, events: seq<Event>, size: int)
    requires RunInv(obj, r, size) && CanPlay(obj, r, events)
    ensures RunInv(obj, Play(obj, r, events), size)
    ensures Play(obj, r, events).plan == r.plan
    ensures r.sidecar <= Play(obj, r, events).sidecar
  {
    if events != [] {
      var front := events[..|events| - 1];
      PlayKeepsRun(obj, r, front, size);
      StepKeepsRun(obj, Play(obj, r, front), events[|events| - 1], size);
    }
  }

  ghost predicate DiskHolds(obj: Bytes, disk: Disk, size: int) {
    SidecarHolds(obj, Opened(disk.file), disk.sidecar, size)
  }

  lemma ResizeHolds(obj: Bytes, file: Bytes, from: int, n: int)
    requires HoldsObject(obj, file, from, n)
    ensures HoldsObject(obj, Resize(file, |obj|), from, n)
  {
    forall i | 0 <= from <= i < from + n && i < |obj| ensures HoldsByte(obj, Resize(file, |obj|), i) {
      assert HoldsByte(obj, file, i);
    }
  }

  /** Every planned segment is full, or ends the object. */
  lemma PlanEnds(obj: Bytes, sidecar: set<int>, size: int, k: nat)
    requires Sliceable(|obj|, size) && k < |Remaining(Layout(|obj|, size), sidecar)|
    ensures var s := Remaining(Layout(|obj|, size), sidecar)[k];
      && 0 <= s.offset < s.offset + s.size <= |obj|
      && (s.size == size || s.offset + s.size == |obj|)
  {
    var layout := Layout(|obj|, size);
    var s := Remaining(layout, sidecar)[k];
    LayoutTiles(|obj|, size);
    RemainingIsTheRest(layout, sidecar, s);
    var n :| 0 <= n < |layout| && layout[n] == s;
    SliceEndsInside(layout, |obj|, n);
  }

  /** Segments of the first size reach as far as those of the second. */
  predicate ReachesAsFar(totalBytes: nat, size: int, other: int) {
    size >= other || size >= totalBytes
  }

  lemma OpenHolds(obj: Bytes, disk: Disk, override: int, size: int)
    requires Downloadable(obj, override) && DiskHolds(obj, disk, size)
    requires ReachesAsFar(|obj|, RunPartSize(|obj|, override), size)
    ensures RunInv(obj, Open(obj, disk, override), size)
  {
    var own, r := RunPartSize(|obj|, override), Open(obj, disk, override);
    forall k | 0 <= k < |r.plan|
      ensures 0 <= r.plan[k].offset < r.plan[k].offset + r.plan[k].size <= |obj|
      ensures r.plan[k].size >= size || r.plan[k].offset + r.plan[k].size == |obj|
    {
      PlanEnds(obj, disk.sidecar, own, k);
    }
    forall o | o in r.sidecar ensures HoldsObject(obj, r.file, o, size) {
      ResizeHolds(obj, Opened(disk.file), o, size);
    }
  }

  /** Each byte is in a recorded segment or in a fetched one. */
  lemma ByteIsHeld(obj: Bytes, disk: Disk, override: int, r: Run, i: nat)
    requires Downloadable(obj, override) && i < |obj|
    requires var size := RunPartSize(|obj|, override);
      && RunInv(obj, r, size) && AllRecorded(r) && disk.sidecar <= r.sidecar
      && r.plan == Open(obj, disk, override).plan
    ensures HoldsByte(obj, r.file, i)
  {
    var size := RunPartSize(|obj|, override);
    var layout := Layout(|obj|, size);
    LayoutTiles(|obj|, size);
    var n := EachByteOnce(layout, |obj|, i);
    SliceEndsInside(layout, |obj|, n);
    RemainingIsTheRest(layout, disk.sidecar, layout[n]);
    if layout[n].offset in disk.sidecar {
      assert HoldsObject(obj, r.file, layout[n].offset, size);
    } else {
      var k :| 0 <= k < |r.plan| && r.plan[k] == layout[n];
      assert HoldsObject(obj, r.file, r.plan[k].offset, r.plan[k].size);
    }
  }

  /** A run that recorded every segment of its plan has the whole object in its file. */
  lemma CompleteRunHoldsObject(obj: Bytes, disk: Disk, override: int, r: Run)
    requires Downloadable(obj, override)
    requires var size := RunPartSize(|obj|, override);
      && RunInv(obj, r, size) && AllRecorded(r) && disk.sidecar <= r.sidecar
      && r.plan == Open(obj, disk, override).plan
    ensures r.file == obj
  {
    forall i | 0 <= i < |obj| ensures r.file[i] == obj[i] {
      ByteIsHeld(obj, disk, override, r, i);
    }
  }

  /** What a run records still holds for every size its own segments reach as far as. */
  lemma RunKeepsDiskFor(obj: Bytes, disk: Disk, override: int, script: Script, size: int)
    requires Downloadable(obj, override) && IsScript(obj, disk, override, script)
    requires DiskHolds(obj, disk, size) && ReachesAsFar(|obj|, RunPartSize(|obj|, override), size)
    ensures DiskHolds(obj, AfterRun(obj, disk, override, script), size)
  {
    if script.Script? {
      OpenHolds(obj, disk, override, size);
      PlayKeepsRun(obj, Open(obj, disk, override), script.events, size);
    }
  }

  lemma RunKeepsDisk(obj: Bytes, disk: Disk, override: int, script: Script)
    requires Downloadable(obj, override) && IsScript(obj, disk, override, script)
    requires DiskHolds(obj, disk, RunPartSize(|obj|, override))
    ensures DiskHolds(obj, AfterRun(obj, disk, override, script), RunPartSize(|obj|, override))
    ensures script.Script? && script.ending.ReturnedNil? ==>
      AfterRun(obj, disk, override, script).file == Some(obj)
  {
    var size := RunPartSize(|obj|, override);
    RunKeepsDiskFor(obj, disk, override, script, size);
    if script.Script? && script.ending.ReturnedNil? {
      var r0 := Open(obj, disk, override);
      OpenHolds(obj, disk, override, size);
      PlayKeepsRun(obj, r0, script.events, size);
      CompleteRunHoldsObject(obj, disk, override, Play(obj, r0, script.events));
    }
  }

  lemma ShorterSegmentsHold(obj: Bytes, disk: Disk, before: int, after: int)
    requires DiskHolds(obj, disk, RunPartSize(|obj|, before))
    requires EffectiveSize(|obj|, after) <= EffectiveSize(|obj|, before)
    ensures DiskHolds(obj, disk, RunPartSize(|obj|, after))
  {
    var size, size' := RunPartSize(|obj|, before), RunPartSize(|obj|, after);
    assert size' <= size || |obj| <= size;
    forall o | o in disk.sidecar ensures HoldsObject(obj, Opened(disk.file), o, size') {
      ShorterHolds(obj, Opened(disk.file), o, size, size');
    }
  }

  lemma ShorterHolds(obj: Bytes, file: Bytes, from: int, n: int, m: int)
    requires HoldsObject(obj, file, from, n) && 0 <= from && (m <= n || |obj| <= from + n)
    ensures HoldsObject(obj, file, from, m)
  {
  }

  lemma {:induction false} RunsKeepDisk(obj: Bytes, disk: Disk, overrides: seq<int>, scripts: seq<Script>)
    requires AllDownloadable(|obj|, overrides) && 0 < |scripts| <= |overrides|
    requires AreRuns(obj, disk, overrides, scripts) && disk.sidecar == {}
    requires NeverGrows(|obj|, overrides)
    ensures DiskHolds(obj, AfterRuns(obj, disk, overrides, scripts), RunPartSize(|obj|, overrides[|scripts| - 1]))
    ensures scripts[|scripts| - 1].Script? && scripts[|scripts| - 1].ending.ReturnedNil? ==>
      AfterRuns(obj, disk, overrides, scripts).file == Some(obj)
  {
    var front := scripts[..|scripts| - 1];
    var before := AfterRuns(obj, disk, overrides, front);
    if front != [] {
      RunsKeepDisk(obj, disk, overrides, front);
      ShorterSegmentsHold(obj, before, overrides[|front| - 1], overrides[|front|]);
    }
    RunKeepsDisk(obj, before, overrides[|front|], scripts[|front|]);
  }

  // ----- growing sizes are not -----

  function FetchOne(r: Run, k: int): seq<Event>
    requires 0 <= k < |r.plan|
  {
    [Attempt(k), Chunk(k, r.plan[k].size), AttemptOk(k), Record(k)]
  }

  function FetchFirst(r: Run, n: int): seq<Event>
    requires 0 <= n <= |r.plan|
  {
    if n == 0 then [] else FetchFirst(r, n - 1) + FetchOne(r, n - 1)
  }

  lemma PlayMore(obj: Bytes, r: Run, events: seq<Event>, e: Event)
    requires CanPlay(obj, r, events) && CanStep(obj, Play(obj, r, events), e)
    ensures CanPlay(obj, r, events + [e])
    ensures Play(obj, r, events + [e]) == Step(obj, Play(obj, r, events), e)
  {
    assert (events + [e])[..|events|] == events;
  }

  lemma StartOnePlays(obj: Bytes, r: Run, events: seq<Event>, k: int)
    requires CanPlay(obj, r, events) && FitsObject(obj, Play(obj, r, events))
    requires Play(obj, r, events).plan == r.plan && 0 <= k < |r.plan|
    requires k !in Play(obj, r, events).work
    ensures var size := r.plan[k].size;
      && CanPlay(obj, r, events + [Attempt(k), Chunk(k, size)])
      && var s := Play(obj, r, events);
         Play(obj, r, events + [Attempt(k), Chunk(k, size)])
         == Run(WriteAt(s.file, obj, r.plan[k].offset, size), s.sidecar, r.plan, s.work[k := Fetching(size)])
  {
    var s, size := Play(obj, r, events), r.plan[k].size;
    var e1 := events + [Attempt(k)];
    PlayMore(obj, r, events, Attempt(k));
    assert Play(obj, r, e1) == s.(work := s.work[k := Fetching(0)]);
    PlayMore(obj, r, e1, Chunk(k, size));
    assert e1 + [Chunk(k, size)] == events + [Attempt(k), Chunk(k, size)];
  }

  /** From any point of a run, a segment not yet worked on can be fetched and recorded. */
  lemma FetchOnePlays(obj: Bytes, r: Run, events: seq<Event>, k: int)
    requires CanPlay(obj, r, events) && FitsObject(obj, Play(obj, r, events))
    requires Play(obj, r, events).plan == r.plan && 0 <= k < |r.plan|
    requires k !in Play(obj, r, events).work
    ensures CanPlay(obj, r, events + FetchOne(r, k))
    ensures var r', s := Play(obj, r, events + FetchOne(r, k)), Play(obj, r, events);
      && r'.plan == r.plan && FitsObject(obj, r')
      && r'.work == s.work[k := Recorded]
      && r'.sidecar == s.sidecar + {r.plan[k].offset}
      && r'.file == WriteAt(s.file, obj, r.plan[k].offset, r.plan[k].size)
  {
    var started := [Attempt(k), Chunk(k, r.plan[k].size)];
    StartOnePlays(obj, r, events, k);
    FinishOnePlays(obj, r, events + started, k, Play(obj, r, events).work);
    assert events + started + [AttemptOk(k), Record(k)] == events + FetchOne(r, k);
  }

  lemma FinishOnePlays(obj: Bytes, r: Run, events: seq<Event>, k: int, work: map<int, Progress>)
    requires CanPlay(obj, r, events) && FitsObject(obj, Play(obj, r, events))
    requires Play(obj, r, events).plan == r.plan && 0 <= k < |r.plan|
    requires Play(obj, r, events).work == work[k := Fetching(r.plan[k].size)]
    ensures CanPlay(obj, r, events + [AttemptOk(k), Record(k)])
    ensures var r', s := Play(obj, r, events + [AttemptOk(k), Record(k)]), Play(obj, r, events);
      r' == Run(s.file, s.sidecar + {r.plan[k].offset}, r.plan, work[k := Recorded])
  {
    PlayMore(obj, r, events, AttemptOk(k));
    var e1 := events + [AttemptOk(k)];
    PlayMore(obj, r, e1, Record(k));
    assert e1 + [Record(k)] == events + [AttemptOk(k), Record(k)];
  }

  lemma {:induction false} FetchFirstPlays(obj: Bytes, r: Run, n: int)
    requires FitsObject(obj, r) && r.work == map[] && 0 <= n <= |r.plan|
    ensures CanPlay(obj, r, FetchFirst(r, n))
    ensures var r' := Play(obj, r, FetchFirst(r, n));
      && r'.plan == r.plan && FitsObject(obj, r')
      && (forall k :: k in r'.work <==> 0 <= k < n)
      && (forall k :: 0 <= k < n ==> r'.work[k] == Recorded)
  {
    if n > 0 {
      FetchFirstPlays(obj, r, n - 1);
      FetchOnePlays(obj, r, FetchFirst(r, n - 1), n - 1);
    }
  }

  /** What fetching the first n segments records, and what it leaves alone. */
  predicate HasRecorded(obj: Bytes, r: Run, r': Run, n: int, i: nat) {
    && r.sidecar <= r'.sidecar && (n > 0 && r.plan != [] ==> r.plan[0].offset in r'.sidecar)
    && |r'.file| == |obj| == |r.file| && (i < |obj| && IsSkipped(r, i) ==> r'.file[i] == r.file[i])
  }

  lemma OneMoreRecorded(obj: Bytes, r: Run, s: Run, t: Run, n: nat, i: nat)
    requires n < |r.plan| && FitsObject(obj, r) && HasRecorded(obj, r, s, n, i)
    requires t.sidecar == s.sidecar + {r.plan[n].offset}
    requires t.file == WriteAt(s.file, obj, r.plan[n].offset, r.plan[n].size)
    ensures HasRecorded(obj, r, t, n + 1, i)
  {
    assert IsSkipped(r, i) ==> !Covers(r.plan[n], i);
  }

  lemma {:induction false} FetchFirstRecords(obj: Bytes, r: Run, n: int, i: nat)
    requires FitsObject(obj, r) && r.work == map[] && 0 <= n <= |r.plan|
    ensures CanPlay(obj, r, FetchFirst(r, n)) && HasRecorded(obj, r, Play(obj, r, FetchFirst(r, n)), n, i)
  {
    FetchFirstPlays(obj, r, n);
    if n > 0 {
      FetchFirstPlays(obj, r, n - 1);
      FetchFirstRecords(obj, r, n - 1, i);
      FetchOnePlays(obj, r, FetchFirst(r, n - 1), n - 1);
      OneMoreRecorded(obj, r, Play(obj, r, FetchFirst(r, n - 1)), Play(obj, r, FetchFirst(r, n)), n - 1, i);
    }
  }

  /** No planned segment reaches the byte. */
  predicate IsSkipped(r: Run, i: int) {
    forall k :: 0 <= k < |r.plan| ==> !Covers(r.plan[k], i)
  }

  /** The run that records its first segment and is then interrupted. */
  lemma FirstSegmentOnly(totalBytes: nat, override: int) returns (script: Script)
    requires 0 < totalBytes && Sliceable(totalBytes, RunPartSize(totalBytes, override))
    ensures script.Script? && script.ending.Interrupted?
    ensures var obj, disk := Ones(totalBytes), Disk(None, {});
      && IsScript(obj, disk, override, script)
      && var after := AfterRun(obj, disk, override, script);
         && after.sidecar == {0} && after.file.Some? && |after.file.value| == totalBytes
         && forall i :: EffectiveSize(totalBytes, override) <= i < totalBytes ==> after.file.value[i] == 0
  {
    var obj, disk := Ones(totalBytes), Disk(None, {});
    var size := RunPartSize(totalBytes, override);
    var r, layout := Open(obj, disk, override), Layout(totalBytes, size);
    OpenHolds(obj, disk, override, size);
    RemainingOfNone(layout);
    script := Script(FetchOne(r, 0), Interrupted);
    FetchOnePlays(obj, r, [], 0);
    assert [] + FetchOne(r, 0) == FetchOne(r, 0);
    assert r.plan[0] == SliceAt(totalBytes, size, 0);
  }

  lemma {:induction false} RemainingOfNone(slices: seq<Slice>)
    ensures Remaining(slices, {}) == slices
  {
    if slices != [] {
      RemainingOfNone(slices[..|slices| - 1]);
    }
  }

  lemma RecordedSegmentIsSkipped(totalBytes: nat, size: int, completed: set<int>, n: nat, hole: nat, k: nat)
    requires Sliceable(totalBytes, size) && n < |Layout(totalBytes, size)| && hole < totalBytes
    requires var s := Layout(totalBytes, size)[n]; s.offset in completed && Covers(s, hole)
    requires k < |Remaining(Layout(totalBytes, size), completed)|
    ensures !Covers(Remaining(Layout(totalBytes, size), completed)[k], hole)
  {
    var layout := Layout(totalBytes, size);
    var s := Remaining(layout, completed)[k];
    LayoutTiles(totalBytes, size);
    RemainingIsTheRest(layout, completed, s);
    var j :| 0 <= j < |layout| && layout[j] == s;
    var only := EachByteOnce(layout, totalBytes, hole);
  }

  /** A run that finds a segment's offset recorded skips it, fetches the rest, and returns nil whatever the
      segment holds. */
  lemma SegmentSkipped(totalBytes: nat, disk: Disk, override: int, n: nat, hole: nat, removed: bool)
    returns (script: Script)
    requires Sliceable(totalBytes, RunPartSize(totalBytes, override)) && hole < totalBytes
    requires n < |Layout(totalBytes, RunPartSize(totalBytes, override))|
    requires var s := Layout(totalBytes, RunPartSize(totalBytes, override))[n];
      s.offset in disk.sidecar && Covers(s, hole)
    requires Resize(Opened(disk.file), totalBytes)[hole] == 0
    ensures IsScript(Ones(totalBytes), disk, override, script)
    ensures script.Script? && script.ending == ReturnedNil(removed)
    ensures var file := AfterRun(Ones(totalBytes), disk, override, script).file;
      file.Some? && |file.value| == totalBytes && file.value[hole] == 0
  {
    var obj := Ones(totalBytes);
    var r := Open(obj, disk, override);
    PlanFits(obj, disk, override);
    forall k | 0 <= k < |r.plan| ensures !Covers(r.plan[k], hole) {
      RecordedSegmentIsSkipped(totalBytes, RunPartSize(totalBytes, override), disk.sidecar, n, hole, k);
    }
    FetchFirstPlays(obj, r, |r.plan|);
    FetchFirstRecords(obj, r, |r.plan|, hole);
    script := Script(FetchFirst(r, |r.plan|), ReturnedNil(removed));
  }

  lemma FirstSegmentSkipped(totalBytes: nat, disk: Disk, override: int, hole: nat, removed: bool)
    returns (script: Script)
    requires Sliceable(totalBytes, RunPartSize(totalBytes, override)) && 0 in disk.sidecar
    requires hole < EffectiveSize(totalBytes, override) && Resize(Opened(disk.file), totalBytes)[hole] == 0
    ensures IsScript(Ones(totalBytes), disk, override, script)
    ensures script.Script? && script.ending == ReturnedNil(removed)
    ensures var file := AfterRun(Ones(totalBytes), disk, override, script).file;
      file.Some? && |file.value| == totalBytes && file.value[hole] == 0
  {
    LayoutTiles(totalBytes, RunPartSize(totalBytes, override));
    assert Layout(totalBytes, RunPartSize(totalBytes, override))[0]
        == SliceAt(totalBytes, RunPartSize(totalBytes, override), 0);
    script := SegmentSkipped(totalBytes, disk, override, 0, hole, removed);
  }

  /** With longer segments, a run then returns nil with a byte it never wrote. */
  lemma GrownRunMissesByte(totalBytes: nat, disk: Disk, override: int, hole: nat) returns (script: Script)
    requires Sliceable(totalBytes, RunPartSize(totalBytes, override))
    requires disk.sidecar == {0} && disk.file.Some? && |disk.file.value| == totalBytes
    requires hole < EffectiveSize(totalBytes, override) && disk.file.value[hole] == 0
    ensures IsScript(Ones(totalBytes), disk, override, script)
    ensures script.Script? && script.ending == ReturnedNil(true)
    ensures var file := AfterRun(Ones(totalBytes), disk, override, script).file;
      file.Some? && |file.value| == totalBytes && file.value[hole] == 0
  {
    assert Resize(disk.file.value, totalBytes) == disk.file.value;
    script := FirstSegmentSkipped(totalBytes, disk, override, hole, true);
  }

  /** An undisturbed run from a sound disk: it ends with the object, and its sidecar, if it stays, has the
      first offset. */
  lemma WholeRun(obj: Bytes, disk: Disk, override: int, removed: bool) returns (script: Script)
    requires Downloadable(obj, override) && DiskHolds(obj, disk, RunPartSize(|obj|, override))
    ensures IsScript(obj, disk, override, script) && script.Script? && script.ending == ReturnedNil(removed)
    ensures var after := AfterRun(obj, disk, override, script);
      after.file == Some(obj) && (removed ==> after.sidecar == {}) && (!removed && |obj| > 0 ==> 0 in after.sidecar)
  {
    var r, layout := Open(obj, disk, override), Layout(|obj|, RunPartSize(|obj|, override));
    PlanFits(obj, disk, override);
    FetchFirstPlays(obj, r, |r.plan|);
    script := Script(FetchFirst(r, |r.plan|), ReturnedNil(removed));
    RunKeepsDisk(obj, disk, override, script);
    if |obj| > 0 {
      FetchFirstRecords(obj, r, |r.plan|, 0);
      LayoutTiles(|obj|, RunPartSize(|obj|, override));
      FirstOfPlan(layout, disk.sidecar);
    }
  }

  /** The plan starts with the first segment, unless that one is recorded. */
  lemma {:induction false} FirstOfPlan(slices: seq<Slice>, completed: set<int>)
    requires slices != []
    ensures slices[0].offset in completed ||
              (Remaining(slices, completed) != [] && Remaining(slices, completed)[0] == slices[0])
  {
    if |slices| > 1 {
      FirstOfPlan(slices[..|slices| - 1], completed);
    } else {
      assert slices[..0] == [] && Remaining([], completed) == [];
    }
  }

  lemma PlanFits(obj: Bytes, disk: Disk, override: int)
    requires Downloadable(obj, override)
    ensures FitsObject(obj, Open(obj, disk, override))
  {
    var r := Open(obj, disk, override);
    forall k | 0 <= k < |r.plan|
      ensures 0 <= r.plan[k].offset < r.plan[k].offset + r.plan[k].size <= |obj|
    {
      PlanEnds(obj, disk.sidecar, RunPartSize(|obj|, override), k);
    }
  }

  function NoRuns(n: nat): seq<Script> {
    seq(n, _ => NotOpened)
  }

  lemma {:induction false} NoRunsDoNothing(obj: Bytes, disk: Disk, overrides: seq<int>, n: nat)
    requires AllDownloadable(|obj|, overrides) && n <= |overrides|
    ensures AreRuns(obj, disk, overrides, NoRuns(n)) && AfterRuns(obj, disk, overrides, NoRuns(n)) == disk
  {
    if n > 0 {
      assert NoRuns(n)[..n - 1] == NoRuns(n - 1);
      NoRunsDoNothing(obj, disk, overrides, n - 1);
    }
  }

  lemma RunMore(obj: Bytes, disk: Disk, overrides: seq<int>, scripts: seq<Script>, script: Script)
    requires AllDownloadable(|obj|, overrides) && |scripts| < |overrides| && AreRuns(obj, disk, overrides, scripts)
    requires IsScript(obj, AfterRuns(obj, disk, overrides, scripts), overrides[|scripts|], script)
    ensures AreRuns(obj, disk, overrides, scripts + [script])
    ensures AfterRuns(obj, disk, overrides, scripts + [script])
         == AfterRun(obj, AfterRuns(obj, disk, overrides, scripts), overrides[|scripts|], script)
  {
    assert (scripts + [script])[..|scripts|] == scripts;
  }

  ghost predicate IsBadRun(totalBytes: nat, overrides: seq<int>, obj: Bytes, file: Option<Bytes>, scripts: seq<Script>)
    requires AllDownloadable(totalBytes, overrides)
  {
    && |obj| == totalBytes && 0 < |scripts| <= |overrides|
    && AreRuns(obj, Disk(file, {}), overrides, scripts)
    && scripts[|scripts| - 1].Script? && scripts[|scripts| - 1].ending.ReturnedNil?
    && AfterRuns(obj, Disk(file, {}), overrides, scripts).file != Some(obj)
  }

  lemma TwoRunsAtEnd(obj: Bytes, disk: Disk, overrides: seq<int>, i: nat, first: Script, second: Script)
    requires AllDownloadable(|obj|, overrides) && 0 < i < |overrides|
    requires IsScript(obj, disk, overrides[i - 1], first)
    requires IsScript(obj, AfterRun(obj, disk, overrides[i - 1], first), overrides[i], second)
    ensures var all := NoRuns(i - 1) + [first] + [second];
      && AreRuns(obj, disk, overrides, all)
      && AfterRuns(obj, disk, overrides, all)
         == AfterRun(obj, AfterRun(obj, disk, overrides[i - 1], first), overrides[i], second)
  {
    NoRunsDoNothing(obj, disk, overrides, i - 1);
    RunMore(obj, disk, overrides, NoRuns(i - 1), first);
    RunMore(obj, disk, overrides, NoRuns(i - 1) + [first], second);
  }

  lemma GrowthIsUnsafe(totalBytes: nat, overrides: seq<int>, i: nat)
    returns (obj: Bytes, file: Option<Bytes>, scripts: seq<Script>)
    requires AllDownloadable(totalBytes, overrides) && 0 < i < |overrides|
    requires EffectiveSize(totalBytes, overrides[i - 1]) < EffectiveSize(totalBytes, overrides[i])
    ensures IsBadRun(totalBytes, overrides, obj, file, scripts)
  {
    obj, file := Ones(totalBytes), None;
    var disk := Disk(file, {});
    var first := FirstSegmentOnly(totalBytes, overrides[i - 1]);
    var second := GrownRunMissesByte(totalBytes, AfterRun(obj, disk, overrides[i - 1], first), overrides[i],
                                     EffectiveSize(totalBytes, overrides[i - 1]));
    TwoRunsAtEnd(obj, disk, overrides, i, first, second);
    scripts := NoRuns(i - 1) + [first] + [second];
    assert scripts[|scripts| - 1] == second;
  }

  /** Download resume is correct, for every object and every sequence of interrupted runs, exactly when
      the segment size never grows from one run to the next. */
  lemma ResumeIsSafeIffSegmentsNeverGrow(totalBytes: nat, overrides: seq<int>)
    requires AllDownloadable(totalBytes, overrides)
    ensures ResumeIsSafe(totalBytes, overrides) <==> NeverGrows(totalBytes, overrides)
  {
    if NeverGrows(totalBytes, overrides) {
      forall obj: Bytes, file: Option<Bytes>, scripts: seq<Script> |
        && |obj| == totalBytes && 0 < |scripts| <= |overrides|
        && AreRuns(obj, Disk(file, {}), overrides, scripts)
        && scripts[|scripts| - 1].Script? && scripts[|scripts| - 1].ending.ReturnedNil?
        ensures AfterRuns(obj, Disk(file, {}), overrides, scripts).file == Some(obj)
      {
        RunsKeepDisk(obj, Disk(file, {}), overrides, scripts);
      }
    } else {
      var i :| 0 < i < |overrides| &&
               EffectiveSize(totalBytes, overrides[i]) > EffectiveSize(totalBytes, overrides[i - 1]);
      var obj, file, scripts := GrowthIsUnsafe(totalBytes, overrides, i);
      assert IsBadRun(totalBytes, overrides, obj, file, scripts);
    }
  }
}
