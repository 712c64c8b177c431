/**
Resumable upload. A run sends a small file in one request; a larger one as numbered parts of a multipart
upload that outlives the run: the next run lists the stored parts, sends the missing ones and completes
the upload with the whole list. A request may take effect although the client sees an error, and a run
may stop after any event. A run works on the UploadId in the copy of the task it was started with, which
may be older than the row. The server follows the S3 limits: part numbers from 1 to 10000, every part but
the last at least 5 MiB. The file does not change between runs, and an ETag identifies a part's bytes.
*/
module MultipartUpload {
  import opened PartSizes
  import opened Slices
  import opened Objects

  const SINGLE_PUT_THRESHOLD := 5 * MIB

  type UploadId = nat

  /** The part number to content map of one upload. */
  type Parts = map<int, Bytes>

  datatype Remote = Remote(dest: Option<Bytes>, uploads: map<UploadId, Parts>, nextId: UploadId)

  /** What survives a run: the destination store, and the UploadIds the task's row has held, the present
      one last. */
  datatype Saved = Saved(remote: Remote, ids: seq<UploadId>)

  /** A run under way: `own` is the UploadId it works on, and `etags` is None before that one is known and
      its parts are listed. */
  datatype Run = Run(saved: Saved, own: Option<UploadId>, etags: Option<Parts>, finished: bool)

  datatype Event =
    | CreateUnseen               // CreateMultipartUpload without a persisted id: error, crash or failed hook
    | Create                     // a new upload whose id is persisted
    | List                       // every page of ListParts
    | Send(n: int, seen: bool)   // UploadPart took effect
    | Complete(seen: bool)       // CompleteMultipartUpload took effect
    | Put(seen: bool)            // PutObject took effect

  // ----- the part list -----

  datatype Part = Part(number: int, content: Bytes)

  /** The parts numbered up to n, in ascending order. */
  function PartsUpTo(etags: Parts, n: nat): seq<Part>
    decreases etags, n
  {
    if n == 0 then [] else PartsUpTo(etags, n - 1) + (if n in etags then [Part(n, etags[n])] else [])
  }

  /** What CompleteMultipartUpload is sent. */
  function PartList(etags: Parts): seq<Part> {
    PartsUpTo(etags, MAX_PARTS_PER_UPLOAD)
  }

  function Concat(parts: seq<Part>): Bytes {
    if parts == [] then [] else Concat(parts[..|parts| - 1]) + parts[|parts| - 1].content
  }

  predicate ValidNumbers(etags: Parts) {
    forall n :: n in etags ==> 1 <= n <= MAX_PARTS_PER_UPLOAD
  }

  /** The server's conditions: the parts are listed in ascending order as they are stored, and only the
      last may be small. */
  predicate Accepts(stored: Parts, parts: seq<Part>) {
    && parts != []
    && (forall i :: 0 <= i < |parts| ==> parts[i].number in stored && stored[parts[i].number] == parts[i].content)
    && (forall i :: 0 < i < |parts| ==> parts[i - 1].number < parts[i].number)
    && (forall i :: 0 <= i < |parts| - 1 ==> |parts[i].content| >= MIN_PART_SIZE)
  }

  // ----- one run -----

  predicate Uploadable(totalBytes: nat, override: int) {
    Sliceable(totalBytes, RunPartSize(totalBytes, override))
  }

  predicate IsMultipart(file: Bytes) {
    |file| > SINGLE_PUT_THRESHOLD
  }

  /** The bytes an attempt of part n reads from the file. */
  function SliceBytes(file: Bytes, size: int, n: int): Bytes
    requires Sliceable(|file|, size) && 1 <= n <= PartCount(|file|, size)
  {
    var s := Layout(|file|, size)[n - 1];
    SliceInFile(file, size, n);
    file[s.offset..s.offset + s.size]
  }

  lemma SliceInFile(file: Bytes, size: int, n: int)
    requires Sliceable(|file|, size) && 1 <= n <= PartCount(|file|, size)
    ensures var s := Layout(|file|, size)[n - 1]; 0 <= s.offset < s.offset + s.size <= |file|
  {
    LayoutTiles(|file|, size);
    SliceEndsInside(Layout(|file|, size), |file|, n - 1);
  }

  function Open(saved: Saved, own: Option<UploadId>): Run {
    Run(saved, own, None, false)
  }

  function Current(saved: Saved): Option<UploadId> {
    if saved.ids == [] then None else Some(saved.ids[|saved.ids| - 1])
  }

  /** The task a run is started with comes from a snapshot of the queue: its UploadId is the row's, or, in a
      stale snapshot, any earlier value of it. */
  predicate MayStart(saved: Saved, own: Option<UploadId>, stale: bool) {
    own == Current(saved) || (stale && (own.None? || own.value in saved.ids))
  }

  /** The upload this run works on is known, and the server still has it. */
  predicate HasUpload(r: Run) {
    r.own.Some? && r.own.value in r.saved.remote.uploads
  }

  function Stored(r: Run): Parts
    requires HasUpload(r)
  {
    r.saved.remote.uploads[r.own.value]
  }

  predicate CanStep(file: Bytes, override: int, r: Run, e: Event)
    requires Uploadable(|file|, override)
  {
    var count := PartCount(|file|, RunPartSize(|file|, override));
    && !r.finished
    && if !IsMultipart(file) then e.Put?
       else match e
         case CreateUnseen => r.own.None?
         case Create => r.own.None?
         case List => HasUpload(r) && r.etags.None?
         case Send(n, _) =>
           HasUpload(r) && r.etags.Some? && 1 <= n <= count && n <= MAX_PARTS_PER_UPLOAD && n !in r.etags.value
         case Complete(_) =>
           && HasUpload(r) && r.etags.Some?
           && HasAll(r.etags.value, count)
           && Accepts(Stored(r), PartList(r.etags.value))
         case Put(_) => false
  }

  function Step(file: Bytes, override: int, r: Run, e: Event): Run
    requires Uploadable(|file|, override) && CanStep(file, override, r, e)
  {
    var remote := r.saved.remote;
    match e
    case CreateUnseen =>
      var created := remote.(uploads := remote.uploads[remote.nextId := map[]], nextId := remote.nextId + 1);
      r.(saved := r.saved.(remote := created))
    case Create =>
      Run(Saved(remote.(uploads := remote.uploads[remote.nextId := map[]], nextId := remote.nextId + 1),
                r.saved.ids + [remote.nextId]),
          Some(remote.nextId), Some(map[]), false)
    case List => r.(etags := Some(Stored(r)))
    case Send(n, seen) =>
      var content := SliceBytes(file, RunPartSize(|file|, override), n);
      r.(saved := r.saved.(remote := remote.(uploads := remote.uploads[r.own.value := Stored(r)[n := content]])),
         etags := if seen then Some(r.etags.value[n := content]) else r.etags)
    case Complete(seen) =>
      r.(saved := r.saved.(remote := remote.(dest := Some(Concat(PartList(r.etags.value))),
                                             uploads := remote.uploads - {r.own.value})),
         finished := seen)
    case Put(seen) => r.(saved := r.saved.(remote := remote.(dest := Some(file))), finished := seen)
  }

  predicate CanPlay(file: Bytes, override: int, r: Run, events: seq<Event>)
    requires Uploadable(|file|, override)
    decreases |events|, 0
  {
    events == [] ||
    var front := events[..|events| - 1];
    CanPlay(file, override, r, front) && CanStep(file, override, Play(file, override, r, front), events[|events| - 1])
  }

  function Play(file: Bytes, override: int, r: Run, events: seq<Event>): Run
    requires Uploadable(|file|, override) && CanPlay(file, override, r, events)
    decreases |events|, 1
  {
    if events == [] then r
    else Step(file, override, Play(file, override, r, events[..|events| - 1]), events[|events| - 1])
  }

  // ----- sequences of runs -----

  /** One call: the UploadId it was started with, and its events. */
  datatype Script = Script(own: Option<UploadId>, events: seq<Event>)

  predicate IsScript(file: Bytes, override: int, saved: Saved, script: Script)
    requires Uploadable(|file|, override)
  {
    MayStart(saved, script.own, true) && CanPlay(file, override, Open(saved, script.own), script.events)
  }

  /** The runs have these overrides, one after another; each plays its events and then returns nil if it
      finished, or an error, or is killed. */
  predicate AreRuns(file: Bytes, saved: Saved, overrides: seq<int>, scripts: seq<Script>)
    requires AllUploadable(|file|, overrides) && |scripts| <= |overrides|
    decreases |scripts|, 0
  {
    scripts == [] ||
    var front := scripts[..|scripts| - 1];
    && AreRuns(file, saved, overrides, front)
    && IsScript(file, overrides[|front|], AfterRuns(file, saved, overrides, front).saved, scripts[|front|])
  }

  function AfterRuns(file: Bytes, saved: Saved, overrides: seq<int>, scripts: seq<Script>): Run
    requires AllUploadable(|file|, overrides) && |scripts| <= |overrides|
    requires AreRuns(file, saved, overrides, scripts)
    decreases |scripts|, 1
  {
    if scripts == [] then Open(saved, Current(saved))
    else
      var front, last := scripts[..|scripts| - 1], scripts[|scripts| - 1];
      Play(file, overrides[|front|], Open(AfterRuns(file, saved, overrides, front).saved, last.own), last.events)
  }

  /** Part sizes S3 allows; SetPartSizeOverrideMB admits no smaller override. */
  predicate AllUploadable(totalBytes: nat, overrides: seq<int>) {
    forall i :: 0 <= i < |overrides| ==>
      Uploadable(totalBytes, overrides[i]) && RunPartSize(totalBytes, overrides[i]) >= MIN_PART_SIZE
  }

  /** A task that has not run yet: the store has no upload the task knows of. */
  predicate IsFresh(saved: Saved) {
    saved.ids == []
  }

  /** At every point the destination is as it was before or holds the file, and it holds the file once a
      run returned nil. */
  ghost predicate UploadIsSafe(totalBytes: nat, overrides: seq<int>)
    requires AllUploadable(totalBytes, overrides)
  {
    forall file: Bytes, saved: Saved, scripts: seq<Script> ::
      |file| == totalBytes && IsFresh(saved) && |scripts| <= |overrides| && AreRuns(file, saved, overrides, scripts)
      ==> !IsSpoilt(file, saved, AfterRuns(file, saved, overrides, scripts))
  }

  predicate IsSpoilt(file: Bytes, before: Saved, after: Run) {
    || (after.saved.remote.dest != before.remote.dest && after.saved.remote.dest != Some(file))
    || (after.finished && after.saved.remote.dest != Some(file))
  }

  /** A run can complete a multipart upload only when its own part count is within the server's limit. */
  predicate FitsInUpload(totalBytes: nat, override: int) {
    PartCount(totalBytes, RunPartSize(totalBytes, override)) <= MAX_PARTS_PER_UPLOAD
  }

  /** What a caller can check: every run that can complete cuts the file like all the runs before it. */
  predicate SameSizes(totalBytes: nat, overrides: seq<int>) {
    totalBytes > SINGLE_PUT_THRESHOLD ==>
      forall i, j :: 0 <= i < j < |overrides| && FitsInUpload(totalBytes, overrides[j]) ==>
        EffectiveSize(totalBytes, overrides[i]) == EffectiveSize(totalBytes, overrides[j])
  }

  // ----- the completed list -----

  function Min(a: int, b: int): int {
    if a < b then a else b
  }

  /** Part n holds its own slice of the file. */
  predicate HoldsSlice(file: Bytes, size: int, parts: Parts, n: int)
    requires Sliceable(|file|, size)
  {
    n in parts && 1 <= n <= PartCount(|file|, size) && parts[n] == SliceBytes(file, size, n)
  }

  predicate SlicesOf(file: Bytes, size: int, parts: Parts)
    requires Sliceable(|file|, size)
  {
    forall n :: n in parts ==> HoldsSlice(file, size, parts, n)
  }

  lemma SliceIsRange(file: Bytes, size: int, n: int)
    requires Sliceable(|file|, size) && 1 <= n <= PartCount(|file|, size)
    ensures 0 <= (n - 1) * size < Min(n * size, |file|) <= |file|
    ensures SliceBytes(file, size, n) == file[(n - 1) * size..Min(n * size, |file|)]
    ensures n < PartCount(|file|, size) <==> n * size < |file|
  {
    var count := PartCount(|file|, size);
    SliceInFile(file, size, n);
    NextOffset(n - 1, size);
    if |file| > 0 {
      CeilDivIsCeiling(|file|, size);
      if n < count {
        MultiplyBoth(n, count - 1, size);
      }
    }
  }

  /** A completed upload sends exactly the parts 1 to n, in ascending order. */
  predicate IsWholeList(parts: seq<Part>, etags: Parts, n: int) {
    && |parts| == n
    && forall i :: 0 <= i < n ==> i + 1 in etags && parts[i] == Part(i + 1, etags[i + 1])
  }

  predicate HasAll(etags: Parts, n: int) {
    forall k :: 1 <= k <= n ==> k in etags
  }

  lemma {:induction false} ListIsWhole(etags: Parts, n: nat)
    requires HasAll(etags, n)
    ensures IsWholeList(PartsUpTo(etags, n), etags, n)
  {
    if n > 0 {
      ListIsWhole(etags, n - 1);
      assert n in etags;
    }
  }

  /** The file from the end of its first slice to the end of its n-th. */
  function AfterFirst(file: Bytes, size: int, n: int): Bytes {
    if 0 <= Min(size, |file|) <= Min(n * size, |file|) then file[Min(size, |file|)..Min(n * size, |file|)] else []
  }

  /** When all listed parts but the first hold their slices, the list spells the first part followed by
      the rest of the file. */
  lemma {:induction false} ListSpells(file: Bytes, size: int, etags: Parts, n: nat)
    requires Sliceable(|file|, size) && 1 <= n <= PartCount(|file|, size)
    requires 1 in etags && forall k :: 2 <= k <= n ==> HoldsSlice(file, size, etags, k)
    ensures Concat(PartsUpTo(etags, n)) == etags[1] + AfterFirst(file, size, n)
  {
    if n > 1 {
      ListSpells(file, size, etags, n - 1);
      assert HoldsSlice(file, size, etags, n);
      var before, more := AfterFirst(file, size, n - 1), AfterFirst(file, size, n);
      AfterFirstGrows(file, size, n);
      OneMoreListed(etags, n, before, more);
    } else {
      OnlyFirst(etags);
      NothingAfterFirst(file, size);
    }
  }

  lemma OneMoreListed(etags: Parts, n: nat, before: Bytes, more: Bytes)
    requires n > 1 && 1 in etags && n in etags && more == before + etags[n]
    requires Concat(PartsUpTo(etags, n - 1)) == etags[1] + before
    ensures Concat(PartsUpTo(etags, n)) == etags[1] + more
  {
    ConcatMore(PartsUpTo(etags, n - 1), Part(n, etags[n]));
  }

  lemma OnlyFirst(etags: Parts)
    requires 1 in etags
    ensures Concat(PartsUpTo(etags, 1)) == etags[1] + []
  {
    assert PartsUpTo(etags, 0) == [];
    ConcatMore([], Part(1, etags[1]));
    assert [] + [Part(1, etags[1])] == [Part(1, etags[1])] && [] + etags[1] == etags[1] + [];
  }

  lemma NothingAfterFirst(file: Bytes, size: int)
    ensures AfterFirst(file, size, 1) == []
  {
    assert 1 * size == size;
  }

  lemma ConcatMore(parts: seq<Part>, part: Part)
    ensures Concat(parts + [part]) == Concat(parts) + part.content
  {
    assert (parts + [part])[..|parts|] == parts;
  }

  lemma AfterFirstGrows(file: Bytes, size: int, n: int)
    requires Sliceable(|file|, size) && 2 <= n <= PartCount(|file|, size)
    ensures AfterFirst(file, size, n) == AfterFirst(file, size, n - 1) + SliceBytes(file, size, n)
  {
    SliceIsRange(file, size, n);
    SliceIsRange(file, size, n - 1);
    MultiplyBoth(1, n - 1, size);
  }

  lemma {:induction false} NothingAfterLast(etags: Parts, count: nat, n: nat)
    requires count <= n && forall k :: k in etags ==> k <= count
    ensures PartsUpTo(etags, n) == PartsUpTo(etags, count)
  {
    if count < n {
      NothingAfterLast(etags, count, n - 1);
    }
  }

  lemma WholeFile(file: Bytes, size: int)
    requires Sliceable(|file|, size) && 1 <= PartCount(|file|, size)
    ensures SliceBytes(file, size, 1) + AfterFirst(file, size, PartCount(|file|, size)) == file
  {
    var count := PartCount(|file|, size);
    SliceIsRange(file, size, 1);
    SliceIsRange(file, size, count);
    MultiplyBoth(1, count, size);
  }

  lemma ListIsFile(file: Bytes, size: int, etags: Parts)
    requires Sliceable(|file|, size) && 1 <= PartCount(|file|, size) <= MAX_PARTS_PER_UPLOAD
    requires SlicesOf(file, size, etags) && HasAll(etags, PartCount(|file|, size))
    ensures IsWholeList(PartList(etags), etags, PartCount(|file|, size))
    ensures Concat(PartList(etags)) == file
  {
    var count := PartCount(|file|, size);
    NothingAfterLast(etags, count, MAX_PARTS_PER_UPLOAD);
    ListIsWhole(etags, count);
    ListSpells(file, size, etags, count);
    WholeFile(file, size);
    assert HoldsSlice(file, size, etags, 1);
  }

  // ----- equal part sizes are safe -----

  ghost predicate UploadInv(file: Bytes, size: int, r: Run)
    requires Sliceable(|file|, size)
  {
    && StoredSlices(file, size, r.saved)
    && (r.own.Some? ==> r.own.value in r.saved.ids)
    && (r.etags.Some? ==> SlicesOf(file, size, r.etags.value))
  }

  /** Every part of every upload of the task that the server still has. */
  ghost predicate StoredSlices(file: Bytes, size: int, saved: Saved)
    requires Sliceable(|file|, size)
  {
    forall id :: id in saved.ids && id in saved.remote.uploads ==> SlicesOf(file, size, saved.remote.uploads[id])
  }

  /** Sizes that cut the file alike. */
  lemma SameSlices(file: Bytes, size: int, other: int, parts: Parts)
    requires Sliceable(|file|, size) && Sliceable(|file|, other) && Min(size, |file|) == Min(other, |file|)
    ensures PartCount(|file|, size) == PartCount(|file|, other)
    ensures SlicesOf(file, size, parts) <==> SlicesOf(file, other, parts)
  {
    if |file| > 0 && size != other {
      CeilDivIsCeiling(|file|, size);
      CeilDivIsCeiling(|file|, other);
      PartCountIsUnique(|file|, size, PartCount(|file|, size), 1);
      PartCountIsUnique(|file|, other, PartCount(|file|, other), 1);
    }
  }

  /** Every step keeps every stored part its own slice, and only a whole file ever reaches the
      destination. */
  lemma StepKeepsSlices(file: Bytes, override: int, r: Run, e: Event)
    requires Uploadable(|file|, override) && CanStep(file, override, r, e)
    requires FitsInUpload(|file|, override) && UploadInv(file, RunPartSize(|file|, override), r)
    ensures UploadInv(file, RunPartSize(|file|, override), Step(file, override, r, e))
    ensures var r' := Step(file, override, r, e);
      && (r'.saved.remote.dest == Some(file) || (r'.saved.remote.dest == r.saved.remote.dest && !r'.finished))
    ensures e.Complete? ==>
      IsWholeList(PartList(r.etags.value), r.etags.value, PartCount(|file|, RunPartSize(|file|, override)))
  {
    var size := RunPartSize(|file|, override);
    if e.Complete? {
      CeilDivIsCeiling(|file|, size);
      ListIsFile(file, size, r.etags.value);
    }
  }

  lemma {:induction false} PlayKeepsSlices(file: Bytes, override: int, r: Run, events: seq<Event>)
    requires Uploadable(|file|, override) && CanPlay(file, override, r, events) && !r.finished
    requires FitsInUpload(|file|, override) && UploadInv(file, RunPartSize(|file|, override), r)
    ensures var r' := Play(file, override, r, events);
      && UploadInv(file, RunPartSize(|file|, override), r')
      && (r'.saved.remote.dest == Some(file) || (r'.saved.remote.dest == r.saved.remote.dest && !r'.finished))
  {
    if events != [] {
      var front := events[..|events| - 1];
      PlayKeepsSlices(file, override, r, front);
      StepKeepsSlices(file, override, Play(file, override, r, front), events[|events| - 1]);
    }
  }

  // ----- the server's limit on part numbers -----

  predicate NumbersInv(r: Run) {
    && StoredNumbers(r.saved)
    && (r.own.Some? ==> r.own.value in r.saved.ids)
    && (r.etags.Some? ==> ValidNumbers(r.etags.value))
  }

  predicate StoredNumbers(saved: Saved) {
    forall id :: id in saved.ids && id in saved.remote.uploads ==> ValidNumbers(saved.remote.uploads[id])
  }

  lemma MayStartMeansKnown(saved: Saved, own: Option<UploadId>)
    requires MayStart(saved, own, true)
    ensures own.Some? ==> own.value in saved.ids
  {
  }

  lemma AllNumbersFit(etags: Parts, n: int)
    requires ValidNumbers(etags) && HasAll(etags, n)
    ensures n <= MAX_PARTS_PER_UPLOAD
  {
    assert n > MAX_PARTS_PER_UPLOAD ==> n in etags;
  }

  /** A run that cuts the file into more than 10000 parts sends what it can, and never completes. */
  lemma {:induction false} PlayKeepsNumbers(file: Bytes, override: int, r: Run, events: seq<Event>)
    requires Uploadable(|file|, override) && CanPlay(file, override, r, events) && NumbersInv(r) && !r.finished
    ensures NumbersInv(Play(file, override, r, events))
    ensures IsMultipart(file) && !FitsInUpload(|file|, override) ==>
      !Play(file, override, r, events).finished
      && Play(file, override, r, events).saved.remote.dest == r.saved.remote.dest
  {
    if events != [] {
      var front, e := events[..|events| - 1], events[|events| - 1];
      PlayKeepsNumbers(file, override, r, front);
      if e.Complete? {
        AllNumbersFit(Play(file, override, r, front).etags.value, PartCount(|file|, RunPartSize(|file|, override)));
      }
    }
  }

  /** A small file goes out whole, however often. */
  lemma {:induction false} PlaySingle(file: Bytes, override: int, r: Run, events: seq<Event>)
    requires Uploadable(|file|, override) && CanPlay(file, override, r, events) && !r.finished && !IsMultipart(file)
    ensures var r' := Play(file, override, r, events);
      r'.saved.remote.dest == Some(file) || (r'.saved.remote.dest == r.saved.remote.dest && !r'.finished)
  {
    if events != [] {
      PlaySingle(file, override, r, events[..|events| - 1]);
    }
  }

  // ----- all runs -----

  lemma {:induction false} RunsKeepNumbers(file: Bytes, saved: Saved, overrides: seq<int>, scripts: seq<Script>)
    requires AllUploadable(|file|, overrides) && |scripts| <= |overrides|
    requires IsFresh(saved) && AreRuns(file, saved, overrides, scripts)
    ensures NumbersInv(AfterRuns(file, saved, overrides, scripts))
  {
    if scripts != [] {
      var front, last := scripts[..|scripts| - 1], scripts[|scripts| - 1];
      RunsKeepNumbers(file, saved, overrides, front);
      var before := AfterRuns(file, saved, overrides, front).saved;
      MayStartMeansKnown(before, last.own);
      PlayKeepsNumbers(file, overrides[|front|], Open(before, last.own), last.events);
    }
  }

  /** Across interrupted runs that all cut the file alike, every stored part holds its own slice. */
  lemma {:induction false} RunsKeepSlices(
    file: Bytes, saved: Saved, overrides: seq<int>, scripts: seq<Script>, override: int)
    requires AllUploadable(|file|, overrides) && |scripts| <= |overrides|
    requires IsFresh(saved) && AreRuns(file, saved, overrides, scripts)
    requires Uploadable(|file|, override) && FitsInUpload(|file|, override)
    requires forall i :: 0 <= i < |scripts| ==> EffectiveSize(|file|, overrides[i]) == EffectiveSize(|file|, override)
    ensures UploadInv(file, RunPartSize(|file|, override), AfterRuns(file, saved, overrides, scripts))
  {
    if scripts != [] {
      var front, last := scripts[..|scripts| - 1], scripts[|scripts| - 1];
      RunsKeepSlices(file, saved, overrides, front, override);
      RunKeepsSlices(file, overrides[|front|], override, AfterRuns(file, saved, overrides, front).saved, last);
    }
  }

  /** One run keeps the parts of any size that cuts the file alike. */
  lemma RunKeepsSlices(file: Bytes, own: int, override: int, saved: Saved, script: Script)
    requires Uploadable(|file|, own) && IsScript(file, own, saved, script)
    requires Uploadable(|file|, override) && FitsInUpload(|file|, override)
    requires EffectiveSize(|file|, own) == EffectiveSize(|file|, override)
    requires StoredSlices(file, RunPartSize(|file|, override), saved)
    ensures var r := Play(file, own, Open(saved, script.own), script.events);
      && UploadInv(file, RunPartSize(|file|, override), r)
      && (r.saved.remote.dest == Some(file) || (r.saved.remote.dest == saved.remote.dest && !r.finished))
  {
    var before := Open(saved, script.own);
    MayStartMeansKnown(saved, script.own);
    CutAlike(file, override, own, before);
    PlayKeepsSlices(file, own, before, script.events);
    CutAlike(file, override, own, Play(file, own, before, script.events));
  }

  lemma CutAlike(file: Bytes, override: int, other: int, r: Run)
    requires Uploadable(|file|, override) && Uploadable(|file|, other)
    requires EffectiveSize(|file|, override) == EffectiveSize(|file|, other)
    ensures FitsInUpload(|file|, override) <==> FitsInUpload(|file|, other)
    ensures UploadInv(file, RunPartSize(|file|, override), r) <==> UploadInv(file, RunPartSize(|file|, other), r)
  {
    var size, size' := RunPartSize(|file|, override), RunPartSize(|file|, other);
    SameSlices(file, size, size', map[]);
    forall parts ensures SlicesOf(file, size, parts) <==> SlicesOf(file, size', parts) {
      SameSlices(file, size, size', parts);
    }
  }

  lemma {:induction false} RunsAreSafe(file: Bytes, saved: Saved, overrides: seq<int>, scripts: seq<Script>)
    requires AllUploadable(|file|, overrides) && |scripts| <= |overrides|
    requires IsFresh(saved) && AreRuns(file, saved, overrides, scripts)
    requires SameSizes(|file|, overrides)
    ensures !IsSpoilt(file, saved, AfterRuns(file, saved, overrides, scripts))
  {
    if scripts != [] {
      var front, last := scripts[..|scripts| - 1], scripts[|scripts| - 1];
      RunsAreSafe(file, saved, overrides, front);
      var before, own := AfterRuns(file, saved, overrides, front).saved, overrides[|front|];
      MayStartMeansKnown(before, last.own);
      if !IsMultipart(file) {
        PlaySingle(file, own, Open(before, last.own), last.events);
      } else if FitsInUpload(|file|, own) {
        RunsKeepSlices(file, saved, overrides, front, own);
        PlayKeepsSlices(file, own, Open(before, last.own), last.events);
      } else {
        RunsKeepNumbers(file, saved, overrides, front);
        PlayKeepsNumbers(file, own, Open(before, last.own), last.events);
      }
    }
  }

  // ----- when a run can return nil -----

  /** A run of a large file whose upload the server has forgotten, as after its completion, does nothing. */
  lemma {:induction false} NoEventWithoutUpload(file: Bytes, override: int, r: Run, events: seq<Event>)
    requires Uploadable(|file|, override) && CanPlay(file, override, r, events) && IsMultipart(file)
    requires r.own.Some? && !HasUpload(r)
    ensures events == []
  {
    if events != [] {
      NoEventWithoutUpload(file, override, r, events[..|events| - 1]);
    }
  }

  /** The parts up to n are listed, and the list is what the server has. */
  predicate IsListed(file: Bytes, override: int, r: Run, n: int)
    requires Uploadable(|file|, override)
  {
    && !r.finished && HasUpload(r) && r.etags == Some(Stored(r))
    && SlicesOf(file, RunPartSize(|file|, override), Stored(r)) && HasAll(Stored(r), n)
  }

  lemma SlicesAreAccepted(file: Bytes, size: int, parts: Parts)
    requires Sliceable(|file|, size) && size >= MIN_PART_SIZE && 1 <= PartCount(|file|, size) <= MAX_PARTS_PER_UPLOAD
    requires SlicesOf(file, size, parts) && HasAll(parts, PartCount(|file|, size))
    ensures Accepts(parts, PartList(parts)) && Concat(PartList(parts)) == file
  {
    var count := PartCount(|file|, size);
    ListIsFile(file, size, parts);
    forall i | 0 <= i < count - 1 ensures |PartList(parts)[i].content| >= MIN_PART_SIZE {
      SliceIsFull(file, size, i + 1);
      assert HoldsSlice(file, size, parts, i + 1);
    }
  }

  /** From a listed upload a run can send what is missing. */
  lemma {:induction false} SendMissing(file: Bytes, override: int, r: Run, events: seq<Event>, n: nat)
    returns (more: seq<Event>)
    requires Uploadable(|file|, override) && IsMultipart(file) && FitsInUpload(|file|, override)
    requires CanPlay(file, override, r, events) && IsListed(file, override, Play(file, override, r, events), 0)
    requires n <= PartCount(|file|, RunPartSize(|file|, override))
    ensures CanPlay(file, override, r, more) && IsListed(file, override, Play(file, override, r, more), n)
  {
    if n == 0 {
      more := events;
    } else {
      more := SendMissing(file, override, r, events, n - 1);
      var now := Play(file, override, r, more);
      if n !in Stored(now) {
        PlayMore(file, override, r, more, Send(n, true));
        more := more + [Send(n, true)];
        SentIsListed(file, override, now, n);
      }
    }
  }

  lemma SentIsListed(file: Bytes, override: int, r: Run, n: nat)
    requires Uploadable(|file|, override) && IsMultipart(file) && FitsInUpload(|file|, override)
    requires 1 <= n <= PartCount(|file|, RunPartSize(|file|, override))
    requires IsListed(file, override, r, n - 1) && n !in Stored(r)
    ensures CanStep(file, override, r, Send(n, true))
    ensures IsListed(file, override, Step(file, override, r, Send(n, true)), n)
  {
  }

  /** The upload is new, or the server still has it with its own slices. */
  predicate CanGoOn(file: Bytes, override: int, saved: Saved, own: Option<UploadId>)
    requires Uploadable(|file|, override)
  {
    own.Some? ==>
      && own.value in saved.remote.uploads
      && SlicesOf(file, RunPartSize(|file|, override), saved.remote.uploads[own.value])
  }

  lemma StartListed(file: Bytes, override: int, saved: Saved, own: Option<UploadId>) returns (events: seq<Event>)
    requires Uploadable(|file|, override) && IsMultipart(file) && CanGoOn(file, override, saved, own)
    ensures CanPlay(file, override, Open(saved, own), events)
    ensures IsListed(file, override, Play(file, override, Open(saved, own), events), 0)
  {
    var first := if own.None? then Create else List;
    assert CanStep(file, override, Open(saved, own), first);
    assert IsListed(file, override, Step(file, override, Open(saved, own), first), 0);
    PlayMore(file, override, Open(saved, own), [], first);
    events := [] + [first];
  }

  lemma CompleteListed(file: Bytes, override: int, r: Run, events: seq<Event>) returns (more: seq<Event>)
    requires Uploadable(|file|, override) && RunPartSize(|file|, override) >= MIN_PART_SIZE
    requires IsMultipart(file) && FitsInUpload(|file|, override) && CanPlay(file, override, r, events)
    requires var now := Play(file, override, r, events);
      IsListed(file, override, now, PartCount(|file|, RunPartSize(|file|, override)))
    ensures CanPlay(file, override, r, more)
    ensures Play(file, override, r, more).finished && Play(file, override, r, more).saved.remote.dest == Some(file)
  {
    var now := Play(file, override, r, events);
    CeilDivIsCeiling(|file|, RunPartSize(|file|, override));
    SlicesAreAccepted(file, RunPartSize(|file|, override), Stored(now));
    PlayMore(file, override, r, events, Complete(true));
    more := events + [Complete(true)];
  }

  lemma PutWhole(file: Bytes, override: int, r: Run) returns (events: seq<Event>)
    requires Uploadable(|file|, override) && !IsMultipart(file) && !r.finished
    ensures CanPlay(file, override, r, events)
    ensures Play(file, override, r, events).finished && Play(file, override, r, events).saved.remote.dest == Some(file)
  {
    PlayMore(file, override, r, [], Put(true));
    events := [] + [Put(true)];
  }

  /** Then a run can put the whole file and return nil. */
  lemma RunToTheEnd(file: Bytes, override: int, saved: Saved, own: Option<UploadId>) returns (events: seq<Event>)
    requires Uploadable(|file|, override) && RunPartSize(|file|, override) >= MIN_PART_SIZE
    requires IsMultipart(file) ==> FitsInUpload(|file|, override) && CanGoOn(file, override, saved, own)
    ensures CanPlay(file, override, Open(saved, own), events)
    ensures var r := Play(file, override, Open(saved, own), events); r.finished && r.saved.remote.dest == Some(file)
  {
    if !IsMultipart(file) {
      events := PutWhole(file, override, Open(saved, own));
    } else {
      CeilDivIsCeiling(|file|, RunPartSize(|file|, override));
      events := StartListed(file, override, saved, own);
      events := SendMissing(file, override, Open(saved, own), events, PartCount(|file|, RunPartSize(|file|, override)));
      events := CompleteListed(file, override, Open(saved, own), events);
    }
  }

  ghost predicate CanFinish(file: Bytes, override: int, saved: Saved, own: Option<UploadId>)
    requires Uploadable(|file|, override)
  {
    var r := Open(saved, own);
    exists events :: CanPlay(file, override, r, events) && Play(file, override, r, events).finished
  }

  /** A run of the task can return nil exactly when the file goes out in one request, or is cut into at most
      10000 parts and the run's upload is new or still known to the server. So after a completed upload a run
      started with its UploadId can return nil exactly when the file is small. */
  lemma CanFinishIff(file: Bytes, override: int, saved: Saved, own: Option<UploadId>)
    requires Uploadable(|file|, override) && RunPartSize(|file|, override) >= MIN_PART_SIZE
    requires MayStart(saved, own, true) && StoredNumbers(saved)
    requires FitsInUpload(|file|, override) ==> StoredSlices(file, RunPartSize(|file|, override), saved)
    ensures CanFinish(file, override, saved, own) <==>
      || !IsMultipart(file)
      || (FitsInUpload(|file|, override) && (own.None? || own.value in saved.remote.uploads))
  {
    MayStartMeansKnown(saved, own);
    if !IsMultipart(file) || (FitsInUpload(|file|, override) && (own.None? || own.value in saved.remote.uploads)) {
      var events := RunToTheEnd(file, override, saved, own);
      assert CanPlay(file, override, Open(saved, own), events);
    } else if CanFinish(file, override, saved, own) {
      var r := Open(saved, own);
      var events :| CanPlay(file, override, r, events) && Play(file, override, r, events).finished;
      PlayKeepsNumbers(file, override, Open(saved, own), events);
      if own.Some? && own.value !in saved.remote.uploads {
        NoEventWithoutUpload(file, override, Open(saved, own), events);
      }
    }
  }

  // ----- different part sizes are not -----

  function NothingStored(): Saved {
    Saved(Remote(None, map[], 0), [])
  }

  /** The store while upload 0 holds these parts. */
  function Holding(parts: Parts): Saved {
    Saved(Remote(None, map[0 := parts], 1), [0])
  }

  lemma PlayMore(file: Bytes, override: int, r: Run, events: seq<Event>, e: Event)
    requires Uploadable(|file|, override) && CanPlay(file, override, r, events)
    requires CanStep(file, override, Play(file, override, r, events), e)
    ensures CanPlay(file, override, r, events + [e])
    ensures Play(file, override, r, events + [e]) == Step(file, override, Play(file, override, r, events), e)
  {
    assert (events + [e])[..|events|] == events;
  }

  /** A run that stores its first part and is then interrupted. */
  lemma FirstPartOnly(file: Bytes, override: int) returns (events: seq<Event>)
    requires Uploadable(|file|, override) && IsMultipart(file)
    requires PartCount(|file|, RunPartSize(|file|, override)) > 0
    ensures CanPlay(file, override, Open(NothingStored(), None), events)
    ensures Play(file, override, Open(NothingStored(), None), events).saved
         == Holding(map[1 := SliceBytes(file, RunPartSize(|file|, override), 1)])
  {
    var r := Open(NothingStored(), None);
    PlayMore(file, override, r, [], Create);
    assert [] + [0] == [0];
    assert Play(file, override, r, [Create]) == Run(Holding(map[]), Some(0), Some(map[]), false);
    PlayMore(file, override, r, [Create], Send(1, true));
    events := [Create] + [Send(1, true)];
    assert map[0 := map[]][0 := map[1 := SliceBytes(file, RunPartSize(|file|, override), 1)]]
        == map[0 := map[1 := SliceBytes(file, RunPartSize(|file|, override), 1)]];
  }

  /** The given first part, and the parts 2 to n of a run. */
  function Filled(file: Bytes, size: int, first: Bytes, n: int): Parts
    requires Sliceable(|file|, size) && n <= PartCount(|file|, size)
  {
    map k | 1 <= k <= n :: if k == 1 then first else SliceBytes(file, size, k)
  }

  function SendRest(n: nat): seq<Event> {
    if n <= 1 then [List] else SendRest(n - 1) + [Send(n, true)]
  }

  lemma {:induction false} SendRestPlays(file: Bytes, override: int, first: Bytes, n: nat)
    requires Uploadable(|file|, override) && IsMultipart(file) && FitsInUpload(|file|, override)
    requires 1 <= n <= PartCount(|file|, RunPartSize(|file|, override))
    ensures var r := Open(Holding(map[1 := first]), Some(0));
      var parts := Filled(file, RunPartSize(|file|, override), first, n);
      && CanPlay(file, override, r, SendRest(n))
      && Play(file, override, r, SendRest(n)) == Run(Holding(parts), Some(0), Some(parts), false)
  {
    var r, size := Open(Holding(map[1 := first]), Some(0)), RunPartSize(|file|, override);
    if n == 1 {
      PlayMore(file, override, r, [], List);
      assert Filled(file, size, first, 1) == map[1 := first];
    } else {
      SendRestPlays(file, override, first, n - 1);
      SendOne(file, override, first, n);
      PlayMore(file, override, r, SendRest(n - 1), Send(n, true));
    }
  }

  lemma SendOne(file: Bytes, override: int, first: Bytes, n: nat)
    requires Uploadable(|file|, override) && IsMultipart(file) && FitsInUpload(|file|, override)
    requires 2 <= n <= PartCount(|file|, RunPartSize(|file|, override))
    ensures var size := RunPartSize(|file|, override);
      var before, after := Filled(file, size, first, n - 1), Filled(file, size, first, n);
      && CanStep(file, override, Run(Holding(before), Some(0), Some(before), false), Send(n, true))
      && Step(file, override, Run(Holding(before), Some(0), Some(before), false), Send(n, true))
         == Run(Holding(after), Some(0), Some(after), false)
  {
    var size := RunPartSize(|file|, override);
    var before, after := Filled(file, size, first, n - 1), Filled(file, size, first, n);
    assert before[n := SliceBytes(file, size, n)] == after;
    assert map[0 := before][0 := after] == map[0 := after];
  }

  lemma FilledSpells(file: Bytes, size: int, first: Bytes)
    requires Sliceable(|file|, size) && 1 <= PartCount(|file|, size) <= MAX_PARTS_PER_UPLOAD
    ensures var count := PartCount(|file|, size);
      var parts := Filled(file, size, first, count);
      && IsWholeList(PartList(parts), parts, count)
      && Concat(PartList(parts)) == first + AfterFirst(file, size, count)
  {
    var count := PartCount(|file|, size);
    var parts := Filled(file, size, first, count);
    NothingAfterLast(parts, count, MAX_PARTS_PER_UPLOAD);
    ListIsWhole(parts, count);
    ListSpells(file, size, parts, count);
  }

  lemma FilledIsAccepted(file: Bytes, size: int, first: Bytes)
    requires Sliceable(|file|, size) && size >= MIN_PART_SIZE && |first| >= MIN_PART_SIZE
    requires 1 <= PartCount(|file|, size) <= MAX_PARTS_PER_UPLOAD
    ensures var parts := Filled(file, size, first, PartCount(|file|, size)); Accepts(parts, PartList(parts))
  {
    var count := PartCount(|file|, size);
    var parts := Filled(file, size, first, count);
    FilledSpells(file, size, first);
    forall i | 0 <= i < count - 1 ensures |PartList(parts)[i].content| >= MIN_PART_SIZE {
      SliceIsFull(file, size, i + 1);
    }
  }

  lemma SliceIsFull(file: Bytes, size: int, n: int)
    requires Sliceable(|file|, size) && 1 <= n < PartCount(|file|, size)
    ensures |SliceBytes(file, size, n)| == size
  {
    SliceIsRange(file, size, n);
    NextOffset(n - 1, size);
  }

  /** A first part of another size makes the completed object longer or shorter than the file. */
  lemma OddFirstPart(file: Bytes, override: int, first: Bytes) returns (events: seq<Event>)
    requires Uploadable(|file|, override) && IsMultipart(file) && FitsInUpload(|file|, override)
    requires RunPartSize(|file|, override) >= MIN_PART_SIZE
    requires |first| >= MIN_PART_SIZE && |first| != EffectiveSize(|file|, override)
    ensures var r := Open(Holding(map[1 := first]), Some(0));
      && CanPlay(file, override, r, events)
      && Play(file, override, r, events).finished && Play(file, override, r, events).saved.remote.dest != Some(file)
  {
    var r, size := Open(Holding(map[1 := first]), Some(0)), RunPartSize(|file|, override);
    var count := PartCount(|file|, size);
    CeilDivIsCeiling(|file|, size);
    SendRestPlays(file, override, first, count);
    FilledSpells(file, size, first);
    FilledIsAccepted(file, size, first);
    PlayMore(file, override, r, SendRest(count), Complete(true));
    events := SendRest(count) + [Complete(true)];
    SliceIsRange(file, size, count);
    MultiplyBoth(1, count, size);
    assert |first + AfterFirst(file, size, count)| == |first| + |file| - EffectiveSize(|file|, override);
  }

  /** Runs that fail before their first request. */
  lemma {:induction false} NoRunsDoNothing(
    file: Bytes, saved: Saved, overrides: seq<int>, scripts: seq<Script>, n: nat) returns (all: seq<Script>)
    requires AllUploadable(|file|, overrides) && |scripts| + n <= |overrides|
    requires AreRuns(file, saved, overrides, scripts)
    ensures |all| == |scripts| + n && AreRuns(file, saved, overrides, all)
    ensures AfterRuns(file, saved, overrides, all).saved == AfterRuns(file, saved, overrides, scripts).saved
  {
    all := scripts;
    if n > 0 {
      var front := NoRunsDoNothing(file, saved, overrides, scripts, n - 1);
      var idle := Script(Current(AfterRuns(file, saved, overrides, front).saved), []);
      RunMore(file, saved, overrides, front, idle);
      all := front + [idle];
    }
  }

  lemma RunMore(file: Bytes, saved: Saved, overrides: seq<int>, scripts: seq<Script>, last: Script)
    requires AllUploadable(|file|, overrides) && |scripts| < |overrides| && AreRuns(file, saved, overrides, scripts)
    requires IsScript(file, overrides[|scripts|], AfterRuns(file, saved, overrides, scripts).saved, last)
    ensures AreRuns(file, saved, overrides, scripts + [last])
    ensures var before := AfterRuns(file, saved, overrides, scripts).saved;
      AfterRuns(file, saved, overrides, scripts + [last])
      == Play(file, overrides[|scripts|], Open(before, last.own), last.events)
  {
    assert (scripts + [last])[..|scripts|] == scripts;
  }

  lemma DifferentSizesSpoil(totalBytes: nat, overrides: seq<int>, i: nat, j: nat) returns (scripts: seq<Script>)
    requires AllUploadable(totalBytes, overrides) && totalBytes > SINGLE_PUT_THRESHOLD
    requires i < j < |overrides| && FitsInUpload(totalBytes, overrides[j])
    requires EffectiveSize(totalBytes, overrides[i]) != EffectiveSize(totalBytes, overrides[j])
    ensures |scripts| <= |overrides| && AreRuns(Ones(totalBytes), NothingStored(), overrides, scripts)
    ensures var end := AfterRuns(Ones(totalBytes), NothingStored(), overrides, scripts);
            IsSpoilt(Ones(totalBytes), NothingStored(), end)
  {
    var file, saved, size := Ones(totalBytes), NothingStored(), RunPartSize(totalBytes, overrides[i]);
    CeilDivIsCeiling(totalBytes, size);
    SliceIsRange(file, size, 1);
    var first := FirstPartOnly(file, overrides[i]);
    var second := OddFirstPart(file, overrides[j], SliceBytes(file, size, 1));
    var upToFirst := OneAt(file, saved, overrides, [], i, Script(None, first));
    scripts := OneAt(file, saved, overrides, upToFirst, j, Script(Some(0), second));
  }

  /** The scripts, then idle runs, then one at position i. */
  lemma OneAt(file: Bytes, saved: Saved, overrides: seq<int>, scripts: seq<Script>, i: nat, last: Script)
    returns (all: seq<Script>)
    requires AllUploadable(|file|, overrides) && |scripts| <= i < |overrides|
    requires AreRuns(file, saved, overrides, scripts)
    requires IsScript(file, overrides[i], AfterRuns(file, saved, overrides, scripts).saved, last)
    ensures |all| == i + 1 && AreRuns(file, saved, overrides, all)
    ensures AfterRuns(file, saved, overrides, all)
         == Play(file, overrides[i], Open(AfterRuns(file, saved, overrides, scripts).saved, last.own), last.events)
  {
    var front := NoRunsDoNothing(file, saved, overrides, scripts, i - |scripts|);
    RunMore(file, saved, overrides, front, last);
    all := front + [last];
  }

  /** Upload resume is correct, for every file and every sequence of interrupted runs, whatever UploadIds they
      are started with, exactly when every run that stays within 10000 parts cuts the file like the runs
      before it. */
  lemma UploadIsSafeIffSameSizes(totalBytes: nat, overrides: seq<int>)
    requires AllUploadable(totalBytes, overrides)
    ensures UploadIsSafe(totalBytes, overrides) <==> SameSizes(totalBytes, overrides)
  {
    if SameSizes(totalBytes, overrides) {
      forall file: Bytes, saved: Saved, scripts: seq<Script> |
        |file| == totalBytes && IsFresh(saved) && |scripts| <= |overrides| && AreRuns(file, saved, overrides, scripts)
        ensures !IsSpoilt(file, saved, AfterRuns(file, saved, overrides, scripts))
      {
        RunsAreSafe(file, saved, overrides, scripts);
      }
    } else {
      var i, j :| 0 <= i < j < |overrides| && FitsInUpload(totalBytes, overrides[j])
        && EffectiveSize(totalBytes, overrides[i]) != EffectiveSize(totalBytes, overrides[j]);
      var scripts := DifferentSizesSpoil(totalBytes, overrides, i, j);
      var file := Ones(totalBytes);
      assert |file| == totalBytes && IsFresh(NothingStored());
      assert IsSpoilt(file, NothingStored(), AfterRuns(file, NothingStored(), overrides, scripts));
    }
  }
}
