/**
A cross-connection move: download the source object into a staging file, upload that file to the
destination, remove the staging file, and only then delete the source. A run may stop anywhere, and a
retry starts the whole run again over what the runs before it left behind. The part size override is read
once for each phase and may differ from run to run, a run may be started with a stale copy of the task, and
a line of the download's sidecar may be torn. Only this task writes the two locations, and they differ.
*/
module CrossCopy {
  import opened PartSizes
  import opened Slices
  import opened Objects
  import opened Sidecar
  import opened TornSidecar
  import opened TornInARow
  import D = RangeDownload
  import T = SidecarRuns
  import R = TornResume
  import U = MultipartUpload

  /** `source` is the object at its source location, `disk` the staging file and its sidecar, `saved` the
      destination store and the task's UploadIds. */
  datatype World = World(source: Option<Bytes>, disk: T.TextDisk, saved: U.Saved)

  predicate IsWorld(w: World) {
    AreWrites(w.disk.writes)
  }

  /** The overrides one run reads: before its download and before its upload. */
  datatype Sizes = Sizes(down: int, up: int)

  /** How far one run of the task got. */
  datatype TaskRun =
    /** It ended in the download phase, or before the upload. */
    | Staging(download: T.TextScript)
    /** The download returned nil, and the run ended in the upload phase or right after it. */
    | Uploading(download: T.TextScript, upload: U.Script)
    /** Both phases returned nil. `removed` and `deleted` are what became of the staging file and of the
        source object: either step may fail, or the run may be killed before it. */
    | Uploaded(download: T.TextScript, upload: U.Script, removed: bool, deleted: bool)

  predicate IsPartSize(totalBytes: nat, override: int) {
    Sliceable(totalBytes, RunPartSize(totalBytes, override)) && RunPartSize(totalBytes, override) >= MIN_PART_SIZE
  }

  predicate AreSizes(totalBytes: nat, z: Sizes) {
    IsPartSize(totalBytes, z.down) && IsPartSize(totalBytes, z.up)
  }

  predicate AllSizes(totalBytes: nat, sizes: seq<Sizes>) {
    forall i :: 0 <= i < |sizes| ==> AreSizes(totalBytes, sizes[i])
  }

  predicate ReturnedNil(download: T.TextScript) {
    download.TextScript? && download.ending.ReturnedNil?
  }

  // ----- one run -----

  /** Without a source object the download cannot even start. */
  predicate IsDownload(obj: Bytes, z: Sizes, w: World, download: T.TextScript)
    requires AreSizes(|obj|, z) && IsWorld(w)
  {
    && T.IsScript(obj, w.disk, z.down, download)
    && (w.source == None ==> download.NotOpened?)
  }

  /** The upload reads the staging file as the download left it; it is as long as the object. */
  predicate IsUpload(obj: Bytes, z: Sizes, w: World, download: T.TextScript, upload: U.Script)
    requires AreSizes(|obj|, z) && IsWorld(w)
  {
    && IsDownload(obj, z, w, download) && ReturnedNil(download)
    && var file := T.AfterRun(obj, w.disk, z.down, download).file;
       && file.Some? && |file.value| == |obj|
       && U.IsScript(file.value, z.up, w.saved, upload)
  }

  function AfterUpload(obj: Bytes, z: Sizes, w: World, download: T.TextScript, upload: U.Script): U.Run
    requires AreSizes(|obj|, z) && IsWorld(w) && IsUpload(obj, z, w, download, upload)
  {
    U.Play(T.AfterRun(obj, w.disk, z.down, download).file.value, z.up, U.Open(w.saved, upload.own), upload.events)
  }

  predicate IsTaskRun(obj: Bytes, z: Sizes, w: World, run: TaskRun)
    requires AreSizes(|obj|, z) && IsWorld(w)
  {
    match run
    case Staging(download) => IsDownload(obj, z, w, download)
    case Uploading(download, upload) => IsUpload(obj, z, w, download, upload)
    case Uploaded(download, upload, _, _) =>
      IsUpload(obj, z, w, download, upload) && AfterUpload(obj, z, w, download, upload).finished
  }

  function AfterTaskRun(obj: Bytes, z: Sizes, w: World, run: TaskRun): (after: World)
    requires AreSizes(|obj|, z) && IsWorld(w) && IsTaskRun(obj, z, w, run)
    ensures IsWorld(after)
  {
    var disk := T.AfterRun(obj, w.disk, z.down, run.download);
    match run
    case Staging(_) => w.(disk := disk)
    case Uploading(download, upload) =>
      World(w.source, disk, AfterUpload(obj, z, w, download, upload).saved)
    case Uploaded(download, upload, removed, deleted) =>
      World(if deleted then None else w.source,
            if removed then disk.(file := None) else disk,
            AfterUpload(obj, z, w, download, upload).saved)
  }

  /** What may go wrong beyond failures and crashes: the best-effort removal of a sidecar fails, a run is
      started with a stale copy of the task, and lines of the sidecar are torn. */
  datatype Mishaps = Mishaps(sidecarMayStay: bool, staleMayStart: bool, tears: T.Tears)

  predicate Allowed(obj: Bytes, z: Sizes, w: World, run: TaskRun, m: Mishaps)
    requires AreSizes(|obj|, z) && IsWorld(w) && IsTaskRun(obj, z, w, run)
  {
    && (m.sidecarMayStay || (ReturnedNil(run.download) ==> run.download.ending.removed))
    && (!run.Staging? ==> U.MayStart(w.saved, run.upload.own, m.staleMayStart))
    && T.IsAllowed(obj, w.disk, z.down, m.tears, run.download)
  }

  // ----- all runs -----

  predicate AreTaskRuns(obj: Bytes, sizes: seq<Sizes>, m: Mishaps, w: World, runs: seq<TaskRun>)
    requires AllSizes(|obj|, sizes) && |runs| <= |sizes| && IsWorld(w)
    decreases |runs|, 0
  {
    runs == [] ||
    var n := |runs| - 1;
    && AreTaskRuns(obj, sizes, m, w, runs[..n])
    && var now := After(obj, sizes, m, w, runs[..n]);
       IsTaskRun(obj, sizes[n], now, runs[n]) && Allowed(obj, sizes[n], now, runs[n], m)
  }

  function After(obj: Bytes, sizes: seq<Sizes>, m: Mishaps, w: World, runs: seq<TaskRun>): (after: World)
    requires AllSizes(|obj|, sizes) && |runs| <= |sizes| && IsWorld(w) && AreTaskRuns(obj, sizes, m, w, runs)
    ensures IsWorld(after)
    decreases |runs|, 1
  {
    if runs == [] then w
    else
      var n := |runs| - 1;
      AfterTaskRun(obj, sizes[n], After(obj, sizes, m, w, runs[..n]), runs[n])
  }

  /** Before the first run: nothing written to the sidecar and no UploadId; a leftover staging file may exist. */
  predicate IsFresh(obj: Bytes, w: World) {
    w.source == Some(obj) && w.disk.writes == [] && U.IsFresh(w.saved)
  }

  predicate IsKept(obj: Bytes, w: World) {
    w.source == Some(obj) || w.saved.remote.dest == Some(obj)
  }

  predicate IsLoss(obj: Bytes, sizes: seq<Sizes>, m: Mishaps, w: World, runs: seq<TaskRun>)
    requires AllSizes(|obj|, sizes)
  {
    && IsWorld(w) && IsFresh(obj, w) && |runs| <= |sizes| && AreTaskRuns(obj, sizes, m, w, runs)
    && !IsKept(obj, After(obj, sizes, m, w, runs))
  }

  /** However the runs are interrupted, the object is at its source or at its destination. */
  ghost predicate NeverLoses(totalBytes: nat, sizes: seq<Sizes>, m: Mishaps)
    requires AllSizes(totalBytes, sizes)
  {
    forall obj: Bytes, w: World, runs: seq<TaskRun> :: |obj| == totalBytes ==> !IsLoss(obj, sizes, m, w, runs)
  }

  // ----- the hazards -----

  predicate IsLarge(totalBytes: nat) {
    totalBytes > 5 * MIB
  }

  /** A run with this override can get past its upload at all. */
  predicate CanUpload(totalBytes: nat, up: int) {
    !IsLarge(totalBytes) || U.FitsInUpload(totalBytes, up)
  }

  /** The later run downloads with longer segments than the earlier one, and takes its record for whole ones. */
  predicate Grows(totalBytes: nat, earlier: Sizes, later: Sizes) {
    EffectiveSize(totalBytes, earlier.down) < EffectiveSize(totalBytes, later.down)
  }

  /** The later run cuts its parts differently, and takes the earlier one's parts for its own. */
  predicate CutsDifferently(totalBytes: nat, earlier: Sizes, later: Sizes) {
    IsLarge(totalBytes) && EffectiveSize(totalBytes, earlier.up) != EffectiveSize(totalBytes, later.up)
  }

  /** Both runs can get past their uploads, and a sidecar may outlive the staging file in between. */
  predicate Repeats(totalBytes: nat, earlier: Sizes, m: Mishaps) {
    && m.sidecarMayStay && totalBytes > 0 && CanUpload(totalBytes, earlier.up)
    && (!IsLarge(totalBytes) || m.staleMayStart)
  }

  /** A torn line may tell the later run of a segment nobody fetched. */
  ghost predicate Misreads(totalBytes: nat, later: Sizes, m: Mishaps)
    requires AreSizes(totalBytes, later)
  {
    var size := RunPartSize(totalBytes, later.down);
    var count := PartCount(totalBytes, size);
    match m.tears
    case NeverTorn => false
    case TornApart => count > 10
    case TornAnywhere => exists v: nat :: IsPlanned(size, count, v) && IsSpelled(size, count, v, Decimal(v))
  }

  ghost predicate IsHazard(totalBytes: nat, earlier: Sizes, later: Sizes, m: Mishaps)
    requires AreSizes(totalBytes, later)
  {
    && CanUpload(totalBytes, later.up)
    && (|| Grows(totalBytes, earlier, later)
        || CutsDifferently(totalBytes, earlier, later)
        || Repeats(totalBytes, earlier, m)
        || Misreads(totalBytes, later, m))
  }

  ghost predicate NoHazard(totalBytes: nat, sizes: seq<Sizes>, m: Mishaps)
    requires AllSizes(totalBytes, sizes)
  {
    forall i, k :: 0 <= i < k < |sizes| ==> !IsHazard(totalBytes, sizes[i], sizes[k], m)
  }

  /** Where lines may be torn, all runs download with one size, and it is one the code can use. */
  predicate SizesFit(totalBytes: nat, sizes: seq<Sizes>, m: Mishaps) {
    !m.tears.NeverTorn? ==> forall i :: 0 <= i < |sizes| ==> FitsTears(totalBytes, sizes[i], sizes[0], m)
  }

  predicate FitsTears(totalBytes: nat, z: Sizes, first: Sizes, m: Mishaps) {
    var size := RunPartSize(totalBytes, z.down);
    !m.tears.NeverTorn? ==>
      && size == RunPartSize(totalBytes, first.down)
      && (m.tears.TornApart? ==> IsSegmentSize(size, PartCount(totalBytes, size)))
  }

  lemma HarmlessUnlessMisread(totalBytes: nat, z: Sizes, m: Mishaps)
    requires AreSizes(totalBytes, z) && FitsTears(totalBytes, z, z, m)
    ensures T.IsHarmless(totalBytes, z.down, m.tears) <==> !Misreads(totalBytes, z, m)
  {
    R.HarmlessIff(totalBytes, z.down);
  }

  // ----- without hazards -----

  /** A current run's upload was completed; its id is the row's, so a run started with the row repeats nothing. */
  predicate IsSealed(obj: Bytes, w: World) {
    && U.IsMultipart(obj)
    && U.Current(w.saved).Some? && U.Current(w.saved).value !in w.saved.remote.uploads
    && w.saved.remote.dest == Some(obj)
  }

  /** A run with these sizes would download the object and upload its own parts. */
  ghost predicate IsReady(obj: Bytes, z: Sizes, m: Mishaps, w: World)
    requires AreSizes(|obj|, z) && IsWorld(w)
  {
    && T.Trusts(obj, z.down, m.tears, w.disk) && T.ReadsRight(obj, z.down, w.disk)
    && (U.IsMultipart(obj) ==> U.StoredSlices(obj, RunPartSize(|obj|, z.up), w.saved))
  }

  ghost predicate IsReadyOrSealed(obj: Bytes, z: Sizes, m: Mishaps, w: World)
    requires AreSizes(|obj|, z) && IsWorld(w)
  {
    IsReady(obj, z, m, w) || (!m.staleMayStart && IsSealed(obj, w))
  }

  ghost predicate Keeps(obj: Bytes, w: World) {
    && (w.source == Some(obj) || (w.source == None && w.saved.remote.dest == Some(obj)))
    && U.StoredNumbers(w.saved)
  }

  /** After n runs, everything is in order for each later run that can get past its upload. */
  ghost predicate Inv(obj: Bytes, sizes: seq<Sizes>, m: Mishaps, w: World, n: nat)
    requires AllSizes(|obj|, sizes) && IsWorld(w)
  {
    && Keeps(obj, w)
    && forall k :: n <= k < |sizes| && CanUpload(|obj|, sizes[k].up) ==> IsReadyOrSealed(obj, sizes[k], m, w)
  }

  lemma SealedRunDoesNothing(obj: Bytes, z: Sizes, m: Mishaps, w: World, run: TaskRun)
    requires AreSizes(|obj|, z) && IsWorld(w) && IsTaskRun(obj, z, w, run) && Allowed(obj, z, w, run, m)
    requires IsSealed(obj, w) && !m.staleMayStart
    ensures AfterTaskRun(obj, z, w, run).saved == w.saved && AfterTaskRun(obj, z, w, run).source == w.source
  {
    if !run.Staging? {
      var file := T.AfterRun(obj, w.disk, z.down, run.download).file.value;
      U.NoEventWithoutUpload(file, z.up, U.Open(w.saved, run.upload.own), run.upload.events);
    }
  }

  /** What uploading the object itself does to the destination and its uploads. */
  lemma ReadyUpload(obj: Bytes, own: Sizes, z: Sizes, saved: U.Saved, upload: U.Script)
    requires AreSizes(|obj|, own) && AreSizes(|obj|, z) && U.IsScript(obj, own.up, saved, upload)
    requires CanUpload(|obj|, own.up) && !CutsDifferently(|obj|, own, z)
    requires U.IsMultipart(obj) ==> U.StoredSlices(obj, RunPartSize(|obj|, z.up), saved)
    ensures var r := U.Play(obj, own.up, U.Open(saved, upload.own), upload.events);
      && (U.IsMultipart(obj) ==> U.StoredSlices(obj, RunPartSize(|obj|, z.up), r.saved))
      && (r.saved.remote.dest == Some(obj) || (r.saved.remote.dest == saved.remote.dest && !r.finished))
  {
    if U.IsMultipart(obj) {
      SameFit(|obj|, own.up, z.up);
      U.RunKeepsSlices(obj, own.up, z.up, saved, upload);
    } else {
      U.PlaySingle(obj, own.up, U.Open(saved, upload.own), upload.events);
    }
  }

  lemma SameFit(totalBytes: nat, up: int, other: int)
    requires IsPartSize(totalBytes, up) && IsPartSize(totalBytes, other)
    requires EffectiveSize(totalBytes, up) == EffectiveSize(totalBytes, other)
    ensures U.FitsInUpload(totalBytes, up) <==> U.FitsInUpload(totalBytes, other)
  {
    U.CutAlike(Zeros(totalBytes), up, other, U.Open(U.NothingStored(), None));
  }

  /** A finished large upload, started with the row's id, leaves the row with an id the server forgot. */
  lemma FinishedMeansForgotten(file: Bytes, override: int, saved: U.Saved, upload: U.Script)
    requires U.Uploadable(|file|, override) && U.IsScript(file, override, saved, upload)
    requires upload.own == U.Current(saved) && U.IsMultipart(file)
    ensures var r := U.Play(file, override, U.Open(saved, upload.own), upload.events);
      r.finished ==> U.Current(r.saved).Some? && U.Current(r.saved).value !in r.saved.remote.uploads
  {
    OwnIsCurrent(file, override, U.Open(saved, upload.own), upload.events);
  }

  lemma {:induction false} OwnIsCurrent(file: Bytes, override: int, r: U.Run, events: seq<U.Event>)
    requires U.Uploadable(|file|, override) && U.CanPlay(file, override, r, events) && U.IsMultipart(file)
    requires r.own == U.Current(r.saved) && !r.finished
    ensures var r' := U.Play(file, override, r, events);
      && r'.own == U.Current(r'.saved)
      && (r'.finished ==> r'.own.Some? && r'.own.value !in r'.saved.remote.uploads)
  {
    if events != [] {
      OwnIsCurrent(file, override, r, events[..|events| - 1]);
    }
  }

  lemma NumbersKept(file: Bytes, override: int, saved: U.Saved, upload: U.Script)
    requires U.Uploadable(|file|, override) && U.IsScript(file, override, saved, upload) && U.StoredNumbers(saved)
    ensures var r := U.Play(file, override, U.Open(saved, upload.own), upload.events);
      U.StoredNumbers(r.saved) && (r.finished ==> CanUpload(|file|, override))
  {
    U.MayStartMeansKnown(saved, upload.own);
    U.PlayKeepsNumbers(file, override, U.Open(saved, upload.own), upload.events);
  }

  /** A run that can get past its upload keeps everything in order for a later one that can. */
  lemma ReadyRunKeepsReady(obj: Bytes, own: Sizes, z: Sizes, m: Mishaps, w: World, run: TaskRun)
    requires AreSizes(|obj|, own) && AreSizes(|obj|, z) && IsWorld(w) && IsTaskRun(obj, own, w, run)
    requires Allowed(obj, own, w, run, m) && FitsTears(|obj|, z, own, m)
    requires CanUpload(|obj|, own.up) && CanUpload(|obj|, z.up) && !IsHazard(|obj|, own, z, m)
    requires IsReady(obj, own, m, w) && IsReady(obj, z, m, w)
    ensures IsReadyOrSealed(obj, z, m, AfterTaskRun(obj, own, w, run))
  {
    if !run.Staging? {
      T.TrustedRunCompletes(obj, own.down, m.tears, w.disk, run.download);
    }
    StoreStaysReady(obj, own, z, w, run);
    if !OutlivesStaging(obj, run, m) {
      DiskStaysReady(obj, own, z, m, w, run);
    } else {
      FinishedMeansForgotten(obj, own.up, w.saved, run.upload);
      StoreIsSealed(obj, own, m, w, run);
    }
  }

  /** The sidecar of a non-empty object may be left without its staging file. */
  predicate OutlivesStaging(obj: Bytes, run: TaskRun, m: Mishaps) {
    run.Uploaded? && run.removed && m.sidecarMayStay && |obj| > 0
  }

  lemma DiskStaysReady(obj: Bytes, own: Sizes, z: Sizes, m: Mishaps, w: World, run: TaskRun)
    requires AreSizes(|obj|, own) && AreSizes(|obj|, z) && IsWorld(w) && IsTaskRun(obj, own, w, run)
    requires Allowed(obj, own, w, run, m) && FitsTears(|obj|, z, own, m) && !OutlivesStaging(obj, run, m)
    requires !Grows(|obj|, own, z) && !Misreads(|obj|, z, m) && T.Trusts(obj, z.down, m.tears, w.disk)
    ensures var after := AfterTaskRun(obj, own, w, run).disk;
      T.Trusts(obj, z.down, m.tears, after) && T.ReadsRight(obj, z.down, after)
  {
    DownloadKeepsTrust(obj, own, z, m, w, run);
    if run.Uploaded? && run.removed && !m.sidecarMayStay {
      T.NothingWrittenIsTrusted(obj, z.down, m.tears, AfterTaskRun(obj, own, w, run).disk);
    }
  }

  lemma StoreStaysReady(obj: Bytes, own: Sizes, z: Sizes, w: World, run: TaskRun)
    requires AreSizes(|obj|, own) && AreSizes(|obj|, z) && IsWorld(w) && IsTaskRun(obj, own, w, run)
    requires CanUpload(|obj|, own.up) && !CutsDifferently(|obj|, own, z)
    requires !run.Staging? ==> T.AfterRun(obj, w.disk, own.down, run.download).file == Some(obj)
    requires U.IsMultipart(obj) ==> U.StoredSlices(obj, RunPartSize(|obj|, z.up), w.saved)
    ensures U.IsMultipart(obj) ==> U.StoredSlices(obj, RunPartSize(|obj|, z.up), AfterTaskRun(obj, own, w, run).saved)
    ensures run.Uploaded? ==> AfterTaskRun(obj, own, w, run).saved.remote.dest == Some(obj)
  {
    if !run.Staging? {
      ReadyUpload(obj, own, z, w.saved, run.upload);
    }
  }

  lemma StoreIsSealed(obj: Bytes, own: Sizes, m: Mishaps, w: World, run: TaskRun)
    requires AreSizes(|obj|, own) && IsWorld(w) && IsTaskRun(obj, own, w, run) && run.Uploaded? && IsLarge(|obj|)
    requires T.AfterRun(obj, w.disk, own.down, run.download).file == Some(obj)
    requires AfterTaskRun(obj, own, w, run).saved.remote.dest == Some(obj)
    requires var r := U.Play(obj, own.up, U.Open(w.saved, run.upload.own), run.upload.events);
      r.finished ==> U.Current(r.saved).Some? && U.Current(r.saved).value !in r.saved.remote.uploads
    ensures IsSealed(obj, AfterTaskRun(obj, own, w, run))
  {
  }

  /** The download keeps the later run's trust in the staging file. */
  lemma DownloadKeepsTrust(obj: Bytes, own: Sizes, z: Sizes, m: Mishaps, w: World, run: TaskRun)
    requires AreSizes(|obj|, own) && AreSizes(|obj|, z) && IsWorld(w) && IsTaskRun(obj, own, w, run)
    requires Allowed(obj, own, w, run, m) && FitsTears(|obj|, z, own, m)
    requires !Grows(|obj|, own, z) && !Misreads(|obj|, z, m) && T.Trusts(obj, z.down, m.tears, w.disk)
    ensures var after := T.AfterRun(obj, w.disk, own.down, run.download);
      T.Trusts(obj, z.down, m.tears, after) && T.ReadsRight(obj, z.down, after)
  {
    T.RunKeepsTrust(obj, own.down, z.down, m.tears, w.disk, run.download);
    HarmlessUnlessMisread(|obj|, z, m);
    T.HarmlessReadsRight(obj, z.down, m.tears, T.AfterRun(obj, w.disk, own.down, run.download));
  }

  /** It keeps the object, too. */
  lemma ReadyRunKeepsObject(obj: Bytes, own: Sizes, m: Mishaps, w: World, run: TaskRun)
    requires AreSizes(|obj|, own) && IsWorld(w) && IsTaskRun(obj, own, w, run) && Allowed(obj, own, w, run, m)
    requires Keeps(obj, w) && (CanUpload(|obj|, own.up) ==> IsReadyOrSealed(obj, own, m, w))
    ensures Keeps(obj, AfterTaskRun(obj, own, w, run))
    ensures run.Uploaded? ==> AfterTaskRun(obj, own, w, run).saved.remote.dest == Some(obj)
  {
    if !run.Staging? {
      var file := T.AfterRun(obj, w.disk, own.down, run.download).file.value;
      NumbersKept(file, own.up, w.saved, run.upload);
      if run.Uploaded? {
        if IsReady(obj, own, m, w) {
          T.TrustedRunCompletes(obj, own.down, m.tears, w.disk, run.download);
          ReadyUpload(obj, own, own, w.saved, run.upload);
        } else {
          SealedRunDoesNothing(obj, own, m, w, run);
        }
      }
    }
  }

  lemma RunKeepsInv(obj: Bytes, sizes: seq<Sizes>, m: Mishaps, w: World, n: nat, run: TaskRun)
    requires AllSizes(|obj|, sizes) && SizesFit(|obj|, sizes, m) && NoHazard(|obj|, sizes, m)
    requires n < |sizes| && IsWorld(w) && Inv(obj, sizes, m, w, n)
    requires IsTaskRun(obj, sizes[n], w, run) && Allowed(obj, sizes[n], w, run, m)
    ensures Inv(obj, sizes, m, AfterTaskRun(obj, sizes[n], w, run), n + 1)
    ensures run.Uploaded? ==> AfterTaskRun(obj, sizes[n], w, run).saved.remote.dest == Some(obj)
  {
    ReadyRunKeepsObject(obj, sizes[n], m, w, run);
    forall k | n + 1 <= k < |sizes| && CanUpload(|obj|, sizes[k].up)
      ensures IsReadyOrSealed(obj, sizes[k], m, AfterTaskRun(obj, sizes[n], w, run))
    {
      assert !IsHazard(|obj|, sizes[n], sizes[k], m);
      assert FitsTears(|obj|, sizes[n], sizes[0], m) && FitsTears(|obj|, sizes[k], sizes[0], m);
      RunBeforeLater(obj, sizes[n], sizes[k], m, w, run);
    }
  }

  lemma RunBeforeLater(obj: Bytes, own: Sizes, z: Sizes, m: Mishaps, w: World, run: TaskRun)
    requires AreSizes(|obj|, own) && AreSizes(|obj|, z) && IsWorld(w) && IsTaskRun(obj, own, w, run)
    requires Allowed(obj, own, w, run, m) && FitsTears(|obj|, z, own, m)
    requires CanUpload(|obj|, z.up) && !IsHazard(|obj|, own, z, m)
    requires CanUpload(|obj|, own.up) ==> IsReadyOrSealed(obj, own, m, w)
    requires IsReadyOrSealed(obj, z, m, w)
    ensures IsReadyOrSealed(obj, z, m, AfterTaskRun(obj, own, w, run))
  {
    if IsLarge(|obj|) {
      SameFit(|obj|, own.up, z.up);
    }
    if !m.staleMayStart && IsSealed(obj, w) {
      SealedRunDoesNothing(obj, own, m, w, run);
    } else {
      ReadyRunKeepsReady(obj, own, z, m, w, run);
    }
  }

  lemma FreshIsReady(obj: Bytes, sizes: seq<Sizes>, m: Mishaps, w: World)
    requires AllSizes(|obj|, sizes) && IsWorld(w) && IsFresh(obj, w)
    ensures Inv(obj, sizes, m, w, 0)
  {
    forall k | 0 <= k < |sizes| ensures IsReady(obj, sizes[k], m, w) {
      T.NothingWrittenIsTrusted(obj, sizes[k].down, m.tears, w.disk);
    }
  }

  lemma {:induction false} RunsKeepInv(obj: Bytes, sizes: seq<Sizes>, m: Mishaps, w: World, runs: seq<TaskRun>)
    requires AllSizes(|obj|, sizes) && SizesFit(|obj|, sizes, m) && NoHazard(|obj|, sizes, m)
    requires |runs| <= |sizes| && IsWorld(w) && IsFresh(obj, w) && AreTaskRuns(obj, sizes, m, w, runs)
    ensures Inv(obj, sizes, m, After(obj, sizes, m, w, runs), |runs|)
  {
    if runs == [] {
      FreshIsReady(obj, sizes, m, w);
    } else {
      var n := |runs| - 1;
      RunsKeepInv(obj, sizes, m, w, runs[..n]);
      RunKeepsInv(obj, sizes, m, After(obj, sizes, m, w, runs[..n]), n, runs[n]);
    }
  }

  /** Whenever a run got past its upload, the destination holds the object: a finished copy or move is a
      true one. */
  lemma UploadedMeansCopied(obj: Bytes, sizes: seq<Sizes>, m: Mishaps, w: World, runs: seq<TaskRun>)
    requires AllSizes(|obj|, sizes) && SizesFit(|obj|, sizes, m) && NoHazard(|obj|, sizes, m)
    requires |runs| <= |sizes| && IsWorld(w) && IsFresh(obj, w) && AreTaskRuns(obj, sizes, m, w, runs)
    requires runs != [] && runs[|runs| - 1].Uploaded?
    ensures After(obj, sizes, m, w, runs).saved.remote.dest == Some(obj)
  {
    var front, run := runs[..|runs| - 1], runs[|runs| - 1];
    RunsKeepInv(obj, sizes, m, w, front);
    RunKeepsInv(obj, sizes, m, After(obj, sizes, m, w, front), |front|, run);
  }

  /** Once the source is deleted, the destination holds the object, and nothing the task can still do changes
      that. */
  lemma {:induction false} DeletedMeansCopied(
    obj: Bytes, sizes: seq<Sizes>, m: Mishaps, w: World, runs: seq<TaskRun>, n: nat)
    requires AllSizes(|obj|, sizes) && SizesFit(|obj|, sizes, m) && NoHazard(|obj|, sizes, m)
    requires |runs| <= |sizes| && IsWorld(w) && IsFresh(obj, w) && AreTaskRuns(obj, sizes, m, w, runs) && n <= |runs|
    ensures AreTaskRuns(obj, sizes, m, w, runs[..n])
    ensures After(obj, sizes, m, w, runs[..n]).source == None ==>
      && After(obj, sizes, m, w, runs).source == None
      && After(obj, sizes, m, w, runs).saved.remote.dest == Some(obj)
  {
    RunsKeepInv(obj, sizes, m, w, runs);
    if n < |runs| {
      var front := runs[..|runs| - 1];
      assert front[..n] == runs[..n];
      DeletedMeansCopied(obj, sizes, m, w, front, n);
    } else {
      assert runs[..n] == runs;
    }
  }

  // ----- with a hazard -----

  function FirstWorld(obj: Bytes): World {
    World(Some(obj), T.TextDisk(None, []), U.NothingStored())
  }

  lemma {:induction false} IdleRuns(obj: Bytes, sizes: seq<Sizes>, m: Mishaps, w: World, runs: seq<TaskRun>, n: nat)
    returns (all: seq<TaskRun>)
    requires AllSizes(|obj|, sizes) && |runs| + n <= |sizes| && IsWorld(w) && AreTaskRuns(obj, sizes, m, w, runs)
    ensures |all| == |runs| + n && AreTaskRuns(obj, sizes, m, w, all)
    ensures After(obj, sizes, m, w, all) == After(obj, sizes, m, w, runs)
  {
    all := runs;
    if n > 0 {
      var front := IdleRuns(obj, sizes, m, w, runs, n - 1);
      OneMoreRun(obj, sizes, m, w, front, |front|, After(obj, sizes, m, w, runs), Staging(T.NotOpened));
      all := front + [Staging(T.NotOpened)];
    }
  }

  lemma OneMoreRun(
    obj: Bytes, sizes: seq<Sizes>, m: Mishaps, w: World, runs: seq<TaskRun>, i: nat, now: World, last: TaskRun)
    requires AllSizes(|obj|, sizes) && |runs| == i < |sizes| && IsWorld(w) && AreTaskRuns(obj, sizes, m, w, runs)
    requires now == After(obj, sizes, m, w, runs)
    requires IsTaskRun(obj, sizes[i], now, last) && Allowed(obj, sizes[i], now, last, m)
    ensures AreTaskRuns(obj, sizes, m, w, runs + [last])
    ensures After(obj, sizes, m, w, runs + [last]) == AfterTaskRun(obj, sizes[i], now, last)
  {
    assert (runs + [last])[..|runs|] == runs;
  }

  /** A run at position i, one at position k, and nothing in between. */
  lemma TwoRuns(obj: Bytes, sizes: seq<Sizes>, m: Mishaps, i: nat, run1: TaskRun, k: nat, run2: TaskRun)
    returns (runs: seq<TaskRun>)
    requires AllSizes(|obj|, sizes) && i < k < |sizes|
    requires IsTaskRun(obj, sizes[i], FirstWorld(obj), run1) && Allowed(obj, sizes[i], FirstWorld(obj), run1, m)
    requires var w1 := AfterTaskRun(obj, sizes[i], FirstWorld(obj), run1);
      && IsTaskRun(obj, sizes[k], w1, run2) && Allowed(obj, sizes[k], w1, run2, m)
      && !IsKept(obj, AfterTaskRun(obj, sizes[k], w1, run2))
    ensures IsLoss(obj, sizes, m, FirstWorld(obj), runs)
  {
    var w1 := AfterTaskRun(obj, sizes[i], FirstWorld(obj), run1);
    var first := RunAt(obj, sizes, m, FirstWorld(obj), [], i, FirstWorld(obj), run1);
    runs := RunAt(obj, sizes, m, FirstWorld(obj), first, k, w1, run2);
  }

  lemma RunAt(
    obj: Bytes, sizes: seq<Sizes>, m: Mishaps, w: World, runs: seq<TaskRun>, i: nat, now: World, last: TaskRun)
    returns (all: seq<TaskRun>)
    requires AllSizes(|obj|, sizes) && |runs| <= i < |sizes| && IsWorld(w) && AreTaskRuns(obj, sizes, m, w, runs)
    requires now == After(obj, sizes, m, w, runs)
    requires IsTaskRun(obj, sizes[i], now, last) && Allowed(obj, sizes[i], now, last, m)
    ensures |all| == i + 1 && AreTaskRuns(obj, sizes, m, w, all)
    ensures After(obj, sizes, m, w, all) == AfterTaskRun(obj, sizes[i], now, last)
  {
    var front := IdleRuns(obj, sizes, m, w, runs, i - |runs|);
    OneMoreRun(obj, sizes, m, w, front, i, now, last);
    all := front + [last];
  }

  /** A run whose staging file is wrong, but that goes to the end. */
  lemma WrongFileIsMoved(obj: Bytes, z: Sizes, w: World, download: T.TextScript, own: Option<U.UploadId>)
    returns (run: TaskRun)
    requires AreSizes(|obj|, z) && IsWorld(w) && IsDownload(obj, z, w, download) && ReturnedNil(download)
    requires var file := T.AfterRun(obj, w.disk, z.down, download).file;
      file.Some? && |file.value| == |obj| && file.value != obj
    requires CanUpload(|obj|, z.up) && U.MayStart(w.saved, own, true) && (IsLarge(|obj|) ==> own.None?)
    ensures IsTaskRun(obj, z, w, run) && run.Uploaded? && run.download == download && run.upload.own == own
    ensures !IsKept(obj, AfterTaskRun(obj, z, w, run))
  {
    var file := T.AfterRun(obj, w.disk, z.down, download).file.value;
    var events := U.RunToTheEnd(file, z.up, w.saved, own);
    run := Uploaded(download, U.Script(own, events), true, true);
  }

  /** A download over whole lines is one over the set they record. */
  lemma DownloadOnSet(obj: Bytes, z: Sizes, m: Mishaps, w: World, script: D.Script) returns (download: T.TextScript)
    requires AreSizes(|obj|, z) && T.AreAllowed(T.NeverTorn, w.disk.writes) && w.source.Some?
    requires D.IsScript(obj, T.ReadBack(w.disk), z.down, script)
    ensures download == T.LiftScript(script) && IsDownload(obj, z, w, download)
    ensures T.IsAllowed(obj, w.disk, z.down, m.tears, download)
    ensures var after := T.AfterRun(obj, w.disk, z.down, download);
      && T.AreAllowed(T.NeverTorn, after.writes)
      && T.ReadBack(after) == D.AfterRun(obj, T.ReadBack(w.disk), z.down, script)
  {
    download := T.LiftScript(script);
    T.LiftedRun(obj, w.disk, z.down, m.tears, script);
    T.LiftedRunIsSetRun(obj, w.disk, z.down, script);
  }

  lemma FirstReads(obj: Bytes)
    ensures T.ReadBack(FirstWorld(obj).disk) == D.Disk(None, {})
  {
    ReadNothing();
  }

  lemma GrownMove(totalBytes: nat, z: Sizes, m: Mishaps, w: World, hole: nat) returns (run: TaskRun)
    requires AreSizes(totalBytes, z) && CanUpload(totalBytes, z.up) && w.saved == U.NothingStored()
    requires w.source.Some? && T.AreAllowed(T.NeverTorn, w.disk.writes)
    requires T.ReadBack(w.disk).sidecar == {0} && w.disk.file.Some? && |w.disk.file.value| == totalBytes
    requires hole < EffectiveSize(totalBytes, z.down) && w.disk.file.value[hole] == 0
    ensures IsTaskRun(Ones(totalBytes), z, w, run) && run.Uploaded? && Allowed(Ones(totalBytes), z, w, run, m)
    ensures !IsKept(Ones(totalBytes), AfterTaskRun(Ones(totalBytes), z, w, run))
  {
    var obj := Ones(totalBytes);
    var script := D.GrownRunMissesByte(totalBytes, T.ReadBack(w.disk), z.down, hole);
    var download := DownloadOnSet(obj, z, m, w, script);
    assert T.AfterRun(obj, w.disk, z.down, download).file.value[hole] != obj[hole];
    run := WrongFileIsMoved(obj, z, w, download, None);
  }

  lemma GrowthLoses(totalBytes: nat, sizes: seq<Sizes>, m: Mishaps, i: nat, k: nat) returns (runs: seq<TaskRun>)
    requires AllSizes(totalBytes, sizes) && i < k < |sizes|
    requires CanUpload(totalBytes, sizes[k].up) && Grows(totalBytes, sizes[i], sizes[k])
    ensures IsLoss(Ones(totalBytes), sizes, m, FirstWorld(Ones(totalBytes)), runs)
  {
    var obj := Ones(totalBytes);
    FirstReads(obj);
    var first := D.FirstSegmentOnly(totalBytes, sizes[i].down);
    var download := DownloadOnSet(obj, sizes[i], m, FirstWorld(obj), first);
    var w1 := AfterTaskRun(obj, sizes[i], FirstWorld(obj), Staging(download));
    var run2 := GrownMove(totalBytes, sizes[k], m, w1, EffectiveSize(totalBytes, sizes[i].down));
    runs := TwoRuns(obj, sizes, m, i, Staging(download), k, run2);
  }

  /** An undisturbed download. */
  lemma WholeDownload(obj: Bytes, z: Sizes, m: Mishaps, w: World, removed: bool) returns (download: T.TextScript)
    requires AreSizes(|obj|, z) && w.source.Some? && w.disk.writes == []
    ensures IsDownload(obj, z, w, download) && T.IsAllowed(obj, w.disk, z.down, m.tears, download)
    ensures ReturnedNil(download) && download.ending.removed == removed
    ensures var after := T.AfterRun(obj, w.disk, z.down, download);
      && after.file == Some(obj) && T.AreAllowed(T.NeverTorn, after.writes) && (removed ==> after.writes == [])
      && (!removed && |obj| > 0 ==> 0 in T.ReadBack(after).sidecar)
  {
    ReadNothing();
    var script := D.WholeRun(obj, T.ReadBack(w.disk), z.down, removed);
    download := DownloadOnSet(obj, z, m, w, script);
  }

  /** The first part of another size goes first, and the rest does not fit. */
  lemma DifferentCutsLose(totalBytes: nat, sizes: seq<Sizes>, m: Mishaps, i: nat, k: nat) returns (runs: seq<TaskRun>)
    requires AllSizes(totalBytes, sizes) && i < k < |sizes|
    requires CanUpload(totalBytes, sizes[k].up) && CutsDifferently(totalBytes, sizes[i], sizes[k])
    ensures IsLoss(Ones(totalBytes), sizes, m, FirstWorld(Ones(totalBytes)), runs)
  {
    var obj := Ones(totalBytes);
    var w, size := FirstWorld(obj), RunPartSize(totalBytes, sizes[i].up);
    CeilDivIsCeiling(totalBytes, size);
    U.SliceIsRange(obj, size, 1);
    var down1 := WholeDownload(obj, sizes[i], m, w, true);
    var up1 := U.FirstPartOnly(obj, sizes[i].up);
    var run1 := Uploading(down1, U.Script(None, up1));
    var w1 := AfterTaskRun(obj, sizes[i], w, run1);
    var down2 := WholeDownload(obj, sizes[k], m, w1, true);
    var up2 := U.OddFirstPart(obj, sizes[k].up, U.SliceBytes(obj, size, 1));
    var run2 := Uploaded(down2, U.Script(Some(0), up2), true, true);
    runs := TwoRuns(obj, sizes, m, i, run1, k, run2);
  }

  /** The first run uploads the object and cannot delete the source; the second finds the stale sidecar,
      uploads zeros over the object, and deletes the source. */
  lemma RepeatLoses(totalBytes: nat, sizes: seq<Sizes>, m: Mishaps, i: nat, k: nat) returns (runs: seq<TaskRun>)
    requires AllSizes(totalBytes, sizes) && i < k < |sizes|
    requires CanUpload(totalBytes, sizes[k].up) && Repeats(totalBytes, sizes[i], m)
    ensures IsLoss(Ones(totalBytes), sizes, m, FirstWorld(Ones(totalBytes)), runs)
  {
    var obj := Ones(totalBytes);
    var w := FirstWorld(obj);
    var down1 := WholeDownload(obj, sizes[i], m, w, false);
    var up1 := U.RunToTheEnd(obj, sizes[i].up, w.saved, None);
    var run1 := Uploaded(down1, U.Script(None, up1), true, false);
    var w1 := AfterTaskRun(obj, sizes[i], w, run1);
    var run2 := RepeatedMove(totalBytes, sizes[k], m, w1, if IsLarge(totalBytes) then None else U.Current(w1.saved));
    runs := TwoRuns(obj, sizes, m, i, run1, k, run2);
  }

  lemma RepeatedMove(totalBytes: nat, z: Sizes, m: Mishaps, w: World, own: Option<U.UploadId>) returns (run: TaskRun)
    requires AreSizes(totalBytes, z) && CanUpload(totalBytes, z.up) && totalBytes > 0
    requires w.source.Some? && w.disk.file == None && T.AreAllowed(T.NeverTorn, w.disk.writes)
    requires 0 in T.ReadBack(w.disk).sidecar
    requires U.MayStart(w.saved, own, m.staleMayStart) && (IsLarge(totalBytes) ==> own.None?)
    ensures IsTaskRun(Ones(totalBytes), z, w, run) && Allowed(Ones(totalBytes), z, w, run, m)
    ensures !IsKept(Ones(totalBytes), AfterTaskRun(Ones(totalBytes), z, w, run))
  {
    var obj := Ones(totalBytes);
    assert D.Resize(D.Opened(w.disk.file), totalBytes)[0] == 0;
    var script := D.FirstSegmentSkipped(totalBytes, T.ReadBack(w.disk), z.down, 0, true);
    var download := DownloadOnSet(obj, z, m, w, script);
    assert T.AfterRun(obj, w.disk, z.down, download).file.value[0] != obj[0];
    run := WrongFileIsMoved(obj, z, w, download, own);
  }

  /** A run whose sidecar shows a segment nobody fetched. */
  lemma MisledMove(totalBytes: nat, z: Sizes, m: Mishaps, w: World, v: int) returns (run: TaskRun)
    requires AreSizes(totalBytes, z) && CanUpload(totalBytes, z.up)
    requires w.source.Some? && w.saved == U.NothingStored() && T.AreAllowed(m.tears, w.disk.writes)
    requires R.IsInPlan(totalBytes, z.down, v) && v in T.ReadBack(w.disk).sidecar
    requires R.IsHole(totalBytes, w.disk.file, v)
    ensures IsTaskRun(Ones(totalBytes), z, w, run) && Allowed(Ones(totalBytes), z, w, run, m)
    ensures !IsKept(Ones(totalBytes), AfterTaskRun(Ones(totalBytes), z, w, run))
  {
    var download := R.SkipRun(totalBytes, z.down, m.tears, w.disk, v);
    run := WrongFileIsMoved(Ones(totalBytes), z, w, download, None);
  }

  /** In a long plan, the first run tears one line, and the second takes what is left of it for a segment. */
  lemma MisreadLoses(totalBytes: nat, sizes: seq<Sizes>, m: Mishaps, i: nat, k: nat) returns (runs: seq<TaskRun>)
    requires AllSizes(totalBytes, sizes) && i < k < |sizes| && m.tears.TornApart? && SizesFit(totalBytes, sizes, m)
    requires CanUpload(totalBytes, sizes[k].up) && Misreads(totalBytes, sizes[k], m)
    ensures IsLoss(Ones(totalBytes), sizes, m, FirstWorld(Ones(totalBytes)), runs)
  {
    var obj := Ones(totalBytes);
    assert FitsTears(totalBytes, sizes[i], sizes[0], m) && FitsTears(totalBytes, sizes[k], sizes[0], m);
    var first := R.TearEleventh(totalBytes, sizes[i].down, m.tears);
    R.OneRun(obj, T.TextDisk(None, []), sizes[i].down, m.tears, first);
    var w1 := AfterTaskRun(obj, sizes[i], FirstWorld(obj), Staging(first));
    var run2 := MisledMove(totalBytes, sizes[k], m, w1, RunPartSize(totalBytes, sizes[k].down));
    runs := TwoRuns(obj, sizes, m, i, Staging(first), k, run2);
  }

  /** A cross-connection move never loses data, through any pauses, crashes, failures and retries, exactly when
      no run that can get past its upload comes after one that cut the object into shorter segments, cut the
      file into other parts, or could be repeated over a sidecar that outlived its staging file, and none reads
      torn lines with a plan of more than ten segments. */
  lemma NeverLosesIffNoHazard(totalBytes: nat, sizes: seq<Sizes>, m: Mishaps)
    requires AllSizes(totalBytes, sizes) && SizesFit(totalBytes, sizes, m) && !m.tears.TornAnywhere?
    ensures NeverLoses(totalBytes, sizes, m) <==> NoHazard(totalBytes, sizes, m)
  {
    if NoHazard(totalBytes, sizes, m) {
      NoHazardNeverLoses(totalBytes, sizes, m);
    } else {
      var i, k :| 0 <= i < k < |sizes| && IsHazard(totalBytes, sizes[i], sizes[k], m);
      var runs;
      if Grows(totalBytes, sizes[i], sizes[k]) {
        runs := GrowthLoses(totalBytes, sizes, m, i, k);
      } else if CutsDifferently(totalBytes, sizes[i], sizes[k]) {
        runs := DifferentCutsLose(totalBytes, sizes, m, i, k);
      } else if Repeats(totalBytes, sizes[i], m) {
        runs := RepeatLoses(totalBytes, sizes, m, i, k);
      } else {
        runs := MisreadLoses(totalBytes, sizes, m, i, k);
      }
      assert IsLoss(Ones(totalBytes), sizes, m, FirstWorld(Ones(totalBytes)), runs);
    }
  }

  lemma NoHazardNeverLoses(totalBytes: nat, sizes: seq<Sizes>, m: Mishaps)
    requires AllSizes(totalBytes, sizes) && SizesFit(totalBytes, sizes, m) && NoHazard(totalBytes, sizes, m)
    ensures NeverLoses(totalBytes, sizes, m)
  {
    forall obj: Bytes, w: World, runs: seq<TaskRun> | |obj| == totalBytes && IsWorld(w)
      ensures !IsLoss(obj, sizes, m, w, runs)
    {
      if IsLoss(obj, sizes, m, w, runs) {
        RunsKeepInv(obj, sizes, m, w, runs);
      }
    }
  }

  // ----- any number of runs with one size -----

  function Repeated(z: Sizes, n: nat): (sizes: seq<Sizes>)
    ensures |sizes| == n && forall i :: 0 <= i < n ==> sizes[i] == z
  {
    seq(n, _ => z)
  }

  lemma StagingRun(obj: Bytes, z: Sizes, m: Mishaps, w: World, script: T.TextScript)
    requires AreSizes(|obj|, z) && IsWorld(w) && w.source == Some(obj)
    requires T.IsScript(obj, w.disk, z.down, script) && T.IsAllowed(obj, w.disk, z.down, m.tears, script)
    requires script.TextScript? && script.ending.Interrupted?
    ensures IsTaskRun(obj, z, w, Staging(script)) && Allowed(obj, z, w, Staging(script), m)
    ensures AfterTaskRun(obj, z, w, Staging(script)) == w.(disk := T.AfterRun(obj, w.disk, z.down, script))
  {
  }

  /** Interrupted downloads are runs of the task. */
  lemma {:induction false} StagingRuns(
    obj: Bytes, z: Sizes, m: Mishaps, disk: T.TextDisk, scripts: seq<T.TextScript>, n: nat)
    returns (runs: seq<TaskRun>)
    requires AreSizes(|obj|, z) && |scripts| <= n && R.AllInterrupted(scripts) && disk == FirstWorld(obj).disk
    requires T.AreRuns(obj, disk, z.down, m.tears, scripts)
    ensures |runs| == |scripts| && AreTaskRuns(obj, Repeated(z, n), m, FirstWorld(obj), runs)
    ensures After(obj, Repeated(z, n), m, FirstWorld(obj), runs)
         == FirstWorld(obj).(disk := T.AfterRuns(obj, disk, z.down, m.tears, scripts))
  {
    runs := [];
    if scripts != [] {
      var front, left, last := T.LastRun(obj, disk, z.down, m.tears, scripts);
      var before := StagingRuns(obj, z, m, disk, front, n);
      var now := FirstWorld(obj).(disk := left);
      assert last == scripts[|scripts| - 1] && R.AllInterrupted(front);
      StagingRun(obj, z, m, now, last);
      OneMoreRun(obj, Repeated(z, n), m, FirstWorld(obj), before, |front|, now, Staging(last));
      runs := before + [Staging(last)];
    }
  }

  lemma MisreadsInTheEnd(totalBytes: nat, z: Sizes, m: Mishaps) returns (n: nat, runs: seq<TaskRun>)
    requires AreSizes(totalBytes, z) && FitsTears(totalBytes, z, z, m)
    requires CanUpload(totalBytes, z.up) && Misreads(totalBytes, z, m)
    ensures IsLoss(Ones(totalBytes), Repeated(z, n), m, FirstWorld(Ones(totalBytes)), runs)
  {
    var obj := Ones(totalBytes);
    HarmlessUnlessMisread(totalBytes, z, m);
    var scripts, v := R.HarmfulPlanMisleads(totalBytes, z.down, m.tears);
    n := |scripts| + 1;
    var front := StagingRuns(obj, z, m, T.TextDisk(None, []), scripts, n);
    var now := After(obj, Repeated(z, n), m, FirstWorld(obj), front);
    var last := MisledMove(totalBytes, z, m, now, v);
    OneMoreRun(obj, Repeated(z, n), m, FirstWorld(obj), front, |front|, now, last);
    runs := front + [last];
  }

  /** However many runs there are, with one part size throughout: what is left is the sidecar that outlives its
      staging file, of a small object or of a large one restarted from a stale copy of the task, and the torn
      line that spells another segment. */
  lemma OneSizeHazard(totalBytes: nat, z: Sizes, m: Mishaps)
    requires AreSizes(totalBytes, z) && FitsTears(totalBytes, z, z, m)
    ensures (forall n: nat :: NeverLoses(totalBytes, Repeated(z, n), m)) <==>
      || !CanUpload(totalBytes, z.up)
      || (&& !Misreads(totalBytes, z, m)
          && (!m.sidecarMayStay || totalBytes == 0 || (IsLarge(totalBytes) && !m.staleMayStart)))
  {
    if CanUpload(totalBytes, z.up) && Misreads(totalBytes, z, m) {
      var n, runs := MisreadsInTheEnd(totalBytes, z, m);
      assert IsLoss(Ones(totalBytes), Repeated(z, n), m, FirstWorld(Ones(totalBytes)), runs);
      assert !NeverLoses(totalBytes, Repeated(z, n), m);
    } else if CanUpload(totalBytes, z.up) && Repeats(totalBytes, z, m) {
      var runs := RepeatLoses(totalBytes, Repeated(z, 2), m, 0, 1);
      assert IsLoss(Ones(totalBytes), Repeated(z, 2), m, FirstWorld(Ones(totalBytes)), runs);
      assert !NeverLoses(totalBytes, Repeated(z, 2), m);
    } else {
      forall n: nat ensures NeverLoses(totalBytes, Repeated(z, n), m) {
        NoHazardNeverLoses(totalBytes, Repeated(z, n), m);
      }
    }
  }
}
