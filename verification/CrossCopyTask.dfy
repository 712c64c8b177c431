/** runCrossConnectionCopyTask over the downloader and the uploader: every call is a run of CrossCopy. */
module CrossCopyTasks {
  import opened Objects
  import opened CrossCopy
  import opened RangeDownloader
  import opened Slices
  import opened Uploader
  import A = UploadAnswers
  import D = RangeDownload
  import T = SidecarRuns
  import U = MultipartUpload

  /** How the calls of one run end: whether the source answers HeadObject, the two transfers and the sidecar's
      writes, and the outcomes of the removals and of DeleteObject. */
  datatype Outcomes = Outcomes(
    reachable: bool, segments: seq<seq<seq<nat>>>, rooms: map<nat, nat>, sidecarRemoved: bool, upload: A.Net,
    stagingRemoved: bool, deleted: Reply)

  // ----- how far a run gets -----

  /** The download phase returns nil. */
  predicate Downloads(obj: Bytes, z: Sizes, w: World, o: Outcomes)
    requires AreSizes(|obj|, z) && IsWorld(w)
  {
    && w.source.Some? && o.reachable
    && AllComplete(obj, T.Open(obj, w.disk, z.down).plan, o.segments, o.rooms)
  }

  /** The file the upload reads. */
  function Staged(obj: Bytes, z: Sizes, w: World, download: T.TextScript): Bytes
    requires AreSizes(|obj|, z) && IsWorld(w) && IsDownload(obj, z, w, download) && ReturnedNil(download)
  {
    T.AfterRun(obj, w.disk, z.down, download).file.value
  }

  predicate IsDelivered(s: Slice, attempts: seq<seq<nat>>) {
    attempts != [] && Total(attempts[0]) == s.size
  }

  /** Every request of the run gets its answer at once, and the disk takes every line. */
  predicate AllAnswered(obj: Bytes, z: Sizes, w: World, o: Outcomes)
    requires AreSizes(|obj|, z) && IsWorld(w)
  {
    && o.reachable && o.deleted.Seen? && o.rooms == map[] && A.AllAnswered(obj, z.up, o.upload)
    && var plan := T.Open(obj, w.disk, z.down).plan;
       forall k :: 0 <= k < |plan| ==> IsDelivered(plan[k], AttemptsAt(o.segments, k))
  }

  lemma AnsweredDownloads(obj: Bytes, z: Sizes, w: World, o: Outcomes)
    requires AreSizes(|obj|, z) && IsWorld(w) && w.source.Some? && AllAnswered(obj, z, w, o)
    ensures Downloads(obj, z, w, o)
  {
    var plan := T.Open(obj, w.disk, z.down).plan;
    D.PlanFits(obj, T.ReadBack(w.disk), z.down);
    forall k | 0 <= k < |plan| ensures CompletesAt(obj, plan, o.segments, o.rooms, k) {
      assert IsDelivered(plan[k], AttemptsAt(o.segments, k));
      assert Delivers(obj, plan[k], AttemptsAt(o.segments, k)[0]);
    }
  }

  /** What a run is, by the outcomes of its requests. */
  predicate IsRunOf(
    obj: Bytes, z: Sizes, w: World, existing: Option<U.UploadId>, isMove: bool, o: Outcomes, run: TaskRun)
    requires AreSizes(|obj|, z) && IsWorld(w) && IsTaskRun(obj, z, w, run)
  {
    && (run.Staging? <==> !Downloads(obj, z, w, o))
    && (!run.Staging? ==>
          && run.upload.own == existing && run.download.ending.removed == o.sidecarRemoved
          && (run.Uploaded? <==> A.Finishes(Staged(obj, z, w, run.download), z.up, w.saved, existing, o.upload)))
    && (run.Uploaded? ==> run.removed == o.stagingRemoved && run.deleted == (isMove && !o.deleted.Lost?))
  }

  /** A fresh task whose requests are all answered. */
  predicate GoesThrough(obj: Bytes, z: Sizes, w: World, existing: Option<U.UploadId>, o: Outcomes)
    requires AreSizes(|obj|, z) && IsWorld(w)
  {
    IsFresh(obj, w) && existing == None && CanUpload(|obj|, z.up) && AllAnswered(obj, z, w, o)
  }

  /** Its staging file is the object, and the destination gets it. */
  lemma FreshRunUploads(obj: Bytes, z: Sizes, w: World, isMove: bool, o: Outcomes, run: TaskRun)
    requires AreSizes(|obj|, z) && IsWorld(w) && GoesThrough(obj, z, w, None, o)
    requires IsTaskRun(obj, z, w, run) && IsRunOf(obj, z, w, None, isMove, o, run)
    ensures run.Uploaded? && AfterTaskRun(obj, z, w, run).saved.remote.dest == Some(obj)
  {
    AnsweredDownloads(obj, z, w, o);
    T.NothingWrittenIsTrusted(obj, z.down, T.NeverTorn, w.disk);
    T.TrustedRunCompletes(obj, z.down, T.NeverTorn, w.disk, run.download);
    A.AnsweredFinishes(obj, z.up, w.saved, None, o.upload);
    StoreStaysReady(obj, z, z, w, run);
  }

  class CrossCopyTask {
    var source: Option<Bytes>
    var staging: Downloader
    var dest: Uploader

    constructor (source: Option<Bytes>, staging: Downloader, dest: Uploader)
      ensures this.source == source && this.staging == staging && this.dest == dest
    {
      this.source, this.staging, this.dest := source, staging, dest;
    }

    ghost function View(): World
      reads this, staging, staging.file, dest
    {
      World(source, staging.DiskView(), dest.SavedView())
    }

    /** The download phase, unless the source does not answer. */
    method Stage(obj: Bytes, z: Sizes, o: Outcomes) returns (ok: bool, ghost download: T.TextScript)
      requires AreSizes(|obj|, z) && staging.Consistent()
      modifies staging, staging.file, staging.progress
      ensures IsWorld(old(View())) && IsDownload(obj, z, old(View()), download) && staging.Consistent()
      ensures View() == old(View()).(disk := T.AfterRun(obj, old(View()).disk, z.down, download))
      ensures ok ==> ReturnedNil(download) && staging.present && staging.file.Length == |obj|
      ensures ok ==> download.ending.removed == o.sidecarRemoved
      ensures ok == Downloads(obj, z, old(View()), o)
    {
      if source.None? || !o.reachable {
        return false, T.NotOpened;
      }
      ok, download := staging.DownloadRange(obj, z.down, o.segments, o.rooms, o.sidecarRemoved);
    }

    /** After the upload: the staging file goes, and a move deletes its source. */
    method Conclude(isMove: bool, o: Outcomes) returns (ok: bool)
      requires staging.Consistent()
      modifies this`source, staging`file, staging`present
      ensures ok == (!isMove || o.deleted.Seen?) && staging.Consistent()
      ensures View() == World(if isMove && !o.deleted.Lost? then None else old(source),
                              if o.stagingRemoved then old(View()).disk.(file := None) else old(View()).disk,
                              old(View()).saved)
    {
      if o.stagingRemoved {
        staging.RemoveFile();
      }
      ok := true;
      if isMove {
        if !o.deleted.Lost? {
          source := None;
        }
        ok := o.deleted.Seen?;
      }
    }

    /** `existing` is the UploadId in the copy of the task the run was started with. The source is deleted
        only after the destination confirmed the upload; a failed deletion fails the run and leaves both
        copies. */
    method Transfer(obj: Bytes, z: Sizes, isMove: bool, existing: Option<U.UploadId>, o: Outcomes)
      returns (ok: bool, ghost run: TaskRun)
      requires AreSizes(|obj|, z) && staging.Consistent()
      requires dest.IsConsistent() && U.StoredNumbers(dest.SavedView()) && U.MayStart(dest.SavedView(), existing, true)
      modifies this`source, staging, staging.file, staging.progress, dest
      ensures IsWorld(old(View())) && IsTaskRun(obj, z, old(View()), run) && staging.Consistent()
      ensures View() == AfterTaskRun(obj, z, old(View()), run)
      ensures IsRunOf(obj, z, old(View()), existing, isMove, o, run)
      ensures ok == (run.Uploaded? && (!isMove || o.deleted.Seen?))
    {
      ghost var before := View();
      ghost var download: T.TextScript;
      ok, download := Stage(obj, z, o);
      if !ok {
        return false, Staging(download);
      }
      var file := staging.file[..];
      assert file == Staged(obj, z, before, download);
      ghost var upload: U.Script;
      ok, upload := dest.Upload(file, z.up, existing, o.upload);
      if !ok {
        return false, Uploading(download, upload);
      }
      run := Uploaded(download, upload, o.stagingRemoved, isMove && !o.deleted.Lost?);
      ok := Conclude(isMove, o);
    }

    /** The task: it returns nil exactly when both phases did and a move's deletion was answered. Of a fresh
        task whose requests are all answered the destination holds the object, and a move leaves no source. */
    method Run(obj: Bytes, z: Sizes, isMove: bool, existing: Option<U.UploadId>, o: Outcomes)
      returns (ok: bool, ghost run: TaskRun)
      requires AreSizes(|obj|, z) && staging.Consistent()
      requires dest.IsConsistent() && U.StoredNumbers(dest.SavedView()) && U.MayStart(dest.SavedView(), existing, true)
      modifies this`source, staging, staging.file, staging.progress, dest
      ensures IsWorld(old(View())) && IsTaskRun(obj, z, old(View()), run) && staging.Consistent()
      ensures View() == AfterTaskRun(obj, z, old(View()), run)
      ensures IsRunOf(obj, z, old(View()), existing, isMove, o, run)
      ensures ok == (run.Uploaded? && (!isMove || o.deleted.Seen?))
      ensures run.Uploaded? ==> source == if isMove && !o.deleted.Lost? then None else old(source)
      ensures GoesThrough(obj, z, old(View()), existing, o) ==>
        ok && dest.dest == Some(obj) && source == if isMove then None else Some(obj)
    {
      ghost var before := View();
      ok, run := Transfer(obj, z, isMove, existing, o);
      if GoesThrough(obj, z, before, existing, o) {
        FreshRunUploads(obj, z, before, isMove, o, run);
      }
    }
  }
}
