/**
downloadRange and downloadSegment over a file written in place and a sidecar written as text. Every call is
proved to be one of the runs of SidecarRuns, so what is proved about those holds of it. `net` stands for the
network: for each planned segment the attempts made, and for each attempt the chunk lengths its body
delivers; a body may be longer than its range, and ends with the object. `rooms` says how many bytes of a
segment's line the disk takes, where that is not all of it.
*/
module RangeDownloader {
  import opened PartSizes
  import opened Slices
  import opened Objects
  import opened Sidecar
  import opened TornSidecar
  import opened SidecarRuns
  import D = RangeDownload

  // ----- when a call returns nil -----

  function Total(chunks: seq<nat>): nat {
    if chunks == [] then 0 else Total(chunks[..|chunks| - 1]) + chunks[|chunks| - 1]
  }

  /** What a body of these chunks delivers from where `left` bytes are left of the object. */
  function Delivered(chunks: seq<nat>, left: nat): nat {
    if Total(chunks) < left then Total(chunks) else left
  }

  /** The attempt delivers the segment, no less and no more. */
  predicate Delivers(obj: Bytes, s: Slice, chunks: seq<nat>) {
    0 <= s.offset <= |obj| && Delivered(chunks, |obj| - s.offset) == s.size
  }

  predicate Fetches(obj: Bytes, s: Slice, attempts: seq<seq<nat>>) {
    exists a :: 0 <= a < |attempts| && Delivers(obj, s, attempts[a])
  }

  function AttemptsAt(net: seq<seq<seq<nat>>>, k: nat): seq<seq<nat>> {
    if k < |net| then net[k] else []
  }

  predicate HasRoom(s: Slice, rooms: map<nat, nat>, k: nat) {
    s.offset >= 0 && (k in rooms ==> |Line(s.offset)| <= rooms[k])
  }

  /** The first k segments are recorded, and no other has been worked on. */
  ghost predicate AreFirst(work: map<int, D.Progress>, k: nat) {
    (forall j :: j in work <==> 0 <= j < k) && (forall j :: 0 <= j < k ==> work[j] == D.Recorded)
  }

  /** Some attempt at the segment delivers it, and the disk takes its line. */
  predicate CompletesAt(obj: Bytes, plan: seq<Slice>, net: seq<seq<seq<nat>>>, rooms: map<nat, nat>, k: nat)
    requires k < |plan|
  {
    Fetches(obj, plan[k], AttemptsAt(net, k)) && HasRoom(plan[k], rooms, k)
  }

  predicate AllComplete(obj: Bytes, plan: seq<Slice>, net: seq<seq<seq<nat>>>, rooms: map<nat, nat>) {
    forall k :: 0 <= k < |plan| ==> CompletesAt(obj, plan, net, rooms, k)
  }

  lemma DeliveredMore(chunks: seq<nat>, c: nat, left: nat)
    requires c < |chunks|
    ensures var before := Delivered(chunks[..c], left);
      Delivered(chunks[..c + 1], left) == if chunks[c] < left - before then before + chunks[c] else left
  {
    assert chunks[..c + 1][..c] == chunks[..c];
  }

  // ----- runs -----

  /** The events lead from one state of a run to the other. */
  ghost predicate Leads(obj: Bytes, start: TextRun, trace: seq<TextEvent>, run: TextRun) {
    AreWrites(start.writes) && CanPlay(obj, start, trace) && Play(obj, start, trace) == run
  }

  lemma LeadsOn(obj: Bytes, start: TextRun, trace: seq<TextEvent>, run: TextRun, e: TextEvent)
    requires Leads(obj, start, trace, run) && CanStep(obj, run, e)
    ensures AreWrites(run.writes) && Leads(obj, start, trace + [e], Step(obj, run, e))
    ensures D.FitsObject(obj, AsRun(Step(obj, run, e))) && Step(obj, run, e).plan == run.plan
  {
    PlayMore(obj, start, trace, e);
    StepIsStep(obj, run, e);
  }

  lemma RunEnds(obj: Bytes, disk: TextDisk, override: int, trace: seq<TextEvent>, run: TextRun, ending: D.Ending)
    requires D.Downloadable(obj, override) && AreWrites(disk.writes)
    requires Leads(obj, Open(obj, disk, override), trace, run)
    requires ending.ReturnedNil? ==> D.AllRecorded(AsRun(run))
    ensures IsScript(obj, disk, override, TextScript(trace, ending))
    ensures AfterRun(obj, disk, override, TextScript(trace, ending))
         == TextDisk(Some(run.file), if ending == D.ReturnedNil(true) then [] else run.writes)
  {
  }

  class Downloader {
    /** The local file; an empty array while there is none. */
    var file: array<Byte>
    var present: bool
    const progress: ProgressSidecar
    /** The writes the sidecar's text consists of. */
    ghost var writes: seq<Write>
    /** The run under way, how it started, and its events so far. */
    ghost var start: TextRun
    ghost var trace: seq<TextEvent>
    ghost var run: TextRun

    constructor (initial: array<Byte>)
      ensures file == initial && present && writes == [] && Consistent()
      ensures fresh(progress)
    {
      file, present := initial, true;
      progress := new ProgressSidecar();
      writes, trace := [], [];
      start, run := TextRun([], [], [], map[], {}), TextRun([], [], [], map[], {});
    }

    ghost function DiskView(): TextDisk
      reads this, file
    {
      TextDisk(if present then Some(file[..]) else None, writes)
    }

    ghost predicate Consistent()
      reads this, progress
    {
      && (!present ==> file.Length == 0)
      && AreWrites(writes) && progress.text == HistoryText(writes)
    }

    /** os.Remove of the file. */
    method RemoveFile()
      requires Consistent()
      modifies this`file, this`present
      ensures Consistent() && DiskView() == old(DiskView()).(file := None)
    {
      file, present := new Byte[0], false;
    }

    /** The ghost run shows exactly the present file and sidecar. */
    ghost predicate Valid(obj: Bytes)
      reads this, file, progress
    {
      && Leads(obj, start, trace, run)
      && run == TextRun(file[..], writes, start.plan, run.work, run.torn)
      && D.FitsObject(obj, AsRun(run)) && |obj| <= MAX_INT64
      && AreWrites(writes) && progress.text == HistoryText(writes)
    }

    /** Takes note of an event; the code that follows makes its effect real. */
    ghost method Note(obj: Bytes, e: TextEvent)
      requires Valid(obj) && CanStep(obj, run, e)
      modifies this`trace, this`run, this`writes
      ensures Leads(obj, start, trace, run) && D.FitsObject(obj, AsRun(run))
      ensures AreWrites(old(run).writes) && run == Step(obj, old(run), e) && run.plan == old(run).plan
      ensures writes == run.writes && AreWrites(writes)
    {
      var before := run;
      assert CanStep(obj, before, e);
      LeadsOn(obj, start, trace, before, e);
      trace, run := trace + [e], Step(obj, before, e);
      writes := run.writes;
    }

    /** An attempt begins or ends. */
    ghost method NoteAttempt(obj: Bytes, k: nat, e: D.Event, p: D.Progress)
      requires Valid(obj) && CanStep(obj, run, Do(e)) && e.k == k
      requires (e.Attempt? && p == D.Fetching(0)) || (e.AttemptOk? && p == D.Fetched)
      modifies this`trace, this`run, this`writes
      ensures Valid(obj) && run == old(run).(work := old(run).work[k := p])
    {
      Note(obj, Do(e));
    }

    method Truncate(totalBytes: nat)
      modifies this`file
      ensures fresh(file) && file[..] == D.Resize(old(file[..]), totalBytes)
    {
      var resized := new Byte[totalBytes](_ => 0);
      var n := if file.Length < totalBytes then file.Length else totalBytes;
      for i := 0 to n
        invariant forall k :: 0 <= k < totalBytes ==> resized[k] == if k < i then old(file[..])[k] else 0
        invariant file == old(file) && file[..] == old(file[..])
      {
        resized[i] := file[i];
      }
      file := resized;
    }

    /** One chunk of a response body, copied to its place in the file. */
    method CopyChunk(obj: Bytes, at: nat, n: nat)
      requires at + n <= |obj| == file.Length
      modifies file
      ensures file[..] == D.WriteAt(old(file[..]), obj, at, n)
    {
      for i := 0 to n
        invariant file[..] == D.WriteAt(old(file[..]), obj, at, i)
      {
        file[at + i] := obj[at + i];
      }
    }

    method DeliverChunk(obj: Bytes, k: nat, s: Slice, written: nat, n: nat)
      requires Valid(obj) && CanStep(obj, run, Do(D.Chunk(k, n)))
      requires s == run.plan[k] && written == run.work[k].written
      modifies this`trace, this`run, this`writes, file
      ensures Valid(obj) && run.torn == old(run).torn && run.plan == old(run).plan
      ensures run.work == old(run).work[k := D.Fetching(written + n)]
    {
      Note(obj, Do(D.Chunk(k, n)));
      CopyChunk(obj, s.offset + written, n);
    }

    /** The line of a fetched segment: whole, or cut short, and then the segment fails. */
    method RecordCompleted(obj: Bytes, k: nat, s: Slice, room: nat) returns (ok: bool)
      requires Valid(obj) && CanWrite(obj, run, k) && s == run.plan[k]
      modifies this`trace, this`run, this`writes, progress
      ensures Valid(obj) && AreWrites(old(run).writes) && ok == (|Line(s.offset)| <= room)
      ensures run.plan == old(run).plan
      ensures ok ==> run == Step(obj, old(run), Do(D.Record(k))) && run.torn == old(run).torn
      ensures ok ==> run.work == old(run).work[k := D.Recorded] && run.plan == old(run).plan
      ensures !ok && room > 0 ==> run == Step(obj, old(run), Tear(k, room))
      ensures room == 0 ==> run == old(run)
    {
      ghost var before := writes;
      if |Line(s.offset)| <= room {
        Note(obj, Do(D.Record(k)));
        HistoryMore(before, Whole(s.offset), Line(s.offset));
      } else if room > 0 {
        Note(obj, Tear(k, room));
        assert Line(s.offset)[..room] == Decimal(s.offset)[..room];
        HistoryMore(before, Torn(s.offset, room), Line(s.offset)[..room]);
      } else {
        assert progress.text + "" == progress.text;
      }
      ok := progress.RecordCompleted(s.offset, room);
    }

    /** As much of a chunk as the object has left. */
    method TakeChunk(obj: Bytes, k: nat, s: Slice, written: nat, chunk: nat) returns (now: nat)
      requires Valid(obj) && k < |run.plan| && s == run.plan[k] && written <= |obj| - s.offset
      requires k in run.work && run.work[k] == D.Fetching(written)
      modifies this`trace, this`run, this`writes, file
      ensures Valid(obj) && run.torn == old(run).torn && run.plan == old(run).plan
      ensures run.work == old(run).work[k := D.Fetching(now)]
      ensures now == if chunk < |obj| - s.offset - written then written + chunk else |obj| - s.offset
    {
      var left := |obj| - s.offset - written;
      var n := if chunk < left then chunk else left;
      now := written + n;
      if n > 0 {
        DeliverChunk(obj, k, s, written, n);
      }
    }

    /** Reads the body of one attempt, chunk by chunk, into the file. */
    method ReadBody(obj: Bytes, k: nat, s: Slice, chunks: seq<nat>) returns (written: nat)
      requires Valid(obj) && k < |run.plan| && s == run.plan[k] && k in run.work && run.work[k] == D.Fetching(0)
      modifies this`trace, this`run, this`writes, file
      ensures Valid(obj) && run.torn == old(run).torn && run.plan == old(run).plan
      ensures run.work == old(run).work[k := D.Fetching(written)] && written == Delivered(chunks, |obj| - s.offset)
    {
      written := 0;
      for c := 0 to |chunks|
        invariant 0 <= written <= |obj| - s.offset && written == Delivered(chunks[..c], |obj| - s.offset)
        invariant Valid(obj) && run.torn == old(run).torn && run.plan == old(run).plan
        invariant run.work == old(run).work[k := D.Fetching(written)]
      {
        DeliveredMore(chunks, c, |obj| - s.offset);
        written := TakeChunk(obj, k, s, written, chunks[c]);
      }
      assert chunks[..|chunks|] == chunks;
    }

    /** One attempt: it starts over with its own counter, and succeeds only when the body ended after
        exactly the segment's size. */
    method RunAttempt(obj: Bytes, k: nat, s: Slice, chunks: seq<nat>) returns (ok: bool)
      requires Valid(obj) && CanStep(obj, run, Do(D.Attempt(k))) && s == run.plan[k]
      modifies this`trace, this`run, this`writes, file
      ensures Valid(obj) && k in run.work && run.torn == old(run).torn
      ensures run.work == old(run.work)[k := run.work[k]]
      ensures if ok then run.work[k] == D.Fetched else run.work[k].Fetching?
      ensures run.plan == old(run).plan && ok == Delivers(obj, s, chunks)
    {
      NoteAttempt(obj, k, D.Attempt(k), D.Fetching(0));
      var written := ReadBody(obj, k, s, chunks);
      ok := written == s.size;
      if ok {
        NoteAttempt(obj, k, D.AttemptOk(k), D.Fetched);
      }
    }

    /** downloadSegment: attempts until one succeeds or the policy gives up. */
    method FetchSegment(obj: Bytes, k: nat, s: Slice, attempts: seq<seq<nat>>) returns (ok: bool)
      requires Valid(obj) && k < |run.plan| && s == run.plan[k] && k !in run.work
      modifies this`trace, this`run, this`writes, file
      ensures Valid(obj) && run.torn == old(run).torn
      ensures ok ==> run.work == old(run.work)[k := D.Fetched]
      ensures run.plan == old(run).plan && ok == Fetches(obj, s, attempts)
    {
      ok := false;
      var a := 0;
      while a < |attempts| && !ok
        invariant Valid(obj) && run.torn == old(run).torn && run.plan == old(run).plan && 0 <= a <= |attempts|
        invariant ok == exists b :: 0 <= b < a && Delivers(obj, s, attempts[b])
        invariant k in run.work ==> run.work[k].Fetching? || (ok && run.work[k].Fetched?)
        invariant run.work == old(run.work) || (k in run.work && run.work == old(run.work)[k := run.work[k]])
        invariant ok ==> run.work == old(run.work)[k := D.Fetched]
        decreases |attempts| - a
      {
        ok := RunAttempt(obj, k, s, attempts[a]);
        a := a + 1;
      }
    }

    /** Reads the sidecar, sizes the file and plans the segments. */
    method OpenRun(obj: Bytes, override: int) returns (plan: seq<Slice>)
      requires D.Downloadable(obj, override) && Consistent()
      modifies this
      ensures fresh(file) && present && Valid(obj) && AreWrites(old(writes))
      ensures start == Open(obj, old(DiskView()), override) && run == start && plan == run.plan
    {
      ghost var disk := DiskView();
      var completed := progress.ReadCompletedSegmentOffsets();
      assert file[..] == D.Opened(disk.file);
      Truncate(|obj|);
      present := true;
      plan := PlanDownloadSegments(|obj|, override, completed);
      D.PlanFits(obj, ReadBack(disk), override);
      start, trace, run := Open(obj, disk, override), [], Open(obj, disk, override);
    }

    /** One worker: it fetches its segment and records it. */
    method CompleteSegment(obj: Bytes, plan: seq<Slice>, k: nat, net: seq<seq<seq<nat>>>, rooms: map<nat, nat>)
      returns (ok: bool)
      requires Valid(obj) && plan == run.plan && k < |plan| && k !in run.work && k !in run.torn
      modifies this`trace, this`run, this`writes, file, progress
      ensures Valid(obj) && run.plan == old(run).plan
      ensures ok ==> run.work == old(run).work[k := D.Recorded] && run.torn == old(run).torn
      ensures ok == CompletesAt(obj, plan, net, rooms, k)
    {
      var room := if k in rooms then rooms[k] else |Line(plan[k].offset)|;
      ok := FetchSegment(obj, k, plan[k], AttemptsAt(net, k));
      if ok {
        ok := RecordCompleted(obj, k, plan[k], room);
      }
    }

    /** The segments in plan order, up to the first that fails. */
    method FetchAll(obj: Bytes, plan: seq<Slice>, net: seq<seq<seq<nat>>>, rooms: map<nat, nat>) returns (ok: bool)
      requires Valid(obj) && plan == run.plan && run.work == map[] && run.torn == {}
      modifies this`trace, this`run, this`writes, file, progress
      ensures Valid(obj)
      ensures ok ==> D.AllRecorded(AsRun(run))
      ensures ok == AllComplete(obj, plan, net, rooms)
    {
      var k := 0;
      ok := true;
      while k < |plan| && ok
        invariant 0 <= k <= |plan| && Valid(obj) && plan == run.plan
        invariant ok ==> run.torn == {} && AreFirst(run.work, k)
        invariant forall j :: 0 <= j < k ==> CompletesAt(obj, plan, net, rooms, j)
        invariant !ok ==> k < |plan| && !CompletesAt(obj, plan, net, rooms, k)
        decreases |plan| - k, ok
      {
        ok := CompleteSegment(obj, plan, k, net, rooms);
        if ok {
          k := k + 1;
        }
      }
    }

    /** downloadRange, with its segments one after another. */
    method DownloadRange(obj: Bytes, override: int, net: seq<seq<seq<nat>>>, rooms: map<nat, nat>, removable: bool)
      returns (ok: bool, ghost script: TextScript)
      requires D.Downloadable(obj, override) && Consistent()
      modifies this, file, progress
      ensures present && fresh(file) && file.Length == |obj| && Consistent() && AreWrites(old(writes))
      ensures IsScript(obj, old(DiskView()), override, script)
      ensures DiskView() == AfterRun(obj, old(DiskView()), override, script)
      ensures script.TextScript? && script.ending == if ok then D.ReturnedNil(removable) else D.Interrupted
      ensures ok == AllComplete(obj, Open(obj, old(DiskView()), override).plan, net, rooms)
    {
      ghost var disk := DiskView();
      var plan := OpenRun(obj, override);
      ok := FetchAll(obj, plan, net, rooms);
      script := TextScript(trace, if ok then D.ReturnedNil(removable) else D.Interrupted);
      RunEnds(obj, disk, override, trace, run, script.ending);
      if ok && removable {
        progress.Remove();
        writes := [];
      }
    }
  }
}
