/**
Range downloads over the sidecar as the text it is. A run plans by what it reads, and that is what the
writes of all runs since the last removal left. A write may be cut short, by a crash or a full disk: its
segment's worker then fails, and so does the run, while other workers may still fetch and write.
*/
module SidecarRuns {
  import opened PartSizes
  import opened Slices
  import opened Objects
  import opened Sidecar
  import opened TornSidecar
  import opened TornInARow
  import D = RangeDownload

  /** The local file, and the writes its sidecar's text consists of. */
  datatype TextDisk = TextDisk(file: Option<Bytes>, writes: seq<Write>)

  /** Which writes may be torn: none, some but no two in a row, or any. */
  datatype Tears = NeverTorn | TornApart | TornAnywhere

  /** A run under way; `torn` are the segments whose write was cut short. */
  datatype TextRun = TextRun(
    file: Bytes, writes: seq<Write>, plan: seq<Slice>, work: map<int, D.Progress>, torn: set<int>)

  datatype TextEvent =
    | Do(e: D.Event)             // an event of the download; a record is a whole line
    | Tear(k: int, digits: nat)  // the write for the k-th planned segment stops after so many digits

  datatype TextScript = NotOpened | TextScript(events: seq<TextEvent>, ending: D.Ending)

  predicate AllWhole(writes: seq<Write>) {
    forall i :: 0 <= i < |writes| ==> writes[i].Whole?
  }

  predicate AreAllowed(tears: Tears, writes: seq<Write>) {
    && AreWrites(writes)
    && match tears
       case NeverTorn => AllWhole(writes)
       case TornApart => IsHistory(writes)
       case TornAnywhere => true
  }

  /** The offsets of all writes, read back or not. */
  function Attempted(writes: seq<Write>): set<int> {
    set i | 0 <= i < |writes| :: writes[i].offset as int
  }

  // ----- one run -----

  /** What a run finds. */
  function ReadBack(disk: TextDisk): D.Disk
    requires AreWrites(disk.writes)
  {
    D.Disk(disk.file, ReadText(HistoryText(disk.writes)))
  }

  function Open(obj: Bytes, disk: TextDisk, override: int): TextRun
    requires D.Downloadable(obj, override) && AreWrites(disk.writes)
  {
    var r := D.Open(obj, ReadBack(disk), override);
    TextRun(r.file, disk.writes, r.plan, r.work, {})
  }

  /** The run as it would be over the set of the offsets its writes are about. */
  function AsRun(t: TextRun): D.Run {
    D.Run(t.file, Attempted(t.writes), t.plan, t.work)
  }

  /** The worker of the k-th planned segment has fetched it and not tried to record it. */
  predicate CanWrite(obj: Bytes, t: TextRun, k: int) {
    && |obj| <= MAX_INT64 && D.FitsObject(obj, AsRun(t))
    && 0 <= k < |t.plan| && k in t.work && t.work[k] == D.Fetched && k !in t.torn
  }

  predicate CanStep(obj: Bytes, t: TextRun, e: TextEvent) {
    match e
    case Do(d) => D.CanStep(obj, AsRun(t), d) && (d.Record? ==> CanWrite(obj, t, d.k))
    case Tear(k, digits) => CanWrite(obj, t, k) && 1 <= digits <= |Decimal(t.plan[k].offset)|
  }

  function Step(obj: Bytes, t: TextRun, e: TextEvent): (t': TextRun)
    requires AreWrites(t.writes) && CanStep(obj, t, e)
    ensures AreWrites(t'.writes)
  {
    match e
    case Do(d) =>
      var r := D.Step(obj, AsRun(t), d);
      TextRun(r.file, if d.Record? then t.writes + [Whole(t.plan[d.k].offset)] else t.writes, t.plan, r.work, t.torn)
    case Tear(k, digits) =>
      t.(writes := t.writes + [Torn(t.plan[k].offset, digits)], torn := t.torn + {k})
  }

  predicate CanPlay(obj: Bytes, t: TextRun, events: seq<TextEvent>)
    requires AreWrites(t.writes)
    decreases |events|, 0
  {
    events == [] ||
    var front := events[..|events| - 1];
    CanPlay(obj, t, front) && CanStep(obj, Play(obj, t, front), events[|events| - 1])
  }

  function Play(obj: Bytes, t: TextRun, events: seq<TextEvent>): (t': TextRun)
    requires AreWrites(t.writes) && CanPlay(obj, t, events)
    ensures AreWrites(t'.writes)
    decreases |events|, 1
  {
    if events == [] then t
    else Step(obj, Play(obj, t, events[..|events| - 1]), events[|events| - 1])
  }

  predicate IsScript(obj: Bytes, disk: TextDisk, override: int, script: TextScript)
    requires D.Downloadable(obj, override) && AreWrites(disk.writes)
  {
    script.TextScript? ==>
      && CanPlay(obj, Open(obj, disk, override), script.events)
      && (script.ending.ReturnedNil? ==> D.AllRecorded(AsRun(Play(obj, Open(obj, disk, override), script.events))))
  }

  function AfterRun(obj: Bytes, disk: TextDisk, override: int, script: TextScript): (after: TextDisk)
    requires D.Downloadable(obj, override) && AreWrites(disk.writes) && IsScript(obj, disk, override, script)
    ensures AreWrites(after.writes)
  {
    match script
    case NotOpened => disk
    case TextScript(events, ending) =>
      var t := Play(obj, Open(obj, disk, override), events);
      TextDisk(Some(t.file), if ending == D.ReturnedNil(true) then [] else t.writes)
  }

  /** Everything the run and those before it have written, removed or not, is of the allowed kind. */
  predicate IsAllowed(obj: Bytes, disk: TextDisk, override: int, tears: Tears, script: TextScript)
    requires D.Downloadable(obj, override) && AreWrites(disk.writes) && IsScript(obj, disk, override, script)
  {
    script.TextScript? ==> AreAllowed(tears, Play(obj, Open(obj, disk, override), script.events).writes)
  }

  // ----- sequences of runs -----

  predicate AreRuns(obj: Bytes, disk: TextDisk, override: int, tears: Tears, scripts: seq<TextScript>)
    requires D.Downloadable(obj, override) && AreWrites(disk.writes)
    decreases |scripts|, 0
  {
    scripts == [] ||
    var n := |scripts| - 1;
    && AreRuns(obj, disk, override, tears, scripts[..n])
    && var before := AfterRuns(obj, disk, override, tears, scripts[..n]);
       IsScript(obj, before, override, scripts[n]) && IsAllowed(obj, before, override, tears, scripts[n])
  }

  function AfterRuns(obj: Bytes, disk: TextDisk, override: int, tears: Tears, scripts: seq<TextScript>)
    : (after: TextDisk)
    requires D.Downloadable(obj, override) && AreWrites(disk.writes) && AreRuns(obj, disk, override, tears, scripts)
    ensures AreWrites(after.writes)
    decreases |scripts|, 1
  {
    if scripts == [] then disk
    else
      var n := |scripts| - 1;
      AfterRun(obj, AfterRuns(obj, disk, override, tears, scripts[..n]), override, scripts[n])
  }

  predicate IsBadRun(
    totalBytes: nat, override: int, tears: Tears, obj: Bytes, file: Option<Bytes>, scripts: seq<TextScript>)
    requires Sliceable(totalBytes, RunPartSize(totalBytes, override))
  {
    && |obj| == totalBytes && scripts != [] && AreRuns(obj, TextDisk(file, []), override, tears, scripts)
    && scripts[|scripts| - 1].TextScript? && scripts[|scripts| - 1].ending.ReturnedNil?
    && AfterRuns(obj, TextDisk(file, []), override, tears, scripts).file != Some(obj)
  }

  /** A run that returns nil leaves the file equal to the object. */
  ghost predicate ResumeIsSafe(totalBytes: nat, override: int, tears: Tears)
    requires Sliceable(totalBytes, RunPartSize(totalBytes, override))
  {
    forall obj: Bytes, file: Option<Bytes>, scripts: seq<TextScript> ::
      !IsBadRun(totalBytes, override, tears, obj, file, scripts)
  }

  // ----- what every run keeps -----

  lemma AttemptedMore(writes: seq<Write>, w: Write)
    ensures Attempted(writes + [w]) == Attempted(writes) + {w.offset as int}
  {
    forall o ensures o in Attempted(writes + [w]) <==> o in Attempted(writes) || o == w.offset {
      if o in Attempted(writes) {
        var i :| 0 <= i < |writes| && writes[i].offset as int == o;
        assert (writes + [w])[i].offset as int == o;
      }
      assert (writes + [w])[|writes|].offset == w.offset;
    }
  }

  /** An event of the download does the same to the set of attempted offsets; a torn write adds to it. */
  lemma StepIsStep(obj: Bytes, t: TextRun, e: TextEvent)
    requires AreWrites(t.writes) && CanStep(obj, t, e)
    ensures var t' := Step(obj, t, e);
      && (e.Do? ==> AsRun(t') == D.Step(obj, AsRun(t), e.e))
      && (e.Tear? ==> AsRun(t') == AsRun(t).(sidecar := Attempted(t.writes) + {t.plan[e.k].offset}))
  {
    if e.Tear? {
      AttemptedMore(t.writes, Torn(t.plan[e.k].offset, e.digits));
    } else if e.e.Record? {
      AttemptedMore(t.writes, Whole(t.plan[e.e.k].offset));
    }
  }

  lemma StepKeepsRun(obj: Bytes, t: TextRun, e: TextEvent, size: int)
    requires AreWrites(t.writes) && CanStep(obj, t, e) && D.RunInv(obj, AsRun(t), size)
    ensures var t' := Step(obj, t, e);
      D.RunInv(obj, AsRun(t'), size) && t'.plan == t.plan && Attempted(t.writes) <= Attempted(t'.writes)
  {
    StepIsStep(obj, t, e);
    if e.Do? {
      D.StepKeepsRun(obj, AsRun(t), e.e, size);
    } else {
      D.ShorterHolds(obj, t.file, t.plan[e.k].offset, t.plan[e.k].size, size);
    }
  }

  lemma {:induction false} PlayKeepsRun(obj: Bytes, t: TextRun, events: seq<TextEvent>, size: int)
    requires AreWrites(t.writes) && CanPlay(obj, t, events) && D.RunInv(obj, AsRun(t), size)
    ensures var t' := Play(obj, t, events);
      D.RunInv(obj, AsRun(t'), size) && t'.plan == t.plan && Attempted(t.writes) <= Attempted(t'.writes)
  {
    if events != [] {
      var front := events[..|events| - 1];
      PlayKeepsRun(obj, t, front, size);
      StepKeepsRun(obj, Play(obj, t, front), events[|events| - 1], size);
    }
  }

  /** Every write is about a segment, of the size the run with this override uses, that the file holds; if
      writes may be torn, that segment is one of its plan. */
  ghost predicate Trusts(obj: Bytes, override: int, tears: Tears, disk: TextDisk)
    requires D.Downloadable(obj, override)
  {
    var size := RunPartSize(|obj|, override);
    && AreAllowed(tears, disk.writes)
    && D.SidecarHolds(obj, D.Opened(disk.file), Attempted(disk.writes), size)
    && (!tears.NeverTorn? ==> AllPlanned(size, PartCount(|obj|, size), disk.writes))
  }

  lemma OpenHolds(obj: Bytes, disk: TextDisk, override: int, size: int)
    requires D.Downloadable(obj, override) && AreWrites(disk.writes)
    requires D.SidecarHolds(obj, D.Opened(disk.file), Attempted(disk.writes), size)
    requires D.ReachesAsFar(|obj|, RunPartSize(|obj|, override), size)
    ensures D.RunInv(obj, AsRun(Open(obj, disk, override)), size)
  {
    var own, r := RunPartSize(|obj|, override), AsRun(Open(obj, disk, override));
    forall k | 0 <= k < |r.plan|
      ensures 0 <= r.plan[k].offset < r.plan[k].offset + r.plan[k].size <= |obj|
      ensures r.plan[k].size >= size || r.plan[k].offset + r.plan[k].size == |obj|
    {
      D.PlanEnds(obj, ReadBack(disk).sidecar, own, k);
    }
    forall o | o in r.sidecar ensures D.HoldsObject(obj, r.file, o, size) {
      D.ResizeHolds(obj, D.Opened(disk.file), o, size);
    }
  }

  lemma MultipleIsPlanned(size: int, count: int, n: int)
    requires size > 0 && 0 <= n < count
    ensures IsPlanned(size, count, n * size)
  {
    MultiplyBoth(n + 1, count, size);
    NextOffset(n, size);
    MultiplyBoth(0, n, size);
    NoRemainder(n * size, n, size);
  }

  lemma NoRemainder(a: int, n: int, size: int)
    requires size > 0 && a == n * size
    ensures a % size == 0
  {
    var q, r := a / size, a % size;
    assert a == q * size + r;
    if n > q {
      MultiplyBoth(q + 1, n, size);
      NextOffset(q, size);
    } else if n < q {
      MultiplyBoth(n + 1, q, size);
      NextOffset(n, size);
    }
  }

  lemma PlannedIndex(size: int, count: int, offset: int) returns (n: nat)
    requires size > 0 && IsPlanned(size, count, offset)
    ensures n < count && offset == n * size
  {
    n := offset / size;
    assert offset == n * size;
    if n >= count {
      MultiplyBoth(count, n, size);
    }
  }

  /** A run plans only offsets of its layout. */
  lemma PlanIsPlanned(obj: Bytes, disk: TextDisk, override: int, k: nat)
    requires D.Downloadable(obj, override) && AreWrites(disk.writes) && k < |Open(obj, disk, override).plan|
    ensures var size := RunPartSize(|obj|, override);
      IsPlanned(size, PartCount(|obj|, size), Open(obj, disk, override).plan[k].offset)
  {
    var size := RunPartSize(|obj|, override);
    var layout, s := Layout(|obj|, size), Open(obj, disk, override).plan[k];
    RemainingIsTheRest(layout, ReadBack(disk).sidecar, s);
    var n :| 0 <= n < |layout| && layout[n] == s;
    assert layout[n] == SliceAt(|obj|, size, n);
    MultipleIsPlanned(size, PartCount(|obj|, size), n);
  }

  lemma {:induction false} PlayKeepsPlanned(obj: Bytes, t: TextRun, events: seq<TextEvent>, size: int, count: int)
    requires size > 0 && AreWrites(t.writes) && CanPlay(obj, t, events) && AllPlanned(size, count, t.writes)
    requires forall k :: 0 <= k < |t.plan| ==> IsPlanned(size, count, t.plan[k].offset)
    ensures AllPlanned(size, count, Play(obj, t, events).writes) && Play(obj, t, events).plan == t.plan
  {
    if events != [] {
      PlayKeepsPlanned(obj, t, events[..|events| - 1], size, count);
    }
  }

  /** A run keeps every size's trust that its own segments reach as far as; if writes may be torn, its own. */
  lemma RunKeepsTrust(obj: Bytes, own: int, override: int, tears: Tears, disk: TextDisk, script: TextScript)
    requires D.Downloadable(obj, own) && D.Downloadable(obj, override) && Trusts(obj, override, tears, disk)
    requires D.ReachesAsFar(|obj|, RunPartSize(|obj|, own), RunPartSize(|obj|, override))
    requires tears.NeverTorn? || RunPartSize(|obj|, own) == RunPartSize(|obj|, override)
    requires IsScript(obj, disk, own, script) && IsAllowed(obj, disk, own, tears, script)
    ensures Trusts(obj, override, tears, AfterRun(obj, disk, own, script))
  {
    if script.TextScript? {
      var size, t := RunPartSize(|obj|, override), Open(obj, disk, own);
      OpenHolds(obj, disk, own, size);
      PlayKeepsRun(obj, t, script.events, size);
      if !tears.NeverTorn? {
        forall k | 0 <= k < |t.plan| ensures IsPlanned(size, PartCount(|obj|, size), t.plan[k].offset) {
          PlanIsPlanned(obj, disk, own, k);
        }
        PlayKeepsPlanned(obj, t, script.events, size, PartCount(|obj|, size));
      }
    }
  }

  // ----- when what is read was fetched -----

  /** Every offset of the plan that the text shows is that of a write. */
  ghost predicate ReadsRight(obj: Bytes, override: int, disk: TextDisk)
    requires D.Downloadable(obj, override) && AreWrites(disk.writes)
  {
    var size := RunPartSize(|obj|, override);
    forall o :: IsPlanned(size, PartCount(|obj|, size), o) && o in ReadBack(disk).sidecar ==>
      o in Attempted(disk.writes)
  }

  /** The condition on the plan alone. */
  ghost predicate Harmless(size: int, count: int, tears: Tears)
    requires size > 0
  {
    match tears
    case NeverTorn => true
    case TornApart => TearsAreHarmless(size, count)
    case TornAnywhere => AnyTearsAreHarmless(size, count)
  }

  ghost predicate IsHarmless(totalBytes: nat, override: int, tears: Tears)
    requires Sliceable(totalBytes, RunPartSize(totalBytes, override))
  {
    var size := RunPartSize(totalBytes, override);
    Harmless(size, PartCount(totalBytes, size), tears)
  }

  lemma {:induction false} WholeWritesReadBack(writes: seq<Write>)
    requires AreWrites(writes) && AllWhole(writes)
    ensures ReadText(HistoryText(writes)) == Attempted(writes)
  {
    if writes == [] {
      ReadNothing();
    } else {
      WholeWritesReadBack(writes[1..]);
      ReadDecimal(writes[0].offset, HistoryText(writes[1..]));
      FirstAttempted(writes);
    }
  }

  lemma FirstAttempted(writes: seq<Write>)
    requires writes != []
    ensures Attempted(writes) == {writes[0].offset as int} + Attempted(writes[1..])
  {
    forall o ensures o in Attempted(writes) <==> o == writes[0].offset || o in Attempted(writes[1..]) {
      if o in Attempted(writes) {
        var i :| 0 <= i < |writes| && writes[i].offset as int == o;
        assert i > 0 ==> writes[1..][i - 1].offset as int == o;
      }
      if o in Attempted(writes[1..]) {
        var i :| 0 <= i < |writes[1..]| && writes[1..][i].offset as int == o;
        assert writes[i + 1].offset as int == o;
      }
    }
  }

  lemma HarmlessReadsRight(obj: Bytes, override: int, tears: Tears, disk: TextDisk)
    requires D.Downloadable(obj, override) && Trusts(obj, override, tears, disk)
    requires IsHarmless(|obj|, override, tears)
    ensures ReadsRight(obj, override, disk)
  {
    var size := RunPartSize(|obj|, override);
    var count, writes := PartCount(|obj|, size), disk.writes;
    if tears.NeverTorn? {
      WholeWritesReadBack(writes);
    }
    forall o | IsPlanned(size, count, o) && o in ReadBack(disk).sidecar ensures o in Attempted(writes) {
      if !tears.NeverTorn? {
        if tears.TornApart? {
          assert !IsBadMark(size, count, writes, o);
        } else {
          assert !IsBadSpelling(size, count, writes, o);
        }
        var i :| 0 <= i < |writes| && writes[i].offset == o;
        assert writes[i].offset as int == o;
      }
    }
  }

  lemma {:induction false} RemainingIgnoresOthers(slices: seq<Slice>, completed: set<int>, other: set<int>)
    requires forall n :: 0 <= n < |slices| ==> (slices[n].offset in completed <==> slices[n].offset in other)
    ensures Remaining(slices, completed) == Remaining(slices, other)
  {
    if slices != [] {
      RemainingIgnoresOthers(slices[..|slices| - 1], completed, other);
    }
  }

  /** What the text shows and was written decides the plan alone. */
  lemma PlanOfWritten(obj: Bytes, override: int, disk: TextDisk) returns (written: set<int>)
    requires D.Downloadable(obj, override) && AreWrites(disk.writes) && ReadsRight(obj, override, disk)
    ensures written <= Attempted(disk.writes)
    ensures D.Open(obj, D.Disk(disk.file, written), override).plan == Open(obj, disk, override).plan
  {
    var size, read := RunPartSize(|obj|, override), ReadBack(disk).sidecar;
    var layout := Layout(|obj|, size);
    written := read * Attempted(disk.writes);
    forall n | 0 <= n < |layout| ensures layout[n].offset in read <==> layout[n].offset in written {
      assert layout[n] == SliceAt(|obj|, size, n);
      MultipleIsPlanned(size, PartCount(|obj|, size), n);
    }
    RemainingIgnoresOthers(layout, read, written);
  }

  /** Then a run that returns nil has the whole object. */
  lemma TrustedRunCompletes(obj: Bytes, override: int, tears: Tears, disk: TextDisk, script: TextScript)
    requires D.Downloadable(obj, override) && Trusts(obj, override, tears, disk) && ReadsRight(obj, override, disk)
    requires IsScript(obj, disk, override, script) && script.TextScript? && script.ending.ReturnedNil?
    ensures AfterRun(obj, disk, override, script).file == Some(obj)
  {
    var size, t := RunPartSize(|obj|, override), Open(obj, disk, override);
    var written := PlanOfWritten(obj, override, disk);
    OpenHolds(obj, disk, override, size);
    PlayKeepsRun(obj, t, script.events, size);
    D.CompleteRunHoldsObject(obj, D.Disk(disk.file, written), override, AsRun(Play(obj, t, script.events)));
  }

  lemma NothingWrittenIsTrusted(obj: Bytes, override: int, tears: Tears, disk: TextDisk)
    requires D.Downloadable(obj, override) && disk.writes == []
    ensures Trusts(obj, override, tears, disk) && ReadsRight(obj, override, disk)
  {
    ReadNothing();
  }

  lemma {:induction false} RunsKeepTrust(
    obj: Bytes, override: int, tears: Tears, file: Option<Bytes>, scripts: seq<TextScript>)
    requires D.Downloadable(obj, override) && AreRuns(obj, TextDisk(file, []), override, tears, scripts)
    ensures Trusts(obj, override, tears, AfterRuns(obj, TextDisk(file, []), override, tears, scripts))
  {
    if scripts == [] {
      NothingWrittenIsTrusted(obj, override, tears, TextDisk(file, []));
    } else {
      var front, now, last := LastRun(obj, TextDisk(file, []), override, tears, scripts);
      RunsKeepTrust(obj, override, tears, file, front);
      RunKeepsTrust(obj, override, override, tears, now, last);
    }
  }

  lemma PlayMore(obj: Bytes, t: TextRun, events: seq<TextEvent>, e: TextEvent)
    requires AreWrites(t.writes) && CanPlay(obj, t, events) && CanStep(obj, Play(obj, t, events), e)
    ensures CanPlay(obj, t, events + [e])
    ensures Play(obj, t, events + [e]) == Step(obj, Play(obj, t, events), e)
  {
    assert (events + [e])[..|events|] == events;
  }

  lemma RunMore(
    obj: Bytes, disk: TextDisk, override: int, tears: Tears, scripts: seq<TextScript>, script: TextScript)
    requires D.Downloadable(obj, override) && AreWrites(disk.writes) && AreRuns(obj, disk, override, tears, scripts)
    requires var before := AfterRuns(obj, disk, override, tears, scripts);
      IsScript(obj, before, override, script) && IsAllowed(obj, before, override, tears, script)
    ensures AreRuns(obj, disk, override, tears, scripts + [script])
    ensures AfterRuns(obj, disk, override, tears, scripts + [script])
         == AfterRun(obj, AfterRuns(obj, disk, override, tears, scripts), override, script)
  {
    assert (scripts + [script])[..|scripts|] == scripts;
  }

  lemma LastRun(obj: Bytes, disk: TextDisk, override: int, tears: Tears, scripts: seq<TextScript>)
    returns (front: seq<TextScript>, now: TextDisk, last: TextScript)
    requires D.Downloadable(obj, override) && AreWrites(disk.writes) && AreRuns(obj, disk, override, tears, scripts)
    requires scripts != []
    ensures scripts == front + [last] && front == scripts[..|scripts| - 1]
    ensures AreRuns(obj, disk, override, tears, front) && now == AfterRuns(obj, disk, override, tears, front)
    ensures IsScript(obj, now, override, last) && IsAllowed(obj, now, override, tears, last)
    ensures AfterRuns(obj, disk, override, tears, scripts) == AfterRun(obj, now, override, last)
  {
    front, last := scripts[..|scripts| - 1], scripts[|scripts| - 1];
    now := AfterRuns(obj, disk, override, tears, front);
  }

  // ----- runs of whole lines -----

  function Lift(events: seq<D.Event>): seq<TextEvent> {
    seq(|events|, i requires 0 <= i < |events| => Do(events[i]))
  }

  lemma LiftFront(events: seq<D.Event>)
    requires events != []
    ensures Lift(events)[..|events| - 1] == Lift(events[..|events| - 1])
  {
  }

  /** Any events of the download are events over the text, and all they write is whole lines. */
  lemma {:induction false} LiftPlays(obj: Bytes, t: TextRun, events: seq<D.Event>)
    requires AreWrites(t.writes) && |obj| <= MAX_INT64 && t.torn == {} && D.CanPlay(obj, AsRun(t), events)
    ensures CanPlay(obj, t, Lift(events))
    ensures var t' := Play(obj, t, Lift(events));
      && AsRun(t') == D.Play(obj, AsRun(t), events) && t'.torn == {}
      && t.writes <= t'.writes && AllWhole(t'.writes[|t.writes|..])
  {
    if events != [] {
      var front, e := events[..|events| - 1], events[|events| - 1];
      LiftFront(events);
      LiftPlays(obj, t, front);
      StepIsStep(obj, Play(obj, t, Lift(front)), Do(e));
    }
  }

  /** Whatever else the sidecar says, events do the same to the file and the work. */
  lemma {:induction false} PlayIgnoresSidecar(obj: Bytes, r: D.Run, sidecar: set<int>, events: seq<D.Event>)
    requires D.CanPlay(obj, r, events)
    ensures D.CanPlay(obj, r.(sidecar := sidecar), events)
    ensures var t := D.Play(obj, r.(sidecar := sidecar), events);
      t == D.Play(obj, r, events).(sidecar := t.sidecar)
  {
    if events != [] {
      PlayIgnoresSidecar(obj, r, sidecar, events[..|events| - 1]);
    }
  }

  function LiftScript(script: D.Script): TextScript {
    match script
    case NotOpened => NotOpened
    case Script(events, ending) => TextScript(Lift(events), ending)
  }

  /** A run over the set of what is read is one over the text, with the same file at its end. */
  lemma LiftedRun(obj: Bytes, disk: TextDisk, override: int, tears: Tears, script: D.Script)
    requires D.Downloadable(obj, override) && AreAllowed(tears, disk.writes)
    requires D.IsScript(obj, ReadBack(disk), override, script)
    ensures IsScript(obj, disk, override, LiftScript(script))
    ensures IsAllowed(obj, disk, override, tears, LiftScript(script))
    ensures AfterRun(obj, disk, override, LiftScript(script)).file
         == D.AfterRun(obj, ReadBack(disk), override, script).file
  {
    if script.Script? {
      var t, r := Open(obj, disk, override), D.Open(obj, ReadBack(disk), override);
      PlayIgnoresSidecar(obj, r, Attempted(disk.writes), script.events);
      LiftPlays(obj, t, script.events);
      WholeFollow(tears, disk.writes, Play(obj, t, Lift(script.events)).writes);
    }
  }

  lemma WholeFollow(tears: Tears, before: seq<Write>, after: seq<Write>)
    requires AreAllowed(tears, before) && AreWrites(after) && before <= after && AllWhole(after[|before|..])
    ensures AreAllowed(tears, after)
  {
    forall i | |before| <= i < |after| ensures after[i].Whole? {
      assert after[|before|..][i - |before|].Whole?;
    }
  }

  /** While no write is torn, such a run leaves in the text exactly the set it leaves. */
  lemma LiftedRunIsSetRun(obj: Bytes, disk: TextDisk, override: int, script: D.Script)
    requires D.Downloadable(obj, override) && AreAllowed(NeverTorn, disk.writes)
    requires D.IsScript(obj, ReadBack(disk), override, script)
    ensures IsScript(obj, disk, override, LiftScript(script))
    ensures var after := AfterRun(obj, disk, override, LiftScript(script));
      AreAllowed(NeverTorn, after.writes) && ReadBack(after) == D.AfterRun(obj, ReadBack(disk), override, script)
  {
    LiftedRun(obj, disk, override, NeverTorn, script);
    if script.Script? {
      var t := Open(obj, disk, override);
      WholeWritesReadBack(disk.writes);
      LiftPlays(obj, t, script.events);
      WholeWritesReadBack(Play(obj, t, Lift(script.events)).writes);
      ReadNothing();
    }
  }

  predicate AllDone(events: seq<TextEvent>) {
    forall i :: 0 <= i < |events| ==> events[i].Do?
  }

  function Lowered(events: seq<TextEvent>): seq<D.Event>
    requires AllDone(events)
  {
    seq(|events|, i requires 0 <= i < |events| => events[i].e)
  }

  lemma LoweredMore(events: seq<TextEvent>)
    requires events != [] && AllDone(events[..|events| - 1]) && events[|events| - 1].Do?
    ensures AllDone(events)
    ensures Lowered(events) == Lowered(events[..|events| - 1]) + [events[|events| - 1].e]
    ensures Lowered(events)[..|events| - 1] == Lowered(events[..|events| - 1])
  {
    forall i | 0 <= i < |events| - 1 ensures events[i].Do? {
      assert events[..|events| - 1][i].Do?;
    }
  }

  lemma WholeStep(obj: Bytes, t: TextRun, e: TextEvent)
    requires AreWrites(t.writes) && CanStep(obj, t, e)
    ensures AllWhole(Step(obj, t, e).writes) ==> e.Do? && AllWhole(t.writes)
  {
    var more := Step(obj, t, e).writes;
    assert more[..|t.writes|] == t.writes;
    if e.Tear? {
      assert more[|t.writes|].Torn?;
    }
  }

  lemma {:induction false} UntornIsDone(obj: Bytes, t: TextRun, events: seq<TextEvent>)
    requires AreWrites(t.writes) && CanPlay(obj, t, events) && AllWhole(Play(obj, t, events).writes)
    ensures AllDone(events) && AllWhole(t.writes)
    ensures D.CanPlay(obj, AsRun(t), Lowered(events))
    ensures D.Play(obj, AsRun(t), Lowered(events)) == AsRun(Play(obj, t, events))
  {
    if events != [] {
      var front, e := events[..|events| - 1], events[|events| - 1];
      var now := Play(obj, t, front);
      StepIsStep(obj, now, e);
      WholeStep(obj, now, e);
      UntornIsDone(obj, t, front);
      LoweredMore(events);
    }
  }

  function LowerScript(script: TextScript): D.Script
    requires script.TextScript? ==> AllDone(script.events)
  {
    match script
    case NotOpened => D.NotOpened
    case TextScript(events, ending) => D.Script(Lowered(events), ending)
  }

  /** And while no write is torn, every run over the text is the run over the set of recorded offsets. */
  lemma TextRunIsSetRun(obj: Bytes, disk: TextDisk, override: int, script: TextScript)
    requires D.Downloadable(obj, override) && AreAllowed(NeverTorn, disk.writes)
    requires IsScript(obj, disk, override, script) && IsAllowed(obj, disk, override, NeverTorn, script)
    ensures script.TextScript? ==> AllDone(script.events)
    ensures var after := AfterRun(obj, disk, override, script);
      && AreAllowed(NeverTorn, after.writes) && D.IsScript(obj, ReadBack(disk), override, LowerScript(script))
      && ReadBack(after) == D.AfterRun(obj, ReadBack(disk), override, LowerScript(script))
  {
    if script.TextScript? {
      var t := Open(obj, disk, override);
      UntornIsDone(obj, t, script.events);
      WholeWritesReadBack(disk.writes);
      WholeWritesReadBack(Play(obj, t, script.events).writes);
      ReadNothing();
    }
  }
}
