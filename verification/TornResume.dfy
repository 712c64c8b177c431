/**
When resume over a torn sidecar is correct: exactly when the plan is harmless. For a plan that is not there is
a history of interrupted runs, each tearing at most one write, after which a run skips a segment nobody
fetched.
*/
module TornResume {
  import opened PartSizes
  import opened Slices
  import opened Objects
  import opened Sidecar
  import opened TornSidecar
  import opened TornInARow
  import opened SidecarRuns
  import D = RangeDownload

  predicate IsInPlan(totalBytes: nat, override: int, offset: int)
    requires Sliceable(totalBytes, RunPartSize(totalBytes, override))
  {
    var size := RunPartSize(totalBytes, override);
    IsPlanned(size, PartCount(totalBytes, size), offset)
  }

  /** Nobody has fetched the segment at v: its first byte is still zero. */
  predicate IsHole(totalBytes: nat, file: Option<Bytes>, v: int) {
    0 <= v < totalBytes && D.Resize(D.Opened(file), totalBytes)[v] == 0
  }

  predicate AllInterrupted(scripts: seq<TextScript>) {
    forall i :: 0 <= i < |scripts| ==> scripts[i].TextScript? && scripts[i].ending.Interrupted?
  }

  // ----- single runs -----

  lemma InLayout(totalBytes: nat, override: int, offset: int) returns (n: nat)
    requires Sliceable(totalBytes, RunPartSize(totalBytes, override)) && IsInPlan(totalBytes, override, offset)
    ensures var layout := Layout(totalBytes, RunPartSize(totalBytes, override));
      n < |layout| && layout[n].offset == offset && Covers(layout[n], offset) && 0 <= offset < totalBytes
  {
    var size := RunPartSize(totalBytes, override);
    n := PlannedIndex(size, PartCount(totalBytes, size), offset);
    LayoutTiles(totalBytes, size);
    SliceEndsInside(Layout(totalBytes, size), totalBytes, n);
  }

  /** An offset the text does not show is planned; its segment is not v's. */
  lemma InPlan(totalBytes: nat, override: int, disk: TextDisk, offset: int, v: int) returns (k: nat)
    requires Sliceable(totalBytes, RunPartSize(totalBytes, override)) && AreWrites(disk.writes)
    requires IsInPlan(totalBytes, override, offset) && IsInPlan(totalBytes, override, v) && offset != v
    requires offset !in ReadBack(disk).sidecar
    ensures var plan := Open(Ones(totalBytes), disk, override).plan;
      k < |plan| && plan[k].offset == offset && !Covers(plan[k], v)
  {
    var layout := Layout(totalBytes, RunPartSize(totalBytes, override));
    var plan := Open(Ones(totalBytes), disk, override).plan;
    var n := InLayout(totalBytes, override, offset);
    var m := InLayout(totalBytes, override, v);
    RemainingIsTheRest(layout, ReadBack(disk).sidecar, layout[n]);
    k :| 0 <= k < |plan| && plan[k] == layout[n];
    LayoutTiles(totalBytes, RunPartSize(totalBytes, override));
    var only := EachByteOnce(layout, totalBytes, v);
  }

  function FetchEvents(plan: seq<Slice>, k: nat): seq<D.Event>
    requires k < |plan|
  {
    [D.Attempt(k), D.Chunk(k, plan[k].size), D.AttemptOk(k)]
  }

  lemma FetchPlays(obj: Bytes, r: D.Run, k: nat)
    requires D.FitsObject(obj, r) && r.work == map[] && k < |r.plan|
    ensures D.CanPlay(obj, r, FetchEvents(r.plan, k))
    ensures var r' := D.Play(obj, r, FetchEvents(r.plan, k));
      && r'.file == D.WriteAt(r.file, obj, r.plan[k].offset, r.plan[k].size)
      && r'.sidecar == r.sidecar && r'.plan == r.plan && r'.work == map[k := D.Fetched]
  {
    var started := [D.Attempt(k), D.Chunk(k, r.plan[k].size)];
    D.StartOnePlays(obj, r, [], k);
    assert [] + started == started;
    D.PlayMore(obj, r, started, D.AttemptOk(k));
    assert started + [D.AttemptOk(k)] == FetchEvents(r.plan, k);
  }

  predicate NoRecord(events: seq<D.Event>) {
    forall i :: 0 <= i < |events| ==> !events[i].Record?
  }

  lemma {:induction false} NoRecordWritesNothing(obj: Bytes, t: TextRun, events: seq<D.Event>)
    requires AreWrites(t.writes) && CanPlay(obj, t, Lift(events)) && NoRecord(events)
    ensures Play(obj, t, Lift(events)).writes == t.writes
  {
    if events != [] {
      LiftFront(events);
      NoRecordWritesNothing(obj, t, events[..|events| - 1]);
    }
  }

  lemma FetchOverText(obj: Bytes, t: TextRun, k: nat)
    requires AreWrites(t.writes) && |obj| <= MAX_INT64 && t.torn == {}
    requires D.FitsObject(obj, AsRun(t)) && t.work == map[] && k < |t.plan|
    ensures CanPlay(obj, t, Lift(FetchEvents(t.plan, k)))
    ensures Play(obj, t, Lift(FetchEvents(t.plan, k)))
         == TextRun(D.WriteAt(t.file, obj, t.plan[k].offset, t.plan[k].size), t.writes, t.plan,
                    map[k := D.Fetched], {})
  {
    FetchPlays(obj, AsRun(t), k);
    LiftPlays(obj, t, FetchEvents(t.plan, k));
    NoRecordWritesNothing(obj, t, FetchEvents(t.plan, k));
  }

  lemma TearFetched(obj: Bytes, t: TextRun, k: nat, digits: nat)
    requires AreWrites(t.writes) && |obj| <= MAX_INT64 && t.torn == {}
    requires D.FitsObject(obj, AsRun(t)) && t.work == map[] && k < |t.plan|
    requires 1 <= digits <= |Decimal(t.plan[k].offset)|
    ensures var events := Lift(FetchEvents(t.plan, k)) + [Tear(k, digits)];
      && CanPlay(obj, t, events)
      && Play(obj, t, events).writes == t.writes + [Torn(t.plan[k].offset, digits)]
      && Play(obj, t, events).file == D.WriteAt(t.file, obj, t.plan[k].offset, t.plan[k].size)
  {
    FetchOverText(obj, t, k);
    PlayMore(obj, t, Lift(FetchEvents(t.plan, k)), Tear(k, digits));
  }

  /** A run fetches one segment, tears its write, and is interrupted. */
  lemma TearRun(totalBytes: nat, override: int, disk: TextDisk, offset: nat, digits: nat, v: int)
    returns (script: TextScript)
    requires Sliceable(totalBytes, RunPartSize(totalBytes, override)) && AreWrites(disk.writes)
    requires IsInPlan(totalBytes, override, offset) && IsInPlan(totalBytes, override, v) && offset != v
    requires offset !in ReadBack(disk).sidecar && 1 <= digits <= |Decimal(offset)|
    requires IsHole(totalBytes, disk.file, v)
    ensures script.TextScript? && script.ending.Interrupted? && IsScript(Ones(totalBytes), disk, override, script)
    ensures var after := AfterRun(Ones(totalBytes), disk, override, script);
      after.writes == disk.writes + [Torn(offset, digits)] && IsHole(totalBytes, after.file, v)
  {
    var obj, t := Ones(totalBytes), Open(Ones(totalBytes), disk, override);
    var k := InPlan(totalBytes, override, disk, offset, v);
    D.PlanFits(obj, ReadBack(disk), override);
    TearFetched(obj, t, k, digits);
    script := TextScript(Lift(FetchEvents(t.plan, k)) + [Tear(k, digits)], D.Interrupted);
    HoleStays(obj, t.file, t.plan[k], v);
  }

  lemma HoleStays(obj: Bytes, file: Bytes, s: Slice, v: int)
    requires |file| == |obj| && 0 <= s.offset < s.offset + s.size <= |obj| && !Covers(s, v)
    requires 0 <= v < |obj| && file[v] == 0
    ensures IsHole(|obj|, Some(D.WriteAt(file, obj, s.offset, s.size)), v)
  {
  }

  /** A run over a text that shows v skips its segment and returns nil. */
  lemma SkipRun(totalBytes: nat, override: int, tears: Tears, disk: TextDisk, v: int) returns (script: TextScript)
    requires Sliceable(totalBytes, RunPartSize(totalBytes, override)) && AreAllowed(tears, disk.writes)
    requires IsInPlan(totalBytes, override, v) && v in ReadBack(disk).sidecar && IsHole(totalBytes, disk.file, v)
    ensures script.TextScript? && script.ending == D.ReturnedNil(true)
    ensures IsScript(Ones(totalBytes), disk, override, script)
    ensures IsAllowed(Ones(totalBytes), disk, override, tears, script)
    ensures var file := AfterRun(Ones(totalBytes), disk, override, script).file;
      file.Some? && |file.value| == totalBytes && file != Some(Ones(totalBytes))
  {
    var n := InLayout(totalBytes, override, v);
    var skipped := D.SegmentSkipped(totalBytes, ReadBack(disk), override, n, v, true);
    LiftedRun(Ones(totalBytes), disk, override, tears, skipped);
    script := LiftScript(skipped);
    assert Ones(totalBytes)[v] == 1;
  }

  // ----- texts that show a segment nobody fetched -----

  lemma Advance(left: string, rest: string, k: nat, text: string)
    requires k <= |rest| && left + rest == text
    ensures left + rest[..k] + rest[k..] == text && left + rest[..k] <= text
  {
  }

  /** In a short plan the leading digits of an offset, as long as some are missing, are no planned offset. */
  lemma PrefixIsNoOffset(size: int, count: int, v: nat, left: string, offset: int)
    requires 0 < size && count <= 10 && IsPlanned(size, count, v) && v <= MAX_INT64
    requires left <= Decimal(v) && left != Decimal(v) && IsPlanned(size, count, offset)
    ensures offset !in ReadText(left)
  {
    if left == "" {
      ReadNothing();
    } else {
      var p := TornLast(v, |left|);
      assert left == Decimal(v)[..|left|];
      if p == offset {
        DigitsNeedLongPlan(size, count, v, |left|, p);
      }
    }
  }

  /** What the runs so far have made: a text of leading digits of v, whose segment nobody fetched. */
  predicate HasLeft(totalBytes: nat, override: int, scripts: seq<TextScript>, v: nat, left: string)
    requires Sliceable(totalBytes, RunPartSize(totalBytes, override))
  {
    && AllInterrupted(scripts)
    && AreRuns(Ones(totalBytes), TextDisk(None, []), override, TornAnywhere, scripts)
    && var disk := AfterRuns(Ones(totalBytes), TextDisk(None, []), override, TornAnywhere, scripts);
       HistoryText(disk.writes) == left && IsHole(totalBytes, disk.file, v)
  }

  lemma TearMore(
    totalBytes: nat, override: int, v: nat, scripts: seq<TextScript>, left: string, offset: nat, piece: string)
    returns (all: seq<TextScript>)
    requires Sliceable(totalBytes, RunPartSize(totalBytes, override))
    requires IsInPlan(totalBytes, override, v) && IsInPlan(totalBytes, override, offset) && offset != v
    requires HasLeft(totalBytes, override, scripts, v, left) && offset !in ReadText(left)
    requires piece != "" && piece <= Decimal(offset)
    ensures HasLeft(totalBytes, override, all, v, left + piece)
  {
    var disk := AfterRuns(Ones(totalBytes), TextDisk(None, []), override, TornAnywhere, scripts);
    PieceLength(offset, piece);
    var n := InLayout(totalBytes, override, offset);
    var script := TearRun(totalBytes, override, disk, offset, |piece|, v);
    var w := WriteOf(offset, piece);
    HistoryMore(disk.writes, w, piece);
    RunMore(Ones(totalBytes), TextDisk(None, []), override, TornAnywhere, scripts, script);
    all := scripts + [script];
  }

  lemma WriteOf(offset: nat, piece: string) returns (w: Write)
    requires piece != "" && piece <= Decimal(offset) && offset <= MAX_INT64
    ensures w == Torn(offset, |piece|) && IsWrite(w) && Written(w) == piece
  {
    w := Torn(offset, |piece|);
  }

  lemma PieceLength(offset: nat, piece: string)
    requires piece != "" && piece <= Decimal(offset)
    ensures 1 <= |piece| <= |Decimal(offset)|
  {
  }

  /** One more piece. */
  lemma LeaveMore(totalBytes: nat, override: int, v: nat, scripts: seq<TextScript>, left: string, piece: string)
    returns (all: seq<TextScript>)
    requires Sliceable(totalBytes, RunPartSize(totalBytes, override)) && IsInPlan(totalBytes, override, v)
    requires var size := RunPartSize(totalBytes, override);
      PartCount(totalBytes, size) <= 10 && IsPiece(size, PartCount(totalBytes, size), v, piece)
    requires HasLeft(totalBytes, override, scripts, v, left) && left + piece <= Decimal(v) && v <= MAX_INT64
    ensures HasLeft(totalBytes, override, all, v, left + piece)
  {
    var size := RunPartSize(totalBytes, override);
    var count := PartCount(totalBytes, size);
    var offset: nat :| Leaves(size, count, v, offset, piece);
    ProperPrefix(left, piece, Decimal(v));
    PrefixIsNoOffset(size, count, v, left, offset);
    all := TearMore(totalBytes, override, v, scripts, left, offset, piece);
  }

  lemma ProperPrefix(left: string, piece: string, text: string)
    requires piece != "" && left + piece <= text
    ensures left <= text && left != text
  {
  }

  lemma {:induction false} Spell(
    totalBytes: nat, override: int, v: nat, scripts: seq<TextScript>, left: string, rest: string)
    returns (all: seq<TextScript>)
    requires Sliceable(totalBytes, RunPartSize(totalBytes, override)) && IsInPlan(totalBytes, override, v)
    requires var size := RunPartSize(totalBytes, override);
      PartCount(totalBytes, size) <= 10 && IsSpelled(size, PartCount(totalBytes, size), v, rest)
    requires HasLeft(totalBytes, override, scripts, v, left) && left + rest == Decimal(v) && v <= MAX_INT64
    ensures HasLeft(totalBytes, override, all, v, Decimal(v))
    decreases |rest|
  {
    if rest == "" {
      assert left == Decimal(v);
      all := scripts;
    } else {
      var size := RunPartSize(totalBytes, override);
      var count := PartCount(totalBytes, size);
      var k :| 1 <= k <= |rest| && IsPiece(size, count, v, rest[..k]) && IsSpelled(size, count, v, rest[k..]);
      Advance(left, rest, k, Decimal(v));
      var more := LeaveMore(totalBytes, override, v, scripts, left, rest[..k]);
      all := Spell(totalBytes, override, v, more, left + rest[..k], rest[k..]);
    }
  }

  /** The text shows v, whose segment nobody fetched. */
  predicate Misleads(totalBytes: nat, override: int, tears: Tears, scripts: seq<TextScript>, v: int)
    requires Sliceable(totalBytes, RunPartSize(totalBytes, override))
  {
    && IsInPlan(totalBytes, override, v)
    && AllInterrupted(scripts) && AreRuns(Ones(totalBytes), TextDisk(None, []), override, tears, scripts)
    && var disk := AfterRuns(Ones(totalBytes), TextDisk(None, []), override, tears, scripts);
       AreAllowed(tears, disk.writes) && v in ReadBack(disk).sidecar && IsHole(totalBytes, disk.file, v)
  }

  /** One torn write is enough in a long plan: the digits of the eleventh offset spell the second. */
  lemma TearEleventh(totalBytes: nat, override: int, tears: Tears) returns (script: TextScript)
    requires Sliceable(totalBytes, RunPartSize(totalBytes, override)) && !tears.NeverTorn?
    requires PartCount(totalBytes, RunPartSize(totalBytes, override)) > 10
    ensures Misleads(totalBytes, override, tears, [script], RunPartSize(totalBytes, override))
  {
    var disk, size := TextDisk(None, []), RunPartSize(totalBytes, override);
    FirstOffsetsArePlanned(size, PartCount(totalBytes, size));
    var n := InLayout(totalBytes, override, size);
    var m := InLayout(totalBytes, override, 10 * size);
    var w := TornTenfold(size);
    ReadNothing();
    script := TearRun(totalBytes, override, disk, w.offset, w.k, size);
    assert [] + [w] == [w];
    RunMore(Ones(totalBytes), disk, override, tears, [], script);
    assert [] + [script] == [script];
  }

  lemma OneRun(obj: Bytes, disk: TextDisk, override: int, tears: Tears, script: TextScript)
    requires D.Downloadable(obj, override) && AreWrites(disk.writes) && AreRuns(obj, disk, override, tears, [script])
    ensures IsScript(obj, disk, override, script) && IsAllowed(obj, disk, override, tears, script)
    ensures AfterRuns(obj, disk, override, tears, [script]) == AfterRun(obj, disk, override, script)
  {
    assert [script][..0] == [];
    assert AreRuns(obj, disk, override, tears, []) && AfterRuns(obj, disk, override, tears, []) == disk;
  }

  lemma SpelledIsPlanned(totalBytes: nat, override: int)
    requires Sliceable(totalBytes, RunPartSize(totalBytes, override)) && totalBytes > 0
    ensures var size := RunPartSize(totalBytes, override); (PartCount(totalBytes, size) - 1) * size <= MAX_INT64
  {
    CeilDivIsCeiling(totalBytes, RunPartSize(totalBytes, override));
  }

  /** A plan that is not harmless can be misled. */
  lemma HarmfulPlanMisleads(totalBytes: nat, override: int, tears: Tears)
    returns (scripts: seq<TextScript>, v: int)
    requires Sliceable(totalBytes, RunPartSize(totalBytes, override))
    requires !IsHarmless(totalBytes, override, tears)
    requires var size := RunPartSize(totalBytes, override);
      tears.TornApart? ==> IsSegmentSize(size, PartCount(totalBytes, size))
    ensures Misleads(totalBytes, override, tears, scripts, v)
  {
    var size := RunPartSize(totalBytes, override);
    var count := PartCount(totalBytes, size);
    if count > 10 {
      var script := TearEleventh(totalBytes, override, tears);
      scripts, v := [script], size;
    } else {
      HarmlessIff(totalBytes, override);
      var u: nat :| IsPlanned(size, count, u) && IsSpelled(size, count, u, Decimal(u));
      var n := InLayout(totalBytes, override, u);
      v := u;
      assert HasLeft(totalBytes, override, [], u, "");
      assert "" + Decimal(u) == Decimal(u);
      scripts := Spell(totalBytes, override, u, [], "", Decimal(u));
      ReadDecimal(u, "");
    }
  }

  /** The conditions a caller can check. */
  lemma HarmlessIff(totalBytes: nat, override: int)
    requires Sliceable(totalBytes, RunPartSize(totalBytes, override))
    ensures var size := RunPartSize(totalBytes, override);
      var count := PartCount(totalBytes, size);
      && IsHarmless(totalBytes, override, NeverTorn)
      && (IsSegmentSize(size, count) ==> (IsHarmless(totalBytes, override, TornApart) <==> count <= 10))
      && (IsHarmless(totalBytes, override, TornAnywhere) <==>
          forall v: nat :: IsPlanned(size, count, v) ==> !IsSpelled(size, count, v, Decimal(v)))
  {
    var size := RunPartSize(totalBytes, override);
    var count := PartCount(totalBytes, size);
    if totalBytes > 0 {
      SpelledIsPlanned(totalBytes, override);
    } else {
      assert Layout(totalBytes, size) == [];
      MultiplyBoth(count - 1, 0, size);
    }
    AnyTearsAreHarmlessIff(size, count);
    if IsSegmentSize(size, count) {
      TearsAreHarmlessIffTenSegments(size, count);
    }
  }

  /** Resume over the text is correct, for every object and every sequence of interrupted runs, exactly when the
      plan is harmless: always while no write is torn; with at most ten segments while no two torn writes come
      in a row; and with torn writes in any order, in one run or over many, when no planned offset is spelled by
      leading digits of the others. */
  lemma ResumeIsSafeIffHarmless(totalBytes: nat, override: int, tears: Tears)
    requires Sliceable(totalBytes, RunPartSize(totalBytes, override))
    requires var size := RunPartSize(totalBytes, override);
      tears.TornApart? ==> IsSegmentSize(size, PartCount(totalBytes, size))
    ensures ResumeIsSafe(totalBytes, override, tears) <==> IsHarmless(totalBytes, override, tears)
  {
    if IsHarmless(totalBytes, override, tears) {
      forall obj: Bytes, file: Option<Bytes>, scripts: seq<TextScript>
        ensures !IsBadRun(totalBytes, override, tears, obj, file, scripts)
      {
        if IsBadRun(totalBytes, override, tears, obj, file, scripts) {
          NoBadRun(override, tears, obj, file, scripts);
        }
      }
    } else {
      var scripts := MisledRun(totalBytes, override, tears);
      assert IsBadRun(totalBytes, override, tears, Ones(totalBytes), None, scripts);
    }
  }

  lemma NoBadRun(override: int, tears: Tears, obj: Bytes, file: Option<Bytes>, scripts: seq<TextScript>)
    requires D.Downloadable(obj, override) && IsHarmless(|obj|, override, tears)
    ensures !IsBadRun(|obj|, override, tears, obj, file, scripts)
  {
    if scripts != [] && AreRuns(obj, TextDisk(file, []), override, tears, scripts) {
      var front, now, last := LastRun(obj, TextDisk(file, []), override, tears, scripts);
      RunsKeepTrust(obj, override, tears, file, front);
      HarmlessReadsRight(obj, override, tears, now);
      if last.TextScript? && last.ending.ReturnedNil? {
        TrustedRunCompletes(obj, override, tears, now, last);
      }
    }
  }

  lemma MisledRun(totalBytes: nat, override: int, tears: Tears) returns (scripts: seq<TextScript>)
    requires Sliceable(totalBytes, RunPartSize(totalBytes, override))
    requires !IsHarmless(totalBytes, override, tears)
    requires var size := RunPartSize(totalBytes, override);
      tears.TornApart? ==> IsSegmentSize(size, PartCount(totalBytes, size))
    ensures IsBadRun(totalBytes, override, tears, Ones(totalBytes), None, scripts)
  {
    var front, v := HarmfulPlanMisleads(totalBytes, override, tears);
    var disk := AfterRuns(Ones(totalBytes), TextDisk(None, []), override, tears, front);
    var last := SkipRun(totalBytes, override, tears, disk, v);
    RunMore(Ones(totalBytes), TextDisk(None, []), override, tears, front, last);
    scripts := front + [last];
  }
}
