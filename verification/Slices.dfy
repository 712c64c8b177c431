/**
How a transfer is cut into slices: the download plan, the upload part loop and the server-side copy
loop all walk the same ascending, non-empty, disjoint slices that cover the whole object.
*/
module Slices {
  import opened PartSizes

  datatype Slice = Slice(offset: int, size: int)

  /** A length and a slice size whose ceiling division does not overflow. */
  predicate Sliceable(totalBytes: int, size: int) {
    0 <= totalBytes && 0 < size && totalBytes + size - 1 <= MAX_INT64
  }

  /** The n-th slice of the layout: a full one, or the remainder at the end. */
  function SliceAt(totalBytes: int, size: int, n: int): Slice {
    var offset := n * size;
    Slice(offset, if totalBytes - offset < size then totalBytes - offset else size)
  }

  function Layout(totalBytes: int, size: int): (slices: seq<Slice>)
    requires Sliceable(totalBytes, size)
    ensures |slices| == PartCount(totalBytes, size)
    ensures totalBytes == 0 <==> slices == []
    ensures forall n :: 0 <= n < |slices| ==> slices[n] == SliceAt(totalBytes, size, n)
  {
    if totalBytes > 0 then
      CeilDivIsCeiling(totalBytes, size);
      seq(PartCount(totalBytes, size), n => SliceAt(totalBytes, size, n))
    else []
  }

  /** Each slice is non-empty, starts where the one before ends, and the last one ends the object. */
  ghost predicate Tiles(slices: seq<Slice>, totalBytes: int) {
    && (forall n :: 0 <= n < |slices| ==> slices[n].size > 0)
    && (slices == [] ==> totalBytes == 0)
    && (slices != [] ==> slices[0].offset == 0)
    && (forall n :: 0 < n < |slices| ==> slices[n].offset == slices[n - 1].offset + slices[n - 1].size)
    && (slices != [] ==> var last := slices[|slices| - 1]; last.offset + last.size == totalBytes)
  }

  predicate Covers(s: Slice, b: int) {
    s.offset <= b < s.offset + s.size
  }

  lemma NextOffset(n: int, size: int)
    ensures (n + 1) * size == n * size + size
  {
  }

  lemma LayoutTiles(totalBytes: int, size: int)
    requires Sliceable(totalBytes, size)
    ensures Tiles(Layout(totalBytes, size), totalBytes)
  {
    var slices := Layout(totalBytes, size);
    if totalBytes > 0 {
      CeilDivIsCeiling(totalBytes, size);
      NextOffset(|slices| - 1, size);
      forall n | 0 <= n < |slices| ensures slices[n].size > 0 {
        MultiplyBoth(n, |slices| - 1, size);
      }
      forall n | 0 < n < |slices| ensures slices[n].offset == slices[n - 1].offset + slices[n - 1].size {
        MultiplyBoth(n, |slices| - 1, size);
        NextOffset(n - 1, size);
      }
    }
  }

  lemma {:induction false} TilesAscend(slices: seq<Slice>, totalBytes: int, m: nat, n: nat)
    requires Tiles(slices, totalBytes) && m <= n < |slices|
    ensures slices[m].offset <= slices[n].offset
    ensures m < n ==> slices[m].offset + slices[m].size <= slices[n].offset
  {
    if m < n {
      TilesAscend(slices, totalBytes, m, n - 1);
    }
  }

  /** Every byte of the object lies in exactly one slice. */
  lemma {:induction false} EachByteOnce(slices: seq<Slice>, totalBytes: int, b: int) returns (n: nat)
    requires Tiles(slices, totalBytes) && 0 <= b < totalBytes
    ensures n < |slices| && Covers(slices[n], b)
    ensures forall m :: 0 <= m < |slices| && Covers(slices[m], b) ==> m == n
  {
    n := 0;
    while !Covers(slices[n], b)
      invariant n < |slices| && slices[n].offset <= b
      decreases |slices| - n
    {
      n := n + 1;
    }
    forall m | 0 <= m < |slices| && Covers(slices[m], b) ensures m == n {
      if m < n {
        TilesAscend(slices, totalBytes, m, n);
      } else if n < m {
        TilesAscend(slices, totalBytes, n, m);
      }
    }
  }

  /** Slices end inside the object. */
  lemma SliceEndsInside(slices: seq<Slice>, totalBytes: int, n: nat)
    requires Tiles(slices, totalBytes) && n < |slices|
    ensures 0 <= slices[n].offset < slices[n].offset + slices[n].size <= totalBytes
  {
    TilesAscend(slices, totalBytes, 0, n);
    TilesAscend(slices, totalBytes, n, |slices| - 1);
  }

  // ----- the download plan -----

  /** The slices whose offset is not recorded as completed, unchanged and in order. */
  function Remaining(slices: seq<Slice>, completed: set<int>): seq<Slice> {
    if slices == [] then []
    else
      var last := slices[|slices| - 1];
      Remaining(slices[..|slices| - 1], completed) + (if last.offset in completed then [] else [last])
  }

  /** The plan and the skipped slices together are the whole layout. */
  lemma {:induction false} RemainingIsTheRest(slices: seq<Slice>, completed: set<int>, s: Slice)
    ensures s in Remaining(slices, completed) <==> s in slices && s.offset !in completed
  {
    if slices != [] {
      var front, last := slices[..|slices| - 1], slices[|slices| - 1];
      assert slices == front + [last];
      RemainingIsTheRest(front, completed, s);
    }
  }

  ghost predicate Ascending(slices: seq<Slice>) {
    forall m, n :: 0 <= m < n < |slices| ==> slices[m].offset < slices[n].offset
  }

  lemma {:induction false} RemainingAscends(slices: seq<Slice>, completed: set<int>)
    requires Ascending(slices)
    ensures Ascending(Remaining(slices, completed))
  {
    if slices != [] {
      var front, last := slices[..|slices| - 1], slices[|slices| - 1];
      RemainingAscends(front, completed);
      var plan := Remaining(front, completed);
      forall m | 0 <= m < |plan| ensures plan[m].offset < last.offset {
        RemainingIsTheRest(front, completed, plan[m]);
      }
    }
  }

  method PlanDownloadSegments(totalBytes: int, override: int, completed: set<int>) returns (segments: seq<Slice>)
    requires Sliceable(totalBytes, RunPartSize(totalBytes, override))
    ensures segments == Remaining(Layout(totalBytes, RunPartSize(totalBytes, override)), completed)
  {
    var segmentSize := override;
    if segmentSize <= 0 {
      segmentSize := PartSize(totalBytes);
    }
    var segmentCount := PartCount(totalBytes, segmentSize);
    ghost var layout := Layout(totalBytes, segmentSize);
    segments := [];
    var n := 0;
    while n < segmentCount
      invariant 0 <= n <= |layout|
      invariant segments == Remaining(layout[..n], completed)
    {
      var start := n * segmentSize;
      var end := start + segmentSize;
      if end > totalBytes {
        end := totalBytes;
      }
      assert layout[..n + 1][..n] == layout[..n];
      if start !in completed {
        segments := segments + [Slice(start, end - start)];
      }
      n := n + 1;
    }
    assert layout[..|layout|] == layout;
  }

  // ----- upload and copy parts -----

  /** The parts an upload run still has to send: number n is the (n-1)-th slice. */
  method PartsToUpload(totalBytes: int, override: int, uploaded: set<int>) returns (parts: map<int, Slice>)
    requires Sliceable(totalBytes, RunPartSize(totalBytes, override))
    ensures var layout := Layout(totalBytes, RunPartSize(totalBytes, override));
      && parts.Keys == (set n | 1 <= n <= |layout| && n !in uploaded)
      && forall n :: n in parts ==> parts[n] == layout[n - 1]
  {
    var partSize := override;
    if partSize <= 0 {
      partSize := PartSize(totalBytes);
    }
    var partCount := PartCount(totalBytes, partSize);
    ghost var layout := Layout(totalBytes, partSize);
    parts := map[];
    var n := 1;
    while n <= partCount
      invariant 1 <= n <= |layout| + 1
      invariant parts.Keys == (set k | 1 <= k < n && k !in uploaded)
      invariant forall k :: k in parts ==> parts[k] == layout[k - 1]
    {
      if n !in uploaded {
        var offset := (n - 1) * partSize;
        var size := partSize;
        var remaining := totalBytes - offset;
        if remaining < size {
          size := remaining;
        }
        parts := parts[n := Slice(offset, size)];
      }
      n := n + 1;
    }
  }

  /** The server-side copy of a large object never resumes: it sends every part. */
  method PartsToCopy(size: int) returns (parts: seq<Slice>)
    requires Sliceable(size, PartSize(size))
    ensures parts == Layout(size, PartSize(size))
  {
    var partSize := PartSize(size);
    var partCount := PartCount(size, partSize);
    ghost var layout := Layout(size, partSize);
    parts := [];
    var n := 1;
    while n <= partCount
      invariant 1 <= n <= |layout| + 1
      invariant parts == layout[..n - 1]
    {
      var offset := (n - 1) * partSize;
      var partLen := partSize;
      var remaining := size - offset;
      if remaining < partLen {
        partLen := remaining;
      }
      parts := parts + [Slice(offset, partLen)];
      n := n + 1;
    }
  }
}
