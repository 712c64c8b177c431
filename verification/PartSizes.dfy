/**
Adaptive part sizes, in Go's int64 arithmetic: sums wrap around, and division truncates toward zero.
*/
module PartSizes {
  const MIB := 0x10_0000
  const MIN_PART_SIZE := 5 * MIB
  const DEFAULT_PART_SIZE := 16 * MIB
  const LARGE_PART_SIZE := 64 * MIB
  const MAX_PART_SIZE := 128 * MIB
  const SMALL_FILE_THRESHOLD := 100 * MIB
  const MEDIUM_FILE_THRESHOLD := 1024 * MIB
  const LARGE_FILE_THRESHOLD := 10 * 1024 * MIB
  const MAX_PARTS_PER_UPLOAD := 10000
  const OVERRIDE_MIN_MB := 5
  const OVERRIDE_MAX_MB := 128
  const MAX_INT64 := 0x7FFF_FFFF_FFFF_FFFF

  /** The largest size the table's part counts are computed for without int64 overflow. */
  const MAX_TOTAL := MAX_INT64 - (MAX_PART_SIZE - 1)

  function Wrap64(x: int): int {
    (x + 0x8000_0000_0000_0000) % 0x1_0000_0000_0000_0000 - 0x8000_0000_0000_0000
  }

  function TruncDiv(a: int, b: int): int
    requires b > 0
  {
    if a >= 0 then a / b else -((-a) / b)
  }

  function CeilDiv(a: int, b: int): int
    requires b > 0
  {
    TruncDiv(Wrap64(a + b - 1), b)
  }

  function PartCount(totalBytes: int, partSize: int): int {
    if partSize <= 0 || totalBytes <= 0 then 0 else CeilDiv(totalBytes, partSize)
  }

  function TablePartSize(totalBytes: int): int {
    if totalBytes < SMALL_FILE_THRESHOLD then MIN_PART_SIZE
    else if totalBytes < MEDIUM_FILE_THRESHOLD then DEFAULT_PART_SIZE
    else if totalBytes < LARGE_FILE_THRESHOLD then LARGE_PART_SIZE
    else MAX_PART_SIZE
  }

  function PartSize(totalBytes: int): int {
    var partSize := TablePartSize(totalBytes);
    if PartCount(totalBytes, partSize) > MAX_PARTS_PER_UPLOAD then
      CeilDiv(CeilDiv(totalBytes, MAX_PARTS_PER_UPLOAD), MIB) * MIB
    else partSize
  }

  /** SetPartSizeOverrideMB: no override, or a size clamped to the range of the table. */
  function OverrideBytes(mb: int): int {
    if mb <= 0 then 0
    else if mb < OVERRIDE_MIN_MB then OVERRIDE_MIN_MB * MIB
    else if mb > OVERRIDE_MAX_MB then OVERRIDE_MAX_MB * MIB
    else mb * MIB
  }

  /** The segment or part size of one run: the override as it is, or the adaptive size. */
  function RunPartSize(totalBytes: int, override: int): int {
    if override <= 0 then PartSize(totalBytes) else override
  }

  /** That size as far as the object reaches. */
  function EffectiveSize(totalBytes: int, override: int): int {
    var size := RunPartSize(totalBytes, override);
    if size < totalBytes then size else totalBytes
  }

  // ----- exact counts -----

  /** The number of parts that cover totalBytes, over the integers. */
  ghost predicate IsPartCount(totalBytes: int, partSize: int, count: int) {
    (count - 1) * partSize < totalBytes <= count * partSize
  }

  lemma CeilDivIsCeiling(a: int, b: int)
    requires a > 0 && b > 0 && a + b - 1 <= MAX_INT64
    ensures CeilDiv(a, b) == (a + b - 1) / b
    ensures IsPartCount(a, b, CeilDiv(a, b)) && CeilDiv(a, b) > 0
  {
    assert Wrap64(a + b - 1) == a + b - 1;
    var q, r := (a + b - 1) / b, (a + b - 1) % b;
    assert a + b - 1 == q * b + r;
    assert (q - 1) * b == q * b - b;
    if q <= 0 {
      MultiplyBoth(q, 0, b);
    }
  }

  lemma MultiplyBoth(a: int, b: int, c: int)
    requires a <= b && c > 0
    ensures a * c <= b * c
  {
  }

  lemma PartCountIsUnique(totalBytes: int, partSize: int, j: int, k: int)
    requires partSize > 0 && IsPartCount(totalBytes, partSize, j) && IsPartCount(totalBytes, partSize, k)
    ensures j == k
  {
    if j < k {
      MultiplyBoth(j, k - 1, partSize);
    } else if k < j {
      MultiplyBoth(k, j - 1, partSize);
    }
  }

  // ----- the configured size -----

  function Distance(a: int, b: int): int {
    if a < b then b - a else a - b
  }

  /** A setting of 5 to 128 MiB is the size of every part; one outside is taken for the nearest of them, and none
      leaves the adaptive size. */
  lemma OverrideIsNearest(mb: int, m: int, totalBytes: int)
    requires OVERRIDE_MIN_MB <= m <= OVERRIDE_MAX_MB
    ensures mb > 0 ==>
      var size := RunPartSize(totalBytes, OverrideBytes(mb));
      && size % MIB == 0 && 5 <= size / MIB <= 128 && Distance(size / MIB, mb) <= Distance(m, mb)
    ensures mb <= 0 ==> RunPartSize(totalBytes, OverrideBytes(mb)) == PartSize(totalBytes)
  {
  }

  // ----- the adaptive size -----

  /** Whether the 10000-part clamp replaces the table's answer. */
  predicate Clamped(totalBytes: int) {
    PartCount(totalBytes, TablePartSize(totalBytes)) > MAX_PARTS_PER_UPLOAD
  }

  lemma ClampedMeansHuge(totalBytes: int)
    requires 0 < totalBytes <= MAX_INT64
    ensures Clamped(totalBytes) <==> MAX_PARTS_PER_UPLOAD * MAX_PART_SIZE < totalBytes <= MAX_TOTAL
  {
    if totalBytes <= MAX_TOTAL {
      CeilDivIsCeiling(totalBytes, TablePartSize(totalBytes));
    }
  }

  /** The adaptive size keeps the number of parts in proportion: up to 20 below 100 MiB, 7 to 64 up to 1 GiB, 16 to
      160 up to 10 GiB, and from there at least 80. */
  lemma PartCountsByRange(totalBytes: int)
    requires 0 < totalBytes <= MAX_TOTAL
    ensures var count := PartCount(totalBytes, TablePartSize(totalBytes));
      && (totalBytes < 100 * MIB ==> 1 <= count <= 20)
      && (100 * MIB <= totalBytes < 1024 * MIB ==> 7 <= count <= 64)
      && (1024 * MIB <= totalBytes < 10240 * MIB ==> 16 <= count <= 160)
      && (10240 * MIB <= totalBytes ==> 80 <= count)
  {
    CeilDivIsCeiling(totalBytes, TablePartSize(totalBytes));
  }

  /** When the clamp fires, its answer is the least multiple of 1 MiB that needs at most 10000 parts. */
  lemma ClampIsLeast(totalBytes: int, m: int)
    requires 0 < totalBytes <= MAX_INT64 && Clamped(totalBytes)
    ensures PartSize(totalBytes) % MIB == 0 && PartSize(totalBytes) > MAX_PART_SIZE
    ensures totalBytes <= MAX_PARTS_PER_UPLOAD * PartSize(totalBytes)
    ensures totalBytes <= MAX_PARTS_PER_UPLOAD * (m * MIB) ==> PartSize(totalBytes) <= m * MIB
  {
    ClampedMeansHuge(totalBytes);
    CeilDivIsCeiling(totalBytes, MAX_PARTS_PER_UPLOAD);
    CeilDivIsCeiling(CeilDiv(totalBytes, MAX_PARTS_PER_UPLOAD), MIB);
  }

  /** Every positive size gets a whole number of MiB, at least 5; 10000 such parts hold the file exactly
      when adding the table's largest part size to its length does not overflow. */
  lemma PartSizeIsSound(totalBytes: int)
    requires 0 < totalBytes <= MAX_INT64
    ensures PartSize(totalBytes) % MIB == 0 && PartSize(totalBytes) >= MIN_PART_SIZE
    ensures totalBytes <= MAX_PARTS_PER_UPLOAD * PartSize(totalBytes) <==> totalBytes <= MAX_TOTAL
  {
    ClampedMeansHuge(totalBytes);
    if Clamped(totalBytes) {
      ClampIsLeast(totalBytes, 0);
    }
  }

  /** The count a caller computes with that size is right, and between 1 and 10000, exactly when the sum
      inside its ceiling division does not overflow. */
  lemma PartCountIsSound(totalBytes: int)
    requires 0 < totalBytes <= MAX_INT64
    ensures var partSize := PartSize(totalBytes);
      && 1 <= PartCount(totalBytes, partSize) <= MAX_PARTS_PER_UPLOAD
      && IsPartCount(totalBytes, partSize, PartCount(totalBytes, partSize))
      <==> totalBytes + partSize - 1 <= MAX_INT64
  {
    var partSize := PartSize(totalBytes);
    PartSizeIsSound(totalBytes);
    if totalBytes + partSize - 1 <= MAX_INT64 {
      CeilDivIsCeiling(totalBytes, partSize);
      FewParts(totalBytes, partSize, PartCount(totalBytes, partSize));
    } else {
      ClampedMeansHuge(totalBytes);
      SumOverflows(totalBytes, partSize);
    }
  }

  lemma FewParts(totalBytes: int, partSize: int, count: int)
    requires partSize > 0 && IsPartCount(totalBytes, partSize, count)
    requires totalBytes <= MAX_PARTS_PER_UPLOAD * partSize
    ensures count <= MAX_PARTS_PER_UPLOAD
  {
    if count > MAX_PARTS_PER_UPLOAD {
      MultiplyBoth(MAX_PARTS_PER_UPLOAD, count - 1, partSize);
    }
  }

  lemma SumOverflows(totalBytes: int, partSize: int)
    requires 0 < totalBytes <= MAX_INT64 && 0 < partSize
    requires MAX_INT64 < totalBytes + partSize - 1 <= 2 * MAX_INT64
    ensures PartCount(totalBytes, partSize) <= 0
  {
    var sum := Wrap64(totalBytes + partSize - 1);
    assert sum < 0;
  }

  /** A larger file never gets a smaller part size. */
  lemma PartSizeIsMonotone(smaller: int, larger: int)
    requires 0 < smaller <= larger <= MAX_TOTAL
    ensures PartSize(smaller) <= PartSize(larger)
  {
    ClampedMeansHuge(smaller);
    ClampedMeansHuge(larger);
    if Clamped(larger) {
      ClampIsLeast(larger, 0);
      if Clamped(smaller) {
        ClampIsLeast(smaller, PartSize(larger) / MIB);
      }
    }
  }
}
