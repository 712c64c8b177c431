/**
What torn writes do to the progress sidecar over its whole life. Every write is of an offset whose segment
has been fetched; a crash or a full disk may cut it short, and the next write then continues its line.
*/
module TornSidecar {
  import opened PartSizes
  import opened Sidecar

  /** One write: the whole line, or its first k digits. */
  datatype Write = Whole(offset: nat) | Torn(offset: nat, k: nat)

  predicate IsWrite(w: Write) {
    w.offset <= MAX_INT64 && (w.Torn? ==> 1 <= w.k <= |Decimal(w.offset)|)
  }

  function Written(w: Write): string
    requires IsWrite(w)
  {
    match w
    case Whole(offset) => Line(offset)
    case Torn(offset, k) => Decimal(offset)[..k]
  }

  predicate AreWrites(writes: seq<Write>) {
    forall i :: 0 <= i < |writes| ==> IsWrite(writes[i])
  }

  /** No two torn writes in a row. */
  predicate IsHistory(writes: seq<Write>) {
    && AreWrites(writes)
    && (forall i :: 0 < i < |writes| ==> !(writes[i - 1].Torn? && writes[i].Torn?))
  }

  function HistoryText(writes: seq<Write>): string
    requires AreWrites(writes)
  {
    if writes == [] then "" else Written(writes[0]) + HistoryText(writes[1..])
  }

  lemma {:induction false} HistoryMore(writes: seq<Write>, w: Write, last: string)
    requires AreWrites(writes) && IsWrite(w) && last == Written(w)
    ensures HistoryText(writes + [w]) == HistoryText(writes) + last
  {
    if writes == [] {
      OneWrite(w, last);
      assert [] + [w] == [w] && "" + last == last;
    } else {
      var first, rest := writes[0], writes[1..];
      HistoryMore(rest, w, last);
      assert (writes + [w])[0] == first && (writes + [w])[1..] == rest + [w];
      Associate(Written(first), HistoryText(rest), last);
    }
  }

  lemma OneWrite(w: Write, text: string)
    requires IsWrite(w) && text == Written(w)
    ensures HistoryText([w]) == text
  {
    assert [w][1..] == [] && HistoryText([]) == "" && text + "" == text;
  }

  lemma Associate(a: string, b: string, c: string)
    ensures a + (b + c) == a + b + c
  {
  }

  predicate IsAttempted(writes: seq<Write>, offset: int) {
    exists i :: 0 <= i < |writes| && writes[i].offset == offset
  }

  predicate IsPlanned(size: int, count: int, offset: int)
    requires size > 0
  {
    0 <= offset < count * size && offset % size == 0
  }

  predicate AllPlanned(size: int, count: int, writes: seq<Write>)
    requires size > 0
  {
    forall i :: 0 <= i < |writes| ==> IsPlanned(size, count, writes[i].offset)
  }

  /** The sidecar marks v, a planned offset none of its writes is about: its segment was never fetched. */
  ghost predicate IsBadMark(size: int, count: int, writes: seq<Write>, v: int)
    requires size > 0
  {
    && IsHistory(writes) && AllPlanned(size, count, writes)
    && IsPlanned(size, count, v) && !IsAttempted(writes, v)
    && v in ReadText(HistoryText(writes))
  }

  ghost predicate TearsAreHarmless(size: int, count: int)
    requires size > 0
  {
    forall writes: seq<Write>, v: int :: !IsBadMark(size, count, writes, v)
  }

  /** The segment sizes the code can use: whole MiB, at least 5, and above 128 only when the 10000-part clamp
      replaces the table's answer. */
  predicate IsSegmentSize(size: int, count: int) {
    size % MIB == 0 && MIN_PART_SIZE <= size && (size <= MAX_PART_SIZE || count > 10)
  }

  // ----- multiples -----

  lemma Multiples(size: int, offset: int)
    requires size > 0 && offset % size == 0 && offset > 0
    ensures offset >= size
    ensures offset < 10 * size ==> offset <= 9 * size
  {
    var i := offset / size;
    assert offset == i * size;
    if i <= 0 {
      MultiplyBoth(i, 0, size);
    } else {
      MultiplyBoth(1, i, size);
    }
    if i >= 10 {
      MultiplyBoth(10, i, size);
    } else {
      MultiplyBoth(i, 9, size);
    }
  }

  /** A planned offset of a short plan is a small multiple of the size. */
  lemma PlannedIsMultiple(size: int, count: int, offset: int) returns (i: int)
    requires size > 0 && count <= 10 && IsPlanned(size, count, offset)
    ensures 0 <= i <= 9 && offset == i * size
  {
    i := offset / size;
    assert offset == i * size;
    MultiplyBoth(count, 10, size);
    if i < 0 {
      MultiplyBoth(i, -1, size);
    } else if i > 9 {
      MultiplyBoth(10, i, size);
    }
  }

  // ----- one torn write, read as it is -----

  /** Only in a plan of more than ten segments can digits of a planned offset spell another one. */
  lemma DigitsNeedLongPlan(size: int, count: int, offset: nat, k: nat, v: nat)
    requires 0 < size && IsPlanned(size, count, offset) && IsPlanned(size, count, v)
    requires 0 < k < |Decimal(offset)| && Decimal(v) == Decimal(offset)[..k] && 10 * v <= offset
    ensures count > 10
  {
    if v == 0 {
      assert Decimal(offset)[0] == Decimal(v)[0] == '0';
      NoLeadingZero(offset);
    } else if count <= 10 {
      MultiplyBoth(count, 10, size);
      Multiples(size, v);
    }
  }

  // ----- one torn write, continued by the next line -----

  function Pow10(n: nat): nat {
    if n == 0 then 1 else 10 * Pow10(n - 1)
  }

  lemma {:induction false} Pow10Splits(m: nat, n: nat)
    ensures Pow10(m + n) == Pow10(m) * Pow10(n) && Pow10(m) > 0
  {
    if m > 0 {
      Pow10Splits(m - 1, n);
    }
  }

  lemma {:induction false} ValueOfConcat(a: string, b: string)
    requires AllDigits(a) && AllDigits(b)
    ensures Value(a + b) == Value(a) * Pow10(|b|) + Value(b)
  {
    if b == "" {
      assert a + b == a;
    } else {
      var front := b[..|b| - 1];
      ValueOfConcat(a, front);
      LastDigit(a, b);
      Tenfold(Value(a), Pow10(|front|));
    }
  }

  lemma LastDigit(a: string, b: string)
    requires AllDigits(a) && AllDigits(b) && b != ""
    ensures var digit := b[|b| - 1] as int - '0' as int;
      && Value(b) == 10 * Value(b[..|b| - 1]) + digit
      && Value(a + b) == 10 * Value(a + b[..|b| - 1]) + digit
  {
    assert (a + b)[..|a + b| - 1] == a + b[..|b| - 1];
  }

  lemma Tenfold(a: int, b: int)
    ensures 10 * (a * b) == a * (10 * b)
  {
  }

  lemma {:induction false} DigitsBound(n: nat)
    ensures n < Pow10(|Decimal(n)|)
  {
    if n >= 10 {
      DigitsBound(n / 10);
    }
  }

  /** An offset of at least one million has at least seven digits. */
  lemma SevenDigits(n: nat)
    requires n >= 1_000_000
    ensures |Decimal(n)| >= 7 && Pow10(|Decimal(n)|) % 10_000_000 == 0
  {
    DigitsBound(n);
    PowerConstants();
    var len := |Decimal(n)|;
    if len < 7 {
      Pow10Grows(len, 6);
    } else {
      Pow10Splits(len - 7, 7);
    }
  }

  lemma PowerConstants()
    ensures Pow10(6) == 1_000_000 && Pow10(7) == 10_000_000
  {
    assert Pow10(3) == 1000;
  }

  lemma Pow10Grows(m: nat, n: nat)
    requires m <= n
    ensures Pow10(m) <= Pow10(n)
  {
    Pow10Splits(m, n - m);
    Pow10Splits(n - m, 0);
    MultiplyBoth(1, Pow10(n - m), Pow10(m));
  }

  /** 5^7 divides t: Bezout's identity for 2^20 and 5^7. */
  lemma FiveToSeventhDivides(t: int, x: int) returns (c: int)
    requires t * MIB == x * 10_000_000
    ensures t == 78_125 * c
  {
    c := 13_301 * 128 * x - 178_523 * t;
    assert t == 13_301 * (t * MIB) - 178_523 * 78_125 * t;
  }

  /** The shift is the place value of the digits in front. */
  lemma GluedValue(offset: nat, k: nat, next: nat) returns (p: nat, shift: nat)
    requires 1 <= k <= |Decimal(offset)|
    ensures Decimal(p) == Decimal(offset)[..k] && AllDigits(Glued(offset, k, next))
    ensures shift == Pow10(|Decimal(next)|) && Value(Glued(offset, k, next)) == p * shift + next
  {
    p := DigitPrefix(offset, k);
    shift := Pow10(|Decimal(next)|);
    GluedDigits(offset, k, next);
    DecimalReadsBack(p);
    DecimalReadsBack(next);
    ValueOfConcat(Decimal(p), Decimal(next));
  }

  lemma ShiftIsNoMultiple(a: int, m: int, x: int)
    requires 1 <= a <= 9 && 5 <= m <= 128
    ensures (a * m) * MIB != x * 10_000_000
  {
    SmallProduct(a, m);
    if (a * m) * MIB == x * 10_000_000 {
      var c := FiveToSeventhDivides(a * m, x);
    }
  }

  /** Digits before a line of a later segment: the shift by seven places or more is no multiple of the size. */
  lemma GluedLaterLine(m: int, p: nat, j: int, l: int, shift: int, r: int)
    requires 5 <= m <= 128 && 0 <= j <= 9 && 1 <= l <= 9 && shift == r * 10_000_000 && r > 0
    requires j * (m * MIB) == p * shift + l * (m * MIB)
    ensures p == 0
  {
    if p > 0 {
      LaterOffset(m * MIB, p, shift, j, l);
      Regrouped(j - l, m, p, r);
      ShiftIsNoMultiple(j - l, m, p * r);
    }
  }

  lemma LaterOffset(size: int, p: int, shift: int, j: int, l: int)
    requires size > 0 && p > 0 && shift > 0 && j * size == p * shift + l * size
    ensures j > l && (j - l) * size == p * shift
  {
    MultiplyBoth(1, p, shift);
    if j <= l {
      MultiplyBoth(j, l, size);
    }
  }

  lemma Regrouped(a: int, m: int, p: int, r: int)
    ensures a * (m * MIB) == (a * m) * MIB && p * (r * 10_000_000) == (p * r) * 10_000_000
  {
  }

  lemma SmallProduct(a: int, m: int)
    requires 1 <= a <= 9 && 5 <= m <= 128
    ensures 0 < a * m < 78_125
  {
    MultiplyBoth(a, 9, m);
    MultiplyBoth(1, a, m);
  }

  /** Digits before the line of the first segment: ten times a prefix is a planned offset only when it is the
      interrupted offset itself. */
  lemma GluedFirstLine(size: int, count: int, offset: nat, k: nat, p: nat)
    requires size > 10 && count <= 10 && IsPlanned(size, count, offset) && IsPlanned(size, count, 10 * p)
    requires 1 <= k <= |Decimal(offset)| && Decimal(p) == Decimal(offset)[..k]
    ensures 10 * p == offset || p == 0
  {
    var i := PlannedIsMultiple(size, count, offset);
    var j := PlannedIsMultiple(size, count, 10 * p);
    if k == |Decimal(offset)| {
      WholePrefix(offset, k, p);
      TenfoldIsFar(size, i, j);
    } else {
      ShorterPrefix(size, offset, k, p, i, j);
    }
  }

  lemma WholePrefix(offset: nat, k: nat, p: nat)
    requires k == |Decimal(offset)| && Decimal(p) == Decimal(offset)[..k]
    ensures p == offset
  {
    assert Decimal(offset)[..k] == Decimal(offset);
    DecimalReadsBack(offset);
    DecimalReadsBack(p);
  }

  lemma TenfoldIsFar(size: int, i: int, j: int)
    requires size > 0 && 0 <= i && j <= 9 && 10 * (i * size) == j * size
    ensures i * size == 0
  {
    MultiplyBoth(j, 9, size);
    if i >= 1 {
      MultiplyBoth(1, i, size);
    }
  }

  lemma ShorterPrefix(size: int, offset: nat, k: nat, p: nat, i: int, j: int)
    requires size > 10 && 0 <= i <= 9 && 0 <= j <= 9 && offset == i * size && 10 * p == j * size
    requires 1 <= k < |Decimal(offset)| && Decimal(p) == Decimal(offset)[..k]
    ensures 10 * p == offset || p == 0
  {
    DecimalReadsBack(p);
    var tenth := offset / 10;
    DecimalReadsBack(tenth);
    assert Decimal(offset)[..k] == Decimal(tenth)[..k];
    var p' := DigitPrefix(tenth, k);
    DecimalReadsBack(p');
    assert p == p';
    if k == |Decimal(tenth)| {
      assert Decimal(tenth)[..k] == Decimal(tenth);
      assert offset - 10 * p < 10;
      CloseMultiples(size, i, j);
    } else {
      FarBelow(size, i, j);
    }
  }

  lemma FarBelow(size: int, i: int, j: int)
    requires size > 0 && 0 <= j && i <= 9 && 10 * (j * size) <= i * size
    ensures j * size == 0
  {
    MultiplyBoth(i, 9, size);
    if j >= 1 {
      MultiplyBoth(1, j, size);
    }
  }

  lemma CloseMultiples(size: int, i: int, j: int)
    requires size > 10 && 0 <= i * size - j * size < 10
    ensures i * size == j * size
  {
    if i > j {
      MultiplyBoth(j + 1, i, size);
    }
  }

  /** A line continued after torn digits marks no planned segment but the two it is made of. */
  lemma GluedLineIsHarmless(size: int, count: int, offset: nat, k: nat, next: nat, v: int)
    requires 0 < size && IsSegmentSize(size, count) && count <= 10
    requires IsPlanned(size, count, offset) && IsPlanned(size, count, next) && IsPlanned(size, count, v)
    requires 1 <= k <= |Decimal(offset)| && AllDigits(Glued(offset, k, next)) && v == Value(Glued(offset, k, next))
    ensures v == offset || v == next
  {
    if next == 0 {
      var p := GluedZeroValue(offset, k, next);
      GluedFirstLine(size, count, offset, k, p);
    } else {
      var p, shift := GluedValue(offset, k, next);
      GluedLater(size, count, p, shift, next, v);
    }
  }

  lemma GluedZeroValue(offset: nat, k: nat, next: nat) returns (p: nat)
    requires 1 <= k <= |Decimal(offset)| && next == 0
    ensures Decimal(p) == Decimal(offset)[..k] && AllDigits(Glued(offset, k, next))
    ensures Value(Glued(offset, k, next)) == 10 * p
  {
    var shift: nat;
    p, shift := GluedValue(offset, k, next);
    OneDigit(next);
  }

  lemma GluedLater(size: int, count: int, p: nat, shift: nat, next: nat, v: int)
    requires 0 < size && IsSegmentSize(size, count) && count <= 10
    requires IsPlanned(size, count, next) && IsPlanned(size, count, v) && next > 0
    requires shift == Pow10(|Decimal(next)|) && v == p * shift + next
    ensures v == next
  {
    var j := PlannedIsMultiple(size, count, v);
    var l := PlannedIsMultiple(size, count, next);
    WholeMib(size);
    GluedMultiples(size / MIB, p, shift, next, v, j, l);
  }

  lemma WholeMib(size: int)
    requires size % MIB == 0 && MIN_PART_SIZE <= size <= MAX_PART_SIZE
    ensures size == size / MIB * MIB && 5 <= size / MIB <= 128
  {
  }

  lemma GluedMultiples(m: int, p: nat, shift: nat, next: nat, v: int, j: int, l: int)
    requires 5 <= m <= 128 && 0 <= j <= 9 && l <= 9 && v == j * (m * MIB) && next == l * (m * MIB) && next > 0
    requires shift == Pow10(|Decimal(next)|) && v == p * shift + next
    ensures v == next
  {
    if l <= 0 {
      MultiplyBoth(l, 0, m * MIB);
    }
    MultiplyBoth(1, l, m * MIB);
    SevenDigits(next);
    Pow10Splits(|Decimal(next)|, 0);
    GluedLaterLine(m, p, j, l, shift, shift / 10_000_000);
  }

  lemma OneDigit(n: nat)
    requires n < 10
    ensures Pow10(|Decimal(n)|) == 10
  {
    assert Pow10(1) == 10;
  }

  // ----- every history -----

  lemma TornLast(offset: nat, k: nat) returns (p: nat)
    requires IsWrite(Torn(offset, k))
    ensures ReadText(Decimal(offset)[..k]) == {p as int} && Decimal(p) == Decimal(offset)[..k]
    ensures k < |Decimal(offset)| ==> 10 * p <= offset
    ensures k == |Decimal(offset)| ==> p == offset
  {
    p := DigitPrefix(offset, k);
    if k == |Decimal(offset)| {
      assert Decimal(offset)[..k] == Decimal(offset);
      DecimalReadsBack(offset);
      DecimalReadsBack(p);
    }
    ReadDecimal(p, "");
  }

  lemma TornThenWhole(offset: nat, k: nat, next: nat, rest: string)
    requires IsWrite(Torn(offset, k))
    ensures AllDigits(Glued(offset, k, next))
    ensures ReadText(Decimal(offset)[..k] + (Line(next) + rest))
         == (var v := Value(Glued(offset, k, next)); if v <= MAX_INT64 then {v as int} else {}) + ReadText(rest)
  {
    GluedDigits(offset, k, next);
    assert Decimal(offset)[..k] + (Line(next) + rest) == Glued(offset, k, next) + "\n" + rest;
    ReadFirstLine(Glued(offset, k, next), rest);
    ReadLine(Glued(offset, k, next));
  }

  lemma {:induction false} ShortPlansAreHarmless(size: int, count: int, writes: seq<Write>, v: int)
    requires 0 < size && IsSegmentSize(size, count) && count <= 10
    requires IsHistory(writes) && AllPlanned(size, count, writes)
    requires IsPlanned(size, count, v) && v in ReadText(HistoryText(writes))
    ensures IsAttempted(writes, v)
    decreases |writes|, 1
  {
    if writes == [] {
      ReadNothing();
    } else if writes[0].Whole? {
      WholeFirst(size, count, writes, v);
    } else if |writes| == 1 {
      TornOnly(size, count, writes, v);
    } else {
      TornFirst(size, count, writes, v);
    }
  }

  lemma {:induction false} WholeFirst(size: int, count: int, writes: seq<Write>, v: int)
    requires 0 < size && IsSegmentSize(size, count) && count <= 10
    requires IsHistory(writes) && AllPlanned(size, count, writes) && writes != [] && writes[0].Whole?
    requires IsPlanned(size, count, v) && v in ReadText(HistoryText(writes))
    ensures IsAttempted(writes, v)
    decreases |writes|, 0
  {
    ReadDecimal(writes[0].offset, HistoryText(writes[1..]));
    if v != writes[0].offset {
      ShortPlansAreHarmless(size, count, writes[1..], v);
      AttemptedLater(writes, 1, v);
    }
  }

  lemma AttemptedLater(writes: seq<Write>, n: nat, v: int)
    requires n <= |writes| && IsAttempted(writes[n..], v)
    ensures IsAttempted(writes, v)
  {
    var i :| 0 <= i < |writes[n..]| && writes[n..][i].offset == v;
    assert writes[n + i].offset == v;
  }

  lemma TornOnly(size: int, count: int, writes: seq<Write>, v: int)
    requires 0 < size && count <= 10
    requires IsHistory(writes) && AllPlanned(size, count, writes) && |writes| == 1 && writes[0].Torn?
    requires IsPlanned(size, count, v) && v in ReadText(HistoryText(writes))
    ensures IsAttempted(writes, v)
  {
    var w := writes[0];
    assert HistoryText(writes) == Decimal(w.offset)[..w.k] + "" == Decimal(w.offset)[..w.k];
    var p := TornLast(w.offset, w.k);
    if w.k < |Decimal(w.offset)| {
      DigitsNeedLongPlan(size, count, w.offset, w.k, p);
    }
  }

  lemma {:induction false} TornFirst(size: int, count: int, writes: seq<Write>, v: int)
    requires 0 < size && IsSegmentSize(size, count) && count <= 10
    requires IsHistory(writes) && AllPlanned(size, count, writes) && |writes| > 1 && writes[0].Torn?
    requires IsPlanned(size, count, v) && v in ReadText(HistoryText(writes))
    ensures IsAttempted(writes, v)
    decreases |writes|, 0
  {
    var w, next := writes[0], writes[1];
    assert next.Whole?;
    assert HistoryText(writes[1..]) == Line(next.offset) + HistoryText(writes[1..][1..]);
    assert writes[1..][1..] == writes[2..];
    TornThenWhole(w.offset, w.k, next.offset, HistoryText(writes[2..]));
    if v == Value(Glued(w.offset, w.k, next.offset)) {
      GluedLineIsHarmless(size, count, w.offset, w.k, next.offset, v);
    } else {
      ShortPlansAreHarmless(size, count, writes[2..], v);
      AttemptedLater(writes, 2, v);
    }
  }

  // ----- long plans -----

  lemma TornTenfold(size: nat) returns (w: Write)
    requires 0 < size && 10 * size <= MAX_INT64
    ensures w.Torn? && w.offset == 10 * size && IsWrite(w) && ReadText(HistoryText([w])) == {size as int}
  {
    var offset := 10 * size;
    var k := |Decimal(offset)| - 1;
    w := Torn(offset, k);
    assert offset / 10 == size;
    assert Decimal(offset)[..k] == Decimal(size);
    assert HistoryText([w]) == Decimal(size) + "" == Decimal(size);
    ReadDecimal(size, "");
  }

  lemma FirstOffsetsArePlanned(size: int, count: int)
    requires 0 < size && count > 10
    ensures IsPlanned(size, count, size) && IsPlanned(size, count, 10 * size)
  {
    MultiplyBoth(11, count, size);
  }

  lemma LongPlanTearsBadly(size: int, count: int)
    requires 0 < size && count > 10 && 10 * size <= MAX_INT64
    ensures !TearsAreHarmless(size, count)
  {
    var w := TornTenfold(size);
    FirstOffsetsArePlanned(size, count);
    assert AllPlanned(size, count, [w]) && !IsAttempted([w], size);
    assert IsBadMark(size, count, [w], size);
  }

  /** Torn writes, each continued by a whole line or last, never mark a segment nobody fetched exactly when
      the download has at most ten segments. In a longer one the digits left of the eleventh offset spell
      the second. */
  lemma TearsAreHarmlessIffTenSegments(size: int, count: int)
    requires 0 < size && IsSegmentSize(size, count) && (count - 1) * size <= MAX_INT64
    ensures TearsAreHarmless(size, count) <==> count <= 10
  {
    if count > 10 {
      MultiplyBoth(10, count - 1, size);
      LongPlanTearsBadly(size, count);
    } else {
      forall writes: seq<Write>, v: int ensures !IsBadMark(size, count, writes, v) {
        if IsBadMark(size, count, writes, v) {
          ShortPlansAreHarmless(size, count, writes, v);
        }
      }
    }
  }

  lemma ClampedHasManyParts(totalBytes: int, size: int)
    requires 0 < totalBytes <= MAX_INT64 && Clamped(totalBytes) && size == PartSize(totalBytes)
    requires totalBytes + size - 1 <= MAX_INT64
    ensures PartCount(totalBytes, size) > 10
  {
    ClampedMeansHuge(totalBytes);
    CeilDivIsCeiling(totalBytes, MAX_PARTS_PER_UPLOAD);
    CeilDivIsCeiling(CeilDiv(totalBytes, MAX_PARTS_PER_UPLOAD), MIB);
    assert 100 * size <= totalBytes;
    ClampIsLeast(totalBytes, 0);
    CeilDivIsCeiling(totalBytes, size);
    if PartCount(totalBytes, size) <= 10 {
      MultiplyBoth(PartCount(totalBytes, size), 10, size);
    }
  }

  /** Every run of the code uses such a size. */
  lemma RunSizesAreSegmentSizes(totalBytes: int, mb: int)
    requires 0 < totalBytes
    requires var size := RunPartSize(totalBytes, OverrideBytes(mb)); totalBytes + size - 1 <= MAX_INT64
    ensures var size := RunPartSize(totalBytes, OverrideBytes(mb)); IsSegmentSize(size, PartCount(totalBytes, size))
  {
    if mb <= 0 {
      TableSizesAreSegmentSizes(totalBytes);
    } else {
      OverridesAreSegmentSizes(mb, PartCount(totalBytes, OverrideBytes(mb)));
    }
  }

  lemma OverridesAreSegmentSizes(mb: int, count: int)
    requires mb > 0
    ensures IsSegmentSize(OverrideBytes(mb), count)
  {
  }

  lemma TableSizesAreSegmentSizes(totalBytes: int)
    requires 0 < totalBytes && totalBytes + PartSize(totalBytes) - 1 <= MAX_INT64
    ensures IsSegmentSize(PartSize(totalBytes), PartCount(totalBytes, PartSize(totalBytes)))
  {
    if Clamped(totalBytes) {
      ClampIsLeast(totalBytes, 0);
      ClampedHasManyParts(totalBytes, PartSize(totalBytes));
    } else {
      TableSizesAreWholeMib(totalBytes, PartCount(totalBytes, TablePartSize(totalBytes)));
    }
  }

  lemma TableSizesAreWholeMib(totalBytes: int, count: int)
    ensures IsSegmentSize(TablePartSize(totalBytes), count)
  {
  }
}
