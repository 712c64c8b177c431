/**
Torn writes in any order, several in a row included, as when a disk stays full: the digits they leave are one
line, and are read as one number.
*/
module TornInARow {
  import opened PartSizes
  import opened Sidecar
  import opened TornSidecar

  /** The sidecar marks v, a planned offset none of its writes is about. */
  predicate IsBadSpelling(size: int, count: int, writes: seq<Write>, v: int)
    requires size > 0
  {
    && AreWrites(writes) && AllPlanned(size, count, writes)
    && IsPlanned(size, count, v) && !IsAttempted(writes, v)
    && v in ReadText(HistoryText(writes))
  }

  ghost predicate AnyTearsAreHarmless(size: int, count: int)
    requires size > 0
  {
    forall writes: seq<Write>, v: int :: !IsBadSpelling(size, count, writes, v)
  }

  // ----- what torn writes can spell -----

  /** The leading digits of a planned offset other than v. */
  ghost predicate IsPiece(size: int, count: int, v: int, piece: string)
    requires size > 0
  {
    piece != "" && exists offset: nat :: Leaves(size, count, v, offset, piece)
  }

  predicate Leaves(size: int, count: int, v: int, offset: nat, piece: string)
    requires size > 0
  {
    IsPlanned(size, count, offset) && offset != v && piece <= Decimal(offset)
  }

  /** The digits are such pieces, one after another. */
  ghost predicate IsSpelled(size: int, count: int, v: int, digits: string)
    requires size > 0
    decreases |digits|
  {
    digits == "" ||
    exists k :: 1 <= k <= |digits| && IsPiece(size, count, v, digits[..k]) && IsSpelled(size, count, v, digits[k..])
  }

  lemma {:induction false} SpelledOn(size: int, count: int, v: int, digits: string, piece: string)
    requires 0 < size && IsSpelled(size, count, v, digits) && IsPiece(size, count, v, piece)
    ensures IsSpelled(size, count, v, digits + piece)
    decreases |digits|
  {
    if digits == "" {
      assert digits + piece == piece && piece[..|piece|] == piece && piece[|piece|..] == "";
    } else {
      var k :| 1 <= k <= |digits| && IsPiece(size, count, v, digits[..k]) && IsSpelled(size, count, v, digits[k..]);
      SpelledOn(size, count, v, digits[k..], piece);
      assert (digits + piece)[..k] == digits[..k] && (digits + piece)[k..] == digits[k..] + piece;
    }
  }

  lemma {:induction false} DecimalOfValue(digits: string)
    requires digits != "" && AllDigits(digits) && digits[0] != '0'
    ensures Decimal(Value(digits)) == digits && Value(digits) > 0
  {
    var front := digits[..|digits| - 1];
    if front != "" {
      DecimalOfValue(front);
    }
    LastDigitOf(digits, front);
  }

  lemma LastDigitOf(digits: string, front: string)
    requires digits != "" && AllDigits(digits) && front == digits[..|digits| - 1]
    ensures Value(digits) / 10 == Value(front) && [Digit(Value(digits) % 10)] == digits[|digits| - 1..]
    ensures digits == front + digits[|digits| - 1..]
  {
  }

  /** Only the offset 0 leaves a leading zero. */
  lemma ZeroPiece(size: int, count: int, v: int, piece: string)
    requires 0 < size && IsPiece(size, count, v, piece) && piece[0] == '0'
    ensures piece == "0" && v != 0
  {
    var offset: nat :| Leaves(size, count, v, offset, piece);
    NoLeadingZero(offset);
    assert Decimal(offset)[0] == '0' && offset == 0;
  }

  lemma DropZero(digits: string)
    requires digits != "" && AllDigits(digits) && digits[0] == '0'
    ensures Value(digits[1..]) == Value(digits)
  {
    assert digits == digits[..1] + digits[1..];
    ValueOfConcat(digits[..1], digits[1..]);
    assert Value(digits[..1]) == 0;
  }

  lemma {:induction false} WithoutZeros(size: int, count: int, v: nat, digits: string)
    requires 0 < size && digits != "" && AllDigits(digits) && Value(digits) == v
    requires IsSpelled(size, count, v, digits)
    ensures IsSpelled(size, count, v, Decimal(v))
    decreases |digits|
  {
    if digits[0] != '0' {
      DecimalOfValue(digits);
    } else {
      var k :| 1 <= k <= |digits| && IsPiece(size, count, v, digits[..k]) && IsSpelled(size, count, v, digits[k..]);
      ZeroPiece(size, count, v, digits[..k]);
      DropZero(digits);
      WithoutZeros(size, count, v, digits[1..]);
    }
  }

  // ----- both directions -----

  /** What is read of digits left so far and of the writes after them is spelled by planned offsets. */
  lemma {:induction false} ReadIsSpelled(size: int, count: int, writes: seq<Write>, left: string, v: nat)
    requires 0 < size && AreWrites(writes) && AllPlanned(size, count, writes) && !IsAttempted(writes, v)
    requires AllDigits(left) && IsSpelled(size, count, v, left) && v in ReadText(left + HistoryText(writes))
    ensures IsSpelled(size, count, v, Decimal(v))
    decreases |writes|
  {
    if writes == [] {
      assert left + "" == left;
      LineIsSpelled(size, count, left, v);
    } else {
      var w, more := writes[0], left + Piece(writes[0]);
      OthersNotAttempted(writes, v);
      OneMoreSpelled(size, count, w, left, v);
      ReadAfterFirst(writes, left, v);
      if w.Whole? && v in ReadText(more) {
        LineIsSpelled(size, count, more, v);
      } else {
        ReadIsSpelled(size, count, writes[1..], if w.Torn? then more else "", v);
      }
    }
  }

  /** A torn first write lengthens the line that is left, a whole one ends it. */
  lemma ReadAfterFirst(writes: seq<Write>, left: string, v: int)
    requires AreWrites(writes) && writes != [] && v in ReadText(left + HistoryText(writes))
    requires AllDigits(left + Piece(writes[0])) && Piece(writes[0]) != ""
    ensures AreWrites(writes[1..])
    ensures var more, rest := left + Piece(writes[0]), HistoryText(writes[1..]);
      if writes[0].Torn? then v in ReadText(more + rest) else v in ReadText(more) || v in ReadText("" + rest)
  {
    LeftBefore(left, writes[0], HistoryText(writes[1..]));
    if writes[0].Whole? {
      ReadWholeLine(left + Piece(writes[0]), HistoryText(writes[1..]), v);
    }
  }

  lemma OneMoreSpelled(size: int, count: int, w: Write, left: string, v: nat)
    requires 0 < size && IsWrite(w) && IsPlanned(size, count, w.offset) && w.offset != v
    requires AllDigits(left) && IsSpelled(size, count, v, left)
    ensures Piece(w) != "" && AllDigits(left + Piece(w)) && IsSpelled(size, count, v, left + Piece(w))
  {
    PieceIsPiece(size, count, v, w);
    SpelledOn(size, count, v, left, Piece(w));
  }

  lemma LineIsSpelled(size: int, count: int, digits: string, v: nat)
    requires 0 < size && AllDigits(digits) && IsSpelled(size, count, v, digits) && v in ReadText(digits)
    ensures IsSpelled(size, count, v, Decimal(v))
  {
    if digits == "" {
      ReadNothing();
    } else {
      ReadFirstLine(digits, "");
      ReadLine(digits);
      WithoutZeros(size, count, v, digits);
    }
  }

  /** A torn write lengthens the line, a whole one ends it. */
  lemma LeftBefore(left: string, w: Write, rest: string)
    requires IsWrite(w)
    ensures var more := left + Piece(w);
      left + (Written(w) + rest) == if w.Torn? then more + rest else more + "\n" + rest
  {
  }

  lemma ReadWholeLine(line: string, rest: string, v: int)
    requires line != "" && AllDigits(line) && v in ReadText(line + "\n" + rest)
    ensures v in ReadText(line) || v in ReadText("" + rest)
  {
    assert "" + rest == rest;
    ReadFirstLine(line, rest);
  }

  function Piece(w: Write): string
    requires IsWrite(w)
  {
    Decimal(w.offset)[..if w.Torn? then w.k else |Decimal(w.offset)|]
  }

  lemma PieceIsPiece(size: int, count: int, v: int, w: Write)
    requires 0 < size && IsWrite(w) && IsPlanned(size, count, w.offset) && w.offset != v
    ensures IsPiece(size, count, v, Piece(w)) && AllDigits(Piece(w))
    ensures Written(w) == if w.Torn? then Piece(w) else Piece(w) + "\n"
  {
    DecimalReadsBack(w.offset);
    assert Leaves(size, count, v, w.offset, Piece(w));
  }

  lemma OthersNotAttempted(writes: seq<Write>, v: int)
    requires writes != [] && !IsAttempted(writes, v)
    ensures writes[0].offset != v && !IsAttempted(writes[1..], v)
  {
    assert IsAttempted(writes, writes[0].offset);
    forall i | 0 <= i < |writes[1..]| ensures writes[1..][i].offset != v {
      assert writes[1..][i] == writes[i + 1];
    }
  }

  lemma {:induction false} TearsThatSpell(size: int, count: int, v: int, digits: string) returns (writes: seq<Write>)
    requires 0 < size && (count - 1) * size <= MAX_INT64 && IsSpelled(size, count, v, digits)
    ensures AreWrites(writes) && AllPlanned(size, count, writes) && !IsAttempted(writes, v)
    ensures HistoryText(writes) == digits
    decreases |digits|
  {
    writes := [];
    if digits != "" {
      var k :| 1 <= k <= |digits| && IsPiece(size, count, v, digits[..k]) && IsSpelled(size, count, v, digits[k..]);
      var offset: nat :| Leaves(size, count, v, offset, digits[..k]);
      PlannedIsInt64(size, count, offset);
      var rest := TearsThatSpell(size, count, v, digits[k..]);
      assert digits == digits[..k] + digits[k..];
      writes := Prepended(Torn(offset, k), rest, digits[..k], digits[k..]);
    }
  }

  lemma PlannedIsInt64(size: int, count: int, offset: int)
    requires 0 < size && (count - 1) * size <= MAX_INT64 && IsPlanned(size, count, offset)
    ensures offset <= MAX_INT64
  {
    var i := offset / size;
    assert offset == i * size;
    if i >= count {
      MultiplyBoth(count, i, size);
    } else {
      MultiplyBoth(i, count - 1, size);
    }
  }

  /** One more write in front. */
  lemma Prepended(w: Write, writes: seq<Write>, first: string, rest: string) returns (all: seq<Write>)
    requires IsWrite(w) && Written(w) == first
    requires AreWrites(writes) && HistoryText(writes) == rest
    ensures all == [w] + writes && AreWrites(all)
    ensures HistoryText(all) == first + rest
  {
    all := [w] + writes;
    assert all[1..] == writes;
  }

  /** Torn writes in any order never mark a planned segment nobody fetched exactly when no planned offset is
      spelled by leading digits of the others. */
  lemma AnyTearsAreHarmlessIff(size: int, count: int)
    requires 0 < size && (count - 1) * size <= MAX_INT64
    ensures AnyTearsAreHarmless(size, count) <==>
      forall v: nat :: IsPlanned(size, count, v) ==> !IsSpelled(size, count, v, Decimal(v))
  {
    forall v: nat | IsPlanned(size, count, v) && IsSpelled(size, count, v, Decimal(v))
      ensures !AnyTearsAreHarmless(size, count)
    {
      var writes := TearsThatSpell(size, count, v, Decimal(v));
      PlannedIsInt64(size, count, v);
      ReadDecimal(v, "");
      assert IsBadSpelling(size, count, writes, v);
    }
    forall writes: seq<Write>, v: int | IsBadSpelling(size, count, writes, v)
      ensures IsSpelled(size, count, v, Decimal(v))
    {
      assert "" + HistoryText(writes) == HistoryText(writes);
      ReadIsSpelled(size, count, writes, "", v);
    }
  }

  // ----- a short plan that can be spelled -----

  function Drop(n: nat, digits: nat): nat {
    if digits == 0 then n else Drop(n / 10, digits - 1)
  }

  lemma {:induction false} DropLeavesPrefix(n: nat, digits: nat)
    requires Drop(n, digits) > 0
    ensures Decimal(Drop(n, digits)) <= Decimal(n)
  {
    if digits > 0 {
      DropLeavesPrefix(n / 10, digits - 1);
      DropIsSmaller(n / 10, digits - 1);
    }
  }

  lemma {:induction false} DropIsSmaller(n: nat, digits: nat)
    ensures Drop(n, digits) <= n
  {
    if digits > 0 {
      DropIsSmaller(n / 10, digits - 1);
    }
  }

  /** The write of an offset, torn after its leading digits. */
  function TornAfter(offset: nat, digits: nat): Write {
    Torn(offset, |Decimal(Drop(offset, digits))|)
  }

  lemma TornAfterWrites(offset: nat, digits: nat)
    requires 0 < Drop(offset, digits) && offset <= MAX_INT64
    ensures IsWrite(TornAfter(offset, digits)) && Written(TornAfter(offset, digits)) == Decimal(Drop(offset, digits))
  {
    DropLeavesPrefix(offset, digits);
  }

  lemma TornTo(offset: nat, digits: nat, lead: nat, text: string)
    requires Drop(offset, digits) == lead > 0 && Decimal(lead) == text && offset <= MAX_INT64
    ensures IsWrite(TornAfter(offset, digits)) && Written(TornAfter(offset, digits)) == text
  {
    TornAfterWrites(offset, digits);
  }

  lemma SmallDecimals()
    ensures Decimal(0) == "0" && Decimal(4) == "4" && Decimal(5) == "5" && Decimal(8) == "8"
    ensures Decimal(16) == "16" && Decimal(33) == "33"
  {
  }

  lemma Leads()
    ensures Drop(58_720_256, 7) == 5 && Drop(33_554_432, 6) == 33 && Drop(16_777_216, 6) == 16
    ensures Drop(41_943_040, 7) == 4 && Drop(8_388_608, 6) == 8
  {
  }

  lemma AppendDigit(s: string, c: char, t: string)
    requires AllDigits(s) && IsDigit(c) && t == s + [c]
    ensures AllDigits(t) && Value(t) == 10 * Value(s) + (c as int - '0' as int)
  {
    assert t[..|s|] == s;
  }

  lemma SpelledOffset()
    ensures AllDigits("50331648") && Value("50331648") == 50_331_648
  {
    AppendDigit("", '5', "5");
    AppendDigit("5", '0', "50");
    AppendDigit("50", '3', "503");
    AppendDigit("503", '3', "5033");
    AppendDigit("5033", '1', "50331");
    AppendDigit("50331", '6', "503316");
    AppendDigit("503316", '4', "5033164");
    AppendDigit("5033164", '8', "50331648");
  }

  predicate IsTearOffset(offset: int) {
    offset in {0, 8_388_608, 16_777_216, 33_554_432, 41_943_040, 58_720_256}
  }

  predicate AreTears(writes: seq<Write>) {
    forall i :: 0 <= i < |writes| ==> IsWrite(writes[i]) && IsTearOffset(writes[i].offset)
  }

  lemma Spellings()
    ensures "8" + "" == "8" && "4" + "8" == "48" && "16" + "48" == "1648" && "33" + "1648" == "331648"
    ensures "0" + "331648" == "0331648" && "5" + "0331648" == "50331648"
  {
  }

  /** Six writes in a row torn after one or two digits, in a download of eight segments of 8 MiB. */
  lemma SixTears() returns (writes: seq<Write>)
    ensures AreTears(writes) && HistoryText(writes) == "50331648"
  {
    SmallDecimals();
    Leads();
    Spellings();
    writes := PrependTorn(8_388_608, 6, 8, "8", [], "", "8");
    writes := PrependTorn(41_943_040, 7, 4, "4", writes, "8", "48");
    writes := PrependTorn(16_777_216, 6, 16, "16", writes, "48", "1648");
    writes := PrependTorn(33_554_432, 6, 33, "33", writes, "1648", "331648");
    TornZero();
    writes := PrependTear(Torn(0, 1), "0", writes, "331648", "0331648");
    writes := PrependTorn(58_720_256, 7, 5, "5", writes, "0331648", "50331648");
  }

  lemma TornZero()
    ensures IsWrite(Torn(0, 1)) && Written(Torn(0, 1)) == "0"
  {
    assert Decimal(0) == "0";
  }

  lemma PrependTear(w: Write, first: string, writes: seq<Write>, rest: string, text: string) returns (all: seq<Write>)
    requires IsWrite(w) && Written(w) == first && IsTearOffset(w.offset)
    requires AreTears(writes) && HistoryText(writes) == rest && text == first + rest
    ensures AreTears(all) && HistoryText(all) == text
  {
    all := Prepended(w, writes, first, rest);
  }

  lemma PrependTorn(offset: nat, digits: nat, lead: nat, first: string, writes: seq<Write>, rest: string, text: string)
    returns (all: seq<Write>)
    requires Drop(offset, digits) == lead > 0 && Decimal(lead) == first && offset <= MAX_INT64 && IsTearOffset(offset)
    requires AreTears(writes) && HistoryText(writes) == rest && text == first + rest
    ensures AreTears(all) && HistoryText(all) == text
  {
    TornTo(offset, digits, lead, first);
    all := PrependTear(TornAfter(offset, digits), first, writes, rest, text);
  }

  lemma SpelledOffsetIsRead(text: string)
    requires text == "50331648"
    ensures ReadText(text) == {50_331_648}
  {
    SpelledOffset();
    DigitsAreRead(text, 50_331_648);
  }

  lemma DigitsAreRead(digits: string, v: nat)
    requires digits != "" && AllDigits(digits) && Value(digits) == v <= MAX_INT64
    ensures ReadText(digits) == {v as int}
  {
    ReadFirstLine(digits, "");
    ReadLine(digits);
  }

  lemma SixArePlanned(offset: int)
    requires IsTearOffset(offset) || offset == 50_331_648
    ensures IsPlanned(8 * MIB, 8, offset)
  {
  }

  /** Torn writes in a row can spell an offset nobody fetched even in a short plan. */
  lemma SixTearsSpellAnOffset() returns (writes: seq<Write>)
    ensures IsBadSpelling(8 * MIB, 8, writes, 50_331_648)
  {
    writes := SixTears();
    SpelledOffsetIsRead(HistoryText(writes));
    SixArePlanned(50_331_648);
    forall i | 0 <= i < |writes| ensures IsPlanned(8 * MIB, 8, writes[i].offset) && writes[i].offset != 50_331_648 {
      SixArePlanned(writes[i].offset);
    }
  }
}
