/**
The text of the progress sidecar: one decimal offset a line, appended as segments finish, and read back
line by line with whatever is malformed skipped.
*/
module Sidecar {
  import opened PartSizes
  import opened Objects

  // ----- what the source writes -----

  function Digit(d: int): char
    requires 0 <= d < 10
  {
    "0123456789"[d]
  }

  function Decimal(n: nat): (s: string)
    ensures s != []
  {
    (if n < 10 then [] else Decimal(n / 10)) + [Digit(n % 10)]
  }

  function Line(offset: nat): string {
    Decimal(offset) + "\n"
  }

  /** The sidecar after these offsets have been recorded, in this order. */
  function Text(offsets: seq<nat>): string {
    if offsets == [] then "" else Line(offsets[0]) + Text(offsets[1..])
  }

  // ----- how it is read back -----

  /** strings.Split on line feeds. */
  function Split(s: string): (lines: seq<string>) {
    if '\n' !in s then [s]
    else
      var i := FirstNewline(s);
      [s[..i]] + Split(s[i + 1..])
  }

  function FirstNewline(s: string): (i: nat)
    requires '\n' in s
    ensures i < |s| && s[i] == '\n' && forall j :: 0 <= j < i ==> s[j] != '\n'
  {
    if s[0] == '\n' then 0 else FirstNewline(s[1..]) + 1
  }

  /** unicode.IsSpace. */
  predicate IsSpace(c: char) {
    || c in "\t\n\U{0B}\U{0C}\r \U{85}\U{A0}\U{1680}\U{2028}\U{2029}\U{202F}\U{205F}\U{3000}"
    || '\U{2000}' <= c <= '\U{200A}'
  }

  function TrimRight(s: string): string {
    if s != [] && IsSpace(s[|s| - 1]) then TrimRight(s[..|s| - 1]) else s
  }

  function TrimSpace(s: string): string {
    if s != [] && IsSpace(s[0]) then TrimSpace(s[1..]) else TrimRight(s)
  }

  predicate IsDigit(c: char) {
    '0' <= c <= '9'
  }

  predicate AllDigits(s: string) {
    forall i :: 0 <= i < |s| ==> IsDigit(s[i])
  }

  function Value(s: string): nat
    requires AllDigits(s)
  {
    if s == [] then 0 else 10 * Value(s[..|s| - 1]) + (s[|s| - 1] as int - '0' as int)
  }

  /** strconv.ParseInt in base 10 for 64 bits. */
  function ParseInt(s: string): Option<int> {
    var digits := if s != [] && (s[0] == '+' || s[0] == '-') then s[1..] else s;
    if digits == [] || !AllDigits(digits) then None
    else
      var v := if s[0] == '-' then 0 - Value(digits) else Value(digits);
      if -MAX_INT64 - 1 <= v <= MAX_INT64 then Some(v) else None
  }

  function LineOffset(line: string): set<int> {
    var parsed := ParseInt(TrimSpace(line));
    if parsed.Some? then {parsed.value} else {}
  }

  function LineOffsets(lines: seq<string>): set<int> {
    if lines == [] then {} else LineOffset(lines[0]) + LineOffsets(lines[1..])
  }

  function ReadText(text: string): set<int> {
    LineOffsets(Split(text))
  }

  class ProgressSidecar {
    var text: string

    constructor ()
      ensures text == ""
    {
      text := "";
    }

    /** Appends one line, of which the disk takes no more than `room` bytes. */
    method RecordCompleted(offset: nat, room: nat) returns (ok: bool)
      modifies this
      ensures ok == (|Line(offset)| <= room)
      ensures text == old(text) + if ok then Line(offset) else Line(offset)[..room]
    {
      var line := Decimal(offset) + "\n";
      ok := |line| <= room;
      if ok {
        text := text + line;
      } else {
        text := text + line[..room];
      }
    }

    method Remove()
      modifies this
      ensures text == ""
    {
      text := "";
    }

    method ReadCompletedSegmentOffsets() returns (offsets: set<int>)
      ensures offsets == ReadText(text)
    {
      var lines := Split(text);
      offsets := {};
      var i := 0;
      while i < |lines|
        invariant 0 <= i <= |lines|
        invariant LineOffsets(lines) == offsets + LineOffsets(lines[i..])
      {
        var line := TrimSpace(lines[i]);
        if line != "" {
          var parsed := ParseInt(line);
          if parsed.Some? {
            offsets := offsets + {parsed.value};
          }
        }
        assert lines[i..][1..] == lines[i + 1..];
        i := i + 1;
      }
    }
  }

  // ----- digits -----

  lemma {:induction false} DecimalReadsBack(n: nat)
    ensures AllDigits(Decimal(n)) && Value(Decimal(n)) == n
  {
    if n >= 10 {
      DecimalReadsBack(n / 10);
      assert Decimal(n)[..|Decimal(n)| - 1] == Decimal(n / 10);
    } else {
      assert Decimal(n)[..0] == "";
    }
  }

  lemma {:induction false} NoLeadingZero(n: nat)
    ensures n > 0 ==> Decimal(n)[0] != '0'
  {
    if n >= 10 {
      NoLeadingZero(n / 10);
    }
  }

  /** A digit prefix of a number is the decimal form of a number, a tenth of it at most. */
  lemma {:induction false} DigitPrefix(n: nat, k: nat) returns (v: nat)
    requires 0 < k <= |Decimal(n)|
    ensures Decimal(n)[..k] == Decimal(v) && v <= n
    ensures k < |Decimal(n)| ==> 10 * v <= n
  {
    if k == |Decimal(n)| {
      v := n;
      assert Decimal(n)[..k] == Decimal(n);
    } else {
      v := DigitPrefix(n / 10, k);
      assert Decimal(n)[..k] == Decimal(n / 10)[..k];
    }
  }

  // ----- lines -----

  lemma SplitLine(line: string, rest: string)
    requires '\n' !in line
    ensures Split(line + "\n" + rest) == [line] + Split(rest)
  {
    var s := line + "\n" + rest;
    assert s[|line|] == '\n';
    var i := FirstNewline(s);
    assert forall j :: 0 <= j < |line| ==> s[j] == line[j] && line[j] in line;
    assert s[..i] == line && s[i + 1..] == rest;
  }

  lemma ReadLine(digits: string)
    requires digits != [] && AllDigits(digits)
    ensures '\n' !in digits
    ensures LineOffset(digits) == if Value(digits) <= MAX_INT64 then {Value(digits) as int} else {}
  {
    assert !IsSpace(digits[0]) && !IsSpace(digits[|digits| - 1]);
    assert TrimSpace(digits) == digits;
    assert IsDigit(digits[0]);
  }

  predicate AllSpaces(s: string) {
    forall i :: 0 <= i < |s| ==> IsSpace(s[i])
  }

  predicate IsTrimmed(s: string) {
    s != "" && !IsSpace(s[0]) && !IsSpace(s[|s| - 1])
  }

  lemma {:induction false} TrimRightDrops(body: string, post: string)
    requires IsTrimmed(body) && AllSpaces(post)
    ensures TrimRight(body + post) == body
  {
    if post == "" {
      assert body + post == body;
    } else {
      var front := post[..|post| - 1];
      assert (body + post)[..|body + post| - 1] == body + front;
      TrimRightDrops(body, front);
    }
  }

  lemma {:induction false} TrimSpaceDrops(pre: string, body: string, post: string)
    requires AllSpaces(pre) && IsTrimmed(body) && AllSpaces(post)
    ensures TrimSpace(pre + (body + post)) == body
  {
    if pre == "" {
      assert pre + (body + post) == body + post;
      TrimRightDrops(body, post);
    } else {
      assert (pre + (body + post))[1..] == pre[1..] + (body + post);
      TrimSpaceDrops(pre[1..], body, post);
    }
  }

  /** An integer of 64 bits, written with or without a sign. */
  function Numeral(sign: string, rest: string): set<int> {
    if rest == "" || !AllDigits(rest) then {}
    else if sign == "-" then (if Value(rest) <= MAX_INT64 + 1 then {0 - Value(rest)} else {})
    else (if Value(rest) <= MAX_INT64 then {0 + Value(rest)} else {})
  }

  predicate IsSigned(body: string, sign: string, rest: string) {
    && body == sign + rest && sign in {"", "+", "-"}
    && (sign == "" && rest != "" ==> rest[0] != '+' && rest[0] != '-')
  }

  lemma SignedIsParsed(body: string, sign: string, rest: string)
    requires IsSigned(body, sign, rest)
    ensures var parsed := ParseInt(body);
      (if parsed.Some? then {parsed.value} else {}) == Numeral(sign, rest)
  {
    if sign == "" {
      assert body == rest;
    } else {
      assert body[0] == sign[0] && body[1..] == rest;
    }
  }

  /** A line is read exactly when, between its outer spaces, it is a decimal integer of 64 bits; any other line
      is skipped. */
  lemma LineIsRead(pre: string, body: string, post: string, sign: string, rest: string)
    requires AllSpaces(pre) && AllSpaces(post) && IsTrimmed(body) && IsSigned(body, sign, rest)
    ensures LineOffset(pre + (body + post)) == Numeral(sign, rest)
  {
    TrimSpaceDrops(pre, body, post);
    SignedIsParsed(body, sign, rest);
  }

  lemma ReadBlankLine(spaces: string)
    requires AllSpaces(spaces)
    ensures LineOffset(spaces) == {}
    decreases |spaces|
  {
    if spaces != "" {
      ReadBlankLine(spaces[1..]);
    }
  }

  lemma ReadFirstLine(digits: string, rest: string)
    requires digits != [] && AllDigits(digits)
    ensures ReadText(digits + "\n" + rest) == LineOffset(digits) + ReadText(rest)
    ensures ReadText(digits) == LineOffset(digits)
  {
    ReadLine(digits);
    SplitLine(digits, rest);
    assert ([digits] + Split(rest))[1..] == Split(rest);
    assert LineOffsets([digits]) == LineOffset(digits) + LineOffsets([]);
  }

  lemma ReadDecimal(offset: nat, rest: string)
    requires offset <= MAX_INT64
    ensures ReadText(Line(offset) + rest) == {offset as int} + ReadText(rest)
    ensures ReadText(Decimal(offset)) == {offset as int}
  {
    DecimalReadsBack(offset);
    ReadLine(Decimal(offset));
    ReadFirstLine(Decimal(offset), rest);
  }

  predicate AreOffsets(offsets: seq<nat>) {
    forall i :: 0 <= i < |offsets| ==> offsets[i] <= MAX_INT64
  }

  function Members(offsets: seq<nat>): set<int> {
    if offsets == [] then {} else {offsets[0] as int} + Members(offsets[1..])
  }

  /** The recorded lines come first, whatever follows them. */
  lemma {:induction false} RecordedLinesAreRead(offsets: seq<nat>, rest: string)
    requires AreOffsets(offsets)
    ensures ReadText(Text(offsets) + rest) == Members(offsets) + ReadText(rest)
  {
    if offsets == [] {
      assert Text(offsets) + rest == rest;
    } else {
      var others := offsets[1..];
      assert Text(offsets) + rest == Line(offsets[0]) + (Text(others) + rest);
      ReadDecimal(offsets[0], Text(others) + rest);
      RecordedLinesAreRead(others, rest);
    }
  }

  lemma ReadNothing()
    ensures ReadText("") == {}
  {
    assert LineOffsets([""]) == LineOffset("") + LineOffsets([]);
  }

  /** Reading the recorded lines gives exactly the recorded offsets. */
  lemma RecordedOffsetsReadBack(offsets: seq<nat>)
    requires AreOffsets(offsets)
    ensures ReadText(Text(offsets)) == Members(offsets)
  {
    RecordedLinesAreRead(offsets, "");
    assert Text(offsets) + "" == Text(offsets);
    ReadNothing();
  }

  // ----- torn writes -----

  /** The sidecar when the write of `offset`'s line stopped after k bytes. */
  function TornText(recorded: seq<nat>, offset: nat, k: nat): string
    requires k <= |Line(offset)|
  {
    Text(recorded) + Line(offset)[..k]
  }

  /** Every byte prefix of a sidecar is its first lines and one torn line. */
  lemma {:induction false} PrefixIsTorn(offsets: seq<nat>, k: nat) returns (n: nat, j: nat)
    requires k < |Text(offsets)|
    ensures n < |offsets| && j <= |Line(offsets[n])|
    ensures Text(offsets)[..k] == TornText(offsets[..n], offsets[n], j)
  {
    var line := Line(offsets[0]);
    if k <= |line| {
      n, j := 0, k;
      assert offsets[..0] == [] && Text([]) == "";
      assert Text(offsets)[..k] == "" + line[..k];
    } else {
      var n', j' := PrefixIsTorn(offsets[1..], k - |line|);
      n, j := n' + 1, j';
      assert offsets[..n][1..] == offsets[1..][..n'];
      assert Text(offsets)[..k] == line + Text(offsets[1..])[..k - |line|];
      assert line + (Text(offsets[..n][1..]) + Line(offsets[n])[..j])
          == line + Text(offsets[..n][1..]) + Line(offsets[n])[..j];
    }
  }

  lemma TornLineIsRead(offset: nat, k: nat) returns (v: nat)
    requires offset <= MAX_INT64 && k <= |Line(offset)|
    ensures ReadText(Line(offset)[..k]) == if k == 0 then {} else {v as int}
    ensures 0 < k < |Decimal(offset)| ==> Decimal(v) == Decimal(offset)[..k] && 10 * v <= offset
    ensures |Decimal(offset)| <= k ==> v == offset
  {
    v := offset;
    ReadNothing();
    if 0 < k <= |Decimal(offset)| {
      assert Line(offset)[..k] == Decimal(offset)[..k];
      v := DigitPrefix(offset, k);
      if k == |Decimal(offset)| {
        assert Decimal(offset)[..k] == Decimal(offset);
        v := offset;
      }
      ReadDecimal(v, "");
    } else if k > 0 {
      assert Line(offset)[..k] == Line(offset) + "";
      ReadDecimal(offset, "");
    }
  }

  /** A torn sidecar reads as the recorded offsets and at most one number more: the one the surviving
      digits of the interrupted offset spell. */
  lemma TornTextIsRead(recorded: seq<nat>, offset: nat, k: nat) returns (v: nat)
    requires AreOffsets(recorded) && offset <= MAX_INT64 && k <= |Line(offset)|
    ensures ReadText(TornText(recorded, offset, k)) == Members(recorded) + if k == 0 then {} else {v as int}
    ensures 0 < k < |Decimal(offset)| ==> Decimal(v) == Decimal(offset)[..k] && 10 * v <= offset
    ensures |Decimal(offset)| <= k ==> v == offset
  {
    v := TornLineIsRead(offset, k);
    RecordedLinesAreRead(recorded, Line(offset)[..k]);
  }

  /** The next run appends after the torn digits: its first line is lost in the number they spell
      together, its other lines are read. */
  lemma NextLineIsGlued(recorded: seq<nat>, offset: nat, k: nat, next: seq<nat>)
    requires AreOffsets(recorded) && AreOffsets(next) && next != []
    requires 0 < k <= |Decimal(offset)|
    ensures AllDigits(Glued(offset, k, next[0]))
    ensures ReadText(TornText(recorded, offset, k) + Text(next))
         == Members(recorded) + LineOffset(Glued(offset, k, next[0])) + Members(next[1..])
    ensures LineOffset(Glued(offset, k, next[0]))
         == (var v := Value(Glued(offset, k, next[0])); if v <= MAX_INT64 then {v as int} else {})
  {
    GluedDigits(offset, k, next[0]);
    GluedText(recorded, offset, k, next);
    LineAmongRecorded(recorded, Glued(offset, k, next[0]), next[1..]);
  }

  lemma LineAmongRecorded(before: seq<nat>, digits: string, after: seq<nat>)
    requires AreOffsets(before) && AreOffsets(after) && digits != [] && AllDigits(digits)
    ensures ReadText(Text(before) + (digits + "\n" + Text(after)))
         == Members(before) + LineOffset(digits) + Members(after)
    ensures LineOffset(digits) == if Value(digits) <= MAX_INT64 then {Value(digits) as int} else {}
  {
    RecordedLinesAreRead(before, digits + "\n" + Text(after));
    ReadFirstLine(digits, Text(after));
    ReadLine(digits);
    RecordedOffsetsReadBack(after);
  }

  function Glued(offset: nat, k: nat, next: nat): string
    requires k <= |Decimal(offset)|
  {
    Decimal(offset)[..k] + Decimal(next)
  }

  lemma GluedText(recorded: seq<nat>, offset: nat, k: nat, next: seq<nat>)
    requires k <= |Decimal(offset)| && next != []
    ensures TornText(recorded, offset, k) + Text(next)
         == Text(recorded) + (Glued(offset, k, next[0]) + "\n" + Text(next[1..]))
  {
    assert Line(offset)[..k] == Decimal(offset)[..k];
    Regroup(Text(recorded), Decimal(offset)[..k], Decimal(next[0]), "\n", Text(next[1..]));
  }

  lemma Regroup(a: string, b: string, c: string, d: string, e: string)
    ensures a + b + (c + d + e) == a + (b + c + d + e)
  {
  }

  lemma GluedDigits(offset: nat, k: nat, next: nat)
    requires k <= |Decimal(offset)|
    ensures AllDigits(Glued(offset, k, next))
  {
    DecimalReadsBack(offset);
    DecimalReadsBack(next);
  }
}
