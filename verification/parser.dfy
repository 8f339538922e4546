/**
 * `OrderDogParser`: the segment lexer (`parseSegments`), the advisory
 * sequence check (`validateSegments`) and the fold of segments into a
 * `PurchaseOrder` (`parseEDI`).
 */
module OrderDogParser {
  import opened Wrappers
  import opened JsString
  import opened Types

  /** The constructor's two settings: the segment terminator and the element separator. */
  datatype Delimiters = Delimiters(terminator: char, separator: char)

  const Default: Delimiters := Delimiters('~', '*')

  /** The two exceptions `parseEDI` throws. */
  datatype ParseError =
    | InvalidContent                    // "Invalid EDI content provided."
    | InvalidDate(date: Option<string>) // "Invalid date format: ..."

  /** `elements[i]`, `undefined` past the end. */
  function Element(elements: seq<string>, i: nat): (r: Option<string>)
    ensures r.Some? <==> i < |elements|
    ensures r.Some? ==> r.value == elements[i]
  {
    if i < |elements| then Some(elements[i]) else None
  }

  /** `x?.trim()` */
  function TrimOpt(x: Option<string>): Option<string> {
    match x
    case None => None
    case Some(s) => Some(Trim(s))
  }

  // ---------------------------------------------------------------- lexer

  /** `line.endsWith(terminator) ? line.slice(0, -1) : line` */
  function StripTerminator(line: string, d: Delimiters): (r: string)
    ensures if EndsWith(line, d.terminator) then r + [d.terminator] == line else r == line
  {
    if EndsWith(line, d.terminator) then line[..|line| - 1] else line
  }

  /** The tag and elements joined back with the separator. */
  function Rejoin(seg: EdiSegment, d: Delimiters): string {
    Join([seg.tag] + seg.elements, d.separator)
  }

  /** One cleaned line split on the separator: the first token is the tag. */
  function ToSegment(line: string, d: Delimiters): (seg: EdiSegment)
    ensures Rejoin(seg, d) == StripTerminator(line, d)
    ensures d.separator !in seg.tag
    ensures forall i :: 0 <= i < |seg.elements| ==> d.separator !in seg.elements[i]
  {
    var tokens := Split(StripTerminator(line, d), d.separator);
    assert [tokens[0]] + tokens[1..] == tokens;
    EdiSegment(tokens[0], tokens[1..])
  }

  /** The trimmed lines that are not blank, in order (`map(trim)` then `filter`). */
  function NonBlank(lines: seq<string>): (r: seq<string>)
    ensures |r| <= |lines|
    ensures forall i :: 0 <= i < |r| ==> r[i] != [] && IsTrimmed(r[i])
  {
    if lines == [] then []
    else
      var t := Trim(lines[0]);
      var rest := NonBlank(lines[1..]);
      if t == [] then rest
      else
        KeptCons(t, rest);
        [t] + rest
  }

  /** A non-empty trimmed line in front of such lines. */
  lemma KeptCons(t: string, rest: seq<string>)
    requires t != [] && IsTrimmed(t)
    requires forall i :: 0 <= i < |rest| ==> rest[i] != [] && IsTrimmed(rest[i])
    ensures forall i :: 0 <= i < |[t] + rest| ==> ([t] + rest)[i] != [] && IsTrimmed(([t] + rest)[i])
  {
    forall i | 0 < i < |[t] + rest|
      ensures ([t] + rest)[i] == rest[i - 1]
    {
    }
  }

  /** `lines.map(line => line.trim())` */
  function Trimmed(lines: seq<string>): (t: seq<string>)
    ensures |t| == |lines|
  {
    seq(|lines|, i requires 0 <= i < |lines| => Trim(lines[i]))
  }

  /**
   * `idx` picks, in increasing order, the lines `kept` out of `t`, and every
   * line of `t` it does not pick is empty.
   */
  predicate Picks(t: seq<string>, idx: seq<nat>, kept: seq<string>) {
    && |idx| == |kept|
    && (forall j :: 0 <= j < |idx| ==> idx[j] < |t| && kept[j] == t[idx[j]])
    && (forall j, j' :: 0 <= j < j' < |idx| ==> idx[j] < idx[j'])
    && (forall i :: 0 <= i < |t| && i !in idx ==> t[i] == [])
  }

  /**
   * `map(trim)` then `filter(line => line.length > 0)`: the result is the
   * trimmed lines, in input order, leaving out exactly those that trim to
   * nothing (the kept ones are non-empty by `NonBlank`'s own contract).
   */
  lemma {:induction false} NonBlankPicks(lines: seq<string>)
    ensures exists idx :: Picks(Trimmed(lines), idx, NonBlank(lines))
  {
    if lines == [] {
      assert Picks(Trimmed(lines), [], NonBlank(lines));
    } else {
      var tail := lines[1..];
      NonBlankPicks(tail);
      var idx' :| Picks(Trimmed(tail), idx', NonBlank(tail));
      var t := Trimmed(lines);
      var kept := NonBlank(tail);
      NonBlankStep(lines);
      PicksShift(t, idx', kept);
      if t[0] != [] {
        PicksCons(t, Shift(idx'), kept);
      }
    }
  }

  /** One line of `map(trim)` and `filter`. */
  lemma NonBlankStep(lines: seq<string>)
    requires lines != []
    ensures Trimmed(lines)[1..] == Trimmed(lines[1..])
    ensures NonBlank(lines) == if Trimmed(lines)[0] == [] then NonBlank(lines[1..]) else [Trimmed(lines)[0]] + NonBlank(lines[1..])
  {
    TrimmedTail(lines);
    assert Trimmed(lines)[0] == Trim(lines[0]);
  }

  lemma TrimmedTail(lines: seq<string>)
    requires lines != []
    ensures Trimmed(lines)[1..] == Trimmed(lines[1..])
  {
    var t := Trimmed(lines);
    var tail := lines[1..];
    forall i | 0 <= i < |tail|
      ensures t[1..][i] == Trimmed(tail)[i]
    {
      assert tail[i] == lines[i + 1];
    }
  }

  /** Every index one higher. */
  function Shift(idx: seq<nat>): (r: seq<nat>)
    ensures |r| == |idx| && forall j :: 0 <= j < |idx| ==> r[j] == idx[j] + 1
  {
    seq(|idx|, j requires 0 <= j < |idx| => idx[j] + 1)
  }

  /** The picks of the tail, one higher, pick the same lines out of the whole, except for the first line. */
  lemma PicksShift(t: seq<string>, idx': seq<nat>, kept: seq<string>)
    requires t != [] && Picks(t[1..], idx', kept)
    ensures |Shift(idx')| == |kept|
    ensures forall j :: 0 <= j < |kept| ==> 0 < Shift(idx')[j] < |t| && kept[j] == t[Shift(idx')[j]]
    ensures forall j, j' :: 0 <= j < j' < |kept| ==> Shift(idx')[j] < Shift(idx')[j']
    ensures forall i :: 0 < i < |t| && i !in Shift(idx') ==> t[i] == []
    ensures t[0] == [] ==> Picks(t, Shift(idx'), kept)
  {
    var tail := t[1..];
    var idx := Shift(idx');
    forall j | 0 <= j < |kept|
      ensures 0 < idx[j] < |t| && kept[j] == t[idx[j]]
    {
      assert t[idx[j]] == tail[idx'[j]];
    }
    forall i | 0 < i < |t| && i !in idx
      ensures t[i] == []
    {
      ShiftGap(t, idx', kept, i);
    }
    if t[0] == [] {
      forall i | 0 <= i < |t| && i !in idx
        ensures t[i] == []
      {
        if i > 0 {
          ShiftGap(t, idx', kept, i);
        }
      }
    }
  }

  /** A line of the whole past the first that the shifted picks miss is one the tail's picks miss. */
  lemma ShiftGap(t: seq<string>, idx': seq<nat>, kept: seq<string>, i: nat)
    requires t != [] && Picks(t[1..], idx', kept)
    requires 0 < i < |t| && i !in Shift(idx')
    ensures t[i] == []
  {
    var idx := Shift(idx');
    forall j | 0 <= j < |idx'|
      ensures idx'[j] != i - 1
    {
      assert idx[j] in idx;
    }
    assert t[i] == t[1..][i - 1];
  }

  /** A first line that is not empty is picked first. */
  lemma PicksCons(t: seq<string>, idx: seq<nat>, kept: seq<string>)
    requires t != [] && t[0] != [] && |idx| == |kept|
    requires forall j :: 0 <= j < |kept| ==> 0 < idx[j] < |t| && kept[j] == t[idx[j]]
    requires forall j, j' :: 0 <= j < j' < |kept| ==> idx[j] < idx[j']
    requires forall i :: 0 < i < |t| && i !in idx ==> t[i] == []
    ensures Picks(t, [0] + idx, [t[0]] + kept)
  {
    var all := [0] + idx;
    var out := [t[0]] + kept;
    forall j | 0 <= j < |all|
      ensures all[j] < |t| && out[j] == t[all[j]]
    {
      if j > 0 {
        assert all[j] == idx[j - 1] && out[j] == kept[j - 1];
      }
    }
    forall j, j' | 0 <= j < j' < |all|
      ensures all[j] < all[j']
    {
      assert all[j'] == idx[j' - 1];
      if j > 0 {
        assert all[j] == idx[j - 1];
      }
    }
    forall i | 0 <= i < |t| && i !in all
      ensures t[i] == []
    {
      assert i != 0 && i !in idx;
    }
  }

  predicate AllNoLineBreak(lines: seq<string>) {
    forall i :: 0 <= i < |lines| ==> NoLineBreak(lines[i])
  }

  /** Dropping blank lines and trimming the rest never introduces a line break. */
  lemma {:induction false} NonBlankNoLineBreak(lines: seq<string>)
    requires AllNoLineBreak(lines)
    ensures AllNoLineBreak(NonBlank(lines))
  {
    if lines != [] {
      var t := Trim(lines[0]);
      var tail := lines[1..];
      assert AllNoLineBreak(tail) by {
        forall i | 0 <= i < |tail|
          ensures NoLineBreak(tail[i])
        {
          assert tail[i] == lines[i + 1];
        }
      }
      NonBlankNoLineBreak(tail);
      var rest := NonBlank(tail);
      if t != [] {
        TrimNoLineBreak(lines[0]);
        var r := [t] + rest;
        forall i | 0 <= i < |r|
          ensures NoLineBreak(r[i])
        {
          if i > 0 {
            assert r[i] == rest[i - 1];
          }
        }
      }
    }
  }

  /** `trim` keeps a piece of its input, so it adds no line break. */
  lemma TrimNoLineBreak(s: string)
    requires NoLineBreak(s)
    ensures NoLineBreak(Trim(s))
  {
    var t := Trim(s);
    forall k | 0 <= k < |t|
      ensures !IsLineBreak(t[k])
    {
      assert t[k] == s[TrimOffset(s) + k];
    }
  }

  /** The non-blank trimmed lines of the content, lines being runs between CR/LF characters. */
  function Lines(content: string): seq<string> {
    NonBlank(SplitLines(content))
  }

  /**
   * `parseSegments`: one segment per non-blank trimmed line, in line order;
   * each segment joins back to its line minus at most one terminator.
   */
  function ParseSegments(content: string, d: Delimiters): (segs: seq<EdiSegment>)
    ensures |segs| == |Lines(content)|
    ensures forall i :: 0 <= i < |segs| ==> Rejoin(segs[i], d) == StripTerminator(Lines(content)[i], d)
  {
    var lines := Lines(content);
    seq(|lines|, i requires 0 <= i < |lines| => ToSegment(lines[i], d))
  }

  /** Delimiters the lexer can round-trip: the terminator survives `trim` and neither splits lines. */
  predicate Usable(d: Delimiters) {
    !IsWhiteSpace(d.terminator) && !IsLineBreak(d.terminator) && !IsLineBreak(d.separator)
  }

  /** Each segment rejoined and followed by one terminator. */
  function Written(segs: seq<EdiSegment>, d: Delimiters): (out: seq<string>)
    ensures |out| == |segs|
    ensures forall i :: 0 <= i < |segs| ==> out[i] == Rejoin(segs[i], d) + [d.terminator]
  {
    seq(|segs|, i requires 0 <= i < |segs| => Rejoin(segs[i], d) + [d.terminator])
  }

  /** Writes segments back as text: each rejoined, terminated, one per line. */
  function Unlex(segs: seq<EdiSegment>, d: Delimiters): string {
    if segs == [] then "" else JoinLines(Written(segs, d))
  }

  /**
   * A segment the writer can put on a line of its own: no token holds the
   * separator or a line break, and the line does not start with white space.
   */
  predicate Writable(seg: EdiSegment, d: Delimiters) {
    && d.separator !in seg.tag && NoLineBreak(seg.tag)
    && (forall i :: 0 <= i < |seg.elements| ==> d.separator !in seg.elements[i] && NoLineBreak(seg.elements[i]))
    && (Lead(seg, d).None? || !IsWhiteSpace(Lead(seg, d).value))
  }

  /** The first character of the rejoined segment: the tag's, or the separator after an empty tag. */
  function Lead(seg: EdiSegment, d: Delimiters): Option<char> {
    if seg.tag != [] then Some(seg.tag[0])
    else if seg.elements != [] then Some(d.separator)
    else None
  }

  /** `Lead` is the first character of `Rejoin`, which is empty exactly when `Lead` is `None`. */
  lemma RejoinStart(seg: EdiSegment, d: Delimiters)
    ensures Rejoin(seg, d) == [] <==> Lead(seg, d).None?
    ensures Lead(seg, d).Some? ==> Rejoin(seg, d)[0] == Lead(seg, d).value
  {
    var tokens := [seg.tag] + seg.elements;
    if |tokens| > 1 {
      assert Rejoin(seg, d) == seg.tag + ([d.separator] + Join(tokens[1..], d.separator));
    }
  }

  /** Writing out at least one segment gives non-empty text. */
  lemma UnlexNonEmpty(segs: seq<EdiSegment>, d: Delimiters)
    requires segs != []
    ensures Unlex(segs, d) != []
  {
    var out := Written(segs, d);
    if |out| > 1 {
      assert Join(out, '\n') == out[0] + ['\n'] + Join(out[1..], '\n');
    }
  }

  /** A writable segment, written with one terminator, is a clean line that lexes back to it. */
  lemma WrittenLine(seg: EdiSegment, d: Delimiters)
    requires Usable(d) && Writable(seg, d)
    ensures var line := Rejoin(seg, d) + [d.terminator];
      && line != [] && IsTrimmed(line) && NoLineBreak(line)
      && ToSegment(line, d) == seg
  {
    var tokens := [seg.tag] + seg.elements;
    var joined := Rejoin(seg, d);
    var line := joined + [d.terminator];
    assert forall i :: 0 < i < |tokens| ==> tokens[i] == seg.elements[i - 1];
    SplitOfJoin(tokens, d.separator);
    JoinNoLineBreak(tokens, d.separator);
    assert StripTerminator(line, d) == joined by {
      assert line[..|line| - 1] == joined;
    }
    assert tokens[1..] == seg.elements;
    RejoinStart(seg, d);
    assert NoLineBreak(line) by {
      forall k | 0 <= k < |line|
        ensures !IsLineBreak(line[k])
      {
        if k < |joined| {
          assert line[k] == joined[k];
        }
      }
    }
    assert joined != [] ==> line[0] == joined[0];
  }

  /** Writing segments out and lexing the text gives them back. */
  lemma UnlexLex(segs: seq<EdiSegment>, d: Delimiters)
    requires Usable(d)
    requires forall i :: 0 <= i < |segs| ==> Writable(segs[i], d)
    ensures ParseSegments(Unlex(segs, d), d) == segs
  {
    if segs == [] {
      assert Trim("") == "";
      assert Lines("") == [];
    } else {
      var out := Written(segs, d);
      forall i | 0 <= i < |out|
        ensures out[i] != [] && IsTrimmed(out[i]) && NoLineBreak(out[i])
        ensures ToSegment(out[i], d) == segs[i]
      {
        WrittenLine(segs[i], d);
      }
      ParseSegmentsOfClean(out, d);
    }
  }

  /** Lexing the lexer's own output, written back as text, gives the same segments. */
  lemma LexUnlexLex(content: string, d: Delimiters)
    requires Usable(d)
    ensures ParseSegments(Unlex(ParseSegments(content, d), d), d) == ParseSegments(content, d)
  {
    var segs := ParseSegments(content, d);
    var lines := Lines(content);
    NonBlankNoLineBreak(SplitLines(content));
    forall i | 0 <= i < |segs|
      ensures Writable(segs[i], d)
    {
      LexedWritable(lines[i], d);
    }
    UnlexLex(segs, d);
  }

  /** A segment the lexer produced from a clean line is writable. */
  lemma LexedWritable(line: string, d: Delimiters)
    requires line != [] && IsTrimmed(line) && NoLineBreak(line)
    ensures Writable(ToSegment(line, d), d)
  {
    var seg := ToSegment(line, d);
    var stripped := StripTerminator(line, d);
    assert stripped == line[..|stripped|];
    assert NoLineBreak(stripped) by {
      forall k | 0 <= k < |stripped|
        ensures !IsLineBreak(stripped[k])
      {
        assert stripped[k] == line[k];
      }
    }
    var tokens := [seg.tag] + seg.elements;
    JoinedPiecesNoLineBreak(tokens, d.separator);
    assert tokens[0] == seg.tag;
    assert forall i :: 0 <= i < |seg.elements| ==> seg.elements[i] == tokens[i + 1];
    assert stripped != [] ==> stripped[0] == line[0];
    RejoinStart(seg, d);
  }

  /** Lines with no break, no blank and no white space at either end. */
  predicate Clean(lines: seq<string>) {
    forall i :: 0 <= i < |lines| ==> lines[i] != [] && IsTrimmed(lines[i]) && NoLineBreak(lines[i])
  }

  /** Joining clean lines and lexing gives back one segment per line. */
  lemma ParseSegmentsOfClean(lines: seq<string>, d: Delimiters)
    requires |lines| >= 1 && Clean(lines)
    ensures |ParseSegments(JoinLines(lines), d)| == |lines|
    ensures forall i :: 0 <= i < |lines| ==> ParseSegments(JoinLines(lines), d)[i] == ToSegment(lines[i], d)
  {
    SplitLinesOfJoin(lines);
    NonBlankOfClean(lines);
    assert Lines(JoinLines(lines)) == lines;
  }

  /** Lines that are already trimmed and non-blank pass through unchanged. */
  lemma {:induction false} NonBlankOfClean(lines: seq<string>)
    requires forall i :: 0 <= i < |lines| ==> lines[i] != [] && IsTrimmed(lines[i])
    ensures NonBlank(lines) == lines
  {
    if lines != [] {
      TrimOfTrimmed(lines[0]);
      NonBlankOfClean(lines[1..]);
      assert [lines[0]] + lines[1..] == lines;
    }
  }

  /** Only one terminator is removed: a line ending `~~` keeps one `~`. */
  lemma OneTerminatorStripped(body: string, d: Delimiters)
    requires d.separator !in body && d.separator != d.terminator
    ensures ToSegment(body + [d.terminator, d.terminator], d) == EdiSegment(body + [d.terminator], [])
  {
    var line := body + [d.terminator, d.terminator];
    assert StripTerminator(line, d) == body + [d.terminator];
    SplitOfJoin([body + [d.terminator]], d.separator);
  }

  // -------------------------------------------------------- validateSegments

  /** `validateSegments`: its order checks are commented out, so it accepts every sequence. */
  function ValidateSegments(segs: seq<EdiSegment>): (ok: bool)
    ensures ok
  {
    true
  }

  // ---------------------------------------------------------------- builder

  /** The record `parseEDI` starts from. */
  const EmptyOrder: PurchaseOrder := PurchaseOrder(
    Header(Some(""), Some(""), Some(""), Some("")),
    Party(Some(""), Some("")),
    Party(Some(""), Some("")),
    [],
    Zero)

  /** `/^\d{8}$/.test(date)`; `undefined` becomes the text "undefined", which does not match. */
  predicate IsEightDigits(date: Option<string>) {
    date.Some? && |date.value| == 8 && forall k :: 0 <= k < 8 ==> '0' <= date.value[k] <= '9'
  }

  /** The line item a PO1 segment pushes: elements 0 to 3 and 6. */
  function ItemOf(seg: EdiSegment): PoItem {
    var e := seg.elements;
    PoItem(Element(e, 0), Element(e, 1), Element(e, 2), Element(e, 3), Element(e, 6))
  }

  /** One turn of the `switch (segment.tag)` in `parseEDI`. */
  function Apply(po: PurchaseOrder, seg: EdiSegment): Result<PurchaseOrder, ParseError> {
    var e := seg.elements;
    if seg.tag == "ISA" then
      Success(po.(header := po.header.(senderId := TrimOpt(Element(e, 5)), receiverId := TrimOpt(Element(e, 7)))))
    else if seg.tag == "BEG" then
      if IsEightDigits(Element(e, 4)) then
        Success(po.(header := po.header.(poNumber := Element(e, 2), date := Element(e, 4))))
      else Failure(InvalidDate(Element(e, 4)))
    else if seg.tag == "N1" then
      if Element(e, 0) == Some("BT") then Success(po.(billTo := Party(Element(e, 1), Element(e, 3))))
      else if Element(e, 0) == Some("ST") then Success(po.(shipTo := Party(Element(e, 1), Element(e, 3))))
      else Success(po)
    else if seg.tag == "PO1" then
      Success(po.(items := po.items + [ItemOf(seg)]))
    else if seg.tag == "CTT" then
      Success(po.(totalItems := ParseIntOf(Element(e, 0))))
    else Success(po)
  }

  /** The segments applied in order; the first exception ends the fold. */
  function Build(po: PurchaseOrder, segs: seq<EdiSegment>): Result<PurchaseOrder, ParseError>
    decreases segs
  {
    if segs == [] then Success(po)
    else
      match Apply(po, segs[0])
      case Failure(e) => Failure(e)
      case Success(next) => Build(next, segs[1..])
  }

  /** What `parseEDI` resolves or rejects with. */
  function Parse(content: string, d: Delimiters): Result<PurchaseOrder, ParseError> {
    if content == [] then Failure(InvalidContent)
    else Build(EmptyOrder, ParseSegments(content, d))
  }

  /** `parseEDI`: the record is updated field by field while the segments are walked. */
  method ParseEDI(content: string, d: Delimiters) returns (r: Result<PurchaseOrder, ParseError>)
    ensures r == Parse(content, d)
  {
    if content == [] {
      return Failure(InvalidContent);
    }
    var segments := ParseSegments(content, d);
    var _ := ValidateSegments(segments);
    var po := EmptyOrder;
    for i := 0 to |segments|
      invariant Build(po, segments[i..]) == Build(EmptyOrder, segments)
    {
      var segment := segments[i];
      var e := segment.elements;
      assert segments[i..][1..] == segments[i + 1..];
      if segment.tag == "ISA" {
        po := po.(header := po.header.(senderId := TrimOpt(Element(e, 5))));
        po := po.(header := po.header.(receiverId := TrimOpt(Element(e, 7))));
      } else if segment.tag == "BEG" {
        po := po.(header := po.header.(poNumber := Element(e, 2)));
        po := po.(header := po.header.(date := Element(e, 4)));
        if !IsEightDigits(po.header.date) {
          return Failure(InvalidDate(po.header.date));
        }
      } else if segment.tag == "N1" {
        var qualifier := Element(e, 0);
        if qualifier == Some("BT") {
          po := po.(billTo := po.billTo.(name := Element(e, 1)));
          po := po.(billTo := po.billTo.(accountNumber := Element(e, 3)));
        } else if qualifier == Some("ST") {
          po := po.(shipTo := po.shipTo.(name := Element(e, 1)));
          po := po.(shipTo := po.shipTo.(accountNumber := Element(e, 3)));
        }
      } else if segment.tag == "PO1" {
        po := po.(items := po.items + [ItemOf(segment)]);
      } else if segment.tag == "CTT" {
        po := po.(totalItems := ParseIntOf(Element(e, 0)));
      }
    }
    return Success(po);
  }
}
