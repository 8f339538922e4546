/**
 * The JavaScript string built-ins the parsers rely on: `trim`, `split` with a
 * one-character separator, `split(/[\r\n]+/)`, `startsWith`, `endsWith` and
 * ASCII `toLowerCase`.
 */
module JsString {

  /** Characters matched by the class `[\r\n]`. */
  predicate IsLineBreak(c: char) {
    c == '\r' || c == '\n'
  }

  /** The WhiteSpace and LineTerminator characters that `String.prototype.trim` removes. */
  predicate IsWhiteSpace(c: char) {
    c == ' ' || c == '\t' || c == '\n' || c == '\r' || c == '\U{000B}' || c == '\U{000C}'
    || c == '\U{00A0}' || c == '\U{1680}' || ('\U{2000}' <= c <= '\U{200A}')
    || c == '\U{2028}' || c == '\U{2029}' || c == '\U{202F}' || c == '\U{205F}'
    || c == '\U{3000}' || c == '\U{FEFF}'
  }

  predicate NoLineBreak(s: string) {
    forall k :: 0 <= k < |s| ==> !IsLineBreak(s[k])
  }

  /** A string with no white space at either end, as `trim` leaves it. */
  predicate IsTrimmed(s: string) {
    s == [] || (!IsWhiteSpace(s[0]) && !IsWhiteSpace(s[|s| - 1]))
  }

  predicate StartsWith(s: string, c: char) {
    |s| > 0 && s[0] == c
  }

  predicate EndsWith(s: string, c: char) {
    |s| > 0 && s[|s| - 1] == c
  }

  /** `trimStart`: the longest suffix that does not begin with white space. */
  function TrimStart(s: string): (r: string)
    ensures |r| <= |s| && r == s[|s| - |r|..]
    ensures r == [] || !IsWhiteSpace(r[0])
    ensures forall k :: 0 <= k < |s| - |r| ==> IsWhiteSpace(s[k])
  {
    if s == [] || !IsWhiteSpace(s[0]) then s else TrimStart(s[1..])
  }

  /** `trimEnd`: the longest prefix that does not end with white space. */
  function TrimEnd(s: string): (r: string)
    ensures |r| <= |s| && r == s[..|r|]
    ensures r == [] || !IsWhiteSpace(r[|r| - 1])
    ensures forall k :: |r| <= k < |s| ==> IsWhiteSpace(s[k])
  {
    if s == [] || !IsWhiteSpace(s[|s| - 1]) then s else TrimEnd(s[..|s| - 1])
  }

  /** Where `trim` starts cutting: the length of the leading white space. */
  function TrimOffset(s: string): (i: nat)
    ensures i <= |s|
    ensures forall k :: 0 <= k < i ==> IsWhiteSpace(s[k])
  {
    |s| - |TrimStart(s)|
  }

  /** `trim`: a contiguous piece of `s` with only white space cut on either side. */
  function Trim(s: string): (r: string)
    ensures IsTrimmed(r)
    ensures TrimOffset(s) + |r| <= |s| && r == s[TrimOffset(s)..TrimOffset(s) + |r|]
    ensures forall k :: TrimOffset(s) + |r| <= k < |s| ==> IsWhiteSpace(s[k])
  {
    var t := TrimStart(s);
    TrimEndOfSuffix(s, t, TrimOffset(s));
    TrimEnd(t)
  }

  /** Trimming the end of a suffix `t` of `s` cuts only white space of `s`. */
  lemma TrimEndOfSuffix(s: string, t: string, i: nat)
    requires i <= |s| && t == s[i..]
    ensures i + |TrimEnd(t)| <= |s| && TrimEnd(t) == s[i..i + |TrimEnd(t)|]
    ensures forall k :: i + |TrimEnd(t)| <= k < |s| ==> IsWhiteSpace(s[k])
  {
    var r := TrimEnd(t);
    assert r == s[i..][..|r|] == s[i..i + |r|];
    forall k | i + |r| <= k < |s|
      ensures IsWhiteSpace(s[k])
    {
      assert s[k] == t[k - i];
    }
  }

  /** `trim` leaves an already trimmed string alone, so it is idempotent. */
  lemma TrimOfTrimmed(s: string)
    requires IsTrimmed(s)
    ensures Trim(s) == s
  {
  }

  /** The pieces joined back with `sep` between neighbours (`Array.prototype.join`). */
  function Join(pieces: seq<string>, sep: char): string
    requires |pieces| >= 1
  {
    if |pieces| == 1 then pieces[0] else pieces[0] + [sep] + Join(pieces[1..], sep)
  }

  /** Joining break-free pieces with a separator that is not a break gives a break-free string. */
  lemma {:induction false} JoinNoLineBreak(pieces: seq<string>, sep: char)
    requires |pieces| >= 1 && !IsLineBreak(sep)
    requires forall i :: 0 <= i < |pieces| ==> NoLineBreak(pieces[i])
    ensures NoLineBreak(Join(pieces, sep))
  {
    if |pieces| > 1 {
      var tail := pieces[1..];
      assert forall i :: 0 <= i < |tail| ==> tail[i] == pieces[i + 1];
      JoinNoLineBreak(tail, sep);
      var j := Join(pieces, sep);
      var rest := Join(tail, sep);
      assert j == pieces[0] + [sep] + rest;
      forall k | 0 <= k < |j|
        ensures !IsLineBreak(j[k])
      {
        if k > |pieces[0]| {
          assert j[k] == rest[k - |pieces[0]| - 1];
        } else if k < |pieces[0]| {
          assert j[k] == pieces[0][k];
        }
      }
    }
  }

  /** Conversely, the pieces of a break-free joined string are break-free. */
  lemma {:induction false} JoinedPiecesNoLineBreak(pieces: seq<string>, sep: char)
    requires |pieces| >= 1 && NoLineBreak(Join(pieces, sep))
    ensures forall i :: 0 <= i < |pieces| ==> NoLineBreak(pieces[i])
  {
    var j := Join(pieces, sep);
    assert NoLineBreak(pieces[0]) by {
      forall k | 0 <= k < |pieces[0]|
        ensures !IsLineBreak(pieces[0][k])
      {
        assert pieces[0][k] == j[k];
      }
    }
    if |pieces| > 1 {
      var tail := pieces[1..];
      var rest := Join(tail, sep);
      assert j == pieces[0] + [sep] + rest;
      assert NoLineBreak(rest) by {
        forall k | 0 <= k < |rest|
          ensures !IsLineBreak(rest[k])
        {
          assert rest[k] == j[|pieces[0]| + 1 + k];
        }
      }
      JoinedPiecesNoLineBreak(tail, sep);
      forall i | 0 < i < |pieces|
        ensures NoLineBreak(pieces[i])
      {
        assert pieces[i] == tail[i - 1];
      }
    }
  }

  /** `s.split(sep)` for a one-character separator: every piece is kept, empty or not. */
  function Split(s: string, sep: char): (r: seq<string>)
    ensures |r| >= 1
    ensures forall i :: 0 <= i < |r| ==> sep !in r[i]
    ensures Join(r, sep) == s
  {
    if s == [] then [""]
    else if s[0] == sep then [""] + Split(s[1..], sep)
    else
      var rest := Split(s[1..], sep);
      JoinConsChar(s[0], rest, sep);
      [[s[0]] + rest[0]] + rest[1..]
  }

  /** Prefixing a character to the first piece prefixes it to the joined string. */
  lemma JoinConsChar(c: char, pieces: seq<string>, sep: char)
    requires |pieces| >= 1
    ensures Join([[c] + pieces[0]] + pieces[1..], sep) == [c] + Join(pieces, sep)
  {
    var p := [[c] + pieces[0]] + pieces[1..];
    assert p[1..] == pieces[1..];
  }

  /** Splitting undoes joining when no piece contains the separator. */
  lemma {:induction false} SplitOfJoin(pieces: seq<string>, sep: char)
    requires |pieces| >= 1
    requires forall i :: 0 <= i < |pieces| ==> sep !in pieces[i]
    ensures Split(Join(pieces, sep), sep) == pieces
  {
    if |pieces| == 1 {
      SplitNoSeparator(pieces[0], sep);
    } else {
      var j := Join(pieces[1..], sep);
      assert Join(pieces, sep) == pieces[0] + ([sep] + j);
      SplitOfJoin(pieces[1..], sep);
      SplitAfterSeparator(j, sep);
      SplitPrefix(pieces[0], [sep] + j, sep);
      assert pieces[0] + "" == pieces[0];
      assert [pieces[0]] + pieces[1..] == pieces;
    }
  }

  lemma SplitAfterSeparator(t: string, sep: char)
    ensures Split([sep] + t, sep) == [""] + Split(t, sep)
  {
    assert ([sep] + t)[0] == sep && ([sep] + t)[1..] == t;
  }

  lemma {:induction false} SplitNoSeparator(s: string, sep: char)
    requires sep !in s
    ensures Split(s, sep) == [s]
  {
    if s != [] {
      assert s[0] != sep && sep !in s[1..];
      SplitNoSeparator(s[1..], sep);
      assert [s[0]] + s[1..] == s;
    }
  }

  /** A separator-free prefix glues onto the first piece. */
  lemma {:induction false} SplitPrefix(x: string, t: string, sep: char)
    requires sep !in x
    ensures Split(x + t, sep) == [x + Split(t, sep)[0]] + Split(t, sep)[1..]
  {
    if x != [] {
      assert (x + t)[0] == x[0] && (x + t)[1..] == x[1..] + t;
      assert x[0] != sep && sep !in x[1..];
      SplitPrefix(x[1..], t, sep);
      var st := Split(t, sep);
      var rest := Split(x[1..] + t, sep);
      assert rest[0] == x[1..] + st[0] && rest[1..] == st[1..];
      assert Split(x + t, sep) == [[x[0]] + rest[0]] + rest[1..];
      assert [x[0]] + (x[1..] + st[0]) == x + st[0];
    } else {
      var st := Split(t, sep);
      assert x + t == t && x + st[0] == st[0];
      assert [st[0]] + st[1..] == st;
    }
  }

  /**
   * `s.split(/[\r\n]+/)`: the pieces between maximal runs of line breaks; an
   * empty piece appears only at either end, where a run touches the edge.
   */
  function SplitLines(s: string): (r: seq<string>)
    ensures |r| >= 1
    ensures forall i :: 0 <= i < |r| ==> NoLineBreak(r[i])
    ensures forall i :: 0 < i < |r| - 1 ==> r[i] != []
  {
    if s == [] then [""]
    else if IsLineBreak(s[0]) then
      if |s| > 1 && IsLineBreak(s[1]) then SplitLines(s[1..]) else [""] + SplitLines(s[1..])
    else
      var rest := SplitLines(s[1..]);
      [[s[0]] + rest[0]] + rest[1..]
  }

  /** The lines joined back with one `\n` between neighbours. */
  function JoinLines(lines: seq<string>): string
    requires |lines| >= 1
  {
    Join(lines, '\n')
  }

  /**
   * Splitting undoes joining for pieces without line breaks whose inner
   * pieces are non-empty (an empty inner piece would merge two runs).
   */
  lemma {:induction false} SplitLinesOfJoin(lines: seq<string>)
    requires |lines| >= 1
    requires forall i :: 0 <= i < |lines| ==> NoLineBreak(lines[i])
    requires forall i :: 0 < i < |lines| - 1 ==> lines[i] != []
    ensures SplitLines(JoinLines(lines)) == lines
  {
    if |lines| == 1 {
      SplitLinesNoBreak(lines[0]);
    } else {
      var rest := lines[1..];
      SplitLinesOfJoin(rest);
      var t := ['\n'] + Join(rest, '\n');
      assert t[1..] == Join(rest, '\n');
      if |t| > 1 {
        if |rest| == 1 {
          assert Join(rest, '\n') == rest[0];
          assert !IsLineBreak(rest[0][0]);
        } else {
          assert rest[0] != [];
          assert Join(rest, '\n')[0] == rest[0][0];
        }
      }
      assert SplitLines(t) == [""] + rest;
      SplitLinesPrefix(lines[0], t);
      assert lines[0] + ['\n'] + Join(rest, '\n') == lines[0] + t;
      assert lines[0] + "" == lines[0];
      assert [lines[0]] + rest == lines;
    }
  }

  lemma {:induction false} SplitLinesNoBreak(s: string)
    requires NoLineBreak(s)
    ensures SplitLines(s) == [s]
  {
    if s != [] {
      assert !IsLineBreak(s[0]) && NoLineBreak(s[1..]);
      SplitLinesNoBreak(s[1..]);
      assert [s[0]] + s[1..] == s;
    }
  }

  /** A break-free prefix glues onto the first line. */
  lemma {:induction false} SplitLinesPrefix(x: string, t: string)
    requires NoLineBreak(x)
    ensures SplitLines(x + t) == [x + SplitLines(t)[0]] + SplitLines(t)[1..]
  {
    if x != [] {
      assert (x + t)[0] == x[0] && (x + t)[1..] == x[1..] + t;
      assert !IsLineBreak(x[0]) && NoLineBreak(x[1..]);
      SplitLinesPrefix(x[1..], t);
      var st := SplitLines(t);
      var rest := SplitLines(x[1..] + t);
      assert rest[0] == x[1..] + st[0] && rest[1..] == st[1..];
      assert SplitLines(x + t) == [[x[0]] + rest[0]] + rest[1..];
      assert [x[0]] + (x[1..] + st[0]) == x + st[0];
    } else {
      var st := SplitLines(t);
      assert x + t == t && x + st[0] == st[0];
      assert [st[0]] + st[1..] == st;
    }
  }

  /** A non-empty run of CR and LF characters, as `[\r\n]+` matches it. */
  predicate IsBreakRun(run: string) {
    run != [] && forall k :: 0 <= k < |run| ==> IsLineBreak(run[k])
  }

  /** The pieces with the runs between neighbours: `p0 + b0 + p1 + … + pn`. */
  function Interleave(pieces: seq<string>, runs: seq<string>): string
    requires |pieces| == |runs| + 1
    decreases runs
  {
    if runs == [] then pieces[0] else pieces[0] + runs[0] + Interleave(pieces[1..], runs[1..])
  }

  /** `s` is the pieces separated by runs of line breaks. */
  predicate Rebuilds(pieces: seq<string>, runs: seq<string>, s: string) {
    && |pieces| == |runs| + 1
    && (forall i :: 0 <= i < |runs| ==> IsBreakRun(runs[i]))
    && Interleave(pieces, runs) == s
  }

  /** Pieces without line breaks of which only the first and the last may be empty. */
  predicate LinePieces(pieces: seq<string>) {
    && |pieces| >= 1
    && (forall i :: 0 <= i < |pieces| ==> NoLineBreak(pieces[i]))
    && (forall i :: 0 < i < |pieces| - 1 ==> pieces[i] != [])
  }

  /**
   * The pieces `SplitLines` returns, with the runs of line breaks that
   * separate them, give back the input.
   */
  lemma {:induction false} SplitLinesRebuilds(s: string)
    ensures exists runs :: Rebuilds(SplitLines(s), runs, s)
    decreases |s|
  {
    if s == [] {
      assert Rebuilds(SplitLines(s), [], s);
    } else {
      var tail := s[1..];
      var r' := SplitLines(tail);
      SplitLinesRebuilds(tail);
      var runs' :| Rebuilds(r', runs', tail);
      var runs := SplitLinesRuns(s, r', runs');
    }
  }

  /** One step of `SplitLinesRebuilds`: the runs of `s` from those of its tail. */
  lemma SplitLinesRuns(s: string, r': seq<string>, runs': seq<string>) returns (runs: seq<string>)
    requires s != [] && r' == SplitLines(s[1..]) && Rebuilds(r', runs', s[1..])
    ensures Rebuilds(SplitLines(s), runs, s)
  {
    var tail := s[1..];
    assert s == [s[0]] + tail;
    if !IsLineBreak(s[0]) {
      runs := runs';
      GlueFirst(s[0], r', runs', tail);
    } else if |s| > 1 && IsLineBreak(s[1]) {
      runs := [[s[0]] + runs'[0]] + runs'[1..];
      MergeRun(s[0], r', runs', tail);
    } else {
      runs := [[s[0]]] + runs';
      NewPiece(s[0], r', runs', tail);
    }
  }

  /** A character that is not a break joins the first piece. */
  lemma GlueFirst(c: char, p: seq<string>, b: seq<string>, t: string)
    requires Rebuilds(p, b, t)
    ensures Rebuilds([[c] + p[0]] + p[1..], b, [c] + t)
  {
    var q := [[c] + p[0]] + p[1..];
    assert q[0] == [c] + p[0] && q[1..] == p[1..];
    if b != [] {
      assert [c] + (p[0] + b[0] + Interleave(p[1..], b[1..])) == ([c] + p[0]) + b[0] + Interleave(p[1..], b[1..]);
    }
  }

  /** A break in front of a line that starts with a break lengthens the first run. */
  lemma MergeRun(c: char, p: seq<string>, b: seq<string>, t: string)
    requires IsLineBreak(c) && t != [] && IsLineBreak(t[0])
    requires Rebuilds(p, b, t) && NoLineBreak(p[0])
    ensures b != [] && p[0] == []
    ensures Rebuilds(p, [[c] + b[0]] + b[1..], [c] + t)
  {
    InterleaveStart(p, b);
    assert b != [] && p[0] == [];
    var runs := [[c] + b[0]] + b[1..];
    assert runs[1..] == b[1..];
    assert t == b[0] + Interleave(p[1..], b[1..]);
  }

  /** The rebuilt text starts with the first piece. */
  lemma InterleaveStart(p: seq<string>, b: seq<string>)
    requires |p| == |b| + 1
    ensures p[0] != [] ==> Interleave(p, b) != [] && Interleave(p, b)[0] == p[0][0]
  {
    if b != [] {
      assert Interleave(p, b) == p[0] + (b[0] + Interleave(p[1..], b[1..]));
    }
  }

  /** A single break in front of a line that does not start with one opens an empty first piece. */
  lemma NewPiece(c: char, p: seq<string>, b: seq<string>, t: string)
    requires IsLineBreak(c) && Rebuilds(p, b, t)
    ensures Rebuilds([""] + p, [[c]] + b, [c] + t)
  {
    var q := [""] + p;
    var runs := [[c]] + b;
    assert q[1..] == p && runs[1..] == b;
    assert Interleave(q, runs) == "" + [c] + t;
  }

  /** A run of line breaks followed by a line that does not start with one adds one empty piece in front. */
  lemma {:induction false} RunThenLine(run: string, t: string)
    requires IsBreakRun(run) && (t == [] || !IsLineBreak(t[0]))
    ensures SplitLines(run + t) == [""] + SplitLines(t)
    decreases run
  {
    var s := run + t;
    assert s[0] == run[0] && s[1..] == run[1..] + t;
    if |run| > 1 {
      assert s[1] == run[1];
      RunThenLine(run[1..], t);
    }
  }

  /**
   * Conversely, any way of writing `s` as break-free pieces, only the end
   * ones possibly empty, separated by runs of line breaks, is the one
   * `SplitLines` gives: the runs it splits at are the maximal ones.
   */
  lemma {:induction false} SplitLinesUnique(pieces: seq<string>, runs: seq<string>, s: string)
    requires LinePieces(pieces) && Rebuilds(pieces, runs, s)
    ensures SplitLines(s) == pieces
    decreases runs
  {
    if runs == [] {
      SplitLinesNoBreak(pieces[0]);
    } else {
      var later := pieces[1..];
      var rest := Interleave(later, runs[1..]);
      assert LinePieces(later) by {
        forall i | 0 <= i < |later|
          ensures NoLineBreak(later[i]) && (0 < i < |later| - 1 ==> later[i] != [])
        {
          assert later[i] == pieces[i + 1];
        }
      }
      assert Rebuilds(later, runs[1..], rest) by {
        forall i | 0 <= i < |runs[1..]|
          ensures IsBreakRun(runs[1..][i])
        {
          assert runs[1..][i] == runs[i + 1];
        }
      }
      SplitLinesUnique(later, runs[1..], rest);
      assert rest == [] || !IsLineBreak(rest[0]) by {
        if |runs| > 1 {
          assert later[0] != [];
          assert rest == later[0] + runs[1] + Interleave(later[1..], runs[2..]);
        }
      }
      RunThenLine(runs[0], rest);
      SplitLinesPrefix(pieces[0], runs[0] + rest);
      assert s == pieces[0] + (runs[0] + rest);
      assert SplitLines(runs[0] + rest) == [""] + later;
      assert pieces[0] + "" == pieces[0];
      assert [pieces[0]] + later == pieces;
    }
  }

  /** `toLowerCase` restricted to ASCII letters. */
  function LowerChar(c: char): (r: char)
    ensures !('A' <= r <= 'Z')
    ensures 'A' <= c <= 'Z' ==> r as int == c as int + 32
    ensures !('A' <= c <= 'Z') ==> r == c
  {
    if 'A' <= c <= 'Z' then (c as int + 32) as char else c
  }

  predicate IsLower(s: string) {
    forall k :: 0 <= k < |s| ==> !('A' <= s[k] <= 'Z')
  }

  /** `s.toLowerCase()`: same length, every letter lowered, nothing else touched. */
  function ToLowerCase(s: string): (r: string)
    ensures |r| == |s| && IsLower(r)
    ensures forall k :: 0 <= k < |s| ==> r[k] == LowerChar(s[k])
  {
    seq(|s|, k requires 0 <= k < |s| => LowerChar(s[k]))
  }

  /** Lowering is idempotent: a lower-case string is its own lower case. */
  lemma ToLowerCaseOfLower(s: string)
    requires IsLower(s)
    ensures ToLowerCase(s) == s
  {
  }
}
