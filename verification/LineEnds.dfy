/** Lines and what ends them: a text is its lines with their ends put back. */
module LineEnds {
  import opened Text
  import opened CutLines
  import opened Tokens

  type Breaks = char -> bool

  /** One break, or a carriage return and newline together */
  predicate IsEnd(breaks: Breaks, e: string) {
    (|e| == 1 && breaks(e[0])) || e == "\r\n"
  }

  predicate OpensWithNewline(s: string) {
    s != [] && s[0] == '\n'
  }

  predicate OneLine(breaks: Breaks, line: string) {
    forall k | 0 <= k < |line| :: !breaks(line[k])
  }

  /** The lines, each followed by its end */
  function Weave(lines: seq<string>, ends: seq<string>): string
    requires |lines| == |ends|
  {
    if lines == [] then [] else lines[0] + ends[0] + Weave(lines[1..], ends[1..])
  }

  /** Every line has its end, but for a last one that is not empty; and no end is half of a pair. */
  ghost predicate EndsFit(breaks: Breaks, lines: seq<string>, ends: seq<string>) {
    && |ends| == |lines|
    && (forall k | 0 <= k < |ends| :: OneLine(breaks, lines[k]))
    && (forall k | 0 <= k < |ends| :: IsEnd(breaks, ends[k]) || (k == |ends| - 1 && ends[k] == [] && lines[k] != []))
    && forall k, l | 0 <= k < l < |ends| && l == k + 1 && ends[k] == "\r" :: !OpensWithNewline(lines[l] + ends[l])
  }

  /** A text begins with its first line and that line's end. */
  lemma FirstPiece(breaks: Breaks, lines: seq<string>, ends: seq<string>, s: string)
    requires EndsFit(breaks, lines, ends) && s == Weave(lines, ends)
    ensures lines == [] <==> s == []
    ensures s != [] ==> OpensWithNewline(lines[0] + ends[0]) == OpensWithNewline(s)
  {
    if lines != [] {
      var first := lines[0] + ends[0];
      assert first != [];
      assert s == first + Weave(lines[1..], ends[1..]);
    }
  }

  lemma EndsFitCons(breaks: Breaks, line: string, end: string, lines: seq<string>, ends: seq<string>, rest: string)
    requires EndsFit(breaks, lines, ends) && rest == Weave(lines, ends)
    requires OneLine(breaks, line) && (IsEnd(breaks, end) || (rest == [] && end == [] && line != []))
    requires end == "\r" ==> !OpensWithNewline(rest)
    ensures EndsFit(breaks, [line] + lines, [end] + ends)
  {
    var ls, es := [line] + lines, [end] + ends;
    FirstPiece(breaks, lines, ends, rest);
    forall k, l | 0 <= k < l < |es| && l == k + 1 && es[k] == "\r"
      ensures !OpensWithNewline(ls[l] + es[l])
    {
      if k > 0 {
        assert es[k] == ends[k - 1] && ls[l] == lines[l - 1] && es[l] == ends[l - 1];
      }
    }
  }

  lemma WeaveCons(line: string, end: string, lines: seq<string>, ends: seq<string>)
    requires |lines| == |ends|
    ensures Weave([line] + lines, [end] + ends) == line + end + Weave(lines, ends)
  {
    assert ([line] + lines)[1..] == lines && ([end] + ends)[1..] == ends;
  }

  // ----- Documents -----

  /** The lines without an empty last one */
  function Kept(lines: seq<string>): seq<string>
    requires lines != []
  {
    if lines[|lines| - 1] == [] then lines[..|lines| - 1] else lines
  }

  lemma KeptCons(line: string, lines: seq<string>)
    requires lines != []
    ensures Kept([line] + lines) == [line] + Kept(lines)
  {
    assert ([line] + lines)[..|lines|] == [line] + lines[..|lines| - 1];
  }

  lemma LinesAreKept(s: string)
    ensures Lines(s) == Kept(Split(Normal(s)))
  {
  }

  lemma BreakShape(s: string, i: nat)
    requires i < |s| && IsBreak(s[i])
    ensures var end, rest := s[i..NextLine(s, i)], s[NextLine(s, i)..];
      IsEnd(IsBreak, end) && (end == "\r" ==> !OpensWithNewline(rest))
  {
    if NextLine(s, i) == i + 2 {
      assert s[i..i + 2] == ['\r', '\n'];
    } else {
      assert s[i..i + 1] == [s[i]];
    }
  }

  lemma FirstLineOf(s: string, i: nat, rest: string)
    requires i == LineBreak(s) < |s| && rest == s[NextLine(s, i)..]
    ensures Lines(s) == [s[..i]] + Lines(rest)
  {
    SplitNormal(s, i);
    LinesAreKept(s);
    LinesAreKept(rest);
    KeptCons(s[..i], Split(Normal(rest)));
  }

  /** A document with a break in it: its first line, the break, and the rest */
  lemma CutDocument(s: string) returns (line: string, end: string, rest: string)
    requires LineBreak(s) < |s|
    ensures s == line + end + rest && |rest| < |s| && Lines(s) == [line] + Lines(rest)
    ensures OneLine(IsBreak, line) && IsEnd(IsBreak, end) && (end == "\r" ==> !OpensWithNewline(rest))
  {
    var i := LineBreak(s);
    var j := NextLine(s, i);
    line, end, rest := s[..i], s[i..j], s[j..];
    BreakShape(s, i);
    FirstLineOf(s, i, rest);
    assert s == line + end + rest;
  }

  lemma UncutDocument(s: string)
    requires LineBreak(s) == |s|
    ensures Lines(s) == (if s == [] then [] else [s]) && OneLine(IsBreak, s)
  {
    NormalFrom(s, |s|);
    assert s[..|s|] == s && s[|s|..] == [] && s + [] == s;
    SplitPrefix(s, []);
  }

  lemma LastLine(s: string)
    requires s != [] && OneLine(IsBreak, s)
    ensures EndsFit(IsBreak, [s], [[]]) && Weave([s], [[]]) == s
  {
    var ends: seq<string> := [[]];
    assert [s][1..] == [] && ends[1..] == [];
    assert s + [] + [] == s;
  }

  /** The lines of a document with their ends, newlines, carriage returns or both, put back are the document. */
  lemma {:induction false} DocumentRejoins(s: string) returns (ends: seq<string>)
    ensures EndsFit(IsBreak, Lines(s), ends) && s == Weave(Lines(s), ends)
    decreases |s|
  {
    if LineBreak(s) < |s| {
      var line, end, rest := CutDocument(s);
      var more := DocumentRejoins(rest);
      EndsFitCons(IsBreak, line, end, Lines(rest), more, rest);
      WeaveCons(line, end, Lines(rest), more);
      ends := [end] + more;
    } else {
      UncutDocument(s);
      ends := if s == [] then [] else [[]];
      if s != [] {
        LastLine(s);
      }
    }
  }
}
