/** Lines of a text: those that newlines alone cut, and those that carriage returns cut as well. */
module CutLines {
  import opened Text

  // ----- Lines and where they lie -----

  predicate IsBreak(c: char) {
    c == '\n' || c == '\r'
  }

  function BreakFrom(s: string, i: nat): (j: nat)
    requires i <= |s|
    ensures i <= j <= |s| && (j < |s| ==> IsBreak(s[j]))
    ensures forall k | i <= k < j :: !IsBreak(s[k])
    decreases |s| - i
  {
    if i == |s| || IsBreak(s[i]) then i else BreakFrom(s, i + 1)
  }

  /** Where the first line ends */
  function LineBreak(s: string): (i: nat)
    ensures i <= |s| && (i < |s| ==> IsBreak(s[i]))
    ensures forall k | 0 <= k < i :: !IsBreak(s[k])
  {
    BreakFrom(s, 0)
  }

  /** Where the line after the break at `i` begins; a carriage return and newline are one break. */
  function NextLine(s: string, i: nat): (j: nat)
    requires i < |s| && IsBreak(s[i])
    ensures i < j <= |s|
  {
    if s[i] == '\r' && i + 1 < |s| && s[i + 1] == '\n' then i + 2 else i + 1
  }

  /** A line that any break ends: whether it begins the text or follows a newline, and whether a newline or the
      end of the text follows it directly */
  datatype Piece = Piece(line: string, anew: bool, closed: bool)

  function Pieces(s: string, anew: bool): (pieces: seq<Piece>)
    ensures pieces != []
    decreases |s|
  {
    var i := LineBreak(s);
    if i == |s| then [Piece(s, anew, true)]
    else
      var j := NextLine(s, i);
      [Piece(s[..i], anew, s[i] == '\n')] + Pieces(s[j..], s[j - 1] == '\n')
  }

  function Normal(s: string): string {
    ReplaceCr(ReplaceCrLf(s))
  }

  lemma {:induction false} NormalFrom(s: string, i: nat)
    requires i <= |s| && forall k | 0 <= k < i :: !IsBreak(s[k])
    ensures Normal(s) == s[..i] + Normal(s[i..])
  {
    if i == 0 {
      assert s[i..] == s;
    } else {
      var rest := s[1..];
      NormalFrom(rest, i - 1);
      assert ReplaceCrLf(s) == [s[0]] + ReplaceCrLf(rest);
      assert ReplaceCrLf(s)[1..] == ReplaceCrLf(rest);
      assert rest[i - 1..] == s[i..];
      assert [s[0]] + rest[..i - 1] == s[..i];
    }
  }

  lemma NormalBreak(s: string)
    requires s != [] && IsBreak(s[0])
    ensures Normal(s) == "\n" + Normal(s[NextLine(s, 0)..])
  {
    var j := NextLine(s, 0);
    assert ReplaceCrLf(s) == [if j == 2 then '\n' else s[0]] + ReplaceCrLf(s[j..]);
    assert ReplaceCrLf(s)[1..] == ReplaceCrLf(s[j..]);
  }

  function LinesOf(pieces: seq<Piece>): (lines: seq<string>)
    ensures |lines| == |pieces| && forall k | 0 <= k < |pieces| :: lines[k] == pieces[k].line
  {
    if pieces == [] then [] else [pieces[0].line] + LinesOf(pieces[1..])
  }

  lemma LinesOfCons(p: Piece, rest: seq<Piece>)
    ensures LinesOf([p] + rest) == [p.line] + LinesOf(rest)
  {
    assert ([p] + rest)[1..] == rest;
  }

  lemma SplitNormal(s: string, i: nat)
    requires i == LineBreak(s) < |s|
    ensures Split(Normal(s)) == [s[..i]] + Split(Normal(s[NextLine(s, i)..]))
  {
    var rest := s[NextLine(s, i)..];
    NormalFrom(s, i);
    NormalBreak(s[i..]);
    assert s[i..][NextLine(s[i..], 0)..] == rest;
    SplitPrefix(s[..i], Normal(rest));
    assert s[..i] + ("\n" + Normal(rest)) == s[..i] + "\n" + Normal(rest);
  }

  /** The pieces are the lines of the text with all its breaks turned into newlines, in order. */
  lemma {:induction false} PiecesAreLines(s: string, anew: bool)
    ensures LinesOf(Pieces(s, anew)) == Split(Normal(s))
    decreases |s|
  {
    var i := LineBreak(s);
    if i == |s| {
      NormalFrom(s, i);
      assert s[..i] + [] == s;
      SplitPrefix(s, []);
    } else {
      var j := NextLine(s, i);
      SplitNormal(s, i);
      PiecesAreLines(s[j..], s[j - 1] == '\n');
      LinesOfCons(Piece(s[..i], anew, s[i] == '\n'), Pieces(s[j..], s[j - 1] == '\n'));
    }
  }

  /** Piece `k` lies at `p..q` of the text. */
  ghost predicate LiesAt(s: string, pieces: seq<Piece>, anew: bool, k: nat, p: nat, q: nat)
    requires k < |pieces|
  {
    && p <= q <= |s| && s[p..q] == pieces[k].line
    && pieces[k].anew == (if p == 0 then anew else s[p - 1] == '\n')
    && pieces[k].closed == (q == |s| || s[q] == '\n')
    && (k > 0 ==> p > 0)
    && (k == |pieces| - 1 ==> q == |s|)
    && (k == |pieces| - 2 && pieces[k].closed ==> q + 1 + |pieces[k + 1].line| == |s|)
  }

  /** A piece of the text behind the first break lies as far behind it in the whole text. */
  lemma LiesLater(s: string, j: nat, pieces: seq<Piece>, anew: bool, k: nat, p: nat, q: nat)
    requires 0 < j <= |s| && k + 1 < |pieces| && LiesAt(s[j..], pieces[1..], s[j - 1] == '\n', k, p, q)
    ensures LiesAt(s, pieces, anew, k + 1, j + p, j + q)
  {
    assert s[j..][p..q] == s[j + p..j + q];
  }

  lemma FirstLies(s: string, anew: bool)
    ensures LiesAt(s, Pieces(s, anew), anew, 0, 0, LineBreak(s))
  {
    var i := LineBreak(s);
    assert s[0..i] == s[..i];
    if i < |s| && s[i] == '\n' {
      var rest := s[i + 1..];
      assert |Pieces(rest, true)| == 1 ==> Pieces(rest, true)[0].line == rest;
    }
  }

  ghost predicate LiesSomewhere(s: string, pieces: seq<Piece>, anew: bool, k: nat)
    requires k < |pieces|
  {
    exists p, q :: LiesAt(s, pieces, anew, k, p, q)
  }

  lemma LaterLies(s: string, j: nat, pieces: seq<Piece>, anew: bool, k: nat)
    requires 0 < j <= |s| && k + 1 < |pieces| && LiesSomewhere(s[j..], pieces[1..], s[j - 1] == '\n', k)
    ensures LiesSomewhere(s, pieces, anew, k + 1)
  {
    var p, q :| LiesAt(s[j..], pieces[1..], s[j - 1] == '\n', k, p, q);
    LiesLater(s, j, pieces, anew, k, p, q);
  }

  lemma PiecesTail(s: string, pieces: seq<Piece>, anew: bool)
    requires pieces == Pieces(s, anew) && |pieces| > 1
    ensures var i := LineBreak(s); i < |s| && pieces[1..] == Pieces(s[NextLine(s, i)..], s[NextLine(s, i) - 1] == '\n')
  {
  }

  lemma {:induction false} PieceLies(s: string, pieces: seq<Piece>, anew: bool, k: nat)
    requires pieces == Pieces(s, anew) && k < |pieces|
    ensures LiesSomewhere(s, pieces, anew, k)
    decreases |s|
  {
    if k == 0 {
      FirstLies(s, anew);
    } else {
      PiecesTail(s, pieces, anew);
      var j := NextLine(s, LineBreak(s));
      PieceLies(s[j..], pieces[1..], s[j - 1] == '\n', k - 1);
      LaterLies(s, j, pieces, anew, k - 1);
    }
  }

  // ----- Lines that are marked -----

  /** A marked line that lies between newlines or the ends of the text */
  predicate Clean(mark: string -> bool, p: Piece) {
    p.anew && p.closed && mark(p.line)
  }

  predicate AnyClean(mark: string -> bool, pieces: seq<Piece>) {
    exists k | 0 <= k < |pieces| :: Clean(mark, pieces[k])
  }

  /** Some newline-cut line, not the first unless the text begins `anew`, is marked. */
  predicate AnyMarked(mark: string -> bool, s: string, anew: bool) {
    exists i | 0 <= i < |Split(s)| :: (anew || i > 0) && mark(Split(s)[i])
  }

  lemma AnyCleanCons(mark: string -> bool, p: Piece, rest: seq<Piece>)
    ensures AnyClean(mark, [p] + rest) <==> Clean(mark, p) || AnyClean(mark, rest)
  {
    var all := [p] + rest;
    if Clean(mark, p) {
      assert Clean(mark, all[0]);
    }
    if AnyClean(mark, rest) {
      var k :| 0 <= k < |rest| && Clean(mark, rest[k]);
      assert Clean(mark, all[k + 1]);
    }
  }

  lemma AnyMarkedCons(mark: string -> bool, s: string, anew: bool, line: string, rest: seq<string>)
    requires Split(s) == [line] + rest
    ensures AnyMarked(mark, s, anew) <==> (anew && mark(line)) || exists i | 0 <= i < |rest| :: mark(rest[i])
  {
    if i :| 0 <= i < |rest| && mark(rest[i]) {
      assert Split(s)[i + 1] == rest[i];
    }
    if anew && mark(line) {
      assert Split(s)[0] == line;
    }
  }

  /** A text whose first break is a carriage return: its first newline-cut line holds that carriage return. */
  lemma BrokenLine(s: string, i: nat)
    requires i == LineBreak(s) < |s| && s[i] == '\r'
    ensures '\r' in Split(s)[0] && Split(s)[1..] == Split(s[i + 1..])[1..]
  {
    SplitAfter(s, i + 1);
    assert s[..i + 1][i] == '\r';
  }

  lemma SplitNewline(s: string)
    requires s != [] && s[0] == '\n'
    ensures Split(s) == [[]] + Split(s[1..])
  {
  }

  lemma {:induction false} SplitAfter(s: string, n: nat)
    requires n <= |s| && forall k | 0 <= k < n :: s[k] != '\n'
    ensures Split(s)[0] == s[..n] + Split(s[n..])[0] && Split(s)[1..] == Split(s[n..])[1..]
  {
    if n == 0 {
      assert s[n..] == s;
    } else {
      assert s[..n] == [s[0]] + s[1..][..n - 1];
      SplitAfter(s[1..], n - 1);
      assert s[1..][n - 1..] == s[n..];
    }
  }

  /** Some line after the first is marked. */
  predicate MarkedLater(mark: string -> bool, lines: seq<string>) {
    exists i | 1 <= i < |lines| :: mark(lines[i])
  }

  lemma MarkedFirstOrLater(mark: string -> bool, s: string, anew: bool)
    ensures AnyMarked(mark, s, anew) <==> (anew && mark(Split(s)[0])) || MarkedLater(mark, Split(s))
  {
  }

  lemma LaterInTails(mark: string -> bool, a: seq<string>, b: seq<string>)
    requires a != [] && b != [] && a[1..] == b[1..]
    ensures MarkedLater(mark, a) <==> MarkedLater(mark, b)
  {
    assert forall i | 1 <= i < |a| :: a[i] == a[1..][i - 1] && b[i] == b[1..][i - 1];
  }

  /** Behind a carriage return, marked lines are those of the rest of the text. */
  lemma PastReturn(mark: string -> bool, s: string, i: nat, j: nat, anew: bool)
    requires i == LineBreak(s) < |s| && s[i] == '\r' && j == NextLine(s, i)
    requires forall line | mark(line) :: '\r' !in line
    ensures AnyMarked(mark, s, anew) <==> AnyMarked(mark, s[j..], s[j - 1] == '\n')
  {
    BrokenLine(s, i);
    MarkedFirstOrLater(mark, s, anew);
    LaterInTails(mark, Split(s), Split(s[i + 1..]));
    if j == i + 2 {
      SplitNewline(s[i + 1..]);
      assert s[i + 1..][1..] == s[j..];
      AnyMarkedCons(mark, s[i + 1..], false, [], Split(s[j..]));
      MarkedFirstOrLater(mark, s[i + 1..], false);
    } else {
      MarkedFirstOrLater(mark, s[j..], false);
    }
  }

  lemma PastNewline(mark: string -> bool, s: string, i: nat, anew: bool)
    requires i == LineBreak(s) < |s| && s[i] == '\n'
    ensures AnyMarked(mark, s, anew) <==> (anew && mark(s[..i])) || AnyMarked(mark, s[i + 1..], true)
  {
    assert s == s[..i] + "\n" + s[i + 1..];
    SplitPrefix(s[..i], s[i + 1..]);
    AnyMarkedCons(mark, s, anew, s[..i], Split(s[i + 1..]));
  }

  lemma NoBreak(mark: string -> bool, s: string, anew: bool)
    requires LineBreak(s) == |s|
    ensures AnyMarked(mark, s, anew) <==> anew && mark(s)
  {
    SplitPrefix(s, []);
    AnyMarkedCons(mark, s, anew, s, []);
  }

  /** A mark that no line with a carriage return bears: newline-cut lines bear it exactly where pieces between
      newlines do. */
  lemma {:induction false} MarkedIsClean(mark: string -> bool, s: string, anew: bool)
    requires forall line | mark(line) :: '\r' !in line
    ensures AnyMarked(mark, s, anew) <==> AnyClean(mark, Pieces(s, anew))
    decreases |s|
  {
    var i := LineBreak(s);
    if i == |s| {
      NoBreak(mark, s, anew);
      assert Pieces(s, anew)[0] == Piece(s, anew, true);
    } else {
      var j := NextLine(s, i);
      MarkedIsClean(mark, s[j..], s[j - 1] == '\n');
      AnyCleanCons(mark, Piece(s[..i], anew, s[i] == '\n'), Pieces(s[j..], s[j - 1] == '\n'));
      if s[i] == '\n' {
        PastNewline(mark, s, i, anew);
      } else {
        PastReturn(mark, s, i, j, anew);
      }
    }
  }

  // ----- A line at the end of the text -----

  predicate EndsWith(s: string, end: string) {
    |end| <= |s| && s[|s| - |end|..] == end
  }

  /** The text ends with the line, between newlines or with nothing behind it. */
  predicate StandsAlone(s: string, line: string) {
    EndsWith(s, "\n" + line) || EndsWith(s, "\n" + line + "\n")
  }

  function Prepend(c: char, lines: seq<string>): seq<string>
    requires lines != []
  {
    if c == '\n' then [[]] + lines else [[c] + lines[0]] + lines[1..]
  }

  lemma SplitCons(c: char, t: string)
    ensures Split([c] + t) == Prepend(c, Split(t))
  {
    assert ([c] + t)[1..] == t;
  }

  lemma PrependBoth(c: char, a: seq<string>, b: seq<string>)
    requires a != []
    ensures Prepend(c, a + b) == Prepend(c, a) + b
  {
  }

  lemma {:induction false} SplitConcat(a: string, b: string)
    ensures Split(a + "\n" + b) == Split(a) + Split(b)
  {
    if a == [] {
      assert a + "\n" + b == ['\n'] + b;
      SplitCons('\n', b);
    } else {
      var c, rest := a[0], a[1..];
      SplitConcat(rest, b);
      PrependBoth(c, Split(rest), Split(b));
      SplitCons(c, rest);
      SplitCons(c, rest + "\n" + b);
      assert a == [c] + rest && a + "\n" + b == [c] + (rest + "\n" + b);
    }
  }

  lemma EndIsCut(a: string, line: string)
    requires '\n' !in line
    ensures line in Split(a + "\n" + line) && line in Split(a + "\n" + (line + "\n"))
  {
    SplitPrefix(line, []);
    SplitConcat(a, line);
    assert line + "\n" + [] == line + "\n";
    SplitConcat(a, line + "\n");
  }

  lemma StandingAloneIsCut(s: string, line: string)
    requires '\n' !in line && StandsAlone(s, line)
    ensures line in Split(s)
  {
    if EndsWith(s, "\n" + line) {
      var a := s[..|s| - |line| - 1];
      assert s == a + ("\n" + line) == a + "\n" + line;
      EndIsCut(a, line);
    } else {
      var a := s[..|s| - |line| - 2];
      assert s == a + ("\n" + line + "\n") == a + "\n" + (line + "\n");
      EndIsCut(a, line);
    }
  }

  lemma BehindNewline(s: string, p: nat, q: nat)
    requires 0 < p <= q <= |s| && s[p - 1] == '\n'
    requires q == |s| || (q + 1 == |s| && s[q] == '\n')
    ensures StandsAlone(s, s[p..q])
  {
    var line := s[p..q];
    if q == |s| {
      assert s[|s| - (|line| + 1)..] == "\n" + line;
    } else {
      assert s[|s| - (|line| + 2)..] == "\n" + line + "\n";
    }
  }

  /** The last piece, or the last but one when nothing stands on the last, is followed by the end of the text. */
  lemma CleanStandsAlone(s: string, pieces: seq<Piece>, k: nat)
    requires pieces == Pieces(s, true) && 0 < k < |pieces| && pieces[k].anew && pieces[k].closed
    requires k == |pieces| - 1 || (k == |pieces| - 2 && pieces[k + 1].line == [])
    ensures StandsAlone(s, pieces[k].line)
  {
    PieceLies(s, pieces, true, k);
    var p, q :| LiesAt(s, pieces, true, k, p, q);
    BehindNewline(s, p, q);
  }

  lemma FirstPiece(s: string, pieces: seq<Piece>)
    requires pieces == Pieces(s, true) && |pieces| > 1
    ensures pieces[0].anew && |pieces[0].line| < |s|
    ensures pieces[0].closed <==> s[|pieces[0].line|] == '\n'
  {
  }
}
