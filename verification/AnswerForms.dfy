/** Which responses the ReAct loop takes for attempts at a decision, and which for plain answers. */
module AnswerForms {
  import opened Text
  import opened Tokens
  import opened ReactProtocol
  import DecisionLines

  /** The text opens with a boundary line, apart from blanks behind it, that a newline or the end of the text ends. */
  predicate OpensWith(content: string, line: string, blanks: string, end: string) {
    && content == line + blanks + end
    && IsBoundary(line, BEGIN) && (forall k | 0 <= k < |blanks| :: IsBlank(blanks[k]))
    && (end == [] || end[0] == '\n' || (|end| >= 2 && end[0] == '\r' && end[1] == '\n'))
  }

  lemma {:induction false} FirstLineOf(content: string) returns (end: string)
    ensures content == Split(content)[0] + end && '\n' !in Split(content)[0]
    ensures end == [] <==> |Split(content)| == 1
    ensures end != [] ==> end[0] == '\n'
  {
    if content == [] || content[0] == '\n' {
      end := content;
    } else {
      end := FirstLineOf(content[1..]);
      assert content == [content[0]] + content[1..];
    }
  }

  lemma SplitsAt(line: string, end: string)
    requires '\n' !in line && (end == [] || end[0] == '\n')
    ensures Split(line + end)[0] == line && (|Split(line + end)| > 1 <==> end != [])
  {
    if end == [] {
      assert line + end == line;
      SplitPrefix(line, []);
    } else {
      assert line + end == line + "\n" + end[1..];
      SplitPrefix(line, end[1..]);
    }
  }

  lemma {:induction false} DropsBlanks(s: string) returns (blanks: string)
    ensures s == DropBlanks(s) + blanks && forall k | 0 <= k < |blanks| :: IsBlank(blanks[k])
  {
    blanks := [];
    if s != [] && IsBlank(s[|s| - 1]) {
      blanks := DropsBlanks(s[..|s| - 1]);
      assert s == s[..|s| - 1] + [s[|s| - 1]];
      blanks := blanks + [s[|s| - 1]];
    }
  }

  lemma {:induction false} BlanksDrop(line: string, blanks: string)
    requires (forall k | 0 <= k < |blanks| :: IsBlank(blanks[k])) && DropBlanks(line) == line
    ensures DropBlanks(line + blanks) == line
  {
    if blanks == [] {
      assert line + blanks == line;
    } else {
      assert (line + blanks)[..|line + blanks| - 1] == line + blanks[..|blanks| - 1];
      BlanksDrop(line, blanks[..|blanks| - 1]);
    }
  }

  lemma BoundaryIsOneLine(line: string)
    requires IsBoundary(line, BEGIN)
    ensures '\n' !in line && '\r' !in line
  {
    var name := line[|BEGIN| + 1..];
    forall k | 0 <= k < |line|
      ensures line[k] != '\n' && line[k] != '\r'
    {
      if k < |BEGIN| {
        assert MatchesLetter(line[k], BEGIN[k]);
      } else if k > |BEGIN| {
        assert name[k - |BEGIN| - 1] == line[k] && IsNameChar(line[k]);
      }
    }
  }

  lemma AttemptBegins(content: string, line: string, blanks: string, end: string)
    requires OpensWith(content, line, blanks, end)
    ensures BeginsBlock(content)
  {
    BoundaryIsOneLine(line);
    BoundaryIsTight(line, BEGIN);
    BlanksDrop(line, blanks);
    var first := line + blanks;
    assert '\n' !in first;
    assert first[|first| - 1] != '\r';
    if end != [] && end[0] == '\r' {
      var ended := first + "\r";
      assert content == ended + end[1..];
      SplitsAt(ended, end[1..]);
      assert ended[..|ended| - 1] == first;
    } else {
      SplitsAt(first, end);
    }
  }

  lemma BlanksBehind(text: string, end: string) returns (blanks: string)
    requires IsBoundary(DropBlanks(text), BEGIN)
    requires end == [] || end[0] == '\n' || (|end| >= 2 && end[0] == '\r' && end[1] == '\n')
    ensures OpensWith(text + end, DropBlanks(text), blanks, end)
  {
    blanks := DropsBlanks(text);
  }

  lemma BeginsAttempt(content: string) returns (line: string, blanks: string, end: string)
    requires BeginsBlock(content)
    ensures OpensWith(content, line, blanks, end)
  {
    end := FirstLineOf(content);
    var lines := Split(content);
    var first := lines[0];
    if |lines| > 1 && first != [] && first[|first| - 1] == '\r' {
      var text := first[..|first| - 1];
      assert content == text + ("\r" + end);
      end := "\r" + end;
      line := DropBlanks(text);
      blanks := BlanksBehind(text, end);
    } else {
      line := DropBlanks(first);
      blanks := BlanksBehind(first, end);
    }
  }

  /** A response counts as a plain answer exactly when it is not blank, does not open with a boundary line, and is not
      one of the two acknowledgements, whatever their letter case and the whitespace around them. */
  lemma PlainAnswerIff(content: string)
    ensures PlainAnswer(content) <==>
      && !Blank(content)
      && !(exists line, blanks, end :: OpensWith(content, line, blanks, end))
      && !Reads(Strip(content), "done") && !Reads(Strip(content), "still done")
  {
    if BeginsBlock(content) {
      var line, blanks, end := BeginsAttempt(content);
    }
    forall line, blanks, end | OpensWith(content, line, blanks, end)
      ensures BeginsBlock(content)
    {
      AttemptBegins(content, line, blanks, end);
    }
  }

  // ----- Attempts at a decision -----

  /** BEGIN and the name of the decision block in any letter case, with a space or an underscore between them */
  predicate OpensDecision(line: string) {
    && |line| > 5 && (line[5] == ' ' || line[5] == '_')
    && Spells(line[..5], "BEGIN") && Spells(line[6..], "REACT_DECISION")
  }

  /** The text holds such a line, apart from blanks behind it, between newlines or its ends. */
  predicate DeclaresIn(content: string, before: string, line: string, blanks: string, after: string) {
    && content == before + (line + blanks) + after
    && OpensDecision(line) && (forall k | 0 <= k < |blanks| :: blanks[k] == ' ' || blanks[k] == '\t')
    && (before == [] || before[|before| - 1] == '\n') && (after == [] || after[0] == '\n')
  }

  /** `line` is all that stands between two newlines, or a newline and an end of the text. */
  predicate StandsIn(content: string, before: string, line: string, after: string) {
    && content == before + line + after && '\n' !in line
    && (before == [] || before[|before| - 1] == '\n') && (after == [] || after[0] == '\n')
  }

  lemma StandsLater(first: string, rest: string, before: string, line: string, after: string)
    requires StandsIn(rest, before, line, after)
    ensures StandsIn(first + "\n" + rest, first + "\n" + before, line, after)
  {
  }

  lemma {:induction false} LineStands(content: string, i: nat) returns (before: string, after: string)
    requires i < |Split(content)|
    ensures StandsIn(content, before, Split(content)[i], after)
    decreases |content|
  {
    var end := FirstLineOf(content);
    var first := Split(content)[0];
    before, after := [], end;
    if i > 0 {
      var rest := end[1..];
      assert content == first + "\n" + rest;
      SplitPrefix(first, rest);
      before, after := LineStands(rest, i - 1);
      StandsLater(first, rest, before, Split(rest)[i - 1], after);
      before := first + "\n" + before;
    }
  }

  /** A text that ends with a newline begins with a line of its own. */
  lemma FirstCut(before: string) returns (first: string, rest: string)
    requires before != [] && before[|before| - 1] == '\n'
    ensures before == first + "\n" + rest && '\n' !in first
    ensures rest == [] || rest[|rest| - 1] == '\n'
  {
    var end := FirstLineOf(before);
    first := Split(before)[0];
    assert end != [] && end == "\n" + end[1..];
    rest := end[1..];
    assert rest != [] ==> rest[|rest| - 1] == before[|before| - 1];
  }

  lemma CutBefore(first: string, rest: string, line: string, after: string)
    requires '\n' !in first
    ensures Split(first + "\n" + rest + line + after) == [first] + Split(rest + line + after)
  {
    SplitPrefix(first, rest + line + after);
    assert first + "\n" + rest + line + after == first + "\n" + (rest + line + after);
  }

  lemma {:induction false} StandingLine(content: string, before: string, line: string, after: string) returns (i: nat)
    requires StandsIn(content, before, line, after)
    ensures i < |Split(content)| && Split(content)[i] == line
    decreases |before|
  {
    i := 0;
    if before == [] {
      assert content == line + after;
      SplitsAt(line, after);
    } else {
      var first, rest := FirstCut(before);
      CutBefore(first, rest, line, after);
      i := StandingLine(rest + line + after, rest, line, after);
      i := i + 1;
    }
  }

  lemma OpeningIsTight(line: string)
    requires OpensDecision(line)
    ensures DropBlanks(line) == line
  {
    assert MatchesLetter(line[6..][13], "REACT_DECISION"[13]) && line[6..][13] == line[|line| - 1];
  }

  lemma OpeningLineIff(text: string) returns (line: string, blanks: string)
    ensures DecisionLine(text) ==>
      text == line + blanks && OpensDecision(line) && forall k | 0 <= k < |blanks| :: IsBlank(blanks[k])
  {
    blanks := DropsBlanks(text);
    line := DropBlanks(text);
  }

  lemma OpeningIsDecision(line: string, blanks: string)
    requires OpensDecision(line) && forall k | 0 <= k < |blanks| :: IsBlank(blanks[k])
    ensures DecisionLine(line + blanks)
  {
    OpeningIsTight(line);
    BlanksDrop(line, blanks);
  }

  /** A response is taken for an attempt at a decision exactly when it holds, between newlines or its ends, a line that
      opens a decision block, apart from blanks behind it. */
  lemma DeclaresIff(content: string)
    ensures DeclaresDecision(content) <==>
      exists before, line, blanks, after :: DeclaresIn(content, before, line, blanks, after)
  {
    if DeclaresDecision(content) {
      var i :| 0 <= i < |Split(content)| && DecisionLine(Split(content)[i]);
      var before, after := LineStands(content, i);
      var line, blanks := OpeningLineIff(Split(content)[i]);
      assert DeclaresIn(content, before, line, blanks, after);
    }
    forall before, line, blanks, after | DeclaresIn(content, before, line, blanks, after)
      ensures DeclaresDecision(content)
    {
      OpeningIsDecision(line, blanks);
      DecisionLines.DecisionLineHasNo(line + blanks, '\n');
      var i := StandingLine(content, before, line + blanks, after);
    }
  }
}
