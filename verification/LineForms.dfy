/** Which lines open a block, close one, or give a field, and what they mean. */
module LineForms {
  import opened Text
  import opened Json
  import opened Tokens

  /** A keyword, a space or an underscore, and a name */
  predicate Spaced(line: string, keyword: string, separator: char, name: string) {
    line == keyword + [separator] + name && (separator == ' ' || separator == '_')
  }

  lemma UpperAt(s: string, word: string)
    ensures Upper(s) == word <==> |s| == |word| && forall i | 0 <= i < |s| :: UpperChar(s[i]) == word[i]
  {
  }

  lemma AsciiUpperIsName(name: string)
    requires IsAsciiName(Upper(name))
    ensures IsName(name)
  {
    forall i | 0 <= i < |name|
      ensures IsNameChar(name[i]) && (i == 0 ==> IsLetter(name[i]))
    {
      assert UpperChar(name[i]) == Upper(name)[i];
    }
  }

  /** The parts of a boundary line */
  lemma BoundaryParts(line: string, keyword: string)
    ensures IsBoundary(line, keyword) <==>
      |line| > |keyword| && var k, name := line[..|keyword|], line[|keyword| + 1..];
      && Spaced(line, k, line[|keyword|], name) && IsName(name)
      && forall i | 0 <= i < |keyword| :: MatchesLetter(k[i], keyword[i])
  {
    if |line| > |keyword| {
      assert line == line[..|keyword|] + [line[|keyword|]] + line[|keyword| + 1..];
    }
  }

  lemma SpacedParts(line: string, k: string, separator: char, name: string)
    requires Spaced(line, k, separator, name)
    ensures |line| > |k| && line[..|k|] == k && line[|k|] == separator && line[|k| + 1..] == name
  {
  }

  lemma MatchesBegin(k: string)
    ensures |k| == |BEGIN| && (forall i | 0 <= i < |BEGIN| :: MatchesLetter(k[i], BEGIN[i])) <==>
      Upper(k) == "BEGIN" || Upper(k) == "BEG\U{130}N"
  {
    UpperAt(k, "BEGIN");
    UpperAt(k, "BEG\U{130}N");
    assert "BEG\U{130}N" == ['B', 'E', 'G', '\U{130}', 'N'] && BEGIN == ['B', 'E', 'G', 'I', 'N'];
    if |k| == 5 {
      assert k == [k[0], k[1], k[2], k[3], k[4]];
    }
  }

  lemma MatchesEnd(k: string)
    ensures |k| == |END| && (forall i | 0 <= i < |END| :: MatchesLetter(k[i], END[i])) <==> Upper(k) == "END"
  {
    UpperAt(k, "END");
    assert END == ['E', 'N', 'D'];
  }

  /** The line is this keyword, in a spelling that upper-cases to `word`, and this name. */
  ghost predicate Bounds(line: string, word: string, name: string) {
    exists k, separator :: Spaced(line, k, separator, name) && Upper(k) == word
  }

  lemma BoundsParts(line: string, word: string, name: string)
    ensures Bounds(line, word, name) <==>
      |line| > |word| && Upper(line[..|word|]) == word && line[|word| + 1..] == name
      && (line[|word|] == ' ' || line[|word|] == '_')
  {
    var n := |word|;
    if Bounds(line, word, name) {
      var k, separator :| Spaced(line, k, separator, name) && Upper(k) == word;
      SpacedParts(line, k, separator, name);
    }
    if |line| > n && Upper(line[..n]) == word && line[n + 1..] == name && (line[n] == ' ' || line[n] == '_') {
      assert Spaced(line, line[..n], line[n], name);
    }
  }

  lemma BeginIff(line: string, name: string)
    requires |line| > |BEGIN| ==> name == line[|BEGIN| + 1..]
    ensures IsBoundary(line, BEGIN) <==>
      (Bounds(line, "BEGIN", name) || Bounds(line, "BEG\U{130}N", name)) && IsName(name)
    ensures |line| > |BEGIN| ==> (Bounds(line, "BEGIN", name) ==> Upper(line[..|BEGIN|]) == BEGIN)
    ensures |line| > |BEGIN| ==> (Bounds(line, "BEG\U{130}N", name) ==> Upper(line[..|BEGIN|]) != BEGIN)
  {
    BoundaryParts(line, BEGIN);
    BoundsParts(line, "BEGIN", name);
    BoundsParts(line, "BEG\U{130}N", name);
    assert |"BEGIN"| == |"BEG\U{130}N"| == |BEGIN| && "BEG\U{130}N"[3] != BEGIN[3];
    if |line| > |BEGIN| {
      MatchesBegin(line[..|BEGIN|]);
    }
  }

  lemma EndIff(line: string, name: string)
    requires |line| > |END| ==> name == line[|END| + 1..]
    ensures IsBoundary(line, END) <==> Bounds(line, "END", name) && IsName(name)
  {
    BoundaryParts(line, END);
    BoundsParts(line, "END", name);
    if |line| > |END| {
      MatchesEnd(line[..|END|]);
    }
  }

  lemma OpensIs(line: string, other: OtherLiterals, name: string)
    requires Bounds(line, "BEGIN", name) && IsAsciiName(Upper(name))
    ensures Tokenize(line, other) == Open(Upper(name))
  {
    BoundsParts(line, "BEGIN", name);
    AsciiUpperIsName(name);
    BeginIff(line, name);
    BoundaryHasNoEquals(line, BEGIN);
  }

  lemma OpenHasForm(line: string, other: OtherLiterals) returns (name: string)
    requires Tokenize(line, other).Open?
    ensures Bounds(line, "BEGIN", name) && IsAsciiName(Upper(name)) && Tokenize(line, other) == Open(Upper(name))
  {
    name := line[|BEGIN| + 1..];
    BeginIff(line, name);
  }

  /** A line opens a block of a type exactly when it is BEGIN in any letter case, a space or an underscore, and the
      type in any letter case. */
  lemma OpenIff(line: string, other: OtherLiterals, typ: string)
    ensures Tokenize(line, other) == Open(typ) <==>
      IsAsciiName(typ) && exists name :: Bounds(line, "BEGIN", name) && Upper(name) == typ
  {
    if Tokenize(line, other) == Open(typ) {
      var name := OpenHasForm(line, other);
    }
    if IsAsciiName(typ) && exists x :: Bounds(line, "BEGIN", x) && Upper(x) == typ {
      var x :| Bounds(line, "BEGIN", x) && Upper(x) == typ;
      OpensIs(line, other, x);
    }
  }

  lemma ClosedIs(line: string, other: OtherLiterals, name: string)
    requires IsName(name) && (Bounds(line, "END", name) || Bounds(line, "BEG\U{130}N", name))
    ensures Tokenize(line, other) == Close(Upper(name))
  {
    BoundsParts(line, "END", name);
    BoundsParts(line, "BEG\U{130}N", name);
    if Bounds(line, "END", name) {
      EndIff(line, name);
      OneKeyword(line);
      BoundaryHasNoEquals(line, END);
    } else {
      BeginIff(line, name);
      BoundaryHasNoEquals(line, BEGIN);
    }
  }

  lemma CloseHasForm(line: string, other: OtherLiterals) returns (name: string)
    requires Tokenize(line, other).Close?
    ensures IsName(name) && Tokenize(line, other) == Close(Upper(name))
    ensures Bounds(line, "END", name) || Bounds(line, "BEG\U{130}N", name)
  {
    if IsBoundary(line, BEGIN) {
      name := line[|BEGIN| + 1..];
      BeginIff(line, name);
    } else {
      assert IsBoundary(line, END);
      name := line[|END| + 1..];
      EndIff(line, name);
    }
  }

  /** A line closes a block of a type exactly when it is END in any letter case, or BEGIN spelt with the dotted capital
      I, a space or an underscore, and a name that upper-cases to the type. */
  lemma CloseIff(line: string, other: OtherLiterals, typ: string)
    ensures Tokenize(line, other) == Close(typ) <==>
      exists name :: IsName(name) && Upper(name) == typ
        && (Bounds(line, "END", name) || Bounds(line, "BEG\U{130}N", name))
  {
    if Tokenize(line, other) == Close(typ) {
      var name := CloseHasForm(line, other);
    }
    if x :| IsName(x) && Upper(x) == typ && (Bounds(line, "END", x) || Bounds(line, "BEG\U{130}N", x)) {
      ClosedIs(line, other, x);
    }
  }

  predicate IsField(line: string, path: string, literal: string) {
    line == path + "=" + literal && IsPath(path) && literal != [] && Trimmed(literal)
  }

  lemma FieldTokenizes(line: string, other: OtherLiterals, path: string, literal: string)
    requires IsField(line, path, literal)
    ensures Tokenize(line, other) ==
      if Load(literal, other).Some? then Entry(Upper(path), Load(literal, other).value) else Bad
  {
    EqualsAfterPath(path, literal);
    TrimmedIsFixed(literal);
    TokenizeScalar(line, other);
    assert line[..|path|] == path && line[|path| + 1..] == literal;
  }

  lemma ScalarHasForm(path: string, literal: string, other: OtherLiterals)
    requires ScalarToken(path, literal, other).Entry?
    ensures IsField(path + "=" + literal, path, literal)
  {
    StripIsTrimmed(literal);
  }

  lemma EntryHasForm(line: string, other: OtherLiterals) returns (path: string, literal: string)
    requires Tokenize(line, other).Entry?
    ensures IsField(line, path, literal)
  {
    var i := EqualsAt(line);
    path, literal := line[..i], line[i + 1..];
    ScalarHasForm(path, literal, other);
    assert line == path + "=" + literal;
  }

  /** A line gives a field a value exactly when it is a path, an equals sign, and the literal of that value without
      whitespace around it; the field is the path in upper case. */
  lemma EntryIff(line: string, other: OtherLiterals, field: string, value: Value)
    ensures Tokenize(line, other) == Entry(field, value) <==>
      exists path, literal ::
        IsField(line, path, literal) && Upper(path) == field && Load(literal, other) == Some(value)
  {
    if Tokenize(line, other) == Entry(field, value) {
      var path, literal := EntryHasForm(line, other);
      FieldTokenizes(line, other, path, literal);
    }
    if path, literal :| IsField(line, path, literal) && Upper(path) == field && Load(literal, other) == Some(value) {
      FieldTokenizes(line, other, path, literal);
    }
  }
}
