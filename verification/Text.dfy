/** Option values and the few Python `str` operations that the protocol code relies on.
    Text is a sequence of Unicode scalar values. */
module Text {

  datatype Option<+T> = None | Some(value: T)

  // ----- Whitespace -----

  /** The characters that `str.strip` removes. */
  predicate IsSpace(c: char) {
    || '\U{9}' <= c <= '\U{d}'
    || '\U{1c}' <= c <= ' '
    || c == '\U{85}' || c == '\U{a0}' || c == '\U{1680}'
    || '\U{2000}' <= c <= '\U{200a}'
    || c == '\U{2028}' || c == '\U{2029}' || c == '\U{202f}' || c == '\U{205f}' || c == '\U{3000}'
  }

  function StripLeft(s: string): string {
    if s != [] && IsSpace(s[0]) then StripLeft(s[1..]) else s
  }

  function StripRight(s: string): string {
    if s != [] && IsSpace(s[|s| - 1]) then StripRight(s[..|s| - 1]) else s
  }

  function Strip(s: string): string {
    StripRight(StripLeft(s))
  }

  predicate Blank(s: string) {
    Strip(s) == []
  }

  /** Stripped text starts and ends with a character that is not whitespace. */
  predicate Trimmed(s: string) {
    s == [] || (!IsSpace(s[0]) && !IsSpace(s[|s| - 1]))
  }

  lemma {:induction false} StripRightKeepsHead(s: string)
    requires s == [] || !IsSpace(s[0])
    ensures Trimmed(StripRight(s))
  {
    if s != [] && IsSpace(s[|s| - 1]) {
      StripRightKeepsHead(s[..|s| - 1]);
    }
  }

  lemma {:induction false} StripLeftHead(s: string)
    ensures StripLeft(s) == [] || !IsSpace(StripLeft(s)[0])
  {
    if s != [] && IsSpace(s[0]) {
      StripLeftHead(s[1..]);
    }
  }

  lemma StripIsTrimmed(s: string)
    ensures Trimmed(Strip(s))
  {
    StripLeftHead(s);
    StripRightKeepsHead(StripLeft(s));
  }

  lemma TrimmedIsFixed(s: string)
    requires Trimmed(s)
    ensures Strip(s) == s
  {
  }

  predicate AllSpace(s: string) {
    forall k | 0 <= k < |s| :: IsSpace(s[k])
  }

  lemma {:induction false} StripLeftCuts(s: string) returns (i: nat)
    ensures i <= |s| && StripLeft(s) == s[i..] && AllSpace(s[..i])
  {
    i := 0;
    if s != [] && IsSpace(s[0]) {
      i := StripLeftCuts(s[1..]);
      assert s[1..][i..] == s[i + 1..] && s[..i + 1] == [s[0]] + s[1..][..i];
      i := i + 1;
    }
  }

  lemma {:induction false} StripRightCuts(s: string) returns (j: nat)
    ensures j <= |s| && StripRight(s) == s[..j] && AllSpace(s[j..])
  {
    j := |s|;
    if s != [] && IsSpace(s[|s| - 1]) {
      var n := |s| - 1;
      j := StripRightCuts(s[..n]);
      assert s[..n][..j] == s[..j] && s[j..] == s[..n][j..] + [s[n]];
    }
  }

  /** Stripping cuts whitespace from both ends and nothing else. */
  lemma StripCuts(s: string) returns (i: nat, j: nat)
    ensures i <= j <= |s| && Strip(s) == s[i..j] && AllSpace(s[..i]) && AllSpace(s[j..]) && Trimmed(s[i..j])
  {
    i := StripLeftCuts(s);
    j := StripRightCuts(s[i..]);
    assert s[i..][..j] == s[i..i + j] && s[i..][j..] == s[i + j..];
    j := i + j;
    StripIsTrimmed(s);
  }

  /** Blank is what consists of whitespace only. */
  lemma BlankIff(s: string)
    ensures Blank(s) <==> AllSpace(s)
  {
    var i, j := StripCuts(s);
    assert s == s[..i] + s[i..j] + s[j..];
    if i < j {
      assert !IsSpace(s[i..j][0]) && s[i..j][0] == s[i];
    }
  }

  // ----- Lines -----

  function ReplaceCrLf(s: string): string {
    if s == [] then []
    else if |s| >= 2 && s[0] == '\r' && s[1] == '\n' then ['\n'] + ReplaceCrLf(s[2..])
    else [s[0]] + ReplaceCrLf(s[1..])
  }

  function ReplaceCr(s: string): string {
    if s == [] then []
    else [if s[0] == '\r' then '\n' else s[0]] + ReplaceCr(s[1..])
  }

  /** `s.split("\n")`: always at least one line. */
  function Split(s: string): (lines: seq<string>)
    ensures lines != []
  {
    if s == [] then [[]]
    else
      var rest := Split(s[1..]);
      if s[0] == '\n' then [[]] + rest else [[s[0]] + rest[0]] + rest[1..]
  }

  /** `"\n".join(lines)` */
  function Join(lines: seq<string>): string {
    if lines == [] then []
    else if |lines| == 1 then lines[0]
    else lines[0] + "\n" + Join(lines[1..])
  }

  predicate SingleLine(line: string) {
    '\n' !in line && '\r' !in line
  }

  lemma {:induction false} NoCrUnchanged(s: string)
    requires '\r' !in s
    ensures ReplaceCr(ReplaceCrLf(s)) == s
  {
    if s != [] {
      NoCrUnchanged(s[1..]);
      assert s == [s[0]] + s[1..];
      assert ReplaceCrLf(s) == [s[0]] + ReplaceCrLf(s[1..]);
      assert ReplaceCrLf(s)[1..] == ReplaceCrLf(s[1..]);
    }
  }

  lemma {:induction false} SplitPrefix(line: string, rest: string)
    requires '\n' !in line
    ensures Split(line + "\n" + rest) == [line] + Split(rest)
    ensures Split(line) == [line]
  {
    if line == [] {
      assert line + "\n" + rest == "\n" + rest;
      assert ("\n" + rest)[1..] == rest;
    } else {
      SplitPrefix(line[1..], rest);
      assert (line + "\n" + rest)[1..] == line[1..] + "\n" + rest;
      assert [line[0]] + line[1..] == line;
      assert Split(line + "\n" + rest)[1..] == Split(rest);
    }
  }

  lemma {:induction false} SplitJoin(lines: seq<string>)
    requires lines != []
    requires forall i | 0 <= i < |lines| :: '\n' !in lines[i]
    ensures Split(Join(lines)) == lines
  {
    if |lines| == 1 {
      SplitPrefix(lines[0], []);
    } else {
      SplitJoin(lines[1..]);
      SplitPrefix(lines[0], Join(lines[1..]));
    }
  }

  lemma {:induction false} JoinHasNoCr(lines: seq<string>)
    requires forall i | 0 <= i < |lines| :: SingleLine(lines[i])
    ensures '\r' !in Join(lines)
  {
    if |lines| > 1 {
      JoinHasNoCr(lines[1..]);
    }
  }

  // ----- Decimal numbers -----

  predicate IsDigit(c: char) {
    '0' <= c <= '9'
  }

  function DigitChar(d: nat): (c: char)
    requires d < 10
    ensures IsDigit(c)
  {
    '0' + d as char
  }

  function DigitValue(c: char): (d: nat)
    requires IsDigit(c)
  {
    c as int - '0' as int
  }

  predicate AllDigits(s: string) {
    forall i | 0 <= i < |s| :: IsDigit(s[i])
  }

  /** `str(n)` for a natural number */
  function Decimal(n: nat): (s: string)
    ensures s != [] && AllDigits(s)
    ensures s[0] == '0' ==> s == "0"
  {
    if n < 10 then [DigitChar(n)] else Decimal(n / 10) + [DigitChar(n % 10)]
  }

  function DecimalValue(s: string): nat
    requires AllDigits(s)
  {
    if s == [] then 0 else 10 * DecimalValue(s[..|s| - 1]) + DigitValue(s[|s| - 1])
  }

  lemma {:induction false} DecimalRoundTrip(n: nat)
    ensures DecimalValue(Decimal(n)) == n
  {
    if n < 10 {
      assert Decimal(n)[..0] == [];
    } else {
      DecimalRoundTrip(n / 10);
      assert Decimal(n)[..|Decimal(n)| - 1] == Decimal(n / 10);
    }
  }
}
