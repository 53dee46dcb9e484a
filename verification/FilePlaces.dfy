/** Where the results of file reads end up: which lines a search result has, and under which path, with which text, each
    native read of a window is filed. */
module FilePlaces {
  import opened Text
  import opened Observations
  import opened FileGrouping
  import opened LineEnds
  import Lists

  // ----- Lines of a text -----

  /** Newline, vertical tab, form feed, carriage return, the three separators of files, groups and records, next line,
      and the separators of lines and paragraphs */
  predicate CutsLines(c: char) {
    || c == '\n' || c == '\U{b}' || c == '\U{c}' || c == '\r' || c == '\U{1c}' || c == '\U{1d}' || c == '\U{1e}'
    || c == '\U{85}' || c == '\U{2028}' || c == '\U{2029}'
  }

  /** Where the line after the end at `i` begins */
  function NextAt(s: string, i: nat): (next: nat)
    requires i <= |s|
    ensures i <= next <= |s|
  {
    if i + 1 < |s| && s[i] == '\r' && s[i + 1] == '\n' then i + 2 else if i < |s| then i + 1 else i
  }

  lemma EndShape(s: string, i: nat)
    requires s != [] && i <= |s| && (i < |s| ==> CutsLines(s[i]))
    ensures var end, rest := s[i..NextAt(s, i)], s[NextAt(s, i)..];
      && (IsEnd(CutsLines, end) || (rest == [] && end == [] && i == |s|))
      && (end == "\r" ==> !OpensWithNewline(rest))
  {
    var next := NextAt(s, i);
    if next == i + 2 {
      assert s[i..next] == ['\r', '\n'];
    } else if next == i + 1 {
      assert s[i..next] == [s[i]];
    }
  }

  lemma CutLine(s: string) returns (line: string, end: string, rest: string)
    requires s != []
    ensures s == line + end + rest && |rest| < |s| && SplitLines(s) == [line] + SplitLines(rest)
    ensures OneLine(CutsLines, line) && (IsEnd(CutsLines, end) || (rest == [] && end == [] && line != []))
    ensures end == "\r" ==> !OpensWithNewline(rest)
  {
    var i := LineEnd(s);
    assert forall c :: IsLineEnd(c) <==> CutsLines(c);
    EndShape(s, i);
    line, end, rest := s[..i], s[i..NextAt(s, i)], s[NextAt(s, i)..];
  }

  /** Cutting a text into lines loses nothing: with its line ends put back it is the text again. */
  lemma {:induction false} LinesRejoin(s: string) returns (ends: seq<string>)
    ensures EndsFit(CutsLines, SplitLines(s), ends) && s == Weave(SplitLines(s), ends)
    decreases |s|
  {
    ends := [];
    if s != [] {
      var line, end, rest := CutLine(s);
      var more := LinesRejoin(rest);
      EndsFitCons(CutsLines, line, end, SplitLines(rest), more, rest);
      WeaveCons(line, end, SplitLines(rest), more);
      ends := [end] + more;
    }
  }

  lemma {:induction false} NonEmptyPicked(lines: seq<string>) returns (at: seq<nat>)
    ensures Lists.Picks(lines, l => l != [], NonEmpty(lines), at)
  {
    at := [];
    if lines != [] {
      var n := |lines| - 1;
      at := NonEmptyPicked(lines[..n]);
      at := Lists.PickMore(lines[..n], l => l != [], NonEmpty(lines[..n]), at, lines[n]);
      assert lines[..n] + [lines[n]] == lines;
    }
  }

  /** A line that names a file is the text before its first colon, which is not blank, and what it says is all that
      follows; the path has no whitespace around it. */
  lemma LocatedIff(line: string, before: string, content: string)
    requires ':' !in before
    requires line == before + ":" + content
    ensures Located(line) <==> !Blank(before)
    ensures Located(line) ==> Location(line) == (Strip(before), content)
  {
    assert line[|before|] == ':' && forall k | 0 <= k < |before| :: line[k] == before[k];
    assert ColonAt(line) == |before|;
    assert line[..|before|] == before && line[|before| + 1..] == content;
  }

  lemma UnlocatedIs(line: string)
    requires ':' !in line
    ensures !Located(line)
  {
  }

  // ----- Values of a key -----

  /** `values` are what the items of this key hold, in order and each once; `at` are their places. */
  ghost predicate ValuesAt<V>(items: seq<(string, V)>, key: string, values: seq<V>, at: seq<nat>) {
    && |at| == |values| && Lists.Increasing(at)
    && (forall k | 0 <= k < |at| :: at[k] < |items| && items[at[k]] == (key, values[k]))
    && forall j: nat | j < |items| && items[j].0 == key :: j in at
  }

  lemma {:induction false} ValuesArePicked<V>(items: seq<(string, V)>, key: string) returns (at: seq<nat>)
    ensures ValuesAt(items, key, ValuesOf(items, key), at)
  {
    at := [];
    if items != [] {
      var n := |items| - 1;
      at := ValuesArePicked(items[..n], key);
      at := OneMoreValue(items[..n], key, ValuesOf(items[..n], key), at, items[n]);
      assert items[..n] + [items[n]] == items;
    }
  }

  lemma OneMoreValue<V>(items: seq<(string, V)>, key: string, values: seq<V>, at: seq<nat>, item: (string, V))
    returns (more: seq<nat>)
    requires ValuesAt(items, key, values, at)
    ensures ValuesAt(items + [item], key, values + if item.0 == key then [item.1] else [], more)
  {
    var all := items + [item];
    more := at + if item.0 == key then [|items|] else [];
    forall j: nat | j < |all| && all[j].0 == key
      ensures j in more
    {
      if j == |items| {
        assert more[|at|] == j;
      } else {
        assert all[j] == items[j] && j in at;
      }
    }
  }

  // ----- The entries of one call -----

  predicate HasPath(call: RawCall) {
    call.path.Some? && !Blank(call.path.value)
  }

  /** A search result with lines that all name their files */
  predicate Searchable(call: RawCall) {
    call.name == "grep" && call.result.TextResult? && Splittable(NonEmpty(SplitLines(call.result.text)))
  }

  lemma {:induction false} FiledIs(round: int, call: RawCall, entries: seq<(string, ToolResult)>)
    ensures |Filed(round, call, entries)| == |entries|
    ensures forall k | 0 <= k < |entries| ::
      Filed(round, call, entries)[k] == (entries[k].0, Entry(round, call, entries[k].1))
  {
    if entries != [] {
      FiledIs(round, call, entries[..|entries| - 1]);
    }
  }

  /** A read with a path is filed there with its own result; a failed one, and one whose paths cannot be told, under
      "(unfiled)" with its own result. */
  lemma ReadEntryIs(round: int, call: RawCall)
    requires NativeRead(call) && (call.error.Some? || HasPath(call) || !Searchable(call))
    ensures CallEntries(round, call) ==
      [(if call.error.None? && HasPath(call) then Strip(call.path.value) else "(unfiled)",
        Entry(round, call, call.result))]
  {
    if call.error.None? && HasPath(call) {
      var entries := EntriesOf(call).value;
      assert entries == [(Strip(call.path.value), call.result)];
      FiledIs(round, call, entries);
    }
  }

  /** Entry `k` of a search result is filed under the k-th path, with the lines that name it. */
  predicate SearchEntry(entry: (string, Entry), round: int, call: RawCall, path: string, contents: seq<string>) {
    && entry.0 == path && entry.1.round == round && entry.1.call == call
    && entry.1.result.TextResult? && Split(entry.1.result.text) == contents
  }

  lemma EntryPaths(call: RawCall, k: nat)
    requires !HasPath(call) && Searchable(call)
    ensures var paths := GroupKeys(GroupAll(Locations(NonEmpty(SplitLines(call.result.text)))));
      && EntriesOf(call).Some? && |EntriesOf(call).value| == |paths|
      && (k < |paths| ==> EntriesOf(call).value[k].0 == paths[k])
  {
    var groups := GroupAll(Locations(NonEmpty(SplitLines(call.result.text))));
    JoinedLength(groups);
    if groups != [] {
      GroupKeyAt(groups, 0);
    }
    if k < |groups| {
      JoinedGroupAt(groups, k);
      GroupKeyAt(groups, k);
    }
  }

  /** A search result is filed under the paths that its lines name, each once and in order of first appearance, with
      exactly what the lines of that path say, in order. */
  lemma SearchEntriesAre(round: int, call: RawCall, k: nat)
    requires NativeRead(call) && call.error.None? && !HasPath(call) && Searchable(call)
    ensures var located := Locations(NonEmpty(SplitLines(call.result.text)));
      var paths := Lists.AppendUnique([], KeysOf(located));
      && |CallEntries(round, call)| == |paths|
      && (k < |paths| ==>
            SearchEntry(CallEntries(round, call)[k], round, call, paths[k], ValuesOf(located, paths[k])))
  {
    EntryPaths(call, k);
    SearchPathsAreKept(NonEmpty(SplitLines(call.result.text)));
    FiledIs(round, call, EntriesOf(call).value);
    if k < |EntriesOf(call).value| {
      SearchLinesAreKept(call, k);
    }
  }

  // ----- The entries of a window -----

  lemma EntriesByRound(raw: seq<RawRound>, r: RawRound)
    ensures AllEntries(raw + [r]) == AllEntries(raw) + RoundEntries(r.round, r.calls)
  {
    assert (raw + [r])[..|raw|] == raw;
  }

  lemma OneMoreCall(round: int, calls: seq<RawCall>, call: RawCall)
    ensures RoundEntries(round, calls + [call]) == RoundEntries(round, calls) + CallEntries(round, call)
  {
    assert (calls + [call])[..|calls|] == calls;
  }

  lemma Associates<T>(a: seq<T>, b: seq<T>, c: seq<T>)
    ensures a + (b + c) == a + b + c
  {
  }

  /** One more call adds its entries at the end; an empty round adds nothing. */
  lemma EntriesByCall(raw: seq<RawRound>, round: int, calls: seq<RawCall>, call: RawCall)
    ensures AllEntries(raw + [RawRound(round, [])]) == AllEntries(raw)
    ensures AllEntries(raw + [RawRound(round, calls + [call])])
      == AllEntries(raw + [RawRound(round, calls)]) + CallEntries(round, call)
  {
    EntriesByRound(raw, RawRound(round, []));
    EntriesByRound(raw, RawRound(round, calls));
    EntriesByRound(raw, RawRound(round, calls + [call]));
    OneMoreCall(round, calls, call);
    Associates(AllEntries(raw), RoundEntries(round, calls), CallEntries(round, call));
  }

  lemma InEither<T>(a: seq<T>, b: seq<T>, all: seq<T>, x: T)
    requires (x in a || x in b) && all == a + b
    ensures x in all
  {
  }

  lemma {:induction false} EntryInRound(round: int, calls: seq<RawCall>, j: nat, item: (string, Entry),
                                        own: seq<(string, Entry)>)
    requires j < |calls| && own == CallEntries(round, calls[j]) && item in own
    ensures item in RoundEntries(round, calls)
  {
    var front, last := calls[..|calls| - 1], calls[|calls| - 1];
    assert calls == front + [last];
    if j < |front| {
      EntryInRound(round, front, j, item, own);
    }
    OneMoreCall(round, front, last);
    InEither(RoundEntries(round, front), CallEntries(round, last), RoundEntries(round, calls), item);
  }

  lemma {:induction false} EntryInWindow(raw: seq<RawRound>, i: nat, item: (string, Entry))
    requires i < |raw| && item in RoundEntries(raw[i].round, raw[i].calls)
    ensures item in AllEntries(raw)
  {
    var front, last := raw[..|raw| - 1], raw[|raw| - 1];
    assert raw == front + [last];
    if i < |front| {
      EntryInWindow(front, i, item);
    }
    EntriesByRound(front, last);
    InEither(AllEntries(front), RoundEntries(last.round, last.calls), AllEntries(raw), item);
  }

  lemma {:induction false} KeysOfAt<V>(items: seq<(string, V)>)
    ensures |KeysOf(items)| == |items| && forall k | 0 <= k < |items| :: KeysOf(items)[k] == items[k].0
  {
    if items != [] {
      KeysOfAt(items[..|items| - 1]);
    }
  }

  /** Every entry of a call of the window is in the group of its path. */
  lemma EntryIsGrouped(raw: seq<RawRound>, i: nat, j: nat, item: (string, Entry)) returns (g: nat)
    requires i < |raw| && j < |raw[i].calls| && item in CallEntries(raw[i].round, raw[i].calls[j])
    ensures var ordered := SortGroups(GroupAll(AllEntries(raw)));
      g < |ordered| && ordered[g].0 == item.0 && item.1 in ordered[g].1
  {
    var entries := AllEntries(raw);
    var ordered := SortGroups(GroupAll(entries));
    EntryInRound(raw[i].round, raw[i].calls, j, item, CallEntries(raw[i].round, raw[i].calls[j]));
    EntryInWindow(raw, i, item);
    var p: nat :| p < |entries| && entries[p] == item;
    KeysOfAt(entries);
    Lists.AppendUniqueExtends([], KeysOf(entries));
    GroupAllHolds(entries);
    SortKeepsKeys(GroupAll(entries));
    assert KeysOf(entries)[p] == item.0 && item.0 in GroupKeys(ordered);
    g :| 0 <= g < |GroupKeys(ordered)| && GroupKeys(ordered)[g] == item.0;
    GroupsAndKeys(ordered);
    GroupKeyAt(ordered, g);
    GroupingIsLossless(raw, g);
    var at := ValuesArePicked(entries, item.0);
    var k :| 0 <= k < |at| && at[k] == p;
    assert ValuesOf(entries, item.0)[k] == item.1;
    assert item.1 in multiset(ValuesOf(entries, item.0));
    assert item.1 in multiset(ordered[g].1);
  }

  lemma {:induction false} GroupsAndKeys<V>(groups: Groups<V>)
    ensures |GroupKeys(groups)| == |groups|
  {
    if groups != [] {
      GroupsAndKeys(groups[1..]);
    }
  }

  /** Every native read of a window that has a path is in the group of its stripped path, with its own result; one that
      failed, or whose paths cannot be told, is among the unfiled. */
  lemma ReadIsFiled(raw: seq<RawRound>, i: nat, j: nat) returns (g: nat)
    requires i < |raw| && j < |raw[i].calls|
    requires var call := raw[i].calls[j];
      call.lifecycle == PermanentRaw && (call.name == "grep" || call.name == "read_file")
    requires var call := raw[i].calls[j]; call.error.Some? || HasPath(call) || !Searchable(call)
    ensures var ordered, call := SortGroups(GroupAll(AllEntries(raw))), raw[i].calls[j];
      && g < |ordered|
      && ordered[g].0 == (if call.error.None? && HasPath(call) then Strip(call.path.value) else "(unfiled)")
      && Entry(raw[i].round, call, call.result) in ordered[g].1
  {
    ReadEntryIs(raw[i].round, raw[i].calls[j]);
    g := EntryIsGrouped(raw, i, j, CallEntries(raw[i].round, raw[i].calls[j])[0]);
  }
}
