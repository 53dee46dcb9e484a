/** Grouping the results of file reads by path for the prompt, without losing or repeating anything. */
module FileGrouping {
  import opened Text
  import Lists
  import opened Observations

  // ----- Dictionaries of lists, in order of first appearance -----

  type Groups<V> = seq<(string, seq<V>)>

  /** `groups.setdefault(key, []).append(value)` */
  function AddTo<V>(groups: Groups<V>, key: string, value: V): Groups<V> {
    if groups == [] then [(key, [value])]
    else if groups[0].0 == key then [(key, groups[0].1 + [value])] + groups[1..]
    else [groups[0]] + AddTo(groups[1..], key, value)
  }

  function GroupAll<V>(items: seq<(string, V)>): Groups<V> {
    if items == [] then [] else AddTo(GroupAll(items[..|items| - 1]), items[|items| - 1].0, items[|items| - 1].1)
  }

  /** The values filed under `key`, in order */
  function ValuesOf<V>(items: seq<(string, V)>, key: string): seq<V> {
    if items == [] then []
    else ValuesOf(items[..|items| - 1], key) + if items[|items| - 1].0 == key then [items[|items| - 1].1] else []
  }

  function KeysOf<V>(items: seq<(string, V)>): seq<string> {
    if items == [] then [] else KeysOf(items[..|items| - 1]) + [items[|items| - 1].0]
  }

  function GroupKeys<V>(groups: Groups<V>): seq<string> {
    if groups == [] then [] else [groups[0].0] + GroupKeys(groups[1..])
  }

  method Append<V>(groups: Groups<V>, key: string, value: V) returns (updated: Groups<V>)
    ensures updated == AddTo(groups, key, value)
  {
    var i := 0;
    while i < |groups| && groups[i].0 != key
      invariant i <= |groups|
      invariant AddTo(groups, key, value) == groups[..i] + AddTo(groups[i..], key, value)
    {
      assert groups[..i + 1] == groups[..i] + [groups[i]] && groups[i..][1..] == groups[i + 1..];
      i := i + 1;
    }
    updated := if i == |groups| then groups + [(key, [value])] else groups[i := (key, groups[i].1 + [value])];
    assert i < |groups| ==> groups[i..][1..] == groups[i + 1..];
    assert i == |groups| ==> groups[..i] == groups;
  }

  /** What the dictionary holds: every key once, in order of first appearance, with all of its values in order. */
  ghost predicate Holds<V>(groups: Groups<V>, items: seq<(string, V)>) {
    && GroupKeys(groups) == Lists.AppendUnique([], KeysOf(items))
    && forall i | 0 <= i < |groups| :: groups[i].1 == ValuesOf(items, groups[i].0)
  }

  lemma {:induction false} GroupKeyAt<V>(groups: Groups<V>, i: nat)
    requires i < |groups|
    ensures |GroupKeys(groups)| == |groups| && GroupKeys(groups)[i] == groups[i].0
  {
    if |groups| > 1 {
      GroupKeyAt(groups[1..], if i == 0 then 0 else i - 1);
    }
  }

  lemma {:induction false} AddToKeys<V>(groups: Groups<V>, key: string, value: V)
    ensures GroupKeys(AddTo(groups, key, value))
      == if key in GroupKeys(groups) then GroupKeys(groups) else GroupKeys(groups) + [key]
    ensures |AddTo(groups, key, value)| == if key in GroupKeys(groups) then |groups| else |groups| + 1
  {
    if groups != [] && groups[0].0 != key {
      AddToKeys(groups[1..], key, value);
    }
  }

  /** Adding changes the group of `key` only. */
  lemma {:induction false} AddToValues<V>(groups: Groups<V>, key: string, value: V, i: nat)
    requires i < |AddTo(groups, key, value)| && Lists.NoDuplicates(GroupKeys(groups))
    ensures var g := AddTo(groups, key, value)[i];
      if g.0 != key then i < |groups| && g == groups[i]
      else if i < |groups| then groups[i].0 == key && g.1 == groups[i].1 + [value]
      else g.1 == [value] && key !in GroupKeys(groups)
  {
    if groups != [] {
      GroupKeyAt(groups, 0);
      if groups[0].0 != key {
        TailDuplicates(GroupKeys(groups));
        if i > 0 {
          AddToValues(groups[1..], key, value, i - 1);
        }
      } else if i > 0 {
        GroupKeyAt(groups, i);
        assert GroupKeys(groups)[0] != GroupKeys(groups)[i];
      }
    }
  }

  lemma TailDuplicates<T>(s: seq<T>)
    requires s != [] && Lists.NoDuplicates(s)
    ensures Lists.NoDuplicates(s[1..])
  {
    forall i, j | 0 <= i < j < |s| - 1
      ensures s[1..][i] != s[1..][j]
    {
      assert s[i + 1] != s[j + 1];
    }
  }

  lemma {:induction false} KeysHaveValues<V>(items: seq<(string, V)>, key: string)
    requires key !in KeysOf(items)
    ensures ValuesOf(items, key) == []
  {
    if items != [] {
      KeysHaveValues(items[..|items| - 1], key);
    }
  }

  /** Grouping keeps everything exactly once. */
  lemma {:induction false} GroupAllHolds<V>(items: seq<(string, V)>)
    ensures Holds(GroupAll(items), items)
    ensures Lists.NoDuplicates(GroupKeys(GroupAll(items)))
  {
    if items != [] {
      var front, last := items[..|items| - 1], items[|items| - 1];
      GroupAllHolds(front);
      GroupKeysGrow(GroupAll(front), front, last);
      GroupValuesGrow(GroupAll(front), front, last, items);
    }
  }

  lemma GroupKeysGrow<V>(before: Groups<V>, front: seq<(string, V)>, last: (string, V))
    requires GroupKeys(before) == Lists.AppendUnique([], KeysOf(front))
    ensures GroupKeys(AddTo(before, last.0, last.1)) == Lists.AppendUnique([], KeysOf(front) + [last.0])
    ensures Lists.NoDuplicates(GroupKeys(AddTo(before, last.0, last.1)))
  {
    AddToKeys(before, last.0, last.1);
    Lists.AppendUniqueConcat([], KeysOf(front), [last.0]);
    Lists.AppendUniqueExtends([], KeysOf(front) + [last.0]);
  }

  lemma GroupValuesGrow<V>(before: Groups<V>, front: seq<(string, V)>, last: (string, V), items: seq<(string, V)>)
    requires Holds(before, front) && Lists.NoDuplicates(GroupKeys(before))
    requires items != [] && items[..|items| - 1] == front && items[|items| - 1] == last
    ensures var after := AddTo(before, last.0, last.1);
      forall i | 0 <= i < |after| :: after[i].1 == ValuesOf(items, after[i].0)
  {
    var after := AddTo(before, last.0, last.1);
    Lists.AppendUniqueExtends([], KeysOf(front));
    forall i | 0 <= i < |after|
      ensures after[i].1 == ValuesOf(items, after[i].0)
    {
      AddToValues(before, last.0, last.1, i);
      if after[i].0 == last.0 && i >= |before| {
        KeysHaveValues(front, last.0);
      }
    }
  }

  // ----- Lines -----

  /** The characters at which `str.splitlines` ends a line */
  predicate IsLineEnd(c: char) {
    || '\n' <= c <= '\r' || '\U{1c}' <= c <= '\U{1e}' || c == '\U{85}' || c == '\U{2028}' || c == '\U{2029}'
  }

  function LineEnd(s: string): (i: nat)
    ensures i <= |s|
    ensures i < |s| ==> IsLineEnd(s[i])
    ensures forall k | 0 <= k < i :: !IsLineEnd(s[k])
  {
    if s == [] || IsLineEnd(s[0]) then 0 else 1 + LineEnd(s[1..])
  }

  /** `s.splitlines()`: a carriage return and newline end one line together, and no line follows the last end. */
  function SplitLines(s: string): seq<string>
    decreases |s|
  {
    if s == [] then []
    else
      var i := LineEnd(s);
      var next := if i + 1 < |s| && s[i] == '\r' && s[i + 1] == '\n' then i + 2 else if i < |s| then i + 1 else i;
      [s[..i]] + SplitLines(s[next..])
  }

  function NonEmpty(lines: seq<string>): seq<string> {
    if lines == [] then []
    else NonEmpty(lines[..|lines| - 1]) + if lines[|lines| - 1] != [] then [lines[|lines| - 1]] else []
  }

  function ColonAt(line: string): (i: nat)
    ensures i <= |line|
    ensures i < |line| ==> line[i] == ':'
    ensures forall k | 0 <= k < i :: line[k] != ':'
  {
    if line == [] || line[0] == ':' then 0 else 1 + ColonAt(line[1..])
  }

  /** A line that names its file, and what it says of it */
  predicate Located(line: string) {
    ColonAt(line) < |line| && !Blank(line[..ColonAt(line)])
  }

  function Location(line: string): (string, string)
    requires Located(line)
  {
    (Strip(line[..ColonAt(line)]), line[ColonAt(line) + 1..])
  }

  predicate Splittable(lines: seq<string>) {
    lines != [] && forall i | 0 <= i < |lines| :: Located(lines[i])
  }

  function Locations(lines: seq<string>): (r: seq<(string, string)>)
    requires forall i | 0 <= i < |lines| :: Located(lines[i])
    ensures |r| == |lines|
    ensures forall i | 0 <= i < |lines| :: r[i] == Location(lines[i])
  {
    seq(|lines|, i requires 0 <= i < |lines| && Located(lines[i]) => Location(lines[i]))
  }

  lemma {:induction false} LinesAreSingle(s: string)
    ensures forall i | 0 <= i < |SplitLines(s)| ::
      forall k | 0 <= k < |SplitLines(s)[i]| :: !IsLineEnd(SplitLines(s)[i][k])
    decreases |s|
  {
    if s != [] {
      var i := LineEnd(s);
      var next := if i + 1 < |s| && s[i] == '\r' && s[i + 1] == '\n' then i + 2 else if i < |s| then i + 1 else i;
      LinesAreSingle(s[next..]);
    }
  }

  // ----- Entries of one call -----

  const UNFILED := "(unfiled)"

  /** The text that lists `contents` one per line */
  function JoinGroups(groups: Groups<string>): seq<(string, ToolResult)> {
    if groups == [] then []
    else JoinGroups(groups[..|groups| - 1]) + [(groups[|groups| - 1].0, TextResult(Join(groups[|groups| - 1].1)))]
  }

  /** The paths and results of a call, or None when they cannot be told */
  function EntriesOf(call: RawCall): Option<seq<(string, ToolResult)>> {
    if call.path.Some? && !Blank(call.path.value) then Some([(Strip(call.path.value), call.result)])
    else if call.name == "grep" && call.result.TextResult? then
      var lines := NonEmpty(SplitLines(call.result.text));
      if Splittable(lines) then Some(JoinGroups(GroupAll(Locations(lines)))) else None
    else None
  }

  lemma LocationsAppend(lines: seq<string>, i: nat)
    requires i < |lines| && forall k | 0 <= k <= i :: Located(lines[k])
    ensures Locations(lines[..i + 1]) == Locations(lines[..i]) + [Location(lines[i])]
  {
  }

  lemma GroupAllAppend<V>(items: seq<(string, V)>, item: (string, V))
    ensures GroupAll(items + [item]) == AddTo(GroupAll(items), item.0, item.1)
  {
    assert (items + [item])[..|items|] == items;
  }

  /** The contents of the lines by path; None when some line does not name its file. */
  method LocateLines(lines: seq<string>) returns (byPath: Option<Groups<string>>)
    requires lines != []
    ensures byPath == if Splittable(lines) then Some(GroupAll(Locations(lines))) else None
  {
    var groups: Groups<string> := [];
    for i := 0 to |lines|
      invariant forall k | 0 <= k < i :: Located(lines[k])
      invariant groups == GroupAll(Locations(lines[..i]))
    {
      if !Located(lines[i]) {
        return None;
      }
      LocationsAppend(lines, i);
      GroupAllAppend(Locations(lines[..i]), Location(lines[i]));
      groups := Append(groups, Location(lines[i]).0, Location(lines[i]).1);
    }
    assert lines[..|lines|] == lines;
    byPath := Some(groups);
  }

  method NativeReadEntries(call: RawCall) returns (entries: Option<seq<(string, ToolResult)>>)
    ensures entries == EntriesOf(call)
  {
    if call.path.Some? && !Blank(call.path.value) {
      return Some([(Strip(call.path.value), call.result)]);
    }
    if call.name != "grep" || !call.result.TextResult? {
      return None;
    }
    var lines := NonEmpty(SplitLines(call.result.text));
    if lines == [] {
      return None;
    }
    var located := LocateLines(lines);
    if located.None? {
      return None;
    }
    var joined := JoinContents(located.value);
    entries := Some(joined);
  }

  method JoinContents(byPath: Groups<string>) returns (joined: seq<(string, ToolResult)>)
    ensures joined == JoinGroups(byPath)
  {
    joined := [];
    for i := 0 to |byPath|
      invariant joined == JoinGroups(byPath[..i])
    {
      assert byPath[..i + 1][..i] == byPath[..i];
      joined := joined + [(byPath[i].0, TextResult(Join(byPath[i].1)))];
    }
    assert byPath[..|byPath|] == byPath;
  }

  // ----- The whole window -----

  datatype Entry = Entry(round: int, call: RawCall, result: ToolResult)

  predicate NativeRead(call: RawCall) {
    (call.name == "grep" || call.name == "read_file") && call.lifecycle == PermanentRaw
  }

  function Filed(round: int, call: RawCall, entries: seq<(string, ToolResult)>): seq<(string, Entry)> {
    if entries == [] then []
    else
      var last := entries[|entries| - 1];
      Filed(round, call, entries[..|entries| - 1]) + [(last.0, Entry(round, call, last.1))]
  }

  /** What a call contributes to the groups */
  function CallEntries(round: int, call: RawCall): seq<(string, Entry)> {
    if !NativeRead(call) then []
    else if call.error.Some? || EntriesOf(call).None? then [(UNFILED, Entry(round, call, call.result))]
    else Filed(round, call, EntriesOf(call).value)
  }

  function RoundEntries(round: int, calls: seq<RawCall>): seq<(string, Entry)> {
    if calls == [] then [] else RoundEntries(round, calls[..|calls| - 1]) + CallEntries(round, calls[|calls| - 1])
  }

  /** All entries of the window in request order */
  function AllEntries(raw: seq<RawRound>): seq<(string, Entry)> {
    if raw == [] then [] else AllEntries(raw[..|raw| - 1]) + RoundEntries(raw[|raw| - 1].round, raw[|raw| - 1].calls)
  }

  function OtherCalls(calls: seq<RawCall>): seq<RawCall> {
    if calls == [] then []
    else OtherCalls(calls[..|calls| - 1]) + if NativeRead(calls[|calls| - 1]) then [] else [calls[|calls| - 1]]
  }

  /** The rounds without the native reads */
  function OtherRounds(raw: seq<RawRound>): seq<RawRound> {
    if raw == [] then []
    else OtherRounds(raw[..|raw| - 1]) + [RawRound(raw[|raw| - 1].round, OtherCalls(raw[|raw| - 1].calls))]
  }

  predicate NoLater(a: Entry, b: Entry) {
    a.round <= b.round
  }

  function SortGroups(groups: Groups<Entry>): Groups<Entry> {
    if groups == [] then []
    else
      var last := groups[|groups| - 1];
      SortGroups(groups[..|groups| - 1]) + [(last.0, Lists.StableSort(last.1, NoLater))]
  }

  /** File the entries of one native read after the items that are filed already. */
  method FileCall(groups: Groups<Entry>, round: int, call: RawCall, ghost items: seq<(string, Entry)>)
    returns (updated: Groups<Entry>)
    requires groups == GroupAll(items) && NativeRead(call)
    ensures updated == GroupAll(items + CallEntries(round, call))
  {
    var entries := NativeReadEntries(call);
    if call.error.Some? || entries.None? {
      GroupAllAppend(items, (UNFILED, Entry(round, call, call.result)));
      updated := Append(groups, UNFILED, Entry(round, call, call.result));
    } else {
      updated := FileEntries(groups, round, call, entries.value, items);
    }
  }

  lemma FiledAppend(round: int, call: RawCall, entries: seq<(string, ToolResult)>, i: nat, items: seq<(string, Entry)>)
    requires i < |entries|
    ensures items + Filed(round, call, entries[..i + 1])
      == items + Filed(round, call, entries[..i]) + [(entries[i].0, Entry(round, call, entries[i].1))]
  {
    assert entries[..i + 1][..i] == entries[..i];
  }

  method FileEntries(groups: Groups<Entry>, round: int, call: RawCall, entries: seq<(string, ToolResult)>,
                     ghost items: seq<(string, Entry)>) returns (updated: Groups<Entry>)
    requires groups == GroupAll(items)
    ensures updated == GroupAll(items + Filed(round, call, entries))
  {
    updated := groups;
    assert items + [] == items;
    for i := 0 to |entries|
      invariant updated == GroupAll(items + Filed(round, call, entries[..i]))
    {
      FiledAppend(round, call, entries, i, items);
      GroupAllAppend(items + Filed(round, call, entries[..i]), (entries[i].0, Entry(round, call, entries[i].1)));
      updated := Append(updated, entries[i].0, Entry(round, call, entries[i].1));
    }
    assert entries[..|entries|] == entries;
  }

  lemma RoundAppend(round: int, calls: seq<RawCall>, j: nat, items: seq<(string, Entry)>)
    requires j < |calls|
    ensures items + RoundEntries(round, calls[..j + 1])
      == items + RoundEntries(round, calls[..j]) + CallEntries(round, calls[j])
    ensures OtherCalls(calls[..j + 1]) == OtherCalls(calls[..j]) + if NativeRead(calls[j]) then [] else [calls[j]]
  {
    assert calls[..j + 1][..j] == calls[..j];
  }

  method GroupRound(groups: Groups<Entry>, round: int, calls: seq<RawCall>, ghost items: seq<(string, Entry)>)
    returns (updated: Groups<Entry>, other: seq<RawCall>)
    requires groups == GroupAll(items)
    ensures updated == GroupAll(items + RoundEntries(round, calls))
    ensures other == OtherCalls(calls)
  {
    updated, other := groups, [];
    assert items + [] == items;
    for j := 0 to |calls|
      invariant updated == GroupAll(items + RoundEntries(round, calls[..j]))
      invariant other == OtherCalls(calls[..j])
    {
      RoundAppend(round, calls, j, items);
      if NativeRead(calls[j]) {
        updated := FileCall(updated, round, calls[j], items + RoundEntries(round, calls[..j]));
      } else {
        assert items + RoundEntries(round, calls[..j]) + [] == items + RoundEntries(round, calls[..j]);
        other := other + [calls[j]];
      }
    }
    assert calls[..|calls|] == calls;
  }

  method GroupNativeReadResults(raw: seq<RawRound>) returns (ordered: Groups<Entry>, rounds: seq<RawRound>)
    ensures ordered == SortGroups(GroupAll(AllEntries(raw)))
    ensures rounds == OtherRounds(raw)
  {
    var groups: Groups<Entry> := [];
    rounds := [];
    for i := 0 to |raw|
      invariant groups == GroupAll(AllEntries(raw[..i])) && rounds == OtherRounds(raw[..i])
    {
      assert raw[..i + 1][..i] == raw[..i];
      var other;
      groups, other := GroupRound(groups, raw[i].round, raw[i].calls, AllEntries(raw[..i]));
      rounds := rounds + [RawRound(raw[i].round, other)];
    }
    assert raw[..|raw|] == raw;
    ordered := SortByRound(groups);
  }

  method SortByRound(groups: Groups<Entry>) returns (ordered: Groups<Entry>)
    ensures ordered == SortGroups(groups)
  {
    ordered := [];
    for i := 0 to |groups|
      invariant ordered == SortGroups(groups[..i])
    {
      assert groups[..i + 1][..i] == groups[..i];
      ordered := ordered + [(groups[i].0, Lists.StableSort(groups[i].1, NoLater))];
    }
    assert groups[..|groups|] == groups;
  }

  // ----- Nothing is lost and nothing is repeated -----

  lemma {:induction false} SortedGroupAt(groups: Groups<Entry>, i: nat)
    requires i < |groups|
    ensures |SortGroups(groups)| == |groups|
    ensures SortGroups(groups)[i] == (groups[i].0, Lists.StableSort(groups[i].1, NoLater))
  {
    var n := |groups| - 1;
    if i < n {
      SortedGroupAt(groups[..n], i);
    } else if n > 0 {
      SortedGroupAt(groups[..n], 0);
    }
  }

  lemma {:induction false} SortKeepsKeys(groups: Groups<Entry>)
    ensures GroupKeys(SortGroups(groups)) == GroupKeys(groups)
  {
    if groups != [] {
      var n := |groups| - 1;
      SortKeepsKeys(groups[..n]);
      GroupKeysAppend(groups[..n], groups[n]);
      GroupKeysAppend(SortGroups(groups[..n]), SortGroups(groups)[|SortGroups(groups[..n])|]);
      assert groups == groups[..n] + [groups[n]];
    }
  }

  lemma {:induction false} GroupKeysAppend<V>(groups: Groups<V>, g: (string, seq<V>))
    ensures GroupKeys(groups + [g]) == GroupKeys(groups) + [g.0]
  {
    if groups != [] {
      assert (groups + [g])[1..] == groups[1..] + [g];
      GroupKeysAppend(groups[1..], g);
    } else {
      assert (groups + [g])[1..] == [];
    }
  }

  /** Every path is listed once, in order of first appearance, with exactly its entries of the window, sorted by
      round and otherwise in request order. */
  lemma GroupingIsLossless(raw: seq<RawRound>, i: nat)
    requires i < |SortGroups(GroupAll(AllEntries(raw)))|
    ensures var ordered, entries := SortGroups(GroupAll(AllEntries(raw))), AllEntries(raw);
      && GroupKeys(ordered) == Lists.AppendUnique([], KeysOf(entries))
      && Lists.NoDuplicates(GroupKeys(ordered))
      && ordered[i].1 == Lists.StableSort(ValuesOf(entries, ordered[i].0), NoLater)
      && multiset(ordered[i].1) == multiset(ValuesOf(entries, ordered[i].0))
      && Lists.Sorted(ordered[i].1, NoLater)
      && forall e: Entry ::
        Lists.Alike(ordered[i].1, e, NoLater) == Lists.Alike(ValuesOf(entries, ordered[i].0), e, NoLater)
  {
    var groups := GroupAll(AllEntries(raw));
    GroupAllHolds(AllEntries(raw));
    SortKeepsKeys(groups);
    SortedLength(groups);
    SortedGroupAt(groups, i);
    SortedByRound(groups[i].1);
  }

  /** Sorting by round keeps all entries, and those of one round in their order. */
  lemma SortedByRound(entries: seq<Entry>)
    ensures var sorted := Lists.StableSort(entries, NoLater);
      && multiset(sorted) == multiset(entries)
      && Lists.Sorted(sorted, NoLater)
      && forall e: Entry :: Lists.Alike(sorted, e, NoLater) == Lists.Alike(entries, e, NoLater)
  {
    Lists.SortKeepsElements(entries, NoLater);
    Lists.SortIsSorted(entries, NoLater);
    forall e: Entry
      ensures Lists.Alike(Lists.StableSort(entries, NoLater), e, NoLater) == Lists.Alike(entries, e, NoLater)
    {
      Lists.SortIsStable(entries, e, NoLater);
    }
  }

  lemma {:induction false} SortedLength(groups: Groups<Entry>)
    ensures |SortGroups(groups)| == |groups|
  {
    if groups != [] {
      SortedLength(groups[..|groups| - 1]);
    }
  }

  /** With rounds in increasing order the entries of a path stay in request order. */
  lemma {:induction false} EntriesInOrder(raw: seq<RawRound>, key: string)
    requires forall i, j | 0 <= i < j < |raw| :: raw[i].round <= raw[j].round
    ensures forall e | e in ValuesOf(AllEntries(raw), key) :: raw != [] && e.round <= raw[|raw| - 1].round
    ensures forall i, j | 0 <= i < j < |ValuesOf(AllEntries(raw), key)| ::
      NoLater(ValuesOf(AllEntries(raw), key)[i], ValuesOf(AllEntries(raw), key)[j])
  {
    if raw != [] {
      var n := |raw| - 1;
      EntriesInOrder(raw[..n], key);
      var more := RoundEntries(raw[n].round, raw[n].calls);
      ValuesAppend(AllEntries(raw[..n]), more, key);
      RoundOfEntries(raw[n].round, raw[n].calls, key);
      assert n > 0 ==> raw[..n][n - 1].round <= raw[n].round;
    }
  }

  lemma {:induction false} ValuesAppend<V>(a: seq<(string, V)>, b: seq<(string, V)>, key: string)
    ensures ValuesOf(a + b, key) == ValuesOf(a, key) + ValuesOf(b, key)
  {
    if b == [] {
      assert a + b == a && ValuesOf(a, key) + [] == ValuesOf(a, key);
    } else {
      assert (a + b)[..|a + b| - 1] == a + b[..|b| - 1];
      ValuesAppend(a, b[..|b| - 1], key);
    }
  }

  lemma {:induction false} FiledRounds(round: int, call: RawCall, entries: seq<(string, ToolResult)>, key: string)
    ensures forall e | e in ValuesOf(Filed(round, call, entries), key) :: e.round == round && e.call == call
  {
    if entries != [] {
      FiledRounds(round, call, entries[..|entries| - 1], key);
    }
  }

  lemma {:induction false} RoundOfEntries(round: int, calls: seq<RawCall>, key: string)
    ensures forall e | e in ValuesOf(RoundEntries(round, calls), key) :: e.round == round
  {
    if calls != [] {
      var n := |calls| - 1;
      RoundOfEntries(round, calls[..n], key);
      ValuesAppend(RoundEntries(round, calls[..n]), CallEntries(round, calls[n]), key);
      if NativeRead(calls[n]) && calls[n].error.None? && EntriesOf(calls[n]).Some? {
        FiledRounds(round, calls[n], EntriesOf(calls[n]).value, key);
      } else {
        assert forall e | e in ValuesOf(CallEntries(round, calls[n]), key) :: e.round == round;
      }
    }
  }

  /** In a window whose rounds increase, sorting changes nothing: a path's entries are ordered by round and then
      by request. */
  lemma GroupingKeepsRequestOrder(raw: seq<RawRound>, i: nat)
    requires forall i, j | 0 <= i < j < |raw| :: raw[i].round <= raw[j].round
    requires i < |SortGroups(GroupAll(AllEntries(raw)))|
    ensures var ordered := SortGroups(GroupAll(AllEntries(raw)));
      ordered[i].1 == ValuesOf(AllEntries(raw), ordered[i].0)
  {
    var key := SortGroups(GroupAll(AllEntries(raw)))[i].0;
    GroupingIsLossless(raw, i);
    EntriesInOrder(raw, key);
    Lists.SortedIsFixed(ValuesOf(AllEntries(raw), key), NoLater);
  }

  // ----- Lines of a search result -----

  lemma {:induction false} JoinedGroupAt(groups: Groups<string>, i: nat)
    requires i < |groups|
    ensures |JoinGroups(groups)| == |groups|
    ensures JoinGroups(groups)[i] == (groups[i].0, TextResult(Join(groups[i].1)))
  {
    var n := |groups| - 1;
    if i < n {
      JoinedGroupAt(groups[..n], i);
    } else if n > 0 {
      JoinedGroupAt(groups[..n], 0);
    }
  }

  lemma {:induction false} ValuesAreSingle(lines: seq<string>, key: string)
    requires forall i | 0 <= i < |lines| :: Located(lines[i]) && '\n' !in lines[i]
    ensures forall v | v in ValuesOf(Locations(lines), key) :: '\n' !in v
  {
    if lines != [] {
      var n := |lines| - 1;
      LocationsAppend(lines, n);
      assert lines[..n + 1] == lines;
      ValuesAreSingle(lines[..n], key);
      assert Locations(lines)[..n] == Locations(lines[..n]);
    }
  }

  lemma {:induction false} NonEmptyOf(lines: seq<string>)
    ensures forall i | 0 <= i < |NonEmpty(lines)| :: NonEmpty(lines)[i] in lines && NonEmpty(lines)[i] != []
  {
    if lines != [] {
      NonEmptyOf(lines[..|lines| - 1]);
    }
  }

  /** Every non-empty line of a splittable search result appears exactly once: each path is listed once, and
      its text split into lines again gives what the lines of that path say, in order. */
  lemma SearchLinesAreKept(call: RawCall, i: nat)
    requires call.path.None? || Blank(call.path.value)
    requires call.result.TextResult? && EntriesOf(call).Some? && i < |EntriesOf(call).value|
    ensures var lines := NonEmpty(SplitLines(call.result.text)); var (path, result) := EntriesOf(call).value[i];
      && Splittable(lines)
      && result.TextResult? && Split(result.text) == ValuesOf(Locations(lines), path)
  {
    var lines := NonEmpty(SplitLines(call.result.text));
    var groups := GroupAll(Locations(lines));
    LinesAreSingle(call.result.text);
    NonEmptyOf(SplitLines(call.result.text));
    GroupAllHolds(Locations(lines));
    JoinedLength(groups);
    JoinedGroupAt(groups, i);
    ValuesAreSingle(lines, groups[i].0);
    ValuesNotEmpty(Locations(lines), i);
    SplitJoin(groups[i].1);
  }

  lemma {:induction false} JoinedLength(groups: Groups<string>)
    ensures |JoinGroups(groups)| == |groups|
  {
    if groups != [] {
      JoinedLength(groups[..|groups| - 1]);
    }
  }

  /** Every group has a value. */
  lemma {:induction false} ValuesNotEmpty<V>(items: seq<(string, V)>, i: nat)
    requires i < |GroupAll(items)|
    ensures GroupAll(items)[i].1 != []
  {
    var front, last := items[..|items| - 1], items[|items| - 1];
    GroupAllHolds(front);
    AddToValues(GroupAll(front), last.0, last.1, i);
    if GroupAll(items)[i].0 != last.0 {
      ValuesNotEmpty(front, i);
    }
  }

  /** The paths of a search result are those of its lines, each once. */
  lemma SearchPathsAreKept(lines: seq<string>)
    requires Splittable(lines)
    ensures GroupKeys(GroupAll(Locations(lines))) == Lists.AppendUnique([], KeysOf(Locations(lines)))
    ensures Lists.NoDuplicates(GroupKeys(GroupAll(Locations(lines))))
  {
    GroupAllHolds(Locations(lines));
  }

  // ----- Every call has its place -----

  lemma {:induction false} FiledAt(round: int, call: RawCall, entries: seq<(string, ToolResult)>)
    requires entries != []
    ensures Filed(round, call, entries) != []
    ensures Filed(round, call, entries)[|Filed(round, call, entries)| - 1].1.call == call
  {
  }

  lemma {:induction false} GroupAllNotEmpty<V>(items: seq<(string, V)>)
    requires items != []
    ensures GroupAll(items) != []
  {
    AddToKeys(GroupAll(items[..|items| - 1]), items[|items| - 1].0, items[|items| - 1].1);
  }

  /** A native read always leaves an entry, under its paths or unfiled. */
  lemma NativeReadIsFiled(round: int, call: RawCall)
    requires NativeRead(call)
    ensures CallEntries(round, call) != []
    ensures CallEntries(round, call)[|CallEntries(round, call)| - 1].1.call == call
  {
    if call.error.None? && EntriesOf(call).Some? {
      if call.path.None? || Blank(call.path.value) {
        var lines := NonEmpty(SplitLines(call.result.text));
        GroupAllNotEmpty(Locations(lines));
        JoinedLength(GroupAll(Locations(lines)));
      }
      FiledAt(round, call, EntriesOf(call).value);
    }
  }

  predicate HasEntry(items: seq<(string, Entry)>, call: RawCall) {
    exists k | 0 <= k < |items| :: items[k].1.call == call
  }

  lemma HasEntryAppend(a: seq<(string, Entry)>, b: seq<(string, Entry)>, call: RawCall)
    requires HasEntry(a, call) || HasEntry(b, call)
    ensures HasEntry(a + b, call)
  {
    if HasEntry(a, call) {
      var k :| 0 <= k < |a| && a[k].1.call == call;
      assert (a + b)[k].1.call == call;
    } else {
      var k :| 0 <= k < |b| && b[k].1.call == call;
      assert (a + b)[|a| + k].1.call == call;
    }
  }

  lemma {:induction false} PlacedInRound(round: int, calls: seq<RawCall>, j: nat)
    requires j < |calls|
    ensures NativeRead(calls[j]) ==> HasEntry(RoundEntries(round, calls), calls[j])
    ensures !NativeRead(calls[j]) ==> calls[j] in OtherCalls(calls)
  {
    var n := |calls| - 1;
    if j < n {
      PlacedInRound(round, calls[..n], j);
    } else if NativeRead(calls[n]) {
      NativeReadIsFiled(round, calls[n]);
      assert HasEntry(CallEntries(round, calls[n]), calls[n]);
    }
    if NativeRead(calls[j]) {
      HasEntryAppend(RoundEntries(round, calls[..n]), CallEntries(round, calls[n]), calls[j]);
    }
  }

  lemma {:induction false} OtherCallsRemain(calls: seq<RawCall>) returns (at: seq<nat>)
    ensures Lists.Picks(calls, c => !NativeRead(c), OtherCalls(calls), at)
  {
    at := [];
    if calls != [] {
      var n := |calls| - 1;
      at := OtherCallsRemain(calls[..n]);
      at := Lists.PickMore(calls[..n], c => !NativeRead(c), OtherCalls(calls[..n]), at, calls[n]);
      assert calls[..n] + [calls[n]] == calls;
      assert OtherCalls(calls[..n]) + [] == OtherCalls(calls[..n]);
    }
  }

  /** Every round stays, and keeps exactly its calls that are no native reads, in their order. */
  lemma {:induction false} OtherCallsStay(raw: seq<RawRound>, i: nat) returns (at: seq<nat>)
    requires i < |raw|
    ensures |OtherRounds(raw)| == |raw| && OtherRounds(raw)[i].round == raw[i].round
    ensures Lists.Picks(raw[i].calls,
                        (c: RawCall) => c.lifecycle != PermanentRaw || (c.name != "grep" && c.name != "read_file"),
                        OtherRounds(raw)[i].calls, at)
  {
    var n := |raw| - 1;
    OtherRoundsLength(raw[..n]);
    if i < n {
      at := OtherCallsStay(raw[..n], i);
    } else {
      at := OtherCallsRemain(raw[n].calls);
    }
  }

  /** Every native read of the window has an entry, and every other call stays in its round. */
  lemma {:induction false} EveryCallHasItsPlace(raw: seq<RawRound>, i: nat, j: nat)
    requires i < |raw| && j < |raw[i].calls|
    ensures |OtherRounds(raw)| == |raw| && OtherRounds(raw)[i].round == raw[i].round
    ensures NativeRead(raw[i].calls[j]) ==> HasEntry(AllEntries(raw), raw[i].calls[j])
    ensures !NativeRead(raw[i].calls[j]) ==> raw[i].calls[j] in OtherRounds(raw)[i].calls
  {
    var n := |raw| - 1;
    OtherRoundsLength(raw[..n]);
    if i < n {
      EveryCallHasItsPlace(raw[..n], i, j);
    } else {
      PlacedInRound(raw[n].round, raw[n].calls, j);
    }
    if NativeRead(raw[i].calls[j]) {
      HasEntryAppend(AllEntries(raw[..n]), RoundEntries(raw[n].round, raw[n].calls), raw[i].calls[j]);
    }
  }

  lemma {:induction false} OtherRoundsLength(raw: seq<RawRound>)
    ensures |OtherRounds(raw)| == |raw|
  {
    if raw != [] {
      OtherRoundsLength(raw[..|raw| - 1]);
    }
  }
}
