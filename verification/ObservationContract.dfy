/** The Observation contract, exactly: which blocks describe an Observation, and which one. */
module ObservationContract {
  import opened Text
  import opened Json
  import opened LineProtocol
  import opened Parser
  import opened Decoders
  import opened Observations
  import Canonical
  import Lists

  function Strings(texts: seq<string>): (values: seq<Value>)
    ensures |values| == |texts| && forall i | 0 <= i < |texts| :: values[i] == JString(texts[i])
  {
    seq(|texts|, i requires 0 <= i < |texts| => JString(texts[i]))
  }

  lemma {:induction false} TextsIff(values: seq<Value>, texts: seq<string>)
    ensures Texts(values) == Some(texts) <==> values == Strings(texts)
  {
    if values != [] {
      var n := |values| - 1;
      var front := texts[..if texts == [] then 0 else |texts| - 1];
      TextsIff(values[..n], front);
      if Texts(values[..n]).Some? {
        TextsIff(values[..n], Texts(values[..n]).value);
      }
      assert texts != [] ==> front + [texts[|texts| - 1]] == texts;
      assert values[..n] + [values[n]] == values;
    }
  }

  // ----- Evidence -----

  function NameOf(c: Category): string {
    match c
    case ConfirmedFacts => "confirmed_facts"
    case ReportedErrors => "reported_errors"
    case ModelInferences => "model_inferences"
  }

  /** A block with one category, one text that is not blank and at least one call */
  predicate DescribesEvidence(child: Block, c: Category, e: Evidence) {
    && child.fields == map["CATEGORY" := [JString(NameOf(c))], "TEXT" := [JString(e.text)],
                           "TOOL_CALL_ID" := Strings(e.ids)]
    && !Blank(e.text) && e.ids != []
  }

  lemma CategoryIff(b: Block, c: Category)
    ensures CategoryOf(b) == Some(c) <==> Single(b, "CATEGORY") == Some(JString(NameOf(c)))
  {
    assert "confirmed_facts"[0] == 'c' && "reported_errors"[0] == 'r' && "model_inferences"[0] == 'm';
  }

  /** Three fields and no other */
  lemma ThreeFieldsIff(b: Block, x: string, y: string, z: string, v: Value, w: Value, values: seq<Value>)
    requires x != y && x != z && y != z && values != []
    ensures b.fields == map[x := [v], y := [w], z := values] <==>
      b.fields.Keys <= {x, y, z} && Single(b, x) == Some(v) && Single(b, y) == Some(w) && Values(b, z) == values
  {
    if b.fields.Keys <= {x, y, z} && Single(b, x) == Some(v) && Single(b, y) == Some(w) && Values(b, z) == values {
      assert b.fields.Keys == {x, y, z};
      assert b.fields[x] == [v] && b.fields[y] == [w];
    }
  }

  lemma EvidenceIff(b: Block, c: Category, e: Evidence)
    ensures EvidenceOf(b) == Some((c, e)) <==> DescribesEvidence(b, c, e)
  {
    CategoryIff(b, c);
    TextsIff(Values(b, "TOOL_CALL_ID"), e.ids);
    if e.ids != [] {
      assert "CATEGORY" != "TEXT" && "CATEGORY" != "TOOL_CALL_ID" && "TEXT" != "TOOL_CALL_ID";
      ThreeFieldsIff(b, "CATEGORY", "TEXT", "TOOL_CALL_ID", JString(NameOf(c)), JString(e.text), Strings(e.ids));
    }
  }

  /** Every child describes the entry at its place. */
  predicate Described(children: seq<Block>, entries: seq<(Category, Evidence)>) {
    && |entries| == |children|
    && forall k | 0 <= k < |children| :: DescribesEvidence(children[k], entries[k].0, entries[k].1)
  }

  lemma DescribedAppend(children: seq<Block>, child: Block, entries: seq<(Category, Evidence)>,
                        entry: (Category, Evidence))
    ensures Described(children + [child], entries + [entry])
      <==> Described(children, entries) && DescribesEvidence(child, entry.0, entry.1)
  {
    var all, some := children + [child], entries + [entry];
    if Described(all, some) {
      assert forall k | 0 <= k < |children| :: all[k] == children[k] && some[k] == entries[k];
      assert all[|children|] == child && some[|entries|] == entry;
    }
  }

  lemma AllEvidenceAppend(children: seq<Block>, child: Block)
    ensures AllEvidence(children + [child]) ==
      match (AllEvidence(children), EvidenceOf(child))
      case (Some(before), Some(e)) => Some(before + [e])
      case _ => None
  {
    assert (children + [child])[..|children|] == children;
  }

  lemma {:induction false} AllEvidenceIff(children: seq<Block>, entries: seq<(Category, Evidence)>)
    ensures AllEvidence(children) == Some(entries) <==> Described(children, entries)
  {
    if children != [] && entries != [] {
      var n, m := |children| - 1, |entries| - 1;
      var front, entry := entries[..m], entries[m];
      assert children == children[..n] + [children[n]] && entries == front + [entry];
      AllEvidenceIff(children[..n], front);
      EvidenceIff(children[n], entry.0, entry.1);
      DescribedAppend(children[..n], children[n], front, entry);
      AllEvidenceAppend(children[..n], children[n]);
    }
  }

  /** `list` is the evidence of the children of this category, in order and each once; `at` are their places. */
  ghost predicate Filed(children: seq<Block>, c: Category, list: seq<Evidence>, at: seq<nat>) {
    && |at| == |list|
    && (forall k | 0 <= k < |at| :: at[k] < |children| && DescribesEvidence(children[at[k]], c, list[k]))
    && Lists.Increasing(at)
    && forall j: nat, e | j < |children| && DescribesEvidence(children[j], c, e) :: j in at
  }

  lemma {:induction false} InCategoryAppend(entries: seq<(Category, Evidence)>, entry: (Category, Evidence),
                                            c: Category)
    ensures InCategory(entries + [entry], c) == InCategory(entries, c) + if entry.0 == c then [entry.1] else []
  {
    if entries == [] {
      assert (entries + [entry])[1..] == [];
    } else {
      var first, rest := entries[0], entries[1..];
      InCategoryAppend(rest, entry, c);
      assert entries + [entry] == [first] + (rest + [entry]);
      assert (entries + [entry])[1..] == rest + [entry];
      var own, last := if first.0 == c then [first.1] else [], if entry.0 == c then [entry.1] else [];
      assert own + (InCategory(rest, c) + last) == own + InCategory(rest, c) + last;
    }
  }

  lemma OneCategory(b: Block, c: Category, e: Evidence, d: Category, f: Evidence)
    requires DescribesEvidence(b, c, e) && DescribesEvidence(b, d, f)
    ensures c == d
  {
    EvidenceIff(b, c, e);
    EvidenceIff(b, d, f);
  }

  lemma FiledAppend(children: seq<Block>, child: Block, c: Category, list: seq<Evidence>, at: seq<nat>,
                    entry: (Category, Evidence)) returns (more: seq<nat>)
    requires Filed(children, c, list, at) && DescribesEvidence(child, entry.0, entry.1)
    ensures Filed(children + [child], c, list + if entry.0 == c then [entry.1] else [], more)
  {
    var all := children + [child];
    more := at + if entry.0 == c then [|children|] else [];
    forall j: nat, e | j < |all| && DescribesEvidence(all[j], c, e)
      ensures j in more
    {
      if j == |children| {
        OneCategory(child, c, e, entry.0, entry.1);
        assert more[|at|] == j;
      } else {
        assert all[j] == children[j] && j in at;
      }
    }
  }

  lemma {:induction false} CategoryIsFiled(children: seq<Block>, entries: seq<(Category, Evidence)>, c: Category)
    returns (at: seq<nat>)
    requires Described(children, entries)
    ensures Filed(children, c, InCategory(entries, c), at)
  {
    at := [];
    if children != [] {
      var n := |children| - 1;
      var child, entry, front, before := children[n], entries[n], children[..n], entries[..n];
      assert children == front + [child] && entries == before + [entry];
      DescribedAppend(front, child, before, entry);
      at := CategoryIsFiled(front, before, c);
      at := FiledAppend(front, child, c, InCategory(before, c), at, entry);
      InCategoryAppend(before, entry, c);
    }
  }

  /** Filing leaves no choice. */
  lemma FiledOnce(children: seq<Block>, c: Category, a: seq<Evidence>, p: seq<nat>, b: seq<Evidence>, q: seq<nat>)
    requires Filed(children, c, a, p) && Filed(children, c, b, q)
    ensures a == b
  {
    forall j: nat
      ensures j in p <==> j in q
    {
      if j in p {
        var k :| 0 <= k < |p| && p[k] == j;
        assert DescribesEvidence(children[j], c, a[k]);
      }
      if j in q {
        var k :| 0 <= k < |q| && q[k] == j;
        assert DescribesEvidence(children[j], c, b[k]);
      }
    }
    Lists.IncreasingUnique(p, q);
    forall k | 0 <= k < |a|
      ensures a[k] == b[k]
    {
      EvidenceIff(children[p[k]], c, a[k]);
      EvidenceIff(children[p[k]], c, b[k]);
    }
  }

  // ----- Observations -----

  /** Neither end of the source range is given, or both are, in order. */
  ghost predicate DescribesRange(b: Block, start: Option<int>, end: Option<int>) {
    if start.None? then end.None? && "SOURCE_ROUND_START" !in b.fields && "SOURCE_ROUND_END" !in b.fields
    else
      && end.Some? && start.value <= end.value
      && Single(b, "SOURCE_ROUND_START") == Some(JInt(start.value))
      && Single(b, "SOURCE_ROUND_END") == Some(JInt(end.value))
  }

  /** The targets of an Observation that matters, and none of one that does not */
  ghost predicate DescribesTargets(b: Block, affects: bool, names: seq<string>) {
    && Single(b, "AFFECTS_CURRENT_DECISION") == Some(JBool(affects))
    && Values(b, "AFFECTED_TARGETS") == Strings(names)
    && (forall i | 0 <= i < |names| :: names[i] in {"confirmed_facts", "summary", "durable_state"})
    && (affects <==> names != [])
  }

  ghost predicate DescribesCategory(children: seq<Block>, c: Category, list: seq<Evidence>) {
    exists at :: Filed(children, c, list, at)
  }

  ghost predicate IsEvidence(child: Block) {
    exists c, e :: DescribesEvidence(child, c, e)
  }

  /** The block says all that the Observation holds: its round, source range, impact and targets, and the evidence of
      its children by category. */
  ghost predicate Describes(b: Block, names: seq<string>, o: Observation) {
    && b.typ == "OBSERVATION" && Single(b, "ROUND") == Some(JInt(o.round))
    && DescribesRange(b, o.start, o.end)
    && DescribesTargets(b, o.affects, names) && o.targets == Lists.AppendUnique([], names)
    && (forall i | 0 <= i < |b.children| :: IsEvidence(b.children[i]))
    && DescribesCategory(b.children, ConfirmedFacts, o.confirmed)
    && DescribesCategory(b.children, ReportedErrors, o.errors)
    && DescribesCategory(b.children, ModelInferences, o.inferences)
  }

  lemma CategoryIsListed(children: seq<Block>, entries: seq<(Category, Evidence)>, c: Category, list: seq<Evidence>)
    requires Described(children, entries)
    ensures DescribesCategory(children, c, list) <==> list == InCategory(entries, c)
  {
    var at := CategoryIsFiled(children, entries, c);
    if DescribesCategory(children, c, list) {
      var p :| Filed(children, c, list, p);
      FiledOnce(children, c, list, p, InCategory(entries, c), at);
    }
  }

  lemma EvidenceSome(b: Block)
    ensures EvidenceOf(b).Some? <==> IsEvidence(b)
  {
    if IsEvidence(b) {
      var c, e :| DescribesEvidence(b, c, e);
      EvidenceIff(b, c, e);
    }
    if EvidenceOf(b).Some? {
      EvidenceIff(b, EvidenceOf(b).value.0, EvidenceOf(b).value.1);
    }
  }

  predicate AllRead(children: seq<Block>) {
    AllEvidence(children).Some?
  }

  lemma {:induction false} AllAreEvidence(children: seq<Block>)
    ensures AllRead(children) <==> forall i | 0 <= i < |children| :: IsEvidence(children[i])
  {
    if children != [] {
      var n := |children| - 1;
      var front := children[..n];
      assert children == front + [children[n]];
      AllAreEvidence(front);
      EvidenceSome(children[n]);
      AllEvidenceAppend(front, children[n]);
      assert forall i | 0 <= i < n :: front[i] == children[i];
    }
  }

  /** The source range that the fields of a block give, if they give one */
  lemma RangeIff(b: Block, start: Option<int>, end: Option<int>)
    ensures DescribesRange(b, start, end) <==>
      var s, e := OptionalInt(b, "SOURCE_ROUND_START"), OptionalInt(b, "SOURCE_ROUND_END");
      && !s.Malformed? && !e.Malformed? && s.Present? == e.Present? && (s.Present? ==> s.value <= e.value)
      && start == (if s.Present? then Some(s.value) else None) && end == if e.Present? then Some(e.value) else None
  {
  }

  lemma TargetsIff(b: Block, affects: bool, names: seq<string>)
    ensures DescribesTargets(b, affects, names) <==>
      && SingleBool(b, "AFFECTS_CURRENT_DECISION") == Some(affects)
      && Texts(Values(b, "AFFECTED_TARGETS")) == Some(names)
      && !(exists t | t in names :: t !in TARGETS) && affects == (names != [])
  {
    TextsIff(Values(b, "AFFECTED_TARGETS"), names);
    assert TARGETS == {"confirmed_facts", "summary", "durable_state"};
    assert (forall i | 0 <= i < |names| :: names[i] in TARGETS) <==> !(exists t | t in names :: t !in TARGETS);
  }

  /** What `ObservationOf` tests and takes, piece by piece */
  lemma ObservationParts(b: Block, names: seq<string>, entries: seq<(Category, Evidence)>, o: Observation)
    requires AllEvidence(b.children) == Some(entries)
    ensures ObservationOf(b, o.round) == Some(o) && Texts(Values(b, "AFFECTED_TARGETS")) == Some(names) <==>
      && b.typ == "OBSERVATION" && Single(b, "ROUND") == Some(JInt(o.round))
      && DescribesRange(b, o.start, o.end)
      && DescribesTargets(b, o.affects, names) && o.targets == Lists.AppendUnique([], names)
      && o.confirmed == InCategory(entries, ConfirmedFacts) && o.errors == InCategory(entries, ReportedErrors)
      && o.inferences == InCategory(entries, ModelInferences)
  {
    RangeIff(b, o.start, o.end);
    TargetsIff(b, o.affects, names);
  }

  lemma DescribesIff(b: Block, names: seq<string>, o: Observation)
    ensures Describes(b, names, o) <==>
      ObservationOf(b, o.round) == Some(o) && Texts(Values(b, "AFFECTED_TARGETS")) == Some(names)
  {
    AllAreEvidence(b.children);
    if AllRead(b.children) {
      var entries := AllEvidence(b.children).value;
      AllEvidenceIff(b.children, entries);
      CategoryIsListed(b.children, entries, ConfirmedFacts, o.confirmed);
      CategoryIsListed(b.children, entries, ReportedErrors, o.errors);
      CategoryIsListed(b.children, entries, ModelInferences, o.inferences);
      ObservationParts(b, names, entries, o);
    }
  }

  /** The evidence is drawn from no other call, an Observation that matters from this one, and a source range is that
      of its own round. */
  ghost predicate IsOfCall(o: Observation, id: string) {
    && (forall x | Names(o, x) :: x == id)
    && (o.affects ==> Names(o, id))
    && (o.start.Some? ==> o.start.value == o.round && o.end == Some(o.round))
  }

  lemma AttributedIff(o: Observation, id: string)
    ensures AttributedTo(o, id) <==> IsOfCall(o, id)
  {
    forall x
      ensures x in SourceIds(o) <==> Names(o, x)
    {
      SourcesAreNamed(o, x);
    }
    assert (SourceIds(o) == {} || SourceIds(o) == {id}) <==> forall x | x in SourceIds(o) :: x == id;
  }

  /** A response is read as an Observation exactly when it parses to a block that describes it, of the expected round,
      and when it was asked of one call, is of that call. */
  lemma ObservationIsRead(response: string, round: int, id: Option<string>, other: OtherLiterals, o: Observation)
    ensures ParseObservation(response, round, id, other) == Some(o) <==>
      && o.round == round && (id.Some? ==> IsOfCall(o, id.value))
      && exists b, names :: Parse(response, other) == Some(b) && Describes(b, names, o)
  {
    if id.Some? {
      AttributedIff(o, id.value);
    }
    if Parse(response, other).Some? {
      var b := Parse(response, other).value;
      forall names
        ensures Describes(b, names, o) <==>
          ObservationOf(b, o.round) == Some(o) && Texts(Values(b, "AFFECTED_TARGETS")) == Some(names)
      {
        DescribesIff(b, names, o);
      }
      if ObservationOf(b, round) == Some(o) {
        assert Describes(b, Texts(Values(b, "AFFECTED_TARGETS")).value, o);
      }
    }
  }

  // ----- Every Observation has a document -----

  /** Nothing but what the contract declares */
  predicate OnlyDeclared(b: Block) {
    && b.fields.Keys <= {"ROUND", "SOURCE_ROUND_START", "SOURCE_ROUND_END", "AFFECTS_CURRENT_DECISION",
                         "AFFECTED_TARGETS"}
    && ("AFFECTED_TARGETS" in b.fields ==> b.fields["AFFECTED_TARGETS"] != [])
    && forall i | 0 <= i < |b.children| :: b.children[i].typ == "EVIDENCE" && b.children[i].children == []
  }

  lemma EvidenceIsRegistered(child: Block, c: Category, e: Evidence)
    requires child.typ == "EVIDENCE" && child.children == [] && DescribesEvidence(child, c, e)
    ensures Registered(child, CODEC_REGISTRY) && Canonical.Concrete(child)
  {
    assert CODEC_REGISTRY["EVIDENCE"] == Declaration({"CATEGORY", "TEXT", "TOOL_CALL_ID"}, {"TOOL_CALL_ID"}, {});
  }

  lemma ChildrenAreRegistered(children: seq<Block>, i: nat)
    requires i < |children| && IsEvidence(children[i])
    requires children[i].typ == "EVIDENCE" && children[i].children == []
    ensures Registered(children[i], CODEC_REGISTRY) && Canonical.Concrete(children[i])
  {
    var c, e :| DescribesEvidence(children[i], c, e);
    EvidenceIsRegistered(children[i], c, e);
  }

  /** The field, if it is there, has one value, and not an opaque one. */
  predicate PlainField(b: Block, path: string) {
    path in b.fields ==> Single(b, path).Some? && !Single(b, path).value.JOther?
  }

  lemma DescribedFieldsArePlain(b: Block, names: seq<string>, o: Observation)
    requires Describes(b, names, o)
    ensures PlainField(b, "ROUND") && PlainField(b, "AFFECTS_CURRENT_DECISION")
    ensures PlainField(b, "SOURCE_ROUND_START") && PlainField(b, "SOURCE_ROUND_END")
    ensures Values(b, "AFFECTED_TARGETS") == Strings(names)
  {
  }

  lemma PlainIsConcrete(b: Block, path: string)
    requires PlainField(b, path) && path in b.fields
    ensures |b.fields[path]| == 1 && Canonical.ConcreteValues(b.fields[path])
  {
  }

  lemma OneOfFour(b: Block, path: string, w: string, x: string, y: string, z: string)
    requires path in {w, x, y, z} && PlainField(b, w) && PlainField(b, x) && PlainField(b, y) && PlainField(b, z)
    ensures PlainField(b, path)
  {
  }

  lemma StringsAreConcrete(values: seq<Value>, names: seq<string>)
    requires values == Strings(names) && values != []
    ensures Canonical.ConcreteValues(values)
  {
  }

  lemma FieldIsConcrete(b: Block, names: seq<string>, o: Observation, path: string)
    requires Describes(b, names, o) && OnlyDeclared(b) && path in b.fields
    ensures Canonical.ConcreteValues(b.fields[path])
    ensures |b.fields[path]| > 1 ==> path == "AFFECTED_TARGETS"
  {
    DescribedFieldsArePlain(b, names, o);
    if path == "AFFECTED_TARGETS" {
      StringsAreConcrete(b.fields[path], names);
    } else {
      OneOfFour(b, path, "ROUND", "AFFECTS_CURRENT_DECISION", "SOURCE_ROUND_START", "SOURCE_ROUND_END");
      PlainIsConcrete(b, path);
    }
  }

  lemma ObservationIsRegistered(b: Block, names: seq<string>, o: Observation, typ: string, targets: string,
                                child: string)
    requires typ == "OBSERVATION" && targets == "AFFECTED_TARGETS" && child == "EVIDENCE"
    requires Describes(b, names, o) && OnlyDeclared(b)
    ensures Admissible(b) && Canonical.Concrete(b)
  {
    var fields := {"ROUND", "SOURCE_ROUND_START", "SOURCE_ROUND_END", "AFFECTS_CURRENT_DECISION", "AFFECTED_TARGETS"};
    assert CODEC_REGISTRY[typ] == Declaration(fields, {targets}, {child});
    forall i | 0 <= i < |b.children|
      ensures Registered(b.children[i], CODEC_REGISTRY) && Canonical.Concrete(b.children[i])
      ensures b.children[i].typ == child
    {
      ChildrenAreRegistered(b.children, i);
    }
    forall path | path in b.fields
      ensures Canonical.ConcreteValues(b.fields[path]) && (|b.fields[path]| > 1 ==> path == targets)
    {
      FieldIsConcrete(b, names, o, path);
    }
    assert typ != "STEP" by {
      assert |typ| == 11 && |"STEP"| == 4;
    }
  }

  /** Whatever a declared block describes, some document is read as just that. */
  lemma DescribedIsRead(b: Block, names: seq<string>, o: Observation, other: OtherLiterals) returns (n: Node)
    requires Describes(b, names, o) && OnlyDeclared(b)
    ensures PrintableNode(n) && ParseObservation(Print(n), o.round, None, other) == Some(o)
  {
    ObservationIsRegistered(b, names, o, "OBSERVATION", "AFFECTED_TARGETS", "EVIDENCE");
    n := Canonical.EveryTreePrints(b, other);
    ObservationIsRead(Print(n), o.round, None, other, o);
  }
}
