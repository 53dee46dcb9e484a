/** Every registered tree of strings, integers and booleans has a canonical printing, and
    parsing that printing gives the tree back. */
module Canonical {
  import opened Text
  import opened Json
  import opened Tokens
  import opened LineProtocol
  import opened Parser

  /** No opaque values; a field that is present has a value. */
  predicate Concrete(b: Block)
    decreases b
  {
    && (forall path | path in b.fields :: ConcreteValues(b.fields[path]))
    && forall i | 0 <= i < |b.children| :: Concrete(b.children[i])
  }

  predicate ConcreteValues(values: seq<Value>) {
    values != [] && forall i | 0 <= i < |values| :: !values[i].JOther?
  }

  predicate PrintableItems(items: seq<Item>) {
    forall i | 0 <= i < |YieldItems(items)| :: Printable(YieldItems(items)[i])
  }

  predicate PlainPath(path: string) {
    IsPath(path) && Upper(path) == path
  }

  lemma AsciiNameIsPlain(name: string)
    requires IsAsciiName(name)
    ensures PlainPath(name)
  {
    AsciiNameIsName(name);
  }

  lemma FieldNames0()
    ensures forall s | s in {"ANSWER", "CATEGORY", "ERROR", "EVIDENCE", "GAP",
      "GOAL", "ID", "INTENT", "NUMBER", "RESULT",
      "ROUND", "STATUS", "TEXT"} :: IsAsciiName(s)
  {
  }

  lemma FieldNames1()
    ensures forall s | s in {"COMPLETED", "FILES_READ", "GOAL_CLARITY", "NEEDS_TOOLS", "REVISION",
      "TASK_TYPE", "VERIFIED"} :: IsAsciiName(s)
  {
  }

  lemma FieldNames2()
    ensures forall s | s in {"ALL_COMPLETED", "EXPECTED_STEPS", "FILES_MODIFIED", "OBSERVATIONS",
      "TOOL_CALL_ID"} :: IsAsciiName(s)
  {
  }

  lemma FieldNames3()
    ensures forall s | s in {"AFFECTED_TARGETS", "EXPECTED_HORIZON", "GOAL_SATISFIED",
      "SOURCE_ROUND_END"} :: IsAsciiName(s)
  {
  }

  lemma FieldNames4()
    ensures forall s | s in {"COMPLETION_CRITERION", "REASONING_SUMMARY", "SOURCE_ROUND_START"} :: IsAsciiName(s)
  {
  }

  lemma FieldNames5()
    ensures forall s | s in {"AFFECTS_CURRENT_DECISION", "COMPLETION_CRITERION_MET"} :: IsAsciiName(s)
  {
  }

  lemma TypeNames0()
    ensures forall s | s in {"ANSWER", "EVIDENCE", "GOAL_JUDGMENT", "NO_TOOL", "OBSERVATION",
      "PLAN", "STEP", "TASK_ANALYSIS"} :: IsAsciiName(s)
  {
  }

  lemma TypeNames1()
    ensures forall s | s in {"CRITERION_VERDICT", "GOAL_COMPLETION", "REACT_DECISION",
      "STEP_COMPLETION"} :: IsAsciiName(s)
  {
  }

  lemma TypeNames2()
    ensures forall s | s in {"COMPLETED_CRITERION", "COMPLETION_PROGRESS", "STEP_COMPLETION_PROGRESS"} :: IsAsciiName(s)
  {
  }

  predicate AsciiRegistry(registry: CodecRegistry) {
    forall typ | typ in registry ::
      IsAsciiName(typ) && forall path | path in registry[typ].fields :: IsAsciiName(path)
  }

  lemma CodecRegistryIsAscii()
    ensures AsciiRegistry(CODEC_REGISTRY)
  {
    FieldNames0();
    FieldNames1();
    FieldNames2();
    FieldNames3();
    FieldNames4();
    FieldNames5();
    TypeNames0();
    TypeNames1();
    TypeNames2();
    forall typ | typ in CODEC_REGISTRY
      ensures IsAsciiName(typ) && forall path | path in CODEC_REGISTRY[typ].fields :: IsAsciiName(path)
    {
    }
  }

  /** Items for one field, in value order */
  lemma {:induction false} ValueItems(before: seq<Item>, path: string, values: seq<Value>) returns (items: seq<Item>)
    requires PrintableItems(before) && PlainPath(path) && path !in FieldsOf(before)
    requires forall i | 0 <= i < |values| :: !values[i].JOther?
    ensures PrintableItems(items) && ChildrenOf(items) == ChildrenOf(before)
    ensures FieldsOf(items) == if values == [] then FieldsOf(before) else FieldsOf(before)[path := values]
    decreases |values|
  {
    items := before;
    if values != [] {
      var front, v := values[..|values| - 1], values[|values| - 1];
      items := ValueItems(before, path, front);
      OneMoreValue(items, path, v);
      assert front + [v] == values;
      items := items + [Field(path, v)];
    }
  }

  lemma OneMoreValue(items: seq<Item>, path: string, v: Value)
    requires PrintableItems(items) && PlainPath(path) && !v.JOther?
    ensures PrintableItems(items + [Field(path, v)]) && ChildrenOf(items + [Field(path, v)]) == ChildrenOf(items)
    ensures FieldsOf(items + [Field(path, v)]) == AddField(FieldsOf(items), path, v)
  {
    ItemAppended(items, Field(path, v));
  }

  lemma SmallerMap(fields: map<string, seq<Value>>, path: string)
    requires path in fields
    ensures |fields - {path}| < |fields| && (fields - {path})[path := fields[path]] == fields
  {
    assert (fields - {path}).Keys == fields.Keys - {path};
    assert |fields.Keys - {path}| < |fields.Keys|;
  }

  lemma {:induction false} FieldItems(fields: map<string, seq<Value>>) returns (items: seq<Item>)
    requires forall path | path in fields :: PlainPath(path) && ConcreteValues(fields[path])
    ensures PrintableItems(items) && FieldsOf(items) == fields && ChildrenOf(items) == []
    decreases |fields|
  {
    if fields == map[] {
      items := [];
    } else {
      var path :| path in fields;
      var others := fields - {path};
      SmallerMap(fields, path);
      items := FieldItems(others);
      items := ValueItems(items, path, fields[path]);
    }
  }

  /** The canonical node: fields first, then the blocks inside */
  lemma {:induction false} CanonicalNode(b: Block, registry: CodecRegistry) returns (n: Node)
    requires Registered(b, registry) && AsciiRegistry(registry) && Concrete(b)
    ensures Meaning(n) == b && PrintableNode(n)
    decreases b
  {
    forall path | path in b.fields
      ensures PlainPath(path)
    {
      AsciiNameIsPlain(path);
    }
    var items := FieldItems(b.fields);
    var i := 0;
    while i < |b.children|
      invariant i <= |b.children| && PrintableItems(items)
      invariant FieldsOf(items) == b.fields && ChildrenOf(items) == b.children[..i]
    {
      assert Registered(b.children[i], registry) && Concrete(b.children[i]);
      var child := CanonicalNode(b.children[i], registry);
      ItemAppended(items, Sub(child));
      items := items + [Sub(child)];
      i := i + 1;
    }
    assert b.children[..i] == b.children;
    n := Node(b.typ, items);
  }

  /** Any registered tree has a document that the parser maps to it. */
  lemma EveryTreePrints(b: Block, other: OtherLiterals) returns (n: Node)
    requires Admissible(b) && Concrete(b)
    ensures PrintableNode(n) && Meaning(n) == b && Parse(Print(n), other) == Some(b)
  {
    CodecRegistryIsAscii();
    n := CanonicalNode(b, CODEC_REGISTRY);
    ParsePrinted(n, other);
  }
}
