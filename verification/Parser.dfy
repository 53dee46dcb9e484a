/** The line-protocol parser: registry of block types, the parser's specification, and the
    loop over shared, mutable blocks that implements it. */
module Parser {
  import opened Text
  import opened Json
  import opened Tokens
  import opened LineProtocol

  // ----- Registry -----

  datatype Declaration = Declaration(fields: set<string>, arrays: set<string>, children: set<string>)

  type CodecRegistry = map<string, Declaration>

  const CODEC_REGISTRY: CodecRegistry := map[
    "PLAN" := Declaration({"REVISION", "GOAL"}, {}, {"STEP"}),
    "STEP" := Declaration({"ID", "INTENT", "COMPLETION_CRITERION"}, {}, {}),
    "NO_TOOL" := Declaration({}, {}, {}),
    "ANSWER" := Declaration({"TEXT"}, {}, {}),
    "REACT_DECISION" := Declaration({"STATUS", "ANSWER", "ERROR"}, {}, {}),
    "GOAL_JUDGMENT" := Declaration({"COMPLETED", "EVIDENCE", "GAP"}, {}, {}),
    "COMPLETION_PROGRESS" :=
      Declaration({"ALL_COMPLETED", "ANSWER"}, {}, {"CRITERION_VERDICT", "COMPLETED_CRITERION"}),
    "CRITERION_VERDICT" := Declaration({"NUMBER", "VERIFIED", "EVIDENCE", "GAP"}, {}, {}),
    "GOAL_COMPLETION" := Declaration({"ANSWER", "GOAL_SATISFIED"}, {}, {}),
    "STEP_COMPLETION_PROGRESS" := Declaration({"ALL_COMPLETED"}, {}, {"COMPLETED_CRITERION"}),
    "COMPLETED_CRITERION" := Declaration({"NUMBER", "EVIDENCE"}, {}, {}),
    "STEP_COMPLETION" :=
      Declaration({"COMPLETED", "COMPLETION_CRITERION_MET", "RESULT",
                   "FILES_READ", "FILES_MODIFIED", "OBSERVATIONS"},
                  {"FILES_READ", "FILES_MODIFIED", "OBSERVATIONS"}, {}),
    "TASK_ANALYSIS" :=
      Declaration({"TASK_TYPE", "GOAL_CLARITY", "NEEDS_TOOLS", "EXPECTED_STEPS", "EXPECTED_HORIZON",
                   "REASONING_SUMMARY", "COMPLETION_CRITERION"}, {"COMPLETION_CRITERION"}, {}),
    "OBSERVATION" :=
      Declaration({"ROUND", "SOURCE_ROUND_START", "SOURCE_ROUND_END",
                   "AFFECTS_CURRENT_DECISION", "AFFECTED_TARGETS"}, {"AFFECTED_TARGETS"}, {"EVIDENCE"}),
    "EVIDENCE" := Declaration({"CATEGORY", "TEXT", "TOOL_CALL_ID"}, {"TOOL_CALL_ID"}, {})
  ]

  /** A block and everything under it is declared in the registry. */
  predicate Registered(b: Block, registry: CodecRegistry)
    decreases b
  {
    && b.typ in registry
    && var d := registry[b.typ];
    && b.fields.Keys <= d.fields
    && (forall path | path in b.fields :: |b.fields[path]| > 1 ==> path in d.arrays)
    && (forall i | 0 <= i < |b.children| :: b.children[i].typ in d.children)
    && (forall i | 0 <= i < |b.children| :: Registered(b.children[i], registry))
  }

  predicate Admissible(root: Block) {
    root.typ != "STEP" && Registered(root, CODEC_REGISTRY)
  }

  /** No child block of a registered type has children of its own. */
  predicate TwoLevels(registry: CodecRegistry) {
    forall typ, child | typ in registry && child in registry[typ].children && child in registry ::
      registry[child].children == {}
  }

  lemma CodecRegistryHasTwoLevels()
    ensures TwoLevels(CODEC_REGISTRY)
  {
    forall typ, child | typ in CODEC_REGISTRY && child in CODEC_REGISTRY[typ].children && child in CODEC_REGISTRY
      ensures CODEC_REGISTRY[child].children == {}
    {
      assert child in {"STEP", "CRITERION_VERDICT", "COMPLETED_CRITERION", "EVIDENCE"};
    }
  }

  lemma FirstChildDeclared(b: Block, registry: CodecRegistry)
    requires Registered(b, registry) && b.children != []
    ensures b.children[0].typ in registry[b.typ].children
  {
  }

  lemma LeafHasNoChildren(b: Block, registry: CodecRegistry)
    requires Registered(b, registry) && registry[b.typ].children == {}
    ensures b.children == []
  {
    if b.children != [] {
      FirstChildDeclared(b, registry);
    }
  }

  lemma RegisteredNesting(b: Block, registry: CodecRegistry)
    requires Registered(b, registry) && TwoLevels(registry)
    ensures forall i | 0 <= i < |b.children| :: b.children[i].children == []
  {
    forall i | 0 <= i < |b.children|
      ensures b.children[i].children == []
    {
      LeafHasNoChildren(b.children[i], registry);
    }
  }

  /** Accepted documents satisfy the registry at each level and nest at most two blocks deep. */
  lemma AcceptedNesting(document: string, other: OtherLiterals)
    requires Parse(document, other).Some?
    ensures var b := Parse(document, other).value;
      Registered(b, CODEC_REGISTRY) && forall i | 0 <= i < |b.children| :: b.children[i].children == []
  {
    CodecRegistryHasTwoLevels();
    RegisteredNesting(Parse(document, other).value, CODEC_REGISTRY);
  }

  // ----- Specification -----

  function Parse(document: string, other: OtherLiterals): Option<Block> {
    match BlockOf(TokenizeAll(Lines(document), other))
    case Some(b) => if Admissible(b) then Some(b) else None
    case None => None
  }

  /** The parser accepts exactly the documents that some concrete syntax tree with a
      registered meaning derives, and returns that meaning. */
  lemma ParseIsGrammar(document: string, other: OtherLiterals, b: Block)
    ensures Parse(document, other) == Some(b) <==>
      Admissible(b) && exists n :: Yield(n) == TokenizeAll(Lines(document), other) && Meaning(n) == b
  {
    MachineIsGrammar(TokenizeAll(Lines(document), other), b);
  }

  /** Letter case of boundary and field names, and the boundary separator, do not matter. */
  lemma ParseIgnoresSpelling(a: string, b: string, other: OtherLiterals)
    requires |Lines(a)| == |Lines(b)|
    requires forall i | 0 <= i < |Lines(a)| :: SameSpelling(Lines(a)[i], Lines(b)[i])
    ensures Parse(a, other) == Parse(b, other)
  {
    RespeltTokens(Lines(a), Lines(b), other);
  }

  // ----- Canonical printing -----

  predicate PrintableNode(n: Node) {
    forall i | 0 <= i < |Yield(n)| :: Printable(Yield(n)[i])
  }

  /** One canonical line per boundary and per field */
  function Print(n: Node): string
    requires PrintableNode(n)
  {
    Join(PrintAll(Yield(n)))
  }

  /** Parsing the canonical printing of a registered tree gives the tree back. */
  lemma ParsePrinted(n: Node, other: OtherLiterals)
    requires PrintableNode(n) && Admissible(Meaning(n))
    ensures Parse(Print(n), other) == Some(Meaning(n))
  {
    PrintedTokens(Yield(n), other);
    MachineIsGrammar(Yield(n), Meaning(n));
  }

  // ----- Blocks as the parser builds them -----

  class ParsedBlock {
    var typ: string
    var fields: map<string, seq<Value>>
    var children: seq<ParsedBlock>

    constructor (typ: string)
      ensures this.typ == typ && fields == map[] && children == []
    {
      this.typ, fields, children := typ, map[], [];
    }
  }

  /** `view` gives the value of every finished block. */
  ghost predicate Views(view: map<ParsedBlock, Block>)
    reads view.Keys
  {
    forall n | n in view ::
      && n.typ == view[n].typ && n.fields == view[n].fields
      && |n.children| == |view[n].children|
      && forall i | 0 <= i < |n.children| :: n.children[i] in view && view[n.children[i]] == view[n].children[i]
  }

  /** A block still being read; `inner` is the open block inside it, its last child. */
  ghost predicate IsOpen(n: ParsedBlock, b: Block, inner: Option<ParsedBlock>, view: map<ParsedBlock, Block>)
    reads n
  {
    && n.typ == b.typ && n.fields == b.fields
    && |n.children| == |b.children| + (if inner.Some? then 1 else 0)
    && (inner.Some? ==> n.children[|b.children|] == inner.value)
    && forall j | 0 <= j < |b.children| :: n.children[j] in view && view[n.children[j]] == b.children[j]
  }

  ghost predicate OpenAt(stack: seq<ParsedBlock>, c: Config, view: map<ParsedBlock, Block>, i: nat)
    requires i < |stack| == |c.stack|
    reads stack
  {
    IsOpen(stack[i], c.stack[i], if i + 1 < |stack| then Some(stack[i + 1]) else None, view)
  }

  ghost predicate Stacked(stack: seq<ParsedBlock>, c: Config, view: map<ParsedBlock, Block>)
    reads stack
  {
    && |stack| == |c.stack|
    && (forall i, j | 0 <= i < j < |stack| :: stack[i] != stack[j])
    && (forall i | 0 <= i < |stack| :: stack[i] !in view)
    && (forall i: nat | i < |stack| :: OpenAt(stack, c, view, i))
  }

  ghost predicate RootOf(root: ParsedBlock?, stack: seq<ParsedBlock>, c: Config, view: map<ParsedBlock, Block>) {
    if stack != [] then root == stack[0] && c.root == None
    else if c.root == None then root == null
    else root != null && root in view && c.root == Some(view[root])
  }

  lemma RunPrefix(tokens: seq<Token>, i: nat)
    requires i < |tokens|
    ensures Run(START, tokens[..i + 1]) ==
      match Run(START, tokens[..i]) case Some(d) => Step(d, tokens[i]) case None => None
  {
    assert tokens[..i + 1][..i] == tokens[..i];
  }

  lemma {:induction false} RunStaysRejected(tokens: seq<Token>, i: nat)
    requires i <= |tokens| && Run(START, tokens[..i]) == None
    ensures Run(START, tokens) == None
    decreases |tokens| - i
  {
    if i == |tokens| {
      assert tokens[..i] == tokens;
    } else {
      RunPrefix(tokens, i);
      RunStaysRejected(tokens, i + 1);
    }
  }

  /** Hang a new block under the innermost open one. */
  method AppendChild(stack: seq<ParsedBlock>, block: ParsedBlock, ghost c: Config, ghost view: map<ParsedBlock, Block>)
    requires stack != [] && Views(view) && Stacked(stack, c, view)
    requires block !in stack && block !in view && block.fields == map[] && block.children == []
    modifies stack[|stack| - 1]
    ensures Views(view) && Stacked(stack + [block], c.(stack := c.stack + [Block(block.typ, map[], [])]), view)
  {
    var n := |stack| - 1;
    assert OpenAt(stack, c, view, n);
    var top := stack[n];
    top.children := top.children + [block];
    ghost var d := c.(stack := c.stack + [Block(block.typ, map[], [])]);
    forall i: nat | i < |stack| + 1
      ensures OpenAt(stack + [block], d, view, i)
    {
      if i < n {
        assert old(OpenAt(stack, c, view, i));
      }
    }
  }

  method AppendField(stack: seq<ParsedBlock>, path: string, value: Value, ghost c: Config,
                     ghost view: map<ParsedBlock, Block>)
    requires stack != [] && Views(view) && Stacked(stack, c, view)
    modifies stack[|stack| - 1]
    ensures Views(view) && Stacked(stack, Step(c, Entry(path, value)).value, view)
  {
    var n := |stack| - 1;
    assert OpenAt(stack, c, view, n);
    var top := stack[n];
    top.fields := AddField(top.fields, path, value);
    ghost var d := Step(c, Entry(path, value)).value;
    forall i: nat | i < |stack|
      ensures OpenAt(stack, d, view, i)
    {
      if i < n {
        assert old(OpenAt(stack, c, view, i));
      }
    }
  }

  /** Finish the innermost open block. */
  method PopBlock(stack: seq<ParsedBlock>, ghost c: Config, ghost view: map<ParsedBlock, Block>)
    returns (below: seq<ParsedBlock>, ghost view': map<ParsedBlock, Block>)
    requires stack != [] && Views(view) && Stacked(stack, c, view)
    ensures below == stack[..|stack| - 1]
    ensures view' == view[stack[|stack| - 1] := c.stack[|stack| - 1]]
    ensures Views(view')
    ensures Stacked(below, Step(c, Close(stack[|stack| - 1].typ)).value, view')
  {
    var n := |stack| - 1;
    below := stack[..n];
    view' := view[stack[n] := c.stack[n]];
    assert OpenAt(stack, c, view, n);
    ghost var d := Step(c, Close(stack[n].typ)).value;
    forall i: nat | i < n
      ensures OpenAt(below, d, view', i)
    {
      assert OpenAt(stack, c, view, i);
    }
  }

  /** The parser's variables `stack` and `root` hold what the machine `c` holds. */
  ghost predicate Reading(stack: seq<ParsedBlock>, root: ParsedBlock?, c: Config, view: map<ParsedBlock, Block>)
    reads stack, view.Keys
  {
    Views(view) && Stacked(stack, c, view) && RootOf(root, stack, c, view)
  }

  /** Read one line; `ok` is false on a protocol error. */
  method ReadLine(token: Token, stack: seq<ParsedBlock>, root: ParsedBlock?, ghost c: Config,
                  ghost view: map<ParsedBlock, Block>)
    returns (ok: bool, stack': seq<ParsedBlock>, root': ParsedBlock?, ghost view': map<ParsedBlock, Block>)
    requires Reading(stack, root, c, view)
    modifies stack
    ensures ok == Step(c, token).Some?
    ensures ok ==> Reading(stack', root', Step(c, token).value, view')
    ensures forall n | n in stack' || n in view' :: n in stack || n in view || fresh(n)
  {
    ok, stack', root', view' := false, stack, root, view;
    match token {
      case Open(typ) =>
        if stack == [] && root != null {
          return;
        }
        var block := new ParsedBlock(typ);
        if stack == [] {
          root' := block;
          assert OpenAt([block], Config([Block(typ, map[], [])], None), view, 0);
        } else {
          AppendChild(stack, block, c, view);
        }
        stack' := stack + [block];
      case Close(typ) =>
        if stack == [] || stack[|stack| - 1].typ != typ {
          assert stack != [] ==> OpenAt(stack, c, view, |stack| - 1);
          return;
        }
        assert OpenAt(stack, c, view, |stack| - 1);
        stack', view' := PopBlock(stack, c, view);
      case Entry(path, value) =>
        if stack == [] {
          return;
        }
        AppendField(stack, path, value, c, view);
      case Bad =>
        return;
    }
    ok := true;
  }

  /** Read all lines; `ok` is false on a protocol error. */
  method ReadLines(lines: seq<string>, ghost tokens: seq<Token>, other: OtherLiterals)
    returns (ok: bool, stack: seq<ParsedBlock>, root: ParsedBlock?, ghost c: Config,
             ghost view: map<ParsedBlock, Block>)
    requires tokens == TokenizeAll(lines, other)
    ensures ok == Run(START, tokens).Some?
    ensures ok ==> Run(START, tokens) == Some(c) && Reading(stack, root, c, view)
    ensures ok ==> forall n | n in stack || n in view :: fresh(n)
  {
    ok, stack, root, c, view := true, [], null, START, map[];
    var i := 0;
    while i < |lines|
      invariant 0 <= i <= |lines|
      invariant ok && Run(START, tokens[..i]) == Some(c)
      invariant Reading(stack, root, c, view)
      invariant forall n | n in stack || n in view :: fresh(n)
    {
      RunPrefix(tokens, i);
      ok, stack, root, view := ReadLine(Tokenize(lines[i], other), stack, root, c, view);
      if !ok {
        RunStaysRejected(tokens, i + 1);
        return;
      }
      c := Step(c, tokens[i]).value;
      i := i + 1;
    }
    assert tokens[..i] == tokens;
  }

  /** The one block that the lines form; a null result is the protocol error. */
  method ReadBlock(lines: seq<string>, ghost tokens: seq<Token>, other: OtherLiterals)
    returns (root: ParsedBlock?, ghost view: map<ParsedBlock, Block>)
    requires tokens == TokenizeAll(lines, other)
    ensures Views(view) && fresh(view.Keys)
    ensures root == null <==> BlockOf(tokens) == None
    ensures root != null ==> root in view && BlockOf(tokens) == Some(view[root])
  {
    var ok, stack;
    ghost var c;
    ok, stack, root, c, view := ReadLines(lines, tokens, other);
    if !ok || root == null || stack != [] {
      return null, map[];
    }
  }

  /** Parse one document.  A null result is the protocol error. */
  method ParseLineProtocol(document: string, other: OtherLiterals)
    returns (root: ParsedBlock?, ghost view: map<ParsedBlock, Block>)
    ensures Views(view) && fresh(view.Keys)
    ensures root == null <==> Parse(document, other) == None
    ensures root != null ==> root in view && Parse(document, other) == Some(view[root])
  {
    var lines := Lines(document);
    root, view := ReadBlock(lines, TokenizeAll(lines, other), other);
    if root == null || root.typ == "STEP" {
      return null, map[];
    }
    var valid := ValidateRegisteredFields(root, CODEC_REGISTRY, view);
    if !valid {
      return null, map[];
    }
  }

  /** Check a finished block and everything under it against the registry. */
  method ValidateRegisteredFields(block: ParsedBlock, registry: CodecRegistry, ghost view: map<ParsedBlock, Block>)
    returns (ok: bool)
    requires Views(view) && block in view
    ensures ok == Registered(view[block], registry)
    decreases view[block]
  {
    if block.typ !in registry {
      return false;
    }
    var d := registry[block.typ];
    if !(block.fields.Keys <= d.fields) {
      return false;
    }
    if exists path | path in block.fields :: |block.fields[path]| > 1 && path !in d.arrays {
      return false;
    }
    if exists i | 0 <= i < |block.children| :: block.children[i].typ !in d.children {
      return false;
    }
    for i := 0 to |block.children|
      invariant forall k | 0 <= k < i :: Registered(view[block].children[k], registry)
    {
      assert view[block.children[i]] == view[block].children[i];
      var valid := ValidateRegisteredFields(block.children[i], registry, view);
      if !valid {
        return false;
      }
    }
    return true;
  }
}
