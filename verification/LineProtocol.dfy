/** Block structure of a line-protocol document: the recursive grammar, the stack machine
    that the parser runs, and the proof that the two agree. */
module LineProtocol {
  import opened Text
  import opened Json
  import opened Tokens

  /** The value of a parsed block: every field lists its values in document order. */
  datatype Block = Block(typ: string, fields: map<string, seq<Value>>, children: seq<Block>)

  // ----- Grammar -----

  /** Concrete syntax: a block is its boundary lines around fields and blocks in any order. */
  datatype Node = Node(typ: string, items: seq<Item>)
  datatype Item = Field(path: string, value: Value) | Sub(node: Node)

  /** The token string derived from a node */
  function Yield(n: Node): seq<Token>
    decreases n, 0
  {
    [Open(n.typ)] + YieldItems(n.items) + [Close(n.typ)]
  }

  function YieldItem(i: Item): seq<Token>
    decreases i, 0
  {
    match i
    case Field(path, value) => [Entry(path, value)]
    case Sub(n) => Yield(n)
  }

  function YieldItems(items: seq<Item>): seq<Token>
    decreases items, 1
  {
    if items == [] then [] else YieldItems(items[..|items| - 1]) + YieldItem(items[|items| - 1])
  }

  function AddField(fields: map<string, seq<Value>>, path: string, value: Value): map<string, seq<Value>> {
    fields[path := (if path in fields then fields[path] else []) + [value]]
  }

  /** The block that a node means */
  function Meaning(n: Node): Block
    decreases n, 0
  {
    Block(n.typ, FieldsOf(n.items), ChildrenOf(n.items))
  }

  function SubMeaning(i: Item): seq<Block>
    decreases i, 0
  {
    match i
    case Field(_, _) => []
    case Sub(n) => [Meaning(n)]
  }

  function FieldsOf(items: seq<Item>): map<string, seq<Value>> {
    if items == [] then map[]
    else
      var before, last := FieldsOf(items[..|items| - 1]), items[|items| - 1];
      if last.Field? then AddField(before, last.path, last.value) else before
  }

  function ChildrenOf(items: seq<Item>): seq<Block>
    decreases items, 1
  {
    if items == [] then [] else ChildrenOf(items[..|items| - 1]) + SubMeaning(items[|items| - 1])
  }

  // ----- Stack machine -----

  /** Open blocks from the outside in, and the top-level block once it is closed */
  datatype Config = Config(stack: seq<Block>, root: Option<Block>)

  const START := Config([], None)

  function AddChild(b: Block, child: Block): Block {
    b.(children := b.children + [child])
  }

  function Step(c: Config, t: Token): Option<Config> {
    match t
    case Open(typ) =>
      if c.stack == [] && c.root.Some? then None
      else Some(c.(stack := c.stack + [Block(typ, map[], [])]))
    case Close(typ) =>
      if c.stack == [] || c.stack[|c.stack| - 1].typ != typ then None
      else
        var top, below := c.stack[|c.stack| - 1], c.stack[..|c.stack| - 1];
        if below == [] then Some(Config([], Some(top)))
        else Some(c.(stack := below[|below| - 1 := AddChild(below[|below| - 1], top)]))
    case Entry(path, value) =>
      if c.stack == [] then None
      else
        var top := c.stack[|c.stack| - 1];
        Some(c.(stack := c.stack[|c.stack| - 1 := top.(fields := AddField(top.fields, path, value))]))
    case Bad => None
  }

  /** The machine after reading all of `tokens` */
  function Run(c: Config, tokens: seq<Token>): Option<Config> {
    if tokens == [] then Some(c)
    else
      match Run(c, tokens[..|tokens| - 1])
      case Some(d) => Step(d, tokens[|tokens| - 1])
      case None => None
  }

  /** The one block that the tokens form, if they do */
  function BlockOf(tokens: seq<Token>): Option<Block> {
    match Run(START, tokens)
    case Some(c) => if c.stack == [] then c.root else None
    case None => None
  }

  lemma {:induction false} RunAppend(c: Config, a: seq<Token>, b: seq<Token>)
    ensures Run(c, a + b) == match Run(c, a) case Some(d) => Run(d, b) case None => None
  {
    if b == [] {
      assert a + b == a;
    } else {
      var front := b[..|b| - 1];
      RunAppend(c, a, front);
      assert (a + b)[..|a + b| - 1] == a + front;
    }
  }

  /** Reading `b` after `a` has led to `d` */
  lemma RunBoth(c: Config, a: seq<Token>, d: Config, b: seq<Token>)
    requires Run(c, a) == Some(d)
    ensures Run(c, a + b) == Run(d, b)
  {
    RunAppend(c, a, b);
  }

  lemma RunOne(c: Config, t: Token)
    ensures Run(c, [t]) == Step(c, t)
  {
    assert [t][..0] == [];
  }

  /** An open block that has read `items` so far */
  function Partial(typ: string, items: seq<Item>): Block {
    Block(typ, FieldsOf(items), ChildrenOf(items))
  }

  lemma {:induction false} RunItems(below: seq<Block>, root: Option<Block>, typ: string, items: seq<Item>)
    ensures Run(Config(below + [Partial(typ, [])], root), YieldItems(items))
         == Some(Config(below + [Partial(typ, items)], root))
    decreases items, 1
  {
    if items != [] {
      var before, last := items[..|items| - 1], items[|items| - 1];
      var begun, middle := Config(below + [Partial(typ, [])], root), Config(below + [Partial(typ, before)], root);
      assert Run(begun, YieldItems(before)) == Some(middle) by {
        RunItems(below, root, typ, before);
      }
      assert Run(middle, YieldItem(last)) == Some(Config(below + [Partial(typ, items)], root)) by {
        RunItem(below, root, typ, before, last);
        assert before + [last] == items;
      }
      RunBoth(begun, YieldItems(before), middle, YieldItem(last));
    }
  }

  lemma {:induction false} RunItem(below: seq<Block>, root: Option<Block>, typ: string, before: seq<Item>, i: Item)
    ensures Run(Config(below + [Partial(typ, before)], root), YieldItem(i))
         == Some(Config(below + [Partial(typ, before + [i])], root))
    decreases i, 0
  {
    var c := Config(below + [Partial(typ, before)], root);
    ItemAppended(before, i);
    match i
    case Field(path, value) =>
      RunOne(c, Entry(path, value));
      assert ChildrenOf(before) + [] == ChildrenOf(before);
      assert c.stack[|below| := Partial(typ, before + [i])] == below + [Partial(typ, before + [i])];
    case Sub(n) =>
      RunNode(c, n);
      assert c.stack[|below| := AddChild(c.stack[|below|], Meaning(n))] == below + [Partial(typ, before + [i])];
  }

  /** Reading a node's tokens hangs its meaning under the innermost open block. */
  lemma {:induction false} RunNode(c: Config, n: Node)
    requires c.stack != [] || c.root == None
    ensures Run(c, Yield(n)) == Some(
      if c.stack == [] then Config([], Some(Meaning(n)))
      else c.(stack := c.stack[|c.stack| - 1 := AddChild(c.stack[|c.stack| - 1], Meaning(n))]))
    decreases n, 0
  {
    var begun := Config(c.stack + [Partial(n.typ, [])], c.root);
    var filled := Config(c.stack + [Partial(n.typ, n.items)], c.root);
    assert Run(c, [Open(n.typ)]) == Some(begun) by {
      RunOne(c, Open(n.typ));
    }
    assert Run(begun, YieldItems(n.items)) == Some(filled) by {
      RunItems(c.stack, c.root, n.typ, n.items);
    }
    RunBoth(c, [Open(n.typ)], begun, YieldItems(n.items));
    RunBoth(c, [Open(n.typ)] + YieldItems(n.items), filled, [Close(n.typ)]);
    CloseFilled(c, n, filled);
  }

  lemma CloseFilled(c: Config, n: Node, filled: Config)
    requires c.stack != [] || c.root == None
    requires filled == Config(c.stack + [Meaning(n)], c.root)
    ensures Run(filled, [Close(n.typ)]) == Some(
      if c.stack == [] then Config([], Some(Meaning(n)))
      else c.(stack := c.stack[|c.stack| - 1 := AddChild(c.stack[|c.stack| - 1], Meaning(n))]))
  {
    RunOne(filled, Close(n.typ));
    assert filled.stack[..|c.stack|] == c.stack;
  }

  // Every accepted token string is derived: `open` are the nodes still being read.

  function YieldOpen(open: seq<Node>): seq<Token> {
    if open == [] then []
    else
      var n := open[|open| - 1];
      YieldOpen(open[..|open| - 1]) + [Open(n.typ)] + YieldItems(n.items)
  }

  ghost predicate Derives(tokens: seq<Token>, c: Config, open: seq<Node>, root: Option<Node>) {
    && |open| == |c.stack|
    && (forall i | 0 <= i < |open| :: c.stack[i] == Partial(open[i].typ, open[i].items))
    && match (c.root, root) {
         case (None, None) => tokens == YieldOpen(open)
         case (Some(b), Some(n)) => open == [] && b == Meaning(n) && tokens == Yield(n)
         case _ => false
       }
  }

  lemma ItemAppended(items: seq<Item>, i: Item)
    ensures YieldItems(items + [i]) == YieldItems(items) + YieldItem(i)
    ensures FieldsOf(items + [i]) ==
      if i.Field? then AddField(FieldsOf(items), i.path, i.value) else FieldsOf(items)
    ensures ChildrenOf(items + [i]) == ChildrenOf(items) + SubMeaning(i)
  {
    assert (items + [i])[..|items|] == items;
  }

  lemma OpenAppended(open: seq<Node>, n: Node)
    ensures YieldOpen(open + [n]) == YieldOpen(open) + [Open(n.typ)] + YieldItems(n.items)
  {
    assert (open + [n])[..|open|] == open;
  }

  lemma {:induction false} RunIsDerived(tokens: seq<Token>) returns (open: seq<Node>, root: Option<Node>)
    requires Run(START, tokens).Some?
    ensures Derives(tokens, Run(START, tokens).value, open, root)
    decreases |tokens|
  {
    if tokens == [] {
      return [], None;
    }
    var front, t := tokens[..|tokens| - 1], tokens[|tokens| - 1];
    assert tokens == front + [t];
    open, root := RunIsDerived(front);
    open, root := StepIsDerived(front, t, Run(START, front).value, open, root);
  }

  lemma StepIsDerived(tokens: seq<Token>, t: Token, c: Config, open: seq<Node>, root: Option<Node>)
    returns (open': seq<Node>, root': Option<Node>)
    requires Derives(tokens, c, open, root) && Step(c, t).Some?
    ensures Derives(tokens + [t], Step(c, t).value, open', root')
  {
    open', root' := open, root;
    match t
    case Open(typ) =>
      open' := OpenInside(tokens, c, open, typ);
    case Entry(path, value) =>
      ItemAppended(open[|open| - 1].items, Field(path, value));
      open' := Extend(tokens, c, open, Field(path, value));
    case Close(typ) =>
      open', root' := CloseInnermost(tokens, c, open);
  }

  /** One more open node */
  lemma OpenInside(tokens: seq<Token>, c: Config, open: seq<Node>, typ: string) returns (open': seq<Node>)
    requires Derives(tokens, c, open, None)
    ensures Derives(tokens + [Open(typ)], c.(stack := c.stack + [Block(typ, map[], [])]), open', None)
  {
    open' := open + [Node(typ, [])];
    OpenAppended(open, Node(typ, []));
  }

  /** One more item for the innermost open node */
  lemma Extend(tokens: seq<Token>, c: Config, open: seq<Node>, i: Item) returns (open': seq<Node>)
    requires Derives(tokens, c, open, None) && open != []
    ensures
      var n := open[|open| - 1];
      Derives(tokens + YieldItem(i),
              c.(stack := c.stack[|c.stack| - 1 := Partial(n.typ, n.items + [i])]), open', None)
  {
    var below, n := open[..|open| - 1], open[|open| - 1];
    ItemAppended(n.items, i);
    open' := below + [Node(n.typ, n.items + [i])];
    OpenAppended(below, Node(n.typ, n.items + [i]));
    assert tokens + YieldItem(i) == YieldOpen(open');
  }

  lemma CloseInnermost(tokens: seq<Token>, c: Config, open: seq<Node>)
    returns (open': seq<Node>, root: Option<Node>)
    requires Derives(tokens, c, open, None) && open != []
    ensures
      var t := Close(open[|open| - 1].typ);
      Step(c, t).Some? && Derives(tokens + [t], Step(c, t).value, open', root)
  {
    var below, n := open[..|open| - 1], open[|open| - 1];
    assert tokens + [Close(n.typ)] == YieldOpen(below) + Yield(n);
    if below == [] {
      assert tokens + [Close(n.typ)] == Yield(n);
      open', root := [], Some(n);
    } else {
      var d := Config(c.stack[..|below|], None);
      root := None;
      open' := Extend(YieldOpen(below), d, below, Sub(n));
      ItemAppended(below[|below| - 1].items, Sub(n));
    }
  }

  /** The stack machine accepts exactly the derivable token strings, with their meaning. */
  lemma MachineIsGrammar(tokens: seq<Token>, b: Block)
    ensures BlockOf(tokens) == Some(b) <==> exists n :: Yield(n) == tokens && Meaning(n) == b
  {
    if BlockOf(tokens) == Some(b) {
      var open, root := RunIsDerived(tokens);
      assert Yield(root.value) == tokens && Meaning(root.value) == b;
    }
    forall n | Yield(n) == tokens && Meaning(n) == b
      ensures BlockOf(tokens) == Some(b)
    {
      RunNode(START, n);
    }
  }
}
